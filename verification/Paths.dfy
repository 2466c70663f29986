/** Finite sequences of steps from one state of a machine to another. */
module Paths {

  ghost predicate StepOf<S(!new)>(next: (S, S) -> bool, path: seq<S>, i: nat)
    requires i + 1 < |path|
  {
    next(path[i], path[i + 1])
  }

  ghost predicate Path<S(!new)>(next: (S, S) -> bool, path: seq<S>) {
    |path| > 0 && forall i {:trigger StepOf(next, path, i)} :: 0 <= i < |path| - 1 ==> StepOf(next, path, i)
  }

  /** The machine can get from s to t. */
  ghost predicate Leads<S(!new)>(next: (S, S) -> bool, s: S, t: S) {
    exists path :: Path(next, path) && path[0] == s && path[|path| - 1] == t
  }

  lemma Stays<S(!new)>(next: (S, S) -> bool, s: S)
    ensures Leads(next, s, s)
  {
    assert Path(next, [s]);
  }

  lemma Then<S(!new)>(next: (S, S) -> bool, s: S, t: S, u: S)
    requires Leads(next, s, t) && next(t, u)
    ensures Leads(next, s, u)
  {
    var path :| Path(next, path) && path[0] == s && path[|path| - 1] == t;
    var longer := path + [u];
    forall i | 0 <= i < |longer| - 1 ensures StepOf(next, longer, i) {
      if i < |path| - 1 { assert StepOf(next, path, i); }
    }
    assert Path(next, longer) && longer[0] == s;
  }

  lemma Joins<S(!new)>(next: (S, S) -> bool, s: S, t: S, u: S)
    requires Leads(next, s, t) && Leads(next, t, u)
    ensures Leads(next, s, u)
  {
    var front :| Path(next, front) && front[0] == s && front[|front| - 1] == t;
    var back :| Path(next, back) && back[0] == t && back[|back| - 1] == u;
    var whole := front + back[1..];
    forall i | 0 <= i < |whole| - 1 ensures StepOf(next, whole, i) {
      if i < |front| - 1 {
        assert StepOf(next, front, i);
      } else {
        assert StepOf(next, back, i - (|front| - 1));
      }
    }
    assert Path(next, whole) && whole[0] == s && whole[|whole| - 1] == u;
  }

  /** More steps, more paths. */
  lemma Widens<S(!new)>(next: (S, S) -> bool, wider: (S, S) -> bool, s: S, t: S)
    requires Leads(next, s, t) && forall x, y :: next(x, y) ==> wider(x, y)
    ensures Leads(wider, s, t)
  {
    var path :| Path(next, path) && path[0] == s && path[|path| - 1] == t;
    forall i | 0 <= i < |path| - 1 ensures StepOf(wider, path, i) {
      assert StepOf(next, path, i);
    }
    assert Path(wider, path);
  }
}
