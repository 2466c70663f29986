/** WhenAll never gets stuck: wherever it stands, AddContinuation and the callbacks can all come to their end. */
module WhenAllProgress {
  import opened Options
  import opened FutureCore
  import opened WhenAll
  import opened WhenAllInvariant
  import opened WhenAllTheorems
  import opened Paths

  ghost function Steps(c: Config): (State, State) -> bool {
    (s: State, t: State) => Next(c, s, t)
  }

  /** One more step of a path that keeps the invariant. */
  lemma Further(c: Config, s: State, t: State, u: State)
    requires Leads(Steps(c), s, t) && Inv(c, t) && Next(c, t, u)
    ensures Leads(Steps(c), s, u) && Inv(c, u)
  {
    Then(Steps(c), s, t, u);
    NextPreserves(c, t, u);
  }

  // ---------- AddContinuation ----------

  /** How far it is from its swap. */
  function AddDistance(s: State): nat {
    match s.adding
    case Between => 7
    case Loaded(seen) => if s.added < |s.words| && s.words[s.added] == seen then 3 else 6
    case Detached(seen) => if s.added < |s.words| && s.words[s.added] == seen then 2 else 5
    case Linked(seen) => if s.added < |s.words| && s.words[s.added] == seen then 1 else 4
  }

  lemma AddAdvances(c: Config, s: State) returns (t: State)
    requires Inv(c, s) && s.added < |c.outcomes|
    ensures AddStep(c, s, t) && t.pcs == s.pcs
    ensures t.added == s.added + 1 || (t.added == s.added && AddDistance(t) < AddDistance(s))
  {
    match s.adding {
      case Between => t := s.(adding := Loaded(s.words[s.added]));
      case Loaded(seen) => t := s.(adding := Detached(seen), linked := false);
      case Detached(seen) => t := s.(adding := Linked(seen), linked := seen.hasContinuation && !seen.done);
      case Linked(seen) =>
        if s.words[s.added] == seen {
          t := s.(added := s.added + 1, adding := Between,
                  words := if seen.done then s.words else s.words[s.added := ParentWord(true, false)]);
        } else {
          t := s.(adding := Loaded(s.words[s.added]));
        }
    }
  }

  lemma {:induction false} AddsAll(c: Config, s: State) returns (t: State)
    requires Inv(c, s)
    ensures Leads(Steps(c), s, t) && Inv(c, t) && t.added == |c.outcomes| && t.pcs == s.pcs
    decreases |c.outcomes| - s.added, AddDistance(s)
  {
    t := s;
    Stays(Steps(c), s);
    if s.added < |c.outcomes| {
      var u := AddAdvances(c, s);
      Further(c, s, s, u);
      t := AddsAll(c, u);
      Joins(Steps(c), s, u, t);
    }
  }

  // ---------- the parents ----------

  /** The first n parents settle. */
  lemma {:induction false} SettleFirst(c: Config, s: State, n: nat) returns (t: State)
    requires Inv(c, s) && s.added == |c.outcomes| && n <= |c.outcomes|
    ensures Leads(Steps(c), s, t) && Inv(c, t) && t.added == s.added && t.pcs == s.pcs
    ensures forall k :: 0 <= k < n ==> t.words[k].done
  {
    t := s;
    Stays(Steps(c), s);
    if n > 0 {
      t := SettleFirst(c, s, n - 1);
      if !t.words[n - 1].done {
        var u := t.(words := t.words[n - 1 := ParentWord(false, true)]);
        assert ParentStep(c, t, u, n - 1);
        Further(c, s, t, u);
        t := u;
      }
    }
  }

  // ---------- the callbacks ----------

  function Phase(pc: Pc): nat {
    match pc
    case Over(_) => 0
    case Settling(_, _) => 1
    case Copying(_) => 2
    case Keeping => 2
    case Claiming(_, _) => 3
    case Counting => 4
    case Storing => 5
    case Waiting => 6
  }

  function LoopDistance(loop: Loop, state: FutureState): nat {
    match loop
    case Load => 5
    case Check(seen) => if seen == state then 2 else 4
    case Swap(expected, _) => if expected == state then 1 else 3
  }

  /** How many values it has still to copy, or how far it is from its swap. */
  function Distance(c: Config, s: State, pc: Pc): nat {
    match pc
    case Copying(k) => if k <= |c.outcomes| then |c.outcomes| - k else 0
    case Claiming(_, loop) => LoopDistance(loop, s.state)
    case Settling(_, loop) => LoopDistance(loop, s.state)
    case _ => 0
  }

  /** Callback i moves towards its end, and nothing else does. */
  ghost predicate Advances(c: Config, s: State, t: State, i: nat) {
    && CallbackStep(c, s, t, i) && i < |s.pcs| == |t.pcs| && t.pcs == s.pcs[i := t.pcs[i]]
    && t.added == s.added && t.words == s.words
    && (|| t.crash != NoCrash
        || Phase(t.pcs[i]) < Phase(s.pcs[i])
        || (Phase(t.pcs[i]) == Phase(s.pcs[i]) && Distance(c, t, t.pcs[i]) < Distance(c, s, s.pcs[i])))
  }

  lemma InvokeAdvances(c: Config, s: State, i: nat) returns (t: State)
    requires Inv(c, s) && i < |s.pcs| && (s.pcs[i].Waiting? ==> i < s.added && s.words[i].done)
    requires s.pcs[i].Waiting? || s.pcs[i].Storing? || s.pcs[i].Counting?
    ensures Advances(c, s, t, i)
  {
    match s.pcs[i] {
      case Waiting =>
        t := Go(s, i, if c.outcomes[i].Value? then Storing else Claiming(StartSetError, Load));
        assert PostStep(c, s, t, i);
      case Storing =>
        t := Go(s, i, Counting).(held := s.held[i := true]);
        assert InvokeStep(c, s, t, i);
      case Counting =>
        var settle := if c.hasValue then Claiming(StartSetValue, Load) else Settling(SetSuccess, Load);
        t := Go(s, i, if s.completeCount + 1 == |c.outcomes| then settle else Over(true)).(
               completeCount := s.completeCount + 1);
        assert InvokeStep(c, s, t, i);
    }
  }

  lemma ClaimAdvances(c: Config, s: State, i: nat) returns (t: State)
    requires Inv(c, s) && i < |s.pcs| && s.pcs[i].Claiming?
    ensures Advances(c, s, t, i)
  {
    assert PcOK(c, s, i);
    var Claiming(req, loop) := s.pcs[i];
    match loop {
      case Load => t := Go(s, i, Claiming(req, Check(s.state)));
      case Check(seen) =>
        var d := WhenAll.Decided(c, s, req, seen);
        t := if d.MoveTo? then Go(s, i, Claiming(req, Swap(seen, d.next)))
             else if req == StartSetError then Go(s, i, Over(false))
             else s.(crash := ValueRefused);
      case Swap(seen, next) =>
        t := if s.state == seen then
               Go(s, i, if req == StartSetError then Keeping else Copying(0)).(state := next, winner := Some(i))
             else Go(s, i, Claiming(req, Check(s.state)));
    }
    assert ClaimStep(c, s, t, i);
  }

  lemma WriteAdvances(c: Config, s: State, i: nat) returns (t: State)
    requires Inv(c, s) && i < |s.pcs| && (s.pcs[i].Copying? || s.pcs[i].Keeping?)
    ensures Advances(c, s, t, i)
  {
    assert PcOK(c, s, i);
    match s.pcs[i] {
      case Copying(k) =>
        t := if k >= |c.outcomes| then Go(s, i, Settling(SetSuccess, Load))
             else if c.outcomes[k].Error? then s.(crash := ValueMissing)
             else Go(s, i, Copying(k + 1)).(values := s.values[k := Some(c.outcomes[k].value)]);
      case Keeping =>
        t := Go(s, i, Settling(FinishError, Load)).(error := Some(c.outcomes[i].error));
    }
    assert WriteStep(c, s, t, i);
  }

  lemma SettleAdvances(c: Config, s: State, i: nat) returns (t: State)
    requires Inv(c, s) && i < |s.pcs| && s.pcs[i].Settling?
    ensures Advances(c, s, t, i)
  {
    assert PcOK(c, s, i);
    var Settling(req, loop) := s.pcs[i];
    match loop {
      case Load => t := Go(s, i, Settling(req, Check(s.state)));
      case Check(seen) =>
        var d := WhenAll.Decided(c, s, req, seen);
        t := if d.MoveTo? then Go(s, i, Settling(req, Swap(seen, d.next)))
             else s.(crash := if req == FinishError then FailedRefused else SuccessRefused);
      case Swap(_, next) =>  // it finds what it saw: nobody else settles
        t := Go(s, i, Over(req == SetSuccess)).(state := next, error := if next == Failed then s.error else None);
    }
    assert SettleStep(c, s, t, i);
  }

  lemma CallbackAdvances(c: Config, s: State, i: nat) returns (t: State)
    requires Inv(c, s) && i < |s.pcs| && !s.pcs[i].Over? && i < s.added && s.words[i].done
    ensures Advances(c, s, t, i)
  {
    match s.pcs[i] {
      case Claiming(_, _) => t := ClaimAdvances(c, s, i);
      case Copying(_) => t := WriteAdvances(c, s, i);
      case Keeping => t := WriteAdvances(c, s, i);
      case Settling(_, _) => t := SettleAdvances(c, s, i);
      case _ => t := InvokeAdvances(c, s, i);
    }
  }

  lemma {:induction false} CallbackEnds(c: Config, s: State, i: nat) returns (t: State)
    requires Inv(c, s) && i < |s.pcs| && i < s.added && s.words[i].done
    ensures Leads(Steps(c), s, t) && Inv(c, t) && t.added == s.added && t.words == s.words
    ensures t.pcs == s.pcs[i := t.pcs[i]] && t.pcs[i].Over?
    decreases Phase(s.pcs[i]), Distance(c, s, s.pcs[i])
  {
    t := s;
    Stays(Steps(c), s);
    if !s.pcs[i].Over? {
      var u := CallbackAdvances(c, s, i);
      Further(c, s, s, u);
      t := CallbackEnds(c, u, i);
      Joins(Steps(c), s, u, t);
    }
  }

  /** The first n callbacks, one after the other. */
  lemma {:induction false} CallbacksEnd(c: Config, s: State, n: nat) returns (t: State)
    requires Inv(c, s) && s.added == |c.outcomes| && n <= |c.outcomes|
    requires forall k :: 0 <= k < |s.words| ==> s.words[k].done
    ensures Leads(Steps(c), s, t) && Inv(c, t) && t.added == s.added && t.words == s.words
    ensures forall k :: 0 <= k < n ==> t.pcs[k].Over?
  {
    t := s;
    Stays(Steps(c), s);
    if n > 0 {
      var u := CallbacksEnd(c, s, n - 1);
      t := CallbackEnds(c, u, n - 1);
      Joins(Steps(c), s, u, t);
    }
  }

  /** From everywhere a run can come to, it can end: every parent added to and settled, every callback over. So the
      theorems about ended runs speak of runs there are. */
  lemma CanEnd(c: Config, s: State)
    requires Reachable(c, s)
    ensures exists t :: Leads(Steps(c), s, t) && Ended(c, t)
  {
    var run :| Run(c, run) && run[|run| - 1] == s;
    RunInv(c, run, |run| - 1);
    var added := AddsAll(c, s);
    var settled := SettleFirst(c, added, |c.outcomes|);
    Joins(Steps(c), s, added, settled);
    var t := CallbacksEnd(c, settled, |c.outcomes|);
    Joins(Steps(c), s, settled, t);
  }

  /** Unless it is at risk, that end is the right one from everywhere: the combined future can always be settled. */
  lemma CanSettle(c: Config, s: State)
    requires Reachable(c, s) && !AtRisk(c)
    ensures exists t :: Leads(Steps(c), s, t) && t.state == if AllSucceed(c) then Succeeded else Failed
  {
    CanEnd(c, s);
    var t :| Leads(Steps(c), s, t) && Ended(c, t);
    var run :| Run(c, run) && run[|run| - 1] == s;
    RunInv(c, run, |run| - 1);
    var path :| Path(Steps(c), path) && path[0] == s && path[|path| - 1] == t;
    PathInv(c, path, |path| - 1);
    EndIsSettled(c, t);
  }

  lemma {:induction false} PathInv(c: Config, path: seq<State>, i: nat)
    requires Path(Steps(c), path) && i < |path| && Inv(c, path[0])
    ensures Inv(c, path[i])
  {
    if i > 0 {
      PathInv(c, path, i - 1);
      assert StepOf(Steps(c), path, i - 1);
      NextPreserves(c, path[i - 1], path[i]);
    }
  }
}
