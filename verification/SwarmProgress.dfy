/** A swarm can always be given up: wherever a run has come to, the calls in progress can end, the handles can be
    dropped, and then everything is destroyed and freed. */
module SwarmProgress {
  import opened Counting
  import opened Swarm
  import opened SwarmInvariant
  import opened SwarmTheorems
  import opened Paths

  lemma Further(s: State, t: State, u: State)
    requires Leads(Next, s, t) && Inv(t) && Next(t, u)
    ensures Leads(Next, s, u) && Inv(u)
  {
    Then(Next, s, t, u);
    SwarmInvariant.NextPreserves(t, u);
  }

  // ---------- what is left to do ----------

  /** A call that will give handles back. */
  function Weight(act: Act): nat {
    match act
    case PromoteLoad => 3
    case PromoteSwap(_) => 3
    case MakeStart => 2
    case MakeLink(_) => 2
    case MakeSwap(_, _) => 2
    case _ => 0
  }

  /** The handles, and the calls that hold some. */
  ghost function Handles(s: State): nat {
    s.idleStrong + s.idleWeak + Sum(s.acts, Weight)
  }

  /** How far a call is from its end, the list aside. */
  function Distance(act: Act): nat {
    match act
    case DestroyStart => 8
    case ReleaseMember(_) => 9
    case DestroyAt(_) => 6
    case ReleaseFirst => 4
    case FreeContainer => 1
    case _ => 0
  }

  ghost function Remains(s: State): nat {
    4 * (if s.gone <= |s.chain| then |s.chain| - s.gone else 0) + Sum(s.acts, Distance)
  }

  lemma SetHandles(s: State, t: State, a: nat)
    requires a < |s.acts| && a < |t.acts| && t.acts == s.acts[a := t.acts[a]]
    ensures Handles(t) - t.idleStrong - t.idleWeak ==
            Handles(s) - s.idleStrong - s.idleWeak - Weight(s.acts[a]) + Weight(t.acts[a])
  {
    SumUpdate(s.acts, a, t.acts[a], Weight);
  }

  // ---------- promotions and pushes ----------

  /** A promotion loads the counter, and swaps what it has just loaded. */
  lemma PromotionEnds(s: State, a: nat) returns (t: State)
    requires Inv(s) && a < |s.acts| && (s.acts[a].PromoteLoad? || s.acts[a].PromoteSwap?)
    ensures Leads(Next, s, t) && Inv(t) && t.acts == s.acts[a := Promoted(s.refCount > 0)]
    ensures Handles(t) < Handles(s)
  {
    Stays(Next, s);
    var now := s;
    if s.acts[a].PromoteLoad? || s.acts[a].seen != s.refCount {
      now := Tried(s, a);
      assert PromoteStep(s, now, a) && CallStep(s, now, a);
      Further(s, s, now);
    }
    t := now;
    if now.acts[a].PromoteSwap? {
      t := Set(now, a, Promoted(true)).(
             refCount := now.refCount + 1, idleStrong := now.idleStrong + 1, idleWeak := now.idleWeak + 1);
      assert ActOK(s, a) && PromoteStep(now, t, a) && CallStep(now, t, a);
      Further(s, now, t);
    }
    SetHandles(s, t, a);
  }

  /** A push reads the head, and swaps it. */
  lemma PushEnds(s: State, a: nat, m: nat) returns (t: State)
    requires Inv(s) && a < |s.acts| && s.acts[a] == MakeLink(m)
    ensures Leads(Next, s, t) && Inv(t) && t.acts == s.acts[a := Ended] && t.chain == [m] + s.chain
    ensures t.idleStrong == s.idleStrong + 1 && t.idleWeak == s.idleWeak
  {
    assert ActOK(s, a);
    Stays(Next, s);
    var linked := Set(s, a, MakeSwap(m, s.head)).(members := s.members[m := s.members[m].(next := s.head)]);
    assert MakeStep(s, linked, a) && CallStep(s, linked, a);
    Further(s, s, linked);
    t := Set(linked, a, Ended).(
           head := Ref(m), members := linked.members[m := linked.members[m].(status := Linked)],
           chain := [m] + s.chain, idleStrong := s.idleStrong + 1);
    assert MakeStep(linked, t, a) && CallStep(linked, t, a);
    Further(s, linked, t);
  }

  lemma MakeEnds(s: State, a: nat) returns (t: State)
    requires Inv(s) && a < |s.acts| && HoldsStrong(s.acts[a])
    ensures Leads(Next, s, t) && Inv(t) && t.acts == s.acts[a := Ended] && Handles(t) < Handles(s)
  {
    assert ActOK(s, a);
    Stays(Next, s);
    var now := s;
    if s.acts[a].MakeStart? {
      now := Set(s, a, MakeLink(|s.members|)).(
               members := s.members + [Member(Building, Null, 0, a)], weakRefCount := s.weakRefCount + 1);
      assert MakeStep(s, now, a) && CallStep(s, now, a);
      Further(s, s, now);
    } else if s.acts[a].MakeSwap? {
      now := Set(s, a, MakeLink(s.acts[a].member));
      assert MakeStep(s, now, a) && CallStep(s, now, a);
      Further(s, s, now);
    }
    t := PushEnds(now, a, now.acts[a].member);
    Joins(Next, s, now, t);
    SetHandles(s, t, a);
  }

  // ---------- handles ----------

  lemma Drops(s: State) returns (t: State)
    requires Inv(s) && (s.idleStrong > 0 || s.idleWeak > 0)
    ensures Leads(Next, s, t) && Inv(t) && Handles(t) < Handles(s)
  {
    Stays(Next, s);
    if s.idleStrong > 0 {
      var dropped := s.(refCount := s.refCount - 1, idleStrong := s.idleStrong - 1);
      t := if dropped.refCount == 0 then Spawn(dropped, DestroyStart) else dropped;
      if t.acts != s.acts { SumAppend(s.acts, DestroyStart, Weight); }
      assert DropStrong(s, t) && HandleStep(s, t);
    } else {
      t := WeakReleased(s.(idleWeak := s.idleWeak - 1));
      if t.acts != s.acts { SumAppend(s.acts, FreeContainer, Weight); }
      assert DropWeak(s, t) && HandleStep(s, t);
    }
    Further(s, s, t);
  }

  // ---------- destruction ----------

  predicate TearsDown(act: Act) {
    Destroys(act) || Frees(act)
  }

  lemma Moves(s: State, t: State, a: nat)
    requires Inv(s) && a < |s.acts| && DestroyStep(s, t, a) && t.idleStrong == s.idleStrong && t.idleWeak == s.idleWeak
    requires a < |t.acts| && t.acts == s.acts[a := t.acts[a]] && Weight(s.acts[a]) == Weight(t.acts[a])
    requires t.chain == s.chain
    requires Distance(t.acts[a]) < Distance(s.acts[a]) + if t.gone == s.gone + 1 <= |s.chain| then 4 else 0
    requires t.gone == s.gone || t.gone == s.gone + 1 <= |s.chain|
    ensures Leads(Next, s, t) && Inv(t) && Handles(t) == Handles(s) && Remains(t) < Remains(s)
  {
    assert CallStep(s, t, a);
    Stays(Next, s);
    Further(s, s, t);
    SumUpdate(s.acts, a, t.acts[a], Weight);
    SumUpdate(s.acts, a, t.acts[a], Distance);
  }

  /** A call gives up a weak reference, and perhaps it was the last one. */
  lemma Releases(s: State, a: nat, x: Act) returns (t: State)
    requires Inv(s) && a < |s.acts| && s.weakRefCount > 0 && Weight(s.acts[a]) == Weight(x) == 0
    requires Distance(x) + 1 < Distance(s.acts[a])
    requires DestroyStep(s, WeakReleased(Set(s, a, x)), a)
    ensures Leads(Next, s, t) && Inv(t) && Handles(t) == Handles(s) && Remains(t) < Remains(s)
  {
    t := WeakReleased(Set(s, a, x));
    assert CallStep(s, t, a);
    Stays(Next, s);
    Further(s, s, t);
    SumUpdate(s.acts, a, x, Weight);
    SumUpdate(s.acts, a, x, Distance);
    SumAppend(s.acts[a := x], FreeContainer, Weight);
    SumAppend(s.acts[a := x], FreeContainer, Distance);
  }

  lemma TearDownAdvances(s: State, a: nat) returns (t: State)
    requires Inv(s) && a < |s.acts| && TearsDown(s.acts[a])
    ensures Leads(Next, s, t) && Inv(t) && Handles(t) == Handles(s) && Remains(t) < Remains(s)
  {
    assert ActOK(s, a);
    Counted(s, a);
    match s.acts[a] {
      case DestroyStart =>
        t := Set(s, a, DestroyAt(s.head));
        Moves(s, t, a);
      case DestroyAt(Ref(m)) => t := DestroyAdvances(s, a, m);
      case ReleaseMember(m) =>
        assert NodeOK(s.members, s.chain, s.gone, s.gone - 1);
        t := Releases(s, a, DestroyAt(s.members[m].next));
      case DestroyAt(Null) =>
        t := Set(s, a, ReleaseFirst).(firstAlive := false);
        Moves(s, t, a);
      case ReleaseFirst => t := Releases(s, a, Ended);
      case FreeContainer =>
        t := Set(s, a, Ended).(freed := s.freed + 1);
        Moves(s, t, a);
    }
  }

  lemma DestroyAdvances(s: State, a: nat, m: nat) returns (t: State)
    requires Inv(s) && a < |s.acts| && s.acts[a] == DestroyAt(Ref(m))
    ensures Leads(Next, s, t) && Inv(t) && Handles(t) == Handles(s) && Remains(t) < Remains(s)
  {
    assert ActOK(s, a);
    assert NodeOK(s.members, s.chain, s.gone, s.gone);
    t := Set(s, a, ReleaseMember(m)).(
           gone := s.gone + 1,
           members := s.members[m := s.members[m].(
                        status := Destroyed, destructions := s.members[m].destructions + 1)]);
    Moves(s, t, a);
  }

  // ---------- to the end ----------

  ghost predicate AtRest(s: State) {
    && s.idleStrong == 0 && s.idleWeak == 0
    && forall a :: 0 <= a < |s.acts| ==> Over(s.acts[a])
  }

  lemma {:induction false} ComesToRest(s: State) returns (t: State)
    requires Inv(s)
    ensures Leads(Next, s, t) && Inv(t) && AtRest(t)
    decreases Handles(s), Remains(s)
  {
    t := s;
    Stays(Next, s);
    if !AtRest(s) {
      var u: State;
      if s.idleStrong > 0 || s.idleWeak > 0 {
        u := Drops(s);
      } else {
        var a: nat :| a < |s.acts| && !Over(s.acts[a]);
        if TearsDown(s.acts[a]) { u := TearDownAdvances(s, a); }
        else if HoldsStrong(s.acts[a]) { u := MakeEnds(s, a); }
        else { u := PromotionEnds(s, a); }
      }
      t := ComesToRest(u);
      Joins(Next, s, u, t);
    }
  }

  ghost predicate Reachable(s: State) {
    exists run :: Run(run) && run[|run| - 1] == s
  }

  lemma Extends(run: seq<State>, path: seq<State>) returns (longer: seq<State>)
    requires Run(run) && Path(Next, path) && path[0] == run[|run| - 1]
    ensures Run(longer) && longer[|longer| - 1] == path[|path| - 1]
  {
    longer := run + path[1..];
    forall i | 0 <= i < |longer| - 1 ensures StepAt(longer, i) {
      if i < |run| - 1 { assert StepAt(run, i); } else { assert StepOf(Next, path, i - (|run| - 1)); }
    }
  }

  /** From everywhere a run can come to, everything can be given up: then every object is destroyed, once, and the
      container is freed, once. */
  lemma CanBeFreed(s: State)
    requires Reachable(s)
    ensures exists t :: Leads(Next, s, t) && t.freed == 1 && !t.firstAlive
                        && forall m :: 0 <= m < |t.members| ==> t.members[m].destructions == 1
  {
    var run :| Run(run) && run[|run| - 1] == s;
    RunInv(run, |run| - 1);
    var t := ComesToRest(s);
    var path :| Path(Next, path) && path[0] == s && path[|path| - 1] == t;
    var longer := Extends(run, path);
    NothingLeaks(longer, |longer| - 1);
  }
}
