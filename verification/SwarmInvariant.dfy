/** The invariant of a swarm: its counters are exact (CountsOK), its list is intact (ListOK), and each call is where the
    counters and the list say (ActsOK).

    The counters are tied to the calls by counting: how many calls hold a strong reference, hold a weak one, destroy,
    or free. A step moves one call from one point to another, or begins one, so it moves these counts by at most one
    each (Moved). The members destroyed so far are the first ones of the list; the walk stands behind them, and no
    member is under construction any more when it runs, because its maker would hold a strong reference. */
module SwarmInvariant {
  import opened Counting
  import opened Swarm

  predicate HoldsStrong(act: Act) {
    act.MakeStart? || act.MakeLink? || act.MakeSwap?
  }

  predicate HoldsWeak(act: Act) {
    act.PromoteLoad? || act.PromoteSwap? || act.ReleaseMember? || act.ReleaseFirst?
  }

  predicate Destroys(act: Act) {
    act.DestroyStart? || act.DestroyAt? || act.ReleaseMember? || act.ReleaseFirst?
  }

  predicate Frees(act: Act) {
    act.FreeContainer?
  }

  predicate Alive(m: Member) {
    m.status != Destroyed
  }

  /** How many calls in progress hold a strong or a weak reference, destroy, or free. */
  datatype Tally = Tally(strong: nat, weak: nat, destroying: nat, freeing: nat)

  ghost function TallyOf(acts: seq<Act>): Tally {
    Tally(Count(acts, HoldsStrong), Count(acts, HoldsWeak), Count(acts, Destroys), Count(acts, Frees))
  }

  ghost predicate Balanced(s: State, y: Tally, alive: nat) {
    && s.refCount == s.idleStrong + y.strong
    && s.weakRefCount == s.idleWeak + y.weak + alive + One(s.firstAlive)
    && (s.refCount > 0 ==> s.firstAlive && s.gone == 0 && y.destroying == 0)
    && y.destroying <= 1
    && (s.firstAlive && s.refCount == 0 ==> y.destroying == 1)
    && (!s.firstAlive ==> s.gone == |s.chain|)
    && y.freeing + s.freed == One(s.weakRefCount == 0)
  }

  ghost predicate CountsOK(s: State) {
    Balanced(s, TallyOf(s.acts), Count(s.members, Alive))
  }

  function Head(chain: seq<nat>): Ptr {
    if chain == [] then Null else Ref(chain[0])
  }

  /** Entry k of the list: the destroyed members are the first ones. */
  ghost predicate NodeOK(members: seq<Member>, chain: seq<nat>, gone: nat, k: nat)
    requires k < |chain|
  {
    && chain[k] < |members|
    && members[chain[k]].status == (if k < gone then Destroyed else Linked)
    && members[chain[k]].destructions == One(k < gone)
    && members[chain[k]].next == Head(chain[k + 1..])
  }

  ghost predicate Builds(act: Act, m: nat) {
    (act.MakeLink? && act.member == m) || (act.MakeSwap? && act.member == m)
  }

  /** A member is in the list, or one call is building it. */
  ghost predicate MemberOK(members: seq<Member>, acts: seq<Act>, chain: seq<nat>, m: nat)
    requires m < |members|
  {
    if members[m].status == Building
    then members[m].destructions == 0 && members[m].maker < |acts| && Builds(acts[members[m].maker], m)
    else m in chain
  }

  ghost predicate ListOK(s: State) {
    && s.head == Head(s.chain) && s.gone <= |s.chain|
    && (forall k {:trigger NodeOK(s.members, s.chain, s.gone, k)} :: 0 <= k < |s.chain| ==>
          NodeOK(s.members, s.chain, s.gone, k))
    && (forall j, k :: 0 <= j < k < |s.chain| ==> s.chain[j] != s.chain[k])
    && (forall m {:trigger MemberOK(s.members, s.acts, s.chain, m)} :: 0 <= m < |s.members| ==>
          MemberOK(s.members, s.acts, s.chain, m))
  }

  ghost predicate ActOK(s: State, a: nat)
    requires a < |s.acts|
  {
    match s.acts[a]
    case PromoteSwap(seen) => seen > 0
    case MakeLink(m) => m < |s.members| && s.members[m].status == Building && s.members[m].maker == a
    case MakeSwap(m, expected) =>
      m < |s.members| && s.members[m].status == Building && s.members[m].maker == a && s.members[m].next == expected
    case DestroyStart => s.refCount == 0 && s.firstAlive && s.gone == 0
    case DestroyAt(cursor) =>
      s.refCount == 0 && s.firstAlive && s.gone <= |s.chain| && cursor == Head(s.chain[s.gone..])
    case ReleaseMember(m) => s.refCount == 0 && s.firstAlive && 0 < s.gone <= |s.chain| && s.chain[s.gone - 1] == m
    case ReleaseFirst => s.refCount == 0 && !s.firstAlive
    case _ => true
  }

  ghost predicate ActsOK(s: State) {
    forall a {:trigger ActOK(s, a)} :: 0 <= a < |s.acts| ==> ActOK(s, a)
  }

  ghost predicate Inv(s: State) {
    CountsOK(s) && ListOK(s) && ActsOK(s)
  }

  // ---------- counting the calls ----------

  /** The tally after one call went from one point to another; a new call comes from nowhere. */
  ghost predicate Moved(was: Tally, now: Tally, before: Act, after: Act) {
    && now.strong == was.strong - One(HoldsStrong(before)) + One(HoldsStrong(after))
    && now.weak == was.weak - One(HoldsWeak(before)) + One(HoldsWeak(after))
    && now.destroying == was.destroying - One(Destroys(before)) + One(Destroys(after))
    && now.freeing == was.freeing - One(Frees(before)) + One(Frees(after))
  }

  lemma SetTally(acts: seq<Act>, a: nat, x: Act)
    requires a < |acts|
    ensures Moved(TallyOf(acts), TallyOf(acts[a := x]), acts[a], x)
  {
    CountUpdate(acts, a, x, HoldsStrong);
    CountUpdate(acts, a, x, HoldsWeak);
    CountUpdate(acts, a, x, Destroys);
    CountUpdate(acts, a, x, Frees);
  }

  lemma SpawnTally(acts: seq<Act>, x: Act)
    ensures Moved(TallyOf(acts), TallyOf(acts + [x]), Ended, x)
  {
    CountAppend(acts, x, HoldsStrong);
    CountAppend(acts, x, HoldsWeak);
    CountAppend(acts, x, Destroys);
    CountAppend(acts, x, Frees);
  }

  /** Every call is counted, so the call at a leaves room for no other of a kind whose count is at most one. */
  lemma Counted(s: State, a: nat)
    requires CountsOK(s) && a < |s.acts|
    ensures HoldsStrong(s.acts[a]) ==> s.refCount > 0
    ensures HoldsWeak(s.acts[a]) ==> s.weakRefCount > 0
    ensures Destroys(s.acts[a]) ==> s.refCount == 0 && forall b :: 0 <= b < |s.acts| && b != a ==> !Destroys(s.acts[b])
    ensures Frees(s.acts[a]) ==> s.freed == 0 && s.weakRefCount == 0
  {
    if HoldsStrong(s.acts[a]) { CountSome(s.acts, a, HoldsStrong); }
    if HoldsWeak(s.acts[a]) { CountSome(s.acts, a, HoldsWeak); }
    if Frees(s.acts[a]) { CountSome(s.acts, a, Frees); }
    if Destroys(s.acts[a]) {
      CountSome(s.acts, a, Destroys);
      forall b | 0 <= b < |s.acts| && b != a ensures !Destroys(s.acts[b]) {
        if Destroys(s.acts[b]) { CountUnique(s.acts, if a < b then a else b, if a < b then b else a, Destroys); }
      }
    }
  }

  // ---------- the list under steps that do not touch it ----------

  /** The members and the chain stay; calls that build keep building. */
  lemma KeepsList(s: State, t: State)
    requires ListOK(s) && t.members == s.members && t.chain == s.chain && t.gone == s.gone && t.head == s.head
    requires |s.acts| <= |t.acts|
    requires forall m, a :: 0 <= a < |s.acts| && Builds(s.acts[a], m) ==> Builds(t.acts[a], m)
    ensures ListOK(t)
  {
    forall k | 0 <= k < |t.chain| ensures NodeOK(t.members, t.chain, t.gone, k) {
      assert NodeOK(s.members, s.chain, s.gone, k);
    }
    forall m | 0 <= m < |t.members| ensures MemberOK(t.members, t.acts, t.chain, m) {
      assert MemberOK(s.members, s.acts, s.chain, m);
    }
  }

  // ---------- handles ----------

  /** What a handle step spawns; Ended when it spawns nothing. */
  function Spawned(s: State, t: State): Act {
    if |t.acts| > |s.acts| then t.acts[|s.acts|] else Ended
  }

  lemma HandleBalances(s: State, t: State, was: Tally, now: Tally, alive: nat)
    requires Balanced(s, was, alive) && HandleStep(s, t) && Moved(was, now, Ended, Spawned(s, t))
    ensures Balanced(t, now, alive)
  {
  }

  lemma HandleCalls(s: State, t: State)
    requires HandleStep(s, t)
    ensures t.members == s.members && t.chain == s.chain
    ensures t.acts == if |t.acts| > |s.acts| then s.acts + [Spawned(s, t)] else s.acts
  {
  }

  lemma SpawnedTally(was: seq<Act>, now: seq<Act>, x: Act)
    requires now == if |now| > |was| then was + [x] else was
    requires |now| <= |was| ==> x == Ended
    ensures Moved(TallyOf(was), TallyOf(now), Ended, x)
  {
    if |now| > |was| { SpawnTally(was, x); }
  }

  lemma HandleCounts(s: State, t: State)
    requires CountsOK(s) && HandleStep(s, t)
    ensures CountsOK(t)
  {
    HandleCalls(s, t);
    SpawnedTally(s.acts, t.acts, Spawned(s, t));
    HandleBalances(s, t, TallyOf(s.acts), TallyOf(t.acts), Count(s.members, Alive));
  }

  lemma HandleActs(s: State, t: State)
    requires Inv(s) && HandleStep(s, t)
    ensures ActsOK(t)
  {
    forall a | 0 <= a < |t.acts| ensures ActOK(t, a) {
      if a < |s.acts| {
        assert ActOK(s, a);
        Counted(s, a);
      }
    }
  }

  lemma HandlePreserves(s: State, t: State)
    requires Inv(s) && HandleStep(s, t)
    ensures Inv(t)
  {
    HandleCounts(s, t);
    HandleActs(s, t);
    HandleCalls(s, t);
    KeepsList(s, t);
  }

  // ---------- promoting ----------

  lemma PromoteBalances(s: State, t: State, a: nat, was: Tally, now: Tally, alive: nat)
    requires Balanced(s, was, alive) && PromoteStep(s, t, a) && Moved(was, now, s.acts[a], t.acts[a])
    requires s.acts[a].PromoteSwap? ==> s.acts[a].seen > 0
    ensures Balanced(t, now, alive)
  {
  }

  /** A promotion changes its own call and counters. */
  lemma PromoteCalls(s: State, t: State, a: nat)
    requires PromoteStep(s, t, a)
    ensures t.acts == s.acts[a := t.acts[a]] && t.members == s.members && t.chain == s.chain && t.gone == s.gone
    ensures t.head == s.head && !HoldsStrong(s.acts[a])
  {
  }

  lemma PromoteCounts(s: State, t: State, a: nat)
    requires CountsOK(s) && PromoteStep(s, t, a) && ActOK(s, a)
    ensures CountsOK(t)
  {
    PromoteCalls(s, t, a);
    SetTally(s.acts, a, t.acts[a]);
    PromoteBalances(s, t, a, TallyOf(s.acts), TallyOf(t.acts), Count(s.members, Alive));
  }

  lemma PromoteActs(s: State, t: State, a: nat)
    requires Inv(s) && PromoteStep(s, t, a)
    ensures ActsOK(t)
  {
    assert ActOK(s, a);
    forall b | 0 <= b < |t.acts| ensures ActOK(t, b) {
      assert ActOK(s, b);
      Counted(s, b);
    }
  }

  lemma PromotePreserves(s: State, t: State, a: nat)
    requires Inv(s) && PromoteStep(s, t, a)
    ensures Inv(t)
  {
    assert ActOK(s, a);
    PromoteCounts(s, t, a);
    PromoteActs(s, t, a);
    PromoteCalls(s, t, a);
    KeepsList(s, t);
  }

  // ---------- making a member ----------

  lemma MakeBalances(s: State, t: State, a: nat, was: Tally, now: Tally, alive: nat, aliveNow: nat)
    requires Balanced(s, was, alive) && MakeStep(s, t, a) && Moved(was, now, s.acts[a], t.acts[a]) && s.refCount > 0
    requires aliveNow == alive + One(s.acts[a].MakeStart?)
    ensures Balanced(t, now, aliveNow)
  {
  }

  lemma MakeCounts(s: State, t: State, a: nat)
    requires CountsOK(s) && MakeStep(s, t, a) && ActOK(s, a)
    ensures CountsOK(t) && s.gone == 0 && s.refCount > 0
  {
    Counted(s, a);
    SetTally(s.acts, a, t.acts[a]);
    MakeAlive(s, t, a);
    MakeBalances(s, t, a, TallyOf(s.acts), TallyOf(t.acts), Count(s.members, Alive), Count(t.members, Alive));
  }

  lemma MakeAlive(s: State, t: State, a: nat)
    requires MakeStep(s, t, a) && ActOK(s, a)
    ensures Count(t.members, Alive) == Count(s.members, Alive) + One(s.acts[a].MakeStart?)
  {
    if s.acts[a].MakeStart? {
      CountAppend(s.members, Member(Building, Null, 0, a), Alive);
    } else {
      var m := s.acts[a].member;
      CountUpdate(s.members, m, t.members[m], Alive);
    }
  }

  /** A member that is still being built is not in the list. */
  lemma BuildingIsUnlisted(s: State, m: nat)
    requires ListOK(s) && m < |s.members| && s.members[m].status == Building
    ensures m !in s.chain
  {
    forall k | 0 <= k < |s.chain| ensures s.chain[k] != m {
      assert NodeOK(s.members, s.chain, s.gone, k);
    }
  }

  lemma MakeNodes(s: State, t: State, a: nat, k: nat)
    requires ListOK(s) && MakeStep(s, t, a) && ActOK(s, a) && s.gone == 0 && k < |t.chain| && t.chain == s.chain
    ensures NodeOK(t.members, t.chain, t.gone, k)
  {
    assert NodeOK(s.members, s.chain, s.gone, k);
    if !s.acts[a].MakeStart? {
      BuildingIsUnlisted(s, s.acts[a].member);
    }
  }

  /** The swap puts a member in front. */
  lemma PushNodes(s: State, t: State, a: nat, k: nat)
    requires ListOK(s) && MakeStep(s, t, a) && ActOK(s, a) && s.gone == 0 && k < |t.chain| && t.chain != s.chain
    ensures NodeOK(t.members, t.chain, t.gone, k)
  {
    var m := s.acts[a].member;
    BuildingIsUnlisted(s, m);
    assert MemberOK(s.members, s.acts, s.chain, m);
    assert t.chain[k + 1..] == if k == 0 then s.chain else s.chain[k..];
    if k > 0 { assert NodeOK(s.members, s.chain, s.gone, k - 1); }
  }

  lemma MakeMembers(s: State, t: State, a: nat, m: nat)
    requires Inv(s) && MakeStep(s, t, a) && m < |t.members|
    ensures MemberOK(t.members, t.acts, t.chain, m)
  {
    assert ActOK(s, a);
    if m < |s.members| { assert MemberOK(s.members, s.acts, s.chain, m); }
  }

  lemma MakeActs(s: State, t: State, a: nat)
    requires Inv(s) && MakeStep(s, t, a)
    ensures ActsOK(t)
  {
    assert ActOK(s, a);
    Counted(s, a);
    forall b | 0 <= b < |t.acts| ensures ActOK(t, b) {
      assert ActOK(s, b);
      Counted(s, b);
    }
  }

  lemma MakePreserves(s: State, t: State, a: nat)
    requires Inv(s) && MakeStep(s, t, a)
    ensures Inv(t)
  {
    assert ActOK(s, a);
    MakeCounts(s, t, a);
    MakeActs(s, t, a);
    MakeList(s, t, a);
  }

  lemma MakeList(s: State, t: State, a: nat)
    requires Inv(s) && MakeStep(s, t, a) && s.gone == 0
    ensures ListOK(t)
  {
    assert ActOK(s, a);
    forall k | 0 <= k < |t.chain| ensures NodeOK(t.members, t.chain, t.gone, k) {
      if t.chain == s.chain { MakeNodes(s, t, a, k); } else { PushNodes(s, t, a, k); }
    }
    forall m | 0 <= m < |t.members| ensures MemberOK(t.members, t.acts, t.chain, m) { MakeMembers(s, t, a, m); }
    if !s.acts[a].MakeStart? {
      assert ActOK(s, a);
      BuildingIsUnlisted(s, s.acts[a].member);
    }
  }

  // ---------- destroying ----------

  /** Where the walk stands: the member under its cursor is the first one not yet destroyed. */
  lemma Cursor(s: State, a: nat)
    requires Inv(s) && a < |s.acts| && Destroys(s.acts[a])
    ensures s.acts[a].DestroyAt? && s.acts[a].cursor.Ref? ==>
              s.gone < |s.chain| && s.acts[a].cursor.id == s.chain[s.gone] && NodeOK(s.members, s.chain, s.gone, s.gone)
    ensures s.acts[a].DestroyAt? && s.acts[a].cursor.Null? ==> s.gone == |s.chain|
    ensures s.acts[a].ReleaseMember? ==>
              && 0 < s.gone <= |s.chain| && NodeOK(s.members, s.chain, s.gone, s.gone - 1)
              && s.acts[a].member == s.chain[s.gone - 1] && s.members[s.acts[a].member].next == Head(s.chain[s.gone..])
  {
    assert ActOK(s, a);
    if s.acts[a].ReleaseMember? {
      assert NodeOK(s.members, s.chain, s.gone, s.gone - 1);
    } else if s.acts[a].DestroyAt? && s.acts[a].cursor.Ref? {
      assert NodeOK(s.members, s.chain, s.gone, s.gone);
    }
  }

  /** The cursor moves onto a member and past it: the member's weak reference passes to the call, which gives it up. */
  lemma WalkCounts(s: State, t: State, a: nat)
    requires Inv(s) && DestroyStep(s, t, a)
    requires s.acts[a].ReleaseMember? || (s.acts[a].DestroyAt? && s.acts[a].cursor.Ref?)
    ensures CountsOK(t)
  {
    Counted(s, a);
    Cursor(s, a);
    assert ActOK(s, a);
    SetTally(s.acts, a, t.acts[a]);
    if s.acts[a].DestroyAt? {
      var m := s.acts[a].cursor.id;
      CountUpdate(s.members, m, t.members[m], Alive);
    }
  }

  /** Before the walk and after it. */
  lemma EndCounts(s: State, t: State, a: nat)
    requires CountsOK(s) && DestroyStep(s, t, a) && ActOK(s, a)
    requires !s.acts[a].ReleaseMember? && !(s.acts[a].DestroyAt? && s.acts[a].cursor.Ref?)
    requires s.acts[a].DestroyAt? ==> s.gone == |s.chain|
    ensures CountsOK(t)
  {
    Counted(s, a);
    SetTally(s.acts, a, t.acts[a]);
    if |t.acts| > |s.acts| { SpawnTally(s.acts[a := t.acts[a]], FreeContainer); }
  }

  lemma DestroyCounts(s: State, t: State, a: nat)
    requires Inv(s) && DestroyStep(s, t, a)
    ensures CountsOK(t)
  {
    if s.acts[a].ReleaseMember? || (s.acts[a].DestroyAt? && s.acts[a].cursor.Ref?) {
      WalkCounts(s, t, a);
    } else {
      assert ActOK(s, a);
      if Destroys(s.acts[a]) { Cursor(s, a); }
      EndCounts(s, t, a);
    }
  }

  lemma DestroyNodes(s: State, t: State, a: nat, k: nat)
    requires Inv(s) && DestroyStep(s, t, a) && k < |t.chain|
    ensures NodeOK(t.members, t.chain, t.gone, k)
  {
    if Destroys(s.acts[a]) { Cursor(s, a); }
    assert NodeOK(s.members, s.chain, s.gone, k);
  }

  lemma DestroyMembers(s: State, t: State, a: nat, m: nat)
    requires Inv(s) && DestroyStep(s, t, a) && m < |t.members|
    ensures MemberOK(t.members, t.acts, t.chain, m)
  {
    if Destroys(s.acts[a]) { Cursor(s, a); }
    assert MemberOK(s.members, s.acts, s.chain, m);
  }

  lemma DestroyList(s: State, t: State, a: nat)
    requires Inv(s) && DestroyStep(s, t, a)
    ensures ListOK(t)
  {
    forall k | 0 <= k < |t.chain| ensures NodeOK(t.members, t.chain, t.gone, k) { DestroyNodes(s, t, a, k); }
    forall m | 0 <= m < |t.members| ensures MemberOK(t.members, t.acts, t.chain, m) { DestroyMembers(s, t, a, m); }
    if Destroys(s.acts[a]) { Cursor(s, a); }
  }

  lemma DestroyActs(s: State, t: State, a: nat)
    requires Inv(s) && DestroyStep(s, t, a)
    ensures ActsOK(t)
  {
    assert ActOK(s, a);
    Counted(s, a);
    if Destroys(s.acts[a]) { Cursor(s, a); }
    forall b | 0 <= b < |t.acts| ensures ActOK(t, b) {
      if b < |s.acts| {
        assert ActOK(s, b);
        Counted(s, b);
      }
    }
  }

  lemma DestroyPreserves(s: State, t: State, a: nat)
    requires Inv(s) && DestroyStep(s, t, a)
    ensures Inv(t)
  {
    DestroyCounts(s, t, a);
    DestroyList(s, t, a);
    DestroyActs(s, t, a);
  }

  // ---------- every step, every run ----------

  lemma NextPreserves(s: State, t: State)
    requires Inv(s) && Next(s, t)
    ensures Inv(t)
  {
    if HandleStep(s, t) {
      HandlePreserves(s, t);
    } else {
      var a :| CallStep(s, t, a);
      if PromoteStep(s, t, a) {
        PromotePreserves(s, t, a);
      } else if MakeStep(s, t, a) {
        MakePreserves(s, t, a);
      } else {
        DestroyPreserves(s, t, a);
      }
    }
  }

  lemma InitCounts(s: State)
    requires Init(s)
    ensures CountsOK(s)
  {
    CountBound(s.acts, HoldsStrong);
    CountBound(s.acts, HoldsWeak);
    CountBound(s.acts, Destroys);
    CountBound(s.acts, Frees);
    CountBound(s.members, Alive);
  }

  lemma InitList(s: State)
    requires s.chain == [] && s.members == [] && s.head == Null && s.gone == 0
    ensures ListOK(s)
  {
  }

  lemma InitInv(s: State)
    requires Init(s)
    ensures Inv(s)
  {
    InitCounts(s);
    InitList(s);
  }

  lemma {:induction false} RunInv(run: seq<State>, i: nat)
    requires Run(run) && i < |run|
    ensures Inv(run[i])
  {
    if i == 0 {
      InitInv(run[0]);
    } else {
      RunInv(run, i - 1);
      assert StepAt(run, i - 1);
      NextPreserves(run[i - 1], run[i]);
    }
  }
}
