/** What every run of a swarm guarantees. */
module SwarmTheorems {
  import opened Counting
  import opened Swarm
  import opened SwarmInvariant

  // ---------- the counters ----------

  /** The counters count what they are for, at every moment. */
  lemma CountersAreExact(run: seq<State>, i: nat)
    requires Run(run) && i < |run|
    ensures run[i].refCount == run[i].idleStrong + Count(run[i].acts, HoldsStrong)
    ensures run[i].weakRefCount ==
              run[i].idleWeak + Count(run[i].acts, HoldsWeak) + Count(run[i].members, Alive) + One(run[i].firstAlive)
  {
    RunInv(run, i);
  }

  lemma ZeroStays(s: State, t: State)
    requires Inv(s) && Next(s, t) && s.refCount == 0
    ensures t.refCount == 0
  {
    if !HandleStep(s, t) {
      var a :| CallStep(s, t, a);
      Counted(s, a);
      assert ActOK(s, a);
    }
  }

  lemma NobodyHolds(s: State)
    requires Inv(s) && s.refCount == 0
    ensures s.idleStrong == 0
    ensures forall a :: 0 <= a < |s.acts| ==> !HoldsStrong(s.acts[a])
  {
    forall a | 0 <= a < |s.acts| ensures !HoldsStrong(s.acts[a]) { Counted(s, a); }
  }

  lemma {:induction false} RunStaysZero(run: seq<State>, i: nat, j: nat)
    requires Run(run) && i <= j < |run| && run[i].refCount == 0
    ensures run[j].refCount == 0
    decreases j
  {
    if i < j {
      RunStaysZero(run, i, j - 1);
      RunInv(run, j - 1);
      assert StepAt(run, j - 1);
      ZeroStays(run[j - 1], run[j]);
    }
  }

  /** Once the strong counter is zero it stays zero: from then on no promotion gives a strong handle. */
  lemma ZeroIsFinal(run: seq<State>, i: nat, j: nat)
    requires Run(run) && i <= j < |run| && run[i].refCount == 0
    ensures run[j].refCount == 0 && run[j].idleStrong == 0
    ensures forall a :: 0 <= a < |run[j].acts| ==> !HoldsStrong(run[j].acts[a])
  {
    RunStaysZero(run, i, j);
    RunInv(run, j);
    NobodyHolds(run[j]);
  }

  lemma OthersStay(s: State, t: State, a: nat, b: nat)
    requires CallStep(s, t, a) && b < |s.acts| && b != a
    ensures b < |t.acts| && t.acts[b] == s.acts[b]
  {
    assert |t.acts| >= |s.acts|;
  }

  /** Where a promotion can be. */
  predicate Promotes(act: Act) {
    act.PromoteLoad? || act.PromoteSwap? || act.Promoted?
  }

  lemma PromoterMoves(s: State, t: State, a: nat)
    requires Next(s, t) && a < |s.acts| && Promotes(s.acts[a])
    ensures a < |t.acts| && Promotes(t.acts[a])
    ensures s.acts[a].Promoted? ==> t.acts[a] == s.acts[a]
    ensures !s.acts[a].Promoted? && t.acts[a].Promoted? ==> PromoteStep(s, t, a)
  {
    if HandleStep(s, t) {
      HandleCalls(s, t);
    } else {
      var b :| CallStep(s, t, b);
      if b != a { OthersStay(s, t, b, a); }
    }
  }

  lemma {:induction false} Promoting(run: seq<State>, i: nat, j: nat, a: nat)
    requires Run(run) && i <= j < |run| && a < |run[i].acts| && Promotes(run[i].acts[a])
    ensures a < |run[j].acts| && Promotes(run[j].acts[a])
    decreases j
  {
    if i < j {
      Promoting(run, i, j - 1, a);
      assert StepAt(run, j - 1);
      PromoterMoves(run[j - 1], run[j], a);
    }
  }

  /** The step at which a promotion takes effect: it gives a strong handle, with a reference of its own, if and only if
      the counter is not zero. */
  ghost predicate TakesEffect(s: State, t: State, a: nat, gave: bool) {
    && PromoteStep(s, t, a) && t.acts[a] == Promoted(gave) && gave == (s.refCount > 0)
    && t.refCount == s.refCount + One(gave) && t.idleStrong == s.idleStrong + One(gave) && t.idleWeak == s.idleWeak + 1
  }

  lemma PromotionEnds(s: State, t: State, a: nat)
    requires PromoteStep(s, t, a) && ActOK(s, a) && t.acts[a].Promoted?
    ensures TakesEffect(s, t, a, t.acts[a].gave)
  {
  }

  lemma PromoterEnds(s: State, t: State, a: nat)
    requires Next(s, t) && a < |s.acts| && ActOK(s, a) && Promotes(s.acts[a]) && a < |t.acts| && t.acts[a].Promoted?
    ensures s.acts[a] == t.acts[a] || TakesEffect(s, t, a, t.acts[a].gave)
  {
    PromoterMoves(s, t, a);
    if !s.acts[a].Promoted? { PromotionEnds(s, t, a); }
  }

  lemma CallIsOK(run: seq<State>, i: nat, a: nat)
    requires Run(run) && i < |run| && a < |run[i].acts|
    ensures ActOK(run[i], a)
  {
    RunInv(run, i);
  }

  lemma LastMove(run: seq<State>, i: nat, j: nat, a: nat)
    requires Run(run) && i < j < |run| && a < |run[i].acts| && Promotes(run[i].acts[a])
    requires a < |run[j].acts| && run[j].acts[a].Promoted?
    ensures a < |run[j - 1].acts|
    ensures run[j - 1].acts[a] == run[j].acts[a] || TakesEffect(run[j - 1], run[j], a, run[j].acts[a].gave)
  {
    Promoting(run, i, j - 1, a);
    CallIsOK(run, j - 1, a);
    assert StepAt(run, j - 1);
    PromoterEnds(run[j - 1], run[j], a);
  }

  lemma {:induction false} EffectOf(run: seq<State>, i: nat, j: nat, a: nat) returns (k: nat)
    requires Run(run) && i <= j < |run| && a < |run[i].acts| && run[i].acts[a].PromoteLoad?
    requires a < |run[j].acts| && run[j].acts[a].Promoted?
    ensures i <= k < j && TakesEffect(run[k], run[k + 1], a, run[j].acts[a].gave)
    decreases j
  {
    LastMove(run, i, j, a);
    if run[j - 1].acts[a] == run[j].acts[a] { k := EffectOf(run, i, j - 1, a); } else { k := j - 1; }
  }

  /** A promotion that began at i and is over at j took effect at one step k between them. So it failed if the counter
      was zero when it began, and it succeeded if the counter is not zero after it. */
  lemma PromotionIsExact(run: seq<State>, i: nat, j: nat, a: nat) returns (k: nat)
    requires Run(run) && i <= j < |run| && a < |run[i].acts| && run[i].acts[a].PromoteLoad?
    requires a < |run[j].acts| && run[j].acts[a].Promoted?
    ensures i <= k < j && TakesEffect(run[k], run[k + 1], a, run[j].acts[a].gave)
    ensures run[i].refCount == 0 ==> !run[j].acts[a].gave
    ensures run[j].refCount > 0 ==> run[j].acts[a].gave
  {
    k := EffectOf(run, i, j, a);
    if run[i].refCount == 0 { ZeroIsFinal(run, i, k); }
    if run[k].refCount == 0 { ZeroIsFinal(run, k, j); }
  }

  // ---------- the list ----------

  /** Following the next pointers from p visits exactly these members, in this order. */
  ghost predicate Traces(members: seq<Member>, p: Ptr, visited: seq<nat>)
    decreases |visited|
  {
    if visited == [] then p.Null?
    else p == Ref(visited[0]) && visited[0] < |members| && Traces(members, members[visited[0]].next, visited[1..])
  }

  lemma {:induction false} ChainTraces(s: State, k: nat)
    requires ListOK(s) && k <= |s.chain|
    ensures Traces(s.members, Head(s.chain[k..]), s.chain[k..])
    decreases |s.chain| - k
  {
    if k < |s.chain| {
      assert NodeOK(s.members, s.chain, s.gone, k);
      assert s.chain[k..][1..] == s.chain[k + 1..];
      ChainTraces(s, k + 1);
    }
  }

  lemma {:induction false} Once(chain: seq<nat>, m: nat)
    requires forall j, k :: 0 <= j < k < |chain| ==> chain[j] != chain[k]
    ensures multiset(chain)[m] == One(m in chain)
  {
    if chain != [] {
      assert chain == [chain[0]] + chain[1..];
      Once(chain[1..], m);
      assert multiset(chain) == multiset{chain[0]} + multiset(chain[1..]);
    }
  }

  /** However the pushes interleave, the list from the head holds every member whose push is over, once, and no
      other. */
  lemma ListIsExact(run: seq<State>, i: nat)
    requires Run(run) && i < |run|
    ensures Traces(run[i].members, run[i].head, run[i].chain)
    ensures forall m :: 0 <= m < |run[i].members| ==>
              multiset(run[i].chain)[m] == One(run[i].members[m].status != Building)
    ensures forall m <- run[i].chain :: m < |run[i].members|
  {
    var s := run[i];
    RunInv(run, i);
    ChainTraces(s, 0);
    assert s.chain[0..] == s.chain;
    forall m | 0 <= m < |s.members| ensures multiset(s.chain)[m] == One(s.members[m].status != Building) {
      assert MemberOK(s.members, s.acts, s.chain, m);
      Once(s.chain, m);
      if s.members[m].status == Building { BuildingIsUnlisted(s, m); }
    }
    forall k | 0 <= k < |s.chain| ensures s.chain[k] < |s.members| { assert NodeOK(s.members, s.chain, s.gone, k); }
  }

  /** How far the call a, which began as MakeMember, has come. */
  ghost predicate Making(s: State, a: nat) {
    && a < |s.acts|
    && match s.acts[a] {
         case MakeStart => true
         case MakeLink(_) => true
         case MakeSwap(_, _) => true
         case Ended => exists m :: m in s.chain && m < |s.members| && s.members[m].maker == a
         case _ => false
       }
  }

  /** What no step takes back: a member, who made it, and its place in the list. */
  ghost predicate Keeps(s: State, t: State, m: nat) {
    m < |s.members| ==>
      && m < |t.members| && t.members[m].maker == s.members[m].maker
      && (m in s.chain ==> m in t.chain)
  }

  lemma CallKeeps(s: State, t: State, a: nat, m: nat)
    requires CallStep(s, t, a)
    ensures Keeps(s, t, m)
  {
    if MakeStep(s, t, a) {
      assert t.chain == s.chain || t.chain == [s.acts[a].member] + s.chain;
    } else {
      assert t.chain == s.chain;
    }
  }

  lemma NextKeeps(s: State, t: State, m: nat)
    requires Next(s, t)
    ensures Keeps(s, t, m)
  {
    if HandleStep(s, t) {
      HandleCalls(s, t);
    } else {
      var a :| CallStep(s, t, a);
      CallKeeps(s, t, a, m);
    }
  }

  /** A call of MakeMember is over only when its swap has put the member at the head. */
  lemma OwnStep(s: State, t: State, a: nat)
    requires CallStep(s, t, a)
    ensures a < |t.acts| && !s.acts[a].Ended?
    ensures HoldsStrong(s.acts[a]) ==>
              HoldsStrong(t.acts[a]) || (s.acts[a].MakeSwap? && t.acts[a].Ended? && s.acts[a].member in t.chain)
  {
    if HoldsStrong(s.acts[a]) && !HoldsStrong(t.acts[a]) {
      assert t.chain[0] == s.acts[a].member;
    }
  }

  lemma MakerMoves(s: State, t: State, a: nat)
    requires Next(s, t) && a < |s.acts|
    ensures a < |t.acts|
    ensures s.acts[a].Ended? ==> t.acts[a].Ended?
    ensures HoldsStrong(s.acts[a]) ==>
              HoldsStrong(t.acts[a]) || (s.acts[a].MakeSwap? && t.acts[a].Ended? && s.acts[a].member in t.chain)
  {
    if HandleStep(s, t) {
      HandleCalls(s, t);
    } else {
      var b :| CallStep(s, t, b);
      if a == b { OwnStep(s, t, a); } else { OthersStay(s, t, b, a); }
    }
  }

  lemma MakingGoesOn(s: State, t: State, a: nat)
    requires Inv(s) && Next(s, t) && Making(s, a)
    ensures Making(t, a)
  {
    MakerMoves(s, t, a);
    if s.acts[a].Ended? {
      var m :| m in s.chain && m < |s.members| && s.members[m].maker == a;
      NextKeeps(s, t, m);
    } else if t.acts[a].Ended? {
      assert ActOK(s, a);
      NextKeeps(s, t, s.acts[a].member);
    }
  }

  /** Every finished MakeMember has put its own member into the list. */
  lemma {:induction false} MakeMemberDelivers(run: seq<State>, i: nat, j: nat, a: nat)
    requires Run(run) && i <= j < |run| && a < |run[i].acts| && run[i].acts[a].MakeStart?
    ensures Making(run[j], a)
    decreases j
  {
    if i < j {
      MakeMemberDelivers(run, i, j - 1, a);
      RunInv(run, j - 1);
      assert StepAt(run, j - 1);
      MakingGoesOn(run[j - 1], run[j], a);
    }
  }

  // ---------- destruction ----------

  /** Nothing is destroyed twice; what is held by a strong handle, or by a call made with one, is not destroyed. */
  lemma DestroyedAtMostOnce(run: seq<State>, i: nat, m: nat)
    requires Run(run) && i < |run| && m < |run[i].members|
    ensures run[i].members[m].destructions == One(run[i].members[m].status == Destroyed)
    ensures run[i].refCount > 0 ==> run[i].members[m].destructions == 0 && run[i].firstAlive
    ensures run[i].freed == 1 ==> run[i].members[m].destructions == 1 && !run[i].firstAlive
  {
    var s := run[i];
    RunInv(run, i);
    assert MemberOK(s.members, s.acts, s.chain, m);
    if s.members[m].status != Building {
      var k :| 0 <= k < |s.chain| && s.chain[k] == m;
      assert NodeOK(s.members, s.chain, s.gone, k);
    }
    if Alive(s.members[m]) { CountSome(s.members, m, Alive); }
  }

  /** The container outlives every user of its memory: it is freed at most once, and by then no handle is left, and no
      call that holds one, walks the list, or is about to touch a counter. */
  lemma FreedLast(run: seq<State>, i: nat)
    requires Run(run) && i < |run|
    ensures run[i].freed <= 1
    ensures run[i].freed == 1 ==>
              && run[i].idleStrong == 0 && run[i].idleWeak == 0 && run[i].gone == |run[i].chain|
              && forall a :: 0 <= a < |run[i].acts| ==> Over(run[i].acts[a])
  {
    var s := run[i];
    RunInv(run, i);
    if s.freed == 1 {
      forall a | 0 <= a < |s.acts| ensures Over(s.acts[a]) {
        Counted(s, a);
        assert ActOK(s, a);
      }
    }
  }

  /** Members are destroyed newest first. */
  lemma NewestFirst(run: seq<State>, i: nat, j: nat, k: nat)
    requires Run(run) && i < |run| && j < k < |run[i].chain|
    ensures run[i].chain[j] < |run[i].members| && run[i].chain[k] < |run[i].members|
    ensures run[i].members[run[i].chain[k]].destructions == 1 ==> run[i].members[run[i].chain[j]].destructions == 1
  {
    var s := run[i];
    RunInv(run, i);
    assert NodeOK(s.members, s.chain, s.gone, j) && NodeOK(s.members, s.chain, s.gone, k);
  }

  lemma {:induction false} NoneCounted<T>(s: seq<T>, p: T -> bool)
    requires forall i :: 0 <= i < |s| ==> !p(s[i])
    ensures Count(s, p) == 0
  {
    CountBound(s, p);
  }

  /** When every handle is given up and every call is over, all is destroyed, once, and the container is freed, once. */
  lemma NothingLeaks(run: seq<State>, i: nat)
    requires Run(run) && i < |run| && run[i].idleStrong == 0 && run[i].idleWeak == 0
    requires forall a :: 0 <= a < |run[i].acts| ==> Over(run[i].acts[a])
    ensures run[i].freed == 1 && !run[i].firstAlive
    ensures forall m :: 0 <= m < |run[i].members| ==> run[i].members[m].destructions == 1
  {
    var s := run[i];
    RunInv(run, i);
    NoneCounted(s.acts, HoldsStrong);
    NoneCounted(s.acts, HoldsWeak);
    NoneCounted(s.acts, Destroys);
    NoneCounted(s.acts, Frees);
    forall m | 0 <= m < |s.members| ensures !Alive(s.members[m]) && s.members[m].destructions == 1 {
      assert MemberOK(s.members, s.acts, s.chain, m);
      var k :| 0 <= k < |s.chain| && s.chain[k] == m;
      assert NodeOK(s.members, s.chain, s.gone, k);
    }
    NoneCounted(s.members, Alive);
  }
}
