/** Who owns SettingResult when callers are held to nothing at all, and the exact reason SetFailed can crash: the
    future was settled by a success that did not own it, between the two halves of a TrySetError.

    The invariant of the protocol does not hold for such callers, so there is a smaller one here (ClaimsOK): the call
    that moved a future to SettingResult owns that state until the future is settled, by itself or by a thief, and every
    swap is along an edge of the graph. A theft (Steals) robs a half-done TrySetError of its future; only a theft does
    (RobbedByTheft), nothing undoes it (StaysRobbed), and a robbed call crashes by its own next steps. Both directions
    of the theorem follow: a path on which nobody steals can reach the crash only from a state in which a call was
    already robbed, and from such a state the robbed call alone reaches it. */
module FutureClaims {
  import opened FutureCore
  import opened FutureProtocol
  import opened FutureInvariant
  import opened FutureTheorems
  import opened FutureDiscipline
  import opened Paths

  const FREE := Discipline(false, false)

  /** What holds of a call even then: it owns SettingResult until the future is settled, and it swaps along edges. */
  ghost predicate ClaimOK(s: State, a: nat)
    requires a in s.acts
  {
    match s.acts[a].frame
    case Update(r, f, owner, seen, next, pc) =>
      && f in s.heap && r != SetPosted && r != StartPosting && (r == FinishError ==> owner)
      && (owner ==>
            && (r == SetSuccess || r == FinishError)
            && (IsDone(s.heap[f].word.state) || (s.heap[f].word.state == SettingResult && s.heap[f].setter == Ref(a))))
      && (pc == Swap ==> Target(r, next) && Edge(s.heap[f].traits, seen.state, next))
      && (r == FinishError ==>
            && SawClaim(s, a, f)
            && (pc == Check && IsDone(seen.state) ==> IsDone(s.heap[f].word.state)))
    case Walk(_, _, node, _, seen, pc) =>
      && (pc == PostSwap ==> seen.state == Pending)
      && (pc == PostedSwap ==> seen.state == Posting)
    case _ => true
  }

  ghost predicate ClaimsOK(s: State) {
    forall a {:trigger ClaimOK(s, a)} :: a in s.acts ==> ClaimOK(s, a)
  }

  // ---------- what the steps other than swaps leave alone ----------

  ghost predicate Quiet(s: State, t: State, f: nat) {
    f in s.heap ==>
      && f in t.heap && t.heap[f].traits == s.heap[f].traits
      && t.heap[f].word.state == s.heap[f].word.state && t.heap[f].setter == s.heap[f].setter
  }

  lemma BeginQuiet(s: State, t: State, f: nat, b: nat)
    requires Begin(s, t, false) && b in t.acts
    ensures Quiet(s, t, f)
    ensures b in s.acts ==> t.acts[b] == s.acts[b]
    ensures b !in s.acts ==> ClaimOK(t, b) && !HalfDone(t, b, f)
  {
    if f in s.heap { BeginKeeps(s, t, false, f); }
  }

  lemma ContinueQuiet(s: State, t: State, a: nat, f: nat)
    requires Continue(s, t, a, false) && !Swaps(s, t, a)
    ensures Quiet(s, t, f)
  {
    if f in s.heap {
      if StepAddSwap(s, t, a) { AddSwapKeeps(s, t, a, f); } else { ContinueKeeps(s, t, a, false, f); }
    }
  }

  /** A step of a is a step of no other call. */
  ghost predicate Alone(s: State, t: State, a: nat, b: nat) {
    && a in s.acts && a in t.acts && t.heap.Keys == s.heap.Keys
    && (b != a ==> (b in s.acts <==> b in t.acts) && (b in s.acts ==> t.acts[b] == s.acts[b]))
  }

  lemma AddAlone(s: State, t: State, a: nat, b: nat)
    requires AddStep(s, t, a)
    ensures Alone(s, t, a, b)
  {
  }

  lemma WordAlone(s: State, t: State, a: nat, b: nat)
    requires WordStep(s, t, a, false)
    ensures Alone(s, t, a, b)
  {
  }

  lemma WalkAlone(s: State, t: State, a: nat, b: nat)
    requires WalkStep(s, t, a)
    ensures Alone(s, t, a, b)
  {
  }

  lemma OneActs(s: State, t: State, a: nat, b: nat)
    requires Continue(s, t, a, false)
    ensures Alone(s, t, a, b)
  {
    if AddStep(s, t, a) { AddAlone(s, t, a, b); } else if WordStep(s, t, a, false) { WordAlone(s, t, a, b); }
        else { WalkAlone(s, t, a, b); }
  }

  // ---------- every step keeps the claims ----------

  lemma OwnLook(s: State, t: State, a: nat)
    requires ClaimsOK(s) && (StepLoad(s, t, a) || StepSwapRetry(s, t, a))
    ensures a in t.acts && ClaimOK(t, a)
  {
    assert ClaimOK(s, a);
  }

  lemma OwnCheck(s: State, t: State, a: nat)
    requires ClaimsOK(s) && StepCheck(s, t, a, false)
    ensures a in t.acts && ClaimOK(t, a)
  {
    assert ClaimOK(s, a);
    var Update(r, f, owner, seen, next, pc) := s.acts[a].frame;
    DecideIsEdge(r, s.heap[f].traits, seen.state, s.heap[f].link == Null, Sync(s, a, f));
  }

  lemma OwnAdd(s: State, t: State, a: nat)
    requires AddStep(s, t, a)
    ensures a in t.acts && ClaimOK(t, a)
  {
  }

  lemma OwnWalk(s: State, t: State, a: nat)
    requires ClaimsOK(s) && WalkStep(s, t, a) && !Swaps(s, t, a)
    ensures a in t.acts && ClaimOK(t, a)
  {
    assert ClaimOK(s, a);
  }

  lemma OwnClaim(s: State, t: State, a: nat)
    requires ClaimsOK(s) && Continue(s, t, a, false) && !Swaps(s, t, a)
    ensures a in t.acts && ClaimOK(t, a)
  {
    if AddStep(s, t, a) {
      OwnAdd(s, t, a);
    } else if WalkStep(s, t, a) {
      OwnWalk(s, t, a);
    } else if StepCheck(s, t, a, false) {
      OwnCheck(s, t, a);
    } else if StepLoad(s, t, a) || StepSwapRetry(s, t, a) {
      OwnLook(s, t, a);
    }
  }

  lemma OwnSwap(s: State, t: State, a: nat)
    requires ClaimsOK(s) && Swaps(s, t, a)
    ensures a in t.acts && ClaimOK(t, a)
  {
    assert ClaimOK(s, a);
  }

  lemma OtherClaim(s: State, t: State, a: nat, b: nat)
    requires ClaimsOK(s) && Continue(s, t, a, false) && b in t.acts && b != a
    ensures ClaimOK(t, b)
  {
    OneActs(s, t, a, b);
    assert ClaimOK(s, b);
    if s.acts[b].frame.Update? {
      if Swaps(s, t, a) {
        assert ClaimOK(s, a);
        SwapAgainst(s, t, a, b);
      } else {
        ContinueQuiet(s, t, a, s.acts[b].frame.fut);
      }
    }
  }

  /** A swap of another call leaves SettingResult only by settling. */
  lemma SwapAgainst(s: State, t: State, a: nat, b: nat)
    requires ClaimsOK(s) && Swaps(s, t, a) && b in s.acts && b != a && s.acts[b].frame.Update?
    ensures var f := s.acts[b].frame.fut;
            && f in s.heap && f in t.heap && t.heap[f].traits == s.heap[f].traits
            && (IsDone(s.heap[f].word.state) ==> IsDone(t.heap[f].word.state))
            && (s.acts[b].frame.owner && !IsDone(t.heap[f].word.state) ==>
                  t.heap[f].word.state == s.heap[f].word.state && t.heap[f].setter == s.heap[f].setter)
  {
    assert ClaimOK(s, a) && ClaimOK(s, b);
  }

  lemma BeginClaims(s: State, t: State)
    requires ClaimsOK(s) && Begin(s, t, false)
    ensures ClaimsOK(t)
  {
    forall b | b in t.acts ensures ClaimOK(t, b) {
      if b in s.acts { assert ClaimOK(s, b); }
      BeginQuiet(s, t, if b in s.acts && s.acts[b].frame.Update? then s.acts[b].frame.fut else 0, b);
    }
  }

  lemma ContinueClaims(s: State, t: State, a: nat)
    requires ClaimsOK(s) && Continue(s, t, a, false)
    ensures ClaimsOK(t)
  {
    forall b | b in t.acts ensures ClaimOK(t, b) {
      if b != a { OtherClaim(s, t, a, b); } else if Swaps(s, t, a) { OwnSwap(s, t, a); } else { OwnClaim(s, t, a); }
    }
  }

  /** No discipline asks for the least. */
  lemma Freely(s: State, t: State, d: Discipline)
    requires Next(s, t, d)
    ensures s.crash == NoCrash && (Begin(s, t, false) || exists a: nat :: Continue(s, t, a, false))
  {
    if Begin(s, t, d.publishes) {
      if a, host, r,
          f :| BeginUpdate(s, t, a, host, r, f, d.publishes) { assert BeginUpdate(s, t, a, host, r, f, false); }
    } else {
      var a: nat :| Continue(s, t, a, d.claims);
      assert Continue(s, t, a, false);
    }
  }

  lemma NextClaims(s: State, t: State, d: Discipline)
    requires ClaimsOK(s) && Next(s, t, d)
    ensures ClaimsOK(t)
  {
    Freely(s, t, d);
    if Begin(s, t, false) {
      BeginClaims(s, t);
    } else {
      var a: nat :| Continue(s, t, a, false);
      ContinueClaims(s, t, a);
    }
  }

  lemma {:induction false} RunClaims(run: seq<State>, d: Discipline, i: nat)
    requires Run(run, d) && i < |run|
    ensures ClaimsOK(run[i])
  {
    if i > 0 {
      RunClaims(run, d, i - 1);
      assert StepAt(run, i - 1, d);
      NextClaims(run[i - 1], run[i], d);
    }
  }

  // ---------- thefts ----------

  /** Call a settles f with a success it does not own, while o stands between the halves of its TrySetError. */
  ghost predicate Steals(s: State, t: State, a: nat, o: nat, f: nat) {
    && HalfDone(s, o, f) && s.heap[f].word.state == SettingResult
    && StepSwap(s, t, a) && s.acts[a].frame.req == SetSuccess && s.acts[a].frame.fut == f && !s.acts[a].frame.owner
  }

  lemma SettledBySwap(s: State, t: State, a: nat, o: nat, f: nat)
    requires ClaimsOK(s) && Swaps(s, t, a) && Robbed(t, o, f) && o in s.acts && (a != o ==> t.acts[o] == s.acts[o])
    ensures Robbed(s, o, f) || Steals(s, t, a, o, f)
  {
    assert ClaimOK(s, a) && ClaimOK(s, o);
  }

  /** A half-done TrySetError stays one until its swap succeeds, and only TryStartSetError's swap makes one. */
  lemma OwnHalf(s: State, t: State, a: nat, f: nat)
    requires WordStep(s, t, a, false) && !StepSwap(s, t, a)
    ensures HalfDone(s, a, f) <==> HalfDone(t, a, f)
  {
  }

  lemma NotHalf(s: State, t: State, a: nat, f: nat)
    requires AddStep(s, t, a) || WalkStep(s, t, a)
    ensures !HalfDone(s, a, f) && !HalfDone(t, a, f)
  {
  }

  lemma NotBySteps(s: State, t: State, a: nat, o: nat, f: nat)
    requires Continue(s, t, a, false) && !Swaps(s, t, a)
    ensures Robbed(s, o, f) <==> Robbed(t, o, f)
  {
    OneActs(s, t, a, o);
    ContinueQuiet(s, t, a, f);
    if a == o {
      if WordStep(s, t, a, false) { OwnHalf(s, t, a, f); } else { NotHalf(s, t, a, f); }
    }
  }

  /** Being robbed comes from a theft, and from nothing else. */
  lemma RobbedByTheft(s: State, t: State, d: Discipline, o: nat, f: nat) returns (a: nat)
    requires ClaimsOK(s) && Next(s, t, d) && Robbed(t, o, f)
    ensures Robbed(s, o, f) || Steals(s, t, a, o, f)
  {
    Freely(s, t, d);
    if Begin(s, t, false) {
      a := 0;
      BeginQuiet(s, t, f, o);
    } else {
      a :| Continue(s, t, a, false);
      OneActs(s, t, a, o);
      if Swaps(s, t, a) { SettledBySwap(s, t, a, o, f); } else { NotBySteps(s, t, a, o, f); }
    }
  }

  lemma NotUndoneBySwap(s: State, t: State, a: nat, o: nat, f: nat)
    requires ClaimsOK(s) && Swaps(s, t, a) && Robbed(s, o, f)
    ensures Robbed(t, o, f)
  {
    assert ClaimOK(s, a) && ClaimOK(s, o);
  }

  /** Once robbed, a TrySetError stays so: no step of its own or of anybody else helps it. */
  lemma StaysRobbed(s: State, t: State, d: Discipline, o: nat, f: nat)
    requires ClaimsOK(s) && Next(s, t, d) && Robbed(s, o, f)
    ensures Robbed(t, o, f)
  {
    Freely(s, t, d);
    if Begin(s, t, false) {
      BeginKeepsActs(s, t, o);
      BeginQuiet(s, t, f, o);
    } else {
      var a: nat :| Continue(s, t, a, false);
      if Swaps(s, t, a) { NotUndoneBySwap(s, t, a, o, f); } else { NotBySteps(s, t, a, o, f); }
    }
  }

  lemma BeginKeepsActs(s: State, t: State, b: nat)
    requires Begin(s, t, false) && b in s.acts
    ensures b in t.acts
  {
  }

  lemma TheftRobs(s: State, t: State, a: nat, o: nat, f: nat)
    requires ClaimsOK(s) && Steals(s, t, a, o, f)
    ensures Robbed(t, o, f)
  {
    assert ClaimOK(s, a);
  }

  // ---------- the boundary ----------

  ghost predicate StealsAt(run: seq<State>, i: nat, a: nat, o: nat, f: nat)
    requires i + 1 < |run|
  {
    Steals(run[i], run[i + 1], a, o, f)
  }

  /** A run goes on, and nobody steals any more. */
  ghost predicate Honest(path: seq<State>) {
    && Path(Steps(FREE), path)
    && forall i, a, o, f :: 0 <= i < |path| - 1 ==> !StealsAt(path, i, a, o, f)
  }

  lemma {:induction false} PathClaims(path: seq<State>, i: nat)
    requires Path(Steps(FREE), path) && i < |path| && ClaimsOK(path[0])
    ensures ClaimsOK(path[i])
  {
    if i > 0 {
      PathClaims(path, i - 1);
      assert StepOf(Steps(FREE), path, i - 1);
      NextClaims(path[i - 1], path[i], FREE);
    }
  }

  lemma {:induction false} HonestRobsNobody(path: seq<State>, i: nat, o: nat, f: nat)
    requires Honest(path) && ClaimsOK(path[0]) && i < |path| && Robbed(path[i], o, f)
    ensures Robbed(path[0], o, f)
  {
    if i > 0 {
      PathClaims(path, i - 1);
      assert StepOf(Steps(FREE), path, i - 1);
      var a := RobbedByTheft(path[i - 1], path[i], FREE, o, f);
      assert !StealsAt(path, i - 1, a, o, f);
      HonestRobsNobody(path, i - 1, o, f);
    }
  }

  /** The crash happens in the check of a robbed call. */
  lemma CrashIsOfRobbed(s: State, t: State)
    requires ClaimsOK(s) && Next(s, t, FREE) && t.crash == FailedUnexpectedly
    ensures exists o, f :: Robbed(s, o, f)
  {
    if !Begin(s, t, false) {
      var o: nat :| Continue(s, t, o, false);
      assert ClaimOK(s, o);
      CrashStep(s, t, o);
    }
  }

  lemma CrashStep(s: State, t: State, o: nat)
    requires Continue(s, t, o, false) && s.crash == NoCrash && t.crash == FailedUnexpectedly && o in s.acts
        && ClaimOK(s, o)
    ensures s.acts[o].frame.Update? && Robbed(s, o, s.acts[o].frame.fut)
  {
  }

  lemma {:induction false} RobbedInRun(run: seq<State>, i: nat, o: nat, f: nat)
    requires Run(run, FREE) && i < |run| && Robbed(run[i], o, f)
    ensures exists j, a :: 0 <= j < i && StealsAt(run, j, a, o, f)
  {
    if i > 0 {
      RunClaims(run, FREE, i - 1);
      assert StepAt(run, i - 1, FREE);
      var a := RobbedByTheft(run[i - 1], run[i], FREE, o, f);
      if Robbed(run[i - 1], o, f) {
        RobbedInRun(run, i - 1, o, f);
      } else {
        assert StealsAt(run, i - 1, a, o, f);
      }
    }
  }

  lemma {:induction false} RobbedToTheEnd(run: seq<State>, i: nat, j: nat, o: nat, f: nat)
    requires Run(run, FREE) && i <= j < |run| && Robbed(run[i], o, f)
    ensures Robbed(run[j], o, f)
    decreases j
  {
    if i < j {
      RobbedToTheEnd(run, i, j - 1, o, f);
      RunClaims(run, FREE, j - 1);
      assert StepAt(run, j - 1, FREE);
      StaysRobbed(run[j - 1], run[j], FREE, o, f);
    }
  }

  /** SetFailed can still crash although nobody steals any more. */
  ghost predicate Doomed(s: State) {
    exists path: seq<State> :: Honest(path) && path[0] == s && path[|path| - 1].crash == FailedUnexpectedly
  }

  ghost predicate TheftIn(run: seq<State>) {
    exists i, a, o, f :: 0 <= i < |run| - 1 && StealsAt(run, i, a, o, f)
  }

  lemma TheftSettles(s: State, t: State, a: nat, o: nat, f: nat)
    requires ClaimsOK(s) && Steals(s, t, a, o, f)
    ensures f in s.heap && f in t.heap && t.heap[f].word != s.heap[f].word
  {
    assert ClaimOK(s, a);
  }

  lemma LookingIsHonest(path: seq<State>)
    requires Looking(path, FREE) && ClaimsOK(path[0])
    ensures Honest(path)
  {
    forall i, a, o, f | 0 <= i < |path| - 1 ensures !StealsAt(path, i, a, o, f) {
      assert path[i].heap == path[0].heap && path[i + 1].heap == path[0].heap;
      PathClaims(path, i);
      if StealsAt(path, i, a, o, f) { TheftSettles(path[i], path[i + 1], a, o, f); }
    }
  }

  lemma DoomedByTheft(run: seq<State>)
    requires Run(run, FREE) && run[|run| - 1].crash == NoCrash && Doomed(run[|run| - 1])
    ensures TheftIn(run)
  {
    var last := run[|run| - 1];
    RunClaims(run, FREE, |run| - 1);
    var path: seq<State> :| Honest(path) && path[0] == last && path[|path| - 1].crash == FailedUnexpectedly;
    var k := |path| - 2;
    PathClaims(path, k);
    assert StepOf(Steps(FREE), path, k);
    CrashIsOfRobbed(path[k], path[k + 1]);
    var o, f :| Robbed(path[k], o, f);
    HonestRobsNobody(path, k, o, f);
    RobbedInRun(run, |run| - 1, o, f);
  }

  lemma RobbedIsDoomed(s: State, o: nat, f: nat)
    requires ClaimsOK(s) && s.crash == NoCrash && Robbed(s, o, f)
    ensures Doomed(s)
  {
    assert ClaimOK(s, o);
    var path := RobbedCrashes(s, o, f, FREE);
    LookingIsHonest(path);
  }

  lemma TheftDooms(run: seq<State>)
    requires Run(run, FREE) && run[|run| - 1].crash == NoCrash && TheftIn(run)
    ensures Doomed(run[|run| - 1])
  {
    var i: nat, a, o, f :| i < |run| - 1 && StealsAt(run, i, a, o, f);
    RunClaims(run, FREE, i);
    TheftRobs(run[i], run[i + 1], a, o, f);
    RobbedToTheEnd(run, i + 1, |run| - 1, o, f);
    RunClaims(run, FREE, |run| - 1);
    RobbedIsDoomed(run[|run| - 1], o, f);
  }

  /** In every run of callers held to nothing, SetFailed can still crash without any further theft if and only if a
      theft has happened: some call settled a future with a success it did not own, between the two halves of a
      TrySetError on it. */
  lemma TheftIsTheReason(run: seq<State>)
    requires Run(run, FREE) && run[|run| - 1].crash == NoCrash
    ensures Doomed(run[|run| - 1]) <==> TheftIn(run)
  {
    if Doomed(run[|run| - 1]) { DoomedByTheft(run); }
    if TheftIn(run) { TheftDooms(run); }
  }
}
