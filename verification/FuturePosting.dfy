/** The two checks that fire for what other calls did: Post() of a future that is no longer Pending, and StartAwaiting
    on one that is no longer Invoking.

    Both are races by design: nobody holds the future between the moment a caller decides to post it or to wait for it
    and the swap that does. The theorems say who can win such a race, as an if and only if over all runs. The proofs
    follow the future: until it is posted it is Pending exactly as long as no operation took it away
    (PendingUntilTaken), and once it left Invoking it never comes back, so whoever ended that ended it once
    (EndedOnce). */
module FuturePosting {
  import opened FutureCore
  import opened FutureProtocol
  import opened FutureInvariant
  import opened FutureLists
  import opened FutureTheorems
  import opened FutureClaims

  // ---------- Post() ----------

  /** Call a, Post() of f, found it no longer Pending. */
  ghost predicate PostCrashed(s: State, a: nat, f: nat) {
    && s.crash == PostedTooLate && a in s.acts
    && match s.acts[a].frame {
         case Walk(src, isList, node, _, seen, pc) =>
           src == Null && !isList && node == Ref(f) && pc == PostCheck && seen.state != Pending
         case _ => false }
  }

  /** Call a moves f to Posting. */
  ghost predicate Posts(s: State, t: State, a: nat, f: nat) {
    StepPostSwap(s, t, a) && s.acts[a].frame.node == Ref(f)
  }

  ghost predicate PostsAt(run: seq<State>, i: nat, a: nat, f: nat)
    requires i + 1 < |run|
  {
    Posts(run[i], run[i + 1], a, f)
  }

  /** Another call, an operation on f itself, takes it out of Pending. */
  ghost predicate Takes(s: State, t: State, b: nat, f: nat) {
    StepSwap(s, t, b) && s.acts[b].frame.fut == f && s.acts[b].frame.seen.state == Pending
  }

  ghost predicate Taking(s: State, t: State, f: nat) {
    exists b :: Takes(s, t, b, f)
  }

  ghost predicate TakesAt(run: seq<State>, i: nat, f: nat)
    requires i + 1 < |run|
  {
    Taking(run[i], run[i + 1], f)
  }

  /** Before the state i some operation on f took it out of Pending. */
  ghost predicate Taken(run: seq<State>, i: nat, f: nat)
    requires i < |run|
  {
    exists j :: 0 <= j < i && TakesAt(run, j, f)
  }

  ghost predicate IsPending(s: State, f: nat) {
    f in s.heap && s.heap[f].word.state == Pending
  }

  lemma TakesItAway(s: State, t: State, b: nat, f: nat)
    requires Inv(s) && Takes(s, t, b, f)
    ensures IsPending(s, f) && !IsPending(t, f)
  {
    assert ActOK(s.heap, s.acts, b);
    EdgeClimbs(s.heap[f].traits, s.acts[b].frame.seen.state, s.acts[b].frame.next);
  }

  /** The walk that was given f has not come to its swap. */
  predicate BeforeSwap(frame: Frame, f: nat) {
    frame.Walk? && frame.node == Ref(f) && frame.walkPc in {PostLoad, PostCheck, PostSwap}
  }

  /** f was never posted. */
  ghost predicate Unposted(s: State, f: nat) {
    && f in s.heap
    && (s.heap[f].place == Handed ==>
          && s.heap[f].handler.Ref? && s.heap[f].handler.id in s.acts
          && BeforeSwap(s.acts[s.heap[f].handler.id].frame, f))
  }

  /** A step that changes the state of f is a swap on it. */
  lemma ChangesBySwap(s: State, t: State, b: nat, f: nat)
    requires Continue(s, t, b, true) && f in s.heap && f in t.heap && t.heap[f].word.state != s.heap[f].word.state
    ensures Swaps(s, t, b)
  {
    if !Swaps(s, t, b) {
      if StepAddSwap(s, t, b) { AddSwapKeeps(s, t, b, f); } else { ContinueKeeps(s, t, b, true, f); }
    }
  }

  lemma SwapOf(s: State, t: State, b: nat, f: nat)
    requires Inv(s) && StepSwap(s, t, b) && f in s.heap && f in t.heap && t.heap[f].word.state != s.heap[f].word.state
    ensures s.acts[b].frame.fut == f && s.acts[b].frame.seen == s.heap[f].word && t.heap[f].word.state != Pending
  {
    assert ActOK(s.heap, s.acts, b);
    EdgeClimbs(s.heap[s.acts[b].frame.fut].traits, s.acts[b].frame.seen.state, s.acts[b].frame.next);
  }

  /** A walk's swap is on a future it posts, or has posted. */
  lemma WalksSwap(s: State, t: State, b: nat, f: nat)
    requires Inv(s) && (StepPostSwap(s, t, b) || StepPostedSwap(s, t, b))
    requires f in s.heap && f in t.heap && t.heap[f].word.state != s.heap[f].word.state
    ensures !Unposted(t, f)
  {
    assert ActOK(s.heap, s.acts, b);
  }

  /** A future that was never posted leaves Pending only by an operation on it. */
  lemma LeavesByTaking(s: State, t: State, b: nat, f: nat)
    requires Inv(s) && Continue(s, t, b, true) && f in s.heap && Unposted(t, f)
    ensures IsPending(t, f) ==> IsPending(s, f)
    ensures IsPending(s, f) && !IsPending(t, f) ==> Takes(s, t, b, f)
  {
    if t.heap[f].word.state != s.heap[f].word.state {
      ChangesBySwap(s, t, b, f);
      if StepSwap(s, t, b) { SwapOf(s, t, b, f); } else { WalksSwap(s, t, b, f); }
    }
  }

  lemma AddUnposted(s: State, t: State, b: nat, f: nat)
    requires Inv(s) && AddStep(s, t, b) && f in s.heap && Unposted(t, f)
    ensures Unposted(s, f)
  {
    assert ActOK(s.heap, s.acts, b);
    assert FutOK(s.heap, s.acts, f);
  }

  /** A step of b that hands nothing over, and leads b nowhere before its swap. */
  ghost predicate KeepsPlace(s: State, t: State, b: nat, f: nat) {
    && f in s.heap && f in t.heap && t.heap[f].place == s.heap[f].place && t.heap[f].handler == s.heap[f].handler
    && b in s.acts && b in t.acts && t.acts == s.acts[b := t.acts[b]]
    && (BeforeSwap(t.acts[b].frame, f) ==> BeforeSwap(s.acts[b].frame, f))
  }

  lemma KeepsUnposted(s: State, t: State, b: nat, f: nat)
    requires KeepsPlace(s, t, b, f) && Unposted(t, f)
    ensures Unposted(s, f)
  {
  }

  lemma WordUnposted(s: State, t: State, b: nat, f: nat)
    requires WordStep(s, t, b, true) && f in s.heap && Unposted(t, f)
    ensures Unposted(s, f)
  {
    assert KeepsPlace(s, t, b, f);
    KeepsUnposted(s, t, b, f);
  }

  /** The walk is given f, which nobody was given before. */
  lemma NodeUnposted(s: State, t: State, b: nat, f: nat)
    requires Inv(s) && StepNode(s, t, b) && f in s.heap && Unposted(t, f)
    ensures Unposted(s, f)
  {
    assert ActOK(s.heap, s.acts, b);
    if s.acts[b].frame.node == Ref(f) && s.acts[b].frame.isList {
      var p := s.acts[b].frame.source.id;
      assert FutOK(s.heap, s.acts, p);
      assert NodeOK(s.heap, p, s.heap[p].chain, 0);
    }
  }

  lemma LookUnposted(s: State, t: State, b: nat, f: nat)
    requires LooksAtNode(s, t, b) && f in s.heap && Unposted(t, f)
    ensures Unposted(s, f)
  {
    assert KeepsPlace(s, t, b, f);
    KeepsUnposted(s, t, b, f);
  }

  lemma RoundUnposted(s: State, t: State, b: nat, f: nat)
    requires GoesAround(s, t, b) && f in s.heap && Unposted(t, f)
    ensures Unposted(s, f)
  {
    assert KeepsPlace(s, t, b, f);
    KeepsUnposted(s, t, b, f);
  }

  lemma PostUnposted(s: State, t: State, b: nat, f: nat)
    requires (StepPostSwap(s, t, b) || StepPostedSwap(s, t, b)) && f in s.heap && Unposted(t, f)
    ensures Unposted(s, f)
  {
    assert KeepsPlace(s, t, b, f);
    KeepsUnposted(s, t, b, f);
  }

  lemma WalkUnposted(s: State, t: State, b: nat, f: nat)
    requires Inv(s) && WalkStep(s, t, b) && f in s.heap && Unposted(t, f)
    ensures Unposted(s, f)
  {
    if StepNode(s, t, b) { NodeUnposted(s, t, b, f); }
    else if LooksAtNode(s, t, b) { LookUnposted(s, t, b, f); }
    else if GoesAround(s, t, b) { RoundUnposted(s, t, b, f); }
    else { PostUnposted(s, t, b, f); }
  }

  lemma StepUnposted(s: State, t: State, f: nat)
    requires Inv(s) && Next(s, t, CLAIMED) && f in s.heap && Unposted(t, f)
    ensures Unposted(s, f)
    ensures IsPending(t, f) <==> IsPending(s, f) && !Taking(s, t, f)
  {
    if b :| Takes(s, t, b, f) { TakesItAway(s, t, b, f); }
    if Begin(s, t, false) {
      BeginUnposted(s, t, f);
    } else {
      var b: nat :| Continue(s, t, b, true);
      LeavesByTaking(s, t, b, f);
      if AddStep(s, t, b) { AddUnposted(s, t, b, f); }
      else if WordStep(s, t, b, true) { WordUnposted(s, t, b, f); }
      else { WalkUnposted(s, t, b, f); }
    }
  }

  lemma BeginUnposted(s: State, t: State, f: nat)
    requires Inv(s) && Begin(s, t, false) && f in s.heap && Unposted(t, f)
    ensures Unposted(s, f) && (IsPending(t, f) <==> IsPending(s, f))
  {
    assert FutOK(s.heap, s.acts, f);
  }

  lemma StepPending(run: seq<State>, i: nat, f: nat)
    requires Run(run, CLAIMED) && i + 1 < |run| && Unposted(run[i + 1], f)
    ensures Unposted(run[i], f)
    ensures IsPending(run[i + 1], f) <==> IsPending(run[i], f) && !TakesAt(run, i, f)
  {
    SameFutures(run, i, f);
    RunInv(run, i);
    assert StepAt(run, i, CLAIMED);
    StepUnposted(run[i], run[i + 1], f);
  }

  /** Until it is posted, a future is Pending exactly as long as nobody took it away. */
  lemma {:induction false} PendingUntilTaken(run: seq<State>, i: nat, f: nat)
    requires Run(run, CLAIMED) && i < |run| && Unposted(run[i], f)
    ensures IsPending(run[i], f) <==> !Taken(run, i, f)
  {
    if i > 0 {
      var last := i - 1;
      StepPending(run, last, f);
      PendingUntilTaken(run, last, f);
    }
  }

  lemma NotBoth(s: State, t: State, a: nat, b: nat)
    requires StepPostSwap(s, t, a)
    ensures !StepSwap(s, t, b)
  {
    assert b in s.acts && b != a ==> t.acts[b] == s.acts[b];
  }

  lemma PostedWasPending(run: seq<State>, j: nat, a: nat, f: nat)
    requires Run(run, CLAIMED) && j + 1 < |run| && PostsAt(run, j, a, f)
    ensures !Taken(run, j, f) && f in run[j + 1].heap && !IsPending(run[j + 1], f)
  {
    RunInv(run, j);
    assert ActOK(run[j].heap, run[j].acts, a);
    PendingUntilTaken(run, j, f);
  }

  /** Once posted, nobody takes it out of Pending any more. */
  lemma PostedIsNotTaken(run: seq<State>, i: nat, j: nat, a: nat, f: nat)
    requires Run(run, CLAIMED) && j < i < |run| && PostsAt(run, j, a, f)
    ensures !Taken(run, i, f)
  {
    PostedWasPending(run, j, a, f);
    forall k | 0 <= k < i ensures !TakesAt(run, k, f) {
      if k < j {
        assert !Taken(run, j, f);
      } else if k == j {
        var s, t := run[j], run[j + 1];
        if b :| Takes(s, t, b, f) { NotBoth(s, t, a, b); }
      } else {
        NotTakenLater(run, j + 1, k, f);
      }
    }
  }

  lemma NotTakenLater(run: seq<State>, j: nat, k: nat, f: nat)
    requires Run(run, CLAIMED) && j <= k && k + 1 < |run| && f in run[j].heap && !IsPending(run[j], f)
    ensures !TakesAt(run, k, f)
  {
    NeverReturns(run, j, k, f);
    RunInv(run, k);
    var s, t := run[k], run[k + 1];
    if b :| Takes(s, t, b, f) { TakesItAway(s, t, b, f); }
  }

  /** Post() fails fast if and only if some other operation took its future out of Pending before it got there. */
  lemma PostFailsIff(run: seq<State>, i: nat, a: nat, f: nat)
    requires Run(run, CLAIMED) && i < |run|
    requires PostCrashed(run[i], a, f) || exists j :: 0 <= j < i && PostsAt(run, j, a, f)
    ensures PostCrashed(run[i], a, f) <==> Taken(run, i, f)
  {
    if PostCrashed(run[i], a, f) {
      RunInv(run, i);
      assert ActOK(run[i].heap, run[i].acts, a);
      PendingUntilTaken(run, i, f);
    } else {
      var j: nat :| j < i && PostsAt(run, j, a, f);
      PostedIsNotTaken(run, i, j, a, f);
    }
  }

  /** Call a is Post() of f, on its way to the swap. */
  predicate OnItsWay(s: State, a: nat, f: nat) {
    && a in s.acts && s.acts[a].frame.Walk? && s.acts[a].frame.source == Null && !s.acts[a].frame.isList
    && s.acts[a].frame.node == Ref(f) && s.acts[a].frame.walkPc in {AtNode, PostLoad, PostCheck, PostSwap}
  }

  lemma PostGoesOn(s: State, t: State, a: nat, f: nat)
    requires Next(s, t, CLAIMED) && OnItsWay(s, a, f)
    ensures OnItsWay(t, a, f) || Posts(s, t, a, f)
  {
    if !Begin(s, t, false) {
      var b: nat :| Continue(s, t, b, true);
      if b == a { PostMoves(s, t, a, f); } else { OneActs(s, t, b, a); }
    }
  }

  lemma PostMoves(s: State, t: State, a: nat, f: nat)
    requires Continue(s, t, a, true) && OnItsWay(s, a, f)
    ensures OnItsWay(t, a, f) || Posts(s, t, a, f)
  {
  }

  /** A Post() that has left that stage, and so every one that returned, has moved its future to Posting; with
      PostFailsIff: it did if and only if nobody took the future out of Pending before. */
  lemma {:induction false} ReturnedPostPosted(run: seq<State>, i: nat, j: nat, a: nat, f: nat)
    requires Run(run, CLAIMED) && i <= j < |run| && OnItsWay(run[i], a, f) && !OnItsWay(run[j], a, f)
    ensures exists k :: i <= k < j && PostsAt(run, k, a, f)
    decreases j
  {
    var last := j - 1;
    if OnItsWay(run[last], a, f) {
      assert StepAt(run, last, CLAIMED);
      PostGoesOn(run[last], run[j], a, f);
      assert PostsAt(run, last, a, f);
    } else {
      ReturnedPostPosted(run, i, last, a, f);
    }
  }

  // ---------- StartAwaiting ----------

  predicate IsInvoking(s: State, f: nat) {
    f in s.heap && s.heap[f].word.state == Invoking
  }

  /** Call b is StartAwaiting on f, and has seen no state that f had left before it was Invoking. */
  predicate Awaiter(frame: Frame, f: nat) {
    && frame.Update? && frame.req == Request.StartAwaiting && frame.fut == f && !frame.owner
    && (frame.updatePc != Load ==> Rank(frame.seen.state) >= Rank(Invoking))
  }

  /** Its check fired. */
  predicate AwaitCrashed(s: State, b: nat, f: nat) {
    && s.crash == AwaitedTooLate && b in s.acts && s.acts[b].frame.Update? && s.acts[b].frame.fut == f
    && s.acts[b].frame.req == Request.StartAwaiting && s.acts[b].frame.updatePc == Check
    && s.acts[b].frame.seen.state != Invoking
  }

  /** Another call takes f out of Invoking: one made in its callback, or another StartAwaiting. */
  ghost predicate EndsInvoking(s: State, t: State, c: nat, f: nat) {
    IsInvoking(s, f) && !IsInvoking(t, f) && StepSwap(s, t, c) && (Sync(s, c, f) || Awaits(s, c))
  }

  ghost predicate EndsInvokingAt(run: seq<State>, i: nat, c: nat, f: nat)
    requires i + 1 < |run|
  {
    EndsInvoking(run[i], run[i + 1], c, f)
  }

  lemma AwaiterSteps(s: State, t: State, b: nat, f: nat)
    requires Inv(s) && Next(s, t, CLAIMED) && b in s.acts && f in s.heap && Rank(s.heap[f].word.state) >= Rank(Invoking)
    requires Awaiter(s.acts[b].frame, f) || s.acts[b].frame == Ended
    ensures b in t.acts && (Awaiter(t.acts[b].frame, f) || t.acts[b].frame == Ended)
    ensures Awaiter(t.acts[b].frame, f) ==> Awaiter(s.acts[b].frame, f) && !StepSwap(s, t, b)
  {
    if !Begin(s, t, false) {
      var a: nat :| Continue(s, t, a, true);
      assert Continue(s, t, a, false);
      OneActs(s, t, a, b);
      if a == b && s.acts[b].frame != Ended { AwaiterMoves(s, t, b, f); }
    }
  }

  lemma AwaiterMoves(s: State, t: State, b: nat, f: nat)
    requires Inv(s) && Continue(s, t, b, true) && b in s.acts && Awaiter(s.acts[b].frame, f)
    requires f in s.heap && Rank(s.heap[f].word.state) >= Rank(Invoking)
    ensures b in t.acts && (Awaiter(t.acts[b].frame, f) || t.acts[b].frame == Ended)
    ensures Awaiter(t.acts[b].frame, f) ==> !StepSwap(s, t, b)
  {
    assert ActOK(s.heap, s.acts, b);
  }

  lemma AwaiterStepAt(run: seq<State>, k: nat, b: nat, f: nat)
    requires Run(run, CLAIMED) && k + 1 < |run| && b in run[k].acts
    requires f in run[k].heap && Rank(run[k].heap[f].word.state) >= Rank(Invoking)
    requires Awaiter(run[k].acts[b].frame, f) || run[k].acts[b].frame == Ended
    ensures b in run[k + 1].acts && (Awaiter(run[k + 1].acts[b].frame, f) || run[k + 1].acts[b].frame == Ended)
    ensures Awaiter(run[k + 1].acts[b].frame, f) ==>
              Awaiter(run[k].acts[b].frame, f) && !StepSwap(run[k], run[k + 1], b)
  {
    RunInv(run, k);
    assert StepAt(run, k, CLAIMED);
    AwaiterSteps(run[k], run[k + 1], b, f);
  }

  lemma {:induction false} StaysAwaiter(run: seq<State>, i: nat, k: nat, b: nat, f: nat)
    requires Run(run, CLAIMED) && i <= k < |run| && IsInvoking(run[i], f)
    requires b in run[i].acts && Awaiter(run[i].acts[b].frame, f)
    ensures b in run[k].acts && (Awaiter(run[k].acts[b].frame, f) || run[k].acts[b].frame == Ended)
    decreases k
  {
    if i < k {
      StaysAwaiter(run, i, k - 1, b, f);
      NeverReturns(run, i, k - 1, f);
      AwaiterStepAt(run, k - 1, b, f);
    }
  }

  lemma EndsBySwap(s: State, t: State, c: nat, f: nat)
    requires Inv(s) && Swaps(s, t, c) && IsInvoking(s, f) && f in t.heap && !IsInvoking(t, f)
    ensures EndsInvoking(s, t, c, f)
  {
    LeavesByCallback(s, t, c, f);
    if !StepSwap(s, t, c) { NotByWalks(s, t, c, f); }
  }

  lemma EndingSwap(s: State, t: State, f: nat) returns (c: nat)
    requires Inv(s) && Next(s, t, CLAIMED) && IsInvoking(s, f) && f in t.heap && !IsInvoking(t, f)
    ensures EndsInvoking(s, t, c, f)
  {
    c := 0;
    if Begin(s, t, false) {
      BeginKeeps(s, t, false, f);
    } else {
      c :| Continue(s, t, c, true);
      ChangesBySwap(s, t, c, f);
      EndsBySwap(s, t, c, f);
    }
  }

  lemma NotByWalks(s: State, t: State, c: nat, f: nat)
    requires Inv(s) && IsInvoking(s, f) && (StepPostSwap(s, t, c) || StepPostedSwap(s, t, c))
    ensures IsInvoking(t, f)
  {
    assert ActOK(s.heap, s.acts, c);
  }

  lemma {:induction false} FindsEnding(run: seq<State>, i: nat, j: nat, b: nat, f: nat) returns (k: nat, c: nat)
    requires Run(run, CLAIMED) && i <= j < |run| && IsInvoking(run[i], f)
    requires b in run[i].acts && Awaiter(run[i].acts[b].frame, f)
    requires b in run[j].acts && Awaiter(run[j].acts[b].frame, f) && !IsInvoking(run[j], f)
    ensures i <= k < j && c != b && EndsInvokingAt(run, k, c, f)
    decreases j
  {
    var last := j - 1;
    RunInv(run, last);
    assert StepAt(run, last, CLAIMED);
    StaysAwaiter(run, i, last, b, f);
    NeverReturns(run, i, last, f);
    NeverReturns(run, last, j, f);
    AwaiterSteps(run[last], run[j], b, f);
    if IsInvoking(run[last], f) {
      k := last;
      c := EndingSwap(run[last], run[j], f);
    } else {
      k, c := FindsEnding(run, i, last, b, f);
    }
  }

  /** Some other call than b took f out of Invoking between i and j. */
  ghost predicate Preempted(run: seq<State>, i: nat, j: nat, b: nat, f: nat)
    requires i <= j < |run|
  {
    exists k, c :: i <= k < j && c != b && EndsInvokingAt(run, k, c, f)
  }

  lemma TwoSwaps(s: State, t: State, b: nat, c: nat)
    requires StepSwap(s, t, b) && StepSwap(s, t, c)
    ensures b == c
  {
    assert t.acts[b].frame != s.acts[b].frame;
  }

  lemma NotInvokingLater(run: seq<State>, k: nat, m: nat, f: nat)
    requires Run(run, CLAIMED) && k < m < |run| && IsInvoking(run[k], f) && !IsInvoking(run[k + 1], f)
    ensures !IsInvoking(run[m], f)
  {
    NeverReturns(run, k, k + 1, f);
    NeverReturns(run, k + 1, m, f);
  }

  lemma EndedOnce(run: seq<State>, k: nat, m: nat, c: nat, b: nat, f: nat)
    requires Run(run, CLAIMED) && k + 1 < |run| && m + 1 < |run|
    requires EndsInvokingAt(run, k, c, f) && EndsInvokingAt(run, m, b, f)
    ensures c == b
  {
    if k < m { NotInvokingLater(run, k, m, f); }
    else if m < k { NotInvokingLater(run, m, k, f); }
    else { TwoSwaps(run[k], run[k + 1], b, c); }
  }

  /** A StartAwaiting that began while its future was Invoking, once it is over, failed fast if and only if another call
      ended that first: one made in the future's own callback, or another StartAwaiting. */
  lemma AwaitFailsIff(run: seq<State>, i: nat, j: nat, b: nat, f: nat)
    requires Run(run, CLAIMED) && i <= j < |run| && IsInvoking(run[i], f)
    requires b in run[i].acts && Awaiter(run[i].acts[b].frame, f)
    requires AwaitCrashed(run[j], b, f) || exists m :: i <= m < j && EndsInvokingAt(run, m, b, f)
    ensures AwaitCrashed(run[j], b, f) <==> Preempted(run, i, j, b, f)
  {
    if AwaitCrashed(run[j], b, f) {
      StaysAwaiter(run, i, j, b, f);
      RunInv(run, j);
      assert ActOK(run[j].heap, run[j].acts, b);
      NeverReturns(run, i, j, f);
      var k, c := FindsEnding(run, i, j, b, f);
    } else {
      var m: nat :| i <= m < j && EndsInvokingAt(run, m, b, f);
      if k: nat, c :| i <= k < j && c != b && EndsInvokingAt(run, k, c, f) { EndedOnce(run, k, m, c, b, f); }
    }
  }
}