/** What every run of the future protocol guarantees if callers go on from SettingResult only after their own claim. */
module FutureTheorems {
  import opened FutureCore
  import opened FutureProtocol
  import opened FutureInvariant

  // ---------- the invariant holds in every run ----------

  lemma NextPreserves(s: State, t: State)
    requires Inv(s) && Next(s, t, CLAIMED)
    ensures Inv(t)
  {
    if Begin(s, t, false) {
      if a, host, p, c :| BeginAdd(s, t, a, host, p, c) { PreserveBeginAdd(s, t, a, host, p, c); }
      else if a, host, r, f :| BeginUpdate(s, t, a, host, r, f, false) { PreserveBeginUpdate(s, t, a, host, r, f); }
      else if a, host, f :| BeginPost(s, t, a, host, f) { PreserveBeginPost(s, t, a, host, f); }
      else { var a, f :| Publish(s, t, a, f); PreservePublish(s, t, a, f); }
    } else {
      var a :| Continue(s, t, a, true);
      ContinuePreserves(s, t, a);
    }
  }

  lemma ContinuePreserves(s: State, t: State, a: nat)
    requires Inv(s) && s.crash == NoCrash && Continue(s, t, a, true)
    ensures Inv(t)
  {
    if
    case FrameOnly(s, t, a) => PreserveFrame(s, t, a);
    case StepAddLink(s, t, a) => PreserveAddLink(s, t, a);
    case StepAddSwap(s, t, a) =>
      if IsDone(s.acts[a].frame.seen.state) { PreserveAddSwapLate(s, t, a); } else { PreserveAddSwapListed(s, t, a); }
    case StepCheck(s, t, a, true) => PreserveCheck(s, t, a);
    case StepSwap(s, t, a) => PreserveSwap(s, t, a);
    case StepCleanup(s, t, a) => PreserveCleanup(s, t, a);
    case StepNode(s, t, a) =>
      if s.acts[a].frame.node == Null { PreserveLastNode(s, t, a); }
      else if s.acts[a].frame.isList { PreserveListNode(s, t, a); }
      else { PreserveSingleNode(s, t, a); }
    case StepPostSwap(s, t, a) => PreservePostSwap(s, t, a);
    case StepTakeNext(s, t, a) => PreserveTakeNext(s, t, a);
    case StepSetLink(s, t, a) => PreserveSetLink(s, t, a);
    case StepPostedSwap(s, t, a) => PreservePostedSwap(s, t, a);
  }

  lemma {:induction false} RunInv(run: seq<State>, i: nat)
    requires Run(run, CLAIMED) && i < |run|
    ensures Inv(run[i])
  {
    if i == 0 {
      forall f <- run[0].heap ensures FutOK(run[0].heap, run[0].acts, f) {}
    } else {
      RunInv(run, i - 1);
      assert StepAt(run, i - 1, CLAIMED);
      NextPreserves(run[i - 1], run[i]);
    }
  }

  // ---------- safety ----------

  /** The sentinel marks settled words only, and a settled word holds nothing else: null if nothing was ever
      accepted, the sentinel otherwise. */
  lemma Sentinel(run: seq<State>, i: nat, f: nat)
    requires Run(run, CLAIMED) && i < |run| && f in run[i].heap
    ensures var fut := run[i].heap[f];
            && (fut.word.cont == ContinuationInvoked ==> IsDone(fut.word.state))
            && (IsDone(fut.word.state) ==>
                  fut.word.cont == if fut.listed + fut.late == [] then Null else ContinuationInvoked)
  {
    RunInv(run, i);
    assert FutOK(run[i].heap, run[i].acts, f);
  }

  /** A non-shared future accepts, before and after it is done, at most one continuation that does not merely
      pass its value through, and only as its first. */
  lemma UniqueContinuation(run: seq<State>, i: nat, f: nat, k: nat)
    requires Run(run, CLAIMED) && i < |run| && f in run[i].heap && !run[i].heap[f].traits.isShared
    requires 0 < k < |run[i].heap[f].listed + run[i].heap[f].late|
    ensures (run[i].heap[f].listed + run[i].heap[f].late)[k] in run[i].heap
    ensures PassThrough(run[i].heap[(run[i].heap[f].listed + run[i].heap[f].late)[k]].traits)
  {
    RunInv(run, i);
    assert FutOK(run[i].heap, run[i].acts, f);
    assert EntryOK(run[i].heap, f, run[i].heap[f].listed + run[i].heap[f].late, k);
  }

  // ---------- what few steps write ----------

  /** The steps that change a state. */
  ghost predicate Swaps(s: State, t: State, a: nat) {
    StepSwap(s, t, a) || StepPostSwap(s, t, a) || StepPostedSwap(s, t, a)
  }

  ghost predicate Same(s: State, t: State, f: nat) {
    && f in s.heap && f in t.heap && t.heap[f].traits == s.heap[f].traits
    && t.heap[f].word == s.heap[f].word && t.heap[f].listed == s.heap[f].listed && t.heap[f].setter == s.heap[f].setter
  }

  lemma BeginKeeps(s: State, t: State, publishes: bool, f: nat)
    requires Begin(s, t, publishes) && f in s.heap
    ensures Same(s, t, f)
  {
  }

  lemma AddKeeps(s: State, t: State, a: nat, f: nat)
    requires AddStep(s, t, a) && !StepAddSwap(s, t, a) && f in s.heap
    ensures Same(s, t, f)
  {
  }

  lemma WordKeeps(s: State, t: State, a: nat, claims: bool, f: nat)
    requires WordStep(s, t, a, claims) && !StepSwap(s, t, a) && f in s.heap
    ensures Same(s, t, f)
  {
  }

  lemma WalkKeeps(s: State, t: State, a: nat, f: nat)
    requires WalkStep(s, t, a) && !StepPostSwap(s, t, a) && !StepPostedSwap(s, t, a) && f in s.heap
    ensures Same(s, t, f)
  {
  }

  lemma ContinueKeeps(s: State, t: State, a: nat, claims: bool, f: nat)
    requires Continue(s, t, a, claims) && !Swaps(s, t, a) && !StepAddSwap(s, t, a) && f in s.heap
    ensures Same(s, t, f)
  {
    if AddStep(s, t, a) {
      AddKeeps(s, t, a, f);
    } else if WordStep(s, t, a, claims) {
      WordKeeps(s, t, a, claims, f);
    } else {
      WalkKeeps(s, t, a, f);
    }
  }

  lemma AddSwapKeeps(s: State, t: State, a: nat, f: nat)
    requires StepAddSwap(s, t, a) && f in s.heap
    ensures f in t.heap && t.heap[f].traits == s.heap[f].traits && t.heap[f].word.state == s.heap[f].word.state
    ensures t.heap[f].setter == s.heap[f].setter
    ensures IsDone(s.heap[f].word.state) ==> t.heap[f].listed == s.heap[f].listed
  {
  }

  lemma SwapKeeps(s: State, t: State, a: nat, f: nat)
    requires Swaps(s, t, a) && f in s.heap
    ensures f in t.heap && t.heap[f].traits == s.heap[f].traits && t.heap[f].listed == s.heap[f].listed
  {
  }

  // ---------- delivery ----------

  lemma ListCloses(s: State, t: State, f: nat)
    requires Next(s, t, CLAIMED) && f in s.heap && IsDone(s.heap[f].word.state)
    ensures f in t.heap && t.heap[f].listed == s.heap[f].listed
  {
    if Begin(s, t, false) {
      BeginKeeps(s, t, false, f);
    } else {
      var a: nat :| Continue(s, t, a, true);
      if StepAddSwap(s, t, a) {
        AddSwapKeeps(s, t, a, f);
      } else if Swaps(s, t, a) {
        SwapKeeps(s, t, a, f);
      } else {
        ContinueKeeps(s, t, a, true, f);
      }
    }
  }

  lemma {:induction false} ListStaysClosed(run: seq<State>, i: nat, j: nat, f: nat)
    requires Run(run, CLAIMED) && i <= j < |run| && f in run[i].heap && IsDone(run[i].heap[f].word.state)
    ensures f in run[j].heap && run[j].heap[f].listed == run[i].heap[f].listed
    decreases j - i
  {
    if i < j {
      ListStaysClosed(run, i, j - 1, f);
      NeverReturns(run, i, j - 1, f);
      assert StepAt(run, j - 1, CLAIMED);
      ListCloses(run[j - 1], run[j], f);
    }
  }

  /** Once a future is done its list takes nothing more, so its walk, which hands over one entry a round, ends after
      as many rounds as there are entries. */
  lemma WalkIsBounded(run: seq<State>, i: nat, j: nat, f: nat)
    requires Run(run, CLAIMED) && i <= j < |run| && f in run[i].heap && IsDone(run[i].heap[f].word.state)
    ensures f in run[j].heap && |run[j].heap[f].visited| + |run[j].heap[f].chain| == |run[i].heap[f].listed|
  {
    ListStaysClosed(run, i, j, f);
    RunInv(run, j);
    assert FutOK(run[j].heap, run[j].acts, f);
  }

  /** Handed to TryPostInternal at most once, ever; and a future already handed over is in no list. */
  lemma HandedAtMostOnce(run: seq<State>, i: nat, c: nat)
    requires Run(run, CLAIMED) && i < |run| && c in run[i].heap
    ensures run[i].heap[c].handed <= 1
    ensures run[i].heap[c].handed == 1 ==>
              forall p <- run[i].heap :: c !in run[i].heap[p].chain
  {
    RunInv(run, i);
    var s := run[i];
    assert FutOK(s.heap, s.acts, c);
    forall p <- s.heap ensures c in s.heap[p].chain ==> s.heap[c].place == Listed(p) {
      assert FutOK(s.heap, s.acts, p);
      if k :| 0 <= k < |s.heap[p].chain| && s.heap[p].chain[k] == c { assert NodeOK(s.heap, p, s.heap[p].chain, k); }
    }
  }

  /** Who has an accepted continuation now. */
  ghost predicate InList(s: State, p: nat, c: nat) {
    p in s.heap && c in s.heap[p].chain
  }

  ghost predicate HeldByWalk(s: State, a: nat, c: nat) {
    a in s.acts && WaitsFor(s.acts[a].frame, c)
  }

  /** Never neither: an accepted continuation is in the list of its parent, about to be handed over by the one
      call that added it late, or was handed over. Never both: in exactly one of them. */
  lemma ExactlyOnce(run: seq<State>, i: nat, p: nat, c: nat)
    requires Run(run, CLAIMED) && i < |run| && p in run[i].heap && c in run[i].heap[p].listed + run[i].heap[p].late
    ensures c in run[i].heap
    ensures match run[i].heap[c].place {
              case Listed(q) =>
                q == p && InList(run[i], p, c) && run[i].heap[c].handed == 0 && forall a :: !HeldByWalk(run[i], a, c)
              case Walking(a) => HeldByWalk(run[i], a, c) && (forall b :: HeldByWalk(run[i], b, c) ==> b == a) &&
                                 run[i].heap[c].handed == 0 && forall q :: !InList(run[i], q, c)
              case Handed =>
                && run[i].heap[c].handed == 1
                && (forall q :: !InList(run[i], q, c)) && forall a :: !HeldByWalk(run[i], a, c)
              case _ => false }
  {
    RunInv(run, i);
    var s := run[i];
    assert FutOK(s.heap, s.acts, p);
    var all := s.heap[p].listed + s.heap[p].late;
    var k :| 0 <= k < |all| && all[k] == c;
    assert EntryOK(s.heap, p, all, k);
    assert FutOK(s.heap, s.acts, c);
    forall q ensures InList(s, q, c) ==> s.heap[c].place == Listed(q) {
      if InList(s, q, c) {
        assert FutOK(s.heap, s.acts, q);
        var n :| 0 <= n < |s.heap[q].chain| && s.heap[q].chain[n] == c;
        assert NodeOK(s.heap, q, s.heap[q].chain, n);
      }
    }
    forall a ensures HeldByWalk(s, a, c) ==> s.heap[c].place == Walking(a) {
      if HeldByWalk(s, a, c) { assert ActOK(s.heap, s.acts, a); }
    }
  }

  // ---------- settling ----------

  /** Posted although it has nothing to invoke and no parent value to take. */
  predicate PostedForNothing(t: Traits, before: FutureState, after: FutureState) {
    before == Pending && after == Posting && !t.hasTaskInvoke && !t.useParentValue
  }

  /** Every step leaves the state of every future, or takes it along an edge of the commented graph, with one
      exception. */
  ghost predicate OnGraph(s: State, t: State, f: nat) {
    && f in s.heap && f in t.heap && t.heap[f].traits == s.heap[f].traits
    && (t.heap[f].word.state != s.heap[f].word.state ==>
          && Edge(s.heap[f].traits, s.heap[f].word.state, t.heap[f].word.state)
          && (|| Commented(s.heap[f].traits, s.heap[f].word.state, t.heap[f].word.state)
              || PostedForNothing(s.heap[f].traits, s.heap[f].word.state, t.heap[f].word.state)))
  }

  lemma SwapOnGraph(s: State, t: State, a: nat, f: nat)
    requires Inv(s) && f in s.heap && StepSwap(s, t, a)
    ensures OnGraph(s, t, f)
  {
    assert ActOK(s.heap, s.acts, a);
    assert FutOK(s.heap, s.acts, f);
  }

  lemma PostOnGraph(s: State, t: State, a: nat, f: nat)
    requires Inv(s) && f in s.heap && (StepPostSwap(s, t, a) || StepPostedSwap(s, t, a))
    ensures OnGraph(s, t, f)
  {
    assert ActOK(s.heap, s.acts, a);
    assert FutOK(s.heap, s.acts, f);
  }

  lemma StepOnGraph(s: State, t: State, f: nat)
    requires Inv(s) && Next(s, t, CLAIMED) && f in s.heap
    ensures OnGraph(s, t, f)
  {
    if Begin(s, t, false) {
      BeginKeeps(s, t, false, f);
    } else {
      var a: nat :| Continue(s, t, a, true);
      if StepAddSwap(s, t, a) {
        AddSwapKeeps(s, t, a, f);
      } else if StepSwap(s, t, a) {
        SwapOnGraph(s, t, a, f);
      } else if Swaps(s, t, a) {
        PostOnGraph(s, t, a, f);
      } else {
        ContinueKeeps(s, t, a, true, f);
      }
    }
  }

  /** The trace of states of a future is a path in its graph, the one the comments draw but for Post() of a future with
      nothing to invoke. */
  lemma PathInGraph(run: seq<State>, i: nat, f: nat)
    requires Run(run, CLAIMED) && i + 1 < |run| && f in run[i].heap
    ensures OnGraph(run[i], run[i + 1], f)
  {
    RunInv(run, i);
    assert StepAt(run, i, CLAIMED);
    StepOnGraph(run[i], run[i + 1], f);
  }

  /** What leaves Posting or Invoking is the callback the future is in: a call made in it, TrySetPosted after it, or
      StartAwaiting. So the calls Invoke makes inline find the state it left. */
  lemma OnlyItsCallbackLeaves(run: seq<State>, i: nat, f: nat)
    requires Run(run, CLAIMED) && i + 1 < |run| && f in run[i].heap && run[i].heap[f].word.state in {Posting, Invoking}
    ensures f in run[i + 1].heap
    ensures run[i + 1].heap[f].word.state != run[i].heap[f].word.state ==>
              exists a :: a in run[i].acts
                  && (Sync(run[i], a, f) || AfterCallback(run[i], run[i + 1], a) || Awaits(run[i], a))
  {
    RunInv(run, i);
    assert StepAt(run, i, CLAIMED);
    var s, t := run[i], run[i + 1];
    if Begin(s, t, false) {
      BeginKeeps(s, t, false, f);
    } else {
      var a: nat :| Continue(s, t, a, true);
      if StepAddSwap(s, t, a) {
        AddSwapKeeps(s, t, a, f);
      } else if Swaps(s, t, a) {
        LeavesByCallback(s, t, a, f);
      } else {
        ContinueKeeps(s, t, a, true, f);
      }
    }
  }

  ghost predicate AfterCallback(s: State, t: State, a: nat) {
    StepPostedSwap(s, t, a)
  }

  predicate Awaits(s: State, a: nat) {
    a in s.acts && s.acts[a].frame.Update? && s.acts[a].frame.req == Request.StartAwaiting
  }

  lemma LeavesByCallback(s: State, t: State, a: nat, f: nat)
    requires Inv(s) && Swaps(s, t, a) && f in s.heap && s.heap[f].word.state in {Posting, Invoking}
    ensures a in s.acts && f in t.heap
    ensures t.heap[f].word.state != s.heap[f].word.state ==> Sync(s, a, f) || AfterCallback(s, t, a) || Awaits(s, a)
  {
    assert ActOK(s.heap, s.acts, a);
  }

  /** At most one TrySetSuccess or TrySetError settles a future, and exactly one has once it is done. */
  lemma SettledOnce(run: seq<State>, i: nat, f: nat)
    requires Run(run, CLAIMED) && i < |run| && f in run[i].heap
    ensures run[i].heap[f].settled == (if IsDone(run[i].heap[f].word.state) then 1 else 0)
  {
    RunInv(run, i);
    assert FutOK(run[i].heap, run[i].acts, f);
  }

  /** Succeeded and Failed are final, and a state once left is never taken again. */
  lemma {:induction false} NeverReturns(run: seq<State>, i: nat, j: nat, f: nat)
    requires Run(run, CLAIMED) && i <= j < |run| && f in run[i].heap
    ensures f in run[j].heap && Rank(run[i].heap[f].word.state) <= Rank(run[j].heap[f].word.state)
    ensures Rank(run[i].heap[f].word.state) == Rank(run[j].heap[f].word.state) ==>
        run[i].heap[f].word.state == run[j].heap[f].word.state
    ensures IsDone(run[i].heap[f].word.state) ==> run[j].heap[f].word.state == run[i].heap[f].word.state
    decreases j - i
  {
    if i < j {
      NeverReturns(run, i, j - 1, f);
      PathInGraph(run, j - 1, f);
    }
  }

  /** The task is entered at most once, and never after the future was settled without entering it. */
  lemma EnteredOnce(run: seq<State>, i: nat, f: nat)
    requires Run(run, CLAIMED) && i < |run| && f in run[i].heap
    ensures run[i].heap[f].entered <= 1
    ensures run[i].heap[f].entered == 1 ==> Rank(run[i].heap[f].word.state) >= Rank(Invoking)
  {
    RunInv(run, i);
    assert FutOK(run[i].heap, run[i].acts, f);
  }
}
