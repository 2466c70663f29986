/** Callers who touch a continuation only after AddContinuation published it spoil no list; and what a list that nobody
    spoils is sure of. */
module FutureDelivery {
  import opened FutureCore
  import opened FutureProtocol
  import opened FutureInvariant
  import opened FutureTheorems
  import opened FutureLists

  // ---------- published futures ----------

  /** A call on the word of a future that others may be at; what it would take out of Pending has a null link. */
  ghost predicate AtPublished(heap: Heap, frame: Frame) {
    match frame
    case Update(r, f, _, seen, _, pc) =>
      && f in heap && !Untouched(heap[f].place)
      && (r == StartSetError && pc == Swap && seen.state == Pending && heap[f].word.state == Pending ==>
            heap[f].link == Null)
    case _ => true
  }

  ghost predicate Fresh(heap: Heap, f: nat)
    requires f in heap
  {
    Untouched(heap[f].place) ==> heap[f].word.state == Pending
  }

  ghost predicate Published(s: State) {
    && (forall a {:trigger s.acts[a]} :: a in s.acts ==> AtPublished(s.heap, s.acts[a].frame))
    && forall f {:trigger Fresh(s.heap, f)} :: f in s.heap ==> Fresh(s.heap, f)
  }

  /** How a step may change a future without unpublishing it. */
  ghost predicate StaysPublished(heap: Heap, now: Heap, f: nat) {
    (f in heap <==> f in now) &&
    (f in heap ==>
       && (!Untouched(heap[f].place) ==>
             && !Untouched(now[f].place)
             && (now[f].word.state == Pending ==> heap[f].word.state == Pending)
             && (now[f].word.state == Pending && heap[f].link == Null ==> now[f].link == Null))
       && (Untouched(now[f].place) ==>
             Untouched(heap[f].place) && now[f].word.state == heap[f].word.state))
  }

  lemma StepPublished(s: State, t: State, a: nat)
    requires Published(s) && a in t.acts && t.acts == s.acts[a := t.acts[a]]
    requires forall f {:trigger StaysPublished(s.heap, t.heap, f)} :: StaysPublished(s.heap, t.heap, f)
    requires AtPublished(t.heap, t.acts[a].frame)
    ensures Published(t)
  {
    forall b | b in t.acts ensures AtPublished(t.heap, t.acts[b].frame) {
      if b != a && s.acts[b].frame.Update? { assert StaysPublished(s.heap, t.heap, s.acts[b].frame.fut); }
    }
    forall f | f in t.heap ensures Fresh(t.heap, f) {
      assert StaysPublished(s.heap, t.heap, f) && Fresh(s.heap, f);
    }
  }

  lemma BeginPublished(s: State, t: State)
    requires Published(s) && Begin(s, t, true)
    ensures Published(t)
  {
    var a: nat :| && a !in s.acts && a in t.acts && t.acts == s.acts[a := t.acts[a]]
                  && AtPublished(t.heap, t.acts[a].frame);
    forall f ensures StaysPublished(s.heap, t.heap, f) {}
    StepPublished(s, t, a);
  }

  lemma AddPublished(s: State, t: State, a: nat)
    requires Inv(s) && Published(s) && s.crash == NoCrash && AddStep(s, t, a)
    ensures Published(t)
  {
    assert ActOK(s.heap, s.acts, a);
    forall f ensures StaysPublished(s.heap, t.heap, f) {}
    StepPublished(s, t, a);
  }

  lemma WordPublished(s: State, t: State, a: nat)
    requires Inv(s) && Published(s) && s.crash == NoCrash && WordStep(s, t, a, true) && !StepSwap(s, t, a)
    ensures Published(t)
  {
    assert ActOK(s.heap, s.acts, a);
    assert AtPublished(s.heap, s.acts[a].frame);
    forall f ensures StaysPublished(s.heap, t.heap, f) {}
    StepPublished(s, t, a);
  }

  lemma SwapPublished(s: State, t: State, a: nat)
    requires Inv(s) && Published(s) && s.crash == NoCrash && StepSwap(s, t, a)
    ensures Published(t)
  {
    assert ActOK(s.heap, s.acts, a);
    assert AtPublished(s.heap, s.acts[a].frame);
    EdgeClimbs(s.heap[s.acts[a].frame.fut].traits, s.acts[a].frame.seen.state, s.acts[a].frame.next);
    forall f ensures StaysPublished(s.heap, t.heap, f) {}
    StepPublished(s, t, a);
  }

  lemma RoundPublished(s: State, t: State, a: nat)
    requires Inv(s) && Published(s) && s.crash == NoCrash && GoesAround(s, t, a)
    ensures Published(t)
  {
    assert ActOK(s.heap, s.acts, a);
    forall f ensures StaysPublished(s.heap, t.heap, f) {}
    StepPublished(s, t, a);
  }

  lemma LookPublished(s: State, t: State, a: nat)
    requires Inv(s) && Published(s) && s.crash == NoCrash && LooksAtNode(s, t, a)
    ensures Published(t)
  {
    forall f ensures StaysPublished(s.heap, t.heap, f) {}
    StepPublished(s, t, a);
  }

  lemma TurnPublished(s: State, t: State, a: nat)
    requires Inv(s) && Published(s) && s.crash == NoCrash && WalkStep(s, t, a) && !GoesAround(s, t, a)
    requires !LooksAtNode(s, t, a)
    ensures Published(t)
  {
    assert ActOK(s.heap, s.acts, a);
    forall f ensures StaysPublished(s.heap, t.heap, f) {}
    StepPublished(s, t, a);
  }

  lemma NextPublished(s: State, t: State)
    requires Inv(s) && Published(s) && Next(s, t, STRICT)
    ensures Published(t)
  {
    if Begin(s, t, true) {
      BeginPublished(s, t);
    } else {
      var a: nat :| Continue(s, t, a, true);
      if AddStep(s, t, a) { AddPublished(s, t, a); }
      else if StepSwap(s, t, a) { SwapPublished(s, t, a); }
      else if GoesAround(s, t, a) { RoundPublished(s, t, a); }
      else if LooksAtNode(s, t, a) { LookPublished(s, t, a); }
      else if WalkStep(s, t, a) { TurnPublished(s, t, a); }
      else { WordPublished(s, t, a); }
    }
  }

  /** What holds of careful callers holds of careless ones only where it says so; the converse is free. */
  lemma StrictIsClaimed(run: seq<State>)
    requires Run(run, STRICT)
    ensures Run(run, CLAIMED)
  {
    forall i | 0 <= i < |run| - 1 ensures StepAt(run, i, CLAIMED) {
      assert StepAt(run, i, STRICT);
      var s, t := run[i], run[i + 1];
      if a, host, r, f :| BeginUpdate(s, t, a, host, r, f, true) { assert BeginUpdate(s, t, a, host, r, f, false); }
    }
  }

  lemma {:induction false} RunPublished(run: seq<State>, i: nat)
    requires Run(run, STRICT) && i < |run|
    ensures Published(run[i])
  {
    if i > 0 {
      StrictIsClaimed(run);
      RunPublished(run, i - 1);
      RunInv(run, i - 1);
      assert StepAt(run, i - 1, STRICT);
      NextPublished(run[i - 1], run[i]);
    }
  }

  /** What is being added is still Pending, and what others are behind has a link while it is. */
  lemma AddedWaits(s: State, a: nat)
    requires Inv(s) && Published(s) && a in s.acts && s.acts[a].frame.Add?
    ensures Waits(s.heap, s.acts[a].frame.cont)
  {
    assert ActOK(s.heap, s.acts, a);
    assert Fresh(s.heap, s.acts[a].frame.cont);
  }

  lemma BehindHasLink(s: State, p: nat, c: nat)
    requires Inv(s) && HasBehind(s, p, c) && Waits(s.heap, c)
    ensures s.heap[c].link != Null
  {
    assert FutOK(s.heap, s.acts, p);
    if HandsOver(s, p, c) {
      assert ActOK(s.heap, s.acts, s.heap[p].walker.id);
    } else {
      var k :| 0 <= k < |s.heap[p].chain| && s.heap[p].chain[k] == c;
      assert NodeOK(s.heap, p, s.heap[p].chain, k);
    }
  }

  lemma PublishedSpoilsNothing(s: State, t: State, a: nat, p: nat)
    requires Inv(s) && Published(s)
    ensures !Spoils(s, t, a, p)
  {
    if a in s.acts && s.acts[a].frame.Add? { AddedWaits(s, a); }
    if TakesAway(s, t, a, p) {
      BehindHasLink(s, p, s.acts[a].frame.fut);
    }
  }

  /** Careful callers spoil no list. */
  lemma StrictNeverSpoils(run: seq<State>, i: nat, p: nat)
    requires Run(run, STRICT) && i < |run|
    ensures !Spoilt(run, i, p)
  {
    StrictIsClaimed(run);
    forall j | 0 <= j < i ensures !SpoilsAt(run, j, p) {
      RunInv(run, j);
      RunPublished(run, j);
      var s, t := run[j], run[j + 1];
      if a :| Spoils(s, t, a, p) { PublishedSpoilsNothing(s, t, a, p); }
    }
  }

  /** Step i begins a call on a future that nobody has published. */
  ghost predicate TouchesAt(run: seq<State>, i: nat, a: nat, host: Ptr, r: Request, f: nat)
    requires i + 1 < |run|
  {
    BeginUpdate(run[i], run[i + 1], a, host, r, f, false) && Untouched(run[i].heap[f].place)
  }

  /** So whoever spoils one was preceded by a call that began on a continuation before its publication. */
  lemma OnlyEarlyTouchesSpoil(run: seq<State>, i: nat, p: nat)
    requires Run(run, CLAIMED) && i < |run| && Spoilt(run, i, p)
    ensures exists j, a, host, r, f :: 0 <= j < |run| - 1 && TouchesAt(run, j, a, host, r, f)
  {
    if forall j, a, host, r, f :: 0 <= j < |run| - 1 ==> !TouchesAt(run, j, a, host, r, f) {
      forall j | 0 <= j < |run| - 1 ensures StepAt(run, j, STRICT) {
        assert StepAt(run, j, CLAIMED);
        PublishedStep(run, j);
      }
      StrictNeverSpoils(run, i, p);
    }
  }

  lemma PublishedStep(run: seq<State>, i: nat)
    requires i + 1 < |run| && Next(run[i], run[i + 1], CLAIMED)
    requires forall a, host, r, f :: !TouchesAt(run, i, a, host, r, f)
    ensures Next(run[i], run[i + 1], STRICT)
  {
    var s, t := run[i], run[i + 1];
    if a, host, r, f :| BeginUpdate(s, t, a, host, r, f, false) {
      assert !TouchesAt(run, i, a, host, r, f);
      assert BeginUpdate(s, t, a, host, r, f, true);
    }
  }

  // ---------- what such callers can rely on ----------

  /** No check on words, sentinels, links, parents or SetFailed can fire. What is left is up to the caller: adding twice
      to a unique future, StartAwaiting on a future that is not Invoking, Post() of one that is not Pending. */
  lemma NoInternalCrash(run: seq<State>, i: nat)
    requires Run(run, STRICT) && i < |run|
    ensures run[i].crash in {NoCrash, AddedTwice, AwaitedTooLate, PostedTooLate}
  {
    StrictIsClaimed(run);
    OnlySpoiltListsCrash(run, i);
    if run[i].crash == LinkOutsidePending {
      var a, p :| CrashedAt(run[i], a, p) && Spoilt(run, i, p);
      StrictNeverSpoils(run, i, p);
    }
  }

  /** Following the links from a pointer meets exactly these futures, then null. */
  ghost predicate Traces(heap: Heap, from: Ptr, chain: seq<nat>)
    decreases |chain|
  {
    if chain == [] then from == Null
    else from == Ref(chain[0]) && chain[0] in heap && Traces(heap, heap[chain[0]].link, chain[1..])
  }

  lemma {:induction false} ChainTraces(heap: Heap, f: nat, k: nat)
    requires f in heap && ChainOK(heap, f) && FrontWaits(heap, heap[f].chain) && k <= |heap[f].chain|
    ensures Traces(heap, Head(heap[f].chain[k..]), heap[f].chain[k..])
    decreases |heap[f].chain| - k
  {
    var chain := heap[f].chain;
    if k < |chain| {
      assert NodeOK(heap, f, chain, k);
      assert chain[k..][1..] == chain[k + 1..];
      ChainTraces(heap, f, k + 1);
    }
  }

  /** Before a future is done, the list its word points to is what it accepted, newest first, none of it handed
      over. Once it is done, what was handed over and what the walk still holds make up that same list, and the
      links still trace the rest. */
  lemma ListIsExact(run: seq<State>, i: nat, p: nat)
    requires Run(run, CLAIMED) && i < |run| && p in run[i].heap && !Spoilt(run, i, p)
    ensures var fut := run[i].heap[p];
            && Reverse(fut.listed) == fut.visited + fut.chain
            && (!IsDone(fut.word.state) ==>
                  fut.visited == [] && Traces(run[i].heap, fut.word.cont, Reverse(fut.listed)))
            && Traces(run[i].heap, Head(fut.chain), fut.chain)
  {
    RunInv(run, i);
    WholeUntilSpoilt(run, i, p);
    assert FutOK(run[i].heap, run[i].acts, p);
    ChainTraces(run[i].heap, p, 0);
    assert run[i].heap[p].chain[0..] == run[i].heap[p].chain;
    assert run[i].heap[p].visited == [] ==> [] + run[i].heap[p].chain == run[i].heap[p].chain;
  }

  /** A listed continuation can leave Pending before its turn only as the tail of the list, with a null link: the walk
      reads its successor from a link nobody has touched, so it is never cut short. */
  lemma OnlyTheTailLeavesEarly(run: seq<State>, i: nat, p: nat, k: nat)
    requires Run(run, CLAIMED) && i < |run| && p in run[i].heap && k < |run[i].heap[p].chain| && !Spoilt(run, i, p)
    ensures var c := run[i].heap[p].chain[k];
            && c in run[i].heap
            && run[i].heap[c].link ==
                 (if k + 1 < |run[i].heap[p].chain| then Ref(run[i].heap[p].chain[k + 1]) else Null)
            && (run[i].heap[c].word.state != Pending ==> k + 1 == |run[i].heap[p].chain| && run[i].heap[c].link == Null)
  {
    RunInv(run, i);
    WholeUntilSpoilt(run, i, p);
    assert FutOK(run[i].heap, run[i].acts, p);
    assert NodeOK(run[i].heap, p, run[i].heap[p].chain, k);
  }

  /** When every call has returned, each continuation a settled future accepted was handed over exactly once,
      those of its list in reverse order of addition. */
  lemma AllDelivered(run: seq<State>, i: nat, p: nat)
    requires Run(run, CLAIMED) && i < |run| && p in run[i].heap && IsDone(run[i].heap[p].word.state)
    requires !Spoilt(run, i, p) && forall a <- run[i].acts :: run[i].acts[a].frame == Ended
    ensures run[i].heap[p].visited == Reverse(run[i].heap[p].listed)
    ensures forall c :: c in run[i].heap[p].listed + run[i].heap[p].late ==>
              c in run[i].heap && run[i].heap[c].handed == 1
  {
    RunInv(run, i);
    var s := run[i];
    assert FutOK(s.heap, s.acts, p);
    DeliveredIffNotSpoilt(run, i, p);
    assert s.heap[p].chain == [] by { WholeUntilSpoilt(run, i, p); }
    forall c | c in s.heap[p].listed + s.heap[p].late ensures c in s.heap && s.heap[c].handed == 1 {
      ExactlyOnce(run, i, p, c);
      assert FutOK(s.heap, s.acts, c);
    }
  }
}
