/** What becomes of the list of a future: it is handed over to its end unless a continuation in it left Pending while
    others were behind it, and what such a step is. */
module FutureLists {
  import opened FutureCore
  import opened FutureProtocol
  import opened FutureInvariant
  import opened FutureTheorems

  // ---------- whole lists ----------

  ghost predicate Waits(heap: Heap, c: nat) {
    c in heap && heap[c].word.state == Pending
  }

  /** Every entry that others are behind is still Pending, so its link is intact. */
  ghost predicate FrontWaits(heap: Heap, chain: seq<nat>) {
    forall k {:trigger chain[k]} :: 0 <= k < |chain| - 1 ==> Waits(heap, chain[k])
  }

  /** The walk of the list of p has not reached its node's word yet. */
  ghost predicate HandsOver(s: State, p: nat, c: nat) {
    && p in s.heap && s.heap[p].walker.Ref? && s.heap[p].walker.id in s.acts
    && match s.acts[s.heap[p].walker.id].frame {
         case Walk(src, isList, node, _, _, pc) =>
           isList && src == Ref(p) && node == Ref(c) && pc in {PostLoad, PostCheck, PostSwap}
         case _ => false }
  }

  /** The call that settled p is still going to take the next of its list. */
  ghost predicate OnTrack(s: State, p: nat) {
    && p in s.heap && s.heap[p].walker.Ref? && s.heap[p].walker.id in s.acts
    && GoesOn(s.heap, s.acts[s.heap[p].walker.id].frame, p)
  }

  ghost predicate GoesOn(heap: Heap, frame: Frame, p: nat) {
    match frame
    case Cleanup(g, _, _) => g == p
    case Walk(src, isList, node, _, _, pc) =>
      && isList && src == Ref(p) && (pc == AtNode ==> node != Null)
      && (pc in {PostLoad, PostCheck, PostSwap} ==> node.Ref? && Waits(heap, node.id))
    case _ => false
  }

  ghost predicate Whole(s: State, p: nat) {
    && p in s.heap && FrontWaits(s.heap, s.heap[p].chain)
    && (IsDone(s.heap[p].word.state) && s.heap[p].chain != [] ==> OnTrack(s, p))
  }

  // ---------- the steps that spoil a list ----------

  /** Others are behind c in the list of p. */
  ghost predicate HasBehind(s: State, p: nat, c: nat) {
    && p in s.heap && s.heap[p].chain != []
    && ((c in s.heap[p].chain && c != s.heap[p].chain[|s.heap[p].chain| - 1]) || HandsOver(s, p, c))
  }

  /** AddContinuation publishes a continuation that is no longer Pending in front of others. */
  ghost predicate PublishesLate(s: State, t: State, a: nat, p: nat) {
    && StepAddSwap(s, t, a) && s.acts[a].frame.parent == p && !IsDone(s.heap[p].word.state)
    && s.heap[p].chain != [] && s.heap[s.acts[a].frame.cont].word.state != Pending
  }

  /** TryStartSetError takes a continuation that others are behind out of Pending. */
  ghost predicate TakesAway(s: State, t: State, a: nat, p: nat) {
    && StepSwap(s, t, a) && s.acts[a].frame.req == StartSetError && s.acts[a].frame.seen.state == Pending
    && HasBehind(s, p, s.acts[a].frame.fut)
  }

  ghost predicate Spoils(s: State, t: State, a: nat, p: nat) {
    PublishesLate(s, t, a, p) || TakesAway(s, t, a, p)
  }

  // ---------- lists under a step ----------

  lemma FrontStays(heap: Heap, now: Heap, chain: seq<nat>)
    requires forall k :: 0 <= k < |chain| - 1 ==> (Waits(heap, chain[k]) <==> Waits(now, chain[k]))
    ensures FrontWaits(heap, chain) <==> FrontWaits(now, chain)
  {
  }

  lemma FrontPush(heap: Heap, c: nat, chain: seq<nat>)
    ensures FrontWaits(heap, [c] + chain) <==> FrontWaits(heap, chain) && (chain != [] ==> Waits(heap, c))
  {
    var longer := [c] + chain;
    if FrontWaits(heap, longer) {
      forall k | 0 <= k < |chain| - 1 ensures Waits(heap, chain[k]) { assert longer[k + 1] == chain[k]; }
      if chain != [] { assert longer[0] == c; }
    }
  }

  /** c waits after the step if it waited before. */
  ghost predicate SameState(heap: Heap, now: Heap, c: nat) {
    Waits(heap, c) <==> Waits(now, c)
  }

  /** What matters to the list of p in a step of a: who waits in front, and who walks it. */
  lemma WholeIff(s: State, t: State, a: nat, p: nat)
    requires p in s.heap && p in t.heap && a in t.acts && t.acts == s.acts[a := t.acts[a]]
    requires t.heap[p].chain == s.heap[p].chain && t.heap[p].walker == s.heap[p].walker
    requires IsDone(t.heap[p].word.state) <==> IsDone(s.heap[p].word.state)
    requires forall k :: 0 <= k < |s.heap[p].chain| - 1 ==> SameState(s.heap, t.heap, s.heap[p].chain[k])
    requires s.heap[p].chain != [] && s.heap[p].walker == Ref(a) ==>
        (a in s.acts && GoesOn(s.heap, s.acts[a].frame, p) <==> GoesOn(t.heap, t.acts[a].frame, p))
    requires forall c :: HandsOver(s, p, c) && s.heap[p].chain != [] && s.heap[p].walker != Ref(a) ==>
        SameState(s.heap, t.heap, c)
    ensures Whole(s, p) <==> Whole(t, p)
  {
    FrontStays(s.heap, t.heap, s.heap[p].chain);
    if s.heap[p].walker.Ref? && s.heap[p].walker.id in s.acts && s.heap[p].chain != [] && s.heap[p].walker != Ref(a) {
      var frame := s.acts[s.heap[p].walker.id].frame;
      if frame.Walk? && frame.node.Ref? {
        assert HandsOver(s, p, frame.node.id) ==> SameState(s.heap, t.heap, frame.node.id);
      }
    }
  }

  /** And if the step changed no state at all. */
  lemma SameWhole(s: State, t: State, a: nat, p: nat)
    requires p in s.heap && p in t.heap && a in t.acts && t.acts == s.acts[a := t.acts[a]]
    requires t.heap[p].chain == s.heap[p].chain && t.heap[p].walker == s.heap[p].walker
    requires IsDone(t.heap[p].word.state) <==> IsDone(s.heap[p].word.state)
    requires forall c {:trigger SameState(s.heap, t.heap, c)} :: SameState(s.heap, t.heap, c)
    requires s.heap[p].chain != [] && s.heap[p].walker == Ref(a) ==>
        (a in s.acts && GoesOn(s.heap, s.acts[a].frame, p) <==> GoesOn(s.heap, t.acts[a].frame, p))
    ensures Whole(s, p) <==> Whole(t, p)
  {
    if t.acts[a].frame.Walk? && t.acts[a].frame.node.Ref? {
      assert SameState(s.heap, t.heap, t.acts[a].frame.node.id);
    }
    WholeIff(s, t, a, p);
  }

  lemma BeginShape(s: State, t: State) returns (a: nat)
    requires Begin(s, t, false)
    ensures a !in s.acts && a in t.acts && t.acts == s.acts[a := t.acts[a]] && t.heap.Keys == s.heap.Keys
    ensures !t.acts[a].frame.Cleanup? && (t.acts[a].frame.Walk? ==> !t.acts[a].frame.isList)
    ensures forall f <- s.heap ::
              && t.heap[f].word == s.heap[f].word && t.heap[f].chain == s.heap[f].chain
              && t.heap[f].walker == s.heap[f].walker
  {
    if b, host, p, c :| BeginAdd(s, t, b, host, p, c) { a := b; }
    else if b, host, r, f :| BeginUpdate(s, t, b, host, r, f, false) { a := b; }
    else if b, host, f :| BeginPost(s, t, b, host, f) { a := b; }
    else { var b: nat, f :| Publish(s, t, b, f); a := b; }
  }

  lemma BeginWhole(s: State, t: State, p: nat)
    requires Begin(s, t, false) && p in s.heap
    ensures Whole(s, p) <==> Whole(t, p)
  {
    var a := BeginShape(s, t);
    forall c ensures SameState(s.heap, t.heap, c) {}
    SameWhole(s, t, a, p);
  }

  /** Steps that change no word, no list and no settled future. */
  ghost predicate LightAdd(s: State, t: State, a: nat) {
    StepAddLoad(s, t, a) || StepAddLink(s, t, a) || StepAddRetry(s, t, a)
  }

  ghost predicate LightWord(s: State, t: State, a: nat) {
    StepLoad(s, t, a) || StepCheck(s, t, a, true) || StepSwapRetry(s, t, a) || StepBodyEnds(s, t, a)
  }

  lemma LightAddWhole(s: State, t: State, a: nat, p: nat)
    requires LightAdd(s, t, a) && p in s.heap
    ensures Whole(s, p) <==> Whole(t, p)
  {
    forall c ensures SameState(s.heap, t.heap, c) {}
    SameWhole(s, t, a, p);
  }

  lemma LightWordWhole(s: State, t: State, a: nat, p: nat)
    requires LightWord(s, t, a) && p in s.heap
    ensures Whole(s, p) <==> Whole(t, p)
  {
    forall c ensures SameState(s.heap, t.heap, c) {}
    SameWhole(s, t, a, p);
  }

  /** The walk looks at the word of its node. */
  ghost predicate LooksAtNode(s: State, t: State, a: nat) {
    StepPostLoad(s, t, a) || StepPostRetry(s, t, a) || StepPostCheck(s, t, a)
  }

  lemma LooksAtNodeWhole(s: State, t: State, a: nat, p: nat)
    requires LooksAtNode(s, t, a) && a in s.acts && ActOK(s.heap, s.acts, a) && p in s.heap
    ensures Whole(s, p) <==> Whole(t, p)
  {
    forall c ensures SameState(s.heap, t.heap, c) {}
    SameWhole(s, t, a, p);
  }

  /** The rest of a round, once the word of the node is Posting. */
  ghost predicate GoesAround(s: State, t: State, a: nat) {
    StepTakeNext(s, t, a) || StepSetLink(s, t, a) || StepCallbackEnds(s, t, a) || StepPosted(s, t, a)
  }

  /** It keeps to its list, and comes back to a node that is the rest of the list. */
  lemma GoesAroundOnTrack(s: State, t: State, a: nat, p: nat)
    requires GoesAround(s, t, a) && a in s.acts && ActOK(s.heap, s.acts, a) && p in s.heap && s.heap[p].chain != []
    ensures a in t.acts && t.acts == s.acts[a := t.acts[a]]
    ensures GoesOn(s.heap, s.acts[a].frame, p) <==> GoesOn(s.heap, t.acts[a].frame, p)
  {
  }

  lemma GoesAroundWhole(s: State, t: State, a: nat, p: nat)
    requires GoesAround(s, t, a) && a in s.acts && ActOK(s.heap, s.acts, a) && p in s.heap
    ensures Whole(s, p) <==> Whole(t, p)
  {
    forall c ensures SameState(s.heap, t.heap, c) {}
    if s.heap[p].chain != [] { GoesAroundOnTrack(s, t, a, p); }
    SameWhole(s, t, a, p);
  }

  // ---------- the steps that do change lists ----------

  /** A late addition changes no list, and one in time puts an entry in front. */
  lemma AddSwapWhole(s: State, t: State, a: nat, p: nat)
    requires Inv(s) && StepAddSwap(s, t, a) && s.crash == NoCrash && p in s.heap
    ensures Whole(t, p) <==> Whole(s, p) && !PublishesLate(s, t, a, p)
  {
    assert ActOK(s.heap, s.acts, a);
    var Add(q, c, seen, _) := s.acts[a].frame;
    forall f ensures SameState(s.heap, t.heap, f) {}
    if q != p || IsDone(seen.state) {
      SameWhole(s, t, a, p);
    } else {
      forall k | 0 <= k < |s.heap[p].chain| - 1
        ensures Waits(s.heap, s.heap[p].chain[k]) <==> Waits(t.heap, s.heap[p].chain[k])
      {
        assert SameState(s.heap, t.heap, s.heap[p].chain[k]);
      }
      FrontStays(s.heap, t.heap, s.heap[p].chain);
      FrontPush(t.heap, c, s.heap[p].chain);
    }
  }

  /** A future in a list can be posted, and is there once. */
  lemma ListedTraits(s: State, p: nat, k: nat)
    requires Inv(s) && p in s.heap && k < |s.heap[p].chain|
    ensures var c := s.heap[p].chain[k];
            c in s.heap && c != p && s.heap[c].place == Listed(p) && ContTraits(s.heap[c].traits)
    ensures k < |s.heap[p].chain| - 1 ==> s.heap[p].chain[k] != s.heap[p].chain[|s.heap[p].chain| - 1]
  {
    assert FutOK(s.heap, s.acts, p);
    assert NodeOK(s.heap, p, s.heap[p].chain, k);
    assert FutOK(s.heap, s.acts, s.heap[p].chain[k]);
  }

  lemma HandedTraits(s: State, p: nat, c: nat)
    requires Inv(s) && HandsOver(s, p, c) && s.heap[p].chain != []
    ensures c in s.heap && ContTraits(s.heap[c].traits) && IsDone(s.heap[p].word.state)
    ensures s.heap[c].place == Handed
  {
    assert ActOK(s.heap, s.acts, s.heap[p].walker.id);
  }

  /** The swap that settles p, or moves it on. */
  lemma OwnSwapWhole(s: State, t: State, a: nat, p: nat)
    requires Inv(s) && StepSwap(s, t, a) && p in s.heap && s.acts[a].frame.fut == p
    ensures (Whole(t, p) <==> Whole(s, p)) && !TakesAway(s, t, a, p)
  {
    assert ActOK(s.heap, s.acts, a);
    forall k | 0 <= k < |s.heap[p].chain| - 1
      ensures Waits(s.heap, s.heap[p].chain[k]) <==> Waits(t.heap, s.heap[p].chain[k])
    {
      ListedTraits(s, p, k);
    }
    FrontStays(s.heap, t.heap, s.heap[p].chain);
    if HasBehind(s, p, p) {
      if HandsOver(s, p, p) {
        HandedTraits(s, p, p);
      } else {
        var k :| 0 <= k < |s.heap[p].chain| && s.heap[p].chain[k] == p;
        ListedTraits(s, p, k);
      }
    }
  }

  /** A future with others behind it leaves Pending by this swap only if the swap takes it away. */
  lemma BehindWaits(s: State, t: State, a: nat, p: nat)
    requires Inv(s) && StepSwap(s, t, a) && HasBehind(s, p, s.acts[a].frame.fut) && !TakesAway(s, t, a, p)
    ensures !Waits(s.heap, s.acts[a].frame.fut)
  {
    assert ActOK(s.heap, s.acts, a);
    var c := s.acts[a].frame.fut;
    if HandsOver(s, p, c) {
      HandedTraits(s, p, c);
    } else {
      var k :| 0 <= k < |s.heap[p].chain| && s.heap[p].chain[k] == c;
      ListedTraits(s, p, k);
    }
  }

  lemma SwapKeepsFront(s: State, t: State, a: nat, p: nat, k: nat)
    requires Inv(s) && StepSwap(s, t, a) && p in s.heap && !TakesAway(s, t, a, p) && k + 1 < |s.heap[p].chain|
    ensures SameState(s.heap, t.heap, s.heap[p].chain[k])
  {
    var f := s.acts[a].frame.fut;
    assert ActOK(s.heap, s.acts, a);
    ListedTraits(s, p, k);
    if s.heap[p].chain[k] == f {
      BehindWaits(s, t, a, p);
      EdgeClimbs(s.heap[f].traits, s.acts[a].frame.seen.state, s.acts[a].frame.next);
    }
  }

  lemma SwapKeepsWhole(s: State, t: State, a: nat, p: nat)
    requires Inv(s) && StepSwap(s, t, a) && p in s.heap && s.acts[a].frame.fut != p && !TakesAway(s, t, a, p)
    ensures Whole(t, p) <==> Whole(s, p)
  {
    var f := s.acts[a].frame.fut;
    assert ActOK(s.heap, s.acts, a);
    if HasBehind(s, p, f) { BehindWaits(s, t, a, p); }
    EdgeClimbs(s.heap[f].traits, s.acts[a].frame.seen.state, s.acts[a].frame.next);
    forall k | 0 <= k < |s.heap[p].chain| - 1 ensures SameState(s.heap, t.heap, s.heap[p].chain[k]) {
      SwapKeepsFront(s, t, a, p, k);
    }
    WholeIff(s, t, a, p);
  }

  lemma TakenFromList(s: State, t: State, a: nat, p: nat, k: nat)
    requires Inv(s) && StepSwap(s, t, a) && s.acts[a].frame.req == StartSetError
    requires p in s.heap && 0 <= k < |s.heap[p].chain| - 1 && s.heap[p].chain[k] == s.acts[a].frame.fut
    ensures !Whole(t, p)
  {
    assert ActOK(s.heap, s.acts, a);
    ListedTraits(s, p, k);
    assert t.heap[p].chain[k] == s.acts[a].frame.fut && !Waits(t.heap, t.heap[p].chain[k]);
  }

  lemma TakenFromWalk(s: State, t: State, a: nat, p: nat)
    requires Inv(s) && StepSwap(s, t, a) && s.acts[a].frame.req == StartSetError
    requires HandsOver(s, p, s.acts[a].frame.fut) && s.heap[p].chain != []
    ensures !Whole(t, p)
  {
    assert ActOK(s.heap, s.acts, a);
    HandedTraits(s, p, s.acts[a].frame.fut);
  }

  lemma TakenAway(s: State, t: State, a: nat, p: nat)
    requires Inv(s) && TakesAway(s, t, a, p)
    ensures !Whole(t, p)
  {
    var c := s.acts[a].frame.fut;
    if HandsOver(s, p, c) {
      TakenFromWalk(s, t, a, p);
    } else {
      var k :| 0 <= k < |s.heap[p].chain| && s.heap[p].chain[k] == c;
      TakenFromList(s, t, a, p, k);
    }
  }

  /** A swap that takes nothing away keeps a list whole, and none mends one. */
  lemma SwapWhole(s: State, t: State, a: nat, p: nat)
    requires Inv(s) && StepSwap(s, t, a) && p in s.heap
    ensures Whole(t, p) <==> Whole(s, p) && !TakesAway(s, t, a, p)
  {
    if s.acts[a].frame.fut == p {
      OwnSwapWhole(s, t, a, p);
    } else if TakesAway(s, t, a, p) {
      TakenAway(s, t, a, p);
    } else {
      SwapKeepsWhole(s, t, a, p);
    }
  }

  /** No two walks stand at the same node. */
  lemma OwnNode(s: State, a: nat, p: nat, c: nat)
    requires Inv(s) && a in s.acts && s.acts[a].frame.Walk? && s.acts[a].frame.walkPc in {PostSwap, PostedSwap}
    requires HandsOver(s, p, c) && s.heap[p].walker != Ref(a)
    ensures s.acts[a].frame.node != Ref(c)
  {
    assert ActOK(s.heap, s.acts, a) && ActOK(s.heap, s.acts, s.heap[p].walker.id);
  }

  /** The node of such a walk is in no list. */
  lemma NodeIsUnlisted(s: State, a: nat, p: nat, k: nat)
    requires Inv(s) && a in s.acts && s.acts[a].frame.Walk? && s.acts[a].frame.walkPc in {PostSwap, PostedSwap}
    requires p in s.heap && k < |s.heap[p].chain|
    ensures s.acts[a].frame.node != Ref(s.heap[p].chain[k])
  {
    assert ActOK(s.heap, s.acts, a);
    ListedTraits(s, p, k);
  }

  /** The walk's own swaps change the word of a future that is in no list. */
  lemma PostSwapWhole(s: State, t: State, a: nat, p: nat)
    requires Inv(s) && (StepPostSwap(s, t, a) || StepPostedSwap(s, t, a)) && p in s.heap
    ensures Whole(t, p) <==> Whole(s, p)
  {
    assert ActOK(s.heap, s.acts, a);
    if StepPostSwap(s, t, a) { PostKeepsWalk(s, t, a, p); } else { PostedKeepsWalk(s, t, a, p); }
    forall k | 0 <= k < |s.heap[p].chain| - 1 ensures SameState(s.heap, t.heap, s.heap[p].chain[k]) {
      NodeIsUnlisted(s, a, p, k);
    }
    forall c | HandsOver(s, p, c) && s.heap[p].walker != Ref(a) ensures SameState(s.heap, t.heap, c) {
      OwnNode(s, a, p, c);
    }
    WholeIff(s, t, a, p);
  }

  /** What such a swap leaves alone, and that the walk is still on its way. */
  ghost predicate KeepsWalk(s: State, t: State, a: nat, p: nat) {
    && a in s.acts && a in t.acts && t.acts == s.acts[a := t.acts[a]] && p in s.heap && p in t.heap
    && t.heap[p].chain == s.heap[p].chain && t.heap[p].walker == s.heap[p].walker
    && (IsDone(t.heap[p].word.state) <==> IsDone(s.heap[p].word.state))
    && (s.heap[p].chain != [] ==> (GoesOn(s.heap, s.acts[a].frame, p) <==> GoesOn(t.heap, t.acts[a].frame, p)))
    && s.acts[a].frame.Walk?
    && forall c {:trigger SameState(s.heap, t.heap, c)} ::
         s.acts[a].frame.node != Ref(c) ==> SameState(s.heap, t.heap, c)
  }

  lemma PostKeepsWalk(s: State, t: State, a: nat, p: nat)
    requires StepPostSwap(s, t, a) && p in s.heap && ActOK(s.heap, s.acts, a)
    ensures KeepsWalk(s, t, a, p)
  {
  }

  lemma PostedKeepsWalk(s: State, t: State, a: nat, p: nat)
    requires StepPostedSwap(s, t, a) && p in s.heap && ActOK(s.heap, s.acts, a)
    ensures KeepsWalk(s, t, a, p)
  {
  }

  /** The settling call goes on to its list. */
  lemma CleanupWhole(s: State, t: State, a: nat, p: nat)
    requires Inv(s) && StepCleanup(s, t, a) && p in s.heap
    ensures Whole(t, p) <==> Whole(s, p)
  {
    assert ActOK(s.heap, s.acts, a);
    assert FutOK(s.heap, s.acts, p);
    forall c ensures SameState(s.heap, t.heap, c) {}
    SameWhole(s, t, a, p);
  }

  /** The walk takes the next node of its list, or ends. */
  lemma NodeWhole(s: State, t: State, a: nat, p: nat)
    requires Inv(s) && StepNode(s, t, a) && p in s.heap
    ensures Whole(t, p) <==> Whole(s, p)
  {
    assert ActOK(s.heap, s.acts, a);
    forall c ensures SameState(s.heap, t.heap, c) {}
    var Walk(src, isList, node, _, _, _) := s.acts[a].frame;
    if isList && src == Ref(p) && node != Null {
      TakesNext(s, t, a, p);
    } else {
      SameWhole(s, t, a, p);
    }
  }

  lemma TakesNext(s: State, t: State, a: nat, p: nat)
    requires Inv(s) && StepNode(s, t, a) && p in s.heap && s.acts[a].frame.node != Null
    requires s.acts[a].frame.isList && s.acts[a].frame.source == Ref(p)
    ensures Whole(t, p) <==> Whole(s, p)
  {
    assert ActOK(s.heap, s.acts, a);
    var chain := s.heap[p].chain;
    var c := s.acts[a].frame.node.id;
    ListedTraits(s, p, 0);
    assert chain == [c] + chain[1..] && t.heap[p].chain == chain[1..];
    FrontPush(s.heap, c, chain[1..]);
    forall k | 0 <= k < |chain[1..]| - 1 ensures Waits(s.heap, chain[1..][k]) <==> Waits(t.heap, chain[1..][k]) {}
    FrontStays(s.heap, t.heap, chain[1..]);
  }

  lemma WalkWhole(s: State, t: State, a: nat, p: nat)
    requires Inv(s) && WalkStep(s, t, a) && p in s.heap
    ensures Whole(t, p) <==> Whole(s, p)
  {
    assert ActOK(s.heap, s.acts, a);
    if
    case StepNode(s, t, a) => NodeWhole(s, t, a, p);
    case LooksAtNode(s, t, a) => LooksAtNodeWhole(s, t, a, p);
    case StepPostSwap(s, t, a) => PostSwapWhole(s, t, a, p);
    case StepPostedSwap(s, t, a) => PostSwapWhole(s, t, a, p);
    case GoesAround(s, t, a) => GoesAroundWhole(s, t, a, p);
  }

  /** A list is whole after a step exactly when it was whole before and the step does not spoil it. */
  lemma ContinueWhole(s: State, t: State, a: nat, p: nat)
    requires Inv(s) && s.crash == NoCrash && Continue(s, t, a, true) && p in s.heap
    ensures Whole(t, p) <==> Whole(s, p) && !Spoils(s, t, a, p)
  {
    if StepAddSwap(s, t, a) {
      AddSwapWhole(s, t, a, p);
    } else if StepSwap(s, t, a) {
      SwapWhole(s, t, a, p);
    } else if LightAdd(s, t, a) {
      LightAddWhole(s, t, a, p);
    } else if LightWord(s, t, a) {
      LightWordWhole(s, t, a, p);
    } else if StepCleanup(s, t, a) {
      CleanupWhole(s, t, a, p);
    } else {
      WalkWhole(s, t, a, p);
    }
  }

  // ---------- a run ----------

  /** The step from s to t spoils the list of p. */
  ghost predicate Spoiling(s: State, t: State, p: nat) {
    exists a :: Spoils(s, t, a, p)
  }

  ghost predicate SpoilsAt(run: seq<State>, i: nat, p: nat)
    requires i + 1 < |run|
  {
    Spoiling(run[i], run[i + 1], p)
  }

  /** Some step before the state i spoilt the list of p. */
  ghost predicate Spoilt(run: seq<State>, i: nat, p: nat)
    requires i < |run|
  {
    exists j :: 0 <= j < i && SpoilsAt(run, j, p)
  }

  lemma NotSpoiltBy(s: State, t: State, a: nat, b: nat, p: nat)
    requires Inv(s) && s.crash == NoCrash && Continue(s, t, a, true) && p in s.heap && Spoils(s, t, b, p)
    ensures !Whole(t, p)
  {
    if PublishesLate(s, t, b, p) { AddSwapWhole(s, t, b, p); } else { SwapWhole(s, t, b, p); }
  }

  lemma NextWhole(s: State, t: State, p: nat)
    requires Inv(s) && Next(s, t, CLAIMED) && p in s.heap
    ensures Whole(t, p) <==> Whole(s, p) && !Spoiling(s, t, p)
  {
    if Begin(s, t, false) {
      BeginWhole(s, t, p);
      forall a ensures !Spoils(s, t, a, p) { NoSpoilBegins(s, t, a, p); }
    } else {
      var a: nat :| Continue(s, t, a, true);
      ContinueWhole(s, t, a, p);
      if b :| Spoils(s, t, b, p) { NotSpoiltBy(s, t, a, b, p); }
      assert Spoils(s, t, a, p) ==> Spoiling(s, t, p);
    }
  }

  lemma StepWhole(run: seq<State>, i: nat, p: nat)
    requires Run(run, CLAIMED) && i + 1 < |run| && p in run[i].heap
    ensures Whole(run[i + 1], p) <==> Whole(run[i], p) && !SpoilsAt(run, i, p)
  {
    RunInv(run, i);
    assert StepAt(run, i, CLAIMED);
    NextWhole(run[i], run[i + 1], p);
  }

  lemma NoSpoilBegins(s: State, t: State, a: nat, p: nat)
    requires Begin(s, t, false)
    ensures !Spoils(s, t, a, p)
  {
    var b: nat :| b !in s.acts && b in t.acts;
    assert StepSwap(s, t, a) || StepAddSwap(s, t, a) ==> t.acts.Keys == s.acts.Keys;
  }

  /** The list of p is whole exactly as long as no step spoils it. */
  lemma {:induction false} WholeUntilSpoilt(run: seq<State>, i: nat, p: nat)
    requires Run(run, CLAIMED) && i < |run| && p in run[i].heap
    ensures Whole(run[i], p) <==> !Spoilt(run, i, p)
  {
    if i > 0 {
      var last := i - 1;
      SameFutures(run, last, p);
      WholeUntilSpoilt(run, last, p);
      StepWhole(run, last, p);
    }
  }

  lemma SameFutures(run: seq<State>, i: nat, p: nat)
    requires Run(run, CLAIMED) && i + 1 < |run|
    ensures p in run[i].heap <==> p in run[i + 1].heap
  {
    assert StepAt(run, i, CLAIMED);
  }

  // ---------- what a spoilt list costs, and what a whole one is sure of ----------

  /** The call with this frame is walking the list of p, or about to. */
  predicate Walks(frame: Frame, p: nat) {
    match frame
    case Cleanup(g, _, _) => g == p
    case Walk(src, isList, _, _, _, _) => isList && src == Ref(p)
    case _ => false
  }

  /** The walk of the list of p failed fast at a node that was settled before its turn and still has its link. */
  ghost predicate CrashedAt(s: State, a: nat, p: nat) {
    && s.crash == LinkOutsidePending && p in s.heap && a in s.acts
    && match s.acts[a].frame {
         case Walk(src, isList, node, _, seen, PostCheck) =>
           && isList && src == Ref(p) && seen.state != Pending
           && node.Ref? && node.id in s.heap && s.heap[node.id].link != Null
         case _ => false }
  }

  ghost predicate WalkIsOver(s: State, p: nat) {
    && p in s.heap && IsDone(s.heap[p].word.state)
    && ((exists a :: CrashedAt(s, a, p)) || forall a <- s.acts :: !Walks(s.acts[a].frame, p))
  }

  lemma CrashedIsBroken(s: State, a: nat, p: nat)
    requires Inv(s) && CrashedAt(s, a, p)
    ensures !Whole(s, p)
  {
    assert ActOK(s.heap, s.acts, a);
  }

  /** Once spoilt, a list never comes to its end: whatever is done, something in it is never handed over. */
  lemma SpoiltIsNeverDelivered(run: seq<State>, i: nat, p: nat)
    requires Run(run, CLAIMED) && i < |run| && p in run[i].heap && Spoilt(run, i, p)
    ensures run[i].heap[p].chain != [] && run[i].heap[p].visited != Reverse(run[i].heap[p].listed)
  {
    WholeUntilSpoilt(run, i, p);
    RunInv(run, i);
    assert FutOK(run[i].heap, run[i].acts, p);
    assert |Reverse(run[i].heap[p].listed)| == |run[i].heap[p].visited| + |run[i].heap[p].chain|;
  }

  /** When the walk of the list of a settled future is over, by its end or by a crash, all that was listed has been
      handed over, newest first, if and only if no step of the run spoilt the list. */
  lemma DeliveredIffNotSpoilt(run: seq<State>, i: nat, p: nat)
    requires Run(run, CLAIMED) && i < |run| && WalkIsOver(run[i], p)
    ensures run[i].heap[p].visited == Reverse(run[i].heap[p].listed) <==> !Spoilt(run, i, p)
  {
    var s := run[i];
    RunInv(run, i);
    assert FutOK(s.heap, s.acts, p);
    WholeUntilSpoilt(run, i, p);
    if Spoilt(run, i, p) {
      SpoiltIsNeverDelivered(run, i, p);
    } else {
      if a :| CrashedAt(s, a, p) { CrashedIsBroken(s, a, p); }
      assert s.heap[p].chain == [];
      assert s.heap[p].visited + [] == s.heap[p].visited;
    }
  }

  lemma CrashIsAWalks(s: State, t: State)
    requires Inv(s) && Next(s, t, CLAIMED) && t.crash == LinkOutsidePending
    ensures exists a, p :: CrashedAt(t, a, p)
  {
    if !Begin(s, t, false) {
      var a: nat :| Continue(s, t, a, true);
      CrashOfWalk(s, t, a);
    }
  }

  lemma CrashOfWalk(s: State, t: State, a: nat)
    requires Inv(s) && s.crash == NoCrash && Continue(s, t, a, true) && t.crash == LinkOutsidePending
    ensures exists p :: CrashedAt(t, a, p)
  {
    assert ActOK(s.heap, s.acts, a);
    assert StepPostCheck(s, t, a);
    assert CrashedAt(t, a, s.acts[a].frame.source.id);
  }

  lemma CrashedIn(run: seq<State>, i: nat) returns (a: nat, p: nat)
    requires Run(run, CLAIMED) && i < |run| && run[i].crash == LinkOutsidePending
    ensures CrashedAt(run[i], a, p)
  {
    RunInv(run, i - 1);
    assert StepAt(run, i - 1, CLAIMED);
    CrashIsAWalks(run[i - 1], run[i]);
    a, p :| CrashedAt(run[i], a, p);
  }

  /** The one internal check that can fire is that of a walk over a spoilt list. */
  lemma OnlySpoiltListsCrash(run: seq<State>, i: nat)
    requires Run(run, CLAIMED) && i < |run|
    ensures run[i].crash in SURVIVORS
    ensures run[i].crash == LinkOutsidePending ==> exists a, p :: CrashedAt(run[i], a, p) && Spoilt(run, i, p)
  {
    RunInv(run, i);
    if run[i].crash == LinkOutsidePending {
      var a, p := CrashedIn(run, i);
      CrashedIsBroken(run[i], a, p);
      WholeUntilSpoilt(run, i, p);
    }
  }
}
