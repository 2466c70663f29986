/** What m_link says once a continuation was handed over: the parent to take the value from.

    m_link is a plain field with three meanings. While a continuation is Pending it is the next one in its parent's
    list; TryPostInternal takes that away and writes the parent; settling drops it again, unless the value is to be read
    through it. LinksOK says that of every future, beside the invariant of the protocol: each future has at most one
    parent (OneParent), each walk is on behalf of the parent of its node (SourceOK), what was handed over links to its
    parent if there is something to take (LinkOK), and what was settled has dropped its link (DroppedOK).

    A step changes at most one link. Quiet says that it leaves what was right about one future right, and OneFutStep and
    FrameStep put together that all others did not notice; then there is one lemma for each kind of step. */
module FutureLinks {
  import opened FutureCore
  import opened FutureProtocol
  import opened FutureInvariant
  import opened FutureTheorems
  import opened FutureDelivery

  /** p accepted c. */
  predicate Parent(heap: Heap, c: nat, p: nat) {
    p in heap && (c in heap[p].listed || c in heap[p].late)
  }

  ghost predicate OneParent(heap: Heap, c: nat) {
    forall p, q :: Parent(heap, c, p) && Parent(heap, c, q) ==> p == q
  }

  /** The walk is on behalf of the parent of its node; Post() has none. */
  ghost predicate SourceOK(heap: Heap, frame: Frame) {
    match frame
    case Walk(src, isList, node, _, _, pc) =>
      node.Ref? && (pc != AtNode || !isList) ==>
        && (forall p :: Parent(heap, node.id, p) <==> p in heap && src == Ref(p))
        && (pc == SetLink ==> node.id in heap && heap[node.id].link == Null)
    case _ => true
  }

  /** The call that handed f over is still at its link. */
  predicate BeingLinked(heap: Heap, acts: Acts, f: nat) {
    && f in heap && heap[f].handler.Ref? && heap[f].handler.id in acts
    && WritingLink(acts[heap[f].handler.id].frame) && acts[heap[f].handler.id].frame.node == Ref(f)
  }

  /** Handed over, and not failed. */
  predicate TakesValue(fut: Fut) {
    fut.traits.useParentValue && fut.word.state in {Posting, Posted, Invoking, Awaiting, Succeeded}
  }

  /** The parent, if there is something to take from it, or the task is to be called whatever its outcome. */
  function LinkFor(heap: Heap, f: nat, p: nat): Ptr
    requires f in heap && p in heap
  {
    if heap[f].traits.callTaskInvokeOnError || heap[p].word.state == Succeeded then Ref(p) else Null
  }

  ghost predicate LinkOK(heap: Heap, acts: Acts, f: nat) {
    f in heap && TakesValue(heap[f]) && !BeingLinked(heap, acts, f) ==>
      forall p :: Parent(heap, f, p) ==> IsDone(heap[p].word.state) && heap[f].link == LinkFor(heap, f, p)
  }

  /** The call that settled f has still to drop its link. */
  predicate BeingCleaned(heap: Heap, acts: Acts, f: nat) {
    && f in heap && heap[f].walker.Ref? && heap[f].walker.id in acts
    && acts[heap[f].walker.id].frame.Cleanup? && acts[heap[f].walker.id].frame.done == f
  }

  /** A settled future keeps no reference to its parent, unless it is to read its value there. */
  ghost predicate DroppedOK(heap: Heap, acts: Acts, f: nat) {
    f in heap && IsDone(heap[f].word.state) && !BeingCleaned(heap, acts, f) && heap[f].link != Null ==>
      heap[f].word.state == Succeeded && heap[f].traits.useParentValue
  }

  ghost predicate LinksOK(s: State) {
    && (forall c {:trigger OneParent(s.heap, c)} :: OneParent(s.heap, c))
    && (forall a {:trigger s.acts[a]} :: a in s.acts ==> SourceOK(s.heap, s.acts[a].frame))
    && (forall f {:trigger LinkOK(s.heap, s.acts, f)} :: LinkOK(s.heap, s.acts, f))
    && (forall f {:trigger DroppedOK(s.heap, s.acts, f)} :: DroppedOK(s.heap, s.acts, f))
  }

  /** What has no parent yet. */
  lemma NoParent(s: State, c: nat, p: nat)
    requires Inv(s) && c in s.heap && (s.heap[c].place.Private? || s.heap[c].place.Adding? || s.heap[c].place.Public?)
    ensures !Parent(s.heap, c, p)
  {
    if p in s.heap {
      assert FutOK(s.heap, s.acts, p);
      var all := s.heap[p].listed + s.heap[p].late;
      forall k | 0 <= k < |all| ensures all[k] != c { assert EntryOK(s.heap, p, all, k); }
      assert c !in all;
    }
  }

  // ---------- steps that accept nothing ----------

  ghost predicate SameLogs(heap: Heap, now: Heap) {
    now.Keys == heap.Keys &&
    forall p {:trigger heap[p]} {:trigger now[p]} :: p in heap ==>
      && now[p].listed == heap[p].listed && now[p].late == heap[p].late
      && (IsDone(heap[p].word.state) ==> now[p].word.state == heap[p].word.state)
  }

  /** The step leaves the link of f where it stays, or it is right afterwards. */
  ghost predicate Drops(s: State, t: State, f: nat) {
    || DroppedOK(t.heap, t.acts, f)
    || (f in s.heap && f in t.heap && t.heap[f].traits == s.heap[f].traits
        && t.heap[f].word.state == s.heap[f].word.state && t.heap[f].link == s.heap[f].link
        && !BeingCleaned(s.heap, s.acts, f))
  }

  /** The step leaves the link of f, or f is not one to take a value, or the link is right afterwards. */
  ghost predicate Quiet(s: State, t: State, f: nat) {
    f in s.heap && f in t.heap && Drops(s, t, f) &&
    (TakesValue(t.heap[f]) && !BeingLinked(t.heap, t.acts, f) ==>
       || (t.heap[f].link == s.heap[f].link && t.heap[f].traits == s.heap[f].traits && TakesValue(s.heap[f])
           && !BeingLinked(s.heap, s.acts, f))
       || LinkOK(t.heap, t.acts, f))
  }

  /** The walk b keeps its source, and the null link it is about to fill. */
  ghost predicate KeepsNull(s: State, t: State, b: nat)
    requires b in s.acts
  {
    var u := s.acts[b].frame;
    u.Walk? && u.walkPc == SetLink && u.node.Ref? && u.node.id in s.heap && s.heap[u.node.id].link == Null ==>
      u.node.id in t.heap && t.heap[u.node.id].link == Null
  }

  lemma QuietStep(s: State, t: State, a: nat)
    requires LinksOK(s) && SameLogs(s.heap, t.heap) && a in t.acts && t.acts == s.acts[a := t.acts[a]]
    requires forall f {:trigger Quiet(s, t, f)} :: f in s.heap ==> Quiet(s, t, f)
    requires forall b {:trigger KeepsNull(s, t, b)} :: b in s.acts && b != a ==> KeepsNull(s, t, b)
    requires SourceOK(t.heap, t.acts[a].frame)
    ensures LinksOK(t)
  {
    forall c, p ensures Parent(t.heap, c, p) == Parent(s.heap, c, p) {}
    forall c ensures OneParent(t.heap, c) { assert OneParent(s.heap, c); }
    forall b | b in t.acts ensures SourceOK(t.heap, t.acts[b].frame) {
      if b != a { assert KeepsNull(s, t, b) && SourceOK(s.heap, s.acts[b].frame); }
    }
    forall f ensures LinkOK(t.heap, t.acts, f) {
      if f in t.heap { assert Quiet(s, t, f) && LinkOK(s.heap, s.acts, f); }
    }
    forall f ensures DroppedOK(t.heap, t.acts, f) {
      if f in t.heap { assert Quiet(s, t, f) && DroppedOK(s.heap, s.acts, f); }
    }
  }

  /** The call is not at a link, but perhaps at that of g. */
  predicate AwayFrom(s: State, a: nat, g: Ptr) {
    a in s.acts ==>
      && (WritingLink(s.acts[a].frame) ==> g != Null && s.acts[a].frame.node == g)
      && (s.acts[a].frame.Cleanup? ==> g == Ref(s.acts[a].frame.done))
  }

  lemma FrameStep(s: State, t: State, a: nat)
    requires LinksOK(s) && t.heap == s.heap && a in t.acts && t.acts == s.acts[a := t.acts[a]]
    requires AwayFrom(s, a, Null) && SourceOK(t.heap, t.acts[a].frame)
    ensures LinksOK(t)
  {
    forall f | f in s.heap ensures Quiet(s, t, f) {}
    forall b | b in s.acts && b != a ensures KeepsNull(s, t, b) {}
    QuietStep(s, t, a);
  }

  /** Nobody else is about to fill the link of g. */
  ghost predicate NobodyLinks(s: State, a: nat, g: nat) {
    forall b :: b in s.acts && b != a && s.acts[b].frame.Walk? && s.acts[b].frame.walkPc == SetLink ==>
                  s.acts[b].frame.node != Ref(g)
  }

  lemma OneFutStep(s: State, t: State, a: nat, g: nat)
    requires LinksOK(s) && g in s.heap && g in t.heap && t.heap == s.heap[g := t.heap[g]]
    requires t.heap[g].listed == s.heap[g].listed && t.heap[g].late == s.heap[g].late
    requires IsDone(s.heap[g].word.state) ==> t.heap[g].word.state == s.heap[g].word.state
    requires (s.heap[g].link == Null ==> t.heap[g].link == Null) || NobodyLinks(s, a, g)
    requires a in t.acts && t.acts == s.acts[a := t.acts[a]] && SourceOK(t.heap, t.acts[a].frame)
    requires AwayFrom(s, a, Ref(g)) && Quiet(s, t, g)
    ensures LinksOK(t)
  {
    forall f | f in s.heap ensures Quiet(s, t, f) {}
    forall b | b in s.acts && b != a ensures KeepsNull(s, t, b) {}
    QuietStep(s, t, a);
  }

  // ---------- one lemma a kind of step ----------

  lemma BeginPlaces(s: State, t: State, publishes: bool) returns (a: nat, g: nat)
    requires Begin(s, t, publishes)
    ensures a !in s.acts && a in t.acts && t.acts == s.acts[a := t.acts[a]]
    ensures g in s.heap && g in t.heap && t.heap == s.heap[g := s.heap[g].(place := t.heap[g].place)]
    ensures t.acts[a].frame.Walk? ==>
              && t.acts[a].frame.source == Null && t.acts[a].frame.node == Ref(g) && t.acts[a].frame.walkPc == AtNode
              && s.heap[g].place.Private?
  {
    if x, host, p, c :| BeginAdd(s, t, x, host, p, c) { a, g := x, c; }
    else if x, host, r, f :| BeginUpdate(s, t, x, host, r, f, publishes) { a, g := x, f; }
    else if x, host, f :| BeginPost(s, t, x, host, f) { a, g := x, f; }
    else { var x, f :| Publish(s, t, x, f); a, g := x, f; }
  }

  lemma BeginLinks(s: State, t: State)
    requires Inv(s) && LinksOK(s) && Begin(s, t, true)
    ensures LinksOK(t)
  {
    var a, g := BeginPlaces(s, t, true);
    if t.acts[a].frame.Walk? {
      forall p ensures Parent(t.heap, g, p) <==> p in t.heap && Null == Ref(p) {
        NoParent(s, g, p);
        assert Parent(t.heap, g, p) == Parent(s.heap, g, p);
      }
    }
    PlaceLinks(s, t, a, g);
  }

  lemma PlaceLinks(s: State, t: State, a: nat, g: nat)
    requires LinksOK(s) && a !in s.acts && a in t.acts && t.acts == s.acts[a := t.acts[a]]
    requires g in s.heap && g in t.heap && t.heap == s.heap[g := s.heap[g].(place := t.heap[g].place)]
    requires SourceOK(t.heap, t.acts[a].frame)
    ensures LinksOK(t)
  {
    assert Quiet(s, t, g);
    OneFutStep(s, t, a, g);
  }

  /** Loads, decisions and retries, and the rest of a walk, but for taking a node and its link. */
  ghost predicate OnlyLooks(s: State, t: State, a: nat) {
    || StepAddLoad(s, t, a) || StepAddRetry(s, t, a) || StepLoad(s, t, a) || StepCheck(s, t, a, true)
    || StepSwapRetry(s, t, a) || StepBodyEnds(s, t, a)
  }

  ghost predicate OnlyPosts(s: State, t: State, a: nat) {
    StepPostLoad(s, t, a) || StepPostCheck(s, t, a) || StepPostRetry(s, t, a)
  }

  ghost predicate OnlyReturns(s: State, t: State, a: nat) {
    StepCallbackEnds(s, t, a) || StepPosted(s, t, a)
  }

  lemma LookFrames(s: State, t: State, a: nat)
    requires OnlyLooks(s, t, a)
    ensures t.heap == s.heap && a in t.acts && t.acts == s.acts[a := t.acts[a]]
    ensures AwayFrom(s, a, Null) && SourceOK(t.heap, t.acts[a].frame)
  {
  }

  lemma PostFrames(s: State, t: State, a: nat)
    requires OnlyPosts(s, t, a) && ActOK(s.heap, s.acts, a) && SourceOK(s.heap, s.acts[a].frame)
    ensures t.heap == s.heap && a in t.acts && t.acts == s.acts[a := t.acts[a]]
    ensures AwayFrom(s, a, Null) && SourceOK(t.heap, t.acts[a].frame)
  {
  }

  lemma ReturnFrames(s: State, t: State, a: nat)
    requires OnlyReturns(s, t, a) && ActOK(s.heap, s.acts, a) && SourceOK(s.heap, s.acts[a].frame)
    ensures t.heap == s.heap && a in t.acts && t.acts == s.acts[a := t.acts[a]]
    ensures AwayFrom(s, a, Null) && SourceOK(t.heap, t.acts[a].frame)
  {
  }

  lemma AddLinkQuiet(s: State, t: State, a: nat)
    requires StepAddLink(s, t, a) && s.acts[a].frame.cont in s.heap
    requires s.heap[s.acts[a].frame.cont].word.state == Pending
    ensures var g := s.acts[a].frame.cont;
            && g in t.heap && t.heap == s.heap[g := t.heap[g]] && a in t.acts && t.acts == s.acts[a := t.acts[a]]
            && t.heap[g].listed == s.heap[g].listed && t.heap[g].late == s.heap[g].late
            && AwayFrom(s, a, Ref(g)) && Quiet(s, t, g) && SourceOK(t.heap, t.acts[a].frame)
  {
  }

  lemma AddLinkLinks(s: State, t: State, a: nat)
    requires Inv(s) && Published(s) && LinksOK(s) && StepAddLink(s, t, a)
    ensures LinksOK(t)
  {
    assert ActOK(s.heap, s.acts, a);
    var c := s.acts[a].frame.cont;
    assert Fresh(s.heap, c);
    AddLinkQuiet(s, t, a);
    assert NobodyLinks(s, a, c) by {
      forall b | b in s.acts && b != a ensures s.acts[b].frame.Walk? && s.acts[b].frame.walkPc == SetLink ==>
            s.acts[b].frame.node != Ref(c) { assert ActOK(s.heap, s.acts, b); }
    }
    OneFutStep(s, t, a, c);
  }

  /** The step changes the state of g, and where the call is. */
  ghost predicate StateOnly(s: State, t: State, a: nat, g: nat) {
    && g in s.heap && g in t.heap && t.heap == s.heap[g := t.heap[g]] && a in t.acts && t.acts == s.acts[a := t.acts[a]]
    && t.heap[g].listed == s.heap[g].listed && t.heap[g].late == s.heap[g].late && t.heap[g].link == s.heap[g].link
    && (IsDone(s.heap[g].word.state) ==> t.heap[g].word.state == s.heap[g].word.state)
    && AwayFrom(s, a, Ref(g)) && Quiet(s, t, g) && SourceOK(t.heap, t.acts[a].frame)
  }

  /** What takes its parent's value comes to succeed from its callback only. */
  /** The word that is swapped in, of a future that takes its parent's value. */
  lemma SwapTakesValue(s: State, t: State, a: nat)
    requires StepSwap(s, t, a) && ActOK(s.heap, s.acts, a) && WordOK(s.heap[s.acts[a].frame.fut])
    ensures TakesValue(t.heap[s.acts[a].frame.fut]) ==> TakesValue(s.heap[s.acts[a].frame.fut])
    ensures !IsDone(s.heap[s.acts[a].frame.fut].word.state)
  {
    var g := s.acts[a].frame.fut;
    EdgeClimbs(s.heap[g].traits, s.acts[a].frame.seen.state, s.acts[a].frame.next);
  }

  lemma SwapQuiet(s: State, t: State, a: nat)
    requires StepSwap(s, t, a) && !IsDone(s.heap[s.acts[a].frame.fut].word.state)
    requires TakesValue(t.heap[s.acts[a].frame.fut]) ==> TakesValue(s.heap[s.acts[a].frame.fut])
    ensures StateOnly(s, t, a, s.acts[a].frame.fut)
  {
    var g := s.acts[a].frame.fut;
    assert BeingLinked(s.heap, s.acts, g) ==> BeingLinked(t.heap, t.acts, g);
  }

  lemma SwapLinks(s: State, t: State, a: nat)
    requires Inv(s) && LinksOK(s) && StepSwap(s, t, a)
    ensures LinksOK(t)
  {
    assert ActOK(s.heap, s.acts, a);
    assert FutOK(s.heap, s.acts, s.acts[a].frame.fut);
    SwapTakesValue(s, t, a);
    SwapQuiet(s, t, a);
    OneFutStep(s, t, a, s.acts[a].frame.fut);
  }

  lemma CleanupLinks(s: State, t: State, a: nat)
    requires Inv(s) && LinksOK(s) && StepCleanup(s, t, a)
    ensures LinksOK(t)
  {
    assert ActOK(s.heap, s.acts, a);
    var g := s.acts[a].frame.done;
    assert Quiet(s, t, g);
    OneFutStep(s, t, a, g);
  }

  lemma NodeLinks(s: State, t: State, a: nat)
    requires Inv(s) && LinksOK(s) && StepNode(s, t, a)
    ensures LinksOK(t)
  {
    assert ActOK(s.heap, s.acts, a) && SourceOK(s.heap, s.acts[a].frame);
    var u := s.acts[a].frame;
    if u.node == Null {
      FrameStep(s, t, a);
    } else {
      var c := u.node.id;
      if u.isList {
        ListedIsAccepted(s, u.source.id);
        assert FutOK(s.heap, s.acts, u.source.id);
        assert NodeOK(s.heap, u.source.id, s.heap[u.source.id].chain, 0);
      }
      assert FutOK(s.heap, s.acts, c) && OneParent(s.heap, c);
      NodeSource(s, t, a);
      NodeLogs(s, t, a);
      forall f | f in s.heap ensures Quiet(s, t, f) { NodeQuiet(s, t, a, f); }
      QuietStep(s, t, a);
    }
  }

  lemma NodeSource(s: State, t: State, a: nat)
    requires StepNode(s, t, a) && s.acts[a].frame.node.Ref? && OneParent(s.heap, s.acts[a].frame.node.id)
    requires ActOK(s.heap, s.acts, a) && SourceOK(s.heap, s.acts[a].frame)
    requires s.acts[a].frame.isList ==> Parent(s.heap, s.acts[a].frame.node.id, s.acts[a].frame.source.id)
    ensures SourceOK(t.heap, t.acts[a].frame)
  {
    var c := s.acts[a].frame.node.id;
    forall p ensures Parent(t.heap, c, p) == Parent(s.heap, c, p) {}
  }

  lemma NodeLogs(s: State, t: State, a: nat)
    requires StepNode(s, t, a) && s.acts[a].frame.node.Ref?
    ensures SameLogs(s.heap, t.heap) && a in t.acts && t.acts == s.acts[a := t.acts[a]]
    ensures forall b {:trigger KeepsNull(s, t, b)} :: b in s.acts && b != a ==> KeepsNull(s, t, b)
  {
  }

  lemma NodeQuiet(s: State, t: State, a: nat, f: nat)
    requires StepNode(s, t, a) && s.acts[a].frame.node.Ref? && s.heap[s.acts[a].frame.node.id].handler == Null
    requires f in s.heap && a in t.acts && t.acts == s.acts[a := t.acts[a]]
    ensures Quiet(s, t, f)
  {
  }

  lemma ListedIsAccepted(s: State, p: nat)
    requires Inv(s) && p in s.heap && s.heap[p].chain != []
    ensures Parent(s.heap, s.heap[p].chain[0], p)
  {
    assert FutOK(s.heap, s.acts, p);
    var fut := s.heap[p];
    assert Reverse(fut.listed)[|fut.visited|] == fut.chain[0];
    ReverseHas(fut.listed, |fut.visited|);
  }

  lemma {:induction false} ReverseHas(s: seq<nat>, k: nat)
    requires k < |s|
    ensures Reverse(s)[k] in s
  {
    if k > 0 { ReverseHas(s[..|s| - 1], k - 1); }
  }

  lemma PostSwapQuiet(s: State, t: State, a: nat)
    requires StepPostSwap(s, t, a) && ActOK(s.heap, s.acts, a) && SourceOK(s.heap, s.acts[a].frame)
    ensures StateOnly(s, t, a, s.acts[a].frame.node.id)
  {
    var g := s.acts[a].frame.node.id;
    forall p ensures Parent(t.heap, g, p) == Parent(s.heap, g, p) {}
  }

  lemma PostedSwapQuiet(s: State, t: State, a: nat)
    requires StepPostedSwap(s, t, a) && ActOK(s.heap, s.acts, a) && SourceOK(s.heap, s.acts[a].frame)
    ensures StateOnly(s, t, a, s.acts[a].frame.node.id)
  {
    var g := s.acts[a].frame.node.id;
    forall p ensures Parent(t.heap, g, p) == Parent(s.heap, g, p) {}
  }

  lemma PostSwapLinks(s: State, t: State, a: nat)
    requires Inv(s) && LinksOK(s) && (StepPostSwap(s, t, a) || StepPostedSwap(s, t, a))
    ensures LinksOK(t)
  {
    assert ActOK(s.heap, s.acts, a) && SourceOK(s.heap, s.acts[a].frame);
    if StepPostSwap(s, t, a) { PostSwapQuiet(s, t, a); } else { PostedSwapQuiet(s, t, a); }
    OneFutStep(s, t, a, s.acts[a].frame.node.id);
  }

  lemma TakeNextLinks(s: State, t: State, a: nat)
    requires Inv(s) && LinksOK(s) && StepTakeNext(s, t, a)
    ensures LinksOK(t)
  {
    assert ActOK(s.heap, s.acts, a) && SourceOK(s.heap, s.acts[a].frame);
    var g := s.acts[a].frame.node.id;
    forall p ensures Parent(t.heap, g, p) == Parent(s.heap, g, p) {}
    assert Quiet(s, t, g);
    OneFutStep(s, t, a, g);
  }

  lemma SetLinkQuiet(s: State, t: State, a: nat)
    requires StepSetLink(s, t, a) && ActOK(s.heap, s.acts, a) && SourceOK(s.heap, s.acts[a].frame)
    ensures var g := s.acts[a].frame.node.id;
            && g in t.heap && t.heap == s.heap[g := t.heap[g]] && a in t.acts && t.acts == s.acts[a := t.acts[a]]
            && t.heap[g].listed == s.heap[g].listed && t.heap[g].late == s.heap[g].late
            && t.heap[g].word == s.heap[g].word
            && AwayFrom(s, a, Ref(g)) && Quiet(s, t, g) && SourceOK(t.heap, t.acts[a].frame)
  {
    var g := s.acts[a].frame.node.id;
    forall p ensures Parent(t.heap, g, p) == Parent(s.heap, g, p) {}
    if t.crash == s.crash { assert LinkOK(t.heap, t.acts, g); }
  }

  lemma SetLinkLinks(s: State, t: State, a: nat)
    requires Inv(s) && LinksOK(s) && StepSetLink(s, t, a)
    ensures LinksOK(t)
  {
    assert ActOK(s.heap, s.acts, a) && SourceOK(s.heap, s.acts[a].frame);
    var g := s.acts[a].frame.node.id;
    SetLinkQuiet(s, t, a);
    assert NobodyLinks(s, a, g) by {
      forall b | b in s.acts && b != a ensures s.acts[b].frame.Walk? && s.acts[b].frame.walkPc == SetLink ==>
            s.acts[b].frame.node != Ref(g) { assert ActOK(s.heap, s.acts, b); }
    }
    OneFutStep(s, t, a, g);
  }

  // ---------- the step that accepts ----------

  /** c has a parent now, and no other future has another. */
  ghost predicate Accepts(s: State, t: State, c: nat, q: nat) {
    && (forall f, p :: Parent(t.heap, f, p) <==> Parent(s.heap, f, p) || (f == c && p == q))
    && (forall p :: !Parent(s.heap, c, p))
    && c in s.heap && c in t.heap && s.heap[c].word.state == Pending
    && s.heap.Keys == t.heap.Keys
    && forall f {:trigger s.heap[f]} {:trigger t.heap[f]} :: f in s.heap ==>
         && (f != c ==> t.heap[f].link == s.heap[f].link) && t.heap[f].traits == s.heap[f].traits
         && t.heap[f].word.state == s.heap[f].word.state && (f != c ==> t.heap[f].handler == s.heap[f].handler)
         && t.heap[f].walker == s.heap[f].walker
  }

  lemma AcceptStep(s: State, t: State, a: nat, c: nat, q: nat)
    requires LinksOK(s) && Accepts(s, t, c, q) && a in s.acts && a in t.acts && t.acts == s.acts[a := t.acts[a]]
    requires AwayFrom(s, a, Null) && SourceOK(t.heap, t.acts[a].frame)
    requires forall b :: b in s.acts && b != a && s.acts[b].frame.Walk? ==>
               s.acts[b].frame.node != Ref(c) || (s.acts[b].frame.isList && s.acts[b].frame.walkPc == AtNode)
    ensures LinksOK(t)
  {
    forall f ensures OneParent(t.heap, f) { assert OneParent(s.heap, f); }
    forall b | b in t.acts ensures SourceOK(t.heap, t.acts[b].frame) {
      if b != a { assert SourceOK(s.heap, s.acts[b].frame); }
    }
    forall f ensures LinkOK(t.heap, t.acts, f) { assert LinkOK(s.heap, s.acts, f); }
    forall f ensures DroppedOK(t.heap, t.acts, f) { assert DroppedOK(s.heap, s.acts, f); }
  }

  lemma AddSwapAccepts(s: State, t: State, a: nat)
    requires StepAddSwap(s, t, a) && t.crash == s.crash && ActOK(s.heap, s.acts, a)
    requires var c := s.acts[a].frame.cont;
             c in s.heap && s.heap[c].word.state == Pending && forall p :: !Parent(s.heap, c, p)
    ensures Accepts(s, t, s.acts[a].frame.cont, s.acts[a].frame.parent)
    ensures a in t.acts && t.acts == s.acts[a := t.acts[a]] && SourceOK(t.heap, t.acts[a].frame)
  {
    var Add(q, c, _, _) := s.acts[a].frame;
    forall f, p ensures Parent(t.heap, f, p) <==> Parent(s.heap, f, p) || (f == c && p == q) {}
  }

  lemma AddSwapLinks(s: State, t: State, a: nat)
    requires Inv(s) && Published(s) && LinksOK(s) && s.crash == NoCrash && StepAddSwap(s, t, a)
    ensures LinksOK(t)
  {
    assert ActOK(s.heap, s.acts, a);
    var c := s.acts[a].frame.cont;
    assert Fresh(s.heap, c);
    if t.crash == s.crash {
      forall p ensures !Parent(s.heap, c, p) { NoParent(s, c, p); }
      AddSwapAccepts(s, t, a);
      forall b | b in s.acts && b != a && s.acts[b].frame.Walk?
        ensures s.acts[b].frame.node != Ref(c) || (s.acts[b].frame.isList && s.acts[b].frame.walkPc == AtNode)
      {
        assert ActOK(s.heap, s.acts, b);
      }
      AcceptStep(s, t, a, c, s.acts[a].frame.parent);
    } else {
      FrameStep(s, t, a);
    }
  }

  lemma NextLinks(s: State, t: State)
    requires Inv(s) && Published(s) && LinksOK(s) && Next(s, t, STRICT)
    ensures LinksOK(t)
  {
    if Begin(s, t, true) {
      BeginLinks(s, t);
    } else {
      var a: nat :| Continue(s, t, a, true);
      ContinueLinks(s, t, a);
    }
  }

  lemma ContinueLinks(s: State, t: State, a: nat)
    requires Inv(s) && Published(s) && LinksOK(s) && s.crash == NoCrash && Continue(s, t, a, true)
    ensures LinksOK(t)
  {
    if StepAddSwap(s, t, a) { AddSwapLinks(s, t, a); }
    else if StepAddLink(s, t, a) { AddLinkLinks(s, t, a); }
    else if StepSwap(s, t, a) { SwapLinks(s, t, a); }
    else if StepCleanup(s, t, a) { CleanupLinks(s, t, a); }
    else if StepNode(s, t, a) { NodeLinks(s, t, a); }
    else if StepPostSwap(s, t, a) || StepPostedSwap(s, t, a) { PostSwapLinks(s, t, a); }
    else if StepTakeNext(s, t, a) { TakeNextLinks(s, t, a); }
    else if StepSetLink(s, t, a) { SetLinkLinks(s, t, a); }
    else {
      if WalkStep(s, t, a) {
        assert ActOK(s.heap, s.acts, a) && SourceOK(s.heap, s.acts[a].frame);
        if OnlyPosts(s, t, a) { PostFrames(s, t, a); } else { ReturnFrames(s, t, a); }
      } else {
        LookFrames(s, t, a);
      }
      FrameStep(s, t, a);
    }
  }

  lemma {:induction false} RunLinks(run: seq<State>, i: nat)
    requires Run(run, STRICT) && i < |run|
    ensures LinksOK(run[i])
  {
    if i > 0 {
      StrictIsClaimed(run);
      RunLinks(run, i - 1);
      RunInv(run, i - 1);
      RunPublished(run, i - 1);
      assert StepAt(run, i - 1, STRICT);
      NextLinks(run[i - 1], run[i]);
    }
  }

  /** With its settling call past that, a settled future has dropped its link, unless it succeeded with its parent's
      value. */
  lemma SettledDropsLink(run: seq<State>, i: nat, f: nat)
    requires Run(run, STRICT) && i < |run| && f in run[i].heap && IsDone(run[i].heap[f].word.state)
    requires !BeingCleaned(run[i].heap, run[i].acts, f) && run[i].heap[f].link != Null
    ensures run[i].heap[f].word.state == Succeeded && run[i].heap[f].traits.useParentValue
  {
    RunLinks(run, i);
    assert DroppedOK(run[i].heap, run[i].acts, f);
  }

  /** A future that took its parent's value can be read: its link is that parent, which succeeded. Only a future that
      succeeded although its parent failed has none, unless it is called on errors. */
  lemma ValueComesFromParent(run: seq<State>, i: nat, f: nat, p: nat)
    requires Run(run, STRICT) && i < |run| && f in run[i].heap && Parent(run[i].heap, f, p)
    requires run[i].heap[f].traits.useParentValue && run[i].heap[f].word.state == Succeeded
    ensures IsDone(run[i].heap[p].word.state) && run[i].heap[f].link == LinkFor(run[i].heap, f, p)
  {
    var s := run[i];
    StrictIsClaimed(run);
    RunInv(run, i);
    RunLinks(run, i);
    assert LinkOK(s.heap, s.acts, f);
    assert s.heap[f].handler.Ref? && s.heap[f].handler.id in s.acts ==>
             ActOK(s.heap, s.acts, s.heap[f].handler.id);
  }
}
