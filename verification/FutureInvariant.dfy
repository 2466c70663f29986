/** The inductive invariant of the future protocol, and its preservation by every step.

    About every future (FutOK): its word, its counters and its logs agree; the counted reference to it is where its
    place says; the links of its listed continuations trace its list, but where one of them left Pending early and
    lost its link; the call that claimed it is still at it; and what it accepted is listed, in the hands of one late
    adder, or handed over.

    About every call (ActOK): what it holds is its own, the word it loaded was the word once, and the decision it took
    from that word still stands whenever its swap can succeed.

    A step of one call changes its own frame and at most two futures. So each preservation proof has three parts: the
    futures it changed are well formed again, the change is one the other calls tolerate (Change), and the futures it
    left alone did not depend on it (Untaken). OtherAct, OtherFut and StepPreserves put the parts together. */
module FutureInvariant {
  import opened FutureCore
  import opened FutureProtocol

  type Heap = map<nat, Fut>
  type Acts = map<nat, Act>

  /** A sound view of the word: it can be old, but it was the word once. */
  predicate Seen(seen: Word, now: Word) {
    && Rank(seen.state) <= Rank(now.state)
    && (IsDone(seen.state) ==> seen.state == now.state)
    && (seen.cont == ContinuationInvoked ==> IsDone(seen.state))
  }

  /** A walk outside any list that is about to hand f over. */
  predicate WaitsFor(frame: Frame, f: nat) {
    match frame
    case Walk(_, isList, node, _, _, AtNode) => !isList && node == Ref(f)
    case _ => false
  }

  predicate Accepted(place: Place, parent: nat) {
    place == Listed(parent) || place.Walking? || place == Handed
  }

  /** Where an operation that passed its check leads. */
  predicate Target(r: Request, next: FutureState) {
    match r
    case StartSetValue => next == SettingResult
    case SetSuccess => next == Succeeded
    case StartSetError => next == SettingResult
    case FinishError => next == Failed
    case SetInvoking => next == Invoking
    case StartAwaiting => next == Awaiting
    case _ => false
  }

  /** The link leads where it should, or the future left Pending early and lost it. */
  predicate Linked(fut: Fut, next: Ptr) {
    fut.link == next || (fut.word.state != Pending && fut.link == Null)
  }

  predicate KeepsNode(was: Fut, now: Fut) {
    && now.place == was.place && Linked(now, was.link)
    && (was.word.state != Pending ==> now.word.state != Pending)
  }

  predicate WritingLink(frame: Frame) {
    frame.Walk? && (frame.walkPc == TakeNext || frame.walkPc == SetLink)
  }

  predicate KeepsEntry(was: Fut, now: Fut) {
    && now.traits == was.traits
    && (was.place.Listed? || was.place.Walking? || was.place == Handed ==>
          now.place == was.place || now.place == Handed)
  }

  function Reverse(s: seq<nat>): (r: seq<nat>)
    ensures |r| == |s|
  {
    if s == [] then [] else [s[|s| - 1]] + Reverse(s[..|s| - 1])
  }

  /** The word, the counters and the logs of one future agree. */
  ghost predicate WordOK(fut: Fut) {
    && ValidTraits(fut.traits)
    && (if IsDone(fut.word.state) then !fut.word.cont.Ref? else fut.word.cont == Head(fut.chain))
    && (fut.word.cont == Null <==> fut.listed + fut.late == [])
    && (if IsDone(fut.word.state) then fut.settled == 1 && fut.walker.Ref?
        else fut.settled == 0 && fut.walker == Null && fut.late == [] && fut.visited == [])
    && Reverse(fut.listed) == fut.visited + fut.chain
    && (if Rank(fut.word.state) < 3 then fut.entered == 0 else fut.entered <= 1)
    && (if fut.word.state == SettingResult then fut.setter.Ref? else fut.setter == Null)
    && fut.link != ContinuationInvoked
    && (fut.traits.isMultiPost ==> fut.word.state in {Pending, SettingResult, Succeeded, Failed})
  }

  /** The counted reference to the future is where its place says. */
  ghost predicate PlaceOK(heap: Heap, acts: Acts, f: nat)
    requires f in heap
  {
    var fut := heap[f];
    && (if fut.place == Handed then fut.handed == 1 && fut.handler.Ref? else fut.handed == 0 && fut.handler == Null)
    && (match fut.place
        case Private => fut.link == Null
        case Adding(a) => a in acts && acts[a].frame.Add? && acts[a].frame.cont == f
        case Listed(p) => p in heap && f in heap[p].chain && ContTraits(fut.traits)
        case Walking(a) =>
          && fut.link == Null && a in acts
          && WaitsFor(acts[a].frame, f)
        case Handed => fut.word.state == Pending && fut.link != Null ==> ContTraits(fut.traits)
        case Public => true)
  }

  ghost predicate NodeOK(heap: Heap, f: nat, chain: seq<nat>, k: nat)
    requires k < |chain|
  {
    && chain[k] in heap && chain[k] != f
    && heap[chain[k]].place == Listed(f)
    && Linked(heap[chain[k]], Head(chain[k + 1..]))
  }

  /** The links trace the list, but where a listed future was settled before its turn. */
  ghost predicate ChainOK(heap: Heap, f: nat)
    requires f in heap
  {
    var chain := heap[f].chain;
    && (forall k {:trigger NodeOK(heap, f, chain, k)} :: 0 <= k < |chain| ==> NodeOK(heap, f, chain, k))
    && (forall j, k :: 0 <= j < k < |chain| ==> chain[j] != chain[k])
  }

  ghost predicate OwnersOK(heap: Heap, acts: Acts, f: nat)
    requires f in heap
  {
    var fut := heap[f];
    fut.setter.Ref? ==>
      && fut.setter.id in acts
      && var u := acts[fut.setter.id].frame; u.Update? && u.fut == f && u.owner
  }

  /** Entry k of the log of f: an accepted continuation is in the list, held by a walk, or handed over; after the
      first one a non-shared future takes pass-through continuations only. */
  ghost predicate EntryOK(heap: Heap, f: nat, all: seq<nat>, k: nat)
    requires f in heap && k < |all|
  {
    && all[k] in heap && Accepted(heap[all[k]].place, f)
    && (k > 0 && !heap[f].traits.isShared ==> PassThrough(heap[all[k]].traits))
  }

  ghost predicate LogOK(heap: Heap, f: nat)
    requires f in heap
  {
    var all := heap[f].listed + heap[f].late;
    forall k {:trigger EntryOK(heap, f, all, k)} :: 0 <= k < |all| ==> EntryOK(heap, f, all, k)
  }

  ghost predicate FutOK(heap: Heap, acts: Acts, f: nat)
    requires f in heap
  {
    && WordOK(heap[f])
    && PlaceOK(heap, acts, f)
    && ChainOK(heap, f)
    && OwnersOK(heap, acts, f)
    && LogOK(heap, f)
  }

  ghost predicate AddOK(heap: Heap, a: nat, p: nat, c: nat, seen: Word, pc: AddPc) {
    && p in heap && c in heap && p != c
    && heap[c].place == Adding(a) && ContTraits(heap[c].traits)
    && (pc != AddLoad ==> Seen(seen, heap[p].word))
    && (pc == AddSwap ==>
          && Linked(heap[c], if IsDone(seen.state) then Null else seen.cont)
          && (seen.cont != Null ==> heap[p].traits.isShared || PassThrough(heap[c].traits)))
  }

  ghost predicate SyncIn(acts: Acts, a: nat, f: nat)
    requires a in acts
  {
    var host := acts[a].host;
    host.Ref? && host.id in acts && Current(acts[host.id].frame) == Ref(f)
  }

  ghost predicate UpdateOK(heap: Heap, acts: Acts, a: nat, r: Request, f: nat, owner: bool, seen: Word,
        next: FutureState, pc: UpdatePc)
    requires a in acts
  {
    && f in heap
    && r != SetPosted && r != StartPosting
    && (r == FinishError ==> owner)
    && (owner ==>
          && heap[f].setter == Ref(a) && heap[f].word.state == SettingResult
          && (if r == SetSuccess then heap[f].traits.valueSize > 0 else r == FinishError))
    && (pc != Load ==> Seen(seen, heap[f].word) && (owner ==> seen.state == SettingResult))
    && (pc == Swap ==>
          && Target(r, next) && Edge(heap[f].traits, seen.state, next)
          && (seen.state == Pending && r != StartSetError ==> !ContTraits(heap[f].traits))
          && (seen.state == Posting ==> SyncIn(acts, a, f))
          && (seen.state == Invoking ==> SyncIn(acts, a, f) || r == StartAwaiting)
          && (seen.state == SettingResult ==> owner)
          && (r == StartSetValue ==> heap[f].traits.valueSize > 0)
          && (r == SetInvoking ==> seen.state == Posting || seen.state == Posted))
  }

  ghost predicate WalkOK(heap: Heap, a: nat, src: Ptr, isList: bool, node: Ptr, cursor: Ptr, seen: Word, pc: WalkPc) {
    && src != ContinuationInvoked
    && (src.Ref? ==> src.id in heap && IsDone(heap[src.id].word.state))
    && (isList ==> src.Ref? && heap[src.id].walker == Ref(a))
    && var rest := if isList then heap[src.id].chain else [];
       if pc == AtNode then
         if isList then node == Head(rest) || node == Null
         else
           node != Null ==>
             node.Ref? && node.id in heap && heap[node.id].place == Walking(a) && !heap[node.id].traits.isMultiPost
       else
         && node.Ref? && node.id in heap
         && var fut := heap[node.id];
            && fut.handler == Ref(a) && fut.place == Handed && !fut.traits.isMultiPost
            && (pc in {PostLoad, PostCheck, PostSwap} ==> Linked(fut, Head(rest)))
            && (pc in {PostLoad, PostCheck, PostSwap} && rest != [] ==> ContTraits(fut.traits))
            && (pc == TakeNext ==> fut.link == Head(rest))
            && (pc == PostCheck ==> Seen(seen, fut.word))
            && (pc == PostSwap ==> seen.state == Pending)
            && (pc in {TakeNext, SetLink} ==> fut.word.state == Posting)
            && (pc in {SetLink, Callback, PostedLoad, PostedCheck, PostedSwap} ==> cursor == Head(rest))
            && (pc == PostedSwap ==> seen.state == Posting)
  }

  ghost predicate HostOK(acts: Acts, a: nat)
    requires a in acts
  {
    acts[a].frame != Ended && acts[a].host != Null ==>
      acts[a].host.Ref? && acts[a].host.id in acts && Current(acts[acts[a].host.id].frame) != Null
  }

  ghost predicate ActOK(heap: Heap, acts: Acts, a: nat)
    requires a in acts
  {
    && HostOK(acts, a)
    && match acts[a].frame {
         case Ended => true
         case Add(p, c, seen, pc) => AddOK(heap, a, p, c, seen, pc)
         case Update(r, f, owner, seen, next, pc) => UpdateOK(heap, acts, a, r, f, owner, seen, next, pc)
         case Cleanup(f, taken, sentinel) =>
           && f in heap && IsDone(heap[f].word.state) && heap[f].walker == Ref(a)
           && taken == Head(heap[f].chain) && !sentinel
         case Walk(src, isList, node, cursor, seen, pc) => WalkOK(heap, a, src, isList, node, cursor, seen, pc)
         case Body(f) => f in heap && Rank(heap[f].word.state) >= 3
       }
  }

  /** The checks that can still fire: two are the caller's alone, the third is Post()'s, and the last one that of a walk
      over a list in which a continuation was settled too early. */
  const SURVIVORS := {NoCrash, AddedTwice, AwaitedTooLate, PostedTooLate, LinkOutsidePending}

  ghost predicate Inv(s: State) {
    && (forall f {:trigger FutOK(s.heap, s.acts, f)} :: f in s.heap ==>
          FutOK(s.heap, s.acts, f))
    && (forall a {:trigger ActOK(s.heap, s.acts, a)} :: a in s.acts ==>
          ActOK(s.heap, s.acts, a))
    && s.crash in SURVIVORS
  }

  // ---------- what a step of activity a leaves to the others ----------

  /** How a step of a may change a future: what another activity owns stays as it was. */
  ghost predicate Change(heap: Heap, now: Heap, acts: Acts, a: nat, f: nat)
    requires f in heap && f in now
  {
    var x, y := heap[f], now[f];
    && y.traits == x.traits
    && Rank(x.word.state) <= Rank(y.word.state)
    && (IsDone(x.word.state) ==> y.word.state == x.word.state)
    && (x.place.Listed? || x.place.Walking? || x.place == Handed ==> y.place == x.place || y.place == Handed)
    && (x.place.Adding? && x.place.adder != a ==> y.place == x.place && Linked(y, x.link))
    && (x.place.Walking? && x.place.walk != a ==> y.place == x.place && y.link == x.link)
    && (x.place.Listed? ==>
          KeepsNode(x, y)
              || (x.place.parent in heap && x.place.parent in now && now[x.place.parent] != heap[x.place.parent]))
    && (x.handler.Ref? ==> y.handler == x.handler && y.place == x.place)
    && (x.handler.Ref? && x.handler.id != a ==>
          && (y.link == x.link || (IsDone(x.word.state) && y.link == Null))
          && (x.word.state == Posting && y.word.state != Posting ==>
                x.handler.id in acts && !WritingLink(acts[x.handler.id].frame)))
    && (x.setter.Ref? && x.setter.id != a ==> y.setter == x.setter && y.word.state == x.word.state)
    && (x.walker.Ref? && x.walker.id != a ==> y.walker == x.walker && y.chain == x.chain)
  }

  /** What a itself held it still holds. */
  ghost predicate Holds(fut: Fut, f: nat, a: nat, frame: Frame) {
    && (fut.place == Adding(a) ==> frame.Add? && frame.cont == f)
    && (fut.place == Walking(a) ==> WaitsFor(frame, f))
    && (fut.setter == Ref(a) ==> frame.Update? && frame.fut == f && frame.owner)
  }

  /** The activities after a step of a, or after a began. */
  ghost predicate Moved(acts: Acts, now: Acts, a: nat) {
    && a in now && now == acts[a := now[a]]
    && (a in acts ==>
          || Current(now[a].frame) == Current(acts[a].frame)
          || Current(acts[a].frame) == Null
          || forall b <- acts :: acts[b].host == Ref(a) ==> acts[b].frame == Ended)
  }

  lemma OtherAct(heap: Heap, acts: Acts, now: Heap, nowActs: Acts, a: nat, b: nat)
    requires now.Keys == heap.Keys && Moved(acts, nowActs, a)
    requires b in acts && b != a && ActOK(heap, acts, b)
    requires forall f {:trigger Change(heap, now, acts, a, f)} :: f in heap ==> Change(heap, now, acts, a, f)
    ensures ActOK(now, nowActs, b)
  {
    assert HostOK(nowActs, b);
    match acts[b].frame
    case Ended =>
    case Add(p, c, seen, pc) =>
      assert Change(heap, now, acts, a, p) && Change(heap, now, acts, a, c);
    case Update(r, f, owner, seen, next, pc) =>
      assert Change(heap, now, acts, a, f);
    case Cleanup(f, taken, sentinel) =>
      assert Change(heap, now, acts, a, f);
    case Walk(src, isList, node, cursor, seen, pc) =>
      if src.Ref? { assert Change(heap, now, acts, a, src.id); }
      if node.Ref? && node.id in heap { assert Change(heap, now, acts, a, node.id); }
    case Body(f) =>
      assert Change(heap, now, acts, a, f);
  }

  lemma OtherFut(heap: Heap, acts: Acts, now: Heap, nowActs: Acts, a: nat, g: nat)
    requires now.Keys == heap.Keys && Moved(acts, nowActs, a)
    requires g in heap && now[g] == heap[g] && FutOK(heap, acts, g)
    requires Holds(heap[g], g, a, nowActs[a].frame)
    requires heap[g].place.Listed? && heap[g].place.parent in heap ==> g in now[heap[g].place.parent].chain
    requires forall f {:trigger Change(heap, now, acts, a, f)} :: f in heap ==> Change(heap, now, acts, a, f)
    ensures FutOK(now, nowActs, g)
  {
    assert ChainOK(now, g) by {
      forall k | 0 <= k < |heap[g].chain| ensures NodeOK(now, g, now[g].chain, k) {
        assert NodeOK(heap, g, heap[g].chain, k);
        assert Change(heap, now, acts, a, heap[g].chain[k]);
      }
    }
    assert LogOK(now, g) by {
      var all := heap[g].listed + heap[g].late;
      forall k | 0 <= k < |all| ensures EntryOK(now, g, all, k) {
        assert EntryOK(heap, g, all, k);
        assert Change(heap, now, acts, a, all[k]);
      }
    }
    assert PlaceOK(now, nowActs, g);
    assert OwnersOK(now, nowActs, g);
  }

  /** A future that a step of a left alone. */
  ghost predicate Untaken(heap: Heap, now: Heap, nowActs: Acts, a: nat, f: nat)
    requires f in heap && a in nowActs
  {
    && Holds(heap[f], f, a, nowActs[a].frame)
    && (heap[f].place.Listed? && heap[f].place.parent in heap && heap[f].place.parent in now ==>
          f in now[heap[f].place.parent].chain)
  }

  /** What is to be shown of a step of a that changed at most futures f and g. */
  lemma StepPreserves(s: State, t: State, a: nat, f: nat, g: nat)
    requires Inv(s) && f in s.heap && g in s.heap
    requires t.heap.Keys == s.heap.Keys && forall h <- s.heap :: h != f && h != g ==> t.heap[h] == s.heap[h]
    requires Moved(s.acts, t.acts, a)
    requires t.crash in SURVIVORS
    requires Change(s.heap, t.heap, s.acts, a, f) && Change(s.heap, t.heap, s.acts, a, g)
    requires FutOK(t.heap, t.acts, f) && FutOK(t.heap, t.acts, g)
    requires forall h {:trigger Untaken(s.heap, t.heap, t.acts, a, h)} :: h in s.heap && h != f && h != g ==>
        Untaken(s.heap, t.heap, t.acts, a, h)
    requires ActOK(t.heap, t.acts, a)
    ensures Inv(t)
  {
    forall h <- s.heap ensures Change(s.heap, t.heap, s.acts, a, h) {
    }
    forall h <- t.heap ensures FutOK(t.heap, t.acts, h) {
      if h != f && h != g {
        assert FutOK(s.heap, s.acts, h) && Untaken(s.heap, t.heap, t.acts, a, h);
        OtherFut(s.heap, s.acts, t.heap, t.acts, a, h);
      }
    }
    forall b <- t.acts ensures ActOK(t.heap, t.acts, b) {
      if b != a {
        assert ActOK(s.heap, s.acts, b);
        OtherAct(s.heap, s.acts, t.heap, t.acts, a, b);
      }
    }
  }

  lemma KeepsLog(heap: Heap, now: Heap, g: nat)
    requires now.Keys == heap.Keys && g in heap && LogOK(heap, g)
    requires now[g].listed == heap[g].listed && now[g].late == heap[g].late
    requires forall f <- heap :: KeepsEntry(heap[f], now[f])
    ensures LogOK(now, g)
  {
    var all := heap[g].listed + heap[g].late;
    forall k | 0 <= k < |all| ensures EntryOK(now, g, all, k) {
      assert EntryOK(heap, g, all, k);
    }
  }

  /** p accepted c. */
  lemma GrowsLog(heap: Heap, now: Heap, p: nat, c: nat)
    requires now.Keys == heap.Keys && p in heap && c in heap && LogOK(heap, p)
    requires now[p].listed + now[p].late == heap[p].listed + heap[p].late + [c]
    requires Accepted(now[c].place, p)
    requires heap[p].listed + heap[p].late != [] ==> heap[p].traits.isShared || PassThrough(heap[c].traits)
    requires forall f <- heap :: KeepsEntry(heap[f], now[f])
    ensures LogOK(now, p)
  {
    var old', all := heap[p].listed + heap[p].late, now[p].listed + now[p].late;
    forall k | 0 <= k < |all| ensures EntryOK(now, p, all, k) {
      if k < |old'| {
        assert EntryOK(heap, p, old', k);
        assert all[k] == old'[k];
      }
    }
  }

  /** The chain of g survives a change that keeps its nodes. */
  lemma KeepsChain(heap: Heap, now: Heap, g: nat)
    requires now.Keys == heap.Keys && g in heap && ChainOK(heap, g) && now[g].chain == heap[g].chain
    requires forall f <- heap :: KeepsNode(heap[f], now[f]) || heap[f].place != Listed(g)
    ensures ChainOK(now, g)
  {
    forall k | 0 <= k < |heap[g].chain| ensures NodeOK(now, g, now[g].chain, k) {
      assert NodeOK(heap, g, heap[g].chain, k);
    }
  }

  lemma PreserveBeginAdd(s: State, t: State, a: nat, host: Ptr, p: nat, c: nat)
    requires Inv(s) && BeginAdd(s, t, a, host, p, c)
    ensures Inv(t)
  {
    assert FutOK(s.heap, s.acts, c);
    forall g <- s.heap | g != c ensures Untaken(s.heap, t.heap, t.acts, a, g) {
      assert FutOK(s.heap, s.acts, g);
    }
    assert ChainOK(t.heap, c) && LogOK(t.heap, c) by { KeepsChain(s.heap, t.heap, c); KeepsLog(s.heap, t.heap, c); }
    assert FutOK(t.heap, t.acts, c);
    assert Change(s.heap, t.heap, s.acts, a, c);
    assert ActOK(t.heap, t.acts, a);
    StepPreserves(s, t, a, c, c);
  }

  /** A step of a that changed no future. */
  lemma FramePreserves(s: State, t: State, a: nat)
    requires Inv(s) && t.heap == s.heap && Moved(s.acts, t.acts, a)
    requires t.crash in SURVIVORS
    requires forall h {:trigger Untaken(s.heap, t.heap, t.acts, a, h)} :: h in s.heap ==>
        Untaken(s.heap, t.heap, t.acts, a, h)
    requires ActOK(t.heap, t.acts, a)
    ensures Inv(t)
  {
    forall h <- t.heap ensures FutOK(t.heap, t.acts, h) {
      assert FutOK(s.heap, s.acts, h) && Untaken(s.heap, t.heap, t.acts, a, h);
      OtherFut(s.heap, s.acts, t.heap, t.acts, a, h);
    }
    forall b <- t.acts ensures ActOK(t.heap, t.acts, b) {
      if b != a {
        assert ActOK(s.heap, s.acts, b);
        OtherAct(s.heap, s.acts, t.heap, t.acts, a, b);
      }
    }
  }

  lemma PreserveBeginUpdate(s: State, t: State, a: nat, host: Ptr, r: Request, f: nat)
    requires Inv(s) && BeginUpdate(s, t, a, host, r, f, false)
    ensures Inv(t)
  {
    forall g <- s.heap ensures Untaken(s.heap, t.heap, t.acts, a, g) {
      assert FutOK(s.heap, s.acts, g);
    }
    FramePreserves(s, t, a);
  }

  /** A new activity took f, or let others at it. */
  lemma PreserveBeginPlace(s: State, t: State, a: nat, f: nat)
    requires Inv(s) && f in s.heap && a !in s.acts && a in t.acts && t.acts == s.acts[a := t.acts[a]]
    requires f in t.heap && t.heap == s.heap[f := t.heap[f]] && t.crash == s.crash
    requires t.heap[f].chain == s.heap[f].chain
    requires Change(s.heap, t.heap, s.acts, a, f) && FutOK(t.heap, t.acts, f) && ActOK(t.heap, t.acts, a)
    ensures Inv(t)
  {
    forall g <- s.heap | g != f ensures Untaken(s.heap, t.heap, t.acts, a, g) {
      assert FutOK(s.heap, s.acts, g);
    }
    StepPreserves(s, t, a, f, f);
  }

  lemma PlacedFut(s: State, t: State, a: nat, f: nat)
    requires f in s.heap && FutOK(s.heap, s.acts, f) && s.heap[f].place.Private? && a !in s.acts && a in t.acts
    requires t.acts == s.acts[a := t.acts[a]]
    requires f in t.heap && t.heap == s.heap[f := s.heap[f].(place := t.heap[f].place)]
    requires t.heap[f].place == Public || (t.heap[f].place == Walking(a) && WaitsFor(t.acts[a].frame, f))
    ensures FutOK(t.heap, t.acts, f)
  {
    assert ChainOK(t.heap, f) by { KeepsChain(s.heap, t.heap, f); }
    assert LogOK(t.heap, f) by { KeepsLog(s.heap, t.heap, f); }
    assert WordOK(t.heap[f]) && PlaceOK(t.heap, t.acts, f) && OwnersOK(t.heap, t.acts, f);
  }

  lemma PreserveBeginPost(s: State, t: State, a: nat, host: Ptr, f: nat)
    requires Inv(s) && BeginPost(s, t, a, host, f)
    ensures Inv(t)
  {
    assert FutOK(s.heap, s.acts, f);
    PlacedFut(s, t, a, f);
    PreserveBeginPlace(s, t, a, f);
  }

  lemma PreservePublish(s: State, t: State, a: nat, f: nat)
    requires Inv(s) && Publish(s, t, a, f)
    ensures Inv(t)
  {
    assert FutOK(s.heap, s.acts, f);
    PlacedFut(s, t, a, f);
    PreserveBeginPlace(s, t, a, f);
  }

  // ---------- steps on one future ----------

  /** The futures that activity a does not hold are none of its business. */
  lemma OthersUntaken(s: State, t: State, a: nat, f: nat, g: nat)
    requires Inv(s) && a in s.acts && a in t.acts && f in s.heap && g in s.heap
    requires match s.acts[a].frame {
               case Add(_, c, _, _) => c == f
               case Update(_, h, _, _, _, _) => h == f
               case Cleanup(h, _, _) => h == f
               case Walk(_, isList, node, _, _, _) => !isList && node == Ref(f)
               case _ => false }
    requires t.heap.Keys == s.heap.Keys
    requires forall h, x {:trigger h in s.heap[x].chain} :: x in s.heap && h in s.heap[x].chain ==> h in t.heap[x].chain
    ensures forall h {:trigger Untaken(s.heap, t.heap, t.acts, a, h)} ::
              h in s.heap && h != f && h != g ==> Untaken(s.heap, t.heap, t.acts, a, h)
  {
    forall h | h in s.heap && h != f && h != g ensures Untaken(s.heap, t.heap, t.acts, a, h) {
      assert FutOK(s.heap, s.acts, h);
    }
  }

  /** A step of an activity that holds at most f, and changed f alone. */
  lemma OneFutPreserves(s: State, t: State, a: nat, f: nat)
    requires Inv(s) && a in s.acts && Moved(s.acts, t.acts, a) && t.crash == NoCrash
    requires f in s.heap && f in t.heap && t.heap == s.heap[f := t.heap[f]] && t.heap[f].chain == s.heap[f].chain
    requires match s.acts[a].frame {
               case Add(_, c, _, _) => c == f
               case Update(_, h, _, _, _, _) => h == f
               case Cleanup(h, _, _) => h == f
               case Walk(_, isList, node, _, _, _) => !isList && node == Ref(f)
               case _ => false }
    requires Change(s.heap, t.heap, s.acts, a, f) && FutOK(t.heap, t.acts, f) && ActOK(t.heap, t.acts, a)
    ensures Inv(t)
  {
    OthersUntaken(s, t, a, f, f);
    StepPreserves(s, t, a, f, f);
  }

  // ---------- AddContinuation ----------

  /** A step that changes a's frame only, and keeps what the frame holds. */
  lemma OwnFrame(s: State, t: State, a: nat)
    requires Inv(s) && a in s.acts && a in t.acts && t == Go(s, a, t.acts[a].frame)
    requires Current(s.acts[a].frame) == Null || Current(t.acts[a].frame) == Current(s.acts[a].frame) || NoGuest(s, a)
    requires forall h <- s.heap :: Holds(s.heap[h], h, a, s.acts[a].frame) ==> Holds(s.heap[h], h, a, t.acts[a].frame)
    requires s.crash == NoCrash
    requires ActOK(s.heap, t.acts, a)
    ensures Inv(t)
  {
    forall h <- s.heap ensures Untaken(s.heap, t.heap, t.acts, a, h) {
      assert FutOK(s.heap, s.acts, h);
    }
    FramePreserves(s, t, a);
  }

  lemma AddLinkFut(s: State, t: State, a: nat)
    requires Inv(s) && s.crash == NoCrash && StepAddLink(s, t, a) && t.crash == NoCrash
    ensures FutOK(t.heap, t.acts, s.acts[a].frame.cont)
  {
    assert ActOK(s.heap, s.acts, a);
    var c := s.acts[a].frame.cont;
    assert FutOK(s.heap, s.acts, s.acts[a].frame.parent) && FutOK(s.heap, s.acts, c);
    assert ChainOK(t.heap, c) by { KeepsChain(s.heap, t.heap, c); }
    assert LogOK(t.heap, c) by { KeepsLog(s.heap, t.heap, c); }
  }

  lemma PreserveAddLink(s: State, t: State, a: nat)
    requires Inv(s) && s.crash == NoCrash && StepAddLink(s, t, a)
    ensures Inv(t)
  {
    if t.crash == NoCrash {
      AddLinkFut(s, t, a);
      assert ActOK(s.heap, s.acts, a);
      var c := s.acts[a].frame.cont;
      assert FutOK(s.heap, s.acts, s.acts[a].frame.parent) && FutOK(s.heap, s.acts, c);
      OneFutPreserves(s, t, a, c);
    }
  }

  lemma ReversePush(s: seq<nat>, c: nat)
    ensures Reverse(s + [c]) == [c] + Reverse(s)
  {
    assert (s + [c])[..|s|] == s;
  }

  /** The swap put c in front of the list of p. */
  lemma PushedChain(heap: Heap, now: Heap, p: nat, c: nat)
    requires now.Keys == heap.Keys && p in heap && c in heap && p != c && ChainOK(heap, p)
    requires now[p].chain == [c] + heap[p].chain
    requires now[c].place == Listed(p) && Linked(now[c], Head(heap[p].chain))
    requires heap[c].place != Listed(p)
    requires forall f <- heap :: KeepsNode(heap[f], now[f]) || heap[f].place != Listed(p)
    ensures ChainOK(now, p)
  {
    var old', chain := heap[p].chain, now[p].chain;
    forall k | 0 <= k < |chain| ensures NodeOK(now, p, chain, k) {
      if k == 0 {
        assert chain[1..] == old';
      } else {
        assert NodeOK(heap, p, old', k - 1);
        assert chain[k + 1..] == old'[k..];
      }
    }
    forall j, k | 0 <= j < k < |chain| ensures chain[j] != chain[k] {
      assert NodeOK(heap, p, old', k - 1);
      if j > 0 { assert old'[j - 1] != old'[k - 1]; }
    }
  }

  /** The word of p now heads its list with c. */
  lemma ListedParent(heap: Heap, now: Heap, acts: Acts, nowActs: Acts, a: nat, p: nat, c: nat)
    requires now.Keys == heap.Keys && p in heap && c in heap && p != c && !IsDone(heap[p].word.state)
    requires FutOK(heap, acts, p)
    requires now[p] == heap[p].(
                         word := Word(heap[p].word.state, Ref(c)), chain := [c] + heap[p].chain,
                         listed := heap[p].listed + [c])
    requires now[c] == heap[c].(place := Listed(p)) && now == heap[p := now[p]][c := now[c]]
    requires heap[c].place == Adding(a) && Linked(heap[c], heap[p].word.cont) && ContTraits(heap[c].traits)
    requires a in acts && acts[a].frame.Add? && acts[a].frame.cont == c
        && nowActs == acts[a := acts[a].(frame := Ended)]
    requires heap[p].word.cont != Null ==> heap[p].traits.isShared || PassThrough(heap[c].traits)
    ensures FutOK(now, nowActs, p)
  {
    assert ChainOK(now, p) by { PushedChain(heap, now, p, c); }
    assert WordOK(now[p]) by { ReversePush(heap[p].listed, c); }
    assert LogOK(now, p) by {
      assert now[p].listed + now[p].late == heap[p].listed + heap[p].late + [c];
      GrowsLog(heap, now, p, c);
    }
    assert OwnersOK(now, nowActs, p);
    assert heap[p].place.Listed? && heap[p].place.parent == c ==> p in now[c].chain;
  }

  lemma ListedChild(s: State, t: State, a: nat)
    requires Inv(s) && s.crash == NoCrash && StepAddSwap(s, t, a) && !IsDone(s.acts[a].frame.seen.state)
    ensures FutOK(t.heap, t.acts, s.acts[a].frame.cont)
  {
    assert ActOK(s.heap, s.acts, a);
    var c := s.acts[a].frame.cont;
    assert FutOK(s.heap, s.acts, c);
    assert ChainOK(t.heap, c) by { KeepsChain(s.heap, t.heap, c); }
    assert LogOK(t.heap, c) by { KeepsLog(s.heap, t.heap, c); }
    assert PlaceOK(t.heap, t.acts, c);
  }

  lemma AddSwapChange(s: State, t: State, a: nat)
    requires Inv(s) && s.crash == NoCrash && StepAddSwap(s, t, a)
    ensures Change(s.heap, t.heap, s.acts, a, s.acts[a].frame.parent)
        && Change(s.heap, t.heap, s.acts, a, s.acts[a].frame.cont)
    ensures ActOK(t.heap, t.acts, a)
  {
    assert ActOK(s.heap, s.acts, a);
    assert FutOK(s.heap, s.acts, s.acts[a].frame.parent) && FutOK(s.heap, s.acts, s.acts[a].frame.cont);
  }

  lemma ListedParentOf(s: State, t: State, a: nat)
    requires Inv(s) && s.crash == NoCrash && StepAddSwap(s, t, a) && !IsDone(s.acts[a].frame.seen.state)
    ensures FutOK(t.heap, t.acts, s.acts[a].frame.parent)
  {
    var Add(p, c, seen, _) := s.acts[a].frame;
    assert ActOK(s.heap, s.acts, a);
    assert FutOK(s.heap, s.acts, p) && FutOK(s.heap, s.acts, c);
    ListedParent(s.heap, t.heap, s.acts, t.acts, a, p, c);
  }

  lemma AddSwapShape(s: State, t: State, a: nat)
    requires Inv(s) && s.crash == NoCrash && StepAddSwap(s, t, a)
    ensures var p, c := s.acts[a].frame.parent, s.acts[a].frame.cont;
            && p in s.heap && c in s.heap && t.heap.Keys == s.heap.Keys && t.crash in SURVIVORS
            && (forall h <- s.heap :: h != c && h != p ==> t.heap[h] == s.heap[h])
            && a in t.acts && Moved(s.acts, t.acts, a)
            && forall h, x {:trigger h in s.heap[x].chain} ::
                 x in s.heap && h in s.heap[x].chain ==> h in t.heap[x].chain
  {
    assert ActOK(s.heap, s.acts, a);
  }

  lemma PreserveAddSwapListed(s: State, t: State, a: nat)
    requires Inv(s) && s.crash == NoCrash && StepAddSwap(s, t, a) && !IsDone(s.acts[a].frame.seen.state)
    ensures Inv(t)
  {
    var Add(p, c, seen, _) := s.acts[a].frame;
    ListedParentOf(s, t, a);
    ListedChild(s, t, a);
    AddSwapChange(s, t, a);
    AddSwapShape(s, t, a);
    OthersUntaken(s, t, a, c, p);
    StepPreserves(s, t, a, c, p);
  }

  lemma LateParent(heap: Heap, now: Heap, acts: Acts, nowActs: Acts, a: nat, p: nat, c: nat)
    requires now.Keys == heap.Keys && p in heap && c in heap && p != c && IsDone(heap[p].word.state)
    requires FutOK(heap, acts, p)
    requires now[p] == heap[p].(word := Word(heap[p].word.state, ContinuationInvoked), late := heap[p].late + [c])
    requires now[c] == heap[c].(place := Walking(a)) && now == heap[p := now[p]][c := now[c]]
    requires heap[c].place == Adding(a)
    requires a in acts && acts[a].frame.Add? && acts[a].frame.cont == c && a in nowActs
        && nowActs == acts[a := nowActs[a]]
    requires heap[p].word.cont != Null ==> heap[p].traits.isShared || PassThrough(heap[c].traits)
    ensures FutOK(now, nowActs, p)
  {
    KeepsChain(heap, now, p);
    assert WordOK(now[p]);
    assert now[p].listed + now[p].late == heap[p].listed + heap[p].late + [c];
    GrowsLog(heap, now, p, c);
    assert OwnersOK(now, nowActs, p);
    assert PlaceOK(now, nowActs, p);
  }

  lemma LateChild(s: State, t: State, a: nat)
    requires Inv(s) && s.crash == NoCrash && StepAddSwap(s, t, a) && IsDone(s.acts[a].frame.seen.state)
    ensures FutOK(t.heap, t.acts, s.acts[a].frame.cont)
  {
    assert ActOK(s.heap, s.acts, a);
    var Add(p, c, seen, _) := s.acts[a].frame;
    assert FutOK(s.heap, s.acts, c);
    assert ChainOK(t.heap, c) by { KeepsChain(s.heap, t.heap, c); }
    assert LogOK(t.heap, c) by { KeepsLog(s.heap, t.heap, c); }
    assert WordOK(t.heap[c]) && OwnersOK(t.heap, t.acts, c) && PlaceOK(t.heap, t.acts, c);
  }

  lemma LateParentOf(s: State, t: State, a: nat)
    requires Inv(s) && s.crash == NoCrash && StepAddSwap(s, t, a) && IsDone(s.acts[a].frame.seen.state)
    ensures FutOK(t.heap, t.acts, s.acts[a].frame.parent)
  {
    var Add(p, c, seen, _) := s.acts[a].frame;
    assert ActOK(s.heap, s.acts, a);
    assert FutOK(s.heap, s.acts, p) && FutOK(s.heap, s.acts, c);
    LateParent(s.heap, t.heap, s.acts, t.acts, a, p, c);
  }

  lemma PreserveAddSwapLate(s: State, t: State, a: nat)
    requires Inv(s) && s.crash == NoCrash && StepAddSwap(s, t, a) && IsDone(s.acts[a].frame.seen.state)
    ensures Inv(t)
  {
    var Add(p, c, seen, _) := s.acts[a].frame;
    LateParentOf(s, t, a);
    LateChild(s, t, a);
    AddSwapChange(s, t, a);
    AddSwapShape(s, t, a);
    OthersUntaken(s, t, a, c, p);
    StepPreserves(s, t, a, c, p);
  }

  // ---------- operations on the word ----------

  lemma PreserveCheck(s: State, t: State, a: nat)
    requires Inv(s) && s.crash == NoCrash && StepCheck(s, t, a, true)
    ensures Inv(t)
  {
    assert ActOK(s.heap, s.acts, a);
    var Update(r, f, owner, seen, next, _) := s.acts[a].frame;
    assert FutOK(s.heap, s.acts, f);
    if t.crash == NoCrash {
      DecideIsEdge(r, s.heap[f].traits, seen.state, s.heap[f].link == Null, Sync(s, a, f));
      OwnFrame(s, t, a);
    }
  }

  lemma DecideIsEdge(r: Request, t: Traits, state: FutureState, linkIsNull: bool, sync: bool)
    ensures Decide(r, t, state, linkIsNull, sync).MoveTo? && r != StartPosting && r != SetPosted ==>
              Edge(t, state, Decide(r, t, state, linkIsNull, sync).next)
                  && Target(r, Decide(r, t, state, linkIsNull, sync).next)
  {
  }

  /** Nobody is writing the link of a future that leaves Posting: its poster is in the callback. */
  lemma LeavesPosting(s: State, a: nat, f: nat)
    requires Inv(s) && f in s.heap && a in s.acts && s.acts[a].frame != Ended
    requires s.heap[f].word.state == Posting && SyncIn(s.acts, a, f)
    ensures s.heap[f].handler.Ref? ==>
              s.heap[f].handler.id in s.acts && !WritingLink(s.acts[s.heap[f].handler.id].frame)
  {
    assert FutOK(s.heap, s.acts, f);
    assert ActOK(s.heap, s.acts, a);
    assert ActOK(s.heap, s.acts, s.acts[a].host.id);
  }

  /** The future after the swap. */
  function AfterSwap(fut: Fut, a: nat, r: Request, seen: Word, next: FutureState): Fut {
    var swapped := fut.(word := Swapped(seen, next));
    if IsDone(next) then swapped.(settled := fut.settled + 1, walker := Ref(a), setter := Null)
    else if r == StartSetValue || r == StartSetError then swapped.(setter := Ref(a))
    else if r == SetInvoking then swapped.(entered := fut.entered + 1)
    else swapped
  }

  /** Its word, counters and logs agree again. */
  lemma SwappedWord(was: Fut, a: nat, r: Request, seen: Word, next: FutureState)
    requires WordOK(was) && was.word == seen && Edge(was.traits, seen.state, next) && Target(r, next)
    requires r == SetInvoking ==> seen.state == Posting || seen.state == Posted
    ensures WordOK(AfterSwap(was, a, r, seen, next))
  {
    EdgeClimbs(was.traits, seen.state, next);
  }

  /** The future whose word was swapped is well formed again. */
  lemma SwappedFut(heap: Heap, now: Heap, acts: Acts, nowActs: Acts, a: nat, f: nat, r: Request, owner: bool,
        seen: Word, next: FutureState)
    requires f in heap && FutOK(heap, acts, f) && a in acts && acts[a].frame == Update(r, f, owner, seen, next, Swap)
    requires UpdateOK(heap, acts, a, r, f, owner, seen, next, Swap) && heap[f].word == seen
    requires a in nowActs && nowActs == acts[a := nowActs[a]] && f in now && now == heap[f := now[f]]
    requires now[f] == AfterSwap(heap[f], a, r, seen, next)
    requires IsDone(next) ==> nowActs[a].frame == Cleanup(f, seen.cont, seen.cont == ContinuationInvoked)
    requires next == SettingResult ==> nowActs[a].frame.Update? && nowActs[a].frame.fut == f && nowActs[a].frame.owner
    ensures FutOK(now, nowActs, f)
  {
    assert ChainOK(now, f) by { KeepsChain(heap, now, f); }
    assert LogOK(now, f) by { KeepsLog(heap, now, f); }
    SwappedWord(heap[f], a, r, seen, next);
    SwappedPlace(heap, now, acts, nowActs, a, f, r, owner, seen, next);
  }

  lemma SwappedPlace(heap: Heap, now: Heap, acts: Acts, nowActs: Acts, a: nat, f: nat, r: Request, owner: bool,
        seen: Word, next: FutureState)
    requires f in heap && PlaceOK(heap, acts, f) && OwnersOK(heap, acts, f)
    requires a in acts && acts[a].frame == Update(r, f, owner, seen, next, Swap)
    requires UpdateOK(heap, acts, a, r, f, owner, seen, next, Swap) && heap[f].word == seen
    requires a in nowActs && nowActs == acts[a := nowActs[a]] && f in now && now == heap[f := now[f]]
    requires now[f] == AfterSwap(heap[f], a, r, seen, next)
    requires IsDone(next) ==> nowActs[a].frame == Cleanup(f, seen.cont, seen.cont == ContinuationInvoked)
    requires next == SettingResult ==> nowActs[a].frame.Update? && nowActs[a].frame.fut == f && nowActs[a].frame.owner
    ensures PlaceOK(now, nowActs, f) && OwnersOK(now, nowActs, f)
  {
  }

  lemma SwapShape(s: State, t: State, a: nat, r: Request, f: nat, owner: bool, seen: Word, next: FutureState)
    requires StepSwap(s, t, a) && s.acts[a].frame == Update(r, f, owner, seen, next, Swap)
    requires Target(r, next)
    ensures s.heap[f].word == seen && t.heap == s.heap[f := AfterSwap(s.heap[f], a, r, seen, next)]
    ensures a in t.acts && t.acts == s.acts[a := t.acts[a]]
    ensures IsDone(next) ==> t.acts[a].frame == Cleanup(f, seen.cont, seen.cont == ContinuationInvoked)
    ensures next == SettingResult ==> t.acts[a].frame.Update? && t.acts[a].frame.fut == f && t.acts[a].frame.owner
  {
  }

  lemma SwapChanges(s: State, t: State, a: nat)
    requires Inv(s) && s.crash == NoCrash && StepSwap(s, t, a)
    ensures Change(s.heap, t.heap, s.acts, a, s.acts[a].frame.fut)
  {
    assert ActOK(s.heap, s.acts, a);
    var Update(r, f, owner, seen, next, _) := s.acts[a].frame;
    assert FutOK(s.heap, s.acts, f);
    EdgeClimbs(s.heap[f].traits, seen.state, next);
    if seen.state == Posting { LeavesPosting(s, a, f); }
  }

  lemma SwappedAct(s: State, t: State, a: nat)
    requires Inv(s) && s.crash == NoCrash && StepSwap(s, t, a)
    ensures ActOK(t.heap, t.acts, a)
  {
    assert ActOK(s.heap, s.acts, a);
    var Update(r, f, owner, seen, next, _) := s.acts[a].frame;
    assert FutOK(s.heap, s.acts, f);
    SwappedUpdate(s, t, a, f);
  }

  lemma SwappedUpdate(s: State, t: State, a: nat, f: nat)
    requires s.crash == NoCrash && StepSwap(s, t, a) && f == s.acts[a].frame.fut
    requires ActOK(s.heap, s.acts, a) && FutOK(s.heap, s.acts, f)
    ensures ActOK(t.heap, t.acts, a)
  {
    EdgeClimbs(s.heap[f].traits, s.acts[a].frame.seen.state, s.acts[a].frame.next);
    assert HostOK(t.acts, a);
  }

  lemma SwapFut(s: State, t: State, a: nat)
    requires Inv(s) && s.crash == NoCrash && StepSwap(s, t, a)
    ensures FutOK(t.heap, t.acts, s.acts[a].frame.fut)
  {
    assert ActOK(s.heap, s.acts, a);
    var Update(r, f, owner, seen, next, _) := s.acts[a].frame;
    assert FutOK(s.heap, s.acts, f);
    SwapShape(s, t, a, r, f, owner, seen, next);
    SwappedFut(s.heap, t.heap, s.acts, t.acts, a, f, r, owner, seen, next);
  }

  lemma PreserveSwap(s: State, t: State, a: nat)
    requires Inv(s) && s.crash == NoCrash && StepSwap(s, t, a)
    ensures Inv(t)
  {
    SwapChanges(s, t, a);
    SwappedAct(s, t, a);
    SwapFut(s, t, a);
    OneFutPreserves(s, t, a, s.acts[a].frame.fut);
  }

  lemma CleanupFut(s: State, t: State, a: nat)
    requires Inv(s) && s.crash == NoCrash && StepCleanup(s, t, a)
    ensures FutOK(t.heap, t.acts, s.acts[a].frame.done)
  {
    assert ActOK(s.heap, s.acts, a);
    var f := s.acts[a].frame.done;
    assert FutOK(s.heap, s.acts, f);
    assert ChainOK(t.heap, f) by { KeepsChain(s.heap, t.heap, f); }
    assert LogOK(t.heap, f) by { KeepsLog(s.heap, t.heap, f); }
  }

  lemma PreserveCleanup(s: State, t: State, a: nat)
    requires Inv(s) && s.crash == NoCrash && StepCleanup(s, t, a)
    ensures Inv(t)
  {
    CleanupFut(s, t, a);
    assert ActOK(s.heap, s.acts, a);
    var f := s.acts[a].frame.done;
    assert FutOK(s.heap, s.acts, f);
    OneFutPreserves(s, t, a, f);
  }

  // ---------- PostContinuation and TryPostInternal ----------

  /** A step of a walk that changes its frame only. */
  ghost predicate WalkLooks(s: State, t: State, a: nat) {
    StepPostLoad(s, t, a) || StepPostRetry(s, t, a) || StepCallbackEnds(s, t, a)
  }

  lemma WalkFrameAct(s: State, t: State, a: nat)
    requires Inv(s) && s.crash == NoCrash && WalkLooks(s, t, a)
    ensures t.crash == NoCrash && ActOK(s.heap, t.acts, a)
  {
    assert ActOK(s.heap, s.acts, a);
    var node := s.acts[a].frame.node;
    if node.Ref? { assert FutOK(s.heap, s.acts, node.id); }
  }

  lemma PostCheckAct(s: State, t: State, a: nat)
    requires Inv(s) && s.crash == NoCrash && StepPostCheck(s, t, a) && t.crash == NoCrash
    ensures ActOK(s.heap, t.acts, a)
  {
    assert ActOK(s.heap, s.acts, a);
    assert FutOK(s.heap, s.acts, s.acts[a].frame.node.id);
  }

  lemma PostedAct(s: State, t: State, a: nat)
    requires Inv(s) && s.crash == NoCrash && StepPosted(s, t, a)
    ensures t.crash == NoCrash && ActOK(s.heap, t.acts, a)
  {
    assert ActOK(s.heap, s.acts, a);
  }

  /** A load, or the end of a callback: nothing but the frame changes. */
  ghost predicate OnlyLooks(s: State, t: State, a: nat) {
    || StepAddLoad(s, t, a) || StepAddRetry(s, t, a) || StepLoad(s, t, a) || StepSwapRetry(s, t, a)
  }

  lemma LookAct(s: State, t: State, a: nat)
    requires Inv(s) && s.crash == NoCrash && OnlyLooks(s, t, a)
    ensures ActOK(s.heap, t.acts, a)
  {
    var frame := s.acts[a].frame;
    assert ActOK(s.heap, s.acts, a);
    assert FutOK(s.heap, s.acts, if frame.Add? then frame.parent else frame.fut);
  }

  ghost predicate FrameOnly(s: State, t: State, a: nat) {
    || OnlyLooks(s, t, a) || StepBodyEnds(s, t, a) || WalkLooks(s, t, a)
    || StepPostCheck(s, t, a) || StepPosted(s, t, a)
  }

  lemma PreserveFrame(s: State, t: State, a: nat)
    requires Inv(s) && s.crash == NoCrash
    requires FrameOnly(s, t, a)
    ensures Inv(t)
  {
    if t.crash == NoCrash {
      if OnlyLooks(s, t, a) {
        LookAct(s, t, a);
      } else if WalkLooks(s, t, a) {
        WalkFrameAct(s, t, a);
      } else if StepPostCheck(s, t, a) {
        PostCheckAct(s, t, a);
      } else if StepPosted(s, t, a) {
        PostedAct(s, t, a);
      }
      OwnFrame(s, t, a);
    } else {
      assert t == s.(crash := t.crash);
    }
  }

  /** The walk takes the first node of its list. */
  lemma PoppedChain(heap: Heap, now: Heap, p: nat, c: nat)
    requires now.Keys == heap.Keys && p in heap && ChainOK(heap, p) && heap[p].chain != [] && c == heap[p].chain[0]
    requires now[p].chain == heap[p].chain[1..]
    requires forall f <- heap :: f != c ==> KeepsNode(heap[f], now[f])
    ensures ChainOK(now, p)
  {
    var chain := heap[p].chain;
    forall k | 0 <= k < |chain| - 1 ensures NodeOK(now, p, now[p].chain, k) {
      assert NodeOK(heap, p, chain, k + 1);
      assert chain[1..][k + 1..] == chain[k + 2..];
    }
    forall j, k | 0 <= j < k < |chain| - 1 ensures now[p].chain[j] != now[p].chain[k] {
      assert chain[j + 1] != chain[k + 1];
    }
  }

  lemma PoppedFut(heap: Heap, now: Heap, acts: Acts, nowActs: Acts, a: nat, p: nat, c: nat)
    requires p in heap && c in heap && p != c && FutOK(heap, acts, p) && Accepted(heap[c].place, p)
    requires heap[p].chain != [] && c == heap[p].chain[0] && IsDone(heap[p].word.state)
    requires now == heap[p := Taken(heap[p], c)][
                      c := heap[c].(place := Handed, handed := heap[c].handed + 1, handler := Ref(a))]
    requires a in acts && acts[a].frame.Walk? && a in nowActs && nowActs == acts[a := nowActs[a]]
    requires acts[a].frame.walkPc == AtNode && acts[a].frame.isList && nowActs[a].frame.Walk?
        && nowActs[a].frame.isList && nowActs[a].frame.source == Ref(p)
    requires heap[p].walker == Ref(a)
    ensures FutOK(now, nowActs, p)
  {
    PoppedChain(heap, now, p, c);
    assert heap[p].visited + heap[p].chain == heap[p].visited + [c] + heap[p].chain[1..];
    assert WordOK(now[p]);
    assert LogOK(now, p) by { KeepsLog(heap, now, p); }
    assert OwnersOK(now, nowActs, p);
    assert PlaceOK(now, nowActs, p) by {
      if heap[p].place.Listed? && heap[p].place.parent == c { assert p in heap[c].chain; }
    }
  }

  lemma ListNodeUntaken(s: State, t: State, a: nat)
    requires Inv(s) && s.crash == NoCrash && StepNode(s, t, a) && s.acts[a].frame.node != Null && s.acts[a].frame.isList
    ensures forall h {:trigger Untaken(s.heap, t.heap, t.acts, a, h)} ::
              h in s.heap && h != s.acts[a].frame.node.id && h != s.acts[a].frame.source.id ==>
                  Untaken(s.heap, t.heap, t.acts, a, h)
  {
    assert ActOK(s.heap, s.acts, a);
    var p, c := s.acts[a].frame.source.id, s.acts[a].frame.node.id;
    forall h | h in s.heap && h != c && h != p ensures Untaken(s.heap, t.heap, t.acts, a, h) {
      assert FutOK(s.heap, s.acts, h);
      if s.heap[h].place == Listed(p) { assert h in s.heap[p].chain[1..]; }
    }
  }

  /** The future handed over is well formed again. */
  lemma HandedFut(heap: Heap, now: Heap, acts: Acts, nowActs: Acts, a: nat, c: nat)
    requires now.Keys == heap.Keys && c in heap && FutOK(heap, acts, c) && heap[c].place != Handed
    requires heap[c].link != Null ==> ContTraits(heap[c].traits)
    requires now[c] == heap[c].(place := Handed, handed := heap[c].handed + 1, handler := Ref(a))
    requires a in acts && a in nowActs && nowActs == acts[a := nowActs[a]] && acts[a].frame.Walk?
    requires forall f <- heap :: KeepsEntry(heap[f], now[f])
    requires forall f <- heap :: KeepsNode(heap[f], now[f]) || heap[f].place != Listed(c)
    ensures FutOK(now, nowActs, c)
  {
    assert ChainOK(now, c) by { KeepsChain(heap, now, c); }
    assert LogOK(now, c) by { KeepsLog(heap, now, c); }
  }

  lemma ListSourceFut(s: State, t: State, a: nat, p: nat, c: nat)
    requires s.crash == NoCrash && StepNode(s, t, a) && s.acts[a].frame.node == Ref(c) && s.acts[a].frame.isList
    requires s.acts[a].frame.source == Ref(p) && p in s.heap && c in s.heap && s.heap[p].chain != []
    requires ActOK(s.heap, s.acts, a) && FutOK(s.heap, s.acts, p) && NodeOK(s.heap, p, s.heap[p].chain, 0)
    ensures FutOK(t.heap, t.acts, p)
  {
    PoppedFut(s.heap, t.heap, s.acts, t.acts, a, p, c);
  }

  lemma ListNodeFut(s: State, t: State, a: nat, p: nat, c: nat)
    requires s.crash == NoCrash && StepNode(s, t, a) && s.acts[a].frame.node == Ref(c) && s.acts[a].frame.isList
    requires s.acts[a].frame.source == Ref(p) && p in s.heap && c in s.heap
    requires ActOK(s.heap, s.acts, a) && FutOK(s.heap, s.acts, p) && FutOK(s.heap, s.acts, c)
    requires s.heap[p].chain != [] && NodeOK(s.heap, p, s.heap[p].chain, 0)
    ensures FutOK(t.heap, t.acts, c)
  {
    HandedFut(s.heap, t.heap, s.acts, t.acts, a, c);
  }

  lemma ListNodeFuts(s: State, t: State, a: nat)
    requires Inv(s) && s.crash == NoCrash && StepNode(s, t, a) && s.acts[a].frame.node != Null && s.acts[a].frame.isList
    ensures FutOK(t.heap, t.acts, s.acts[a].frame.source.id) && FutOK(t.heap, t.acts, s.acts[a].frame.node.id)
  {
    assert ActOK(s.heap, s.acts, a);
    var p, c := s.acts[a].frame.source.id, s.acts[a].frame.node.id;
    assert FutOK(s.heap, s.acts, p) && FutOK(s.heap, s.acts, c);
    assert NodeOK(s.heap, p, s.heap[p].chain, 0);
    ListSourceFut(s, t, a, p, c);
    ListNodeFut(s, t, a, p, c);
  }

  lemma ListNodeRest(s: State, t: State, a: nat)
    requires Inv(s) && s.crash == NoCrash && StepNode(s, t, a) && s.acts[a].frame.node != Null && s.acts[a].frame.isList
    ensures Change(s.heap, t.heap, s.acts, a, s.acts[a].frame.source.id)
        && Change(s.heap, t.heap, s.acts, a, s.acts[a].frame.node.id)
    ensures ActOK(t.heap, t.acts, a)
  {
    assert ActOK(s.heap, s.acts, a);
    var p, c := s.acts[a].frame.source.id, s.acts[a].frame.node.id;
    assert FutOK(s.heap, s.acts, p) && FutOK(s.heap, s.acts, c);
    assert NodeOK(s.heap, p, s.heap[p].chain, 0);
  }

  lemma PreserveListNode(s: State, t: State, a: nat)
    requires Inv(s) && s.crash == NoCrash && StepNode(s, t, a) && s.acts[a].frame.node != Null && s.acts[a].frame.isList
    ensures Inv(t)
  {
    ListNodeUntaken(s, t, a);
    ListNodeFuts(s, t, a);
    ListNodeRest(s, t, a);
    StepPreserves(s, t, a, s.acts[a].frame.node.id, s.acts[a].frame.source.id);
  }

  lemma SingleNodeFut(s: State, t: State, a: nat, c: nat)
    requires s.crash == NoCrash && StepNode(s, t, a) && s.acts[a].frame.node == Ref(c) && !s.acts[a].frame.isList
    requires c in s.heap && ActOK(s.heap, s.acts, a) && FutOK(s.heap, s.acts, c)
    ensures FutOK(t.heap, t.acts, c)
  {
    HandedFut(s.heap, t.heap, s.acts, t.acts, a, c);
  }

  lemma SingleNodeAct(s: State, t: State, a: nat, c: nat)
    requires s.crash == NoCrash && StepNode(s, t, a) && s.acts[a].frame.node == Ref(c) && !s.acts[a].frame.isList
    requires c in s.heap && ActOK(s.heap, s.acts, a) && FutOK(s.heap, s.acts, c)
    ensures Change(s.heap, t.heap, s.acts, a, c) && ActOK(t.heap, t.acts, a)
  {
  }

  lemma PreserveSingleNode(s: State, t: State, a: nat)
    requires Inv(s) && s.crash == NoCrash && StepNode(s, t, a) && s.acts[a].frame.node != Null
        && !s.acts[a].frame.isList
    ensures Inv(t)
  {
    assert ActOK(s.heap, s.acts, a);
    var c := s.acts[a].frame.node.id;
    assert FutOK(s.heap, s.acts, c);
    SingleNodeFut(s, t, a, c);
    SingleNodeAct(s, t, a, c);
    OneFutPreserves(s, t, a, c);
  }

  lemma PreserveLastNode(s: State, t: State, a: nat)
    requires Inv(s) && s.crash == NoCrash && StepNode(s, t, a) && s.acts[a].frame.node == Null
    ensures Inv(t)
  {
    assert ActOK(s.heap, s.acts, a);
    forall h <- s.heap ensures Holds(s.heap[h], h, a, s.acts[a].frame) ==> Holds(s.heap[h], h, a, Ended) {
      assert FutOK(s.heap, s.acts, h);
    }
    OwnFrame(s, t, a);
  }

  /** A walk changed a field of its node: the word, or the link. */
  lemma PreserveNodeField(s: State, t: State, a: nat, c: nat)
    requires Inv(s) && a in s.acts && s.acts[a].frame.Walk? && s.acts[a].frame.walkPc != AtNode && c in s.heap
    requires t.crash == NoCrash && a in t.acts && t.acts == s.acts[a := t.acts[a]] && t.acts[a].frame.Walk?
    requires t.acts[a].frame.isList == s.acts[a].frame.isList && t.acts[a].frame.source == s.acts[a].frame.source
    requires c in t.heap && t.heap == s.heap[c := t.heap[c]] && t.heap[c].chain == s.heap[c].chain
    requires Moved(s.acts, t.acts, a)
    requires Change(s.heap, t.heap, s.acts, a, c) && FutOK(t.heap, t.acts, c) && ActOK(t.heap, t.acts, a)
    ensures Inv(t)
  {
    forall h | h in s.heap && h != c && h != c ensures Untaken(s.heap, t.heap, t.acts, a, h) {
      assert FutOK(s.heap, s.acts, h);
    }
    StepPreserves(s, t, a, c, c);
  }

  lemma PreservePostSwap(s: State, t: State, a: nat)
    requires Inv(s) && s.crash == NoCrash && StepPostSwap(s, t, a)
    ensures Inv(t)
  {
    assert ActOK(s.heap, s.acts, a);
    var c := s.acts[a].frame.node.id;
    assert FutOK(s.heap, s.acts, c);
    assert FutOK(t.heap, t.acts, c) by { KeepsChain(s.heap, t.heap, c); KeepsLog(s.heap, t.heap, c); }
    PreserveNodeField(s, t, a, c);
  }

  lemma PreserveTakeNext(s: State, t: State, a: nat)
    requires Inv(s) && s.crash == NoCrash && StepTakeNext(s, t, a)
    ensures Inv(t)
  {
    assert ActOK(s.heap, s.acts, a);
    var c := s.acts[a].frame.node.id;
    assert FutOK(s.heap, s.acts, c);
    assert FutOK(t.heap, t.acts, c) by { KeepsChain(s.heap, t.heap, c); KeepsLog(s.heap, t.heap, c); }
    PreserveNodeField(s, t, a, c);
  }

  lemma PreserveSetLink(s: State, t: State, a: nat)
    requires Inv(s) && s.crash == NoCrash && StepSetLink(s, t, a)
    ensures Inv(t)
  {
    assert ActOK(s.heap, s.acts, a);
    var c := s.acts[a].frame.node.id;
    assert FutOK(s.heap, s.acts, c);
    assert FutOK(t.heap, t.acts, c) by { KeepsChain(s.heap, t.heap, c); KeepsLog(s.heap, t.heap, c); }
    PreserveNodeField(s, t, a, c);
  }

  lemma PostedSwapFut(s: State, t: State, a: nat)
    requires Inv(s) && s.crash == NoCrash && StepPostedSwap(s, t, a)
    ensures FutOK(t.heap, t.acts, s.acts[a].frame.node.id)
  {
    assert ActOK(s.heap, s.acts, a);
    var c := s.acts[a].frame.node.id;
    assert FutOK(s.heap, s.acts, c);
    assert ChainOK(t.heap, c) by { KeepsChain(s.heap, t.heap, c); }
    assert LogOK(t.heap, c) by { KeepsLog(s.heap, t.heap, c); }
  }

  lemma PostedSwapShape(s: State, t: State, a: nat)
    requires s.crash == NoCrash && StepPostedSwap(s, t, a)
    ensures var c := s.acts[a].frame.node.id;
            && t.crash == NoCrash && a in t.acts && t.acts == s.acts[a := t.acts[a]] && t.acts[a].frame.Walk?
            && t.acts[a].frame.isList == s.acts[a].frame.isList && t.acts[a].frame.source == s.acts[a].frame.source
            && c in t.heap && t.heap == s.heap[c := t.heap[c]] && t.heap[c].chain == s.heap[c].chain
            && Moved(s.acts, t.acts, a)
  {
  }

  lemma PostedSwapRest(s: State, t: State, a: nat)
    requires Inv(s) && s.crash == NoCrash && StepPostedSwap(s, t, a)
    ensures Change(s.heap, t.heap, s.acts, a, s.acts[a].frame.node.id) && ActOK(t.heap, t.acts, a)
  {
    assert ActOK(s.heap, s.acts, a);
    assert FutOK(s.heap, s.acts, s.acts[a].frame.node.id);
  }

  lemma PreservePostedSwap(s: State, t: State, a: nat)
    requires Inv(s) && s.crash == NoCrash && StepPostedSwap(s, t, a)
    ensures Inv(t)
  {
    PostedSwapShape(s, t, a);
    PostedSwapFut(s, t, a);
    PostedSwapRest(s, t, a);
    PreserveNodeField(s, t, a, s.acts[a].frame.node.id);
  }
}
