/** Nothing in the protocol gets stuck: any caller can begin, and every call can come to its end by its own steps.

    A compare-and-swap loop can fail as often as others interfere, so there is no bound on the steps of a call among
    others. But from every state in which a run can be, the call alone needs only so many: it loads what is there, its
    next swap finds what it loaded, and its walk has as many entries as the list it took. Phase, Left and Distance are
    that measure, compared in this order; Advances says that a step makes it smaller. There is one lemma for each place
    a call can be at, which gives the step it takes there.

    Two things can hold up a call: another thread that is just handing its future over, for which TrySetInvoking and
    TryStartSetError wait by design, and the calls made in its own callback, which it hosts until they return. */
module FutureProgress {
  import opened FutureCore
  import opened FutureProtocol
  import opened FutureInvariant
  import opened FutureTheorems
  import opened FutureCalls
  import opened Paths

  // ---------- a call from outside ----------

  /** A call in the callback that host runs, or in none. */
  predicate InCallback(s: State, host: Ptr, f: nat) {
    host.Ref? && host.id in s.acts && Current(s.acts[host.id].frame) == Ref(f)
  }

  predicate CanHost(s: State, host: Ptr) {
    host == Null || (host.Ref? && host.id in s.acts && Current(s.acts[host.id].frame) != Null)
  }

  /** Wherever a run has come to, anybody can begin a call, and if it is accepted in that state, it takes effect when
      nobody gets in its way. */
  lemma AcceptedCallDelivers(run: seq<State>, i: nat, a: nat, host: Ptr, r: Request, f: nat)
    requires Run(run, CLAIMED) && i < |run| && run[i].crash == NoCrash && a !in run[i].acts && f in run[i].heap
    requires r in CALLS && CanHost(run[i], host)
    requires var fut := run[i].heap[f];
             Accepts(r, fut.traits, fut.word.state, fut.link == Null, InCallback(run[i], host, f))
    ensures exists t :: Leads(Steps(CLAIMED), run[i], t) && f in t.heap
                        && t.heap == run[i].heap[f := t.heap[f]] && t.heap[f] == Effect(r, run[i].heap[f], a)
  {
    var s := run[i];
    RunInv(run, i);
    assert FutOK(s.heap, s.acts, f);
    var begun := s.(acts := s.acts[a := Act(Update(r, f, false, Word(Pending, Null), Pending, Load), host)]);
    assert BeginUpdate(s, begun, a, host, r, f, false);
    Stays(Steps(CLAIMED), s);
    Then(Steps(CLAIMED), s, s, begun);
    assert Sync(begun, a, f) == InCallback(s, host, f);
    var t := AcceptedTakesEffect(begun, a, r, f, true);
    Widens(Own(a, true), Steps(CLAIMED), begun, t);
    Joins(Steps(CLAIMED), s, begun, t);
  }

  /** The task callback of f can settle its own future: with a value if it has one, with a success if not, and with an
      error. The TaskPost callback, or the inline Invoke, can enter the task or fail it. */
  lemma CallbackDelivers(run: seq<State>, i: nat, a: nat, h: nat, r: Request, f: nat)
    requires Run(run, CLAIMED) && i < |run| && run[i].crash == NoCrash && a !in run[i].acts && f in run[i].heap
    requires h in run[i].acts
    requires match run[i].acts[h].frame
             case Body(g) =>
               && g == f && run[i].heap[f].word.state == Invoking
               && r in {StartSetError, if run[i].heap[f].traits.valueSize > 0 then StartSetValue else SetSuccess}
             case Walk(_, _, node, _, _, pc) =>
               && node == Ref(f) && pc == Callback && run[i].heap[f].word.state == Posting
               && r in {StartSetError, SetInvoking}
             case _ => false
    ensures exists t :: Leads(Steps(CLAIMED), run[i], t) && f in t.heap
                        && t.heap == run[i].heap[f := t.heap[f]] && t.heap[f] == Effect(r, run[i].heap[f], a)
  {
    AcceptedCallDelivers(run, i, a, Ref(h), r, f);
  }

  // ---------- how far a call is from its end ----------

  function Phase(frame: Frame): nat {
    match frame
    case Ended => 0
    case Body(_) => 1
    case Walk(_, _, _, _, _, _) => 2
    case Cleanup(_, _, _) => 3
    case Add(_, _, _, _) => 3
    case Update(_, _, owner, _, _, _) => if owner then 4 else 5
  }

  /** The continuations that a walk has still to take. */
  function Left(heap: Heap, frame: Frame): nat {
    match frame
    case Walk(src, isList, node, _, _, pc) =>
      if isList then (if src.Ref? && src.id in heap then |heap[src.id].chain| else 0)
      else if pc == AtNode && node != Null then 1 else 0
    case _ => 0
  }

  /** How far it is from the swap of its loop; what it has seen may be old. */
  function Distance(heap: Heap, frame: Frame): nat {
    match frame
    case Add(p, _, seen, pc) => (
      var recent := p in heap && heap[p].word == seen;
      match pc
      case AddLoad => 5
      case AddLink => if recent then 2 else 4
      case AddSwap => if recent then 1 else 3)
    case Update(_, f, _, seen, _, pc) => (
      var recent := f in heap && heap[f].word == seen;
      match pc
      case Load => 5
      case Check => if recent then 2 else if seen.state == Posting then 6 else 4
      case Swap => if recent then 1 else 3)
    case Walk(_, _, node, _, seen, pc) => (
      var recent := node.Ref? && node.id in heap && heap[node.id].word == seen;
      match pc
      case AtNode => 0
      case PostLoad => 13
      case PostCheck => if recent then 10 else 12
      case PostSwap => if recent then 9 else 11
      case TakeNext => 8
      case SetLink => 7
      case Callback => 6
      case PostedLoad => 5
      case PostedCheck => if recent then 2 else 4
      case PostedSwap => if recent then 1 else 3)
    case _ => 0
  }

  /** Another call is just handing f over, or f is claimed by another call and this one, if it went on, would steal
      it. */
  predicate HeldUp(s: State, a: nat) {
    && a in s.acts && s.acts[a].frame.Update? && !s.acts[a].frame.owner
    && var u := s.acts[a].frame;
       u.fut in s.heap
       && var state := s.heap[u.fut].word.state;
          || MustWait(u.req, state, Sync(s, a, u.fut))
          || Claimed(u.req, state) || (u.updatePc == Check && Claimed(u.req, u.seen.state))
  }

  /** The process fails fast, or the call is closer to its end, and still nothing is in its way. */
  ghost predicate Advances(s: State, t: State, a: nat) {
    && Own(a, true)(s, t) && a in s.acts && t.acts.Keys == s.acts.Keys
    && (t.crash == NoCrash ==>
          && NoGuest(t, a) && !HeldUp(t, a)
          && var was, now := s.acts[a].frame, t.acts[a].frame;
             || Phase(now) < Phase(was)
             || (Phase(now) == Phase(was) && Left(t.heap, now) < Left(s.heap, was))
             || (Phase(now) == Phase(was) && Left(t.heap, now) == Left(s.heap, was)
                 && Distance(t.heap, now) < Distance(s.heap, was)))
  }

  ghost predicate Free(s: State, a: nat) {
    s.crash == NoCrash && a in s.acts && NoGuest(s, a) && !HeldUp(s, a) && ActOK(s.heap, s.acts, a)
  }

  lemma GuestsStay(s: State, t: State, a: nat)
    requires a in s.acts && a in t.acts && NoGuest(s, a) && t.acts == s.acts[a := s.acts[a].(frame := t.acts[a].frame)]
    requires s.acts[a].frame != Ended
    ensures NoGuest(t, a)
  {
  }

  // ---------- every call goes on ----------

  lemma AddAdvances(s: State, a: nat) returns (t: State)
    requires Free(s, a) && s.acts[a].frame.Add?
    ensures Advances(s, t, a)
  {
    var Add(p, c, seen, pc) := s.acts[a].frame;
    var fp, fc := s.heap[p], s.heap[c];
    match pc {
      case AddLoad =>
        t := Go(s, a, Add(p, c, fp.word, AddLink));
        assert StepAddLoad(s, t, a);
      case AddLink =>
        t := if seen.cont != Null && !fp.traits.isShared && !PassThrough(fc.traits) then s.(crash := AddedTwice)
             else Go(Put(s, c, fc.(link := if IsDone(seen.state) then Null else seen.cont)), a,
                     Add(p, c, seen, AddSwap));
        assert StepAddLink(s, t, a);
      case AddSwap =>
        t := AddSwapAdvances(s, a);
    }
    if t.crash == NoCrash { GuestsStay(s, t, a); }
  }

  lemma AddSwapAdvances(s: State, a: nat) returns (t: State)
    requires Free(s, a) && s.acts[a].frame.Add? && s.acts[a].frame.addPc == AddSwap
    ensures Advances(s, t, a)
  {
    var Add(p, c, seen, _) := s.acts[a].frame;
    var fp, fc := s.heap[p], s.heap[c];
    if fp.word != seen {
      t := Go(s, a, Add(p, c, fp.word, AddLink));
      assert StepAddRetry(s, t, a);
    } else {
      t := if !IsDone(seen.state) then
             Go(s, a, Ended).(heap := s.heap[
               p := fp.(word := Word(seen.state, Ref(c)), chain := [c] + fp.chain, listed := fp.listed + [c])][
               c := fc.(place := Listed(p))])
           else if fc.link != Null then s.(crash := SentinelWhileAdding)
           else Go(s, a, Walk(Ref(p), false, Ref(c), Null, seen, AtNode)).(heap := s.heap[
             p := fp.(word := Word(seen.state, ContinuationInvoked), late := fp.late + [c])][
             c := fc.(place := Walking(a))]);
      assert StepAddSwap(s, t, a);
    }
    if t.crash == NoCrash { GuestsStay(s, t, a); }
  }

  lemma CheckAdvances(s: State, a: nat) returns (t: State)
    requires Free(s, a) && s.acts[a].frame.Update? && s.acts[a].frame.updatePc == Check
    ensures Advances(s, t, a)
  {
    var Update(r, f, owner, seen, next, _) := s.acts[a].frame;
    var d := Decide(r, s.heap[f].traits, seen.state, s.heap[f].link == Null, Sync(s, a, f));
    t := if d.MoveTo? then Go(s, a, Update(r, f, owner, seen, d.next, Swap))
         else if d.Retry? then Go(s, a, Update(r, f, owner, seen, next, Load))
         else if r == FinishError then s.(crash := FailedUnexpectedly)
         else if r == Request.StartAwaiting then s.(crash := AwaitedTooLate)
         else Go(s, a, Ended);
    assert StepCheck(s, t, a, true);
    if t.crash == NoCrash { GuestsStay(s, t, a); }
  }

  lemma SwapAdvances(s: State, a: nat) returns (t: State)
    requires Free(s, a) && s.acts[a].frame.Update? && s.acts[a].frame.updatePc == Swap
    ensures Advances(s, t, a)
  {
    var Update(r, f, owner, seen, next, _) := s.acts[a].frame;
    var fut := s.heap[f];
    if fut.word != seen {
      t := Go(s, a, Update(r, f, owner, fut.word, next, Check));
      assert StepSwapRetry(s, t, a);
    } else {
      var swapped := fut.(word := Swapped(seen, next));
      t := if IsDone(next) then
             Go(Put(s, f, swapped.(settled := fut.settled + 1, walker := Ref(a), setter := Null)),
                a, Cleanup(f, seen.cont, seen.cont == ContinuationInvoked))
           else if r == StartSetValue then
             Go(Put(s, f, swapped.(setter := Ref(a))), a, Update(SetSuccess, f, true, seen, next, Load))
           else if r == StartSetError then
             Go(Put(s, f, swapped.(setter := Ref(a))), a, Update(FinishError, f, true, seen, next, Load))
           else if r == SetInvoking then
             Go(Put(s, f, swapped.(entered := fut.entered + 1)), a, Body(f))
           else Go(Put(s, f, swapped), a, Ended);
      assert StepSwap(s, t, a);
    }
    GuestsStay(s, t, a);
  }

  lemma UpdateAdvances(s: State, a: nat) returns (t: State)
    requires Free(s, a) && s.acts[a].frame.Update?
    ensures Advances(s, t, a)
  {
    var Update(r, f, owner, _, next, pc) := s.acts[a].frame;
    match pc {
      case Load =>
        t := Go(s, a, Update(r, f, owner, s.heap[f].word, next, Check));
        assert StepLoad(s, t, a);
        GuestsStay(s, t, a);
      case Check => t := CheckAdvances(s, a);
      case Swap => t := SwapAdvances(s, a);
    }
  }

  lemma CleanupAdvances(s: State, a: nat) returns (t: State)
    requires Free(s, a) && s.acts[a].frame.Cleanup?
    ensures Advances(s, t, a)
  {
    var Cleanup(f, taken, _) := s.acts[a].frame;
    var fut := s.heap[f];
    var keeps := fut.word.state == Succeeded && fut.traits.useParentValue;
    t := Go(Put(s, f, fut.(link := if keeps then fut.link else Null)), a,
            Walk(Ref(f), true, taken, Null, fut.word, AtNode));
    assert StepCleanup(s, t, a);
    GuestsStay(s, t, a);
  }

  lemma NodeAdvances(s: State, a: nat) returns (t: State)
    requires Free(s, a) && s.acts[a].frame.Walk? && s.acts[a].frame.walkPc == AtNode
    requires var u := s.acts[a].frame;
             u.isList && u.node != Null ==> NodeOK(s.heap, u.source.id, s.heap[u.source.id].chain, 0)
    ensures Advances(s, t, a)
  {
    var Walk(src, isList, node, cursor, seen, _) := s.acts[a].frame;
    if node == Null {
      t := Go(s, a, Ended);
    } else {
      var c := node.id;
      var taken := if isList then s.heap[src.id := Taken(s.heap[src.id], c)] else s.heap;
      t := Go(s, a, Walk(src, isList, node, cursor, seen, PostLoad)).(heap :=
             taken[c := taken[c].(place := Handed, handed := taken[c].handed + 1, handler := Ref(a))]);
    }
    assert StepNode(s, t, a);
    GuestsStay(s, t, a);
  }

  /** TryPostInternal up to its swap. */
  lemma PostCheckAdvances(s: State, a: nat) returns (t: State)
    requires Free(s, a) && s.acts[a].frame.Walk? && s.acts[a].frame.walkPc in {PostLoad, PostCheck}
    ensures Advances(s, t, a)
  {
    var Walk(src, isList, node, cursor, seen, pc) := s.acts[a].frame;
    var fut := s.heap[node.id];
    if pc == PostLoad {
      t := Go(s, a, Walk(src, isList, node, cursor, fut.word, PostCheck));
      assert StepPostLoad(s, t, a);
    } else {
      t := if seen.state == Pending then Go(s, a, Walk(src, isList, node, cursor, seen, PostSwap))
           else if fut.link != Null then s.(crash := LinkOutsidePending)
           else if src == Null then s.(crash := PostedTooLate)
           else Go(s, a, Walk(src, isList, Null, Null, seen, AtNode));
      assert StepPostCheck(s, t, a);
    }
    if t.crash == NoCrash { GuestsStay(s, t, a); }
  }

  lemma PostSwapAdvances(s: State, a: nat) returns (t: State)
    requires Free(s, a) && s.acts[a].frame.Walk? && s.acts[a].frame.walkPc == PostSwap
    ensures Advances(s, t, a)
  {
    var Walk(src, isList, node, cursor, seen, _) := s.acts[a].frame;
    var fut := s.heap[node.id];
    if fut.word == seen {
      t := Go(Put(s, node.id, fut.(word := Swapped(seen, Posting))), a,
              Walk(src, isList, node, cursor, seen, TakeNext));
      assert StepPostSwap(s, t, a);
    } else {
      t := Go(s, a, Walk(src, isList, node, cursor, fut.word, PostCheck));
      assert StepPostRetry(s, t, a);
    }
    GuestsStay(s, t, a);
  }

  /** The link. */
  lemma TakeNextAdvances(s: State, a: nat) returns (t: State)
    requires Free(s, a) && s.acts[a].frame.Walk? && s.acts[a].frame.walkPc == TakeNext
    ensures Advances(s, t, a)
  {
    var Walk(src, isList, node, cursor, seen, _) := s.acts[a].frame;
    var fut := s.heap[node.id];
    t := if src == Null && fut.link != Null then s.(crash := ListWithoutParent)
         else Go(Put(s, node.id, fut.(link := Null)), a, Walk(src, isList, node, fut.link, seen, SetLink));
    assert StepTakeNext(s, t, a);
    if t.crash == NoCrash { GuestsStay(s, t, a); }
  }

  lemma SetLinkAdvances(s: State, a: nat) returns (t: State)
    requires Free(s, a) && s.acts[a].frame.Walk? && s.acts[a].frame.walkPc == SetLink
    ensures Advances(s, t, a)
  {
    var Walk(src, isList, node, cursor, seen, _) := s.acts[a].frame;
    if src == Null {
      t := Go(s, a, Walk(src, isList, node, cursor, seen, Callback));
    } else {
      var fut := s.heap[node.id];
      var keeps := fut.traits.callTaskInvokeOnError || s.heap[src.id].word.state == Succeeded;
      t := Go(Put(s, node.id, fut.(link := if keeps then src else fut.link)), a,
              Walk(src, isList, node, cursor, seen, Callback));
    }
    assert StepSetLink(s, t, a);
    GuestsStay(s, t, a);
  }

  /** The callback, and TrySetPosted. */
  lemma CallbackAdvances(s: State, a: nat) returns (t: State)
    requires Free(s, a) && s.acts[a].frame.Walk? && s.acts[a].frame.walkPc == Callback
    ensures Advances(s, t, a)
  {
    var Walk(src, isList, node, cursor, seen, pc) := s.acts[a].frame;
    t := Go(s, a, if s.heap[node.id].traits.hasTaskPost then Walk(src, isList, node, cursor, seen, PostedLoad)
                  else Walk(src, isList, cursor, Null, seen, AtNode));
    assert StepCallbackEnds(s, t, a);
    GuestsStay(s, t, a);
  }

  lemma PostedLoadAdvances(s: State, a: nat) returns (t: State)
    requires Free(s, a) && s.acts[a].frame.Walk? && s.acts[a].frame.walkPc == PostedLoad
    ensures Advances(s, t, a)
  {
    var Walk(src, isList, node, cursor, seen, pc) := s.acts[a].frame;
    t := Go(s, a, Walk(src, isList, node, cursor, s.heap[node.id].word, PostedCheck));
    assert StepPosted(s, t, a);
    GuestsStay(s, t, a);
  }

  lemma PostedCheckAdvances(s: State, a: nat) returns (t: State)
    requires Free(s, a) && s.acts[a].frame.Walk? && s.acts[a].frame.walkPc == PostedCheck
    ensures Advances(s, t, a)
  {
    var Walk(src, isList, node, cursor, seen, _) := s.acts[a].frame;
    t := Go(s, a, if seen.state == Posting then Walk(src, isList, node, cursor, seen, PostedSwap)
                  else Walk(src, isList, cursor, Null, seen, AtNode));
    assert StepPosted(s, t, a);
    GuestsStay(s, t, a);
  }

  lemma PostedSwapWins(s: State, a: nat) returns (t: State)
    requires Free(s, a) && s.acts[a].frame.Walk? && s.acts[a].frame.walkPc == PostedSwap
    requires s.heap[s.acts[a].frame.node.id].word == s.acts[a].frame.seen
    ensures Advances(s, t, a)
  {
    var Walk(src, isList, node, cursor, seen, _) := s.acts[a].frame;
    t := Go(Put(s, node.id, s.heap[node.id].(word := Swapped(seen, Posted))), a,
            Walk(src, isList, cursor, Null, seen, AtNode));
    assert StepPostedSwap(s, t, a);
    GuestsStay(s, t, a);
  }

  lemma PostedSwapFails(s: State, a: nat) returns (t: State)
    requires Free(s, a) && s.acts[a].frame.Walk? && s.acts[a].frame.walkPc == PostedSwap
    requires s.heap[s.acts[a].frame.node.id].word != s.acts[a].frame.seen
    ensures Advances(s, t, a)
  {
    var Walk(src, isList, node, cursor, _, _) := s.acts[a].frame;
    t := Go(s, a, Walk(src, isList, node, cursor, s.heap[node.id].word, PostedCheck));
    assert StepPostedSwap(s, t, a);
    GuestsStay(s, t, a);
  }

  lemma WalkAdvances(s: State, a: nat) returns (t: State)
    requires Inv(s) && Free(s, a) && s.acts[a].frame.Walk?
    ensures Advances(s, t, a)
  {
    var u := s.acts[a].frame;
    match u.walkPc {
      case AtNode =>
        if u.isList && u.node != Null {
          assert FutOK(s.heap, s.acts, u.source.id);
          assert NodeOK(s.heap, u.source.id, s.heap[u.source.id].chain, 0);
        }
        t := NodeAdvances(s, a);
      case PostLoad => t := PostCheckAdvances(s, a);
      case PostCheck => t := PostCheckAdvances(s, a);
      case PostSwap => t := PostSwapAdvances(s, a);
      case TakeNext => t := TakeNextAdvances(s, a);
      case SetLink => t := SetLinkAdvances(s, a);
      case Callback => t := CallbackAdvances(s, a);
      case PostedLoad => t := PostedLoadAdvances(s, a);
      case PostedCheck => t := PostedCheckAdvances(s, a);
      case PostedSwap =>
        if s.heap[u.node.id].word == u.seen { t := PostedSwapWins(s, a); } else { t := PostedSwapFails(s, a); }
    }
  }

  lemma CallAdvances(s: State, a: nat) returns (t: State)
    requires Inv(s) && Free(s, a) && s.acts[a].frame != Ended
    ensures Advances(s, t, a)
  {
    match s.acts[a].frame {
      case Add(_, _, _, _) => t := AddAdvances(s, a);
      case Update(_, _, _, _, _, _) => t := UpdateAdvances(s, a);
      case Cleanup(_, _, _) => t := CleanupAdvances(s, a);
      case Walk(_, _, _, _, _, _) => t := WalkAdvances(s, a);
      case Body(_) =>
        t := Go(s, a, Ended);
        assert StepBodyEnds(s, t, a);
        GuestsStay(s, t, a);
    }
  }

  /** From every state of the invariant, a call with no other call left in its callback, which need not wait for a
      hand-over by others or for their claim, ends by its own steps alone, or fails fast. */
  lemma {:induction false} EndsAlone(s: State, a: nat) returns (t: State)
    requires Inv(s) && Free(s, a)
    ensures Leads(Own(a, true), s, t) && (t.crash == NoCrash ==> a in t.acts && t.acts[a].frame == Ended)
    decreases Phase(s.acts[a].frame), Left(s.heap, s.acts[a].frame), Distance(s.heap, s.acts[a].frame)
  {
    Stays(Own(a, true), s);
    t := s;
    if s.acts[a].frame != Ended {
      var u := CallAdvances(s, a);
      Then(Own(a, true), s, s, u);
      t := u;
      if u.crash == NoCrash {
        ContinuePreserves(s, u, a);
        assert ActOK(u.heap, u.acts, a);
        t := EndsAlone(u, a);
        Joins(Own(a, true), s, u, t);
      }
    }
  }

  /** In every run. */
  lemma EveryCallCanEnd(run: seq<State>, i: nat, a: nat)
    requires Run(run, CLAIMED) && i < |run| && run[i].crash == NoCrash && a in run[i].acts
    requires NoGuest(run[i], a) && !HeldUp(run[i], a)
    ensures exists t :: Leads(Steps(CLAIMED), run[i], t)
                        && (t.crash == NoCrash ==> a in t.acts && t.acts[a].frame == Ended)
  {
    RunInv(run, i);
    assert ActOK(run[i].heap, run[i].acts, a);
    var t := EndsAlone(run[i], a);
    Widens(Own(a, true), Steps(CLAIMED), run[i], t);
  }
}
