/** What one call does when nobody gets in its way: when it is accepted, when it is refused, what it waits for, and that
    it comes to an end. */
module FutureCalls {
  import opened FutureCore
  import opened FutureProtocol
  import opened FutureInvariant
  import opened FutureTheorems
  import opened Paths

  /** The steps of call a alone. */
  ghost function Own(a: nat, claims: bool): (State, State) -> bool {
    (s: State, t: State) => s.crash == NoCrash && Continue(s, t, a, claims)
  }

  // ---------- what a caller can expect ----------

  /** The result is the caller's to give: nothing is to be invoked first, or the callback is running and this is it, or
      it has left the result for later. */
  predicate TakesResult(t: Traits, state: FutureState, inCallback: bool) {
    || (state == Pending && (t.isMultiPost || !t.hasTaskInvoke))
    || (state == Invoking && inCallback)
    || state == Awaiting
  }

  /** Only an inline pass-through future succeeds without being invoked, in its own Posting. */
  predicate Accepts(r: Request, t: Traits, state: FutureState, linkIsNull: bool, inCallback: bool) {
    match r
    case StartSetValue => t.valueSize > 0 && TakesResult(t, state, inCallback)
    case SetSuccess =>
      || (t.valueSize == 0 && TakesResult(t, state, inCallback) && !(state == Pending && t.useParentValue))
      || (state == Posting && inCallback && t.useParentValue && !t.hasTaskInvoke)
    case StartSetError =>
      || (state == Pending && linkIsNull) || state == Posted || state == Awaiting
      || (inCallback && state in {Posting, Invoking})
    case SetInvoking => state == Posted || (inCallback && state == Posting)
    case StartAwaiting => state == Invoking
    case _ => false
  }

  /** Somebody else is just handing the future over. */
  predicate MustWait(r: Request, state: FutureState, inCallback: bool) {
    r in {StartSetError, SetInvoking} && state == Posting && !inCallback
  }

  /** Someone else's claim, which only a careless caller goes on from. */
  predicate Claimed(r: Request, state: FutureState) {
    r == SetSuccess && state == SettingResult
  }

  const CALLS := {StartSetValue, SetSuccess, StartSetError, SetInvoking, Request.StartAwaiting}

  function FirstStop(r: Request): FutureState {
    match r
    case SetSuccess => Succeeded
    case SetInvoking => Invoking
    case StartAwaiting => Awaiting
    case _ => SettingResult
  }

  lemma Decides(r: Request, t: Traits, state: FutureState, linkIsNull: bool, sync: bool)
    requires ValidTraits(t) && r in CALLS && !Claimed(r, state)
    ensures Decide(r, t, state, linkIsNull, sync) ==
              if Accepts(r, t, state, linkIsNull, sync) then MoveTo(FirstStop(r))
              else if MustWait(r, state, sync) then Retry
              else Refuse
  {
  }

  // ---------- the call runs alone ----------

  /** Call a is about to begin with r on f. */
  ghost predicate Begun(s: State, a: nat, r: Request, f: nat) {
    && s.crash == NoCrash && a in s.acts && f in s.heap && ValidTraits(s.heap[f].traits) && r in CALLS
    && s.acts[a].frame.Update? && !s.acts[a].frame.owner && s.acts[a].frame.updatePc == Load
    && s.acts[a].frame.req == r && s.acts[a].frame.fut == f
  }

  ghost predicate AcceptedIn(s: State, a: nat, r: Request, f: nat)
    requires a in s.acts && f in s.heap
  {
    Accepts(r, s.heap[f].traits, s.heap[f].word.state, s.heap[f].link == Null, Sync(s, a, f))
  }

  /** f after a settled it. */
  function Settled(fut: Fut, next: FutureState, a: nat): Fut {
    fut.(word := Swapped(fut.word, next), settled := fut.settled + 1, walker := Ref(a), setter := Null)
  }

  /** What f is when the call has taken effect, and where the call stands. */
  function Effect(r: Request, fut: Fut, a: nat): Fut {
    match r
    case SetInvoking => fut.(word := Swapped(fut.word, Invoking), entered := fut.entered + 1)
    case StartAwaiting => fut.(word := Swapped(fut.word, Awaiting))
    case StartSetError => Settled(fut, Failed, a)
    case _ => Settled(fut, Succeeded, a)
  }

  function After(r: Request, f: nat, word: Word): Frame {
    match r
    case SetInvoking => Body(f)
    case StartAwaiting => Ended
    case _ => Cleanup(f, word.cont, word.cont == ContinuationInvoked)
  }

  /** Load and decision. */
  lemma Looks(s: State, a: nat, r: Request, f: nat, claims: bool) returns (t: State)
    requires Begun(s, a, r, f) && AcceptedIn(s, a, r, f)
    ensures Leads(Own(a, claims), s, t)
    ensures t == Go(s, a, Update(r, f, false, s.heap[f].word, FirstStop(r), Swap))
  {
    var word := s.heap[f].word;
    Decides(r, s.heap[f].traits, word.state, s.heap[f].link == Null, Sync(s, a, f));
    var loaded := Go(s, a, Update(r, f, false, word, s.acts[a].frame.next, Check));
    t := Go(s, a, Update(r, f, false, word, FirstStop(r), Swap));
    assert StepLoad(s, loaded, a);
    Stays(Own(a, claims), s);
    Then(Own(a, claims), s, s, loaded);
    assert Sync(loaded, a, f) == Sync(s, a, f) && t == Go(loaded, a, t.acts[a].frame);
    assert StepCheck(loaded, t, a, claims);
    Then(Own(a, claims), s, loaded, t);
  }

  /** The second half of TrySetValue or TrySetError. */
  lemma Finishes(s: State, a: nat, f: nat, second: Request, claims: bool) returns (t: State)
    requires s.crash == NoCrash && a in s.acts && f in s.heap && s.heap[f].word.state == SettingResult
    requires s.acts[a].frame.Update? && s.acts[a].frame == Update(second, f, true, s.acts[a].frame.seen,
        s.acts[a].frame.next, Load)
    requires second in {SetSuccess, FinishError}
    ensures Leads(Own(a, claims), s, t)
    ensures var word := s.heap[f].word;
            t == Go(Put(s, f, Settled(s.heap[f], if second == SetSuccess then Succeeded else Failed, a)), a,
                    Cleanup(f, word.cont, word.cont == ContinuationInvoked))
  {
    var word, u := s.heap[f].word, s.acts[a].frame;
    var next := if second == SetSuccess then Succeeded else Failed;
    var loaded := Go(s, a, Update(second, f, true, word, u.next, Check));
    var near := Go(s, a, Update(second, f, true, word, next, Swap));
    t := Go(Put(s, f, Settled(s.heap[f], next, a)), a, Cleanup(f, word.cont, word.cont == ContinuationInvoked));
    assert StepLoad(s, loaded, a);
    Stays(Own(a, claims), s);
    Then(Own(a, claims), s, s, loaded);
    assert near == Go(loaded, a, near.acts[a].frame);
    assert StepCheck(loaded, near, a, claims);
    Then(Own(a, claims), s, loaded, near);
    assert t == Go(Put(near, f, t.heap[f]), a, t.acts[a].frame);
    assert StepSwap(near, t, a);
    Then(Own(a, claims), near, near, t) by { Stays(Own(a, claims), near); }
    Joins(Own(a, claims), s, near, t);
  }

  /** TrySetValue and TrySetError claim the future first. */
  lemma Claims(s: State, a: nat, r: Request, f: nat, claims: bool) returns (t: State)
    requires Begun(s, a, r, f) && AcceptedIn(s, a, r, f) && r in {StartSetValue, StartSetError}
    ensures Leads(Own(a, claims), s, t)
    ensures var word := s.heap[f].word;
            var second := if r == StartSetValue then SetSuccess else FinishError;
            t == Go(Put(s, f, s.heap[f].(word := Swapped(word, SettingResult), setter := Ref(a))), a,
                    Update(second, f, true, word, SettingResult, Load))
  {
    var near := Looks(s, a, r, f, claims);
    var word := s.heap[f].word;
    var second := if r == StartSetValue then SetSuccess else FinishError;
    t := Go(Put(s, f, s.heap[f].(word := Swapped(word, SettingResult), setter := Ref(a))), a,
            Update(second, f, true, word, SettingResult, Load));
    assert t == Go(Put(near, f, t.heap[f]), a, t.acts[a].frame);
    assert StepSwap(near, t, a);
    Then(Own(a, claims), s, near, t);
  }

  /** An accepted call has its effect: TrySetValue and TrySetSuccess succeed, TrySetError fails the future,
      TrySetInvoking enters the task, StartAwaiting leaves the result for later. */
  lemma AcceptedTakesEffect(s: State, a: nat, r: Request, f: nat, claims: bool) returns (t: State)
    requires Begun(s, a, r, f) && AcceptedIn(s, a, r, f)
    ensures Leads(Own(a, claims), s, t)
    ensures t == Go(Put(s, f, Effect(r, s.heap[f], a)), a, After(r, f, s.heap[f].word))
  {
    if r == StartSetValue || r == StartSetError {
      var claimed := Claims(s, a, r, f, claims);
      t := Finishes(claimed, a, f, if r == StartSetValue then SetSuccess else FinishError, claims);
      Joins(Own(a, claims), s, claimed, t);
      assert t == Go(Put(s, f, t.heap[f]), a, t.acts[a].frame);
    } else {
      var near := Looks(s, a, r, f, claims);
      t := Go(Put(s, f, Effect(r, s.heap[f], a)), a, After(r, f, s.heap[f].word));
      assert t == Go(Put(near, f, t.heap[f]), a, t.acts[a].frame);
      assert StepSwap(near, t, a);
      Then(Own(a, claims), s, near, t);
    }
  }

  /** A call that is not accepted, at any point of its own run: it has changed nothing, and it is over only if it need
      not wait. */
  ghost predicate ChangedNothing(t: State, s: State, a: nat, r: Request, f: nat)
    requires a in s.acts && f in s.heap
  {
    && t.heap == s.heap && a in t.acts && t.acts == s.acts[a := t.acts[a]] && t.acts[a].host == s.acts[a].host
    && match t.acts[a].frame {
         case Ended => !MustWait(r, s.heap[f].word.state, Sync(s, a, f))
         case Update(q, g, owner, seen, _, pc) =>
           && q == r && g == f && !owner && pc != Swap && (pc == Check ==> seen == s.heap[f].word)
           && (t.crash == NoCrash || t.crash == AwaitedTooLate)
           && (MustWait(r, s.heap[f].word.state, Sync(s, a, f)) ==> t.crash == NoCrash)
         case _ => false
       }
  }

  lemma StillNothing(s: State, t: State, u: State, a: nat, r: Request, f: nat)
    requires Begun(s, a, r, f) && !AcceptedIn(s, a, r, f) && !Claimed(r, s.heap[f].word.state)
    requires s.acts[a].host != Ref(a)
    requires ChangedNothing(t, s, a, r, f) && t.crash == NoCrash && Continue(t, u, a, true)
    ensures ChangedNothing(u, s, a, r, f)
  {
    assert Sync(t, a, f) == Sync(s, a, f);
    Decides(r, s.heap[f].traits, s.heap[f].word.state, s.heap[f].link == Null, Sync(s, a, f));
  }

  lemma {:induction false} Unchanged(path: seq<State>, i: nat, a: nat, r: Request, f: nat)
    requires Path(Own(a, true), path) && i < |path|
    requires Begun(path[0], a, r, f) && !AcceptedIn(path[0], a, r, f) && !Claimed(r, path[0].heap[f].word.state)
    requires path[0].acts[a].host != Ref(a)
    ensures ChangedNothing(path[i], path[0], a, r, f)
  {
    if i > 0 {
      Unchanged(path, i - 1, a, r, f);
      assert StepOf(Own(a, true), path, i - 1);
      StillNothing(path[0], path[i - 1], path[i], a, r, f);
    }
  }

  /** A refused call comes to its end without a trace, but for StartAwaiting, which fails fast. */
  lemma RefusedEnds(s: State, a: nat, r: Request, f: nat) returns (t: State)
    requires Begun(s, a, r, f) && !AcceptedIn(s, a, r, f) && !Claimed(r, s.heap[f].word.state)
    requires !MustWait(r, s.heap[f].word.state, Sync(s, a, f))
    ensures Leads(Own(a, true), s, t) && t.heap == s.heap
    ensures if r == Request.StartAwaiting then t.crash == AwaitedTooLate else t == Go(s, a, Ended)
  {
    var word := s.heap[f].word;
    Decides(r, s.heap[f].traits, word.state, s.heap[f].link == Null, Sync(s, a, f));
    var loaded := Go(s, a, Update(r, f, false, word, s.acts[a].frame.next, Check));
    assert StepLoad(s, loaded, a);
    Stays(Own(a, true), s);
    Then(Own(a, true), s, s, loaded);
    t := if r == Request.StartAwaiting then loaded.(crash := AwaitedTooLate) else Go(loaded, a, Ended);
    assert Sync(loaded, a, f) == Sync(s, a, f);
    assert StepCheck(loaded, t, a, true);
    Then(Own(a, true), s, loaded, t);
    if r != Request.StartAwaiting { assert t == Go(s, a, Ended); }
  }

  /** In every state, a call that runs alone changes something if and only if it is accepted there. If it is, it has its
      effect; if not, it ends all the same, unless the future is just being handed over: then it waits for that. */
  lemma OnlyAcceptedCallsWork(s: State, a: nat, r: Request, f: nat)
    requires Begun(s, a, r, f) && !Claimed(r, s.heap[f].word.state) && s.acts[a].host != Ref(a)
    ensures AcceptedIn(s, a, r, f) <==> exists t :: Leads(Own(a, true), s, t) && t.heap != s.heap
    ensures AcceptedIn(s, a, r, f) ==>
              exists t :: Leads(Own(a, true), s, t) && f in t.heap && t.heap[f] == Effect(r, s.heap[f], a)
    ensures MustWait(r, s.heap[f].word.state, Sync(s, a, f)) <==>
              forall t :: Leads(Own(a, true), s, t) ==> t.crash == NoCrash && a in t.acts && t.acts[a].frame.Update?
  {
    if AcceptedIn(s, a, r, f) {
      var t := AcceptedTakesEffect(s, a, r, f, true);
      EffectShows(r, s.heap[f], a);
    } else {
      forall t | Leads(Own(a, true), s, t) ensures ChangedNothing(t, s, a, r, f) {
        var path :| Path(Own(a, true), path) && path[0] == s && path[|path| - 1] == t;
        Unchanged(path, |path| - 1, a, r, f);
      }
      if !MustWait(r, s.heap[f].word.state, Sync(s, a, f)) { var t := RefusedEnds(s, a, r, f); }
    }
  }

  lemma EffectShows(r: Request, fut: Fut, a: nat)
    requires r in CALLS && (r == Request.StartAwaiting ==> fut.word.state == Invoking)
    ensures Effect(r, fut, a) != fut
  {
    assert Effect(r, fut, a).settled != fut.settled || Effect(r, fut, a).word.state != fut.word.state
        || Effect(r, fut, a).entered != fut.entered;
  }

  // ---------- AddContinuation alone ----------

  /** One continuation too many for a future that is not shared. */
  predicate TooMany(fp: Fut, fc: Fut) {
    fp.word.cont != Null && !fp.traits.isShared && !PassThrough(fc.traits)
  }

  /** The parent and the continuation afterwards: in front of the list of a parent that is not done, in the hands of the
      adder otherwise. */
  function Added(heap: Heap, a: nat, p: nat, c: nat): Heap
    requires p in heap && c in heap
  {
    var fp, fc := heap[p], heap[c];
    if IsDone(fp.word.state) then
      heap[p := fp.(word := Word(fp.word.state, ContinuationInvoked), late := fp.late + [c])][
           c := fc.(link := Null, place := Walking(a))]
    else
      heap[p := fp.(word := Word(fp.word.state, Ref(c)), chain := [c] + fp.chain, listed := fp.listed + [c])][
           c := fc.(link := fp.word.cont, place := Listed(p))]
  }

  /** AddContinuation, alone: it fails fast exactly when the continuation is one too many. */
  lemma AddTakesEffect(s: State, a: nat, p: nat, c: nat, claims: bool) returns (t: State)
    requires s.crash == NoCrash && a in s.acts && p in s.heap && c in s.heap && p != c && s.acts[a].frame.Add?
    requires s.acts[a].frame == Add(p, c, s.acts[a].frame.seen, AddLoad)
    ensures Leads(Own(a, claims), s, t)
    ensures if TooMany(s.heap[p], s.heap[c]) then t.crash == AddedTwice && t.heap == s.heap
            else
              t == Go(s, a, if IsDone(s.heap[p].word.state)
                            then Walk(Ref(p), false, Ref(c), Null, s.heap[p].word, AtNode)
                            else Ended).(heap := Added(s.heap, a, p, c))
  {
    var fp, fc := s.heap[p], s.heap[c];
    var loaded := Go(s, a, Add(p, c, fp.word, AddLink));
    assert StepAddLoad(s, loaded, a);
    Stays(Own(a, claims), s);
    Then(Own(a, claims), s, s, loaded);
    if TooMany(fp, fc) {
      t := loaded.(crash := AddedTwice);
      assert StepAddLink(loaded, t, a);
      Then(Own(a, claims), s, loaded, t);
    } else {
      t := Publishes(s, loaded, a, p, c, claims);
      Joins(Own(a, claims), s, loaded, t);
    }
  }

  lemma Publishes(s: State, loaded: State, a: nat, p: nat, c: nat, claims: bool) returns (t: State)
    requires s.crash == NoCrash && a in s.acts && p in s.heap && c in s.heap && p != c
    requires loaded == Go(s, a, Add(p, c, s.heap[p].word, AddLink)) && !TooMany(s.heap[p], s.heap[c])
    ensures Leads(Own(a, claims), loaded, t)
    ensures t == Go(s, a, if IsDone(s.heap[p].word.state) then Walk(Ref(p), false, Ref(c), Null, s.heap[p].word, AtNode)
                          else Ended).(heap := Added(s.heap, a, p, c))
  {
    var fp, fc := s.heap[p], s.heap[c];
    var link := if IsDone(fp.word.state) then Null else fp.word.cont;
    var linked := Go(Put(s, c, fc.(link := link)), a, Add(p, c, fp.word, AddSwap));
    assert linked == Go(Put(loaded, c, linked.heap[c]), a, linked.acts[a].frame);
    assert StepAddLink(loaded, linked, a);
    Stays(Own(a, claims), loaded);
    Then(Own(a, claims), loaded, loaded, linked);
    t := Go(s, a, if IsDone(fp.word.state) then Walk(Ref(p), false, Ref(c), Null, fp.word, AtNode)
                  else Ended).(heap := Added(s.heap, a, p, c));
    assert t == Go(linked, a, t.acts[a].frame).(heap := linked.heap[p := t.heap[p]][c := t.heap[c]]);
    assert StepAddSwap(linked, t, a);
    Then(Own(a, claims), loaded, linked, t);
  }

  // ---------- TryPostInternal alone ----------

  /** Call a is about to hand c over on behalf of p. */
  ghost predicate Handing(s: State, a: nat, p: nat, c: nat) {
    && s.crash == NoCrash && a in s.acts && p in s.heap && c in s.heap && p != c
    && IsDone(s.heap[p].word.state) && s.heap[c].word.state == Pending
    && s.acts[a].frame.Walk? && s.acts[a].frame.source == Ref(p) && s.acts[a].frame.node == Ref(c)
    && s.acts[a].frame.walkPc == AtNode
  }

  /** p and c when c is in its callback: it has left the list, is Posting, and its link is the parent, if it may take
      the parent's value or is to be invoked whatever the parent's outcome. */
  function HandedOver(heap: Heap, a: nat, p: nat, c: nat, isList: bool): Heap
    requires p in heap && c in heap
  {
    var fp, fc := heap[p], heap[c];
    heap[p := if isList then Taken(fp, c) else fp][
         c := fc.(word := Word(Posting, fc.word.cont), place := Handed, handed := fc.handed + 1, handler := Ref(a),
                  link := if fc.traits.callTaskInvokeOnError || fp.word.state == Succeeded then Ref(p) else Null)]
  }

  /** It takes c. */
  lemma TakesNode(s: State, a: nat, p: nat, c: nat, claims: bool) returns (t: State)
    requires Handing(s, a, p, c)
    ensures Leads(Own(a, claims), s, t)
    ensures var u, fp, fc := s.acts[a].frame, s.heap[p], s.heap[c];
            t == Go(s, a, Walk(Ref(p), u.isList, Ref(c), u.cursor, u.seen, PostLoad)).(heap := s.heap[
                   p := if u.isList then Taken(fp, c) else fp][
                   c := fc.(place := Handed, handed := fc.handed + 1, handler := Ref(a))])
  {
    var u, fp, fc := s.acts[a].frame, s.heap[p], s.heap[c];
    t := Go(s, a, Walk(Ref(p), u.isList, Ref(c), u.cursor, u.seen, PostLoad)).(heap := s.heap[
           p := if u.isList then Taken(fp, c) else fp][
           c := fc.(place := Handed, handed := fc.handed + 1, handler := Ref(a))]);
    assert s.heap[p := s.heap[p]] == s.heap;
    assert StepNode(s, t, a);
    Stays(Own(a, claims), s);
    Then(Own(a, claims), s, s, t);
  }

  /** It swaps it to Posting. */
  lemma Posts(s: State, a: nat, c: nat, claims: bool) returns (t: State)
    requires s.crash == NoCrash && a in s.acts && c in s.heap && s.heap[c].word.state == Pending
    requires s.acts[a].frame.Walk? && s.acts[a].frame.node == Ref(c) && s.acts[a].frame.walkPc == PostLoad
    ensures Leads(Own(a, claims), s, t)
    ensures var u, word := s.acts[a].frame, s.heap[c].word;
            t == Go(Put(s, c, s.heap[c].(word := Word(Posting, word.cont))), a,
                    Walk(u.source, u.isList, Ref(c), u.cursor, word, TakeNext))
  {
    var u, word := s.acts[a].frame, s.heap[c].word;
    var looked := Go(s, a, Walk(u.source, u.isList, Ref(c), u.cursor, word, PostCheck));
    var near := Go(looked, a, Walk(u.source, u.isList, Ref(c), u.cursor, word, PostSwap));
    t := Go(Put(near, c, s.heap[c].(word := Word(Posting, word.cont))), a,
            Walk(u.source, u.isList, Ref(c), u.cursor, word, TakeNext));
    Stays(Own(a, claims), s);
    assert StepPostLoad(s, looked, a);
    Then(Own(a, claims), s, s, looked);
    assert StepPostCheck(looked, near, a);
    Then(Own(a, claims), s, looked, near);
    assert StepPostSwap(near, t, a);
    Then(Own(a, claims), s, near, t);
    assert t == Go(Put(s, c, t.heap[c]), a, t.acts[a].frame);
  }

  /** It takes the successor from the link, and puts the parent there. */
  lemma TakesLink(s: State, a: nat, p: nat, c: nat, claims: bool) returns (t: State)
    requires s.crash == NoCrash && a in s.acts && p in s.heap && c in s.heap && p != c && IsDone(s.heap[p].word.state)
    requires s.acts[a].frame.Walk? && s.acts[a].frame.source == Ref(p) && s.acts[a].frame.node == Ref(c)
    requires s.acts[a].frame.walkPc == TakeNext
    ensures Leads(Own(a, claims), s, t)
    ensures var u, fc := s.acts[a].frame, s.heap[c];
            var keeps := fc.traits.callTaskInvokeOnError || s.heap[p].word.state == Succeeded;
            t == Go(Put(s, c, fc.(link := if keeps then Ref(p) else Null)), a,
                    Walk(Ref(p), u.isList, Ref(c), fc.link, u.seen, Callback))
  {
    var u, fc := s.acts[a].frame, s.heap[c];
    var keeps := fc.traits.callTaskInvokeOnError || s.heap[p].word.state == Succeeded;
    var taken := Go(Put(s, c, fc.(link := Null)), a, Walk(Ref(p), u.isList, Ref(c), fc.link, u.seen, SetLink));
    t := Go(Put(s, c, fc.(link := if keeps then Ref(p) else Null)), a,
            Walk(Ref(p), u.isList, Ref(c), fc.link, u.seen, Callback));
    assert StepTakeNext(s, taken, a);
    Stays(Own(a, claims), s);
    Then(Own(a, claims), s, s, taken);
    assert t == Go(Put(taken, c, t.heap[c]), a, t.acts[a].frame);
    assert StepSetLink(taken, t, a);
    Then(Own(a, claims), s, taken, t);
  }

  /** TryPostInternal brings a Pending continuation to its callback, where its link shows what it may take from its
      parent, and keeps the successor it had in the list. */
  lemma HandsOver(s: State, a: nat, p: nat, c: nat, claims: bool) returns (t: State)
    requires Handing(s, a, p, c)
    ensures Leads(Own(a, claims), s, t)
    ensures var u := s.acts[a].frame;
            t == Go(s, a, Walk(Ref(p), u.isList, Ref(c), s.heap[c].link, s.heap[c].word, Callback)).(
                   heap := HandedOver(s.heap, a, p, c, u.isList))
  {
    var taken := TakesNode(s, a, p, c, claims);
    var posted := Posts(taken, a, c, claims);
    Joins(Own(a, claims), s, taken, posted);
    t := TakesLink(posted, a, p, c, claims);
    Joins(Own(a, claims), s, posted, t);
    assert t.heap == HandedOver(s.heap, a, p, c, s.acts[a].frame.isList);
    assert t == Go(s, a, t.acts[a].frame).(heap := t.heap);
  }

  /** TrySetPosted. */
  lemma SetsPosted(s: State, a: nat, c: nat, claims: bool) returns (t: State)
    requires s.crash == NoCrash && a in s.acts && c in s.heap && s.heap[c].word.state == Posting
    requires s.acts[a].frame.Walk? && s.acts[a].frame.node == Ref(c) && s.acts[a].frame.walkPc == PostedLoad
    ensures Leads(Own(a, claims), s, t)
    ensures var u, word := s.acts[a].frame, s.heap[c].word;
            t == Go(Put(s, c, s.heap[c].(word := Word(Posted, word.cont))), a,
                    Walk(u.source, u.isList, u.cursor, Null, word, AtNode))
  {
    var Walk(src, isList, node, cursor, seen, _) := s.acts[a].frame;
    var word := s.heap[c].word;
    var looked := Go(s, a, Walk(src, isList, node, cursor, word, PostedCheck));
    var near := Go(looked, a, Walk(src, isList, node, cursor, word, PostedSwap));
    t := Go(Put(near, c, s.heap[c].(word := Word(Posted, word.cont))), a,
            Walk(src, isList, cursor, Null, word, AtNode));
    Stays(Own(a, claims), s);
    assert StepPosted(s, looked, a);
    Then(Own(a, claims), s, s, looked);
    assert StepPosted(looked, near, a);
    Then(Own(a, claims), s, looked, near);
    assert StepPostedSwap(near, t, a);
    Then(Own(a, claims), s, near, t);
    assert t == Go(Put(s, c, t.heap[c]), a, t.acts[a].frame);
  }

  /** A callback that did nothing leaves a future with a TaskPost Posted, for its executor; then the walk goes on. */
  lemma CallbackLeaves(s: State, a: nat, c: nat, claims: bool) returns (t: State)
    requires s.crash == NoCrash && a in s.acts && c in s.heap && NoGuest(s, a) && s.heap[c].word.state == Posting
    requires s.acts[a].frame.Walk? && s.acts[a].frame.node == Ref(c) && s.acts[a].frame.walkPc == Callback
    ensures Leads(Own(a, claims), s, t)
    ensures var u, fc := s.acts[a].frame, s.heap[c];
            && t.heap == s.heap[c := if fc.traits.hasTaskPost then fc.(word := Word(Posted, fc.word.cont)) else fc]
            && t.crash == NoCrash && t.acts.Keys == s.acts.Keys
            && t.acts[a].frame.Walk? && t.acts[a].frame.walkPc == AtNode && t.acts[a].frame.node == u.cursor
            && t.acts[a].frame.source == u.source && t.acts[a].frame.isList == u.isList
  {
    var Walk(src, isList, node, cursor, seen, _) := s.acts[a].frame;
    Stays(Own(a, claims), s);
    var over := Go(s, a, if s.heap[c].traits.hasTaskPost then Walk(src, isList, node, cursor, seen, PostedLoad)
                         else Walk(src, isList, cursor, Null, seen, AtNode));
    assert StepCallbackEnds(s, over, a);
    Then(Own(a, claims), s, s, over);
    t := over;
    assert s.heap[c := s.heap[c]] == s.heap;
    if s.heap[c].traits.hasTaskPost {
      t := SetsPosted(over, a, c, claims);
      Joins(Own(a, claims), s, over, t);
    }
  }
}
