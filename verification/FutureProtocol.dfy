/** The lock-free future protocol as a state machine.

    The heap holds futures; activities are the calls in progress on them. Every atomic load, every decision with
    its plain m_link read or write, and every compare-and-swap is a step of its own, so activities interleave
    between any two of them. A compare-and-swap may fail spuriously (compare_exchange_weak).

    `place` says which calls may still begin on a future; the fields after it are history, and no step branches on
    them. */
module FutureProtocol {
  import opened FutureCore

  /** Who owns the counted reference to a future that is or will be a continuation.
      Private: its creator alone. Adding: an AddContinuation call. Listed: the list of its parent. Walking: the
      PostContinuation call of a late addition. Handed: it went to TryPostInternal. Public: it was never a
      continuation (a promise, for instance). */
  datatype Place = Private | Adding(adder: nat) | Listed(parent: nat) | Walking(walk: nat) | Handed | Public

  datatype Fut = Fut(
    traits: Traits,
    word: Word,
    link: Ptr,
    place: Place,
    handed: nat,          // calls of TryPostInternal that received this future
    handler: Ptr,         // the walk that made that call
    entered: nat,         // TrySetInvoking calls that returned true: the task was entered
    settled: nat,         // TrySetSuccess and TrySetError calls that settled this future
    setter: Ptr,          // the call that moved it to SettingResult
    walker: Ptr,          // the call that settled it and walks its list
    chain: seq<nat>,      // listed continuations not yet handed over, newest first
    listed: seq<nat>,     // accepted before it was done, oldest first
    visited: seq<nat>,    // handed over from its list, in order
    late: seq<nat>)       // accepted after it was done, oldest first

  datatype AddPc = AddLoad | AddLink | AddSwap
  datatype UpdatePc = Load | Check | Swap
  datatype WalkPc =
    | AtNode | PostLoad | PostCheck | PostSwap | TakeNext | SetLink | Callback | PostedLoad | PostedCheck | PostedSwap

  /** A call in progress. */
  datatype Frame =
    | Ended
    | Add(parent: nat, cont: nat, seen: Word, addPc: AddPc)
      // AddContinuation(cont) on parent
    | Update(req: Request, fut: nat, owner: bool, seen: Word, next: FutureState, updatePc: UpdatePc)
      // an operation on the word of fut; owner: this call moved fut to SettingResult
    | Cleanup(done: nat, taken: Ptr, sentinel: bool)
      // after the swap that settled done: release the link, then walk the list
    | Walk(source: Ptr, isList: bool, node: Ptr, cursor: Ptr, seen: Word, walkPc: WalkPc)
      // PostContinuation on behalf of source, or Post() with a null source; node is the current continuation,
      // cursor the `next` TryPostInternal returns
    | Body(task: nat)
      // Invoke after TrySetInvoking won: the task callback runs

  /** host: the activity whose CurrentFutureImpl scope is innermost in the calling thread. */
  datatype Act = Act(frame: Frame, host: Ptr)

  /** Why the process failed fast. */
  datatype Crash =
    | NoCrash
    | AddedTwice           // AddContinuation called more than once for unique future
    | SentinelWhileAdding  // All existing continuations must be already executed
    | SentinelAtSettle     // Continuation must not be invoked yet
    | FailedUnexpectedly   // Cannot move to Failed state
    | LinkOutsidePending   // State must be Pending if m_link is not null
    | ListWithoutParent    // Future must not be part of a list if parent is null
    | ParentNotDone        // Unexpected parent state while posting
    | AwaitedTooLate       // Current state must be FutureState::Invoking
    | PostedTooLate        // Post expects Pending state

  /** What callers may be held to. claims: who finds a future in SettingResult goes on with TrySetSuccess only if its
      own TryStartSetValue put it there. publishes: nobody touches a continuation before AddContinuation published
      it. */
  datatype Discipline = Discipline(claims: bool, publishes: bool)

  const STRICT := Discipline(true, true)
  const CLAIMED := Discipline(true, false)

  datatype State = State(heap: map<nat, Fut>, acts: map<nat, Act>, crash: Crash)

  /** The future whose callback an activity is running, that is, its thread's current future. */
  function Current(frame: Frame): Ptr {
    match frame
    case Walk(_, _, node, _, _, Callback) => node
    case Body(task) => Ref(task)
    case _ => Null
  }

  /** IsSynchronousCall: the thread of activity a has future f as its current one. */
  predicate Sync(s: State, a: nat, f: nat)
    requires a in s.acts
  {
    var host := s.acts[a].host;
    host.Ref? && host.id in s.acts && Current(s.acts[host.id].frame) == Ref(f)
  }

  /** A future that may be a continuation here. */
  predicate ContTraits(t: Traits) {
    ValidTraits(t) && !t.isMultiPost && (t.hasTaskInvoke || t.useParentValue)
  }

  predicate PassThrough(t: Traits) {
    t.isShared && t.useParentValue
  }

  predicate Untouched(place: Place) {
    place.Private? || place.Adding?
  }

  function Head(chain: seq<nat>): Ptr {
    if chain == [] then Null else Ref(chain[0])
  }

  ghost predicate Init(s: State) {
    && s.acts == map[]
    && s.crash == NoCrash
    && forall f <- s.heap ::
        && ValidTraits(s.heap[f].traits)
        && s.heap[f] == Fut(
             s.heap[f].traits, Word(Pending, Null), Null, Private, 0, Null, 0, 0, Null, Null, [], [], [], [])
  }

  function Put(s: State, f: nat, fut: Fut): State {
    s.(heap := s.heap[f := fut])
  }

  function Go(s: State, a: nat, frame: Frame): State
    requires a in s.acts
  {
    s.(acts := s.acts[a := s.acts[a].(frame := frame)])
  }

  // ---------- calls that begin ----------

  /** A new activity begins outside any callback, or in the callback of a host. */
  ghost predicate Begins(s: State, t: State, a: nat, frame: Frame, host: Ptr) {
    && a !in s.acts
    && (host != Null ==> host.Ref? && host.id in s.acts && Current(s.acts[host.id].frame) != Null)
    && t.acts == s.acts[a := Act(frame, host)]
    && t.crash == s.crash
  }

  ghost predicate BeginAdd(s: State, t: State, a: nat, host: Ptr, p: nat, c: nat) {
    && p in s.heap && c in s.heap && p != c
    && s.heap[c].place.Private? && ContTraits(s.heap[c].traits)
    && Begins(s, t, a, Add(p, c, Word(Pending, Null), AddLoad), host)
    && t.heap == s.heap[c := s.heap[c].(place := Adding(a))]
  }

  /** Only the operations a caller can reach; FinishError, SetPosted and StartPosting are inner steps. */
  ghost predicate BeginUpdate(s: State, t: State, a: nat, host: Ptr, r: Request, f: nat, publishes: bool) {
    && f in s.heap
    && (publishes ==> !Untouched(s.heap[f].place))
    && r in {StartSetValue, SetSuccess, StartSetError, SetInvoking, StartAwaiting}
    && Begins(s, t, a, Update(r, f, false, Word(Pending, Null), Pending, Load), host)
    && t.heap == s.heap
  }

  ghost predicate BeginPost(s: State, t: State, a: nat, host: Ptr, f: nat) {
    && f in s.heap && s.heap[f].place.Private? && !s.heap[f].traits.isMultiPost
    && Begins(s, t, a, Walk(Null, false, Ref(f), Null, Word(Pending, Null), AtNode), host)
    && t.heap == s.heap[f := s.heap[f].(place := Walking(a))]
  }

  /** The creator lets others at a future that will never be a continuation, a promise for instance. */
  ghost predicate Publish(s: State, t: State, a: nat, f: nat) {
    && f in s.heap && s.heap[f].place.Private?
    && Begins(s, t, a, Ended, Null)
    && t.heap == s.heap[f := s.heap[f].(place := Public)]
  }

  // ---------- AddContinuation ----------

  ghost predicate StepAddLoad(s: State, t: State, a: nat) {
    a in s.acts &&
    match s.acts[a].frame
    case Add(p, c, _, AddLoad) => p in s.heap && t == Go(s, a, Add(p, c, s.heap[p].word, AddLink))
    case _ => false
  }

  /** Checks uniqueness, detaches the link of an earlier round and writes the link of this one. */
  ghost predicate StepAddLink(s: State, t: State, a: nat) {
    a in s.acts &&
    match s.acts[a].frame
    case Add(p, c, seen, AddLink) =>
      && p in s.heap && c in s.heap
      && (if seen.cont != Null && !s.heap[p].traits.isShared && !PassThrough(s.heap[c].traits)
          then t == s.(crash := AddedTwice)
          else t == Go(Put(s, c, s.heap[c].(link := if IsDone(seen.state) then Null else seen.cont)),
                       a, Add(p, c, seen, AddSwap)))
    case _ => false
  }

  ghost predicate StepAddSwap(s: State, t: State, a: nat) {
    a in s.acts &&
    match s.acts[a].frame
    case Add(p, c, seen, AddSwap) =>
      && p in s.heap && c in s.heap && p != c
      && var fp, fc := s.heap[p], s.heap[c];
         fp.word == seen &&
         if !IsDone(seen.state) then
           t == Go(s, a, Ended).(heap := s.heap[
             p := fp.(word := Word(seen.state, Ref(c)), chain := [c] + fp.chain, listed := fp.listed + [c])][
             c := fc.(place := Listed(p))])
         else if fc.link != Null then
           t == s.(crash := SentinelWhileAdding)
         else
           t == Go(s, a, Walk(Ref(p), false, Ref(c), Null, seen, AtNode)).(heap := s.heap[
             p := fp.(word := Word(seen.state, ContinuationInvoked), late := fp.late + [c])][
             c := fc.(place := Walking(a))])
    case _ => false
  }

  ghost predicate StepAddRetry(s: State, t: State, a: nat) {
    a in s.acts &&
    match s.acts[a].frame
    case Add(p, c, _, AddSwap) => p in s.heap && t == Go(s, a, Add(p, c, s.heap[p].word, AddLink))
    case _ => false
  }

  // ---------- operations on the word ----------

  ghost predicate StepLoad(s: State, t: State, a: nat) {
    a in s.acts &&
    match s.acts[a].frame
    case Update(r, f, owner, _, next, Load) =>
      f in s.heap && t == Go(s, a, Update(r, f, owner, s.heap[f].word, next, Check))
    case _ => false
  }

  /** A call that did not claim f itself goes on with TrySetSuccess from SettingResult. */
  ghost predicate Intrudes(s: State, a: nat) {
    && a in s.acts && s.acts[a].frame.Update? && !s.acts[a].frame.owner && s.acts[a].frame.req == SetSuccess
    && s.acts[a].frame.updatePc == Check && s.acts[a].frame.seen.state == SettingResult
  }

  ghost predicate StepCheck(s: State, t: State, a: nat, claims: bool) {
    a in s.acts &&
    match s.acts[a].frame
    case Update(r, f, owner, seen, next, Check) =>
      && f in s.heap
      && (claims ==> !Intrudes(s, a))
      && (match Decide(r, s.heap[f].traits, seen.state, s.heap[f].link == Null, Sync(s, a, f))
          case Refuse =>
            if r == FinishError then t == s.(crash := FailedUnexpectedly)
            else if r == StartAwaiting then t == s.(crash := AwaitedTooLate)
            else t == Go(s, a, Ended)
          case Retry => t == Go(s, a, Update(r, f, owner, seen, next, Load))
          case MoveTo(n) => t == Go(s, a, Update(r, f, owner, seen, n, Swap)))
    case _ => false
  }

  ghost predicate StepSwap(s: State, t: State, a: nat) {
    a in s.acts &&
    match s.acts[a].frame
    case Update(r, f, owner, seen, next, Swap) =>
      && f in s.heap
      && var fut := s.heap[f];
         fut.word == seen &&
         var swapped := fut.(word := Swapped(seen, next));
         if IsDone(next) then
           t == Go(Put(s, f, swapped.(settled := fut.settled + 1, walker := Ref(a), setter := Null)),
                   a, Cleanup(f, seen.cont, seen.cont == ContinuationInvoked))
         else if r == StartSetValue then  // the caller writes the value, then calls TrySetSuccess
           t == Go(Put(s, f, swapped.(setter := Ref(a))), a, Update(SetSuccess, f, true, seen, next, Load))
         else if r == StartSetError then  // the caller writes the error, then calls SetFailed
           t == Go(Put(s, f, swapped.(setter := Ref(a))), a, Update(FinishError, f, true, seen, next, Load))
         else if r == SetInvoking then
           t == Go(Put(s, f, swapped.(entered := fut.entered + 1)), a, Body(f))
         else
           t == Go(Put(s, f, swapped), a, Ended)
    case _ => false
  }

  ghost predicate StepSwapRetry(s: State, t: State, a: nat) {
    a in s.acts &&
    match s.acts[a].frame
    case Update(r, f, owner, _, next, Swap) =>
      f in s.heap && t == Go(s, a, Update(r, f, owner, s.heap[f].word, next, Check))
    case _ => false
  }

  /** TrySetSuccess keeps the link of a future that uses its parent's value; SetFailed always drops it. */
  ghost predicate StepCleanup(s: State, t: State, a: nat) {
    a in s.acts &&
    match s.acts[a].frame
    case Cleanup(f, cont, sentinel) =>
      && f in s.heap
      && var fut := s.heap[f];
         if sentinel then t == s.(crash := SentinelAtSettle)
         else
           var keeps := fut.word.state == Succeeded && fut.traits.useParentValue;
           t == Go(Put(s, f, fut.(link := if keeps then fut.link else Null)),
                      a, Walk(Ref(f), true, cont, Null, fut.word, AtNode))
    case _ => false
  }

  ghost predicate NoGuest(s: State, a: nat) {
    forall b <- s.acts :: s.acts[b].host == Ref(a) ==> s.acts[b].frame == Ended
  }

  ghost predicate StepBodyEnds(s: State, t: State, a: nat) {
    && a in s.acts && s.acts[a].frame.Body? && NoGuest(s, a)
    && t == Go(s, a, Ended)
  }

  // ---------- PostContinuation and TryPostInternal ----------

  /** The loop of PostContinuation: stop at null, else call TryPostInternal on the node. */
  ghost predicate StepNode(s: State, t: State, a: nat) {
    a in s.acts &&
    match s.acts[a].frame
    case Walk(src, isList, node, cursor, seen, AtNode) =>
      if node == Null then t == Go(s, a, Ended)
      else
        && node.Ref? && node.id in s.heap
        && (isList ==> src.Ref? && src.id in s.heap)
        && var c := node.id;
           var taken := if isList then s.heap[src.id := Taken(s.heap[src.id], c)] else s.heap;
           t == Go(s, a, Walk(src, isList, node, cursor, seen, PostLoad)).(heap :=
             taken[c := taken[c].(place := Handed, handed := taken[c].handed + 1, handler := Ref(a))])
    case _ => false
  }

  function Taken(fut: Fut, c: nat): Fut {
    fut.(chain := if fut.chain == [] then [] else fut.chain[1..], visited := fut.visited + [c])
  }

  ghost predicate StepPostLoad(s: State, t: State, a: nat) {
    a in s.acts &&
    match s.acts[a].frame
    case Walk(src, isList, node, cursor, _, PostLoad) =>
      && node.Ref? && node.id in s.heap
      && t == Go(s, a, Walk(src, isList, node, cursor, s.heap[node.id].word, PostCheck))
    case _ => false
  }

  /** Only Post(), which has no parent, asks to crash when the future is no longer Pending. */
  ghost predicate StepPostCheck(s: State, t: State, a: nat) {
    a in s.acts &&
    match s.acts[a].frame
    case Walk(src, isList, node, cursor, seen, PostCheck) =>
      && node.Ref? && node.id in s.heap
      && (if seen.state == Pending then t == Go(s, a, Walk(src, isList, node, cursor, seen, PostSwap))
          else if s.heap[node.id].link != Null then t == s.(crash := LinkOutsidePending)
          else if src == Null then t == s.(crash := PostedTooLate)
          else t == Go(s, a, Walk(src, isList, Null, Null, seen, AtNode)))
    case _ => false
  }

  ghost predicate StepPostSwap(s: State, t: State, a: nat) {
    a in s.acts &&
    match s.acts[a].frame
    case Walk(src, isList, node, cursor, seen, PostSwap) =>
      && node.Ref? && node.id in s.heap
      && var fut := s.heap[node.id];
         fut.word == seen &&
         t == Go(Put(s, node.id, fut.(word := Swapped(seen, Posting))), a,
             Walk(src, isList, node, cursor, seen, TakeNext))
    case _ => false
  }

  ghost predicate StepPostRetry(s: State, t: State, a: nat) {
    a in s.acts &&
    match s.acts[a].frame
    case Walk(src, isList, node, cursor, _, PostSwap) =>
      && node.Ref? && node.id in s.heap
      && t == Go(s, a, Walk(src, isList, node, cursor, s.heap[node.id].word, PostCheck))
    case _ => false
  }

  /** next = std::move(m_link), and the check that a future posted without a parent is in no list. */
  ghost predicate StepTakeNext(s: State, t: State, a: nat) {
    a in s.acts &&
    match s.acts[a].frame
    case Walk(src, isList, node, _, seen, TakeNext) =>
      && node.Ref? && node.id in s.heap
      && var fut := s.heap[node.id];
         if src == Null && fut.link != Null then t == s.(crash := ListWithoutParent)
         else t == Go(Put(s, node.id, fut.(link := Null)), a, Walk(src, isList, node, fut.link, seen, SetLink))
    case _ => false
  }

  /** The link becomes the parent pointer, unless the parent failed and the task is not called on errors. */
  ghost predicate StepSetLink(s: State, t: State, a: nat) {
    a in s.acts &&
    match s.acts[a].frame
    case Walk(src, isList, node, cursor, seen, SetLink) =>
      && node.Ref? && node.id in s.heap
      && (src == Null || (src.Ref? && src.id in s.heap))
      && var fut := s.heap[node.id];
         if src == Null then t == Go(s, a, Walk(src, isList, node, cursor, seen, Callback))
         else if !IsDone(s.heap[src.id].word.state) then t == s.(crash := ParentNotDone)
         else
           var keeps := fut.traits.callTaskInvokeOnError || s.heap[src.id].word.state == Succeeded;
           var link := if keeps then src else fut.link;
           t == Go(Put(s, node.id, fut.(link := link)), a, Walk(src, isList, node, cursor, seen, Callback))
    case _ => false
  }

  /** The TaskPost callback, or the inline Invoke, has returned with every call made in it. */
  ghost predicate StepCallbackEnds(s: State, t: State, a: nat) {
    a in s.acts && NoGuest(s, a) &&
    match s.acts[a].frame
    case Walk(src, isList, node, cursor, seen, Callback) =>
      && node.Ref? && node.id in s.heap
      && t == Go(s, a, if s.heap[node.id].traits.hasTaskPost then Walk(src, isList, node, cursor, seen, PostedLoad)
                       else Walk(src, isList, cursor, Null, seen, AtNode))
    case _ => false
  }

  /** TrySetPosted, load and decision; any state but Posting ends it. */
  ghost predicate StepPosted(s: State, t: State, a: nat) {
    a in s.acts &&
    match s.acts[a].frame
    case Walk(src, isList, node, cursor, _, PostedLoad) =>
      && node.Ref? && node.id in s.heap
      && t == Go(s, a, Walk(src, isList, node, cursor, s.heap[node.id].word, PostedCheck))
    case Walk(src, isList, node, cursor, seen, PostedCheck) =>
      t == Go(s, a, if seen.state == Posting then Walk(src, isList, node, cursor, seen, PostedSwap)
                    else Walk(src, isList, cursor, Null, seen, AtNode))
    case _ => false
  }

  ghost predicate StepPostedSwap(s: State, t: State, a: nat) {
    a in s.acts &&
    match s.acts[a].frame
    case Walk(src, isList, node, cursor, seen, PostedSwap) =>
      && node.Ref? && node.id in s.heap
      && var fut := s.heap[node.id];
         || (fut.word == seen &&
             t == Go(Put(s, node.id, fut.(word := Swapped(seen, Posted))), a,
                 Walk(src, isList, cursor, Null, seen, AtNode)))
         || t == Go(s, a, Walk(src, isList, node, cursor, fut.word, PostedCheck))
    case _ => false
  }

  // ---------- runs ----------

  ghost predicate Begin(s: State, t: State, publishes: bool) {
    || (exists a, host, p, c :: BeginAdd(s, t, a, host, p, c))
    || (exists a, host, r, f :: BeginUpdate(s, t, a, host, r, f, publishes))
    || (exists a, host, f :: BeginPost(s, t, a, host, f))
    || (exists a, f :: Publish(s, t, a, f))
  }

  ghost predicate AddStep(s: State, t: State, a: nat) {
    StepAddLoad(s, t, a) || StepAddLink(s, t, a) || StepAddSwap(s, t, a) || StepAddRetry(s, t, a)
  }

  ghost predicate WordStep(s: State, t: State, a: nat, claims: bool) {
    || StepLoad(s, t, a) || StepCheck(s, t, a, claims) || StepSwap(s, t, a) || StepSwapRetry(s, t, a)
    || StepCleanup(s, t, a) || StepBodyEnds(s, t, a)
  }

  ghost predicate WalkStep(s: State, t: State, a: nat) {
    || StepNode(s, t, a) || StepPostLoad(s, t, a) || StepPostCheck(s, t, a) || StepPostSwap(s, t, a)
    || StepPostRetry(s, t, a) || StepTakeNext(s, t, a) || StepSetLink(s, t, a) || StepCallbackEnds(s, t, a)
    || StepPosted(s, t, a) || StepPostedSwap(s, t, a)
  }

  ghost predicate Continue(s: State, t: State, a: nat, claims: bool) {
    AddStep(s, t, a) || WordStep(s, t, a, claims) || WalkStep(s, t, a)
  }

  /** One step of any activity. A process that failed fast takes none. */
  ghost predicate Next(s: State, t: State, d: Discipline) {
    s.crash == NoCrash && (Begin(s, t, d.publishes) || exists a :: Continue(s, t, a, d.claims))
  }

  ghost function Steps(d: Discipline): (State, State) -> bool {
    (s: State, t: State) => Next(s, t, d)
  }

  ghost predicate StepAt(run: seq<State>, i: nat, d: Discipline)
    requires i + 1 < |run|
  {
    Next(run[i], run[i + 1], d)
  }

  ghost predicate Run(run: seq<State>, d: Discipline) {
    && |run| > 0 && Init(run[0])
    && forall i {:trigger StepAt(run, i, d)} :: 0 <= i < |run| - 1 ==> StepAt(run, i, d)
  }
}
