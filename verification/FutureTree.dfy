/** Settling futures in one thread: the mutual recursion TrySetSuccess or SetFailed, PostContinuation, TryPostInternal,
    Invoke, and back, over any tree of continuations.

    What the callbacks of a continuation do to their own future before they return is a value of type Task. The result
    functions (Acted, Invoked, Posted) say where that takes one future; After says it of a whole tree. */
module FutureTree {
  import opened Options
  import opened FutureCore

  /** The thread-local current future. */
  class ThreadLocal {
    var current: FutureImpl?

    constructor ()
      ensures current == null
    {
      current := null;
    }
  }

  datatype Error = NoError | Error(code: int)

  const CANCELLED := -1

  /** What a TaskInvoke or TaskCatch callback does to its future before it returns. */
  datatype Action = Nothing | SetsValue(value: int) | Succeeds | Fails(error: int) | Awaits

  /** What a TaskPost callback does with the call it is given. */
  datatype PostAction = KeepsIt | InvokesIt | CancelsIt

  datatype Task = Task(onPost: PostAction, onInvoke: Action, onCatch: Action)

  /** The outcome a settled future shows. */
  datatype Outcome = Value | Failure(error: int)

  // ---------- one future ----------

  /** What operations change in a future: its state, whether m_link is its parent, its error, and its value if one was
      set. */
  datatype Self = Self(state: FutureState, hasParent: bool, error: Error, value: Option<int>)

  function OutcomeOf(s: Self): Outcome {
    if s.state == Succeeded || s.error == NoError then Value else Failure(s.error.code)
  }

  /** An action in the future's own callback. */
  function Acted(t: Traits, s: Self, linkIsNull: bool, action: Action): Self {
    match action
    case Nothing => s
    case SetsValue(v) =>
      if !Decide(StartSetValue, t, s.state, linkIsNull, true).MoveTo? then s
      else Self(Succeeded, s.hasParent && t.useParentValue, NoError, Some(v))
    case Succeeds =>
      if !Decide(SetSuccess, t, s.state, linkIsNull, true).MoveTo? then s
      else Self(Succeeded, s.hasParent && t.useParentValue, NoError, s.value)
    case Fails(e) =>
      if !Decide(StartSetError, t, s.state, linkIsNull, true).MoveTo? then s
      else Self(Failed, false, Error(e), s.value)
    case Awaits => s.(state := Awaiting)
  }

  /** Invoke from Posting. */
  function Invoked(t: Traits, task: Task, s: Self): Self {
    var i := s.(state := Invoking);
    if s.error == NoError then Acted(t, i, !s.hasParent, if t.hasTaskInvoke then task.onInvoke else Succeeds)
    else Acted(t, i, !s.hasParent, if t.hasTaskCatch then task.onCatch else Fails(s.error.code))
  }

  /** A Pending future in Posting, below a parent with this outcome. */
  function Entered(t: Traits, o: Outcome): Self {
    var fails := o.Failure? && !t.callTaskInvokeOnError;
    Self(Posting, !fails, if fails then Error(o.error) else NoError, None)
  }

  /** From Posting: TaskPost, or Invoke at once. */
  function HandedOver(t: Traits, task: Task, s: Self): Self {
    if !t.hasTaskPost || task.onPost.InvokesIt? then Invoked(t, task, s)
    else if task.onPost.CancelsIt? then Acted(t, s, !s.hasParent, Fails(CANCELLED))
    else s.(state := FutureState.Posted)
  }

  /** TryPostInternal of a Pending future. */
  function Posted(t: Traits, task: Task, o: Outcome): Self {
    HandedOver(t, task, Entered(t, o))
  }

  /** The callback of a MultiPost future: no state of its own is touched before it. */
  function CalledBack(t: Traits, task: Task, state: FutureState, linkIsNull: bool, o: Outcome): Self {
    Acted(t, Self(state, false, NoError, None), linkIsNull, if o == Value then task.onInvoke else task.onCatch)
  }

  /** No task of its own, the value taken from the parent. */
  predicate InlinePassThrough(t: Traits) {
    && ValidTraits(t) && t.useParentValue && !t.isMultiPost && !t.hasTaskPost && !t.hasTaskInvoke && !t.hasTaskCatch
    && !t.callTaskInvokeOnError
  }

  /** A pass-through future ends with its parent's outcome. */
  lemma PassesThrough(t: Traits, task: Task, o: Outcome)
    requires InlinePassThrough(t)
    ensures Posted(t, task, o) ==
              if o == Value then Self(Succeeded, true, NoError, None) else Self(Failed, false, Error(o.error), None)
  {
  }

  /** The task is not handed to an executor, or is invoked by it at once. */
  predicate Inline(t: Traits, task: Task) {
    !t.hasTaskPost || task.onPost.InvokesIt?
  }

  /** Below a parent that succeeded TaskCatch plays no part, and below one that failed TaskInvoke plays none. A future
      that asks for TaskInvoke on errors is called the same way in both cases. */
  lemma OnlyItsHandlerCounts(t: Traits, task: Task, other: Action, e: int)
    ensures Posted(t, task, Value) == Posted(t, task.(onCatch := other), Value)
    ensures if t.callTaskInvokeOnError then Posted(t, task, Failure(e)) == Posted(t, task, Value)
            else Posted(t, task, Failure(e)) == Posted(t, task.(onInvoke := other), Failure(e))
  {
  }

  /** The same of a MultiPost future, whatever its state. */
  lemma OnlyItsCallbackCounts(t: Traits, task: Task, state: FutureState, linkIsNull: bool, other: Action, e: int)
    ensures CalledBack(t, task, state, linkIsNull, Value) ==
            CalledBack(t, task.(onCatch := other), state, linkIsNull, Value)
    ensures CalledBack(t, task, state, linkIsNull, Failure(e)) ==
            CalledBack(t, task.(onInvoke := other), state, linkIsNull, Failure(e))
  {
  }

  /** What it means that an action settled a future, or left it to be settled later. */
  predicate Ends(t: Traits, action: Action, s: Self) {
    match action
    case SetsValue(v) => t.valueSize > 0 ==> s == Self(Succeeded, false, NoError, Some(v))
    case Succeeds => t.valueSize == 0 ==> s.state == Succeeded && s.error == NoError && s.value == None
    case Fails(e) => s == Self(Failed, false, Error(e), None)
    case Awaits => s.state == Awaiting
    case Nothing => s.state == Invoking
  }

  /** Called inline, the handler for the parent's outcome settles the future; a TaskCatch that sets a value recovers
      from the error. Without a TaskCatch the error is passed on. */
  lemma HandlerSettles(t: Traits, task: Task, e: int)
    requires ValidTraits(t) && Inline(t, task)
    ensures t.hasTaskInvoke ==> Ends(t, task.onInvoke, Posted(t, task, Value))
    ensures !t.callTaskInvokeOnError ==>
              Ends(t, if t.hasTaskCatch then task.onCatch else Fails(e), Posted(t, task, Failure(e)))
  {
  }

  /** A value is refused only by a future that has none, and a success without one by a future that has. */
  lemma WrongKindIsRefused(t: Traits, task: Task)
    requires Inline(t, task) && t.hasTaskInvoke
    requires if t.valueSize > 0 then task.onInvoke == Succeeds else task.onInvoke.SetsValue?
    ensures Posted(t, task, Value).state == Invoking && Posted(t, task, Value).value == None
  {
  }

  /** An executor that keeps the task leaves the future Posted and the parent's outcome in it; one that cancels fails
      it. Neither runs a handler. */
  lemma ExecutorDecides(t: Traits, task: Task, o: Outcome, onInvoke: Action, onCatch: Action)
    requires t.hasTaskPost && !task.onPost.InvokesIt?
    ensures Posted(t, task, o) == Posted(t, Task(task.onPost, onInvoke, onCatch), o)
    ensures if task.onPost.CancelsIt? then Posted(t, task, o) == Self(Failed, false, Error(CANCELLED), None)
            else
              var s := Posted(t, task, o);
              && s.state == FutureState.Posted && s.value == None && s.hasParent == (s.error == NoError)
              && (s.error == NoError || o == Failure(s.error.code))
              && (s.error == NoError <==> o == Value || t.callTaskInvokeOnError)
  {
  }

  /** A Pending MultiPost future is settled by its callback too, but for an error while it is in a list. One that is
      done stays as it is. */
  lemma CallbackSettles(t: Traits, task: Task, linkIsNull: bool, e: int)
    requires ValidTraits(t) && t.isMultiPost && !task.onInvoke.Nothing? && !task.onInvoke.Awaits?
    requires !task.onCatch.Nothing? && !task.onCatch.Awaits?
    ensures !task.onInvoke.Fails? || linkIsNull ==>
              Ends(t, task.onInvoke, CalledBack(t, task, Pending, linkIsNull, Value))
    ensures !task.onCatch.Fails? || linkIsNull ==>
              Ends(t, task.onCatch, CalledBack(t, task, Pending, linkIsNull, Failure(e)))
    ensures task.onCatch.Fails? && !linkIsNull ==> CalledBack(t, task, Pending, linkIsNull, Failure(e)).state == Pending
    ensures forall o, done :: IsDone(done) ==> CalledBack(t, task, done, linkIsNull, o).state == done
  {
  }

  // ---------- a tree of futures ----------

  /** A continuation and what was added below it, newest first. was, isLast and calls: its state, whether its link was
      null, and how often its callback ran, before its parent is settled. */
  datatype Tree = Tree(root: FutureImpl, was: FutureState, isLast: bool, calls: nat, kids: seq<Tree>)

  ghost function Nodes(t: Tree): set<FutureImpl> {
    {t.root} + ForestNodes(t.kids)
  }

  ghost function ForestNodes(ts: seq<Tree>): set<FutureImpl> {
    if ts == [] then {} else Nodes(ts[0]) + ForestNodes(ts[1..])
  }

  ghost function HeadOf(ts: seq<Tree>): FutureImpl? {
    if ts == [] then null else ts[0].root
  }

  /** Continuations as the library makes them: something to invoke, or a parent value to take. StartAwaiting belongs to
      a callback that runs in Invoking. */
  predicate IsContinuation(t: Traits, task: Task) {
    && ValidTraits(t) && (t.hasTaskInvoke || t.useParentValue)
    && (t.isMultiPost ==> !task.onInvoke.Awaits? && !task.onCatch.Awaits?)
  }

  /** The list of a future that is not done: its head, and the kids ready. */
  ghost predicate Waiting(f: FutureImpl, kids: seq<Tree>)
    reads f, ForestNodes(kids)
    decreases kids, 1
  {
    f.cont == HeadOf(kids) && !f.invoked && f !in ForestNodes(kids) && ReadyForest(kids)
  }

  /** A continuation before its turn. Its own continuations matter only while it is Pending. */
  ghost predicate Ready(t: Tree)
    reads Nodes(t)
    decreases t, 0
  {
    && IsContinuation(t.root.traits, t.root.task)
    && t.root.state == t.was && (t.root.link == null) == t.isLast && t.root.calls == t.calls
    && (t.was == Pending ==> t.root.error == NoError && Waiting(t.root, t.kids))
    && (t.root.traits.isMultiPost ==> t.was == Pending || IsDone(t.was))
  }

  /** A list, linked. A future that is not MultiPost and has left Pending early is its tail. */
  ghost predicate ReadyForest(ts: seq<Tree>)
    reads ForestNodes(ts)
    decreases ts, 0
  {
    ts != [] ==>
      && Ready(ts[0]) && ts[0].root.link == HeadOf(ts[1..])
      && Nodes(ts[0]) !! ForestNodes(ts[1..])
      && (ts[0].was != Pending && !ts[0].root.traits.isMultiPost ==> ts[1..] == [])
      && ReadyForest(ts[1..])
  }

  ghost predicate Shows(f: FutureImpl, s: Self, parent: FutureImpl)
    reads f
  {
    && f.state == s.state && f.link == (if s.hasParent then parent else null) && f.error == s.error
    && (s.value.Some? ==> f.value == s.value.value)
  }

  /** What became of the continuations of f, once f came to s. */
  ghost predicate KidsAfter(f: FutureImpl, kids: seq<Tree>, s: Self)
    reads f, ForestNodes(kids)
    decreases kids, 1
  {
    if IsDone(s.state) then f.cont == null && (f.invoked <==> kids != []) && AfterForest(kids, f, OutcomeOf(s))
    else Waiting(f, kids)
  }

  /** A continuation after its turn. */
  ghost predicate After(t: Tree, parent: FutureImpl, o: Outcome)
    reads Nodes(t)
    decreases t, 0
  {
    if t.root.traits.isMultiPost then
      && t.root.calls == t.calls + 1
      && (if t.was != Pending then t.root.state == t.was
          else
            var s := CalledBack(t.root.traits, t.root.task, Pending, t.isLast, o);
            t.root.state == s.state && t.root.error == s.error && KidsAfter(t.root, t.kids, s))
    else
      && t.root.calls == t.calls
      && (if t.was != Pending then t.root.state == t.was
          else
            var s := Posted(t.root.traits, t.root.task, o);
            Shows(t.root, s, parent) && KidsAfter(t.root, t.kids, s))
  }

  /** A list after its walk. TryPostInternal hands on no successor of a MultiPost future, so behind one nothing
      happens. */
  ghost predicate AfterForest(ts: seq<Tree>, parent: FutureImpl, o: Outcome)
    reads ForestNodes(ts)
    decreases ts, 0
  {
    ts != [] ==>
      && After(ts[0], parent, o)
      && (if ts[0].root.traits.isMultiPost then ReadyForest(ts[1..]) else AfterForest(ts[1..], parent, o))
  }

  // ---------- steps elsewhere ----------

  twostate lemma ReadyStays(t: Tree)
    requires old(Ready(t)) && forall n <- Nodes(t) :: old(allocated(n)) ==> unchanged(n)
    ensures Ready(t)
    decreases t
  {
    assert forall n :: n in ForestNodes(t.kids) ==> n in Nodes(t);
    if t.was == Pending { ReadyForestStays(t.kids); }
  }

  twostate lemma ReadyForestStays(ts: seq<Tree>)
    requires old(ReadyForest(ts)) && forall n <- ForestNodes(ts) :: old(allocated(n)) ==> unchanged(n)
    ensures ReadyForest(ts)
    decreases ts
  {
    if ts != [] {
      assert forall n :: n in Nodes(ts[0]) || n in ForestNodes(ts[1..]) ==> n in ForestNodes(ts);
      ReadyStays(ts[0]);
      ReadyForestStays(ts[1..]);
    }
  }

  datatype Part =
    | Part(ts: seq<Tree>, parent: FutureImpl, outcome: Outcome)
    | OneTree(t: Tree, parent: FutureImpl, outcome: Outcome)
    | Kids(f: FutureImpl, kids: seq<Tree>, self: Self)
    | Walked(front: seq<Tree>, entry: Tree, rest: seq<Tree>, parent: FutureImpl, outcome: Outcome)

  twostate lemma AfterStays(p: Part)
    requires p.Part? && old(AfterForest(p.ts, p.parent, p.outcome))
    requires forall n <- ForestNodes(p.ts) :: old(allocated(n)) ==> unchanged(n)
    ensures AfterForest(p.ts, p.parent, p.outcome)
    decreases p.ts, 0
  {
    var ts := p.ts;
    if ts != [] {
      assert forall n :: n in Nodes(ts[0]) || n in ForestNodes(ts[1..]) ==> n in ForestNodes(ts);
      TreeStays(OneTree(ts[0], p.parent, p.outcome));
      if ts[0].root.traits.isMultiPost { ReadyForestStays(ts[1..]); }
          else { AfterStays(Part(ts[1..], p.parent, p.outcome)); }
    }
  }

  twostate lemma TreeStays(p: Part)
    requires p.OneTree? && old(After(p.t, p.parent, p.outcome))
    requires forall n <- Nodes(p.t) :: old(allocated(n)) ==> unchanged(n)
    ensures After(p.t, p.parent, p.outcome)
    decreases p.t, 0
  {
    var t := p.t;
    assert forall n :: n == t.root || n in ForestNodes(t.kids) ==> n in Nodes(t);
    if t.was == Pending {
      if t.root.traits.isMultiPost {
        KidsStay(Kids(t.root, t.kids, CalledBack(t.root.traits, t.root.task, Pending, t.isLast, p.outcome)));
      } else {
        KidsStay(Kids(t.root, t.kids, Posted(t.root.traits, t.root.task, p.outcome)));
      }
    }
  }

  twostate lemma KidsStay(p: Part)
    requires p.Kids? && old(KidsAfter(p.f, p.kids, p.self))
    requires unchanged(p.f) && forall n <- ForestNodes(p.kids) :: old(allocated(n)) ==> unchanged(n)
    ensures KidsAfter(p.f, p.kids, p.self)
    decreases p.kids, 1
  {
    if IsDone(p.self.state) { AfterStays(Part(p.kids, p.f, OutcomeOf(p.self))); } else { ReadyForestStays(p.kids); }
  }

  predicate SinglePosts(ts: seq<Tree>) {
    forall t <- ts :: !t.root.traits.isMultiPost
  }

  lemma NodesJoin(a: seq<Tree>, b: seq<Tree>)
    ensures ForestNodes(a + b) == ForestNodes(a) + ForestNodes(b)
  {
    if a == [] {
      assert a + b == b;
    } else {
      assert (a + b)[1..] == a[1..] + b;
      NodesJoin(a[1..], b);
    }
  }

  lemma AfterJoins(a: seq<Tree>, b: seq<Tree>, parent: FutureImpl, o: Outcome)
    requires SinglePosts(a) && AfterForest(a, parent, o) && AfterForest(b, parent, o)
    ensures AfterForest(a + b, parent, o)
  {
    if a == [] {
      assert a + b == b;
    } else {
      assert (a + b)[1..] == a[1..] + b;
      AfterJoins(a[1..], b, parent, o);
    }
  }

  /** One more in front of a list. */
  lemma Listed(t: Tree, kids: seq<Tree>)
    requires Ready(t) && (t.was == Pending || t.root.traits.isMultiPost || kids == [])
    requires t.root.link == HeadOf(kids) && ReadyForest(kids) && Nodes(t) !! ForestNodes(kids)
    ensures ReadyForest([t] + kids) && ForestNodes([t] + kids) == Nodes(t) + ForestNodes(kids)
  {
    assert ([t] + kids)[1..] == kids;
  }

  /** An entry of a list had its turn, and nothing else of the list changed. A MultiPost entry ends the walk. */
  twostate lemma WalksOn(p: Part)
    requires p.Walked? && SinglePosts(p.front)
    requires old(AfterForest(p.front, p.parent, p.outcome)) && old(ReadyForest(p.rest))
    requires forall n <- ForestNodes(p.front) :: old(allocated(n)) ==> unchanged(n)
    requires forall n <- ForestNodes(p.rest) :: old(allocated(n)) ==> unchanged(n)
    requires After(p.entry, p.parent, p.outcome)
    ensures ReadyForest(p.rest) && ForestNodes(p.front + [p.entry]) == ForestNodes(p.front) + Nodes(p.entry)
    ensures if p.entry.root.traits.isMultiPost then AfterForest(p.front + ([p.entry] + p.rest), p.parent, p.outcome)
            else SinglePosts(p.front + [p.entry]) && AfterForest(p.front + [p.entry], p.parent, p.outcome)
  {
    AfterStays(Part(p.front, p.parent, p.outcome));
    ReadyForestStays(p.rest);
    NodesJoin(p.front, [p.entry]);
    if p.entry.root.traits.isMultiPost {
      assert ([p.entry] + p.rest)[1..] == p.rest;
      AfterJoins(p.front, [p.entry] + p.rest, p.parent, p.outcome);
    } else {
      assert [p.entry][1..] == [];
      AfterJoins(p.front, [p.entry], p.parent, p.outcome);
    }
  }

  lemma Regroup(kids: seq<Tree>, front: seq<Tree>, rest: seq<Tree>)
    requires front + rest == kids && rest != []
    ensures kids[|front|] == rest[0]
    ensures front + ([rest[0]] + rest[1..]) == kids && (front + [rest[0]]) + rest[1..] == kids
    ensures rest[1..] == [] ==> [rest[0]] + rest[1..] == [rest[0]]
  {
  }

  /** The walk of kids is between two entries. */
  ghost predicate Walking(kids: seq<Tree>, front: seq<Tree>, rest: seq<Tree>, parent: FutureImpl, o: Outcome)
    reads ForestNodes(front), ForestNodes(rest)
  {
    && front + rest == kids && ForestNodes(rest) <= ForestNodes(kids) && ForestNodes(front) !! ForestNodes(rest)
    && SinglePosts(front) && AfterForest(front, parent, o) && ReadyForest(rest)
  }

  class FutureImpl {
    const traits: Traits
    const task: Task
    var state: FutureState
    var cont: FutureImpl?  // the continuation half of the word
    var invoked: bool      // the sentinel half of the word
    var link: FutureImpl?
    var error: Error
    var value: int
    var calls: nat         // calls of a MultiPost future's callback so far

    constructor (traits: Traits, task: Task)
      ensures this.traits == traits && this.task == task && state == Pending && cont == null && !invoked && link == null
      ensures error == NoError && calls == 0
    {
      this.traits, this.task := traits, task;
      state, cont, invoked, link, error, value, calls := Pending, null, false, null, NoError, 0, 0;
    }

    /** The swap into a settled state, which also takes the list. */
    method Settle(next: FutureState) returns (continuation: FutureImpl?)
      modifies `state, `cont, `invoked
      ensures state == next && continuation == old(cont) && cont == null
      ensures invoked == (old(cont) != null || old(invoked))
    {
      continuation := cont;
      invoked := cont != null || invoked;
      cont := null;
      state := next;
    }

    method TrySetSuccess(tls: ThreadLocal, ghost kids: seq<Tree>) returns (done: bool)
      requires !IsDone(state) ==> Waiting(this, kids)
      modifies this, tls, ForestNodes(kids)
      ensures tls.current == old(tls.current) && value == old(value) && calls == old(calls)
      ensures done == Decide(SetSuccess, traits, old(state), old(link) == null, old(tls.current) == this).MoveTo?
      ensures !done ==> unchanged(this) && (!IsDone(old(state)) ==> Waiting(this, kids))
      ensures done ==>
                && state == Succeeded && cont == null && (invoked <==> kids != []) && error == NoError
                && link == (if traits.useParentValue then old(link) else null)
                && AfterForest(kids, this, Value)
      decreases kids, 2
    {
      if !Decide(SetSuccess, traits, state, link == null, tls.current == this).MoveTo? {
        return false;
      }
      var continuation := Settle(Succeeded);
      if link != null && !traits.useParentValue {
        link := null;
      }
      error := NoError;
      ReadyForestStays(kids);
      PostContinuation(tls, continuation, kids, Value);
      done := true;
    }

    method TrySetError(tls: ThreadLocal, futureError: int, ghost kids: seq<Tree>) returns (done: bool)
      requires !IsDone(state) ==> Waiting(this, kids)
      requires state == Posting ==> tls.current == this  // another thread would wait
      modifies this, tls, ForestNodes(kids)
      ensures tls.current == old(tls.current) && value == old(value) && calls == old(calls)
      ensures done == Decide(StartSetError, traits, old(state), old(link) == null, old(tls.current) == this).MoveTo?
      ensures !done ==> unchanged(this) && (!IsDone(old(state)) ==> Waiting(this, kids))
      ensures done ==>
                && state == Failed && cont == null && (invoked <==> kids != []) && error == Error(futureError)
                && link == null
                && AfterForest(kids, this, Failure(futureError))
      decreases kids, 2
    {
      if !Decide(StartSetError, traits, state, link == null, tls.current == this).MoveTo? {
        return false;
      }
      state := SettingResult;
      error := Error(futureError);
      // SetFailed
      var continuation := Settle(Failed);
      link := null;
      ReadyForestStays(kids);
      PostContinuation(tls, continuation, kids, Failure(futureError));
      done := true;
    }

    /** Claim the future, write the value, succeed. Every descendant that only passes values through then reads it. */
    method TrySetValue(tls: ThreadLocal, v: int, ghost kids: seq<Tree>) returns (done: bool)
      requires !IsDone(state) ==> Waiting(this, kids)
      modifies this, tls, ForestNodes(kids)
      ensures tls.current == old(tls.current) && calls == old(calls)
      ensures done == Decide(StartSetValue, traits, old(state), old(link) == null, old(tls.current) == this).MoveTo?
      ensures !done ==> unchanged(this) && (!IsDone(old(state)) ==> Waiting(this, kids))
      ensures done ==>
                && state == Succeeded && cont == null && (invoked <==> kids != []) && error == NoError && value == v
                && link == (if traits.useParentValue then old(link) else null)
                && AfterForest(kids, this, Value)
      ensures done && ValidTraits(traits) ==>
                forall n :: n in Through(kids) ==>
                  exists way: seq<FutureImpl> :: ValuePath(n, way) && way[|way| - 1] == this
      decreases kids, 3
    {
      if !Decide(StartSetValue, traits, state, link == null, tls.current == this).MoveTo? {
        return false;
      }
      state := SettingResult;
      value := v;
      ReadyForestStays(kids);
      done := TrySetSuccess(tls, kids);
      if ValidTraits(traits) {
        forall n | n in Through(kids)
          ensures exists way: seq<FutureImpl> :: ValuePath(n, way) && way[|way| - 1] == this
        {
          ReadsThrough(kids, this, [this], n);
        }
      }
    }

    /** A callback of this future, which is the thread's current one. */
    method RunAction(tls: ThreadLocal, action: Action, ghost parent: FutureImpl, ghost before: Self,
        ghost kids: seq<Tree>)
      requires tls.current == this && state == before.state && error == before.error && before.value == None
      requires before.hasParent ==> link == parent
      requires !IsDone(state) ==> Waiting(this, kids)
      requires action.Awaits? ==> state == Invoking
      modifies this, tls, ForestNodes(kids)
      ensures tls.current == this && calls == old(calls)
      ensures var s := Acted(traits, before, old(link) == null, action);
              && state == s.state && error == s.error && (s.value.Some? ==> value == s.value.value)
              && link == (if !IsDone(s.state) || IsDone(before.state) || (s.state == Succeeded && traits.useParentValue)
                          then old(link) else null)
              && (if IsDone(before.state) then unchanged(this) else KidsAfter(this, kids, s))
      decreases kids, 4
    {
      var done := false;
      match action {
        case Nothing =>
        case SetsValue(v) => done := TrySetValue(tls, v, kids);
        case Succeeds => done := TrySetSuccess(tls, kids);
        case Fails(e) => done := TrySetError(tls, e, kids);
        case Awaits =>
          state := Awaiting;
          ReadyForestStays(kids);
      }
    }

    method Invoke(tls: ThreadLocal, ghost parent: FutureImpl, ghost before: Self, ghost kids: seq<Tree>)
      requires IsContinuation(traits, task) && !traits.isMultiPost && tls.current == this
      requires state == Posting == before.state && before.value == None && Shows(this, before, parent)
      requires before.hasParent == (before.error == NoError)
      requires Waiting(this, kids)
      modifies this, tls, ForestNodes(kids)
      ensures tls.current == this && calls == old(calls)
      ensures Shows(this, Invoked(traits, task, before), parent) && KidsAfter(this, kids, Invoked(traits, task, before))
      decreases kids, 5
    {
      ghost var entered := before.(state := Invoking);
      state := Invoking;
      ReadyForestStays(kids);
      if error == NoError {
        if traits.hasTaskInvoke {
          RunAction(tls, task.onInvoke, parent, entered, kids);
        } else {
          assert traits.useParentValue && link != null;  // the two checks of Invoke
          RunAction(tls, Succeeds, parent, entered, kids);
          assert state == Succeeded;                     // crashIfFailed
        }
      } else {
        if traits.hasTaskCatch {
          RunAction(tls, task.onCatch, parent, entered, kids);
        } else {
          RunAction(tls, Fails(error.code), parent, entered, kids);
          assert state == Failed;                        // crashIfFailed
        }
      }
    }

    method TryPostInternal(tls: ThreadLocal, parent: FutureImpl, ghost t: Tree, ghost o: Outcome)
        returns (next: FutureImpl?)
      requires this == t.root && Ready(t) && parent !in Nodes(t) && Has(parent, o)
      requires t.was != Pending && !traits.isMultiPost ==> link == null
      modifies tls, Nodes(t)
      ensures tls.current == old(tls.current)
      ensures next == (if traits.isMultiPost then null else old(link)) && After(t, parent, o)
      decreases t, 2
    {
      var previous := tls.current;
      next := null;
      if traits.isMultiPost {
        tls.current := this;
        CallBack(tls, parent, t, o);
        tls.current := previous;
      } else if state == Pending {
        state := Posting;
        tls.current := this;
        next := link;
        link := null;
        ReadyForestStays(t.kids);
        PostOne(tls, parent, t, o);
        tls.current := previous;
      }
    }

    /** The MultiPost branch: nothing but the callback. */
    method CallBack(tls: ThreadLocal, parent: FutureImpl, ghost t: Tree, ghost o: Outcome)
      requires this == t.root && Ready(t) && traits.isMultiPost && Has(parent, o) && tls.current == this
      modifies tls, Nodes(t)
      ensures tls.current == this && After(t, parent, o)
      decreases t, 1
    {
      calls := calls + 1;
      if t.was == Pending { ReadyForestStays(t.kids); }
      ghost var before := Self(state, false, error, None);
      RunAction(tls, if parent.state == Succeeded then task.onInvoke else task.onCatch, parent, before, t.kids);
    }

    /** The rest of the other branch, in Posting. */
    method PostOne(tls: ThreadLocal, parent: FutureImpl, ghost t: Tree, ghost o: Outcome)
      requires this == t.root && t.was == Pending && IsContinuation(traits, task) && !traits.isMultiPost
          && tls.current == this
      requires state == Posting && link == null && error == NoError && calls == t.calls && Waiting(this, t.kids)
      requires parent !in Nodes(t) && Has(parent, o)
      modifies tls, Nodes(t)
      ensures tls.current == this && After(t, parent, o)
      decreases t, 1
    {
      if parent.state == Succeeded || traits.callTaskInvokeOnError {
        link := parent;
      } else {
        error := parent.error;
      }
      ReadyForestStays(t.kids);
      HandOver(tls, parent, Entered(traits, o), t.kids);
    }

    method HandOver(tls: ThreadLocal, ghost parent: FutureImpl, ghost before: Self, ghost kids: seq<Tree>)
      requires IsContinuation(traits, task) && !traits.isMultiPost && tls.current == this
      requires state == Posting == before.state && before.value == None && Shows(this, before, parent)
      requires before.hasParent == (before.error == NoError)
      requires Waiting(this, kids)
      modifies this, tls, ForestNodes(kids)
      ensures tls.current == this && calls == old(calls)
      ensures Shows(this, HandedOver(traits, task, before), parent)
          && KidsAfter(this, kids, HandedOver(traits, task, before))
      decreases kids, 6
    {
      if traits.hasTaskPost && task.onPost.KeepsIt? {
        state := FutureState.Posted;  // TrySetPosted
        ReadyForestStays(kids);
      } else if traits.hasTaskPost && task.onPost.CancelsIt? {
        RunAction(tls, Fails(CANCELLED), parent, before, kids);
      } else {
        Invoke(tls, parent, before, kids);
      }
    }

    /** The loop takes the next of a list only from the future it just handed over to. */
    method PostContinuation(tls: ThreadLocal, first: FutureImpl?, ghost kids: seq<Tree>, ghost o: Outcome)
      requires first == HeadOf(kids) && ReadyForest(kids) && this !in ForestNodes(kids) && Has(this, o)
      modifies tls, ForestNodes(kids)
      ensures tls.current == old(tls.current)
      ensures AfterForest(kids, this, o)
      decreases kids, 1
    {
      var continuation := first;
      ghost var front, rest := [], kids;
      while continuation != null
        invariant tls.current == old(tls.current) && Has(this, o)
        invariant continuation != null ==> continuation == HeadOf(rest) && Walking(kids, front, rest, this, o)
        invariant continuation == null ==> AfterForest(kids, this, o)
        decreases if continuation == null then 0 else |rest|
      {
        continuation := PostFirst(tls, continuation, kids, front, rest, o);
        front, rest := front + [rest[0]], rest[1..];
      }
    }

    /** One round of it. */
    method PostFirst(tls: ThreadLocal, continuation: FutureImpl, ghost kids: seq<Tree>, ghost front: seq<Tree>,
                     ghost rest: seq<Tree>, ghost o: Outcome)
        returns (next: FutureImpl?)
      requires continuation == HeadOf(rest) && Walking(kids, front, rest, this, o) && this !in ForestNodes(kids)
          && Has(this, o)
      modifies tls, ForestNodes(kids)
      ensures tls.current == old(tls.current)
      ensures next != null ==> next == HeadOf(rest[1..]) && Walking(kids, front + [rest[0]], rest[1..], this, o)
      ensures next == null ==> AfterForest(kids, this, o)
      decreases kids, 0
    {
      Regroup(kids, front, rest);
      next := continuation.TryPostInternal(tls, this, rest[0], o);
      WalksOn(Walked(front, rest[0], rest[1..], this, o));
    }

    /** GetValue goes through m_link until a future that has its own value. */
    method GetValue(ghost path: seq<FutureImpl>) returns (v: int)
      requires ValuePath(this, path)
      ensures v == path[|path| - 1].value
      decreases path
    {
      if traits.useParentValue {
        v := link.GetValue(path[1..]);
      } else {
        v := value;
      }
    }

    /** The continuation joins the list of a future that is not done, in front, and is handed over at once by one that
        is. crashed: it was one too many for a future that is not shared. In front of others, one that is no longer
        Pending spoils the list. */
    method AddContinuation(tls: ThreadLocal, continuation: FutureImpl, ghost t: Tree, ghost kids: seq<Tree>,
        ghost o: Outcome)
        returns (crashed: bool)
      requires continuation == t.root && Ready(t) && continuation.link == null
      requires this !in Nodes(t) && Nodes(t) !! ForestNodes(kids)
      requires if IsDone(state) then Has(this, o) && kids == [] && cont == null else Waiting(this, kids)
      modifies this, tls, Nodes(t)
      ensures tls.current == old(tls.current) && state == old(state) && error == old(error) && link == old(link)
      ensures value == old(value) && calls == old(calls)
      ensures crashed <==>
                && (old(cont) != null || old(invoked)) && !traits.isShared
                && !(continuation.traits.isShared && continuation.traits.useParentValue)
      ensures crashed ==> unchanged(this) && unchanged(continuation)
      ensures !crashed && !IsDone(state) ==>
                && cont == continuation && continuation.link == old(cont) && continuation.state == t.was
                && (t.was == Pending || continuation.traits.isMultiPost || kids == [] ==>
                      Waiting(this, [t.(isLast := kids == [])] + kids))
      ensures !crashed && IsDone(state) ==> invoked && cont == null && After(t, this, o)
    {
      if (cont != null || invoked) && !traits.isShared
          && !(continuation.traits.isShared && continuation.traits.useParentValue) {
        return true;
      }
      crashed := false;
      if !IsDone(state) {
        continuation.link := cont;
        cont := continuation;
        if t.was == Pending { ReadyForestStays(t.kids); }
        ReadyForestStays(kids);
        if t.was == Pending || continuation.traits.isMultiPost || kids == [] {
          Listed(t.(isLast := kids == []), kids);
        }
      } else {
        invoked := true;
        ReadyStays(t);
        assert [t][1..] == [];
        PostContinuation(tls, continuation, [t], o);
      }
    }
  }

  /** f is settled with this outcome. */
  ghost predicate Has(f: FutureImpl, o: Outcome)
    reads f
  {
    if o == Value then f.state == Succeeded else f.state == Failed && f.error == Error(o.error)
  }

  /** The futures GetValue goes through from f: all succeeded, the last one with a value of its own. */
  ghost predicate ValuePath(f: FutureImpl, path: seq<FutureImpl>)
    reads f, path
    decreases path
  {
    && path != [] && path[0] == f && f.state == Succeeded
    && (if !f.traits.useParentValue then |path| == 1
        else |path| > 1 && f.link == path[1] && ValuePath(path[1], path[1..]))
  }

  // ---------- what passes through ----------

  /** The descendants reached by passing the outcome on, and nothing else. */
  ghost function Through(ts: seq<Tree>): set<FutureImpl> {
    if ts == [] || ts[0].root.traits.isMultiPost then {}
    else
      (if ts[0].was == Pending && InlinePassThrough(ts[0].root.traits) then {ts[0].root} + Through(ts[0].kids) else {})
      + Through(ts[1..])
  }

  /** One level of After, at a future that passes through. */
  lemma PassesOn(t: Tree, parent: FutureImpl, o: Outcome)
    requires After(t, parent, o) && t.was == Pending && InlinePassThrough(t.root.traits)
    ensures Has(t.root, o) && (o == Value ==> t.root.link == parent) && AfterForest(t.kids, t.root, o)
  {
    PassesThrough(t.root.traits, t.root.task, o);
  }

  /** All of them end with the outcome of the future that was settled. */
  lemma {:induction false} HasThrough(ts: seq<Tree>, parent: FutureImpl, o: Outcome, n: FutureImpl)
    requires AfterForest(ts, parent, o) && n in Through(ts)
    ensures Has(n, o)
    decreases ts
  {
    var t := ts[0];
    if n in Through(ts[1..]) {
      HasThrough(ts[1..], parent, o, n);
    } else {
      PassesOn(t, parent, o);
      if n != t.root { HasThrough(t.kids, t.root, o, n); }
    }
  }

  /** GetValue of every one of them ends where GetValue of that future ends. */
  lemma {:induction false} ReadsThrough(ts: seq<Tree>, parent: FutureImpl, path: seq<FutureImpl>, n: FutureImpl)
    requires AfterForest(ts, parent, Value) && n in Through(ts) && ValuePath(parent, path)
    ensures exists way: seq<FutureImpl> :: ValuePath(n, way) && way[|way| - 1] == path[|path| - 1]
    decreases ts
  {
    var t := ts[0];
    if n in Through(ts[1..]) {
      ReadsThrough(ts[1..], parent, path, n);
    } else {
      PassesOn(t, parent, Value);
      var way := [t.root] + path;
      assert way[1..] == path;
      assert ValuePath(t.root, way);
      if n != t.root { ReadsThrough(t.kids, t.root, way, n); }
    }
  }

  // ---------- what is handled ----------

  /** A continuation that was Pending, and what the handler of the parent's outcome does to it. */
  ghost predicate Handles(t: Tree, o: Outcome, action: Action)
    reads t.root
  {
    var f := t.root;
    && t.was == Pending && ValidTraits(f.traits) && !f.traits.isMultiPost && Inline(f.traits, f.task)
    && (if o == Value then f.traits.hasTaskInvoke && f.task.onInvoke == action
        else !f.traits.callTaskInvokeOnError && f.traits.hasTaskCatch && f.task.onCatch == action)
  }

  lemma HandledHere(t: Tree, parent: FutureImpl, o: Outcome, action: Action)
    requires After(t, parent, o) && Handles(t, o, action)
    requires action.Fails? || (action.SetsValue? && t.root.traits.valueSize > 0)
    ensures if action.Fails? then
              Has(t.root, Failure(action.error)) && AfterForest(t.kids, t.root, Failure(action.error))
            else
              Has(t.root, Value) && t.root.value == action.value && AfterForest(t.kids, t.root, Value)
  {
    HandlerSettles(t.root.traits, t.root.task, if o == Value then 0 else o.error);
    var s := Posted(t.root.traits, t.root.task, o);
    assert KidsAfter(t.root, t.kids, s) && OutcomeOf(s) == if action.Fails? then Failure(action.error) else Value;
  }

  /** Wherever the walk of a settled future gets, a handler that sets a value has set it, and everything below that
      passes values through reads that value; a handler that fails has put its error there and below. */
  lemma {:induction false} HandledIsPassedOn(ts: seq<Tree>, parent: FutureImpl, o: Outcome, k: nat, action: Action)
    requires AfterForest(ts, parent, o) && k < |ts| && SinglePosts(ts[..k]) && Handles(ts[k], o, action)
    requires action.Fails? || (action.SetsValue? && ts[k].root.traits.valueSize > 0)
    ensures var f := ts[k].root;
            if action.Fails? then
              && Has(f, Failure(action.error))
              && forall n :: n in Through(ts[k].kids) ==> Has(n, Failure(action.error))
            else
              && Has(f, Value) && f.value == action.value
              && forall n :: n in Through(ts[k].kids) ==>
                   exists way: seq<FutureImpl> :: ValuePath(n, way) && way[|way| - 1] == f
    decreases k
  {
    if k > 0 {
      assert ts[..k] == [ts[0]] + ts[1..][..k - 1];
      assert ts[0] in ts[..k];
      HandledIsPassedOn(ts[1..], parent, o, k - 1, action);
    } else {
      HandledHere(ts[0], parent, o, action);
      var f, kids := ts[0].root, ts[0].kids;
      if action.Fails? {
        forall n | n in Through(kids) ensures Has(n, Failure(action.error)) {
          HasThrough(kids, f, Failure(action.error), n);
        }
      } else {
        forall n | n in Through(kids)
          ensures exists way: seq<FutureImpl> :: ValuePath(n, way) && way[|way| - 1] == f
        {
          ReadsThrough(kids, f, [f], n);
        }
      }
    }
  }

  // ---------- how far a walk gets ----------

  /** Its turn came: TryPostInternal was called on it and did something. */
  ghost predicate HadItsTurn(t: Tree)
    reads t.root
  {
    if t.root.traits.isMultiPost then t.root.calls > t.calls else t.root.state != t.was
  }

  lemma PostedLeavesPending(t: Traits, task: Task, o: Outcome)
    ensures Posted(t, task, o).state != Pending
  {
  }

  lemma {:induction false} UntouchedBehind(ts: seq<Tree>, k: nat)
    requires ReadyForest(ts) && k < |ts|
    ensures !HadItsTurn(ts[k])
  {
    if k > 0 { UntouchedBehind(ts[1..], k - 1); }
  }

  /** After the walk of a list of Pending continuations, entry k had its turn if and only if no MultiPost future stands
      before it. */
  lemma {:induction false} TurnsUpToMultiPost(ts: seq<Tree>, parent: FutureImpl, o: Outcome, k: nat)
    requires AfterForest(ts, parent, o) && k < |ts| && forall t <- ts :: t.was == Pending
    ensures HadItsTurn(ts[k]) <==> SinglePosts(ts[..k])
  {
    PostedLeavesPending(ts[0].root.traits, ts[0].root.task, o);
    if k > 0 {
      assert ts[..k] == [ts[0]] + ts[1..][..k - 1];
      if ts[0].root.traits.isMultiPost {
        assert ts[0] in ts[..k];
        UntouchedBehind(ts[1..], k - 1);
      } else {
        TurnsUpToMultiPost(ts[1..], parent, o, k - 1);
      }
    }
  }

  /** So the walk is complete if and only if only the last continuation can be a MultiPost one. */
  lemma WalkIsCompleteIff(ts: seq<Tree>, parent: FutureImpl, o: Outcome)
    requires AfterForest(ts, parent, o) && ts != [] && forall t <- ts :: t.was == Pending
    ensures (forall k :: 0 <= k < |ts| ==> HadItsTurn(ts[k])) <==> SinglePosts(ts[..|ts| - 1])
  {
    forall k | 0 <= k < |ts| ensures HadItsTurn(ts[k]) <==>
        SinglePosts(ts[..k]) { TurnsUpToMultiPost(ts, parent, o, k); }
    forall k | 0 <= k < |ts| ensures forall t <- ts[..k] :: t in ts[..|ts| - 1] {}
  }

  // ---------- an example ----------

  const SHARED := Traits(true, false, false, false, 0, false, false, false)
  const PASSES := Traits(true, true, false, false, 0, false, false, false)
  const COMBINES := Traits(false, false, true, false, 0, false, true, true)

  /** A future that nothing was added to. */
  ghost function Leaf(f: FutureImpl, isLast: bool): Tree {
    Tree(f, Pending, isLast, 0, [])
  }

  lemma LeafNodes(f: FutureImpl, isLast: bool)
    ensures Nodes(Leaf(f, isLast)) == {f}
  {
    assert ForestNodes([]) == {};
  }

  lemma LeavesNodes(f: FutureImpl, g: FutureImpl)
    ensures ForestNodes([Leaf(f, true)]) == {f}
    ensures ForestNodes([Leaf(g, false)] + [Leaf(f, true)]) == {g, f}
  {
    LeafNodes(f, true);
    LeafNodes(g, false);
    var list := [Leaf(g, false)] + [Leaf(f, true)];
    assert [Leaf(f, true)][1..] == [] && list[1..] == [Leaf(f, true)];
  }

  /** A pass-through future is added to a shared parent, then a MultiPost one. The parent succeeds, and the first is
      never posted. */
  method MultiPostHidesTheRest() returns (parent: FutureImpl, hidden: FutureImpl, multi: FutureImpl)
    ensures parent.state == Succeeded && parent.cont == null && parent.invoked
    ensures multi.traits.isMultiPost && multi.calls == 1
    ensures !hidden.traits.isMultiPost && hidden.state == Pending
  {
    var idle := Task(KeepsIt, Nothing, Nothing);
    var tls := new ThreadLocal();
    parent := new FutureImpl(SHARED, idle);
    hidden := new FutureImpl(PASSES, idle);
    multi := new FutureImpl(COMBINES, idle);
    ghost var first, second := Leaf(hidden, true), Leaf(multi, true);
    LeafNodes(hidden, true);
    LeafNodes(multi, true);
    LeavesNodes(hidden, multi);
    var crashed := parent.AddContinuation(tls, hidden, first, [], Value);
    assert [first] + [] == [first];
    crashed := parent.AddContinuation(tls, multi, second, [first], Value);
    ghost var list := [Leaf(multi, false)] + [first];
    assert list[0] == Leaf(multi, false) && list[1..] == [first];
    var done := parent.TrySetSuccess(tls, list);
    assert ReadyForest([first]) && Ready(first);
  }

  const PROMISE := Traits(true, false, false, false, 8, false, false, false)
  const HANDLES := Traits(true, false, false, false, 8, false, true, true)

  /** A Pending future, and one below it that passes its outcome on. */
  method WithReader(tls: ThreadLocal, traits: Traits, task: Task) returns (f: FutureImpl, reader: FutureImpl)
    modifies tls
    ensures fresh(f) && fresh(reader) && f != reader && tls.current == old(tls.current)
    ensures f.traits == traits && f.task == task && f.state == Pending && f.link == null && f.error == NoError
    ensures f.calls == 0 && reader.traits == PASSES && Waiting(f, [Leaf(reader, true)])
    ensures ForestNodes([Leaf(reader, true)]) == {reader} && Through([Leaf(reader, true)]) == {reader}
  {
    f := new FutureImpl(traits, task);
    reader := new FutureImpl(PASSES, Task(KeepsIt, Nothing, Nothing));
    ghost var leaf := Leaf(reader, true);
    LeafNodes(reader, true);
    var crashed := f.AddContinuation(tls, reader, leaf, [], Value);
    assert [leaf] + [] == [leaf] && ForestNodes([leaf]) == {reader} && [leaf][1..] == [];
  }

  /** A new promise with a value takes the value it is given, and a future that passes it on reads it. */
  method PromiseDelivers(v: int) returns (read: int)
    ensures read == v
  {
    var tls := new ThreadLocal();
    var promise, reader := WithReader(tls, PROMISE, Task(KeepsIt, Nothing, Nothing));
    var done := promise.TrySetValue(tls, v, [Leaf(reader, true)]);
    ghost var way: seq<FutureImpl> :| ValuePath(reader, way) && way[|way| - 1] == promise;
    read := reader.GetValue(way);
  }

  /** A parent fails, the TaskCatch of its continuation sets a value: the future has recovered, and a future that passes
      it on reads that value. */
  method CatchRecovers(e: int, v: int, wrong: Action) returns (read: int)
    ensures read == v
  {
    var tls := new ThreadLocal();
    var parent := new FutureImpl(SHARED, Task(KeepsIt, Nothing, Nothing));
    var handler, reader := WithReader(tls, HANDLES, Task(KeepsIt, wrong, SetsValue(v)));
    ghost var tree := Tree(handler, Pending, true, 0, [Leaf(reader, true)]);
    assert Nodes(tree) == {handler, reader};
    var crashed := parent.AddContinuation(tls, handler, tree, [], Value);
    assert [tree] + [] == [tree] && [tree][..0] == [];
    var done := parent.TrySetError(tls, e, [tree]);
    HandledIsPassedOn([tree], parent, Failure(e), 0, SetsValue(v));
    ghost var way: seq<FutureImpl> :| ValuePath(reader, way) && way[|way| - 1] == handler;
    read := reader.GetValue(way);
  }
}
