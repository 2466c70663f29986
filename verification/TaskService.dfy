/** The state QueueService guards with its mutex, as a value, and what each of its locked sections does to it. */
module TaskService {

  import opened Options

  type Task = nat

  datatype PendingTaskAction = Complete | Cancel

  /** posted, taken, flushed and rejected are history: every task given to Post, those TryDequeTask returned, those
      Shutdown took out to cancel, and those Post cancelled because of the shutdown. */
  datatype Service = Service(
    queue: seq<Task>, suspendCounter: nat, shutdownAction: Option<PendingTaskAction>,
    posted: seq<Task>, taken: seq<Task>, flushed: seq<Task>, rejected: seq<Task>)
  {
    /** Whether Post schedules the task; it cancels it instead after a shutdown. */
    predicate Schedules() {
      shutdownAction.None? && suspendCounter == 0
    }

    function Post(task: Task): Service {
      if shutdownAction.None? then this.(queue := queue + [task], posted := posted + [task])
      else this.(posted := posted + [task], rejected := rejected + [task])
    }

    function Suspend(): Service {
      this.(suspendCounter := suspendCounter + 1)
    }

    function Resume(): Service
      requires suspendCounter > 0
    {
      this.(suspendCounter := suspendCounter - 1)
    }

    /** How often Resume calls the scheduler. */
    function ResumePosts(): nat
      requires suspendCounter > 0
    {
      if suspendCounter == 1 then |queue| else 0
    }

    function Shutdown(action: PendingTaskAction): Service {
      var s := this.(shutdownAction := Some(action));
      if action == Cancel then s.(queue := [], flushed := flushed + queue) else s
    }

    predicate HasTasks() {
      suspendCounter == 0 && queue != []
    }

    function TryDequeue(): (Service, Option<Task>) {
      if HasTasks() then (this.(queue := queue[1..], taken := taken + [queue[0]]), Some(queue[0])) else (this, None)
    }

    /** Every posted task is in one place, and the places keep the order of the posts. */
    ghost predicate Conserves() {
      && posted == taken + flushed + queue + rejected
      && (flushed != [] ==> queue == [] && shutdownAction.Some?)
      && (rejected != [] ==> shutdownAction.Some?)
    }
  }

  const EMPTY := Service([], 0, None, [], [], [], [])

  datatype Call =
    | CallPost(task: Task) | CallSuspend | CallResume | CallShutdown(action: PendingTaskAction) | CallDequeue

  /** One locked section. Resume without a Suspend fails fast. */
  ghost predicate Step(s: Service, call: Call, t: Service) {
    match call
    case CallPost(task) => t == s.Post(task)
    case CallSuspend => t == s.Suspend()
    case CallResume => s.suspendCounter > 0 && t == s.Resume()
    case CallShutdown(action) => t == s.Shutdown(action)
    case CallDequeue => t == s.TryDequeue().0
  }

  lemma PostConserves(s: Service, task: Task)
    requires s.Conserves()
    ensures s.Post(task).Conserves()
  {
    if s.shutdownAction.None? {
      assert s.taken + s.flushed + (s.queue + [task]) == (s.taken + s.flushed + s.queue) + [task];
    } else {
      var kept := s.taken + s.flushed + s.queue;
      assert kept + (s.rejected + [task]) == (kept + s.rejected) + [task];
    }
  }

  lemma StepConserves(s: Service, call: Call, t: Service)
    requires s.Conserves() && Step(s, call, t)
    ensures t.Conserves()
  {
    match call
    case CallDequeue => if s.HasTasks() { assert s.queue == [s.queue[0]] + s.queue[1..]; }
    case CallShutdown(action) =>
    case CallPost(task) => PostConserves(s, task);
    case _ =>
  }

  ghost predicate StepAt(run: seq<Service>, calls: seq<Call>, i: nat)
    requires i < |calls| && |run| == |calls| + 1
  {
    Step(run[i], calls[i], run[i + 1])
  }

  ghost predicate Run(run: seq<Service>, calls: seq<Call>) {
    && |run| == |calls| + 1 && run[0] == EMPTY
    && forall i {:trigger StepAt(run, calls, i)} :: 0 <= i < |calls| ==> StepAt(run, calls, i)
  }

  /** At every point of every run, each task given to Post is in exactly one of: taken by TryDequeTask, taken out
      by Shutdown, still queued, rejected; each place in the order of the posts, and the places in that order. */
  lemma {:induction false} Conservation(run: seq<Service>, calls: seq<Call>, i: nat)
    requires Run(run, calls) && i < |run|
    ensures run[i].Conserves()
  {
    if i > 0 {
      Conservation(run, calls, i - 1);
      assert StepAt(run, calls, i - 1);
      StepConserves(run[i - 1], calls[i - 1], run[i]);
    }
  }

  /** Once shut down, always shut down: nothing is ever enqueued again, so the queue only loses tasks from its
      front. */
  lemma {:induction false} NothingAfterShutdown(run: seq<Service>, calls: seq<Call>, i: nat, j: nat)
    requires Run(run, calls) && i <= j < |run| && run[i].shutdownAction.Some?
    ensures run[j].shutdownAction.Some?
    ensures |run[j].queue| <= |run[i].queue| && run[j].queue == run[i].queue[|run[i].queue| - |run[j].queue|..]
    decreases j
  {
    if i < j {
      NothingAfterShutdown(run, calls, i, j - 1);
      assert StepAt(run, calls, j - 1);
    }
  }

  /** After Shutdown(Cancel) the queue is empty in every later state. */
  lemma CancelEmptiesForever(run: seq<Service>, calls: seq<Call>, i: nat, j: nat)
    requires Run(run, calls) && i < j < |run| && calls[i] == CallShutdown(Cancel)
    ensures run[j].queue == []
  {
    assert StepAt(run, calls, i);
    NothingAfterShutdown(run, calls, i + 1, j);
  }

  // ---------- what suspending and shutting down do ----------

  function Times(calls: seq<Call>, call: Call): nat {
    if calls == [] then 0 else Times(calls[..|calls| - 1], call) + if calls[|calls| - 1] == call then 1 else 0
  }

  /** The counter is the number of Suspends less the number of Resumes. */
  lemma {:induction false} CounterIsExact(run: seq<Service>, calls: seq<Call>, i: nat)
    requires Run(run, calls) && i < |run|
    ensures run[i].suspendCounter + Times(calls[..i], CallResume) == Times(calls[..i], CallSuspend)
  {
    if i > 0 {
      CounterIsExact(run, calls, i - 1);
      assert StepAt(run, calls, i - 1);
      assert calls[..i][..i - 1] == calls[..i - 1];
    }
  }

  /** A task is taken out by a shutdown only if that shutdown cancels. */
  lemma {:induction false} OnlyCancelFlushes(run: seq<Service>, calls: seq<Call>, i: nat)
    requires Run(run, calls) && i < |run| && CallShutdown(Cancel) !in calls[..i]
    ensures run[i].flushed == []
  {
    if i > 0 {
      assert calls[i - 1] in calls[..i] && forall call <- calls[..i - 1] :: call in calls[..i];
      OnlyCancelFlushes(run, calls, i - 1);
      assert StepAt(run, calls, i - 1);
    }
  }

  /** A service is shut down exactly by the first Shutdown, and keeps the action of the last one. */
  lemma {:induction false} LastShutdownCounts(run: seq<Service>, calls: seq<Call>, i: nat)
    requires Run(run, calls) && i < |run|
    ensures run[i].shutdownAction.None? <==> forall k :: 0 <= k < i ==> !calls[k].CallShutdown?
    ensures forall k :: 0 <= k < i && calls[k].CallShutdown? && (forall l :: k < l < i ==> !calls[l].CallShutdown?) ==>
                          run[i].shutdownAction == Some(calls[k].action)
  {
    if i > 0 {
      LastShutdownCounts(run, calls, i - 1);
      assert StepAt(run, calls, i - 1);
    }
  }

  ghost predicate SuspendedThroughout(run: seq<Service>, i: nat, j: nat)
    requires i <= j < |run|
  {
    forall k :: i <= k <= j ==> run[k].suspendCounter > 0
  }

  /** The calls of the scheduler that one locked section leads to. */
  function Signals(s: Service, call: Call): nat {
    match call
    case CallPost(_) => if s.Schedules() then 1 else 0
    case CallResume => if s.suspendCounter > 0 then s.ResumePosts() else 0
    case _ => 0
  }

  function AllSignals(run: seq<Service>, calls: seq<Call>, i: nat, j: nat): nat
    requires i <= j <= |calls| && |run| == |calls| + 1
  {
    if i == j then 0 else AllSignals(run, calls, i, j - 1) + Signals(run[j - 1], calls[j - 1])
  }

  /** While it is suspended the service gives out no task and leaves the scheduler alone. */
  lemma {:induction false} SuspendedIsQuiet(run: seq<Service>, calls: seq<Call>, i: nat, j: nat)
    requires Run(run, calls) && i <= j < |run| && SuspendedThroughout(run, i, j)
    ensures run[j].taken == run[i].taken && AllSignals(run, calls, i, j) == 0
    decreases j
  {
    if i < j {
      SuspendedIsQuiet(run, calls, i, j - 1);
      assert StepAt(run, calls, j - 1);
      assert run[j].suspendCounter > 0 && run[j - 1].suspendCounter > 0;
    }
  }

  /** Neither suspended nor shut down with Cancel between the two. */
  ghost predicate AwakeThroughout(run: seq<Service>, calls: seq<Call>, i: nat, j: nat)
    requires i <= j <= |calls| && |run| == |calls| + 1
  {
    && (forall k :: i < k <= j ==> run[k].suspendCounter == 0)
    && (forall k :: i <= k < j ==> calls[k] != CallShutdown(Cancel))
  }

  /** From the Resume that ended a suspension on, or from the start, the scheduler is called exactly once for each task
      that could be taken: what was taken since then, and what is still queued. */
  lemma {:induction false} EveryTaskIsSignalled(run: seq<Service>, calls: seq<Call>, i: nat, j: nat)
    requires Run(run, calls) && i <= j < |run| && AwakeThroughout(run, calls, i, j)
    requires i == 0 || (i < j && run[i].suspendCounter > 0)
    ensures |run[j].taken| == |run[i].taken| + AllSignals(run, calls, i, j) - |run[j].queue|
    decreases j
  {
    if i < j {
      assert StepAt(run, calls, j - 1);
      if i < j - 1 || i == 0 { EveryTaskIsSignalled(run, calls, i, j - 1); }
    }
  }

  /** As many calls of TryDequeTask as there are tasks queued take all of them, in order, unless it is suspended. */
  lemma {:induction false} DequeuesInOrder(run: seq<Service>, calls: seq<Call>, i: nat, j: nat)
    requires Run(run, calls) && i <= j < |run| && j - i <= |run[i].queue| && run[i].suspendCounter == 0
    requires forall k :: i <= k < j ==> calls[k] == CallDequeue
    ensures run[j].taken == run[i].taken + run[i].queue[..j - i] && run[j].queue == run[i].queue[j - i..]
    ensures run[j].suspendCounter == 0
    decreases j
  {
    if i < j {
      DequeuesInOrder(run, calls, i, j - 1);
      assert StepAt(run, calls, j - 1);
      assert run[j - 1].HasTasks();
    }
  }
}
