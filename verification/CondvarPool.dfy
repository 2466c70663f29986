/** The thread pool of ThreadPoolSchedulerLinux before its shutdown: workers under a mutex and a condition variable.

    A worker that failed to dequeue takes the scheduler's lock, gives up its busy count, and asks the queue again
    under that lock, which it keeps until it waits. A poster calls the scheduler after it released the queue's lock, so
    between the two it owes a call. */
module CondvarPool {
  import opened Options
  import opened TaskService
  import opened Counting
  import opened Paths

  datatype Worker =
    | Draining             // about to call TryDequeTask
    | Invoking(task: Task) // in InvokeTask
    | Locking              // TryDequeTask returned false; about to lock
    | Checking             // holds the lock, not busy; about to call HasTasks
    | Parking              // holds the lock, HasTasks returned false; about to wait
    | Waiting              // in m_wakeUpThread.wait
    | Woken                // notified, or spuriously woken; about to reacquire the lock

  /** lock: the worker that holds m_threadMutex across steps. owed: calls of Post that posters and resumers still
      have to make. finished is history: the tasks whose InvokeTask returned. */
  datatype State = State(
    service: Service, workers: seq<Worker>, busyThreads: int, lock: Option<nat>, owed: nat,
    maxThreads: nat, finished: seq<Task>)

  predicate Busy(w: Worker) {
    w.Draining? || w.Invoking? || w.Locking?
  }

  ghost predicate Init(s: State) {
    && s.service == EMPTY && s.workers == [] && s.busyThreads == 0 && s.lock == None && s.owed == 0
    && s.maxThreads > 0 && s.finished == []
  }

  function Set(s: State, w: nat, worker: Worker): State
    requires w < |s.workers|
  {
    s.(workers := s.workers[w := worker])
  }

  // ---------- clients of the queue ----------

  ghost predicate PostTask(s: State, t: State, task: Task) {
    t == s.(service := s.service.Post(task), owed := s.owed + if s.service.Schedules() then 1 else 0)
  }

  ghost predicate Suspend(s: State, t: State) {
    t == s.(service := s.service.Suspend())
  }

  ghost predicate Resume(s: State, t: State) {
    s.service.suspendCounter > 0 && t == s.(service := s.service.Resume(), owed := s.owed + s.service.ResumePosts())
  }

  /** Post of the scheduler: another thread if all are busy and one more is allowed, else notify one waiter. */
  ghost predicate SchedulerPost(s: State, t: State, w: nat) {
    && s.owed > 0 && s.lock == None
    && var paid := s.(owed := s.owed - 1);
       if s.busyThreads == |s.workers| && |s.workers| < s.maxThreads then
         t == paid.(busyThreads := s.busyThreads + 1, workers := s.workers + [Draining])
       else if exists i :: 0 <= i < |s.workers| && s.workers[i] == Waiting then
         w < |s.workers| && s.workers[w] == Waiting && t == Set(paid, w, Woken)
       else
         t == paid
  }

  // ---------- workers ----------

  ghost predicate Dequeue(s: State, t: State, w: nat) {
    && w < |s.workers| && s.workers[w] == Draining
    && var (service, task) := s.service.TryDequeue();
       t == Set(s.(service := service), w, if task.Some? then Invoking(task.value) else Locking)
  }

  ghost predicate Finish(s: State, t: State, w: nat) {
    && w < |s.workers| && s.workers[w].Invoking?
    && t == Set(s.(finished := s.finished + [s.workers[w].task]), w, Draining)
  }

  ghost predicate Lock(s: State, t: State, w: nat) {
    && w < |s.workers| && s.workers[w] == Locking && s.lock == None
    && t == Set(s.(lock := Some(w), busyThreads := s.busyThreads - 1), w, Checking)
  }

  ghost predicate Recheck(s: State, t: State, w: nat) {
    && w < |s.workers| && s.workers[w] == Checking
    && t == if s.service.HasTasks() then Set(s.(lock := None, busyThreads := s.busyThreads + 1), w, Draining)
            else Set(s, w, Parking)
  }

  /** The wait releases the lock. */
  ghost predicate Park(s: State, t: State, w: nat) {
    w < |s.workers| && s.workers[w] == Parking && t == Set(s.(lock := None), w, Waiting)
  }

  ghost predicate WakeUp(s: State, t: State, w: nat) {
    && w < |s.workers| && s.workers[w] == Woken && s.lock == None
    && t == Set(s.(busyThreads := s.busyThreads + 1), w, Draining)
  }

  ghost predicate SpuriousWakeUp(s: State, t: State, w: nat) {
    w < |s.workers| && s.workers[w] == Waiting && t == Set(s, w, Woken)
  }

  ghost predicate WorkerStep(s: State, t: State, w: nat) {
    Dequeue(s, t, w) || Finish(s, t, w) || Lock(s, t, w) || Recheck(s, t, w) || Park(s, t, w) || WakeUp(s, t, w)
  }

  ghost predicate ClientStep(s: State, t: State) {
    (exists task :: PostTask(s, t, task)) || Suspend(s, t) || Resume(s, t)
  }

  ghost predicate Next(s: State, t: State) {
    || ClientStep(s, t)
    || (exists w :: SchedulerPost(s, t, w))
    || (exists w :: WorkerStep(s, t, w) || SpuriousWakeUp(s, t, w))
  }

  ghost predicate StepAt(run: seq<State>, i: nat)
    requires i + 1 < |run|
  {
    Next(run[i], run[i + 1])
  }

  ghost predicate Run(run: seq<State>) {
    && |run| > 0 && Init(run[0])
    && forall i {:trigger StepAt(run, i)} :: 0 <= i < |run| - 1 ==> StepAt(run, i)
  }

  // ---------- the invariant ----------

  /** Still to ask the queue for tasks. */
  predicate Awake(w: Worker) {
    w != Waiting && w != Parking
  }

  ghost predicate SomeoneAwake(s: State) {
    exists i :: 0 <= i < |s.workers| && Awake(s.workers[i])
  }

  ghost predicate Inv(s: State) {
    && s.service.Conserves() && s.service.shutdownAction.None?
    && s.maxThreads > 0 && |s.workers| <= s.maxThreads
    && s.busyThreads == Count(s.workers, Busy)
    && (forall i :: 0 <= i < |s.workers| ==> (s.workers[i] in {Checking, Parking} <==> s.lock == Some(i)))
    && (s.lock.Some? ==> s.lock.value < |s.workers|)
    && (s.service.HasTasks() ==> s.owed > 0 || SomeoneAwake(s))
  }

  /** With one thread: everything taken is finished, but for the task that is running. */
  ghost predicate SerialInv(s: State) {
    s.maxThreads == 1 ==>
      s.service.taken == s.finished + if |s.workers| == 1 && s.workers[0].Invoking? then [s.workers[0].task] else []
  }

  lemma PostPreserves(s: State, t: State, w: nat)
    requires Inv(s) && SchedulerPost(s, t, w)
    ensures Inv(t) && SomeoneAwake(t)
  {
    CountBound(s.workers, Busy);
    if s.busyThreads == |s.workers| && |s.workers| < s.maxThreads {
      CountAppend(s.workers, Draining, Busy);
      assert Awake(t.workers[|s.workers|]);
    } else if exists i :: 0 <= i < |s.workers| && s.workers[i] == Waiting {
      CountUpdate(s.workers, w, Woken, Busy);
      assert Awake(t.workers[w]);
    } else {
      assert Awake(s.workers[0]);
    }
  }

  lemma DequeuePreserves(s: State, t: State, w: nat)
    requires Inv(s) && Dequeue(s, t, w)
    ensures Inv(t)
  {
    CountUpdate(s.workers, w, t.workers[w], Busy);
    StepConserves(s.service, CallDequeue, t.service);
    assert Awake(t.workers[w]);
  }

  lemma RecheckPreserves(s: State, t: State, w: nat)
    requires Inv(s) && Recheck(s, t, w)
    ensures Inv(t)
  {
    CountUpdate(s.workers, w, t.workers[w], Busy);
    if s.service.HasTasks() { assert Awake(t.workers[w]); }
  }

  lemma MovePreserves(s: State, t: State, w: nat)
    requires Inv(s) && (Finish(s, t, w) || Lock(s, t, w) || WakeUp(s, t, w) || SpuriousWakeUp(s, t, w))
    ensures Inv(t)
  {
    CountUpdate(s.workers, w, t.workers[w], Busy);
    assert Awake(t.workers[w]);
  }

  lemma ParkPreserves(s: State, t: State, w: nat)
    requires Inv(s) && Park(s, t, w)
    ensures Inv(t)
  {
    CountUpdate(s.workers, w, t.workers[w], Busy);
    if i :| 0 <= i < |s.workers| && Awake(s.workers[i]) { assert t.workers[i] == s.workers[i]; }
  }

  lemma WorkerPreserves(s: State, t: State, w: nat)
    requires Inv(s) && (WorkerStep(s, t, w) || SpuriousWakeUp(s, t, w))
    ensures Inv(t)
  {
    if Dequeue(s, t, w) { DequeuePreserves(s, t, w); }
    else if Recheck(s, t, w) { RecheckPreserves(s, t, w); }
    else if Park(s, t, w) { ParkPreserves(s, t, w); }
    else { MovePreserves(s, t, w); }
  }

  lemma NextPreserves(s: State, t: State)
    requires Inv(s) && Next(s, t)
    ensures Inv(t)
  {
    if task :| PostTask(s, t, task) {
      StepConserves(s.service, CallPost(task), t.service);
    } else if Suspend(s, t) || Resume(s, t) {
    } else if w :| SchedulerPost(s, t, w) {
      PostPreserves(s, t, w);
    } else {
      var w :| WorkerStep(s, t, w) || SpuriousWakeUp(s, t, w);
      WorkerPreserves(s, t, w);
    }
  }

  lemma SerialClient(s: State, t: State)
    requires SerialInv(s) && ClientStep(s, t)
    ensures SerialInv(t)
  {
  }

  lemma SerialPost(s: State, t: State, w: nat)
    requires SerialInv(s) && SchedulerPost(s, t, w)
    ensures SerialInv(t)
  {
  }

  lemma SerialWorker(s: State, t: State, w: nat)
    requires SerialInv(s) && |s.workers| <= s.maxThreads && (WorkerStep(s, t, w) || SpuriousWakeUp(s, t, w))
    ensures SerialInv(t)
  {
  }

  lemma SerialPreserves(s: State, t: State)
    requires Inv(s) && SerialInv(s) && Next(s, t)
    ensures SerialInv(t)
  {
    if ClientStep(s, t) {
      SerialClient(s, t);
    } else if w: nat :| SchedulerPost(s, t, w) {
      SerialPost(s, t, w);
    } else {
      var w: nat :| WorkerStep(s, t, w) || SpuriousWakeUp(s, t, w);
      SerialWorker(s, t, w);
    }
  }

  lemma {:induction false} RunInv(run: seq<State>, i: nat)
    requires Run(run) && i < |run|
    ensures Inv(run[i]) && SerialInv(run[i])
  {
    if i > 0 {
      RunInv(run, i - 1);
      assert StepAt(run, i - 1);
      NextPreserves(run[i - 1], run[i]);
      SerialPreserves(run[i - 1], run[i]);
    }
  }

  // ---------- what every run guarantees ----------

  /** No stranded work: a task that could run has an awake worker to find it, or a caller who still owes the
      scheduler a Post. */
  lemma NoStrandedWork(run: seq<State>, i: nat)
    requires Run(run) && i < |run| && run[i].service.HasTasks()
    ensures run[i].owed > 0 || SomeoneAwake(run[i])
  {
    RunInv(run, i);
  }

  /** The busy counter counts the workers that are running, and is bounded by the threads there are. */
  lemma BusyIsExact(run: seq<State>, i: nat)
    requires Run(run) && i < |run|
    ensures run[i].busyThreads == Count(run[i].workers, Busy)
    ensures 0 <= run[i].busyThreads <= |run[i].workers| <= run[i].maxThreads
  {
    RunInv(run, i);
    CountBound(run[i].workers, Busy);
  }

  ghost predicate Stuck(s: State) {
    forall t, w :: !WorkerStep(s, t, w) && !SchedulerPost(s, t, w)
  }

  /** No deadlock with work in the queue: when no worker can take a step and no Post is owed, the queue is empty or
      suspended. */
  lemma StuckMeansDrained(run: seq<State>, i: nat)
    requires Run(run) && i < |run| && Stuck(run[i])
    ensures !run[i].service.HasTasks()
  {
    RunInv(run, i);
    StuckIsDrained(run[i]);
  }

  lemma StuckIsDrained(s: State)
    requires Inv(s) && Stuck(s)
    ensures !s.service.HasTasks()
  {
    if s.lock.Some? {
      CanStep(s, s.lock.value);
    } else if s.owed > 0 {
      PostEnabled(s);
    } else if s.service.HasTasks() {
      var w :| 0 <= w < |s.workers| && Awake(s.workers[w]);
      CanStep(s, w);
    }
  }

  lemma PostEnabled(s: State)
    requires s.owed > 0 && s.lock == None
    ensures exists t, w :: SchedulerPost(s, t, w)
  {
    var paid := s.(owed := s.owed - 1);
    if s.busyThreads == |s.workers| && |s.workers| < s.maxThreads {
      assert SchedulerPost(s, paid.(busyThreads := s.busyThreads + 1, workers := s.workers + [Draining]), 0);
    } else if w :| 0 <= w < |s.workers| && s.workers[w] == Waiting {
      assert SchedulerPost(s, Set(paid, w, Woken), w);
    } else {
      assert SchedulerPost(s, paid, 0);
    }
  }

  lemma CanStep(s: State, w: nat)
    requires w < |s.workers| && s.workers[w] != Waiting
    requires s.lock == None || s.workers[w] in {Checking, Parking}
    ensures exists t :: WorkerStep(s, t, w)
  {
    match s.workers[w]
    case Draining =>
      var (service, task) := s.service.TryDequeue();
      assert WorkerStep(s, Set(s.(service := service), w, if task.Some? then Invoking(task.value) else Locking), w);
    case Invoking(task) => assert WorkerStep(s, Set(s.(finished := s.finished + [task]), w, Draining), w);
    case Locking => assert WorkerStep(s, Set(s.(lock := Some(w), busyThreads := s.busyThreads - 1), w, Checking), w);
    case Checking =>
      var t := if s.service.HasTasks() then Set(s.(lock := None, busyThreads := s.busyThreads + 1), w, Draining)
               else Set(s, w, Parking);
      assert WorkerStep(s, t, w);
    case Parking => assert WorkerStep(s, Set(s.(lock := None), w, Waiting), w);
    case Woken => assert WorkerStep(s, Set(s.(busyThreads := s.busyThreads + 1), w, Draining), w);
  }

  /** A pool of one thread is a FIFO queue: the posts are what finished, then the running task, then the queue. */
  lemma SerialOrder(run: seq<State>, i: nat)
    requires Run(run) && i < |run| && run[i].maxThreads == 1
    ensures var s := run[i];
            && |s.workers| <= 1
            && s.service.posted ==
                 s.finished
                 + (if |s.workers| == 1 && s.workers[0].Invoking? then [s.workers[0].task] else [])
                 + s.service.queue
  {
    RunInv(run, i);
    var s := run[i];
    assert s.service.posted == s.service.taken + s.service.queue;
  }

  // ---------- every task, however many threads ----------

  function RunsTask(task: Task): Worker -> bool {
    (worker: Worker) => worker.Invoking? && worker.task == task
  }

  /** As often as the task was taken it is finished or running. */
  ghost predicate Runs(s: State, task: Task) {
    Count(s.service.taken, Is(task)) == Count(s.finished, Is(task)) + Count(s.workers, RunsTask(task))
  }

  lemma TakeRuns(s: State, t: State, w: nat, task: Task)
    requires Runs(s, task) && (Dequeue(s, t, w) || Finish(s, t, w))
    ensures Runs(t, task)
  {
    CountUpdate(s.workers, w, t.workers[w], RunsTask(task));
    if Finish(s, t, w) {
      CountAppend(s.finished, s.workers[w].task, Is(task));
    } else if s.service.HasTasks() {
      CountAppend(s.service.taken, s.service.queue[0], Is(task));
    }
  }

  lemma MoveRuns(s: State, t: State, w: nat, task: Task)
    requires Runs(s, task) && t.service.taken == s.service.taken && t.finished == s.finished
    requires || t.workers == s.workers + [Draining] || t.workers == s.workers
             || (w < |s.workers| == |t.workers| && t.workers == s.workers[w := t.workers[w]]
                 && !s.workers[w].Invoking? && !t.workers[w].Invoking?)
    ensures Runs(t, task)
  {
    if t.workers == s.workers + [Draining] {
      CountAppend(s.workers, Draining, RunsTask(task));
    } else if t.workers != s.workers {
      CountUpdate(s.workers, w, t.workers[w], RunsTask(task));
    }
  }

  lemma ClientMoves(s: State, t: State)
    requires ClientStep(s, t)
    ensures t.service.taken == s.service.taken && t.finished == s.finished && t.workers == s.workers
  {
  }

  lemma WorkerRuns(s: State, t: State, w: nat, task: Task)
    requires Runs(s, task) && (WorkerStep(s, t, w) || SpuriousWakeUp(s, t, w))
    ensures Runs(t, task)
  {
    if Dequeue(s, t, w) || Finish(s, t, w) { TakeRuns(s, t, w, task); } else { MoveRuns(s, t, w, task); }
  }

  lemma StepRuns(s: State, t: State, task: Task)
    requires Runs(s, task) && Next(s, t)
    ensures Runs(t, task)
  {
    if ClientStep(s, t) {
      ClientMoves(s, t);
      MoveRuns(s, t, 0, task);
    } else if w: nat :| SchedulerPost(s, t, w) {
      MoveRuns(s, t, w, task);
    } else {
      var w: nat :| WorkerStep(s, t, w) || SpuriousWakeUp(s, t, w);
      WorkerRuns(s, t, w, task);
    }
  }

  lemma InitRuns(s: State, task: Task)
    requires Init(s)
    ensures Runs(s, task)
  {
  }

  lemma {:induction false} RunRuns(run: seq<State>, i: nat, task: Task)
    requires Run(run) && i < |run|
    ensures Runs(run[i], task)
  {
    if i == 0 {
      InitRuns(run[0], task);
    } else {
      RunRuns(run, i - 1, task);
      assert StepAt(run, i - 1);
      StepRuns(run[i - 1], run[i], task);
    }
  }

  /** However many threads there are, every task is finished, running or still queued as often as it was posted. */
  lemma EveryTaskOnce(run: seq<State>, i: nat, task: Task)
    requires Run(run) && i < |run|
    ensures Count(run[i].service.posted, Is(task)) ==
              Count(run[i].finished, Is(task)) + Count(run[i].workers, RunsTask(task))
              + Count(run[i].service.queue, Is(task))
  {
    RunInv(run, i);
    RunRuns(run, i, task);
    var s := run[i].service;
    assert s.posted == s.taken + s.queue;
    CountConcat(s.taken, s.queue, Is(task));
  }

  // ---------- what a Post is good for ----------

  predicate IsInvoking(worker: Worker) {
    worker.Invoking?
  }

  /** Another thread may be created, or one waits to be notified. */
  ghost predicate PostHelps(s: State) {
    || (s.busyThreads == |s.workers| && |s.workers| < s.maxThreads)
    || exists w :: 0 <= w < |s.workers| && s.workers[w] == Waiting
  }

  /** Draining, and a task to be had: the worker runs it, beside those that run already. */
  lemma StartsTask(s: State, w: nat) returns (t: State)
    requires w < |s.workers| && s.workers[w] == Draining && s.service.HasTasks()
    ensures Leads(Next, s, t) && t.finished == s.finished
    ensures t.workers == s.workers[w := Invoking(s.service.queue[0])]
    ensures Count(t.workers, IsInvoking) == Count(s.workers, IsInvoking) + 1
  {
    t := Set(s.(service := s.service.TryDequeue().0), w, Invoking(s.service.queue[0]));
    assert Dequeue(s, t, w) && WorkerStep(s, t, w);
    Stays(Next, s);
    Then(Next, s, s, t);
    CountUpdate(s.workers, w, t.workers[w], IsInvoking);
  }

  /** A Post brings another thread or a waiting one to the point of asking for a task. */
  lemma Recruits(s: State) returns (t: State, w: nat)
    requires s.owed > 0 && s.lock == None && PostHelps(s)
    ensures Leads(Next, s, t) && t.service == s.service && t.finished == s.finished
    ensures w < |t.workers| && t.workers[w] == Draining
    ensures Count(t.workers, IsInvoking) == Count(s.workers, IsInvoking)
  {
    Stays(Next, s);
    var paid := s.(owed := s.owed - 1);
    if s.busyThreads == |s.workers| && |s.workers| < s.maxThreads {
      w := |s.workers|;
      t := paid.(busyThreads := s.busyThreads + 1, workers := s.workers + [Draining]);
      assert SchedulerPost(s, t, 0);
      Then(Next, s, s, t);
      CountAppend(s.workers, Draining, IsInvoking);
    } else {
      w :| 0 <= w < |s.workers| && s.workers[w] == Waiting;
      var woken := Set(paid, w, Woken);
      assert SchedulerPost(s, woken, w);
      Then(Next, s, s, woken);
      t := Set(woken.(busyThreads := woken.busyThreads + 1), w, Draining);
      assert WakeUp(woken, t, w) && WorkerStep(woken, t, w);
      Then(Next, s, woken, t);
      CountUpdate(s.workers, w, Woken, IsInvoking);
      CountUpdate(woken.workers, w, Draining, IsInvoking);
    }
  }

  /** As long as threads are idle or may be created, a task that is to be posted need not wait for those that run. */
  lemma PostStartsTask(s: State)
    requires s.owed > 0 && s.lock == None && s.service.HasTasks() && PostHelps(s)
    ensures exists t :: Leads(Next, s, t) && t.finished == s.finished
                        && Count(t.workers, IsInvoking) == Count(s.workers, IsInvoking) + 1
  {
    var u, w := Recruits(s);
    var t := StartsTask(u, w);
    Joins(Next, s, u, t);
  }

  /** And a thread is created only while all there are are busy. */
  lemma OnlyBusyPoolGrows(run: seq<State>, i: nat)
    requires Run(run) && i + 1 < |run| && |run[i + 1].workers| > |run[i].workers|
    ensures forall w :: 0 <= w < |run[i].workers| ==> Busy(run[i].workers[w])
    ensures |run[i + 1].workers| == |run[i].workers| + 1 <= run[i].maxThreads
  {
    RunInv(run, i);
    assert StepAt(run, i);
    var w: nat :| SchedulerPost(run[i], run[i + 1], w);
    CountAll(run[i].workers, Busy);
  }

  // ---------- how long it takes ----------

  /** How many steps a worker is from waiting, with tasks to be had and without. */
  function Distance(worker: Worker, hasTasks: bool): nat {
    match worker
    case Waiting => 0
    case Draining => if hasTasks then 1 else 4
    case Checking => 2
    case Parking => 1
    case Locking => 3
    case Woken => 5
    case Invoking(_) => 5
  }

  /** What is left to do: a task can set every worker going once more, a Post one of them. */
  ghost function Work(s: State): nat {
    |s.service.queue| * (5 * s.maxThreads + 1) + 6 * s.owed + Sum(s.workers, w => Distance(w, s.service.HasTasks()))
  }

  ghost predicate PoolStep(s: State, t: State, w: nat) {
    WorkerStep(s, t, w) || SchedulerPost(s, t, w)
  }

  lemma MoveWorks(s: State, t: State, w: nat)
    requires w < |s.workers| && w < |t.workers| && t.workers == s.workers[w := t.workers[w]]
    requires t.service == s.service && t.maxThreads == s.maxThreads && t.owed <= s.owed
    requires var distance := w => Distance(w, s.service.HasTasks());
             distance(t.workers[w]) < distance(s.workers[w]) + 6 * (s.owed - t.owed)
    ensures Work(t) < Work(s)
  {
    SumUpdate(s.workers, w, t.workers[w], w => Distance(w, s.service.HasTasks()));
  }

  lemma DequeueWorks(s: State, t: State, w: nat)
    requires Inv(s) && Dequeue(s, t, w) && s.service.HasTasks()
    ensures Work(t) < Work(s)
  {
    SumBound(t.workers, w => Distance(w, t.service.HasTasks()), 5);
    assert |t.workers| <= s.maxThreads;
    OneLess(|s.service.queue|, 5 * s.maxThreads + 1);
  }

  lemma OneLess(n: nat, m: nat)
    requires n > 0
    ensures n * m == (n - 1) * m + m
  {
  }

  lemma PostWorks(s: State, t: State, w: nat)
    requires SchedulerPost(s, t, w)
    ensures Work(t) < Work(s)
  {
    var distance := w => Distance(w, s.service.HasTasks());
    if t.workers == s.workers + [Draining] {
      SumAppend(s.workers, Draining, distance);
    } else if t.workers != s.workers {
      MoveWorks(s, t, w);
    }
  }

  /** Every step of a worker or of a Post leaves less to do. */
  lemma StepWorks(s: State, t: State, w: nat)
    requires Inv(s) && PoolStep(s, t, w)
    ensures Work(t) < Work(s)
  {
    if SchedulerPost(s, t, w) {
      PostWorks(s, t, w);
    } else if Dequeue(s, t, w) && s.service.HasTasks() {
      DequeueWorks(s, t, w);
    } else {
      MoveWorks(s, t, w);
    }
  }

  ghost predicate PoolMoves(s: State, t: State) {
    exists w :: PoolStep(s, t, w)
  }

  /** Nobody but workers and owed Posts takes a step, and nobody wakes up for no reason. */
  ghost predicate LeftAlone(path: seq<State>) {
    |path| > 0 && forall i {:trigger path[i]} :: 0 < i < |path| ==> PoolMoves(path[i - 1], path[i])
  }

  /** Left alone, a pool comes to rest within that many steps, and at rest there is nothing to run. */
  lemma {:induction false} DrainsWithin(path: seq<State>)
    requires LeftAlone(path) && Inv(path[0])
    ensures |path| - 1 <= Work(path[0])
    ensures Stuck(path[|path| - 1]) ==> !path[|path| - 1].service.HasTasks()
  {
    if |path| == 1 {
      if Stuck(path[0]) { StuckIsDrained(path[0]); }
    } else {
      assert PoolMoves(path[1 - 1], path[1]);
      var w: nat :| PoolStep(path[0], path[1], w);
      StepWorks(path[0], path[1], w);
      NextPreserves(path[0], path[1]);
      var rest := path[1..];
      forall i | 0 < i < |rest| ensures PoolMoves(rest[i - 1], rest[i]) { assert path[i + 1] == rest[i]; }
      DrainsWithin(rest);
    }
  }
}
