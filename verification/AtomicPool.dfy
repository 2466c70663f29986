/** The thread pool of ThreadPoolSchedulerWin: no lock, one atomic counter bounded by a compare-and-swap loop.

    The system pool runs a submitted callback on some thread later. A callback drains the queue for a time slice,
    gives up its count, then asks the queue again and posts if there is work. */
module AtomicPool {
  import opened TaskService
  import opened Counting
  import opened Paths

  /** Where a call of Post is. left: the calls its caller still has to make after this one. */
  datatype Thread =
    | PostLoad(left: nat)
    | PostSwap(seen: nat, left: nat)  // m_usedThreads was seen below the maximum
    | Submit(left: nat)               // the swap won; about to SubmitThreadpoolWork
    | Draining                        // a callback about to call TryDequeTask
    | Invoking(task: Task)
    | Releasing                       // about to decrement m_usedThreads
    | Rechecking                      // decremented; about to call HasTasks
    | Ended

  /** submitted: callbacks the system pool has not started yet. */
  datatype State = State(
    service: Service, threads: seq<Thread>, usedThreads: nat, submitted: nat, maxThreads: nat, finished: seq<Task>)

  /** The threads that account for one used thread each. */
  predicate Counted(t: Thread) {
    t.Submit? || t.Draining? || t.Invoking? || t.Releasing?
  }

  ghost predicate Init(s: State) {
    s == State(EMPTY, [], 0, 0, s.maxThreads, []) && s.maxThreads > 0
  }

  function Set(s: State, i: nat, thread: Thread): State
    requires i < |s.threads|
  {
    s.(threads := s.threads[i := thread])
  }

  function Spawn(s: State, thread: Thread): State {
    s.(threads := s.threads + [thread])
  }

  // ---------- clients of the queue ----------

  ghost predicate PostTask(s: State, t: State, task: Task) {
    var queued := s.(service := s.service.Post(task));
    t == if s.service.Schedules() then Spawn(queued, PostLoad(0)) else queued
  }

  ghost predicate Suspend(s: State, t: State) {
    t == s.(service := s.service.Suspend())
  }

  ghost predicate Resume(s: State, t: State) {
    && s.service.suspendCounter > 0
    && var resumed := s.(service := s.service.Resume());
       t == if s.service.ResumePosts() > 0 then Spawn(resumed, PostLoad(s.service.ResumePosts() - 1)) else resumed
  }

  ghost predicate ClientStep(s: State, t: State) {
    (exists task :: PostTask(s, t, task)) || Suspend(s, t) || Resume(s, t)
  }

  // ---------- Post of the scheduler ----------

  function AfterPost(left: nat): Thread {
    if left > 0 then PostLoad(left - 1) else Ended
  }

  /** The test at the head of the loop, on the value just loaded. */
  function Loaded(s: State, left: nat): Thread {
    if s.usedThreads == s.maxThreads then AfterPost(left) else PostSwap(s.usedThreads, left)
  }

  ghost predicate PostStep(s: State, t: State, i: nat) {
    && i < |s.threads|
    && match s.threads[i] {
         case PostLoad(left) => t == Set(s, i, Loaded(s, left))
         case PostSwap(seen, left) =>
           || (s.usedThreads == seen && t == Set(s.(usedThreads := seen + 1), i, Submit(left)))
           || t == Set(s, i, Loaded(s, left))  // the swap failed, perhaps spuriously, and loaded the counter again
         case Submit(left) => t == Set(s.(submitted := s.submitted + 1), i, AfterPost(left))
         case _ => false
       }
  }

  // ---------- WorkCallback ----------

  ghost predicate StartCallback(s: State, t: State) {
    s.submitted > 0 && t == Spawn(s.(submitted := s.submitted - 1), Draining)
  }

  ghost predicate CallbackStep(s: State, t: State, i: nat) {
    && i < |s.threads|
    && match s.threads[i] {
         case Draining =>
           var (service, task) := s.service.TryDequeue();
           t == Set(s.(service := service), i, if task.Some? then Invoking(task.value) else Releasing)
         case Invoking(task) =>  // then the time slice is over, or it is not
           var done := s.(finished := s.finished + [task]);
           t == Set(done, i, Draining) || t == Set(done, i, Releasing)
         case Releasing => s.usedThreads > 0 && t == Set(s.(usedThreads := s.usedThreads - 1), i, Rechecking)
         case Rechecking => t == Set(s, i, if s.service.HasTasks() then PostLoad(0) else Ended)
         case _ => false
       }
  }

  ghost predicate PoolStep(s: State, t: State, i: nat) {
    PostStep(s, t, i) || StartCallback(s, t) || CallbackStep(s, t, i)
  }

  ghost predicate Next(s: State, t: State) {
    ClientStep(s, t) || exists i :: PoolStep(s, t, i)
  }

  ghost predicate StepAt(run: seq<State>, i: nat)
    requires i + 1 < |run|
  {
    Next(run[i], run[i + 1])
  }

  ghost predicate Run(run: seq<State>) {
    && |run| > 0 && Init(run[0])
    && forall i {:trigger StepAt(run, i)} :: 0 <= i < |run| - 1 ==> StepAt(run, i)
  }

  // ---------- the invariant ----------

  /** A thread that still has to look at the queue or at the counter. */
  predicate Owes(t: Thread) {
    t.PostLoad? || t.PostSwap? || t.Rechecking?
  }

  ghost predicate SomeoneOwes(s: State) {
    exists i :: 0 <= i < |s.threads| && Owes(s.threads[i])
  }

  ghost predicate Inv(s: State) {
    && s.service.Conserves() && s.service.shutdownAction.None?
    && s.maxThreads > 0 && s.usedThreads <= s.maxThreads
    && s.usedThreads == s.submitted + Count(s.threads, Counted)
    && (forall i :: 0 <= i < |s.threads| && s.threads[i].PostSwap? ==> s.threads[i].seen < s.maxThreads)
    && (s.service.HasTasks() ==> s.usedThreads > 0 || SomeoneOwes(s))
  }

  predicate IsInvoking(t: Thread) {
    t.Invoking?
  }

  /** The task a serial pool is running. */
  ghost function Running(threads: seq<Thread>): seq<Task> {
    if threads == [] then []
    else (if threads[0].Invoking? then [threads[0].task] else []) + Running(threads[1..])
  }

  ghost predicate SerialInv(s: State) {
    s.maxThreads == 1 ==> s.service.taken == s.finished + Running(s.threads)
  }

  lemma SpawnPreserves(s: State, t: State, thread: Thread)
    requires t.threads == s.threads + [thread]
    ensures Count(t.threads, Counted) == Count(s.threads, Counted) + One(Counted(thread))
    ensures SomeoneOwes(s) || Owes(thread) ==> SomeoneOwes(t)
  {
    CountAppend(s.threads, thread, Counted);
    if i :| 0 <= i < |s.threads| && Owes(s.threads[i]) {
      assert Owes(t.threads[i]);
    }
    if Owes(thread) { assert Owes(t.threads[|s.threads|]); }
  }

  lemma ClientPreserves(s: State, t: State)
    requires Inv(s) && ClientStep(s, t)
    ensures Inv(t)
  {
    if task :| PostTask(s, t, task) {
      StepConserves(s.service, CallPost(task), t.service);
      if s.service.Schedules() { SpawnPreserves(s, t, PostLoad(0)); }
    } else if Resume(s, t) && s.service.ResumePosts() > 0 {
      SpawnPreserves(s, t, PostLoad(s.service.ResumePosts() - 1));
    }
  }

  /** Replacing a thread keeps a debt, unless it was that thread's. */
  lemma SetOwes(s: State, t: State, i: nat)
    requires i < |s.threads| && i < |t.threads| && t.threads == s.threads[i := t.threads[i]]
    requires SomeoneOwes(s)
    ensures SomeoneOwes(t) || (Owes(s.threads[i]) && !Owes(t.threads[i]))
  {
    var k :| 0 <= k < |s.threads| && Owes(s.threads[k]);
    assert t.threads[k] == if k == i then t.threads[i] else s.threads[k];
    if k != i || Owes(t.threads[i]) { assert Owes(t.threads[k]); }
  }

  lemma PostPreserves(s: State, t: State, i: nat)
    requires Inv(s) && PostStep(s, t, i)
    ensures Inv(t)
  {
    CountUpdate(s.threads, i, t.threads[i], Counted);
    if SomeoneOwes(s) { SetOwes(s, t, i); }
    if Owes(t.threads[i]) { assert SomeoneOwes(t); }
    if Counted(t.threads[i]) { CountSome(t.threads, i, Counted); }
  }

  lemma CallbackPreserves(s: State, t: State, i: nat)
    requires Inv(s) && CallbackStep(s, t, i)
    ensures Inv(t)
  {
    CountUpdate(s.threads, i, t.threads[i], Counted);
    if s.threads[i] == Draining { StepConserves(s.service, CallDequeue, t.service); }
    if SomeoneOwes(s) { SetOwes(s, t, i); }
    if Owes(t.threads[i]) { assert SomeoneOwes(t); }
  }

  lemma StartPreserves(s: State, t: State)
    requires Inv(s) && StartCallback(s, t)
    ensures Inv(t)
  {
    SpawnPreserves(s, t, Draining);
  }

  lemma NextPreserves(s: State, t: State)
    requires Inv(s) && Next(s, t)
    ensures Inv(t)
  {
    if ClientStep(s, t) {
      ClientPreserves(s, t);
    } else {
      var i :| PoolStep(s, t, i);
      if StartCallback(s, t) { StartPreserves(s, t); }
      else if PostStep(s, t, i) { PostPreserves(s, t, i); }
      else { CallbackPreserves(s, t, i); }
    }
  }

  lemma {:induction false} RunningAppend(threads: seq<Thread>, x: Thread)
    requires !x.Invoking?
    ensures Running(threads + [x]) == Running(threads)
  {
    if threads == [] {
      assert threads + [x] == [x];
    } else {
      assert (threads + [x])[1..] == threads[1..] + [x];
      RunningAppend(threads[1..], x);
    }
  }

  lemma {:induction false} RunningNone(threads: seq<Thread>)
    requires forall k :: 0 <= k < |threads| ==> !threads[k].Invoking?
    ensures Running(threads) == []
  {
    if threads != [] { RunningNone(threads[1..]); }
  }

  /** If only thread i can be invoking, what runs is what it invokes. */
  lemma {:induction false} RunningOne(threads: seq<Thread>, i: nat)
    requires i < |threads| && forall k :: 0 <= k < |threads| && k != i ==> !threads[k].Invoking?
    ensures Running(threads) == if threads[i].Invoking? then [threads[i].task] else []
  {
    if i == 0 { RunningNone(threads[1..]); } else { RunningOne(threads[1..], i - 1); }
  }

  /** A serial pool has at most one counted thread, so the others run no task. */
  lemma OthersIdle(s: State, i: nat)
    requires Inv(s) && s.maxThreads == 1 && i < |s.threads| && Counted(s.threads[i])
    ensures forall k :: 0 <= k < |s.threads| && k != i ==> !s.threads[k].Invoking?
  {
    forall k | 0 <= k < |s.threads| && k != i ensures !s.threads[k].Invoking? {
      if s.threads[k].Invoking? { CountUnique(s.threads, if i < k then i else k, if i < k then k else i, Counted); }
    }
  }

  /** A step of a thread that neither was nor becomes Invoking. */
  lemma {:induction false} RunningUpdate(threads: seq<Thread>, i: nat, x: Thread)
    requires i < |threads| && !threads[i].Invoking? && !x.Invoking?
    ensures Running(threads[i := x]) == Running(threads)
  {
    if i == 0 {
      assert threads[0 := x][1..] == threads[1..];
    } else {
      assert threads[i := x][1..] == threads[1..][i - 1 := x];
      RunningUpdate(threads[1..], i - 1, x);
    }
  }

  lemma SerialThread(s: State, t: State, i: nat)
    requires Inv(s) && SerialInv(s) && s.maxThreads == 1 && CallbackStep(s, t, i)
    ensures SerialInv(t)
  {
    if s.threads[i].Invoking? || t.threads[i].Invoking? {
      OthersIdle(s, i);
      RunningOne(s.threads, i);
      RunningOne(t.threads, i);
    } else {
      RunningUpdate(s.threads, i, t.threads[i]);
    }
  }

  lemma SerialPost(s: State, t: State, i: nat)
    requires SerialInv(s) && PostStep(s, t, i)
    ensures SerialInv(t)
  {
    RunningUpdate(s.threads, i, t.threads[i]);
  }

  /** A client does not touch what was taken or finished, and adds no thread that runs a task. */
  lemma SerialClient(s: State, t: State)
    requires SerialInv(s) && (ClientStep(s, t) || StartCallback(s, t))
    ensures SerialInv(t)
  {
    if t.threads != s.threads { RunningAppend(s.threads, t.threads[|s.threads|]); }
  }

  lemma SerialPreserves(s: State, t: State)
    requires Inv(s) && SerialInv(s) && Next(s, t)
    ensures SerialInv(t)
  {
    if ClientStep(s, t) {
      SerialClient(s, t);
    } else {
      var i: nat :| PoolStep(s, t, i);
      if PostStep(s, t, i) { SerialPost(s, t, i); }
      else if StartCallback(s, t) { SerialClient(s, t); }
      else if s.maxThreads == 1 { SerialThread(s, t, i); }
    }
  }

  lemma {:induction false} RunInv(run: seq<State>, i: nat)
    requires Run(run) && i < |run|
    ensures Inv(run[i]) && SerialInv(run[i])
  {
    if i > 0 {
      RunInv(run, i - 1);
      assert StepAt(run, i - 1);
      NextPreserves(run[i - 1], run[i]);
      SerialPreserves(run[i - 1], run[i]);
    }
  }

  // ---------- what every run guarantees ----------

  /** The counter is exact and bounded: the callbacks submitted or about to be, plus those running and not yet
      released, never more than the maximum. */
  lemma CounterIsExact(run: seq<State>, i: nat)
    requires Run(run) && i < |run|
    ensures run[i].usedThreads == run[i].submitted + Count(run[i].threads, Counted)
    ensures run[i].usedThreads <= run[i].maxThreads
  {
    RunInv(run, i);
  }

  /** No stranded work: if a task could run, a thread is in use, or a callback is about to ask the queue again, or a
      caller of Post has not yet given up. */
  lemma NoStrandedWork(run: seq<State>, i: nat)
    requires Run(run) && i < |run| && run[i].service.HasTasks()
    ensures run[i].usedThreads > 0 || SomeoneOwes(run[i])
  {
    RunInv(run, i);
  }

  ghost predicate Stuck(s: State) {
    forall t, i :: !PoolStep(s, t, i)
  }

  /** When no thread of the pool or of a poster can take a step, the queue is empty or suspended. */
  lemma StuckMeansDrained(run: seq<State>, i: nat)
    requires Run(run) && i < |run| && Stuck(run[i])
    ensures !run[i].service.HasTasks()
  {
    RunInv(run, i);
    StuckIsDrained(run[i]);
  }

  lemma StuckIsDrained(s: State)
    requires Inv(s) && Stuck(s)
    ensures !s.service.HasTasks()
  {
    if s.submitted > 0 {
      assert PoolStep(s, Spawn(s.(submitted := s.submitted - 1), Draining), 0);
    } else if s.service.HasTasks() {
      CountBound(s.threads, Counted);
      var k :| 0 <= k < |s.threads| && (Counted(s.threads[k]) || Owes(s.threads[k]));
      CanStep(s, k);
    }
  }

  lemma CanStep(s: State, k: nat)
    requires Inv(s) && k < |s.threads| && (Counted(s.threads[k]) || Owes(s.threads[k]))
    ensures exists t :: PoolStep(s, t, k)
  {
    match s.threads[k]
    case PostLoad(left) => assert PoolStep(s, Set(s, k, Loaded(s, left)), k);
    case PostSwap(seen, left) => assert PoolStep(s, Set(s, k, Loaded(s, left)), k);
    case Submit(left) => assert PoolStep(s, Set(s.(submitted := s.submitted + 1), k, AfterPost(left)), k);
    case Draining =>
      var (service, task) := s.service.TryDequeue();
      assert PoolStep(s, Set(s.(service := service), k, if task.Some? then Invoking(task.value) else Releasing), k);
    case Invoking(task) => assert PoolStep(s, Set(s.(finished := s.finished + [task]), k, Draining), k);
    case Releasing =>
      CountSome(s.threads, k, Counted);
      assert PoolStep(s, Set(s.(usedThreads := s.usedThreads - 1), k, Rechecking), k);
    case Rechecking => assert PoolStep(s, Set(s, k, if s.service.HasTasks() then PostLoad(0) else Ended), k);
  }

  /** A pool of one thread runs the tasks one at a time and in the order of the posts. */
  lemma SerialOrder(run: seq<State>, i: nat)
    requires Run(run) && i < |run| && run[i].maxThreads == 1
    ensures Count(run[i].threads, IsInvoking) <= 1
    ensures run[i].service.posted == run[i].finished + Running(run[i].threads) + run[i].service.queue
  {
    RunInv(run, i);
    var s := run[i];
    assert s.service.posted == s.service.taken + s.service.queue;
    CountLess(s.threads);
  }

  lemma {:induction false} CountLess(threads: seq<Thread>)
    ensures Count(threads, IsInvoking) <= Count(threads, Counted)
  {
    if threads != [] { CountLess(threads[1..]); }
  }

  // ---------- every task, however many threads ----------

  function RunsTask(task: Task): Thread -> bool {
    (thread: Thread) => thread.Invoking? && thread.task == task
  }

  /** As often as the task was taken it is finished or running. */
  ghost predicate Runs(s: State, task: Task) {
    Count(s.service.taken, Is(task)) == Count(s.finished, Is(task)) + Count(s.threads, RunsTask(task))
  }

  lemma CallbackRuns(s: State, t: State, i: nat, task: Task)
    requires Runs(s, task) && CallbackStep(s, t, i)
    ensures Runs(t, task)
  {
    CountUpdate(s.threads, i, t.threads[i], RunsTask(task));
    if s.threads[i].Invoking? {
      CountAppend(s.finished, s.threads[i].task, Is(task));
    } else if s.threads[i].Draining? && s.service.HasTasks() {
      CountAppend(s.service.taken, s.service.queue[0], Is(task));
    }
  }

  lemma ClientMoves(s: State, t: State)
    requires ClientStep(s, t) || StartCallback(s, t)
    ensures t.service.taken == s.service.taken && t.finished == s.finished
    ensures t.threads == s.threads
            || (|t.threads| == |s.threads| + 1 && t.threads == s.threads + [t.threads[|s.threads|]]
                && !t.threads[|s.threads|].Invoking?)
  {
  }

  lemma SpawnRuns(s: State, t: State, task: Task)
    requires Runs(s, task) && t.service.taken == s.service.taken && t.finished == s.finished
    requires t.threads == s.threads
             || (|t.threads| == |s.threads| + 1 && t.threads == s.threads + [t.threads[|s.threads|]]
                 && !t.threads[|s.threads|].Invoking?)
    ensures Runs(t, task)
  {
    if t.threads != s.threads { CountAppend(s.threads, t.threads[|s.threads|], RunsTask(task)); }
  }

  lemma PostRuns(s: State, t: State, i: nat, task: Task)
    requires Runs(s, task) && PostStep(s, t, i)
    ensures Runs(t, task)
  {
    CountUpdate(s.threads, i, t.threads[i], RunsTask(task));
  }

  lemma StepRuns(s: State, t: State, task: Task)
    requires Runs(s, task) && Next(s, t)
    ensures Runs(t, task)
  {
    if ClientStep(s, t) || StartCallback(s, t) {
      ClientMoves(s, t);
      SpawnRuns(s, t, task);
    } else {
      var i: nat :| PoolStep(s, t, i);
      if PostStep(s, t, i) { PostRuns(s, t, i, task); } else { CallbackRuns(s, t, i, task); }
    }
  }

  lemma InitRuns(s: State, task: Task)
    requires Init(s)
    ensures Runs(s, task)
  {
  }

  lemma {:induction false} RunRuns(run: seq<State>, i: nat, task: Task)
    requires Run(run) && i < |run|
    ensures Runs(run[i], task)
  {
    if i == 0 {
      InitRuns(run[0], task);
    } else {
      RunRuns(run, i - 1, task);
      assert StepAt(run, i - 1);
      StepRuns(run[i - 1], run[i], task);
    }
  }

  /** However many threads there are, every task is finished, running or still queued as often as it was posted. */
  lemma EveryTaskOnce(run: seq<State>, i: nat, task: Task)
    requires Run(run) && i < |run|
    ensures Count(run[i].service.posted, Is(task)) ==
              Count(run[i].finished, Is(task)) + Count(run[i].threads, RunsTask(task))
              + Count(run[i].service.queue, Is(task))
  {
    RunInv(run, i);
    RunRuns(run, i, task);
    var s := run[i].service;
    assert s.posted == s.taken + s.queue;
    CountConcat(s.taken, s.queue, Is(task));
  }

  // ---------- what a Post is good for ----------

  /** Below the maximum a Post submits one callback, and counts it. */
  lemma Submits(s: State, i: nat, left: nat) returns (t: State)
    requires i < |s.threads| && s.threads[i] == PostLoad(left) && s.usedThreads < s.maxThreads
    ensures Leads(Next, s, t)
    ensures t == Set(s.(usedThreads := s.usedThreads + 1, submitted := s.submitted + 1), i, AfterPost(left))
  {
    var near := Set(s, i, PostSwap(s.usedThreads, left));
    var won := Set(s.(usedThreads := s.usedThreads + 1), i, Submit(left));
    t := Set(s.(usedThreads := s.usedThreads + 1, submitted := s.submitted + 1), i, AfterPost(left));
    Stays(Next, s);
    assert PostStep(s, near, i) && PoolStep(s, near, i);
    Then(Next, s, s, near);
    assert won.threads == near.threads[i := Submit(left)];
    assert PostStep(near, won, i) && PoolStep(near, won, i);
    Then(Next, s, near, won);
    assert t.threads == won.threads[i := AfterPost(left)];
    assert PostStep(won, t, i) && PoolStep(won, t, i);
    Then(Next, s, won, t);
  }

  /** A callback starts, and takes the first task. */
  lemma StartsTask(s: State) returns (t: State)
    requires s.submitted > 0 && s.service.HasTasks()
    ensures Leads(Next, s, t) && t.finished == s.finished
    ensures t.threads == s.threads + [Invoking(s.service.queue[0])]
  {
    var i := |s.threads|;
    var started := Spawn(s.(submitted := s.submitted - 1), Draining);
    Stays(Next, s);
    assert StartCallback(s, started) && PoolStep(s, started, 0);
    Then(Next, s, s, started);
    t := Set(started.(service := s.service.TryDequeue().0), i, Invoking(s.service.queue[0]));
    assert CallbackStep(started, t, i) && PoolStep(started, t, i);
    Then(Next, s, started, t);
  }

  /** As long as the maximum is not reached, a task that is to be posted need not wait for those that run. */
  lemma PostStartsTask(s: State, i: nat)
    requires i < |s.threads| && s.threads[i].PostLoad? && s.usedThreads < s.maxThreads && s.service.HasTasks()
    ensures exists t :: Leads(Next, s, t) && t.finished == s.finished
                        && Count(t.threads, IsInvoking) == Count(s.threads, IsInvoking) + 1
  {
    var left := s.threads[i].left;
    var u := Submits(s, i, left);
    var t := StartsTask(u);
    Joins(Next, s, u, t);
    CountUpdate(s.threads, i, AfterPost(left), IsInvoking);
    CountAppend(u.threads, Invoking(s.service.queue[0]), IsInvoking);
  }

  // ---------- how long it takes ----------

  /** The Posts a thread still has to make, or the callback it is. */
  function Units(t: Thread): nat {
    match t
    case PostLoad(left) => left + 1
    case PostSwap(_, left) => left + 1
    case Submit(left) => left + 1
    case Ended => 0
    case _ => 1
  }

  ghost function UnitsOf(s: State): nat {
    Sum(s.threads, Units) + s.submitted
  }

  /** How many steps that get somewhere a thread can take before the next task is dequeued; it leads to a dequeue while
      there are tasks, and to the end of the callback when there are none. */
  function Distance(t: Thread, hasTasks: bool): nat {
    match t
    case PostLoad(left) => 8 * left + 8
    case PostSwap(_, left) => 8 * left + 7
    case Submit(left) => 8 * left + 6
    case Invoking(_) => 11
    case Draining => if hasTasks then 1 else 4
    case Releasing => if hasTasks then 10 else 3
    case Rechecking => if hasTasks then 9 else 1
    case Ended => 0
  }

  /** The swap of this thread will fail, because the counter has changed. */
  function Stale(t: Thread, used: nat): nat {
    match t
    case PostSwap(seen, _) => if seen != used then 1 else 0
    case _ => 0
  }

  ghost function Distances(s: State): nat {
    Sum(s.threads, t => Distance(t, s.service.HasTasks())) + 5 * s.submitted
  }

  ghost function StaleSwaps(s: State): nat {
    Sum(s.threads, t => Stale(t, s.usedThreads))
  }

  /** What is left to do, if no more than n callbacks and Posts are involved: every step that gets somewhere can make
      all swaps stale, and every task can set all threads going once more. */
  ghost function Work(s: State, n: nat): nat {
    Times(|s.service.queue|, Times(11 * n + 1, n + 1)) + Times(Distances(s), n + 1) + StaleSwaps(s)
  }

  /** k times m. */
  function Times(k: nat, m: nat): nat {
    if k == 0 then 0 else m + Times(k - 1, m)
  }

  lemma {:induction false} TimesGrows(j: nat, k: nat, m: nat)
    requires j < k
    ensures Times(j, m) + m <= Times(k, m)
  {
    if j < k - 1 { TimesGrows(j, k - 1, m); }
  }

  lemma {:induction false} SumsBounded(threads: seq<Thread>, hasTasks: bool, used: nat)
    ensures Sum(threads, t => Distance(t, hasTasks)) <= 11 * Sum(threads, Units)
    ensures Sum(threads, t => Stale(t, used)) <= Sum(threads, Units)
  {
    if threads != [] { SumsBounded(threads[1..], hasTasks, used); }
  }

  /** The swap of thread i fails although nothing changed. */
  ghost predicate FailsForNothing(s: State, t: State, i: nat) {
    && i < |s.threads| && s.threads[i].PostSwap? && s.threads[i].seen == s.usedThreads
    && t == Set(s, i, Loaded(s, s.threads[i].left))
  }

  /** A step changed one thread. */
  lemma OneMoves(s: State, t: State, i: nat)
    requires i < |s.threads| && i < |t.threads| && t.threads == s.threads[i := t.threads[i]]
    requires t.service.HasTasks() == s.service.HasTasks()
    ensures Distances(t) - 5 * t.submitted ==
            Distances(s) - 5 * s.submitted
            - Distance(s.threads[i], s.service.HasTasks()) + Distance(t.threads[i], s.service.HasTasks())
    ensures UnitsOf(t) - t.submitted == UnitsOf(s) - s.submitted - Units(s.threads[i]) + Units(t.threads[i])
  {
    SumUpdate(s.threads, i, t.threads[i], x => Distance(x, s.service.HasTasks()));
    SumUpdate(s.threads, i, t.threads[i], Units);
  }

  lemma PostGetsOn(s: State, t: State, i: nat)
    requires PostStep(s, t, i) && !FailsForNothing(s, t, i)
    ensures UnitsOf(t) <= UnitsOf(s)
    ensures Distances(t) < Distances(s) || (Distances(t) == Distances(s) && StaleSwaps(t) < StaleSwaps(s))
  {
    OneMoves(s, t, i);
    if t.usedThreads == s.usedThreads { SumUpdate(s.threads, i, t.threads[i], x => Stale(x, s.usedThreads)); }
  }

  lemma StartGetsOn(s: State, t: State)
    requires StartCallback(s, t)
    ensures UnitsOf(t) == UnitsOf(s) && Distances(t) < Distances(s)
  {
    SumAppend(s.threads, Draining, x => Distance(x, s.service.HasTasks()));
    SumAppend(s.threads, Draining, Units);
  }

  lemma CallbackGetsOn(s: State, t: State, i: nat)
    requires CallbackStep(s, t, i) && t.service == s.service
    ensures UnitsOf(t) <= UnitsOf(s) && Distances(t) < Distances(s)
  {
    OneMoves(s, t, i);
  }

  lemma DequeueUnits(s: State, t: State, i: nat)
    requires CallbackStep(s, t, i) && t.service != s.service
    ensures UnitsOf(t) == UnitsOf(s) && |t.service.queue| == |s.service.queue| - 1
  {
    SumUpdate(s.threads, i, t.threads[i], Units);
  }

  lemma DequeueWorks(s: State, t: State, i: nat, n: nat)
    requires CallbackStep(s, t, i) && t.service != s.service && UnitsOf(s) <= n
    ensures UnitsOf(t) <= n && Work(t, n) < Work(s, n)
  {
    SumsBounded(t.threads, t.service.HasTasks(), t.usedThreads);
    DequeueUnits(s, t, i);
    TimesGrows(Distances(t), 11 * n + 1, n + 1);
  }

  lemma GetsOn(s: State, t: State, i: nat)
    requires PoolStep(s, t, i) && !FailsForNothing(s, t, i) && !(CallbackStep(s, t, i) && t.service != s.service)
    ensures UnitsOf(t) <= UnitsOf(s) && |t.service.queue| == |s.service.queue|
    ensures Distances(t) < Distances(s) || (Distances(t) == Distances(s) && StaleSwaps(t) < StaleSwaps(s))
  {
    if StartCallback(s, t) { StartGetsOn(s, t); }
    else if PostStep(s, t, i) { PostGetsOn(s, t, i); }
    else { CallbackGetsOn(s, t, i); }
  }

  /** Every step of the pool leaves less to do, unless it is a swap that fails for nothing. */
  lemma StepWorks(s: State, t: State, i: nat, n: nat)
    requires PoolStep(s, t, i) && !FailsForNothing(s, t, i) && UnitsOf(s) <= n
    ensures UnitsOf(t) <= n && Work(t, n) < Work(s, n)
  {
    if CallbackStep(s, t, i) && t.service != s.service {
      DequeueWorks(s, t, i, n);
    } else {
      GetsOn(s, t, i);
      SumsBounded(t.threads, t.service.HasTasks(), t.usedThreads);
      if Distances(t) < Distances(s) { TimesGrows(Distances(t), Distances(s), n + 1); }
    }
  }

  ghost predicate PoolMoves(s: State, t: State) {
    exists i :: PoolStep(s, t, i) && !FailsForNothing(s, t, i)
  }

  /** Nobody but the pool and owed Posts takes a step, and no swap fails for nothing. */
  ghost predicate LeftAlone(path: seq<State>) {
    |path| > 0 && forall i {:trigger path[i]} :: 0 < i < |path| ==> PoolMoves(path[i - 1], path[i])
  }

  /** Left alone, the pool comes to rest within that many steps, and at rest there is nothing to run. */
  lemma {:induction false} DrainsWithin(path: seq<State>, n: nat)
    requires LeftAlone(path) && Inv(path[0]) && UnitsOf(path[0]) <= n
    ensures |path| - 1 <= Work(path[0], n)
    ensures Stuck(path[|path| - 1]) ==> !path[|path| - 1].service.HasTasks()
  {
    if |path| == 1 {
      if Stuck(path[0]) { StuckIsDrained(path[0]); }
    } else {
      assert PoolMoves(path[1 - 1], path[1]);
      var i: nat :| PoolStep(path[0], path[1], i) && !FailsForNothing(path[0], path[1], i);
      StepWorks(path[0], path[1], i, n);
      NextPreserves(path[0], path[1]);
      var rest := path[1..];
      forall i | 0 < i < |rest| ensures PoolMoves(rest[i - 1], rest[i]) { assert path[i + 1] == rest[i]; }
      DrainsWithin(rest, n);
    }
  }
}
