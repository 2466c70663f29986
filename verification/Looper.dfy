/** The looper of LooperScheduler before its shutdown: one thread that drains the queue, then waits for a
    manual-reset event and resets it after the wait. */
module Looper {
  import opened TaskService

  datatype Pc =
    | Draining             // about to call TryDequeTask
    | Invoking(task: Task) // in InvokeTask
    | Waiting              // TryDequeTask returned false; about to Wait, or in it
    | Resetting            // Wait returned; about to Reset

  /** isSet: the state of m_wakeUpEvent. owed: calls of Post that posters and resumers still have to make. */
  datatype State = State(service: Service, pc: Pc, isSet: bool, owed: nat, finished: seq<Task>)

  ghost predicate Init(s: State) {
    s == State(EMPTY, Draining, false, 0, [])
  }

  ghost predicate PostTask(s: State, t: State, task: Task) {
    t == s.(service := s.service.Post(task), owed := s.owed + if s.service.Schedules() then 1 else 0)
  }

  ghost predicate Suspend(s: State, t: State) {
    t == s.(service := s.service.Suspend())
  }

  ghost predicate Resume(s: State, t: State) {
    s.service.suspendCounter > 0 && t == s.(service := s.service.Resume(), owed := s.owed + s.service.ResumePosts())
  }

  ghost predicate ClientStep(s: State, t: State) {
    (exists task :: PostTask(s, t, task)) || Suspend(s, t) || Resume(s, t)
  }

  /** Post of the scheduler sets the event. */
  ghost predicate SchedulerPost(s: State, t: State) {
    s.owed > 0 && t == s.(owed := s.owed - 1, isSet := true)
  }

  ghost predicate LooperStep(s: State, t: State) {
    match s.pc
    case Draining =>
      var (service, task) := s.service.TryDequeue();
      t == s.(service := service, pc := if task.Some? then Invoking(task.value) else Waiting)
    case Invoking(task) => t == s.(finished := s.finished + [task], pc := Draining)
    case Waiting => s.isSet && t == s.(pc := Resetting)
    case Resetting => t == s.(isSet := false, pc := Draining)
  }

  ghost predicate Next(s: State, t: State) {
    ClientStep(s, t) || SchedulerPost(s, t) || LooperStep(s, t)
  }

  ghost predicate StepAt(run: seq<State>, i: nat)
    requires i + 1 < |run|
  {
    Next(run[i], run[i + 1])
  }

  ghost predicate Run(run: seq<State>) {
    && |run| > 0 && Init(run[0])
    && forall i {:trigger StepAt(run, i)} :: 0 <= i < |run| - 1 ==> StepAt(run, i)
  }

  function Running(s: State): seq<Task> {
    if s.pc.Invoking? then [s.pc.task] else []
  }

  ghost predicate Inv(s: State) {
    && s.service.Conserves() && s.service.shutdownAction.None?
    && s.service.taken == s.finished + Running(s)
    && (s.pc == Waiting && s.service.HasTasks() ==> s.isSet || s.owed > 0)
  }

  lemma NextPreserves(s: State, t: State)
    requires Inv(s) && Next(s, t)
    ensures Inv(t)
  {
    if task :| PostTask(s, t, task) {
      StepConserves(s.service, CallPost(task), t.service);
    } else if LooperStep(s, t) && s.pc == Draining {
      StepConserves(s.service, CallDequeue, t.service);
    }
  }

  lemma {:induction false} RunInv(run: seq<State>, i: nat)
    requires Run(run) && i < |run|
    ensures Inv(run[i])
  {
    if i > 0 {
      RunInv(run, i - 1);
      assert StepAt(run, i - 1);
      NextPreserves(run[i - 1], run[i]);
    }
  }

  /** No lost wake-up, although the event is reset after the wait: a looper past its failed dequeue and not yet past
      Wait, with a task that could run, finds the event set, or is still owed the Post that sets it. */
  lemma NoLostWakeUp(run: seq<State>, i: nat)
    requires Run(run) && i < |run| && run[i].pc == Waiting && run[i].service.HasTasks()
    ensures run[i].isSet || run[i].owed > 0
  {
    RunInv(run, i);
  }

  ghost predicate Stuck(s: State) {
    forall t :: !LooperStep(s, t) && !SchedulerPost(s, t)
  }

  /** The looper sleeps for good only over an empty or suspended queue. */
  lemma StuckMeansDrained(run: seq<State>, i: nat)
    requires Run(run) && i < |run| && Stuck(run[i])
    ensures run[i].pc == Waiting && !run[i].service.HasTasks()
  {
    RunInv(run, i);
    StuckIsDrained(run[i]);
  }

  lemma StuckIsDrained(s: State)
    requires Inv(s) && Stuck(s)
    ensures s.pc == Waiting && !s.service.HasTasks()
  {
    if s.owed > 0 {
      assert SchedulerPost(s, s.(owed := s.owed - 1, isSet := true));
    }
    if s.pc != Waiting || s.isSet { CanStep(s); }
  }

  lemma CanStep(s: State)
    requires s.pc != Waiting || s.isSet
    ensures exists t :: LooperStep(s, t)
  {
    match s.pc
    case Draining =>
      var (service, task) := s.service.TryDequeue();
      assert LooperStep(s, s.(service := service, pc := if task.Some? then Invoking(task.value) else Waiting));
    case Invoking(task) => assert LooperStep(s, s.(finished := s.finished + [task], pc := Draining));
    case Waiting => assert LooperStep(s, s.(pc := Resetting));
    case Resetting => assert LooperStep(s, s.(isSet := false, pc := Draining));
  }

  /** What is left to do: two steps a task, one Post and one turn of the loop for each that is owed, and the way to the
      wait. A set event costs another turn, unless it is about to be reset. */
  function Work(s: State): nat {
    var turn := if s.isSet then 3 else 0;
    var way := match s.pc
      case Waiting => turn
      case Resetting => 2
      case Draining => turn + 1
      case Invoking(_) => turn + 2;
    2 * |s.service.queue| + 4 * s.owed + way
  }

  lemma StepWorks(s: State, t: State)
    requires LooperStep(s, t) || SchedulerPost(s, t)
    ensures Work(t) < Work(s)
  {
  }

  ghost predicate LeftAlone(path: seq<State>) {
    |path| > 0 && forall i {:trigger path[i]} :: 0 < i < |path| ==>
        LooperStep(path[i - 1], path[i]) || SchedulerPost(path[i - 1], path[i])
  }

  /** Left alone by its clients the looper comes to rest within that many steps, and at rest there is nothing to run. */
  lemma {:induction false} DrainsWithin(path: seq<State>)
    requires LeftAlone(path) && Inv(path[0])
    ensures |path| - 1 <= Work(path[0])
    ensures Stuck(path[|path| - 1]) ==> !path[|path| - 1].service.HasTasks()
  {
    if |path| == 1 {
      if Stuck(path[0]) { StuckIsDrained(path[0]); }
    } else {
      assert path[1 - 1] == path[0] && (LooperStep(path[0], path[1]) || SchedulerPost(path[0], path[1]));
      StepWorks(path[0], path[1]);
      NextPreserves(path[0], path[1]);
      var rest := path[1..];
      forall i | 0 < i < |rest| ensures LooperStep(rest[i - 1], rest[i]) || SchedulerPost(rest[i - 1], rest[i]) {
        assert path[i + 1] == rest[i];
      }
      DrainsWithin(rest);
    }
  }

  /** The looper is a FIFO queue: the posts are what finished, then the running task, then the queue. */
  lemma SerialOrder(run: seq<State>, i: nat)
    requires Run(run) && i < |run|
    ensures run[i].service.posted == run[i].finished + Running(run[i]) + run[i].service.queue
  {
    RunInv(run, i);
    assert run[i].service.posted == run[i].service.taken + run[i].service.queue;
  }
}
