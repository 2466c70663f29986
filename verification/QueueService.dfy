/** The dispatch queue service: the locked sections over the task queue, and the calls they make after unlocking.
    It refines TaskService.Service, the state the scheduler protocols are stated over. */
module QueueService {
  import opened Options
  import opened TaskService
  import opened TaskQueue

  /** No task disappears: those a shutdown took from the queue or kept from it are those that were cancelled. */
  ghost predicate AllCancelled(cancelled: seq<Task>, s: Service) {
    multiset(cancelled) == multiset(s.flushed) + multiset(s.rejected)
  }

  lemma ShutdownCancels(cancelled: seq<Task>, s: Service, action: PendingTaskAction)
    requires AllCancelled(cancelled, s)
    ensures AllCancelled(cancelled + if action == Cancel then s.queue else [], s.Shutdown(action))
  {
    assert multiset(cancelled + s.queue) == multiset(cancelled) + multiset(s.queue);
    assert multiset(s.flushed + s.queue) == multiset(s.flushed) + multiset(s.queue);
  }

  lemma PostCancels(cancelled: seq<Task>, s: Service, task: Task)
    requires AllCancelled(cancelled, s)
    ensures AllCancelled(cancelled + if s.shutdownAction.Some? then [task] else [], s.Post(task))
  {
  }

  class QueueService {
    const queue: TaskQueue
    var suspendCounter: nat
    var shutdownAction: Option<PendingTaskAction>
    var schedulerPosts: nat  // calls of the scheduler's Post so far
    var schedulerStops: nat  // calls of the scheduler's Shutdown so far
    var cancelled: seq<Task> // tasks given to CancelTask so far
    ghost var model: Service

    ghost predicate Refines()
      reads this, queue, queue.readBuffer
    {
      && queue.Valid() && queue.OwnerKept()
      && model.queue == queue.Contents() && model.suspendCounter == suspendCounter
      && model.shutdownAction == shutdownAction
    }

    ghost predicate Valid()
      reads this, queue, queue.readBuffer
    {
      Refines() && model.Conserves() && AllCancelled(cancelled, model)
    }

    constructor ()
      ensures Valid() && fresh(queue) && fresh(queue.readBuffer) && model == EMPTY
      ensures schedulerPosts == schedulerStops == 0 && cancelled == []
    {
      queue := new TaskQueue();
      suspendCounter, shutdownAction, schedulerPosts, schedulerStops, cancelled := 0, None, 0, 0, [];
      model := EMPTY;
    }

    /** Post without a task batch of the calling thread. The queue's owner is this service, alive during the call. */
    method Post(task: Task)
      requires Valid()
      modifies `schedulerPosts, `cancelled, `model, queue
      ensures Valid() && model == old(model).Post(task)
      ensures schedulerPosts == old(schedulerPosts) + if old(model).Schedules() then 1 else 0
      ensures cancelled == if old(shutdownAction).Some? then old(cancelled) + [task] else old(cancelled)
    {
      StepConserves(model, CallPost(task), model.Post(task));
      PostCancels(cancelled, model, task);
      var shouldSchedule := false;
      var isShutdown := shutdownAction.Some?;
      if !isShutdown {
        queue.Enqueue(task, true);
        shouldSchedule := suspendCounter == 0;
      }
      model := model.Post(task);
      if shouldSchedule {
        schedulerPosts := schedulerPosts + 1;
      } else if isShutdown {
        CancelTasks([task]);
      }
    }

    /** CancelTask, on each of the tasks. */
    method CancelTasks(tasks: seq<Task>)
      modifies `cancelled
      ensures cancelled == old(cancelled) + tasks
    {
      for i := 0 to |tasks|
        invariant cancelled == old(cancelled) + tasks[..i]
      {
        cancelled := cancelled + [tasks[i]];
      }
    }

    method Suspend()
      requires Valid()
      modifies `suspendCounter, `model
      ensures Valid() && model == old(model).Suspend()
    {
      suspendCounter := suspendCounter + 1;
      model := model.Suspend();
    }

    method Resume()
      requires Valid() && suspendCounter > 0
      modifies `suspendCounter, `schedulerPosts, `model
      ensures Valid() && model == old(model).Resume()
      ensures schedulerPosts == old(schedulerPosts) + old(model).ResumePosts()
    {
      var postCount := 0;
      suspendCounter := suspendCounter - 1;
      model := model.Resume();
      if suspendCounter == 0 {
        postCount := queue.Size();
      }
      for i := 0 to postCount
        invariant schedulerPosts == old(schedulerPosts) + i && Valid() && model == old(model).Resume()
      {
        schedulerPosts := schedulerPosts + 1;
      }
    }

    /** The locked section of Shutdown. */
    method BeginShutdown(action: PendingTaskAction) returns (tasksToCancel: seq<Task>)
      requires Valid()
      modifies `shutdownAction, `model, queue, queue.readBuffer
      ensures Refines() && model == old(model).Shutdown(action) && model.Conserves()
      ensures tasksToCancel == if action == Cancel then old(model).queue else []
    {
      StepConserves(model, CallShutdown(action), model.Shutdown(action));
      tasksToCancel := [];
      shutdownAction := Some(action);
      if action == Cancel {
        var any;
        any, tasksToCancel := queue.DequeueAll([]);
      }
      model := model.Shutdown(action);
    }

    method Shutdown(action: PendingTaskAction)
      requires Valid()
      modifies `shutdownAction, `schedulerStops, `cancelled, `model, queue, queue.readBuffer
      ensures Valid() && model == old(model).Shutdown(action)
      ensures schedulerStops == old(schedulerStops) + 1
      ensures cancelled == old(cancelled) + if action == Cancel then old(model).queue else []
    {
      ShutdownCancels(cancelled, model, action);
      var tasksToCancel := BeginShutdown(action);
      CancelTasks(tasksToCancel);
      schedulerStops := schedulerStops + 1;
    }

    method HasTasks() returns (has: bool)
      requires Valid()
      ensures has == model.HasTasks()
    {
      has := suspendCounter == 0 && !queue.IsEmpty();
    }

    method TryDequeTask() returns (task: Option<Task>)
      requires Valid()
      modifies `model, queue, queue.readBuffer
      ensures Valid() && (model, task) == old(model).TryDequeue()
    {
      StepConserves(model, CallDequeue, model.TryDequeue().0);
      task := None;
      if suspendCounter == 0 {
        task := queue.TryDequeue();
        if task.Some? {
          model := model.TryDequeue().0;
        }
      }
    }
  }
}
