/** Running a task with the tasks it defers: InvokeTask, the context stack of a thread, and what order they give. */
module TaskContexts {
  import opened Options

  /** What a task does with queues while it runs. A deferred task can be empty. */
  datatype Action =
    | DeferElsePost(queue: nat, task: Option<Job>)
    | InvokeElsePost(queue: nat, job: Job)

  datatype Job = Job(id: nat, body: seq<Action>)

  function Size(job: Job): nat {
    1 + BodySize(job.body)
  }

  function ActionSize(action: Action): (n: nat)
    ensures n > 0
  {
    match action
    case DeferElsePost(_, None) => 1
    case DeferElsePost(_, Some(job)) => 1 + Size(job)
    case InvokeElsePost(_, job) => 2 + Size(job)
  }

  function BodySize(body: seq<Action>): nat {
    if body == [] then 0 else ActionSize(body[0]) + BodySize(body[1..])
  }

  function PendingSize(pending: seq<Option<Job>>): nat {
    if pending == [] then 0
    else (if pending[0] == None then 1 else 1 + Size(pending[0].value)) + PendingSize(pending[1..])
  }

  lemma {:induction false} PendingSizeSum(a: seq<Option<Job>>, b: seq<Option<Job>>)
    ensures PendingSize(a + b) == PendingSize(a) + PendingSize(b)
  {
    if a == [] {
      assert a + b == b;
    } else {
      assert (a + b)[1..] == a[1..] + b;
      PendingSizeSum(a[1..], b);
    }
  }

  lemma SingleSize(job: Job)
    ensures PendingSize([Some(job)]) == 1 + Size(job)
  {
    assert [Some(job)][1..] == [];
    assert PendingSize([]) == 0;
  }

  // ---------- the specification ----------

  type Posts = seq<(nat, Option<Job>)>

  /** What running something does: the tasks invoked, those deferred to the current context, those posted. */
  datatype Effect = Effect(log: seq<nat>, deferred: seq<Option<Job>>, posts: Posts)

  const NOTHING := Effect([], [], [])

  function Join(a: Effect, b: Effect): Effect {
    Effect(a.log + b.log, a.deferred + b.deferred, a.posts + b.posts)
  }

  /** The effect of one action of a task that runs in a context of queue q, in a thread with access to the queues
      in `access`. */
  function ActionEffect(q: nat, access: set<nat>, action: Action): (e: Effect)
    ensures PendingSize(e.deferred) <= ActionSize(action)
    decreases ActionSize(action), 0
  {
    match action
    case DeferElsePost(p, task) => if p == q then Effect([], [task], []) else Effect([], [], [(p, task)])
    case InvokeElsePost(p, job) =>
      if p !in access then Effect([], [], [(p, Some(job))])
      else if p == q then JobEffect(q, access, job)
      else
        SingleSize(job);
        Drain(p, access, [Some(job)])
  }

  function BodyEffect(q: nat, access: set<nat>, body: seq<Action>): (e: Effect)
    ensures PendingSize(e.deferred) <= BodySize(body)
    decreases BodySize(body), 1
  {
    if body == [] then NOTHING
    else
      var first := ActionEffect(q, access, body[0]);
      var rest := BodyEffect(q, access, body[1..]);
      PendingSizeSum(first.deferred, rest.deferred);
      Join(first, rest)
  }

  function JobEffect(q: nat, access: set<nat>, job: Job): (e: Effect)
    ensures PendingSize(e.deferred) < Size(job)
    decreases Size(job), 0
  {
    var e := BodyEffect(q, access, job.body);
    Effect([job.id] + e.log, e.deferred, e.posts)
  }

  /** Run the pending tasks of a context, those they defer behind them, until there is none, or an empty one. */
  function Drain(q: nat, access: set<nat>, pending: seq<Option<Job>>): (e: Effect)
    ensures e.deferred == []
    decreases PendingSize(pending), 0
  {
    if pending == [] || pending[0] == None then NOTHING
    else
      var e := JobEffect(q, access, pending[0].value);
      PendingSizeSum(pending[1..], e.deferred);
      var rest := Drain(q, access, pending[1..] + e.deferred);
      Effect(e.log + rest.log, [], e.posts + rest.posts)
  }

  /** What a thread shows: its log, its posts, and what is unread in the context at hand. */
  datatype Trace = Trace(log: seq<nat>, posts: Posts, unread: seq<Option<Job>>)

  function Apply(t: Trace, e: Effect): Trace {
    Trace(t.log + e.log, t.posts + e.posts, t.unread + e.deferred)
  }

  lemma ApplyJoin(t: Trace, a: Effect, b: Effect)
    ensures Apply(Apply(t, a), b) == Apply(t, Join(a, b))
  {
  }

  lemma ApplyDrain(t: Trace, q: nat, access: set<nat>, pending: seq<Option<Job>>)
    requires pending != [] && pending[0].Some?
    ensures var e := JobEffect(q, access, pending[0].value);
            Apply(Apply(t, e.(deferred := [])), Drain(q, access, pending[1..] + e.deferred)) ==
            Apply(t, Drain(q, access, pending))
    ensures PendingSize(pending[1..] + JobEffect(q, access, pending[0].value).deferred) < PendingSize(pending)
  {
    var e := JobEffect(q, access, pending[0].value);
    PendingSizeSum(pending[1..], e.deferred);
    ApplyJoin(t, e.(deferred := []), Drain(q, access, pending[1..] + e.deferred));
  }

  // ---------- the implementation ----------

  class TaskContext {
    const prevContext: TaskContext?
    const queue: nat
    var deferQueue: seq<Option<Job>>
    var readIndex: nat

    ghost predicate Valid()
      reads this
    {
      readIndex <= |deferQueue|
    }

    ghost function Unread(): seq<Option<Job>>
      requires Valid()
      reads this
    {
      deferQueue[readIndex..]
    }

    constructor (thread: Thread, queue: nat)
      modifies thread`current
      ensures Valid() && Unread() == [] && this.queue == queue && prevContext == old(thread.current)
          && thread.current == this
    {
      prevContext := thread.current;
      this.queue := queue;
      deferQueue, readIndex := [], 0;
      new;
      thread.current := this;
    }

    method Defer(task: Option<Job>)
      requires Valid()
      modifies this
      ensures Valid() && Unread() == old(Unread()) + [task]
    {
      deferQueue := deferQueue + [task];
    }

    /** An empty task also stands for the end of the queue. */
    method TakeNextDeferredTask() returns (task: Option<Job>)
      requires Valid()
      modifies this
      ensures Valid()
      ensures old(Unread()) == [] ==> task == None && Unread() == []
      ensures old(Unread()) != [] ==> task == old(Unread())[0] && Unread() == old(Unread())[1..]
    {
      if readIndex < |deferQueue| {
        task := deferQueue[readIndex];
        readIndex := readIndex + 1;
      } else {
        task := None;
      }
    }
  }

  /** A thread: its tls_context, the queues whose scheduler gives it access, and what it did so far. */
  class Thread {
    var current: TaskContext?
    const access: set<nat>
    var invoked: seq<nat>
    var posted: Posts

    constructor (access: set<nat>)
      ensures current == null && this.access == access && invoked == [] && posted == []
    {
      current, invoked, posted := null, [], [];
      this.access := access;
    }

    ghost function Now(context: TaskContext): Trace
      requires context.Valid()
      reads this, context
    {
      Trace(invoked, posted, context.Unread())
    }

    /** Invoke of a task that runs in the current context. */
    method RunTask(job: Job)
      requires current != null && current.Valid()
      modifies this`invoked, this`posted, this`current, current
      ensures current == old(current) && current.Valid()
      ensures Now(current) == Apply(old(Now(current)), JobEffect(current.queue, access, job))
      decreases Size(job), 0
    {
      ghost var context, before := current, Now(current);
      ghost var target := Apply(before, JobEffect(context.queue, access, job));
      invoked := invoked + [job.id];
      ApplyJoin(before, Effect([job.id], [], []), BodyEffect(context.queue, access, job.body));
      assert job.body[0..] == job.body;
      for i := 0 to |job.body|
        invariant current == context && current.Valid() && BodySize(job.body[i..]) < Size(job)
        invariant Apply(Now(context), BodyEffect(context.queue, access, job.body[i..])) == target
      {
        ghost var start, rest := Now(context), job.body[i..];
        assert rest[0] == job.body[i] && rest[1..] == job.body[i + 1..];
        RunAction(job.body[i]);
        ApplyJoin(start, ActionEffect(context.queue, access, rest[0]), BodyEffect(context.queue, access, rest[1..]));
      }
      assert Apply(Now(context), NOTHING) == Now(context);
    }

    /** DeferElsePost and InvokeElsePost of the service, called from the running task. */
    method RunAction(action: Action)
      requires current != null && current.Valid()
      modifies this`invoked, this`posted, this`current, current
      ensures current == old(current) && current.Valid()
      ensures Now(current) == Apply(old(Now(current)), ActionEffect(current.queue, access, action))
      decreases ActionSize(action), 0
    {
      match action {
        case DeferElsePost(queue, task) =>
          if current.queue == queue {
            current.Defer(task);
          } else {
            posted := posted + [(queue, task)];
          }
        case InvokeElsePost(queue, inner) =>
          if queue in access {
            if current.queue == queue {
              RunTask(inner);
            } else {
              InvokeTask(queue, inner);
            }
          } else {
            posted := posted + [(queue, Some(inner))];
          }
      }
    }

    /** InvokeTask runs a task and all it defers in a context of its own, and leaves the context of its caller. */
    method InvokeTask(queue: nat, job: Job)
      modifies this`invoked, this`posted, this`current
      ensures current == old(current)
      ensures invoked == old(invoked) + Drain(queue, access, [Some(job)]).log
      ensures posted == old(posted) + Drain(queue, access, [Some(job)]).posts
      decreases 1 + Size(job), 1
    {
      ghost var before := Trace(invoked, posted, []);
      ghost var target := Apply(before, Drain(queue, access, [Some(job)]));
      var caller := current;
      var context := new TaskContext(this, queue);
      SingleSize(job);
      ApplyDrain(before, queue, access, [Some(job)]);
      RunTask(job);
      ghost var pending := [Some(job)][1..] + JobEffect(queue, access, job).deferred;
      var task := context.TakeNextDeferredTask();
      while task.Some?
        invariant current == context && context.Valid() && context.queue == queue
        invariant task == (if pending == [] then None else pending[0])
        invariant context.Unread() == (if pending == [] then [] else pending[1..])
        invariant PendingSize(pending) < 1 + Size(job)
        invariant Apply(Trace(invoked, posted, []), Drain(queue, access, pending)) == target
        decreases PendingSize(pending)
      {
        ApplyDrain(Trace(invoked, posted, []), queue, access, pending);
        RunTask(task.value);
        pending := pending[1..] + JobEffect(queue, access, task.value).deferred;
        task := context.TakeNextDeferredTask();
      }
      current := caller;
    }
  }
}
