/** The order in which InvokeTask runs a task and what it defers, and what an empty deferred task costs. */
module InvokeOrder {
  import opened Options
  import opened TaskContexts

  type Pending = seq<Option<Job>>

  /** The tasks in front of the first empty one. */
  function Ready(pending: Pending): (ready: seq<Job>)
    ensures |ready| <= |pending| && forall i :: 0 <= i < |ready| ==> pending[i] == Some(ready[i])
    ensures |ready| < |pending| ==> pending[|ready|] == None
  {
    if pending == [] || pending[0] == None then [] else [pending[0].value] + Ready(pending[1..])
  }

  function JobsSize(jobs: seq<Job>): nat {
    if jobs == [] then 0 else 1 + Size(jobs[0]) + JobsSize(jobs[1..])
  }

  lemma {:induction false} ReadySize(pending: Pending)
    ensures JobsSize(Ready(pending)) <= PendingSize(pending)
  {
    if pending != [] && pending[0].Some? { ReadySize(pending[1..]); }
  }

  // ---------- the order, by the shape of the jobs ----------

  /** What runs, and what is posted, in order. */
  datatype Story = Story(log: seq<nat>, posts: Posts)

  function Then(a: Story, b: Story): Story {
    Story(a.log + b.log, a.posts + b.posts)
  }

  function StoryOf(e: Effect): Story {
    Story(e.log, e.posts)
  }

  /** The deferred tasks, as the body names them, those of the jobs it runs in place among them. */
  function ActionDefers(q: nat, access: set<nat>, action: Action): (d: Pending)
    ensures PendingSize(d) <= ActionSize(action)
    decreases ActionSize(action), 0
  {
    match action
    case DeferElsePost(p, task) => if p == q then [task] else []
    case InvokeElsePost(p, job) =>
      assert Size(job) == 1 + BodySize(job.body);
      if p == q && p in access then Defers(q, access, job.body) else []
  }

  function Defers(q: nat, access: set<nat>, body: seq<Action>): (d: Pending)
    ensures PendingSize(d) <= BodySize(body)
    decreases BodySize(body), 1
  {
    if body == [] then []
    else
      PendingSizeSum(ActionDefers(q, access, body[0]), Defers(q, access, body[1..]));
      ActionDefers(q, access, body[0]) + Defers(q, access, body[1..])
  }

  /** Depth first in place: a job before what it invokes, and that where it stands in the body. What is not run here is
      posted to the queue that was asked. */
  function ActionOrder(q: nat, access: set<nat>, action: Action): Story
    decreases ActionSize(action), 0
  {
    match action
    case DeferElsePost(p, task) => Story([], if p == q then [] else [(p, task)])
    case InvokeElsePost(p, job) =>
      if p !in access then Story([], [(p, Some(job))])
      else if p == q then JobOrder(q, access, job)
      else
        SingleSize(job);
        LevelOrder(p, access, [Some(job)])
  }

  function BodyOrder(q: nat, access: set<nat>, body: seq<Action>): Story
    decreases BodySize(body), 1
  {
    if body == [] then Story([], [])
    else Then(ActionOrder(q, access, body[0]), BodyOrder(q, access, body[1..]))
  }

  function JobOrder(q: nat, access: set<nat>, job: Job): Story
    decreases Size(job), 0
  {
    Then(Story([job.id], []), BodyOrder(q, access, job.body))
  }

  /** A level of tasks, and the level it defers. */
  function Level(q: nat, access: set<nat>, jobs: seq<Job>): Story
    decreases JobsSize(jobs), 1
  {
    if jobs == [] then Story([], []) else Then(JobOrder(q, access, jobs[0]), Level(q, access, jobs[1..]))
  }

  function NextLevel(q: nat, access: set<nat>, jobs: seq<Job>): (next: Pending)
    ensures PendingSize(next) <= JobsSize(jobs) && (jobs != [] ==> PendingSize(next) < JobsSize(jobs))
  {
    if jobs == [] then []
    else
      PendingSizeSum(Defers(q, access, jobs[0].body), NextLevel(q, access, jobs[1..]));
      Defers(q, access, jobs[0].body) + NextLevel(q, access, jobs[1..])
  }

  /** Breadth first: a whole level, then the whole level it deferred, and so on; an empty task ends everything. */
  function LevelOrder(q: nat, access: set<nat>, pending: Pending): Story
    decreases PendingSize(pending), 2
  {
    var jobs := Ready(pending);
    ReadySize(pending);
    if jobs == [] || |jobs| < |pending| then Level(q, access, jobs)
    else Then(Level(q, access, jobs), LevelOrder(q, access, NextLevel(q, access, jobs)))
  }

  // ---------- the drain keeps that order ----------

  lemma ThenIsEffect(a: Effect, b: Effect)
    ensures StoryOf(Join(a, b)) == Then(StoryOf(a), StoryOf(b))
  {
  }

  lemma Associates(a: Story, b: Story, c: Story)
    ensures Then(a, Then(b, c)) == Then(Then(a, b), c)
  {
  }

  lemma {:induction false} ActionKeepsOrder(q: nat, access: set<nat>, action: Action)
    ensures StoryOf(ActionEffect(q, access, action)) == ActionOrder(q, access, action)
    ensures ActionEffect(q, access, action).deferred == ActionDefers(q, access, action)
    decreases ActionSize(action), 0
  {
    match action
    case DeferElsePost(_, _) =>
    case InvokeElsePost(p, job) =>
      if p in access {
        if p == q {
          JobKeepsOrder(q, access, job);
        } else {
          SingleSize(job);
          DrainIsLevelOrder(p, access, [Some(job)]);
        }
      }
  }

  lemma {:induction false} BodyKeepsOrder(q: nat, access: set<nat>, body: seq<Action>)
    ensures StoryOf(BodyEffect(q, access, body)) == BodyOrder(q, access, body)
    ensures BodyEffect(q, access, body).deferred == Defers(q, access, body)
    decreases BodySize(body), 1
  {
    if body != [] {
      ActionKeepsOrder(q, access, body[0]);
      BodyKeepsOrder(q, access, body[1..]);
      ThenIsEffect(ActionEffect(q, access, body[0]), BodyEffect(q, access, body[1..]));
    }
  }

  lemma {:induction false} JobKeepsOrder(q: nat, access: set<nat>, job: Job)
    ensures StoryOf(JobEffect(q, access, job)) == JobOrder(q, access, job)
    ensures JobEffect(q, access, job).deferred == Defers(q, access, job.body)
    decreases Size(job), 0
  {
    BodyKeepsOrder(q, access, job.body);
  }

  lemma DrainFirst(q: nat, access: set<nat>, first: Job, rest: Pending)
    ensures StoryOf(Drain(q, access, [Some(first)] + rest)) ==
              Then(StoryOf(JobEffect(q, access, first)),
                   StoryOf(Drain(q, access, rest + JobEffect(q, access, first).deferred)))
  {
    assert ([Some(first)] + rest)[1..] == rest;
  }

  /** The drain runs the ready tasks in front, then goes on with what was behind them and what they deferred. */
  lemma {:induction false} DrainLevel(q: nat, access: set<nat>, front: Pending, behind: Pending)
    requires |Ready(front)| == |front|
    ensures StoryOf(Drain(q, access, front + behind)) ==
              Then(Level(q, access, Ready(front)),
                   StoryOf(Drain(q, access, behind + NextLevel(q, access, Ready(front)))))
    decreases PendingSize(front), 1
  {
    if front == [] {
      assert front + behind == behind && behind + [] == behind;
    } else {
      var jobs := Ready(front);
      JobKeepsOrder(q, access, jobs[0]);
      var deferred := Defers(q, access, jobs[0].body);
      assert jobs[1..] == Ready(front[1..]);
      DrainFirst(q, access, jobs[0], front[1..] + behind);
      Regroup(front, behind, deferred, NextLevel(q, access, jobs[1..]));
      DrainLevel(q, access, front[1..], behind + deferred);
      Associates(JobOrder(q, access, jobs[0]), Level(q, access, jobs[1..]),
                 StoryOf(Drain(q, access, behind + NextLevel(q, access, jobs))));
    }
  }

  lemma Regroup(front: Pending, behind: Pending, deferred: Pending, more: Pending)
    requires front != []
    ensures front + behind == [front[0]] + (front[1..] + behind)
    ensures (front[1..] + behind) + deferred == front[1..] + (behind + deferred)
    ensures (behind + deferred) + more == behind + (deferred + more)
  {
  }

  /** What the drain runs and posts, and in what order, is what the shape of the jobs says. */
  lemma {:induction false} DrainIsLevelOrder(q: nat, access: set<nat>, pending: Pending)
    ensures StoryOf(Drain(q, access, pending)) == LevelOrder(q, access, pending)
    decreases PendingSize(pending), 2
  {
    var jobs := Ready(pending);
    var front, behind := pending[..|jobs|], pending[|jobs|..];
    assert front + behind == pending;
    ReadyPrefix(pending);
    ReadySize(pending);
    PendingSizeSum(front, behind);
    DrainLevel(q, access, front, behind);
    if |jobs| < |pending| {
      assert (behind + NextLevel(q, access, jobs))[0] == None;
    } else if jobs != [] {
      assert behind + NextLevel(q, access, jobs) == NextLevel(q, access, jobs);
      DrainIsLevelOrder(q, access, NextLevel(q, access, jobs));
    }
  }

  lemma {:induction false} ReadyPrefix(pending: Pending)
    ensures Ready(pending[..|Ready(pending)|]) == Ready(pending)
  {
    if pending != [] && pending[0].Some? {
      var n := |Ready(pending)|;
      assert pending[..n][1..] == pending[1..][..n - 1];
      ReadyPrefix(pending[1..]);
    }
  }

  // ---------- exactly once ----------

  /** The tasks that run, and what is posted to which queue. */
  datatype Tally = Tally(ids: multiset<nat>, posts: multiset<(nat, Option<Job>)>)

  const NONE := Tally(multiset{}, multiset{})

  function Add(a: Tally, b: Tally): Tally {
    Tally(a.ids + b.ids, a.posts + b.posts)
  }

  function Shown(e: Effect): Tally {
    Tally(multiset(e.log), multiset(e.posts))
  }

  function OnePost(queue: nat, task: Option<Job>): Tally {
    Tally(multiset{}, multiset{(queue, task)})
  }

  /** Every task that the execution of a job reaches, and every post it comes to, counted by the shape of the job
      alone. What is neither deferred nor run in place goes to the queue that was asked. */
  function ActionTotal(q: nat, access: set<nat>, action: Action): Tally
    decreases ActionSize(action), 0
  {
    match action
    case DeferElsePost(p, task) =>
      if p == q && task.Some? then JobTotal(q, access, task.value)
      else if p == q then NONE
      else OnePost(p, task)
    case InvokeElsePost(p, job) => if p in access then JobTotal(p, access, job) else OnePost(p, Some(job))
  }

  function BodyTotal(q: nat, access: set<nat>, body: seq<Action>): Tally
    decreases BodySize(body), 1
  {
    if body == [] then NONE else Add(ActionTotal(q, access, body[0]), BodyTotal(q, access, body[1..]))
  }

  function JobTotal(q: nat, access: set<nat>, job: Job): Tally
    decreases Size(job), 0
  {
    Add(Tally(multiset{job.id}, multiset{}), BodyTotal(q, access, job.body))
  }

  function PendingTotal(q: nat, access: set<nat>, pending: Pending): Tally {
    if pending == [] then NONE
    else
      Add(if pending[0].Some? then JobTotal(q, access, pending[0].value) else NONE,
          PendingTotal(q, access, pending[1..]))
  }

  lemma {:induction false} PendingTotalSum(q: nat, access: set<nat>, a: Pending, b: Pending)
    ensures PendingTotal(q, access, a + b) == Add(PendingTotal(q, access, a), PendingTotal(q, access, b))
  {
    if a == [] {
      assert a + b == b;
    } else {
      assert (a + b)[1..] == a[1..] + b;
      PendingTotalSum(q, access, a[1..], b);
    }
  }

  /** Everything that is reached and never comes to pass: what stands behind an empty task when the drain of its context
      stops there, and what that would have reached. */
  function ActionLost(q: nat, access: set<nat>, action: Action): Tally
    decreases ActionSize(action), 0
  {
    match action
    case DeferElsePost(_, _) => NONE
    case InvokeElsePost(p, job) =>
      if p !in access then NONE
      else if p == q then JobLost(q, access, job)
      else
        SingleSize(job);
        Lost(p, access, [Some(job)])
  }

  function BodyLost(q: nat, access: set<nat>, body: seq<Action>): Tally
    decreases BodySize(body), 1
  {
    if body == [] then NONE else Add(ActionLost(q, access, body[0]), BodyLost(q, access, body[1..]))
  }

  function JobLost(q: nat, access: set<nat>, job: Job): Tally
    decreases Size(job), 0
  {
    BodyLost(q, access, job.body)
  }

  function Lost(q: nat, access: set<nat>, pending: Pending): Tally
    decreases PendingSize(pending), 0
  {
    if pending == [] then NONE
    else if pending[0] == None then PendingTotal(q, access, pending[1..])
    else
      var e := JobEffect(q, access, pending[0].value);
      PendingSizeSum(pending[1..], e.deferred);
      Add(JobLost(q, access, pending[0].value), Lost(q, access, pending[1..] + e.deferred))
  }

  /** What ran and was posted, what was deferred, and what was lost. */
  function Sum(q: nat, access: set<nat>, e: Effect, lost: Tally): Tally {
    Add(Add(Shown(e), PendingTotal(q, access, e.deferred)), lost)
  }

  lemma SumJoin(q: nat, access: set<nat>, a: Effect, b: Effect, lostA: Tally, lostB: Tally)
    ensures Sum(q, access, Join(a, b), Add(lostA, lostB)) == Add(Sum(q, access, a, lostA), Sum(q, access, b, lostB))
  {
    PendingTotalSum(q, access, a.deferred, b.deferred);
    assert multiset(a.log + b.log) == multiset(a.log) + multiset(b.log);
    assert multiset(a.posts + b.posts) == multiset(a.posts) + multiset(b.posts);
  }

  lemma SingleTotal(q: nat, access: set<nat>, task: Option<Job>)
    ensures PendingTotal(q, access, [task]) == if task.Some? then JobTotal(q, access, task.value) else NONE
  {
    assert [task][1..] == [];
  }

  lemma AddNone(t: Tally)
    ensures Add(t, NONE) == t == Add(NONE, t)
  {
  }

  lemma SumOfPost(q: nat, access: set<nat>, queue: nat, task: Option<Job>)
    ensures Sum(q, access, Effect([], [], [(queue, task)]), NONE) == OnePost(queue, task)
  {
    assert multiset([(queue, task)]) == multiset{(queue, task)};
    AddNone(OnePost(queue, task));
  }

  lemma SumOfDeferred(q: nat, access: set<nat>, task: Option<Job>)
    ensures Sum(q, access, Effect([], [task], []), NONE) == PendingTotal(q, access, [task])
  {
    assert Shown(Effect([], [task], [])) == NONE;
    AddNone(PendingTotal(q, access, [task]));
  }

  lemma SumOfDrain(q: nat, access: set<nat>, e: Effect, lost: Tally)
    requires e.deferred == []
    ensures Sum(q, access, e, lost) == Add(Shown(e), lost)
  {
    AddNone(Shown(e));
  }

  lemma {:induction false} ActionAccounts(q: nat, access: set<nat>, action: Action)
    ensures Sum(q, access, ActionEffect(q, access, action), ActionLost(q, access, action)) ==
            ActionTotal(q, access, action)
    decreases ActionSize(action), 0
  {
    match action
    case DeferElsePost(p, task) =>
      if p == q {
        SumOfDeferred(q, access, task);
        SingleTotal(q, access, task);
      } else {
        SumOfPost(q, access, p, task);
      }
    case InvokeElsePost(p, job) =>
      if p !in access {
        SumOfPost(q, access, p, Some(job));
      } else if p == q {
        JobAccounts(q, access, job);
      } else {
        SingleSize(job);
        Accounts(p, access, [Some(job)]);
        SingleTotal(p, access, Some(job));
        SumOfDrain(q, access, Drain(p, access, [Some(job)]), Lost(p, access, [Some(job)]));
      }
  }

  lemma {:induction false} BodyAccounts(q: nat, access: set<nat>, body: seq<Action>)
    ensures Sum(q, access, BodyEffect(q, access, body), BodyLost(q, access, body)) == BodyTotal(q, access, body)
    decreases BodySize(body), 1
  {
    if body != [] {
      ActionAccounts(q, access, body[0]);
      BodyAccounts(q, access, body[1..]);
      SumJoin(q, access, ActionEffect(q, access, body[0]), BodyEffect(q, access, body[1..]),
              ActionLost(q, access, body[0]), BodyLost(q, access, body[1..]));
    }
  }

  lemma SumOfJob(q: nat, access: set<nat>, id: nat, e: Effect, lost: Tally)
    ensures Sum(q, access, Effect([id] + e.log, e.deferred, e.posts), lost) ==
            Add(Tally(multiset{id}, multiset{}), Sum(q, access, e, lost))
  {
    assert multiset([id] + e.log) == multiset{id} + multiset(e.log);
  }

  lemma {:induction false} JobAccounts(q: nat, access: set<nat>, job: Job)
    ensures Sum(q, access, JobEffect(q, access, job), JobLost(q, access, job)) == JobTotal(q, access, job)
    decreases Size(job), 0
  {
    BodyAccounts(q, access, job.body);
    SumOfJob(q, access, job.id, BodyEffect(q, access, job.body), JobLost(q, access, job));
  }

  /** Every reached task runs exactly once or is lost exactly once, and every post it comes to is made once, to the
      queue that was asked, or lost once, in every context at once. */
  lemma {:induction false} Accounts(q: nat, access: set<nat>, pending: Pending)
    ensures Add(Shown(Drain(q, access, pending)), Lost(q, access, pending)) == PendingTotal(q, access, pending)
    decreases PendingSize(pending), 0
  {
    if pending != [] && pending[0].Some? {
      var job := pending[0].value;
      var e := JobEffect(q, access, job);
      JobAccounts(q, access, job);
      PendingSizeSum(pending[1..], e.deferred);
      var next := pending[1..] + e.deferred;
      Accounts(q, access, next);
      PendingTotalSum(q, access, pending[1..], e.deferred);
      var rest := Drain(q, access, next);
      Carried(Shown(e), Shown(rest), JobLost(q, access, job), Lost(q, access, next),
              PendingTotal(q, access, e.deferred), JobTotal(q, access, job), PendingTotal(q, access, pending[1..]));
      assert multiset(e.log + rest.log) == multiset(e.log) + multiset(rest.log);
      assert multiset(e.posts + rest.posts) == multiset(e.posts) + multiset(rest.posts);
    }
  }

  /** What one task defers, the rest of the drain accounts for. */
  lemma Carried(ran: Tally, restRan: Tally, lost: Tally, restLost: Tally, deferred: Tally, job: Tally, rest: Tally)
    requires Add(Add(ran, deferred), lost) == job && Add(restRan, restLost) == Add(rest, deferred)
    ensures Add(Add(ran, restRan), Add(lost, restLost)) == Add(job, rest)
  {
    CarriedOver(ran.ids, restRan.ids, lost.ids, restLost.ids, deferred.ids, job.ids, rest.ids);
    CarriedOver(ran.posts, restRan.posts, lost.posts, restLost.posts, deferred.posts, job.posts, rest.posts);
  }

  lemma CarriedOver<T>(ran: multiset<T>, restRan: multiset<T>, lost: multiset<T>, restLost: multiset<T>,
                       deferred: multiset<T>, job: multiset<T>, rest: multiset<T>)
    requires ran + deferred + lost == job && restRan + restLost == rest + deferred
    ensures (ran + restRan) + (lost + restLost) == job + rest
  {
    forall x: T ensures ((ran + restRan) + (lost + restLost))[x] == (job + rest)[x] {
      assert (ran + deferred + lost)[x] == job[x] && (restRan + restLost)[x] == (rest + deferred)[x];
    }
  }

  // ---------- when nothing is lost ----------

  /** What a context would read, in order, if empty tasks were passed over. */
  function Reads(q: nat, access: set<nat>, pending: Pending): Pending
    decreases PendingSize(pending)
  {
    if pending == [] then []
    else
      var deferred := if pending[0] == None then [] else JobEffect(q, access, pending[0].value).deferred;
      PendingSizeSum(pending[1..], deferred);
      [pending[0]] + Reads(q, access, pending[1..] + deferred)
  }

  predicate NoneBehindEmpty(order: Pending) {
    forall i, j :: 0 <= i < j < |order| && order[i] == None ==> order[j] == None
  }

  /** In every context that the job reaches below its own, no task stands behind an empty one. */
  predicate ActionSafe(q: nat, access: set<nat>, action: Action)
    decreases ActionSize(action), 0
  {
    match action
    case DeferElsePost(p, task) => p == q && task.Some? ==> JobSafe(q, access, task.value)
    case InvokeElsePost(p, job) =>
      p in access ==> JobSafe(p, access, job) && (p != q ==> NoneBehindEmpty(Reads(p, access, [Some(job)])))
  }

  predicate BodySafe(q: nat, access: set<nat>, body: seq<Action>)
    decreases BodySize(body), 1
  {
    body != [] ==> ActionSafe(q, access, body[0]) && BodySafe(q, access, body[1..])
  }

  predicate JobSafe(q: nat, access: set<nat>, job: Job)
    decreases Size(job), 0
  {
    BodySafe(q, access, job.body)
  }

  predicate PendingSafe(q: nat, access: set<nat>, pending: Pending) {
    forall i :: 0 <= i < |pending| && pending[i].Some? ==> JobSafe(q, access, pending[i].value)
  }

  lemma PendingSafeSum(q: nat, access: set<nat>, a: Pending, b: Pending)
    ensures PendingSafe(q, access, a + b) <==> PendingSafe(q, access, a) && PendingSafe(q, access, b)
  {
    forall i | 0 <= i < |a| ensures (a + b)[i] == a[i] {}
    forall i | 0 <= i < |b| ensures (a + b)[|a| + i] == b[i] {}
  }

  /** An action loses nothing, now or through what it defers, if and only if it is safe. */
  lemma {:induction false} ActionLosesNothing(q: nat, access: set<nat>, action: Action)
    ensures ActionSafe(q, access, action) <==>
              && ActionLost(q, access, action).ids == multiset{}
              && PendingSafe(q, access, ActionEffect(q, access, action).deferred)
    ensures ActionSafe(q, access, action) ==> ActionLost(q, access, action) == NONE
    decreases ActionSize(action), 0
  {
    match action
    case DeferElsePost(p, task) => if p == q { assert ActionEffect(q, access, action).deferred[0] == task; }
    case InvokeElsePost(p, job) =>
      if p in access {
        if p == q {
          JobLosesNothing(q, access, job);
        } else {
          SingleSize(job);
          LosesNothing(p, access, [Some(job)]);
          assert PendingSafe(p, access, [Some(job)]) <==> JobSafe(p, access, [Some(job)][0].value);
        }
      }
  }

  lemma {:induction false} BodyLosesNothing(q: nat, access: set<nat>, body: seq<Action>)
    ensures BodySafe(q, access, body) <==>
              && BodyLost(q, access, body).ids == multiset{}
              && PendingSafe(q, access, BodyEffect(q, access, body).deferred)
    ensures BodySafe(q, access, body) ==> BodyLost(q, access, body) == NONE
    decreases BodySize(body), 1
  {
    if body != [] {
      ActionLosesNothing(q, access, body[0]);
      BodyLosesNothing(q, access, body[1..]);
      PendingSafeSum(q, access, ActionEffect(q, access, body[0]).deferred, BodyEffect(q, access, body[1..]).deferred);
      SumIsEmpty(ActionLost(q, access, body[0]).ids, BodyLost(q, access, body[1..]).ids);
    }
  }

  lemma SumIsEmpty(a: multiset<nat>, b: multiset<nat>)
    ensures a + b == multiset{} <==> a == multiset{} && b == multiset{}
  {
    assert |a + b| == |a| + |b|;
  }

  lemma {:induction false} JobLosesNothing(q: nat, access: set<nat>, job: Job)
    ensures JobSafe(q, access, job) <==>
              && JobLost(q, access, job).ids == multiset{}
              && PendingSafe(q, access, JobEffect(q, access, job).deferred)
    ensures JobSafe(q, access, job) ==> JobLost(q, access, job) == NONE
    decreases Size(job), 0
  {
    BodyLosesNothing(q, access, job.body);
  }

  /** A context loses nothing if and only if no task stands behind an empty one in it or in any context below it. */
  lemma {:induction false} LosesNothing(q: nat, access: set<nat>, pending: Pending)
    ensures Lost(q, access, pending).ids == multiset{} <==>
              NoneBehindEmpty(Reads(q, access, pending)) && PendingSafe(q, access, pending)
    ensures Lost(q, access, pending).ids == multiset{} ==> Lost(q, access, pending) == NONE
    decreases PendingSize(pending), 0
  {
    if pending != [] {
      if pending[0] == None {
        EmptyInFront(q, access, pending);
      } else {
        var job := pending[0].value;
        var next := pending[1..] + JobEffect(q, access, job).deferred;
        PendingSizeSum(pending[1..], JobEffect(q, access, job).deferred);
        LosesNothing(q, access, next);
        JobLosesNothing(q, access, job);
        TaskInFront(pending[0], Reads(q, access, next));
        SumIsEmpty(JobLost(q, access, job).ids, Lost(q, access, next).ids);
        PendingSafeSum(q, access, pending[1..], JobEffect(q, access, job).deferred);
        assert pending == [pending[0]] + pending[1..];
        PendingSafeSum(q, access, [pending[0]], pending[1..]);
        assert PendingSafe(q, access, [pending[0]]) <==> JobSafe(q, access, [pending[0]][0].value);
      }
    }
  }

  lemma TaskInFront(first: Option<Job>, rest: Pending)
    requires first.Some?
    ensures NoneBehindEmpty([first] + rest) <==> NoneBehindEmpty(rest)
  {
    if NoneBehindEmpty([first] + rest) {
      forall i, j | 0 <= i < j < |rest| && rest[i] == None ensures rest[j] == None {
        assert ([first] + rest)[i + 1] == None && ([first] + rest)[j + 1] == rest[j];
      }
    }
  }

  predicate AllEmpty(pending: Pending) {
    forall i :: 0 <= i < |pending| ==> pending[i] == None
  }

  lemma EmptyInFront(q: nat, access: set<nat>, pending: Pending)
    requires pending != [] && pending[0] == None
    ensures Lost(q, access, pending).ids == multiset{} <==>
              NoneBehindEmpty(Reads(q, access, pending)) && PendingSafe(q, access, pending)
    ensures Lost(q, access, pending).ids == multiset{} ==> Lost(q, access, pending) == NONE
  {
    var rest := pending[1..];
    assert rest + [] == rest;
    NoTotalIfEmpty(q, access, rest);
    ReadsEmpty(q, access, rest);
    assert Reads(q, access, pending) == [None] + Reads(q, access, rest);
    if NoneBehindEmpty(Reads(q, access, pending)) {
      forall j | 0 <= j < |Reads(q, access, rest)| ensures Reads(q, access, rest)[j] == None {
        assert Reads(q, access, pending)[0] == None && Reads(q, access, pending)[j + 1] == Reads(q, access, rest)[j];
      }
    }
    if AllEmpty(rest) {
      forall i | 0 <= i < |pending| ensures pending[i] == None { assert i > 0 ==> rest[i - 1] == pending[i]; }
    }
  }

  lemma {:induction false} NoTotalIfEmpty(q: nat, access: set<nat>, pending: Pending)
    ensures PendingTotal(q, access, pending).ids == multiset{} <==> AllEmpty(pending)
    ensures AllEmpty(pending) ==> PendingTotal(q, access, pending) == NONE
  {
    if pending != [] {
      NoTotalIfEmpty(q, access, pending[1..]);
      assert pending[0].Some? ==> pending[0].value.id in JobTotal(q, access, pending[0].value).ids;
      assert AllEmpty(pending) <==> pending[0] == None && AllEmpty(pending[1..]) by {
        assert forall i :: 0 < i < |pending| ==> pending[i] == pending[1..][i - 1];
        if AllEmpty(pending) {
          forall i | 0 <= i < |pending[1..]| ensures pending[1..][i] == None { assert pending[i + 1] == None; }
        }
      }
    }
  }

  lemma {:induction false} ReadsEmpty(q: nat, access: set<nat>, pending: Pending)
    ensures AllEmpty(Reads(q, access, pending)) <==> AllEmpty(pending)
    decreases PendingSize(pending)
  {
    if pending != [] {
      if pending[0].Some? {
        assert Reads(q, access, pending)[0].Some?;
      } else {
        var rest := pending[1..];
        assert rest + [] == rest;
        ReadsEmpty(q, access, rest);
        EmptyBehind(rest);
        EmptyBehind(Reads(q, access, rest));
        assert [None] + rest == pending;
      }
    }
  }

  lemma EmptyBehind(rest: Pending)
    ensures AllEmpty([None] + rest) <==> AllEmpty(rest)
  {
    assert forall i :: 0 <= i < |rest| ==> ([None] + rest)[i + 1] == rest[i];
  }

  /** InvokeTask runs every task it reaches exactly once if and only if no context, its own or a nested one, has a task
      behind an empty one; then it makes every post it reaches exactly once, too. */
  lemma RunsAllIff(q: nat, access: set<nat>, job: Job)
    ensures multiset(Drain(q, access, [Some(job)]).log) == JobTotal(q, access, job).ids <==>
              NoneBehindEmpty(Reads(q, access, [Some(job)])) && JobSafe(q, access, job)
    ensures NoneBehindEmpty(Reads(q, access, [Some(job)])) && JobSafe(q, access, job) ==>
              multiset(Drain(q, access, [Some(job)]).posts) == JobTotal(q, access, job).posts
  {
    Accounts(q, access, [Some(job)]);
    SingleTotal(q, access, Some(job));
    LosesNothing(q, access, [Some(job)]);
    assert PendingSafe(q, access, [Some(job)]) <==> JobSafe(q, access, [Some(job)][0].value);
    NothingMissing(multiset(Drain(q, access, [Some(job)]).log), Lost(q, access, [Some(job)]).ids);
  }

  lemma NothingMissing(ran: multiset<nat>, lost: multiset<nat>)
    ensures ran == ran + lost <==> lost == multiset{}
  {
    assert |ran + lost| == |ran| + |lost|;
  }

  /** What an empty task costs: job 0 defers one and then job 1, and job 1 never runs. */
  lemma EmptyTaskDropsTheRest(q: nat)
    ensures var job := Job(0, [DeferElsePost(q, None), DeferElsePost(q, Some(Job(1, [])))]);
            Drain(q, {}, [Some(job)]).log == [0] && 1 in JobTotal(q, {}, job).ids
  {
    var second := Job(1, []);
    var body := [DeferElsePost(q, None), DeferElsePost(q, Some(second))];
    var job := Job(0, body);
    assert body[1..] == [DeferElsePost(q, Some(second))] && body[1..][1..] == [];
    assert BodyEffect(q, {}, []) == NOTHING;
    assert ActionEffect(q, {}, body[1]).deferred == [Some(second)];
    assert BodyEffect(q, {}, body[1..]) == Effect([], [Some(second)], []);
    assert BodyEffect(q, {}, body) == Effect([], [None, Some(second)], []);
    assert JobEffect(q, {}, job) == Effect([0], [None, Some(second)], []);
    assert [Some(job)][1..] + [None, Some(second)] == [None, Some(second)];
    assert Drain(q, {}, [None, Some(second)]) == NOTHING;
    assert 1 in JobTotal(q, {}, second).ids && ActionTotal(q, {}, body[1]) == JobTotal(q, {}, second);
    assert BodyTotal(q, {}, body[1..]) == Add(ActionTotal(q, {}, body[1]), BodyTotal(q, {}, body[1..][1..]));
  }
}
