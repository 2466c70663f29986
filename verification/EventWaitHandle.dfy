/** The event the looper waits for: a flag under a mutex, and a condition variable. Every locked section is a step; a
    waiter that finds the event not set sleeps until it is notified, or wakes up for no reason, and looks again. */
module EventWaitHandle {
  import opened Counting
  import opened Paths

  datatype Pc =
    | Entering // about to lock the mutex and look at the state
    | Asleep   // in the wait of the condition variable, mutex released
    | Awake    // woken; about to reacquire the mutex and look again
    | Passed   // Wait returned true
    | TimedOut // WaitFor returned false

  /** timed: in WaitFor. */
  datatype Waiter = Waiter(timed: bool, pc: Pc)

  /** hasTimed: whether WaitFor is used on this event at all. raised and cleared are history: how often Set set an event
      that was not set, and how often Reset reset one that was. */
  datatype State = State(
    isAutoReset: bool, hasTimed: bool, isSet: bool, waiters: seq<Waiter>, initially: bool, raised: nat, cleared: nat)

  ghost predicate Init(s: State) {
    s == State(s.isAutoReset, s.hasTimed, s.initially, [], s.initially, 0, 0)
  }

  predicate HasPassed(w: Waiter) {
    w.pc.Passed?
  }

  ghost predicate SomeAsleep(s: State) {
    exists i :: 0 <= i < |s.waiters| && s.waiters[i].pc.Asleep?
  }

  function Notified(w: Waiter): Waiter {
    if w.pc.Asleep? then w.(pc := Awake) else w
  }

  function WakeAll(waiters: seq<Waiter>): (woken: seq<Waiter>)
    ensures |woken| == |waiters|
    ensures forall i :: 0 <= i < |waiters| ==> woken[i] == Notified(waiters[i])
  {
    seq(|waiters|, i requires 0 <= i < |waiters| => Notified(waiters[i]))
  }

  function Go(s: State, w: nat, pc: Pc): State
    requires w < |s.waiters|
  {
    s.(waiters := s.waiters[w := s.waiters[w].(pc := pc)])
  }

  /** NotifyOne wakes some sleeper w if there is one. */
  ghost predicate SetEvent(s: State, t: State, w: nat) {
    var raised := s.(isSet := true, raised := s.raised + One(!s.isSet));
    if !s.isAutoReset then t == raised.(waiters := WakeAll(s.waiters))
    else if SomeAsleep(s) then w < |s.waiters| && s.waiters[w].pc.Asleep? && t == Go(raised, w, Awake)
    else t == raised
  }

  ghost predicate Reset(s: State, t: State) {
    t == s.(isSet := false, cleared := s.cleared + One(s.isSet))
  }

  ghost predicate BeginWait(s: State, t: State, timed: bool) {
    (timed ==> s.hasTimed) && t == s.(waiters := s.waiters + [Waiter(timed, Entering)])
  }

  /** The test of the wait loop, under the mutex. */
  ghost predicate Look(s: State, t: State, w: nat) {
    && w < |s.waiters| && s.waiters[w].pc in {Entering, Awake}
    && t == if s.isSet then Go(s, w, Passed).(isSet := !s.isAutoReset) else Go(s, w, Asleep)
  }

  ghost predicate SpuriousWakeUp(s: State, t: State, w: nat) {
    w < |s.waiters| && s.waiters[w].pc.Asleep? && t == Go(s, w, Awake)
  }

  /** The condition variable reports a timeout, and WaitFor returns false without another look at the state. The waiter
      can have been notified at the same time: then the notification is gone. */
  ghost predicate TimeOut(s: State, t: State, w: nat) {
    w < |s.waiters| && s.waiters[w].timed && s.waiters[w].pc in {Asleep, Awake} && t == Go(s, w, TimedOut)
  }

  ghost predicate Next(s: State, t: State) {
    || Reset(s, t) || BeginWait(s, t, false) || BeginWait(s, t, true)
    || exists w :: SetEvent(s, t, w) || Look(s, t, w) || SpuriousWakeUp(s, t, w) || TimeOut(s, t, w)
  }

  ghost predicate StepAt(run: seq<State>, i: nat)
    requires i + 1 < |run|
  {
    Next(run[i], run[i + 1])
  }

  ghost predicate Run(run: seq<State>) {
    && |run| > 0 && Init(run[0])
    && forall i {:trigger StepAt(run, i)} :: 0 <= i < |run| - 1 ==> StepAt(run, i)
  }

  ghost predicate SomeAboutToLook(s: State) {
    exists i :: 0 <= i < |s.waiters| && s.waiters[i].pc in {Entering, Awake}
  }

  /** A waiter is asleep while the event is set, and no other one is about to take it. */
  ghost predicate SleepsThroughSet(s: State) {
    s.isSet && SomeAsleep(s) && !(s.isAutoReset && SomeAboutToLook(s))
  }

  /** Only an auto-reset event is used up by the waiters it lets through. */
  ghost predicate Balanced(s: State) {
    var used := if s.isAutoReset then Count(s.waiters, HasPassed) else 0;
    One(s.initially) + s.raised == used + s.cleared + One(s.isSet)
  }

  ghost predicate Inv(s: State) {
    && (!s.isAutoReset || !s.hasTimed ==> !SleepsThroughSet(s))
    && (!s.hasTimed ==> forall i :: 0 <= i < |s.waiters| ==> !s.waiters[i].timed)
    && (forall i :: 0 <= i < |s.waiters| && s.waiters[i].pc.TimedOut? ==> s.waiters[i].timed)
    && Balanced(s)
  }

  ghost predicate WaiterStep(s: State, t: State, w: nat) {
    SetEvent(s, t, w) || Look(s, t, w) || SpuriousWakeUp(s, t, w) || TimeOut(s, t, w)
  }

  lemma WaiterWakes(s: State, t: State, w: nat)
    requires Inv(s) && WaiterStep(s, t, w) && (!s.isAutoReset || !s.hasTimed)
    ensures !SleepsThroughSet(t)
  {
    if t.isSet && SomeAsleep(t) {
      var i :| 0 <= i < |t.waiters| && t.waiters[i].pc.Asleep?;
      if s.isAutoReset {
        assert s.waiters[i].pc.Asleep? && t.waiters[w].pc == Awake;
      }
    }
  }

  lemma WaiterPreserves(s: State, t: State, w: nat)
    requires Inv(s) && WaiterStep(s, t, w)
    ensures Inv(t)
  {
    if !s.isAutoReset || !s.hasTimed { WaiterWakes(s, t, w); }
    WaiterBalances(s, t, w);
  }

  lemma WaiterBalances(s: State, t: State, w: nat)
    requires Balanced(s) && WaiterStep(s, t, w)
    ensures Balanced(t)
  {
    if s.isAutoReset && t.waiters != s.waiters { CountUpdate(s.waiters, w, t.waiters[w], HasPassed); }
  }

  lemma NextPreserves(s: State, t: State)
    requires Inv(s) && Next(s, t)
    ensures Inv(t)
  {
    if timed :| BeginWait(s, t, timed) {
      CountAppend(s.waiters, Waiter(timed, Entering), HasPassed);
      assert t.waiters[|s.waiters|].pc == Entering;
      if t.isSet && SomeAsleep(t) {
        var i :| 0 <= i < |t.waiters| && t.waiters[i].pc.Asleep?;
        assert s.waiters[i].pc.Asleep?;
      }
    } else if !Reset(s, t) {
      var w: nat :| SetEvent(s, t, w) || Look(s, t, w) || SpuriousWakeUp(s, t, w) || TimeOut(s, t, w);
      WaiterPreserves(s, t, w);
    }
  }

  lemma {:induction false} RunInv(run: seq<State>, i: nat)
    requires Run(run) && i < |run|
    ensures Inv(run[i])
  {
    if i > 0 {
      RunInv(run, i - 1);
      assert StepAt(run, i - 1);
      NextPreserves(run[i - 1], run[i]);
    }
  }

  /** Every time an auto-reset event became set, one waiter passed, or a Reset took it back, or it is still set. */
  lemma OnePassesPerSet(run: seq<State>, i: nat)
    requires Run(run) && i < |run| && run[i].isAutoReset
    ensures One(run[i].initially) + run[i].raised ==
              Count(run[i].waiters, HasPassed) + run[i].cleared + One(run[i].isSet)
  {
    RunInv(run, i);
  }

  /** A manual-reset event is set exactly when it was set, to begin with or by Set, and no Reset took that back. */
  lemma OnlyResetClears(run: seq<State>, i: nat)
    requires Run(run) && i < |run| && !run[i].isAutoReset
    ensures One(run[i].initially) + run[i].raised == run[i].cleared + One(run[i].isSet)
  {
    RunInv(run, i);
  }

  /** Only WaitFor gives up. */
  lemma OnlyWaitForTimesOut(run: seq<State>, i: nat, w: nat)
    requires Run(run) && i < |run| && w < |run[i].waiters| && run[i].waiters[w].pc.TimedOut?
    ensures run[i].waiters[w].timed
  {
    RunInv(run, i);
  }

  /** Nobody gets through while the event is not set. */
  lemma PassesOnlyWhenSet(run: seq<State>, i: nat, w: nat)
    requires Run(run) && i + 1 < |run| && w < |run[i + 1].waiters| && run[i + 1].waiters[w].pc.Passed?
    ensures w < |run[i].waiters| && (run[i].waiters[w].pc.Passed? || run[i].isSet)
  {
    assert StepAt(run, i);
    var s, t := run[i], run[i + 1];
    if !Reset(s, t) && !BeginWait(s, t, false) && !BeginWait(s, t, true) {
      var v: nat :| SetEvent(s, t, v) || Look(s, t, v) || SpuriousWakeUp(s, t, v) || TimeOut(s, t, v);
      PassesBySet(s, t, v, w);
    }
  }

  lemma PassesBySet(s: State, t: State, v: nat, w: nat)
    requires WaiterStep(s, t, v) && w < |t.waiters| && t.waiters[w].pc.Passed?
    ensures w < |s.waiters| && (s.waiters[w].pc.Passed? || s.isSet)
  {
  }

  // ---------- who can sleep through a set event ----------

  ghost predicate Reachable(s: State) {
    exists run :: Run(run) && run[|run| - 1] == s
  }

  /** The kind of event, whether WaitFor is used on it, and its first state. */
  ghost predicate Uses(s: State, isAutoReset: bool, hasTimed: bool, initially: bool) {
    s.isAutoReset == isAutoReset && s.hasTimed == hasTimed && s.initially == initially
  }

  lemma Extend(s: State, t: State)
    requires Reachable(s) && Next(s, t)
    ensures Reachable(t)
  {
    var run :| Run(run) && run[|run| - 1] == s;
    var longer := run + [t];
    forall i | 0 <= i < |longer| - 1 ensures StepAt(longer, i) {
      if i < |run| - 1 { assert StepAt(run, i); }
    }
    assert Run(longer);
  }

  /** One waiter in WaitFor and one in Wait, with these pcs. */
  function Two(initially: bool, first: Pc, second: Pc): State {
    State(true, true, false, [Waiter(true, first), Waiter(false, second)], initially, 0, One(initially))
  }

  lemma Starts(s: State)
    requires Init(s)
    ensures Reachable(s)
  {
    assert Run([s]) && [s][|[s]| - 1] == s;
  }

  /** A waiter of the pair moves. */
  lemma Moves(initially: bool, first: Pc, second: Pc, pc: Pc)
    ensures Go(Two(initially, first, second), 0, pc) == Two(initially, pc, second)
    ensures Go(Two(initially, first, second), 1, pc) == Two(initially, first, pc)
  {
  }

  lemma Pair<T>(a: T, b: T)
    ensures ([] + [a]) + [b] == [a, b]
  {
  }

  lemma Joins(s: State, timed: bool)
    requires Reachable(s) && s.hasTimed
    ensures Reachable(s.(waiters := s.waiters + [Waiter(timed, Entering)]))
  {
    assert BeginWait(s, s.(waiters := s.waiters + [Waiter(timed, Entering)]), timed);
    Extend(s, s.(waiters := s.waiters + [Waiter(timed, Entering)]));
  }

  lemma TwoWait(initially: bool)
    ensures Reachable(Two(initially, Entering, Entering))
  {
    var start := State(true, true, initially, [], initially, 0, 0);
    Starts(start);
    var none := State(true, true, false, [], initially, 0, One(initially));
    assert Reset(start, none);
    Extend(start, none);
    Joins(none, true);
    var one := none.(waiters := none.waiters + [Waiter(true, Entering)]);
    Joins(one, false);
    Pair(Waiter(true, Entering), Waiter(false, Entering));
  }

  lemma TwoSleep(initially: bool)
    ensures Reachable(Two(initially, Asleep, Asleep))
  {
    TwoWait(initially);
    Moves(initially, Entering, Entering, Asleep);
    Moves(initially, Asleep, Entering, Asleep);
    assert Look(Two(initially, Entering, Entering), Two(initially, Asleep, Entering), 0);
    Extend(Two(initially, Entering, Entering), Two(initially, Asleep, Entering));
    assert Look(Two(initially, Asleep, Entering), Two(initially, Asleep, Asleep), 1);
    Extend(Two(initially, Asleep, Entering), Two(initially, Asleep, Asleep));
  }

  lemma LeftAsleep(s: State)
    requires s.isSet && s.waiters == [Waiter(true, TimedOut), Waiter(false, Asleep)]
    ensures SleepsThroughSet(s)
  {
    assert s.waiters[1].pc.Asleep?;
  }

  /** Two waiters sleep, Set notifies the first, and that one times out. */
  lemma TimeOutTakesTheNotification(initially: bool) returns (late: State)
    ensures Reachable(late) && Uses(late, true, true, initially) && SleepsThroughSet(late)
  {
    TwoSleep(initially);
    Moves(initially, Asleep, Asleep, Awake);
    Moves(initially, Awake, Asleep, TimedOut);
    var both := Two(initially, Asleep, Asleep);
    var notified := Two(initially, Awake, Asleep).(isSet := true, raised := 1);
    assert both.waiters[0].pc.Asleep? && SetEvent(both, notified, 0);
    Extend(both, notified);
    late := Two(initially, TimedOut, Asleep).(isSet := true, raised := 1);
    assert TimeOut(notified, late, 0);
    Extend(notified, late);
    LeftAsleep(late);
  }

  /** Nobody ever sleeps through a set event if and only if the event is a manual-reset one or is never waited for with
      WaitFor. With an auto-reset event another waiter, which is about to look, takes it instead. */
  lemma NobodySleepsThroughSet(isAutoReset: bool, hasTimed: bool, initially: bool)
    ensures (forall s :: Reachable(s) && Uses(s, isAutoReset, hasTimed, initially) ==> !SleepsThroughSet(s))
            <==> !isAutoReset || !hasTimed
  {
    if isAutoReset && hasTimed {
      var late := TimeOutTakesTheNotification(initially);
    } else {
      forall s | Reachable(s) && Uses(s, isAutoReset, hasTimed, initially) ensures !SleepsThroughSet(s) {
        var run :| Run(run) && run[|run| - 1] == s;
        RunInv(run, |run| - 1);
      }
    }
  }

  // ---------- who gets through ----------

  predicate IsOver(w: Waiter) {
    w.pc.Passed? || w.pc.TimedOut?
  }

  /** Set, and the waiter it wakes, or one that was about to look. */
  lemma Sets(s: State, w: nat) returns (t: State, first: nat)
    requires s.isAutoReset && w < |s.waiters| && !IsOver(s.waiters[w])
    ensures Leads(Next, s, t) && first < |s.waiters| && !IsOver(s.waiters[first])
    ensures t == Go(s, first, if s.waiters[first].pc.Asleep? then Awake else s.waiters[first].pc).(
                   isSet := true, raised := s.raised + One(!s.isSet))
  {
    first := w;
    if SomeAsleep(s) { first :| 0 <= first < |s.waiters| && s.waiters[first].pc.Asleep?; }
    t := Go(s, first, if s.waiters[first].pc.Asleep? then Awake else s.waiters[first].pc).(
           isSet := true, raised := s.raised + One(!s.isSet));
    assert s.waiters[first := s.waiters[first]] == s.waiters;
    assert SetEvent(s, t, first);
    Stays(Next, s);
    Then(Next, s, s, t);
  }

  /** Whenever somebody waits at an auto-reset event, one Set is enough to let one more waiter through; then it is used
      up. */
  lemma SetLetsOneThrough(s: State, w: nat) returns (t: State)
    requires s.isAutoReset && w < |s.waiters| && !IsOver(s.waiters[w])
    ensures Leads(Next, s, t) && !t.isSet && Count(t.waiters, HasPassed) == Count(s.waiters, HasPassed) + 1
    ensures |t.waiters| == |s.waiters| && t.raised == s.raised + One(!s.isSet) && t.cleared == s.cleared
  {
    var raised, first := Sets(s, w);
    t := Go(raised, first, Passed).(isSet := false);
    assert Look(raised, t, first);
    Then(Next, s, raised, t);
    assert t.waiters == s.waiters[first := t.waiters[first]];
    CountUpdate(s.waiters, first, t.waiters[first], HasPassed);
  }

  /** A manual-reset event that is set lets everybody through, and stays set. */
  lemma SetLetsAllThrough(s: State) returns (t: State)
    requires Reachable(s) && !s.isAutoReset && s.isSet
    ensures Leads(Next, s, t) && t.isSet && |t.waiters| == |s.waiters|
    ensures forall w :: 0 <= w < |s.waiters| ==>
              t.waiters[w].pc == if s.waiters[w].pc.TimedOut? then TimedOut else Passed
  {
    var run :| Run(run) && run[|run| - 1] == s;
    RunInv(run, |run| - 1);
    t := FirstPass(s, |s.waiters|);
  }

  /** The first n of them. */
  lemma {:induction false} FirstPass(s: State, n: nat) returns (t: State)
    requires !s.isAutoReset && s.isSet && !SomeAsleep(s) && n <= |s.waiters|
    ensures Leads(Next, s, t) && t.isSet && !t.isAutoReset && |t.waiters| == |s.waiters|
    ensures forall w :: n <= w < |s.waiters| ==> t.waiters[w] == s.waiters[w]
    ensures forall w :: 0 <= w < n ==> t.waiters[w].pc == if s.waiters[w].pc.TimedOut? then TimedOut else Passed
  {
    t := s;
    if n == 0 {
      Stays(Next, s);
    } else {
      var last := n - 1;
      t := FirstPass(s, last);
      assert !s.waiters[last].pc.Asleep?;
      if !IsOver(t.waiters[last]) {
        var before := t;
        t := Go(before, last, Passed);
        assert Look(before, t, last);
        Then(Next, s, before, t);
      }
    }
  }
}
