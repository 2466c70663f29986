/** The callback object a posted future gives to its executor: one reference counter, one flag that it was called, and
    the future it invokes, cancels, or cancels after all when it is destroyed uncalled.

    The rest of the program moves the future along the documented graph at any time. */
module FutureCallback {
  import opened Counting
  import opened FutureCore
  import opened Paths

  datatype Loop = Load | Check(seen: FutureState) | Swap(expected: FutureState, next: FutureState)

  /** sync: the call is made in the TaskPost callback, so the future is its thread's current one. */
  datatype Act =
    | Ended
    | Calling(cancels: bool, sync: bool)                     // Invoke or OnCancel, before the exchange of m_isCalled
    | Moving(req: Request, sync: bool, holds: bool, loop: Loop) // TrySetInvoking, TryStartSetError or TrySetPosted
    | Destroying(sync: bool)                                 // the last reference is gone

  datatype Crash = NoCrash | CalledTwice | InvokeRefused

  /** idle: references nobody is using; a call in progress holds its own. inTaskPost: the TaskPost callback has not
      returned. calls and entered are history: calls of Invoke or OnCancel, and task invocations. */
  datatype State = State(
    traits: Traits, future: FutureState, isCalled: bool, refCount: nat, idle: nat, inTaskPost: bool, acts: seq<Act>,
    calls: nat, entered: nat, crash: Crash)

  ghost predicate Init(s: State) {
    s == State(s.traits, Posting, false, 1, 1, true, [], 0, 0, NoCrash)
  }

  function Spawn(s: State, act: Act): State {
    s.(acts := s.acts + [act])
  }

  function Set(s: State, a: nat, act: Act): State
    requires a < |s.acts|
  {
    s.(acts := s.acts[a := act])
  }

  /** The call at a returns and gives its reference back to whoever lent it. */
  function Return(s: State, a: nat, held: bool): State
    requires a < |s.acts|
  {
    Set(s, a, Ended).(idle := s.idle + One(held))
  }

  // ---------- the executor ----------

  ghost predicate AddRef(s: State, t: State) {
    s.idle > 0 && t == s.(refCount := s.refCount + 1, idle := s.idle + 1)
  }

  ghost predicate Release(s: State, t: State, sync: bool) {
    && s.idle > 0 && s.refCount > 0 && (sync ==> s.inTaskPost)
    && var released := s.(refCount := s.refCount - 1, idle := s.idle - 1);
       t == if released.refCount == 0 then Spawn(released, Destroying(sync)) else released
  }

  ghost predicate BeginCall(s: State, t: State, cancels: bool, sync: bool) {
    && s.idle > 0 && (sync ==> s.inTaskPost)
    && t == Spawn(s.(idle := s.idle - 1, calls := s.calls + 1), Calling(cancels, sync))
  }

  /** TaskPost returned; TryPostInternal goes on with TrySetPosted. */
  ghost predicate EndTaskPost(s: State, t: State) {
    && s.inTaskPost
    && (forall a :: 0 <= a < |s.acts| ==>
          !((s.acts[a].Calling? || s.acts[a].Moving? || s.acts[a].Destroying?) && s.acts[a].sync))
    && t == Spawn(s.(inTaskPost := false), Moving(SetPosted, true, false, Load))
  }

  /** Somebody else's step on the future. It leaves Posting only in code that TaskPost runs. */
  ghost predicate Elsewhere(s: State, t: State) {
    && Edge(s.traits, s.future, t.future) && t.future != Invoking && t.future != Posted
    && (s.future == Posting ==> s.inTaskPost)
    && t == s.(future := t.future)
  }

  ghost predicate OtherStep(s: State, t: State) {
    || AddRef(s, t) || (exists sync :: Release(s, t, sync)) || (exists cancels, sync :: BeginCall(s, t, cancels, sync))
    || EndTaskPost(s, t) || Elsewhere(s, t)
  }

  // ---------- calls in progress ----------

  ghost predicate CallbackStep(s: State, t: State, a: nat) {
    && a < |s.acts|
    && match s.acts[a] {
         case Calling(cancels, sync) =>
           if s.isCalled then t == s.(crash := CalledTwice)
           else t == Set(s, a,
               Moving(if cancels then StartSetError else SetInvoking, sync, true, Load)).(isCalled := true)
         case Destroying(sync) => t == Set(s, a, if s.isCalled then Ended else Moving(StartSetError, sync, false, Load))
         case _ => false
       }
  }

  ghost predicate FutureStep(s: State, t: State, a: nat) {
    && a < |s.acts|
    && match s.acts[a] {
         case Moving(req, sync, holds, Load) => t == Set(s, a, Moving(req, sync, holds, Check(s.future)))
         case Moving(req, sync, holds, Check(seen)) => (
           match Decide(req, s.traits, seen, true, sync)
           case MoveTo(next) => t == Set(s, a, Moving(req, sync, holds, Swap(seen, next)))
           case Retry => t == Set(s, a, Moving(req, sync, holds, Load))
           case Refuse => t == if req == SetInvoking && sync then s.(crash := InvokeRefused) else Return(s, a, holds))
         case Moving(req, sync, holds, Swap(seen, next)) =>
           || (s.future == seen
                 && t == Return(s, a, holds).(future := next, entered := s.entered + One(next == Invoking)))
           || t == Set(s, a, Moving(req, sync, holds, Check(s.future)))
         case _ => false
       }
  }

  ghost predicate Next(s: State, t: State) {
    s.crash == NoCrash && (OtherStep(s, t) || exists a :: CallbackStep(s, t, a) || FutureStep(s, t, a))
  }

  ghost predicate StepAt(run: seq<State>, i: nat)
    requires i + 1 < |run|
  {
    Next(run[i], run[i + 1])
  }

  ghost predicate Run(run: seq<State>) {
    && |run| > 0 && Init(run[0])
    && forall i {:trigger StepAt(run, i)} :: 0 <= i < |run| - 1 ==> StepAt(run, i)
  }

  // ---------- invariant ----------

  predicate Holds(act: Act) {
    act.Calling? || (act.Moving? && act.holds)
  }

  predicate IsCalling(act: Act) {
    act.Calling?
  }

  /** A call that owns the flag and has still to move the future. */
  predicate CallMoves(act: Act) {
    act.Moving? && act.holds
  }

  /** A destructor that has still to look at the flag or to cancel the future. */
  predicate Cancels(act: Act) {
    act.Destroying? || (act.Moving? && !act.holds && act.req == StartSetError)
  }

  predicate Invokes(act: Act) {
    act.Moving? && act.req == SetInvoking
  }

  predicate Posts(act: Act) {
    act.Moving? && act.req == SetPosted
  }

  /** Past Pending, Posting and Posted. */
  predicate Decided(state: FutureState) {
    Rank(state) >= Rank(Invoking)
  }

  datatype Tally = Tally(holding: nat, moving: nat, cancelling: nat, calling: nat, posting: nat)

  ghost function TallyOf(acts: seq<Act>): Tally {
    Tally(Count(acts, Holds), Count(acts, CallMoves), Count(acts, Cancels), Count(acts, IsCalling), Count(acts, Posts))
  }

  ghost predicate Balanced(s: State, y: Tally) {
    && s.refCount == s.idle + y.holding
    && (s.isCalled && !Decided(s.future) ==> y.moving > 0)
    && (s.refCount == 0 && !Decided(s.future) ==> y.cancelling > 0)
    && One(s.isCalled) + y.calling == s.calls
    && (s.future == Posting && !s.inTaskPost ==> y.posting > 0)
  }

  ghost predicate ActOK(s: State, a: nat)
    requires a < |s.acts|
  {
    && (Cancels(s.acts[a]) ==> s.refCount == 0)
    && match s.acts[a] {
         case Moving(req, sync, holds, loop) =>
           && (if holds then req in {SetInvoking, StartSetError} else req in {SetPosted, StartSetError})
           && (match loop
               case Load => true
               case Check(seen) => 1 <= Rank(seen) <= Rank(s.future)
               case Swap(seen, next) =>
                 && 1 <= Rank(seen) < Rank(next) && (req != SetPosted ==> Decided(next))
                 && (req == SetInvoking <==> next == Invoking) && (req == StartSetError ==> next == SettingResult))
         case _ => true
       }
  }

  predicate EntryOK(s: State) {
    Rank(s.future) >= 1 && s.entered <= 1 && (s.entered == 1 ==> Decided(s.future))
  }

  ghost predicate Inv(s: State) {
    && Balanced(s, TallyOf(s.acts))
    && EntryOK(s)
    && (s.crash == CalledTwice ==> s.calls >= 2)
    && forall a {:trigger ActOK(s, a)} :: 0 <= a < |s.acts| ==> ActOK(s, a)
  }

  /** The tally after one call went from one point to another; a new call comes from nowhere. */
  ghost predicate Moved(was: Tally, now: Tally, before: Act, after: Act) {
    && now.holding == was.holding - One(Holds(before)) + One(Holds(after))
    && now.moving == was.moving - One(CallMoves(before)) + One(CallMoves(after))
    && now.cancelling == was.cancelling - One(Cancels(before)) + One(Cancels(after))
    && now.calling == was.calling - One(IsCalling(before)) + One(IsCalling(after))
    && now.posting == was.posting - One(Posts(before)) + One(Posts(after))
  }

  lemma SetTally(acts: seq<Act>, a: nat, x: Act)
    requires a < |acts|
    ensures Moved(TallyOf(acts), TallyOf(acts[a := x]), acts[a], x)
  {
    CountUpdate(acts, a, x, Holds);
    CountUpdate(acts, a, x, CallMoves);
    CountUpdate(acts, a, x, Cancels);
    CountUpdate(acts, a, x, IsCalling);
    CountUpdate(acts, a, x, Posts);
  }

  lemma SpawnTally(was: seq<Act>, now: seq<Act>, x: Act)
    requires now == was + [x] || (now == was && x == Ended)
    ensures Moved(TallyOf(was), TallyOf(now), Ended, x)
  {
    if now != was {
      CountAppend(was, x, Holds);
      CountAppend(was, x, CallMoves);
      CountAppend(was, x, Cancels);
      CountAppend(was, x, IsCalling);
      CountAppend(was, x, Posts);
    }
  }

  function Spawned(s: State, t: State): Act {
    if |t.acts| > |s.acts| then t.acts[|s.acts|] else Ended
  }

  lemma OtherCalls(s: State, t: State)
    requires OtherStep(s, t)
    ensures t.acts == s.acts + [Spawned(s, t)] || (t.acts == s.acts && Spawned(s, t) == Ended)
    ensures t.crash == s.crash && t.entered == s.entered && t.isCalled == s.isCalled && !Invokes(Spawned(s, t))
  {
  }

  lemma OtherCounts(s: State, t: State)
    requires OtherStep(s, t) && s.idle <= s.refCount
    ensures var x := Spawned(s, t);
            && t.calls == s.calls + One(IsCalling(x)) && t.refCount - t.idle == s.refCount - s.idle + One(Holds(x))
            && (if s.refCount == 0 then t.refCount == 0 else t.refCount == 0 ==> Cancels(x))
  {
    if sync :| Release(s, t, sync) {
      ReleaseCounts(s, t, sync);
    } else if cancels, sync :| BeginCall(s, t, cancels, sync) {
      assert Spawned(s, t) == Calling(cancels, sync);
    }
  }

  lemma ReleaseCounts(s: State, t: State, sync: bool)
    requires Release(s, t, sync)
    ensures Spawned(s, t) == if s.refCount == 1 then Destroying(sync) else Ended
    ensures t.calls == s.calls && t.refCount == s.refCount - 1 && t.idle == s.idle - 1
  {
  }

  lemma OtherClimbs(s: State, t: State)
    requires OtherStep(s, t)
    ensures Rank(s.future) <= Rank(t.future)
  {
    if s.future != t.future { EdgeClimbs(s.traits, s.future, t.future); }
  }

  lemma OtherBalances(s: State, t: State, was: Tally, now: Tally)
    requires Balanced(s, was) && EntryOK(s) && OtherStep(s, t) && Moved(was, now, Ended, Spawned(s, t))
    ensures Balanced(t, now)
  {
    OtherCalls(s, t);
    OtherCounts(s, t);
    OtherClimbs(s, t);
  }

  lemma OtherActs(s: State, t: State, a: nat)
    requires OtherStep(s, t) && a < |t.acts| && Rank(s.future) <= Rank(t.future)
    requires t.acts == s.acts + [Spawned(s, t)] || (t.acts == s.acts && Spawned(s, t) == Ended)
    requires if s.refCount == 0 then t.refCount == 0 else t.refCount == 0 ==> Cancels(Spawned(s, t))
    requires a < |s.acts| ==> ActOK(s, a)
    ensures ActOK(t, a)
  {
  }

  lemma OtherPreserves(s: State, t: State)
    requires Inv(s) && OtherStep(s, t)
    ensures Inv(t)
  {
    OtherCalls(s, t);
    OtherCounts(s, t);
    OtherClimbs(s, t);
    SpawnTally(s.acts, t.acts, Spawned(s, t));
    OtherBalances(s, t, TallyOf(s.acts), TallyOf(t.acts));
    forall a | 0 <= a < |t.acts| ensures ActOK(t, a) {
      if a < |s.acts| { assert ActOK(s, a); }
      OtherActs(s, t, a);
    }
  }

  lemma {:induction false} MoversHold(acts: seq<Act>)
    ensures Count(acts, CallMoves) <= Count(acts, Holds)
  {
    if acts != [] { MoversHold(acts[1..]); }
  }

  lemma CallbackPreserves(s: State, t: State, a: nat)
    requires Inv(s) && CallbackStep(s, t, a) && s.crash == NoCrash
    ensures Inv(t)
  {
    assert ActOK(s, a);
    if s.acts[a].Calling? { CountSome(s.acts, a, IsCalling); }
    SetTally(s.acts, a, t.acts[a]);
    MoversHold(s.acts);
    forall b | 0 <= b < |t.acts| ensures ActOK(t, b) { assert ActOK(s, b); }
  }

  /** The three operations here, out of all the cases of Decide: each refuses only past Posted. */
  lemma Decisions(req: Request, t: Traits, seen: FutureState, sync: bool)
    requires req in {SetInvoking, StartSetError, SetPosted} && Rank(seen) >= 1
    ensures var d := Decide(req, t, seen, true, sync);
            && (d.Refuse? && req != SetPosted ==> Decided(seen)) && (d.Refuse? && req == SetPosted ==> seen != Posting)
            && (d.MoveTo? ==> Rank(seen) < Rank(d.next) && (req != SetPosted ==> Decided(d.next)))
            && (d.MoveTo? && d.next == Invoking ==> !Decided(seen))
            && (d.MoveTo? ==> (req == SetInvoking <==> d.next == Invoking))
            && (d.MoveTo? && req == StartSetError ==> d.next == SettingResult)
  {
  }

  /** What a step of a loop does to the call it belongs to. */
  ghost predicate OwnStep(s: State, t: State, a: nat) {
    && a < |s.acts| == |t.acts| && t.acts == s.acts[a := t.acts[a]] && Rank(s.future) <= Rank(t.future)
    && t.refCount == s.refCount && t.isCalled == s.isCalled && t.calls == s.calls && t.crash != CalledTwice
    && EntryOK(t)
    && t.idle - s.idle == One(Holds(s.acts[a])) - One(Holds(t.acts[a]))
    && (Decided(t.future) || (CallMoves(t.acts[a]) == CallMoves(s.acts[a]) && Cancels(t.acts[a]) == Cancels(s.acts[a])))
    && !IsCalling(s.acts[a]) && !IsCalling(t.acts[a])
    && t.inTaskPost == s.inTaskPost && (t.future != Posting || Posts(t.acts[a]) == Posts(s.acts[a]))
  }

  lemma CheckStep(s: State, t: State, a: nat)
    requires FutureStep(s, t, a) && ActOK(s, a) && EntryOK(s) && s.acts[a].loop.Check? && s.crash == NoCrash
    ensures OwnStep(s, t, a) && ActOK(t, a)
  {
    var act := s.acts[a];
    Decisions(act.req, s.traits, act.loop.seen, act.sync);
    if Decide(act.req, s.traits, act.loop.seen, true, act.sync).Refuse? { RefuseStep(s, t, a); }
  }

  lemma RefuseStep(s: State, t: State, a: nat)
    requires FutureStep(s, t, a) && ActOK(s, a) && EntryOK(s) && s.acts[a].loop.Check? && s.crash == NoCrash
    requires Decide(s.acts[a].req, s.traits, s.acts[a].loop.seen, true, s.acts[a].sync).Refuse?
    requires s.acts[a].req != SetPosted ==> Decided(s.acts[a].loop.seen)
    ensures OwnStep(s, t, a) && ActOK(t, a)
  {
  }

  lemma LoadStep(s: State, t: State, a: nat)
    requires FutureStep(s, t, a) && ActOK(s, a) && EntryOK(s) && s.acts[a].loop.Load? && s.crash == NoCrash
    ensures OwnStep(s, t, a) && ActOK(t, a)
  {
  }

  lemma SwapStep(s: State, t: State, a: nat)
    requires FutureStep(s, t, a) && ActOK(s, a) && EntryOK(s) && s.acts[a].loop.Swap? && s.crash == NoCrash
    ensures OwnStep(s, t, a) && ActOK(t, a)
  {
    if t.acts[a].Ended? { Swaps(s, t, a); }
  }

  lemma Swaps(s: State, t: State, a: nat)
    requires FutureStep(s, t, a) && ActOK(s, a) && EntryOK(s) && s.acts[a].loop.Swap? && s.crash == NoCrash
    requires t.acts[a].Ended?
    ensures OwnStep(s, t, a) && ActOK(t, a)
  {
  }

  /** A loop ends only when the future is past Posted, or moves there. */
  lemma FuturePreserves(s: State, t: State, a: nat)
    requires Inv(s) && FutureStep(s, t, a) && s.crash == NoCrash
    ensures Inv(t)
  {
    assert ActOK(s, a);
    match s.acts[a].loop {
      case Load => LoadStep(s, t, a);
      case Check(_) => CheckStep(s, t, a);
      case Swap(_, _) => SwapStep(s, t, a);
    }
    SetTally(s.acts, a, t.acts[a]);
    forall b | 0 <= b < |t.acts| ensures ActOK(t, b) { assert ActOK(s, b); }
  }

  lemma NextPreserves(s: State, t: State)
    requires Inv(s) && Next(s, t)
    ensures Inv(t)
  {
    if OtherStep(s, t) {
      OtherPreserves(s, t);
    } else {
      var a: nat :| CallbackStep(s, t, a) || FutureStep(s, t, a);
      if CallbackStep(s, t, a) { CallbackPreserves(s, t, a); } else { FuturePreserves(s, t, a); }
    }
  }

  lemma InitInv(s: State)
    requires Init(s)
    ensures Inv(s)
  {
  }

  lemma {:induction false} RunInv(run: seq<State>, i: nat)
    requires Run(run) && i < |run|
    ensures Inv(run[i])
  {
    if i == 0 {
      InitInv(run[0]);
    } else {
      RunInv(run, i - 1);
      assert StepAt(run, i - 1);
      NextPreserves(run[i - 1], run[i]);
    }
  }

  // ---------- what an executor can rely on ----------

  /** The task is entered at most once, whatever the executor does. */
  lemma EnteredOnce(run: seq<State>, i: nat)
    requires Run(run) && i < |run|
    ensures run[i].entered <= 1
  {
    RunInv(run, i);
  }

  /** An executor that calls at most one of Invoke and OnCancel, once, never trips the check against a second call. */
  lemma OneCallIsSafe(run: seq<State>, i: nat)
    requires Run(run) && i < |run| && run[i].calls <= 1
    ensures run[i].crash != CalledTwice
  {
    RunInv(run, i);
  }

  /** A synchronous Invoke found the future past Posted. */
  ghost predicate RefusedAt(s: State, a: nat) {
    && s.crash == InvokeRefused && a < |s.acts| && s.acts[a].Moving? && s.acts[a].req == SetInvoking && s.acts[a].sync
    && s.acts[a].loop.Check? && Decide(SetInvoking, s.traits, s.acts[a].loop.seen, true, true).Refuse?
  }

  /** Nothing but a synchronous Invoke fails fast when it is refused. */
  lemma OnlySyncInvokesFail(run: seq<State>, i: nat)
    requires Run(run) && i < |run| && run[i].crash == InvokeRefused
    ensures exists a :: RefusedAt(run[i], a)
  {
    var s, t := run[i - 1], run[i];
    assert StepAt(run, i - 1);
    if OtherStep(s, t) {
      OtherCalls(s, t);
    } else {
      var a: nat :| CallbackStep(s, t, a) || FutureStep(s, t, a);
      assert RefusedAt(t, a);
    }
  }

  /** Call a enters the task. */
  ghost predicate Enters(s: State, t: State, a: nat) {
    && FutureStep(s, t, a) && s.acts[a].Moving? && s.acts[a].req == SetInvoking && s.acts[a].loop.Swap?
    && t.acts[a].Ended?
  }

  ghost predicate EntersAt(run: seq<State>, i: nat, a: nat)
    requires i + 1 < |run|
  {
    Enters(run[i], run[i + 1], a)
  }

  /** Step i takes the future past Posted. */
  ghost predicate DecidesAt(run: seq<State>, i: nat)
    requires i + 1 < |run|
  {
    !Decided(run[i].future) && Decided(run[i + 1].future)
  }

  lemma LoopClimbs(s: State, t: State, a: nat)
    requires FutureStep(s, t, a) && ActOK(s, a)
    ensures Rank(s.future) <= Rank(t.future)
  {
  }

  lemma Climbs(run: seq<State>, i: nat)
    requires Run(run) && i + 1 < |run|
    ensures Rank(run[i].future) <= Rank(run[i + 1].future)
    ensures |run[i].acts| <= |run[i + 1].acts|
    ensures forall a :: 0 <= a < |run[i].acts| && run[i].acts[a].Ended? ==> run[i + 1].acts[a].Ended?
  {
    var s, t := run[i], run[i + 1];
    RunInv(run, i);
    assert StepAt(run, i);
    if OtherStep(s, t) {
      OtherCalls(s, t);
      OtherClimbs(s, t);
    } else if a: nat :| FutureStep(s, t, a) {
      assert ActOK(s, a);
      LoopStep(s, t, a);
      LoopClimbs(s, t, a);
    } else {
      var a: nat :| CallbackStep(s, t, a);
      CallbackActs(s, t, a);
    }
  }

  lemma {:induction false} ClimbsOn(run: seq<State>, i: nat, j: nat)
    requires Run(run) && i <= j < |run|
    ensures Rank(run[i].future) <= Rank(run[j].future) && |run[i].acts| <= |run[j].acts|
    ensures forall a :: 0 <= a < |run[i].acts| && run[i].acts[a].Ended? ==> run[j].acts[a].Ended?
    decreases j
  {
    if i < j {
      ClimbsOn(run, i, j - 1);
      Climbs(run, j - 1);
    }
  }

  lemma {:induction false} Decider(run: seq<State>, i: nat) returns (k: nat)
    requires Run(run) && i < |run| && Decided(run[i].future)
    ensures k < i && DecidesAt(run, k)
  {
    var last := i - 1;
    if Decided(run[last].future) { k := Decider(run, last); } else { k := last; }
  }

  lemma EntersDecides(run: seq<State>, m: nat, a: nat)
    requires Run(run) && m + 1 < |run| && EntersAt(run, m, a)
    ensures DecidesAt(run, m) && a < |run[m + 1].acts| && run[m + 1].acts[a].Ended?
  {
    RunInv(run, m);
    assert ActOK(run[m], a);
  }

  lemma DecidedOnce(run: seq<State>, k: nat, m: nat)
    requires Run(run) && k + 1 < |run| && m + 1 < |run| && DecidesAt(run, k) && DecidesAt(run, m)
    ensures k == m
  {
    if k < m { ClimbsOn(run, k + 1, m); } else if m < k { ClimbsOn(run, m + 1, k); }
  }

  /** A synchronous Invoke that is over failed fast if and only if another step took the future past Posted: a
      cancelling call, or something else that TaskPost did to it. */
  lemma InvokeRefusedIff(run: seq<State>, i: nat, a: nat)
    requires Run(run) && i < |run| && (RefusedAt(run[i], a) || exists m :: 0 <= m < i && EntersAt(run, m, a))
    ensures RefusedAt(run[i], a) <==> exists k :: 0 <= k < i && DecidesAt(run, k) && !EntersAt(run, k, a)
  {
    if RefusedAt(run[i], a) {
      RunInv(run, i);
      assert ActOK(run[i], a);
      Decisions(SetInvoking, run[i].traits, run[i].acts[a].loop.seen, true);
      var k := Decider(run, i);
      if EntersAt(run, k, a) {
        EntersDecides(run, k, a);
        ClimbsOn(run, k + 1, i);
      }
    } else {
      var m: nat :| m < i && EntersAt(run, m, a);
      EntersDecides(run, m, a);
      if k: nat :| k < i && DecidesAt(run, k) && !EntersAt(run, k, a) { DecidedOnce(run, k, m); }
    }
  }

  // ---------- what the two calls do ----------

  /** Call a, Invoke or OnCancel, is the first to exchange m_isCalled. */
  ghost predicate TakesAt(run: seq<State>, j: nat, a: nat, cancels: bool)
    requires j + 1 < |run|
  {
    && CallbackStep(run[j], run[j + 1], a) && !run[j].isCalled
    && run[j].acts[a].Calling? && run[j].acts[a].cancels == cancels
  }

  /** Call a itself takes the future past Posted. */
  ghost predicate DecidesBy(run: seq<State>, k: nat, a: nat)
    requires k + 1 < |run|
  {
    DecidesAt(run, k) && FutureStep(run[k], run[k + 1], a)
  }

  /** What is left of a call that took the flag. */
  predicate Carries(act: Act, cancels: bool) {
    act.Ended? || (act.Moving? && act.holds && act.req == if cancels then StartSetError else SetInvoking)
  }

  /** A loop keeps its request to the end. */
  lemma LoopStep(s: State, t: State, a: nat)
    requires FutureStep(s, t, a) && ActOK(s, a)
    ensures |t.acts| == |s.acts| && s.acts[a].Moving? && t.acts == s.acts[a := t.acts[a]] && t.isCalled == s.isCalled
    ensures t.acts[a].Ended?
            || (t.acts[a].Moving? && t.acts[a].req == s.acts[a].req && t.acts[a].holds == s.acts[a].holds)
  {
  }

  /** Only TrySetInvoking enters the task. */
  lemma LoopEnters(s: State, t: State, a: nat)
    requires FutureStep(s, t, a) && ActOK(s, a) && t.entered != s.entered
    ensures Invokes(s.acts[a])
  {
  }

  lemma LoopEnds(s: State, t: State, a: nat, cancels: bool)
    requires FutureStep(s, t, a) && Inv(s) && Carries(s.acts[a], cancels) && t.acts[a].Ended?
    ensures Decided(t.future) && (!Decided(s.future) ==> t.future == if cancels then SettingResult else Invoking)
  {
    assert ActOK(s, a);
    if s.acts[a].loop.Check? { Decisions(s.acts[a].req, s.traits, s.acts[a].loop.seen, s.acts[a].sync); }
  }

  lemma CallbackActs(s: State, t: State, b: nat)
    requires CallbackStep(s, t, b)
    ensures |t.acts| == |s.acts| && t.acts == s.acts[b := t.acts[b]] && !s.acts[b].Moving? && !s.acts[b].Ended?
    ensures t.entered == s.entered && t.future == s.future
    ensures Invokes(t.acts[b]) ==> !s.isCalled && s.acts[b].Calling? && !s.acts[b].cancels
  {
  }

  /** A call goes on as what it was; it ends once the future is past Posted, which may be its own doing. */
  lemma CarriesOn(s: State, t: State, a: nat, cancels: bool)
    requires Inv(s) && Next(s, t) && a < |s.acts| && Carries(s.acts[a], cancels)
    ensures a < |t.acts| && Carries(t.acts[a], cancels)
    ensures s.acts[a].Moving? && t.acts[a].Ended? ==>
              FutureStep(s, t, a) && Decided(t.future)
              && (!Decided(s.future) ==> t.future == if cancels then SettingResult else Invoking)
  {
    if OtherStep(s, t) {
      OtherCalls(s, t);
    } else if b: nat :| FutureStep(s, t, b) {
      assert ActOK(s, b);
      LoopStep(s, t, b);
      if b == a && t.acts[a].Ended? { LoopEnds(s, t, a, cancels); }
    } else {
      var b: nat :| CallbackStep(s, t, b);
      CallbackActs(s, t, b);
    }
  }

  /** The call that took the flag, once over, leaves the future past Posted; and if nobody else took it there, that is
      its own doing. */
  lemma {:induction false} TakerDecides(run: seq<State>, j: nat, i: nat, a: nat, cancels: bool)
    requires Run(run) && j < i < |run| && TakesAt(run, j, a, cancels)
    requires forall k :: 0 <= k < i && DecidesAt(run, k) ==> DecidesBy(run, k, a)
    ensures a < |run[i].acts| && Carries(run[i].acts[a], cancels)
    ensures run[i].acts[a].Ended? ==>
              exists k :: j < k < i && DecidesBy(run, k, a)
                          && run[k + 1].future == if cancels then SettingResult else Invoking
  {
    if i > j + 1 {
      var last := i - 1;
      TakerDecides(run, j, last, a, cancels);
      RunInv(run, last);
      assert StepAt(run, last);
      CarriesOn(run[last], run[i], a, cancels);
      if run[last].acts[a].Moving? && run[i].acts[a].Ended? {
        if Decided(run[last].future) { NotYetDecided(run, j, last, a, cancels); }
        assert DecidesBy(run, last, a);
      }
    }
  }

  /** Nobody but the call itself decides, and it is still at it. */
  lemma NotYetDecided(run: seq<State>, j: nat, i: nat, a: nat, cancels: bool)
    requires Run(run) && j < i < |run| && a < |run[i].acts| && run[i].acts[a].Moving?
    requires forall k :: 0 <= k < i && DecidesAt(run, k) ==> DecidesBy(run, k, a)
    ensures !Decided(run[i].future)
  {
    if Decided(run[i].future) {
      var k := Decider(run, i);
      assert DecidesBy(run, k, a);
      RunInv(run, k);
      assert ActOK(run[k], a);
      ClimbsOn(run, k + 1, i);
    }
  }

  lemma EntryAt(run: seq<State>, k: nat, a: nat)
    requires Run(run) && k + 1 < |run| && DecidesBy(run, k, a)
    ensures run[k].entered == 0 && run[k + 1].entered == One(run[k + 1].future == Invoking)
  {
    RunInv(run, k);
  }

  lemma {:induction false} EntryStays(run: seq<State>, k: nat, i: nat)
    requires Run(run) && k <= i < |run| && Decided(run[k].future)
    ensures run[i].entered == run[k].entered
    decreases i
  {
    if k < i {
      EntryStays(run, k, i - 1);
      ClimbsOn(run, k, i - 1);
      RunInv(run, i - 1);
      assert StepAt(run, i - 1);
      EntryKept(run[i - 1], run[i]);
    }
  }

  lemma EntryKept(s: State, t: State)
    requires Inv(s) && Next(s, t) && Decided(s.future)
    ensures t.entered == s.entered
  {
    if OtherStep(s, t) {
      OtherCalls(s, t);
    } else if b: nat :| FutureStep(s, t, b) {
      assert ActOK(s, b);
    }
  }

  /** Where no other step decides the future, an Invoke that took the flag and is over has entered the task, and an
      OnCancel has claimed the future for the error, and the task is never entered. */
  lemma CallDoesWhatItSays(run: seq<State>, j: nat, i: nat, a: nat, cancels: bool)
    requires Run(run) && j < i < |run| && TakesAt(run, j, a, cancels)
    requires forall k :: 0 <= k < i && DecidesAt(run, k) ==> DecidesBy(run, k, a)
    requires a < |run[i].acts| && run[i].acts[a].Ended?
    ensures run[i].entered == if cancels then 0 else 1
    ensures cancels ==> exists k :: j < k < i && DecidesBy(run, k, a) && run[k + 1].future == SettingResult
  {
    TakerDecides(run, j, i, a, cancels);
    var k :| j < k < i && DecidesBy(run, k, a) && run[k + 1].future == if cancels then SettingResult else Invoking;
    EntryAt(run, k, a);
    EntryStays(run, k + 1, i);
  }

  /** The task is entered only by an Invoke that was the first call: a callback that was only cancelled, or never
      called, does not enter it. */
  lemma {:induction false} EntersOnlyByInvoke(run: seq<State>, i: nat)
    requires Run(run) && i < |run|
    requires run[i].entered > 0 || exists a :: 0 <= a < |run[i].acts| && Invokes(run[i].acts[a])
    ensures exists j, a :: 0 <= j < i && TakesAt(run, j, a, false)
  {
    var last := i - 1;
    var s, t := run[last], run[i];
    RunInv(run, last);
    assert StepAt(run, last);
    if s.entered > 0 || exists a :: 0 <= a < |s.acts| && Invokes(s.acts[a]) {
      EntersOnlyByInvoke(run, last);
    } else {
      var a := FirstInvokes(s, t);
      assert TakesAt(run, last, a, false);
    }
  }

  lemma FirstInvokes(s: State, t: State) returns (a: nat)
    requires Inv(s) && Next(s, t) && s.entered == 0 && forall b :: 0 <= b < |s.acts| ==> !Invokes(s.acts[b])
    requires t.entered > 0 || exists b :: 0 <= b < |t.acts| && Invokes(t.acts[b])
    ensures CallbackStep(s, t, a) && !s.isCalled && s.acts[a].Calling? && !s.acts[a].cancels
  {
    a := 0;
    if OtherStep(s, t) {
      OtherCalls(s, t);
    } else if b: nat :| FutureStep(s, t, b) {
      assert ActOK(s, b);
      LoopStep(s, t, b);
      if t.entered != s.entered { LoopEnters(s, t, b); }
    } else {
      a :| CallbackStep(s, t, a);
      CallbackActs(s, t, a);
    }
  }

  /** Destroyed uncalled, with every call over, the task was never entered. */
  lemma UncalledIsNotEntered(run: seq<State>, i: nat)
    requires Run(run) && i < |run| && !run[i].isCalled
    ensures run[i].entered == 0
  {
    if run[i].entered > 0 {
      EntersOnlyByInvoke(run, i);
      var j, a :| 0 <= j < i && TakesAt(run, j, a, false);
      StaysCalled(run, j + 1, i);
    }
  }

  lemma {:induction false} StaysCalled(run: seq<State>, j: nat, i: nat)
    requires Run(run) && j <= i < |run| && run[j].isCalled
    ensures run[i].isCalled
    decreases i
  {
    if j < i {
      StaysCalled(run, j, i - 1);
      assert StepAt(run, i - 1);
    }
  }

  ghost predicate AllEnded(s: State) {
    forall a :: 0 <= a < |s.acts| ==> s.acts[a].Ended?
  }

  /** Once TaskPost has returned and every call is over, the future has left Posting: no executor waits for it in
      vain. */
  lemma LeavesPosting(run: seq<State>, i: nat)
    requires Run(run) && i < |run| && AllEnded(run[i]) && !run[i].inTaskPost
    ensures run[i].future != Posting
  {
    RunInv(run, i);
    CountBound(run[i].acts, Posts);
  }

  /** No second call ever returns: with every call over there was one if the flag says so, and none otherwise. */
  lemma SecondCallNeverReturns(run: seq<State>, i: nat)
    requires Run(run) && i < |run| && AllEnded(run[i])
    ensures run[i].calls == One(run[i].isCalled)
  {
    RunInv(run, i);
    CountBound(run[i].acts, IsCalling);
  }

  /** Once the callback was called, or its last reference is gone, and every call returned, the future is out of
      Pending, Posting and Posted: it was invoked, or claimed to be completed or cancelled. */
  lemma NeverForgotten(run: seq<State>, i: nat)
    requires Run(run) && i < |run| && AllEnded(run[i]) && (run[i].isCalled || run[i].refCount == 0)
    ensures run[i].future !in {Pending, Posting, Posted}
  {
    RunInv(run, i);
    CountBound(run[i].acts, CallMoves);
    CountBound(run[i].acts, Cancels);
  }

  // ---------- calls come to an end ----------

  /** How far call a is from its end, if nobody interferes and the future is not Posting. */
  function Distance(s: State, a: nat): nat
    requires a < |s.acts|
  {
    match s.acts[a]
    case Ended => 0
    case Moving(_, _, _, Swap(expected, _)) => if expected == s.future then 1 else 3
    case Moving(_, _, _, Check(seen)) => if seen == s.future then 2 else if seen == Posting then 6 else 4
    case Moving(_, _, _, Load) => 5
    case _ => 7
  }

  ghost predicate Advances(s: State, t: State, a: nat) {
    && Next(s, t) && a < |s.acts| && t.future != Posting
    && (t.crash == NoCrash ==> a < |t.acts| && Distance(t, a) < Distance(s, a))
  }

  lemma SwapGoesOn(s: State, a: nat) returns (t: State)
    requires Inv(s) && s.crash == NoCrash && a < |s.acts| && s.acts[a].Moving? && s.acts[a].loop.Swap?
    requires s.future != Posting
    ensures Advances(s, t, a)
  {
    assert ActOK(s, a);
    var Moving(req, sync, holds, loop) := s.acts[a];
    if s.future == loop.expected {
      t := Return(s, a, holds).(future := loop.next, entered := s.entered + One(loop.next == Invoking));
    } else {
      t := Set(s, a, Moving(req, sync, holds, Check(s.future)));
    }
    assert FutureStep(s, t, a);
  }

  lemma CheckGoesOn(s: State, a: nat) returns (t: State)
    requires Inv(s) && s.crash == NoCrash && a < |s.acts| && s.acts[a].Moving? && s.acts[a].loop.Check?
    requires s.future != Posting
    ensures Advances(s, t, a)
  {
    var Moving(req, sync, holds, loop) := s.acts[a];
    var d := Decide(req, s.traits, loop.seen, true, sync);
    t := if d.MoveTo? then Set(s, a, Moving(req, sync, holds, Swap(loop.seen, d.next)))
         else if d.Retry? then Set(s, a, Moving(req, sync, holds, Load))
         else if req == SetInvoking && sync then s.(crash := InvokeRefused)
         else Return(s, a, holds);
    assert FutureStep(s, t, a);
  }

  lemma GoesOn(s: State, a: nat) returns (t: State)
    requires Inv(s) && s.crash == NoCrash && a < |s.acts| && !s.acts[a].Ended? && s.future != Posting
    ensures Advances(s, t, a)
  {
    match s.acts[a] {
      case Moving(req, sync, holds, Load) =>
        t := Set(s, a, Moving(req, sync, holds, Check(s.future)));
        assert FutureStep(s, t, a);
      case Moving(_, _, _, Check(_)) => t := CheckGoesOn(s, a);
      case Moving(_, _, _, Swap(_, _)) => t := SwapGoesOn(s, a);
      case Calling(cancels, sync) =>
        var req := if cancels then StartSetError else SetInvoking;
        t := if s.isCalled then s.(crash := CalledTwice)
             else Set(s, a, Moving(req, sync, true, Load)).(isCalled := true);
        assert CallbackStep(s, t, a);
      case Destroying(sync) =>
        t := Set(s, a, if s.isCalled then Ended else Moving(StartSetError, sync, false, Load));
        assert CallbackStep(s, t, a);
    }
  }

  /** Once TaskPost is through with the future, every call can come to its end by itself: nothing waits for ever. */
  lemma {:induction false} CallEnds(s: State, a: nat) returns (t: State)
    requires Inv(s) && s.crash == NoCrash && a < |s.acts| && s.future != Posting
    ensures Leads(Next, s, t) && (t.crash == NoCrash ==> a < |t.acts| && t.acts[a].Ended?)
    decreases Distance(s, a)
  {
    if s.acts[a].Ended? {
      t := s;
      Stays(Next, s);
    } else {
      var u := GoesOn(s, a);
      Stays(Next, s);
      Then(Next, s, s, u);
      if u.crash != NoCrash {
        t := u;
      } else {
        NextPreserves(s, u);
        t := CallEnds(u, a);
        Joins(Next, s, u, t);
      }
    }
  }
}
