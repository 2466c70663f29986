/** WhenAll: one MultiPost future that is a continuation of n distinct parents, as a state machine.

    The caller's thread adds it to one parent after another, while other threads add continuations of their own to the
    parents and settle them. A settled parent posts once, and runs TaskInvoke or TaskCatch in its own thread. */
module WhenAll {
  import opened Options
  import opened FutureCore

  /** How a parent settles. */
  datatype Outcome = Value(value: int) | Error(error: int)

  /** hasEarlier: parent k may have another continuation while WhenAll is not in its list yet. */
  datatype Config = Config(outcomes: seq<Outcome>, hasEarlier: seq<bool>, hasValue: bool)

  predicate ValidConfig(c: Config) {
    |c.outcomes| > 0 && |c.hasEarlier| == |c.outcomes|
  }

  function CombinedTraits(c: Config): Traits {
    Traits(false, false, true, false, if c.hasValue then 16 else 0, false, true, true)
  }

  /** A loop of load, decision and swap on the word of the combined future. */
  datatype Loop = Load | Check(seen: FutureState) | Swap(expected: FutureState, next: FutureState)

  /** The word of a parent: whether its continuation half is a future, and whether it is settled. */
  datatype ParentWord = ParentWord(hasContinuation: bool, done: bool)

  /** Where AddContinuation is with parent `added`; seen is the word it works on. */
  datatype Adding =
    | Between
    | Loaded(seen: ParentWord)
    | Detached(seen: ParentWord)  // m_link cleared
    | Linked(seen: ParentWord)    // m_link written, about to swap

  /** Where the callback of a parent is. counted is history: whether it incremented CompleteCount. */
  datatype Pc =
    | Waiting
    | Storing                            // TaskInvoke: about to convert its entry of ParentFutures
    | Counting                           // about to increment CompleteCount
    | Claiming(req: Request, loop: Loop) // TryStartSetValue by the last success, TryStartSetError by a failure
    | Copying(k: nat)                    // about to copy the value of parent k into the result
    | Keeping                            // about to write m_error
    | Settling(req: Request, loop: Loop) // TrySetSuccess or SetFailed
    | Over(counted: bool)

  datatype Crash = NoCrash | SuccessRefused | ValueRefused | FailedRefused | ValueMissing

  /** linked: the combined future's m_link is not null. held: which entries of ParentFutures are counted references.
      winner is history: the parent whose call claimed the combined future. */
  datatype State = State(
    added: nat, adding: Adding, words: seq<ParentWord>, linked: bool,
    state: FutureState, error: Option<int>, completeCount: nat,
    held: seq<bool>, values: seq<Option<int>>, pcs: seq<Pc>, winner: Option<nat>, crash: Crash)

  ghost predicate Init(c: Config, s: State) {
    var n := |c.outcomes|;
    s == State(0, Between, seq(n, _ => ParentWord(false, false)), false, Pending, None, 0,
               seq(n, _ => false), seq(n, _ => None), seq(n, _ => Waiting), None, NoCrash)
  }

  function Go(s: State, i: nat, pc: Pc): State
    requires i < |s.pcs|
  {
    s.(pcs := s.pcs[i := pc])
  }

  /** One round of AddContinuation. m_link is a plain field that the callbacks of the parents already read. A settled
      parent is left as it is, and its list, which is just the combined future, posted. */
  ghost predicate AddStep(c: Config, s: State, t: State) {
    && s.added < |c.outcomes| == |s.words|
    && match s.adding {
         case Between => t == s.(adding := Loaded(s.words[s.added]))
         case Loaded(seen) => t == s.(adding := Detached(seen), linked := false)
         case Detached(seen) => t == s.(adding := Linked(seen), linked := seen.hasContinuation && !seen.done)
         case Linked(seen) =>
           || (s.words[s.added] == seen
               && t == s.(added := s.added + 1, adding := Between,
                          words := if seen.done then s.words else s.words[s.added := ParentWord(true, false)]))
           || t == s.(adding := Loaded(s.words[s.added]))
       }
  }

  /** Somebody else adds a continuation to parent k, or settles it. */
  ghost predicate ParentStep(c: Config, s: State, t: State, k: nat) {
    && k < |s.words| == |c.hasEarlier| && !s.words[k].done
    && (|| ((k < s.added || c.hasEarlier[k]) && t == s.(words := s.words[k := ParentWord(true, false)]))
        || t == s.(words := s.words[k := ParentWord(false, true)]))
  }

  /** A settled parent that has the combined future as a continuation posts it; a MultiPost future calls back inline. */
  ghost predicate PostStep(c: Config, s: State, t: State, i: nat) {
    && i < |s.pcs| == |c.outcomes| == |s.words| && s.pcs[i].Waiting? && i < s.added && s.words[i].done
    && t == Go(s, i, if c.outcomes[i].Value? then Storing else Claiming(StartSetError, Load))
  }

  ghost predicate InvokeStep(c: Config, s: State, t: State, i: nat) {
    && i < |s.pcs| == |s.held|
    && match s.pcs[i] {
         case Storing => t == Go(s, i, Counting).(held := s.held[i := true])
         case Counting =>
           var last := s.completeCount + 1 == |c.outcomes|;
           var settle := if c.hasValue then Claiming(StartSetValue, Load) else Settling(SetSuccess, Load);
           t == Go(s, i, if last then settle else Over(true)).(completeCount := s.completeCount + 1)
         case _ => false
       }
  }

  /** The decision of a loop; in the callback of the combined future it is its thread's current one. */
  function Decided(c: Config, s: State, req: Request, seen: FutureState): Decision {
    Decide(req, CombinedTraits(c), seen, !s.linked, true)
  }

  ghost predicate ClaimStep(c: Config, s: State, t: State, i: nat) {
    && i < |s.pcs|
    && match s.pcs[i] {
         case Claiming(req, Load) => t == Go(s, i, Claiming(req, Check(s.state)))
         case Claiming(req, Check(seen)) => (
           match Decided(c, s, req, seen)
           case MoveTo(next) => t == Go(s, i, Claiming(req, Swap(seen, next)))
           case Retry => t == Go(s, i, Claiming(req, Load))
           case Refuse => t == if req == StartSetError then Go(s, i, Over(false)) else s.(crash := ValueRefused))
         case Claiming(req, Swap(seen, next)) =>
           || (s.state == seen
               && t == Go(s, i, if req == StartSetError then Keeping else Copying(0)).(
                         state := next, winner := Some(i)))
           || t == Go(s, i, Claiming(req, Check(s.state)))
         case _ => false
       }
  }

  /** Between claiming and settling: the result array, or the error. */
  ghost predicate WriteStep(c: Config, s: State, t: State, i: nat) {
    && i < |s.pcs| == |c.outcomes| == |s.values|
    && match s.pcs[i] {
         case Copying(k) =>
           if k >= |c.outcomes| then t == Go(s, i, Settling(SetSuccess, Load))
           else if c.outcomes[k].Error? then t == s.(crash := ValueMissing)
           else t == Go(s, i, Copying(k + 1)).(values := s.values[k := Some(c.outcomes[k].value)])
         case Keeping =>
           c.outcomes[i].Error? && t == Go(s, i, Settling(FinishError, Load)).(error := Some(c.outcomes[i].error))
         case _ => false
       }
  }

  ghost predicate SettleStep(c: Config, s: State, t: State, i: nat) {
    && i < |s.pcs|
    && match s.pcs[i] {
         case Settling(req, Load) => t == Go(s, i, Settling(req, Check(s.state)))
         case Settling(req, Check(seen)) => (
           match Decided(c, s, req, seen)
           case MoveTo(next) => t == Go(s, i, Settling(req, Swap(seen, next)))
           case Retry => t == Go(s, i, Settling(req, Load))
           case Refuse => t == s.(crash := if req == FinishError then FailedRefused else SuccessRefused))
         case Settling(req, Swap(seen, next)) =>
           || (s.state == seen
               && t == Go(s, i, Over(req == SetSuccess)).(
                         state := next, error := if next == Failed then s.error else None))
           || t == Go(s, i, Settling(req, Check(s.state)))
         case _ => false
       }
  }

  ghost predicate CallbackStep(c: Config, s: State, t: State, i: nat) {
    PostStep(c, s, t, i) || InvokeStep(c, s, t, i) || ClaimStep(c, s, t, i) || WriteStep(c, s, t, i)
        || SettleStep(c, s, t, i)
  }

  ghost predicate Next(c: Config, s: State, t: State) {
    && s.crash == NoCrash
    && (AddStep(c, s, t) || (exists k :: ParentStep(c, s, t, k)) || exists i :: CallbackStep(c, s, t, i))
  }

  ghost predicate StepAt(c: Config, run: seq<State>, i: nat)
    requires i + 1 < |run|
  {
    Next(c, run[i], run[i + 1])
  }

  ghost predicate Run(c: Config, run: seq<State>) {
    && ValidConfig(c) && |run| > 0 && Init(c, run[0])
    && forall i {:trigger StepAt(c, run, i)} :: 0 <= i < |run| - 1 ==> StepAt(c, run, i)
  }

  /** Every parent was added to, settled and posted, and every callback returned. */
  ghost predicate Ended(c: Config, s: State) {
    s.crash == NoCrash && s.added == |c.outcomes| && forall i :: 0 <= i < |s.pcs| ==> s.pcs[i].Over?
  }
}
