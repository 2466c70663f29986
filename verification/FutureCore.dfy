/** The word of a future, its traits, and the decision every state-changing operation takes.

    Each operation of FutureImpl on the packed word is a loop of three steps: load the word, decide from the
    state whether to go on, and compare-and-swap. Decide collects the switch statements of all those loops. */
module FutureCore {

  datatype FutureState = Pending | Posting | Posted | Invoking | Awaiting | SettingResult | Succeeded | Failed

  predicate IsDone(state: FutureState) {
    state == Succeeded || state == Failed
  }

  /** A continuation or link pointer. ContinuationInvoked is the sentinel address. */
  datatype Ptr = Null | ContinuationInvoked | Ref(id: nat)

  /** The atomic word: state and continuation packed together. */
  datatype Word = Word(state: FutureState, cont: Ptr)

  datatype Traits = Traits(
    isShared: bool, useParentValue: bool, isMultiPost: bool, callTaskInvokeOnError: bool,
    valueSize: nat, hasTaskPost: bool, hasTaskInvoke: bool, hasTaskCatch: bool)

  /** The checks MakeFuture makes before it builds a future. */
  predicate ValidTraits(t: Traits) {
    && (t.useParentValue ==> t.valueSize == 0)
    && (t.hasTaskPost ==> t.hasTaskInvoke || t.hasTaskCatch)
    && (t.isMultiPost ==> !t.hasTaskPost && t.hasTaskInvoke && t.hasTaskCatch && !t.useParentValue)
  }

  /** The operations that change the state of a future. */
  datatype Request =
    | StartSetValue   // TryStartSetValue
    | SetSuccess      // TrySetSuccess
    | StartSetError   // TryStartSetError
    | FinishError     // SetFailed
    | SetInvoking     // TrySetInvoking
    | StartAwaiting   // StartAwaiting
    | SetPosted       // TrySetPosted
    | StartPosting    // the loop at the head of TryPostInternal

  /** Refuse: return false. Retry: sleep and load again. MoveTo: try to swap in this state. */
  datatype Decision = Refuse | Retry | MoveTo(next: FutureState)

  /** What an operation does after it loaded `state`. `sync` says that the future is the thread's current one,
      `linkIsNull` that m_link was null when the operation looked at it. */
  function Decide(r: Request, t: Traits, state: FutureState, linkIsNull: bool, sync: bool): Decision {
    match r
    case StartSetValue =>
      if t.valueSize == 0 then Refuse
      else (match state
            case Pending => if t.isMultiPost || !t.hasTaskInvoke then MoveTo(SettingResult) else Refuse
            case Invoking => if sync then MoveTo(SettingResult) else Refuse
            case Awaiting => MoveTo(SettingResult)
            case _ => Refuse)
    case SetSuccess => (
      match state
      case Pending =>
        if (t.isMultiPost || (!t.hasTaskInvoke && !t.useParentValue)) && t.valueSize == 0
        then MoveTo(Succeeded) else Refuse
      case Posting => if !t.hasTaskInvoke && sync && t.useParentValue then MoveTo(Succeeded) else Refuse
      case Invoking => if sync && t.valueSize == 0 then MoveTo(Succeeded) else Refuse
      case Awaiting => if t.valueSize == 0 then MoveTo(Succeeded) else Refuse
      case SettingResult => MoveTo(Succeeded)
      case _ => Refuse)
    case StartSetError => (
      match state
      case Pending => if linkIsNull then MoveTo(SettingResult) else Refuse
      case Posting => if sync then MoveTo(SettingResult) else Retry
      case Posted => MoveTo(SettingResult)
      case Invoking => if sync then MoveTo(SettingResult) else Refuse
      case Awaiting => MoveTo(SettingResult)
      case _ => Refuse)
    case FinishError => if state == SettingResult then MoveTo(Failed) else Refuse
    case SetInvoking => (
      match state
      case Posting => if sync then MoveTo(Invoking) else Retry
      case Posted => MoveTo(Invoking)
      case _ => Refuse)
    case StartAwaiting => if state == Invoking then MoveTo(Awaiting) else Refuse
    case SetPosted => if state == Posting then MoveTo(Posted) else Refuse
    case StartPosting => if state == Pending then MoveTo(Posting) else Refuse
  }

  /** The word after a successful swap: a settled word keeps no list, only the mark that there was one. */
  function Swapped(w: Word, next: FutureState): Word {
    if IsDone(next) then Word(next, if w.cont == Null then Null else ContinuationInvoked)
    else Word(next, w.cont)
  }

  /** The transition graph of the code: where a future with these traits can go from a state. */
  predicate Edge(t: Traits, before: FutureState, after: FutureState) {
    match before
    case Pending =>
      || (after == Succeeded && t.valueSize == 0 && (t.isMultiPost || (!t.hasTaskInvoke && !t.useParentValue)))
      || after == SettingResult
      || (after == Posting && !t.isMultiPost)
    case Posting =>
      || (after == Succeeded && !t.hasTaskInvoke && t.useParentValue)
      || after == Invoking || after == Posted || after == SettingResult
    case Posted => after == Invoking || after == SettingResult
    case Invoking => (after == Succeeded && t.valueSize == 0) || after == Awaiting || after == SettingResult
    case Awaiting => (after == Succeeded && t.valueSize == 0) || after == SettingResult
    case SettingResult => after == Succeeded || after == Failed
    case Succeeded => false
    case Failed => false
  }

  /** The graph of MultiPost futures: no intermediate states. */
  predicate EdgeMultiPost(before: FutureState, after: FutureState) {
    || (before == Pending && (after == Succeeded || after == SettingResult))
    || (before == SettingResult && (after == Succeeded || after == Failed))
  }

  /** The two graphs drawn in the comment above FutureState, each edge with the condition written beside it, as far
      as that is one on the traits. Setting an error needs none. */
  predicate Commented(t: Traits, before: FutureState, after: FutureState) {
    if t.isMultiPost then EdgeMultiPost(before, after)
    else (
      match before
      case Pending =>
        || (after == Succeeded && !t.hasTaskInvoke && t.valueSize == 0)
        || after == SettingResult
        || (after == Posting && (t.hasTaskInvoke || t.useParentValue))
      case Posting =>
        || (after == Succeeded && !t.hasTaskInvoke && t.useParentValue)
        || after == Invoking || after == Posted || after == SettingResult
      case Posted => after == Invoking || after == SettingResult
      case Invoking => (after == Succeeded && t.valueSize == 0) || after == Awaiting || after == SettingResult
      case Awaiting => (after == Succeeded && t.valueSize == 0) || after == SettingResult
      case SettingResult => (after == Succeeded && t.valueSize > 0) || after == Failed
      case Succeeded => false
      case Failed => false)
  }

  /** Taken by the code against the comment: a future with nothing to invoke is posted all the same, and a void one
      succeeds out of SettingResult, where no value was set. */
  predicate OnlyTaken(t: Traits, before: FutureState, after: FutureState) {
    && !t.isMultiPost
    && (|| (before == Pending && after == Posting && !t.hasTaskInvoke && !t.useParentValue)
        || (before == SettingResult && after == Succeeded && t.valueSize == 0))
  }

  /** Drawn but refused by the code: success of a Pending future that uses its parent's value, or of a MultiPost one
      that has a value to set. */
  predicate OnlyCommented(t: Traits, before: FutureState, after: FutureState) {
    && before == Pending && after == Succeeded
    && (if t.isMultiPost then t.valueSize > 0 else !t.hasTaskInvoke && t.useParentValue && t.valueSize == 0)
  }

  /** How far a future has come; every edge of the graph climbs. */
  function Rank(state: FutureState): nat {
    match state
    case Pending => 0
    case Posting => 1
    case Posted => 2
    case Invoking => 3
    case Awaiting => 4
    case SettingResult => 5
    case Succeeded => 6
    case Failed => 6
  }

  lemma EdgeClimbs(t: Traits, before: FutureState, after: FutureState)
    requires Edge(t, before, after)
    ensures Rank(before) < Rank(after)
  {
  }

  /** Some operation, in some situation, takes a future with these traits from one state to the other. */
  ghost predicate SomeCallTakes(t: Traits, before: FutureState, after: FutureState) {
    exists r, linkIsNull, sync ::
      Decide(r, t, before, linkIsNull, sync) == MoveTo(after) && (r == StartPosting ==> !t.isMultiPost)
  }

  /** The graph of the code is exact: an edge is there, with its condition, if and only if some operation takes it. */
  lemma GraphIsExact(t: Traits, before: FutureState, after: FutureState)
    ensures SomeCallTakes(t, before, after) <==> Edge(t, before, after)
  {
    if Edge(t, before, after) {
      var r := match after
        case Posting => StartPosting
        case Posted => SetPosted
        case Invoking => SetInvoking
        case Awaiting => Request.StartAwaiting
        case SettingResult => StartSetError
        case Succeeded => SetSuccess
        case _ => FinishError;
      assert Decide(r, t, before, true, true) == MoveTo(after);
    }
  }

  /** Where code and comment part: for every future MakeFuture can build, in every state it can be in, the code takes
      exactly the commented edges, less two kinds, plus two kinds. */
  lemma CommentIsNearlyExact(t: Traits, before: FutureState, after: FutureState)
    requires ValidTraits(t) && (t.isMultiPost ==> before in {Pending, SettingResult, Succeeded, Failed})
    ensures SomeCallTakes(t, before, after) <==>
              (Commented(t, before, after) && !OnlyCommented(t, before, after)) || OnlyTaken(t, before, after)
    ensures OnlyTaken(t, before, after) ==> !Commented(t, before, after)
    ensures OnlyCommented(t, before, after) ==> Commented(t, before, after)
  {
    GraphIsExact(t, before, after);
  }
}
