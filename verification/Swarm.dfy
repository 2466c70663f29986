/** The shared lifetime of a swarm: many objects under one strong and one weak counter, members pushed onto a
    lock-free list, all destroyed when the strong counter reaches zero, the container freed when the weak one does.

    Handles that nobody is using are counted in idleStrong and idleWeak; a call in progress holds its handle. */
module Swarm {
  import opened Counting

  datatype Ptr = Null | Ref(id: nat)

  datatype Status = Building | Linked | Destroyed

  /** A member, with its holder's next pointer. destructions and maker, the call that makes it, are history. */
  datatype Member = Member(status: Status, next: Ptr, destructions: nat, maker: nat)

  datatype Act =
    | Ended
    | PromoteLoad                   // GetStrongPtr on a weak handle
    | PromoteSwap(seen: nat)
    | Promoted(gave: bool)          // GetStrongPtr is over; gave: it returned a strong handle
    | MakeStart                     // MakeMember on a strong handle, before AddWeakRef
    | MakeLink(member: nat)         // about to read the head and write the next pointer
    | MakeSwap(member: nat, expected: Ptr)
    | DestroyStart                  // the strong counter reached zero
    | DestroyAt(cursor: Ptr)        // the walk of Swarm::DestroyObject
    | ReleaseMember(member: nat)    // the member is destroyed; about to ReleaseWeakRef
    | ReleaseFirst                  // the first object is destroyed; about to ReleaseWeakRef
    | FreeContainer                 // the weak counter reached zero

  predicate Over(act: Act) {
    act.Ended? || act.Promoted?
  }

  /** chain, gone and freed are history: the linked members, newest first, how many of them were destroyed, and how
      often the container was freed. */
  datatype State = State(
    refCount: nat, weakRefCount: nat, firstAlive: bool, head: Ptr, members: seq<Member>,
    idleStrong: nat, idleWeak: nat, acts: seq<Act>, chain: seq<nat>, gone: nat, freed: nat)

  ghost predicate Init(s: State) {
    s == State(1, 1, true, Null, [], 1, 0, [], [], 0, 0)
  }

  function Set(s: State, a: nat, act: Act): State
    requires a < |s.acts|
  {
    s.(acts := s.acts[a := act])
  }

  function Spawn(s: State, act: Act): State {
    s.(acts := s.acts + [act])
  }

  // ---------- handles ----------

  ghost predicate CopyStrong(s: State, t: State) {
    s.idleStrong > 0 && t == s.(refCount := s.refCount + 1, idleStrong := s.idleStrong + 1)
  }

  ghost predicate DropStrong(s: State, t: State) {
    && s.idleStrong > 0 && s.refCount > 0
    && var dropped := s.(refCount := s.refCount - 1, idleStrong := s.idleStrong - 1);
       t == if dropped.refCount == 0 then Spawn(dropped, DestroyStart) else dropped
  }

  /** A weak handle is made from a handle of either kind. */
  ghost predicate CopyWeak(s: State, t: State) {
    (s.idleStrong > 0 || s.idleWeak > 0) && t == s.(weakRefCount := s.weakRefCount + 1, idleWeak := s.idleWeak + 1)
  }

  /** ReleaseWeakRef, by whoever gives up one weak reference. */
  function WeakReleased(s: State): State
    requires s.weakRefCount > 0
  {
    var released := s.(weakRefCount := s.weakRefCount - 1);
    if released.weakRefCount == 0 then Spawn(released, FreeContainer) else released
  }

  ghost predicate DropWeak(s: State, t: State) {
    s.idleWeak > 0 && s.weakRefCount > 0 && t == WeakReleased(s.(idleWeak := s.idleWeak - 1))
  }

  ghost predicate BeginPromote(s: State, t: State) {
    s.idleWeak > 0 && t == Spawn(s.(idleWeak := s.idleWeak - 1), PromoteLoad)
  }

  ghost predicate BeginMake(s: State, t: State) {
    s.idleStrong > 0 && t == Spawn(s.(idleStrong := s.idleStrong - 1), MakeStart)
  }

  ghost predicate HandleStep(s: State, t: State) {
    CopyStrong(s, t) || DropStrong(s, t) || CopyWeak(s, t) || DropWeak(s, t) || BeginPromote(s, t) || BeginMake(s, t)
  }

  // ---------- calls in progress ----------

  /** IncrementRefCountIfNotZero. */
  ghost predicate PromoteStep(s: State, t: State, a: nat) {
    && a < |s.acts|
    && match s.acts[a] {
         case PromoteLoad => t == Tried(s, a)
         case PromoteSwap(seen) =>
           || (s.refCount == seen &&
               t == Set(s, a, Promoted(true)).(
                      refCount := seen + 1, idleStrong := s.idleStrong + 1, idleWeak := s.idleWeak + 1))
           || t == Tried(s, a)  // the swap failed and loaded the counter again
         case _ => false
       }
  }

  function Tried(s: State, a: nat): State
    requires a < |s.acts|
  {
    if s.refCount == 0 then Set(s, a, Promoted(false)).(idleWeak := s.idleWeak + 1)
    else Set(s, a, PromoteSwap(s.refCount))
  }

  /** MakeMember: the weak reference of the new object, then the push. */
  ghost predicate MakeStep(s: State, t: State, a: nat) {
    && a < |s.acts|
    && match s.acts[a] {
         case MakeStart =>
           t == Set(s, a, MakeLink(|s.members|)).(
                  members := s.members + [Member(Building, Null, 0, a)], weakRefCount := s.weakRefCount + 1)
         case MakeLink(m) =>
           && m < |s.members|
           && t == Set(s, a, MakeSwap(m, s.head)).(members := s.members[m := s.members[m].(next := s.head)])
         case MakeSwap(m, seen) =>
           && m < |s.members|
           && (|| (s.head == seen &&
                   t == Set(s, a, Ended).(
                          head := Ref(m), members := s.members[m := s.members[m].(status := Linked)],
                          chain := [m] + s.chain, idleStrong := s.idleStrong + 1))
               || t == Set(s, a, MakeLink(m)))
         case _ => false
       }
  }

  /** DestroyObject of the swarm: every member of the list, then the first object. */
  ghost predicate DestroyStep(s: State, t: State, a: nat) {
    && a < |s.acts|
    && match s.acts[a] {
         case DestroyStart => t == Set(s, a, DestroyAt(s.head))
         case DestroyAt(Ref(m)) =>
           && m < |s.members|
           && t == Set(s, a, ReleaseMember(m)).(
                     gone := s.gone + 1,
                     members := s.members[m := s.members[m].(
                                  status := Destroyed, destructions := s.members[m].destructions + 1)])
         case ReleaseMember(m) =>
           && m < |s.members| && s.weakRefCount > 0
           && t == WeakReleased(Set(s, a, DestroyAt(s.members[m].next)))
         case DestroyAt(Null) => t == Set(s, a, ReleaseFirst).(firstAlive := false)
         case ReleaseFirst => s.weakRefCount > 0 && t == WeakReleased(Set(s, a, Ended))
         case FreeContainer => t == Set(s, a, Ended).(freed := s.freed + 1)
         case _ => false
       }
  }

  ghost predicate CallStep(s: State, t: State, a: nat) {
    PromoteStep(s, t, a) || MakeStep(s, t, a) || DestroyStep(s, t, a)
  }

  ghost predicate Next(s: State, t: State) {
    HandleStep(s, t) || exists a :: CallStep(s, t, a)
  }

  ghost predicate StepAt(run: seq<State>, i: nat)
    requires i + 1 < |run|
  {
    Next(run[i], run[i + 1])
  }

  ghost predicate Run(run: seq<State>) {
    && |run| > 0 && Init(run[0])
    && forall i {:trigger StepAt(run, i)} :: 0 <= i < |run| - 1 ==> StepAt(run, i)
  }
}
