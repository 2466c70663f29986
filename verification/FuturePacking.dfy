/** The packed words: state and continuation of a future in one, raw or counted pointer in another. */
module FuturePacking {
  import opened FutureCore

  const STATE_MASK: bv64 := 7
  const CONTINUATION_MASK: bv64 := 0xFFFF_FFFF_FFFF_FFF8
  const CONTINUATION_INVOKED: bv64 := 0xFFFF_FFFF_FFFF_FFFF & CONTINUATION_MASK

  function Code(state: FutureState): bv64 {
    match state
    case Pending => 0
    case Posting => 1
    case Posted => 2
    case Invoking => 3
    case Awaiting => 4
    case SettingResult => 5
    case Succeeded => 6
    case Failed => 7
  }

  predicate IsAligned(address: bv64) {
    address & 7 == 0
  }

  function Make(state: FutureState, continuation: bv64): bv64 {
    continuation | Code(state)
  }

  function GetState(value: bv64): FutureState {
    var code := value & STATE_MASK;
    if code == 0 then Pending else if code == 1 then Posting
    else if code == 2 then Posted else if code == 3 then Invoking
    else if code == 4 then Awaiting else if code == 5 then SettingResult else if code == 6 then Succeeded else Failed
  }

  function GetContinuation(value: bv64): bv64 {
    value & CONTINUATION_MASK
  }

  /** Unpacking gives the address back if and only if it is aligned, and then the state as well. */
  lemma UnpackMade(state: FutureState, continuation: bv64)
    ensures GetContinuation(Make(state, continuation)) == continuation <==> IsAligned(continuation)
    ensures IsAligned(continuation) ==> GetState(Make(state, continuation)) == state
  {
    assert Code(state) & CONTINUATION_MASK == 0 && Code(state) & STATE_MASK == Code(state);
  }

  /** Every word is the packing of what it unpacks to. */
  lemma MakeUnpacked(value: bv64)
    ensures Make(GetState(value), GetContinuation(value)) == value
    ensures IsAligned(GetContinuation(value))
  {
    assert Code(GetState(value)) == value & STATE_MASK;
  }

  /** So a compare-and-swap of packed words is one of states and continuations: two words are equal only if both parts
      are. This is what lets the protocol treat the word as a pair. */
  lemma PackingIsInjective(state: FutureState, continuation: bv64, other: FutureState, otherContinuation: bv64)
    requires IsAligned(continuation) && IsAligned(otherContinuation)
    ensures Make(state, continuation) == Make(other, otherContinuation) <==>
              state == other && continuation == otherContinuation
  {
    UnpackMade(state, continuation);
    UnpackMade(other, otherContinuation);
  }

  /** The sentinel can be packed with every state, and is not null. */
  lemma SentinelPacks(state: FutureState)
    ensures GetState(Make(state, CONTINUATION_INVOKED)) == state
    ensures GetContinuation(Make(state, CONTINUATION_INVOKED)) == CONTINUATION_INVOKED != 0
  {
    UnpackMade(state, CONTINUATION_INVOKED);
  }

  // ---------- RawOrCntPtr ----------

  const RAW_BIT: bv64 := 0x8000_0000_0000_0000

  function RawPtr(address: bv64): bv64 {
    (address >> 1) | RAW_BIT
  }

  function CountedPtr(address: bv64): bv64 {
    address >> 1
  }

  function Get(ptr: bv64): bv64 {
    ptr << 1
  }

  predicate IsRawPtr(ptr: bv64) {
    ptr >> 63 != 0
  }

  lemma RawPtrIsTagged(address: bv64)
    ensures IsRawPtr(RawPtr(address)) && !IsRawPtr(CountedPtr(address))
  {
  }

  /** Both forms give the address back if and only if its lowest bit is free, and no raw pointer equals a counted
      one. */
  lemma RawOrCounted(address: bv64, other: bv64)
    ensures Get(RawPtr(address)) == address <==> address & 1 == 0
    ensures Get(CountedPtr(address)) == address <==> address & 1 == 0
    ensures RawPtr(address) != CountedPtr(other)
  {
    RawPtrIsTagged(address);
    RawPtrIsTagged(other);
  }
}
