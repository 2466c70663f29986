/** The task buffer of WhenAll: pointers to the parents, raw until the parent's own callback makes them counted. */
module WhenAllTask {

  /** A parent future, as far as the task sees it: a reference counter. */
  class Parent {
    var refCount: nat

    constructor ()
      ensures refCount == 1
    {
      refCount := 1;
    }
  }

  /** RawOrCntPtr. */
  class Entry {
    const target: Parent
    var isRaw: bool

    constructor (target: Parent)
      ensures this.target == target && isRaw
    {
      this.target := target;
      isRaw := true;
    }

    method ConvertToCntPtr()
      modifies this, target
      ensures !isRaw && target.refCount == old(target.refCount) + if old(isRaw) then 1 else 0
    {
      if isRaw {
        target.refCount := target.refCount + 1;
        isRaw := false;
      }
    }

    /** The destructor. */
    method Destroy()
      requires !isRaw ==> target.refCount > 0
      modifies target
      ensures target.refCount == old(target.refCount) - if isRaw then 0 else 1
    {
      if !isRaw {
        target.refCount := target.refCount - 1;
      }
    }
  }

  function Targets(entries: seq<Entry>): (targets: seq<Parent>)
    ensures |targets| == |entries| && forall i :: 0 <= i < |entries| ==> targets[i] == entries[i].target
  {
    seq(|entries|, i requires 0 <= i < |entries| => entries[i].target)
  }

  predicate Distinct<T(==)>(s: seq<T>) {
    forall i, j :: 0 <= i < j < |s| ==> s[i] != s[j]
  }

  class WhenAllFutureTask {
    var completeCount: nat
    var parentFutures: seq<Entry>

    /** References that the first n entries hold on parent p. */
    ghost function HeldBy(n: nat, p: Parent): nat
      reads this, parentFutures
    {
      if exists i :: 0 <= i < n && i < |parentFutures| && parentFutures[i].target == p && !parentFutures[i].isRaw then 1
      else 0
    }

    /** References the task holds on parent p. */
    ghost function Held(p: Parent): nat
      reads this, parentFutures
    {
      HeldBy(|parentFutures|, p)
    }

    /** A parent can be given more than once; then only its first entry is ever counted. */
    ghost predicate Valid()
      reads this, parentFutures
    {
      && Distinct(parentFutures)
      && forall i, j :: 0 <= i < j < |parentFutures| && parentFutures[i].target == parentFutures[j].target ==>
           parentFutures[j].isRaw
    }

    constructor (parents: seq<Parent>)
      ensures Valid() && completeCount == 0 && Targets(parentFutures) == parents
      ensures forall p :: Held(p) == 0
      ensures fresh(parentFutures)
    {
      completeCount := 0;
      parentFutures := [];
      new;
      for i := 0 to |parents|
        invariant |parentFutures| == i && Distinct(parentFutures) && fresh(parentFutures) && completeCount == 0
        invariant forall j :: 0 <= j < i ==> parentFutures[j].target == parents[j] && parentFutures[j].isRaw
      {
        var entry := new Entry(parents[i]);
        parentFutures := parentFutures + [entry];
      }
      assert Targets(parentFutures) == parents;
    }

    /** The sequential part of WhenAllTaskInvoke. last: the caller has to settle the combined future. */
    method Invoke(parent: Parent) returns (found: bool, last: bool)
      requires Valid()
      modifies this, parentFutures, parent
      ensures Valid() && parentFutures == old(parentFutures)
      ensures found <==> parent in Targets(parentFutures)
      ensures !found ==> !last && completeCount == old(completeCount) && parent.refCount == old(parent.refCount)
      ensures found ==>
                && completeCount == old(completeCount) + 1 && (last <==> completeCount == |parentFutures|)
                && Held(parent) == 1
      ensures parent.refCount - Held(parent) == old(parent.refCount - Held(parent))
      ensures forall p :: p != parent && old(allocated(p)) ==> Held(p) == old(Held(p))
    {
      found, last := false, false;
      var i := 0;
      while i < |parentFutures| && parentFutures[i].target != parent
        invariant i <= |parentFutures| && forall j :: 0 <= j < i ==> parentFutures[j].target != parent
      {
        i := i + 1;
      }
      if i < |parentFutures| {
        parentFutures[i].ConvertToCntPtr();
        found := true;
        completeCount := completeCount + 1;
        last := completeCount == |parentFutures|;
        assert forall j :: 0 <= j < |parentFutures| && j != i ==> parentFutures[j].isRaw == old(parentFutures[j].isRaw);
        assert Targets(parentFutures)[i] == parent;
        assert forall j :: 0 <= j < |parentFutures| && parentFutures[j].target == parent && !parentFutures[j].isRaw ==>
            j == i;
        forall p | p != parent && old(allocated(p)) ensures Held(p) == old(Held(p)) {}
      }
    }

    /** Destroy gives back exactly the references the callbacks took. */
    method Destroy()
      requires Valid() && forall p <- Targets(parentFutures) :: p.refCount >= Held(p)
      modifies Targets(parentFutures)
      ensures forall p <- Targets(parentFutures) :: p.refCount == old(p.refCount) - Held(p)
    {
      for i := 0 to |parentFutures|
        invariant forall p <- Targets(parentFutures) :: p.refCount == old(p.refCount) - HeldBy(i, p)
      {
        var p := parentFutures[i].target;
        assert Targets(parentFutures)[i] == p;
        assert !parentFutures[i].isRaw ==> HeldBy(i, p) == 0 && Held(p) == 1;
        parentFutures[i].Destroy();
        forall q <- Targets(parentFutures)
          ensures HeldBy(i + 1, q) == HeldBy(i, q) + if q == p && !parentFutures[i].isRaw then 1 else 0
        {
          assert HeldBy(i + 1, q) == 1 ==> HeldBy(i, q) == 1 || (q == p && !parentFutures[i].isRaw);
        }
      }
    }
  }
}
