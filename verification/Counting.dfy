/** How many elements of a sequence satisfy a predicate. */
module Counting {

  /** One or none. */
  function One(b: bool): nat {
    if b then 1 else 0
  }

  ghost function Count<T>(s: seq<T>, p: T -> bool): nat {
    if s == [] then 0 else One(p(s[0])) + Count(s[1..], p)
  }

  lemma {:induction false} CountUpdate<T>(s: seq<T>, i: nat, x: T, p: T -> bool)
    requires i < |s|
    ensures Count(s[i := x], p) == Count(s, p) - One(p(s[i])) + One(p(x))
  {
    if i == 0 {
      assert s[0 := x][1..] == s[1..];
    } else {
      assert s[i := x][1..] == s[1..][i - 1 := x];
      CountUpdate(s[1..], i - 1, x, p);
    }
  }

  lemma {:induction false} CountAppend<T>(s: seq<T>, x: T, p: T -> bool)
    ensures Count(s + [x], p) == Count(s, p) + One(p(x))
  {
    if s == [] {
      assert s + [x] == [x];
    } else {
      assert (s + [x])[1..] == s[1..] + [x];
      CountAppend(s[1..], x, p);
    }
  }

  lemma {:induction false} CountSome<T>(s: seq<T>, i: nat, p: T -> bool)
    requires i < |s| && p(s[i])
    ensures Count(s, p) > 0
  {
    if i > 0 { CountSome(s[1..], i - 1, p); }
  }

  lemma {:induction false} CountBound<T>(s: seq<T>, p: T -> bool)
    ensures Count(s, p) <= |s|
    ensures Count(s, p) < |s| ==> exists i :: 0 <= i < |s| && !p(s[i])
    ensures Count(s, p) > 0 ==> exists i :: 0 <= i < |s| && p(s[i])
  {
    if s != [] {
      CountBound(s[1..], p);
      if Count(s[1..], p) < |s[1..]| {
        var i :| 0 <= i < |s[1..]| && !p(s[1..][i]);
        assert s[i + 1] == s[1..][i];
      }
      if Count(s[1..], p) > 0 {
        var i :| 0 <= i < |s[1..]| && p(s[1..][i]);
        assert s[i + 1] == s[1..][i];
      }
    }
  }

  /** With a count of at most one, two different positions do not both satisfy the predicate. */
  lemma {:induction false} CountUnique<T>(s: seq<T>, i: nat, j: nat, p: T -> bool)
    requires i < j < |s| && p(s[i]) && p(s[j])
    ensures Count(s, p) >= 2
  {
    if i == 0 {
      CountSome(s[1..], j - 1, p);
    } else {
      CountUnique(s[1..], i - 1, j - 1, p);
    }
  }

  lemma CountAll<T>(s: seq<T>, p: T -> bool)
    requires Count(s, p) == |s|
    ensures forall i :: 0 <= i < |s| ==> p(s[i])
  {
    forall i | 0 <= i < |s| ensures p(s[i]) {
      if !p(s[i]) { CountSkip(s, i, p); }
    }
  }

  lemma {:induction false} CountSkip<T>(s: seq<T>, i: nat, p: T -> bool)
    requires i < |s| && !p(s[i])
    ensures Count(s, p) < |s|
  {
    CountBound(s[1..], p);
    if i > 0 { CountSkip(s[1..], i - 1, p); }
  }

  // ---------- sums ----------

  ghost function Sum<T>(s: seq<T>, f: T -> nat): nat {
    if s == [] then 0 else f(s[0]) + Sum(s[1..], f)
  }

  lemma {:induction false} SumUpdate<T>(s: seq<T>, i: nat, x: T, f: T -> nat)
    requires i < |s|
    ensures Sum(s[i := x], f) == Sum(s, f) - f(s[i]) + f(x)
  {
    if i == 0 {
      assert s[0 := x][1..] == s[1..];
    } else {
      assert s[i := x][1..] == s[1..][i - 1 := x];
      SumUpdate(s[1..], i - 1, x, f);
    }
  }

  lemma {:induction false} SumAppend<T>(s: seq<T>, x: T, f: T -> nat)
    ensures Sum(s + [x], f) == Sum(s, f) + f(x)
  {
    if s == [] {
      assert s + [x] == [x];
    } else {
      assert (s + [x])[1..] == s[1..] + [x];
      SumAppend(s[1..], x, f);
    }
  }

  lemma {:induction false} SumBound<T>(s: seq<T>, f: T -> nat, n: nat)
    requires forall x :: f(x) <= n
    ensures Sum(s, f) <= n * |s|
  {
    if s != [] { SumBound(s[1..], f, n); }
  }

  function Is<T(==)>(x: T): T -> bool {
    (y: T) => y == x
  }

  lemma {:induction false} CountConcat<T>(a: seq<T>, b: seq<T>, p: T -> bool)
    ensures Count(a + b, p) == Count(a, p) + Count(b, p)
  {
    if a == [] {
      assert a + b == b;
    } else {
      assert (a + b)[1..] == a[1..] + b;
      CountConcat(a[1..], b, p);
    }
  }
}
