/** Finite sums over sequences, and the few laws the metric and model proofs need. */
module Sums {

  /** The sum of `f` over the elements of `s`, each occurrence counted. */
  function SumBy<T>(s: seq<T>, f: T -> real): real
  {
    if s == [] then 0.0 else f(s[0]) + SumBy(s[1..], f)
  }

  lemma {:induction false} SumByConcat<T>(a: seq<T>, b: seq<T>, f: T -> real)
    ensures SumBy(a + b, f) == SumBy(a, f) + SumBy(b, f)
  {
    if a == [] {
      assert a + b == b;
    } else {
      assert (a + b)[1..] == a[1..] + b;
      SumByConcat(a[1..], b, f);
    }
  }

  /** Two lists that agree position by position have the same sum. */
  lemma {:induction false} SumByPointwise<S, T>(s: seq<S>, t: seq<T>, f: S -> real, g: T -> real)
    requires |s| == |t|
    requires forall i :: 0 <= i < |s| ==> f(s[i]) == g(t[i])
    ensures SumBy(s, f) == SumBy(t, g)
  {
    if s != [] {
      SumByPointwise(s[1..], t[1..], f, g);
    }
  }

  lemma {:induction false} SumByLe<T>(s: seq<T>, f: T -> real, g: T -> real)
    requires forall i :: 0 <= i < |s| ==> f(s[i]) <= g(s[i])
    ensures SumBy(s, f) <= SumBy(s, g)
  {
    if s != [] {
      SumByLe(s[1..], f, g);
    }
  }

  /** A sum of termwise sums is the sum of the sums. */
  lemma {:induction false} SumByAdd<T>(s: seq<T>, f: T -> real, g: T -> real, h: T -> real)
    requires forall i :: 0 <= i < |s| ==> h(s[i]) == f(s[i]) + g(s[i])
    ensures SumBy(s, h) == SumBy(s, f) + SumBy(s, g)
  {
    if s != [] {
      SumByAdd(s[1..], f, g, h);
    }
  }

  lemma {:induction false} SumByScale<T>(s: seq<T>, c: real, f: T -> real, h: T -> real)
    requires forall i :: 0 <= i < |s| ==> h(s[i]) == c * f(s[i])
    ensures SumBy(s, h) == c * SumBy(s, f)
  {
    if s != [] {
      SumByScale(s[1..], c, f, h);
    }
  }

  lemma {:induction false} SumByZero<T>(s: seq<T>, f: T -> real)
    requires forall i :: 0 <= i < |s| ==> f(s[i]) == 0.0
    ensures SumBy(s, f) == 0.0
  {
    if s != [] {
      SumByZero(s[1..], f);
    }
  }

  /** Taking out one element takes out its term. */
  lemma SumByRemove<T>(t: seq<T>, i: nat, f: T -> real)
    requires i < |t|
    ensures SumBy(t, f) == f(t[i]) + SumBy(t[..i] + t[i + 1..], f)
  {
    var front, back := t[..i], t[i + 1..];
    assert t == front + ([t[i]] + back);
    SumByConcat(front, [t[i]] + back, f);
    SumByConcat([t[i]], back, f);
    SumByConcat(front, back, f);
  }

  lemma MultisetRemove<T>(t: seq<T>, i: nat)
    requires i < |t|
    ensures multiset(t[..i] + t[i + 1..]) == multiset(t) - multiset{t[i]}
  {
    assert t == t[..i] + [t[i]] + t[i + 1..];
  }

  lemma SameLength<T>(s: seq<T>, t: seq<T>)
    requires multiset(s) == multiset(t)
    ensures |s| == |t|
  {
    assert |s| == |multiset(s)| == |multiset(t)| == |t|;
  }

  /** A rearrangement holds the head somewhere, and the rests are rearrangements again. */
  lemma IndexOf<T>(s: seq<T>, t: seq<T>) returns (i: nat)
    requires multiset(s) == multiset(t) && s != []
    ensures i < |t| && t[i] == s[0]
    ensures multiset(s[1..]) == multiset(t[..i] + t[i + 1..])
  {
    assert s[0] in multiset(t);
    i :| 0 <= i < |t| && t[i] == s[0];
    MultisetRemove(s, 0);
    MultisetRemove(t, i);
    assert s[..0] + s[1..] == s[1..];
  }

  /** A sum does not depend on the order of its terms. */
  lemma {:induction false} SumByPermutation<T>(s: seq<T>, t: seq<T>, f: T -> real)
    requires multiset(s) == multiset(t)
    ensures SumBy(s, f) == SumBy(t, f)
  {
    SameLength(s, t);
    if s != [] {
      var i := IndexOf(s, t);
      SumByPermutation(s[1..], t[..i] + t[i + 1..], f);
      SumByRemove(t, i, f);
    }
  }

  /** The first `n` terms `f(0) + ... + f(n - 1)`. */
  function SumTo(n: nat, f: nat -> real): real
  {
    if n == 0 then 0.0 else SumTo(n - 1, f) + f(n - 1)
  }

  lemma {:induction false} SumToPointwise(n: nat, f: nat -> real, g: nat -> real)
    requires forall i: nat :: i < n ==> f(i) == g(i)
    ensures SumTo(n, f) == SumTo(n, g)
  {
    if n > 0 {
      SumToPointwise(n - 1, f, g);
    }
  }

  lemma {:induction false} SumToAdd(n: nat, f: nat -> real, g: nat -> real, h: nat -> real)
    requires forall i: nat :: i < n ==> h(i) == f(i) + g(i)
    ensures SumTo(n, h) == SumTo(n, f) + SumTo(n, g)
  {
    if n > 0 {
      SumToAdd(n - 1, f, g, h);
    }
  }

  lemma {:induction false} SumToScale(n: nat, c: real, f: nat -> real, h: nat -> real)
    requires forall i: nat :: i < n ==> h(i) == c * f(i)
    ensures SumTo(n, h) == c * SumTo(n, f)
  {
    if n > 0 {
      SumToScale(n - 1, c, f, h);
    }
  }

  /** A sum with at most one non-zero term is that term. */
  lemma {:induction false} SumToSingle(n: nat, k: nat, f: nat -> real)
    requires k < n
    requires forall i: nat :: i < n && i != k ==> f(i) == 0.0
    ensures SumTo(n, f) == f(k)
  {
    if k == n - 1 {
      SumToZero(n - 1, f);
    } else {
      SumToSingle(n - 1, k, f);
    }
  }

  lemma {:induction false} SumToZero(n: nat, f: nat -> real)
    requires forall i: nat :: i < n ==> f(i) == 0.0
    ensures SumTo(n, f) == 0.0
  {
    if n > 0 {
      SumToZero(n - 1, f);
    }
  }
}
