/** The contract of Python's `sorted`: an ordered, stable rearrangement. */
module Sorting {

  ghost predicate TotalPreorder<T(!new)>(le: (T, T) -> bool)
  {
    && (forall x, y :: le(x, y) || le(y, x))
    && (forall x, y, z :: le(x, y) && le(y, z) ==> le(x, z))
  }

  ghost predicate SortedBy<T>(s: seq<T>, le: (T, T) -> bool)
  {
    forall i, j :: 0 <= i < j < |s| ==> le(s[i], s[j])
  }

  /** Puts `x` in front of the first element it may precede. */
  function Insert<T>(x: T, s: seq<T>, le: (T, T) -> bool): (r: seq<T>)
    ensures |r| == |s| + 1
  {
    if s == [] || le(x, s[0]) then [x] + s else [s[0]] + Insert(x, s[1..], le)
  }

  function Sort<T>(s: seq<T>, le: (T, T) -> bool): (r: seq<T>)
    ensures |r| == |s|
  {
    if s == [] then [] else Insert(s[0], Sort(s[1..], le), le)
  }

  lemma {:induction false} InsertPermutes<T>(x: T, s: seq<T>, le: (T, T) -> bool)
    ensures multiset(Insert(x, s, le)) == multiset{x} + multiset(s)
  {
    if s != [] && !le(x, s[0]) {
      InsertPermutes(x, s[1..], le);
      assert s == [s[0]] + s[1..];
    }
  }

  /** The result holds the same elements, as often. */
  lemma {:induction false} SortPermutes<T>(s: seq<T>, le: (T, T) -> bool)
    ensures multiset(Sort(s, le)) == multiset(s)
  {
    if s != [] {
      SortPermutes(s[1..], le);
      InsertPermutes(s[0], Sort(s[1..], le), le);
      assert s == [s[0]] + s[1..];
    }
  }

  lemma SortedElement<T>(s: seq<T>, le: (T, T) -> bool, i: nat)
    requires i < |s|
    ensures Sort(s, le)[i] in s
  {
    SortPermutes(s, le);
    assert Sort(s, le)[i] in multiset(s);
  }

  lemma {:induction false} InsertedElement<T>(x: T, s: seq<T>, le: (T, T) -> bool, i: nat)
    requires i <= |s|
    ensures Insert(x, s, le)[i] == x || Insert(x, s, le)[i] in s
  {
    if s != [] && !le(x, s[0]) && i > 0 {
      InsertedElement(x, s[1..], le, i - 1);
    }
  }

  lemma {:induction false} InsertSorted<T(!new)>(x: T, s: seq<T>, le: (T, T) -> bool)
    requires TotalPreorder(le) && SortedBy(s, le)
    ensures SortedBy(Insert(x, s, le), le)
  {
    if s != [] && !le(x, s[0]) {
      InsertSorted(x, s[1..], le);
      var rest := Insert(x, s[1..], le);
      forall j | 0 <= j < |rest| ensures le(s[0], rest[j]) {
        InsertedElement(x, s[1..], le, j);
      }
    }
  }

  /** The result is in order, whatever the input order. */
  lemma {:induction false} SortSorted<T(!new)>(s: seq<T>, le: (T, T) -> bool)
    requires TotalPreorder(le)
    ensures SortedBy(Sort(s, le), le)
  {
    if s != [] {
      SortSorted(s[1..], le);
      InsertSorted(s[0], Sort(s[1..], le), le);
    }
  }

  /** The elements of `s` that tie with `x`, in order. */
  function TiesWith<T>(s: seq<T>, x: T, le: (T, T) -> bool): seq<T>
  {
    if s == [] then []
    else (if le(x, s[0]) && le(s[0], x) then [s[0]] else []) + TiesWith(s[1..], x, le)
  }

  lemma TiesCons<T>(y: T, s: seq<T>, x: T, le: (T, T) -> bool)
    ensures TiesWith([y] + s, x, le) == (if le(x, y) && le(y, x) then [y] else []) + TiesWith(s, x, le)
  {
    assert ([y] + s)[1..] == s;
  }

  lemma {:induction false} InsertTies<T>(y: T, s: seq<T>, x: T, le: (T, T) -> bool)
    requires le(x, y) && le(y, x) ==> forall i :: 0 <= i < |s| && le(x, s[i]) ==> le(y, s[i])
    ensures TiesWith(Insert(y, s, le), x, le) == TiesWith([y] + s, x, le)
  {
    if s != [] && !le(y, s[0]) {
      var rest := s[1..];
      InsertTies(y, rest, x, le);
      TiesCons(s[0], Insert(y, rest, le), x, le);
      TiesCons(y, rest, x, le);
      TiesCons(y, s, x, le);
    }
  }

  /** Elements that tie keep their order: the sort is stable. */
  lemma {:induction false} SortStable<T(!new)>(s: seq<T>, x: T, le: (T, T) -> bool)
    requires TotalPreorder(le)
    ensures TiesWith(Sort(s, le), x, le) == TiesWith(s, x, le)
  {
    if s != [] {
      SortStable(s[1..], x, le);
      InsertTies(s[0], Sort(s[1..], le), x, le);
      TiesCons(s[0], Sort(s[1..], le), x, le);
    }
  }

  function MapSeq<S, T>(f: S -> T, s: seq<S>): (t: seq<T>)
    ensures |t| == |s| && forall i :: 0 <= i < |s| ==> t[i] == f(s[i])
  {
    seq(|s|, i requires 0 <= i < |s| => f(s[i]))
  }

  lemma MapSeqCons<S, T>(f: S -> T, x: S, s: seq<S>)
    ensures MapSeq(f, [x] + s) == [f(x)] + MapSeq(f, s)
  {}

  lemma {:induction false} InsertMapped<S, T>(f: S -> T, x: S, s: seq<S>, leS: (S, S) -> bool, leT: (T, T) -> bool)
    requires forall i :: 0 <= i < |s| ==> (leS(x, s[i]) <==> leT(f(x), f(s[i])))
    ensures MapSeq(f, Insert(x, s, leS)) == Insert(f(x), MapSeq(f, s), leT)
  {
    if s == [] || leS(x, s[0]) {
      MapSeqCons(f, x, s);
    } else {
      var rest := s[1..];
      InsertMapped(f, x, rest, leS, leT);
      assert s == [s[0]] + rest;
      MapSeqCons(f, s[0], rest);
      MapSeqCons(f, s[0], Insert(x, rest, leS));
      assert MapSeq(f, s)[1..] == MapSeq(f, rest);
    }
  }

  /** Sorting commutes with a map that keeps every comparison. */
  lemma {:induction false} SortMapped<S, T>(f: S -> T, s: seq<S>, leS: (S, S) -> bool, leT: (T, T) -> bool)
    requires forall i, j :: 0 <= i < |s| && 0 <= j < |s| ==> (leS(s[i], s[j]) <==> leT(f(s[i]), f(s[j])))
    ensures MapSeq(f, Sort(s, leS)) == Sort(MapSeq(f, s), leT)
  {
    if s != [] {
      var rest := s[1..];
      SortMapped(f, rest, leS, leT);
      var t := Sort(rest, leS);
      forall i | 0 <= i < |t| ensures leS(s[0], t[i]) <==> leT(f(s[0]), f(t[i])) {
        SortedElement(rest, leS, i);
        var j :| 0 <= j < |rest| && rest[j] == t[i];
        assert rest[j] == s[j + 1];
      }
      InsertMapped(f, s[0], t, leS, leT);
      assert MapSeq(f, s)[1..] == MapSeq(f, rest);
    }
  }

  lemma {:induction false} InsertAgreeing<T>(x: T, s: seq<T>, le1: (T, T) -> bool, le2: (T, T) -> bool)
    requires forall i :: 0 <= i < |s| ==> (le1(x, s[i]) <==> le2(x, s[i]))
    ensures Insert(x, s, le1) == Insert(x, s, le2)
  {
    if s != [] {
      InsertAgreeing(x, s[1..], le1, le2);
    }
  }

  /** Two comparisons that agree on the listed elements sort the list alike. */
  lemma {:induction false} SortAgreeing<T>(s: seq<T>, le1: (T, T) -> bool, le2: (T, T) -> bool)
    requires forall i, j :: 0 <= i < |s| && 0 <= j < |s| ==> (le1(s[i], s[j]) <==> le2(s[i], s[j]))
    ensures Sort(s, le1) == Sort(s, le2)
  {
    if s != [] {
      SortAgreeing(s[1..], le1, le2);
      var t := Sort(s[1..], le1);
      forall i | 0 <= i < |t| ensures le1(s[0], t[i]) <==> le2(s[0], t[i]) {
        SortedElement(s[1..], le1, i);
      }
      InsertAgreeing(s[0], t, le1, le2);
    }
  }
}
