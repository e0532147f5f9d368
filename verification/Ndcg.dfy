/**
  Normalised discounted cumulative gain at k.  The discount log2(i + 2) enters
  only through being positive and strictly increasing in the position i.
 */
module Ndcg {
  import opened Powers
  import opened Sorting

  function Gain(t: nat): real
  {
    (Pow2(t) - 1) as real
  }

  ghost predicate IsDiscount(disc: nat -> real)
  {
    && (forall i: nat :: disc(i) > 0.0)
    && (forall i: nat, j: nat :: i < j ==> disc(i) < disc(j))
  }

  /** The gains of `labels`, whose first element sits at position i, cut off at position k. */
  function Dcg(labels: seq<nat>, k: nat, disc: nat -> real, i: nat): real
    requires forall j: nat :: disc(j) > 0.0
  {
    if labels == [] || i >= k then 0.0
    else Gain(labels[0]) / disc(i) + Dcg(labels[1..], k, disc, i + 1)
  }

  predicate Descending(a: nat, b: nat)
  {
    a >= b
  }

  function Ideal(labels: seq<nat>): seq<nat>
  {
    Sort(labels, Descending)
  }

  /** `labels` are in the order the model predicts. */
  function NdcgAtK(labels: seq<nat>, k: nat, disc: nat -> real): real
    requires forall j: nat :: disc(j) > 0.0
  {
    var dcg := Dcg(labels, k, disc, 0);
    var idcg := Dcg(Ideal(labels), k, disc, 0);
    if idcg == 0.0 then 0.0 else dcg / idcg
  }

  // ---- no order beats the ideal one ------------------------------------

  /** Moving the larger of two labels to the front never loses. */
  lemma ExchangeGains(x: nat, y: nat, di: real, dj: real)
    requires x <= y && 0.0 < di < dj
    ensures Gain(x) / di + Gain(y) / dj <= Gain(y) / di + Gain(x) / dj
  {
    Pow2Monotone(x, y);
    var g := Gain(y) - Gain(x);
    assert g >= 0.0;
    ReciprocalOrder(g, di, dj);
    assert Gain(y) / di == Gain(x) / di + g / di;
    assert Gain(y) / dj == Gain(x) / dj + g / dj;
  }

  lemma ReciprocalOrder(g: real, di: real, dj: real)
    requires g >= 0.0 && 0.0 < di < dj
    ensures g / dj <= g / di
    ensures g > 0.0 ==> 0.0 < g / dj < g / di
  {
    var a, b := g / di, g / dj;
    assert a * di == g && b * dj == g;
    assert (a - b) * di == b * (dj - di);
  }

  lemma {:induction false} InsertRaisesDcg(x: nat, s: seq<nat>, k: nat, disc: nat -> real, i: nat)
    requires IsDiscount(disc)
    ensures Dcg([x] + s, k, disc, i) <= Dcg(Insert(x, s, Descending), k, disc, i)
  {
    if s != [] && !Descending(x, s[0]) && i < k {
      var rest := s[1..];
      InsertRaisesDcg(x, rest, k, disc, i + 1);
      SwapHead(x, s, k, disc, i);
      var r := Insert(x, rest, Descending);
      assert ([s[0]] + r)[1..] == r;
      assert Insert(x, s, Descending) == [s[0]] + r;
    }
  }

  lemma SwapHead(x: nat, s: seq<nat>, k: nat, disc: nat -> real, i: nat)
    requires IsDiscount(disc) && s != [] && x <= s[0] && i < k
    ensures Dcg([x] + s, k, disc, i) <= Gain(s[0]) / disc(i) + Dcg([x] + s[1..], k, disc, i + 1)
  {
    assert ([x] + s)[1..] == s;
    assert ([x] + s[1..])[1..] == s[1..];
    Pow2Monotone(x, s[0]);
    ExchangeGains(x, s[0], disc(i), disc(i + 1));
    if i + 1 >= k {
      GainsOver(x, s[0], disc(i));
    }
  }

  lemma GainsOver(x: nat, y: nat, d: real)
    requires x <= y && d > 0.0
    ensures Gain(x) / d <= Gain(y) / d
  {
    Pow2Monotone(x, y);
    QuotientMonotone(Gain(x), Gain(y), d);
  }

  lemma QuotientMonotone(a: real, b: real, d: real)
    requires a <= b && d > 0.0
    ensures a / d <= b / d
  {}

  lemma {:induction false} DcgAtMostIdealFrom(labels: seq<nat>, k: nat, disc: nat -> real, i: nat)
    requires IsDiscount(disc)
    ensures Dcg(labels, k, disc, i) <= Dcg(Ideal(labels), k, disc, i)
  {
    if labels != [] && i < k {
      var x, rest := labels[0], labels[1..];
      DcgAtMostIdealFrom(rest, k, disc, i + 1);
      InsertRaisesDcg(x, Ideal(rest), k, disc, i);
      assert ([x] + Ideal(rest))[1..] == Ideal(rest);
    }
  }

  lemma {:induction false} DcgNonNegative(labels: seq<nat>, k: nat, disc: nat -> real, i: nat)
    requires IsDiscount(disc)
    ensures 0.0 <= Dcg(labels, k, disc, i)
  {
    if labels != [] && i < k {
      DcgNonNegative(labels[1..], k, disc, i + 1);
      GainsOver(0, labels[0], disc(i));
    }
  }

  /** The discounted gain of any order is at most that of the ideal order. */
  lemma DcgAtMostIdeal(labels: seq<nat>, k: nat, disc: nat -> real)
    requires IsDiscount(disc)
    ensures Dcg(labels, k, disc, 0) <= Dcg(Ideal(labels), k, disc, 0)
  {
    DcgAtMostIdealFrom(labels, k, disc, 0);
  }

  lemma NdcgInUnitInterval(labels: seq<nat>, k: nat, disc: nat -> real)
    requires IsDiscount(disc)
    ensures 0.0 <= NdcgAtK(labels, k, disc) <= 1.0
  {
    DcgAtMostIdeal(labels, k, disc);
    DcgNonNegative(labels, k, disc, 0);
    RatioBounds(Dcg(labels, k, disc, 0), Dcg(Ideal(labels), k, disc, 0));
  }

  lemma RatioBounds(a: real, b: real)
    requires 0.0 <= a <= b
    ensures b != 0.0 ==> 0.0 <= a / b <= 1.0 && (a / b == 1.0 <==> a == b)
  {
    if b != 0.0 {
      assert a / b * b == a;
    }
  }

  // ---- binary labels: when nDCG is 0 and when it is 1 --------------------

  predicate BinaryLabels(labels: seq<nat>)
  {
    forall i :: 0 <= i < |labels| ==> labels[i] <= 1
  }

  function Positives(labels: seq<nat>): nat
  {
    if labels == [] then 0 else labels[0] + Positives(labels[1..])
  }

  function Min(a: int, b: int): int
  {
    if a <= b then a else b
  }

  /** `p` positives at positions i, i + 1, ... up to k. */
  function OnesGain(p: nat, k: nat, disc: nat -> real, i: nat): real
    requires forall j: nat :: disc(j) > 0.0
    decreases p
  {
    if p == 0 || i >= k then 0.0 else 1.0 / disc(i) + OnesGain(p - 1, k, disc, i + 1)
  }

  lemma {:induction false} ZeroGain(labels: seq<nat>, k: nat, disc: nat -> real, i: nat)
    requires IsDiscount(disc) && BinaryLabels(labels) && Positives(labels) == 0
    ensures Dcg(labels, k, disc, i) == 0.0
  {
    if labels != [] && i < k {
      ZeroGain(labels[1..], k, disc, i + 1);
    }
  }

  lemma {:induction false} PositivesBound(labels: seq<nat>)
    requires BinaryLabels(labels)
    ensures Positives(labels) <= |labels|
    ensures Positives(labels) == 0 ==> forall j :: 0 <= j < |labels| ==> labels[j] == 0
  {
    if labels != [] {
      PositivesBound(labels[1..]);
    }
  }

  /** In descending order the ones come first. */
  lemma {:induction false} DescendingGain(s: seq<nat>, k: nat, disc: nat -> real, i: nat)
    requires IsDiscount(disc) && BinaryLabels(s) && SortedBy(s, Descending)
    ensures Dcg(s, k, disc, i) == OnesGain(Positives(s), k, disc, i)
  {
    if s != [] {
      if s[0] == 0 {
        AllZero(s);
        ZeroGain(s, k, disc, i);
      } else if i < k {
        DescendingGain(s[1..], k, disc, i + 1);
      }
    }
  }

  lemma {:induction false} AllZero(s: seq<nat>)
    requires forall j :: 0 <= j < |s| ==> s[j] <= s[0]
    requires s != [] && s[0] == 0
    ensures Positives(s) == 0
  {
    assert s[0] <= 0;
    if |s| > 1 {
      assert s[1] == 0;
      forall j | 0 <= j < |s[1..]| ensures s[1..][j] <= s[1..][0] {
        assert s[1..][j] == s[j + 1];
      }
      AllZero(s[1..]);
    }
  }

  lemma {:induction false} PositivesInsert(x: nat, s: seq<nat>)
    ensures Positives(Insert(x, s, Descending)) == x + Positives(s)
  {
    if s != [] && !Descending(x, s[0]) {
      PositivesInsert(x, s[1..]);
      assert ([s[0]] + Insert(x, s[1..], Descending))[1..] == Insert(x, s[1..], Descending);
    } else {
      assert ([x] + s)[1..] == s;
    }
  }

  lemma {:induction false} PositivesIdeal(labels: seq<nat>)
    ensures Positives(Ideal(labels)) == Positives(labels)
  {
    if labels != [] {
      PositivesIdeal(labels[1..]);
      PositivesInsert(labels[0], Ideal(labels[1..]));
    }
  }

  lemma IdealGain(labels: seq<nat>, k: nat, disc: nat -> real)
    requires IsDiscount(disc) && BinaryLabels(labels)
    ensures Dcg(Ideal(labels), k, disc, 0) == OnesGain(Positives(labels), k, disc, 0)
  {
    SortSorted(labels, Descending);
    forall i | 0 <= i < |Ideal(labels)| ensures Ideal(labels)[i] <= 1 {
      SortedElement(labels, Descending, i);
    }
    DescendingGain(Ideal(labels), k, disc, 0);
    PositivesIdeal(labels);
  }

  /** Starting one position later costs strictly something. */
  lemma {:induction false} LaterIsWorse(p: nat, k: nat, disc: nat -> real, i: nat)
    requires IsDiscount(disc)
    ensures OnesGain(p, k, disc, i + 1) <= OnesGain(p, k, disc, i)
    ensures p > 0 && i < k ==> OnesGain(p, k, disc, i + 1) < OnesGain(p, k, disc, i)
    decreases p
  {
    if p > 0 && i < k {
      LaterIsWorse(p - 1, k, disc, i + 1);
      ReciprocalOrder(1.0, disc(i), disc(i + 1));
      OnesNonNegative(p - 1, k, disc, i + 1);
    }
  }

  lemma {:induction false} OnesNonNegative(p: nat, k: nat, disc: nat -> real, i: nat)
    requires IsDiscount(disc)
    ensures 0.0 <= OnesGain(p, k, disc, i)
    ensures p > 0 && i < k ==> 0.0 < OnesGain(p, k, disc, i)
    decreases p
  {
    if p > 0 && i < k {
      OnesNonNegative(p - 1, k, disc, i + 1);
      assert 1.0 / disc(i) * disc(i) == 1.0;
    }
  }

  ghost predicate LeadsWithOnes(labels: seq<nat>, m: int)
    requires m <= |labels|
  {
    forall j :: 0 <= j < m ==> labels[j] == 1
  }

  lemma {:induction false} BinaryGain(labels: seq<nat>, k: nat, disc: nat -> real, i: nat)
    requires IsDiscount(disc) && BinaryLabels(labels) && i <= k
    ensures Dcg(labels, k, disc, i) <= OnesGain(Positives(labels), k, disc, i)
    ensures Positives(labels) <= |labels|
    ensures Dcg(labels, k, disc, i) == OnesGain(Positives(labels), k, disc, i)
       <==> LeadsWithOnes(labels, Min(k - i, Positives(labels)))
  {
    PositivesBound(labels);
    if labels != [] && i < k {
      var rest := labels[1..];
      BinaryGain(rest, k, disc, i + 1);
      if labels[0] == 0 {
        LaterIsWorse(Positives(labels), k, disc, i);
        if Positives(labels) > 0 {
          assert !LeadsWithOnes(labels, Min(k - i, Positives(labels)));
        }
      } else {
        var m := Min(k - i, Positives(labels));
        assert m - 1 == Min(k - (i + 1), Positives(rest));
        assert forall j :: 0 <= j < |rest| ==> rest[j] == labels[j + 1];
        if LeadsWithOnes(rest, m - 1) {
          forall j | 0 <= j < m ensures labels[j] == 1 {
            if j > 0 {
              assert labels[j] == rest[j - 1];
            }
          }
        }
      }
    }
  }

  /** With some positive in reach, nDCG is 1 exactly when the list opens with min(k, npos) positives. */
  lemma NdcgPerfect(labels: seq<nat>, k: nat, disc: nat -> real)
    requires IsDiscount(disc) && BinaryLabels(labels) && k >= 1 && Positives(labels) > 0
    ensures Positives(labels) <= |labels|
    ensures NdcgAtK(labels, k, disc) == 1.0 <==> LeadsWithOnes(labels, Min(k, Positives(labels)))
  {
    BinaryGain(labels, k, disc, 0);
    IdealGain(labels, k, disc);
    OnesNonNegative(Positives(labels), k, disc, 0);
    DcgNonNegative(labels, k, disc, 0);
    RatioBounds(Dcg(labels, k, disc, 0), Dcg(Ideal(labels), k, disc, 0));
  }

  /** A user without positives scores 0 whatever the order. */
  lemma NdcgWithoutPositives(labels: seq<nat>, k: nat, disc: nat -> real)
    requires IsDiscount(disc) && BinaryLabels(labels) && Positives(labels) == 0
    ensures NdcgAtK(labels, k, disc) == 0.0
  {
    IdealGain(labels, k, disc);
  }

  // ---- what the gain at a position is ---------------------------------------

  /** Relevance doubles the gain and adds one: 0, 1, 3, 7, ... */
  lemma GainOfLabels(t: nat)
    ensures Gain(0) == 0.0 && Gain(1) == 1.0 && Gain(t + 1) == 2.0 * Gain(t) + 1.0
  {
    assert Pow2(1) == 2 * Pow2(0);
  }

  /** The item at position n adds its gain over the discount of that position, if the position is below k. */
  lemma {:induction false} ItemAdds(labels: seq<nat>, x: nat, k: nat, disc: nat -> real, i: nat)
    requires forall j: nat :: disc(j) > 0.0
    ensures Dcg([], k, disc, i) == 0.0
    ensures Dcg(labels + [x], k, disc, i) ==
      Dcg(labels, k, disc, i) + (if i + |labels| < k then Gain(x) / disc(i + |labels|) else 0.0)
  {
    if labels == [] {
      assert [x][1..] == [];
    } else {
      ItemAdds(labels[1..], x, k, disc, i + 1);
      assert (labels + [x])[1..] == labels[1..] + [x];
    }
  }

  /** nDCG times the DCG of the best order is the DCG of the given order. */
  lemma NdcgTimesIdeal(labels: seq<nat>, best: seq<nat>, k: nat, disc: nat -> real)
    requires IsDiscount(disc) && multiset(best) == multiset(labels)
    requires forall i, j :: 0 <= i < j < |best| ==> best[i] >= best[j]
    ensures NdcgAtK(labels, k, disc) * Dcg(best, k, disc, 0) == Dcg(labels, k, disc, 0)
  {
    hide Dcg, Ideal;
    DescendingIsIdeal(labels, best);
    DcgAtMostIdeal(labels, k, disc);
    DcgNonNegative(labels, k, disc, 0);
    QuotientTimes(Dcg(labels, k, disc, 0), Dcg(best, k, disc, 0), NdcgAtK(labels, k, disc));
  }

  lemma QuotientTimes(a: real, b: real, q: real)
    requires 0.0 <= a <= b && q == if b == 0.0 then 0.0 else a / b
    ensures q * b == a
  {}

  lemma {:induction false} SortOfSorted(best: seq<nat>)
    requires forall i, j :: 0 <= i < j < |best| ==> best[i] >= best[j]
    ensures Ideal(best) == best
  {
    if best != [] {
      SortOfSorted(best[1..]);
      assert Ideal(best) == Insert(best[0], best[1..], Descending);
    }
  }

  lemma DescendingIsIdeal(labels: seq<nat>, best: seq<nat>)
    requires multiset(best) == multiset(labels)
    requires forall i, j :: 0 <= i < j < |best| ==> best[i] >= best[j]
    ensures Ideal(labels) == best
  {
    SortPermutes(labels, Descending);
    SortSorted(labels, Descending);
    assert |best| == |multiset(best)| == |labels|;
    SameDescending(Ideal(labels), best);
  }

  lemma HeadIsLargest(a: seq<nat>, x: nat)
    requires x in a && forall i, j :: 0 <= i < j < |a| ==> a[i] >= a[j]
    ensures a[0] >= x
  {}

  lemma TailElements(a: seq<nat>)
    requires a != []
    ensures multiset(a[1..]) == multiset(a) - multiset{a[0]}
  {
    assert a == [a[0]] + a[1..];
  }

  lemma SameHead(a: seq<nat>, b: seq<nat>)
    requires multiset(a) == multiset(b) && a != [] && b != []
    requires forall i, j :: 0 <= i < j < |a| ==> a[i] >= a[j]
    requires forall i, j :: 0 <= i < j < |b| ==> b[i] >= b[j]
    ensures a[0] == b[0]
  {
    assert a[0] in multiset(b) && b[0] in multiset(a);
    HeadIsLargest(a, b[0]);
    HeadIsLargest(b, a[0]);
  }

  /** A descending sequence is determined by its elements. */
  lemma {:induction false} SameDescending(a: seq<nat>, b: seq<nat>)
    requires multiset(a) == multiset(b) && |a| == |b|
    requires forall i, j :: 0 <= i < j < |a| ==> a[i] >= a[j]
    requires forall i, j :: 0 <= i < j < |b| ==> b[i] >= b[j]
    ensures a == b
  {
    if a != [] {
      SameHead(a, b);
      TailElements(a);
      TailElements(b);
      SameDescending(a[1..], b[1..]);
      assert a == [a[0]] + a[1..] && b == [b[0]] + b[1..];
    }
  }
}
