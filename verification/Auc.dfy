/**
  The tie-corrected rank-sum AUC.  The method sorts, gives every tie run its
  average rank and applies the closed Mann-Whitney formula; the specification
  counts (positive, negative) pairs directly, a tied pair counting one half.
 */
module Auc {
  import opened Sums
  import opened Sorting

  /** One logged impression of a user: the model's score and the 0/1 label. */
  datatype Row = Row(score: real, rel: int)

  predicate Binary(s: seq<Row>)
  {
    forall i :: 0 <= i < |s| ==> s[i].rel == 0 || s[i].rel == 1
  }

  /** Python's `zip`: pairs up to the shorter of the two lists. */
  function Zip(scores: seq<real>, labels: seq<int>): (s: seq<Row>)
    ensures |s| == if |scores| <= |labels| then |scores| else |labels|
    ensures forall i :: 0 <= i < |s| ==> s[i] == Row(scores[i], labels[i])
  {
    var n := if |scores| <= |labels| then |scores| else |labels|;
    seq(n, i requires 0 <= i < n => Row(scores[i], labels[i]))
  }

  // ---- the specification: counting pairs -------------------------------

  /** What the pair (x, y) contributes when x should rank above y. */
  function Credit(x: real, y: real): real
  {
    if x > y then 1.0 else if x == y then 0.5 else 0.0
  }

  function CreditOver(x: Row, rel: int): Row -> real
  {
    (y: Row) => if y.rel == rel then Credit(x.score, y.score) else 0.0
  }

  function WinsOver(s: seq<Row>, own: int, other: int): Row -> real
  {
    (x: Row) => if x.rel == own then SumBy(s, CreditOver(x, other)) else 0.0
  }

  /** Credit summed over all pairs of an `own` row of `a` and an `other` row of `b`. */
  function Cross(a: seq<Row>, own: int, b: seq<Row>, other: int): real
  {
    SumBy(a, WinsOver(b, own, other))
  }

  function IsLabel(rel: int): Row -> real
  {
    (x: Row) => if x.rel == rel then 1.0 else 0.0
  }

  function CountLabel(s: seq<Row>, rel: int): real
  {
    SumBy(s, IsLabel(rel))
  }

  /** Python's `sum` of the labels. */
  function Npos(s: seq<Row>): int
  {
    if s == [] then 0 else s[0].rel + Npos(s[1..])
  }

  /** The share of the (positive, negative) pairs that was won; one half without both classes. */
  function WonShare(wins: real, npos: int, nneg: int): real
  {
    if npos == 0 || nneg == 0 then 0.5 else wins / (npos as real * nneg as real)
  }

  /** (positive above negative + half the ties) / (npos * nneg). */
  function AucSpec(s: seq<Row>): real
  {
    WonShare(Cross(s, 1, s, 0), Npos(s), |s| - Npos(s))
  }

  lemma {:induction false} NposCounts(s: seq<Row>)
    requires Binary(s)
    ensures 0 <= Npos(s) <= |s|
    ensures CountLabel(s, 1) == Npos(s) as real
    ensures CountLabel(s, 0) == (|s| - Npos(s)) as real
  {
    if s != [] {
      NposCounts(s[1..]);
    }
  }

  // ---- the algorithm ---------------------------------------------------

  /** Tuples compare by score, then by label. */
  predicate LexLe(a: Row, b: Row)
  {
    a.score < b.score || (a.score == b.score && a.rel <= b.rel)
  }

  /** Sum of the ranks of the positive rows. */
  function RankSum(ranks: seq<real>, s: seq<Row>): real
    requires |ranks| == |s|
  {
    if s == [] then 0.0
    else (if s[0].rel == 1 then ranks[0] else 0.0) + RankSum(ranks[1..], s[1..])
  }

  function CreditAny(x: Row): Row -> real
  {
    (y: Row) => Credit(x.score, y.score)
  }

  /** The average rank of a row: one half plus its credit against every row. */
  function MidRank(s: seq<Row>, x: Row): real
  {
    0.5 + SumBy(s, CreditAny(x))
  }

  predicate Ascending(s: seq<Row>)
  {
    forall i, j :: 0 <= i < j < |s| ==> s[i].score <= s[j].score
  }

  lemma {:induction false} CreditConstant(s: seq<Row>, x: Row, c: real)
    requires forall i :: 0 <= i < |s| ==> Credit(x.score, s[i].score) == c
    ensures SumBy(s, CreditAny(x)) == c * |s| as real
  {
    if s != [] {
      CreditConstant(s[1..], x, c);
    }
  }

  /** In sorted order the tie run i..j gets exactly the average of the ranks i+1..j+1. */
  lemma TieRunRank(s: seq<Row>, i: nat, j: nat, k: nat)
    requires Ascending(s) && i <= k <= j < |s|
    requires s[i].score == s[j].score
    requires i == 0 || s[i - 1].score < s[i].score
    requires j + 1 == |s| || s[j].score < s[j + 1].score
    ensures MidRank(s, s[k]) == (i + j) as real / 2.0 + 1.0
  {
    var x := s[k];
    hide CreditAny, SumBy;
    var below, run, above := s[..i], s[i..j + 1], s[j + 1..];
    CreditBelow(s, i, x);
    CreditInRun(s, i, j, x);
    CreditAbove(s, j, x);
    SumByConcat(below, run + above, CreditAny(x));
    SumByConcat(run, above, CreditAny(x));
    assert s == below + (run + above);
  }

  lemma CreditBelow(s: seq<Row>, i: nat, x: Row)
    requires Ascending(s) && i < |s| && x.score == s[i].score
    requires i == 0 || s[i - 1].score < s[i].score
    ensures SumBy(s[..i], CreditAny(x)) == i as real
  {
    forall m | 0 <= m < i ensures Credit(x.score, s[..i][m].score) == 1.0 {
      assert s[m].score <= s[i - 1].score;
    }
    CreditConstant(s[..i], x, 1.0);
  }

  lemma CreditInRun(s: seq<Row>, i: nat, j: nat, x: Row)
    requires Ascending(s) && i <= j < |s| && x.score == s[i].score == s[j].score
    ensures SumBy(s[i..j + 1], CreditAny(x)) == 0.5 * (j + 1 - i) as real
  {
    var run := s[i..j + 1];
    forall m | 0 <= m < |run| ensures Credit(x.score, run[m].score) == 0.5 {
      assert s[i].score <= s[i + m].score <= s[j].score;
    }
    CreditConstant(run, x, 0.5);
  }

  lemma CreditAbove(s: seq<Row>, j: nat, x: Row)
    requires Ascending(s) && j < |s| && x.score == s[j].score
    requires j + 1 == |s| || s[j].score < s[j + 1].score
    ensures SumBy(s[j + 1..], CreditAny(x)) == 0.0
  {
    var above := s[j + 1..];
    forall m | 0 <= m < |above| ensures Credit(x.score, above[m].score) == 0.0 {
      assert s[j + 1].score <= s[j + 1 + m].score;
    }
    CreditConstant(above, x, 0.0);
  }

  lemma SortedPairs(rows: seq<Row>)
    ensures Ascending(Sort(rows, LexLe))
  {
    SortSorted(rows, LexLe);
  }

  method Auc(labels: seq<int>, scores: seq<real>) returns (r: real)
    requires Binary(Zip(scores, labels))
    ensures r == AucSpec(Zip(scores, labels))
  {
    var rows := Zip(scores, labels);
    var pairs := Sort(rows, LexLe);
    SortedPairs(rows);
    SortPermutes(rows, LexLe);
    SpecOfRearrangement(pairs, rows);
    var ranks := AverageRanks(pairs);
    var npos := Npos(pairs);
    var nneg := |pairs| - npos;
    if npos == 0 || nneg == 0 {
      return 0.5;
    }
    var srank := RankSum(ranks[..], pairs);
    ClosedFormula(ranks[..], pairs);
    r := MannWhitney(srank, npos, nneg);
  }

  /** The nested loops: every row of a sorted list gets the average rank of its tie run. */
  method AverageRanks(pairs: seq<Row>) returns (ranks: array<real>)
    requires Ascending(pairs)
    ensures fresh(ranks) && ranks.Length == |pairs|
    ensures forall k :: 0 <= k < |pairs| ==> ranks[k] == MidRank(pairs, pairs[k])
  {
    var n := |pairs|;
    ranks := new real[n](_ => 0.0);
    var i := 0;
    while i < n
      invariant 0 <= i <= n
      invariant 0 < i < n ==> pairs[i - 1].score < pairs[i].score
      invariant forall k :: 0 <= k < i ==> ranks[k] == MidRank(pairs, pairs[k])
    {
      var j := i;
      while j + 1 < n && pairs[j + 1].score == pairs[i].score
        invariant i <= j < n && pairs[j].score == pairs[i].score
      {
        j := j + 1;
      }
      forall k | i <= k <= j ensures MidRank(pairs, pairs[k]) == (i + j) as real / 2.0 + 1.0 {
        TieRunRank(pairs, i, j, k);
      }
      var avg := (i + j) as real / 2.0 + 1.0;
      for k := i to j + 1
        invariant forall m :: 0 <= m < i ==> ranks[m] == MidRank(pairs, pairs[m])
        invariant forall m :: i <= m < k ==> ranks[m] == avg
      {
        ranks[k] := avg;
      }
      i := j + 1;
    }
  }

  // ---- why the closed formula is right ---------------------------------

  function PosMidRank(s: seq<Row>): Row -> real
  {
    (x: Row) => if x.rel == 1 then MidRank(s, x) else 0.0
  }

  lemma {:induction false} RankSumByMidRank(ranks: seq<real>, s: seq<Row>, all: seq<Row>)
    requires |ranks| == |s|
    requires forall k :: 0 <= k < |s| ==> ranks[k] == MidRank(all, s[k])
    ensures RankSum(ranks, s) == SumBy(s, PosMidRank(all))
  {
    if s != [] {
      RankSumByMidRank(ranks[1..], s[1..], all);
    }
  }

  function HalfPos(): Row -> real
  {
    (x: Row) => if x.rel == 1 then 0.5 else 0.0
  }

  function PosCreditAny(s: seq<Row>): Row -> real
  {
    (x: Row) => if x.rel == 1 then SumBy(s, CreditAny(x)) else 0.0
  }

  /** Every positive meets positives and negatives: split the credit by the other row's label. */
  lemma {:induction false} CreditSplits(s: seq<Row>, all: seq<Row>)
    requires Binary(all)
    ensures SumBy(s, PosCreditAny(all)) == Cross(s, 1, all, 0) + Cross(s, 1, all, 1)
  {
    if s != [] {
      CreditSplits(s[1..], all);
      SumByAdd(all, CreditOver(s[0], 0), CreditOver(s[0], 1), CreditAny(s[0]));
    }
  }

  function CreditFrom(x: Row, own: int): Row -> real
  {
    (z: Row) => if z.rel == own then Credit(z.score, x.score) else 0.0
  }

  lemma CrossCons(a: seq<Row>, own: int, b: seq<Row>, other: int)
    requires a != []
    ensures Cross(a, own, b, other)
         == (if a[0].rel == own then SumBy(b, CreditOver(a[0], other)) else 0.0) + Cross(a[1..], own, b, other)
  {
    assert Cross(a, own, b, other) == WinsOver(b, own, other)(a[0]) + Cross(a[1..], own, b, other);
  }

  /** A column of the pair table, read from its other end. */
  lemma {:induction false} CrossHead(b: seq<Row>, x: Row, a: seq<Row>, own: int, other: int)
    ensures Cross(b, own, [x] + a, other)
         == (if x.rel == other then SumBy(b, CreditFrom(x, own)) else 0.0) + Cross(b, own, a, other)
  {
    if b != [] {
      CrossHead(b[1..], x, a, own, other);
      assert ([x] + a)[1..] == a;
    }
  }

  /** Two rows together hand out one unit of credit, so a full table and its mirror cover every pair. */
  lemma {:induction false} CrossMirror(a: seq<Row>, own: int, b: seq<Row>, other: int)
    ensures Cross(a, own, b, other) + Cross(b, other, a, own) == CountLabel(a, own) * CountLabel(b, other)
  {
    if a == [] {
      SumByZero(b, WinsOver(a, other, own));
    } else {
      var x, rest := a[0], a[1..];
      assert a == [x] + rest;
      CrossMirror(rest, own, b, other);
      CrossHead(b, x, rest, other, own);
      SumByAdd(b, CreditOver(x, other), CreditFrom(x, other), IsLabel(other));
      CountTimes(a, own, CountLabel(b, other));
      assert Cross(a, own, b, other) == WinsOver(b, own, other)(x) + Cross(rest, own, b, other);
    }
  }

  /** Positives against positives: npos^2 / 2. */
  lemma PositivesAgainstPositives(s: seq<Row>)
    requires Binary(s)
    ensures Cross(s, 1, s, 1) == Npos(s) as real * Npos(s) as real / 2.0
  {
    CrossMirror(s, 1, s, 1);
    NposCounts(s);
  }

  /** The positives' ranks sum to the pair count, plus what ranking the positives alone would give. */
  lemma RankSumIsPairCount(ranks: seq<real>, s: seq<Row>)
    requires Binary(s) && |ranks| == |s|
    requires forall k :: 0 <= k < |s| ==> ranks[k] == MidRank(s, s[k])
    ensures RankSum(ranks, s) == Cross(s, 1, s, 0) + Cross(s, 1, s, 1) + 0.5 * CountLabel(s, 1)
  {
    hide RankSum, Cross, SumBy;
    RankSumByMidRank(ranks, s, s);
    SumByAdd(s, HalfPos(), PosCreditAny(s), PosMidRank(s));
    SumByScale(s, 0.5, IsLabel(1), HalfPos());
    CreditSplits(s, s);
  }

  /** U = srank - npos (npos + 1) / 2, as a share of all the pairs. */
  function MannWhitney(srank: real, npos: int, nneg: int): real
    requires npos != 0 && nneg != 0
  {
    (srank - (npos * (npos + 1)) as real / 2.0) / (npos as real * nneg as real)
  }

  lemma ClosedFormula(ranks: seq<real>, s: seq<Row>)
    requires Binary(s) && |ranks| == |s|
    requires forall k :: 0 <= k < |s| ==> ranks[k] == MidRank(s, s[k])
    requires Npos(s) != 0 && |s| - Npos(s) != 0
    ensures MannWhitney(RankSum(ranks, s), Npos(s), |s| - Npos(s)) == AucSpec(s)
  {
    hide RankSum, Cross, CountLabel, WonShare, MannWhitney, Npos, MidRank;
    RankSumIsPairCount(ranks, s);
    PositivesAgainstPositives(s);
    NposCounts(s);
    SameShare(RankSum(ranks, s), Cross(s, 1, s, 0), Npos(s), |s| - Npos(s));
  }

  lemma SameShare(srank: real, wins: real, npos: int, nneg: int)
    requires npos != 0 && nneg != 0
    requires srank == wins + npos as real * npos as real / 2.0 + 0.5 * npos as real
    ensures MannWhitney(srank, npos, nneg) == WonShare(wins, npos, nneg)
  {
    assert (npos * (npos + 1)) as real == npos as real * (npos + 1) as real;
  }

  // ---- laws of the specification ---------------------------------------

  lemma {:induction false} CrossRearrangeOther(a: seq<Row>, own: int, b: seq<Row>, c: seq<Row>, other: int)
    requires multiset(b) == multiset(c)
    ensures Cross(a, own, b, other) == Cross(a, own, c, other)
  {
    if a != [] {
      CrossRearrangeOther(a[1..], own, b, c, other);
      SumByPermutation(b, c, CreditOver(a[0], other));
    }
  }

  lemma BinaryRearrange(s: seq<Row>, t: seq<Row>)
    requires multiset(s) == multiset(t) && Binary(t)
    ensures Binary(s)
  {
    forall i | 0 <= i < |s| ensures s[i].rel == 0 || s[i].rel == 1 {
      assert s[i] in multiset(s);
      assert s[i] in t;
    }
  }

  lemma CrossRearrange(s: seq<Row>, t: seq<Row>)
    requires multiset(s) == multiset(t)
    ensures Cross(s, 1, s, 0) == Cross(t, 1, t, 0)
  {
    CrossRearrangeOther(s, 1, s, t, 0);
    SumByPermutation(s, t, WinsOver(t, 1, 0));
  }

  lemma NposRearrange(s: seq<Row>, t: seq<Row>)
    requires multiset(s) == multiset(t) && Binary(s) && Binary(t)
    ensures |s| == |t| && Npos(s) == Npos(t)
  {
    assert |s| == |multiset(s)| == |multiset(t)| == |t|;
    NposCounts(s);
    NposCounts(t);
    SumByPermutation(s, t, IsLabel(1));
  }

  /** Input order does not matter. */
  lemma SpecOfRearrangement(s: seq<Row>, t: seq<Row>)
    requires multiset(s) == multiset(t) && Binary(t)
    ensures Binary(s) && |s| == |t| && Npos(s) == Npos(t) && AucSpec(s) == AucSpec(t)
  {
    BinaryRearrange(s, t);
    NposRearrange(s, t);
    CrossRearrange(s, t);
  }

  lemma {:induction false} CrossBounds(a: seq<Row>, own: int, b: seq<Row>, other: int)
    ensures 0.0 <= Cross(a, own, b, other) <= CountLabel(a, own) * CountLabel(b, other)
    ensures 0.0 <= CountLabel(a, own)
  {
    if a != [] {
      CrossBounds(a[1..], own, b, other);
      CreditBounds(b, a[0], other);
    }
  }

  lemma {:induction false} CreditBounds(b: seq<Row>, x: Row, other: int)
    ensures 0.0 <= SumBy(b, CreditOver(x, other)) <= CountLabel(b, other)
  {
    if b != [] {
      CreditBounds(b[1..], x, other);
    }
  }

  lemma ShareBounds(wins: real, npos: int, nneg: int)
    requires 0 <= npos && 0 <= nneg && 0.0 <= wins <= npos as real * nneg as real
    ensures 0.0 <= WonShare(wins, npos, nneg) <= 1.0
    ensures npos != 0 && nneg != 0 ==> (WonShare(wins, npos, nneg) == 1.0 <==> wins == npos as real * nneg as real)
  {
    if npos != 0 && nneg != 0 {
      var d := npos as real * nneg as real;
      assert d > 0.0;
      assert wins / d * d == wins;
    }
  }

  lemma AucInUnitInterval(s: seq<Row>)
    requires Binary(s)
    ensures 0.0 <= AucSpec(s) <= 1.0
  {
    NposCounts(s);
    CrossBounds(s, 1, s, 0);
    ShareBounds(Cross(s, 1, s, 0), Npos(s), |s| - Npos(s));
  }

  // ---- negated scores ----------------------------------------------------

  function LabelTimes(a: seq<Row>, own: int, n: real): real
  {
    CountLabel(a, own) * n
  }

  lemma CountTimes(a: seq<Row>, own: int, n: real)
    ensures LabelTimes(a, own, n)
         == if a == [] then 0.0 else (if a[0].rel == own then n else 0.0) + LabelTimes(a[1..], own, n)
  {
    if a != [] {
      CountTail(a, own);
      CountTailTimes(CountLabel(a[1..], own), if a[0].rel == own then 1.0 else 0.0, n);
    }
  }

  lemma CountTailTimes(rest: real, head: real, n: real)
    ensures (head + rest) * n == head * n + rest * n
  {}

  lemma CountTail(a: seq<Row>, own: int)
    requires a != []
    ensures CountLabel(a, own) == (if a[0].rel == own then 1.0 else 0.0) + CountLabel(a[1..], own)
  {
    assert CountLabel(a, own) == IsLabel(own)(a[0]) + CountLabel(a[1..], own);
  }

  predicate IsNegation(s: seq<Row>, t: seq<Row>)
  {
    |s| == |t| && forall i :: 0 <= i < |s| ==> t[i] == Row(-s[i].score, s[i].rel)
  }

  lemma {:induction false} NegatedCredit(b: seq<Row>, nb: seq<Row>, x: Row, nx: Row, other: int)
    requires IsNegation(b, nb) && nx == Row(-x.score, x.rel)
    ensures SumBy(b, CreditOver(x, other)) + SumBy(nb, CreditOver(nx, other)) == CountLabel(b, other)
  {
    if b != [] {
      NegatedCredit(b[1..], nb[1..], x, nx, other);
    }
  }

  lemma SameLengths(a: seq<Row>, na: seq<Row>)
    requires IsNegation(a, na)
    ensures |a| == |na|
  {}

  lemma NegatedHead(a: seq<Row>, na: seq<Row>)
    requires IsNegation(a, na) && a != []
    ensures na != [] && na[0] == Row(-a[0].score, a[0].rel) && IsNegation(a[1..], na[1..])
  {}

  lemma {:induction false} NegatedCross(a: seq<Row>, na: seq<Row>, b: seq<Row>, nb: seq<Row>, own: int, other: int)
    requires IsNegation(a, na) && IsNegation(b, nb)
    ensures Cross(a, own, b, other) + Cross(na, own, nb, other) == LabelTimes(a, own, CountLabel(b, other))
  {
    hide CountLabel, LabelTimes, IsNegation;
    CountTimes(a, own, CountLabel(b, other));
    SameLengths(a, na);
    if a != [] {
      NegatedHead(a, na);
      hide Cross;
      NegatedCross(a[1..], na[1..], b, nb, own, other);
      NegatedCredit(b, nb, a[0], na[0], other);
      CrossCons(a, own, b, other);
      CrossCons(na, own, nb, other);
    }
  }

  lemma {:induction false} NposOfSameLabels(s: seq<Row>, t: seq<Row>)
    requires |s| == |t| && forall i :: 0 <= i < |s| ==> s[i].rel == t[i].rel
    ensures Npos(s) == Npos(t)
  {
    if s != [] {
      NposOfSameLabels(s[1..], t[1..]);
    }
  }

  lemma ComplementShare(wins: real, other: real, npos: int, nneg: int)
    requires wins + other == npos as real * nneg as real
    ensures WonShare(wins, npos, nneg) + WonShare(other, npos, nneg) == 1.0
  {
    if npos != 0 && nneg != 0 {
      var d := npos as real * nneg as real;
      assert d != 0.0;
      assert wins / d + other / d == (wins + other) / d;
    }
  }

  /** Negating every score turns the AUC into its complement. */
  lemma AucOfNegatedScores(s: seq<Row>, t: seq<Row>)
    requires Binary(s) && IsNegation(s, t)
    ensures AucSpec(t) == 1.0 - AucSpec(s)
  {
    NposCounts(s);
    NposOfSameLabels(s, t);
    NegatedCross(s, t, s, t, 1, 0);
    ComplementShare(Cross(s, 1, s, 0), Cross(t, 1, t, 0), Npos(s), |s| - Npos(s));
  }

  // ---- only the order of the scores counts -------------------------------

  /** The same labels and the same comparisons between scores, position by position. */
  ghost predicate SameOrder(s: seq<Row>, t: seq<Row>)
  {
    && |s| == |t|
    && (forall i :: 0 <= i < |s| ==> s[i].rel == t[i].rel)
    && (forall i, j :: 0 <= i < |s| && 0 <= j < |s| ==> (s[i].score < s[j].score <==> t[i].score < t[j].score))
  }

  lemma SameOrderWins(s: seq<Row>, t: seq<Row>, i: nat)
    requires SameOrder(s, t) && i < |s|
    ensures WinsOver(s, 1, 0)(s[i]) == WinsOver(t, 1, 0)(t[i])
  {
    var f, g := CreditOver(s[i], 0), CreditOver(t[i], 0);
    forall j | 0 <= j < |s| ensures f(s[j]) == g(t[j]) {
      assert s[j].score < s[i].score <==> t[j].score < t[i].score;
      assert s[i].score < s[j].score <==> t[i].score < t[j].score;
    }
    SumByPointwise(s, t, f, g);
  }

  lemma AucOfSameOrder(s: seq<Row>, t: seq<Row>)
    requires SameOrder(s, t)
    ensures AucSpec(s) == AucSpec(t)
  {
    NposOfSameLabels(s, t);
    forall i | 0 <= i < |s| ensures WinsOver(s, 1, 0)(s[i]) == WinsOver(t, 1, 0)(t[i]) {
      SameOrderWins(s, t, i);
    }
    SumByPointwise(s, t, WinsOver(s, 1, 0), WinsOver(t, 1, 0));
  }

  // ---- when the AUC is perfect ---------------------------------------------

  ghost predicate Separates(x: Row, b: seq<Row>, other: int)
  {
    forall j :: 0 <= j < |b| && b[j].rel == other ==> x.score > b[j].score
  }

  lemma {:induction false} FullCredit(b: seq<Row>, x: Row, other: int)
    ensures SumBy(b, CreditOver(x, other)) == CountLabel(b, other) <==> Separates(x, b, other)
  {
    if b != [] {
      var f := CreditOver(x, other);
      FullCredit(b[1..], x, other);
      CreditBounds(b[1..], x, other);
      assert SumBy(b, f) == f(b[0]) + SumBy(b[1..], f);
      assert CountLabel(b, other) == IsLabel(other)(b[0]) + CountLabel(b[1..], other);
      if Separates(x, b[1..], other) && (b[0].rel != other || x.score > b[0].score) {
        forall j | 0 <= j < |b| && b[j].rel == other ensures x.score > b[j].score {
          if j > 0 {
            assert b[j] == b[1..][j - 1];
          }
        }
      }
      if Separates(x, b, other) {
        assert forall j :: 0 <= j < |b[1..]| ==> b[1..][j] == b[j + 1];
      }
    }
  }

  lemma {:induction false} FullCross(a: seq<Row>, own: int, b: seq<Row>, other: int)
    ensures Cross(a, own, b, other) == CountLabel(a, own) * CountLabel(b, other)
       <==> forall i :: 0 <= i < |a| && a[i].rel == own ==> Separates(a[i], b, other)
  {
    if a != [] {
      hide CountLabel, Cross;
      var rest := a[1..];
      FullCross(rest, own, b, other);
      FullCredit(b, a[0], other);
      CreditBounds(b, a[0], other);
      CrossBounds(rest, own, b, other);
      CrossCons(a, own, b, other);
      CountTimes(a, own, CountLabel(b, other));
      assert forall i :: 0 <= i < |rest| ==> rest[i] == a[i + 1];
      assert (forall i :: 0 <= i < |a| && a[i].rel == own ==> Separates(a[i], b, other))
          == ((a[0].rel == own ==> Separates(a[0], b, other))
              && (forall i :: 0 <= i < |rest| && rest[i].rel == own ==> Separates(rest[i], b, other))) by {
        forall i | 0 < i < |a| ensures a[i] == rest[i - 1] {}
      }
    }
  }

  /** With both classes present the AUC is 1 exactly when every positive outscores every negative. */
  lemma PerfectAuc(s: seq<Row>)
    requires Binary(s) && 0 < Npos(s) < |s|
    ensures AucSpec(s) == 1.0 <==> forall i :: 0 <= i < |s| && s[i].rel == 1 ==> Separates(s[i], s, 0)
  {
    NposCounts(s);
    FullCross(s, 1, s, 0);
    CrossBounds(s, 1, s, 0);
    ShareBounds(Cross(s, 1, s, 0), Npos(s), |s| - Npos(s));
  }
}
