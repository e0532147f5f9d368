/**
  The official evaluation: group the impressions by user, sort each user's list
  by descending score, and aggregate a positives-weighted AUC (GAUC) and a mean
  nDCG@k.
 */
module Evaluate {
  import opened Sums
  import opened Sorting
  import opened Auc
  import opened Ndcg

  datatype Impression = Impression(user: string, row: Row)

  datatype Metrics = Metrics(gauc: real, ndcg: real, primary: real, users: nat, rows: nat)

  /** What the stored record of a metric insists on. */
  predicate ValidMetrics(m: Metrics)
  {
    && 0.0 <= m.gauc <= 1.0
    && 0.0 <= m.ndcg <= 1.0
    && 0.0 <= m.primary <= 1.0
    && m.primary == (m.gauc + m.ndcg) / 2.0
  }

  predicate BinaryImpressions(rows: seq<Impression>)
  {
    forall i :: 0 <= i < |rows| ==> rows[i].row.rel == 0 || rows[i].row.rel == 1
  }

  /** `zip(user_ids, labels, scores)`: as long as the shortest list. */
  function ZipImpressions(users: seq<string>, labels: seq<int>, scores: seq<real>): (rows: seq<Impression>)
    ensures forall i :: 0 <= i < |rows| ==>
      i < |users| && i < |labels| && i < |scores| && rows[i] == Impression(users[i], Row(scores[i], labels[i]))
    ensures |rows| == |users| || |rows| == |labels| || |rows| == |scores|
  {
    var n := Min(|users|, Min(|labels|, |scores|));
    seq(n, i requires 0 <= i < n => Impression(users[i], Row(scores[i], labels[i])))
  }

  // ---- the specification -------------------------------------------------

  /** The impressions of one user, in log order. */
  function Group(rows: seq<Impression>, u: string): seq<Row>
  {
    if rows == [] then []
    else
      var n := |rows| - 1;
      Group(rows[..n], u) + (if rows[n].user == u then [rows[n].row] else [])
  }

  /** The users in order of first appearance. */
  function Users(rows: seq<Impression>): (us: seq<string>)
    ensures forall u :: u in us <==> exists i :: 0 <= i < |rows| && rows[i].user == u
    ensures forall i, j :: 0 <= i < j < |us| ==> us[i] != us[j]
  {
    if rows == [] then []
    else
      var n := |rows| - 1;
      var us := Users(rows[..n]);
      if rows[n].user in us then us else us + [rows[n].user]
  }

  predicate HigherFirst(a: Row, b: Row)
  {
    a.score >= b.score
  }

  function Ranked(g: seq<Row>): seq<Row>
  {
    Sort(g, HigherFirst)
  }

  function Rel(r: Row): nat
  {
    if r.rel < 0 then 0 else r.rel
  }

  function Labels(g: seq<Row>): seq<nat>
  {
    MapSeq(Rel, g)
  }

  predicate Mixed(g: seq<Row>)
  {
    0 < Npos(g) < |g|
  }

  function GaucWeight(g: seq<Row>): real
  {
    if Mixed(g) then Npos(g) as real else 0.0
  }

  function GaucTerm(g: seq<Row>): real
  {
    if Mixed(g) then Npos(g) as real * AucSpec(g) else 0.0
  }

  function NdcgTerm(g: seq<Row>, k: nat, disc: nat -> real): real
    requires forall j: nat :: disc(j) > 0.0
  {
    NdcgAtK(Labels(Ranked(g)), k, disc)
  }

  function WeightOf(rows: seq<Impression>): string -> real
  {
    (u: string) => GaucWeight(Group(rows, u))
  }

  function TermOf(rows: seq<Impression>): string -> real
  {
    (u: string) => GaucTerm(Group(rows, u))
  }

  function NdcgOf(rows: seq<Impression>, k: nat, disc: nat -> real): string -> real
    requires forall j: nat :: disc(j) > 0.0
  {
    (u: string) => NdcgTerm(Group(rows, u), k, disc)
  }

  function Gauc(gnum: real, gden: real): real
  {
    if gden != 0.0 then gnum / gden else 0.5
  }

  function Mean(total: real, n: nat): real
  {
    if n > 0 then total / n as real else 0.0
  }

  function Combine(gnum: real, gden: real, nd: real, users: nat, rows: nat): Metrics
  {
    var gauc := Gauc(gnum, gden);
    var ndcg := Mean(nd, users);
    Metrics(gauc, ndcg, (gauc + ndcg) / 2.0, users, rows)
  }

  /** Sums over the users of their weighted AUC, their weight and their nDCG. */
  function EvaluateSpec(rows: seq<Impression>, nlabels: nat, k: nat, disc: nat -> real): Metrics
    requires forall j: nat :: disc(j) > 0.0
  {
    var us := Users(rows);
    Combine(SumBy(us, TermOf(rows)), SumBy(us, WeightOf(rows)), SumBy(us, NdcgOf(rows, k, disc)), |us|, nlabels)
  }

  // ---- the algorithm -------------------------------------------------------

  /** The dictionary `byu`, with its keys in insertion order. */
  method GroupByUser(rows: seq<Impression>) returns (keys: seq<string>, byu: map<string, seq<Row>>)
    ensures keys == Users(rows)
    ensures forall u :: u in keys <==> u in byu
    ensures forall u :: u in byu ==> byu[u] == Group(rows, u)
  {
    keys, byu := [], map[];
    for n := 0 to |rows|
      invariant keys == Users(rows[..n])
      invariant forall u :: u in keys <==> u in byu
      invariant forall u :: u in byu ==> byu[u] == Group(rows[..n], u)
    {
      var u := rows[n].user;
      assert rows[..n + 1][..n] == rows[..n];
      if u !in byu {
        AbsentGroup(rows[..n], u);
        keys := keys + [u];
        byu := byu[u := []];
      }
      byu := byu[u := byu[u] + [rows[n].row]];
    }
    assert rows[..|rows|] == rows;
  }

  lemma {:induction false} AbsentGroup(rows: seq<Impression>, u: string)
    requires u !in Users(rows)
    ensures Group(rows, u) == []
  {
    if rows != [] {
      AbsentGroup(rows[..|rows| - 1], u);
    }
  }

  method Evaluate(users: seq<string>, labels: seq<int>, scores: seq<real>, k: nat, disc: nat -> real)
    returns (m: Metrics)
    requires IsDiscount(disc)
    requires BinaryImpressions(ZipImpressions(users, labels, scores))
    ensures m == EvaluateSpec(ZipImpressions(users, labels, scores), |labels|, k, disc)
  {
    hide TermOf, WeightOf, NdcgOf, GaucTerm, GaucWeight, NdcgTerm, Group, SumBy, Combine;
    var rows := ZipImpressions(users, labels, scores);
    var keys, byu := GroupByUser(rows);
    var gnum, gden, nd := 0.0, 0.0, 0.0;
    SumOfNone(TermOf(rows));
    SumOfNone(WeightOf(rows));
    SumOfNone(NdcgOf(rows, k, disc));
    for n := 0 to |keys|
      invariant gnum == SumBy(keys[..n], TermOf(rows))
      invariant gden == SumBy(keys[..n], WeightOf(rows))
      invariant nd == SumBy(keys[..n], NdcgOf(rows, k, disc))
    {
      var u := keys[n];
      BinaryGroup(rows, u);
      var gnum1, gden1, nd1 := UserTerms(byu[u], k, disc);
      gnum, gden, nd := gnum + gnum1, gden + gden1, nd + nd1;
      UserAdds(rows, u, k, disc);
      SumBySnoc(keys, n, TermOf(rows));
      SumBySnoc(keys, n, WeightOf(rows));
      SumBySnoc(keys, n, NdcgOf(rows, k, disc));
    }
    assert keys[..|keys|] == keys;
    m := Combine(gnum, gden, nd, |keys|, |labels|);
  }

  lemma UserAdds(rows: seq<Impression>, u: string, k: nat, disc: nat -> real)
    requires forall j: nat :: disc(j) > 0.0
    ensures TermOf(rows)(u) == GaucTerm(Group(rows, u)) && WeightOf(rows)(u) == GaucWeight(Group(rows, u))
    ensures NdcgOf(rows, k, disc)(u) == NdcgTerm(Group(rows, u), k, disc)
  {}

  lemma SumOfNone<T>(f: T -> real)
    ensures SumBy([], f) == 0.0
  {}

  lemma SumBySnoc<T>(s: seq<T>, n: nat, f: T -> real)
    requires n < |s|
    ensures SumBy(s[..n + 1], f) == SumBy(s[..n], f) + f(s[n])
  {
    assert s[..n + 1] == s[..n] + [s[n]];
    SumByConcat(s[..n], [s[n]], f);
  }

  /** One user's round of the loop: sort in place, then add to the three totals. */
  method UserTerms(g: seq<Row>, k: nat, disc: nat -> real) returns (gnum: real, gden: real, nd: real)
    requires IsDiscount(disc) && Binary(g)
    ensures gnum == GaucTerm(g) && gden == GaucWeight(g) && nd == NdcgTerm(g, k, disc)
  {
    var lst := Sort(g, HigherFirst);
    RankedGroup(g);
    var labs := Labels(lst);
    var npos := Npos(lst);
    gnum, gden := 0.0, 0.0;
    if 0 < npos < |labs| {
      var a := Auc.Auc(labs, Scores(lst));
      gnum, gden := npos as real * a, npos as real;
    }
    nd := NdcgAtK(labs, k, disc);
  }

  /** The sorted list has the same positives, the same AUC, and splits into its two columns. */
  lemma RankedGroup(g: seq<Row>)
    requires Binary(g)
    ensures Binary(Ranked(g)) && Npos(Ranked(g)) == Npos(g) && AucSpec(Ranked(g)) == AucSpec(g)
    ensures Zip(Scores(Ranked(g)), Labels(Ranked(g))) == Ranked(g)
  {
    SortPermutes(g, HigherFirst);
    SpecOfRearrangement(Ranked(g), g);
    ZipColumns(Ranked(g));
  }

  function Scores(g: seq<Row>): seq<real>
  {
    MapSeq((r: Row) => r.score, g)
  }

  lemma ZipColumns(g: seq<Row>)
    requires Binary(g)
    ensures Zip(Scores(g), Labels(g)) == g
  {}

  lemma {:induction false} BinaryGroup(rows: seq<Impression>, u: string)
    requires BinaryImpressions(rows)
    ensures Binary(Group(rows, u))
  {
    if rows != [] {
      BinaryGroup(rows[..|rows| - 1], u);
    }
  }

  // ---- every result is a valid metric ----------------------------------------

  lemma GroupBounds(g: seq<Row>, k: nat, disc: nat -> real)
    requires IsDiscount(disc) && Binary(g)
    ensures 0.0 <= GaucTerm(g) <= GaucWeight(g)
    ensures 0.0 <= NdcgTerm(g, k, disc) <= 1.0
  {
    AucInUnitInterval(g);
    NdcgInUnitInterval(Labels(Ranked(g)), k, disc);
  }

  function Zero(): string -> real
  {
    (u: string) => 0.0
  }

  function One(): string -> real
  {
    (u: string) => 1.0
  }

  lemma {:induction false} SumOfOnes(us: seq<string>)
    ensures SumBy(us, One()) == |us| as real
  {
    if us != [] {
      SumOfOnes(us[1..]);
    }
  }

  lemma CombineValid(gnum: real, gden: real, nd: real, users: nat, rows: nat)
    requires 0.0 <= gnum <= gden && 0.0 <= nd <= users as real
    ensures ValidMetrics(Combine(gnum, gden, nd, users, rows))
    ensures gden != 0.0 ==> (Gauc(gnum, gden) == 1.0 <==> gnum == gden)
  {
    RatioBounds(gnum, gden);
    RatioBounds(nd, users as real);
  }

  /** Whatever the users, labels and scores, the result passes the metric validator. */
  lemma EvaluateIsValid(rows: seq<Impression>, nlabels: nat, k: nat, disc: nat -> real)
    requires IsDiscount(disc) && BinaryImpressions(rows)
    ensures ValidMetrics(EvaluateSpec(rows, nlabels, k, disc))
  {
    var us := Users(rows);
    forall u ensures 0.0 <= TermOf(rows)(u) <= WeightOf(rows)(u) && 0.0 <= NdcgOf(rows, k, disc)(u) <= 1.0 {
      BinaryGroup(rows, u);
      GroupBounds(Group(rows, u), k, disc);
    }
    SumByZero(us, Zero());
    SumByLe(us, Zero(), TermOf(rows));
    SumByLe(us, TermOf(rows), WeightOf(rows));
    SumByLe(us, Zero(), NdcgOf(rows, k, disc));
    SumByLe(us, NdcgOf(rows, k, disc), One());
    SumOfOnes(us);
    CombineValid(SumBy(us, TermOf(rows)), SumBy(us, WeightOf(rows)), SumBy(us, NdcgOf(rows, k, disc)), |us|, nlabels);
  }

  // ---- what the metrics mean -----------------------------------------------------

  /**
    GAUC times the positives of the users with both labels is the sum of their positives
    times their AUC; without such a user it is one half.
   */
  lemma GaucIsWeightedMean(rows: seq<Impression>, nlabels: nat, k: nat, disc: nat -> real)
    requires IsDiscount(disc) && BinaryImpressions(rows)
    ensures var gauc := EvaluateSpec(rows, nlabels, k, disc).gauc;
      && gauc * SumBy(Users(rows), (u: string) =>
           if 0 < Npos(Group(rows, u)) < |Group(rows, u)| then Npos(Group(rows, u)) as real else 0.0)
         == SumBy(Users(rows), (u: string) =>
           if 0 < Npos(Group(rows, u)) < |Group(rows, u)| then Npos(Group(rows, u)) as real * AucSpec(Group(rows, u))
           else 0.0)
      && ((forall u :: u in Users(rows) ==> !(0 < Npos(Group(rows, u)) < |Group(rows, u)|)) ==> gauc == 0.5)
  {
    hide Group, Npos, AucSpec, SumBy, Users, Gauc, Mean, NdcgOf;
    var us := Users(rows);
    var weight := (u: string) =>
      if 0 < Npos(Group(rows, u)) < |Group(rows, u)| then Npos(Group(rows, u)) as real else 0.0;
    var term := (u: string) =>
      if 0 < Npos(Group(rows, u)) < |Group(rows, u)| then Npos(Group(rows, u)) as real * AucSpec(Group(rows, u))
      else 0.0;
    SumByPointwise(us, us, WeightOf(rows), weight);
    SumByPointwise(us, us, TermOf(rows), term);
    TermsWithinWeights(rows, us, k, disc);
    GaucTimesWeight(SumBy(us, TermOf(rows)), SumBy(us, WeightOf(rows)));
    if forall u :: u in us ==> !(0 < Npos(Group(rows, u)) < |Group(rows, u)|) {
      SumByZero(us, WeightOf(rows));
    }
  }

  lemma GaucTimesWeight(gnum: real, gden: real)
    requires 0.0 <= gnum <= gden
    ensures Gauc(gnum, gden) * gden == gnum && (gden == 0.0 ==> Gauc(gnum, gden) == 0.5)
  {}

  lemma TermsWithinWeights(rows: seq<Impression>, us: seq<string>, k: nat, disc: nat -> real)
    requires IsDiscount(disc) && BinaryImpressions(rows)
    ensures 0.0 <= SumBy(us, TermOf(rows)) <= SumBy(us, WeightOf(rows))
  {
    hide Group, Npos, AucSpec, SumBy;
    forall u ensures 0.0 <= TermOf(rows)(u) <= WeightOf(rows)(u) {
      BinaryGroup(rows, u);
      GroupBounds(Group(rows, u), k, disc);
    }
    SumByZero(us, Zero());
    SumByLe(us, Zero(), TermOf(rows));
    SumByLe(us, TermOf(rows), WeightOf(rows));
  }

  /** With one user that has both labels, GAUC is that user's AUC. */
  lemma OneMixedUser(rows: seq<Impression>, nlabels: nat, k: nat, disc: nat -> real, i: nat)
    requires IsDiscount(disc) && BinaryImpressions(rows) && i < |Users(rows)|
    requires forall j :: 0 <= j < |Users(rows)| ==>
      (0 < Npos(Group(rows, Users(rows)[j])) < |Group(rows, Users(rows)[j])| <==> j == i)
    ensures EvaluateSpec(rows, nlabels, k, disc).gauc == AucSpec(Group(rows, Users(rows)[i]))
  {
    hide Group, Npos, AucSpec, SumBy, Users, Mean, NdcgOf;
    var us := Users(rows);
    var g := Group(rows, us[i]);
    var others := us[..i] + us[i + 1..];
    SumByRemove(us, i, TermOf(rows));
    SumByRemove(us, i, WeightOf(rows));
    SumByZero(others, TermOf(rows));
    SumByZero(others, WeightOf(rows));
    assert SumBy(us, TermOf(rows)) == Npos(g) as real * AucSpec(g);
    assert SumBy(us, WeightOf(rows)) == Npos(g) as real;
    ShareOfOne(Npos(g) as real, AucSpec(g));
  }

  lemma ShareOfOne(n: real, a: real)
    requires n != 0.0
    ensures n * a / n == a
  {}

  /** nDCG is the mean over all users of the nDCG of their labels by descending score; the counts are counts. */
  lemma NdcgIsMean(rows: seq<Impression>, nlabels: nat, k: nat, disc: nat -> real)
    requires IsDiscount(disc)
    ensures var m := EvaluateSpec(rows, nlabels, k, disc);
      && m.users == |Users(rows)| && m.rows == nlabels
      && (rows == [] ==> m.ndcg == 0.0)
      && m.ndcg * |Users(rows)| as real == SumBy(Users(rows), (u: string) =>
           NdcgAtK(Labels(Sort(Group(rows, u), HigherFirst)), k, disc))
  {
    hide Group, SumBy, NdcgAtK, Labels, Sort, Gauc;
    var us := Users(rows);
    SumByPointwise(us, us, NdcgOf(rows, k, disc), (u: string) =>
      NdcgAtK(Labels(Sort(Group(rows, u), HigherFirst)), k, disc));
    MeanTimes(SumBy(us, NdcgOf(rows, k, disc)), |us|);
    SumOfNone(NdcgOf(rows, k, disc));
  }

  lemma MeanTimes(total: real, n: nat)
    ensures if n > 0 then Mean(total, n) * n as real == total else Mean(total, n) == 0.0
  {}

  // ---- only the order inside each user counts ----------------------------------

  /** The same log with other scores that keep every comparison inside a user. */
  ghost predicate SameOrderPerUser(rows: seq<Impression>, other: seq<Impression>)
  {
    && |rows| == |other|
    && (forall i :: 0 <= i < |rows| ==> rows[i].user == other[i].user && rows[i].row.rel == other[i].row.rel)
    && (forall i, j :: 0 <= i < |rows| && 0 <= j < |rows| && rows[i].user == rows[j].user ==>
          (rows[i].row.score < rows[j].row.score <==> other[i].row.score < other[j].row.score))
  }

  /** Where the impressions of a user sit in the log. */
  function Positions(rows: seq<Impression>, u: string): (ps: seq<nat>)
    ensures forall i :: 0 <= i < |ps| ==> ps[i] < |rows| && rows[ps[i]].user == u
  {
    if rows == [] then []
    else
      var n := |rows| - 1;
      var ps := Positions(rows[..n], u);
      assert forall i :: 0 <= i < |ps| ==> rows[..n][ps[i]] == rows[ps[i]];
      ps + (if rows[n].user == u then [n] else [])
  }

  lemma {:induction false} GroupByPositions(rows: seq<Impression>, u: string)
    ensures |Group(rows, u)| == |Positions(rows, u)|
    ensures forall i :: 0 <= i < |Group(rows, u)| ==> Group(rows, u)[i] == rows[Positions(rows, u)[i]].row
  {
    if rows != [] {
      var n := |rows| - 1;
      GroupByPositions(rows[..n], u);
      var ps := Positions(rows[..n], u);
      assert forall i :: 0 <= i < |ps| ==> rows[..n][ps[i]] == rows[ps[i]];
    }
  }

  lemma {:induction false} PositionsByUsers(rows: seq<Impression>, other: seq<Impression>, u: string)
    requires |rows| == |other| && forall i :: 0 <= i < |rows| ==> rows[i].user == other[i].user
    ensures Positions(rows, u) == Positions(other, u)
    ensures Users(rows) == Users(other)
  {
    if rows != [] {
      PositionsByUsers(rows[..|rows| - 1], other[..|rows| - 1], u);
    }
  }

  lemma SameOrderInGroup(rows: seq<Impression>, other: seq<Impression>, u: string)
    requires SameOrderPerUser(rows, other)
    ensures SameOrder(Group(rows, u), Group(other, u))
  {
    GroupByPositions(rows, u);
    GroupByPositions(other, u);
    PositionsByUsers(rows, other, u);
  }

  function First(p: (Row, Row)): Row { p.0 }

  function Second(p: (Row, Row)): Row { p.1 }

  predicate FirstHigher(p: (Row, Row), q: (Row, Row))
  {
    HigherFirst(p.0, q.0)
  }

  predicate SecondHigher(p: (Row, Row), q: (Row, Row))
  {
    HigherFirst(p.1, q.1)
  }

  /** Lists with the same order put the same labels in the same places. */
  lemma RankedLabelsAgree(s: seq<Row>, t: seq<Row>)
    requires SameOrder(s, t)
    ensures Labels(Ranked(s)) == Labels(Ranked(t))
  {
    var z := seq(|s|, i requires 0 <= i < |s| => (s[i], t[i]));
    assert MapSeq(First, z) == s;
    assert MapSeq(Second, z) == t;
    SortMapped(First, z, FirstHigher, HigherFirst);
    SortMapped(Second, z, SecondHigher, HigherFirst);
    SortAgreeing(z, FirstHigher, SecondHigher);
    var r := Sort(z, FirstHigher);
    forall i | 0 <= i < |r| ensures r[i].0.rel == r[i].1.rel {
      SortedElement(z, FirstHigher, i);
    }
    assert |Labels(Ranked(s))| == |r| == |Labels(Ranked(t))|;
    forall i | 0 <= i < |r| ensures Labels(Ranked(s))[i] == Labels(Ranked(t))[i] {
      assert Ranked(s)[i] == MapSeq(First, r)[i];
      assert Ranked(t)[i] == MapSeq(Second, r)[i];
    }
  }

  lemma SameTerms(s: seq<Row>, t: seq<Row>, k: nat, disc: nat -> real)
    requires IsDiscount(disc) && SameOrder(s, t)
    ensures GaucTerm(s) == GaucTerm(t) && GaucWeight(s) == GaucWeight(t)
    ensures NdcgTerm(s, k, disc) == NdcgTerm(t, k, disc)
  {
    AucOfSameOrder(s, t);
    NposOfSameLabels(s, t);
    RankedLabelsAgree(s, t);
  }

  /** A strictly increasing change of the scores of each user changes no metric. */
  lemma EvaluateOfSameOrder(rows: seq<Impression>, other: seq<Impression>, nlabels: nat, k: nat, disc: nat -> real)
    requires IsDiscount(disc) && SameOrderPerUser(rows, other)
    ensures EvaluateSpec(rows, nlabels, k, disc) == EvaluateSpec(other, nlabels, k, disc)
  {
    PositionsByUsers(rows, other, "");
    forall u ensures TermOf(rows)(u) == TermOf(other)(u) && WeightOf(rows)(u) == WeightOf(other)(u)
                  && NdcgOf(rows, k, disc)(u) == NdcgOf(other, k, disc)(u) {
      SameOrderInGroup(rows, other, u);
      SameTerms(Group(rows, u), Group(other, u), k, disc);
    }
    SumByPointwise(Users(rows), Users(rows), TermOf(rows), TermOf(other));
    SumByPointwise(Users(rows), Users(rows), WeightOf(rows), WeightOf(other));
    SumByPointwise(Users(rows), Users(rows), NdcgOf(rows, k, disc), NdcgOf(other, k, disc));
  }

  function Shift(rows: seq<Impression>, bias: string -> real): (other: seq<Impression>)
    ensures |other| == |rows|
    ensures forall i :: 0 <= i < |rows| ==>
      other[i] == Impression(rows[i].user, Row(rows[i].row.score + bias(rows[i].user), rows[i].row.rel))
  {
    seq(|rows|, i requires 0 <= i < |rows| =>
      Impression(rows[i].user, Row(rows[i].row.score + bias(rows[i].user), rows[i].row.rel)))
  }

  /** A term that is constant inside a user contributes nothing. */
  lemma UserBiasIsInvisible(rows: seq<Impression>, bias: string -> real, nlabels: nat, k: nat, disc: nat -> real)
    requires IsDiscount(disc)
    ensures EvaluateSpec(Shift(rows, bias), nlabels, k, disc) == EvaluateSpec(rows, nlabels, k, disc)
  {
    EvaluateOfSameOrder(rows, Shift(rows, bias), nlabels, k, disc);
  }

  // ---- the order of the log does not count ---------------------------------------

  lemma UsersRearranged(a: seq<string>, b: seq<string>)
    requires forall i, j :: 0 <= i < j < |a| ==> a[i] != a[j]
    requires forall i, j :: 0 <= i < j < |b| ==> b[i] != b[j]
    requires forall u :: u in a <==> u in b
    ensures multiset(a) == multiset(b)
  {
    forall u ensures multiset(a)[u] == multiset(b)[u] {
      OccursOnce(a, u);
      OccursOnce(b, u);
    }
  }

  lemma {:induction false} OccursOnce(a: seq<string>, u: string)
    requires forall i, j :: 0 <= i < j < |a| ==> a[i] != a[j]
    ensures multiset(a)[u] == if u in a then 1 else 0
  {
    if a != [] {
      assert a == [a[0]] + a[1..];
      OccursOnce(a[1..], u);
    }
  }

  lemma {:induction false} UsersHaveGroups(rows: seq<Impression>, u: string)
    ensures u in Users(rows) <==> Group(rows, u) != []
  {
    if rows != [] {
      UsersHaveGroups(rows[..|rows| - 1], u);
    }
  }

  /** Interleaving the users differently, each keeping its own order, changes no metric. */
  lemma EvaluateOfRearrangedLog(rows: seq<Impression>, other: seq<Impression>, nlabels: nat, k: nat, disc: nat -> real)
    requires IsDiscount(disc)
    requires forall u :: Group(rows, u) == Group(other, u)
    ensures EvaluateSpec(rows, nlabels, k, disc) == EvaluateSpec(other, nlabels, k, disc)
  {
    var a, b := Users(rows), Users(other);
    forall u ensures u in a <==> u in b {
      UsersHaveGroups(rows, u);
      UsersHaveGroups(other, u);
    }
    UsersRearranged(a, b);
    assert |a| == |multiset(a)| == |multiset(b)| == |b|;
    SumByPermutation(a, b, TermOf(rows));
    SumByPermutation(a, b, WeightOf(rows));
    SumByPermutation(a, b, NdcgOf(rows, k, disc));
    SumByPointwise(b, b, TermOf(rows), TermOf(other));
    SumByPointwise(b, b, WeightOf(rows), WeightOf(other));
    SumByPointwise(b, b, NdcgOf(rows, k, disc), NdcgOf(other, k, disc));
  }

  // ---- the ceiling of nDCG ---------------------------------------------------------

  function HasPositive(rows: seq<Impression>): string -> real
  {
    (u: string) => if Npos(Group(rows, u)) > 0 then 1.0 else 0.0
  }

  /** The share of the users with at least one positive. */
  function PositiveUserShare(rows: seq<Impression>): real
  {
    Mean(SumBy(Users(rows), HasPositive(rows)), |Users(rows)|)
  }

  lemma {:induction false} PositivesOfLabels(g: seq<Row>)
    requires Binary(g)
    ensures Positives(Labels(g)) == Npos(g)
    ensures BinaryLabels(Labels(g))
  {
    if g != [] {
      PositivesOfLabels(g[1..]);
      assert Labels(g)[1..] == Labels(g[1..]);
    }
  }

  lemma RankedPositives(g: seq<Row>)
    requires Binary(g)
    ensures Binary(Ranked(g)) && Positives(Labels(Ranked(g))) == Npos(g) && BinaryLabels(Labels(Ranked(g)))
  {
    SortPermutes(g, HigherFirst);
    BinaryRearrange(Ranked(g), g);
    NposRearrange(Ranked(g), g);
    PositivesOfLabels(Ranked(g));
    NposCounts(g);
  }

  lemma MeanMonotone(a: real, b: real, n: nat)
    requires a <= b
    ensures Mean(a, n) <= Mean(b, n)
  {
    if n > 0 {
      assert b / n as real - a / n as real == (b - a) / n as real;
    }
  }

  /** No scores lift nDCG above the share of users that have a positive at all. */
  lemma NdcgCeiling(rows: seq<Impression>, nlabels: nat, k: nat, disc: nat -> real)
    requires IsDiscount(disc) && BinaryImpressions(rows)
    ensures EvaluateSpec(rows, nlabels, k, disc).ndcg <= PositiveUserShare(rows)
  {
    forall u ensures NdcgOf(rows, k, disc)(u) <= HasPositive(rows)(u) {
      var g := Group(rows, u);
      BinaryGroup(rows, u);
      GroupBounds(g, k, disc);
      RankedPositives(g);
      NposCounts(g);
      if Npos(g) == 0 {
        NdcgWithoutPositives(Labels(Ranked(g)), k, disc);
      }
    }
    SumByLe(Users(rows), NdcgOf(rows, k, disc), HasPositive(rows));
    MeanMonotone(SumBy(Users(rows), NdcgOf(rows, k, disc)), SumBy(Users(rows), HasPositive(rows)), |Users(rows)|);
  }

  /** Scores equal to the labels. */
  ghost predicate Oracle(g: seq<Row>)
  {
    forall i :: 0 <= i < |g| ==> g[i].score == g[i].rel as real
  }

  lemma {:induction false} OracleGroup(rows: seq<Impression>, u: string)
    requires forall i :: 0 <= i < |rows| ==> rows[i].row.score == rows[i].row.rel as real
    ensures Oracle(Group(rows, u))
  {
    if rows != [] {
      OracleGroup(rows[..|rows| - 1], u);
    }
  }

  lemma {:induction false} DescendingLeads(labels: seq<nat>)
    requires BinaryLabels(labels) && SortedBy(labels, Descending)
    ensures Positives(labels) <= |labels|
    ensures LeadsWithOnes(labels, Positives(labels))
  {
    PositivesBound(labels);
    if labels != [] {
      if labels[0] == 0 {
        AllZero(labels);
      } else {
        DescendingLeads(labels[1..]);
        forall j | 0 <= j < Positives(labels) ensures labels[j] == 1 {
          if j > 0 {
            assert labels[j] == labels[1..][j - 1];
          }
        }
      }
    }
  }

  lemma OracleRanking(g: seq<Row>)
    requires Oracle(g)
    ensures Oracle(Ranked(g))
    ensures SortedBy(Ranked(g), HigherFirst)
  {
    var r := Ranked(g);
    forall i | 0 <= i < |r| ensures r[i].score == r[i].rel as real {
      SortedElement(g, HigherFirst, i);
    }
    SortSorted(g, HigherFirst);
  }

  lemma OracleLabelsDescend(r: seq<Row>)
    requires Binary(r) && Oracle(r) && SortedBy(r, HigherFirst)
    ensures SortedBy(Labels(r), Descending)
  {
    forall i, j | 0 <= i < j < |r| ensures Descending(Labels(r)[i], Labels(r)[j]) {
      assert HigherFirst(r[i], r[j]);
    }
  }

  lemma OracleNdcg(g: seq<Row>, k: nat, disc: nat -> real)
    requires IsDiscount(disc) && Binary(g) && Oracle(g) && k >= 1
    ensures NdcgTerm(g, k, disc) == if Npos(g) > 0 then 1.0 else 0.0
  {
    RankedPositives(g);
    NposCounts(g);
    OracleRanking(g);
    OracleLabelsDescend(Ranked(g));
    if Npos(g) == 0 {
      NdcgWithoutPositives(Labels(Ranked(g)), k, disc);
    } else {
      DescendingLeads(Labels(Ranked(g)));
      NdcgPerfect(Labels(Ranked(g)), k, disc);
    }
  }

  lemma OracleGauc(g: seq<Row>)
    requires Binary(g) && Oracle(g)
    ensures GaucTerm(g) == GaucWeight(g)
  {
    if Mixed(g) {
      PerfectAuc(g);
    }
  }

  lemma OracleUser(rows: seq<Impression>, u: string, k: nat, disc: nat -> real)
    requires IsDiscount(disc) && BinaryImpressions(rows) && k >= 1
    requires forall i :: 0 <= i < |rows| ==> rows[i].row.score == rows[i].row.rel as real
    ensures TermOf(rows)(u) == WeightOf(rows)(u) && NdcgOf(rows, k, disc)(u) == HasPositive(rows)(u)
  {
    BinaryGroup(rows, u);
    OracleGroup(rows, u);
    OracleGauc(Group(rows, u));
    OracleNdcg(Group(rows, u), k, disc);
  }

  /** The oracle reaches the ceiling, and separates every user that can be separated. */
  lemma OracleReachesCeiling(rows: seq<Impression>, nlabels: nat, k: nat, disc: nat -> real)
    requires IsDiscount(disc) && BinaryImpressions(rows) && k >= 1
    requires forall i :: 0 <= i < |rows| ==> rows[i].row.score == rows[i].row.rel as real
    ensures EvaluateSpec(rows, nlabels, k, disc).ndcg == PositiveUserShare(rows)
    ensures SumBy(Users(rows), WeightOf(rows)) != 0.0 ==> EvaluateSpec(rows, nlabels, k, disc).gauc == 1.0
  {
    var us := Users(rows);
    forall u ensures TermOf(rows)(u) == WeightOf(rows)(u) && NdcgOf(rows, k, disc)(u) == HasPositive(rows)(u) {
      OracleUser(rows, u, k, disc);
    }
    hide TermOf, WeightOf, NdcgOf, HasPositive, Users, BinaryImpressions;
    SumByPointwise(us, us, TermOf(rows), WeightOf(rows));
    SumByPointwise(us, us, NdcgOf(rows, k, disc), HasPositive(rows));
  }
}
