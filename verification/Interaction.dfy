/**
  The algebra of the factorization machine's second-order term.  A row of
  feature ids picks one embedding per field; the fast form squares the summed
  embedding, the plain form adds the dot product of every pair of fields.
 */
module Interaction {
  import opened Sums

  type Vec = seq<real>

  /** A table of embeddings, one row of `k` numbers per feature id. */
  ghost predicate IsTable(V: seq<Vec>, k: nat)
  {
    forall i :: 0 <= i < |V| ==> |V[i]| == k
  }

  ghost predicate ValidIds(x: seq<nat>, dim: nat)
  {
    forall i :: 0 <= i < |x| ==> x[i] < dim
  }

  /** `V[X]` for one row: the embeddings of its fields. */
  function Pick(V: seq<Vec>, x: seq<nat>): (E: seq<Vec>)
    requires ValidIds(x, |V|)
    ensures |E| == |x| && forall i :: 0 <= i < |x| ==> E[i] == V[x[i]]
  {
    seq(|x|, i requires 0 <= i < |x| => V[x[i]])
  }

  /** One coordinate, zero outside the vector. */
  function At(e: Vec, f: nat): real
  {
    if f < |e| then e[f] else 0.0
  }

  /** `E.sum(1)` at coordinate f. */
  function ColumnSum(E: seq<Vec>, f: nat): real
  {
    if E == [] then 0.0 else At(E[0], f) + ColumnSum(E[1..], f)
  }

  function SquaredColumn(E: seq<Vec>): nat -> real
  {
    (f: nat) => ColumnSum(E, f) * ColumnSum(E, f)
  }

  function SquaredEntry(e: Vec): nat -> real
  {
    (f: nat) => At(e, f) * At(e, f)
  }

  /** `(E ** 2).sum((1, 2))`. */
  function SquaredEntries(E: seq<Vec>, k: nat): real
  {
    if E == [] then 0.0 else SumTo(k, SquaredEntry(E[0])) + SquaredEntries(E[1..], k)
  }

  /** The sum-of-squares trick. */
  function FastInteraction(E: seq<Vec>, k: nat): real
  {
    0.5 * (SumTo(k, SquaredColumn(E)) - SquaredEntries(E, k))
  }

  function ProductEntry(a: Vec, b: Vec): nat -> real
  {
    (f: nat) => At(a, f) * At(b, f)
  }

  function Dot(a: Vec, b: Vec, k: nat): real
  {
    SumTo(k, ProductEntry(a, b))
  }

  /** The dot products of `e` with every later field. */
  function DotWithAll(e: Vec, E: seq<Vec>, k: nat): real
  {
    if E == [] then 0.0 else Dot(e, E[0], k) + DotWithAll(e, E[1..], k)
  }

  /** The dot products of all pairs of fields. */
  function PairwiseInteraction(E: seq<Vec>, k: nat): real
  {
    if E == [] then 0.0 else DotWithAll(E[0], E[1..], k) + PairwiseInteraction(E[1..], k)
  }

  function TimesColumn(e: Vec, E: seq<Vec>): nat -> real
  {
    (f: nat) => At(e, f) * ColumnSum(E, f)
  }

  lemma {:induction false} DotWithColumn(e: Vec, E: seq<Vec>, k: nat)
    ensures SumTo(k, TimesColumn(e, E)) == DotWithAll(e, E, k)
  {
    if E == [] {
      SumToZero(k, TimesColumn(e, E));
    } else {
      DotWithColumn(e, E[1..], k);
      SumToAdd(k, ProductEntry(e, E[0]), TimesColumn(e, E[1..]), TimesColumn(e, E));
    }
  }

  function Crossed(e: Vec, E: seq<Vec>): nat -> real
  {
    (f: nat) => At(e, f) * At(e, f) + 2.0 * (At(e, f) * ColumnSum(E, f))
  }

  function Twice(h: nat -> real): nat -> real
  {
    (f: nat) => 2.0 * h(f)
  }

  lemma Binomial(x: real, a: real, b: real)
    requires x == a + b
    ensures x * x == a * a + 2.0 * (a * b) + b * b
  {}

  lemma ColumnOfLonger(e: Vec, E: seq<Vec>, f: nat)
    ensures ColumnSum([e] + E, f) == At(e, f) + ColumnSum(E, f)
  {
    assert ([e] + E)[1..] == E;
  }

  lemma SquareAt(e: Vec, E: seq<Vec>, f: nat)
    ensures SquaredColumn([e] + E)(f) == Crossed(e, E)(f) + SquaredColumn(E)(f)
  {
    var x, a, c := ColumnSum([e] + E, f), At(e, f), ColumnSum(E, f);
    ColumnOfLonger(e, E, f);
    Binomial(x, a, c);
    assert SquaredColumn([e] + E)(f) == x * x;
    assert SquaredColumn(E)(f) == c * c;
    assert Crossed(e, E)(f) == a * a + 2.0 * (a * c);
  }

  /** Squaring a column with one more entry adds its square and twice its product with the rest. */
  lemma SquareOfLonger(e: Vec, E: seq<Vec>, k: nat)
    ensures SumTo(k, SquaredColumn([e] + E))
         == SumTo(k, SquaredEntry(e)) + 2.0 * DotWithAll(e, E, k) + SumTo(k, SquaredColumn(E))
  {
    forall f: nat | f < k ensures SquaredColumn([e] + E)(f) == Crossed(e, E)(f) + SquaredColumn(E)(f) {
      SquareAt(e, E, f);
    }
    SumToAdd(k, Crossed(e, E), SquaredColumn(E), SquaredColumn([e] + E));
    SumToAdd(k, SquaredEntry(e), Twice(TimesColumn(e, E)), Crossed(e, E));
    SumToScale(k, 2.0, TimesColumn(e, E), Twice(TimesColumn(e, E)));
    DotWithColumn(e, E, k);
  }

  /** The fast form equals the sum over all pairs of fields, whatever the embeddings. */
  lemma {:induction false} FastIsPairwise(E: seq<Vec>, k: nat)
    ensures FastInteraction(E, k) == PairwiseInteraction(E, k)
  {
    if E == [] {
      SumToZero(k, SquaredColumn(E));
    } else {
      FastIsPairwise(E[1..], k);
      assert E == [E[0]] + E[1..];
      SquareOfLonger(E[0], E[1..], k);
    }
  }

  // ---- changing one number of the table ----------------------------------

  /** How many fields of the row hold `id`. */
  function Uses(x: seq<nat>, id: nat): nat
  {
    if x == [] then 0 else (if x[0] == id then 1 else 0) + Uses(x[1..], id)
  }

  ghost predicate Distinct(x: seq<nat>)
  {
    forall i, j :: 0 <= i < j < |x| ==> x[i] != x[j]
  }

  lemma {:induction false} DistinctUses(x: seq<nat>, id: nat)
    requires Distinct(x)
    ensures Uses(x, id) <= 1
    ensures Uses(x, id) == 1 <==> id in x
  {
    if x != [] {
      DistinctUses(x[1..], id);
    }
  }

  /** The table with `d` added to entry (id, f). */
  function Nudge(V: seq<Vec>, id: nat, f: nat, d: real): (N: seq<Vec>)
    requires id < |V| && f < |V[id]|
    ensures |N| == |V|
  {
    V[id := V[id][f := V[id][f] + d]]
  }

  /** The sum over the fields holding `id` of (column sum - own entry), at coordinate f. */
  function Slope(E: seq<Vec>, x: seq<nat>, id: nat, f: nat, total: real): real
    requires |E| == |x|
  {
    if x == [] then 0.0
    else (if x[0] == id then total - At(E[0], f) else 0.0) + Slope(E[1..], x[1..], id, f, total)
  }

  /** `r` added up `n` times. */
  function Times(n: nat, r: real): real
  {
    if n == 0 then 0.0 else r + Times(n - 1, r)
  }

  lemma {:induction false} TimesIsProduct(n: nat, r: real)
    ensures Times(n, r) == n as real * r
  {
    if n > 0 {
      TimesIsProduct(n - 1, r);
    }
  }

  lemma PickTail(V: seq<Vec>, x: seq<nat>)
    requires ValidIds(x, |V|) && x != []
    ensures Pick(V, x)[1..] == Pick(V, x[1..])
  {}

  lemma {:induction false} NudgedColumn(V: seq<Vec>, x: seq<nat>, id: nat, f: nat, d: real, g: nat)
    requires ValidIds(x, |V|) && id < |V| && f < |V[id]|
    ensures ColumnSum(Pick(Nudge(V, id, f, d), x), g)
         == ColumnSum(Pick(V, x), g) + (if g == f then Times(Uses(x, id), d) else 0.0)
  {
    if x != [] {
      NudgedColumn(V, x[1..], id, f, d, g);
      PickTail(V, x);
      PickTail(Nudge(V, id, f, d), x);
    }
  }

  /** Every field holding `id` picks the same embedding, so the slope is a multiple. */
  lemma {:induction false} SlopeIsMultiple(V: seq<Vec>, x: seq<nat>, id: nat, f: nat, total: real)
    requires ValidIds(x, |V|) && id < |V| && f < |V[id]|
    ensures Slope(Pick(V, x), x, id, f, total) == Times(Uses(x, id), total - V[id][f])
  {
    if x != [] {
      SlopeIsMultiple(V, x[1..], id, f, total);
      PickTail(V, x);
    }
  }

  /** What one nudged embedding adds to the squared norms. */
  function NormRise(v: real, d: real): real
  {
    2.0 * v * d + d * d
  }

  /** `c` at coordinate f, zero elsewhere. */
  function Spike(f: nat, c: real): nat -> real
  {
    (g: nat) => if g == f then c else 0.0
  }

  lemma NudgedNorm(e: Vec, f: nat, d: real, k: nat)
    requires |e| == k && f < k
    ensures SumTo(k, SquaredEntry(e[f := e[f] + d])) == SumTo(k, SquaredEntry(e)) + NormRise(e[f], d)
  {
    var rise := Spike(f, NormRise(e[f], d));
    SumToSingle(k, f, rise);
    SquareOfSum(e[f] + d, e[f], d);
    SumToAdd(k, SquaredEntry(e), rise, SquaredEntry(e[f := e[f] + d]));
  }

  lemma {:induction false} NudgedEntries(V: seq<Vec>, x: seq<nat>, id: nat, f: nat, d: real, k: nat)
    requires IsTable(V, k) && ValidIds(x, |V|) && id < |V| && f < k
    ensures SquaredEntries(Pick(Nudge(V, id, f, d), x), k)
         == SquaredEntries(Pick(V, x), k) + Times(Uses(x, id), NormRise(V[id][f], d))
  {
    if x != [] {
      NudgedEntries(V, x[1..], id, f, d, k);
      PickTail(V, x);
      PickTail(Nudge(V, id, f, d), x);
      if x[0] == id {
        NudgedNorm(V[id], f, d, k);
      }
    }
  }

  function SquareRise(s: real, t: real): real
  {
    2.0 * s * t + t * t
  }

  lemma NudgedSquares(V: seq<Vec>, x: seq<nat>, id: nat, f: nat, d: real, k: nat)
    requires IsTable(V, k) && ValidIds(x, |V|) && id < |V| && f < k
    ensures SumTo(k, SquaredColumn(Pick(Nudge(V, id, f, d), x)))
         == SumTo(k, SquaredColumn(Pick(V, x))) + SquareRise(ColumnSum(Pick(V, x), f), Times(Uses(x, id), d))
  {
    var E, N := Pick(V, x), Pick(Nudge(V, id, f, d), x);
    var t := Times(Uses(x, id), d);
    var rise := Spike(f, SquareRise(ColumnSum(E, f), t));
    forall g: nat | g < k ensures SquaredColumn(N)(g) == SquaredColumn(E)(g) + rise(g) {
      NudgedColumn(V, x, id, f, d, g);
      NudgedColumn(V, x, id, f, d, f);
      SquareOfSum(ColumnSum(N, f), ColumnSum(E, f), t);
    }
    SumToSingle(k, f, rise);
    SumToAdd(k, SquaredColumn(E), rise, SquaredColumn(N));
  }

  lemma SquareOfSum(x: real, s: real, t: real)
    requires x == s + t
    ensures x * x == s * s + SquareRise(s, t)
  {}

  /** m (m - 1) / 2 pairs of fields share the id; each adds d^2. */
  function SharedPairs(m: nat, d: real): real
  {
    0.5 * (m * (m - 1)) as real * (d * d)
  }

  /**
    Adding `d` to entry (id, f) changes the interaction by exactly d times the
    slope, plus a second-order term that only a repeated id can cause.
   */
  lemma NudgedInteraction(V: seq<Vec>, x: seq<nat>, id: nat, f: nat, d: real, k: nat)
    requires IsTable(V, k) && ValidIds(x, |V|) && id < |V| && f < k
    ensures FastInteraction(Pick(Nudge(V, id, f, d), x), k) - FastInteraction(Pick(V, x), k)
         == d * Slope(Pick(V, x), x, id, f, ColumnSum(Pick(V, x), f)) + SharedPairs(Uses(x, id), d)
  {
    hide Pick, Nudge, ColumnSum, SumTo, SquaredColumn, SquaredEntries, Slope, SquareRise, NormRise, SharedPairs, Times;
    var E, N := Pick(V, x), Pick(Nudge(V, id, f, d), x);
    var s := ColumnSum(E, f);
    var columnRise := SumTo(k, SquaredColumn(N)) - SumTo(k, SquaredColumn(E));
    var entryRise := SquaredEntries(N, k) - SquaredEntries(E, k);
    NudgedSquares(V, x, id, f, d, k);
    NudgedEntries(V, x, id, f, d, k);
    SlopeIsMultiple(V, x, id, f, s);
    Collect(d, Uses(x, id), s, V[id][f], columnRise, entryRise, Slope(E, x, id, f, s));
  }

  lemma Collect(d: real, n: nat, s: real, v: real, columnRise: real, entryRise: real, slope: real)
    requires columnRise == SquareRise(s, Times(n, d))
    requires entryRise == Times(n, NormRise(v, d))
    requires slope == Times(n, s - v)
    ensures 0.5 * (columnRise - entryRise) == d * slope + SharedPairs(n, d)
  {
    TimesIsProduct(n, d);
    TimesIsProduct(n, s - v);
    TimesIsProduct(n, NormRise(v, d));
    CollectProducts(d, n, n as real, s, v);
  }

  lemma CollectProducts(d: real, n: nat, m: real, s: real, v: real)
    requires m == n as real
    ensures 0.5 * (SquareRise(s, m * d) - m * NormRise(v, d)) == d * (m * (s - v)) + SharedPairs(n, d)
  {
    assert (n * (n - 1)) as real == m * (m - 1.0);
    assert (m * d) * (m * d) - m * (d * d) == m * (m - 1.0) * (d * d);
    assert 2.0 * s * (m * d) - m * (2.0 * v * d) == 2.0 * (d * (m * (s - v)));
    assert m * NormRise(v, d) == m * (2.0 * v * d) + m * (d * d);
  }
}
