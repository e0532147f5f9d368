/**
  The factorization machine: logits, the Adam step that updates the parameters
  in place, and chunked prediction.  Arithmetic is over the reals; the sigmoid
  and the square root are parameters.
 */
module FactorizationMachine {
  import opened Sums
  import opened Interaction

  // ---- the model as a function of its parameters ---------------------------

  /** `W[X].sum(1)` for one row. */
  function WeightSum(W: seq<real>, x: seq<nat>): real
    requires ValidIds(x, |W|)
  {
    if x == [] then 0.0 else W[x[0]] + WeightSum(W, x[1..])
  }

  function Logit(V: seq<Vec>, W: seq<real>, b: real, x: seq<nat>, k: nat): real
    requires ValidIds(x, |V|) && |W| == |V|
  {
    b + WeightSum(W, x) + FastInteraction(Pick(V, x), k)
  }

  ghost predicate ValidRows(X: seq<seq<nat>>, dim: nat)
  {
    forall r :: 0 <= r < |X| ==> ValidIds(X[r], dim)
  }

  function Logits(V: seq<Vec>, W: seq<real>, b: real, X: seq<seq<nat>>, k: nat): (z: seq<real>)
    requires ValidRows(X, |V|) && |W| == |V|
    ensures |z| == |X| && forall r :: 0 <= r < |X| ==> z[r] == Logit(V, W, b, X[r], k)
  {
    seq(|X|, r requires 0 <= r < |X| => Logit(V, W, b, X[r], k))
  }

  /** The logit is the bias, the weights and the dot products of all pairs of fields. */
  lemma LogitIsPairwise(V: seq<Vec>, W: seq<real>, b: real, x: seq<nat>, k: nat)
    requires ValidIds(x, |V|) && |W| == |V|
    ensures Logit(V, W, b, x, k) == b + WeightSum(W, x) + PairwiseInteraction(Pick(V, x), k)
  {
    FastIsPairwise(Pick(V, x), k);
  }

  // ---- the gradient ---------------------------------------------------------

  /** What field `p` of a row with residual `g` adds to its embedding's coordinate f. */
  function Share(E: seq<Vec>, g: real, p: nat, f: nat): real
    requires p < |E|
  {
    g * (ColumnSum(E, f) - At(E[p], f))
  }

  /** What a row with residual `g` scatters into entry (id, f) from its first `p` fields. */
  function Scattered(E: seq<Vec>, x: seq<nat>, g: real, p: nat, id: nat, f: nat): real
    requires |E| == |x| && p <= |x|
  {
    if p == 0 then 0.0
    else Scattered(E, x, g, p - 1, id, f) + (if x[p - 1] == id then Share(E, g, p - 1, f) else 0.0)
  }

  /** Entry (id, f) of `gV` after the first `n` rows. */
  function GradV(V: seq<Vec>, X: seq<seq<nat>>, g: seq<real>, n: nat, id: nat, f: nat): real
    requires ValidRows(X, |V|) && n <= |X| && |g| == |X|
  {
    if n == 0 then 0.0
    else GradV(V, X, g, n - 1, id, f) + Scattered(Pick(V, X[n - 1]), X[n - 1], g[n - 1], |X[n - 1]|, id, f)
  }

  function ScatteredWeight(x: seq<nat>, g: real, p: nat, id: nat): real
    requires p <= |x|
  {
    if p == 0 then 0.0 else ScatteredWeight(x, g, p - 1, id) + (if x[p - 1] == id then g else 0.0)
  }

  /** Entry id of `gW` after the first `n` rows. */
  function GradW(X: seq<seq<nat>>, g: seq<real>, n: nat, id: nat): real
    requires n <= |X| && |g| == |X|
  {
    if n == 0 then 0.0
    else GradW(X, g, n - 1, id) + ScatteredWeight(X[n - 1], g[n - 1], |X[n - 1]|, id)
  }

  /** The residual-weighted change of the logits when entry (id, f) of V grows by `d`. */
  function LossChange(V: seq<Vec>, W: seq<real>, b: real, X: seq<seq<nat>>, g: seq<real>, n: nat,
      id: nat, f: nat, d: real, k: nat): real
    requires ValidRows(X, |V|) && |W| == |V| && n <= |X| && |g| == |X|
    requires id < |V| && f < |V[id]|
  {
    if n == 0 then 0.0
    else
      LossChange(V, W, b, X, g, n - 1, id, f, d, k)
      + g[n - 1] * (Logit(Nudge(V, id, f, d), W, b, X[n - 1], k) - Logit(V, W, b, X[n - 1], k))
  }

  /** The second-order remainder that rows with a repeated id leave. */
  function Curvature(X: seq<seq<nat>>, g: seq<real>, n: nat, id: nat, d: real): real
    requires n <= |X| && |g| == |X|
  {
    if n == 0 then 0.0
    else Curvature(X, g, n - 1, id, d) + g[n - 1] * SharedPairs(Uses(X[n - 1], id), d)
  }

  /** As `Scattered`, with the column sum given. */
  function ScatteredRest(E: seq<Vec>, x: seq<nat>, g: real, p: nat, id: nat, f: nat, total: real): real
    requires |E| == |x| && p <= |x|
  {
    if p == 0 then 0.0
    else ScatteredRest(E, x, g, p - 1, id, f, total) + (if x[p - 1] == id then g * (total - At(E[p - 1], f)) else 0.0)
  }

  lemma {:induction false} RestFromFront(E: seq<Vec>, x: seq<nat>, g: real, p: nat, id: nat, f: nat, total: real)
    requires |E| == |x| && 0 < p <= |x|
    ensures ScatteredRest(E, x, g, p, id, f, total)
         == (if x[0] == id then g * (total - At(E[0], f)) else 0.0)
            + ScatteredRest(E[1..], x[1..], g, p - 1, id, f, total)
  {
    if p > 1 {
      RestFromFront(E, x, g, p - 1, id, f, total);
    }
  }

  lemma {:induction false} RestIsSlope(E: seq<Vec>, x: seq<nat>, g: real, id: nat, f: nat, total: real)
    requires |E| == |x|
    ensures ScatteredRest(E, x, g, |x|, id, f, total) == g * Slope(E, x, id, f, total)
  {
    if x != [] {
      hide ScatteredRest, At, Slope;
      var own := if x[0] == id then total - At(E[0], f) else 0.0;
      var rest := Slope(E[1..], x[1..], id, f, total);
      RestFromFront(E, x, g, |x|, id, f, total);
      RestIsSlope(E[1..], x[1..], g, id, f, total);
      SlopeFromFront(E, x, id, f, total);
      Distribute(g, own, rest);
      TimesChoice(g, x[0] == id, total - At(E[0], f));
    } else {
      SlopeOfNothing(E, id, f, total);
    }
  }

  lemma SlopeFromFront(E: seq<Vec>, x: seq<nat>, id: nat, f: nat, total: real)
    requires |E| == |x| && x != []
    ensures Slope(E, x, id, f, total) ==
      (if x[0] == id then total - At(E[0], f) else 0.0) + Slope(E[1..], x[1..], id, f, total)
  {
    hide At;
  }

  lemma SlopeOfNothing(E: seq<Vec>, id: nat, f: nat, total: real)
    requires E == []
    ensures Slope(E, [], id, f, total) == 0.0
  {}

  lemma TimesChoice(g: real, c: bool, a: real)
    ensures g * (if c then a else 0.0) == if c then g * a else 0.0
  {}

  lemma Distribute(g: real, a: real, b: real)
    ensures g * (a + b) == g * a + g * b
  {}

  lemma {:induction false} ScatteredIsRest(E: seq<Vec>, x: seq<nat>, g: real, p: nat, id: nat, f: nat)
    requires |E| == |x| && p <= |x|
    ensures Scattered(E, x, g, p, id, f) == ScatteredRest(E, x, g, p, id, f, ColumnSum(E, f))
  {
    if p > 0 {
      ScatteredIsRest(E, x, g, p - 1, id, f);
    }
  }

  /** One row: the weighted change of its logit is d times what it scatters, plus the remainder. */
  lemma RowGradient(V: seq<Vec>, W: seq<real>, b: real, x: seq<nat>, g: real, id: nat, f: nat, d: real, k: nat)
    requires IsTable(V, k) && ValidIds(x, |V|) && |W| == |V| && id < |V| && f < k
    ensures g * (Logit(Nudge(V, id, f, d), W, b, x, k) - Logit(V, W, b, x, k))
         == d * Scattered(Pick(V, x), x, g, |x|, id, f) + g * SharedPairs(Uses(x, id), d)
  {
    hide Nudge, FastInteraction, Slope, SharedPairs, Scattered, ScatteredRest, WeightSum, Pick, ColumnSum;
    var E := Pick(V, x);
    var slope := Slope(E, x, id, f, ColumnSum(E, f));
    var change := Logit(Nudge(V, id, f, d), W, b, x, k) - Logit(V, W, b, x, k);
    NudgedInteraction(V, x, id, f, d, k);
    ScatteredIsRest(E, x, g, |x|, id, f);
    RestIsSlope(E, x, g, id, f, ColumnSum(E, f));
    Regroup(g, d, slope, SharedPairs(Uses(x, id), d), change, Scattered(E, x, g, |x|, id, f));
  }

  lemma Regroup(g: real, d: real, slope: real, shared: real, change: real, scattered: real)
    requires change == d * slope + shared && scattered == g * slope
    ensures g * change == d * scattered + g * shared
  {
    assert g * (d * slope + shared) == d * (g * slope) + g * shared;
  }

  /** `gV` is the exact slope of the residual-weighted logits, for every batch and every step d. */
  lemma {:induction false} GradientOfBatch(V: seq<Vec>, W: seq<real>, b: real, X: seq<seq<nat>>, g: seq<real>, n: nat,
      id: nat, f: nat, d: real, k: nat)
    requires IsTable(V, k) && ValidRows(X, |V|) && |W| == |V| && n <= |X| && |g| == |X|
    requires id < |V| && f < k
    ensures LossChange(V, W, b, X, g, n, id, f, d, k) == d * GradV(V, X, g, n, id, f) + Curvature(X, g, n, id, d)
  {
    hide Logit, Scattered, SharedPairs, Nudge;
    if n > 0 {
      GradientOfBatch(V, W, b, X, g, n - 1, id, f, d, k);
      RowGradient(V, W, b, X[n - 1], g[n - 1], id, f, d, k);
      Distribute(d, GradV(V, X, g, n - 1, id, f),
        Scattered(Pick(V, X[n - 1]), X[n - 1], g[n - 1], |X[n - 1]|, id, f));
    }
  }

  lemma {:induction false} NoCurvature(X: seq<seq<nat>>, g: seq<real>, n: nat, id: nat, d: real)
    requires n <= |X| && |g| == |X|
    requires forall r :: 0 <= r < |X| ==> Distinct(X[r])
    ensures Curvature(X, g, n, id, d) == 0.0
  {
    if n > 0 {
      NoCurvature(X, g, n - 1, id, d);
      DistinctUses(X[n - 1], id);
    }
  }

  /** When no row repeats an id, the weighted logits are linear in every entry of V, with slope `gV`. */
  lemma GradientIsExact(V: seq<Vec>, W: seq<real>, b: real, X: seq<seq<nat>>, g: seq<real>, id: nat, f: nat, d: real,
      k: nat)
    requires IsTable(V, k) && ValidRows(X, |V|) && |W| == |V| && |g| == |X|
    requires id < |V| && f < k
    requires forall r :: 0 <= r < |X| ==> Distinct(X[r])
    ensures LossChange(V, W, b, X, g, |X|, id, f, d, k) == d * GradV(V, X, g, |X|, id, f)
  {
    hide *;
    GradientOfBatch(V, W, b, X, g, |X|, id, f, d, k);
    NoCurvature(X, g, |X|, id, d);
  }

  /** A repeated id bends the logit: the slope alone is then not the change. */
  lemma RepeatedIdBends(v: real, d: real)
    requires d != 0.0
    ensures LossChange([[v]], [0.0], 0.0, [[0, 0]], [1.0], 1, 0, 0, d, 1) != d * GradV([[v]], [[0, 0]], [1.0], 1, 0, 0)
  {
    hide LossChange, GradV;
    assert Uses([0, 0], 0) == 2 by {
      assert [0, 0][1..] == [0];
    }
    GradientOfBatch([[v]], [0.0], 0.0, [[0, 0]], [1.0], 1, 0, 0, d, 1);
    assert SharedPairs(2, d) == d * d;
  }

  lemma {:induction false} NudgedWeights(W: seq<real>, x: seq<nat>, id: nat, d: real)
    requires ValidIds(x, |W|) && id < |W|
    ensures WeightSum(W[id := W[id] + d], x) == WeightSum(W, x) + Times(Uses(x, id), d)
  {
    if x != [] {
      NudgedWeights(W, x[1..], id, d);
    }
  }

  lemma {:induction false} ScatteredWeightIsMultiple(x: seq<nat>, g: real, p: nat, id: nat)
    requires p <= |x|
    ensures ScatteredWeight(x, g, p, id) == Times(Uses(x[..p], id), g)
  {
    if p > 0 {
      ScatteredWeightIsMultiple(x, g, p - 1, id);
      assert x[..p] == x[..p - 1] + [x[p - 1]];
      UsesSnoc(x[..p - 1], x[p - 1], id);
    }
  }

  lemma {:induction false} UsesSnoc(x: seq<nat>, last: nat, id: nat)
    ensures Uses(x + [last], id) == Uses(x, id) + (if last == id then 1 else 0)
  {
    if x != [] {
      UsesSnoc(x[1..], last, id);
      assert (x + [last])[1..] == x[1..] + [last];
    }
  }

  /** Raising weight `id` by `d` raises the weighted logit of a row by d times what it scatters into `gW`. */
  lemma WeightGradient(V: seq<Vec>, W: seq<real>, b: real, x: seq<nat>, g: real, id: nat, d: real, k: nat)
    requires ValidIds(x, |V|) && |W| == |V| && id < |W|
    ensures g * (Logit(V, W[id := W[id] + d], b, x, k) - Logit(V, W, b, x, k)) == d * ScatteredWeight(x, g, |x|, id)
  {
    hide FastInteraction, WeightSum, ScatteredWeight, Times;
    NudgedWeights(W, x, id, d);
    ScatteredWeightIsMultiple(x, g, |x|, id);
    assert x[..|x|] == x;
    TimesIsProduct(Uses(x, id), d);
    TimesIsProduct(Uses(x, id), g);
    var m := Uses(x, id) as real;
    assert g * (m * d) == d * (m * g);
  }

  /** Raising the bias by `d` raises every logit by `d`, and the all-zero model answers zero. */
  lemma BiasGradient(V: seq<Vec>, W: seq<real>, b: real, x: seq<nat>, d: real, k: nat)
    requires ValidIds(x, |V|) && |W| == |V|
    ensures Logit(V, W, b + d, x, k) == Logit(V, W, b, x, k) + d
  {
    hide FastInteraction, WeightSum;
  }

  /** The weights enter as a plain sum over the fields of the row. */
  lemma {:induction false} WeightSumOfFields(W: seq<real>, x: seq<nat>)
    requires ValidIds(x, |W|)
    ensures WeightSum(W, x) == SumBy(x, (id: nat) => if id < |W| then W[id] else 0.0)
  {
    if x != [] {
      WeightSumOfFields(W, x[1..]);
    }
  }
}
