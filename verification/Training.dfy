/**
  Training in place: the FM object, its Adam step as a function of the whole state,
  and chunked prediction.
 */
module Training {
  import opened Options
  import opened Sums
  import opened Interaction
  import opened FactorizationMachine
  import Auc
  import Ndcg
  import Evaluate

  /** The numbers held by a two-dimensional array, row by row. */
  function Table(A: array2<real>): (T: seq<Vec>)
    reads A
    ensures |T| == A.Length0 && IsTable(T, A.Length1)
    ensures forall i, f :: 0 <= i < A.Length0 && 0 <= f < A.Length1 ==> T[i][f] == A[i, f]
  {
    seq(A.Length0, i requires 0 <= i < A.Length0 reads A =>
      seq(A.Length1, f requires 0 <= f < A.Length1 reads A => A[i, f]))
  }

  // ---- Adam --------------------------------------------------------------

  const BETA1 := 0.9
  const BETA2 := 0.999
  const EPS := 0.00000001

  function Pow(b: real, t: nat): real
  {
    if t == 0 then 1.0 else b * Pow(b, t - 1)
  }

  lemma {:induction false} PowBelowOne(b: real, t: nat)
    requires 0.0 < b < 1.0 && t > 0
    ensures 0.0 < Pow(b, t) < 1.0
  {
    if t > 1 {
      PowBelowOne(b, t - 1);
    }
  }

  function FirstMoment(m: real, g: real): real
  {
    m * BETA1 + (1.0 - BETA1) * g
  }

  function SecondMoment(v: real, g: real): real
  {
    v * BETA2 + (1.0 - BETA2) * (g * g)
  }

  ghost predicate IsRoot(sqrt: real -> real)
  {
    forall x :: sqrt(x) >= 0.0
  }

  function Moved(p: real, m: real, v: real, t: nat, lr: real, sqrt: real -> real): real
    requires IsRoot(sqrt) && t > 0
  {
    PowBelowOne(BETA1, t);
    PowBelowOne(BETA2, t);
    p - lr * (m / (1.0 - Pow(BETA1, t))) / (sqrt(v / (1.0 - Pow(BETA2, t))) + EPS)
  }

  method AdamTable(P: array2<real>, G: array2<real>, M: array2<real>, S: array2<real>, t: nat, lr: real,
      sqrt: real -> real)
    requires IsRoot(sqrt) && t > 0
    requires P != G && P != M && P != S && G != M && G != S && M != S
    requires P.Length0 == G.Length0 == M.Length0 == S.Length0
    requires P.Length1 == G.Length1 == M.Length1 == S.Length1
    modifies P, M, S
    ensures forall i, f :: 0 <= i < P.Length0 && 0 <= f < P.Length1 ==>
      && M[i, f] == FirstMoment(old(M[i, f]), G[i, f])
      && S[i, f] == SecondMoment(old(S[i, f]), G[i, f])
      && P[i, f] == Moved(old(P[i, f]), M[i, f], S[i, f], t, lr, sqrt)
  {
    hide FirstMoment, SecondMoment, Moved;
    forall i, f | 0 <= i < P.Length0 && 0 <= f < P.Length1 {
      M[i, f] := FirstMoment(M[i, f], G[i, f]);
    }
    forall i, f | 0 <= i < P.Length0 && 0 <= f < P.Length1 {
      S[i, f] := SecondMoment(S[i, f], G[i, f]);
    }
    forall i, f | 0 <= i < P.Length0 && 0 <= f < P.Length1 {
      P[i, f] := Moved(P[i, f], M[i, f], S[i, f], t, lr, sqrt);
    }
  }

  method AdamVector(P: array<real>, G: array<real>, M: array<real>, S: array<real>, t: nat, lr: real,
      sqrt: real -> real)
    requires IsRoot(sqrt) && t > 0
    requires P != G && P != M && P != S && G != M && G != S && M != S
    requires P.Length == G.Length == M.Length == S.Length
    modifies P, M, S
    ensures forall i :: 0 <= i < P.Length ==>
      && M[i] == FirstMoment(old(M[i]), G[i])
      && S[i] == SecondMoment(old(S[i]), G[i])
      && P[i] == Moved(old(P[i]), M[i], S[i], t, lr, sqrt)
  {
    hide FirstMoment, SecondMoment, Moved;
    forall i | 0 <= i < P.Length {
      M[i] := FirstMoment(M[i], G[i]);
    }
    forall i | 0 <= i < P.Length {
      S[i] := SecondMoment(S[i], G[i]);
    }
    forall i | 0 <= i < P.Length {
      P[i] := Moved(P[i], M[i], S[i], t, lr, sqrt);
    }
  }

  // ---- gradients -----------------------------------------------------------

  /** `np.add.at`: every occurrence of an id adds its own share. */
  method ScatterTable(V: seq<Vec>, X: seq<seq<nat>>, g: seq<real>, k: nat) returns (gV: array2<real>)
    requires IsTable(V, k) && ValidRows(X, |V|) && |g| == |X|
    ensures fresh(gV) && gV.Length0 == |V| && gV.Length1 == k
    ensures forall i, f :: 0 <= i < |V| && 0 <= f < k ==> gV[i, f] == GradV(V, X, g, |X|, i, f)
  {
    hide Share;
    gV := new real[|V|, k]((_, _) => 0.0);
    for n := 0 to |X|
      invariant forall i, f :: 0 <= i < |V| && 0 <= f < k ==> gV[i, f] == GradV(V, X, g, n, i, f)
    {
      var x, E := X[n], Pick(V, X[n]);
      for p := 0 to |x|
        invariant forall i, f :: 0 <= i < |V| && 0 <= f < k ==>
          gV[i, f] == GradV(V, X, g, n, i, f) + Scattered(E, x, g[n], p, i, f)
      {
        forall f | 0 <= f < k {
          gV[x[p], f] := gV[x[p], f] + Share(E, g[n], p, f);
        }
      }
    }
  }

  method ScatterVector(dim: nat, X: seq<seq<nat>>, g: seq<real>) returns (gW: array<real>)
    requires ValidRows(X, dim) && |g| == |X|
    ensures fresh(gW) && gW.Length == dim
    ensures forall i :: 0 <= i < dim ==> gW[i] == GradW(X, g, |X|, i)
  {
    gW := new real[dim](_ => 0.0);
    for n := 0 to |X|
      invariant forall i :: 0 <= i < dim ==> gW[i] == GradW(X, g, n, i)
    {
      for p := 0 to |X[n]|
        invariant forall i :: 0 <= i < dim ==> gW[i] == GradW(X, g, n, i) + ScatteredWeight(X[n], g[n], p, i)
      {
        gW[X[n][p]] := gW[X[n][p]] + g[n];
      }
    }
  }

  /** `(sigmoid(z) - y) / B`. */
  function Residuals(z: seq<real>, y: seq<real>, sigmoid: real -> real): (g: seq<real>)
    requires |z| == |y| > 0
    ensures |g| == |z|
  {
    seq(|z|, r requires 0 <= r < |z| => (sigmoid(z[r]) - y[r]) / |y| as real)
  }

  function Total(g: seq<real>): real
  {
    SumBy(g, (r: real) => r)
  }

  // ---- the model object ------------------------------------------------------

  /** The parameters as values. */
  datatype Params = Params(V: seq<Vec>, W: seq<real>, b: real)

  ghost predicate IsParams(p: Params, dim: nat, k: nat)
  {
    |p.V| == |p.W| == dim && IsTable(p.V, k)
  }

  function Predictions(p: Params, X: seq<seq<nat>>, k: nat): seq<real>
    requires |p.V| == |p.W| && ValidRows(X, |p.V|)
  {
    Logits(p.V, p.W, p.b, X, k)
  }

  function BatchResiduals(p: Params, X: seq<seq<nat>>, y: seq<real>, sigmoid: real -> real, k: nat): (g: seq<real>)
    requires |p.V| == |p.W| && ValidRows(X, |p.V|) && |X| == |y| > 0
    ensures |g| == |X|
  {
    Residuals(Predictions(p, X, k), y, sigmoid)
  }

  function FullGradV(p: Params, X: seq<seq<nat>>, g: seq<real>, i: nat, f: nat, l2: real): real
    requires |g| == |X| && ValidRows(X, |p.V|) && i < |p.V| && f < |p.V[i]|
  {
    GradV(p.V, X, g, |X|, i, f) + l2 * p.V[i][f]
  }

  function FullGradW(p: Params, X: seq<seq<nat>>, g: seq<real>, i: nat, l2: real): real
    requires |g| == |X| && i < |p.W|
  {
    GradW(X, g, |X|, i) + l2 * p.W[i]
  }

  // ---- one step as a function of the whole state ---------------------------------

  /** What a step reads and writes: the parameters, both moments of each, and the step count. */
  datatype State = State(p: Params, mV: seq<Vec>, vV: seq<Vec>, mW: seq<real>, vW: seq<real>, t: nat)

  /** What a step depends on besides the state and the batch. */
  datatype Recipe = Recipe(k: nat, lr: real, l2: real, sigmoid: real -> real, sqrt: real -> real)

  ghost predicate IsState(s: State, dim: nat, k: nat)
  {
    && IsParams(s.p, dim, k)
    && |s.mV| == |s.vV| == |s.mW| == |s.vW| == dim && IsTable(s.mV, k) && IsTable(s.vV, k)
  }

  ghost predicate IsBatch(X: seq<seq<nat>>, y: seq<real>, dim: nat)
  {
    |X| == |y| > 0 && ValidRows(X, dim)
  }

  function CellGradient(s: State, X: seq<seq<nat>>, y: seq<real>, c: Recipe, i: nat, f: nat): real
    requires IsState(s, |s.p.V|, c.k) && IsBatch(X, y, |s.p.V|) && i < |s.p.V| && f < c.k
  {
    FullGradV(s.p, X, BatchResiduals(s.p, X, y, c.sigmoid, c.k), i, f, c.l2)
  }

  function WeightGradientAt(s: State, X: seq<seq<nat>>, y: seq<real>, c: Recipe, i: nat): real
    requires IsState(s, |s.p.V|, c.k) && IsBatch(X, y, |s.p.V|) && i < |s.p.V|
  {
    FullGradW(s.p, X, BatchResiduals(s.p, X, y, c.sigmoid, c.k), i, c.l2)
  }

  /** `n` is the state after one Adam step from `s`: every number of it is given by the old state and the batch. */
  ghost predicate Steps(s: State, n: State, X: seq<seq<nat>>, y: seq<real>, c: Recipe)
    requires IsState(s, |s.p.V|, c.k) && IsBatch(X, y, |s.p.V|) && IsRoot(c.sqrt)
  {
    && IsState(n, |s.p.V|, c.k) && n.t == s.t + 1
    && n.p.b == s.p.b - c.lr * Total(BatchResiduals(s.p, X, y, c.sigmoid, c.k))
    && (forall i, f :: 0 <= i < |s.p.V| && 0 <= f < c.k ==>
          && n.mV[i][f] == FirstMoment(s.mV[i][f], CellGradient(s, X, y, c, i, f))
          && n.vV[i][f] == SecondMoment(s.vV[i][f], CellGradient(s, X, y, c, i, f))
          && n.p.V[i][f] == Moved(s.p.V[i][f], n.mV[i][f], n.vV[i][f], n.t, c.lr, c.sqrt))
    && (forall i :: 0 <= i < |s.p.V| ==>
          && n.mW[i] == FirstMoment(s.mW[i], WeightGradientAt(s, X, y, c, i))
          && n.vW[i] == SecondMoment(s.vW[i], WeightGradientAt(s, X, y, c, i))
          && n.p.W[i] == Moved(s.p.W[i], n.mW[i], n.vW[i], n.t, c.lr, c.sqrt))
  }

  function FirstMoments(s: State, X: seq<seq<nat>>, y: seq<real>, c: Recipe): (T: seq<Vec>)
    requires IsState(s, |s.p.V|, c.k) && IsBatch(X, y, |s.p.V|)
    ensures |T| == |s.p.V| && IsTable(T, c.k)
    ensures forall i, f :: 0 <= i < |T| && 0 <= f < c.k ==>
      T[i][f] == FirstMoment(s.mV[i][f], CellGradient(s, X, y, c, i, f))
  {
    hide CellGradient, FirstMoment;
    seq(|s.p.V|, i requires 0 <= i < |s.p.V| =>
      seq(c.k, f requires 0 <= f < c.k => FirstMoment(s.mV[i][f], CellGradient(s, X, y, c, i, f))))
  }

  function SecondMoments(s: State, X: seq<seq<nat>>, y: seq<real>, c: Recipe): (T: seq<Vec>)
    requires IsState(s, |s.p.V|, c.k) && IsBatch(X, y, |s.p.V|)
    ensures |T| == |s.p.V| && IsTable(T, c.k)
    ensures forall i, f :: 0 <= i < |T| && 0 <= f < c.k ==>
      T[i][f] == SecondMoment(s.vV[i][f], CellGradient(s, X, y, c, i, f))
  {
    hide CellGradient, SecondMoment;
    seq(|s.p.V|, i requires 0 <= i < |s.p.V| =>
      seq(c.k, f requires 0 <= f < c.k => SecondMoment(s.vV[i][f], CellGradient(s, X, y, c, i, f))))
  }

  function MovedTable(P: seq<Vec>, M: seq<Vec>, S: seq<Vec>, t: nat, c: Recipe): (T: seq<Vec>)
    requires |P| == |M| == |S| && IsTable(P, c.k) && IsTable(M, c.k) && IsTable(S, c.k) && IsRoot(c.sqrt) && t > 0
    ensures |T| == |P| && IsTable(T, c.k)
    ensures forall i, f :: 0 <= i < |T| && 0 <= f < c.k ==> T[i][f] == Moved(P[i][f], M[i][f], S[i][f], t, c.lr, c.sqrt)
  {
    hide Moved;
    seq(|P|, i requires 0 <= i < |P| =>
      seq(c.k, f requires 0 <= f < c.k => Moved(P[i][f], M[i][f], S[i][f], t, c.lr, c.sqrt)))
  }

  /** The new weights with their moments. */
  function MovedWeights(s: State, X: seq<seq<nat>>, y: seq<real>, c: Recipe): (r: (seq<real>, seq<real>, seq<real>))
    requires IsState(s, |s.p.V|, c.k) && IsBatch(X, y, |s.p.V|) && IsRoot(c.sqrt)
    ensures |r.0| == |r.1| == |r.2| == |s.p.V|
    ensures forall i :: 0 <= i < |s.p.V| ==>
      && r.1[i] == FirstMoment(s.mW[i], WeightGradientAt(s, X, y, c, i))
      && r.2[i] == SecondMoment(s.vW[i], WeightGradientAt(s, X, y, c, i))
      && r.0[i] == Moved(s.p.W[i], r.1[i], r.2[i], s.t + 1, c.lr, c.sqrt)
  {
    hide WeightGradientAt, FirstMoment, SecondMoment, Moved;
    var dim := |s.p.V|;
    var M := seq(dim, i requires 0 <= i < dim => FirstMoment(s.mW[i], WeightGradientAt(s, X, y, c, i)));
    var S := seq(dim, i requires 0 <= i < dim => SecondMoment(s.vW[i], WeightGradientAt(s, X, y, c, i)));
    (seq(dim, i requires 0 <= i < dim => Moved(s.p.W[i], M[i], S[i], s.t + 1, c.lr, c.sqrt)), M, S)
  }

  /** The state after one step, built number by number. */
  function StepState(s: State, X: seq<seq<nat>>, y: seq<real>, c: Recipe): (n: State)
    requires IsState(s, |s.p.V|, c.k) && IsBatch(X, y, |s.p.V|) && IsRoot(c.sqrt)
    ensures Steps(s, n, X, y, c)
  {
    hide FirstMoments, SecondMoments, MovedTable, MovedWeights;
    hide FirstMoment, SecondMoment, Moved, CellGradient, WeightGradientAt, BatchResiduals, Total;
    var M, S, w := FirstMoments(s, X, y, c), SecondMoments(s, X, y, c), MovedWeights(s, X, y, c);
    var b := s.p.b - c.lr * Total(BatchResiduals(s.p, X, y, c.sigmoid, c.k));
    State(Params(MovedTable(s.p.V, M, S, s.t + 1, c), w.0, b), M, S, w.1, w.2, s.t + 1)
  }

  /** The old state and the batch determine the new state completely. */
  lemma StepsAgree(s: State, n: State, m: State, X: seq<seq<nat>>, y: seq<real>, c: Recipe)
    requires IsState(s, |s.p.V|, c.k) && IsBatch(X, y, |s.p.V|) && IsRoot(c.sqrt)
    requires Steps(s, n, X, y, c) && Steps(s, m, X, y, c)
    ensures n == m
  {
    hide FirstMoment, SecondMoment, Moved, CellGradient, WeightGradientAt, BatchResiduals, Total;
    forall i | 0 <= i < |s.p.V| ensures n.mV[i] == m.mV[i] && n.vV[i] == m.vV[i] && n.p.V[i] == m.p.V[i] {
      assert forall f :: 0 <= f < c.k ==> n.mV[i][f] == m.mV[i][f] && n.vV[i][f] == m.vV[i][f];
      assert forall f :: 0 <= f < c.k ==> n.p.V[i][f] == m.p.V[i][f];
    }
    assert n.mW == m.mW && n.vW == m.vW && n.p.W == m.p.W;
  }

  // ---- what a step does to a number --------------------------------------------

  /** With a positive rate a number moves against its first moment, and stays exactly when that is zero. */
  lemma MovesAgainstMoment(p: real, m: real, v: real, t: nat, lr: real, sqrt: real -> real)
    requires IsRoot(sqrt) && t > 0 && lr > 0.0
    ensures m > 0.0 ==> Moved(p, m, v, t, lr, sqrt) < p
    ensures m < 0.0 ==> Moved(p, m, v, t, lr, sqrt) > p
    ensures m == 0.0 ==> Moved(p, m, v, t, lr, sqrt) == p
  {
    PowBelowOne(BETA1, t);
    PowBelowOne(BETA2, t);
    var scale, root := 1.0 - Pow(BETA1, t), sqrt(v / (1.0 - Pow(BETA2, t))) + EPS;
    hide Pow;
    SignOfQuotient(m, scale);
    SignOfProduct(lr, m / scale);
    SignOfQuotient(lr * (m / scale), root);
  }

  lemma SignOfQuotient(a: real, b: real)
    requires b > 0.0
    ensures (a > 0.0 <==> a / b > 0.0) && (a < 0.0 <==> a / b < 0.0)
  {
    var q := a / b;
    assert q * b == a;
  }

  lemma SignOfProduct(a: real, b: real)
    requires a > 0.0
    ensures (b > 0.0 <==> a * b > 0.0) && (b < 0.0 <==> a * b < 0.0)
  {}

  /** Both moments of a number after a sequence of gradients. */
  function MomentsOf(gs: seq<real>): (real, real)
  {
    if gs == [] then (0.0, 0.0)
    else
      var before, g := MomentsOf(gs[..|gs| - 1]), gs[|gs| - 1];
      (FirstMoment(before.0, g), SecondMoment(before.1, g))
  }

  /** The bias corrections are exact: under a steady gradient the corrected moments are it and its square. */
  lemma {:induction false} SteadyGradient(gs: seq<real>, g: real)
    requires gs != [] && forall i :: 0 <= i < |gs| ==> gs[i] == g
    ensures MomentsOf(gs).0 == (1.0 - Pow(0.9, |gs|)) * g
    ensures MomentsOf(gs).1 == (1.0 - Pow(0.999, |gs|)) * (g * g)
  {
    var n := |gs| - 1;
    if n > 0 {
      SteadyGradient(gs[..n], g);
    }
    SteadyStep(0.9, n, g);
    SteadyStep(0.999, n, g * g);
  }

  lemma SteadyStep(beta: real, n: nat, x: real)
    ensures Pow(beta, 0) == 1.0
    ensures (1.0 - Pow(beta, n)) * x * beta + (1.0 - beta) * x == (1.0 - Pow(beta, n + 1)) * x
  {
    var q := Pow(beta, n);
    assert Pow(beta, n + 1) == beta * q;
    assert (1.0 - q) * x * beta == x * beta - q * x * beta;
  }

  /** The moments are linear in what came before, and a new gradient enters with weight one tenth and one thousandth. */
  lemma MomentWeights(m: real, n: real, g: real, h: real)
    ensures FirstMoment(m, g) - FirstMoment(n, h) == 0.9 * (m - n) + 0.1 * (g - h)
    ensures SecondMoment(m, g) - SecondMoment(n, h) == 0.999 * (m - n) + 0.001 * (g * g - h * h)
    ensures FirstMoment(0.0, 0.0) == 0.0 == SecondMoment(0.0, 0.0)
  {}

  /** A step of the rate against the gradient, divided by its size. */
  function Normalized(p: real, g: real, lr: real, sqrt: real -> real): real
    requires IsRoot(sqrt)
  {
    p - lr * g / (sqrt(g * g) + 0.00000001)
  }

  /** From zero moments the first step is the gradient over its own size. */
  lemma FirstMove(p: real, g: real, lr: real, sqrt: real -> real)
    requires IsRoot(sqrt)
    ensures Moved(p, FirstMoment(0.0, g), SecondMoment(0.0, g), 1, lr, sqrt) == Normalized(p, g, lr, sqrt)
  {
    PowBelowOne(BETA1, 1);
    PowBelowOne(BETA2, 1);
    assert Pow(BETA1, 1) == BETA1 * Pow(BETA1, 0) == 0.9;
    assert Pow(BETA2, 1) == BETA2 * Pow(BETA2, 0) == 0.999;
    hide Pow;
    FirstCorrection(g);
    assert FirstMoment(0.0, g) / (1.0 - Pow(BETA1, 1)) == g;
    assert SecondMoment(0.0, g) / (1.0 - Pow(BETA2, 1)) == g * g;
  }

  lemma FirstCorrection(g: real)
    ensures FirstMoment(0.0, g) / 0.1 == g && SecondMoment(0.0, g) / 0.001 == g * g
  {
    Cancel(0.1, g);
    Cancel(0.001, g * g);
    assert FirstMoment(0.0, g) == 0.1 * g && SecondMoment(0.0, g) == 0.001 * (g * g);
  }

  lemma Cancel(a: real, x: real)
    requires a != 0.0
    ensures a * x / a == x
  {}

  /** The first step of a new model, entry by entry. */
  lemma FirstStep(s: State, X: seq<seq<nat>>, y: seq<real>, c: Recipe, i: nat, f: nat)
    requires IsState(s, |s.p.V|, c.k) && IsBatch(X, y, |s.p.V|) && IsRoot(c.sqrt) && i < |s.p.V| && f < c.k && s.t == 0
    requires s.mV[i][f] == s.vV[i][f] == s.mW[i] == s.vW[i] == 0.0
    ensures var n := StepState(s, X, y, c);
      && n.p.V[i][f] == Normalized(s.p.V[i][f], CellGradient(s, X, y, c, i, f), c.lr, c.sqrt)
      && n.p.W[i] == Normalized(s.p.W[i], WeightGradientAt(s, X, y, c, i), c.lr, c.sqrt)
  {
    hide FirstMoment, SecondMoment, Moved, CellGradient, WeightGradientAt, BatchResiduals, StepState, Steps, Total,
         Normalized;
    StepsAt(s, StepState(s, X, y, c), X, y, c, i, f);
    FirstMove(s.p.V[i][f], CellGradient(s, X, y, c, i, f), c.lr, c.sqrt);
    FirstMove(s.p.W[i], WeightGradientAt(s, X, y, c, i), c.lr, c.sqrt);
  }

  /** The bias takes a plain step against the sum of the residuals. */
  lemma BiasStep(s: State, X: seq<seq<nat>>, y: seq<real>, c: Recipe)
    requires IsState(s, |s.p.V|, c.k) && IsBatch(X, y, |s.p.V|) && IsRoot(c.sqrt)
    ensures StepState(s, X, y, c).p.b
      == s.p.b - c.lr * SumBy(BatchResiduals(s.p, X, y, c.sigmoid, c.k), (r: real) => r)
  {
    hide BatchResiduals, StepState;
    var g := BatchResiduals(s.p, X, y, c.sigmoid, c.k);
    assert Total(g) == SumBy(g, (r: real) => r);
    hide Total;
  }

  lemma StepsAt(s: State, n: State, X: seq<seq<nat>>, y: seq<real>, c: Recipe, i: nat, f: nat)
    requires IsState(s, |s.p.V|, c.k) && IsBatch(X, y, |s.p.V|) && IsRoot(c.sqrt) && i < |s.p.V| && f < c.k
    requires Steps(s, n, X, y, c)
    ensures IsState(n, |s.p.V|, c.k) && n.t == s.t + 1
    ensures n.p.b == s.p.b - c.lr * Total(BatchResiduals(s.p, X, y, c.sigmoid, c.k))
    ensures var G := CellGradient(s, X, y, c, i, f);
      n.p.V[i][f] == Moved(s.p.V[i][f], FirstMoment(s.mV[i][f], G), SecondMoment(s.vV[i][f], G), n.t, c.lr, c.sqrt)
    ensures var G := WeightGradientAt(s, X, y, c, i);
      n.p.W[i] == Moved(s.p.W[i], FirstMoment(s.mW[i], G), SecondMoment(s.vW[i], G), n.t, c.lr, c.sqrt)
  {
    hide FirstMoment, SecondMoment, Moved, BatchResiduals, CellGradient, WeightGradientAt, Total;
  }

  /** A residual is positive when the prediction is above the label, and |y| of them make up the difference. */
  lemma ResidualSign(p: Params, X: seq<seq<nat>>, y: seq<real>, sigmoid: real -> real, k: nat, r: nat)
    requires |p.V| == |p.W| && ValidRows(X, |p.V|) && |X| == |y| > 0 && r < |y|
    ensures var g, q := BatchResiduals(p, X, y, sigmoid, k)[r], sigmoid(Logit(p.V, p.W, p.b, X[r], k));
      g * |y| as real == q - y[r] && (g > 0.0 <==> q > y[r]) && (g < 0.0 <==> q < y[r])
  {
    hide Logit;
    SignOfQuotient(sigmoid(Logit(p.V, p.W, p.b, X[r], k)) - y[r], |y| as real);
  }

  /** What a step descends: the residual-weighted logits and half the squared size of the parameters. */
  lemma FullGradientIsSlope(p: Params, X: seq<seq<nat>>, g: seq<real>, i: nat, f: nat, l2: real, d: real, k: nat)
    requires IsParams(p, |p.V|, k) && |g| == |X| && ValidRows(X, |p.V|) && i < |p.V| && f < k
    requires forall r :: 0 <= r < |X| ==> Distinct(X[r])
    ensures var v := p.V[i][f];
      LossChange(p.V, p.W, p.b, X, g, |X|, i, f, d, k) + l2 / 2.0 * ((v + d) * (v + d) - v * v)
      == d * FullGradV(p, X, g, i, f, l2) + l2 / 2.0 * (d * d)
  {
    hide LossChange, GradV;
    GradientIsExact(p.V, p.W, p.b, X, g, i, f, d, k);
    SquareSlope(GradV(p.V, X, g, |X|, i, f), p.V[i][f], d, l2);
  }

  /** The same for a weight of the linear part, one row. */
  lemma FullWeightIsSlope(p: Params, x: seq<nat>, g: real, i: nat, l2: real, d: real, k: nat)
    requires IsParams(p, |p.V|, k) && ValidIds(x, |p.V|) && i < |p.W|
    ensures var v := p.W[i];
      g * (Logit(p.V, p.W[i := v + d], p.b, x, k) - Logit(p.V, p.W, p.b, x, k)) + l2 / 2.0 * ((v + d) * (v + d) - v * v)
      == d * FullGradW(p, [x], [g], i, l2) + l2 / 2.0 * (d * d)
  {
    hide Logit, ScatteredWeight;
    WeightGradient(p.V, p.W, p.b, x, g, i, d, k);
    assert GradW([x], [g], 1, i) == GradW([x], [g], 0, i) + ScatteredWeight(x, g, |x|, i);
    SquareSlope(GradW([x], [g], 1, i), p.W[i], d, l2);
  }

  lemma SquareSlope(G: real, v: real, d: real, l2: real)
    ensures d * G + l2 / 2.0 * ((v + d) * (v + d) - v * v) == d * (G + l2 * v) + l2 / 2.0 * (d * d)
  {
    assert (v + d) * (v + d) - v * v == 2.0 * v * d + d * d;
    assert l2 / 2.0 * (2.0 * v * d + d * d) == l2 * v * d + l2 / 2.0 * (d * d);
  }

  class FM {
    var V: array2<real>
    var W: array<real>
    var b: real
    var mV: array2<real>
    var vV: array2<real>
    var mW: array<real>
    var vW: array<real>
    var t: nat
    const lr: real
    const l2: real

    ghost predicate Valid()
      reads this
    {
      && V.Length0 == mV.Length0 == vV.Length0 == W.Length == mW.Length == vW.Length
      && V.Length1 == mV.Length1 == vV.Length1
      && V != mV && V != vV && mV != vV
      && W != mW && W != vW && mW != vW
    }

    ghost function Arrays(): set<object>
      reads this
    {
      {V, W, mV, vV, mW, vW}
    }

    function Snapshot(): (p: Params)
      reads this, V, W
      ensures |p.V| == V.Length0 && |p.W| == W.Length && IsTable(p.V, V.Length1)
    {
      Params(Table(V), W[..], b)
    }

    ghost function Contents(): (s: State)
      requires Valid()
      reads this, V, W, mV, vV, mW, vW
      ensures IsState(s, V.Length0, V.Length1) && s.p == Snapshot() && s.t == t
    {
      State(Snapshot(), Table(mV), Table(vV), mW[..], vW[..], t)
    }

    /** The hyperparameters of a step, together with the two numeric functions. */
    ghost function RecipeWith(sigmoid: real -> real, sqrt: real -> real): Recipe
      reads this
    {
      Recipe(V.Length1, lr, l2, sigmoid, sqrt)
    }

    /** `V0` stands for the random start; everything else starts at zero. */
    constructor (V0: seq<Vec>, k: nat, lr: real, l2: real)
      requires IsTable(V0, k)
      ensures Valid() && fresh(Arrays()) && V.Length0 == |V0| && V.Length1 == k
      ensures Snapshot() == Params(V0, seq(|V0|, _ => 0.0), 0.0)
      ensures this.lr == lr && this.l2 == l2 && t == 0
    {
      V := new real[|V0|, k]((i, f) requires 0 <= i < |V0| && 0 <= f < k => V0[i][f]);
      W := new real[|V0|](_ => 0.0);
      b := 0.0;
      mV := new real[|V0|, k]((_, _) => 0.0);
      vV := new real[|V0|, k]((_, _) => 0.0);
      mW := new real[|V0|](_ => 0.0);
      vW := new real[|V0|](_ => 0.0);
      t := 0;
      this.lr, this.l2 := lr, l2;
      new;
      forall i | 0 <= i < |V0| ensures Table(V)[i] == V0[i] {}
      assert W[..] == seq(|V0|, _ => 0.0);
    }

    /** Both gradients with their L2 terms, in arrays of their own. */
    method Gradients(p: Params, X: seq<seq<nat>>, g: seq<real>) returns (gV: array2<real>, gW: array<real>)
      requires Valid() && p == Snapshot()
      requires |X| == |g| && ValidRows(X, V.Length0)
      ensures fresh(gV) && gV.Length0 == V.Length0 && gV.Length1 == V.Length1
      ensures fresh(gW) && gW.Length == W.Length
      ensures forall i, f :: 0 <= i < V.Length0 && 0 <= f < V.Length1 ==> gV[i, f] == FullGradV(p, X, g, i, f, l2)
      ensures forall i :: 0 <= i < W.Length ==> gW[i] == FullGradW(p, X, g, i, l2)
    {
      hide GradV, GradW;
      gV := ScatterTable(p.V, X, g, V.Length1);
      gW := ScatterVector(W.Length, X, g);
      forall i, f | 0 <= i < V.Length0 && 0 <= f < V.Length1 {
        gV[i, f] := gV[i, f] + l2 * V[i, f];
      }
      forall i | 0 <= i < W.Length {
        gW[i] := gW[i] + l2 * W[i];
      }
    }

    /** One Adam step on a batch, overwriting the parameters and the moments. */
    method Step(X: seq<seq<nat>>, y: seq<real>, sigmoid: real -> real, sqrt: real -> real)
      requires Valid() && IsRoot(sqrt) && IsBatch(X, y, V.Length0)
      modifies this`b, this`t, V, W, mV, vV, mW, vW
      ensures Valid() && Contents() == StepState(old(Contents()), X, y, RecipeWith(sigmoid, sqrt))
    {
      hide FirstMoment, SecondMoment, Moved, FullGradV, FullGradW, BatchResiduals, Total, Table;
      ghost var s, c := Contents(), RecipeWith(sigmoid, sqrt);
      var now := Snapshot();
      var g := BatchResiduals(now, X, y, sigmoid, V.Length1);
      var gV, gW := Gradients(now, X, g);
      t := t + 1;
      AdamTable(V, gV, mV, vV, t, lr, sqrt);
      AdamVector(W, gW, mW, vW, t, lr, sqrt);
      b := b - lr * Total(g);
      StepsAgree(s, Contents(), StepState(s, X, y, c), X, y, c);
    }

    /** Prediction in chunks of `bs` rows; concatenating no chunks at all raises. */
    method Predict(X: seq<seq<nat>>, bs: nat) returns (r: Option<seq<real>>)
      requires Valid() && ValidRows(X, V.Length0) && bs > 0
      ensures r == if X == [] then None else Some(Predictions(Snapshot(), X, V.Length1))
    {
      hide Logit;
      if X == [] {
        return None;
      }
      var p := Snapshot();
      var z: seq<real> := [];
      var i := 0;
      while i < |X|
        invariant 0 <= i
        invariant z == Predictions(p, X, V.Length1)[..Ndcg.Min(i, |X|)]
      {
        var stop := Ndcg.Min(i + bs, |X|);
        z := z + Logits(p.V, p.W, p.b, X[i..stop], V.Length1);
        i := i + bs;
      }
      assert Predictions(p, X, V.Length1)[..|X|] == Predictions(p, X, V.Length1);
      return Some(z);
    }
  }
}
