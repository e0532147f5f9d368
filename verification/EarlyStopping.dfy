/**
  `run_fm`: train epoch by epoch in place, watch the primary metric on the
  validation split, and in the end put back the snapshot of the best epoch.
 */
module EarlyStopping {
  import opened Options
  import opened Interaction
  import opened FactorizationMachine
  import opened Training
  import opened Ndcg
  import opened Evaluate

  /** One encoded split: rows of ids, 0/1 labels, users. */
  datatype Split = Split(X: seq<seq<nat>>, y: seq<int>, users: seq<string>)

  ghost predicate ValidSplit(s: Split, dim: nat)
  {
    && |s.X| == |s.y| == |s.users|
    && ValidRows(s.X, dim)
    && forall i :: 0 <= i < |s.y| ==> s.y[i] == 0 || s.y[i] == 1
  }

  const K := 5

  /** The official metrics of the given parameters on a split. */
  function MetricsOf(p: Params, s: Split, k: nat, disc: nat -> real): Metrics
    requires |p.V| == |p.W| && ValidSplit(s, |p.V|) && IsDiscount(disc)
  {
    EvaluateSpec(ZipImpressions(s.users, s.y, Predictions(p, s.X, k)), |s.y|, K, disc)
  }

  lemma MetricsOfValid(p: Params, s: Split, k: nat, disc: nat -> real)
    requires |p.V| == |p.W| && ValidSplit(s, |p.V|) && IsDiscount(disc)
    ensures BinaryImpressions(ZipImpressions(s.users, s.y, Predictions(p, s.X, k)))
    ensures ValidMetrics(MetricsOf(p, s, k, disc))
  {
    EvaluateIsValid(ZipImpressions(s.users, s.y, Predictions(p, s.X, k)), |s.y|, K, disc);
  }

  /** The official cut-off is five. */
  lemma MetricsAtFive(p: Params, s: Split, k: nat, disc: nat -> real)
    requires |p.V| == |p.W| && ValidSplit(s, |p.V|) && IsDiscount(disc)
    ensures MetricsOf(p, s, k, disc)
      == EvaluateSpec(ZipImpressions(s.users, s.y, Logits(p.V, p.W, p.b, s.X, k)), |s.y|, 5, disc)
  {}

  // ---- the watch on the metric ------------------------------------------------

  const SLACK := 0.00001

  /** The best score, the epoch (from 0) it was seen at, and the epochs since. */
  datatype Watch = Watch(best: real, at: int, bad: nat)

  const START := Watch(-1.0, -1, 0)

  predicate Improves(w: Watch, score: real)
  {
    score > w.best + SLACK
  }

  function Observe(w: Watch, epoch: nat, score: real): Watch
  {
    if Improves(w, score) then Watch(score, epoch, 0) else w.(bad := w.bad + 1)
  }

  function WatchAll(scores: seq<real>): Watch
  {
    if scores == [] then START
    else
      var n := |scores| - 1;
      Observe(WatchAll(scores[..n]), n, scores[n])
  }

  /** Training stops here: an epoch just failed to improve, and `patience` have in a row. */
  predicate Exhausted(w: Watch, patience: int)
  {
    w.bad > 0 && w.bad >= patience
  }

  /**
    The recorded epoch holds the recorded score; that score beats every earlier
    epoch and no epoch beats it by more than the slack.
   */
  lemma {:induction false} WatchedBest(scores: seq<real>)
    requires scores != [] && forall j :: 0 <= j < |scores| ==> scores[j] >= 0.0
    ensures var w := WatchAll(scores);
      && 0 <= w.at < |scores|
      && w.best == scores[w.at]
      && w.bad == |scores| - 1 - w.at
      && (forall j :: 0 <= j < w.at ==> scores[j] < w.best)
      && (forall j :: 0 <= j < |scores| ==> scores[j] <= w.best + 0.00001)
  {
    var n := |scores| - 1;
    var front := scores[..n];
    assert forall j :: 0 <= j < n ==> scores[j] == front[j];
    if front != [] {
      WatchedBest(front);
    }
  }

  /** The best score never falls as more epochs are watched. */
  lemma {:induction false} WatchedMonotone(scores: seq<real>, n: nat)
    requires n <= |scores|
    ensures WatchAll(scores[..n]).best <= WatchAll(scores).best
  {
    if n < |scores| {
      var front := scores[..|scores| - 1];
      assert front[..n] == scores[..n];
      WatchedMonotone(front, n);
    } else {
      assert scores[..n] == scores;
    }
  }

  /** No epoch but possibly the last one told training to stop. */
  ghost predicate OnlyLastStops(scores: seq<real>, patience: int)
  {
    forall n :: 0 < n < |scores| ==> !Exhausted(WatchAll(scores[..n]), patience)
  }

  lemma OnlyLastStopsSnoc(scores: seq<real>, score: real, patience: int)
    requires OnlyLastStops(scores, patience)
    requires scores != [] ==> !Exhausted(WatchAll(scores), patience)
    ensures OnlyLastStops(scores + [score], patience)
    ensures WatchAll(scores + [score]) == Observe(WatchAll(scores), |scores|, score)
  {
    var longer := scores + [score];
    assert longer[..|scores|] == scores;
    forall n | 0 < n < |longer| ensures !Exhausted(WatchAll(longer[..n]), patience) {
      assert longer[..n] == scores[..n];
      assert scores[..|scores|] == scores;
    }
  }

  lemma NothingWatched(patience: int)
    ensures WatchAll([]) == START && OnlyLastStops([], patience)
  {}

  /** Training that only stops when told to stops at most max(1, patience) epochs after its best. */
  lemma StopsSoonAfterBest(scores: seq<real>, patience: int)
    requires scores != [] && forall j :: 0 <= j < |scores| ==> scores[j] >= 0.0
    requires OnlyLastStops(scores, patience)
    ensures var w := WatchAll(scores);
      && |scores| <= w.at + 1 + (if patience > 1 then patience else 1)
      && (Exhausted(w, patience) ==> |scores| == w.at + 1 + (if patience > 1 then patience else 1))
  {
    WatchedBest(scores);
    var n := |scores| - 1;
    if n > 0 {
      WatchedBest(scores[..n]);
      assert !Exhausted(WatchAll(scores[..n]), patience);
    }
  }

  // ---- training as a function of the initial state -------------------------------

  ghost predicate IsPermutation(idx: seq<nat>, n: nat)
  {
    |idx| == n && Indices(idx, n) && Distinct(idx)
  }

  ghost predicate Indices(idx: seq<nat>, n: nat)
  {
    forall i :: 0 <= i < |idx| ==> idx[i] < n
  }

  /** The training rows, the permutation of each epoch (from 1), the batch size and the step's recipe. */
  datatype Plan = Plan(train: Split, perms: nat -> seq<nat>, bs: nat, recipe: Recipe)

  ghost predicate ValidPlan(p: Plan, dim: nat)
  {
    && ValidSplit(p.train, dim) && p.bs > 0 && IsRoot(p.recipe.sqrt)
    && forall ep :: IsPermutation(p.perms(ep), |p.train.y|)
  }

  function RowsAt(X: seq<seq<nat>>, idx: seq<nat>): (r: seq<seq<nat>>)
    requires Indices(idx, |X|)
    ensures |r| == |idx|
  {
    seq(|idx|, j requires 0 <= j < |idx| => X[idx[j]])
  }

  function FloatsAt(y: seq<int>, idx: seq<nat>): (r: seq<real>)
    requires Indices(idx, |y|)
    ensures |r| == |idx|
  {
    seq(|idx|, j requires 0 <= j < |idx| => y[idx[j]] as real)
  }

  /** The state after the rows `idx`, batch by batch. */
  function EpochState(s: State, idx: seq<nat>, p: Plan): (n: State)
    requires IsState(s, |s.p.V|, p.recipe.k) && ValidPlan(p, |s.p.V|) && Indices(idx, |p.train.y|)
    ensures IsState(n, |s.p.V|, p.recipe.k)
    decreases |idx|
  {
    if idx == [] then s
    else
      var m := Min(p.bs, |idx|);
      var next := StepState(s, RowsAt(p.train.X, idx[..m]), FloatsAt(p.train.y, idx[..m]), p.recipe);
      EpochState(next, idx[m..], p)
  }

  /** The state after `n` epochs from `s`, each with its own permutation. */
  function TrainedState(s: State, p: Plan, n: nat): (r: State)
    requires IsState(s, |s.p.V|, p.recipe.k) && ValidPlan(p, |s.p.V|)
    ensures IsState(r, |s.p.V|, p.recipe.k)
  {
    if n == 0 then s else EpochState(TrainedState(s, p, n - 1), p.perms(n), p)
  }

  ghost function Elements(idx: seq<nat>): set<nat>
  {
    set i | 0 <= i < |idx| :: idx[i]
  }

  lemma {:induction false} SizeOfElements(idx: seq<nat>)
    requires Distinct(idx)
    ensures |Elements(idx)| == |idx|
  {
    if idx != [] {
      var n := |idx| - 1;
      SizeOfElements(idx[..n]);
      assert Elements(idx) == Elements(idx[..n]) + {idx[n]};
      assert idx[n] !in Elements(idx[..n]);
    }
  }

  /** The first n numbers. */
  ghost function Below(n: nat): (s: set<nat>)
    ensures |s| == n && forall i: nat :: i in s <==> i < n
  {
    if n == 0 then {} else Below(n - 1) + {n - 1}
  }

  lemma FullSubset(a: set<nat>, b: set<nat>)
    requires a <= b && |a| == |b|
    ensures a == b
  {
    assert b == a + (b - a);
    assert |b| == |a| + |b - a|;
  }

  /** Each epoch trains on every row exactly once, together with its own label. */
  lemma EachRowOnce(p: Plan, dim: nat, ep: nat, r: nat) returns (j: nat)
    requires ValidPlan(p, dim) && r < |p.train.y|
    ensures j < |p.perms(ep)| && p.perms(ep)[j] == r
    ensures forall i :: 0 <= i < |p.perms(ep)| && p.perms(ep)[i] == r ==> i == j
    ensures RowsAt(p.train.X, p.perms(ep))[j] == p.train.X[r]
    ensures FloatsAt(p.train.y, p.perms(ep))[j] == p.train.y[r] as real
  {
    var idx, n := p.perms(ep), |p.train.y|;
    assert IsPermutation(idx, n);
    SizeOfElements(idx);
    FullSubset(Elements(idx), Below(n));
    assert r in Below(n);
    j :| 0 <= j < |idx| && idx[j] == r;
  }

  /** A batch of valid rows is what a step needs. */
  lemma BatchFits(p: Plan, dim: nat, batch: seq<nat>)
    requires ValidPlan(p, dim) && Indices(batch, |p.train.y|) && batch != []
    ensures Indices(batch, |p.train.X|) && IsBatch(RowsAt(p.train.X, batch), FloatsAt(p.train.y, batch), dim)
  {
    hide IsPermutation, ValidIds;
  }

  /** The number of steps in an epoch is the number of rows over the batch size, rounded up. */
  lemma {:induction false} EpochSteps(s: State, idx: seq<nat>, p: Plan)
    requires IsState(s, |s.p.V|, p.recipe.k) && ValidPlan(p, |s.p.V|) && Indices(idx, |p.train.y|)
    ensures var steps := EpochState(s, idx, p).t - s.t;
      |idx| <= steps * p.bs < |idx| + p.bs
    decreases |idx|
  {
    hide StepState, Steps, IsState, ValidSplit, IsPermutation;
    if idx != [] {
      var m := Min(p.bs, |idx|);
      BatchFits(p, |s.p.V|, idx[..m]);
      var next := StepState(s, RowsAt(p.train.X, idx[..m]), FloatsAt(p.train.y, idx[..m]), p.recipe);
      OneStep(s, next, idx[..m], p);
      EpochSteps(next, idx[m..], p);
      var rest := EpochState(next, idx[m..], p).t - next.t;
      assert (rest + 1) * p.bs == rest * p.bs + p.bs;
    }
  }

  lemma OneStep(s: State, n: State, batch: seq<nat>, p: Plan)
    requires IsState(s, |s.p.V|, p.recipe.k) && ValidPlan(p, |s.p.V|) && Indices(batch, |p.train.X|)
    requires IsBatch(RowsAt(p.train.X, batch), FloatsAt(p.train.y, batch), |s.p.V|)
    requires n == StepState(s, RowsAt(p.train.X, batch), FloatsAt(p.train.y, batch), p.recipe)
    ensures |n.p.V| == |s.p.V| && IsState(n, |n.p.V|, p.recipe.k) && n.t == s.t + 1
  {
    hide StepState, IsPermutation, ValidSplit;
  }

  // ---- the training loop ---------------------------------------------------------

  /** The plan fits the model and uses its hyperparameters. */
  ghost predicate Follows(m: FM, p: Plan)
    reads m
  {
    ValidPlan(p, m.V.Length0) && p.recipe == m.RecipeWith(p.recipe.sigmoid, p.recipe.sqrt)
  }

  /** One pass over the permuted training rows, batch by batch. */
  method TrainEpoch(m: FM, p: Plan, idx: seq<nat>)
    requires m.Valid() && Follows(m, p) && Indices(idx, |p.train.y|)
    modifies m`b, m`t, m.V, m.W, m.mV, m.vV, m.mW, m.vW
    ensures m.Valid() && m.Contents() == EpochState(old(m.Contents()), idx, p)
  {
    hide Steps, StepState, Distinct, IsPermutation, ValidSplit, Table;
    var i := 0;
    while i < |idx|
      invariant 0 <= i && m.Valid()
      invariant EpochState(m.Contents(), idx[Min(i, |idx|)..], p) == EpochState(old(m.Contents()), idx, p)
    {
      var batch := idx[i..Min(i + p.bs, |idx|)];
      assert batch == idx[i..][..Min(p.bs, |idx[i..]|)];
      assert idx[i..][Min(p.bs, |idx[i..]|)..] == idx[Min(i + p.bs, |idx|)..];
      BatchFits(p, m.V.Length0, batch);
      m.Step(RowsAt(p.train.X, batch), FloatsAt(p.train.y, batch), p.recipe.sigmoid, p.recipe.sqrt);
      i := i + p.bs;
    }
  }

  method MeasureFM(m: FM, s: Split, bs: nat, disc: nat -> real) returns (r: Option<Metrics>)
    requires m.Valid() && ValidSplit(s, m.V.Length0) && IsDiscount(disc) && bs > 0
    ensures r == if s.X == [] then None else Some(MetricsOf(m.Snapshot(), s, m.V.Length1, disc))
  {
    MetricsOfValid(m.Snapshot(), s, m.V.Length1, disc);
    var z := m.Predict(s.X, bs);
    if z.None? {
      return None;
    }
    var metrics := Evaluate.Evaluate(s.users, s.y, z.value, K, disc);
    return Some(metrics);
  }

  method CopyTable(A: array2<real>) returns (C: array2<real>)
    ensures fresh(C) && Table(C) == Table(A) && C.Length0 == A.Length0 && C.Length1 == A.Length1
  {
    C := new real[A.Length0, A.Length1]((i, f) requires 0 <= i < A.Length0 && 0 <= f < A.Length1 reads A => A[i, f]);
    forall i | 0 <= i < A.Length0 ensures Table(C)[i] == Table(A)[i] {}
  }

  method CopyVector(A: array<real>) returns (C: array<real>)
    ensures fresh(C) && C[..] == A[..]
  {
    C := new real[A.Length](i requires 0 <= i < A.Length reads A => A[i]);
  }

  /** The snapshots are parameters of the right shape and the scores are their primary metric. */
  ghost predicate Recorded(snapshots: seq<Params>, scores: seq<real>, valid: Split, dim: nat, k: nat, disc: nat -> real)
    requires ValidSplit(valid, dim) && IsDiscount(disc)
  {
    && |snapshots| == |scores|
    && forall j :: 0 <= j < |scores| ==>
      && IsParams(snapshots[j], dim, k)
      && scores[j] == MetricsOf(snapshots[j], valid, k, disc).primary >= 0.0
  }

  lemma NothingRecorded(valid: Split, dim: nat, k: nat, disc: nat -> real)
    requires ValidSplit(valid, dim) && IsDiscount(disc)
    ensures Recorded([], [], valid, dim, k, disc)
  {}

  lemma OneMoreRecord(snapshots: seq<Params>, scores: seq<real>, p: Params, valid: Split, dim: nat, k: nat,
      disc: nat -> real)
    requires ValidSplit(valid, dim) && IsDiscount(disc) && IsParams(p, dim, k)
    requires Recorded(snapshots, scores, valid, dim, k, disc)
    ensures Recorded(snapshots + [p], scores + [MetricsOf(p, valid, k, disc).primary], valid, dim, k, disc)
    ensures MetricsOf(p, valid, k, disc).primary >= 0.0
  {
    hide MetricsOf, IsTable, ValidSplit;
    MetricsOfValid(p, valid, k, disc);
  }

  /** The metrics reported for a restored snapshot. */
  ghost predicate Reports(r: (Metrics, Metrics), p: Params, valid: Split, test: Split, dim: nat, k: nat,
      disc: nat -> real)
    requires ValidSplit(valid, dim) && ValidSplit(test, dim) && IsDiscount(disc)
  {
    && IsParams(p, dim, k)
    && r.0 == MetricsOf(p, valid, k, disc)
    && r.1 == MetricsOf(p, test, k, disc)
  }

  method MeasureBoth(m: FM, valid: Split, test: Split, bs: nat,
      disc: nat -> real) returns (r: Option<(Metrics, Metrics)>)
    requires m.Valid() && IsDiscount(disc) && bs > 0
    requires ValidSplit(valid, m.V.Length0) && ValidSplit(test, m.V.Length0)
    ensures r.Some? <==> valid.X != [] && test.X != []
    ensures r.Some? ==> Reports(r.value, m.Snapshot(), valid, test, m.V.Length0, m.V.Length1, disc)
  {
    hide MetricsOf, Table, ValidSplit, IsTable;
    var onValid := MeasureFM(m, valid, bs, disc);
    var onTest := MeasureFM(m, test, bs, disc);
    if onValid.None? || onTest.None? {
      return None;
    }
    r := Some((onValid.value, onTest.value));
  }

  /** Snapshot j holds the parameters after epochs 1 to j + 1 of the plan. */
  ghost predicate Trained(snapshots: seq<Params>, s: State, p: Plan)
    requires IsState(s, |s.p.V|, p.recipe.k) && ValidPlan(p, |s.p.V|)
  {
    forall j :: 0 <= j < |snapshots| ==> snapshots[j] == TrainedState(s, p, j + 1).p
  }

  lemma SnapshotAt(snapshots: seq<Params>, j: nat, s: State, p: Plan)
    requires IsState(s, |s.p.V|, p.recipe.k) && ValidPlan(p, |s.p.V|) && Trained(snapshots, s, p) && j < |snapshots|
    ensures snapshots[j] == TrainedState(s, p, j + 1).p
  {
    hide TrainedState, ValidPlan, IsState;
  }

  lemma OneMoreSnapshot(snapshots: seq<Params>, next: Params, s: State, p: Plan)
    requires IsState(s, |s.p.V|, p.recipe.k) && ValidPlan(p, |s.p.V|) && Trained(snapshots, s, p)
    requires next == TrainedState(s, p, |snapshots| + 1).p
    ensures Trained(snapshots + [next], s, p)
  {
    hide TrainedState, ValidPlan, IsState;
    var longer := snapshots + [next];
    forall j | 0 <= j < |longer| ensures longer[j] == TrainedState(s, p, j + 1).p {
      if j < |snapshots| {
        assert longer[j] == snapshots[j];
      }
    }
  }

  /**
    The result is None where the program raises: no epoch ever ran, or a split to
    predict is empty.  `snapshots` are the parameters after each epoch that ran; the
    model ends with those of the best epoch, although later epochs overwrote its arrays.
   */
  method RunFM(m: FM, p: Plan, valid: Split, test: Split, epochs: nat, predictBs: nat, patience: int, disc: nat -> real)
    returns (r: Option<(Metrics, Metrics)>, snapshots: seq<Params>, scores: seq<real>)
    requires m.Valid() && Follows(m, p) && IsDiscount(disc) && predictBs > 0
    requires ValidSplit(valid, m.V.Length0) && ValidSplit(test, m.V.Length0)
    modifies m, m.V, m.W, m.mV, m.vV, m.mW, m.vW
    ensures r.Some? <==> epochs > 0 && valid.X != [] && test.X != []
    ensures Trained(snapshots, old(m.Contents()), p)
    ensures Recorded(snapshots, scores, valid, old(m.V.Length0), old(m.V.Length1), disc)
    ensures |scores| <= epochs && OnlyLastStops(scores, patience)
    ensures r.Some? ==>
      var w := WatchAll(scores);
      && (|scores| == epochs || Exhausted(w, patience))
      && 0 <= w.at < |scores|
      && m.Valid() && m.Snapshot() == TrainedState(old(m.Contents()), p, w.at + 1).p
      && Reports(r.value, snapshots[w.at], valid, test, old(m.V.Length0), old(m.V.Length1), disc)
  {
    hide MetricsOf, Table, WatchAll, OnlyLastStops, TrainedState, EpochState, Trained, Recorded, Reports, IsTable;
    NothingWatched(patience);
    ghost var start := m.Contents();
    UntrainedState(start, p);
    NothingRecorded(valid, m.V.Length0, m.V.Length1, disc);
    var k, dim := m.V.Length1, m.V.Length0;
    snapshots, scores := [], [];
    var best := -1.0;
    var bestV: array2?<real>, bestW: array?<real>, bestB := null, null, 0.0;
    var bad := 0;
    var ep := 1;
    while ep <= epochs
      invariant 1 <= ep <= epochs + 1 && |scores| == |snapshots| == ep - 1
      invariant m.Valid() && m.V == old(m.V) && m.W == old(m.W) && m.mV == old(m.mV) && m.vV == old(m.vV)
      invariant m.mW == old(m.mW) && m.vW == old(m.vW)
      invariant m.Contents() == TrainedState(start, p, ep - 1) && Trained(snapshots, start, p)
      invariant Recorded(snapshots, scores, valid, dim, k, disc)
      invariant OnlyLastStops(scores, patience) && (scores != [] ==> !Exhausted(WatchAll(scores), patience))
      invariant scores != [] ==> valid.X != []
      invariant Watch(best, WatchAll(scores).at, bad) == WatchAll(scores)
      invariant bestV == null <==> scores == []
      invariant bestW == null <==> scores == []
      invariant bestV != null ==> fresh(bestV) && bestV.Length0 == dim && bestV.Length1 == k
      invariant bestW != null ==> fresh(bestW) && bestW.Length == dim
      invariant scores != [] ==>
        && 0 <= WatchAll(scores).at < |scores|
        && Params(Table(bestV), bestW[..], bestB) == snapshots[WatchAll(scores).at]
    {
      TrainEpoch(m, p, p.perms(ep));
      NextEpoch(start, p, ep);
      var va := MeasureFM(m, valid, predictBs, disc);
      if va.None? {
        return None, snapshots, scores;
      }
      var score := va.value.primary;
      OneMoreRecord(snapshots, scores, m.Snapshot(), valid, dim, k, disc);
      OnlyLastStopsSnoc(scores, score, patience);
      OneMoreSnapshot(snapshots, m.Snapshot(), start, p);
      snapshots, scores := snapshots + [m.Snapshot()], scores + [score];
      if score > best + SLACK {
        best, bad := score, 0;
        bestV := CopyTable(m.V);
        bestW := CopyVector(m.W);
        bestB := m.b;
      } else {
        bad := bad + 1;
        if bad >= patience {
          break;
        }
      }
      ep := ep + 1;
    }
    if bestV == null || bestW == null {
      return None, snapshots, scores;
    }
    SnapshotAt(snapshots, WatchAll(scores).at, start, p);
    m.V, m.W, m.b := bestV, bestW, bestB;
    r := MeasureBoth(m, valid, test, predictBs, disc);
  }

  lemma UntrainedState(s: State, p: Plan)
    requires IsState(s, |s.p.V|, p.recipe.k) && ValidPlan(p, |s.p.V|)
    ensures TrainedState(s, p, 0) == s && Trained([], s, p)
  {}

  lemma NextEpoch(s: State, p: Plan, ep: nat)
    requires IsState(s, |s.p.V|, p.recipe.k) && ValidPlan(p, |s.p.V|) && ep > 0
    ensures TrainedState(s, p, ep) == EpochState(TrainedState(s, p, ep - 1), p.perms(ep), p)
  {}
}
