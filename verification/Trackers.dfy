/**
  Convergence trackers: the running best in integer metric units with its streak of
  small steps, and the older window rule over raw scores.
 */
module Trackers {
  import opened Options

  const SCALE := 1_000_000_000.0

  /** Metric units: the scaled value, rounded half away from zero. */
  function MetricUnits(v: real): int
  {
    if v >= 0.0 then (v * SCALE + 0.5).Floor else -((-v * SCALE + 0.5).Floor)
  }

  lemma UnitsAreClose(v: real)
    ensures v * SCALE - 0.5 <= MetricUnits(v) as real <= v * SCALE + 0.5
  {
    var x := if v >= 0.0 then v * SCALE + 0.5 else -v * SCALE + 0.5;
    assert x.Floor as real <= x < x.Floor as real + 1.0;
  }

  datatype TrackerUpdate = TrackerUpdate(best: int, isNewBest: bool, streak: nat, converged: bool, delta: int)

  function UpdateMetricTrackers(best: Option<int>, candidate: real, streak: nat, epsilon: int,
      patience: nat): TrackerUpdate
  {
    var units := MetricUnits(candidate);
    if best.None? then TrackerUpdate(units, true, 0, false, units)
    else
      var delta := units - best.value;
      var next := if delta > epsilon then 0 else streak + 1;
      TrackerUpdate(if units > best.value then units else best.value, delta > 0, next, next >= patience, delta)
  }

  /** The tracker after a sequence of candidates. */
  function Track(scores: seq<real>, epsilon: int, patience: nat): TrackerUpdate
    requires scores != []
  {
    var n := |scores| - 1;
    if n == 0 then UpdateMetricTrackers(None, scores[0], 0, epsilon, patience)
    else
      var before := Track(scores[..n], epsilon, patience);
      UpdateMetricTrackers(Some(before.best), scores[n], before.streak, epsilon, patience)
  }

  // ---- what the tracker means --------------------------------------------------

  predicate IsMaximum(m: int, scores: seq<real>)
  {
    && (exists i :: 0 <= i < |scores| && MetricUnits(scores[i]) == m)
    && forall i :: 0 <= i < |scores| ==> MetricUnits(scores[i]) <= m
  }

  lemma {:induction false} BestIsMaximum(scores: seq<real>, epsilon: int, patience: nat)
    requires scores != []
    ensures IsMaximum(Track(scores, epsilon, patience).best, scores)
  {
    hide MetricUnits;
    var n := |scores| - 1;
    if n > 0 {
      BestIsMaximum(scores[..n], epsilon, patience);
      var before := Track(scores[..n], epsilon, patience).best;
      var i :| 0 <= i < n && MetricUnits(scores[..n][i]) == before;
      assert MetricUnits(scores[i]) == before;
      forall j | 0 <= j <= n ensures MetricUnits(scores[j]) <= Track(scores, epsilon, patience).best {
        if j < n {
          assert scores[j] == scores[..n][j];
        }
      }
    }
  }

  /** Candidate `i` rises above everything before it by more than epsilon; the first one counts. */
  ghost predicate Improves(scores: seq<real>, i: nat, epsilon: int)
    requires i < |scores|
  {
    i == 0 || forall j :: 0 <= j < i ==> MetricUnits(scores[i]) - MetricUnits(scores[j]) > epsilon
  }

  lemma ImprovesOverBest(scores: seq<real>, epsilon: int, patience: nat)
    requires |scores| >= 2
    ensures var n := |scores| - 1;
      Improves(scores, n, epsilon) <==> MetricUnits(scores[n]) - Track(scores[..n], epsilon, patience).best > epsilon
  {
    hide MetricUnits, Track;
    var n := |scores| - 1;
    BestIsMaximum(scores[..n], epsilon, patience);
    var best := Track(scores[..n], epsilon, patience).best;
    var i :| 0 <= i < n && MetricUnits(scores[..n][i]) == best;
    assert scores[..n][i] == scores[i];
    forall j | 0 <= j < n ensures MetricUnits(scores[j]) <= best {
      assert scores[..n][j] == scores[j];
    }
  }

  /** The streak is the length of the longest suffix of candidates that do not improve. */
  lemma {:induction false} StreakIsLongestFlatSuffix(scores: seq<real>, epsilon: int, patience: nat)
    requires scores != []
    ensures var s := Track(scores, epsilon, patience).streak;
      && s < |scores|
      && Improves(scores, |scores| - 1 - s, epsilon)
      && forall i :: |scores| - s <= i < |scores| ==> !Improves(scores, i, epsilon)
  {
    hide MetricUnits, Improves;
    var n := |scores| - 1;
    if n == 0 {
      FirstImproves(scores, epsilon);
    } else {
      StreakIsLongestFlatSuffix(scores[..n], epsilon, patience);
      ImprovesOverBest(scores, epsilon, patience);
      forall i: nat | i < n ensures Improves(scores[..n], i, epsilon) == Improves(scores, i, epsilon) {
        ImprovesInPrefix(scores, n, i, epsilon);
      }
    }
  }

  lemma FirstImproves(scores: seq<real>, epsilon: int)
    requires scores != []
    ensures Improves(scores, 0, epsilon)
  {}

  lemma ImprovesInPrefix(scores: seq<real>, n: nat, i: nat, epsilon: int)
    requires i < n <= |scores|
    ensures Improves(scores[..n], i, epsilon) == Improves(scores, i, epsilon)
  {
    hide MetricUnits;
    forall j | 0 <= j <= i ensures scores[..n][j] == scores[j] {}
  }

  /** Over a streak of N the best rises by at most N times epsilon. */
  lemma {:induction false} StreakBoundsTheRise(scores: seq<real>, epsilon: nat, patience: nat)
    requires scores != []
    ensures var t := Track(scores, epsilon, patience);
      t.streak < |scores| && t.best - Track(scores[..|scores| - t.streak], epsilon, patience).best <= t.streak * epsilon
  {
    hide MetricUnits;
    var n := |scores| - 1;
    StreakIsLongestFlatSuffix(scores, epsilon, patience);
    var t := Track(scores, epsilon, patience);
    if t.streak > 0 {
      StreakBoundsTheRise(scores[..n], epsilon, patience);
      var before := Track(scores[..n], epsilon, patience);
      assert t.streak == before.streak + 1;
      assert scores[..n][..n - before.streak] == scores[..|scores| - t.streak];
      assert t.best <= before.best + epsilon;
      Distribute(before.streak, epsilon);
    } else {
      assert scores[..|scores|] == scores;
    }
  }

  lemma Distribute(a: nat, b: nat)
    ensures (a + 1) * b == a * b + b
  {}

  /** A new best beats all before it; the tracker has converged when enough do not improve. */
  lemma NewBestAndConverged(scores: seq<real>, epsilon: int, patience: nat)
    requires |scores| >= 2
    ensures var t, n := Track(scores, epsilon, patience), |scores| - 1;
      && (t.isNewBest <==> forall j :: 0 <= j < n ==> MetricUnits(scores[j]) < MetricUnits(scores[n]))
      && (t.converged <==> t.streak >= patience)
      && t.delta == MetricUnits(scores[n]) - Track(scores[..n], epsilon, patience).best
  {
    hide MetricUnits;
    var n := |scores| - 1;
    BestIsMaximum(scores[..n], epsilon, patience);
    var best := Track(scores[..n], epsilon, patience).best;
    var i :| 0 <= i < n && MetricUnits(scores[..n][i]) == best;
    assert scores[..n][i] == scores[i];
    forall j | 0 <= j < n ensures MetricUnits(scores[j]) <= best {
      assert scores[..n][j] == scores[j];
    }
  }

  /** The first candidate is a best, starts no streak and does not converge. */
  lemma FirstCandidate(score: real, epsilon: int, patience: nat)
    ensures Track([score], epsilon, patience) == TrackerUpdate(MetricUnits(score), true, 0, false, MetricUnits(score))
  {}

  /** Rounding is to the nearest billionth; halves go away from zero, alike on both sides. */
  lemma UnitsRoundHalfAway(n: nat)
    ensures MetricUnits((n as real + 0.5) / 1000000000.0) == n + 1
    ensures MetricUnits(n as real / 1000000000.0) == n
    ensures forall v :: MetricUnits(-v) == -MetricUnits(v)
  {
    assert (n as real + 0.5) / 1000000000.0 * SCALE == n as real + 0.5;
    assert n as real / 1000000000.0 * SCALE == n as real;
  }

  // ---- the window rule -----------------------------------------------------------

  const TOLERANCE := 0.000000001

  function Max(w: seq<real>): real
    requires w != []
  {
    if |w| == 1 then w[0] else var m := Max(w[1..]); if w[0] > m then w[0] else m
  }

  function Min(w: seq<real>): real
    requires w != []
  {
    if |w| == 1 then w[0] else var m := Min(w[1..]); if w[0] < m then w[0] else m
  }

  lemma {:induction false} WithinSpread(w: seq<real>)
    requires w != []
    ensures forall i :: 0 <= i < |w| ==> Min(w) <= w[i] <= Max(w)
  {
    if |w| > 1 {
      WithinSpread(w[1..]);
      forall i | 0 <= i < |w| ensures Min(w) <= w[i] <= Max(w) {
        if i > 0 {
          assert w[i] == w[1..][i - 1];
        }
      }
    }
  }

  predicate Flat(w: seq<real>, epsilon: real)
  {
    w != [] && Max(w) - Min(w) <= epsilon + TOLERANCE
  }

  /** A window is flat when no two of its scores differ by more than epsilon and a billionth. */
  lemma FlatMeansClose(w: seq<real>, epsilon: real)
    requires w != []
    ensures Flat(w, epsilon) <==> forall i, j :: 0 <= i < |w| && 0 <= j < |w| ==> w[i] - w[j] <= epsilon + 0.000000001
  {
    WithinSpread(w);
    ExtremesAttained(w);
    var i :| 0 <= i < |w| && w[i] == Max(w);
    var j :| 0 <= j < |w| && w[j] == Min(w);
    assert (forall i, j :: 0 <= i < |w| && 0 <= j < |w| ==> w[i] - w[j] <= epsilon + 0.000000001) ==>
      w[i] - w[j] <= epsilon + 0.000000001;
  }

  lemma {:induction false} ExtremesAttained(w: seq<real>)
    requires w != []
    ensures (exists i :: 0 <= i < |w| && w[i] == Max(w)) && (exists j :: 0 <= j < |w| && w[j] == Min(w))
  {
    if |w| == 1 {
      assert w[0] == Max(w) == Min(w);
    } else {
      ExtremesAttained(w[1..]);
      var i :| 0 <= i < |w[1..]| && w[1..][i] == Max(w[1..]);
      var j :| 0 <= j < |w[1..]| && w[1..][j] == Min(w[1..]);
      assert w[i + 1] == Max(w[1..]) && w[j + 1] == Min(w[1..]);
      assert w[0] == Max(w) || w[i + 1] == Max(w);
      assert w[0] == Min(w) || w[j + 1] == Min(w);
    }
  }

  /** The last n elements, or all of them when there are fewer. */
  lemma LastOfMeaning(s: seq<real>, n: nat)
    requires n >= 1
    ensures |LastOf(s, n)| == (if |s| < n then |s| else n)
    ensures forall i :: 0 <= i < |LastOf(s, n)| ==> LastOf(s, n)[i] == s[|s| - |LastOf(s, n)| + i]
  {}

  function LastOf(s: seq<real>, n: nat): seq<real>
  {
    if n == 0 || n >= |s| then s else s[|s| - n..]
  }

  lemma FlatStepIsSmall(x: real, y: real, epsilon: real)
    requires x - y <= epsilon + TOLERANCE
    ensures MetricUnits(x) - MetricUnits(y) <= MetricUnits(epsilon) + 2
  {
    UnitsAreClose(x);
    UnitsAreClose(y);
    UnitsAreClose(epsilon);
    hide MetricUnits;
    var a, b, c := MetricUnits(x), MetricUnits(y), MetricUnits(epsilon);
    assert (x - y) * SCALE <= (epsilon + TOLERANCE) * SCALE;
    assert (a - b) as real <= (c + 2) as real + 0.5;
  }

  /**
    Whenever a full window of n scores is flat, the unit tracker with epsilon enlarged
    by two units (one for the tolerance, one for rounding) has a streak of at least n - 1.
   */
  lemma WindowRuleImpliesStreak(scores: seq<real>, n: nat, epsilon: real, patience: nat)
    requires 1 <= n <= |scores| && Flat(LastOf(scores, n), epsilon)
    ensures Track(scores, MetricUnits(epsilon) + 2, patience).streak >= n - 1
  {
    hide MetricUnits, Track;
    var wide := MetricUnits(epsilon) + 2;
    var first := |scores| - n;
    var w := LastOf(scores, n);
    WithinSpread(w);
    forall i | first < i < |scores| ensures !Improves(scores, i, wide) {
      assert scores[i] == w[i - first] && scores[first] == w[0];
      FlatStepIsSmall(scores[i], scores[first], epsilon);
    }
    StreakIsLongestFlatSuffix(scores, wide, patience);
  }

  function Scores(log: seq<Option<real>>): seq<real>
  {
    if log == [] then []
    else Scores(log[..|log| - 1]) + (if log[|log| - 1].Some? then [log[|log| - 1].value] else [])
  }

  /** `best` was first reached at iteration `at` (from 1), and no iteration beats it. */
  predicate FirstBest(log: seq<Option<real>>, best: real, at: nat)
  {
    && 1 <= at <= |log| && log[at - 1] == Some(best)
    && (forall j :: 0 <= j < |log| && log[j].Some? ==> log[j].value <= best)
    && (forall j :: 0 <= j < at - 1 && log[j].Some? ==> log[j].value < best)
  }

  /** Some full window of the scores so far was flat. */
  ghost predicate Plateaued(scores: seq<real>, n: nat, epsilon: real)
  {
    exists k :: 1 <= n <= k <= |scores| && Flat(LastOf(scores[..k], n), epsilon)
  }

  lemma PlateauedByOneMore(scores: seq<real>, x: real, n: nat, epsilon: real)
    ensures Plateaued(scores + [x], n, epsilon)
      <==> Plateaued(scores, n, epsilon) || (1 <= n <= |scores| + 1 && Flat(LastOf(scores + [x], n), epsilon))
  {
    hide Flat;
    var longer := scores + [x];
    assert longer[..|longer|] == longer;
    forall k | 0 <= k <= |scores| ensures longer[..k] == scores[..k] {}
  }

  lemma ScoresByOneMore(log: seq<Option<real>>, p: Option<real>)
    ensures Scores(log + [p]) == if p.Some? then Scores(log) + [p.value] else Scores(log)
  {
    assert (log + [p])[..|log|] == log;
  }

  predicate BestSoFar(log: seq<Option<real>>, best: Option<real>, at: nat)
  {
    if best.Some? then FirstBest(log, best.value, at) else forall j :: 0 <= j < |log| ==> log[j].None?
  }

  /** A strictly higher score takes over; anything else leaves the best where it was. */
  lemma BestByOneMore(log: seq<Option<real>>, best: Option<real>, at: nat, p: Option<real>)
    requires BestSoFar(log, best, at)
    ensures var higher := p.Some? && (best.None? || p.value > best.value);
      && (higher <==> p.Some? && forall j :: 0 <= j < |log| && log[j].Some? ==> log[j].value < p.value)
      && BestSoFar(log + [p], if higher then p else best, if higher then |log| + 1 else at)
  {
    var longer := log + [p];
    forall j | 0 <= j < |log| ensures longer[j] == log[j] {}
  }

  /** The window, the best-ever tracker and the sticky convergence flag of one run. */
  class IterationState {
    const n: nat
    const epsilon: real
    var iterationCount: nat
    var bestEver: Option<real>
    var bestEverIteration: nat
    var plateauWindow: seq<real>
    var converged: bool
    /** The primary score of every iteration; None where it failed. */
    ghost var log: seq<Option<real>>

    ghost predicate Valid()
      reads this
    {
      && iterationCount == |log|
      && BestSoFar(log, bestEver, bestEverIteration)
      && plateauWindow == LastOf(Scores(log), n)
      && (converged <==> Plateaued(Scores(log), n, epsilon))
    }

    constructor (n: nat, epsilon: real)
      ensures this.n == n && this.epsilon == epsilon && Valid() && log == []
    {
      this.n, this.epsilon := n, epsilon;
      iterationCount, bestEver, bestEverIteration, plateauWindow, converged, log := 0, None, 0, [], false, [];
    }

    /** A failed iteration counts but moves neither tracker. */
    method RecordIteration(primary: Option<real>) returns (isNewBest: bool)
      requires Valid()
      modifies this
      ensures Valid() && log == old(log) + [primary]
      ensures isNewBest <==>
        && primary.Some?
        && forall j :: 0 <= j < |old(log)| && old(log)[j].Some? ==> old(log)[j].value < primary.value
      ensures old(converged) ==> converged
    {
      hide Flat, Plateaued, LastOf, Scores, BestSoFar, Max, Min;
      ScoresByOneMore(log, primary);
      BestByOneMore(log, bestEver, bestEverIteration, primary);
      iterationCount := iterationCount + 1;
      isNewBest := primary.Some? && (bestEver.None? || primary.value > bestEver.value);
      if isNewBest {
        bestEver, bestEverIteration := primary, iterationCount;
      }
      ghost var scores := Scores(log);
      log := log + [primary];
      if primary.Some? {
        plateauWindow := LastOf(plateauWindow + [primary.value], n);
        WindowSlides(scores, primary.value, n);
        PlateauedByOneMore(scores, primary.value, n, epsilon);
        FullWindow(scores + [primary.value], n);
        if |plateauWindow| == n {
          if Max(plateauWindow) - Min(plateauWindow) <= epsilon + TOLERANCE {
            converged := true;
          }
          FlatMeans(plateauWindow, epsilon);
        }
      }
    }
  }

  lemma WindowSlides(scores: seq<real>, x: real, n: nat)
    ensures LastOf(LastOf(scores, n) + [x], n) == LastOf(scores + [x], n)
  {}

  lemma FullWindow(scores: seq<real>, n: nat)
    requires scores != []
    ensures LastOf(scores, n) != []
    ensures |LastOf(scores, n)| == n <==> 1 <= n <= |scores|
  {}

  lemma FlatMeans(w: seq<real>, epsilon: real)
    requires w != []
    ensures Flat(w, epsilon) <==> Max(w) - Min(w) <= epsilon + TOLERANCE
  {}

  /** A run that the window rule stopped had a long streak in the widened unit tracker. */
  lemma ConvergedRunHadAStreak(scores: seq<real>, n: nat, epsilon: real, patience: nat)
    requires Plateaued(scores, n, epsilon)
    ensures exists k ::
      1 <= n <= k <= |scores| && Track(scores[..k], MetricUnits(epsilon) + 2, patience).streak >= n - 1
  {
    hide MetricUnits, Track, Flat;
    var k :| 1 <= n <= k <= |scores| && Flat(LastOf(scores[..k], n), epsilon);
    WindowRuleImpliesStreak(scores[..k], n, epsilon, patience);
  }
}
