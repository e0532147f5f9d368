/**
  The bounded parallel scheduler of a rung.  Folds run on a small pool; the
  coordinator waits for any of them to finish, settles what finished in fold
  order, stops submitting after the first failure, and reports the failure of
  the lowest fold.  Which folds finish first is an arbitrary oracle, and so is
  whether a late `cancel` still catches a fold that has not started.
 */
module FoldScheduler {

  datatype Outcome<+R, +E> = Done(result: R) | Failed(error: E)

  datatype RungResult<+R, +E> = Folds(results: seq<R>) | Raised(error: E)

  // ---- the sequential loop -----------------------------------------------

  /** One fold after the other; the first failure ends the rung. */
  function Sequential<R, E>(outcome: nat -> Outcome<R, E>, n: nat): RungResult<R, E>
  {
    if n == 0 then Folds([])
    else
      match Sequential(outcome, n - 1)
      case Raised(e) => Raised(e)
      case Folds(rs) =>
        match outcome(n - 1)
        case Done(r) => Folds(rs + [r])
        case Failed(e) => Raised(e)
  }

  lemma {:induction false} SequentialSucceeds<R, E>(outcome: nat -> Outcome<R, E>, n: nat)
    requires forall i: nat :: i < n ==> outcome(i).Done?
    ensures Sequential(outcome, n).Folds? && |Sequential(outcome, n).results| == n
    ensures forall i: nat :: i < n ==> Sequential(outcome, n).results[i] == outcome(i).result
  {
    if n > 0 {
      SequentialSucceeds(outcome, n - 1);
    }
  }

  lemma {:induction false} SequentialFails<R, E>(outcome: nat -> Outcome<R, E>, n: nat, k: nat)
    requires k < n && outcome(k).Failed? && forall i: nat :: i < k ==> outcome(i).Done?
    ensures Sequential(outcome, n) == Raised(outcome(k).error)
  {
    if k == n - 1 {
      SequentialSucceeds(outcome, n - 1);
    } else {
      SequentialFails(outcome, n - 1, k);
    }
  }

  // ---- how wide the rung may run ---------------------------------------------

  datatype Settings = Settings(maxParallelWorkers: nat, maxParallelFolds: nat, parallelCandidateControl: bool)

  predicate ValidSettings(s: Settings)
  {
    s.maxParallelWorkers >= 1 && 1 <= s.maxParallelFolds <= 3
  }

  /** What of the request decides the width. */
  datatype Request = Request(cardId: string, officialValid: bool, hasChampion: bool)

  function SideWidth(s: Settings, r: Request): nat
  {
    if !s.parallelCandidateControl || s.maxParallelWorkers < 2 || r.cardId == "E10" || r.cardId == "E25" then 1
    else if r.officialValid && r.hasChampion then 1
    else 2
  }

  function Min(a: int, b: int): int
  {
    if a <= b then a else b
  }

  function Max(a: nat, b: nat): nat
  {
    if a <= b then b else a
  }

  function FoldWorkers(s: Settings, r: Request, folds: nat): nat
  {
    var w := Min(folds, Min(s.maxParallelFolds, s.maxParallelWorkers / SideWidth(s, r)));
    if w < 1 then 1 else w
  }

  /** How many models one fold runs at the same time. */
  function SidesAtOnce(s: Settings, r: Request): nat
  {
    if r.officialValid && r.hasChampion then 1
    else if r.cardId == "E10" || r.cardId == "E25" then 1
    else if s.parallelCandidateControl && s.maxParallelWorkers >= 2 then 2
    else 1
  }

  /** Folds in flight times models per fold never exceed the configured worker count. */
  lemma WidthIsBounded(s: Settings, r: Request, folds: nat, inFlight: nat)
    requires ValidSettings(s) && inFlight <= FoldWorkers(s, r, folds)
    ensures inFlight * SidesAtOnce(s, r) <= s.maxParallelWorkers
  {
    var w := SideWidth(s, r);
    assert SidesAtOnce(s, r) == w;
    assert w == 1 || w == 2;
    if w == 2 {
      assert 2 * (s.maxParallelWorkers / 2) <= s.maxParallelWorkers;
    }
  }

  /** The rung is as wide as it may be: one more worker would be idle, or exceed one of the two limits. */
  lemma WidthIsLargest(s: Settings, r: Request, folds: nat)
    requires ValidSettings(s)
    ensures var w := FoldWorkers(s, r, folds);
      && w >= 1 && w <= s.maxParallelFolds && (folds >= 1 ==> w <= folds)
      && (w >= folds || w == s.maxParallelFolds || (w + 1) * SidesAtOnce(s, r) > s.maxParallelWorkers)
  {
    var sides := SideWidth(s, r);
    assert sides == 1 || sides == 2;
    assert s.maxParallelWorkers < (s.maxParallelWorkers / sides + 1) * sides;
  }

  // ---- the scheduler -----------------------------------------------------------

  /** `min` of a set of indices. */
  function Least(s: set<nat>, from: nat, bound: nat): (k: nat)
    requires exists i :: from <= i < bound && i in s
    requires forall i :: i in s ==> from <= i
    ensures k in s && k < bound && forall i :: i in s ==> k <= i
    decreases bound - from
  {
    if from in s then from else Least(s, from + 1, bound)
  }

  lemma SizeWithout(s: set<nat>, i: nat)
    requires i in s
    ensures |s - {i}| == |s| - 1
  {}

  lemma SizeWith(s: set<nat>, i: nat)
    requires i !in s
    ensures |s + {i}| == |s| + 1
  {}

  lemma OneMore(n: nat)
    ensures UpTo(n + 1) == UpTo(n) + [n]
  {}

  function UpTo(n: nat): seq<nat>
  {
    seq(n, i => i)
  }

  /** Fold k really failed with `e`, and every earlier fold succeeds or was caught by a cancellation. */
  ghost predicate Blames<R, E>(outcome: nat -> Outcome<R, E>, n: nat, k: nat, e: E, caught: set<nat>)
  {
    k < n && outcome(k) == Failed(e) && forall i: nat :: i < k ==> outcome(i).Done? || i in caught
  }

  /** What a rung may report once a cancellation has caught some folds. */
  ghost predicate Explained<R, E>(r: RungResult<R, E>, outcome: nat -> Outcome<R, E>, n: nat, caught: set<nat>)
  {
    match r
    case Folds(rs) => r == Sequential(outcome, n)
    case Raised(e) => exists k: nat :: Blames(outcome, n, k, e, caught)
  }

  lemma OneLess(all: set<nat>, completed: set<nat>, left: set<nat>, index: nat)
    requires left <= completed <= all && index in left
    ensures (all - (completed - left)) - {index} == all - (completed - (left - {index}))
    ensures left - {index} <= (all - (completed - left)) - {index}
    ensures |left - {index}| == |left| - 1
  {
    SizeWithout(left, index);
  }

  class Scheduler<R, E> {
    const n: nat
    const workers: nat
    var nextIndex: nat
    var futures: set<nat>
    var cancelled: set<nat>
    var results: map<nat, R>
    var foldErrors: map<nat, E>
    var stopScheduling: bool
    /** Every submission so far, in order, and the most folds that were ever in flight. */
    ghost var submitted: seq<nat>
    ghost var peak: nat

    /** Each submitted fold is in exactly one place, with its true outcome. */
    ghost predicate Settled(outcome: nat -> Outcome<R, E>)
      reads this
    {
      && (forall i :: i in futures ==> i !in results && i !in foldErrors)
      && (forall i :: i in results ==> i < nextIndex && i !in cancelled && outcome(i) == Done(results[i]))
      && (forall i :: i in foldErrors ==> i < nextIndex && i !in cancelled && outcome(i) == Failed(foldErrors[i]))
      && (forall i :: 0 <= i < nextIndex ==> i in futures || i in results || i in foldErrors || i in cancelled)
    }

    ghost predicate Valid(outcome: nat -> Outcome<R, E>)
      reads this
    {
      && workers >= 1
      && nextIndex <= n && submitted == UpTo(nextIndex)
      && (forall i :: i in futures + cancelled ==> i < nextIndex)
      && |futures| <= peak <= workers
      && (cancelled != {} ==> foldErrors != map[])
      && (stopScheduling <==> foldErrors != map[])
      && Settled(outcome)
    }

    /** No idle worker while folds are left, unless scheduling has stopped. */
    ghost predicate Busy()
      reads this
    {
      stopScheduling || nextIndex == n || |futures| == workers
    }

    ghost function Work(): nat
      reads this
      requires nextIndex <= n
    {
      2 * (n - nextIndex) + |futures|
    }

    constructor (n: nat, workers: nat, ghost outcome: nat -> Outcome<R, E>)
      requires workers >= 1
      ensures this.n == n && this.workers == workers
      ensures Valid(outcome) && nextIndex == 0 && submitted == [] && foldErrors == map[]
    {
      this.n, this.workers := n, workers;
      nextIndex, futures, cancelled := 0, {}, {};
      results, foldErrors, stopScheduling := map[], map[], false;
      submitted, peak := [], 0;
    }

    method Submit(ghost outcome: nat -> Outcome<R, E>)
      requires Valid(outcome) && nextIndex < n && |futures| < workers && !stopScheduling
      modifies this
      ensures Valid(outcome) && !stopScheduling && foldErrors == old(foldErrors) && cancelled == old(cancelled)
      ensures nextIndex == old(nextIndex) + 1 && futures == old(futures) + {old(nextIndex)}
      ensures submitted == old(submitted) + [old(nextIndex)]
      ensures Work() == old(Work()) - 1
    {
      hide UpTo;
      OneMore(nextIndex);
      SizeWith(futures, nextIndex);
      assert nextIndex !in futures && nextIndex !in cancelled && nextIndex !in results && nextIndex !in foldErrors;
      futures := futures + {nextIndex};
      submitted, peak := submitted + [nextIndex], Max(peak, |futures|);
      nextIndex := nextIndex + 1;
      assert Settled(outcome);
    }

    method TopUp(ghost outcome: nat -> Outcome<R, E>)
      requires Valid(outcome) && !stopScheduling
      modifies this
      ensures Valid(outcome) && Busy() && !stopScheduling
      ensures foldErrors == old(foldErrors) && cancelled == old(cancelled)
      ensures Work() <= old(Work())
    {
      while nextIndex < n && |futures| < workers
        invariant Valid(outcome) && !stopScheduling && foldErrors == old(foldErrors) && cancelled == old(cancelled)
        invariant Work() <= old(Work())
        decreases n - nextIndex
      {
        Submit(outcome);
      }
    }

    method KeepResult(ghost outcome: nat -> Outcome<R, E>, index: nat, r: R)
      requires Valid(outcome) && index in futures && index !in cancelled && outcome(index) == Done(r)
      modifies this`futures, this`results
      ensures Valid(outcome) && futures == old(futures) - {index} && Work() == old(Work()) - 1
    {
      hide UpTo;
      SizeWithout(futures, index);
      futures, results := futures - {index}, results[index := r];
      assert forall i :: i in results ==> i < nextIndex && i !in cancelled && outcome(i) == Done(results[i]);
      assert forall i :: i in futures ==> i !in results && i !in foldErrors;
      assert Settled(outcome);
    }

    method KeepError(ghost outcome: nat -> Outcome<R, E>, index: nat, e: E)
      requires Valid(outcome) && index in futures && index !in cancelled && outcome(index) == Failed(e)
      modifies this`futures, this`foldErrors, this`stopScheduling
      ensures Valid(outcome) && futures == old(futures) - {index} && stopScheduling && Work() == old(Work()) - 1
    {
      hide UpTo;
      SizeWithout(futures, index);
      futures, foldErrors, stopScheduling := futures - {index}, foldErrors[index := e], true;
      assert index in foldErrors;
      assert forall i :: i in foldErrors ==> i < nextIndex && i !in cancelled && outcome(i) == Failed(foldErrors[i]);
      assert forall i :: i in futures ==> i !in results && i !in foldErrors;
      assert Settled(outcome);
    }

    /** `futures.pop(future)`, then its result or its error, unless it was cancelled. */
    method SettleOne(outcome: nat -> Outcome<R, E>, index: nat)
      requires Valid(outcome) && index in futures
      modifies this`futures, this`results, this`foldErrors, this`stopScheduling
      ensures Valid(outcome) && futures == old(futures) - {index}
      ensures old(stopScheduling) ==> stopScheduling
      ensures Work() == old(Work()) - 1
    {
      if index in cancelled {
        SizeWithout(futures, index);
        futures := futures - {index};
      } else {
        match outcome(index) {
          case Done(r) => KeepResult(outcome, index, r);
          case Failed(e) => KeepError(outcome, index, e);
        }
      }
    }

    method SettleAll(outcome: nat -> Outcome<R, E>, completed: set<nat>)
      requires Valid(outcome) && completed != {} && completed <= futures
      modifies this`futures, this`results, this`foldErrors, this`stopScheduling
      ensures Valid(outcome) && futures == old(futures) - completed
      ensures old(stopScheduling) ==> stopScheduling
      ensures Work() < old(Work())
    {
      hide Settled, UpTo, Valid;
      InFlight(outcome);
      var left := completed;
      while left != {}
        invariant Valid(outcome) && (old(stopScheduling) ==> stopScheduling)
        invariant left <= completed && left <= futures && futures == old(futures) - (completed - left)
        invariant nextIndex <= n && (forall i :: i in left ==> i < nextIndex)
        invariant Work() == old(Work()) - (|completed| - |left|)
        decreases |left|
      {
        var index := Least(left, 0, nextIndex);
        OneLess(old(futures), completed, left, index);
        SettleOne(outcome, index);
        left := left - {index};
      }
    }

    lemma InFlight(outcome: nat -> Outcome<R, E>)
      requires Valid(outcome)
      ensures nextIndex <= n && forall i :: i in futures ==> i < nextIndex
    {}

    /** `pending.cancel()` on every fold in flight; only some are still caught. */
    method CancelPending(ghost outcome: nat -> Outcome<R, E>, caught: set<nat>)
      requires Valid(outcome) && stopScheduling
      modifies this`cancelled
      ensures Valid(outcome) && cancelled <= old(cancelled) + caught
    {
      cancelled := cancelled + futures * caught;
    }

    /**
      One turn of the wait loop.  `completed` is what the wait returned; `caught`
      are the pending folds that the cancellation, if it comes to it, still catches.
     */
    method Round(outcome: nat -> Outcome<R, E>, completed: set<nat>, caught: set<nat>)
      requires Valid(outcome) && Busy() && completed != {} && completed <= futures
      modifies this
      ensures Valid(outcome) && Busy() && Work() < old(Work())
      ensures stopScheduling ==> submitted == old(submitted)
      ensures old(stopScheduling) ==> stopScheduling
      ensures cancelled <= old(cancelled) + caught
    {
      hide Settled;
      SettleAll(outcome, completed);
      if stopScheduling {
        CancelPending(outcome, caught);
      } else {
        TopUp(outcome);
      }
    }

    /** The results in fold order, or the error of the lowest failed fold. */
    method Report(outcome: nat -> Outcome<R, E>) returns (r: RungResult<R, E>)
      requires Valid(outcome) && Busy() && futures == {}
      ensures Explained(r, outcome, n, cancelled)
      ensures cancelled == {} ==> r == Sequential(outcome, n)
    {
      hide Sequential;
      if foldErrors != map[] {
        assert exists i :: i in foldErrors;
        var k := Least(foldErrors.Keys, 0, n);
        r := Raised(foldErrors[k]);
        assert Blames(outcome, n, k, foldErrors[k], cancelled);
        if cancelled == {} {
          SequentialFails(outcome, n, k);
        }
      } else {
        var settled := results;
        assert forall i :: 0 <= i < n ==> i in settled && outcome(i) == Done(settled[i]);
        r := Folds(seq(n, i requires 0 <= i < n => settled[i]));
        SequentialSucceeds(outcome, n);
        assert r.results == Sequential(outcome, n).results;
      }
    }
  }

  /** The wait returns at least one finished fold out of those in flight. */
  ghost predicate IsWait(wait: (nat, set<nat>) -> set<nat>)
  {
    forall t: nat, futures: set<nat> :: futures != {} ==> wait(t, futures) != {} && wait(t, futures) <= futures
  }

  /**
    The rung for every order in which folds can finish.  `cancels(t)` are the folds
    a cancellation in round t would still catch; `caught` collects them, `submitted`
    are the folds handed to the pool, and `peak` is the most that were ever in flight.
   */
  method RunRung<R, E>(outcome: nat -> Outcome<R, E>, n: nat, workers: nat,
      wait: (nat, set<nat>) -> set<nat>, cancels: nat -> set<nat>)
    returns (r: RungResult<R, E>, caught: set<nat>, ghost submitted: seq<nat>, ghost peak: nat)
    requires workers >= 1 && IsWait(wait)
    ensures peak <= workers && |submitted| <= n && submitted == UpTo(|submitted|)
    ensures Explained(r, outcome, n, caught)
    ensures caught == {} ==> r == Sequential(outcome, n)
    ensures (forall t :: cancels(t) == {}) ==> caught == {}
  {
    if workers == 1 {
      r, submitted := RunOneByOne(outcome, n);
      caught, peak := {}, 1;
      SequentialExplained(outcome, n);
      return;
    }
    hide Sequential, Explained, Scheduler.Settled;
    var s := new Scheduler<R, E>(n, workers, outcome);
    s.TopUp(outcome);
    var t := 0;
    while s.futures != {}
      invariant s.Valid(outcome) && s.Busy() && fresh(s)
      invariant (forall u :: cancels(u) == {}) ==> s.cancelled == {}
      decreases s.Work()
    {
      s.Round(outcome, wait(t, s.futures), cancels(t));
      t := t + 1;
    }
    caught, submitted, peak := s.cancelled, s.submitted, s.peak;
    r := s.Report(outcome);
  }

  method RunOneByOne<R, E>(outcome: nat -> Outcome<R, E>, n: nat)
    returns (r: RungResult<R, E>, ghost submitted: seq<nat>)
    ensures r == Sequential(outcome, n)
    ensures |submitted| <= n && submitted == UpTo(|submitted|)
  {
    var results: seq<R> := [];
    submitted := [];
    for i := 0 to n
      invariant Sequential(outcome, i) == Folds(results) && submitted == UpTo(i)
    {
      submitted := submitted + [i];
      match outcome(i) {
        case Done(x) => results := results + [x];
        case Failed(e) =>
          LaterFoldsIrrelevant(outcome, i + 1, n);
          return Raised(e), submitted;
      }
    }
    r := Folds(results);
  }

  lemma {:induction false} LaterFoldsIrrelevant<R, E>(outcome: nat -> Outcome<R, E>, m: nat, n: nat)
    requires m <= n && Sequential(outcome, m).Raised?
    ensures Sequential(outcome, n) == Sequential(outcome, m)
  {
    if m < n {
      LaterFoldsIrrelevant(outcome, m, n - 1);
    }
  }

  lemma {:induction false} SequentialExplained<R, E>(outcome: nat -> Outcome<R, E>, n: nat)
    ensures Explained(Sequential(outcome, n), outcome, n, {})
    ensures Sequential(outcome, n).Folds? ==> forall i: nat :: i < n ==> outcome(i).Done?
  {
    if n > 0 {
      SequentialExplained(outcome, n - 1);
      var front := Sequential(outcome, n - 1);
      if front.Raised? {
        var k: nat :| Blames(outcome, n - 1, k, front.error, {});
        assert Blames(outcome, n, k, front.error, {});
      } else if outcome(n - 1).Failed? {
        assert Blames(outcome, n, n - 1, outcome(n - 1).error, {});
      }
    }
  }

  lemma {:induction false} FirstFailure<R, E>(outcome: nat -> Outcome<R, E>, n: nat) returns (k: nat)
    requires exists i: nat :: i < n && outcome(i).Failed?
    ensures k < n && outcome(k).Failed? && forall i: nat :: i < k ==> outcome(i).Done?
  {
    if exists i: nat :: i < n - 1 && outcome(i).Failed? {
      k := FirstFailure(outcome, n - 1);
    } else {
      k := n - 1;
    }
  }

  /**
    When no two folds fail alike, the reported failure is the sequential one exactly
    when no earlier failing fold was lost to a cancellation.
   */
  lemma BlameIsSequential<R, E>(outcome: nat -> Outcome<R, E>, n: nat, k: nat, e: E, caught: set<nat>)
    requires Blames(outcome, n, k, e, caught)
    requires forall i: nat, j: nat :: i < j < n && outcome(i).Failed? && outcome(j).Failed? ==>
      outcome(i).error != outcome(j).error
    ensures Sequential(outcome, n) == Raised(e) <==> forall i: nat :: i < k && i in caught ==> outcome(i).Done?
  {
    var f := FirstFailure(outcome, n);
    SequentialFails(outcome, n, f);
    if f < k {
      assert outcome(f).error != outcome(k).error;
      assert f in caught && !outcome(f).Done?;
    }
  }

  // ---- the two sides of one fold ---------------------------------------------------

  /** What a side's future raises: its own error, or the pool's own cancellation error. */
  datatype SideError<+E> = Own(error: E) | CancelledError

  datatype PairResult<+R, +E> = Pair(candidate: R, reference: R) | PairRaised(error: SideError<E>)

  /** The candidate first, then the control. */
  function SidesInTurn<R, E>(candidate: Outcome<R, E>, reference: Outcome<R, E>): PairResult<R, E>
  {
    match candidate
    case Failed(e) => PairRaised(Own(e))
    case Done(c) =>
      match reference
      case Failed(e) => PairRaised(Own(e))
      case Done(r) => Pair(c, r)
  }

  /** One finished side: its result, its error, or the cancellation that caught it. */
  method SettleSide<R, E>(index: nat, outcome: Outcome<R, E>, wasCancelled: bool,
      results: map<nat, R>, errors: map<nat, SideError<E>>)
    returns (results': map<nat, R>, errors': map<nat, SideError<E>>)
    ensures !wasCancelled && outcome.Done? ==> results' == results[index := outcome.result] && errors' == errors
    ensures wasCancelled ==> results' == results && errors' == errors[index := CancelledError]
    ensures !wasCancelled && outcome.Failed? ==> results' == results && errors' == errors[index := Own(outcome.error)]
  {
    results', errors' := results, errors;
    if wasCancelled {
      errors' := errors[index := CancelledError];
    } else {
      match outcome {
        case Done(x) => results' := results[index := x];
        case Failed(e) => errors' := errors[index := Own(e)];
      }
    }
  }

  /**
    Both sides at once.  `first` is the side that finishes first (0 is the
    candidate); `catches` says whether cancelling the other one still works.
    The report is the sequential one unless a failed control catches the candidate.
   */
  method RunSides<R, E>(candidate: Outcome<R, E>, reference: Outcome<R, E>, first: nat, catches: bool)
    returns (r: PairResult<R, E>)
    requires first < 2
    ensures r == if first == 1 && reference.Failed? && catches then PairRaised(CancelledError)
                 else SidesInTurn(candidate, reference)
  {
    var outcomes := [candidate, reference];
    var second := 1 - first;
    var results, errors := SettleSide(first, outcomes[first], false, map[], map[]);
    var lost := catches && first in errors;
    results, errors := SettleSide(second, outcomes[second], lost, results, errors);
    if 0 in errors {
      r := PairRaised(errors[0]);
    } else if 1 in errors {
      r := PairRaised(errors[1]);
    } else {
      r := Pair(results[0], results[1]);
    }
  }

  // ---- folds and sides together -----------------------------------------------------

  /** The sides of every fold, which of them finishes first, and whether the other is still cancelled. */
  datatype Pairing<!R, !E> = Pairing(
    candidate: nat -> Outcome<R, E>, reference: nat -> Outcome<R, E>, first: nat -> bool, catches: nat -> bool)

  function AsOutcome<R, E>(r: PairResult<R, E>): Outcome<(R, R), SideError<E>>
  {
    match r
    case Pair(c, d) => Done((c, d))
    case PairRaised(e) => Failed(e)
  }

  /** What a fold reports when its sides run one after the other. */
  function InTurn<R, E>(p: Pairing<R, E>, i: nat): Outcome<(R, R), SideError<E>>
  {
    AsOutcome(SidesInTurn(p.candidate(i), p.reference(i)))
  }

  /** A control that failed first has its candidate cancelled. */
  predicate Lost<R, E>(p: Pairing<R, E>, i: nat)
  {
    !p.first(i) && p.reference(i).Failed? && p.catches(i)
  }

  /** What a fold reports with `sides` of its models running at once. */
  function AtOnce<R, E>(p: Pairing<R, E>, sides: nat, i: nat): Outcome<(R, R), SideError<E>>
  {
    if sides == 2 && Lost(p, i) then Failed(CancelledError) else InTurn(p, i)
  }

  method EvaluatePair<R, E>(p: Pairing<R, E>, sides: nat, i: nat) returns (o: Outcome<(R, R), SideError<E>>)
    ensures o == AtOnce(p, sides, i)
  {
    var r: PairResult<R, E>;
    if sides == 2 {
      r := RunSides(p.candidate(i), p.reference(i), if p.first(i) then 0 else 1, p.catches(i));
    } else {
      r := SidesInTurn(p.candidate(i), p.reference(i));
    }
    o := AsOutcome(r);
  }

  lemma {:induction false} SameOutcomes<R, E>(a: nat -> Outcome<R, E>, b: nat -> Outcome<R, E>, n: nat)
    requires forall i: nat :: i < n ==> a(i) == b(i)
    ensures Sequential(a, n) == Sequential(b, n)
  {
    if n > 0 {
      SameOutcomes(a, b, n - 1);
    }
  }

  /** Fold i really failed on one of its sides, with this error. */
  ghost predicate SideFailed<R, E>(p: Pairing<R, E>, i: nat, e: E)
  {
    p.candidate(i) == Failed(e) || p.reference(i) == Failed(e)
  }

  /**
    A rung of paired folds for every order in which folds and sides finish.  The models
    running at any time stay within the configured workers.  Without a cancellation that
    catches something the report is that of one model after the other; with one, success
    still means that every model succeeded, and an error comes from a model that failed.
   */
  method RunPairedRung<R, E>(s: Settings, request: Request, p: Pairing<R, E>, n: nat,
      wait: (nat, set<nat>) -> set<nat>, cancels: nat -> set<nat>)
    returns (r: RungResult<(R, R), SideError<E>>, ghost submitted: seq<nat>, ghost peak: nat)
    requires ValidSettings(s) && IsWait(wait)
    ensures peak * SidesAtOnce(s, request) <= s.maxParallelWorkers
    ensures |submitted| <= n && submitted == UpTo(|submitted|)
    ensures
      && (forall t :: cancels(t) == {})
      && (SidesAtOnce(s, request) == 1 || forall i: nat :: i < n ==> !Lost(p, i)) ==>
      r == Sequential((i: nat) => InTurn(p, i), n)
    ensures r.Folds? ==> |r.results| == n && forall i: nat :: i < n ==>
      p.candidate(i) == Done(r.results[i].0) && p.reference(i) == Done(r.results[i].1)
    ensures r.Raised? && r.error.Own? ==> exists i: nat :: i < n && SideFailed(p, i, r.error.error)
    ensures r.Raised? && r.error.CancelledError? ==> exists i: nat :: i < n && Lost(p, i)
  {
    var sides := SidesAtOnce(s, request);
    var workers := FoldWorkers(s, request, n);
    var outcome := (i: nat) => AtOnce(p, sides, i);
    var caught: set<nat>;
    r, caught, submitted, peak := RunRung(outcome, n, workers, wait, cancels);
    WidthIsBounded(s, request, n, peak);
    PairsExplained(p, sides, outcome, n, r, caught);
    if forall i: nat :: i < n ==> outcome(i) == InTurn(p, i) {
      SameOutcomes(outcome, (i: nat) => InTurn(p, i), n);
    }
  }

  lemma FailsTruly<R, E>(p: Pairing<R, E>, sides: nat, i: nat)
    ensures var o := AtOnce(p, sides, i);
      && (o.Failed? && o.error.Own? ==> SideFailed(p, i, o.error.error))
      && (o.Failed? && o.error.CancelledError? ==> Lost(p, i))
  {
    match p.candidate(i)
    case Failed(e) =>
    case Done(c) =>
  }

  lemma PairsExplained<R, E>(p: Pairing<R, E>, sides: nat, outcome: nat -> Outcome<(R, R), SideError<E>>, n: nat,
      r: RungResult<(R, R), SideError<E>>, caught: set<nat>)
    requires Explained(r, outcome, n, caught) && forall i: nat :: outcome(i) == AtOnce(p, sides, i)
    ensures r.Folds? ==> |r.results| == n && forall i: nat :: i < n ==>
      p.candidate(i) == Done(r.results[i].0) && p.reference(i) == Done(r.results[i].1)
    ensures r.Raised? && r.error.Own? ==> exists i: nat :: i < n && SideFailed(p, i, r.error.error)
    ensures r.Raised? && r.error.CancelledError? ==> exists i: nat :: i < n && Lost(p, i)
  {
    if r.Folds? {
      SequentialExplained(outcome, n);
      SequentialSucceeds(outcome, n);
    } else {
      var k: nat :| Blames(outcome, n, k, r.error, caught);
      assert outcome(k) == Failed(r.error);
      FailsTruly(p, sides, k);
    }
  }
}
