/**
  The discipline of the supervisor's writes: which writes it plans in which state,
  what every planned write keeps, and how far an experiment has come.
 */
module Discipline {
  import opened Options
  import opened Lifecycle
  import opened Store

  // ---- how far an experiment has come ------------------------------------------

  function Running(p: Rung): ExperimentState
  {
    match p
    case Cheap => CHEAP_RUNNING
    case Full => FULL_RUNNING
    case Official => OFFICIAL_VALID_RUNNING
  }

  function RunningStage(p: Rung): nat
  {
    match p
    case Cheap => 5
    case Full => 8
    case Official => 11
  }

  predicate Pending(e: Exp)
  {
    e.repairs != [] && e.repairs[|e.repairs| - 1].evidence.None?
  }

  /** The rung an experiment failed in, or is being repaired for. */
  function FailedPhase(e: Exp): Rung
  {
    if e.state == FAILED_REPAIRABLE && e.last.Failed? then e.last.phase
    else if e.repairs != [] then e.repairs[|e.repairs| - 1].phase
    else Cheap
  }

  const SETTLED := 13

  function Stage(e: Exp): nat
  {
    match e.state
    case PROPOSED => 0
    case WORKTREE_READY => 1
    case PATCHED => 2
    case STATIC_VALID => 3
    case FIXTURE_VALID => 4
    case CHEAP_RUNNING => 5
    case CHEAP_COMPLETE => 6
    case FULL_RESERVED => 7
    case FULL_RUNNING => 8
    case FULL_COMPLETE => 9
    case DIAGNOSED => 10
    case OFFICIAL_VALID_RUNNING => 11
    case OFFICIAL_VALID_COMPLETE => 12
    case FAILED_REPAIRABLE => RunningStage(FailedPhase(e))
    case REPAIRING => RunningStage(FailedPhase(e))
    case _ => SETTLED
  }

  /** Stage, repairs reserved so far, and the place inside the repair cycle. */
  datatype Spot = Spot(stage: nat, used: nat, sub: nat)

  function SpotOf(e: Exp): Spot
  {
    var sub :=
      if e.state == FAILED_REPAIRABLE then (if Pending(e) then 1 else 4) else if e.state == REPAIRING then 2 else 3;
    Spot(Stage(e), |e.repairs|, sub)
  }

  function Rank(e: Exp): nat
  {
    var s := SpotOf(e);
    5 * (s.stage + s.used) + s.sub
  }

  /** One step forward: a later stage, a new repair, or the next place of the repair cycle. */
  predicate Advance(a: Spot, b: Spot)
  {
    || (a.stage < b.stage && a.used == b.used && b.sub == 3)
    || (a.stage == b.stage && b.used == a.used + 1 && a.sub == 4 && b.sub == 1)
    || (a.stage == b.stage && a.used == b.used && a.sub == 3 && b.sub == 4)
    || (a.stage == b.stage && a.used == b.used && a.sub == 1 && b.sub == 2)
    || (a.stage == b.stage && a.used == b.used && a.sub == 2 && b.sub == 3)
  }

  // ---- what has been written ---------------------------------------------------

  function From(m: Mark): ExperimentState
  {
    match m
    case WorktreeReady => PROPOSED
    case PreparationAbandoned => PROPOSED
    case Patched => WORKTREE_READY
    case StaticValid => PATCHED
    case FixtureValid => STATIC_VALID
    case CheapRunning => FIXTURE_VALID
    case CheapComplete => CHEAP_RUNNING
    case CheapRejected => CHEAP_COMPLETE
    case FullReserved => CHEAP_COMPLETE
    case FullRunning => FULL_RESERVED
    case FullComplete => FULL_RUNNING
    case Diagnosed => FULL_COMPLETE
    case FullRejected => DIAGNOSED
    case NonFinalistAbandoned => DIAGNOSED
    case NotLockedFinalist => DIAGNOSED
    case OfficialRunning => DIAGNOSED
    case OfficialComplete => OFFICIAL_VALID_RUNNING
    case OfficialRejected => OFFICIAL_VALID_COMPLETE
    case SearchPromotion => OFFICIAL_VALID_COMPLETE
  }

  function To(m: Mark): ExperimentState
  {
    match m
    case WorktreeReady => WORKTREE_READY
    case PreparationAbandoned => ABANDONED
    case Patched => PATCHED
    case StaticValid => STATIC_VALID
    case FixtureValid => FIXTURE_VALID
    case CheapRunning => CHEAP_RUNNING
    case CheapComplete => CHEAP_COMPLETE
    case CheapRejected => REJECTED
    case FullReserved => FULL_RESERVED
    case FullRunning => FULL_RUNNING
    case FullComplete => FULL_COMPLETE
    case Diagnosed => DIAGNOSED
    case FullRejected => REJECTED
    case NonFinalistAbandoned => ABANDONED
    case NotLockedFinalist => ABANDONED
    case OfficialRunning => OFFICIAL_VALID_RUNNING
    case OfficialComplete => OFFICIAL_VALID_COMPLETE
    case OfficialRejected => REJECTED
    case SearchPromotion => PROMOTED
  }

  function MarkStage(m: Mark): nat
  {
    Stage(NewExp("").(state := From(m)))
  }

  /** A key is used only before the spot the experiment has reached. */
  predicate Past(key: Key, s: Spot)
  {
    match key
    case Go(m) => MarkStage(m) < s.stage
    case Failure(p, u) =>
      || RunningStage(p) < s.stage
      || (RunningStage(p) == s.stage && (u < s.used || (u == s.used && s.sub == 4)))
    case Repairing(k) => k < s.used || (k == s.used && s.sub != 1)
    case Repaired(k) => k < s.used || (k == s.used && s.sub >= 3)
    case FailedFinal(p, u) => s.stage == SETTLED
    case RepairFailed(k) => s.stage == SETTLED
  }

  lemma PastStays(key: Key, a: Spot, b: Spot)
    requires Past(key, a) && Advance(a, b) && a.stage < SETTLED
    ensures Past(key, b)
  {}

  predicate Begun(e: Exp, k: nat)
    requires 1 <= k <= |e.repairs|
  {
    && Repairing(k) in e.keys
    && e.keys[Repairing(k)] == Row(FAILED_REPAIRABLE, REPAIRING, Reserved(k, e.repairs[k - 1].phase))
  }

  /** The two rows of a repair that has been carried through. */
  predicate CarriedThrough(e: Exp, k: nat)
    requires 1 <= k <= |e.repairs|
  {
    var p := e.repairs[k - 1].phase;
    Begun(e, k) && Repaired(k) in e.keys && e.keys[Repaired(k)] == Row(REPAIRING, Running(p), Reserved(k, p))
  }

  ghost predicate KeysInv(e: Exp)
  {
    && (forall key :: key in e.keys ==> Past(key, SpotOf(e)))
    && (Stage(e) < SETTLED ==>
          forall k: nat :: 1 <= k <= |e.repairs| && (k < |e.repairs| || SpotOf(e).sub >= 3) ==> CarriedThrough(e, k))
    && (e.state == REPAIRING && e.repairs != [] ==> Begun(e, |e.repairs|))
  }

  /** Only the newest repair may be incomplete, and only while it is being carried out or has failed. */
  predicate RepairsInv(e: Exp, maximum: nat)
  {
    var n := |e.repairs|;
    && n <= maximum
    && (forall i :: 0 <= i < n - 1 ==> e.repairs[i].evidence.Some?)
    && (Pending(e) ==> e.state == FAILED_REPAIRABLE || e.state == REPAIRING || e.state == FAILED_FINAL)
    && (e.state == REPAIRING ==> n >= 1)
    && (e.state == FAILED_REPAIRABLE ==> e.last.Failed? && e.last.status != INTERRUPTED)
    && (e.state == FAILED_REPAIRABLE && Pending(e) ==>
          e.repairs[n - 1] ==
            Repair(e.last.phase, e.last.status, PlanRepair(e.last.status, n - 1, maximum).action, None))
  }

  predicate Known(s: ExperimentState)
  {
    s != CONFIRMING && s != CONFIRMED && s != SUBMISSION_BUILDING && s != SUBMISSION_VALID
  }

  /** The evidence a stage rests on is stored, and the shadow verdict is the full rung's. */
  predicate ResultsInv(e: Exp)
  {
    && (6 <= Stage(e) < SETTLED ==> Cheap in e.results)
    && (9 <= Stage(e) < SETTLED ==> Full in e.results)
    && (Stage(e) == 12 ==> Official in e.results)
    && (e.shadow.Some? ==> Stage(e) >= 10 && Full in e.results && e.shadow.value == e.results[Full])
    && (11 <= Stage(e) <= 12 ==> Supported(e))
  }

  predicate Passes(e: Exp, r: Rung)
  {
    r in e.results && e.results[r].passes
  }

  predicate Fails(e: Exp, r: Rung)
  {
    r in e.results && !e.results[r].passes
  }

  /** No gate is skipped: what moved on had passed, what a gate rejected had failed it. */
  predicate GatesInv(e: Exp)
  {
    && (7 <= Stage(e) < SETTLED ==> Passes(e, Cheap))
    && (e.state == PROMOTED ==> Passes(e, Cheap) && Passes(e, Full) && Passes(e, Official))
    && (Go(CheapRejected) in e.keys ==> Fails(e, Cheap))
    && (Go(FullRejected) in e.keys ==> Fails(e, Full))
    && (Go(OfficialRejected) in e.keys ==> Fails(e, Official))
    && (e.state == REJECTED ==>
          || Go(CheapRejected) in e.keys || Go(FullRejected) in e.keys || Go(OfficialRejected) in e.keys
          || (Go(SearchPromotion) in e.keys && Passes(e, Official)))
  }

  ghost predicate ExpInv(e: Exp, maximum: nat)
  {
    Known(e.state) && RepairsInv(e, maximum) && KeysInv(e) && ResultsInv(e) && GatesInv(e)
  }

  // ---- the record --------------------------------------------------------------

  predicate OfficialStage(e: Exp)
  {
    11 <= Stage(e) <= 12
  }

  /** The finalist is never abandoned, and keeps the evidence it was chosen for. */
  predicate FinalistInv(e: Exp)
  {
    Supported(e) && Stage(e) >= 10 && e.state != ABANDONED
  }

  ghost predicate OrderInv(db: Db, lim: Limits)
  {
    && |db.order| <= lim.hypotheses
    && (forall i, j :: 0 <= i < j < |db.order| ==> db.order[i] != db.order[j])
    && (forall id :: id in db.order <==> id in db.exps)
    && (forall a, b :: a in db.exps && b in db.exps && db.exps[a].card == db.exps[b].card ==> a == b)
  }

  /** A finished experiment, or a supported candidate that may wait for the lock. */
  predicate Rests(e: Exp)
  {
    Terminal(e.state) || (e.state == DIAGNOSED && Supported(e))
  }

  /** After the lock everyone but the finalist rests; before it every supported candidate waits. */
  predicate PlaceInv(db: Db, id: Id)
    requires id in db.exps
  {
    var e := db.exps[id];
    && (OfficialStage(e) ==> db.finalist == Some(id))
    && (Official in e.metrics ==> db.finalist == Some(id))
    && (e.state == PROMOTED ==> db.finalist == Some(id) && db.phase == OFFICIAL_EVALUATED)
    && (db.phase == DISCOVERY && Supported(e) ==> e.state == DIAGNOSED)
    && (db.phase != DISCOVERY && db.finalist != Some(id) ==> Rests(e))
  }

  predicate FinalsInv(db: Db)
  {
    && (db.phase == DISCOVERY <==> db.finalist.None?)
    && (db.finalist.Some? ==> db.finalist.value in db.exps && FinalistInv(db.exps[db.finalist.value]))
    && (db.phase == OFFICIAL_EVALUATED ==>
          db.exps[db.finalist.value].state == PROMOTED || db.exps[db.finalist.value].state == REJECTED)
    && db.evaluations == (if db.finalist.Some? && Official in db.exps[db.finalist.value].metrics then 1 else 0)
  }

  /** The champion is a supported candidate that no other supported candidate beats. */
  ghost predicate ChampionInv(db: Db)
  {
    && (forall id :: id in db.exps && Supported(db.exps[id]) ==>
          db.champion.Some? && db.exps[id].shadow.value.primary <= ShadowBest(db))
    && (db.champion.Some? ==> db.champion.value in db.exps && Supported(db.exps[db.champion.value]))
    && (db.finalist.Some? ==> db.finalist == db.champion)
  }

  ghost predicate DbInv(db: Db, lim: Limits)
  {
    && (forall id :: id in db.exps ==> ExpInv(db.exps[id], lim.repairs))
    && (forall id :: id in db.exps ==> PlaceInv(db, id))
    && OrderInv(db, lim) && FinalsInv(db) && ChampionInv(db)
  }

  /** A search that has just begun. */
  function Fresh(best: int): Db
  {
    Db(SEARCHING, DISCOVERY, None, map[], [], 0, best, None)
  }

  lemma FreshHolds(best: int, lim: Limits)
    ensures DbInv(Fresh(best), lim)
  {}

  predicate AllSettled(db: Db)
  {
    forall id :: id in db.exps ==> Rests(db.exps[id])
  }

  // ---- what one write may do ---------------------------------------------------

  predicate SameRepair(a: Repair, b: Repair)
  {
    a.(evidence := None) == b.(evidence := None) && (a.evidence.Some? ==> a == b)
  }

  /** Rows, results and completed repairs are never rewritten; the state moves legally and forward. */
  predicate ExpStep(a: Exp, b: Exp)
  {
    && a.card == b.card
    && (a.state == b.state || b.state in ExperimentTransitions(a.state))
    && |a.repairs| <= |b.repairs| <= |a.repairs| + 1
    && (forall i :: 0 <= i < |a.repairs| ==> SameRepair(a.repairs[i], b.repairs[i]))
    && (forall k :: k in a.keys ==> k in b.keys && b.keys[k] == a.keys[k])
    && (forall r :: r in a.results ==> r in b.results && b.results[r] == a.results[r])
    && (forall r :: r in a.metrics ==> r in b.metrics && b.metrics[r] == a.metrics[r])
    && (a.shadow.Some? ==> b.shadow == a.shadow)
    && Rank(a) <= Rank(b) && (a.state != b.state ==> Rank(a) < Rank(b))
  }

  predicate PhaseStep(a: Db, b: Db)
  {
    || (a.phase == b.phase && a.finalist == b.finalist)
    || (a.phase == DISCOVERY && b.phase == FINALIST_LOCKED && AllSettled(a) && a.exps == b.exps)
    || (a.phase == FINALIST_LOCKED && b.phase == OFFICIAL_EVALUATED && a.finalist == b.finalist)
  }

  predicate Successor(a: Db, b: Db)
  {
    && PhaseStep(a, b)
    && (a.run == b.run || b.run in RunTransitions(a.run))
    && a.order <= b.order && |b.order| <= |a.order| + 1
    && a.evaluations <= b.evaluations
    && (forall id :: id in a.exps ==> id in b.exps && ExpStep(a.exps[id], b.exps[id]))
    && (forall id :: id in b.exps && id !in a.exps ==> a.phase == DISCOVERY && b.exps[id] == NewExp(b.exps[id].card))
    && (forall id :: id in a.exps && id in b.exps && OfficialStage(b.exps[id]) && !OfficialStage(a.exps[id]) ==>
          a.phase == FINALIST_LOCKED && a.finalist == Some(id))
  }
}
