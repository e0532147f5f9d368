/** Every write the supervisor plans keeps the record sound and is one legal step forward. */
module PlannedWrites {
  import opened Options
  import opened Lifecycle
  import opened Store
  import opened Discipline

  /** Failed again after a finished repair, before the next one is reserved. */
  predicate Stale(e: Exp)
  {
    e.state == FAILED_REPAIRABLE && e.repairs != [] && !Pending(e)
  }

  // ---- the writes the supervisor plans -------------------------------------------

  predicate PlannedGo(db: Db, id: Id, m: Mark)
    requires id in db.exps
  {
    var e := db.exps[id];
    && m != SearchPromotion && e.state == From(m)
    && (m == CheapComplete ==> Cheap in e.results)
    && (m == FullComplete ==> Full in e.results)
    && (m == OfficialComplete ==> Official in e.results)
    && (m == CheapRejected ==> Fails(e, Cheap))
    && (m == FullReserved ==> Passes(e, Cheap))
    && (m == FullRejected ==> Fails(e, Full) && e.shadow.Some? && !e.shadow.value.passes)
    && (m == OfficialRejected ==> Fails(e, Official))
    && (m == NonFinalistAbandoned || m == NotLockedFinalist ==> db.phase != DISCOVERY && db.finalist != Some(id))
    && (m == OfficialRunning ==> db.phase == FINALIST_LOCKED && db.finalist == Some(id))
  }

  function Advancing(id: Id, m: Mark): Write
  {
    Move(id, From(m), To(m), Plain, Go(m))
  }

  function Failing(id: Id, p: Rung, status: AttemptStatus, used: nat): Write
  {
    Move(id, Running(p), FAILED_REPAIRABLE, Failed(p, status), Failure(p, used))
  }

  function GivingUp(id: Id, p: Rung, used: nat): Write
  {
    Move(id, FAILED_REPAIRABLE, FAILED_FINAL, Plain, FailedFinal(p, used))
  }

  function StartingRepair(id: Id, number: nat, p: Rung): Write
  {
    Move(id, FAILED_REPAIRABLE, REPAIRING, Reserved(number, p), Repairing(number))
  }

  function EndingRepair(id: Id, number: nat, p: Rung): Write
  {
    Move(id, REPAIRING, Running(p), Reserved(number, p), Repaired(number))
  }

  function FailingRepair(id: Id, number: nat): Write
  {
    Move(id, REPAIRING, FAILED_FINAL, Plain, RepairFailed(number))
  }

  /** What the supervisor has checked before it issues a move. */
  predicate PlannedMove(db: Db, w: Write)
    requires w.Move? && w.id in db.exps
  {
    var e := db.exps[w.id];
    var n := |e.repairs|;
    match w.key
    case Go(m) => w == Advancing(w.id, m) && PlannedGo(db, w.id, m)
    case Failure(p, u) =>
      && u == n && e.state == Running(p)
      && w.payload.Failed? && w.payload.status != INTERRUPTED && w == Failing(w.id, p, w.payload.status, u)
    case FailedFinal(p, u) => e.state == FAILED_REPAIRABLE && w == GivingUp(w.id, p, u)
    case Repairing(k) =>
      e.state == FAILED_REPAIRABLE && e.last.Failed? && k == n >= 1 && w == StartingRepair(w.id, k, e.last.phase)
    case Repaired(k) =>
      && (e.state == REPAIRING || Stale(e)) && k == n >= 1 && !Pending(e)
      && w == EndingRepair(w.id, k, e.repairs[n - 1].phase)
    case RepairFailed(k) => (e.state == REPAIRING || Stale(e)) && k == n >= 1 && w == FailingRepair(w.id, k)
  }

  predicate Planned(db: Db, w: Write, lim: Limits)
  {
    match w
    case Create(id, card) => db.phase == DISCOVERY && forall x :: x in db.exps ==> db.exps[x].card != card
    case MoveRun(before, after) => true
    case Move(id, from, to, payload, key) => id in db.exps && PlannedMove(db, w)
    case Reserve(id, phase, status, action) =>
      && id in db.exps
      && var e := db.exps[id];
      && e.state == FAILED_REPAIRABLE && !Pending(e) && e.last == Failed(phase, status)
      && action == PlanRepair(status, |e.repairs|, lim.repairs).action
    case Complete(id, k, evidence) =>
      && id in db.exps
      && var e := db.exps[id];
      && (e.state == REPAIRING || Stale(e)) && k == |e.repairs| >= 1
    case Meter(id, rung, primary) => id in db.exps && db.exps[id].state == Running(rung)
    case Record(id, rung, o) => id in db.exps && db.exps[id].state == Running(rung) && rung !in db.exps[id].results
    case Shadow(id, o) =>
      id in db.exps && db.exps[id].state == DIAGNOSED && Full in db.exps[id].results && o == db.exps[id].results[Full]
    case Lock(id) => db.phase == DISCOVERY && AllSettled(db) && db.champion == Some(id) && id in db.exps
    case Promote(id, primary) =>
      id in db.exps && db.exps[id].state == OFFICIAL_VALID_COMPLETE && Passes(db.exps[id], Official)
  }

  // ---- one experiment --------------------------------------------------------------

  lemma KeysAfterMove(e: Exp, to: ExperimentState, payload: Payload, key: Key, row: Row, f: Exp)
    requires KeysInv(e) && Stage(e) < SETTLED
    requires f == e.(state := to, keys := e.keys[key := row], last := payload) && key !in e.keys
    requires Advance(SpotOf(e), SpotOf(f)) && Past(key, SpotOf(f))
    requires Stage(f) < SETTLED && SpotOf(f).sub >= 3 && |e.repairs| >= 1 ==> CarriedThrough(f, |e.repairs|)
    requires f.state == REPAIRING && f.repairs != [] ==> Begun(f, |f.repairs|)
    ensures KeysInv(f)
  {
    forall k | k in f.keys ensures Past(k, SpotOf(f)) {
      if k != key {
        PastStays(k, SpotOf(e), SpotOf(f));
      }
    }
    if Stage(f) < SETTLED {
      forall k: nat | 1 <= k <= |f.repairs| && (k < |f.repairs| || SpotOf(f).sub >= 3) ensures CarriedThrough(f, k) {
        if k < |e.repairs| {
          assert CarriedThrough(e, k);
        }
      }
    }
  }

  /** A move keeps an experiment sound and takes it forward, or changes nothing. */
  ghost predicate Kept(e: Exp, r: Result<Exp>, lim: Limits)
  {
    r.Ok? ==>
      || r.value == e
      || (ExpInv(r.value, lim.repairs) && ExpStep(e, r.value) && Advance(SpotOf(e), SpotOf(r.value)))
  }

  function Moved(e: Exp, to: ExperimentState, payload: Payload, key: Key): Exp
  {
    e.(state := to, keys := e.keys[key := Row(e.state, to, payload)], last := payload)
  }

  lemma GoIsLegal(m: Mark)
    requires m != SearchPromotion
    ensures To(m) in ExperimentTransitions(From(m))
  {}

  lemma GoGoesForward(e: Exp, m: Mark)
    requires m != SearchPromotion && e.state == From(m)
    ensures var f := Moved(e, To(m), Plain, Go(m));
      && Stage(e) == MarkStage(m) < SETTLED && Advance(SpotOf(e), SpotOf(f)) && SpotOf(e).sub == SpotOf(f).sub == 3
      && (Stage(f) == Stage(e) + 1 || Terminal(f.state))
  {}

  lemma GoKeepsResults(e: Exp, m: Mark)
    requires m != SearchPromotion && e.state == From(m) && ResultsInv(e)
    requires m == CheapComplete ==> Cheap in e.results
    requires m == FullComplete ==> Full in e.results
    requires m == OfficialComplete ==> Official in e.results
    requires m == OfficialRunning ==> Supported(e)
    ensures ResultsInv(Moved(e, To(m), Plain, Go(m)))
  {
    hide MarkStage, Advance, SpotOf;
    GoGoesForward(e, m);
  }

  /** A move outside the gates, and one that keeps the stage or ends in failure or abandonment, obeys them. */
  lemma GatesStay(e: Exp, f: Exp)
    requires GatesInv(e) && f.results == e.results && f.state != PROMOTED && f.state != REJECTED
    requires forall m :: Go(m) in f.keys ==>
      Go(m) in e.keys || (m != CheapRejected && m != FullRejected && m != OfficialRejected)
    requires Stage(f) == Stage(e) || Stage(f) == SETTLED
    ensures GatesInv(f)
  {
    hide Stage;
  }

  lemma GoKeepsGates(e: Exp, m: Mark)
    requires m != SearchPromotion && e.state == From(m) && GatesInv(e)
    requires m == CheapRejected ==> Fails(e, Cheap)
    requires m == FullReserved ==> Passes(e, Cheap)
    requires m == FullRejected ==> Fails(e, Full)
    requires m == OfficialRejected ==> Fails(e, Official)
    ensures GatesInv(Moved(e, To(m), Plain, Go(m)))
  {
    hide MarkStage, Advance, SpotOf, ExperimentTransitions;
    GoGoesForward(e, m);
  }

  lemma MoveIsStep(e: Exp, to: ExperimentState, payload: Payload, key: Key)
    requires to in ExperimentTransitions(e.state) && key !in e.keys
    requires Advance(SpotOf(e), SpotOf(Moved(e, to, payload, key)))
    ensures ExpStep(e, Moved(e, to, payload, key))
  {
    hide ExperimentTransitions, Stage;
  }

  lemma RowsOfNewest(e: Exp)
    requires KeysInv(e) && e.repairs != [] && Stage(e) < SETTLED
    ensures SpotOf(e).sub >= 3 ==> CarriedThrough(e, |e.repairs|)
    ensures e.state == REPAIRING ==> Begun(e, |e.repairs|)
  {}

  lemma Unused(e: Exp, key: Key)
    requires KeysInv(e) && !Past(key, SpotOf(e))
    ensures key !in e.keys
  {}

  lemma GoKeepsKeys(e: Exp, m: Mark)
    requires KeysInv(e) && m != SearchPromotion && e.state == From(m)
    ensures Go(m) !in e.keys && KeysInv(Moved(e, To(m), Plain, Go(m)))
  {
    hide Stage, Advance, MarkStage, From, To;
    GoGoesForward(e, m);
    Unused(e, Go(m));
    if e.repairs != [] {
      RowsOfNewest(e);
    }
    KeysAfterMove(e, To(m), Plain, Go(m), Row(e.state, To(m), Plain), Moved(e, To(m), Plain, Go(m)));
  }

  lemma GoKeeps(db: Db, id: Id, m: Mark, lim: Limits)
    requires id in db.exps && ExpInv(db.exps[id], lim.repairs)
    requires PlannedGo(db, id, m) && (db.finalist == Some(id) ==> Supported(db.exps[id]))
    ensures MoveExp(db.exps[id], From(m), To(m), Plain, Go(m)) == Ok(Moved(db.exps[id], To(m), Plain, Go(m)))
    ensures Kept(db.exps[id], MoveExp(db.exps[id], From(m), To(m), Plain, Go(m)), lim)
  {
    hide KeysInv, ResultsInv, GatesInv, ExperimentTransitions, Stage, SpotOf, Advance, ExpStep, MarkStage;
    var e := db.exps[id];
    GoIsLegal(m);
    GoGoesForward(e, m);
    var f := Moved(e, To(m), Plain, Go(m));
    GoKeepsKeys(e, m);
    GoKeepsResults(e, m);
    GoKeepsGates(e, m);
    MoveIsStep(e, To(m), Plain, Go(m));
    assert RepairsInv(f, lim.repairs);
  }

  predicate InCycle(e: Exp)
  {
    || e.state == FAILED_REPAIRABLE || e.state == REPAIRING
    || e.state == CHEAP_RUNNING || e.state == FULL_RUNNING || e.state == OFFICIAL_VALID_RUNNING
  }

  /** A write inside the repair cycle of a rung: the stage stays, or the experiment fails for good. */
  predicate Circles(e: Exp, f: Exp)
  {
    && InCycle(e) && ((Stage(f) == Stage(e) && InCycle(f)) || f.state == FAILED_FINAL)
    && f.shadow == e.shadow && f.metrics == e.metrics
  }

  lemma ResultsStay(e: Exp, f: Exp)
    requires ResultsInv(e) && f.results == e.results && f.shadow == e.shadow
    requires Stage(f) == Stage(e) || Stage(f) == SETTLED
    ensures ResultsInv(f)
  {
    hide Stage;
  }

  /** A key outside the gates is written and the experiment keeps its stage or fails for good. */
  lemma GatesAfterMove(e: Exp, to: ExperimentState, payload: Payload, key: Key)
    requires GatesInv(e) && !key.Go? && (InCycle(Moved(e, to, payload, key)) || to == FAILED_FINAL)
    requires Stage(Moved(e, to, payload, key)) == Stage(e) || Stage(Moved(e, to, payload, key)) == SETTLED
    ensures GatesInv(Moved(e, to, payload, key))
  {
    hide Stage;
  }

  /** The move goes one place on in the cycle of a rung, and its key belongs to that place alone. */
  predicate Turns(e: Exp, f: Exp, key: Key)
  {
    && Stage(e) < SETTLED && InCycle(e) && ((Stage(f) == Stage(e) && InCycle(f)) || f.state == FAILED_FINAL)
    && Advance(SpotOf(e), SpotOf(f)) && Past(key, SpotOf(f)) && !Past(key, SpotOf(e))
  }

  lemma NotYet(e: Exp, f: Exp, key: Key)
    requires KeysInv(e) && Turns(e, f, key)
    ensures key !in e.keys
  {}

  predicate RowsFit(f: Exp)
  {
    && (Stage(f) < SETTLED && SpotOf(f).sub >= 3 && f.repairs != [] ==> CarriedThrough(f, |f.repairs|))
    && (f.state == REPAIRING && f.repairs != [] ==> Begun(f, |f.repairs|))
  }

  lemma KeysAfterTurn(e: Exp, to: ExperimentState, payload: Payload, key: Key)
    requires KeysInv(e) && Turns(e, Moved(e, to, payload, key), key) && RowsFit(Moved(e, to, payload, key))
    ensures key !in e.keys && KeysInv(Moved(e, to, payload, key))
  {
    hide KeysInv, CarriedThrough, Begun, Past, Advance, Stage, SpotOf;
    NotYet(e, Moved(e, to, payload, key), key);
    KeysAfterMove(e, to, payload, key, Row(e.state, to, payload), Moved(e, to, payload, key));
  }

  /** One move inside the repair cycle. */
  lemma CycleMove(e: Exp, to: ExperimentState, payload: Payload, key: Key, lim: Limits)
    requires ExpInv(e, lim.repairs) && to in ExperimentTransitions(e.state) && Known(to) && !key.Go?
    requires var f := Moved(e, to, payload, key); RepairsInv(f, lim.repairs) && Turns(e, f, key) && RowsFit(f)
    ensures key !in e.keys
    ensures var r := MoveExp(e, e.state, to, payload, key);
      r == Ok(Moved(e, to, payload, key)) && Kept(e, r, lim) && Circles(e, r.value)
  {
    hide KeysInv, ResultsInv, GatesInv, RepairsInv, ExpStep, RowsFit, ExperimentTransitions, Advance, Past, SpotOf;
    var f := Moved(e, to, payload, key);
    KeysAfterTurn(e, to, payload, key);
    FailedIsSettled(f);
    ResultsStay(e, f);
    GatesAfterMove(e, to, payload, key);
    MoveIsStep(e, to, payload, key);
  }

  lemma FailedIsSettled(f: Exp)
    ensures f.state == FAILED_FINAL ==> Stage(f) == SETTLED
  {}

  lemma FailureTurns(e: Exp, p: Rung, status: AttemptStatus)
    requires e.state == Running(p)
    ensures var key := Failure(p, |e.repairs|);
      Turns(e, Moved(e, FAILED_REPAIRABLE, Failed(p, status), key), key) || Pending(e)
    ensures FAILED_REPAIRABLE in ExperimentTransitions(e.state) && SpotOf(e).sub == 3 && Stage(e) < SETTLED
  {}

  lemma FailureRows(e: Exp, p: Rung, status: AttemptStatus)
    requires KeysInv(e) && e.state == Running(p)
    ensures RowsFit(Moved(e, FAILED_REPAIRABLE, Failed(p, status), Failure(p, |e.repairs|)))
  {
    hide Past, KeysInv, Stage;
    FailureTurns(e, p, status);
    if e.repairs != [] {
      RowsOfNewest(e);
    }
  }

  lemma FailureKeepsReserved(e: Exp, p: Rung, status: AttemptStatus, key: Key, maximum: nat)
    requires RepairsInv(e, maximum) && e.state == Running(p) && status != INTERRUPTED
    ensures RepairsInv(Moved(e, FAILED_REPAIRABLE, Failed(p, status), key), maximum) && !Pending(e)
  {}

  lemma FailureKeeps(e: Exp, p: Rung, status: AttemptStatus, lim: Limits)
    requires ExpInv(e, lim.repairs) && e.state == Running(p) && status != INTERRUPTED
    ensures var key := Failure(p, |e.repairs|);
      var r := MoveExp(e, Running(p), FAILED_REPAIRABLE, Failed(p, status), key);
      r == Ok(Moved(e, FAILED_REPAIRABLE, Failed(p, status), key)) && Kept(e, r, lim) && Circles(e, r.value)
  {
    hide KeysInv, ResultsInv, GatesInv, RepairsInv, RowsFit, Turns, ExperimentTransitions, MoveExp, Kept, Circles;
    hide Stage, SpotOf;
    FailureTurns(e, p, status);
    FailureRows(e, p, status);
    FailureKeepsReserved(e, p, status, Failure(p, |e.repairs|), lim.repairs);
    CycleMove(e, FAILED_REPAIRABLE, Failed(p, status), Failure(p, |e.repairs|), lim);
  }

  lemma GivingUpTurns(e: Exp, p: Rung, used: nat)
    requires e.state == FAILED_REPAIRABLE
    ensures var f := Moved(e, FAILED_FINAL, Plain, FailedFinal(p, used));
      Turns(e, f, FailedFinal(p, used)) && RowsFit(f) && FAILED_FINAL in ExperimentTransitions(e.state)
  {}

  lemma FailureKeepsRepairs(e: Exp, key: Key, lim: Limits)
    requires ExpInv(e, lim.repairs)
    ensures RepairsInv(Moved(e, FAILED_FINAL, Plain, key), lim.repairs)
  {
    hide KeysInv, ResultsInv, GatesInv;
  }

  lemma GivingUpKeeps(e: Exp, p: Rung, used: nat, lim: Limits)
    requires ExpInv(e, lim.repairs) && e.state == FAILED_REPAIRABLE
    ensures var r := MoveExp(e, FAILED_REPAIRABLE, FAILED_FINAL, Plain, FailedFinal(p, used));
      r == Ok(Moved(e, FAILED_FINAL, Plain, FailedFinal(p, used))) && Kept(e, r, lim) && Circles(e, r.value)
  {
    hide ExpInv, RepairsInv, RowsFit, Turns, ExperimentTransitions, MoveExp, Kept, Circles;
    GivingUpTurns(e, p, used);
    FailureKeepsRepairs(e, FailedFinal(p, used), lim);
    CycleMove(e, FAILED_FINAL, Plain, FailedFinal(p, used), lim);
  }

  lemma StartTurns(e: Exp)
    requires e.state == FAILED_REPAIRABLE && Pending(e) && e.last.Failed?
    requires e.last.phase == e.repairs[|e.repairs| - 1].phase
    ensures var key, p := Repairing(|e.repairs|), Reserved(|e.repairs|, e.last.phase);
      var f := Moved(e, REPAIRING, p, key);
      Turns(e, f, key) && RowsFit(f) && REPAIRING in ExperimentTransitions(e.state)
  {}

  lemma StartKeepsRepairs(e: Exp, lim: Limits)
    requires ExpInv(e, lim.repairs) && e.state == FAILED_REPAIRABLE && e.repairs != []
    ensures e.last.Failed? && (Pending(e) ==> e.last.phase == e.repairs[|e.repairs| - 1].phase)
    ensures forall payload, key :: RepairsInv(Moved(e, REPAIRING, payload, key), lim.repairs)
    ensures !Pending(e) ==> CarriedThrough(e, |e.repairs|)
  {
    hide ResultsInv, GatesInv, Past;
    RowsOfNewest(e);
  }

  /** A repair can be begun once; begun again after it was finished, the row is already there. */
  lemma StartKeeps(e: Exp, lim: Limits)
    requires ExpInv(e, lim.repairs) && e.state == FAILED_REPAIRABLE && e.repairs != []
    ensures e.last.Failed?
    ensures var n, p := |e.repairs|, e.last.phase;
      var r := MoveExp(e, FAILED_REPAIRABLE, REPAIRING, Reserved(n, p), Repairing(n));
      && Kept(e, r, lim) && (r.Ok? ==> Circles(e, r.value))
      && (Pending(e) ==> r == Ok(Moved(e, REPAIRING, Reserved(n, p), Repairing(n))))
      && (Stale(e) ==> r == if p == e.repairs[n - 1].phase then Ok(e) else Refused)
  {
    hide ExpInv, RepairsInv, RowsFit, Turns, Stage, SpotOf;
    StartKeepsRepairs(e, lim);
    if Pending(e) {
      StartTurns(e);
      CycleMove(e, REPAIRING, Reserved(|e.repairs|, e.last.phase), Repairing(|e.repairs|), lim);
    } else {
      StaleCircles(e);
    }
  }

  lemma StaleCircles(e: Exp)
    requires e.state == FAILED_REPAIRABLE
    ensures Circles(e, e)
  {}

  lemma EndTurns(e: Exp)
    requires e.state == REPAIRING && e.repairs != [] && !Pending(e) && Begun(e, |e.repairs|)
    ensures var n, p := |e.repairs|, e.repairs[|e.repairs| - 1].phase;
      var f := Moved(e, Running(p), Reserved(n, p), Repaired(n));
      Turns(e, f, Repaired(n)) && RowsFit(f) && Running(p) in ExperimentTransitions(e.state)
  {}

  lemma EndKeepsReserved(e: Exp, to: ExperimentState, payload: Payload, key: Key, maximum: nat)
    requires RepairsInv(e, maximum) && !Pending(e) && to != REPAIRING && to != FAILED_REPAIRABLE
    ensures RepairsInv(Moved(e, to, payload, key), maximum)
  {}

  lemma NewestRows(e: Exp)
    requires KeysInv(e) && (e.state == REPAIRING || Stale(e)) && e.repairs != []
    ensures if e.state == REPAIRING then Begun(e, |e.repairs|) else CarriedThrough(e, |e.repairs|)
  {
    hide KeysInv, Past;
    RowsOfNewest(e);
  }

  lemma EndKeeps(e: Exp, lim: Limits)
    requires ExpInv(e, lim.repairs) && (e.state == REPAIRING || Stale(e)) && e.repairs != [] && !Pending(e)
    ensures var n := |e.repairs|;
      var p := e.repairs[n - 1].phase;
      var r := MoveExp(e, REPAIRING, Running(p), Reserved(n, p), Repaired(n));
      && Kept(e, r, lim) && (r.Ok? ==> Circles(e, r.value))
      && r == Ok(if Stale(e) then e else Moved(e, Running(p), Reserved(n, p), Repaired(n)))
  {
    hide KeysInv, ResultsInv, GatesInv, RepairsInv, RowsFit, Turns, Stage, SpotOf;
    var n, p := |e.repairs|, e.repairs[|e.repairs| - 1].phase;
    EndKeepsReserved(e, Running(p), Reserved(n, p), Repaired(n), lim.repairs);
    NewestRows(e);
    if e.state == REPAIRING {
      EndTurns(e);
      CycleMove(e, Running(p), Reserved(n, p), Repaired(n), lim);
    } else {
      StaleCircles(e);
    }
  }

  lemma RepairFailureTurns(e: Exp)
    requires e.state == REPAIRING
    ensures var f := Moved(e, FAILED_FINAL, Plain, RepairFailed(|e.repairs|));
      Turns(e, f, RepairFailed(|e.repairs|)) && RowsFit(f) && FAILED_FINAL in ExperimentTransitions(e.state)
  {}

  lemma NoFailedRepair(e: Exp, lim: Limits)
    requires ExpInv(e, lim.repairs) && Stale(e)
    ensures RepairFailed(|e.repairs|) !in e.keys
  {
    hide RepairsInv, ResultsInv, GatesInv, KeysInv;
    Unused(e, RepairFailed(|e.repairs|));
  }

  lemma RepairFailureKeeps(e: Exp, lim: Limits)
    requires ExpInv(e, lim.repairs) && (e.state == REPAIRING || Stale(e)) && e.repairs != []
    ensures var n := |e.repairs|;
      var r := MoveExp(e, REPAIRING, FAILED_FINAL, Plain, RepairFailed(n));
      && Kept(e, r, lim) && (r.Ok? ==> Circles(e, r.value))
      && r == if Stale(e) then Refused else Ok(Moved(e, FAILED_FINAL, Plain, RepairFailed(n)))
  {
    hide ExpInv, RepairsInv, RowsFit, Turns, Stage, SpotOf;
    if e.state == REPAIRING {
      RepairFailureTurns(e);
      FailureKeepsRepairs(e, RepairFailed(|e.repairs|), lim);
      CycleMove(e, FAILED_FINAL, Plain, RepairFailed(|e.repairs|), lim);
    } else {
      NoFailedRepair(e, lim);
    }
  }

  lemma KeysAfterReserve(e: Exp, f: Exp)
    requires KeysInv(e) && f == e.(repairs := f.repairs) && |f.repairs| == |e.repairs| + 1
    requires forall i :: 0 <= i < |e.repairs| ==> f.repairs[i].phase == e.repairs[i].phase
    requires Advance(SpotOf(e), SpotOf(f)) && Stage(f) == Stage(e) < SETTLED && e.state == FAILED_REPAIRABLE
    ensures KeysInv(f)
  {
    hide Past;
    forall k | k in f.keys ensures Past(k, SpotOf(f)) {
      PastStays(k, SpotOf(e), SpotOf(f));
    }
    forall k: nat | 1 <= k <= |f.repairs| && (k < |f.repairs| || SpotOf(f).sub >= 3) ensures CarriedThrough(f, k) {
      assert CarriedThrough(e, k);
    }
  }

  function NextRepair(e: Exp, maximum: nat): Exp
    requires e.last.Failed?
  {
    e.(repairs := e.repairs
         + [Repair(e.last.phase, e.last.status, PlanRepair(e.last.status, |e.repairs|, maximum).action, None)])
  }

  lemma ReserveTurns(e: Exp, maximum: nat)
    requires e.state == FAILED_REPAIRABLE && !Pending(e) && e.last.Failed?
    ensures var f := NextRepair(e, maximum);
      Advance(SpotOf(e), SpotOf(f)) && Stage(f) == Stage(e) < SETTLED && Circles(e, f) && Rank(e) < Rank(f)
  {}

  lemma ReserveKeepsRepairs(e: Exp, lim: Limits)
    requires ExpInv(e, lim.repairs) && e.state == FAILED_REPAIRABLE && !Pending(e)
    ensures e.last.Failed? && (|e.repairs| < lim.repairs ==> RepairsInv(NextRepair(e, lim.repairs), lim.repairs))
  {
    hide KeysInv, ResultsInv, GatesInv, PlanRepair;
  }

  lemma LongerIsStep(e: Exp, maximum: nat)
    requires e.last.Failed? && Rank(e) < Rank(NextRepair(e, maximum))
    ensures ExpStep(e, NextRepair(e, maximum))
  {
    hide Rank, ExperimentTransitions;
  }

  lemma ReserveKeeps(e: Exp, lim: Limits)
    requires ExpInv(e, lim.repairs) && e.state == FAILED_REPAIRABLE && !Pending(e)
    ensures e.last.Failed?
    ensures var s := e.last.status;
      var r := ReserveExp(e, e.last.phase, s, PlanRepair(s, |e.repairs|, lim.repairs).action, lim.repairs);
      && r == (if |e.repairs| < lim.repairs then Ok(NextRepair(e, lim.repairs)) else Refused)
      && Kept(e, r, lim) && (r.Ok? ==> Circles(e, r.value))
  {
    hide KeysInv, RepairsInv, ResultsInv, GatesInv, ExpStep, Rank, SpotOf, Advance, Stage, PlanRepair, Circles;
    ReserveKeepsRepairs(e, lim);
    if |e.repairs| < lim.repairs {
      var f := NextRepair(e, lim.repairs);
      ReserveTurns(e, lim.repairs);
      KeysAfterReserve(e, f);
      ResultsStay(e, f);
      GatesStay(e, f);
      LongerIsStep(e, lim.repairs);
    }
  }

  /** A write that moves nothing: rows, repairs and state stay. */
  lemma SameSpotKeeps(e: Exp, f: Exp, lim: Limits)
    requires ExpInv(e, lim.repairs) && ResultsInv(f) && GatesInv(f)
    requires f == e.(metrics := f.metrics, results := f.results, shadow := f.shadow)
    ensures ExpInv(f, lim.repairs) && SpotOf(f) == SpotOf(e)
  {
    hide ResultsInv, GatesInv;
    assert SpotOf(f) == SpotOf(e);
    forall k: nat | 1 <= k <= |f.repairs| && CarriedThrough(e, k) ensures CarriedThrough(f, k) {}
  }

  /** The newest repair completed with the given evidence. */
  function WithEvidence(e: Exp, evidence: nat): Exp
    requires e.repairs != []
  {
    var n := |e.repairs|;
    e.(repairs := e.repairs[n - 1 := e.repairs[n - 1].(evidence := Some(evidence))])
  }

  lemma CompleteStays(e: Exp, evidence: nat)
    requires e.state == REPAIRING && e.repairs != []
    ensures var f := WithEvidence(e, evidence);
      SpotOf(f) == SpotOf(e) && Stage(f) == Stage(e) && Rank(f) == Rank(e) && !Pending(f) && Circles(e, f)
  {}

  lemma KeysAfterComplete(e: Exp, evidence: nat)
    requires KeysInv(e) && e.state == REPAIRING && e.repairs != []
    ensures KeysInv(WithEvidence(e, evidence))
  {
    hide Past, Stage;
    CompleteStays(e, evidence);
    var f := WithEvidence(e, evidence);
    forall k: nat | 1 <= k < |e.repairs| ensures CarriedThrough(e, k) ==> CarriedThrough(f, k) {}
    assert Begun(e, |e.repairs|) ==> Begun(f, |e.repairs|);
  }

  lemma CompleteIsStep(e: Exp, evidence: nat)
    requires Pending(e) && Rank(WithEvidence(e, evidence)) == Rank(e)
    ensures ExpStep(e, WithEvidence(e, evidence))
  {
    hide Rank, ExperimentTransitions;
  }

  lemma CompleteKeepsRepairs(e: Exp, evidence: nat, lim: Limits)
    requires ExpInv(e, lim.repairs) && e.state == REPAIRING && e.repairs != []
    ensures RepairsInv(WithEvidence(e, evidence), lim.repairs)
  {
    hide KeysInv, ResultsInv, GatesInv, PlanRepair;
  }

  lemma StepOfSame(e: Exp)
    ensures ExpStep(e, e)
  {}

  lemma CompleteKeeps(e: Exp, evidence: nat, lim: Limits)
    requires ExpInv(e, lim.repairs) && (e.state == REPAIRING || Stale(e)) && e.repairs != []
    ensures var n := |e.repairs|;
      var r := CompleteExp(e, n, evidence);
      && (r.Ok? <==> Pending(e) || e.repairs[n - 1].evidence == Some(evidence))
      && (r.Ok? ==> r.value == if Pending(e) then WithEvidence(e, evidence) else e)
      && (r.Ok? ==> ExpInv(r.value, lim.repairs) && ExpStep(e, r.value))
      && (r.Ok? ==> SpotOf(r.value) == SpotOf(e) && !Pending(r.value))
      && (r.Ok? ==> Circles(e, r.value))
  {
    hide KeysInv, RepairsInv, ResultsInv, GatesInv, ExpStep, Rank, SpotOf, Stage;
    if Pending(e) {
      var f := WithEvidence(e, evidence);
      CompleteStays(e, evidence);
      KeysAfterComplete(e, evidence);
      CompleteKeepsRepairs(e, evidence, lim);
      ResultsStay(e, f);
      GatesStay(e, f);
      CompleteIsStep(e, evidence);
    } else {
      StepOfSame(e);
    }
  }
}
