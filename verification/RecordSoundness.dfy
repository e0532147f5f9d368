/** Every planned write keeps the whole record sound and is one legal step of the run. */
module RecordSoundness {
  import opened Options
  import opened Lifecycle
  import opened Store
  import opened Discipline
  import opened PlannedWrites
  import SearchPolicy

  /** The record after the write is sound, and is the old one or a successor of it. */
  ghost predicate Sound(db: Db, w: Write, lim: Limits)
  {
    var r := Apply(db, w, lim);
    r.Ok? ==> DbInv(r.value, lim) && Successor(db, r.value)
  }

  lemma NothingChanges(db: Db, lim: Limits)
    ensures Successor(db, db)
  {}

  function With(db: Db, id: Id, f: Exp): Db
  {
    db.(exps := db.exps[id := f])
  }

  lemma UpdateIsSuccessor(db: Db, id: Id, f: Exp)
    requires id in db.exps && ExpStep(db.exps[id], f)
    requires OfficialStage(f) && !OfficialStage(db.exps[id]) ==> db.phase == FINALIST_LOCKED && db.finalist == Some(id)
    ensures Successor(db, With(db, id, f))
  {
    hide OfficialStage;
    forall x | x in db.exps ensures ExpStep(db.exps[x], With(db, id, f).exps[x]) {
      StepOfSame(db.exps[x]);
    }
    hide ExpStep;
  }

  lemma UpdateKeepsPlaces(db: Db, id: Id, f: Exp)
    requires forall x :: x in db.exps ==> PlaceInv(db, x)
    requires id in db.exps && PlaceInv(With(db, id, f), id)
    ensures forall x :: x in With(db, id, f).exps ==> PlaceInv(With(db, id, f), x)
  {
    forall x | x in With(db, id, f).exps ensures PlaceInv(With(db, id, f), x) {
      assert PlaceInv(db, x) || x == id;
    }
  }

  lemma UpdateKeepsChampion(db: Db, id: Id, f: Exp)
    requires id in db.exps && f.shadow == db.exps[id].shadow && ChampionInv(db)
    ensures ChampionInv(With(db, id, f))
  {
    var next := With(db, id, f);
    forall x | x in next.exps && Supported(next.exps[x])
      ensures next.champion.Some? && next.exps[x].shadow.value.primary <= ShadowBest(next)
    {
      assert Supported(db.exps[x]);
    }
  }

  lemma UpdateKeepsOrder(db: Db, id: Id, f: Exp, lim: Limits)
    requires id in db.exps && ExpStep(db.exps[id], f) && OrderInv(db, lim)
    ensures OrderInv(With(db, id, f), lim)
  {}

  lemma UpdateKeepsFinals(db: Db, id: Id, f: Exp)
    requires id in db.exps && FinalsInv(db)
    requires Official in f.metrics <==> Official in db.exps[id].metrics
    requires db.finalist == Some(id) ==> FinalistInv(f)
    requires db.finalist == Some(id) && db.phase == OFFICIAL_EVALUATED ==> f.state == db.exps[id].state
    ensures FinalsInv(With(db, id, f))
  {
    hide FinalistInv;
  }

  /** One experiment changes and nothing else does. */
  lemma UpdateKeeps(db: Db, id: Id, f: Exp, lim: Limits)
    requires DbInv(db, lim) && id in db.exps && ExpInv(f, lim.repairs) && ExpStep(db.exps[id], f)
    requires f.shadow == db.exps[id].shadow && (Official in f.metrics <==> Official in db.exps[id].metrics)
    requires PlaceInv(With(db, id, f), id)
    requires db.finalist == Some(id) ==> FinalistInv(f)
    requires db.finalist == Some(id) && db.phase == OFFICIAL_EVALUATED ==> f.state == db.exps[id].state
    requires OfficialStage(f) && !OfficialStage(db.exps[id]) ==> db.phase == FINALIST_LOCKED && db.finalist == Some(id)
    ensures DbInv(With(db, id, f), lim) && Successor(db, With(db, id, f))
  {
    hide ExpInv, FinalistInv, OfficialStage, PlaceInv, ChampionInv, OrderInv, FinalsInv, Successor, ExpStep;
    UpdateIsSuccessor(db, id, f);
    UpdateKeepsPlaces(db, id, f);
    UpdateKeepsChampion(db, id, f);
    UpdateKeepsOrder(db, id, f, lim);
    UpdateKeepsFinals(db, id, f);
  }

  lemma ExpSound(db: Db, id: Id, lim: Limits)
    requires DbInv(db, lim) && id in db.exps
    ensures ExpInv(db.exps[id], lim.repairs) && PlaceInv(db, id) && FinalsInv(db)
    ensures var e := db.exps[id];
      e.state == FAILED_REPAIRABLE ==>
        e.last.Failed? && (Pending(e) ==> e.last.phase == e.repairs[|e.repairs| - 1].phase)
  {}

  /** The experiment `f` may take the place of `id`. */
  ghost predicate Fits(db: Db, id: Id, f: Exp)
    requires id in db.exps
  {
    && PlaceInv(With(db, id, f), id)
    && (db.finalist == Some(id) ==> FinalistInv(f))
    && (db.finalist == Some(id) && db.phase == OFFICIAL_EVALUATED ==> f.state == db.exps[id].state)
    && (OfficialStage(f) && !OfficialStage(db.exps[id]) ==> db.phase == FINALIST_LOCKED && db.finalist == Some(id))
  }

  // ---- moves -----------------------------------------------------------------------

  lemma GoKeepsPlace(db: Db, id: Id, m: Mark)
    requires id in db.exps && PlaceInv(db, id) && FinalsInv(db) && PlannedGo(db, id, m)
    ensures PlaceInv(With(db, id, Moved(db.exps[id], To(m), Plain, Go(m))), id)
  {
    hide Passes, Fails, FinalistInv;
  }

  lemma GoFits(db: Db, id: Id, m: Mark)
    requires id in db.exps && PlaceInv(db, id) && FinalsInv(db) && PlannedGo(db, id, m)
    ensures Fits(db, id, Moved(db.exps[id], To(m), Plain, Go(m)))
    ensures db.finalist == Some(id) ==> Supported(db.exps[id])
  {
    GoKeepsPlace(db, id, m);
    hide Passes, Fails, PlaceInv;
  }

  lemma ReadyToGo(db: Db, id: Id, m: Mark)
    requires id in db.exps && PlannedGo(db, id, m)
    ensures m != SearchPromotion && db.exps[id].state == From(m)
  {}

  lemma GoSound(db: Db, id: Id, m: Mark, lim: Limits)
    requires DbInv(db, lim) && id in db.exps && PlannedGo(db, id, m)
    ensures Apply(db, Advancing(id, m), lim) == Ok(With(db, id, Moved(db.exps[id], To(m), Plain, Go(m))))
    ensures Sound(db, Advancing(id, m), lim)
  {
    hide DbInv, ExpInv, Successor, ExpStep, Advance, MoveExp, From, To, PlannedGo, PlaceInv, FinalistInv, FinalsInv,
      OfficialStage, Stage, SpotOf, ExperimentTransitions;
    ExpSound(db, id, lim);
    GoFits(db, id, m);
    ReadyToGo(db, id, m);
    GoKeeps(db, id, m, lim);
    GoGoesForward(db.exps[id], m);
    UpdateKeeps(db, id, Moved(db.exps[id], To(m), Plain, Go(m)), lim);
  }

  lemma CycleFits(db: Db, id: Id, f: Exp)
    requires id in db.exps && PlaceInv(db, id) && FinalsInv(db) && Circles(db.exps[id], f)
    ensures Fits(db, id, f) && f.shadow == db.exps[id].shadow && f.metrics == db.exps[id].metrics
  {}

  lemma CycleKeeps(db: Db, id: Id, f: Exp, lim: Limits)
    requires DbInv(db, lim) && id in db.exps && ExpInv(f, lim.repairs) && ExpStep(db.exps[id], f)
    requires Circles(db.exps[id], f)
    ensures DbInv(With(db, id, f), lim) && Successor(db, With(db, id, f))
  {
    ExpSound(db, id, lim);
    CycleFits(db, id, f);
    hide DbInv, ExpInv, Successor, ExpStep, PlaceInv, FinalistInv, OfficialStage, Stage, InCycle, Circles;
    UpdateKeeps(db, id, f, lim);
  }

  lemma FailingSound(db: Db, id: Id, p: Rung, status: AttemptStatus, lim: Limits)
    requires DbInv(db, lim) && id in db.exps && db.exps[id].state == Running(p) && status != INTERRUPTED
    ensures var w, e := Failing(id, p, status, |db.exps[id].repairs|), db.exps[id];
      && Apply(db, w, lim) == Ok(With(db, id, Moved(e, FAILED_REPAIRABLE, Failed(p, status), Failure(p, |e.repairs|))))
      && Sound(db, w, lim)
  {
    hide DbInv, ExpInv, Successor, ExpStep, Advance, MoveExp, Circles, Stage, SpotOf, ExperimentTransitions;
    hide PlaceInv, FinalsInv;
    var e := db.exps[id];
    ExpSound(db, id, lim);
    FailureKeeps(e, p, status, lim);
    CycleKeeps(db, id, Moved(e, FAILED_REPAIRABLE, Failed(p, status), Failure(p, |e.repairs|)), lim);
  }

  lemma GivingUpSound(db: Db, id: Id, p: Rung, used: nat, lim: Limits)
    requires DbInv(db, lim) && id in db.exps && db.exps[id].state == FAILED_REPAIRABLE
    ensures var w := GivingUp(id, p, used);
      && Apply(db, w, lim) == Ok(With(db, id, Moved(db.exps[id], FAILED_FINAL, Plain, FailedFinal(p, used))))
      && Sound(db, w, lim)
  {
    hide DbInv, ExpInv, Successor, ExpStep, Advance, MoveExp, Circles, Stage, SpotOf, ExperimentTransitions;
    hide PlaceInv, FinalsInv;
    ExpSound(db, id, lim);
    GivingUpKeeps(db.exps[id], p, used, lim);
    CycleKeeps(db, id, Moved(db.exps[id], FAILED_FINAL, Plain, FailedFinal(p, used)), lim);
  }

  lemma StartingSound(db: Db, id: Id, lim: Limits)
    requires DbInv(db, lim) && id in db.exps && db.exps[id].state == FAILED_REPAIRABLE && db.exps[id].repairs != []
    ensures db.exps[id].last.Failed?
    ensures var e := db.exps[id];
      var n, p := |e.repairs|, e.last.phase;
      var r := Apply(db, StartingRepair(id, n, p), lim);
      && Sound(db, StartingRepair(id, n, p), lim)
      && (Pending(e) ==> p == e.repairs[n - 1].phase)
      && (Pending(e) ==> r == Ok(With(db, id, Moved(e, REPAIRING, Reserved(n, p), Repairing(n)))))
      && (Stale(e) ==> r == if p == e.repairs[n - 1].phase then Ok(db) else Refused)
  {
    hide DbInv, ExpInv, Successor, ExpStep, Advance, MoveExp, Circles, Stage, SpotOf, ExperimentTransitions;
    hide PlaceInv, FinalsInv;
    ExpSound(db, id, lim);
    var e := db.exps[id];
    var n := |e.repairs|;
    StartKeeps(e, lim);
    if Pending(e) {
      CycleKeeps(db, id, Moved(e, REPAIRING, Reserved(n, e.last.phase), Repairing(n)), lim);
    } else {
      NothingChanges(db, lim);
      assert With(db, id, e) == db;
    }
  }

  lemma EndingSound(db: Db, id: Id, lim: Limits)
    requires DbInv(db, lim) && id in db.exps && db.exps[id].repairs != [] && !Pending(db.exps[id])
    requires db.exps[id].state == REPAIRING || Stale(db.exps[id])
    ensures var e := db.exps[id];
      var n := |e.repairs|;
      var p := e.repairs[n - 1].phase;
      && Sound(db, EndingRepair(id, n, p), lim)
      && Apply(db, EndingRepair(id, n, p), lim)
         == Ok(if Stale(e) then db else With(db, id, Moved(e, Running(p), Reserved(n, p), Repaired(n))))
  {
    hide DbInv, ExpInv, Successor, ExpStep, Advance, MoveExp, Circles, Stage, SpotOf, ExperimentTransitions;
    hide PlaceInv, FinalsInv;
    ExpSound(db, id, lim);
    var e := db.exps[id];
    var n := |e.repairs|;
    var p := e.repairs[n - 1].phase;
    EndKeeps(e, lim);
    if Stale(e) {
      NothingChanges(db, lim);
      assert With(db, id, e) == db;
    } else {
      CycleKeeps(db, id, Moved(e, Running(p), Reserved(n, p), Repaired(n)), lim);
    }
  }

  lemma FailingRepairSound(db: Db, id: Id, lim: Limits)
    requires DbInv(db, lim) && id in db.exps && db.exps[id].repairs != []
    requires db.exps[id].state == REPAIRING || Stale(db.exps[id])
    ensures var e := db.exps[id];
      var n := |e.repairs|;
      && Sound(db, FailingRepair(id, n), lim)
      && Apply(db, FailingRepair(id, n), lim)
         == if Stale(e) then Refused else Ok(With(db, id, Moved(e, FAILED_FINAL, Plain, RepairFailed(n))))
  {
    hide DbInv, ExpInv, Successor, ExpStep, Advance, MoveExp, Circles, Stage, SpotOf, ExperimentTransitions;
    hide PlaceInv, FinalsInv;
    ExpSound(db, id, lim);
    var e := db.exps[id];
    RepairFailureKeeps(e, lim);
    if !Stale(e) {
      CycleKeeps(db, id, Moved(e, FAILED_FINAL, Plain, RepairFailed(|e.repairs|)), lim);
    }
  }

  // ---- repairs and evidence ----------------------------------------------------------

  /** A reservation takes the next number, and is refused at the maximum. */
  lemma ReserveSound(db: Db, id: Id, lim: Limits)
    requires DbInv(db, lim) && id in db.exps && db.exps[id].state == FAILED_REPAIRABLE && !Pending(db.exps[id])
    ensures db.exps[id].last.Failed?
    ensures var e := db.exps[id];
      var action := PlanRepair(e.last.status, |e.repairs|, lim.repairs).action;
      var w := Reserve(id, e.last.phase, e.last.status, action);
      && Sound(db, w, lim)
      && Apply(db, w, lim)
         == if |e.repairs| >= lim.repairs then Refused
            else Ok(With(db, id, e.(repairs := e.repairs + [Repair(e.last.phase, e.last.status, action, None)])))
  {
    hide DbInv, ExpInv, Successor, ExpStep, Advance, Circles, Stage, SpotOf, PlaceInv, FinalsInv;
    ExpSound(db, id, lim);
    var e := db.exps[id];
    ReserveKeeps(e, lim);
    if |e.repairs| < lim.repairs {
      var action := PlanRepair(e.last.status, |e.repairs|, lim.repairs).action;
      CycleKeeps(db, id, e.(repairs := e.repairs + [Repair(e.last.phase, e.last.status, action, None)]), lim);
    }
  }

  lemma CompleteSound(db: Db, id: Id, evidence: nat, lim: Limits)
    requires DbInv(db, lim) && id in db.exps && db.exps[id].repairs != []
    requires db.exps[id].state == REPAIRING || Stale(db.exps[id])
    ensures var e := db.exps[id];
      var n := |e.repairs|;
      var w := Complete(id, n, evidence);
      && Sound(db, w, lim)
      && (Apply(db, w, lim).Ok? <==> Pending(e) || e.repairs[n - 1].evidence == Some(evidence))
      && (Apply(db, w, lim).Ok? ==>
            && CompleteExp(e, n, evidence).Ok?
            && Apply(db, w, lim).value == With(db, id, CompleteExp(e, n, evidence).value)
            && !Pending(CompleteExp(e, n, evidence).value)
            && SpotOf(CompleteExp(e, n, evidence).value) == SpotOf(e)
            && (Stale(e) ==> Apply(db, w, lim).value == db))
  {
    hide DbInv, ExpInv, Successor, ExpStep, Circles, Stage, SpotOf, PlaceInv, FinalsInv;
    ExpSound(db, id, lim);
    var e := db.exps[id];
    CompleteKeeps(e, evidence, lim);
    var r := CompleteExp(e, |e.repairs|, evidence);
    if r.Ok? {
      CycleKeeps(db, id, r.value, lim);
      assert Stale(e) ==> With(db, id, r.value) == db;
    }
  }

  // ---- results, shadow evaluations ----------------------------------------------------

  lemma MeterSound(db: Db, id: Id, rung: Rung, primary: int, lim: Limits)
    requires DbInv(db, lim) && id in db.exps && db.exps[id].state == Running(rung)
    ensures Sound(db, Meter(id, rung, primary), lim)
  {
    hide DbInv, ExpInv, Successor, ExpStep, Stage, SpotOf, PlaceInv, FinalsInv, ResultsInv;
    ExpSound(db, id, lim);
    var e := db.exps[id];
    var r := ApplyMeter(db, id, rung, primary, lim);
    if r.Ok? {
      if rung in e.metrics {
        NothingChanges(db, lim);
      } else {
        var f := e.(metrics := e.metrics[rung := primary]);
        MeteredKeeps(e, rung, primary, lim);
        if rung != Official {
          MeteredFits(db, id, f);
          UpdateKeeps(db, id, f, lim);
        } else {
          OfficialMeterKeeps(db, id, primary, lim);
        }
      }
    }
  }

  /** Further metrics and results take nothing away from what a stage or a gate rests on. */
  lemma MoreEvidence(e: Exp, f: Exp)
    requires ResultsInv(e) && GatesInv(e) && f == e.(metrics := f.metrics, results := f.results)
    requires forall r :: r in e.results ==> r in f.results && f.results[r] == e.results[r]
    ensures ResultsInv(f) && GatesInv(f)
  {
    SameStage(e, f);
    hide Stage;
  }

  lemma SameStage(e: Exp, f: Exp)
    requires f == e.(metrics := f.metrics, results := f.results, shadow := f.shadow)
    ensures Stage(f) == Stage(e)
  {}

  lemma MeteredKeeps(e: Exp, rung: Rung, primary: int, lim: Limits)
    requires ExpInv(e, lim.repairs) && rung !in e.metrics
    ensures var f := e.(metrics := e.metrics[rung := primary]);
      ExpInv(f, lim.repairs) && ExpStep(e, f) && f.shadow == e.shadow && Stage(f) == Stage(e)
  {
    var f := e.(metrics := e.metrics[rung := primary]);
    MoreEvidence(e, f);
    SameSpotKeeps(e, f, lim);
  }

  lemma MeteredFits(db: Db, id: Id, f: Exp)
    requires id in db.exps && PlaceInv(db, id) && FinalsInv(db)
    requires f == db.exps[id].(metrics := f.metrics, results := f.results) && Stage(f) == Stage(db.exps[id])
    requires Official in f.metrics <==> Official in db.exps[id].metrics
    ensures Fits(db, id, f)
  {}

  lemma UpdateKeepsExps(db: Db, id: Id, f: Exp, lim: Limits)
    requires DbInv(db, lim) && ExpInv(f, lim.repairs)
    ensures forall x :: x in With(db, id, f).exps ==> ExpInv(With(db, id, f).exps[x], lim.repairs)
  {
    hide ExpInv;
  }

  /** `b` with other counters, phase, order or incumbent: the parts that read only experiments and champion stay. */
  lemma PartsStay(b: Db, next: Db, lim: Limits)
    requires next == b.(evaluations := next.evaluations, phase := next.phase, best := next.best)
    requires ChampionInv(b) && OrderInv(b, lim)
    ensures ChampionInv(next) && OrderInv(next, lim)
  {}

  lemma OfficialMeterFits(db: Db, id: Id, f: Exp)
    requires id in db.exps && Official !in db.exps[id].metrics && Official in f.metrics
    requires FinalsInv(db) && forall x :: x in db.exps ==> PlaceInv(db, x)
    requires f == db.exps[id].(metrics := f.metrics) && Stage(f) == Stage(db.exps[id])
    requires db.phase == FINALIST_LOCKED && db.finalist == Some(id)
    ensures var next := With(db, id, f).(evaluations := db.evaluations + 1);
      FinalsInv(next) && forall x :: x in next.exps ==> PlaceInv(next, x)
  {
    hide Stage;
    var next := With(db, id, f).(evaluations := db.evaluations + 1);
    forall x | x in next.exps ensures PlaceInv(next, x) {
      assert PlaceInv(db, x);
    }
  }

  lemma CountedSuccessor(a: Db, b: Db)
    requires Successor(a, b) && a.evaluations == b.evaluations
    ensures Successor(a, b.(evaluations := b.evaluations + 1))
  {
    hide ExpStep, OfficialStage;
  }

  /** The official metrics of the finalist are counted once. */
  lemma OfficialMeterKeeps(db: Db, id: Id, primary: int, lim: Limits)
    requires DbInv(db, lim) && id in db.exps && Official !in db.exps[id].metrics
    requires db.phase == FINALIST_LOCKED && db.finalist == Some(id)
    ensures var f := db.exps[id].(metrics := db.exps[id].metrics[Official := primary]);
      var next := With(db, id, f).(evaluations := db.evaluations + 1);
      DbInv(next, lim) && Successor(db, next)
  {
    hide ExpInv, ExpStep, PlaceInv, FinalsInv, ChampionInv, OrderInv, Stage, Successor;
    var f := db.exps[id].(metrics := db.exps[id].metrics[Official := primary]);
    MeteredKeeps(db.exps[id], Official, primary, lim);
    UpdateIsSuccessor(db, id, f);
    CountedSuccessor(db, With(db, id, f));
    UpdateKeepsChampion(db, id, f);
    UpdateKeepsOrder(db, id, f, lim);
    UpdateKeepsExps(db, id, f, lim);
    OfficialMeterFits(db, id, f);
    PartsStay(With(db, id, f), With(db, id, f).(evaluations := db.evaluations + 1), lim);
  }

  lemma RecordSound(db: Db, id: Id, rung: Rung, o: Observation, lim: Limits)
    requires DbInv(db, lim) && id in db.exps && db.exps[id].state == Running(rung) && rung !in db.exps[id].results
    ensures Sound(db, Record(id, rung, o), lim)
  {
    hide DbInv, ExpInv, Successor, ExpStep, Stage, SpotOf, PlaceInv, FinalsInv, ResultsInv, OfficialStage, FinalistInv;
    ExpSound(db, id, lim);
    var f := db.exps[id].(results := db.exps[id].results[rung := o]);
    RecordedKeeps(db.exps[id], rung, o, lim);
    MeteredFits(db, id, f);
    UpdateKeeps(db, id, f, lim);
  }

  lemma RecordedKeeps(e: Exp, rung: Rung, o: Observation, lim: Limits)
    requires ExpInv(e, lim.repairs) && rung !in e.results
    ensures var f := e.(results := e.results[rung := o]);
      ExpInv(f, lim.repairs) && ExpStep(e, f) && f.shadow == e.shadow && Stage(f) == Stage(e)
  {
    var f := e.(results := e.results[rung := o]);
    MoreEvidence(e, f);
    SameSpotKeeps(e, f, lim);
  }

  lemma ShadowedKeeps(e: Exp, lim: Limits)
    requires ExpInv(e, lim.repairs) && e.state == DIAGNOSED && e.shadow.None?
    ensures Full in e.results
    ensures var f := e.(shadow := Some(e.results[Full]));
      ExpInv(f, lim.repairs) && ExpStep(e, f) && Stage(f) == Stage(e)
  {
    var f := e.(shadow := Some(e.results[Full]));
    assert ResultsInv(f) && GatesInv(f);
    SameSpotKeeps(e, f, lim);
  }

  /** The champion is replaced only by a strictly better supported candidate, so it stays the best. */
  lemma ShadowKeepsChampion(db: Db, id: Id, o: Observation)
    requires ChampionInv(db) && id in db.exps && db.exps[id].shadow.None? && db.exps[id].state == DIAGNOSED
    requires db.phase == DISCOVERY && db.finalist.None?
    ensures ChampionInv(ApplyShadow(db, id, o).value)
  {
    var next := ApplyShadow(db, id, o).value;
    forall x | x in next.exps && Supported(next.exps[x])
      ensures next.champion.Some? && next.exps[x].shadow.value.primary <= ShadowBest(next)
    {
      if x != id {
        assert Supported(db.exps[x]);
      }
    }
  }

  lemma ShadowFits(db: Db, id: Id, o: Observation)
    requires id in db.exps && db.exps[id].shadow.None? && db.exps[id].state == DIAGNOSED && db.phase == DISCOVERY
    requires FinalsInv(db) && forall x :: x in db.exps ==> PlaceInv(db, x)
    ensures var next := ApplyShadow(db, id, o).value;
      FinalsInv(next) && forall x :: x in next.exps ==> PlaceInv(next, x)
  {
    var next := ApplyShadow(db, id, o).value;
    forall x | x in next.exps ensures PlaceInv(next, x) {
      assert PlaceInv(db, x);
    }
  }

  lemma ShadowSound(db: Db, id: Id, lim: Limits)
    requires DbInv(db, lim) && id in db.exps && db.exps[id].state == DIAGNOSED && Full in db.exps[id].results
    ensures Sound(db, Shadow(id, db.exps[id].results[Full]), lim)
  {
    hide ExpInv, ExpStep, PlaceInv, ChampionInv, OrderInv, Stage, Successor, ResultsInv;
    var o := db.exps[id].results[Full];
    if db.exps[id].shadow.Some? {
      NothingChanges(db, lim);
    } else if db.phase == DISCOVERY {
      var f := db.exps[id].(shadow := Some(o));
      ShadowedKeeps(db.exps[id], lim);
      UpdateKeepsExps(db, id, f, lim);
      UpdateKeepsOrder(db, id, f, lim);
      ShadowKeepsChampion(db, id, o);
      ShadowFits(db, id, o);
      OrderReadsNoChampion(With(db, id, f), ApplyShadow(db, id, o).value, lim);
      SameOfficialStage(f, db.exps[id]);
      UpdateIsSuccessor(db, id, f);
      NewChampion(db, With(db, id, f), ApplyShadow(db, id, o).value);
    }
  }

  lemma SameOfficialStage(a: Exp, b: Exp)
    requires Stage(a) == Stage(b)
    ensures OfficialStage(a) == OfficialStage(b)
  {}

  lemma OrderReadsNoChampion(b: Db, next: Db, lim: Limits)
    requires OrderInv(b, lim) && next == b.(champion := next.champion)
    ensures OrderInv(next, lim)
  {}

  lemma NewChampion(a: Db, b: Db, next: Db)
    requires Successor(a, b) && next == b.(champion := next.champion)
    ensures Successor(a, next)
  {
    hide ExpStep, OfficialStage;
  }

  // ---- proposal, lock, promotion, run -------------------------------------------------

  lemma NewExpHolds(card: SearchPolicy.CardId, maximum: nat)
    ensures ExpInv(NewExp(card), maximum) && Stage(NewExp(card)) == 0 && !Supported(NewExp(card))
  {}

  lemma CreateKeepsOrder(db: Db, id: Id, card: SearchPolicy.CardId, lim: Limits)
    requires OrderInv(db, lim) && id !in db.exps && |db.order| < lim.hypotheses
    requires forall x :: x in db.exps ==> db.exps[x].card != card
    ensures OrderInv(db.(exps := db.exps[id := NewExp(card)], order := db.order + [id]), lim)
  {
    var next := db.(exps := db.exps[id := NewExp(card)], order := db.order + [id]);
    forall x ensures x in next.order <==> x in next.exps {
      assert x in next.order <==> x in db.order || x == id;
    }
  }

  lemma CreateKeepsPlaces(db: Db, id: Id, card: SearchPolicy.CardId)
    requires id !in db.exps && db.phase == DISCOVERY && forall x :: x in db.exps ==> PlaceInv(db, x)
    ensures var next := db.(exps := db.exps[id := NewExp(card)], order := db.order + [id]);
      forall x :: x in next.exps ==> PlaceInv(next, x)
  {
    var next := db.(exps := db.exps[id := NewExp(card)], order := db.order + [id]);
    forall x | x in next.exps ensures PlaceInv(next, x) {
      assert x == id || PlaceInv(db, x);
    }
  }

  lemma CreateKeepsChampion(db: Db, id: Id, card: SearchPolicy.CardId)
    requires id !in db.exps && ChampionInv(db)
    ensures ChampionInv(db.(exps := db.exps[id := NewExp(card)], order := db.order + [id]))
  {
    var next := db.(exps := db.exps[id := NewExp(card)], order := db.order + [id]);
    forall x | x in next.exps && Supported(next.exps[x])
      ensures next.champion.Some? && next.exps[x].shadow.value.primary <= ShadowBest(next)
    {
      assert x in db.exps && Supported(db.exps[x]);
    }
  }

  lemma CreateIsSuccessor(db: Db, id: Id, card: SearchPolicy.CardId)
    requires id !in db.exps && db.phase == DISCOVERY
    ensures Successor(db, db.(exps := db.exps[id := NewExp(card)], order := db.order + [id]))
  {
    forall x | x in db.exps ensures ExpStep(db.exps[x], db.exps[x]) {
      StepOfSame(db.exps[x]);
    }
    hide ExpStep, OfficialStage;
  }

  /** A proposal for a card that was never tried adds one experiment while discovery is open. */
  lemma CreateSound(db: Db, id: Id, card: SearchPolicy.CardId, lim: Limits)
    requires DbInv(db, lim) && db.phase == DISCOVERY
    requires forall x :: x in db.exps ==> db.exps[x].card != card
    ensures Sound(db, Create(id, card), lim)
    ensures Apply(db, Create(id, card), lim)
      == if id in db.exps || |db.order| >= lim.hypotheses then Refused
         else Ok(db.(exps := db.exps[id := NewExp(card)], order := db.order + [id]))
  {
    hide ExpInv, PlaceInv, ChampionInv, OrderInv, Successor;
    if id !in db.exps && |db.order| < lim.hypotheses {
      NewExpHolds(card, lim.repairs);
      CreateKeepsOrder(db, id, card, lim);
      CreateKeepsPlaces(db, id, card);
      CreateKeepsChampion(db, id, card);
      CreateIsSuccessor(db, id, card);
    }
  }

  lemma LockIsSuccessor(db: Db, id: Id)
    requires db.phase == DISCOVERY && AllSettled(db)
    ensures Successor(db, db.(phase := FINALIST_LOCKED, finalist := Some(id)))
  {
    forall x | x in db.exps ensures ExpStep(db.exps[x], db.exps[x]) {
      StepOfSame(db.exps[x]);
    }
    hide ExpStep, OfficialStage;
  }

  lemma LockFits(db: Db, id: Id)
    requires db.phase == DISCOVERY && AllSettled(db) && db.champion == Some(id) && id in db.exps
    requires Supported(db.exps[id])
    requires FinalsInv(db) && forall x :: x in db.exps ==> PlaceInv(db, x)
    ensures var next := db.(phase := FINALIST_LOCKED, finalist := Some(id));
      && FinalsInv(next) && (forall x :: x in next.exps ==> PlaceInv(next, x))
      && db.exps[id].state == DIAGNOSED && db.evaluations == 0
  {
    var next := db.(phase := FINALIST_LOCKED, finalist := Some(id));
    assert PlaceInv(db, id);
    forall x | x in next.exps ensures PlaceInv(next, x) {
      assert PlaceInv(db, x);
    }
  }

  lemma LockKeepsParts(db: Db, id: Id, lim: Limits)
    requires OrderInv(db, lim) && ChampionInv(db) && db.champion == Some(id)
    ensures var next := db.(phase := FINALIST_LOCKED, finalist := Some(id)); OrderInv(next, lim) && ChampionInv(next)
  {
    hide Supported;
  }

  /** Whoever asks, the store binds only a supported, diagnosed candidate of an open and unevaluated search. */
  lemma LockIsGuarded(db: Db, id: Id, lim: Limits)
    requires db.finalist.None? && Apply(db, Lock(id), lim).Ok?
    ensures db.phase == DISCOVERY && db.evaluations == 0
    ensures id in db.exps && db.exps[id].state == DIAGNOSED
    ensures db.exps[id].shadow.Some? && db.exps[id].shadow.value.passes
  {}

  /** The lock succeeds on the champion of a settled record and changes phase and finalist only. */
  lemma LockSound(db: Db, id: Id, lim: Limits)
    requires DbInv(db, lim) && db.phase == DISCOVERY && AllSettled(db) && db.champion == Some(id)
    ensures id in db.exps && Sound(db, Lock(id), lim)
    ensures Apply(db, Lock(id), lim) == Ok(db.(phase := FINALIST_LOCKED, finalist := Some(id)))
  {
    hide ExpInv, PlaceInv, OrderInv, Successor, AllSettled, Supported;
    LockKeepsParts(db, id, lim);
    LockFits(db, id);
    LockIsSuccessor(db, id);
  }

  function Promoted(e: Exp, target: ExperimentState): Exp
  {
    Moved(e, target, Plain, Go(SearchPromotion))
  }

  /** All three gates were passed by the time of a promotion. */
  lemma PromotedGates(e: Exp, target: ExperimentState)
    requires ResultsInv(e) && GatesInv(e) && e.state == OFFICIAL_VALID_COMPLETE && Passes(e, Official)
    requires target == PROMOTED || target == REJECTED
    ensures GatesInv(Promoted(e, target))
  {}

  lemma PromotedKeys(e: Exp, target: ExperimentState)
    requires KeysInv(e) && e.state == OFFICIAL_VALID_COMPLETE && (target == PROMOTED || target == REJECTED)
    ensures Go(SearchPromotion) !in e.keys && KeysInv(Promoted(e, target))
    ensures Advance(SpotOf(e), SpotOf(Promoted(e, target))) && Stage(Promoted(e, target)) == SETTLED
  {
    hide KeysInv, CarriedThrough, Begun;
    Unused(e, Go(SearchPromotion));
    KeysAfterMove(e, target, Plain, Go(SearchPromotion), Row(e.state, target, Plain), Promoted(e, target));
  }

  lemma PromotedKeepsRepairs(e: Exp, target: ExperimentState, maximum: nat)
    requires RepairsInv(e, maximum) && e.state == OFFICIAL_VALID_COMPLETE && (target == PROMOTED || target == REJECTED)
    ensures RepairsInv(Promoted(e, target), maximum)
  {}

  lemma PromotedKeeps(e: Exp, target: ExperimentState, lim: Limits)
    requires ExpInv(e, lim.repairs) && e.state == OFFICIAL_VALID_COMPLETE && (target == PROMOTED || target == REJECTED)
    requires Passes(e, Official)
    ensures Go(SearchPromotion) !in e.keys
    ensures ExpInv(Promoted(e, target), lim.repairs) && ExpStep(e, Promoted(e, target))
  {
    hide KeysInv, RepairsInv, ExpStep, ResultsInv, GatesInv, SpotOf, Advance, Stage, Passes;
    PromotedGates(e, target);
    PromotedKeys(e, target);
    PromotedKeepsRepairs(e, target, lim.repairs);
    ResultsStay(e, Promoted(e, target));
    MoveIsStep(e, target, Plain, Go(SearchPromotion));
  }

  lemma PromotedFits(db: Db, id: Id, target: ExperimentState, best: int)
    requires id in db.exps && db.exps[id].state == OFFICIAL_VALID_COMPLETE && (target == PROMOTED || target == REJECTED)
    requires FinalsInv(db) && forall x :: x in db.exps ==> PlaceInv(db, x)
    ensures var next := With(db, id, Promoted(db.exps[id], target)).(phase := OFFICIAL_EVALUATED, best := best);
      && FinalsInv(next) && (forall x :: x in next.exps ==> PlaceInv(next, x))
      && db.phase == FINALIST_LOCKED && db.finalist == Some(id)
  {
    assert PlaceInv(db, id);
    var next := With(db, id, Promoted(db.exps[id], target)).(phase := OFFICIAL_EVALUATED, best := best);
    forall x | x in next.exps ensures PlaceInv(next, x) {
      assert PlaceInv(db, x);
    }
  }

  lemma EvaluatedSuccessor(a: Db, b: Db, best: int)
    requires Successor(a, b) && a.phase == b.phase == FINALIST_LOCKED && a.finalist == b.finalist
    ensures Successor(a, b.(phase := OFFICIAL_EVALUATED, best := best))
  {
    hide ExpStep, OfficialStage;
  }

  /** Promotion or rejection of the finalist completes the phase in the same transaction. */
  lemma PromoteSound(db: Db, id: Id, primary: int, lim: Limits)
    requires DbInv(db, lim) && id in db.exps && db.exps[id].state == OFFICIAL_VALID_COMPLETE
    requires Passes(db.exps[id], Official)
    ensures Sound(db, Promote(id, primary), lim)
    ensures Apply(db, Promote(id, primary), lim)
      == Ok(With(db, id, Promoted(db.exps[id], if primary > db.best then PROMOTED else REJECTED)).(
              phase := OFFICIAL_EVALUATED, best := if primary > db.best then primary else db.best))
  {
    hide ExpInv, PlaceInv, OrderInv, ChampionInv, Successor, FinalsInv, ExpStep;
    var target := if primary > db.best then PROMOTED else REJECTED;
    var best := if primary > db.best then primary else db.best;
    var f := Promoted(db.exps[id], target);
    PromotedKeeps(db.exps[id], target, lim);
    PromotedFits(db, id, target, best);
    UpdateKeepsExps(db, id, f, lim);
    UpdateKeepsChampion(db, id, f);
    UpdateKeepsOrder(db, id, f, lim);
    UpdateIsSuccessor(db, id, f);
    EvaluatedSuccessor(db, With(db, id, f), best);
    PartsStay(With(db, id, f), With(db, id, f).(phase := OFFICIAL_EVALUATED, best := best), lim);
  }

  lemma MoveRunSound(db: Db, before: RunState, after: RunState, lim: Limits)
    requires DbInv(db, lim)
    ensures Sound(db, MoveRun(before, after), lim)
  {
    hide ExpInv, ExpStep, OfficialStage, ExperimentTransitions;
    forall x | x in db.exps ensures ExpStep(db.exps[x], db.exps[x]) {
      StepOfSame(db.exps[x]);
    }
    var next := db.(run := after);
    forall x | x in next.exps ensures PlaceInv(next, x) {
      assert PlaceInv(db, x);
    }
    assert ChampionInv(next) by {
      forall x | x in next.exps && Supported(next.exps[x])
        ensures next.champion.Some? && next.exps[x].shadow.value.primary <= ShadowBest(next)
      {
        assert Supported(db.exps[x]);
      }
    }
  }

  // ---- the discipline ------------------------------------------------------------------

  /** Every planned write is sound: no plan breaks the record or takes an illegal or backward step. */
  lemma PlannedIsSound(db: Db, w: Write, lim: Limits)
    requires DbInv(db, lim) && Planned(db, w, lim)
    ensures Sound(db, w, lim)
  {
    hide DbInv, Sound, Apply;
    match w
    case Create(id, card) => CreateSound(db, id, card, lim);
    case MoveRun(before, after) => MoveRunSound(db, before, after, lim);
    case Reserve(id, phase, status, action) => ReserveSound(db, id, lim);
    case Complete(id, k, evidence) => CompleteSound(db, id, evidence, lim);
    case Meter(id, rung, primary) => MeterSound(db, id, rung, primary, lim);
    case Record(id, rung, o) => RecordSound(db, id, rung, o, lim);
    case Shadow(id, o) => ShadowSound(db, id, lim);
    case Lock(id) => LockSound(db, id, lim);
    case Promote(id, primary) => PromoteSound(db, id, primary, lim);
    case Move(id, from, to, payload, key) =>
      match key
      case Go(m) => GoSound(db, id, m, lim);
      case Failure(p, u) => FailingSound(db, id, p, w.payload.status, lim);
      case FailedFinal(p, u) => GivingUpSound(db, id, p, u, lim);
      case Repairing(k) => StartingSound(db, id, lim);
      case Repaired(k) => EndingSound(db, id, lim);
      case RepairFailed(k) => FailingRepairSound(db, id, lim);
  }
}
