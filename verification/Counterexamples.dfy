/**
  Two records the supervisor reaches and cannot leave: a second failure that crashed
  before its repair was reserved, and a finalist that the official gate rejected.
 */
module Counterexamples {
  import opened Options
  import opened Processes
  import opened Lifecycle
  import opened Store
  import opened Discipline
  import opened PlannedWrites
  import opened RecordSoundness
  import opened Histories
  import opened Causes
  import opened Supervisor
  import SearchPolicy

  const ID: Id := "c1"

  /** A run: its records and the writes between them. */
  datatype Trail = Trail(records: seq<Db>, writes: seq<Write>)

  ghost predicate Runs(t: Trail, lim: Limits)
  {
    IsRun(t.records, t.writes, lim)
  }

  ghost function Last(t: Trail): Db
    requires t.records != []
  {
    t.records[|t.records| - 1]
  }

  ghost function Candidate(t: Trail): Exp
    requires t.records != [] && ID in Last(t).exps
  {
    Last(t).exps[ID]
  }

  /** Everything in the record but the experiments. */
  ghost function Rest(t: Trail): Db
    requires t.records != []
  {
    Last(t).(exps := map[])
  }

  /** The candidate is the only experiment. */
  ghost predicate Alone(t: Trail)
  {
    t.records != [] && Last(t).exps.Keys == {ID}
  }

  /** `u` goes on from `t` with the given writes. */
  ghost predicate GoesOn(t: Trail, u: Trail, writes: seq<Write>, lim: Limits)
  {
    Runs(u, lim) && u.records != [] && t.records != [] && u.records[0] == t.records[0] && u.writes == t.writes + writes
  }

  lemma LastIsSound(t: Trail, lim: Limits)
    requires Runs(t, lim)
    ensures t.records != [] && DbInv(Last(t), lim)
  {
    hide DbInv, Planned, Apply;
    RunIsChain(t.records, t.writes, lim);
  }

  lemma Write(t: Trail, w: Write, lim: Limits) returns (u: Trail)
    requires Runs(t, lim) && t.records != [] && Planned(Last(t), w, lim) && Apply(Last(t), w, lim).Ok?
    ensures GoesOn(t, u, [w], lim) && Last(u) == Apply(Last(t), w, lim).value
  {
    hide DbInv, Successor, Planned, Apply;
    RunGrows(t.records, t.writes, w, lim);
    u := Trail(t.records + [Apply(Last(t), w, lim).value], t.writes + [w]);
  }

  lemma Advance(t: Trail, m: Mark, lim: Limits) returns (u: Trail)
    requires Runs(t, lim) && Alone(t) && PlannedGo(Last(t), ID, m)
    ensures GoesOn(t, u, [Advancing(ID, m)], lim) && Alone(u) && Rest(u) == Rest(t)
    ensures Candidate(u) == Moved(Candidate(t), To(m), Plain, Go(m))
  {
    hide Runs, Apply, DbInv, Successor;
    LastIsSound(t, lim);
    GoSound(Last(t), ID, m, lim);
    GoIsPlanned(Last(t), ID, m, lim);
    u := Write(t, Advancing(ID, m), lim);
  }

  /** A new run with its first proposal. */
  lemma Begin(best: int, lim: Limits) returns (t: Trail)
    requires lim.hypotheses >= 1
    ensures Runs(t, lim) && Alone(t) && t.records[0] == Fresh(best) && t.writes == [Create(ID, "E01")]
    ensures Rest(t) == Fresh(best).(order := [ID]) && Candidate(t) == NewExp("E01")
  {
    hide DbInv, Planned, Apply;
    var start := Trail([Fresh(best)], []);
    FirstProposal(best, lim);
    t := Write(start, Create(ID, "E01"), lim);
  }

  lemma FirstProposal(best: int, lim: Limits)
    requires lim.hypotheses >= 1
    ensures Planned(Fresh(best), Create(ID, "E01"), lim)
    ensures Apply(Fresh(best), Create(ID, "E01"), lim)
      == Ok(Fresh(best).(exps := map[ID := NewExp("E01")], order := [ID]))
  {
    assert Fresh(best).exps[ID := NewExp("E01")] == map[ID := NewExp("E01")];
    assert Fresh(best).order + [ID] == [ID];
  }

  /** A plain step that leaves repairs and evidence alone. */
  lemma StepTo(t: Trail, m: Mark, lim: Limits) returns (u: Trail)
    requires Runs(t, lim) && Alone(t) && PlannedGo(Last(t), ID, m)
    ensures GoesOn(t, u, [Advancing(ID, m)], lim) && Alone(u) && Rest(u) == Rest(t)
    ensures Candidate(u) == Candidate(t).(state := To(m), keys := Candidate(u).keys, last := Plain)
  {
    hide Runs, GoesOn;
    u := Advance(t, m, lim);
  }

  const PREPARED: seq<Write> := [
    Advancing(ID, WorktreeReady), Advancing(ID, Patched), Advancing(ID, StaticValid), Advancing(ID, FixtureValid),
    Advancing(ID, CheapRunning)]

  /** Through the safety gates to the cheap rung. */
  lemma ToCheapRung(t: Trail, lim: Limits) returns (u: Trail)
    requires Runs(t, lim) && Alone(t) && Candidate(t) == NewExp("E01")
    ensures GoesOn(t, u, PREPARED, lim) && Alone(u) && Rest(u) == Rest(t)
    ensures Candidate(u) == NewExp("E01").(state := CHEAP_RUNNING, keys := Candidate(u).keys)
  {
    hide Runs;
    var a := StepTo(t, WorktreeReady, lim);
    var b := StepTo(a, Patched, lim);
    var c := StepTo(b, StaticValid, lim);
    var d := StepTo(c, FixtureValid, lim);
    u := StepTo(d, CheapRunning, lim);
  }

  // ---- a failure after a finished repair -------------------------------------------------

  lemma FailureIsPlanned(db: Db, lim: Limits)
    requires ID in db.exps && db.exps[ID].state == CHEAP_RUNNING
    ensures Planned(db, Failing(ID, Cheap, TIMEOUT, |db.exps[ID].repairs|), lim)
  {}

  lemma FailCheap(t: Trail, lim: Limits) returns (u: Trail)
    requires Runs(t, lim) && Alone(t) && Candidate(t).state == CHEAP_RUNNING && Candidate(t).repairs == []
    ensures GoesOn(t, u, [Failing(ID, Cheap, TIMEOUT, 0)], lim) && Alone(u) && Rest(u) == Rest(t)
    ensures Candidate(u) == Moved(Candidate(t), FAILED_REPAIRABLE, Failed(Cheap, TIMEOUT), Failure(Cheap, 0))
  {
    hide Runs, DbInv, Successor, Sound, Planned, Apply, Moved;
    LastIsSound(t, lim);
    FailingSound(Last(t), ID, Cheap, TIMEOUT, lim);
    FailureIsPlanned(Last(t), lim);
    u := Write(t, Failing(ID, Cheap, TIMEOUT, 0), lim);
  }

  lemma ReserveCheap(t: Trail, lim: Limits) returns (u: Trail)
    requires Runs(t, lim) && Alone(t) && Candidate(t).state == FAILED_REPAIRABLE
    requires Candidate(t).repairs == [] && Candidate(t).last == Failed(Cheap, TIMEOUT) && lim.repairs >= 1
    ensures GoesOn(t, u, [Reserve(ID, Cheap, TIMEOUT, REDUCE_WORKLOAD)], lim) && Alone(u) && Rest(u) == Rest(t)
    ensures var e := Candidate(u);
      && e == Candidate(t).(repairs := e.repairs)
      && |e.repairs| == 1 && Pending(e) && e.repairs[0].phase == Cheap
  {
    hide Runs, DbInv, Successor;
    LastIsSound(t, lim);
    ReserveSound(Last(t), ID, lim);
    u := Write(t, Reserve(ID, Cheap, TIMEOUT, REDUCE_WORKLOAD), lim);
  }

  lemma StartCheap(t: Trail, lim: Limits) returns (u: Trail)
    requires Runs(t, lim) && Alone(t) && Candidate(t).state == FAILED_REPAIRABLE
    requires var e := Candidate(t);
      e.last == Failed(Cheap, TIMEOUT) && |e.repairs| == 1 && Pending(e) && e.repairs[0].phase == Cheap
    ensures GoesOn(t, u, [StartingRepair(ID, 1, Cheap)], lim) && Alone(u) && Rest(u) == Rest(t)
    ensures var e, f := Candidate(t), Candidate(u);
      f.state == REPAIRING && f.repairs == e.repairs && f.results == e.results
  {
    hide Runs, DbInv, Successor;
    LastIsSound(t, lim);
    StartingSound(Last(t), ID, lim);
    u := Write(t, StartingRepair(ID, 1, Cheap), lim);
  }

  lemma FinishCheap(t: Trail, lim: Limits) returns (u: Trail)
    requires Runs(t, lim) && Alone(t) && Candidate(t).state == REPAIRING
    requires var e := Candidate(t); |e.repairs| == 1 && Pending(e) && e.repairs[0].phase == Cheap
    ensures GoesOn(t, u, [Complete(ID, 1, 0), EndingRepair(ID, 1, Cheap)], lim) && Alone(u) && Rest(u) == Rest(t)
    ensures var e, f := Candidate(t), Candidate(u);
      f.state == CHEAP_RUNNING && |f.repairs| == 1 && !Pending(f) && f.results == e.results
  {
    hide Runs, DbInv, Successor;
    LastIsSound(t, lim);
    CompleteSound(Last(t), ID, 0, lim);
    var done := Write(t, Complete(ID, 1, 0), lim);
    LastIsSound(done, lim);
    EndingSound(Last(done), ID, lim);
    u := Write(done, EndingRepair(ID, 1, Cheap), lim);
  }

  const REPAIRED: seq<Write> := PREPARED + [
    Failing(ID, Cheap, TIMEOUT, 0), Reserve(ID, Cheap, TIMEOUT, REDUCE_WORKLOAD), StartingRepair(ID, 1, Cheap),
    Complete(ID, 1, 0), EndingRepair(ID, 1, Cheap)]

  /** The cheap rung timed out once and was repaired. */
  lemma RepairedRun(best: int, lim: Limits) returns (t: Trail)
    requires lim.hypotheses >= 1 && lim.repairs >= 1
    ensures Runs(t, lim) && Alone(t) && t.records[0] == Fresh(best) && t.writes == [Create(ID, "E01")] + REPAIRED
    ensures Rest(t) == Fresh(best).(order := [ID])
    ensures var e := Candidate(t);
      e.state == CHEAP_RUNNING && |e.repairs| == 1 && !Pending(e) && e.results == map[]
  {
    hide Runs, Alone, Last, PREPARED;
    var a := Begin(best, lim);
    var b := ToCheapRung(a, lim);
    var c := FailCheap(b, lim);
    var d := ReserveCheap(c, lim);
    var e := StartCheap(d, lim);
    t := FinishCheap(e, lim);
  }

  predicate Marked(world: World, m: Mark, t: nat)
  {
    match m
    case WorktreeReady | Patched | StaticValid | FixtureValid => world.prepare(t).Prepared?
    case PreparationAbandoned => world.prepare(t).Rejected?
    case Diagnosed => world.diagnosed(t)
    case _ => true
  }

  lemma MarkedIsHeard(world: World, m: Mark, t: nat, times: Times)
    requires Marked(world, m, t) && times.entered <= t && times.born <= t && times.now == t + 1
    ensures MarkHeard(world, ID, m, times)
  {
    assert PreparesFor(world, ID, t, times);
  }

  /** What a write after the first needs is answered at moment `t`. */
  ghost predicate Cue(world: World, w: Write, t: nat)
  {
    match w
    case Create(_, _) => false
    case Move(_, _, _, payload, key) =>
      (match key
       case Go(m) => Marked(world, m, t)
       case Failure(_, _) => payload.Failed? && world.rung(t) == Broke(payload.status)
       case FailedFinal(_, _) => false
       case RepairFailed(_) => false
       case _ => true)
    case Reserve(_, _, status, _) => Repairable(status)
    case Complete(_, _, evidence) => world.repair(t) == Some(evidence)
    case Meter(_, _, primary) => world.rung(t).Done? && world.rung(t).observation.primary == primary
    case Record(_, _, o) => world.rung(t) == Done(o)
    case Shadow(_, _) => true
    case Lock(_) => world.stops(t)
    case Promote(_, _) => false
    case MoveRun(_, _) => false
  }

  ghost predicate Cued(world: World, writes: seq<Write>, from: nat)
  {
    forall i :: 0 <= i < |writes| ==> Of(writes[i]) == ID && Cue(world, writes[i], from + i)
  }

  lemma CuedInTurn(world: World, a: seq<Write>, b: seq<Write>, from: nat)
    requires Cued(world, a, from) && Cued(world, b, from + |a|)
    ensures Cued(world, a + b, from)
  {
    hide Cue;
    forall i | 0 <= i < |a + b| ensures Of((a + b)[i]) == ID && Cue(world, (a + b)[i], from + i) {
      if i >= |a| {
        assert (a + b)[i] == b[i - |a|];
      }
    }
  }

  /** A cue at moment `t` is a cause at the next moment, whatever happened before. */
  lemma CueIsHeard(lim: Limits, world: World, policy: Policy, db: Db, w: Write, t: nat, times: Times)
    requires Planned(db, w, lim) && Apply(db, w, lim).Ok? && Of(w) == ID && Cue(world, w, t)
    requires times.entered <= t && times.born <= t && times.newest <= t && times.now == t + 1
    ensures Heard(lim, world, policy, db, w, times)
  {
    hide PlannedMove, MoveExp, CompleteExp, ApplyMeter, ApplyShadow, ApplyLock, ApplyPromote, MarkHeard, Marked;
    match w
    case Move(_, _, _, _, key) =>
      if key.Go? {
        MarkedIsHeard(world, key.mark, t, times);
      }
      assert MoveHeard(lim, world, db.exps[ID], ID, w.payload, key, times);
    case Reserve(_, phase, status, action) => assert MayRepair(db.exps[ID], lim);
    case Complete(_, _, evidence) => assert world.repair(t) == Some(evidence);
    case Meter(_, _, primary) => assert world.rung(t).observation.primary == primary;
    case Record(_, _, o) => assert world.rung(t) == Done(o);
    case Shadow(_, _) =>
    case Lock(_) => assert Closable(policy, lim, world, db, t);
  }

  function Name(t: nat): Id
  {
    ID + seq(t, i => '+')
  }

  /** Worlds of both kinds exist: one whose rungs always time out, and one that is benign and promising. */
  lemma WorldsExist() returns (failing: World, promising: World)
    ensures forall t: nat ::
      && failing.rung(t) == Broke(TIMEOUT) && failing.repair(t) == Some(0) && failing.prepare(t).Prepared?
      && !failing.stops(t)
    ensures failing.proposed(0) == ID && Benign(promising) && Promising(promising) && !promising.stops(0)
  {
    failing := World(t => Broke(TIMEOUT), t => Some(0), t => true, t => Prepared, (t: nat) => Name(t), t => false);
    promising := World(
      t => Done(if t < 17 then GOOD else BAD), t => Some(0), t => true, t => Prepared, (t: nat) => Name(t),
      t => t == 16);
    assert Name(0) == ID;
    forall t: nat, u: nat | Name(t) == Name(u) ensures t == u {
      assert |Name(t)| == |ID| + t && |Name(u)| == |ID| + u;
    }
  }

  /** Both counterexamples start from any policy whose only card is free to be tried. */
  lemma OneCardIsTryable(lim: Limits, world: World, policy: Policy, best: int, c: SearchPolicy.Card)
    requires policy.cards == [c] && c.id == "E01" && c.search && c.prerequisite.None? && c.dependencies == []
    requires "E01" in policy.bound && lim.hypotheses >= 1 && lim.evaluations >= 1 && !world.stops(0)
    ensures Tryable(policy, lim, world, Fresh(best), "E01", 0)
  {
    hide Flags, SearchPolicy.NextCard;
    SearchPolicy.NextCardMayRun(policy.cards, Attempted(Fresh(best)) + Unbound(policy), Flags(policy, Fresh(best)));
  }

  lemma FirstIsHeard(lim: Limits, world: World, policy: Policy, db: Db, times: Times)
    requires Tryable(policy, lim, world, db, "E01", 0) && world.proposed(0) == ID
    requires times.newest == 0 && times.now == 1
    ensures Heard(lim, world, policy, db, Create(ID, "E01"), times)
  {
    hide Tryable;
  }

  lemma StepOf(t: Trail, lim: Limits, i: nat)
    requires Runs(t, lim) && i < |t.writes|
    ensures |t.records| == |t.writes| + 1
    ensures Planned(t.records[i], t.writes[i], lim) && Apply(t.records[i], t.writes[i], lim) == Ok(t.records[i + 1])
    ensures t.records[..i + 1] + [t.records[i + 1]] == t.records[..i + 2]
  {
    hide Planned, Apply;
  }

  /** A process that makes the given store calls, one at each moment. */
  method Replay(lim: Limits, world: World, policy: Policy, best: int, writes: seq<Write>, ghost t: Trail)
    returns (a: Autopilot)
    requires Runs(t, lim) && t.writes == [Create(ID, "E01")] + writes && t.records != [] && t.records[0] == Fresh(best)
    requires Tryable(policy, lim, world, Fresh(best), "E01", 0) && world.proposed(0) == ID && Cued(world, writes, 1)
    ensures fresh(a) && a.Valid() && a.history == t.records && a.budget.None?
    ensures a.lim == lim && a.world == world && a.policy == policy && a.clock == |writes| + 1
  {
    hide Runs, Planned, Apply, Recorded, Cue, Tryable, Entered, Born, Heard, Moves;
    StepOf(t, lim, 0);
    a := new Autopilot(lim, world, policy, best, None);
    var now := a.Now();
    FirstIsHeard(lim, world, policy, a.db, a.Timing(ID));
    var created := a.Call(Create(ID, "E01"));
    for i := 0 to |writes|
      invariant a.Valid() && a.budget.None? && a.history == t.records[..i + 2] && a.clock == i + 1
    {
      StepOf(t, lim, i + 1);
      now := a.Now();
      assert t.writes[i + 1] == writes[i] && a.db == t.records[i + 1];
      CueIsHeard(lim, world, policy, a.db, writes[i], i + 1, a.Timing(ID));
      var o := a.Call(writes[i]);
    }
  }

  lemma RepairsAreCued(world: World)
    requires forall t: nat ::
      world.rung(t) == Broke(TIMEOUT) && world.repair(t) == Some(0) && world.prepare(t).Prepared?
    ensures Cued(world, REPAIRED, 1)
  {}

  /**
    After a repaired failure the rung fails again, and the process lives for one more
    store call: it dies with a stale experiment, from which no later process can get on.
   */
  method StaleIsReachable(lim: Limits, world: World, policy: Policy, best: int) returns (a: Autopilot, o: Outcome<bool>)
    requires lim.repairs >= 1
    requires Tryable(policy, lim, world, Fresh(best), "E01", 0) && world.proposed(0) == ID
    requires forall t: nat ::
      world.rung(t) == Broke(TIMEOUT) && world.repair(t) == Some(0) && world.prepare(t).Prepared?
    ensures fresh(a) && a.Valid() && a.lim == lim && a.world == world && a.history[0] == Fresh(best)
    ensures o.Crash? && ID in a.db.exps && Stale(a.db.exps[ID])
  {
    hide Runs, Recorded, REPAIRED, Cued, Picked;
    ghost var t := RepairedRun(best, lim);
    RepairsAreCued(world);
    a := Replay(lim, world, policy, best, REPAIRED, t);
    a.budget := Some(1);
    assert a.db == Last(t);
    assert a.db.exps[ID].state == Running(Cheap);
    o := a.Run();
  }

  // ---- a finalist that the official gate rejects -------------------------------------------

  const GOOD := Observation(true, 1)
  const BAD := Observation(false, 0)

  /** A rung's metrics and evidence are stored. */
  lemma StoreRung(t: Trail, rung: Rung, o: Observation, lim: Limits) returns (u: Trail)
    requires Runs(t, lim) && Alone(t) && Candidate(t).state == Running(rung)
    requires rung !in Candidate(t).results && rung !in Candidate(t).metrics
    requires rung == Official ==>
      && lim.evaluations >= 1 && Last(t).evaluations == 0
      && Last(t).phase == FINALIST_LOCKED && Last(t).finalist == Some(ID)
    ensures GoesOn(t, u, [Meter(ID, rung, o.primary), Record(ID, rung, o)], lim) && Alone(u)
    ensures Rest(u) == Rest(t).(evaluations := if rung == Official then 1 else Last(t).evaluations)
    ensures var e := Candidate(t);
      Candidate(u) == e.(results := e.results[rung := o], metrics := e.metrics[rung := o.primary])
  {
    hide Runs, DbInv;
    var metered := Write(t, Meter(ID, rung, o.primary), lim);
    u := Write(metered, Record(ID, rung, o), lim);
  }

  const CHEAP_PASSED: seq<Write> := [
    Meter(ID, Cheap, 1), Record(ID, Cheap, GOOD), Advancing(ID, CheapComplete), Advancing(ID, FullReserved),
    Advancing(ID, FullRunning)]

  lemma PassCheapRung(t: Trail, lim: Limits) returns (u: Trail)
    requires Runs(t, lim) && Alone(t) && Candidate(t).state == CHEAP_RUNNING
    requires Candidate(t).results == map[] && Candidate(t).metrics == map[]
    ensures GoesOn(t, u, [Meter(ID, Cheap, 1), Record(ID, Cheap, GOOD), Advancing(ID, CheapComplete)], lim)
    ensures Alone(u) && Rest(u) == Rest(t)
    ensures var e, f := Candidate(t), Candidate(u);
      f == e.(state := CHEAP_COMPLETE, results := map[Cheap := GOOD], metrics := map[Cheap := 1],
              keys := f.keys, last := f.last)
  {
    hide Runs;
    var a := StoreRung(t, Cheap, GOOD, lim);
    u := StepTo(a, CheapComplete, lim);
  }

  lemma ToFullRung(t: Trail, lim: Limits) returns (u: Trail)
    requires Runs(t, lim) && Alone(t) && Candidate(t).state == CHEAP_RUNNING
    requires Candidate(t).results == map[] && Candidate(t).metrics == map[]
    ensures GoesOn(t, u, CHEAP_PASSED, lim) && Alone(u) && Rest(u) == Rest(t)
    ensures var e, f := Candidate(t), Candidate(u);
      f == e.(state := FULL_RUNNING, results := map[Cheap := GOOD], metrics := map[Cheap := 1],
              keys := f.keys, last := f.last)
  {
    hide Runs;
    var a := PassCheapRung(t, lim);
    var b := StepTo(a, FullReserved, lim);
    u := StepTo(b, FullRunning, lim);
  }

  const FULL_PASSED: seq<Write> := [
    Meter(ID, Full, 1), Record(ID, Full, GOOD), Advancing(ID, FullComplete), Advancing(ID, Diagnosed)]

  lemma ToDiagnosis(t: Trail, lim: Limits) returns (u: Trail)
    requires Runs(t, lim) && Alone(t) && Candidate(t).state == FULL_RUNNING
    requires Cheap in Candidate(t).results && Full !in Candidate(t).results && Full !in Candidate(t).metrics
    ensures GoesOn(t, u, FULL_PASSED, lim) && Alone(u) && Rest(u) == Rest(t)
    ensures var e, f := Candidate(t), Candidate(u);
      && f == e.(state := DIAGNOSED, results := f.results, metrics := f.metrics, keys := f.keys, last := f.last)
      && f.results == e.results[Full := GOOD] && f.metrics == e.metrics[Full := 1]
  {
    hide Runs, Stage, MarkStage, From, To, PlannedGo;
    FullMarks();
    var a := StoreRung(t, Full, GOOD, lim);
    GoesAhead(Last(a), FullComplete);
    var b := StepTo(a, FullComplete, lim);
    GoesAhead(Last(b), Diagnosed);
    u := StepTo(b, Diagnosed, lim);
  }

  lemma GoesAhead(db: Db, m: Mark)
    requires ID in db.exps && db.exps[ID].state == From(m)
    requires m == Diagnosed || (m == FullComplete && Full in db.exps[ID].results)
    ensures PlannedGo(db, ID, m)
  {}

  lemma FullMarks()
    ensures From(FullComplete) == FULL_RUNNING && To(FullComplete) == FULL_COMPLETE
    ensures From(Diagnosed) == FULL_COMPLETE && To(Diagnosed) == DIAGNOSED
  {}

  /** The candidate is supported on the shadow folds and locked as the finalist. */
  lemma LockCandidate(t: Trail, lim: Limits) returns (u: Trail)
    requires Runs(t, lim) && Alone(t) && Candidate(t).state == DIAGNOSED && Candidate(t).shadow == None
    requires Full in Candidate(t).results && Candidate(t).results[Full] == GOOD
    requires Last(t).phase == DISCOVERY && Last(t).champion == None && Last(t).finalist == None
    requires Last(t).evaluations == 0
    ensures GoesOn(t, u, [Shadow(ID, GOOD), Lock(ID)], lim) && Alone(u)
    ensures Rest(u) == Rest(t).(champion := Some(ID), phase := FINALIST_LOCKED, finalist := Some(ID))
    ensures Candidate(u) == Candidate(t).(shadow := Some(GOOD))
  {
    hide Runs, DbInv;
    var evaluated := Write(t, Shadow(ID, GOOD), lim);
    u := Write(evaluated, Lock(ID), lim);
  }

  const OFFICIAL_FAILED: seq<Write> := [
    Advancing(ID, OfficialRunning), Meter(ID, Official, 0), Record(ID, Official, BAD), Advancing(ID, OfficialComplete)]

  lemma FailOfficially(t: Trail, lim: Limits) returns (u: Trail)
    requires Runs(t, lim) && Alone(t) && Candidate(t).state == DIAGNOSED && lim.evaluations >= 1
    requires Last(t).phase == FINALIST_LOCKED && Last(t).finalist == Some(ID) && Last(t).evaluations == 0
    requires Official !in Candidate(t).results && Official !in Candidate(t).metrics
    ensures GoesOn(t, u, OFFICIAL_FAILED, lim) && Alone(u) && Rest(u) == Rest(t).(evaluations := 1)
    ensures var e, f := Candidate(t), Candidate(u);
      && f.state == OFFICIAL_VALID_COMPLETE && f.repairs == e.repairs
      && f.results == e.results[Official := BAD] && f.metrics == e.metrics[Official := 0]
  {
    hide Runs;
    var a := StepTo(t, OfficialRunning, lim);
    var b := StoreRung(a, Official, BAD, lim);
    u := StepTo(b, OfficialComplete, lim);
  }

  const REFUSED: seq<Write> :=
    PREPARED + CHEAP_PASSED + FULL_PASSED + [Shadow(ID, GOOD), Lock(ID)] + OFFICIAL_FAILED

  /** The only candidate passed every rung but the official one. */
  lemma RefusedRun(best: int, lim: Limits) returns (t: Trail)
    requires lim.hypotheses >= 1 && lim.evaluations >= 1
    ensures Runs(t, lim) && Alone(t) && t.records[0] == Fresh(best) && t.writes == [Create(ID, "E01")] + REFUSED
    ensures Last(t).run == SEARCHING && Last(t).phase == FINALIST_LOCKED && Last(t).finalist == Some(ID)
    ensures var e := Candidate(t);
      e.state == OFFICIAL_VALID_COMPLETE && Fails(e, Official) && !Half(e) && e.repairs == []
  {
    hide Runs, Alone, Last, PREPARED, CHEAP_PASSED, FULL_PASSED, OFFICIAL_FAILED;
    var a := Begin(best, lim);
    var b := ToCheapRung(a, lim);
    var c := ToFullRung(b, lim);
    var d := ToDiagnosis(c, lim);
    var e := LockCandidate(d, lim);
    t := FailOfficially(e, lim);
  }

  /** Once the locked finalist has failed the official rung, no later record is concluded. */
  lemma NeverConcluded(h: seq<Db>, lim: Limits, i: nat, id: Id)
    requires History(h, lim) && i < |h| && h[i].phase == FINALIST_LOCKED && h[i].finalist == Some(id)
    requires id in h[i].exps && h[i].exps[id].state == OFFICIAL_VALID_COMPLETE && Fails(h[i].exps[id], Official)
    ensures !Concluded(h[|h| - 1])
  {
    var writes :| IsRun(h, writes, lim);
    hide History, IsRun, AllFinished;
    var j := |h| - 1;
    PhaseOnlyAdvances(h, lim, i, j);
    AfterTheOfficialRung(h, lim, i, j, id);
    TrailIsAppendOnly(h, lim, i, j, id);
    if h[j].phase == OFFICIAL_EVALUATED {
      PhaseEndsByPassing(h, writes, lim, j);
    }
  }

  /** A world in which the candidate passes every rung before moment 17 and none from then on. */
  ghost predicate Promising(world: World)
  {
    && (forall t: nat :: world.rung(t) == Done(if t < 17 then GOOD else BAD))
    && (forall t: nat :: world.prepare(t).Prepared?) && world.proposed(0) == ID && world.stops(16)
  }

  lemma SegmentsAreCued(world: World)
    requires Benign(world) && Promising(world)
    ensures Cued(world, PREPARED, 1) && Cued(world, CHEAP_PASSED, 6) && Cued(world, FULL_PASSED, 11)
    ensures Cued(world, [Shadow(ID, GOOD), Lock(ID)], 15) && Cued(world, OFFICIAL_FAILED, 17)
  {}

  lemma RefusalIsCued(world: World)
    requires Benign(world) && Promising(world)
    ensures Cued(world, REFUSED, 1)
  {
    SegmentsAreCued(world);
    hide Cued, Cue, Benign, Promising;
    CuedInTurn(world, PREPARED, CHEAP_PASSED, 1);
    CuedInTurn(world, PREPARED + CHEAP_PASSED, FULL_PASSED, 1);
    CuedInTurn(world, PREPARED + CHEAP_PASSED + FULL_PASSED, [Shadow(ID, GOOD), Lock(ID)], 1);
    CuedInTurn(world, PREPARED + CHEAP_PASSED + FULL_PASSED + [Shadow(ID, GOOD), Lock(ID)], OFFICIAL_FAILED, 1);
  }

  /**
    The official gate rejects the finalist: a process that no crash interrupts rejects it and
    returns from a record with the phase still locked, which no process ever leaves.
   */
  method StuckIsReachable(lim: Limits, world: World, policy: Policy, best: int) returns (a: Autopilot, o: Outcome<bool>)
    requires Tryable(policy, lim, world, Fresh(best), "E01", 0)
    requires Benign(world) && Promising(world)
    ensures fresh(a) && a.Valid() && a.lim == lim && a.world == world && a.history[0] == Fresh(best)
    ensures o.Fine? && !o.value && Stuck(a.db)
  {
    hide Runs, History, Recorded, REFUSED, Half, Benign, Concluded, Stuck, Cued, Picked;
    ghost var t := RefusedRun(best, lim);
    RefusalIsCued(world);
    NewIds(world);
    a := Replay(lim, world, policy, best, REFUSED, t);
    assert a.db == Last(t);
    o := a.Run();
    assert a.history[|t.records| - 1] == Last(t);
    RecordFacts(a.history, a.writes, a.stamps, a.clock, lim, world, policy);
    NeverConcluded(a.history, lim, |t.records| - 1, ID);
    YesOrNo(o);
  }
}
