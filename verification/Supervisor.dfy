/**
  The production supervisor over the durable record.  Every store call may be the
  last one before the process dies; every hook may answer anything.
 */
module Supervisor {
  import opened Options
  import opened Processes
  import opened Lifecycle
  import opened Store
  import opened Discipline
  import opened PlannedWrites
  import opened RecordSoundness
  import opened Histories
  import opened Causes
  import SearchPolicy

  /** Metrics of a rung are stored but not its result: a crash fell between the two. */
  predicate Half(e: Exp)
  {
    exists r :: r in e.metrics && r !in e.results
  }

  /** No crash left this experiment in the middle of a preparation, a rung or a failure. */
  predicate Smooth(e: Exp)
  {
    !Stale(e) && !Half(e) && !(1 <= Stage(e) <= 3)
  }

  /** Only experiment `id`, the counters and the phase may differ. */
  predicate Touches(a: Db, b: Db, id: Id)
  {
    && id in a.exps && id in b.exps && b.exps[id].card == a.exps[id].card
    && b == a.(exps := a.exps[id := b.exps[id]], evaluations := b.evaluations, phase := b.phase,
               best := b.best, champion := b.champion)
  }

  lemma TouchesChains(a: Db, b: Db, c: Db, id: Id)
    requires Touches(a, b, id) && Touches(b, c, id)
    ensures Touches(a, c, id)
  {
    assert a.exps[id := c.exps[id]] == a.exps[id := b.exps[id]][id := c.exps[id]];
  }

  lemma TouchesItself(db: Db, id: Id)
    requires id in db.exps
    ensures Touches(db, db, id)
  {
    assert db.exps[id := db.exps[id]] == db.exps;
  }

  lemma WithTouches(db: Db, id: Id, f: Exp)
    requires id in db.exps && f.card == db.exps[id].card
    ensures Touches(db, With(db, id, f), id)
  {}

  const LAST := 5 * SETTLED + 5

  /** What is left of the process: store calls before the crash, or steps still ahead without one. */
  function Left(budget: Option<nat>, db: Db, id: Id, maximum: nat): int
    requires id in db.exps
  {
    if budget.Some? then budget.value else LAST + 5 * maximum - Rank(db.exps[id])
  }

  lemma LastIsSound(h: seq<Db>, lim: Limits)
    requires History(h, lim)
    ensures h != [] && DbInv(h[|h| - 1], lim)
  {
    hide DbInv, History;
    HistoryIsChain(h, lim);
  }

  lemma Climbed(a: Db, b: Db, id: Id)
    requires Successor(a, b) && id in a.exps
    ensures id in b.exps && Rank(a.exps[id]) <= Rank(b.exps[id])
    ensures a.exps[id].state != b.exps[id].state ==> Rank(a.exps[id]) < Rank(b.exps[id])
  {
    hide Rank, PhaseStep, OfficialStage;
  }

  /** What the state of an experiment promises. */
  lemma StateFacts(db: Db, id: Id, lim: Limits)
    requires DbInv(db, lim) && id in db.exps
    ensures var e := db.exps[id];
      && (e.state == CHEAP_COMPLETE ==> Cheap in e.results)
      && (e.state == FULL_COMPLETE ==> Full in e.results)
      && (e.state == DIAGNOSED ==> Full in e.results && (e.shadow.Some? ==> e.shadow.value == e.results[Full]))
      && (e.state == OFFICIAL_VALID_COMPLETE ==> Official in e.results)
      && (e.state == REPAIRING ==> e.repairs != [])
      && (e.state == FAILED_REPAIRABLE ==> e.last.Failed? && e.last.status != INTERRUPTED)
      && (Pending(e) ==> e.state == FAILED_REPAIRABLE || e.state == REPAIRING || e.state == FAILED_FINAL)
      && Known(e.state)
  {
    hide KeysInv, PlaceInv, OrderInv, FinalsInv, ChampionInv;
    assert ExpInv(db.exps[id], lim.repairs);
  }

  lemma OfficialFacts(db: Db, id: Id, lim: Limits)
    requires DbInv(db, lim) && id in db.exps
    requires db.exps[id].state == OFFICIAL_VALID_RUNNING || db.exps[id].state == OFFICIAL_VALID_COMPLETE
    ensures db.finalist == Some(id) && db.phase == FINALIST_LOCKED
  {
    hide ExpInv, OrderInv, ChampionInv;
    assert PlaceInv(db, id);
  }

  /** Where a resumption leaves an experiment, given the phase it started in. */
  predicate Resumed(e: Exp, phase: ValidationPhase)
  {
    Rests(e) && (phase == FINALIST_LOCKED ==> Terminal(e.state))
  }

  /** The locked finalist was rejected by the official gate, and nothing is left to do. */
  predicate Stuck(db: Db)
  {
    && db.run == SEARCHING && db.phase == FINALIST_LOCKED && AllFinished(db)
    && db.finalist.Some? && db.finalist.value in db.exps && db.exps[db.finalist.value].state == REJECTED
  }

  /** In a settled field the champion waits for the lock, unless nobody does. */
  lemma ChampionStands(db: Db, lim: Limits)
    requires DbInv(db, lim) && db.phase == DISCOVERY && AllSettled(db)
    ensures db.champion.None? ==> AllFinished(db)
    ensures db.champion.Some? ==>
      && db.champion.value in db.exps && db.exps[db.champion.value].state == DIAGNOSED
      && Full in db.exps[db.champion.value].results
  {
    hide OrderInv, FinalsInv;
    if db.champion.Some? {
      StateFacts(db, db.champion.value, lim);
      assert PlaceInv(db, db.champion.value);
    }
    hide ExpInv;
  }

  function Completion(rung: Rung): Mark
  {
    match rung
    case Cheap => CheapComplete
    case Full => FullComplete
    case Official => OfficialComplete
  }

  function NewestPhase(e: Exp): Rung
  {
    if e.repairs == [] then Cheap else e.repairs[|e.repairs| - 1].phase
  }

  /** The newest repair begun, ended or failed; a stale experiment stays as it is. */
  function Started(e: Exp): Exp
  {
    if !Pending(e) || !e.last.Failed? then e
    else Moved(e, REPAIRING, Reserved(|e.repairs|, e.last.phase), Repairing(|e.repairs|))
  }

  function Ended(e: Exp): Exp
  {
    if Stale(e) then e
    else Moved(e, Running(NewestPhase(e)), Reserved(|e.repairs|, NewestPhase(e)), Repaired(|e.repairs|))
  }

  function Abandoned(e: Exp): Exp
  {
    if Stale(e) then e else Moved(e, FAILED_FINAL, Plain, RepairFailed(|e.repairs|))
  }

  class Autopilot {
    const lim: Limits
    const world: World
    const policy: Policy
    var db: Db
    var clock: nat
    /** Store calls left before the process dies; None when it does not. */
    var budget: Option<nat>
    /** Every durable record so far. */
    ghost var history: seq<Db>
    /** The writes between the records, and the moments at which they were made. */
    ghost var writes: seq<Write>
    ghost var stamps: seq<nat>

    ghost predicate Valid()
      reads this
    {
      && Recorded(history, writes, stamps, clock, lim, world, policy)
      && history != [] && history[|history| - 1] == db && |writes| == |stamps|
    }

    /** When experiment `id` entered its state, when it was created, the newest write, and the moment now. */
    ghost function Timing(id: Id): Times
      requires |writes| == |stamps|
      reads this
    {
      TimesAt(writes, stamps, id, clock)
    }

    constructor (lim: Limits, world: World, policy: Policy, best: int, budget: Option<nat>)
      ensures this.lim == lim && this.world == world && this.policy == policy && this.budget == budget
      ensures Valid() && db == Fresh(best) && history == [Fresh(best)] && writes == [] && stamps == [] && clock == 0
    {
      this.lim, this.world, this.policy, this.budget, clock := lim, world, policy, budget, 0;
      db, history, writes, stamps := Fresh(best), [Fresh(best)], [], [];
      RecordBegins(best, 0, lim, world, policy);
    }

    lemma Holds()
      requires Valid()
      ensures DbInv(db, lim)
    {
      hide DbInv, Recorded;
      RecordFacts(history, writes, stamps, clock, lim, world, policy);
      LastIsSound(history, lim);
    }

    /** An experiment entered its state in the past. */
    lemma InThePast(id: Id)
      requires Valid()
      ensures Timing(id).entered <= clock && Timing(id).born <= clock && Newest(stamps) <= clock
    {
      hide Recorded, Entered, Born;
      RecordFacts(history, writes, stamps, clock, lim, world, policy);
      TimesArePast(writes, stamps, id, clock);
    }

    /** The moment that is now; the clock goes on. */
    method Now() returns (t: nat)
      requires Valid()
      modifies this`clock
      ensures Valid() && t == old(clock) && clock == t + 1
      ensures forall id :: Timing(id) == old(Timing(id)).(now := clock) && old(Timing(id)).entered <= t
      ensures (forall id :: old(Timing(id)).born <= t) && Newest(stamps) <= t
    {
      hide Recorded, Entered, Born;
      forall id ensures Timing(id).entered <= clock && Timing(id).born <= clock && Newest(stamps) <= clock {
        InThePast(id);
      }
      InThePast("");
      RecordLater(history, writes, stamps, clock, clock + 1, lim, world, policy);
      t := clock;
      clock := clock + 1;
    }

    // ---- store calls ---------------------------------------------------------------

    /** One transaction of the store. */
    method Call(w: Write) returns (o: Outcome<()>)
      requires Valid() && Planned(db, w, lim) && Heard(lim, world, policy, db, w, Timing(Of(w)))
      modifies this`db, this`budget, this`history, this`writes, this`stamps
      ensures Valid() && old(history) <= history && Successor(old(db), db)
      ensures budget ==
        if old(budget) == None || old(budget) == Some(0) then old(budget) else Some(old(budget).value - 1)
      ensures o.Crash? <==> old(budget) == Some(0)
      ensures var r := Apply(old(db), w, lim);
        && (o.Fine? ==> r == Ok(db))
        && (o.Raise? ==> r == Refused)
        && (!o.Fine? ==> db == old(db) && history == old(history))
        && (o.Fine? ==> history == old(history) + [db])
      ensures writes == (if o.Fine? then old(writes) + [w] else old(writes))
      ensures stamps == (if o.Fine? then old(stamps) + [clock] else old(stamps))
      ensures var id := Of(w);
        Timing(id) == if !o.Fine? then old(Timing(id)) else old(Timing(id)).(
          entered := if Moves(w, id) then clock else old(Timing(id)).entered,
          born := if w.Create? then clock else old(Timing(id)).born, newest := clock)
    {
      hide Recorded, DbInv, Successor, Planned, Apply, Heard, Entered, Born;
      NothingChanges(db, lim);
      if budget == Some(0) {
        return Crash;
      }
      budget := if budget.Some? then Some(budget.value - 1) else None;
      match Apply(db, w, lim)
      case Refused => return Raise;
      case Ok(next) =>
        Holds();
        PlannedIsSound(db, w, lim);
        RecordGrows(history, writes, stamps, clock, lim, world, policy, w);
        TimesAfter(writes, stamps, Of(w), w, clock);
        db, history, writes, stamps := next, history + [next], writes + [w], stamps + [clock];
        return Fine(());
    }

    /** Only experiment `id` was worked on, and only forward. */
    twostate predicate Handled(id: Id)
      reads this
    {
      && Valid() && old(history) <= history && Later(old(budget), budget) && old(clock) <= clock
      && id in old(db).exps && id in db.exps
      && Touches(old(db), db, id) && Rank(old(db).exps[id]) <= Rank(db.exps[id])
    }

    twostate predicate Worked(id: Id)
      reads this
    {
      Handled(id) && db.phase == old(db).phase && db.champion == old(db).champion
    }

    /** The process is closer to its death, or the experiment to its end. */
    twostate predicate Nearer(id: Id)
      reads this
    {
      && id in old(db).exps && id in db.exps
      && Left(budget, db, id, lim.repairs) < Left(old(budget), old(db), id, lim.repairs)
    }

    /** A call that cannot be refused: it dies or replaces experiment `id` by `f`. */
    twostate predicate Replaces(id: Id, f: Exp, died: bool)
      requires id in old(db).exps
      reads this
    {
      && Worked(id) && db == (if died then old(db) else With(old(db), id, f))
      && db.exps[id] == (if died then old(db).exps[id] else f)
      && (died <==> old(budget) == Some(0))
      && budget == (if died || old(budget).None? then old(budget) else Some(old(budget).value - 1))
    }

    method Step(id: Id, m: Mark) returns (o: Outcome<()>)
      requires Valid() && id in db.exps && PlannedGo(db, id, m) && MarkHeard(world, id, m, Timing(id))
      modifies this`db, this`budget, this`history, this`writes, this`stamps
      ensures !o.Raise? && Replaces(id, Moved(old(db).exps[id], To(m), Plain, Go(m)), o.Crash?)
      ensures Worked(id) && (o.Crash? ==> old(budget).Some? && db == old(db))
      ensures Timing(id).born == old(Timing(id)).born
      ensures o.Fine? ==> Nearer(id) && db.exps[id].state == To(m)
      ensures db.exps[id].results == old(db).exps[id].results && db.exps[id].metrics == old(db).exps[id].metrics
      ensures Half(db.exps[id]) == Half(old(db).exps[id])
    {
      hide DbInv, Recorded, Apply, Sound, Successor, Rank, Heard, To, From, PlannedGo, Half, MarkHeard, TimesAt;
      Holds();
      GoSound(db, id, m, lim);
      GoIsPlanned(db, id, m, lim);
      var w := Advancing(id, m);
      MoveIsHeard(lim, world, policy, db, w, Timing(id));
      o := Call(w);
      Climbed(old(db), db, id);
      GoChangesState(old(db), id, m);
      SameHalf(old(db).exps[id], db.exps[id]);
      assert old(db).exps[id := old(db).exps[id]] == old(db).exps;
    }

    method Fail(id: Id, rung: Rung, status: AttemptStatus, ghost t: nat) returns (o: Outcome<()>)
      requires Valid() && id in db.exps && db.exps[id].state == Running(rung) && status != INTERRUPTED
      requires Timing(id).entered <= t < clock && world.rung(t) == Broke(status)
      modifies this`db, this`budget, this`history, this`writes, this`stamps
      ensures !o.Raise?
      ensures var e := old(db).exps[id];
        Replaces(id, Moved(e, FAILED_REPAIRABLE, Failed(rung, status), Failure(rung, |e.repairs|)), o.Crash?)
      ensures Worked(id) && (o.Crash? ==> old(budget).Some? && db == old(db)) && (o.Fine? ==> Nearer(id))
      ensures var e, f := old(db).exps[id], db.exps[id];
        && f.repairs == e.repairs && f.results == e.results && f.metrics == e.metrics
        && (o.Fine? ==> f.state == FAILED_REPAIRABLE && f.last == Failed(rung, status))
      ensures old(budget) == Some(1) ==> o.Fine? && budget == Some(0)
    {
      hide DbInv, Recorded, Apply, Sound, Successor, Rank, Heard, Entered, Born;
      Holds();
      FailingSound(db, id, rung, status, lim);
      var w := Failing(id, rung, status, |db.exps[id].repairs|);
      MoveIsHeard(lim, world, policy, db, w, Timing(id));
      o := Call(w);
      Climbed(old(db), db, id);
      assert old(db).exps[id := old(db).exps[id]] == old(db).exps;
    }

    method GiveUp(id: Id, rung: Rung) returns (o: Outcome<()>)
      requires Valid() && id in db.exps && db.exps[id].state == FAILED_REPAIRABLE && !MayRepair(db.exps[id], lim)
      modifies this`db, this`budget, this`history, this`writes, this`stamps
      ensures !o.Raise?
      ensures var e := old(db).exps[id];
        Replaces(id, Moved(e, FAILED_FINAL, Plain, FailedFinal(rung, |e.repairs|)), o.Crash?)
      ensures Worked(id) && (o.Crash? ==> old(budget).Some? && db == old(db)) && (o.Fine? ==> Nearer(id))
      ensures var e, f := old(db).exps[id], db.exps[id];
        && f.results == e.results && f.metrics == e.metrics && f.repairs == e.repairs
        && (o.Fine? ==> f.state == FAILED_FINAL)
      ensures old(budget) == Some(0) ==> o.Crash?
    {
      hide DbInv, Recorded, Apply, Sound, Successor, Rank, Heard, TimesAt;
      Holds();
      GivingUpSound(db, id, rung, |db.exps[id].repairs|, lim);
      var w := GivingUp(id, rung, |db.exps[id].repairs|);
      MoveIsHeard(lim, world, policy, db, w, Timing(id));
      o := Call(w);
      Climbed(old(db), db, id);
      assert old(db).exps[id := old(db).exps[id]] == old(db).exps;
    }

    /** Reserves the next repair for the failure just recorded. */
    method ReserveRepair(id: Id) returns (o: Outcome<()>)
      requires Valid() && id in db.exps && db.exps[id].state == FAILED_REPAIRABLE && !Pending(db.exps[id])
      requires MayRepair(db.exps[id], lim)
      modifies this`db, this`budget, this`history, this`writes, this`stamps
      ensures !o.Raise?
      ensures var e := old(db).exps[id];
        var action := PlanRepair(e.last.status, |e.repairs|, lim.repairs).action;
        Replaces(id, e.(repairs := e.repairs + [Repair(e.last.phase, e.last.status, action, None)]), o.Crash?)
      ensures Worked(id) && (o.Crash? ==> old(budget).Some? && db == old(db))
      ensures var e, f := old(db).exps[id], db.exps[id];
        && f.results == e.results && f.metrics == e.metrics && f.last == e.last && f.state == e.state
        && (o.Fine? ==> Pending(f) && NewestPhase(f) == e.last.phase && |f.repairs| == |e.repairs| + 1)
      ensures old(budget).Some? && o.Fine? ==> budget.value < old(budget).value
      ensures old(budget) == Some(0) ==> o.Crash?
    {
      hide DbInv, Recorded, Apply, Sound, Successor, Rank;
      Holds();
      ReserveSound(db, id, lim);
      var e := db.exps[id];
      o := Call(Reserve(id, e.last.phase, e.last.status, PlanRepair(e.last.status, |e.repairs|, lim.repairs).action));
      Climbed(old(db), db, id);
      assert old(db).exps[id := old(db).exps[id]] == old(db).exps;
    }

    /** Begins the newest repair; after it was finished the stored row decides, and nothing changes. */
    method StartRepair(id: Id) returns (o: Outcome<()>)
      requires Valid() && id in db.exps && db.exps[id].state == FAILED_REPAIRABLE && db.exps[id].repairs != []
      requires db.exps[id].last.Failed?
      modifies this`db, this`budget, this`history, this`writes, this`stamps
      ensures Replaces(id, Started(old(db).exps[id]), o.Crash?)
      ensures Worked(id) && (o.Crash? ==> old(budget).Some?)
      ensures !Pending(old(db).exps[id]) ==> db == old(db)
      ensures var e, f := old(db).exps[id], db.exps[id];
        && f.results == e.results && f.metrics == e.metrics && f.repairs == e.repairs
        && (o.Crash? ==> f == e) && (o.Fine? && Pending(e) ==> f.state == REPAIRING)
      ensures old(budget).Some? && o.Fine? ==> budget.value < old(budget).value
      ensures o.Raise? ==> !Pending(old(db).exps[id]) && old(db).exps[id].last.phase != NewestPhase(old(db).exps[id])
      ensures o.Fine? ==> old(db).exps[id].last.phase == NewestPhase(old(db).exps[id])
      ensures old(db).exps[id].state != db.exps[id].state ==> Rank(old(db).exps[id]) < Rank(db.exps[id])
    {
      hide DbInv, Recorded, Apply, Sound, Successor, Rank, Heard, TimesAt;
      Holds();
      StartingSound(db, id, lim);
      var w := StartingRepair(id, |db.exps[id].repairs|, db.exps[id].last.phase);
      MoveIsHeard(lim, world, policy, db, w, Timing(id));
      o := Call(w);
      Climbed(old(db), db, id);
      assert old(db).exps[id := old(db).exps[id]] == old(db).exps;
    }

    method CompleteRepair(id: Id, evidence: nat, ghost t: nat) returns (o: Outcome<()>)
      requires Valid() && id in db.exps && db.exps[id].repairs != []
      requires Timing(id).entered <= t < clock && world.repair(t) == Some(evidence)
      requires db.exps[id].state == REPAIRING || Stale(db.exps[id])
      modifies this`db, this`budget, this`history, this`writes, this`stamps
      ensures Worked(id) && (o.Crash? <==> old(budget) == Some(0))
      ensures budget ==
        if old(budget) == None || old(budget) == Some(0) then old(budget) else Some(old(budget).value - 1)
      ensures var e, f := old(db).exps[id], db.exps[id];
        && f.state == e.state && |f.repairs| == |e.repairs| && f.last == e.last
        && NewestPhase(f) == NewestPhase(e)
        && (o.Fine? ==> !Pending(f)) && (!o.Fine? ==> f == e)
        && f.results == e.results && f.metrics == e.metrics
        && (Stale(e) ==> db == old(db))
        && (!o.Crash? ==> (o.Raise? <==> !Pending(e) && e.repairs[|e.repairs| - 1].evidence != Some(evidence)))
      ensures !o.Fine? ==> Timing(id) == old(Timing(id))
    {
      hide DbInv, Recorded, Apply, Sound, Successor, Rank, Touches;
      Holds();
      CompleteSound(db, id, evidence, lim);
      o := Call(Complete(id, |db.exps[id].repairs|, evidence));
      Climbed(old(db), db, id);
      if o.Fine? {
        WithTouches(old(db), id, CompleteExp(old(db).exps[id], |old(db).exps[id].repairs|, evidence).value);
      } else {
        assert With(old(db), id, old(db).exps[id]) == old(db);
        WithTouches(old(db), id, old(db).exps[id]);
      }
    }

    method EndRepair(id: Id) returns (o: Outcome<()>)
      requires Valid() && id in db.exps && db.exps[id].repairs != [] && !Pending(db.exps[id])
      requires db.exps[id].state == REPAIRING || Stale(db.exps[id])
      modifies this`db, this`budget, this`history, this`writes, this`stamps
      ensures !o.Raise? && Replaces(id, Ended(old(db).exps[id]), o.Crash?)
      ensures Worked(id) && (o.Crash? ==> old(budget).Some?)
      ensures old(db).exps[id].state != db.exps[id].state ==> Rank(old(db).exps[id]) < Rank(db.exps[id])
      ensures Stale(old(db).exps[id]) ==> db == old(db)
      ensures var e, f := old(db).exps[id], db.exps[id];
        && f.results == e.results && f.metrics == e.metrics && f.repairs == e.repairs
        && (o.Crash? ==> f == e) && (o.Fine? && !Stale(e) ==> f.state == Running(NewestPhase(e)))
      ensures old(budget).Some? && o.Fine? ==> budget.value < old(budget).value
    {
      hide DbInv, Recorded, Apply, Sound, Successor, Rank, Heard, TimesAt;
      Holds();
      EndingSound(db, id, lim);
      var n := |db.exps[id].repairs|;
      var w := EndingRepair(id, n, db.exps[id].repairs[n - 1].phase);
      MoveIsHeard(lim, world, policy, db, w, Timing(id));
      o := Call(w);
      Climbed(old(db), db, id);
      assert old(db).exps[id := old(db).exps[id]] == old(db).exps;
    }

    /** A repair that raised ends the experiment; it is refused when the repair was finished long ago. */
    method FailRepair(id: Id, ghost t: nat) returns (o: Outcome<()>)
      requires Valid() && id in db.exps && db.exps[id].repairs != []
      requires Timing(id).entered <= t < clock && RepairFailsAt(world, db.exps[id], t)
      requires db.exps[id].state == REPAIRING || Stale(db.exps[id])
      modifies this`db, this`budget, this`history, this`writes, this`stamps
      ensures Replaces(id, Abandoned(old(db).exps[id]), o.Crash?)
      ensures Worked(id) && (o.Crash? ==> old(budget).Some?)
      ensures Stale(old(db).exps[id]) ==> db == old(db)
      ensures var e, f := old(db).exps[id], db.exps[id];
        && f.results == e.results && f.metrics == e.metrics && f.repairs == e.repairs
        && (o.Crash? ==> f == e) && (o.Fine? ==> f.state == FAILED_FINAL)
      ensures old(budget).Some? && o.Fine? ==> budget.value < old(budget).value
      ensures (o.Raise? ==> Stale(old(db).exps[id])) && (Stale(old(db).exps[id]) ==> !o.Fine?)
      ensures old(db).exps[id].state != db.exps[id].state ==> Rank(old(db).exps[id]) < Rank(db.exps[id])
    {
      hide DbInv, Recorded, Apply, Sound, Successor, Rank, Heard, Entered, Born;
      Holds();
      FailingRepairSound(db, id, lim);
      var w := FailingRepair(id, |db.exps[id].repairs|);
      MoveIsHeard(lim, world, policy, db, w, Timing(id));
      o := Call(w);
      Climbed(old(db), db, id);
      assert old(db).exps[id := old(db).exps[id]] == old(db).exps;
    }

    // ---- failures and repairs --------------------------------------------------------

    /** A stale experiment whose finished repair is replayed with the same outcome each time. */
    ghost predicate Replays(id: Id)
      reads this
    {
      && id in db.exps
      && var e := db.exps[id];
      && Stale(e) && e.last.Failed? && e.last.phase == NewestPhase(e)
      && forall t :: world.repair(t) == e.repairs[|e.repairs| - 1].evidence
    }

    method ExecuteRepair(id: Id) returns (o: Outcome<bool>)
      requires Valid() && id in db.exps && db.exps[id].repairs != []
      requires db.exps[id].state == REPAIRING || Stale(db.exps[id])
      modifies this`db, this`budget, this`history, this`writes, this`stamps, this`clock
      ensures Worked(id) && (o.Crash? ==> old(budget).Some?)
      ensures old(budget).Some? && o.Fine? ==> budget.value < old(budget).value
      ensures var e, f := old(db).exps[id], db.exps[id];
        && (Stale(e) ==> db == old(db) && (o.Fine? ==> o.value))
        && (!Stale(e) ==> !o.Raise? && (o.Fine? ==> Rank(e) < Rank(f)))
        && (!Stale(e) && o == Fine(true) ==> f.state == Running(NewestPhase(e)))
        && (!Stale(e) && o == Fine(false) ==> f.state == FAILED_FINAL)
        && (!Stale(e) ==> !Stale(f)) && f.results == e.results && f.metrics == e.metrics
        && (!Stale(e) && o.Fine? ==> o.value == !RepairFailsAt(world, e, old(clock)))
        && (!Stale(e) && o.Fine? ==> |f.repairs| == |e.repairs|)
      ensures old(Replays(id)) ==> !o.Raise?
    {
      hide Recorded, Rank, With, Touches, Replaces, Ended, Abandoned;
      TouchesItself(db, id);
      var t := Now();
      var done: Outcome<()> := Raise;
      if world.repair(t).Some? {
        done := CompleteRepair(id, world.repair(t).value, t);
      }
      ghost var completed := db;
      if done.Crash? {
        return Crash;
      }
      var ended: Outcome<()>;
      if done.Raise? {
        ended := FailRepair(id, t);
      } else {
        ended := EndRepair(id);
      }
      TouchesChains(old(db), completed, db, id);
      if ended.IsFailure() {
        return ended.PropagateFailure();
      }
      return Fine(done.Fine?);
    }

    /** Reserves the next repair, begins it and carries it out. */
    method RepairNext(id: Id) returns (o: Outcome<bool>)
      requires Valid() && id in db.exps && db.exps[id].state == FAILED_REPAIRABLE && !Pending(db.exps[id])
      requires MayRepair(db.exps[id], lim)
      modifies this`db, this`budget, this`history, this`writes, this`stamps, this`clock
      ensures Worked(id) && (o.Crash? ==> old(budget).Some?) && !o.Raise? && (o.Fine? ==> Nearer(id))
      ensures o == Fine(true) ==> db.exps[id].state == Running(old(db).exps[id].last.phase)
      ensures o == Fine(false) ==> db.exps[id].state == FAILED_FINAL
      ensures Stale(db.exps[id]) ==> o.Crash? && db == old(db)
      ensures old(budget) == Some(0) ==> o.Crash? && db == old(db)
      ensures db.exps[id].results == old(db).exps[id].results && db.exps[id].metrics == old(db).exps[id].metrics
      ensures o.Fine? ==> o.value == world.repair(old(clock)).Some?
      ensures o.Fine? ==> |db.exps[id].repairs| == |old(db).exps[id].repairs| + 1
    {
      hide Recorded, Rank, DbInv, With, Touches, PlanRepair, Replaces, Started, Moved;
      var _ :- ReserveRepair(id);
      ghost var reserved := db;
      var started := StartRepair(id);
      TouchesChains(old(db), reserved, db, id);
      if started.IsFailure() {
        return started.PropagateFailure();
      }
      ghost var begun := db;
      o := ExecuteRepair(id);
      TouchesChains(old(db), begun, db, id);
    }

    /** Carries out the plan for the failure just recorded. */
    method Recover(id: Id, repair: bool) returns (o: Outcome<bool>)
      requires Valid() && id in db.exps && db.exps[id].state == FAILED_REPAIRABLE && !Pending(db.exps[id])
      requires db.exps[id].last.Failed? && repair == MayRepair(db.exps[id], lim)
      modifies this`db, this`budget, this`history, this`writes, this`stamps, this`clock
      ensures Worked(id) && (o.Crash? ==> old(budget).Some?) && !o.Raise? && (o.Fine? ==> Nearer(id))
      ensures o == Fine(true) ==> db.exps[id].state == Running(old(db).exps[id].last.phase)
      ensures o == Fine(false) ==> db.exps[id].state == FAILED_FINAL
      ensures Stale(db.exps[id]) ==> o.Crash? && db == old(db)
      ensures old(budget) == Some(0) ==> o.Crash? && db == old(db)
      ensures db.exps[id].results == old(db).exps[id].results && db.exps[id].metrics == old(db).exps[id].metrics
      ensures o.Fine? ==> o.value == (repair && world.repair(old(clock)).Some?)
      ensures o.Fine? ==> |db.exps[id].repairs| == |old(db).exps[id].repairs| + if repair then 1 else 0
    {
      hide Recorded, Rank, DbInv, With, Touches, Moved, Replaces;
      if repair {
        o := RepairNext(id);
      } else {
        var over := GiveUp(id, db.exps[id].last.phase);
        o := if over.Fine? then Fine(false) else Crash;
      }
    }

    /** A rung failed: give up, or reserve the next repair and carry it out. */
    method HandleFailure(id: Id, rung: Rung, status: AttemptStatus, ghost t: nat) returns (o: Outcome<bool>)
      requires Valid() && id in db.exps && db.exps[id].state == Running(rung)
      requires Timing(id).entered <= t < clock && world.rung(t) == Broke(status)
      modifies this`db, this`budget, this`history, this`writes, this`stamps, this`clock
      ensures Worked(id) && (o.Crash? ==> old(budget).Some?) && (o.Fine? ==> Nearer(id))
      ensures o.Raise? <==> status == INTERRUPTED
      ensures o.Raise? ==> db == old(db)
      ensures o == Fine(true) ==> db.exps[id].state == Running(rung)
      ensures o == Fine(false) ==> db.exps[id].state == FAILED_FINAL
      ensures Stale(db.exps[id]) ==> o.Crash? && old(db).exps[id].repairs != []
      ensures old(budget) == Some(1) && status != INTERRUPTED && old(db).exps[id].repairs != [] ==> Stale(db.exps[id])
      ensures db.exps[id].results == old(db).exps[id].results && db.exps[id].metrics == old(db).exps[id].metrics
      ensures o.Fine? ==> var used := |old(db).exps[id].repairs|;
        var due := status != SUCCESS && status != CRASH && used < lim.repairs;
        && o.value == (due && world.repair(old(clock)).Some?)
        && |db.exps[id].repairs| == used + if due then 1 else 0
    {
      hide Recorded, Rank, DbInv, With, Touches, PlanRepair, DecideRepair, Moved, Replaces, Left, Half, Known;
      Holds();
      StateFacts(db, id, lim);
      TouchesItself(db, id);
      var plan := PlanRepair(status, |db.exps[id].repairs|, lim.repairs);
      PlanMatchesDecision(status, |db.exps[id].repairs|, lim.repairs);
      if plan.action == RESUME {
        return Raise;
      }
      var _ :- Fail(id, rung, status, t);
      ghost var failed := db;
      o := Recover(id, plan.repair);
      TouchesChains(old(db), failed, db, id);
    }

    /** Begins the newest repair if need be, and carries it out. */
    method TakeUpRepair(id: Id) returns (o: Outcome<bool>)
      requires Valid() && id in db.exps && (db.exps[id].state == FAILED_REPAIRABLE || db.exps[id].state == REPAIRING)
      requires db.exps[id].repairs != [] && (db.exps[id].state == FAILED_REPAIRABLE ==> db.exps[id].last.Failed?)
      modifies this`db, this`budget, this`history, this`writes, this`stamps, this`clock
      ensures Worked(id) && (o.Crash? ==> old(budget).Some?)
      ensures old(budget).Some? && o.Fine? ==> budget.value < old(budget).value
      ensures Stale(old(db).exps[id]) ==> db == old(db) && (o.Fine? ==> o.value)
      ensures !Stale(old(db).exps[id]) ==> !o.Raise? && !Stale(db.exps[id])
      ensures !Stale(old(db).exps[id]) && o.Fine? ==>
        && o.value == !RepairFailsAt(world, old(db).exps[id], old(clock))
        && Rank(old(db).exps[id]) < Rank(db.exps[id])
        && db.exps[id].state == if o.value then Running(NewestPhase(old(db).exps[id])) else FAILED_FINAL
      ensures old(Replays(id)) ==> !o.Raise?
      ensures db.exps[id].results == old(db).exps[id].results && db.exps[id].metrics == old(db).exps[id].metrics
    {
      hide Recorded, Rank, DbInv, With, Touches, PlanRepair, Moved, Replaces, Started, RepairFailsAt;
      TouchesItself(db, id);
      ghost var e := db.exps[id];
      if db.exps[id].state == FAILED_REPAIRABLE {
        var _ :- StartRepair(id);
      }
      ghost var begun := db;
      SameRepairFails(world, e, db.exps[id], clock);
      o := ExecuteRepair(id);
      TouchesChains(old(db), begun, db, id);
    }

    /** Takes up the newest repair, or plans the first one for the failure in the newest row. */
    method ResumeRepair(id: Id) returns (o: Outcome<bool>)
      requires Valid() && id in db.exps && (db.exps[id].state == FAILED_REPAIRABLE || db.exps[id].state == REPAIRING)
      modifies this`db, this`budget, this`history, this`writes, this`stamps, this`clock
      ensures Worked(id) && (o.Crash? ==> old(budget).Some?)
      ensures old(budget).Some? && o.Fine? ==> budget.value < old(budget).value
      ensures Stale(old(db).exps[id]) ==> db == old(db) && (o.Fine? ==> o.value)
      ensures !Stale(old(db).exps[id]) ==> !o.Raise? && (o.Fine? ==> Nearer(id))
      ensures !Stale(old(db).exps[id]) && o == Fine(true) ==> exists p :: db.exps[id].state == Running(p)
      ensures !Stale(old(db).exps[id]) && o == Fine(false) ==> db.exps[id].state == FAILED_FINAL
      ensures !Stale(old(db).exps[id]) ==> !Stale(db.exps[id])
      ensures !Stale(old(db).exps[id]) && o.Fine? ==> var e := old(db).exps[id];
        o.value == (if e.repairs == [] then MayRepair(e, lim) && world.repair(old(clock)).Some?
                    else !RepairFailsAt(world, e, old(clock)))
      ensures old(Replays(id)) ==> !o.Raise?
      ensures db.exps[id].results == old(db).exps[id].results && db.exps[id].metrics == old(db).exps[id].metrics
    {
      hide Recorded, Rank, DbInv, Touches, PlanRepair, MayRepair, RepairFailsAt;
      Holds();
      StateFacts(db, id, lim);
      var e := db.exps[id];
      if e.repairs == [] {
        PlanIsDue(e, lim);
        o := Recover(id, PlanRepair(e.last.status, 0, lim.repairs).repair);
      } else {
        o := TakeUpRepair(id);
      }
    }

    // ---- one candidate -----------------------------------------------------------------

    method MeterRung(id: Id, rung: Rung, primary: int, ghost t: nat) returns (o: Outcome<()>)
      requires Valid() && id in db.exps && db.exps[id].state == Running(rung)
      requires Timing(id).entered <= t < clock && world.rung(t).Done? && world.rung(t).observation.primary == primary
      modifies this`db, this`budget, this`history, this`writes, this`stamps
      ensures Worked(id) && (o.Crash? ==> old(budget).Some?)
      ensures var e, f := old(db).exps[id], db.exps[id];
        && f == e.(metrics := f.metrics)
        && (o.Fine? ==> rung in f.metrics && f.metrics[rung] == primary && f.metrics.Keys == e.metrics.Keys + {rung})
        && (o.Raise? ==> rung in e.metrics || lim.evaluations == 0)
      ensures Timing(id).entered == old(Timing(id)).entered
    {
      hide DbInv, Recorded, Successor, Rank, Sound, Heard, Entered, Born;
      Holds();
      NotYetCounted(db, id, lim);
      MeterIsHeard(lim, world, policy, db, id, rung, t, Timing(id));
      o := Call(Meter(id, rung, primary));
      Climbed(old(db), db, id);
      assert old(db).exps[id := old(db).exps[id]] == old(db).exps;
    }

    method RecordRung(id: Id, rung: Rung, observation: Observation, ghost t: nat) returns (o: Outcome<()>)
      requires Valid() && id in db.exps && db.exps[id].state == Running(rung) && rung !in db.exps[id].results
      requires Timing(id).entered <= t < clock && world.rung(t) == Done(observation)
      modifies this`db, this`budget, this`history, this`writes, this`stamps
      ensures Worked(id) && (o.Crash? ==> old(budget).Some?)
      ensures !o.Raise?
      ensures var e, f := old(db).exps[id], db.exps[id];
        f == if o.Fine? then e.(results := e.results[rung := observation]) else e
    {
      hide DbInv, Recorded, Successor, Rank, Sound;
      o := Call(Record(id, rung, observation));
      Climbed(old(db), db, id);
      assert old(db).exps[id := old(db).exps[id]] == old(db).exps;
    }

    /**
      The process will live for one more store call, which records a failure of an
      experiment that was repaired before.
     */
    ghost predicate Doomed(id: Id)
      reads this
    {
      && budget == Some(1) && id in db.exps && db.exps[id].repairs != []
      && (exists rung :: db.exps[id].state == Running(rung) && rung !in db.exps[id].results)
      && forall t :: world.rung(t).Broke? && world.rung(t).status != INTERRUPTED
    }

    twostate lemma StillDoomed(id: Id)
      ensures old(Doomed(id)) && db == old(db) && budget == old(budget) ==> Doomed(id)
    {}

    /** A doomed experiment is at a rung. */
    lemma DoomedAtRung(id: Id)
      ensures Doomed(id) ==>
        && id in db.exps && budget == Some(1) && AtRung(db.exps[id]) && 5 <= Stage(db.exps[id]) <= 12
        && db.exps[id].state != FIXTURE_VALID && db.exps[id].state != FULL_RESERVED && !Terminal(db.exps[id].state)
        && !Stale(db.exps[id])
    {}

    /** The rung's stored evidence: what was there before, or what the hook answered since moment `start`. */
    ghost predicate Answered(e: Exp, f: Exp, rung: Rung, start: nat)
      reads this
    {
      && rung in f.results
      && if rung in e.results then f.results == e.results
         else && f.results == e.results[rung := f.results[rung]]
              && exists t :: start <= t < clock && world.rung(t) == Done(f.results[rung])
    }

    /** Runs a rung until its evidence is stored, repairing failures as they come. */
    method CompleteRung(id: Id, rung: Rung) returns (o: Outcome<bool>)
      requires Valid() && id in db.exps && db.exps[id].state == Running(rung)
      modifies this`db, this`budget, this`history, this`writes, this`stamps, this`clock
      ensures Worked(id) && (o.Crash? ==> old(budget).Some?)
      ensures o == Fine(true) ==>
        db.exps[id].state == Running(rung) && Answered(old(db).exps[id], db.exps[id], rung, old(clock))
      ensures o == Fine(false) ==>
        db.exps[id].state == FAILED_FINAL && exists t :: old(clock) <= t < clock && world.rung(t).Broke?
      ensures Stale(db.exps[id]) ==> o.Crash?
      ensures o.Fine? && !Half(old(db).exps[id]) ==> !Half(db.exps[id])
      ensures old(Doomed(id)) ==> o.Crash? && Stale(db.exps[id])
      ensures o.Raise? ==> !Benign(world) || Half(old(db).exps[id]) || lim.evaluations == 0
      decreases Left(budget, db, id, lim.repairs)
    {
      hide Recorded, Rank, DbInv, With, Touches, Half, Benign, Entered, Born, TimesAt;
      Holds();
      LeftIsPositive(budget, db, id, lim);
      TouchesItself(db, id);
      if rung in db.exps[id].results {
        return Fine(true);
      }
      var t := Now();
      match world.rung(t)
      case Unexpected =>
        NotBenign(world, t);
        return Raise;
      case Broke(status) =>
        NotBenign(world, t);
        var recovered :- HandleFailure(id, rung, status, t);
        SameHalf(old(db).exps[id], db.exps[id]);
        if !recovered {
          return Fine(false);
        }
        ghost var repaired := db;
        o := CompleteRung(id, rung);
        TouchesChains(old(db), repaired, db, id);
      case Done(observation) =>
        o := StoreEvidence(id, rung, observation, t);
    }

    /** Counts the metrics, then stores the evidence. */
    method StoreEvidence(id: Id, rung: Rung, observation: Observation, ghost t: nat) returns (o: Outcome<bool>)
      requires Valid() && id in db.exps && db.exps[id].state == Running(rung) && rung !in db.exps[id].results
      requires Timing(id).entered <= t < clock && world.rung(t) == Done(observation)
      modifies this`db, this`budget, this`history, this`writes, this`stamps
      ensures Worked(id) && (o.Crash? ==> old(budget).Some?)
      ensures db.exps[id].state == Running(rung) && (o.Fine? ==> o.value)
      ensures o.Fine? ==> db.exps[id].results == old(db).exps[id].results[rung := observation]
      ensures o.Fine? && !Half(old(db).exps[id]) ==> !Half(db.exps[id])
      ensures o.Raise? ==> Half(old(db).exps[id]) || lim.evaluations == 0
    {
      hide Recorded, Rank, DbInv, With, Touches;
      var _ :- MeterRung(id, rung, observation.primary, t);
      ghost var metered := db;
      var stored := RecordRung(id, rung, observation, t);
      TouchesChains(old(db), metered, db, id);
      if stored.IsFailure() {
        return stored.PropagateFailure();
      }
      return Fine(true);
    }

    method EvaluateShadow(id: Id) returns (o: Outcome<()>)
      requires Valid() && id in db.exps && db.exps[id].state == DIAGNOSED && Full in db.exps[id].results
      modifies this`db, this`budget, this`history, this`writes, this`stamps
      ensures Handled(id) && db.phase == old(db).phase && (o.Crash? ==> old(budget).Some?)
      ensures old(budget).Some? && o.Fine? ==> budget.value < old(budget).value
      ensures var e, f := old(db).exps[id], db.exps[id];
        && f == e.(shadow := f.shadow)
        && (o.Fine? ==> f.shadow == Some(e.results[Full])) && (!o.Fine? ==> db == old(db))
      ensures !o.Raise?
    {
      hide DbInv, Recorded, Successor, Rank, Sound;
      Holds();
      StateFacts(db, id, lim);
      PlaceFacts(db, id, lim);
      o := Call(Shadow(id, db.exps[id].results[Full]));
      Climbed(old(db), db, id);
      assert old(db).exps[id := old(db).exps[id]] == old(db).exps;
    }

    /** The verdict on an evaluated candidate; `true` sends the finalist to the official split. */
    method DecideShadow(id: Id) returns (o: Outcome<bool>)
      requires Valid() && id in db.exps && db.exps[id].state == DIAGNOSED && Full in db.exps[id].results
      requires db.exps[id].shadow == Some(db.exps[id].results[Full])
      modifies this`db, this`budget, this`history, this`writes, this`stamps
      ensures Worked(id) && (o.Crash? ==> old(budget).Some?) && !o.Raise?
      ensures o == Fine(true) ==> Nearer(id) && db.exps[id].state == OFFICIAL_VALID_RUNNING
      ensures o == Fine(true) ==> db.phase == FINALIST_LOCKED && db.finalist == Some(id)
      ensures o == Fine(false) ==> Rests(db.exps[id]) && (Terminal(db.exps[id].state) || db.phase != FINALIST_LOCKED)
      ensures !Stale(db.exps[id]) && (Half(db.exps[id]) ==> Half(old(db).exps[id]))
    {
      hide DbInv, Recorded, Rank, Half, Replaces, With, Moved;
      assert old(db).exps[id := old(db).exps[id]] == old(db).exps;
      if !db.exps[id].results[Full].passes {
        var _ :- Step(id, FullRejected);
        return Fine(false);
      }
      if db.phase == DISCOVERY || db.phase == OFFICIAL_EVALUATED {
        return Fine(false);
      }
      if db.finalist != Some(id) {
        var _ :- Step(id, NotLockedFinalist);
        return Fine(false);
      }
      var _ :- Step(id, OfficialRunning);
      return Fine(true);
    }

    /** A diagnosed candidate is evaluated on the shadow folds, then judged. */
    method JudgeShadow(id: Id) returns (o: Outcome<bool>)
      requires Valid() && id in db.exps && db.exps[id].state == DIAGNOSED
      modifies this`db, this`budget, this`history, this`writes, this`stamps
      ensures Handled(id) && db.phase == old(db).phase && (o.Crash? ==> old(budget).Some?)
      ensures o == Fine(true) ==> Nearer(id) && db.exps[id].state == OFFICIAL_VALID_RUNNING
      ensures o == Fine(true) ==> db.phase == FINALIST_LOCKED && db.finalist == Some(id)
      ensures o == Fine(false) ==> Rests(db.exps[id]) && (Terminal(db.exps[id].state) || db.phase != FINALIST_LOCKED)
      ensures !Stale(db.exps[id]) && !o.Raise? && (Half(db.exps[id]) ==> Half(old(db).exps[id]))
    {
      hide DbInv, Recorded, Rank, Half, Touches, Rests;
      Holds();
      StateFacts(db, id, lim);
      var _ :- EvaluateShadow(id);
      SameHalf(old(db).exps[id], db.exps[id]);
      ghost var evaluated := db;
      o := DecideShadow(id);
      TouchesChains(old(db), evaluated, db, id);
    }

    method PromoteFinalist(id: Id, primary: int) returns (o: Outcome<()>)
      requires Valid() && id in db.exps && db.exps[id].state == OFFICIAL_VALID_COMPLETE && Passes(db.exps[id], Official)
      requires db.exps[id].results[Official].primary == primary
      modifies this`db, this`budget, this`history, this`writes, this`stamps
      ensures Handled(id) && (o.Crash? ==> old(budget).Some?)
      ensures !o.Raise?
      ensures if o.Crash? then db == old(db) else
        && db.phase == OFFICIAL_EVALUATED
        && db.exps[id].state == (if primary > old(db).best then PROMOTED else REJECTED)
      ensures Half(db.exps[id]) ==> Half(old(db).exps[id])
    {
      hide DbInv, Recorded, Successor, Rank, Sound, Heard, TimesAt;
      Holds();
      PromoteSound(db, id, primary, lim);
      PromoteIsHeard(lim, world, policy, db, id, Timing(id));
      o := Call(Promote(id, primary));
      Climbed(old(db), db, id);
      assert old(db).exps[id := old(db).exps[id]] == old(db).exps;
    }

    /** The official verdict.  Only the promotion transaction completes the phase. */
    method JudgeOfficial(id: Id) returns (o: Outcome<bool>)
      requires Valid() && id in db.exps && db.exps[id].state == OFFICIAL_VALID_COMPLETE
      modifies this`db, this`budget, this`history, this`writes, this`stamps
      ensures Handled(id) && (o.Crash? ==> old(budget).Some?)
      ensures Official in old(db).exps[id].results && !o.Raise?
      ensures o.Fine? ==> var official := old(db).exps[id].results[Official];
        && !o.value
        && db.exps[id].state == (if official.passes && official.primary > old(db).best then PROMOTED else REJECTED)
        && db.phase == (if official.passes then OFFICIAL_EVALUATED else FINALIST_LOCKED)
      ensures o.Crash? ==> db == old(db)
      ensures !Stale(db.exps[id]) && (Half(db.exps[id]) ==> Half(old(db).exps[id]))
    {
      hide DbInv, Recorded, Rank;
      Holds();
      StateFacts(db, id, lim);
      OfficialFacts(db, id, lim);
      var observation := db.exps[id].results[Official];
      if !observation.passes {
        var _ :- Step(id, OfficialRejected);
      } else {
        var _ :- PromoteFinalist(id, observation.primary);
      }
      return Fine(false);
    }

    /** A rung and the step that follows it. */
    method FinishRung(id: Id, rung: Rung) returns (o: Outcome<bool>)
      requires Valid() && id in db.exps && db.exps[id].state == Running(rung)
      modifies this`db, this`budget, this`history, this`writes, this`stamps, this`clock
      ensures Worked(id) && (o.Crash? ==> old(budget).Some?)
      ensures o == Fine(true) ==> Nearer(id) && db.exps[id].state == To(Completion(rung))
      ensures o == Fine(true) ==> Answered(old(db).exps[id], db.exps[id], rung, old(clock))
      ensures o == Fine(false) ==> db.exps[id].state == FAILED_FINAL
      ensures Stale(db.exps[id]) ==> o.Crash?
      ensures o.Fine? && !Half(old(db).exps[id]) ==> !Half(db.exps[id])
      ensures old(Doomed(id)) ==> o.Crash? && Stale(db.exps[id])
      ensures o.Raise? ==> !Benign(world) || Half(old(db).exps[id]) || lim.evaluations == 0
    {
      hide DbInv, Recorded, Rank, Half, Benign, Replaces, With, Moved, Touches, PlannedGo, To, Doomed;
      var completed :- CompleteRung(id, rung);
      if !completed {
        return Fine(false);
      }
      ghost var ready := db;
      CompletionIsPlanned(db, id, rung);
      var stepped := Step(id, Completion(rung));
      TouchesChains(old(db), ready, db, id);
      CompletionGoes(rung);
      if stepped.IsFailure() {
        return stepped.PropagateFailure();
      }
      return Fine(true);
    }

    method Diagnose(id: Id) returns (o: Outcome<bool>)
      requires Valid() && id in db.exps && db.exps[id].state == FULL_COMPLETE
      modifies this`db, this`budget, this`history, this`writes, this`stamps, this`clock
      ensures Worked(id) && (o.Crash? ==> old(budget).Some?) && !Stale(db.exps[id])
      ensures o.Fine? ==> o.value && Nearer(id) && db.exps[id].state == DIAGNOSED
      ensures o.Raise? <==> !world.diagnosed(old(clock))
      ensures (o.Raise? ==> !Benign(world)) && (Half(db.exps[id]) ==> Half(old(db).exps[id]))
    {
      hide DbInv, Recorded, Rank;
      var t := Now();
      if !world.diagnosed(t) {
        assert old(db).exps[id := old(db).exps[id]] == old(db).exps;
        return Raise;
      }
      var _ :- Step(id, Diagnosed);
      return Fine(true);
    }

    /** The cheap gate: reserve the full rung or reject. */
    method JudgeCheap(id: Id) returns (o: Outcome<bool>)
      requires Valid() && id in db.exps && db.exps[id].state == CHEAP_COMPLETE
      modifies this`db, this`budget, this`history, this`writes, this`stamps
      ensures Worked(id) && (o.Crash? ==> old(budget).Some?) && !o.Raise? && !Stale(db.exps[id])
      ensures Cheap in old(db).exps[id].results
      ensures o.Fine? ==> o.value == old(db).exps[id].results[Cheap].passes
      ensures o.Fine? ==> Nearer(id) && db.exps[id].state == if o.value then FULL_RESERVED else REJECTED
      ensures Half(db.exps[id]) ==> Half(old(db).exps[id])
    {
      hide DbInv, Recorded, Rank;
      Holds();
      StateFacts(db, id, lim);
      if !db.exps[id].results[Cheap].passes {
        var _ :- Step(id, CheapRejected);
        return Fine(false);
      }
      var _ :- Step(id, FullReserved);
      return Fine(true);
    }

    ghost predicate Kind()
      reads this
    {
      Benign(world) && lim.evaluations >= 1
    }

    predicate AtRung(e: Exp)
    {
      || e.state == FIXTURE_VALID || e.state == CHEAP_RUNNING || e.state == FULL_RESERVED || e.state == FULL_RUNNING
      || e.state == OFFICIAL_VALID_RUNNING
    }

    method EnterRung(id: Id) returns (o: Outcome<bool>)
      requires Valid() && id in db.exps && (db.exps[id].state == FIXTURE_VALID || db.exps[id].state == FULL_RESERVED)
      modifies this`db, this`budget, this`history, this`writes, this`stamps
      ensures Worked(id) && (o.Crash? ==> old(budget).Some?) && !o.Raise? && !Stale(db.exps[id])
      ensures o.Fine? ==> o.value && Nearer(id)
      ensures o.Fine? ==>
        db.exps[id].state == if old(db).exps[id].state == FIXTURE_VALID then CHEAP_RUNNING else FULL_RUNNING
      ensures Half(db.exps[id]) == Half(old(db).exps[id])
    {
      hide DbInv, Recorded, Rank, Half, Replaces, With, Moved, Touches;
      var _ :- Step(id, if db.exps[id].state == FIXTURE_VALID then CheapRunning else FullRunning);
      return Fine(true);
    }

    /** One turn of a candidate at a rung or about to enter one. */
    method RungTurn(id: Id) returns (o: Outcome<bool>)
      requires Valid() && id in db.exps && AtRung(db.exps[id])
      modifies this`db, this`budget, this`history, this`writes, this`stamps, this`clock
      ensures Worked(id) && (o.Crash? ==> old(budget).Some?)
      ensures o == Fine(true) ==> Nearer(id) && 5 <= Stage(db.exps[id]) <= 12
      ensures o == Fine(false) ==> db.exps[id].state == FAILED_FINAL
      ensures Stale(db.exps[id]) ==> o.Crash?
      ensures o.Raise? ==> !(Kind() && !Half(old(db).exps[id]))
      ensures o.Fine? && !Half(old(db).exps[id]) ==> !Half(db.exps[id])
      ensures old(Doomed(id)) ==> o.Crash? && Stale(db.exps[id])
    {
      hide DbInv, Recorded, Rank, Half, Benign, Replaces, With, Moved, Touches, Answered, Stage, Doomed;
      DoomedAtRung(id);
      var state := db.exps[id].state;
      if state == FIXTURE_VALID || state == FULL_RESERVED {
        o := EnterRung(id);
      } else {
        o := FinishRung(id, if state == CHEAP_RUNNING then Cheap else if state == FULL_RUNNING then Full else Official);
      }
      RungStages(db.exps[id]);
    }

    /** One turn of a candidate at a rung, between rungs, or at a verdict. */
    method WorkTurn(id: Id) returns (o: Outcome<bool>)
      requires Valid() && id in db.exps && 4 <= Stage(db.exps[id]) <= 12
      requires db.exps[id].state != FAILED_REPAIRABLE && db.exps[id].state != REPAIRING
      modifies this`db, this`budget, this`history, this`writes, this`stamps, this`clock
      ensures Handled(id) && (o.Crash? ==> old(budget).Some?)
      ensures o == Fine(true) ==> db.phase == old(db).phase && Nearer(id) && 4 <= Stage(db.exps[id])
      ensures o == Fine(false) ==> Rests(db.exps[id]) && (Terminal(db.exps[id].state) || db.phase != FINALIST_LOCKED)
      ensures db.phase == old(db).phase
              || (old(db).phase == FINALIST_LOCKED && db.phase == OFFICIAL_EVALUATED
                  && db.finalist == Some(id) && o == Fine(false))
      ensures Stale(db.exps[id]) ==> o.Crash?
      ensures o.Raise? ==> !(Kind() && !Half(old(db).exps[id]))
      ensures o.Fine? && !Half(old(db).exps[id]) ==> !Half(db.exps[id])
      ensures old(Doomed(id)) ==> o.Crash? && Stale(db.exps[id])
    {
      hide DbInv, Recorded, Rank, Half, Benign, Replaces, With, Moved, Answered, Doomed;
      DoomedAtRung(id);
      var state := db.exps[id].state;
      if state == CHEAP_COMPLETE {
        o := JudgeCheap(id);
      } else if state == FULL_COMPLETE {
        o := Diagnose(id);
      } else if state == DIAGNOSED {
        o := JudgeShadow(id);
      } else if state == OFFICIAL_VALID_COMPLETE {
        Holds();
        OfficialFacts(db, id, lim);
        o := JudgeOfficial(id);
      } else {
        o := RungTurn(id);
      }
    }

    /** One turn of the candidate's loop: `true` to go on, `false` to leave it. */
    method TakeTurn(id: Id) returns (o: Outcome<bool>)
      requires Valid() && id in db.exps
      modifies this`db, this`budget, this`history, this`writes, this`stamps, this`clock
      ensures Handled(id) && (o.Crash? ==> old(budget).Some?)
      ensures o == Fine(true) ==> db.phase == old(db).phase
      ensures o == Fine(true) && !Stale(old(db).exps[id]) ==> Nearer(id) && Stage(db.exps[id]) >= 4
      ensures old(budget).Some? && o == Fine(true) ==> budget.value < old(budget).value
      ensures o == Fine(false) ==> Rests(db.exps[id]) && (Terminal(db.exps[id].state) || db.phase != FINALIST_LOCKED)
      ensures db.phase == old(db).phase
              || (old(db).phase == FINALIST_LOCKED && db.phase == OFFICIAL_EVALUATED
                  && db.finalist == Some(id) && o == Fine(false))
      ensures if Stale(old(db).exps[id]) then db == old(db) && o != Fine(false) else Stale(db.exps[id]) ==> o.Crash?
      ensures Terminal(old(db).exps[id].state) ==> o == Fine(false) && db == old(db)
      ensures old(Replays(id)) ==> !o.Raise?
      ensures o.Raise? ==> !(Kind() && Smooth(old(db).exps[id]) && Stage(old(db).exps[id]) >= 4)
      ensures o.Fine? && !Half(old(db).exps[id]) ==> !Half(db.exps[id])
      ensures old(Doomed(id)) ==> o.Crash? && Stale(db.exps[id])
    {
      hide DbInv, Recorded, Rank, Half, Benign, Touches, Doomed, AtRung;
      DoomedAtRung(id);
      Holds();
      StateFacts(db, id, lim);
      TouchesItself(db, id);
      var state := db.exps[id].state;
      if state == FAILED_REPAIRABLE || state == REPAIRING {
        o := ResumeRepair(id);
        SameHalf(old(db).exps[id], db.exps[id]);
      } else if Terminal(state) {
        return Fine(false);
      } else if state == PROPOSED || state == WORKTREE_READY || state == PATCHED || state == STATIC_VALID {
        return Raise;
      } else {
        o := WorkTurn(id);
      }
    }

    /**
      Drives a candidate until it rests.  Without a crash this ends, because every turn
      takes it forward; from a stale experiment it never ends well and writes nothing.
     */
    method RunCandidate(id: Id) returns (o: Outcome<()>)
      requires Valid() && id in db.exps && (Stale(db.exps[id]) ==> budget.Some?)
      modifies this`db, this`budget, this`history, this`writes, this`stamps, this`clock
      ensures Handled(id) && (o.Crash? ==> old(budget).Some?)
      ensures o.Fine? ==> Rests(db.exps[id]) && (Terminal(db.exps[id].state) || db.phase != FINALIST_LOCKED)
      ensures db.phase == old(db).phase
              || (old(db).phase == FINALIST_LOCKED && db.phase == OFFICIAL_EVALUATED
                  && db.finalist == Some(id) && o.Fine?)
      ensures if Stale(old(db).exps[id]) then db == old(db) && !o.Fine? else Stale(db.exps[id]) ==> o.Crash?
      ensures Terminal(old(db).exps[id].state) ==> o.Fine? && db == old(db)
      ensures old(Replays(id)) ==> o.Crash?
      ensures o.Raise? ==> !(Kind() && Smooth(old(db).exps[id]) && Stage(old(db).exps[id]) >= 4)
      ensures o.Fine? && !Half(old(db).exps[id]) ==> !Half(db.exps[id])
      ensures old(Doomed(id)) ==> o.Crash? && Stale(db.exps[id])
    {
      hide DbInv, Recorded, Rank, Rests, Terminal, Half, Stage, Benign, Doomed;
      assert old(db).exps[id := old(db).exps[id]] == old(db).exps;
      while true
        invariant Handled(id) && db.phase == old(db).phase
        invariant if Stale(old(db).exps[id]) then db == old(db) && old(budget).Some? else !Stale(db.exps[id])
        invariant Terminal(old(db).exps[id].state) ==> db == old(db)
        invariant !Half(old(db).exps[id]) ==> !Half(db.exps[id])
        invariant Smooth(old(db).exps[id]) && Stage(old(db).exps[id]) >= 4 ==> Stage(db.exps[id]) >= 4
        invariant old(Doomed(id)) ==> Doomed(id)
        decreases Left(budget, db, id, lim.repairs)
      {
        Holds();
        LeftIsPositive(budget, db, id, lim);
        var goOn :- TakeTurn(id);
        if !goOn {
          return Fine(());
        }
      }
    }

    // ---- preparation -------------------------------------------------------------------

    predicate Preparing(id: Id)
      reads this
    {
      id in db.exps && Stage(db.exps[id]) <= 4
    }

    /** Carries a candidate through the safety gates that are left. */
    method FinishPreparation(id: Id, ghost t: nat) returns (o: Outcome<()>)
      requires Valid() && Preparing(id) && PreparesFor(world, id, t, Timing(id)) && world.prepare(t).Prepared?
      modifies this`db, this`budget, this`history, this`writes, this`stamps
      ensures Worked(id) && (o.Crash? ==> old(budget).Some?) && !o.Raise?
      ensures Preparing(id) && !Stale(db.exps[id]) && db == With(old(db), id, db.exps[id])
      ensures db.exps[id].metrics == old(db).exps[id].metrics && db.exps[id].results == old(db).exps[id].results
      ensures db.exps[id].repairs == old(db).exps[id].repairs && db.exps[id].shadow == old(db).exps[id].shadow
      ensures o.Fine? ==> db.exps[id].state == FIXTURE_VALID
    {
      hide DbInv, Recorded, Rank, PlannedGo, MarkHeard, NextGate;
      assert old(db).exps[id := old(db).exps[id]] == old(db).exps;
      while db.exps[id].state != FIXTURE_VALID
        invariant Worked(id) && Preparing(id) && db == With(old(db), id, db.exps[id])
        invariant PreparesFor(world, id, t, Timing(id))
        invariant db.exps[id].metrics == old(db).exps[id].metrics && db.exps[id].results == old(db).exps[id].results
        invariant db.exps[id].repairs == old(db).exps[id].repairs && db.exps[id].shadow == old(db).exps[id].shadow
        decreases 4 - Stage(db.exps[id])
      {
        GateIsNext(db, id, world, t, Timing(id));
        var _ :- Step(id, NextGate(db.exps[id].state));
      }
      return Fine(());
    }

    /** `false` when the hooks reject the preparation; they abandon a proposal that is still new. */
    method ResumePreparation(id: Id) returns (o: Outcome<bool>)
      requires Valid() && Preparing(id)
      modifies this`db, this`budget, this`history, this`writes, this`stamps, this`clock
      ensures Worked(id) && (o.Crash? ==> old(budget).Some?) && !Stale(db.exps[id])
      ensures o == Fine(true) ==> db.exps[id].state == FIXTURE_VALID && world.prepare(old(clock)).Prepared?
      ensures o == Fine(false) ==> db.exps[id].state == ABANDONED && world.prepare(old(clock)).Rejected?
      ensures db.exps[id].metrics == old(db).exps[id].metrics && db.exps[id].results == old(db).exps[id].results
      ensures o.Raise? ==> !Benign(world) || old(db).exps[id].state != PROPOSED
    {
      hide DbInv, Recorded, Rank;
      assert old(db).exps[id := old(db).exps[id]] == old(db).exps;
      var t := Now();
      match world.prepare(t)
      case Faulty => return Raise;
      case Rejected =>
        if db.exps[id].state != PROPOSED {
          return Raise;
        }
        var _ :- Step(id, PreparationAbandoned);
        return Fine(false);
      case Prepared =>
        var _ :- FinishPreparation(id, t);
        return Fine(true);
    }

    /** Experiment `id` is new, and nothing else differs. */
    twostate predicate Added(id: Id)
      reads this
    {
      && id !in old(db).exps && id in db.exps
      && db == old(db).(exps := old(db).exps[id := db.exps[id]], order := old(db).order + [id])
    }

    method Propose(id: Id, card: SearchPolicy.CardId, ghost asked: nat, ghost t: nat) returns (o: Outcome<()>)
      requires Valid() && db.phase == DISCOVERY && forall x :: x in db.exps ==> db.exps[x].card != card
      requires Newest(stamps) <= asked < clock && Tryable(policy, lim, world, db, card, asked)
      requires Newest(stamps) <= t < clock && world.proposed(t) == id
      modifies this`db, this`budget, this`history, this`writes, this`stamps
      ensures Valid() && old(history) <= history && Later(old(budget), budget) && (o.Crash? ==> old(budget).Some?)
      ensures if o.Fine? then Added(id) && db.exps[id] == NewExp(card) && |db.order| <= lim.hypotheses
              else db == old(db)
      ensures o.Raise? ==> id in db.exps || |db.order| >= lim.hypotheses
    {
      hide DbInv, Recorded, Successor, Sound, Heard, Tryable, Entered, Born;
      Holds();
      CreateSound(db, id, card, lim);
      CreateIsHeard(lim, world, policy, db, id, card, asked, t, Timing(id));
      o := Call(Create(id, card));
    }

    /** Abandons a proposal whose preparation was rejected, or carries it through the gates. */
    method SettleProposal(id: Id, rejected: bool, ghost t: nat) returns (o: Outcome<bool>)
      requires Valid() && id in db.exps && db.exps[id].state == PROPOSED
      requires PreparesFor(world, id, t, Timing(id)) && world.prepare(t) == if rejected then Rejected else Prepared
      modifies this`db, this`budget, this`history, this`writes, this`stamps
      ensures Worked(id) && (o.Crash? ==> old(budget).Some?) && !o.Raise?
      ensures db == With(old(db), id, db.exps[id]) && !Stale(db.exps[id])
      ensures o.Fine? ==> o.value == !rejected && db.exps[id].state == if o.value then FIXTURE_VALID else ABANDONED
      ensures db.exps[id].metrics == old(db).exps[id].metrics
    {
      hide DbInv, Recorded, Rank;
      if rejected {
        var abandoned := Step(id, PreparationAbandoned);
        o := if abandoned.Fine? then Fine(false) else Crash;
      } else {
        var finished := FinishPreparation(id, t);
        o := if finished.Fine? then Fine(true) else Crash;
      }
    }

    /** A new candidate; `false` when its preparation was rejected and it was abandoned. */
    method PrepareCandidate(card: SearchPolicy.CardId, ghost asked: nat) returns (o: Outcome<bool>, id: Id)
      requires Valid() && db.phase == DISCOVERY && forall x :: x in db.exps ==> db.exps[x].card != card
      requires Newest(stamps) <= asked < clock && Tryable(policy, lim, world, db, card, asked)
      modifies this`db, this`budget, this`history, this`writes, this`stamps, this`clock
      ensures Valid() && old(history) <= history && Later(old(budget), budget) && (o.Crash? ==> old(budget).Some?)
      ensures db != old(db) ==> Added(id) && !Stale(db.exps[id])
      ensures o.Fine? ==> Added(id) && |db.order| <= lim.hypotheses
      ensures o.Fine? ==>
        if o.value then db.exps[id].state == FIXTURE_VALID && world.prepare(old(clock)).Prepared?
        else db.exps[id].state == ABANDONED && world.prepare(old(clock)).Rejected?
      ensures db != old(db) ==> db.exps[id].card == card
      ensures id == world.proposed(old(clock)) && clock == old(clock) + 1
      ensures o.Raise? ==> !Benign(world) || id in old(db).exps || |old(db).order| >= lim.hypotheses
      ensures o.Fine? ==> db.exps[id].metrics == map[]
    {
      hide DbInv, Recorded, Rank, Tryable, Half, Terminal, NewestPhase, Entered, Born;
      var t := Now();
      id := world.proposed(t);
      if world.prepare(t).Faulty? {
        return Raise, id;
      }
      var proposed := Propose(id, card, asked, t);
      if proposed.IsFailure() {
        return proposed.PropagateFailure(), id;
      }
      o := SettleProposal(id, world.prepare(t).Rejected?, t);
      assert db.exps == old(db).exps[id := db.exps[id]];
    }

    // ---- the run -----------------------------------------------------------------------

    /** Without a crash ahead no experiment is stale. */
    ghost predicate Resumable()
      reads this
    {
      budget.None? ==> forall x :: x in db.exps ==> !Stale(db.exps[x])
    }

    /** No experiment is in the middle of anything, and the hooks will propose new ids. */
    ghost predicate Healthy()
      reads this
    {
      && (forall x :: x in db.exps ==> Smooth(db.exps[x]))
      && (forall t :: t >= clock ==> world.proposed(t) !in db.exps)
    }

    /** Exceptions come only from hooks, from a missing allowance, or from what a crash left behind. */
    twostate predicate Blameless(raised: bool, fine: bool)
      reads this
    {
      && old(clock) <= clock
      && (Kind() && old(Healthy()) ==> !raised && (fine ==> Healthy()))
    }

    /** Finishes an unfinished preparation; `false` when it was rejected. */
    method BringToReady(id: Id) returns (o: Outcome<bool>)
      requires Valid() && id in db.exps
      modifies this`db, this`budget, this`history, this`writes, this`stamps, this`clock
      ensures Worked(id) && (o.Crash? ==> old(budget).Some?)
      ensures o == Fine(true) ==> Stage(db.exps[id]) >= 4
      ensures o == Fine(false) ==> db.exps[id].state == ABANDONED
      ensures Stage(old(db).exps[id]) >= 4 ==> db == old(db) && budget == old(budget) && o == Fine(true)
      ensures Stale(db.exps[id]) ==> Stale(old(db).exps[id])
      ensures Half(db.exps[id]) == Half(old(db).exps[id])
      ensures o.Raise? ==> !(Kind() && Smooth(old(db).exps[id]))
    {
      hide DbInv, Recorded, Rank, Half, Benign;
      assert old(db).exps[id := old(db).exps[id]] == old(db).exps;
      var state := db.exps[id].state;
      if state == PROPOSED || state == WORKTREE_READY || state == PATCHED || state == STATIC_VALID {
        o := ResumePreparation(id);
        SameHalf(old(db).exps[id], db.exps[id]);
      } else {
        o := Fine(true);
      }
    }

    /** Finishes the preparation if need be, then drives the candidate until it rests. */
    method TakeUp(id: Id) returns (o: Outcome<()>)
      requires Valid() && id in db.exps && (Stale(db.exps[id]) ==> budget.Some?)
      modifies this`db, this`budget, this`history, this`writes, this`stamps, this`clock
      ensures Handled(id) && (o.Crash? ==> old(budget).Some?)
      ensures o.Fine? ==> Rests(db.exps[id]) && (Terminal(db.exps[id].state) || db.phase != FINALIST_LOCKED)
      ensures db.phase == old(db).phase
              || (old(db).phase == FINALIST_LOCKED && db.phase == OFFICIAL_EVALUATED
                  && db.finalist == Some(id) && o.Fine?)
      ensures if Stale(old(db).exps[id]) then db == old(db) && !o.Fine? else Stale(db.exps[id]) ==> o.Crash?
      ensures Terminal(old(db).exps[id].state) ==> o.Fine? && db == old(db)
      ensures o.Raise? ==> !(Kind() && Smooth(old(db).exps[id]))
      ensures o.Fine? && !Half(old(db).exps[id]) ==> !Half(db.exps[id])
      ensures old(Doomed(id)) ==> o.Crash? && Stale(db.exps[id])
    {
      hide DbInv, Recorded, Rank, Half, Benign, Stage, Doomed, AtRung, Touches;
      DoomedAtRung(id);
      LateStages(db.exps[id]);
      var ready :- BringToReady(id);
      if !ready {
        AbandonedRests(db.exps[id]);
        return Fine(());
      }
      StillDoomed(id);
      ghost var before := db;
      o := RunCandidate(id);
      TouchesChains(old(db), before, db, id);
    }

    method ResumeOne(id: Id, phase: ValidationPhase) returns (o: Outcome<()>)
      requires Valid() && id in db.exps && (Stale(db.exps[id]) ==> budget.Some?)
      requires phase != OFFICIAL_EVALUATED
      requires db.phase == phase || (phase == FINALIST_LOCKED && db.phase == OFFICIAL_EVALUATED)
      modifies this`db, this`budget, this`history, this`writes, this`stamps, this`clock
      ensures Valid() && old(history) <= history && Later(old(budget), budget) && (o.Crash? ==> old(budget).Some?)
      ensures id in db.exps && SameRecord(old(db), db)
      ensures forall x :: x in old(db).exps && x != id ==> db.exps[x] == old(db).exps[x]
      ensures db.phase == old(db).phase || (old(db).phase == FINALIST_LOCKED && db.phase == OFFICIAL_EVALUATED)
      ensures o.Fine? ==> Resumed(db.exps[id], phase)
      ensures Terminal(old(db).exps[id].state) ==> o.Fine? && db == old(db)
      ensures !Stale(old(db).exps[id]) ==> (Stale(db.exps[id]) ==> o.Crash?)
      ensures Stale(old(db).exps[id]) ==> db == old(db) && !o.Fine?
      ensures o.Raise? ==> !(Kind() && Smooth(old(db).exps[id]))
      ensures o.Fine? && !Half(old(db).exps[id]) ==> !Half(db.exps[id])
      ensures old(clock) <= clock
      ensures old(Doomed(id)) ==> o.Crash? && Stale(db.exps[id])
    {
      hide DbInv, Recorded, Rank, Half, Benign, Stage, Doomed, AtRung, Kind, Smooth;
      DoomedAtRung(id);
      Holds();
      PlaceFacts(db, id, lim);
      LateStages(db.exps[id]);
      assert old(db).exps[id := old(db).exps[id]] == old(db).exps;
      var state := db.exps[id].state;
      if state == PROMOTED || state == REJECTED || state == ABANDONED {
        return Fine(());
      }
      if phase == FINALIST_LOCKED && state == DIAGNOSED && db.finalist != Some(id) {
        var _ :- Step(id, NonFinalistAbandoned);
        return Fine(());
      }
      o := TakeUp(id);
      Holds();
      PlaceFacts(db, id, lim);
    }

    /** The only experiment is doomed. */
    ghost predicate DoomedAlone()
      reads this
    {
      db.phase == DISCOVERY && |db.order| == 1 && Doomed(db.order[0])
    }

    method ResumeActive() returns (o: Outcome<()>)
      requires Valid() && Resumable()
      modifies this`db, this`budget, this`history, this`writes, this`stamps, this`clock
      ensures Valid() && old(history) <= history && Later(old(budget), budget) && (o.Crash? ==> old(budget).Some?)
      ensures Resumable() && SameRecord(old(db), db)
      ensures db.phase == old(db).phase || (old(db).phase == FINALIST_LOCKED && db.phase == OFFICIAL_EVALUATED)
      ensures old(db).phase == OFFICIAL_EVALUATED ==> db == old(db) && o.Fine?
      ensures o.Fine? && old(db).phase != OFFICIAL_EVALUATED ==>
        forall x :: x in db.exps ==> Resumed(db.exps[x], old(db).phase)
      ensures old(db).phase != OFFICIAL_EVALUATED ==> forall x :: x in old(db).exps && Stale(old(db).exps[x]) ==>
        !o.Fine? && db.exps[x] == old(db).exps[x]
      ensures (forall x :: x in old(db).exps ==> Terminal(old(db).exps[x].state)) ==> o.Fine? && db == old(db)
      ensures o.Raise? ==> !(Kind() && forall x :: x in old(db).exps ==> Smooth(old(db).exps[x]))
      ensures o.Fine? ==> forall x :: x in old(db).exps && Smooth(old(db).exps[x]) ==> Smooth(db.exps[x])
      ensures old(clock) <= clock
      ensures old(DoomedAlone()) ==>
        o.Crash? && old(db).order[0] in db.exps && Stale(db.exps[old(db).order[0]])
    {
      hide DbInv, Recorded, Terminal, Resumed, Stale, Half, Smooth, Kind, RowDone, PassingRows, SameRecord, Doomed;
      var phase, rows := db.phase, db.order;
      Holds();
      RowsOfOrder(db, lim);
      ghost var start := db;
      StartsPassing(start, rows, phase);
      PassedRows(start, db, rows, phase, 0);
      if phase == OFFICIAL_EVALUATED {
        return Fine(());
      }
      for i := 0 to |rows|
        invariant Valid() && old(history) <= history && Later(old(budget), budget) && old(clock) <= clock
        invariant PassingRows(start, db, rows, phase, i)
        invariant old(DoomedAlone()) ==> i == 0 && Doomed(rows[0])
      {
        ghost var before := db;
        PassedRows(start, before, rows, phase, i);
        var resumed := ResumeOne(rows[i], phase);
        if resumed.IsFailure() {
          StoppedAtRow(start, before, db, rows, phase, i);
          SameOrder(start, db);
          return resumed;
        }
        IsDone(before.exps[rows[i]], db.exps[rows[i]], phase);
        OneRowMore(start, before, db, rows, phase, i);
      }
      PassedRows(start, db, rows, phase, |rows|);
      return Fine(());
    }

    /** Closes discovery on the champion; `false` when no candidate is left. */
    method LockShadowFinalist(ghost t: nat) returns (o: Outcome<bool>)
      requires Valid() && db.phase == DISCOVERY && AllSettled(db)
      requires Newest(stamps) <= t < clock && Closable(policy, lim, world, db, t)
      modifies this`db, this`budget, this`history, this`writes, this`stamps
      ensures Valid() && old(history) <= history && Later(old(budget), budget) && (o.Crash? ==> old(budget).Some?)
      ensures !o.Raise? && (o != Fine(true) ==> db == old(db))
      ensures o == Fine(true) ==>
        && old(db).champion.Some? && db == old(db).(phase := FINALIST_LOCKED, finalist := old(db).champion)
      ensures o == Fine(false) ==> AllFinished(db) && stamps == old(stamps)
    {
      hide DbInv, Recorded, Successor, Sound, AllSettled;
      Holds();
      ChampionStands(db, lim);
      if db.champion.None? {
        return Fine(false);
      }
      LockSound(db, db.champion.value, lim);
      var _ :- Call(Lock(db.champion.value));
      return Fine(true);
    }

    /** The next card: never tried, bound, and with its prerequisites earned by diagnosed cards. */
    method NextCard() returns (c: Option<SearchPolicy.Card>)
      ensures c == SearchPolicy.NextCard(policy.cards, Attempted(db) + Unbound(policy), Flags(policy, db))
      ensures if c.Some? then Picked(policy, db, c.value.id) else Exhausted(policy, db)
      ensures c.Some? ==>
        && c.value in policy.cards && c.value.id in policy.bound
        && SearchPolicy.Eligible(c.value, Attempted(db), Flags(policy, db))
        && forall x :: x in db.exps ==> db.exps[x].card != c.value.id
    {
      hide SearchPolicy.EvidenceFlags, SearchPolicy.NextCard;
      var flags := SearchPolicy.CollectFlags(policy.supports, policy.queue, DiagnosedCards(db));
      c := SearchPolicy.NextCard(policy.cards, Attempted(db) + Unbound(policy), flags);
      SearchPolicy.NextCardChooses(policy.cards, Attempted(db) + Unbound(policy), flags);
      if c.Some? {
        assert forall x :: x in db.exps ==> db.exps[x].card in Attempted(db);
      }
    }

    /** The clock asks to stop, or a cap is reached. */
    method StopReason() returns (stop: bool)
      requires Valid()
      modifies this`clock
      ensures Valid() && clock == old(clock) + 1 && Newest(stamps) <= old(clock)
      ensures stop <==> world.stops(old(clock)) || Capped(lim, db)
    {
      hide Recorded;
      var t := Now();
      stop := world.stops(t) || |db.order| >= lim.hypotheses || db.evaluations >= lim.evaluations;
    }

    method Finish(ghost t: nat) returns (o: Outcome<bool>)
      requires Valid() && db.run == SEARCHING && Concluded(db)
      requires db.phase == DISCOVERY ==> Newest(stamps) <= t < clock && Closable(policy, lim, world, db, t)
      modifies this`db, this`budget, this`history, this`writes, this`stamps
      ensures Valid() && old(history) <= history && Later(old(budget), budget) && (o.Crash? ==> old(budget).Some?)
      ensures !o.Raise? && (o.Fine? ==> o.value && db == old(db).(run := FINALIZING)) && (!o.Fine? ==> db == old(db))
    {
      hide DbInv, Recorded, Successor;
      var _ :- Call(MoveRun(SEARCHING, FINALIZING));
      return Fine(true);
    }

    /** One turn with a locked finalist: None to go on, otherwise whether the run finalizes. */
    method LockedTurn() returns (o: Outcome<Option<bool>>)
      requires Valid() && Resumable() && db.phase == FINALIST_LOCKED && db.run == SEARCHING
      modifies this`db, this`budget, this`history, this`writes, this`stamps, this`clock
      ensures Valid() && old(history) <= history && Later(old(budget), budget) && (o.Crash? ==> old(budget).Some?)
      ensures Resumable() && (o.Fine? ==> forall x :: x in old(db).exps ==> !Stale(old(db).exps[x]))
      ensures forall x :: x in old(db).exps && Stale(old(db).exps[x]) ==> x in db.exps && db.exps[x] == old(db).exps[x]
      ensures db.order == old(db).order
      ensures o == Fine(None) ==> db.phase == OFFICIAL_EVALUATED && db.run == SEARCHING && !AllFinished(old(db))
      ensures o == Fine(Some(true)) ==> db.run == FINALIZING && Concluded(db)
      ensures o == Fine(Some(false)) ==> Stuck(db)
      ensures !o.Fine? ==> db.run == SEARCHING
      ensures Stuck(old(db)) ==> o == Fine(Some(false)) && db == old(db)
      ensures Blameless(o.Raise?, o.Fine?)
    {
      hide DbInv, Recorded, Stale, Terminal, Benign, Smooth;
      var _ :- ResumeActive();
      if db.phase == OFFICIAL_EVALUATED {
        return Fine(None);
      }
      Holds();
      LockedFacts(db, lim);
      assert AllFinished(db);
      if db.exps[db.finalist.value].state == FAILED_FINAL {
        var _ :- Finish(clock);
        return Fine(Some(true));
      }
      return Fine(Some(false));
    }

    /** One experiment more, for this card. */
    twostate predicate Chose(card: SearchPolicy.CardId)
      reads this
    {
      exists id :: db.order == old(db).order + [id] && id in db.exps && db.exps[id].card == card
    }

    /** Prepares and runs a candidate for a card that was never tried. */
    method TryCard(card: SearchPolicy.CardId, ghost asked: nat) returns (o: Outcome<()>)
      requires Valid() && db.phase == DISCOVERY && AllSettled(db) && forall x :: x in db.exps ==>
        db.exps[x].card != card
      requires Newest(stamps) <= asked < clock && Tryable(policy, lim, world, db, card, asked)
      modifies this`db, this`budget, this`history, this`writes, this`stamps, this`clock
      ensures Valid() && old(history) <= history && Later(old(budget), budget) && (o.Crash? ==> old(budget).Some?)
      ensures Resumable() && db.phase == DISCOVERY && db.run == old(db).run
      ensures o.Fine? ==> AllSettled(db) && |db.order| == |old(db).order| + 1 && |db.order| <= lim.hypotheses
      ensures o.Fine? ==> Chose(card)
      ensures Blameless(o.Raise?, o.Fine?)
    {
      hide DbInv, Recorded, Rests, Stale, Benign, Smooth, Stage, Picked, Half, Terminal, Doomed;
      SettledIsNotStale(db);
      var prepared, id := PrepareCandidate(card, asked);
      NewIds(world);
      if prepared.IsFailure() {
        return prepared.PropagateFailure();
      }
      FreshIsSmooth(db.exps[id]);
      if prepared.value {
        o := RunCandidate(id);
        RestsIsSmoothNow(db.exps[id]);
      } else {
        AbandonedRests(db.exps[id]);
        o := Fine(());
      }
    }

    /** Discovery is over: lock and evaluate the champion, or finalize when nobody waits. */
    method CloseDiscovery(ghost t: nat) returns (o: Outcome<Option<bool>>)
      requires Valid() && db.phase == DISCOVERY && db.run == SEARCHING && AllSettled(db)
      requires Newest(stamps) <= t < clock && Closable(policy, lim, world, db, t)
      modifies this`db, this`budget, this`history, this`writes, this`stamps, this`clock
      ensures Valid() && old(history) <= history && Later(old(budget), budget) && (o.Crash? ==> old(budget).Some?)
      ensures Resumable() && (!o.Fine? ==> db.run == SEARCHING)
      ensures o.Fine? ==>
        || (o.value.None? && db.run == SEARCHING && db.phase != DISCOVERY && db.order == old(db).order)
        || (o.value == Some(true) && db.run == FINALIZING && Concluded(db))
      ensures Blameless(o.Raise?, o.Fine?)
    {
      hide DbInv, Recorded, AllSettled, Stale, Terminal, Benign, Smooth;
      SettledIsNotStale(db);
      var locked :- LockShadowFinalist(t);
      if locked {
        var _ :- ResumeActive();
        return Fine(None);
      }
      var _ :- Finish(t);
      return Fine(Some(true));
    }

    /** One turn of open discovery: stop and lock, or try the next card. */
    method DiscoveryTurn() returns (o: Outcome<Option<bool>>)
      requires Valid() && db.phase == DISCOVERY && db.run == SEARCHING && AllSettled(db)
      modifies this`db, this`budget, this`history, this`writes, this`stamps, this`clock
      ensures Valid() && old(history) <= history && Later(old(budget), budget) && (o.Crash? ==> old(budget).Some?)
      ensures Resumable() && (!o.Fine? ==> db.run == SEARCHING)
      ensures o.Fine? ==>
        (o.value.None? && db.run == SEARCHING) || (o.value == Some(true) && db.run == FINALIZING && Concluded(db))
      ensures o == Fine(None) && db.phase == DISCOVERY ==>
        AllSettled(db) && |db.order| == |old(db).order| + 1 && |db.order| <= lim.hypotheses
      ensures o == Fine(None) && db.phase != DISCOVERY ==> db.order == old(db).order
      ensures !Open(db) ==> Closable(policy, lim, world, old(db), old(clock)) && old(clock) < clock
      ensures o.Fine? && Open(db) ==>
        exists card :: Tryable(policy, lim, world, old(db), card, old(clock)) && Chose(card)
      ensures Blameless(o.Raise?, o.Fine?)
    {
      hide DbInv, Recorded, AllSettled, Concluded, Resumable, Benign, Smooth, Picked;
      ghost var asked := clock;
      var stop := StopReason();
      var card := NextCard();
      if stop || card.None? {
        o := CloseDiscovery(asked);
      } else {
        var _ :- TryCard(card.value.id, asked);
        return Fine(None);
      }
    }

    /** One turn of the run's loop: None to go on, otherwise whether the run finalizes. */
    method TurnOnce() returns (o: Outcome<Option<bool>>)
      requires Valid() && Resumable() && db.run == SEARCHING && (db.phase == DISCOVERY ==> AllSettled(db))
      modifies this`db, this`budget, this`history, this`writes, this`stamps, this`clock
      ensures Valid() && old(history) <= history && Later(old(budget), budget) && (o.Crash? ==> old(budget).Some?)
      ensures Resumable() && (!o.Fine? || o.value.None? ==> db.run == SEARCHING)
      ensures o == Fine(None) ==> (db.phase == DISCOVERY ==> AllSettled(db))
      ensures o == Fine(None) ==>
        || (|old(db).order| < |db.order| <= lim.hypotheses)
        || (db.order == old(db).order && Turn(old(db).phase) < Turn(db.phase))
      ensures o == Fine(Some(true)) ==> db.run == FINALIZING && Concluded(db)
      ensures o == Fine(Some(false)) ==> Stuck(db)
      ensures Stuck(old(db)) ==> o == Fine(Some(false)) && db == old(db)
      ensures Open(old(db)) && !Open(db) ==> Closable(policy, lim, world, old(db), old(clock)) && old(clock) < clock
      ensures Blameless(o.Raise?, o.Fine?)
    {
      hide DbInv, Recorded, AllSettled, Stale, Terminal, Concluded, Benign, Smooth, Closable;
      match db.phase
      case OFFICIAL_EVALUATED =>
        EvaluatedConcludes(db);
        var finalizing :- Finish(clock);
        return Fine(Some(finalizing));
      case FINALIST_LOCKED => o := LockedTurn();
      case DISCOVERY => o := DiscoveryTurn();
    }

    /** Every experiment was added for a card that the policy chose in the record before it. */
    ghost predicate Chosen()
      reads this
    {
      forall k: nat, id :: k + 1 < |history| ==> TriedAt(policy, lim, world, history, k, id, clock)
    }

    lemma EachWasTried()
      requires Valid()
      ensures Chosen()
    {
      hide Recorded, TriedAt;
      forall k: nat, id | k + 1 < |history| ensures TriedAt(policy, lim, world, history, k, id, clock) {
        NewcomerWasTried(history, writes, stamps, clock, lim, world, policy, k, id);
      }
    }

    /**
      One process of the run.  It finalizes with a reason, or returns from the one
      record it cannot leave; a stale experiment makes it end in an exception or a
      crash, and stays as it is.
     */
    method Run() returns (o: Outcome<bool>)
      requires Valid() && Resumable() && db.run == SEARCHING
      modifies this`db, this`budget, this`history, this`writes, this`stamps, this`clock
      ensures Valid() && old(history) <= history && Later(old(budget), budget) && (o.Crash? ==> old(budget).Some?)
      ensures Resumable()
      ensures o == Fine(true) ==> db.run == FINALIZING && Concluded(db)
      ensures o == Fine(false) ==> Stuck(db)
      ensures Stuck(old(db)) ==> o == Fine(false) && db == old(db)
      ensures !o.Fine? ==> db.run == SEARCHING
      ensures forall x :: x in old(db).exps && Stale(old(db).exps[x]) ==>
        !o.Fine? && x in db.exps && db.exps[x] == old(db).exps[x]
      ensures Open(old(db)) && !Open(db) ==>
        ClosedWithin(policy, lim, world, history, |old(history)| - 1, old(clock), clock)
      ensures Chosen()
      ensures Blameless(o.Raise?, o.Fine?)
      ensures old(DoomedAlone()) ==>
        o.Crash? && old(db).order[0] in db.exps && Stale(db.exps[old(db).order[0]])
    {
      hide DbInv, Recorded, AllSettled, Stale, Terminal, Resumed, Concluded, Benign, Smooth;
      hide Closable, ClosedWithin, Chosen;
      Holds();
      EvaluatedIsNotStale(db, lim);
      StuckIsFinished(db);
      var resumed := ResumeActive();
      EachWasTried();
      if resumed.IsFailure() {
        return resumed.PropagateFailure();
      }
      hide SameRecord;
      ResumedIsSettled(db);
      while true
        invariant Valid() && Resumable() && old(history) <= history && Later(old(budget), budget)
        invariant db.run == SEARCHING && (db.phase == DISCOVERY ==> AllSettled(db))
        invariant Stuck(old(db)) ==> db == old(db)
        invariant Open(old(db)) && !Open(db) ==>
          ClosedWithin(policy, lim, world, history, |old(history)| - 1, old(clock), clock)
        invariant Blameless(false, true)
        decreases lim.hypotheses - |db.order|, 2 - Turn(db.phase)
      {
        hide Stuck, Resumable, Healthy;
        ghost var h, t := history, clock;
        var turn := TurnOnce();
        EachWasTried();
        if Open(old(db)) && !Open(db) {
          ClosedByNow(policy, lim, world, h, history, |old(history)| - 1, old(clock), t, clock);
        }
        if turn.IsFailure() {
          return turn.PropagateFailure();
        }
        if turn.value.Some? {
          return Fine(turn.value.value);
        }
      }
    }

    /** The run started again after every crash or exception; `calls` are the store calls each process lives for. */
    method RunAgainAndAgain(calls: seq<nat>) returns (finalizing: bool)
      requires Valid() && db.run == SEARCHING
      modifies this`db, this`budget, this`history, this`writes, this`stamps, this`clock
      ensures Valid() && old(history) <= history
      ensures finalizing ==> db.run == FINALIZING && Concluded(db)
      ensures forall x :: x in old(db).exps && Stale(old(db).exps[x]) ==>
        !finalizing && x in db.exps && db.exps[x] == old(db).exps[x]
    {
      hide DbInv, Recorded, Stale, Terminal, Concluded, Stuck;
      for i := 0 to |calls|
        invariant Valid() && old(history) <= history && db.run == SEARCHING
        invariant forall x :: x in old(db).exps && Stale(old(db).exps[x]) ==>
          x in db.exps && db.exps[x] == old(db).exps[x]
      {
        budget := Some(calls[i]);
        var o := Run();
        if o.Fine? {
          return o.value;
        }
      }
      return false;
    }
  }

  /**
    A new run that no crash interrupts, with hooks that do not raise: it ends, and
    finalizes unless the official gate rejected the finalist.
   */
  method RunUninterrupted(lim: Limits, world: World, policy: Policy, best: int) returns (a: Autopilot, finalizing: bool)
    requires Benign(world) && lim.evaluations >= 1
    ensures fresh(a) && a.Valid() && a.history[0] == Fresh(best)
    ensures if finalizing then a.db.run == FINALIZING && Concluded(a.db) else Stuck(a.db)
  {
    a := new Autopilot(lim, world, policy, best, None);
    var o := a.Run();
    finalizing := o.value;
  }

  /** The plan repairs exactly the failures that may be repaired. */
  lemma PlanIsDue(e: Exp, lim: Limits)
    requires e.last.Failed? && e.last.status != INTERRUPTED
    ensures PlanRepair(e.last.status, |e.repairs|, lim.repairs).repair == MayRepair(e, lim)
  {}

  lemma SameRepairFails(w: World, e: Exp, f: Exp, t: nat)
    requires e.repairs == f.repairs
    ensures RepairFailsAt(w, e, t) == RepairFailsAt(w, f, t)
  {}

  /** The safety gate after this state. */
  function NextGate(s: ExperimentState): Mark
  {
    match s
    case PROPOSED => WorktreeReady
    case WORKTREE_READY => Patched
    case PATCHED => StaticValid
    case _ => FixtureValid
  }

  lemma GateIsNext(db: Db, id: Id, w: World, t: nat, times: Times)
    requires id in db.exps && Stage(db.exps[id]) < 4 && PreparesFor(w, id, t, times) && w.prepare(t).Prepared?
    ensures var m := NextGate(db.exps[id].state);
      && PlannedGo(db, id, m) && MarkHeard(w, id, m, times)
      && forall e: Exp :: e.state == To(m) ==> Stage(e) == Stage(db.exps[id]) + 1
  {}

  lemma CompletionIsPlanned(db: Db, id: Id, rung: Rung)
    requires id in db.exps && db.exps[id].state == Running(rung) && rung in db.exps[id].results
    ensures PlannedGo(db, id, Completion(rung))
  {}

  lemma CompletionGoes(rung: Rung)
    ensures To(Completion(rung)) != FAILED_REPAIRABLE
  {}

  lemma RungStages(e: Exp)
    ensures e.state == CHEAP_RUNNING || e.state == FULL_RUNNING ==> 5 <= Stage(e) <= 12
    ensures forall rung :: e.state == To(Completion(rung)) ==> 5 <= Stage(e) <= 12
  {}

  lemma NotBenign(w: World, t: nat)
    ensures Benign(w) ==> !w.rung(t).Unexpected? && w.rung(t) != Broke(INTERRUPTED)
  {}

  lemma GoChangesState(db: Db, id: Id, m: Mark)
    requires id in db.exps && PlannedGo(db, id, m)
    ensures db.exps[id].state != To(m)
  {}

  lemma GoIsPlanned(db: Db, id: Id, m: Mark, lim: Limits)
    requires id in db.exps && PlannedGo(db, id, m)
    ensures Planned(db, Advancing(id, m), lim)
  {}

  lemma LeftIsPositive(budget: Option<nat>, db: Db, id: Id, lim: Limits)
    requires DbInv(db, lim) && id in db.exps
    ensures Left(budget, db, id, lim.repairs) >= 0
  {
    hide Rank, ExpInv;
    ExpSound(db, id, lim);
    RankIsBounded(db.exps[id], lim.repairs);
  }

  /** The finalist alone is still at work after the lock, and is finished once it was evaluated. */
  lemma PlaceFacts(db: Db, id: Id, lim: Limits)
    requires DbInv(db, lim) && id in db.exps
    ensures db.phase != DISCOVERY && db.finalist != Some(id) ==> Rests(db.exps[id])
    ensures db.phase != DISCOVERY && db.finalist == Some(id) ==> Supported(db.exps[id])
    ensures db.phase == OFFICIAL_EVALUATED && db.finalist == Some(id) ==> Terminal(db.exps[id].state)
  {
    hide ExpInv, ChampionInv, OrderInv;
    assert PlaceInv(db, id);
  }

  lemma RowsOfOrder(db: Db, lim: Limits)
    requires DbInv(db, lim)
    ensures forall i, j :: 0 <= i < j < |db.order| ==> db.order[i] != db.order[j]
    ensures forall id :: id in db.order <==> id in db.exps
  {
    hide ExpInv, PlaceInv, FinalsInv, ChampionInv;
  }

  lemma LockedFacts(db: Db, lim: Limits)
    requires DbInv(db, lim) && db.phase == FINALIST_LOCKED
    ensures db.finalist.Some? && db.finalist.value in db.exps
    ensures var s := db.exps[db.finalist.value].state; Terminal(s) ==> s == REJECTED || s == FAILED_FINAL
  {
    hide ExpInv, ChampionInv, OrderInv;
    assert PlaceInv(db, db.finalist.value);
  }

  lemma SettledIsNotStale(db: Db)
    requires AllSettled(db)
    ensures forall x :: x in db.exps ==> !Stale(db.exps[x])
  {}

  lemma AbandonedRests(e: Exp)
    requires e.state == ABANDONED
    ensures Rests(e) && !Stale(e)
  {}

  lemma EvaluatedIsNotStale(db: Db, lim: Limits)
    requires DbInv(db, lim)
    ensures db.phase == OFFICIAL_EVALUATED ==> forall x :: x in db.exps ==> !Stale(db.exps[x])
  {
    hide DbInv;
    forall x | x in db.exps && db.phase == OFFICIAL_EVALUATED ensures !Stale(db.exps[x]) {
      PlaceFacts(db, x, lim);
    }
  }

  lemma StuckIsFinished(db: Db)
    ensures Stuck(db) ==> forall x :: x in db.exps ==> Terminal(db.exps[x].state)
  {}

  lemma ResumedIsSettled(db: Db)
    ensures (forall x :: x in db.exps ==> Resumed(db.exps[x], DISCOVERY)) ==> AllSettled(db)
  {}

  lemma EvaluatedConcludes(db: Db)
    ensures db.phase == OFFICIAL_EVALUATED ==> Concluded(db) && Concluded(db.(run := FINALIZING))
  {}

  /** Over a whole history cards stay attempted and earned flags stay earned. */
  lemma EvidenceOnlyGrows(h: seq<Db>, lim: Limits, p: Policy, i: nat, j: nat)
    requires History(h, lim) && i <= j < |h|
    ensures Attempted(h[i]) <= Attempted(h[j]) && Flags(p, h[i]) <= Flags(p, h[j])
  {
    forall id | id in h[i].exps
      ensures id in h[j].exps && h[j].exps[id].card == h[i].exps[id].card
      ensures Go(Diagnosed) in h[i].exps[id].keys ==> Go(Diagnosed) in h[j].exps[id].keys
    {
      TrailIsAppendOnly(h, lim, i, j, id);
      ExperimentsOnlyAdvance(h, lim, i, j, id);
    }
    hide History;
    SearchPolicy.FlagsOnlyGrow(p.supports, p.queue, DiagnosedCards(h[i]), DiagnosedCards(h[j]));
  }

  /** The finalist's official metrics are counted once and only under the lock. */
  lemma NotYetCounted(db: Db, id: Id, lim: Limits)
    requires DbInv(db, lim) && id in db.exps
    ensures db.exps[id].state == OFFICIAL_VALID_RUNNING && Official !in db.exps[id].metrics ==>
      db.evaluations == 0 && db.phase == FINALIST_LOCKED && db.finalist == Some(id)
  {
    hide ExpInv, OrderInv, ChampionInv;
    assert PlaceInv(db, id);
  }

  /** Only metrics and results decide whether a rung was half stored. */
  lemma SameHalf(e: Exp, f: Exp)
    requires e.metrics == f.metrics && e.results == f.results
    ensures Half(e) == Half(f)
  {}

  lemma LateStages(e: Exp)
    ensures Rests(e) || e.state == FAILED_REPAIRABLE ==> Stage(e) >= 4
    ensures Rests(e) ==> !Stale(e)
  {}

  /** The same experiments, run state and finalist. */
  predicate SameRecord(a: Db, b: Db)
  {
    b.order == a.order && b.run == a.run && b.finalist == a.finalist && b.exps.Keys == a.exps.Keys
  }

  lemma SameOrder(a: Db, b: Db)
    requires SameRecord(a, b)
    ensures b.order == a.order && forall x :: x in b.exps <==> x in a.exps
  {}

  /** An experiment that a resumption has gone through. */
  predicate RowDone(before: Exp, e: Exp, phase: ValidationPhase)
  {
    Resumed(e, phase) && !Stale(before) && (Smooth(before) ==> Smooth(e))
  }

  lemma IsDone(before: Exp, e: Exp, phase: ValidationPhase)
    requires Resumed(e, phase) && !Stale(before) && (!Half(before) ==> !Half(e))
    ensures RowDone(before, e, phase)
  {
    hide Half;
  }

  /** The first `i` rows are done, the others as they were; nothing but their experiments and the phase moved. */
  ghost predicate PassingRows(start: Db, db: Db, rows: seq<Id>, phase: ValidationPhase, i: nat)
  {
    && i <= |rows| && SameRecord(start, db) && start.phase == phase
    && (forall k, l :: 0 <= k < l < |rows| ==> rows[k] != rows[l])
    && (forall x :: x in rows <==> x in start.exps)
    && (db.phase == phase || (phase == FINALIST_LOCKED && db.phase == OFFICIAL_EVALUATED))
    && (forall k :: 0 <= k < i ==> RowDone(start.exps[rows[k]], db.exps[rows[k]], phase))
    && (forall k :: i <= k < |rows| ==> db.exps[rows[k]] == start.exps[rows[k]])
    && ((forall x :: x in start.exps ==> Terminal(start.exps[x].state)) ==> db == start)
  }

  lemma StartsPassing(db: Db, rows: seq<Id>, phase: ValidationPhase)
    requires db.phase == phase && forall k, l :: 0 <= k < l < |rows| ==> rows[k] != rows[l]
    requires forall x :: x in rows <==> x in db.exps
    ensures PassingRows(db, db, rows, phase, 0)
  {}

  lemma OneRowMore(start: Db, before: Db, db: Db, rows: seq<Id>, phase: ValidationPhase, i: nat)
    requires PassingRows(start, before, rows, phase, i) && i < |rows| && SameRecord(before, db)
    requires forall x :: x in before.exps && x != rows[i] ==> db.exps[x] == before.exps[x]
    requires db.phase == before.phase || (before.phase == FINALIST_LOCKED && db.phase == OFFICIAL_EVALUATED)
    requires rows[i] in before.exps && RowDone(before.exps[rows[i]], db.exps[rows[i]], phase)
    requires Terminal(before.exps[rows[i]].state) ==> db == before
    ensures PassingRows(start, db, rows, phase, i + 1)
  {
    hide RowDone, Terminal;
    assert forall k :: 0 <= k < |rows| && k != i ==> rows[k] in before.exps && db.exps[rows[k]] == before.exps[rows[k]];
  }

  /** What is known after `i` rows. */
  lemma PassedRows(start: Db, db: Db, rows: seq<Id>, phase: ValidationPhase, i: nat)
    requires PassingRows(start, db, rows, phase, i)
    ensures SameRecord(start, db) && (forall x :: x in db.exps <==> x in start.exps)
    ensures db.phase == phase || (phase == FINALIST_LOCKED && db.phase == OFFICIAL_EVALUATED)
    ensures i < |rows| ==> rows[i] in db.exps && db.exps[rows[i]] == start.exps[rows[i]]
    ensures (forall x :: x in start.exps ==> !Stale(start.exps[x])) ==> forall x :: x in db.exps ==> !Stale(db.exps[x])
    ensures i == |rows| ==>
      && (forall x :: x in db.exps ==> Resumed(db.exps[x], phase) && !Stale(start.exps[x]))
      && (forall x :: x in start.exps && Smooth(start.exps[x]) ==> Smooth(db.exps[x]))
    ensures (forall x :: x in start.exps ==> Terminal(start.exps[x].state)) ==> db == start
  {
    hide Smooth;
    forall x | x in db.exps && !Stale(start.exps[x]) ensures !Stale(db.exps[x]) {
      var k :| 0 <= k < |rows| && rows[k] == x;
      if k < i {
        LateStages(db.exps[x]);
      }
    }
    hide Stale, Resumed;
  }

  /** A row that ended in an exception or a crash: what was stale before is untouched. */
  lemma StoppedAtRow(start: Db, before: Db, db: Db, rows: seq<Id>, phase: ValidationPhase, i: nat)
    requires PassingRows(start, before, rows, phase, i) && i < |rows| && SameRecord(before, db)
    requires forall x :: x in before.exps && x != rows[i] ==> db.exps[x] == before.exps[x]
    requires rows[i] in before.exps && (Stale(before.exps[rows[i]]) ==> db == before)
    ensures SameRecord(start, db)
    ensures forall x :: x in start.exps && Stale(start.exps[x]) ==> db.exps[x] == start.exps[x]
    ensures (forall x :: x in start.exps ==> !Stale(start.exps[x])) && !Stale(db.exps[rows[i]]) ==>
      forall x :: x in db.exps ==> !Stale(db.exps[x])
  {
    PassedRows(start, before, rows, phase, i);
    forall x | x in start.exps && Stale(start.exps[x]) ensures db.exps[x] == start.exps[x] {
      var k :| 0 <= k < |rows| && rows[k] == x;
      assert k < i ==> RowDone(start.exps[x], before.exps[x], phase);
    }
    hide Stale, PassingRows;
  }

  lemma NewIds(w: World)
    ensures Benign(w) ==> forall t, u :: w.proposed(t) == w.proposed(u) ==> t == u
  {}

  lemma FreshIsSmooth(e: Exp)
    ensures e.metrics == map[] ==> !Half(e)
    ensures e.metrics == map[] && (e.state == FIXTURE_VALID || e.state == ABANDONED) ==> Smooth(e) && Stage(e) >= 4
  {}

  lemma RestsIsSmoothNow(e: Exp)
    ensures Rests(e) && !Half(e) ==> Smooth(e)
  {
    hide Half;
  }
}
