/**
  Why each write happens: the answer of a hook or of the clock, given since the
  experiment entered its state, or the policy's own choice.
 */
module Causes {
  import opened Options
  import opened Lifecycle
  import opened Store
  import opened Discipline
  import opened PlannedWrites
  import opened RecordSoundness
  import opened Histories
  import SearchPolicy

  datatype RungOutcome = Done(observation: Observation) | Broke(status: AttemptStatus) | Unexpected

  datatype Preparation = Prepared | Rejected | Faulty

  /** What the hooks and the clock answer at each moment; `repair` is None when the repair raises. */
  datatype World = World(
    rung: nat -> RungOutcome, repair: nat -> Option<nat>, diagnosed: nat -> bool,
    prepare: nat -> Preparation, proposed: nat -> Id, stops: nat -> bool)

  /** Hooks that neither raise nor are interrupted; a rung may fail and a repair may fail. */
  ghost predicate Benign(w: World)
  {
    && (forall t :: !w.rung(t).Unexpected? && w.rung(t) != Broke(INTERRUPTED))
    && (forall t :: w.diagnosed(t) && !w.prepare(t).Faulty?)
    && (forall t, u :: w.proposed(t) == w.proposed(u) ==> t == u)
  }

  /** The method cards, the flags they support, and those with a configured binding. */
  datatype Policy = Policy(
    cards: seq<SearchPolicy.Card>, supports: map<SearchPolicy.CardId, set<SearchPolicy.Flag>>,
    queue: seq<SearchPolicy.Card>, bound: set<SearchPolicy.CardId>)

  function Attempted(db: Db): set<SearchPolicy.CardId>
  {
    set id | id in db.exps :: db.exps[id].card
  }

  /** Cards of the experiments whose rows show a diagnosis. */
  function DiagnosedCards(db: Db): set<SearchPolicy.CardId>
  {
    set id | id in db.exps && Go(Diagnosed) in db.exps[id].keys :: db.exps[id].card
  }

  function Unbound(p: Policy): set<SearchPolicy.CardId>
  {
    set c | c in p.cards && c.search && c.id !in p.bound :: c.id
  }

  function Flags(p: Policy, db: Db): set<SearchPolicy.Flag>
  {
    SearchPolicy.EvidenceFlags(p.supports, p.queue, DiagnosedCards(db))
  }

  predicate AllFinished(db: Db)
  {
    forall x :: x in db.exps ==> Terminal(db.exps[x].state)
  }

  /** Discovery is still open. */
  predicate Open(db: Db)
  {
    db.phase == DISCOVERY && db.run == SEARCHING
  }

  /** Why a run may finalize: the finalist was evaluated or failed, or no candidate is left. */
  predicate Concluded(db: Db)
  {
    match db.phase
    case OFFICIAL_EVALUATED => true
    case FINALIST_LOCKED =>
      && AllFinished(db) && db.finalist.Some? && db.finalist.value in db.exps
      && db.exps[db.finalist.value].state == FAILED_FINAL
    case DISCOVERY => AllFinished(db)
  }

  // ---- what may be proposed, and when discovery may be closed -------------------------

  /** The policy's choice in this record. */
  predicate Picked(p: Policy, db: Db, card: SearchPolicy.CardId)
  {
    var c := SearchPolicy.NextCard(p.cards, Attempted(db) + Unbound(p), Flags(p, db));
    c.Some? && c.value.id == card
  }

  /** No bound card is left that was not tried and whose prerequisites are earned. */
  ghost predicate Exhausted(p: Policy, db: Db)
  {
    forall c :: c in p.cards ==> !SearchPolicy.Eligible(c, Attempted(db) + Unbound(p), Flags(p, db))
  }

  /** The hypotheses or the official evaluations are used up. */
  predicate Capped(lim: Limits, db: Db)
  {
    |db.order| >= lim.hypotheses || db.evaluations >= lim.evaluations
  }

  /** The clock asks to stop at moment `t`, a cap is reached, or no card is left. */
  ghost predicate Closable(p: Policy, lim: Limits, w: World, db: Db, t: nat)
  {
    w.stops(t) || Capped(lim, db) || Exhausted(p, db)
  }

  /** None of these holds at moment `t`, and the policy chooses this card. */
  predicate Tryable(p: Policy, lim: Limits, w: World, db: Db, card: SearchPolicy.CardId, t: nat)
  {
    !w.stops(t) && !Capped(lim, db) && Picked(p, db, card)
  }

  // ---- the cause of a write -------------------------------------------------------------

  /** When the experiment entered its state and was created, when the last write was made, and the moment now. */
  datatype Times = Times(entered: nat, born: nat, newest: nat, now: nat)

  /** A preparation counts for the experiment it proposed, and for one that was there before it. */
  predicate PreparesFor(w: World, id: Id, t: nat, times: Times)
  {
    t < times.now && (t >= times.born || w.proposed(t) == id)
  }

  ghost predicate MarkHeard(w: World, id: Id, m: Mark, times: Times)
  {
    match m
    case PreparationAbandoned => exists t :: PreparesFor(w, id, t, times) && w.prepare(t).Rejected?
    case WorktreeReady | Patched | StaticValid | FixtureValid =>
      exists t :: PreparesFor(w, id, t, times) && w.prepare(t).Prepared?
    case Diagnosed => exists t :: times.entered <= t < times.now && w.diagnosed(t)
    case _ => true
  }

  /** The failure's status allows a repair and one is left. */
  predicate MayRepair(e: Exp, lim: Limits)
  {
    e.last.Failed? && e.last.status != SUCCESS && e.last.status != CRASH && |e.repairs| < lim.repairs
  }

  ghost predicate MoveHeard(lim: Limits, w: World, e: Exp, id: Id, payload: Payload, key: Key, times: Times)
  {
    match key
    case Go(m) => MarkHeard(w, id, m, times)
    case Failure(_, _) =>
      payload.Failed? && exists t :: times.entered <= t < times.now && w.rung(t) == Broke(payload.status)
    case FailedFinal(_, _) => !MayRepair(e, lim)
    case RepairFailed(_) => exists t :: times.entered <= t < times.now && RepairFailsAt(w, e, t)
    case _ => true
  }

  /** The hook raised, or its evidence contradicts what the newest repair already stored. */
  predicate RepairFailsAt(w: World, e: Exp, t: nat)
  {
    w.repair(t).None? || (e.repairs != [] && !Pending(e) && e.repairs[|e.repairs| - 1].evidence != w.repair(t))
  }

  /** The write follows from what was answered in time, or from the record itself. */
  ghost predicate Heard(lim: Limits, w: World, p: Policy, db: Db, write: Write, times: Times)
  {
    match write
    case Create(id, card) =>
      && (exists t :: times.newest <= t < times.now && Tryable(p, lim, w, db, card, t))
      && (exists t :: times.newest <= t < times.now && w.proposed(t) == id)
    case Move(id, _, _, payload, key) => id in db.exps && MoveHeard(lim, w, db.exps[id], id, payload, key, times)
    case Reserve(id, _, _, _) => id in db.exps && MayRepair(db.exps[id], lim)
    case Complete(_, _, evidence) => exists t :: times.entered <= t < times.now && w.repair(t) == Some(evidence)
    case Meter(_, _, primary) =>
      exists t :: times.entered <= t < times.now && w.rung(t).Done? && w.rung(t).observation.primary == primary
    case Record(_, _, o) => exists t :: times.entered <= t < times.now && w.rung(t) == Done(o)
    case Shadow(_, _) => true
    case Lock(_) => exists t :: times.newest <= t < times.now && Closable(p, lim, w, db, t)
    case Promote(id, primary) =>
      id in db.exps && Official in db.exps[id].results && db.exps[id].results[Official].primary == primary
    case MoveRun(_, _) =>
      && Concluded(db)
      && (db.phase == DISCOVERY ==> exists t :: times.newest <= t < times.now && Closable(p, lim, w, db, t))
  }

  lemma MoveIsHeard(lim: Limits, w: World, p: Policy, db: Db, write: Write, times: Times)
    requires write.Move? && write.id in db.exps
    requires MoveHeard(lim, w, db.exps[write.id], write.id, write.payload, write.key, times)
    ensures Heard(lim, w, p, db, write, times)
  {}

  lemma CreateIsHeard(lim: Limits, w: World, p: Policy, db: Db, id: Id, card: SearchPolicy.CardId,
      asked: nat, t: nat, times: Times)
    requires times.newest <= asked < times.now && Tryable(p, lim, w, db, card, asked)
    requires times.newest <= t < times.now && w.proposed(t) == id
    ensures Heard(lim, w, p, db, Create(id, card), times)
  {
    hide Tryable;
  }

  lemma MeterIsHeard(lim: Limits, w: World, p: Policy, db: Db, id: Id, rung: Rung, t: nat, times: Times)
    requires times.entered <= t < times.now && w.rung(t).Done?
    ensures Heard(lim, w, p, db, Meter(id, rung, w.rung(t).observation.primary), times)
  {}

  lemma PromoteIsHeard(lim: Limits, w: World, p: Policy, db: Db, id: Id, times: Times)
    requires id in db.exps && Official in db.exps[id].results
    ensures Heard(lim, w, p, db, Promote(id, db.exps[id].results[Official].primary), times)
  {}

  // ---- whole runs -----------------------------------------------------------------------

  function Of(w: Write): Id
  {
    if w.MoveRun? then "" else w.id
  }

  /** The write puts the experiment into another state. */
  predicate Moves(w: Write, id: Id)
  {
    Of(w) == id && (w.Create? || w.Move? || w.Promote?)
  }

  /** When `id` entered its state: the stamp of the newest write that moved it. */
  function Entered(writes: seq<Write>, stamps: seq<nat>, id: Id): nat
    requires |writes| == |stamps|
  {
    if writes == [] then 0
    else
      var n := |writes| - 1;
      if Moves(writes[n], id) then stamps[n] else Entered(writes[..n], stamps[..n], id)
  }

  function Born(writes: seq<Write>, stamps: seq<nat>, id: Id): nat
    requires |writes| == |stamps|
  {
    if writes == [] then 0
    else
      var n := |writes| - 1;
      if writes[n].Create? && writes[n].id == id then stamps[n] else Born(writes[..n], stamps[..n], id)
  }

  function Newest(stamps: seq<nat>): nat
  {
    if stamps == [] then 0 else stamps[|stamps| - 1]
  }

  function TimesAt(writes: seq<Write>, stamps: seq<nat>, id: Id, now: nat): Times
    requires |writes| == |stamps|
  {
    Times(Entered(writes, stamps, id), Born(writes, stamps, id), Newest(stamps), now)
  }

  /** Each write of the run had its cause when it was made; `stamps` are the moments of the writes. */
  ghost predicate Caused(h: seq<Db>, writes: seq<Write>, stamps: seq<nat>, now: nat, lim: Limits, w: World, p: Policy)
  {
    && |h| == |writes| + 1 && |stamps| == |writes|
    && (forall k :: 0 <= k < |stamps| ==> stamps[k] <= now)
    && forall k :: 0 <= k < |writes| ==>
         Heard(lim, w, p, h[k], writes[k], TimesAt(writes[..k], stamps[..k], Of(writes[k]), stamps[k]))
  }

  lemma CausedFromStart(start: Db, now: nat, lim: Limits, w: World, p: Policy)
    ensures Caused([start], [], [], now, lim, w, p)
  {}

  lemma CausedLater(h: seq<Db>, writes: seq<Write>, stamps: seq<nat>, now: nat, later: nat,
      lim: Limits, w: World, p: Policy)
    requires Caused(h, writes, stamps, now, lim, w, p) && now <= later
    ensures Caused(h, writes, stamps, later, lim, w, p)
  {
    hide Heard;
  }

  lemma CausedGrows(h: seq<Db>, writes: seq<Write>, stamps: seq<nat>, now: nat, lim: Limits, w: World, p: Policy,
      write: Write, next: Db)
    requires Caused(h, writes, stamps, now, lim, w, p)
    requires Heard(lim, w, p, h[|h| - 1], write, TimesAt(writes, stamps, Of(write), now))
    ensures Caused(h + [next], writes + [write], stamps + [now], now, lim, w, p)
  {
    hide Heard, TimesAt;
    var more, later := writes + [write], stamps + [now];
    forall k | 0 <= k < |more|
      ensures Heard(lim, w, p, (h + [next])[k], more[k], TimesAt(more[..k], later[..k], Of(more[k]), later[k]))
    {
      if k < |writes| {
        assert more[..k] == writes[..k] && later[..k] == stamps[..k];
      } else {
        assert more[..k] == writes && later[..k] == stamps;
      }
    }
  }

  /** An experiment entered its state with the last write that moved it. */
  lemma {:induction false} EnteredMeaning(writes: seq<Write>, stamps: seq<nat>, id: Id, k: nat)
    requires |writes| == |stamps| && k < |writes| && Moves(writes[k], id)
    requires forall n :: k < n < |writes| ==> !Moves(writes[n], id)
    ensures Entered(writes, stamps, id) == stamps[k]
  {
    var n := |writes| - 1;
    if k < n {
      EnteredMeaning(writes[..n], stamps[..n], id, k);
    }
  }

  lemma {:induction false} TimesArePast(writes: seq<Write>, stamps: seq<nat>, id: Id, now: nat)
    requires |writes| == |stamps| && forall k :: 0 <= k < |stamps| ==> stamps[k] <= now
    ensures Entered(writes, stamps, id) <= now && Born(writes, stamps, id) <= now && Newest(stamps) <= now
  {
    if writes != [] {
      var n := |writes| - 1;
      TimesArePast(writes[..n], stamps[..n], id, now);
    }
  }

  /** After one more write. */
  lemma TimesAfter(writes: seq<Write>, stamps: seq<nat>, id: Id, write: Write, now: nat)
    requires |writes| == |stamps|
    ensures var more, later := writes + [write], stamps + [now];
      && Entered(more, later, id) == (if Moves(write, id) then now else Entered(writes, stamps, id))
      && Born(more, later, id) == (if write.Create? && write.id == id then now else Born(writes, stamps, id))
      && Newest(later) == now
  {
    var more, later := writes + [write], stamps + [now];
    assert more[..|writes|] == writes && later[..|writes|] == stamps;
  }

  /** A run of the supervisor: planned transactions, each with its cause. */
  ghost predicate Recorded(h: seq<Db>, writes: seq<Write>, stamps: seq<nat>, now: nat, lim: Limits, w: World, p: Policy)
  {
    IsRun(h, writes, lim) && Caused(h, writes, stamps, now, lim, w, p)
  }

  lemma RecordBegins(best: int, now: nat, lim: Limits, w: World, p: Policy)
    ensures Recorded([Fresh(best)], [], [], now, lim, w, p)
  {}

  lemma RecordLater(h: seq<Db>, writes: seq<Write>, stamps: seq<nat>, now: nat, later: nat,
      lim: Limits, w: World, p: Policy)
    requires Recorded(h, writes, stamps, now, lim, w, p) && now <= later
    ensures Recorded(h, writes, stamps, later, lim, w, p)
  {
    hide IsRun, Caused;
    CausedLater(h, writes, stamps, now, later, lim, w, p);
  }

  lemma RecordGrows(h: seq<Db>, writes: seq<Write>, stamps: seq<nat>, now: nat, lim: Limits, w: World, p: Policy,
      write: Write)
    requires Recorded(h, writes, stamps, now, lim, w, p) && h != [] && |writes| == |stamps|
    requires Planned(h[|h| - 1], write, lim) && Apply(h[|h| - 1], write, lim).Ok?
    requires Heard(lim, w, p, h[|h| - 1], write, TimesAt(writes, stamps, Of(write), now))
    ensures Recorded(h + [Apply(h[|h| - 1], write, lim).value], writes + [write], stamps + [now], now, lim, w, p)
  {
    hide IsRun, Caused, Heard, TimesAt, Planned, Apply;
    RunGrows(h, writes, write, lim);
    CausedGrows(h, writes, stamps, now, lim, w, p, write, Apply(h[|h| - 1], write, lim).value);
  }

  lemma RecordFacts(h: seq<Db>, writes: seq<Write>, stamps: seq<nat>, now: nat, lim: Limits, w: World, p: Policy)
    requires Recorded(h, writes, stamps, now, lim, w, p)
    ensures History(h, lim) && |h| == |writes| + 1 && |stamps| == |writes|
    ensures forall k :: 0 <= k < |stamps| ==> stamps[k] <= now
  {
    hide Heard, Planned, Apply;
  }

  /** Since record `from` and moment `start` there was a record in which discovery could be closed. */
  ghost predicate ClosedWithin(p: Policy, lim: Limits, w: World, h: seq<Db>, from: int, start: nat, end: nat)
  {
    exists k, t :: 0 <= k < |h| && from <= k && start <= t < end && Closable(p, lim, w, h[k], t)
  }

  /** It was so before, or it is so in the newest of the records `h`. */
  lemma ClosedByNow(p: Policy, lim: Limits, w: World, h: seq<Db>, longer: seq<Db>, from: int,
      start: nat, t: nat, end: nat)
    requires h != [] && h <= longer && from <= |h| - 1 && start <= t <= end
    requires ClosedWithin(p, lim, w, h, from, start, t) || (t < end && Closable(p, lim, w, h[|h| - 1], t))
    ensures ClosedWithin(p, lim, w, longer, from, start, end)
  {
    hide Closable;
    if ClosedWithin(p, lim, w, h, from, start, t) {
      var k, u :| 0 <= k < |h| && from <= k && start <= u < t && Closable(p, lim, w, h[k], u);
      assert longer[k] == h[k];
    } else {
      assert longer[|h| - 1] == h[|h| - 1];
    }
  }

  // ---- what the causes of the writes say about the records ------------------------------

  lemma OnlyCreateAdds(db: Db, write: Write, lim: Limits, id: Id)
    requires Planned(db, write, lim) && Apply(db, write, lim).Ok?
    requires id !in db.exps && id in Apply(db, write, lim).value.exps
    ensures write.Create? && write.id == id && db.phase == DISCOVERY
    ensures Apply(db, write, lim).value.exps[id] == NewExp(write.card)
  {}

  /** One step of a run and its cause. */
  lemma StepHeard(h: seq<Db>, writes: seq<Write>, stamps: seq<nat>, now: nat, lim: Limits, w: World, p: Policy, k: nat)
    returns (times: Times)
    requires Recorded(h, writes, stamps, now, lim, w, p) && k < |writes|
    ensures |h| == |writes| + 1 && Planned(h[k], writes[k], lim) && Apply(h[k], writes[k], lim) == Ok(h[k + 1])
    ensures Heard(lim, w, p, h[k], writes[k], times) && times.now <= now
  {
    hide Heard, Planned, Apply, Entered, Born;
    times := TimesAt(writes[..k], stamps[..k], Of(writes[k]), stamps[k]);
  }

  /** Before moment `now` there was one at which the card could be tried in this record. */
  ghost predicate WasTryable(p: Policy, lim: Limits, w: World, db: Db, card: SearchPolicy.CardId, now: nat)
  {
    exists t: nat :: t < now && Tryable(p, lim, w, db, card, t)
  }

  /** The card of an experiment that is new after record `k` could be tried in that record. */
  ghost predicate TriedAt(p: Policy, lim: Limits, w: World, h: seq<Db>, k: nat, id: Id, now: nat)
    requires k + 1 < |h|
  {
    id in h[k + 1].exps && id !in h[k].exps ==> WasTryable(p, lim, w, h[k], h[k + 1].exps[id].card, now)
  }

  lemma NewcomerWasTried(h: seq<Db>, writes: seq<Write>, stamps: seq<nat>, now: nat, lim: Limits, w: World, p: Policy,
      k: nat, id: Id)
    requires Recorded(h, writes, stamps, now, lim, w, p) && k + 1 < |h|
    ensures TriedAt(p, lim, w, h, k, id, now)
  {
    hide Recorded, Planned, Apply, Tryable;
    RecordFacts(h, writes, stamps, now, lim, w, p);
    var times := StepHeard(h, writes, stamps, now, lim, w, p, k);
    if id in h[k + 1].exps && id !in h[k].exps {
      OnlyCreateAdds(h[k], writes[k], lim, id);
    }
  }

  /** A new experiment is for a card of the queue that was bound, untried and had earned its prerequisites. */
  lemma TriedMeaning(p: Policy, lim: Limits, w: World, h: seq<Db>, k: nat, id: Id, now: nat)
    requires k + 1 < |h| && TriedAt(p, lim, w, h, k, id, now) && id in h[k + 1].exps && id !in h[k].exps
    ensures var db, card := h[k], h[k + 1].exps[id].card;
      && |db.order| < lim.hypotheses && db.evaluations < lim.evaluations && (exists t: nat :: t < now && !w.stops(t))
      && card in p.bound && (forall x :: x in db.exps ==> db.exps[x].card != card)
      && exists c ::
           && c in p.cards && c.id == card && c.search
           && (c.prerequisite.Some? ==> c.prerequisite.value in Flags(p, db))
           && forall d :: d in c.dependencies ==> d in Flags(p, db)
  {
    hide Flags;
    WasTryableMeaning(p, lim, w, h[k], h[k + 1].exps[id].card, now);
    hide WasTryable;
  }

  lemma WasTryableMeaning(p: Policy, lim: Limits, w: World, db: Db, card: SearchPolicy.CardId, now: nat)
    requires WasTryable(p, lim, w, db, card, now)
    ensures |db.order| < lim.hypotheses && db.evaluations < lim.evaluations && (exists t: nat :: t < now && !w.stops(t))
    ensures card in p.bound && (forall x :: x in db.exps ==> db.exps[x].card != card)
    ensures exists c ::
      && c in p.cards && c.id == card && c.search
      && (c.prerequisite.Some? ==> c.prerequisite.value in Flags(p, db))
      && forall d :: d in c.dependencies ==> d in Flags(p, db)
  {
    hide Tryable, Flags;
    var t: nat :| t < now && Tryable(p, lim, w, db, card, t);
    TryableMeaning(p, lim, w, db, card, t);
  }

  lemma TryableMeaning(p: Policy, lim: Limits, w: World, db: Db, card: SearchPolicy.CardId, t: nat)
    requires Tryable(p, lim, w, db, card, t)
    ensures !w.stops(t) && |db.order| < lim.hypotheses && db.evaluations < lim.evaluations
    ensures card in p.bound && forall x :: x in db.exps ==> db.exps[x].card != card
    ensures exists c ::
      && c in p.cards && c.id == card && c.search
      && (c.prerequisite.Some? ==> c.prerequisite.value in Flags(p, db))
      && forall d :: d in c.dependencies ==> d in Flags(p, db)
    ensures !Closable(p, lim, w, db, t)
  {
    hide Flags, SearchPolicy.NextCard;
    SearchPolicy.NextCardMayRun(p.cards, Attempted(db) + Unbound(p), Flags(p, db));
    SearchPolicy.NextCardChooses(p.cards, Attempted(db) + Unbound(p), Flags(p, db));
    assert forall x :: x in db.exps ==> db.exps[x].card in Attempted(db);
  }

  /** A bound card that nothing forbids. */
  ghost predicate Untried(p: Policy, db: Db, c: SearchPolicy.Card)
  {
    && c in p.cards && c.search && c.id in p.bound && (forall x :: x in db.exps ==> db.exps[x].card != c.id)
    && (c.prerequisite.Some? ==> c.prerequisite.value in Flags(p, db))
    && forall d :: d in c.dependencies ==> d in Flags(p, db)
  }

  /** Discovery was closed for a reason: the clock, a cap, or no card left that could be tried. */
  lemma ClosedMeaning(p: Policy, lim: Limits, w: World, h: seq<Db>, from: int, start: nat, end: nat)
    returns (k: nat, t: nat)
    requires ClosedWithin(p, lim, w, h, from, start, end)
    ensures from <= k < |h| && start <= t < end
    ensures || w.stops(t) || |h[k].order| >= lim.hypotheses || h[k].evaluations >= lim.evaluations
            || forall c :: !Untried(p, h[k], c)
  {
    hide Exhausted, Untried;
    k, t :| 0 <= k < |h| && from <= k && start <= t < end && Closable(p, lim, w, h[k], t);
    ExhaustedMeaning(p, h[k]);
  }

  lemma ExhaustedMeaning(p: Policy, db: Db)
    ensures Exhausted(p, db) ==> forall c :: !Untried(p, db, c)
  {
    hide Flags;
    forall c | Exhausted(p, db) ensures !Untried(p, db, c) {
      if c in p.cards {
        assert !SearchPolicy.Eligible(c, Attempted(db) + Unbound(p), Flags(p, db));
      }
    }
  }

  // ---- what was stored was answered ----------------------------------------------------

  lemma OnlyRecordStores(db: Db, write: Write, lim: Limits, id: Id, rung: Rung)
    requires Planned(db, write, lim) && Apply(db, write, lim).Ok?
    requires var next := Apply(db, write, lim).value; id in next.exps && rung in next.exps[id].results
    ensures var o := Apply(db, write, lim).value.exps[id].results[rung];
      || write == Record(id, rung, o)
      || (id in db.exps && rung in db.exps[id].results && db.exps[id].results[rung] == o)
  {
    hide PlannedMove;
  }

  lemma HeardRecord(lim: Limits, w: World, p: Policy, db: Db, id: Id, rung: Rung, o: Observation,
      times: Times, now: nat)
    requires Heard(lim, w, p, db, Record(id, rung, o), times) && times.now <= now
    ensures exists t: nat :: t < now && w.rung(t) == Done(o)
  {}

  /** Every stored result is what the rung's hook answered at some moment of the run. */
  lemma {:induction false} ResultsWereMeasured(h: seq<Db>, writes: seq<Write>, stamps: seq<nat>, now: nat,
      lim: Limits, w: World, p: Policy, j: nat, id: Id, rung: Rung)
    requires Recorded(h, writes, stamps, now, lim, w, p) && j < |h|
    requires id in h[j].exps && rung in h[j].exps[id].results
    ensures exists t: nat :: t < now && w.rung(t) == Done(h[j].exps[id].results[rung])
  {
    hide Recorded, Planned, Apply, History, Chain, Heard;
    RecordFacts(h, writes, stamps, now, lim, w, p);
    HistoryIsChain(h, lim);
    if j > 0 {
      var times := StepHeard(h, writes, stamps, now, lim, w, p, j - 1);
      OnlyRecordStores(h[j - 1], writes[j - 1], lim, id, rung);
      if writes[j - 1] == Record(id, rung, h[j].exps[id].results[rung]) {
        HeardRecord(lim, w, p, h[j - 1], id, rung, h[j].exps[id].results[rung], times, now);
      } else {
        ResultsWereMeasured(h, writes, stamps, now, lim, w, p, j - 1, id, rung);
      }
    }
  }

  lemma OnlyMoveWrites(db: Db, write: Write, lim: Limits, id: Id, key: Key)
    requires Planned(db, write, lim) && Apply(db, write, lim).Ok?
    requires var next := Apply(db, write, lim).value; id in next.exps && key in next.exps[id].keys
    ensures var row := Apply(db, write, lim).value.exps[id].keys[key];
      || write == Move(id, row.from, row.to, row.payload, key)
      || key == Go(SearchPromotion)
      || (id in db.exps && key in db.exps[id].keys && db.exps[id].keys[key] == row)
  {
    hide PlannedMove;
  }

  /** What a hook must have answered for this row to be written. */
  ghost predicate Answered(w: World, key: Key, row: Row, now: nat)
  {
    && (key == Go(FixtureValid) ==> exists t: nat :: t < now && w.prepare(t).Prepared?)
    && (key == Go(PreparationAbandoned) ==> exists t: nat :: t < now && w.prepare(t).Rejected?)
    && (key == Go(Diagnosed) ==> exists t: nat :: t < now && w.diagnosed(t))
    && (key.Failure? ==> row.payload.Failed? && exists t: nat :: t < now && w.rung(t) == Broke(row.payload.status))
  }

  lemma PromotionNeedsNone(w: World, row: Row, now: nat)
    ensures Answered(w, Go(SearchPromotion), row, now)
  {}

  lemma HeardMove(lim: Limits, w: World, p: Policy, db: Db, id: Id, row: Row, key: Key, times: Times, now: nat)
    requires Heard(lim, w, p, db, Move(id, row.from, row.to, row.payload, key), times) && times.now <= now
    ensures Answered(w, key, row, now)
  {}

  /** Every row was written after the answer it stands for. */
  lemma {:induction false} RowsWereAnswered(h: seq<Db>, writes: seq<Write>, stamps: seq<nat>, now: nat,
      lim: Limits, w: World, p: Policy, j: nat, id: Id, key: Key)
    requires Recorded(h, writes, stamps, now, lim, w, p) && j < |h|
    requires id in h[j].exps && key in h[j].exps[id].keys
    ensures Answered(w, key, h[j].exps[id].keys[key], now)
  {
    hide Recorded, Planned, Apply, History, Chain, Heard, Answered;
    RecordFacts(h, writes, stamps, now, lim, w, p);
    HistoryIsChain(h, lim);
    PromotionNeedsNone(w, h[j].exps[id].keys[key], now);
    if j > 0 {
      var times := StepHeard(h, writes, stamps, now, lim, w, p, j - 1);
      OnlyMoveWrites(h[j - 1], writes[j - 1], lim, id, key);
      var row := h[j].exps[id].keys[key];
      if writes[j - 1] == Move(id, row.from, row.to, row.payload, key) {
        HeardMove(lim, w, p, h[j - 1], id, row, key, times, now);
      } else if key != Go(SearchPromotion) {
        RowsWereAnswered(h, writes, stamps, now, lim, w, p, j - 1, id, key);
      }
    }
  }

  lemma OnlyDiagnosisDiagnoses(db: Db, write: Write, lim: Limits, id: Id)
    requires Planned(db, write, lim) && Apply(db, write, lim).Ok? && id in Apply(db, write, lim).value.exps
    requires Apply(db, write, lim).value.exps[id].state == DIAGNOSED
    ensures Go(Diagnosed) in Apply(db, write, lim).value.exps[id].keys
      || (id in db.exps && db.exps[id].state == DIAGNOSED)
  {}

  lemma OnlyFullIsDiagnosed(db: Db, write: Write, lim: Limits, id: Id)
    requires Planned(db, write, lim) && Apply(db, write, lim).Ok? && id in Apply(db, write, lim).value.exps
    requires Go(Diagnosed) in Apply(db, write, lim).value.exps[id].keys
    ensures id in db.exps && (db.exps[id].state == FULL_COMPLETE || Go(Diagnosed) in db.exps[id].keys)
  {
    OnlyMoveWrites(db, write, lim, id, Go(Diagnosed));
    hide Apply;
  }

  lemma FullIsComplete(db: Db, id: Id, lim: Limits)
    requires DbInv(db, lim) && id in db.exps && db.exps[id].state == FULL_COMPLETE
    ensures Full in db.exps[id].results && Passes(db.exps[id], Cheap)
  {
    ExpSound(db, id, lim);
  }

  /** A diagnosis shows in the rows, and only after a passed cheap rung and a measured full one. */
  lemma {:induction false} DiagnosesAreEarned(h: seq<Db>, writes: seq<Write>, lim: Limits, j: nat, id: Id)
    requires IsRun(h, writes, lim) && j < |h| && id in h[j].exps
    ensures h[j].exps[id].state == DIAGNOSED ==> Go(Diagnosed) in h[j].exps[id].keys
    ensures Go(Diagnosed) in h[j].exps[id].keys ==>
      Full in h[j].exps[id].results && Passes(h[j].exps[id], Cheap)
  {
    hide Planned, Apply, DbInv, Successor, Rank;
    RunIsChain(h, writes, lim);
    RunIsHistory(h, writes, lim);
    if j > 0 {
      assert Apply(h[j - 1], writes[j - 1], lim) == Ok(h[j]);
      if h[j].exps[id].state == DIAGNOSED {
        OnlyDiagnosisDiagnoses(h[j - 1], writes[j - 1], lim, id);
      }
      if Go(Diagnosed) in h[j].exps[id].keys {
        OnlyFullIsDiagnosed(h[j - 1], writes[j - 1], lim, id);
      }
      if id in h[j - 1].exps {
        DiagnosesAreEarned(h, writes, lim, j - 1, id);
        TrailIsAppendOnly(h, lim, j - 1, j, id);
        if h[j - 1].exps[id].state == FULL_COMPLETE {
          FullIsComplete(h[j - 1], id, lim);
        }
      }
    }
  }

  /** The cards that earn flags are those of experiments with such a diagnosis. */
  lemma DiagnosedCardsMeaning(h: seq<Db>, writes: seq<Write>, lim: Limits, j: nat)
    requires IsRun(h, writes, lim) && j < |h|
    ensures forall c :: c in DiagnosedCards(h[j]) ==> exists id ::
      id in h[j].exps && h[j].exps[id].card == c && Full in h[j].exps[id].results && Passes(h[j].exps[id], Cheap)
    ensures forall id :: id in h[j].exps && h[j].exps[id].state == DIAGNOSED ==>
      h[j].exps[id].card in DiagnosedCards(h[j])
  {
    hide IsRun;
    forall id | id in h[j].exps
      ensures h[j].exps[id].state == DIAGNOSED ==> Go(Diagnosed) in h[j].exps[id].keys
      ensures Go(Diagnosed) in h[j].exps[id].keys ==> Full in h[j].exps[id].results && Passes(h[j].exps[id], Cheap)
    {
      DiagnosesAreEarned(h, writes, lim, j, id);
    }
  }

  lemma OnlyMeterMeasures(db: Db, write: Write, lim: Limits, id: Id, rung: Rung)
    requires Planned(db, write, lim) && Apply(db, write, lim).Ok?
    requires var next := Apply(db, write, lim).value; id in next.exps && rung in next.exps[id].metrics
    ensures var m := Apply(db, write, lim).value.exps[id].metrics[rung];
      || write == Meter(id, rung, m)
      || (id in db.exps && rung in db.exps[id].metrics && db.exps[id].metrics[rung] == m)
  {
    hide PlannedMove;
  }

  lemma HeardMeter(lim: Limits, w: World, p: Policy, db: Db, id: Id, rung: Rung, m: int, times: Times, now: nat)
    requires Heard(lim, w, p, db, Meter(id, rung, m), times) && times.now <= now
    ensures exists t: nat :: t < now && w.rung(t).Done? && w.rung(t).observation.primary == m
  {}

  /** Every counted metric is one that the rung's hook measured at some moment of the run. */
  lemma {:induction false} MetricsWereMeasured(h: seq<Db>, writes: seq<Write>, stamps: seq<nat>, now: nat,
      lim: Limits, w: World, p: Policy, j: nat, id: Id, rung: Rung)
    requires Recorded(h, writes, stamps, now, lim, w, p) && j < |h|
    requires id in h[j].exps && rung in h[j].exps[id].metrics
    ensures exists t: nat ::
      t < now && w.rung(t).Done? && w.rung(t).observation.primary == h[j].exps[id].metrics[rung]
  {
    hide Recorded, Planned, Apply, History, Chain, Heard;
    RecordFacts(h, writes, stamps, now, lim, w, p);
    HistoryIsChain(h, lim);
    if j > 0 {
      var times := StepHeard(h, writes, stamps, now, lim, w, p, j - 1);
      OnlyMeterMeasures(h[j - 1], writes[j - 1], lim, id, rung);
      var m := h[j].exps[id].metrics[rung];
      if writes[j - 1] == Meter(id, rung, m) {
        HeardMeter(lim, w, p, h[j - 1], id, rung, m, times, now);
      } else {
        MetricsWereMeasured(h, writes, stamps, now, lim, w, p, j - 1, id, rung);
      }
    }
  }

  ghost predicate RepairedWith(db: Db, id: Id, k: nat, evidence: nat)
  {
    id in db.exps && k < |db.exps[id].repairs| && db.exps[id].repairs[k].evidence == Some(evidence)
  }

  lemma OnlyCompleteRepairs(db: Db, write: Write, lim: Limits, id: Id, k: nat, evidence: nat)
    requires Planned(db, write, lim) && Apply(db, write, lim).Ok?
    requires RepairedWith(Apply(db, write, lim).value, id, k, evidence)
    ensures write == Complete(id, k + 1, evidence) || RepairedWith(db, id, k, evidence)
  {
    hide PlannedMove;
  }

  lemma HeardComplete(lim: Limits, w: World, p: Policy, db: Db, id: Id, k: nat, evidence: nat, times: Times, now: nat)
    requires Heard(lim, w, p, db, Complete(id, k, evidence), times) && times.now <= now
    ensures exists t: nat :: t < now && w.repair(t) == Some(evidence)
  {}

  lemma NothingRepairedYet(best: int, id: Id, k: nat, evidence: nat)
    ensures !RepairedWith(Fresh(best), id, k, evidence)
  {}

  /** Every finished repair holds the evidence that its hook returned at some moment of the run. */
  lemma {:induction false} RepairsWereCarriedOut(h: seq<Db>, writes: seq<Write>, stamps: seq<nat>, now: nat,
      lim: Limits, w: World, p: Policy, j: nat, id: Id, k: nat, evidence: nat)
    requires Recorded(h, writes, stamps, now, lim, w, p) && j < |h| && RepairedWith(h[j], id, k, evidence)
    ensures exists t: nat :: t < now && w.repair(t) == Some(evidence)
  {
    hide Recorded, Planned, Apply, History, Chain, Heard, RepairedWith;
    RecordFacts(h, writes, stamps, now, lim, w, p);
    HistoryIsChain(h, lim);
    NothingRepairedYet(h[0].best, id, k, evidence);
    if j > 0 {
      var times := StepHeard(h, writes, stamps, now, lim, w, p, j - 1);
      OnlyCompleteRepairs(h[j - 1], writes[j - 1], lim, id, k, evidence);
      if writes[j - 1] == Complete(id, k + 1, evidence) {
        HeardComplete(lim, w, p, h[j - 1], id, k + 1, evidence, times, now);
      } else {
        RepairsWereCarriedOut(h, writes, stamps, now, lim, w, p, j - 1, id, k, evidence);
      }
    }
  }

  ghost predicate RepairsFor(db: Db, id: Id, k: nat, status: AttemptStatus)
  {
    id in db.exps && k < |db.exps[id].repairs| && db.exps[id].repairs[k].status == status
  }

  lemma OnlyReserveReserves(db: Db, write: Write, lim: Limits, id: Id, k: nat, status: AttemptStatus)
    requires Planned(db, write, lim) && Apply(db, write, lim).Ok?
    requires RepairsFor(Apply(db, write, lim).value, id, k, status)
    ensures (write.Reserve? && write.id == id && write.status == status) || RepairsFor(db, id, k, status)
  {
    hide PlannedMove;
  }

  lemma HeardReserve(lim: Limits, w: World, p: Policy, db: Db, write: Write, times: Times)
    requires write.Reserve? && DbInv(db, lim) && Planned(db, write, lim) && Heard(lim, w, p, db, write, times)
    ensures write.status != SUCCESS && write.status != CRASH && write.status != INTERRUPTED
  {
    ExpSound(db, write.id, lim);
  }

  lemma NothingReservedYet(best: int, id: Id, k: nat, status: AttemptStatus)
    ensures !RepairsFor(Fresh(best), id, k, status)
  {}

  /** No repair is ever reserved for a success, for an untyped crash, or for an interruption. */
  lemma {:induction false} RepairsAreDue(h: seq<Db>, writes: seq<Write>, stamps: seq<nat>, now: nat,
      lim: Limits, w: World, p: Policy, j: nat, id: Id, k: nat, status: AttemptStatus)
    requires Recorded(h, writes, stamps, now, lim, w, p) && j < |h| && RepairsFor(h[j], id, k, status)
    ensures status != SUCCESS && status != CRASH && status != INTERRUPTED
  {
    hide Recorded, Planned, Apply, History, Heard, DbInv, Successor, RepairsFor;
    RecordFacts(h, writes, stamps, now, lim, w, p);
    HistoryIsChain(h, lim);
    NothingReservedYet(h[0].best, id, k, status);
    if j > 0 {
      var times := StepHeard(h, writes, stamps, now, lim, w, p, j - 1);
      OnlyReserveReserves(h[j - 1], writes[j - 1], lim, id, k, status);
      if RepairsFor(h[j - 1], id, k, status) {
        RepairsAreDue(h, writes, stamps, now, lim, w, p, j - 1, id, k, status);
      } else {
        HeardReserve(lim, w, p, h[j - 1], writes[j - 1], times);
      }
    }
  }

  /** A repairable failure that no repair may follow. */
  predicate Hopeless(db: Db, id: Id, lim: Limits)
  {
    && id in db.exps && db.exps[id].state == FAILED_REPAIRABLE && db.exps[id].last.Failed?
    && var status := db.exps[id].last.status;
      (status == SUCCESS || status == CRASH || |db.exps[id].repairs| >= lim.repairs)
  }

  lemma HeardGivingUp(lim: Limits, w: World, p: Policy, db: Db, id: Id, row: Row, key: Key, times: Times)
    requires key.FailedFinal? && DbInv(db, lim) && Planned(db, Move(id, row.from, row.to, row.payload, key), lim)
    requires Apply(db, Move(id, row.from, row.to, row.payload, key), lim).Ok?
    requires Heard(lim, w, p, db, Move(id, row.from, row.to, row.payload, key), times)
    ensures Hopeless(db, id, lim)
  {
    ExpSound(db, id, lim);
  }

  /** An experiment is given up only after a failure that no repair may follow. */
  lemma {:induction false} GivenUpWithoutHope(h: seq<Db>, writes: seq<Write>, stamps: seq<nat>, now: nat,
      lim: Limits, w: World, p: Policy, j: nat, id: Id, key: Key)
    requires Recorded(h, writes, stamps, now, lim, w, p) && j < |h|
    requires id in h[j].exps && key in h[j].exps[id].keys && key.FailedFinal?
    ensures exists k: nat :: k < j && Hopeless(h[k], id, lim)
  {
    hide Recorded, Planned, Apply, History, Heard, DbInv, Successor, Hopeless;
    RecordFacts(h, writes, stamps, now, lim, w, p);
    HistoryIsChain(h, lim);
    if j > 0 {
      var times := StepHeard(h, writes, stamps, now, lim, w, p, j - 1);
      OnlyMoveWrites(h[j - 1], writes[j - 1], lim, id, key);
      var row := h[j].exps[id].keys[key];
      if writes[j - 1] == Move(id, row.from, row.to, row.payload, key) {
        HeardGivingUp(lim, w, p, h[j - 1], id, row, key, times);
      } else {
        GivenUpWithoutHope(h, writes, stamps, now, lim, w, p, j - 1, id, key);
      }
    }
  }

  // ---- the best result ------------------------------------------------------------------

  lemma OnlyPromotionRaises(db: Db, write: Write, lim: Limits)
    requires Planned(db, write, lim) && Apply(db, write, lim).Ok?
    ensures var next := Apply(db, write, lim).value;
      || next.best == db.best
      || (write.Promote? && next.best == write.primary > db.best && next.finalist == Some(write.id))
  {
    hide PlannedMove, MoveExp, ReserveExp, CompleteExp;
  }

  ghost predicate Beaten(db: Db, best: int)
  {
    && db.finalist.Some? && db.finalist.value in db.exps && Official in db.exps[db.finalist.value].results
    && db.best == db.exps[db.finalist.value].results[Official].primary > best
  }

  lemma HeardPromotion(lim: Limits, w: World, p: Policy, db: Db, id: Id, primary: int, times: Times)
    requires Heard(lim, w, p, db, Promote(id, primary), times)
    ensures id in db.exps && Official in db.exps[id].results && db.exps[id].results[Official].primary == primary
  {}

  lemma StaysBeaten(h: seq<Db>, lim: Limits, j: nat, best: int)
    requires History(h, lim) && 0 < j < |h| && h[j].best == h[j - 1].best && Beaten(h[j - 1], best)
    ensures Beaten(h[j], best)
  {
    hide History;
    PhaseOnlyAdvances(h, lim, j - 1, j);
    TrailIsAppendOnly(h, lim, j - 1, j, h[j - 1].finalist.value);
  }

  /** The best result of a run is the one it began with, or what the finalist measured officially, if that is more. */
  lemma {:induction false} BestIsMeasured(h: seq<Db>, writes: seq<Write>, stamps: seq<nat>, now: nat,
      lim: Limits, w: World, p: Policy, j: nat)
    requires Recorded(h, writes, stamps, now, lim, w, p) && j < |h|
    ensures h[j].best == h[0].best || Beaten(h[j], h[0].best)
  {
    hide Recorded, Planned, Apply, History, Heard;
    RecordFacts(h, writes, stamps, now, lim, w, p);
    if j > 0 {
      var times := StepHeard(h, writes, stamps, now, lim, w, p, j - 1);
      BestIsMeasured(h, writes, stamps, now, lim, w, p, j - 1);
      OnlyPromotionRaises(h[j - 1], writes[j - 1], lim);
      if h[j].best == h[j - 1].best {
        if h[j].best != h[0].best {
          StaysBeaten(h, lim, j, h[0].best);
        }
      } else {
        HeardPromotion(lim, w, p, h[j - 1], writes[j - 1].id, writes[j - 1].primary, times);
        TrailIsAppendOnly(h, lim, j - 1, j, writes[j - 1].id);
      }
    }
  }

  lemma OnlyClosingCloses(db: Db, write: Write, lim: Limits)
    requires Planned(db, write, lim) && Apply(db, write, lim).Ok?
    requires Open(db) && !Open(Apply(db, write, lim).value)
    ensures write.Lock? || write.MoveRun?
  {
    hide PlannedMove, MoveExp, ReserveExp, CompleteExp;
  }

  lemma HeardClosing(lim: Limits, w: World, p: Policy, db: Db, write: Write, times: Times, now: nat)
    requires Heard(lim, w, p, db, write, times) && times.now <= now && (write.Lock? || write.MoveRun?)
    requires db.phase == DISCOVERY
    ensures exists t: nat :: t < now && Closable(p, lim, w, db, t)
  {
    hide Closable;
  }

  /** Whenever discovery is over, it was closed in an earlier record, for a reason. */
  lemma {:induction false} DiscoveryWasClosable(h: seq<Db>, writes: seq<Write>, stamps: seq<nat>, now: nat,
      lim: Limits, w: World, p: Policy, j: nat)
    requires Recorded(h, writes, stamps, now, lim, w, p) && j < |h| && !Open(h[j])
    ensures exists k: nat, t: nat :: k < j && t < now && Open(h[k]) && Closable(p, lim, w, h[k], t)
  {
    hide Recorded, Planned, Apply, History, Chain, Heard, Closable;
    RecordFacts(h, writes, stamps, now, lim, w, p);
    HistoryIsChain(h, lim);
    if j > 0 {
      var times := StepHeard(h, writes, stamps, now, lim, w, p, j - 1);
      if Open(h[j - 1]) {
        OnlyClosingCloses(h[j - 1], writes[j - 1], lim);
        HeardClosing(lim, w, p, h[j - 1], writes[j - 1], times, now);
      } else {
        DiscoveryWasClosable(h, writes, stamps, now, lim, w, p, j - 1);
      }
    }
  }
}
