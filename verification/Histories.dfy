/** What holds over whole histories of the durable record, across crashes and resumptions. */
module Histories {
  import opened Options
  import opened Lifecycle
  import opened Store
  import opened Discipline
  import opened PlannedWrites
  import opened RecordSoundness
  import SearchPolicy

  /**
    From a new search, each record is what one transaction made of the record before:
    a write that the supervisor plans in that record, and that the store did not refuse.
    Crashes and restarts leave no trace in this: a new process goes on from the last record.
   */
  ghost predicate IsRun(h: seq<Db>, writes: seq<Write>, lim: Limits)
  {
    && |h| == |writes| + 1 && h[0] == Fresh(h[0].best)
    && forall i :: 0 <= i < |writes| ==> Planned(h[i], writes[i], lim) && Apply(h[i], writes[i], lim) == Ok(h[i + 1])
  }

  /** The durable records of some run. */
  ghost predicate History(h: seq<Db>, lim: Limits)
  {
    exists writes :: IsRun(h, writes, lim)
  }

  /** Consecutive records, each sound and each the successor of the one before. */
  ghost predicate Chain(h: seq<Db>, lim: Limits)
  {
    && h != []
    && (forall i :: 0 <= i < |h| ==> DbInv(h[i], lim))
    && (forall i, j :: 0 <= i && j == i + 1 && j < |h| ==> Successor(h[i], h[j]))
  }

  lemma ChainGrows(h: seq<Db>, next: Db, lim: Limits)
    requires Chain(h, lim) && DbInv(next, lim) && Successor(h[|h| - 1], next)
    ensures Chain(h + [next], lim)
  {
    hide DbInv, Successor;
  }

  /** Every record of a run is sound, and every write of it is one legal step forward. */
  lemma {:induction false} RunIsChain(h: seq<Db>, writes: seq<Write>, lim: Limits)
    requires IsRun(h, writes, lim)
    ensures Chain(h, lim)
  {
    hide DbInv, Successor, Planned, Apply;
    var n := |writes|;
    if n == 0 {
      FreshHolds(h[0].best, lim);
    } else {
      RunIsChain(h[..n], writes[..n - 1], lim);
      var w := writes[n - 1];
      assert DbInv(h[..n][n - 1], lim);
      PlannedIsSound(h[n - 1], w, lim);
      assert h[..n] + [h[n]] == h;
      ChainGrows(h[..n], h[n], lim);
    }
  }

  lemma HistoryIsChain(h: seq<Db>, lim: Limits)
    requires History(h, lim)
    ensures Chain(h, lim) && h[0] == Fresh(h[0].best)
  {
    hide Chain;
    var writes :| IsRun(h, writes, lim);
    RunIsChain(h, writes, lim);
  }

  lemma StepAt(h: seq<Db>, lim: Limits, j: nat)
    requires History(h, lim) && 0 < j < |h|
    ensures DbInv(h[j - 1], lim) && DbInv(h[j], lim) && Successor(h[j - 1], h[j])
  {
    hide DbInv, Successor, History;
    HistoryIsChain(h, lim);
  }

  lemma HistoryBegins(best: int, lim: Limits)
    ensures History([Fresh(best)], lim)
  {
    assert IsRun([Fresh(best)], [], lim);
  }

  lemma RunGrows(h: seq<Db>, writes: seq<Write>, w: Write, lim: Limits)
    requires IsRun(h, writes, lim) && Planned(h[|h| - 1], w, lim) && Apply(h[|h| - 1], w, lim).Ok?
    ensures IsRun(h + [Apply(h[|h| - 1], w, lim).value], writes + [w], lim)
  {
    hide Planned, Apply;
  }

  lemma HistoryGrows(h: seq<Db>, w: Write, lim: Limits)
    requires History(h, lim) && h != [] && Planned(h[|h| - 1], w, lim) && Apply(h[|h| - 1], w, lim).Ok?
    ensures History(h + [Apply(h[|h| - 1], w, lim).value], lim)
  {
    hide Planned, Apply;
    var writes :| IsRun(h, writes, lim);
    RunGrows(h, writes, w, lim);
  }

  function Turn(p: ValidationPhase): nat
  {
    match p
    case DISCOVERY => 0
    case FINALIST_LOCKED => 1
    case OFFICIAL_EVALUATED => 2
  }

  lemma {:induction false} PhaseOnlyAdvances(h: seq<Db>, lim: Limits, i: nat, j: nat)
    requires History(h, lim) && i <= j < |h|
    ensures Turn(h[i].phase) <= Turn(h[j].phase)
    ensures h[i].finalist.Some? ==> h[j].finalist == h[i].finalist
    decreases j - i
  {
    hide DbInv, ExpStep, OfficialStage, History;
    if i < j {
      PhaseOnlyAdvances(h, lim, i, j - 1);
      StepAt(h, lim, j);
      FinalistWithPhase(h[j - 1], lim);
    }
  }

  lemma FinalistWithPhase(db: Db, lim: Limits)
    requires DbInv(db, lim)
    ensures db.phase == DISCOVERY <==> db.finalist.None?
  {}

  /** Once discovery is closed no experiment is ever added. */
  lemma {:induction false} NothingProposedAfterTheLock(h: seq<Db>, lim: Limits, i: nat, j: nat)
    requires History(h, lim) && i <= j < |h| && h[i].phase != DISCOVERY
    ensures h[j].exps.Keys == h[i].exps.Keys && h[j].order == h[i].order
    decreases j - i
  {
    hide DbInv, Successor, History;
    if i < j {
      NothingProposedAfterTheLock(h, lim, i, j - 1);
      PhaseOnlyAdvances(h, lim, i, j - 1);
      StepAt(h, lim, j);
      NoNewcomers(h[j - 1], h[j], lim);
    }
  }

  lemma NewcomersComeInDiscovery(a: Db, b: Db, lim: Limits)
    requires DbInv(a, lim) && DbInv(b, lim) && Successor(a, b)
    ensures |b.order| > |a.order| ==> a.phase == DISCOVERY
  {
    hide ExpInv, ExpStep, PlaceInv, ChampionInv, FinalsInv, OfficialStage;
    if |b.order| > |a.order| {
      var id := b.order[|a.order|];
      assert forall k :: 0 <= k < |a.order| ==> a.order[k] == b.order[k] && b.order[k] != id;
      assert id in b.order && id !in a.order;
    }
  }

  lemma NoNewcomers(a: Db, b: Db, lim: Limits)
    requires DbInv(a, lim) && DbInv(b, lim) && Successor(a, b) && a.phase != DISCOVERY
    ensures b.exps.Keys == a.exps.Keys && b.order == a.order
  {
    hide DbInv, ExpStep, PhaseStep, OfficialStage;
    NewcomersComeInDiscovery(a, b, lim);
  }

  lemma OneStep(h: seq<Db>, lim: Limits, j: nat, id: Id)
    requires History(h, lim) && 0 < j < |h| && id in h[j - 1].exps
    ensures id in h[j].exps && ExpStep(h[j - 1].exps[id], h[j].exps[id])
  {
    hide DbInv, ExpStep, PhaseStep, OfficialStage;
    HistoryIsChain(h, lim);
    assert Successor(h[j - 1], h[j]);
  }

  /** One write on an experiment, without its rows. */
  lemma StepAdvances(a: Exp, b: Exp)
    requires ExpStep(a, b)
    ensures a.card == b.card && Rank(a) <= Rank(b)
    ensures a.state != b.state ==> Rank(a) < Rank(b) && !Terminal(a.state)
  {
    hide Rank;
    TerminalHasNoWayOut(a.state);
  }

  /** An experiment stays, never falls back, and never leaves a terminal state. */
  lemma {:induction false} ExperimentsOnlyAdvance(h: seq<Db>, lim: Limits, i: nat, j: nat, id: Id)
    requires History(h, lim) && i <= j < |h| && id in h[i].exps
    ensures id in h[j].exps && h[j].exps[id].card == h[i].exps[id].card
    ensures Rank(h[i].exps[id]) <= Rank(h[j].exps[id])
    ensures h[i].exps[id].state != h[j].exps[id].state ==> Rank(h[i].exps[id]) < Rank(h[j].exps[id])
    ensures Terminal(h[i].exps[id].state) ==> h[j].exps[id].state == h[i].exps[id].state
    decreases j - i
  {
    hide History, Chain, Rank, ExpStep, Terminal;
    if i < j {
      ExperimentsOnlyAdvance(h, lim, i, j - 1, id);
      OneStep(h, lim, j, id);
      StepAdvances(h[j - 1].exps[id], h[j].exps[id]);
    }
  }

  /** The durable rows, results, metrics and repairs of an experiment are append-only. */
  lemma {:induction false} TrailIsAppendOnly(h: seq<Db>, lim: Limits, i: nat, j: nat, id: Id)
    requires History(h, lim) && i <= j < |h| && id in h[i].exps
    ensures id in h[j].exps
    ensures var a, b := h[i].exps[id], h[j].exps[id];
      && (forall k :: k in a.keys ==> k in b.keys && b.keys[k] == a.keys[k])
      && (forall r :: r in a.results ==> r in b.results && b.results[r] == a.results[r])
      && (forall r :: r in a.metrics ==> r in b.metrics && b.metrics[r] == a.metrics[r])
      && |a.repairs| <= |b.repairs| && (forall k :: 0 <= k < |a.repairs| ==> SameRepair(a.repairs[k], b.repairs[k]))
    decreases j - i
  {
    hide History, Chain, Rank, ExperimentTransitions;
    if i < j {
      TrailIsAppendOnly(h, lim, i, j - 1, id);
      OneStep(h, lim, j, id);
    }
  }

  /** The number of state changes of one experiment between two records. */
  ghost function Changes(h: seq<Db>, i: nat, j: nat, id: Id): nat
    requires i <= j < |h| && forall k :: i <= k <= j ==> id in h[k].exps
    decreases j - i
  {
    if i == j then 0
    else Changes(h, i, j - 1, id) + (if h[j - 1].exps[id].state == h[j].exps[id].state then 0 else 1)
  }

  lemma RankIsBounded(e: Exp, maximum: nat)
    requires ExpInv(e, maximum)
    ensures Rank(e) <= 5 * (SETTLED + maximum) + 4
  {}

  /** Over any run, resumed any number of times, an experiment changes state a bounded number of times. */
  lemma {:induction false} ChangesAreBounded(h: seq<Db>, lim: Limits, i: nat, j: nat, id: Id)
    requires History(h, lim) && i <= j < |h| && id in h[i].exps
    ensures forall k :: i <= k <= j ==> id in h[k].exps
    ensures Changes(h, i, j, id) <= Rank(h[j].exps[id]) - Rank(h[i].exps[id])
    ensures Changes(h, i, j, id) <= 5 * (SETTLED + lim.repairs) + 4
    decreases j - i
  {
    hide History, Chain, Rank, ExpStep, ExpInv;
    if i < j {
      ChangesAreBounded(h, lim, i, j - 1, id);
      OneStep(h, lim, j, id);
      StepAdvances(h[j - 1].exps[id], h[j].exps[id]);
    }
    SoundAt(h, lim, j, id);
    RankIsBounded(h[j].exps[id], lim.repairs);
  }

  lemma SoundAt(h: seq<Db>, lim: Limits, j: nat, id: Id)
    requires History(h, lim) && j < |h| && id in h[j].exps
    ensures ExpInv(h[j].exps[id], lim.repairs)
  {
    hide Successor;
    HistoryIsChain(h, lim);
    ExpSound(h[j], id, lim);
  }

  /** Where discovery closed: everything was settled, and the strongest supported candidate was bound. */
  ghost predicate LockMoment(h: seq<Db>, k: nat, finalist: Id)
  {
    && k + 1 < |h| && h[k].phase == DISCOVERY && h[k + 1].phase == FINALIST_LOCKED
    && AllSettled(h[k]) && h[k + 1].exps == h[k].exps && h[k + 1].finalist == Some(finalist)
    && finalist in h[k].exps && h[k].exps[finalist].state == DIAGNOSED && Supported(h[k].exps[finalist])
    && forall id :: id in h[k].exps && Supported(h[k].exps[id]) ==>
         h[k].exps[id].shadow.value.primary <= h[k].exps[finalist].shadow.value.primary
  }

  lemma LockedAt(a: Db, b: Db, lim: Limits)
    requires DbInv(a, lim) && DbInv(b, lim) && Successor(a, b) && a.phase == DISCOVERY && b.phase != DISCOVERY
    ensures b.finalist.Some? && LockMoment([a, b], 0, b.finalist.value)
  {
    hide ExpInv, ExpStep, OfficialStage, OrderInv;
    var f := b.finalist.value;
    assert Supported(b.exps[f]) && PlaceInv(a, f);
    forall id | id in a.exps && Supported(a.exps[id])
      ensures a.exps[id].shadow.value.primary <= a.exps[f].shadow.value.primary
    {
      assert Supported(b.exps[id]);
    }
  }

  lemma {:induction false} FinalistWasLockedOnce(h: seq<Db>, lim: Limits, j: nat)
    requires History(h, lim) && j < |h| && h[j].phase != DISCOVERY
    ensures h[j].finalist.Some? && exists k: nat :: k < j && LockMoment(h, k, h[j].finalist.value)
  {
    hide DbInv, LockMoment, AllSettled, Successor, History, Chain;
    HistoryIsChain(h, lim);
    StepAt(h, lim, j);
    if h[j - 1].phase == DISCOVERY {
      LockedAt(h[j - 1], h[j], lim);
      SameMoment(h, j - 1, h[j].finalist.value);
    } else {
      FinalistWasLockedOnce(h, lim, j - 1);
      PhaseOnlyAdvances(h, lim, j - 1, j);
    }
  }

  lemma SameMoment(h: seq<Db>, k: nat, f: Id)
    requires k + 1 < |h| && LockMoment([h[k], h[k + 1]], 0, f)
    ensures LockMoment(h, k, f)
  {}

  /**
    Whoever is on the official split at any time is the one finalist, then and ever
    after, and was locked before as the strongest of a settled field.
   */
  lemma OnlyTheFinalistIsEvaluated(h: seq<Db>, lim: Limits, i: nat, j: nat, id: Id)
    requires History(h, lim) && i <= j < |h|
    requires id in h[i].exps
    requires var e := h[i].exps[id]; OfficialStage(e) || Official in e.metrics || e.state == PROMOTED
    ensures h[j].finalist == Some(id) && h[j].evaluations <= 1
    ensures exists k: nat :: k < i && LockMoment(h, k, id)
  {
    HistoryIsChain(h, lim);
    ExpSound(h[i], id, lim);
    FinalistWithPhase(h[i], lim);
    hide DbInv, LockMoment;
    FinalistWasLockedOnce(h, lim, i);
    PhaseOnlyAdvances(h, lim, i, j);
    EvaluatedAtMostOnce(h[j], lim);
  }

  lemma EvaluatedAtMostOnce(db: Db, lim: Limits)
    requires DbInv(db, lim)
    ensures db.evaluations <= 1 && (db.evaluations == 1 ==> db.phase != DISCOVERY)
  {}

  /** Every repair row was reserved in order and within the allowance of the whole experiment. */
  lemma RepairsWithinAllowance(h: seq<Db>, lim: Limits, i: nat, id: Id)
    requires History(h, lim) && i < |h| && id in h[i].exps
    ensures var rs := h[i].exps[id].repairs;
      |rs| <= lim.repairs && forall k :: 0 <= k < |rs| - 1 ==> rs[k].evidence.Some?
  {
    HistoryIsChain(h, lim);
    ExpSound(h[i], id, lim);
  }

  /** A promoted experiment passed all three gates; a rejected one failed one, or passed but was no new best. */
  lemma GatesAreObeyed(h: seq<Db>, lim: Limits, i: nat, id: Id)
    requires History(h, lim) && i < |h| && id in h[i].exps
    ensures var e := h[i].exps[id];
      && (e.state == PROMOTED ==> Passes(e, Cheap) && Passes(e, Full) && Passes(e, Official))
      && (e.state == REJECTED ==> Fails(e, Cheap) || Fails(e, Full) || Fails(e, Official) || Passes(e, Official))
      && (OfficialStage(e) ==> Passes(e, Cheap) && Passes(e, Full))
  {
    HistoryIsChain(h, lim);
    ExpSound(h[i], id, lim);
  }

  lemma OnlyShadowCrowns(db: Db, w: Write, lim: Limits)
    requires Planned(db, w, lim) && Apply(db, w, lim).Ok? && db.champion.Some?
    ensures var next := Apply(db, w, lim).value;
      || next.champion == db.champion
      || (w.Shadow? && next.champion == Some(w.id) && w.id in next.exps
          && next.exps[w.id].shadow == Some(w.observation) && w.observation.primary > ShadowBest(db))
  {
    hide PlannedMove, MoveExp, ReserveExp, CompleteExp;
  }

  lemma CrownOfSame(a: Db, b: Db)
    requires Successor(a, b) && ChampionInv(a) && b.champion == a.champion && a.champion.Some?
    ensures ShadowBest(a) == ShadowBest(b)
  {
    hide Rank, PhaseStep, OfficialStage;
    assert ExpStep(a.exps[a.champion.value], b.exps[a.champion.value]);
  }

  /** One write keeps the champion, or replaces it by a strictly better one. */
  lemma CrownStep(db: Db, w: Write, lim: Limits)
    requires DbInv(db, lim) && Planned(db, w, lim) && Apply(db, w, lim).Ok? && db.champion.Some?
    ensures var next := Apply(db, w, lim).value;
      && next.champion.Some?
      && (if next.champion == db.champion then ShadowBest(next) == ShadowBest(db)
          else ShadowBest(next) > ShadowBest(db))
  {
    OnlyShadowCrowns(db, w, lim);
    hide Planned, Apply, Successor, ExpInv, PlaceInv, OrderInv, FinalsInv;
    PlannedIsSound(db, w, lim);
    if Apply(db, w, lim).value.champion == db.champion {
      CrownOfSame(db, Apply(db, w, lim).value);
    }
  }

  /** The shadow champion gives way only to a strictly better candidate: a tie changes nothing. */
  lemma {:induction false} ChampionOnlyRises(h: seq<Db>, writes: seq<Write>, lim: Limits, i: nat, j: nat)
    requires IsRun(h, writes, lim) && i <= j < |h| && h[i].champion.Some?
    ensures h[j].champion.Some? && ShadowBest(h[i]) <= ShadowBest(h[j])
    ensures h[j].champion != h[i].champion ==> ShadowBest(h[i]) < ShadowBest(h[j])
    decreases j - i
  {
    hide DbInv, Planned, Apply, Successor, ShadowBest;
    if i < j {
      ChampionOnlyRises(h, writes, lim, i, j - 1);
      RunIsChain(h, writes, lim);
      assert Apply(h[j - 1], writes[j - 1], lim) == Ok(h[j]);
      CrownStep(h[j - 1], writes[j - 1], lim);
    }
  }

  /** Only a promotion ends the official phase, and it is planned only after the gate passed. */
  lemma OnlyPromotionEnds(db: Db, w: Write, lim: Limits)
    requires Planned(db, w, lim) && Apply(db, w, lim).Ok? && db.phase != OFFICIAL_EVALUATED
    requires Apply(db, w, lim).value.phase == OFFICIAL_EVALUATED
    ensures var next := Apply(db, w, lim).value;
      next.finalist == Some(w.id) && w.id in next.exps && Passes(next.exps[w.id], Official)
  {
    hide PlannedMove, MoveExp, ReserveExp, CompleteExp;
  }

  /** The official phase ends only by a finalist that passed the official gate. */
  lemma {:induction false} PhaseEndsByPassing(h: seq<Db>, writes: seq<Write>, lim: Limits, j: nat)
    requires IsRun(h, writes, lim) && j < |h| && h[j].phase == OFFICIAL_EVALUATED
    ensures h[j].finalist.Some? && h[j].finalist.value in h[j].exps && Passes(h[j].exps[h[j].finalist.value], Official)
  {
    hide History, Planned, Apply, DbInv, Successor;
    assert History(h, lim) by {
      RunIsHistory(h, writes, lim);
    }
    if h[j - 1].phase == OFFICIAL_EVALUATED {
      PhaseEndsByPassing(h, writes, lim, j - 1);
      TrailIsAppendOnly(h, lim, j - 1, j, h[j - 1].finalist.value);
      PhaseOnlyAdvances(h, lim, j - 1, j);
    } else {
      OnlyPromotionEnds(h[j - 1], writes[j - 1], lim);
    }
  }

  lemma RunIsHistory(h: seq<Db>, writes: seq<Write>, lim: Limits)
    requires IsRun(h, writes, lim)
    ensures History(h, lim)
  {}

  /** After the official rung only a verdict or an abandonment follows. */
  lemma {:induction false} AfterTheOfficialRung(h: seq<Db>, lim: Limits, i: nat, j: nat, id: Id)
    requires History(h, lim) && i <= j < |h| && id in h[i].exps && h[i].exps[id].state == OFFICIAL_VALID_COMPLETE
    ensures id in h[j].exps && h[j].exps[id].state in {OFFICIAL_VALID_COMPLETE, PROMOTED, REJECTED, ABANDONED}
    decreases j - i
  {
    hide History, Rank;
    if i < j {
      AfterTheOfficialRung(h, lim, i, j - 1, id);
      OneStep(h, lim, j, id);
    }
  }

  // ---- cards ---------------------------------------------------------------------------

  function CardsOf(db: Db, order: seq<Id>): seq<SearchPolicy.CardId>
    requires forall id :: id in order ==> id in db.exps
  {
    seq(|order|, i requires 0 <= i < |order| => assert order[i] in order; db.exps[order[i]].card)
  }

  lemma {:induction false} DistinctWithin(s: seq<SearchPolicy.CardId>, all: set<SearchPolicy.CardId>)
    requires forall i, j :: 0 <= i < j < |s| ==> s[i] != s[j]
    requires forall i :: 0 <= i < |s| ==> s[i] in all
    ensures |s| <= |all|
  {
    if s != [] {
      var n := |s| - 1;
      DistinctWithin(s[..n], all - {s[n]});
    }
  }

  /** Each card is tried at most once, so a run proposes no more experiments than there are cards. */
  lemma EachCardOnce(h: seq<Db>, lim: Limits, j: nat, all: set<SearchPolicy.CardId>)
    requires History(h, lim) && j < |h| && forall id :: id in h[j].exps ==> h[j].exps[id].card in all
    ensures |h[j].order| <= |all|
  {
    hide ExpInv, PlaceInv, FinalsInv, ChampionInv, History;
    HistoryIsChain(h, lim);
    var db := h[j];
    assert OrderInv(db, lim);
    hide Chain;
    var cards := CardsOf(db, db.order);
    forall i, j | 0 <= i < j < |cards| ensures cards[i] != cards[j] {
      assert db.order[i] in db.exps && db.order[j] in db.exps;
    }
    DistinctWithin(cards, all);
  }
}
