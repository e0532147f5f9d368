/**
  The durable record of one run: every write is one transaction, a function from
  the old record to the new one or to a refusal that changes nothing.  The time
  stamps, artifact links and convergence counters of the tables are left out.
 */
module Store {
  import opened Options
  import opened Lifecycle
  import SearchPolicy

  type Id = string

  datatype Result<+T> = Ok(value: T) | Refused

  datatype Rung = Cheap | Full | Official

  /** A rung's evidence: whether it passes its gate, and the candidate's mean primary in metric units. */
  datatype Observation = Observation(passes: bool, primary: int)

  /** A reserved repair; `evidence` is None until it is completed. */
  datatype Repair = Repair(phase: Rung, status: AttemptStatus, action: RepairAction, evidence: Option<nat>)

  /** The plain steps of the supervisor, one per idempotency-key suffix. */
  datatype Mark =
    | WorktreeReady | Patched | StaticValid | FixtureValid | PreparationAbandoned
    | CheapRunning | CheapComplete | CheapRejected
    | FullReserved | FullRunning | FullComplete | Diagnosed | FullRejected
    | NonFinalistAbandoned | NotLockedFinalist
    | OfficialRunning | OfficialComplete | OfficialRejected | SearchPromotion

  /** Idempotency keys of one experiment. */
  datatype Key =
    | Go(mark: Mark)
    | Failure(phase: Rung, used: nat)
    | FailedFinal(phase: Rung, used: nat)
    | Repairing(number: nat)
    | Repaired(number: nat)
    | RepairFailed(number: nat)

  datatype Payload = Plain | Failed(phase: Rung, status: AttemptStatus) | Reserved(number: nat, phase: Rung)

  /** One row of the transitions table. */
  datatype Row = Row(from: ExperimentState, to: ExperimentState, payload: Payload)

  /** `last` is the payload of the experiment's newest transition row. */
  datatype Exp = Exp(
    card: SearchPolicy.CardId, state: ExperimentState, repairs: seq<Repair>, keys: map<Key, Row>, last: Payload,
    metrics: map<Rung, int>, results: map<Rung, Observation>, shadow: Option<Observation>)

  datatype Db = Db(
    run: RunState, phase: ValidationPhase, finalist: Option<Id>, exps: map<Id, Exp>, order: seq<Id>,
    evaluations: nat, best: int, champion: Option<Id>)

  datatype Limits = Limits(repairs: nat, hypotheses: nat, evaluations: nat)

  datatype Write =
    | Create(id: Id, card: SearchPolicy.CardId)
    | Move(id: Id, from: ExperimentState, to: ExperimentState, payload: Payload, key: Key)
    | Reserve(id: Id, phase: Rung, status: AttemptStatus, action: RepairAction)
    | Complete(id: Id, number: nat, evidence: nat)
    | Meter(id: Id, rung: Rung, primary: int)
    | Record(id: Id, rung: Rung, observation: Observation)
    | Shadow(id: Id, observation: Observation)
    | Lock(id: Id)
    | Promote(id: Id, primary: int)
    | MoveRun(before: RunState, after: RunState)

  // ---- the transactions --------------------------------------------------------

  function NewExp(card: SearchPolicy.CardId): Exp
  {
    Exp(card, PROPOSED, [], map[], Plain, map[], map[], None)
  }

  /** A replayed proposal must be the stored one; otherwise the hypothesis cap applies. */
  function ApplyCreate(db: Db, id: Id, card: SearchPolicy.CardId, lim: Limits): Result<Db>
  {
    if id in db.exps then
      if db.exps[id].card == card then Ok(db) else Refused
    else if |db.order| >= lim.hypotheses then Refused
    else Ok(db.(exps := db.exps[id := NewExp(card)], order := db.order + [id]))
  }

  /** Compare-and-set; a key seen before changes nothing if the row is the same and is refused if not. */
  function MoveExp(e: Exp, from: ExperimentState, to: ExperimentState, payload: Payload, key: Key): Result<Exp>
  {
    if to !in ExperimentTransitions(from) then Refused
    else if key in e.keys then
      if e.keys[key] == Row(from, to, payload) then Ok(e) else Refused
    else if e.state != from then Refused
    else Ok(e.(state := to, keys := e.keys[key := Row(from, to, payload)], last := payload))
  }

  /** An incomplete reservation is handed out again; otherwise number used + 1, up to the maximum. */
  function ReserveExp(e: Exp, phase: Rung, status: AttemptStatus, action: RepairAction, maximum: nat): Result<Exp>
  {
    var n := |e.repairs|;
    if n > 0 && e.repairs[n - 1].evidence.None? then
      var r := e.repairs[n - 1];
      if r.phase == phase && r.status == status && r.action == action then Ok(e) else Refused
    else if n >= maximum then Refused
    else Ok(e.(repairs := e.repairs + [Repair(phase, status, action, None)]))
  }

  function CompleteExp(e: Exp, number: nat, evidence: nat): Result<Exp>
  {
    if number == 0 || number > |e.repairs| then Refused
    else
      var r := e.repairs[number - 1];
      if r.evidence.Some? then
        if r.evidence.value == evidence then Ok(e) else Refused
      else Ok(e.(repairs := e.repairs[number - 1 := r.(evidence := Some(evidence))]))
  }

  function ApplyMeter(db: Db, id: Id, rung: Rung, primary: int, lim: Limits): Result<Db>
    requires id in db.exps
  {
    var e := db.exps[id];
    if rung in e.metrics then
      if e.metrics[rung] == primary then Ok(db) else Refused
    else if rung != Official then
      Ok(db.(exps := db.exps[id := e.(metrics := e.metrics[rung := primary])]))
    else if db.evaluations >= lim.evaluations || db.phase != FINALIST_LOCKED || db.finalist != Some(id) then Refused
    else
      Ok(db.(exps := db.exps[id := e.(metrics := e.metrics[rung := primary])], evaluations := db.evaluations + 1))
  }

  /** The running champion of the shadow folds: replaced only by a supported, strictly better candidate. */
  function ApplyShadow(db: Db, id: Id, o: Observation): Result<Db>
    requires id in db.exps
  {
    var e := db.exps[id];
    if e.shadow.Some? then
      if e.shadow.value == o then Ok(db) else Refused
    else if e.state != DIAGNOSED || db.phase != DISCOVERY then Refused
    else
      var better := o.passes && (db.champion.None? || o.primary > ShadowBest(db));
      Ok(db.(exps := db.exps[id := e.(shadow := Some(o))], champion := if better then Some(id) else db.champion))
  }

  function ShadowBest(db: Db): int
  {
    if db.champion.Some? && db.champion.value in db.exps && db.exps[db.champion.value].shadow.Some?
    then db.exps[db.champion.value].shadow.value.primary
    else 0
  }

  predicate Supported(e: Exp)
  {
    e.shadow.Some? && e.shadow.value.passes
  }

  /** Closing discovery and binding the finalist are one transaction; the lock key is the run's own. */
  function ApplyLock(db: Db, id: Id): Result<Db>
    requires id in db.exps
  {
    if db.finalist.Some? then
      if db.finalist == Some(id) then Ok(db) else Refused
    else if db.phase != DISCOVERY || db.exps[id].state != DIAGNOSED || !Supported(db.exps[id]) || db.evaluations != 0
    then Refused
    else Ok(db.(phase := FINALIST_LOCKED, finalist := Some(id)))
  }

  /** Decides between promotion and rejection and completes the phase in the same transaction. */
  function ApplyPromote(db: Db, id: Id, primary: int): Result<Db>
    requires id in db.exps
  {
    var e := db.exps[id];
    var key := Go(SearchPromotion);
    if key in e.keys then
      if e.keys[key].from == OFFICIAL_VALID_COMPLETE && e.keys[key].to in {PROMOTED, REJECTED} then Ok(db) else Refused
    else if e.state != OFFICIAL_VALID_COMPLETE || db.phase == DISCOVERY || db.finalist != Some(id) then Refused
    else
      var target := if primary > db.best then PROMOTED else REJECTED;
      var moved := e.(state := target, keys := e.keys[key := Row(e.state, target, Plain)], last := Plain);
      Ok(db.(
        exps := db.exps[id := moved], phase := OFFICIAL_EVALUATED,
        best := if primary > db.best then primary else db.best))
  }

  function WithExp(db: Db, id: Id, r: Result<Exp>): Result<Db>
  {
    match r
    case Ok(e) => Ok(db.(exps := db.exps[id := e]))
    case Refused => Refused
  }

  function Apply(db: Db, w: Write, lim: Limits): Result<Db>
  {
    if w.Create? then ApplyCreate(db, w.id, w.card, lim)
    else if w.MoveRun? then
      if w.after !in RunTransitions(w.before) || db.run != w.before then Refused else Ok(db.(run := w.after))
    else if w.id !in db.exps then Refused
    else
      match w
      case Move(id, from, to, payload, key) => WithExp(db, id, MoveExp(db.exps[id], from, to, payload, key))
      case Reserve(id, phase, status, action) =>
        WithExp(db, id, ReserveExp(db.exps[id], phase, status, action, lim.repairs))
      case Complete(id, number, evidence) => WithExp(db, id, CompleteExp(db.exps[id], number, evidence))
      case Meter(id, rung, primary) => ApplyMeter(db, id, rung, primary, lim)
      case Record(id, rung, o) =>
        Ok(db.(exps := db.exps[id := db.exps[id].(results := db.exps[id].results[rung := o])]))
      case Shadow(id, o) => ApplyShadow(db, id, o)
      case Lock(id) => ApplyLock(db, id)
      case Promote(id, primary) => ApplyPromote(db, id, primary)
  }
}
