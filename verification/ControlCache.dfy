/**
  The publish/import protocol of the control prediction cache, as a step system.
  One state is everything that happens around one cache key: the entry at the
  final path, the key's lock, the processes that want the key, their private
  copies, the quarantine and what crashes leave behind.  Any process may take the
  next step, crash, or fail, and an adversary may rewrite the published entry at
  any moment.
 */
module ControlCache {
  import opened CacheEntry
  import opened Options

  /** What the protocol uses of hashing and validation. */
  datatype Rules = Rules(
    key: Identity -> string,
    valid: (Entry, Identity) -> bool,
    publishable: (Source, Identity) -> bool,
    build: (Source, Identity) -> Entry)

  /** What it relies on: a valid entry names its identity, and a staged execution is valid. */
  ghost predicate Sound(c: Rules)
  {
    && (forall e, id :: c.valid(e, id) ==> e.manifest.Readable? && e.manifest.manifest.identity == id)
    && (forall src, id :: c.publishable(src, id) ==> c.valid(c.build(src, id), id))
  }

  /** The cache's own hashing, validation and staging. */
  function RulesOf(w: World): Rules
  {
    Rules(
      w.key,
      (e: Entry, id: Identity) => ValidEntry(w, e, id),
      (src: Source, id: Identity) => Publishable(w, src, id),
      (src: Source, id: Identity) => if Publishable(w, src, id) then BuildEntry(w, src, id) else EMPTY_TREE)
  }

  lemma RulesOfSound(w: World)
    ensures Sound(RulesOf(w))
  {
    forall src, id | Publishable(w, src, id) ensures ValidEntry(w, BuildEntry(w, src, id), id) {
      BuiltEntryIsValid(w, src, id);
    }
  }

  type Pid = nat

  /** A publisher holds the validated output of one execution; an importer a private directory. */
  datatype Role = Publisher(src: Source) | Importer(dest: nat)

  datatype Answer = Published(entry: Entry) | AlreadyThere(entry: Entry) | Hit(entry: Entry) | Miss | Raised

  /** Where a process stands; it holds the key's lock from Locked to Moved. */
  datatype Pc = Waiting | Locked | Staging | Checked | Moved | Finished(answer: Answer)

  datatype Proc = Proc(role: Role, id: Identity, pc: Pc, staged: Option<Entry>)

  datatype State = State(
    slot: Option<Entry>,
    holder: Option<Pid>,
    procs: map<Pid, Proc>,
    privates: map<nat, Entry>,
    quarantine: seq<Entry>,
    debris: seq<Entry>,
    /** History: every entry ever moved to the final path, and whether the last one was rewritten since. */
    moved: seq<Entry>,
    touched: bool)

  datatype Step =
    | Begin(pid: Pid, role: Role, id: Identity)
    | Acquire(pid: Pid)
    | Look(pid: Pid)
    | Build(pid: Pid)
    | CopyFile(pid: Pid, path: Path)
    | CopyManifest(pid: Pid)
    | Check(pid: Pid)
    | Move(pid: Pid)
    | Recheck(pid: Pid)
    | Fail(pid: Pid)
    | Crash(pid: Pid)
    | Corrupt(entry: Option<Entry>)

  const EMPTY_TREE := Entry(true, Missing, map[], {})

  const INIT := State(None, None, map[], map[], [], [], [], false)

  predicate InLock(pc: Pc)
  {
    pc.Locked? || pc.Staging? || pc.Checked? || pc.Moved?
  }

  predicate At(s: State, p: Pid, pc: Pc)
  {
    p in s.procs && s.procs[p].pc == pc
  }

  // ---- the steps -----------------------------------------------------------

  predicate Enabled(c: Rules, k: string, s: State, step: Step)
  {
    match step
    case Begin(p, role, id) =>
      p !in s.procs && c.key(id) == k && (role.Publisher? ==> c.publishable(role.src, id))
    case Acquire(p) => At(s, p, Waiting) && s.holder.None?
    case Look(p) => At(s, p, Locked)
    case Build(p) =>
      At(s, p, Staging) && s.procs[p].role.Publisher? && c.publishable(s.procs[p].role.src, s.procs[p].id)
    case CopyFile(p, path) =>
      && At(s, p, Staging) && s.procs[p].role.Importer? && s.procs[p].staged.Some?
      && s.slot.Some? && path in s.slot.value.files
    case CopyManifest(p) => At(s, p, Staging) && s.procs[p].role.Importer? && s.procs[p].staged.Some? && s.slot.Some?
    case Check(p) => At(s, p, Staging) && s.procs[p].staged.Some?
    case Move(p) => At(s, p, Checked) && s.procs[p].staged.Some?
    case Recheck(p) => At(s, p, Moved)
    case Fail(p) => p in s.procs && InLock(s.procs[p].pc)
    case Crash(p) => p in s.procs
    case Corrupt(e) => s.slot.Some?
  }

  /** The process goes on inside the lock. */
  function Goto(s: State, p: Pid, pc: Pc, staged: Option<Entry>): State
    requires p in s.procs
  {
    s.(procs := s.procs[p := s.procs[p].(pc := pc, staged := staged)])
  }

  /** The process answers, its staging tree is gone, and the lock is free. */
  function Finish(s: State, p: Pid, answer: Answer): State
    requires p in s.procs
  {
    Goto(s, p, Finished(answer), None).(holder := None)
  }

  /** `os.replace` of the published entry into the quarantine. */
  function Quarantined(s: State): State
    requires s.slot.Some?
  {
    s.(slot := None, quarantine := s.quarantine + [s.slot.value])
  }

  /** What a publisher does with what it finds at the final path. */
  function LookAsPublisher(c: Rules, s: State, p: Pid): State
    requires p in s.procs
  {
    if s.slot.None? then Goto(s, p, Staging, Some(EMPTY_TREE))
    else if c.valid(s.slot.value, s.procs[p].id) then Finish(s, p, AlreadyThere(s.slot.value))
    else Goto(Quarantined(s), p, Staging, Some(EMPTY_TREE))
  }

  /** What an importer does with what it finds there, and with a private copy of its own. */
  function LookAsImporter(c: Rules, s: State, p: Pid, dest: nat): State
    requires p in s.procs
  {
    var id := s.procs[p].id;
    if s.slot.None? then Finish(s, p, Miss)
    else if !c.valid(s.slot.value, id) then Finish(Quarantined(s), p, Miss)
    else if dest in s.privates && c.valid(s.privates[dest], id) then Finish(s, p, Hit(s.privates[dest]))
    else Goto(s.(privates := s.privates - {dest}), p, Staging, Some(EMPTY_TREE))
  }

  function Apply(c: Rules, k: string, s: State, step: Step): State
    requires Enabled(c, k, s, step)
  {
    match step
    case Begin(p, role, id) => s.(procs := s.procs[p := Proc(role, id, Waiting, None)])
    case Acquire(p) => Goto(s, p, Locked, None).(holder := Some(p))
    case Look(p) =>
      (match s.procs[p].role
       case Publisher(_) => LookAsPublisher(c, s, p)
       case Importer(dest) => LookAsImporter(c, s, p, dest))
    case Build(p) => Goto(s, p, Staging, Some(c.build(s.procs[p].role.src, s.procs[p].id)))
    case CopyFile(p, path) =>
      var t := s.procs[p].staged.value;
      Goto(s, p, Staging, Some(t.(
        files := t.files[path := s.slot.value.files[path]],
        directories := t.directories + Parents(path))))
    case CopyManifest(p) => Goto(s, p, Staging, Some(s.procs[p].staged.value.(manifest := s.slot.value.manifest)))
    case Check(p) =>
      if c.valid(s.procs[p].staged.value, s.procs[p].id) then Goto(s, p, Checked, s.procs[p].staged)
      else Finish(s, p, Raised)
    case Move(p) =>
      var t := s.procs[p].staged.value;
      (match s.procs[p].role
       case Publisher(_) => Goto(s, p, Moved, None).(slot := Some(t), moved := s.moved + [t], touched := false)
       case Importer(dest) => Goto(s, p, Moved, None).(privates := s.privates[dest := t]))
    case Recheck(p) =>
      (match s.procs[p].role
       case Publisher(_) =>
         if s.slot.Some? && c.valid(s.slot.value, s.procs[p].id) then Finish(s, p, Published(s.slot.value))
         else Finish(s, p, Raised)
       case Importer(dest) =>
         if dest in s.privates && c.valid(s.privates[dest], s.procs[p].id) then Finish(s, p, Hit(s.privates[dest]))
         else Finish(s, p, Raised))
    case Fail(p) => Finish(s, p, Raised)
    case Crash(p) =>
      s.(procs := s.procs - {p},
         holder := if s.holder == Some(p) then None else s.holder,
         debris := if s.procs[p].staged.Some? then s.debris + [s.procs[p].staged.value] else s.debris)
    case Corrupt(e) => s.(slot := e, touched := true)
  }

  // ---- the invariant ---------------------------------------------------------

  predicate Answers(c: Rules, a: Answer, id: Identity)
  {
    match a
    case Published(e) => c.valid(e, id)
    case AlreadyThere(e) => c.valid(e, id)
    case Hit(e) => c.valid(e, id)
    case Miss => true
    case Raised => true
  }

  /** What holds of one process, given the entry at the final path. */
  predicate ProcOk(c: Rules, k: string, slot: Option<Entry>, q: Proc)
  {
    && c.key(q.id) == k
    && (q.role.Publisher? ==> c.publishable(q.role.src, q.id))
    && (q.staged.Some? <==> q.pc.Staging? || q.pc.Checked?)
    && (q.pc.Checked? ==> c.valid(q.staged.value, q.id))
    && (q.role.Publisher? && (q.pc.Staging? || q.pc.Checked?) ==> slot.None?)
    && (q.pc.Finished? ==> Answers(c, q.pc.answer, q.id))
  }

  /** Some identity with this key validates the entry. */
  predicate ValidatedOnce(c: Rules, k: string, e: Entry)
  {
    && e.manifest.Readable?
    && c.key(e.manifest.manifest.identity) == k
    && c.valid(e, e.manifest.manifest.identity)
  }

  ghost predicate LockOk(s: State)
  {
    forall p :: s.holder == Some(p) <==> p in s.procs && InLock(s.procs[p].pc)
  }

  ghost predicate Inv(c: Rules, k: string, s: State)
  {
    && LockOk(s)
    && (forall p :: p in s.procs ==> ProcOk(c, k, s.slot, s.procs[p]))
    && (forall i :: 0 <= i < |s.moved| ==> ValidatedOnce(c, k, s.moved[i]))
    && (s.slot.Some? && !s.touched ==> s.moved != [] && s.slot.value == s.moved[|s.moved| - 1])
  }

  lemma InitInv(c: Rules, k: string)
    ensures Inv(c, k, INIT)
  {}

  /** Nobody but the lock holder is between Locked and Moved. */
  lemma OnlyHolder(c: Rules, k: string, s: State, p: Pid, q: Pid)
    requires Sound(c) && Inv(c, k, s) && p in s.procs && q in s.procs
    requires InLock(s.procs[p].pc) && InLock(s.procs[q].pc)
    ensures p == q
  {
    assert s.holder == Some(p) && s.holder == Some(q);
  }

  /** A step of `p` inside the lock that leaves the slot alone or empties it keeps every other process in order. */
  lemma OthersKeep(c: Rules, k: string, s: State, t: State, p: Pid, q: Pid)
    requires Sound(c) && Inv(c, k, s) && p in s.procs && InLock(s.procs[p].pc)
    requires q in s.procs && q != p && q in t.procs && t.procs[q] == s.procs[q]
    ensures ProcOk(c, k, t.slot, t.procs[q])
  {
    if InLock(s.procs[q].pc) {
      OnlyHolder(c, k, s, p, q);
    }
  }

  /** The frame of every step a process takes inside the lock. */
  ghost predicate OwnStep(s: State, t: State, p: Pid)
    requires p in s.procs
  {
    && p in t.procs
    && t.procs == s.procs[p := t.procs[p]]
    && t.holder == (if InLock(t.procs[p].pc) then Some(p) else None)
  }

  lemma OwnStepKeeps(c: Rules, k: string, s: State, t: State, p: Pid)
    requires Sound(c) && Inv(c, k, s) && p in s.procs && InLock(s.procs[p].pc)
    requires OwnStep(s, t, p) && ProcOk(c, k, t.slot, t.procs[p])
    requires forall i :: 0 <= i < |t.moved| ==> ValidatedOnce(c, k, t.moved[i])
    requires t.slot.Some? && !t.touched ==> t.moved != [] && t.slot.value == t.moved[|t.moved| - 1]
    ensures Inv(c, k, t)
  {
    assert s.holder == Some(p);
    forall q | q in t.procs ensures ProcOk(c, k, t.slot, t.procs[q]) {
      if q != p {
        OthersKeep(c, k, s, t, p, q);
      }
    }
    forall q ensures t.holder == Some(q) <==> q in t.procs && InLock(t.procs[q].pc) {
      if q != p && q in s.procs && InLock(s.procs[q].pc) {
        OnlyHolder(c, k, s, p, q);
      }
    }
  }

  lemma LookPublisherInv(c: Rules, k: string, s: State, p: Pid)
    requires Sound(c) && Inv(c, k, s) && At(s, p, Locked) && s.procs[p].role.Publisher?
    ensures Inv(c, k, LookAsPublisher(c, s, p))
  {
    assert ProcOk(c, k, s.slot, s.procs[p]);
    assert s.holder == Some(p);
    OwnStepKeeps(c, k, s, LookAsPublisher(c, s, p), p);
  }

  lemma LookImporterInv(c: Rules, k: string, s: State, p: Pid, dest: nat)
    requires Sound(c) && Inv(c, k, s) && At(s, p, Locked) && s.procs[p].role == Importer(dest)
    ensures Inv(c, k, LookAsImporter(c, s, p, dest))
  {
    assert ProcOk(c, k, s.slot, s.procs[p]);
    assert s.holder == Some(p);
    OwnStepKeeps(c, k, s, LookAsImporter(c, s, p, dest), p);
  }

  lemma LookInv(c: Rules, k: string, s: State, p: Pid)
    requires Sound(c) && Inv(c, k, s) && Enabled(c, k, s, Look(p))
    ensures Inv(c, k, Apply(c, k, s, Look(p)))
  {
    hide Inv, LookAsPublisher, LookAsImporter;
    match s.procs[p].role {
      case Publisher(_) => LookPublisherInv(c, k, s, p);
      case Importer(dest) => LookImporterInv(c, k, s, p, dest);
    }
  }

  lemma MoveInv(c: Rules, k: string, s: State, p: Pid)
    requires Sound(c) && Inv(c, k, s) && Enabled(c, k, s, Move(p))
    ensures Inv(c, k, Apply(c, k, s, Move(p)))
  {
    assert ProcOk(c, k, s.slot, s.procs[p]);
    assert s.holder == Some(p);
    OwnStepKeeps(c, k, s, Apply(c, k, s, Move(p)), p);
  }

  lemma StagingInv(c: Rules, k: string, s: State, step: Step)
    requires Sound(c) && Inv(c, k, s) && Enabled(c, k, s, step)
    requires step.Build? || step.CopyFile? || step.CopyManifest?
    ensures Inv(c, k, Apply(c, k, s, step))
  {
    assert ProcOk(c, k, s.slot, s.procs[step.pid]);
    assert s.holder == Some(step.pid);
    OwnStepKeeps(c, k, s, Apply(c, k, s, step), step.pid);
  }

  lemma CheckInv(c: Rules, k: string, s: State, p: Pid)
    requires Sound(c) && Inv(c, k, s) && Enabled(c, k, s, Check(p))
    ensures Inv(c, k, Apply(c, k, s, Check(p)))
  {
    assert ProcOk(c, k, s.slot, s.procs[p]);
    assert s.holder == Some(p);
    OwnStepKeeps(c, k, s, Apply(c, k, s, Check(p)), p);
  }

  lemma FinishInv(c: Rules, k: string, s: State, p: Pid, answer: Answer)
    requires Sound(c) && Inv(c, k, s) && p in s.procs && InLock(s.procs[p].pc) && Answers(c, answer, s.procs[p].id)
    ensures Inv(c, k, Finish(s, p, answer))
  {
    assert ProcOk(c, k, s.slot, s.procs[p]);
    OwnStepKeeps(c, k, s, Finish(s, p, answer), p);
  }

  lemma RecheckInv(c: Rules, k: string, s: State, p: Pid)
    requires Sound(c) && Inv(c, k, s) && Enabled(c, k, s, Recheck(p))
    ensures Inv(c, k, Apply(c, k, s, Recheck(p)))
  {
    FinishInv(c, k, s, p, Raised);
    match s.procs[p].role {
      case Publisher(_) =>
        if s.slot.Some? && c.valid(s.slot.value, s.procs[p].id) {
          FinishInv(c, k, s, p, Published(s.slot.value));
        }
      case Importer(dest) =>
        if dest in s.privates && c.valid(s.privates[dest], s.procs[p].id) {
          FinishInv(c, k, s, p, Hit(s.privates[dest]));
        }
    }
  }

  lemma FailInv(c: Rules, k: string, s: State, p: Pid)
    requires Sound(c) && Inv(c, k, s) && Enabled(c, k, s, Fail(p))
    ensures Inv(c, k, Apply(c, k, s, Fail(p)))
  {
    hide Inv, Finish;
    FinishInv(c, k, s, p, Raised);
  }

  lemma CrashInv(c: Rules, k: string, s: State, p: Pid)
    requires Sound(c) && Inv(c, k, s) && Enabled(c, k, s, Crash(p))
    ensures Inv(c, k, Apply(c, k, s, Crash(p)))
  {
    var t := Apply(c, k, s, Crash(p));
    forall q ensures t.holder == Some(q) <==> q in t.procs && InLock(t.procs[q].pc) {
      assert s.holder == Some(q) <==> q in s.procs && InLock(s.procs[q].pc);
    }
  }

  lemma ArrivalInv(c: Rules, k: string, s: State, step: Step)
    requires Sound(c) && Inv(c, k, s) && Enabled(c, k, s, step)
    requires step.Begin? || step.Acquire? || step.Corrupt?
    ensures Inv(c, k, Apply(c, k, s, step))
  {
    var t := Apply(c, k, s, step);
    forall p | p in t.procs ensures ProcOk(c, k, t.slot, t.procs[p]) {
      if p in s.procs {
        assert ProcOk(c, k, s.slot, s.procs[p]);
      }
    }
  }

  /** Every step of every process, every crash and every corruption keeps the invariant. */
  lemma StepInv(c: Rules, k: string, s: State, step: Step)
    requires Sound(c) && Inv(c, k, s) && Enabled(c, k, s, step)
    ensures Inv(c, k, Apply(c, k, s, step))
  {
    hide Inv, Enabled, Apply;
    match step {
      case Look(p) => LookInv(c, k, s, p);
      case Move(p) => MoveInv(c, k, s, p);
      case Build(_) => StagingInv(c, k, s, step);
      case CopyFile(_, _) => StagingInv(c, k, s, step);
      case CopyManifest(_) => StagingInv(c, k, s, step);
      case Check(p) => CheckInv(c, k, s, p);
      case Recheck(p) => RecheckInv(c, k, s, p);
      case Fail(p) => FailInv(c, k, s, p);
      case Crash(p) => CrashInv(c, k, s, p);
      case Begin(_, _, _) => ArrivalInv(c, k, s, step);
      case Acquire(_) => ArrivalInv(c, k, s, step);
      case Corrupt(_) => ArrivalInv(c, k, s, step);
    }
  }

  // ---- runs --------------------------------------------------------------------

  /** The states an execution goes through. */
  ghost predicate IsRun(c: Rules, k: string, states: seq<State>, steps: seq<Step>)
  {
    && |states| == |steps| + 1
    && states[0] == INIT
    && forall i :: 0 <= i < |steps| ==>
      Enabled(c, k, states[i], steps[i]) && states[i + 1] == Apply(c, k, states[i], steps[i])
  }

  lemma {:induction false} RunInv(c: Rules, k: string, states: seq<State>, steps: seq<Step>, i: nat)
    requires Sound(c) && IsRun(c, k, states, steps) && i < |states|
    ensures Inv(c, k, states[i])
  {
    if i == 0 {
      InitInv(c, k);
    } else {
      RunInv(c, k, states, steps, i - 1);
      StepInv(c, k, states[i - 1], steps[i - 1]);
    }
  }

  /**
    The final path changes in three ways only: the adversary rewrites it, a process
    quarantines what is invalid for it, or a publisher fills it, empty, with an
    entry it has just validated.
   */
  lemma SlotChanges(c: Rules, k: string, s: State, step: Step)
    requires Sound(c) && Inv(c, k, s) && Enabled(c, k, s, step)
    ensures var t := Apply(c, k, s, step);
      t.slot != s.slot ==>
        || step.Corrupt?
        || (step.Look? && s.slot.Some? && !c.valid(s.slot.value, s.procs[step.pid].id) && t.slot.None?)
        || (step.Move? && s.slot.None? && s.procs[step.pid].role.Publisher? && t.slot == s.procs[step.pid].staged
            && c.valid(t.slot.value, s.procs[step.pid].id))
  {
    if step.Move? {
      assert ProcOk(c, k, s.slot, s.procs[step.pid]);
    }
  }

  /** Looking at an entry nobody rewrote evicts it exactly when it belongs to another identity. */
  lemma EvictedIffForeign(c: Rules, k: string, s: State, p: Pid)
    requires Sound(c) && Inv(c, k, s) && At(s, p, Locked) && s.slot.Some? && !s.touched
    ensures s.slot.value.manifest.Readable?
    ensures Apply(c, k, s, Look(p)).slot.None? <==> s.slot.value.manifest.manifest.identity != s.procs[p].id
  {
    var e := s.slot.value;
    assert ValidatedOnce(c, k, s.moved[|s.moved| - 1]);
  }

  predicate Kept(s: State, e: Entry)
  {
    s.slot == Some(e) || e in s.quarantine
  }

  /** What was published is at the final path or in the quarantine for ever, unless somebody rewrites it. */
  lemma {:induction false} EntriesAreKept(c: Rules, k: string, states: seq<State>, steps: seq<Step>,
      i: nat, j: nat, e: Entry)
    requires Sound(c) && IsRun(c, k, states, steps) && i <= j < |states| && Kept(states[i], e)
    requires forall n :: i <= n < j ==> !steps[n].Corrupt?
    ensures Kept(states[j], e)
    decreases j - i
  {
    hide Inv, Enabled, Apply;
    if i < j {
      EntriesAreKept(c, k, states, steps, i, j - 1, e);
      RunInv(c, k, states, steps, j - 1);
      KeptByStep(c, k, states[j - 1], steps[j - 1], e);
    }
  }

  lemma KeptByStep(c: Rules, k: string, s: State, step: Step, e: Entry)
    requires Sound(c) && Inv(c, k, s) && Enabled(c, k, s, step) && !step.Corrupt? && Kept(s, e)
    ensures Kept(Apply(c, k, s, step), e)
  {
    SlotChanges(c, k, s, step);
  }

  ghost predicate KeysDiffer(c: Rules)
  {
    forall a, b :: c.key(a) == c.key(b) ==> a == b
  }

  /**
    With distinct keys for distinct identities, a published entry that nobody
    rewrites is never replaced, whatever else happens.
   */
  lemma {:induction false} PublicationStays(c: Rules, k: string, states: seq<State>, steps: seq<Step>, i: nat, j: nat)
    requires Sound(c) && IsRun(c, k, states, steps) && i <= j < |states|
    requires KeysDiffer(c)
    requires states[i].slot.Some? && !states[i].touched
    requires forall n :: i <= n < j ==> !steps[n].Corrupt?
    ensures states[j].slot == states[i].slot && !states[j].touched
  {
    if i < j {
      PublicationStays(c, k, states, steps, i, j - 1);
      UntouchedStays(c, k, states, steps, j - 1);
    }
  }

  lemma UntouchedStays(c: Rules, k: string, states: seq<State>, steps: seq<Step>, n: nat)
    requires Sound(c) && IsRun(c, k, states, steps) && n < |steps|
    requires KeysDiffer(c)
    requires states[n].slot.Some? && !states[n].touched && !steps[n].Corrupt?
    ensures states[n + 1].slot == states[n].slot && !states[n + 1].touched
  {
    var s, step := states[n], steps[n];
    RunInv(c, k, states, steps, n);
    SlotChanges(c, k, s, step);
    if step.Look? {
      EvictedIffForeign(c, k, s, step.pid);
      assert ProcOk(c, k, s.slot, s.procs[step.pid]);
      assert ValidatedOnce(c, k, s.moved[|s.moved| - 1]);
    }
    if step.Move? {
      assert ProcOk(c, k, s.slot, s.procs[step.pid]);
    }
  }

  predicate By(step: Step, p: Pid)
  {
    !step.Corrupt? && step.pid == p
  }

  /** While a process holds the lock the others change nothing of what it sees. */
  lemma OtherStepKeeps(c: Rules, k: string, s: State, step: Step, p: Pid)
    requires Sound(c) && Inv(c, k, s) && Enabled(c, k, s, step) && p in s.procs && InLock(s.procs[p].pc)
    requires !step.Corrupt? && step.pid != p
    ensures var t := Apply(c, k, s, step);
      p in t.procs && t.procs[p] == s.procs[p] && t.slot == s.slot && t.privates == s.privates
  {
    assert s.holder == Some(p);
    if step.pid in s.procs && InLock(s.procs[step.pid].pc) {
      OnlyHolder(c, k, s, p, step.pid);
    }
  }

  lemma {:induction false} HolderIsAlone(c: Rules, k: string, states: seq<State>, steps: seq<Step>,
      n: nat, m: nat, p: Pid)
    requires Sound(c) && IsRun(c, k, states, steps) && n <= m < |states|
    requires p in states[n].procs && InLock(states[n].procs[p].pc)
    requires forall i :: n <= i < m ==> !steps[i].Corrupt? && !By(steps[i], p)
    ensures p in states[m].procs && states[m].procs[p] == states[n].procs[p]
    ensures states[m].slot == states[n].slot && states[m].privates == states[n].privates
  {
    hide Inv, Enabled, Apply;
    if n < m {
      HolderIsAlone(c, k, states, steps, n, m - 1, p);
      RunInv(c, k, states, steps, m - 1);
      OtherStepKeeps(c, k, states[m - 1], steps[m - 1], p);
    }
  }

  /** A move that nobody corrupts before it is checked again is answered with what was moved. */
  lemma MoveIsAnswered(c: Rules, k: string, states: seq<State>, steps: seq<Step>, n: nat, m: nat, p: Pid)
    requires Sound(c) && IsRun(c, k, states, steps) && n < m < |steps|
    requires steps[n] == Move(p) && steps[m] == Recheck(p)
    requires forall i :: n < i < m ==> !steps[i].Corrupt? && !By(steps[i], p)
    ensures p in states[n].procs && states[n].procs[p].staged.Some? && p in states[m + 1].procs
    ensures var q, e := states[n].procs[p], states[n].procs[p].staged.value;
      states[m + 1].procs[p].pc == Finished(if q.role.Publisher? then Published(e) else Hit(e))
  {
    RunInv(c, k, states, steps, n);
    assert ProcOk(c, k, states[n].slot, states[n].procs[p]);
    assert Enabled(c, k, states[n], steps[n]) && states[n + 1] == Apply(c, k, states[n], steps[n]);
    assert Enabled(c, k, states[m], steps[m]) && states[m + 1] == Apply(c, k, states[m], steps[m]);
    hide Inv, IsRun;
    HolderIsAlone(c, k, states, steps, n + 1, m, p);
  }

  /**
    An entry of the own identity that nobody rewrote is found: a second publisher answers
    with it and keeps nothing of its own, and an importer hits its valid private copy, or
    goes on to make one.
   */
  lemma OwnEntryIsFound(c: Rules, k: string, s: State, p: Pid)
    requires Sound(c) && Inv(c, k, s) && At(s, p, Locked) && s.slot.Some? && !s.touched
    requires s.slot.value.manifest.Readable? && s.slot.value.manifest.manifest.identity == s.procs[p].id
    ensures var t := Apply(c, k, s, Look(p)); t.slot == s.slot && t.quarantine == s.quarantine && p in t.procs
    ensures var t := Apply(c, k, s, Look(p));
      s.procs[p].role.Publisher? ==> t.procs[p].pc == Finished(AlreadyThere(s.slot.value)) && t.holder == None
    ensures var t, q := Apply(c, k, s, Look(p)), s.procs[p];
      q.role.Importer? ==>
        if q.role.dest in s.privates && c.valid(s.privates[q.role.dest], q.id)
        then t.procs[p].pc == Finished(Hit(s.privates[q.role.dest])) && t.holder == None
        else t.procs[p].pc == Staging && q.role.dest !in t.privates
  {
    assert ValidatedOnce(c, k, s.moved[|s.moved| - 1]);
  }

  /** An importer that finds nothing, or an entry of another identity, misses and makes room for a publisher. */
  lemma NothingIsMissed(c: Rules, k: string, s: State, p: Pid)
    requires Sound(c) && Inv(c, k, s) && At(s, p, Locked) && s.procs[p].role.Importer?
    requires s.slot.Some? && s.slot.value.manifest.Readable? ==>
      s.slot.value.manifest.manifest.identity != s.procs[p].id
    ensures var t := Apply(c, k, s, Look(p));
      && p in t.procs && t.procs[p].pc == Finished(Miss) && t.slot == None && t.holder == None
      && t.quarantine == s.quarantine + (if s.slot.Some? then [s.slot.value] else [])
  {}

  /** What a publisher builds passes its own check, and so does a complete copy of a valid entry. */
  lemma StagedPasses(c: Rules, k: string, s: State, p: Pid)
    requires Sound(c) && Enabled(c, k, s, Check(p))
    requires
      || (s.procs[p].role.Publisher? && c.publishable(s.procs[p].role.src, s.procs[p].id)
          && s.procs[p].staged.value == c.build(s.procs[p].role.src, s.procs[p].id))
      || (s.slot == s.procs[p].staged && c.valid(s.slot.value, s.procs[p].id))
    ensures Apply(c, k, s, Check(p)) == Goto(s, p, Checked, s.procs[p].staged)
  {}

  /** Publish for one identity, then look for another. */
  function CollidingSteps(src: Source, id: Identity, other: Identity): seq<Step>
  {
    [Begin(0, Publisher(src), id), Acquire(0), Look(0), Build(0), Check(0), Move(0), Recheck(0),
     Begin(1, Importer(0), other), Acquire(1), Look(1)]
  }

  /** Two identities with one key: the second one's look throws out the first one's sound entry. */
  lemma CollisionEvicts(c: Rules, k: string, src: Source, id: Identity, other: Identity) returns (states: seq<State>)
    requires Sound(c) && c.publishable(src, id) && c.key(id) == c.key(other) == k && id != other
    ensures IsRun(c, k, states, CollidingSteps(src, id, other))
    ensures states[9].slot == Some(c.build(src, id)) && !states[9].touched
    ensures c.valid(states[9].slot.value, id)
    ensures states[10].slot == None
  {
    var e := c.build(src, id);
    assert c.valid(e, id) && !c.valid(e, other);
    var s0 := INIT;
    var s1 := Apply(c, k, s0, Begin(0, Publisher(src), id));
    var s2 := Apply(c, k, s1, Acquire(0));
    var s3 := Apply(c, k, s2, Look(0));
    var s4 := Apply(c, k, s3, Build(0));
    var s5 := Apply(c, k, s4, Check(0));
    var s6 := Apply(c, k, s5, Move(0));
    var s7 := Apply(c, k, s6, Recheck(0));
    var s8 := Apply(c, k, s7, Begin(1, Importer(0), other));
    var s9 := Apply(c, k, s8, Acquire(1));
    var s10 := Apply(c, k, s9, Look(1));
    assert s9.slot == Some(e) && !s9.touched && s10.slot == None;
    hide Apply, Enabled;
    states := [s0, s1, s2, s3, s4, s5, s6, s7, s8, s9, s10];
    assert IsRun(c, k, states, CollidingSteps(src, id, other));
  }

  /** Whatever happened before, a hit is a complete, unaltered entry of the identity that asked for it. */
  lemma HitsAreOwn(c: Rules, k: string, states: seq<State>, steps: seq<Step>, i: nat, p: Pid)
    requires Sound(c) && IsRun(c, k, states, steps) && i < |states|
    requires p in states[i].procs && states[i].procs[p].pc.Finished? && states[i].procs[p].pc.answer.Hit?
    ensures var e, id := states[i].procs[p].pc.answer.entry, states[i].procs[p].id;
      c.valid(e, id) && e.manifest.manifest.identity == id
  {
    RunInv(c, k, states, steps, i);
    assert ProcOk(c, k, states[i].slot, states[i].procs[p]);
  }

  /** A crash changes nothing anybody reads: it leaves its staging tree and frees the lock. */
  lemma CrashLeavesDebris(c: Rules, k: string, s: State, p: Pid)
    requires Sound(c) && Inv(c, k, s) && p in s.procs
    ensures var t := Apply(c, k, s, Crash(p));
      && t.slot == s.slot && t.privates == s.privates && t.quarantine == s.quarantine && t.moved == s.moved
      && t.debris == s.debris + (if s.procs[p].staged.Some? then [s.procs[p].staged.value] else [])
      && t.procs.Keys == s.procs.Keys - {p} && t.holder == (if InLock(s.procs[p].pc) then None else s.holder)
      && (forall q :: q != p && At(s, q, Waiting) && t.holder == None ==> Enabled(c, k, t, Acquire(q)))
  {}

  // ---- the cache is invisible to its caller -----------------------------------------

  /** Every readable manifest is the one that publishing the execution of its identity would write. */
  ghost predicate Honest(c: Rules, exec: Identity -> Source, e: Entry)
  {
    e.manifest.Readable? ==>
      var id := e.manifest.manifest.identity;
      c.publishable(exec(id), id) && e.manifest == c.build(exec(id), id).manifest
  }

  ghost predicate HonestProc(c: Rules, exec: Identity -> Source, q: Proc)
  {
    && (q.role.Publisher? ==> q.role.src == exec(q.id))
    && (q.staged.Some? ==> Honest(c, exec, q.staged.value))
    && (q.pc.Finished? && q.pc.answer.Hit? ==> Honest(c, exec, q.pc.answer.entry))
  }

  ghost predicate HonestState(c: Rules, exec: Identity -> Source, s: State)
  {
    && HonestFiles(c, exec, s)
    && (forall p :: p in s.procs ==> HonestProc(c, exec, s.procs[p]))
  }

  /** Publishers publish what they executed; damage leaves no manifest but a true one readable. */
  ghost predicate HonestStep(c: Rules, exec: Identity -> Source, step: Step)
  {
    && (step.Begin? && step.role.Publisher? ==> step.role.src == exec(step.id))
    && (step.Corrupt? && step.entry.Some? ==> Honest(c, exec, step.entry.value))
  }

  ghost predicate HonestFiles(c: Rules, exec: Identity -> Source, s: State)
  {
    && (s.slot.Some? ==> Honest(c, exec, s.slot.value))
    && (forall d :: d in s.privates ==> Honest(c, exec, s.privates[d]))
  }

  lemma HonestFilesKept(c: Rules, k: string, exec: Identity -> Source, s: State, step: Step)
    requires Sound(c) && HonestState(c, exec, s)
    requires Enabled(c, k, s, step) && HonestStep(c, exec, step)
    ensures HonestFiles(c, exec, Apply(c, k, s, step))
  {
    var t := Apply(c, k, s, step);
    if step.Move? {
      HonestMoved(c, k, exec, s, step.pid);
    } else if step.Corrupt? {
      assert t.privates == s.privates;
    } else {
      FilesOnlyShrink(c, k, s, step);
    }
  }

  /** Apart from moves and corruption, entries only disappear. */
  lemma FilesOnlyShrink(c: Rules, k: string, s: State, step: Step)
    requires Enabled(c, k, s, step) && !step.Move? && !step.Corrupt?
    ensures var t := Apply(c, k, s, step);
      && (t.slot == s.slot || t.slot.None?)
      && (forall d :: d in t.privates ==> d in s.privates && t.privates[d] == s.privates[d])
  {}

  lemma HonestMoved(c: Rules, k: string, exec: Identity -> Source, s: State, p: Pid)
    requires Sound(c) && HonestState(c, exec, s) && Enabled(c, k, s, Move(p))
    ensures HonestFiles(c, exec, Apply(c, k, s, Move(p)))
  {
    hide Honest;
    assert HonestProc(c, exec, s.procs[p]);
  }

  lemma BuiltIsHonest(c: Rules, exec: Identity -> Source, id: Identity)
    requires Sound(c) && c.publishable(exec(id), id)
    ensures Honest(c, exec, c.build(exec(id), id))
  {
    assert c.valid(c.build(exec(id), id), id);
  }

  lemma HonestStaging(c: Rules, k: string, exec: Identity -> Source, s: State, step: Step)
    requires Sound(c) && HonestState(c, exec, s) && Enabled(c, k, s, step)
    requires step.Build? || step.CopyFile? || step.CopyManifest?
    ensures HonestProc(c, exec, Apply(c, k, s, step).procs[step.pid])
  {
    var q := s.procs[step.pid];
    assert HonestProc(c, exec, q);
    if step.Build? {
      BuiltIsHonest(c, exec, q.id);
    }
  }

  lemma HonestLook(c: Rules, k: string, exec: Identity -> Source, s: State, p: Pid)
    requires HonestState(c, exec, s) && At(s, p, Locked)
    ensures HonestProc(c, exec, LookAsPublisher(c, s, p).procs[p])
    ensures forall d :: HonestProc(c, exec, LookAsImporter(c, s, p, d).procs[p])
  {
    hide Honest;
    assert HonestProc(c, exec, s.procs[p]);
    EmptyIsHonest(c, exec);
  }

  lemma HonestInLock(c: Rules, k: string, exec: Identity -> Source, s: State, step: Step)
    requires HonestState(c, exec, s) && Enabled(c, k, s, step)
    requires step.Check? || step.Move? || step.Recheck? || step.Fail?
    ensures HonestProc(c, exec, Apply(c, k, s, step).procs[step.pid])
  {
    hide Honest;
    assert HonestProc(c, exec, s.procs[step.pid]);
  }

  lemma HonestLooked(c: Rules, k: string, exec: Identity -> Source, s: State, p: Pid)
    requires HonestState(c, exec, s) && Enabled(c, k, s, Look(p))
    ensures HonestProc(c, exec, Apply(c, k, s, Look(p)).procs[p])
  {
    HonestLook(c, k, exec, s, p);
    hide HonestProc, LookAsPublisher, LookAsImporter;
  }

  lemma EmptyIsHonest(c: Rules, exec: Identity -> Source)
    ensures Honest(c, exec, EMPTY_TREE)
  {}

  lemma OthersUntouched(c: Rules, k: string, s: State, step: Step, p: Pid)
    requires Enabled(c, k, s, step) && p in Apply(c, k, s, step).procs
    requires step.Corrupt? || step.pid != p
    ensures p in s.procs && Apply(c, k, s, step).procs[p] == s.procs[p]
  {
  }

  lemma HonestOwnStep(c: Rules, k: string, exec: Identity -> Source, s: State, step: Step, p: Pid)
    requires Sound(c) && HonestState(c, exec, s)
    requires Enabled(c, k, s, step) && HonestStep(c, exec, step)
    requires p in Apply(c, k, s, step).procs
    ensures HonestProc(c, exec, Apply(c, k, s, step).procs[p])
  {
    if step.Corrupt? || step.pid != p {
      hide Apply, Enabled, HonestProc;
      OthersUntouched(c, k, s, step, p);
    } else if step.Begin? || step.Acquire? || step.Crash? {
      if p in s.procs {
        assert HonestProc(c, exec, s.procs[p]);
      }
    } else {
      hide Apply, Enabled, HonestProc;
      if step.Build? || step.CopyFile? || step.CopyManifest? {
        HonestStaging(c, k, exec, s, step);
      } else if step.Look? {
        HonestLooked(c, k, exec, s, p);
      } else {
        HonestInLock(c, k, exec, s, step);
      }
    }
  }

  lemma HonestStepKeeps(c: Rules, k: string, exec: Identity -> Source, s: State, step: Step)
    requires Sound(c) && HonestState(c, exec, s)
    requires Enabled(c, k, s, step) && HonestStep(c, exec, step)
    ensures HonestState(c, exec, Apply(c, k, s, step))
  {
    hide Apply, Enabled, Honest, HonestProc, HonestStep;
    HonestFilesKept(c, k, exec, s, step);
    var t := Apply(c, k, s, step);
    forall p | p in t.procs ensures HonestProc(c, exec, t.procs[p]) {
      HonestOwnStep(c, k, exec, s, step, p);
    }
  }

  lemma {:induction false} HonestRun(c: Rules, k: string, exec: Identity -> Source, states: seq<State>,
      steps: seq<Step>, i: nat)
    requires Sound(c) && IsRun(c, k, states, steps) && i < |states|
    requires forall n :: 0 <= n < |steps| ==> HonestStep(c, exec, steps[n])
    ensures HonestState(c, exec, states[i])
  {
    if i > 0 {
      HonestRun(c, k, exec, states, steps, i - 1);
      HonestStepKeeps(c, k, exec, states[i - 1], steps[i - 1]);
    }
  }

  /** What the caller scores: the imported predictions on a hit, its own execution otherwise. */
  function ReferencePredictions(exec: Identity -> Source, id: Identity, answer: Answer): string
  {
    if answer.Hit? && PREDICTIONS_PATH in answer.entry.files then answer.entry.files[PREDICTIONS_PATH]
    else exec(id).predictions
  }

  /** A hit carries the manifest its own identity's execution would have written. */
  lemma HitsAreTrue(c: Rules, k: string, exec: Identity -> Source, states: seq<State>, steps: seq<Step>, i: nat, p: Pid)
    requires Sound(c) && IsRun(c, k, states, steps) && i < |states|
    requires forall n :: 0 <= n < |steps| ==> HonestStep(c, exec, steps[n])
    requires p in states[i].procs && states[i].procs[p].pc.Finished? && states[i].procs[p].pc.answer.Hit?
    ensures var e, id := states[i].procs[p].pc.answer.entry, states[i].procs[p].id;
      c.valid(e, id) && c.publishable(exec(id), id) && e.manifest == c.build(exec(id), id).manifest
  {
    HitsAreOwn(c, k, states, steps, i, p);
    HonestRun(c, k, exec, states, steps, i);
    assert HonestProc(c, exec, states[i].procs[p]);
  }

  /**
    After any history of publications, imports, crashes, failures, quarantines and
    damage that forges no manifest, a run through the cache uses exactly the
    predictions of a run without it.
   */
  lemma CacheIsInvisible(w: World, k: string, exec: Identity -> Source, states: seq<State>, steps: seq<Step>, i: nat,
      p: Pid)
    requires Collisionless(w)
    requires IsRun(RulesOf(w), k, states, steps) && i < |states|
    requires forall n :: 0 <= n < |steps| ==> HonestStep(RulesOf(w), exec, steps[n])
    requires p in states[i].procs && states[i].procs[p].pc.Finished?
    ensures ReferencePredictions(exec, states[i].procs[p].id, states[i].procs[p].pc.answer)
         == exec(states[i].procs[p].id).predictions
    ensures states[i].procs[p].pc.answer.Hit? ==>
      states[i].procs[p].pc.answer.entry.files == SourceFiles(exec(states[i].procs[p].id))
  {
    var id, answer := states[i].procs[p].id, states[i].procs[p].pc.answer;
    if answer.Hit? {
      RulesOfSound(w);
      HitsAreTrue(RulesOf(w), k, exec, states, steps, i, p);
      assert Publishable(w, exec(id), id);
      BuiltEntryIsValid(w, exec(id), id);
      ManifestFixesFiles(w, answer.entry, BuildEntry(w, exec(id), id), id);
    }
  }

  // ---- a forged manifest is served -----------------------------------------------------

  /** A run that rewrites the entry with `e` or not at all. */
  ghost predicate Forging(c: Rules, k: string, states: seq<State>, steps: seq<Step>, e: Entry)
  {
    IsRun(c, k, states, steps) && forall i :: 0 <= i < |steps| && steps[i].Corrupt? ==> steps[i].entry == Some(e)
  }

  function Now(states: seq<State>): State
    requires states != []
  {
    states[|states| - 1]
  }

  /** One more step of a run. */
  lemma Onward(c: Rules, k: string, states: seq<State>, steps: seq<Step>, step: Step, e: Entry)
    returns (longer: seq<State>, more: seq<Step>)
    requires states != [] && Forging(c, k, states, steps, e) && Enabled(c, k, Now(states), step)
    requires step.Corrupt? ==> step.entry == Some(e)
    ensures longer != [] && Forging(c, k, longer, more, e) && Now(longer) == Apply(c, k, Now(states), step)
  {
    hide Enabled, Apply;
    longer, more := states + [Apply(c, k, Now(states), step)], steps + [step];
  }

  lemma RunStarts(c: Rules, k: string, e: Entry)
    ensures Forging(c, k, [INIT], [], e)
  {}

  /** A publisher gets the lock, finds nothing and stages its execution. */
  lemma Stage(c: Rules, k: string, src: Source, id: Identity, e: Entry)
    returns (states: seq<State>, steps: seq<Step>)
    requires Sound(c) && c.publishable(src, id) && c.key(id) == k
    ensures states != [] && Forging(c, k, states, steps, e)
    ensures var s := Now(states);
      && s.slot.None? && s.holder == Some(0) && s.privates == map[]
      && s.procs == map[0 := Proc(Publisher(src), id, Staging, Some(c.build(src, id)))]
  {
    hide Forging;
    RunStarts(c, k, e);
    states, steps := Onward(c, k, [INIT], [], Begin(0, Publisher(src), id), e);
    states, steps := Onward(c, k, states, steps, Acquire(0), e);
    states, steps := Onward(c, k, states, steps, Look(0), e);
    states, steps := Onward(c, k, states, steps, Build(0), e);
  }

  /** It publishes, and the adversary rewrites the entry with `e`. */
  lemma PublishAndForge(c: Rules, k: string, src: Source, id: Identity, e: Entry)
    returns (states: seq<State>, steps: seq<Step>)
    requires Sound(c) && c.publishable(src, id) && c.key(id) == k
    ensures states != [] && Forging(c, k, states, steps, e)
    ensures var s := Now(states);
      s.slot == Some(e) && s.holder.None? && s.procs.Keys == {0} && s.privates == map[]
  {
    hide Forging;
    states, steps := Stage(c, k, src, id, e);
    assert c.valid(c.build(src, id), id);
    states, steps := Onward(c, k, states, steps, Check(0), e);
    states, steps := Onward(c, k, states, steps, Move(0), e);
    states, steps := Onward(c, k, states, steps, Recheck(0), e);
    states, steps := Onward(c, k, states, steps, Corrupt(Some(e)), e);
  }

  /** The entry consists of three files and the directories above them. */
  predicate ThreeFiles(e: Entry, a: Path, b: Path, d: Path)
  {
    e.regular && e.files.Keys == {a, b, d} && e.directories == Parents(a) + Parents(b) + Parents(d)
  }

  /** An importer gets the lock and finds a valid entry. */
  lemma Arrive(c: Rules, k: string, states: seq<State>, steps: seq<Step>, id: Identity, e: Entry)
    returns (states': seq<State>, steps': seq<Step>)
    requires states != [] && Forging(c, k, states, steps, e) && c.key(id) == k && c.valid(e, id)
    requires var s := Now(states); s.slot == Some(e) && s.holder.None? && 1 !in s.procs && s.privates == map[]
    ensures states' != [] && Forging(c, k, states', steps', e) && At(Now(states'), 1, Staging)
    ensures var s := Now(states'); s.procs[1] == Proc(Importer(0), id, Staging, Some(EMPTY_TREE)) && s.slot == Some(e)
  {
    hide Forging;
    states', steps' := Onward(c, k, states, steps, Begin(1, Importer(0), id), e);
    states', steps' := Onward(c, k, states', steps', Acquire(1), e);
    states', steps' := Onward(c, k, states', steps', Look(1), e);
  }

  /** It copies the three files and the manifest. */
  lemma CopyThree(c: Rules, k: string, states: seq<State>, steps: seq<Step>, id: Identity, e: Entry,
      a: Path, b: Path, d: Path)
    returns (states': seq<State>, steps': seq<Step>)
    requires states != [] && Forging(c, k, states, steps, e) && ThreeFiles(e, a, b, d) && At(Now(states), 1, Staging)
    requires var s := Now(states); s.procs[1] == Proc(Importer(0), id, Staging, Some(EMPTY_TREE)) && s.slot == Some(e)
    ensures states' != [] && Forging(c, k, states', steps', e) && At(Now(states'), 1, Staging)
    ensures var s := Now(states'); s.procs[1] == Proc(Importer(0), id, Staging, Some(e)) && s.slot == Some(e)
  {
    hide Forging;
    states', steps' := Onward(c, k, states, steps, CopyFile(1, a), e);
    states', steps' := Onward(c, k, states', steps', CopyFile(1, b), e);
    states', steps' := Onward(c, k, states', steps', CopyFile(1, d), e);
    states', steps' := Onward(c, k, states', steps', CopyManifest(1), e);
    CopiedThree(e, a, b, d);
  }

  lemma CopiedThree(e: Entry, a: Path, b: Path, d: Path)
    requires ThreeFiles(e, a, b, d)
    ensures e == Entry(true, e.manifest, map[][a := e.files[a]][b := e.files[b]][d := e.files[d]],
                       {} + Parents(a) + Parents(b) + Parents(d))
  {
    assert e.files == map[][a := e.files[a]][b := e.files[b]][d := e.files[d]];
  }

  /**
    Damage that forges a valid entry, manifest included, is served: the caller scores with
    whatever predictions the adversary wrote.
   */
  lemma ForgeryIsServed(c: Rules, k: string, src: Source, id: Identity, e: Entry, a: Path, b: Path, d: Path)
    returns (states: seq<State>, steps: seq<Step>)
    requires Sound(c) && c.publishable(src, id) && c.key(id) == k && c.valid(e, id) && ThreeFiles(e, a, b, d)
    ensures Forging(c, k, states, steps, e)
    ensures states != [] && At(Now(states), 1, Finished(Hit(e))) && Now(states).procs[1].id == id
  {
    hide Forging;
    states, steps := PublishAndForge(c, k, src, id, e);
    states, steps := Arrive(c, k, states, steps, id, e);
    states, steps := CopyThree(c, k, states, steps, id, e, a, b, d);
    states, steps := Onward(c, k, states, steps, Check(1), e);
    states, steps := Onward(c, k, states, steps, Move(1), e);
    states, steps := Onward(c, k, states, steps, Recheck(1), e);
  }
}
