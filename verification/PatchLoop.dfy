/**
  The bounded patch attempts of one candidate: ask for a diff, apply it to an isolated
  worktree, check it, and on rejection go back to the clean parent before the next
  attempt.  Every durable act may be the last one before the process dies.
 */
module PatchLoop {
  import opened Options
  import opened Processes

  type Patch = string

  /** What the worktree holds: its files. */
  type Tree = map<string, string>

  /**
    The patch policy and git, about which nothing is assumed: `clean` when the status is
    empty, `holds` when a dirty tree passes for a diff, and the trees left by applying and
    by reversing a diff, if git accepts that.
   */
  datatype Git = Git(
    allowed: Patch -> bool, clean: Tree -> bool, apply: (Tree, Patch) -> Option<Tree>,
    holds: (Tree, Patch) -> bool, undo: (Tree, Patch) -> Option<Tree>)

  /** The diff was just applied to a clean tree, or a dirty tree was found to hold it. */
  ghost predicate Holding(g: Git, p: Patch, tree: Tree)
  {
    && g.allowed(p)
    && ((exists c :: g.clean(c) && g.apply(c, p) == Some(tree)) || (!g.clean(tree) && g.holds(tree, p)))
  }

  /** Reversing the diff leads from this tree to a clean one. */
  predicate Restores(g: Git, p: Patch, tree: Tree)
  {
    g.allowed(p) && g.undo(tree, p).Some? && g.clean(g.undo(tree, p).value)
  }

  /** Some tree that holds the diff cannot be cleaned by reversing it. */
  ghost predicate Irreversible(g: Git, p: Patch)
  {
    exists c :: Holding(g, p, c) && !g.clean(c) && !Restores(g, p, c)
  }

  datatype Stage = Contract | Audit | StaticGate | FixtureGate

  datatype Verdict = Pass | Refuse | Fatal

  /** What the provider and the checks answer at each moment. */
  datatype World = World(provide: nat -> Option<Patch>, check: (nat, Stage, Tree) -> Verdict)

  /** The provider always answers and no check fails for good. */
  ghost predicate Benign(w: World)
  {
    (forall t :: w.provide(t).Some?) && (forall t, s, c :: !w.check(t, s, c).Fatal?)
  }

  /** At some moment the provider gave nothing, or a check failed for good. */
  ghost predicate FailedIn(w: World, from: nat, now: nat)
  {
    || (exists t :: from <= t < now && w.provide(t).None?)
    || (exists t, s, c :: from <= t < now && w.check(t, s, c).Fatal?)
  }

  /** Every check passes. */
  ghost predicate Lenient(w: World)
  {
    forall t, s, c :: w.check(t, s, c).Pass?
  }

  datatype Attempt = Rejected(patch: Patch) | Accepted(patch: Patch)

  /** A check that passed: when it was asked, and about which tree. */
  datatype Proof = Proof(moment: nat, tree: Tree)

  /** Why a diff was rejected: it does not apply to a clean tree, or a check refused a tree that held it. */
  datatype Cause = Unapplied(tree: Tree) | Objection(stage: Stage, moment: nat, tree: Tree)

  /** A rejection: the tree when it was written, and why. */
  datatype Rejection = Rejection(tree: Tree, cause: Cause)

  /** The durable files and rows by attempt number, the worktree, and what is known about them. */
  datatype Ledger = Ledger(
    tree: Tree, responses: map<nat, Patch>, outcomes: map<nat, Attempt>, repairs: map<nat, bool>,
    asked: nat, decided: nat, reserved: nat, clock: nat,
    given: map<nat, nat>, passed: map<(nat, Stage), Proof>, rejections: map<nat, Rejection>)

  /** Each stored response is what the provider gave at a moment of its own, in the order of the attempts. */
  ghost predicate ProviderInv(l: Ledger, w: World)
  {
    && (forall i :: 1 <= i <= l.asked ==>
          i in l.responses && i in l.given && l.given[i] < l.clock && w.provide(l.given[i]) == Some(l.responses[i]))
    && (forall i, j :: 1 <= i < j <= l.asked ==> i in l.given && j in l.given && l.given[i] < l.given[j])
  }

  /** Rejections in a row, then at most one acceptance, each about the stored response. */
  ghost predicate OutcomesInv(l: Ledger, maximum: nat)
  {
    && (forall i :: i in l.responses <==> 1 <= i <= l.asked)
    && (forall i :: i in l.outcomes <==> 1 <= i <= l.decided)
    && l.decided <= l.asked <= l.decided + 1 && l.asked <= maximum + 1
    && (forall i :: 1 <= i <= l.decided ==> l.outcomes[i].patch == l.responses[i])
    && (forall i :: 1 <= i <= l.decided && l.outcomes[i].Accepted? ==> i == l.decided == l.asked)
  }

  /** The check of this stage answered that the tree passes, while the tree held the attempt's diff. */
  ghost predicate Proven(l: Ledger, g: Git, w: World, i: nat, s: Stage)
  {
    && (i, s) in l.passed && i in l.responses
    && var proof := l.passed[(i, s)];
    && proof.moment < l.clock && w.check(proof.moment, s, proof.tree) == Pass
    && Holding(g, l.responses[i], proof.tree)
  }

  /** Two checks passed one tree, one after the other. */
  predicate InTurn(l: Ledger, i: nat, first: Stage, second: Stage)
  {
    && (i, first) in l.passed && (i, second) in l.passed
    && l.passed[(i, first)].moment < l.passed[(i, second)].moment
    && l.passed[(i, first)].tree == l.passed[(i, second)].tree
  }

  /** The contract, the audit, the static gate and the fixture gate passed, in turn, one tree that held the diff. */
  ghost predicate Gated(l: Ledger, g: Git, w: World, i: nat)
  {
    && Proven(l, g, w, i, Contract) && Proven(l, g, w, i, Audit)
    && Proven(l, g, w, i, StaticGate) && Proven(l, g, w, i, FixtureGate)
    && InTurn(l, i, Contract, Audit) && InTurn(l, i, Audit, StaticGate) && InTurn(l, i, StaticGate, FixtureGate)
  }

  /** The cause of a rejection happened: the diff could not be applied, or a check refused it. */
  ghost predicate Happened(g: Git, w: World, clock: nat, p: Patch, cause: Cause)
  {
    match cause
    case Unapplied(tree) => g.clean(tree) && !(g.allowed(p) && g.apply(tree, p).Some?)
    case Objection(stage, moment, tree) =>
      moment < clock && w.check(moment, stage, tree) == Refuse && Holding(g, p, tree)
  }

  /** Rejections have a cause and were written at a clean tree, acceptances after all checks. */
  ghost predicate EvidenceInv(l: Ledger, g: Git, w: World)
  {
    && (forall i :: i in l.outcomes && l.outcomes[i].Rejected? ==>
          && i in l.rejections && g.clean(l.rejections[i].tree)
          && Happened(g, w, l.clock, l.outcomes[i].patch, l.rejections[i].cause))
    && (forall i :: i in l.outcomes && l.outcomes[i].Accepted? ==> Gated(l, g, w, i))
  }

  /** A rejected diff did not apply to a clean tree, or some check refused a tree that held it. */
  lemma RejectedForCause(l: Ledger, g: Git, w: World, i: nat)
    requires EvidenceInv(l, g, w) && i in l.outcomes && l.outcomes[i].Rejected?
    ensures var p := l.outcomes[i].patch;
      || (exists tree :: g.clean(tree) && (!g.allowed(p) || g.apply(tree, p).None?))
      || (exists t: nat, s, tree :: t < l.clock && w.check(t, s, tree) == Refuse && Holding(g, p, tree))
  {
    hide Holding;
    assert Happened(g, w, l.clock, l.outcomes[i].patch, l.rejections[i].cause);
  }

  /** An accepted diff had one tree that passed all four checks, one after the other. */
  lemma AcceptedAfterChecks(l: Ledger, g: Git, w: World, i: nat)
    returns (tree: Tree, contract: nat, audit: nat, gate: nat, last: nat)
    requires EvidenceInv(l, g, w) && i in l.outcomes && l.outcomes[i].Accepted?
    ensures i in l.responses && Holding(g, l.responses[i], tree) && contract < audit < gate < last < l.clock
    ensures w.check(contract, Contract, tree) == Pass && w.check(audit, Audit, tree) == Pass
    ensures w.check(gate, StaticGate, tree) == Pass && w.check(last, FixtureGate, tree) == Pass
  {
    hide Holding;
    assert Gated(l, g, w, i);
    tree := l.passed[(i, Contract)].tree;
    contract, audit := l.passed[(i, Contract)].moment, l.passed[(i, Audit)].moment;
    gate, last := l.passed[(i, StaticGate)].moment, l.passed[(i, FixtureGate)].moment;
  }

  /** Repair j is reserved after rejection j and before response j + 1; only the newest may be incomplete. */
  ghost predicate RepairsInv(l: Ledger, maximum: nat)
  {
    && (forall j :: j in l.repairs <==> 1 <= j <= l.reserved)
    && l.reserved <= maximum && l.asked <= l.reserved + 1
    && (l.reserved >= 1 ==> l.reserved in l.outcomes && l.outcomes[l.reserved].Rejected?)
    && (forall j :: 1 <= j < l.reserved ==> l.repairs[j])
    && (forall j :: 1 <= j <= l.reserved && l.repairs[j] ==> j + 1 <= l.decided)
  }

  /** A tree is dirty only while the newest response may be applied and is not rejected. */
  ghost predicate TreeInv(l: Ledger, g: Git)
  {
    !g.clean(l.tree) ==>
      && l.asked >= 1 && l.asked in l.responses && g.allowed(l.responses[l.asked])
      && !(l.asked in l.outcomes && l.outcomes[l.asked].Rejected?)
  }

  ghost predicate Inv(l: Ledger, g: Git, w: World, maximum: nat)
  {
    OutcomesInv(l, maximum) && ProviderInv(l, w) && EvidenceInv(l, g, w) && RepairsInv(l, maximum) && TreeInv(l, g)
  }

  /** The durable files only grow. */
  ghost predicate Grown(a: Ledger, b: Ledger)
  {
    && (forall i :: i in a.responses ==> i in b.responses && b.responses[i] == a.responses[i])
    && (forall i :: i in a.outcomes ==> i in b.outcomes && b.outcomes[i] == a.outcomes[i])
    && (forall j :: j in a.repairs ==> j in b.repairs && (a.repairs[j] ==> b.repairs[j]))
    && a.asked <= b.asked && a.decided <= b.decided && a.reserved <= b.reserved && a.clock <= b.clock
  }

  lemma GrownChains(a: Ledger, b: Ledger, c: Ledger)
    requires Grown(a, b) && Grown(b, c)
    ensures Grown(a, c)
  {}

  /**
    The tree in which the newest attempt is taken up again.  A dirty tree is first
    reversed by the first rejected diff, although a later one made it.
   */
  function TakenUp(l: Ledger, g: Git): Option<Tree>
  {
    if g.clean(l.tree) || l.asked <= 1 then Some(l.tree)
    else if 1 in l.responses && Restores(g, l.responses[1], l.tree) then g.undo(l.tree, l.responses[1])
    else None
  }

  /**
    The attempts cannot be taken up again: the first rejected diff does not clean the
    tree, or the tree does not pass for the newest diff, or an accepted diff does not apply.
   */
  predicate Wedged(l: Ledger, g: Git)
  {
    l.asked in l.responses &&
    match TakenUp(l, g)
    case None => true
    case Some(tree) =>
      if g.clean(tree) then
        l.asked in l.outcomes && l.outcomes[l.asked].Accepted? && g.apply(tree, l.responses[l.asked]).None?
      else !g.holds(tree, l.responses[l.asked])
  }

  /** The attempts before `attempt` are rejected, their repairs completed, and the tree is clean again. */
  ghost predicate Passed(l: Ledger, g: Git, attempt: nat)
  {
    && attempt >= 1 && attempt - 1 <= l.decided
    && (forall i :: 1 <= i < attempt ==> i in l.outcomes && l.outcomes[i].Rejected?)
    && (attempt > 1 ==> g.clean(l.tree))
    && (forall j :: 1 <= j < attempt - 1 ==> j in l.repairs && l.repairs[j])
  }

  /** What is on disk for the next attempt, or may be written for it. */
  lemma NextUp(l: Ledger, g: Git, w: World, maximum: nat, i: nat)
    requires Inv(l, g, w, maximum) && Passed(l, g, i) && i <= maximum + 1
    ensures i > 1 && i - 1 !in l.repairs ==>
      i - 1 == l.reserved + 1 <= l.decided && (l.reserved >= 1 ==> l.reserved in l.repairs && l.repairs[l.reserved])
    ensures i !in l.responses ==>
      && i == l.asked + 1 == l.decided + 1 && g.clean(l.tree) && (i > 1 && i - 1 in l.repairs ==> l.asked <= l.reserved)
      && forall j :: 1 <= j <= l.decided ==> j in l.outcomes && l.outcomes[j].Rejected?
    ensures i in l.responses && i > 1 ==> i - 1 in l.repairs
  {
    hide EvidenceInv;
  }

  // ---- what each durable act keeps ---------------------------------------------------

  function Start(tree: Tree): Ledger
  {
    Ledger(tree, map[], map[], map[], 0, 0, 0, 0, map[], map[], map[])
  }

  function Repaired(l: Ledger): Ledger
  {
    l.(repairs := l.repairs[l.reserved + 1 := false], reserved := l.reserved + 1)
  }

  function Asked(l: Ledger, p: Patch): Ledger
  {
    l.(responses := l.responses[l.asked + 1 := p], asked := l.asked + 1,
       given := l.given[l.asked + 1 := if l.clock > 0 then l.clock - 1 else 0])
  }

  function Refused(l: Ledger, cause: Cause): Ledger
    requires l.asked in l.responses
  {
    l.(outcomes := l.outcomes[l.asked := Rejected(l.responses[l.asked])], decided := l.asked,
       rejections := l.rejections[l.asked := Rejection(l.tree, cause)])
  }

  function Adopted(l: Ledger): Ledger
    requires l.asked in l.responses
  {
    l.(outcomes := l.outcomes[l.asked := Accepted(l.responses[l.asked])], decided := l.asked)
  }

  lemma StartHolds(tree: Tree, g: Git, w: World, maximum: nat)
    requires g.clean(tree)
    ensures Inv(Start(tree), g, w, maximum)
  {}

  lemma AskKeepsOutcomes(l: Ledger, maximum: nat, p: Patch)
    requires OutcomesInv(l, maximum) && l.asked == l.decided <= maximum
    requires forall i :: 1 <= i <= l.decided ==> l.outcomes[i].Rejected?
    ensures OutcomesInv(Asked(l, p), maximum) && l.asked + 1 !in l.responses && l.asked + 1 !in l.outcomes
  {}

  lemma AskKeepsRepairs(l: Ledger, maximum: nat, p: Patch)
    requires RepairsInv(l, maximum) && l.asked <= l.reserved
    ensures RepairsInv(Asked(l, p), maximum)
  {}

  lemma AskKeeps(l: Ledger, g: Git, w: World, maximum: nat, p: Patch)
    requires Inv(l, g, w, maximum) && l.asked == l.decided <= maximum && l.asked <= l.reserved && g.clean(l.tree)
    requires forall i :: 1 <= i <= l.decided ==> l.outcomes[i].Rejected?
    requires l.clock > 0 && w.provide(l.clock - 1) == Some(p)
    requires forall i :: 1 <= i <= l.asked ==> i in l.given && l.given[i] < l.clock - 1
    ensures Inv(Asked(l, p), g, w, maximum) && Grown(l, Asked(l, p))
  {
    hide OutcomesInv, EvidenceInv, RepairsInv, Gated, ProviderInv, Happened;
    AskKeepsRepairs(l, maximum, p);
    AskKeepsOutcomes(l, maximum, p);
    AllAnswered(l, maximum);
    AskKeepsProvider(l, w, p);
    EvidenceStays(l, Asked(l, p), g, w);
  }

  /** Proofs of an attempt stay proofs while time passes and its response and checks are kept. */
  lemma GatedStays(l: Ledger, m: Ledger, g: Git, w: World, i: nat)
    requires Gated(l, g, w, i) && l.clock <= m.clock && i in m.responses && m.responses[i] == l.responses[i]
    requires forall s :: (i, s) in l.passed ==> (i, s) in m.passed && m.passed[(i, s)] == l.passed[(i, s)]
    ensures Gated(m, g, w, i)
  {
    hide Holding;
  }

  lemma ProviderStays(l: Ledger, m: Ledger, w: World)
    requires ProviderInv(l, w) && l.clock <= m.clock
    requires m.asked == l.asked && m.responses == l.responses && m.given == l.given
    ensures ProviderInv(m, w)
  {}

  lemma AskKeepsProvider(l: Ledger, w: World, p: Patch)
    requires ProviderInv(l, w) && l.clock > 0 && w.provide(l.clock - 1) == Some(p)
    requires forall i :: 1 <= i <= l.asked ==> i in l.given && l.given[i] < l.clock - 1
    ensures ProviderInv(Asked(l, p), w)
  {}

  /** Attempts keep the evidence of their outcomes. */
  lemma EvidenceStays(l: Ledger, m: Ledger, g: Git, w: World)
    requires EvidenceInv(l, g, w) && l.clock <= m.clock
    requires forall i :: i in m.outcomes ==> i in m.responses && (i in l.outcomes ==>
      i in l.responses && m.responses[i] == l.responses[i] && m.outcomes[i] == l.outcomes[i])
    requires forall k :: k in l.passed && k.0 in l.outcomes ==> k in m.passed && m.passed[k] == l.passed[k]
    requires forall i :: i in l.rejections && i in l.outcomes ==>
      i in m.rejections && m.rejections[i] == l.rejections[i]
    requires forall i :: i in m.outcomes && i !in l.outcomes ==>
      if m.outcomes[i].Accepted? then Gated(m, g, w, i)
      else && i in m.rejections && g.clean(m.rejections[i].tree)
           && Happened(g, w, m.clock, m.outcomes[i].patch, m.rejections[i].cause)
    ensures EvidenceInv(m, g, w)
  {
    hide Gated, Holding;
    forall i | i in m.outcomes && m.outcomes[i].Accepted? ensures Gated(m, g, w, i) {
      if i in l.outcomes {
        GatedStays(l, m, g, w, i);
      }
    }
  }

  lemma RefuseKeepsRepairs(l: Ledger, cause: Cause, maximum: nat)
    requires RepairsInv(l, maximum) && l.asked in l.responses && l.asked == l.decided + 1
    ensures RepairsInv(Refused(l, cause), maximum)
  {}

  lemma RefuseKeepsOutcomes(l: Ledger, cause: Cause, maximum: nat)
    requires OutcomesInv(l, maximum) && l.asked == l.decided + 1
    ensures l.asked in l.responses && l.asked !in l.outcomes && OutcomesInv(Refused(l, cause), maximum)
  {
    assert forall i :: i in l.outcomes ==> l.outcomes[i].Rejected?;
  }

  lemma AllAnswered(l: Ledger, maximum: nat)
    requires OutcomesInv(l, maximum)
    ensures forall i :: i in l.outcomes ==> i in l.responses
  {}

  lemma RefuseKeeps(l: Ledger, cause: Cause, g: Git, w: World, maximum: nat)
    requires Inv(l, g, w, maximum) && l.asked == l.decided + 1 && g.clean(l.tree)
    requires l.asked in l.responses ==> Happened(g, w, l.clock, l.responses[l.asked], cause)
    ensures l.asked in l.responses && Inv(Refused(l, cause), g, w, maximum) && Grown(l, Refused(l, cause))
  {
    hide OutcomesInv, EvidenceInv, RepairsInv, Happened, ProviderInv;
    RefuseKeepsOutcomes(l, cause, maximum);
    AllAnswered(l, maximum);
    EvidenceStays(l, Refused(l, cause), g, w);
    ProviderStays(l, Refused(l, cause), w);
    RefuseKeepsRepairs(l, cause, maximum);
  }

  lemma AdoptKeepsOutcomes(l: Ledger, maximum: nat)
    requires OutcomesInv(l, maximum) && l.asked == l.decided + 1
    ensures l.asked in l.responses && l.asked !in l.outcomes && OutcomesInv(Adopted(l), maximum)
  {
    assert forall i :: i in l.outcomes ==> l.outcomes[i].Rejected?;
  }

  lemma AdoptKeepsRepairs(l: Ledger, maximum: nat)
    requires RepairsInv(l, maximum) && l.asked in l.responses && l.asked == l.decided + 1 && l.asked !in l.outcomes
    ensures RepairsInv(Adopted(l), maximum)
  {}

  lemma AdoptKeeps(l: Ledger, g: Git, w: World, maximum: nat)
    requires Inv(l, g, w, maximum) && l.asked == l.decided + 1 && l.asked in l.responses
    requires Gated(l, g, w, l.asked)
    ensures Inv(Adopted(l), g, w, maximum) && Grown(l, Adopted(l))
  {
    hide OutcomesInv, EvidenceInv, RepairsInv, Gated, ProviderInv, Happened;
    AdoptKeepsOutcomes(l, maximum);
    AdoptKeepsRepairs(l, maximum);
    AllAnswered(l, maximum);
    GatedStays(l, Adopted(l), g, w, l.asked);
    EvidenceStays(l, Adopted(l), g, w);
    ProviderStays(l, Adopted(l), w);
  }

  lemma CompleteKeeps(l: Ledger, g: Git, w: World, maximum: nat, j: nat)
    requires Inv(l, g, w, maximum) && j in l.repairs && j + 1 <= l.decided
    ensures var m := l.(repairs := l.repairs[j := true]); Inv(m, g, w, maximum) && Grown(l, m)
  {
    hide EvidenceInv, Gated, ProviderInv, Happened;
    EvidenceStays(l, l.(repairs := l.repairs[j := true]), g, w);
    ProviderStays(l, l.(repairs := l.repairs[j := true]), w);
  }

  lemma ReserveKeepsRepairs(l: Ledger, maximum: nat)
    requires RepairsInv(l, maximum) && l.reserved + 1 <= l.decided && l.reserved + 1 <= maximum
    requires l.reserved + 1 in l.outcomes && l.outcomes[l.reserved + 1].Rejected?
    requires l.reserved >= 1 ==> l.repairs[l.reserved]
    ensures RepairsInv(Repaired(l), maximum)
  {}

  lemma ReserveKeepsTree(l: Ledger, g: Git)
    requires TreeInv(l, g)
    ensures TreeInv(Repaired(l), g)
  {}

  lemma ReserveKeeps(l: Ledger, g: Git, w: World, maximum: nat)
    requires Inv(l, g, w, maximum) && l.reserved + 1 <= l.decided && l.reserved + 1 <= maximum
    requires l.outcomes[l.reserved + 1].Rejected? && (l.reserved >= 1 ==> l.repairs[l.reserved])
    ensures Inv(Repaired(l), g, w, maximum) && Grown(l, Repaired(l))
  {
    hide RepairsInv, EvidenceInv, Gated, ProviderInv, Happened, TreeInv;
    ReserveKeepsTree(l, g);
    ReserveKeepsRepairs(l, maximum);
    EvidenceStays(l, Repaired(l), g, w);
    ProviderStays(l, Repaired(l), w);
    ReservedOnce(l, maximum);
  }

  lemma ReservedOnce(l: Ledger, maximum: nat)
    requires RepairsInv(l, maximum)
    ensures l.reserved + 1 !in l.repairs
  {}


  /** Time passes, and checks of the undecided attempt may have passed. */
  lemma CheckKeeps(l: Ledger, m: Ledger, g: Git, w: World, maximum: nat)
    requires Inv(l, g, w, maximum) && m == l.(clock := m.clock, passed := m.passed) && l.clock <= m.clock
    requires forall k :: k in l.passed && k.0 in l.outcomes ==> k in m.passed && m.passed[k] == l.passed[k]
    ensures Inv(m, g, w, maximum) && Grown(l, m)
  {
    hide EvidenceInv, Gated, ProviderInv, Happened;
    EvidenceStays(l, m, g, w);
    ProviderStays(l, m, w);
  }

  /** The tree may change while it is clean, or while the newest response may be in it. */
  lemma TreeKeeps(l: Ledger, g: Git, w: World, maximum: nat, tree: Tree)
    requires Inv(l, g, w, maximum)
    requires !g.clean(tree) ==>
      && l.asked in l.responses && g.allowed(l.responses[l.asked])
      && !(l.asked in l.outcomes && l.outcomes[l.asked].Rejected?)
    ensures Inv(l.(tree := tree), g, w, maximum) && Grown(l, l.(tree := tree))
  {
    hide EvidenceInv, Gated, ProviderInv, Happened;
    EvidenceStays(l, l.(tree := tree), g, w);
    ProviderStays(l, l.(tree := tree), w);
  }

  class Preparation {
    const maximum: nat
    const git: Git
    const world: World
    var tree: Tree
    /** Durable files and rows by attempt number; `repairs` says whether a reserved repair is completed. */
    var responses: map<nat, Patch>
    var outcomes: map<nat, Attempt>
    var repairs: map<nat, bool>
    var clock: nat
    var budget: Option<nat>
    ghost var asked: nat
    ghost var decided: nat
    ghost var reserved: nat
    /** The newest passing answer of each check about each attempt. */
    ghost var passed: map<(nat, Stage), Proof>
    /** When the provider gave each response, and why each rejection was written. */
    ghost var given: map<nat, nat>
    ghost var rejections: map<nat, Rejection>

    ghost function State(): Ledger
      reads this
    {
      Ledger(tree, responses, outcomes, repairs, asked, decided, reserved, clock, given, passed, rejections)
    }

    ghost predicate Valid()
      reads this
    {
      Inv(State(), git, world, maximum)
    }

    /** `parent` is the tree of the new worktree. */
    constructor (parent: Tree, maximum: nat, git: Git, world: World, budget: Option<nat>)
      requires git.clean(parent)
      ensures this.maximum == maximum && this.git == git && this.world == world && this.budget == budget
      ensures Valid() && State() == Start(parent)
    {
      this.maximum, this.git, this.world, this.budget, clock := maximum, git, world, budget, 0;
      tree, responses, outcomes, repairs := parent, map[], map[], map[];
      asked, decided, reserved, given, passed, rejections := 0, 0, 0, map[], map[], map[];
      StartHolds(parent, git, world, maximum);
    }

    /** One durable act. */
    method Spend() returns (o: Outcome<()>)
      modifies this`budget
      ensures o.Crash? <==> old(budget) == Some(0)
      ensures !o.Raise? && Later(old(budget), budget)
      ensures old(budget) == Some(1) ==> budget == Some(0)
    {
      if budget == Some(0) {
        return Crash;
      }
      budget := if budget.Some? then Some(budget.value - 1) else None;
      return Fine(());
    }

    /** Sound before and after, with nothing taken away. */
    twostate predicate Went(died: bool)
      reads this
    {
      && Valid() && Grown(old(State()), State()) && old(clock) <= clock
      && Later(old(budget), budget) && (died ==> old(budget).Some?)
    }

    // ---- the worktree ----------------------------------------------------------------

    /**
      `false` when the diff is refused by the policy or does not apply to the clean tree;
      an exception exactly when a dirty tree does not pass for it.
     */
    method ApplyOrVerify(i: nat) returns (o: Outcome<bool>)
      requires Valid() && i == asked && i in responses && (i in outcomes ==> outcomes[i].Accepted?)
      modifies this`tree, this`budget
      ensures Went(o.Crash?)
      ensures o.Raise? <==> !git.clean(old(tree)) && !git.holds(old(tree), responses[i])
      ensures !o.Fine? || !git.clean(old(tree)) ==> tree == old(tree)
      ensures o == Fine(true) ==> Holding(git, responses[i], tree)
      ensures o == Fine(false) <==>
        git.clean(old(tree)) && !(git.allowed(responses[i]) && git.apply(old(tree), responses[i]).Some?)
      ensures o == Fine(false) ==> tree == old(tree)
      ensures git.clean(old(tree)) && o == Fine(true) ==> Some(tree) == git.apply(old(tree), responses[i])
      ensures git.clean(old(tree)) && old(budget) == Some(1) && o == Fine(true) ==> budget == Some(0)
      ensures git.clean(old(tree)) && old(budget) == Some(1) ==> !o.Crash?
    {
      hide Grown, Inv, Gated, Proven, InTurn;
      GrownSelf(State());
      DirtyIsAllowed(State(), git, world, maximum);
      var p := responses[i];
      if !git.allowed(p) {
        return Fine(false);
      }
      if git.clean(tree) {
        if git.apply(tree, p).None? {
          return Fine(false);
        }
        TreeKeeps(State(), git, world, maximum, git.apply(tree, p).value);
        var _ :- Spend();
        tree := git.apply(tree, p).value;
        return Fine(true);
      }
      if !git.holds(tree, p) {
        return Raise;
      }
      return Fine(true);
    }

    /** Back to a clean tree: it succeeds exactly from a clean tree or one that the reversed diff cleans. */
    method RestoreRejected(p: Patch) returns (o: Outcome<()>)
      requires Valid()
      modifies this`tree, this`budget
      ensures Went(o.Crash?) && (o.Crash? ==> tree == old(tree))
      ensures !o.Crash? ==> (o.Fine? <==> git.clean(old(tree)) || Restores(git, p, old(tree)))
      ensures o.Fine? ==>
        git.clean(tree) && tree == if git.clean(old(tree)) then old(tree) else git.undo(old(tree), p).value
      ensures old(budget) == Some(0) ==> tree == old(tree) && (o.Fine? ==> git.clean(old(tree)))
      ensures git.clean(old(tree)) ==> budget == old(budget)
    {
      hide Inv, Grown;
      GrownSelf(State());
      if !git.clean(tree) {
        if !git.allowed(p) || git.undo(tree, p).None? {
          return Raise;
        }
        var next := git.undo(tree, p).value;
        DirtStays(State(), git, world, maximum, next);
        var _ :- Spend();
        tree := next;
      }
      if !git.clean(tree) {
        return Raise;
      }
      return Fine(());
    }

    // ---- one attempt -------------------------------------------------------------------

    /** All checks passed the tree as it is, since then. */
    twostate predicate GatedHere(i: nat)
      reads this
    {
      && Gated(State(), git, world, i) && passed[(i, FixtureGate)].tree == tree
      && old(clock) <= passed[(i, Contract)].moment
    }

    /** One question to a check, about the tree as it is. */
    method Check(i: nat, s: Stage) returns (o: Outcome<bool>)
      requires Valid() && i == asked == decided + 1 && i in responses
      modifies this`clock, this`passed
      ensures Went(false) && !o.Crash? && clock == old(clock) + 1
      ensures passed == if o == Fine(true) then old(passed)[(i, s) := Proof(old(clock), tree)] else old(passed)
      ensures var verdict := world.check(old(clock), s, tree);
        o == (if verdict.Pass? then Fine(true) else if verdict.Refuse? then Fine(false) else Raise)
    {
      hide Inv, Grown;
      Undecided(State(), git, world, maximum);
      ghost var before := State();
      var t := clock;
      clock := clock + 1;
      match world.check(t, s, tree) {
        case Fatal => o := Raise;
        case Refuse => o := Fine(false);
        case Pass =>
          o := Fine(true);
          passed := passed[(i, s) := Proof(t, tree)];
      }
      CheckKeeps(before, State(), git, world, maximum);
    }

    /** Two checks, the second only after the first passed; `why` is the objection of the one that refused. */
    method CheckTwo(i: nat, first: Stage, second: Stage) returns (o: Outcome<bool>, ghost why: Cause)
      requires Valid() && i == asked == decided + 1 && i in responses && Holding(git, responses[i], tree)
      modifies this`clock, this`passed
      ensures Went(false) && !o.Crash?
      ensures o == Fine(true) ==>
        && passed == old(passed)[(i, first) := Proof(old(clock), tree)][(i, second) := Proof(old(clock) + 1, tree)]
        && clock == old(clock) + 2
        && world.check(old(clock), first, tree) == Pass && world.check(old(clock) + 1, second, tree) == Pass
      ensures o == Fine(false) ==> Happened(git, world, clock, responses[i], why)
      ensures o.Raise? ==> FailedIn(world, old(clock), clock)
      ensures o == Fine(false) ==> !Lenient(world)
    {
      hide Inv, Holding, Grown, FailedIn;
      o := Check(i, first);
      why := Objection(first, clock - 1, tree);
      FatalFails(world, clock - 1, first, tree, old(clock), clock);
      if o == Fine(true) {
        ghost var passedFirst := State();
        o := Check(i, second);
        why := Objection(second, clock - 1, tree);
        FatalFails(world, clock - 1, second, tree, old(clock), clock);
        GrownChains(old(State()), passedFirst, State());
      }
    }

    /** The change contract, the audit and both gates, in this order, about the tree as it is. */
    method RunChecks(i: nat) returns (o: Outcome<bool>, ghost why: Cause)
      requires Valid() && i == asked == decided + 1 && i in responses && Holding(git, responses[i], tree)
      modifies this`clock, this`passed
      ensures Went(false) && !o.Crash?
      ensures o == Fine(true) ==> GatedHere(i)
      ensures o == Fine(false) ==> Happened(git, world, clock, responses[i], why)
      ensures o.Raise? ==> FailedIn(world, old(clock), clock)
      ensures o == Fine(false) ==> !Lenient(world)
    {
      hide Inv, Holding, Grown, Lenient, Gated, Happened, FailedIn;
      o, why := CheckTwo(i, Contract, Audit);
      if o == Fine(true) {
        ghost var audited := State();
        o, why := CheckTwo(i, StaticGate, FixtureGate);
        GrownChains(old(State()), audited, State());
        FailedLater(world, audited.clock, old(clock), clock);
        if o == Fine(true) {
          AllProven(State(), git, world, i, old(clock));
        }
      }
    }

    /** One question to the provider. */
    method Query() returns (answer: Option<Patch>)
      requires Valid()
      modifies this`clock
      ensures Went(false) && clock == old(clock) + 1 && answer == world.provide(old(clock))
      ensures forall i :: 1 <= i <= asked ==> i in given && given[i] < old(clock)
    {
      hide Inv, Grown;
      ghost var before := State();
      GivenBefore(before, git, world, maximum);
      answer := world.provide(clock);
      clock := clock + 1;
      CheckKeeps(before, State(), git, world, maximum);
    }

    /** Asks the provider for the diff of the next attempt and stores it. */
    method Ask(i: nat) returns (o: Outcome<()>)
      requires Valid() && i == asked + 1 == decided + 1 <= maximum + 1 && git.clean(tree) && asked <= reserved
      requires forall j :: 1 <= j <= decided ==> outcomes[j].Rejected?
      modifies this`responses, this`asked, this`given, this`budget, this`clock
      ensures Went(o.Crash?) && clock == old(clock) + 1
      ensures o.Raise? <==> world.provide(old(clock)).None?
      ensures if o.Fine? then asked == i && i in responses && world.provide(old(clock)) == Some(responses[i])
              else asked == old(asked) && responses == old(responses)
    {
      hide Inv, Grown, Asked;
      var answer := Query();
      if answer.None? {
        return Raise;
      }
      ghost var asking := State();
      AskKeeps(asking, git, world, maximum, answer.value);
      var paid := Spend();
      if paid.IsFailure() {
        return paid;
      }
      responses, asked, given := responses[i := answer.value], i, given[i := clock - 1];
      IsAsked(asking, State(), answer.value);
      GrownChains(old(State()), asking, State());
      return Fine(());
    }

    /** Completes the repair behind an attempt that has its outcome. */
    method CompleteRepair(j: nat) returns (o: Outcome<()>)
      requires Valid() && (j == 0 || j in repairs) && j + 1 <= decided
      modifies this`repairs, this`budget
      ensures Went(o.Crash?) && !o.Raise?
      ensures o.Fine? && j >= 1 ==> repairs[j]
      ensures repairs.Keys == old(repairs).Keys && forall k :: k in old(repairs) && old(repairs)[k] ==> repairs[k]
    {
      hide Inv, Grown;
      GrownSelf(State());
      if j >= 1 && !repairs[j] {
        CompleteKeeps(State(), git, world, maximum, j);
        var _ :- Spend();
        repairs := repairs[j := true];
      }
      return Fine(());
    }

    /** Writes a rejection, at a clean tree and for a cause. */
    method Reject(i: nat, ghost why: Cause) returns (o: Outcome<()>)
      requires Valid() && i == asked == decided + 1 && git.clean(tree) && (i == 1 || i - 1 in repairs)
      requires i in responses ==> Happened(git, world, clock, responses[i], why)
      modifies this`outcomes, this`decided, this`rejections, this`repairs, this`budget
      ensures Went(o.Crash?) && !o.Raise?
      ensures o.Fine? ==> decided == i && i in responses && i in outcomes && outcomes[i] == Rejected(responses[i])
      ensures o.Fine? && i >= 2 ==> i - 1 in repairs && repairs[i - 1]
      ensures repairs.Keys == old(repairs).Keys
      ensures old(budget) == Some(0) ==> o.Crash? && State() == old(State())
    {
      hide Inv, Grown, Passed, Wedged, Restores, Gated, EvidenceInv, Happened;
      GrownSelf(State());
      RefuseKeeps(State(), why, git, world, maximum);
      var paid := Spend();
      if paid.IsFailure() {
        return paid;
      }
      outcomes, decided := outcomes[i := Rejected(responses[i])], i;
      rejections := rejections[i := Rejection(tree, why)];
      ghost var written := State();
      o := CompleteRepair(i - 1);
      GrownChains(old(State()), written, State());
    }

    /** Writes the acceptance of a diff whose tree passed both gates. */
    method Accept(i: nat) returns (o: Outcome<()>)
      requires Valid() && i == asked == decided + 1 && i in responses && Gated(State(), git, world, i)
      requires i == 1 || i - 1 in repairs
      modifies this`outcomes, this`decided, this`repairs, this`budget
      ensures Went(o.Crash?) && !o.Raise?
      ensures o.Fine? ==> decided == i && i in outcomes && outcomes[i] == Accepted(responses[i])
      ensures old(budget) == Some(0) ==> o.Crash? && State() == old(State())
    {
      hide Inv, Grown, Gated, Passed, Wedged, Restores;
      GrownSelf(State());
      AdoptKeeps(State(), git, world, maximum);
      var paid := Spend();
      if paid.IsFailure() {
        return paid;
      }
      outcomes, decided := outcomes[i := Accepted(responses[i])], i;
      ghost var written := State();
      o := CompleteRepair(i - 1);
      GrownChains(old(State()), written, State());
    }

    /** The repair of attempt j + 1, reserved once with the next number. */
    method Reserve(j: nat) returns (o: Outcome<()>)
      requires Valid() && j in outcomes && outcomes[j].Rejected? && 1 <= j <= maximum
      requires
        || j in repairs
        || (j == reserved + 1 <= decided && (reserved >= 1 ==> reserved in repairs && repairs[reserved]))
      modifies this`repairs, this`reserved, this`budget
      ensures Went(o.Crash?) && !o.Raise?
      ensures o.Fine? ==> j in repairs
      ensures forall k :: k in old(repairs) ==> k in repairs && repairs[k] == old(repairs)[k]
    {
      hide Inv, Grown;
      GrownSelf(State());
      if j !in repairs {
        ReserveKeeps(State(), git, world, maximum);
        var _ :- Spend();
        repairs, reserved := repairs[j := false], j;
      }
      return Fine(());
    }

    /** Applies the diff and runs the checks; of what is durable only the tree changes. */
    method ApplyAndCheck(i: nat) returns (o: Outcome<bool>, ghost why: Cause)
      requires Valid() && i == asked == decided + 1 && i in responses && i !in outcomes
      modifies this`tree, this`clock, this`budget, this`passed
      ensures Went(o.Crash?)
      ensures !git.clean(old(tree)) && !git.holds(old(tree), responses[i]) ==> o.Raise?
      ensures o.Raise? ==>
        FailedIn(world, old(clock), clock) || (!git.clean(old(tree)) && !git.holds(old(tree), responses[i]))
      ensures o == Fine(false) ==> Happened(git, world, clock, responses[i], why)
      ensures o == Fine(true) ==> GatedHere(i) && Holding(git, responses[i], tree)
      ensures o == Fine(false) ==> git.clean(tree) || Holding(git, responses[i], tree)
      ensures o == Fine(false) ==> !Lenient(world) || !Applies(i)
      ensures DiesApplied(i) ==> Some(tree) == git.apply(old(tree), responses[i]) && budget == Some(0) && !o.Crash?
    {
      hide Inv, Grown, Holding, Gated, FailedIn;
      why := Unapplied(tree);
      o := ApplyOrVerify(i);
      if o.IsFailure() || !o.value {
        return;
      }
      ghost var there := State();
      o, why := RunChecks(i);
      GrownChains(old(State()), there, State());
    }

    /** The diff may be applied to the tree as it was. */
    twostate predicate Applies(i: nat)
      requires i in responses
      reads this
    {
      git.allowed(responses[i]) && git.apply(old(tree), responses[i]).Some?
    }

    /** One durable act is left, and it will be the application of diff `i`. */
    twostate predicate DiesApplied(i: nat)
      reads this
    {
      i in responses && old(budget) == Some(1) && git.clean(old(tree)) && Applies(i)
    }

    /** Back to a clean tree, then the rejection. */
    method TakeBack(i: nat, ghost why: Cause) returns (o: Outcome<()>)
      requires Valid() && i == asked == decided + 1 && i in responses && (i == 1 || i - 1 in repairs)
      requires Happened(git, world, clock, responses[i], why)
      modifies this`tree, this`outcomes, this`decided, this`rejections, this`repairs, this`budget
      ensures Went(o.Crash?)
      ensures !o.Crash? ==> (o.Fine? <==> git.clean(old(tree)) || Restores(git, responses[i], old(tree)))
      ensures o.Fine? ==>
        decided == i && i in responses && i in outcomes && outcomes[i] == Rejected(responses[i]) && git.clean(tree)
      ensures o.Fine? && i >= 2 ==> i - 1 in repairs && repairs[i - 1]
      ensures old(budget) == Some(0) ==> !o.Fine? && State() == old(State())
    {
      hide Inv, Grown;
      o := RestoreRejected(responses[i]);
      ghost var clean := State();
      if o.Fine? {
        o := Reject(i, why);
        GrownChains(old(State()), clean, State());
      }
    }

    /** An attempt without an outcome; `true` when its diff is accepted. */
    method TryAttempt(i: nat) returns (o: Outcome<bool>)
      requires Valid() && i == asked == decided + 1 && i in responses
      requires Behind(i) && (i > 1 ==> i - 1 in repairs)
      modifies this`tree, this`outcomes, this`decided, this`repairs, this`clock, this`budget, this`passed
      modifies this`rejections
      ensures Went(o.Crash?)
      ensures !git.clean(old(tree)) && !git.holds(old(tree), responses[i]) ==> o.Raise?
      ensures o.Raise? ==>
        || FailedIn(world, old(clock), clock) || (!git.clean(old(tree)) && !git.holds(old(tree), responses[i]))
        || Irreversible(git, responses[i])
      ensures o == Fine(true) ==>
        && decided == i && i in outcomes && outcomes[i] == Accepted(responses[i])
        && GatedHere(i) && Holding(git, responses[i], tree)
      ensures o == Fine(false) ==> decided == i && Behind(i + 1) && (!Lenient(world) || !Applies(i))
      ensures DiesApplied(i) ==>
        && !o.Fine? && Some(tree) == git.apply(old(tree), responses[i])
        && outcomes == old(outcomes) && decided == old(decided)
    {
      hide Inv, Grown, Passed, Holding, Gated, Restores, Irreversible, Happened, FailedIn, Lenient;
      Undecided(State(), git, world, maximum);
      ghost var why: Cause;
      var tried: Outcome<bool>;
      tried, why := ApplyAndCheck(i);
      ghost var before := State();
      if tried.IsFailure() {
        return tried;
      }
      var written: Outcome<()>;
      if tried.value {
        written := Accept(i);
        GatedStays(before, State(), git, world, i);
      } else {
        written := TakeBack(i, why);
        CannotGoBack(git, responses[i], before.tree);
      }
      GrownChains(old(State()), before, State());
      if written.IsFailure() {
        return written.PropagateFailure();
      }
      if !tried.value {
        StillBehind(old(State()), State(), git, i);
      }
      return Fine(tried.value);
    }

    ghost predicate Behind(attempt: nat)
      reads this
    {
      Passed(State(), git, attempt)
    }

    /** Makes sure attempt `i` has its repair and its response. */
    method Prepare(i: nat) returns (o: Outcome<()>)
      requires Valid() && Behind(i) && i <= maximum + 1
      modifies this`repairs, this`reserved, this`responses, this`asked, this`given, this`budget, this`clock
      ensures Went(o.Crash?) && (o.Raise? ==> FailedIn(world, old(clock), clock))
      ensures o.Fine? ==> Behind(i) && i in responses && (i > 1 ==> i - 1 in repairs)
      ensures if i in old(responses) then responses == old(responses) && asked == old(asked) && !o.Raise?
              else o.Fine? ==> asked == i && clock > old(clock) && world.provide(old(clock)) == Some(responses[i])
      ensures i == 1 && 1 in old(responses) ==> o.Fine?
    {
      hide Grown, Inv;
      GrownSelf(State());
      NextUp(State(), git, world, maximum, i);
      o := Fine(());
      if i > 1 {
        o := Reserve(i - 1);
        if o.IsFailure() {
          return;
        }
      }
      ghost var ready := State();
      NextUp(State(), git, world, maximum, i);
      if i !in responses {
        o := Ask(i);
        GrownChains(old(State()), ready, State());
      }
    }

    /** The tree for an attempt whose outcome is on disk: `true` when it was accepted. */
    method TakeUp(i: nat) returns (o: Outcome<bool>)
      requires Valid() && Behind(i) && i in outcomes
      modifies this`tree, this`budget
      ensures Went(o.Crash?)
      ensures o.Raise? ==> old(Wedged(State(), git))
      ensures o == Fine(true) ==> outcomes[i].Accepted? && i in responses && Holding(git, responses[i], tree)
      ensures o == Fine(true) ==> !old(Wedged(State(), git))
      ensures o == Fine(false) ==>
        outcomes[i].Rejected? && git.clean(tree) && Wedged(State(), git) == old(Wedged(State(), git))
    {
      hide Grown, Inv, Holding, Restores;
      RevisitFacts(State(), git, world, maximum, i);
      if outcomes[i].Accepted? {
        o := ApplyOrVerify(i);
        if o == Fine(false) {
          return Raise;
        }
      } else {
        var restored := RestoreRejected(responses[i]);
        if restored.IsFailure() {
          return restored.PropagateFailure();
        }
        RestoredAlike(old(State()), State(), git, i);
        return Fine(false);
      }
    }

    /** An attempt whose outcome is on disk: `true` when it was accepted. */
    method Revisit(i: nat) returns (o: Outcome<bool>)
      requires Valid() && Behind(i) && i in outcomes && (i > 1 ==> i - 1 in repairs)
      modifies this`tree, this`repairs, this`budget
      ensures Went(o.Crash?)
      ensures o.Raise? ==> old(Wedged(State(), git))
      ensures o == Fine(true) ==>
        && decided == i && i in responses && outcomes[i] == Accepted(responses[i]) && Holding(git, responses[i], tree)
        && Gated(State(), git, world, i) && !old(Wedged(State(), git))
      ensures o == Fine(false) ==> Behind(i + 1) && Wedged(State(), git) == old(Wedged(State(), git))
    {
      hide Grown, Inv, Holding, Restores, Gated;
      RevisitFacts(State(), git, world, maximum, i);
      var taken :- TakeUp(i);
      ghost var settled := State();
      var completed := CompleteRepair(i - 1);
      GrownChains(old(State()), settled, State());
      if completed.IsFailure() {
        return completed.PropagateFailure();
      }
      if taken {
        GatedStays(old(State()), State(), git, world, i);
      }
      return Fine(taken);
    }

    /** One turn of the loop: `true` when the attempt's diff is accepted and in the tree. */
    method Attend(i: nat) returns (o: Outcome<bool>)
      requires Valid() && Behind(i) && i <= maximum + 1
      modifies this`tree, this`responses, this`outcomes, this`repairs, this`clock, this`budget
      modifies this`asked, this`decided, this`reserved, this`given, this`passed, this`rejections
      ensures Went(o.Crash?)
      ensures o == Fine(true) ==>
        && decided == i && i in outcomes && i in responses && outcomes[i] == Accepted(responses[i])
        && Holding(git, responses[i], tree) && Gated(State(), git, world, i)
      ensures o == Fine(false) ==> Behind(i + 1) && Wedged(State(), git) == old(Wedged(State(), git))
      ensures o == Fine(true) ==> !old(Wedged(State(), git))
      ensures o.Raise? ==>
        || old(Wedged(State(), git)) || FailedIn(world, old(clock), clock)
        || (asked in responses && Irreversible(git, responses[asked]))
    {
      hide Grown, Inv, Holding, Restores, Gated, FailedIn;
      var ready := Prepare(i);
      if ready.IsFailure() {
        return ready.PropagateFailure();
      }
      ghost var prepared := State();
      DecidedOrNewest(prepared, git, world, maximum, i);
      PreparedAlike(old(State()), prepared, git, world, maximum, i);
      if i in outcomes {
        o := Revisit(i);
      } else {
        OpenWedge(prepared, git, i);
        o := TryAttempt(i);
        Settled(State(), git, i);
      }
      GrownChains(old(State()), prepared, State());
      FailedLater(world, prepared.clock, old(clock), clock);
    }

    /**
      All attempts, resumed from whatever is on disk.  Some(diff) was accepted after both
      gates passed a tree that held it, and is in the tree; None means every attempt was
      rejected.  Without a crash it raises exactly when it is wedged, unless the provider
      or a check fails for good, or a diff cannot be reversed in a tree that holds it.
     */
    method ApplyPatchAttempts() returns (o: Outcome<Option<Patch>>)
      requires Valid()
      modifies this`tree, this`responses, this`outcomes, this`repairs, this`clock, this`budget
      modifies this`asked, this`decided, this`reserved, this`given, this`passed, this`rejections
      ensures Went(o.Crash?)
      ensures o.Fine? && o.value.Some? ==>
        && decided in outcomes && outcomes[decided] == Accepted(o.value.value)
        && Holding(git, o.value.value, tree) && Gated(State(), git, world, decided)
      ensures o.Fine? && o.value.None? ==>
        git.clean(tree) && forall i :: 1 <= i <= maximum + 1 ==> i in outcomes && outcomes[i].Rejected?
      ensures old(Wedged(State(), git)) ==> !o.Fine?
      ensures o.Raise? ==>
        || old(Wedged(State(), git)) || FailedIn(world, old(clock), clock)
        || (asked in responses && Irreversible(git, responses[asked]))
      ensures old(budget).None? && Benign(world) && (forall p :: !Irreversible(git, p)) ==>
        (o.Raise? <==> old(Wedged(State(), git)))
    {
      hide Grown, Inv, Holding, Wedged, Gated, Irreversible, FailedIn, Benign;
      GrownSelf(State());
      for i := 1 to maximum + 2
        invariant Went(false) && Behind(i) && Wedged(State(), git) == old(Wedged(State(), git))
      {
        ghost var start := State();
        var accepted := Attend(i);
        GrownChains(old(State()), start, State());
        FailedLater(world, start.clock, old(clock), clock);
        BenignNeverFails(world, old(clock), clock);
        if accepted.IsFailure() {
          return accepted.PropagateFailure();
        }
        if accepted.value {
          return Fine(Some(responses[i]));
        }
      }
      AllRejected(State(), git, world, maximum);
      return Fine(None);
    }
  }

  lemma IsAsked(l: Ledger, m: Ledger, p: Patch)
    requires l.clock > 0
    requires m == l.(responses := l.responses[l.asked + 1 := p], asked := l.asked + 1,
                     given := l.given[l.asked + 1 := l.clock - 1])
    ensures m == Asked(l, p)
  {}

  lemma GivenBefore(l: Ledger, g: Git, w: World, maximum: nat)
    requires Inv(l, g, w, maximum)
    ensures forall i :: 1 <= i <= l.asked ==> i in l.given && l.given[i] < l.clock
  {}

  /** Four checks in a row that passed the tree are what acceptance asks for. */
  lemma AllProven(l: Ledger, g: Git, w: World, i: nat, start: nat)
    requires i in l.responses && Holding(g, l.responses[i], l.tree) && start + 4 == l.clock
    requires (i, Contract) in l.passed && (i, Audit) in l.passed
    requires (i, StaticGate) in l.passed && (i, FixtureGate) in l.passed
    requires l.passed[(i, Contract)] == Proof(start, l.tree) && l.passed[(i, Audit)] == Proof(start + 1, l.tree)
    requires l.passed[(i, StaticGate)] == Proof(start + 2, l.tree)
    requires l.passed[(i, FixtureGate)] == Proof(start + 3, l.tree)
    requires w.check(start, Contract, l.tree) == Pass && w.check(start + 1, Audit, l.tree) == Pass
    requires w.check(start + 2, StaticGate, l.tree) == Pass && w.check(start + 3, FixtureGate, l.tree) == Pass
    ensures Gated(l, g, w, i)
  {
    hide Holding;
  }

  lemma FatalFails(w: World, t: nat, s: Stage, c: Tree, from: nat, now: nat)
    requires from <= t < now
    ensures w.check(t, s, c).Fatal? ==> FailedIn(w, from, now)
  {}

  lemma FailedLater(w: World, from: nat, start: nat, now: nat)
    requires start <= from
    ensures FailedIn(w, from, now) ==> FailedIn(w, start, now)
  {}

  lemma BenignNeverFails(w: World, from: nat, now: nat)
    ensures Benign(w) ==> !FailedIn(w, from, now)
  {}

  lemma GrownSelf(l: Ledger)
    ensures Grown(l, l)
  {}

  lemma Undecided(l: Ledger, g: Git, w: World, maximum: nat)
    requires Inv(l, g, w, maximum) && l.asked == l.decided + 1
    ensures l.asked !in l.outcomes
  {
    hide EvidenceInv;
  }

  lemma CannotGoBack(g: Git, p: Patch, tree: Tree)
    requires g.clean(tree) || Holding(g, p, tree)
    ensures g.clean(tree) || Restores(g, p, tree) || Irreversible(g, p)
  {
    hide Holding, Restores;
  }

  lemma DirtyIsAllowed(l: Ledger, g: Git, w: World, maximum: nat)
    requires Inv(l, g, w, maximum)
    ensures !g.clean(l.tree) ==> l.asked in l.responses && g.allowed(l.responses[l.asked])
  {
    hide OutcomesInv, ProviderInv, EvidenceInv, RepairsInv;
  }

  /** A dirty tree may become any other while the newest response may be in it. */
  lemma DirtStays(l: Ledger, g: Git, w: World, maximum: nat, tree: Tree)
    requires Inv(l, g, w, maximum) && !g.clean(l.tree)
    ensures Inv(l.(tree := tree), g, w, maximum) && Grown(l, l.(tree := tree))
  {
    hide OutcomesInv, EvidenceInv, RepairsInv;
    TreeKeeps(l, g, w, maximum, tree);
  }

  lemma DecidedOrNewest(l: Ledger, g: Git, w: World, maximum: nat, i: nat)
    requires Inv(l, g, w, maximum) && i in l.responses
    ensures i in l.outcomes || (i == l.asked == l.decided + 1)
  {
    hide EvidenceInv;
  }

  /** Preparing an attempt does not decide whether the attempts can be taken up. */
  lemma PreparedAlike(l: Ledger, m: Ledger, g: Git, w: World, maximum: nat, i: nat)
    requires Inv(l, g, w, maximum) && Passed(l, g, i) && i <= maximum + 1 && m.tree == l.tree
    requires m.outcomes == l.outcomes
    requires if i in l.responses then m.responses == l.responses && m.asked == l.asked
             else m.asked == i && i in m.responses
    ensures Wedged(m, g) == Wedged(l, g)
  {
    hide EvidenceInv, RepairsInv, Restores;
    NextUp(l, g, w, maximum, i);
  }

  /** An undecided attempt cannot be taken up exactly when a dirty tree does not pass for its diff. */
  lemma OpenWedge(l: Ledger, g: Git, i: nat)
    requires i == l.asked && i in l.responses && i !in l.outcomes && Passed(l, g, i)
    ensures Wedged(l, g) <==> !g.clean(l.tree) && !g.holds(l.tree, l.responses[i])
  {}

  /** Taking up a rejected attempt does not decide whether the others can be taken up. */
  lemma RestoredAlike(l: Ledger, m: Ledger, g: Git, i: nat)
    requires m == l.(tree := m.tree) && i in l.responses && Passed(l, g, i) && (!g.clean(l.tree) ==> l.asked >= 2)
    requires if g.clean(l.tree) then m.tree == l.tree
             else Restores(g, l.responses[i], l.tree) && m.tree == g.undo(l.tree, l.responses[i]).value
    ensures Wedged(m, g) == Wedged(l, g)
  {}

  /** After a rejection the next attempt can begin. */
  lemma Settled(l: Ledger, g: Git, i: nat)
    requires i >= 1
    ensures Passed(l, g, i + 1) && i == l.asked ==> !Wedged(l, g)
  {}

  lemma AllRejected(l: Ledger, g: Git, w: World, maximum: nat)
    requires Inv(l, g, w, maximum) && Passed(l, g, maximum + 2)
    ensures !Wedged(l, g)
  {
    hide EvidenceInv;
  }

  lemma StillBehind(a: Ledger, b: Ledger, g: Git, i: nat)
    requires Passed(a, g, i) && Grown(a, b) && i in b.outcomes && b.outcomes[i].Rejected? && b.decided == i
    requires g.clean(b.tree) && (i >= 2 ==> i - 1 in b.repairs && b.repairs[i - 1])
    ensures Passed(b, g, i + 1)
  {}

  lemma RevisitFacts(l: Ledger, g: Git, w: World, maximum: nat, i: nat)
    requires Inv(l, g, w, maximum) && i in l.outcomes
    ensures i in l.responses && i <= l.decided && l.outcomes[i].patch == l.responses[i] && l.asked in l.responses
    ensures l.outcomes[i].Accepted? ==> i == l.asked == l.decided && g.allowed(l.responses[i]) && Gated(l, g, w, i)
    ensures l.outcomes[i].Rejected? && !g.clean(l.tree) ==> l.asked >= 2
  {
    hide RepairsInv;
  }

  // ---- how the attempts get wedged -----------------------------------------------------

  const PARENT: Tree := map[]

  function Made(p: Patch): Tree
  {
    map["model.py" := p]
  }

  /**
    A worktree with one file.  `seen`: the status shows the file; `passes`: a tree passes for
    the diff that made it, which it does not when git shows a new file as untracked.
   */
  function OneFile(seen: bool, passes: bool): Git
  {
    Git(
      _ => true, c => c == PARENT || !seen, (c, p) => if c == PARENT then Some(Made(p)) else None,
      (c, p) => passes && c == Made(p), (c, p) => if c == Made(p) then Some(PARENT) else None)
  }

  /** First diff `a`, then always `b`, and every check gives the same verdict. */
  function Steady(a: Patch, b: Patch, v: Verdict): World
  {
    World(t => Some(if t == 0 then a else b), (_, _, _) => v)
  }

  lemma SteadyChecks(a: Patch, b: Patch, v: Verdict)
    ensures v != Fatal ==> Benign(Steady(a, b, v)) && forall from, now :: !FailedIn(Steady(a, b, v), from, now)
    ensures v == Pass ==> Lenient(Steady(a, b, v))
    ensures v != Pass ==> forall l, g, i :: !Gated(l, g, Steady(a, b, v), i)
  {
    hide Holding;
  }

  lemma OneFileIsReversible(seen: bool, passes: bool, p: Patch)
    ensures forall c :: Holding(OneFile(seen, passes), p, c) ==> c == Made(p)
    ensures !Irreversible(OneFile(seen, passes), p) && Made(p) != PARENT && forall q :: Made(q) == Made(p) ==> q == p
  {
    assert Made(p)["model.py"] == p;
    assert forall q :: Made(q)["model.py"] == q;
  }

  /** The first diff was refused and taken back. */
  method RefuseFirst(maximum: nat, a: Patch, b: Patch) returns (p: Preparation)
    ensures fresh(p) && p.Valid() && p.Behind(2) && p.tree == PARENT && p.clock > 0 && p.budget.None?
    ensures p.asked == p.decided == 1 && 1 in p.responses && p.responses[1] == a
    ensures p.maximum == maximum && p.git == OneFile(true, true) && p.world == Steady(a, b, Refuse)
  {
    hide Inv, Holding, Irreversible, Benign, Lenient, Gated, Passed, Wedged, FailedIn;
    SteadyChecks(a, b, Refuse);
    OneFileIsReversible(true, true, a);
    p := new Preparation(PARENT, maximum, OneFile(true, true), Steady(a, b, Refuse), None);
    FirstIsNext(p.State(), p.git);
    var ready := p.Prepare(1);
    assert p.responses[1] == a;
    var accepted := p.TryAttempt(1);
    YesOrNo(accepted);
    SecondIsNext(p.State(), p.git);
  }

  lemma NotAskedYet(l: Ledger, g: Git, w: World, maximum: nat, i: nat)
    requires Inv(l, g, w, maximum) && i > l.asked
    ensures i !in l.responses
  {}

  lemma FirstIsNext(l: Ledger, g: Git)
    ensures Passed(l, g, 1)
  {}

  lemma SecondIsNext(l: Ledger, g: Git)
    ensures Passed(l, g, 2) ==> g.clean(l.tree)
  {}

  /** The second diff has been asked for. */
  method AskSecond(maximum: nat, a: Patch, b: Patch) returns (p: Preparation)
    requires maximum >= 1
    ensures fresh(p) && p.Valid() && p.Behind(2) && p.tree == PARENT
    ensures p.asked == 2 && p.decided == 1 && 1 in p.responses && 2 in p.responses && 1 in p.repairs
    ensures p.responses[1] == a && p.responses[2] == b
    ensures p.git == OneFile(true, true) && p.world == Steady(a, b, Refuse)
  {
    hide Inv, Holding, Irreversible, Benign, Lenient, Gated, Passed, FailedIn, Wedged;
    SteadyChecks(a, b, Refuse);
    p := RefuseFirst(maximum, a, b);
    NotAskedYet(p.State(), p.git, p.world, maximum, 2);
    var ready := p.Prepare(2);
  }

  /** The process dies with the second diff in the tree; the first one, rejected, cannot be reversed there. */
  method WedgeBySecondDiff(maximum: nat, a: Patch, b: Patch) returns (p: Preparation, o: Outcome<bool>)
    requires maximum >= 1 && a != b
    ensures fresh(p) && p.Valid() && o.Crash? && Benign(p.world)
    ensures p.asked == 2 && p.decided == 1 && Wedged(p.State(), p.git)
  {
    hide Inv, Holding, Irreversible, Benign, Lenient, Gated, Passed, FailedIn;
    SteadyChecks(a, b, Refuse);
    OneFileIsReversible(true, true, a);
    OneFileIsReversible(true, true, b);
    p := AskSecond(maximum, a, b);
    p.budget := Some(1);
    o := p.TryAttempt(2);
    assert p.tree == Made(b);
  }

  /** The process dies with the first diff in the tree, and the tree does not pass for it. */
  method WedgeByUntrackedFile(maximum: nat, a: Patch) returns (p: Preparation, o: Outcome<bool>)
    ensures fresh(p) && p.Valid() && o.Crash? && Benign(p.world)
    ensures p.asked == 1 && p.decided == 0 && Wedged(p.State(), p.git)
  {
    hide Inv, Holding, Irreversible, Benign, Lenient, Gated, FailedIn;
    SteadyChecks(a, a, Pass);
    p := new Preparation(PARENT, maximum, OneFile(true, false), Steady(a, a, Pass), None);
    OneFileIsReversible(true, false, a);
    var ready := p.Prepare(1);
    p.budget := Some(1);
    o := p.TryAttempt(1);
  }

  /** The process dies after an acceptance; the status does not show the file, so the diff is applied again. */
  method WedgeByIgnoredFile(maximum: nat, a: Patch) returns (p: Preparation, o: Outcome<bool>)
    ensures fresh(p) && p.Valid() && o == Fine(true) && Benign(p.world)
    ensures p.asked == 1 && p.decided == 1 && Wedged(p.State(), p.git)
  {
    hide Inv, Holding, Irreversible, Benign, Lenient, Gated, FailedIn;
    SteadyChecks(a, a, Pass);
    p := new Preparation(PARENT, maximum, OneFile(false, true), Steady(a, a, Pass), None);
    OneFileIsReversible(false, true, a);
    var ready := p.Prepare(1);
    assert p.responses[1] == a && p.git.apply(PARENT, a) == Some(Made(a));
    o := p.TryAttempt(1);
    YesOrNo(o);
  }
}
