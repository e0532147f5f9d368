/** Legal transitions of runs and experiments, and the bounded repair policy. */
module Lifecycle {

  datatype RunState =
    | INITIALIZING | BASELINE_VERIFYING | SEARCHING | FINALIZING
    | COMPLETE | BASELINE_BLOCKED | BUDGET_EXHAUSTED | FATAL

  datatype ValidationPhase = DISCOVERY | FINALIST_LOCKED | OFFICIAL_EVALUATED

  datatype ExperimentState =
    | PROPOSED | WORKTREE_READY | PATCHED | STATIC_VALID | FIXTURE_VALID
    | CHEAP_RUNNING | CHEAP_COMPLETE | FULL_RESERVED | FULL_RUNNING | FULL_COMPLETE | DIAGNOSED
    | OFFICIAL_VALID_RUNNING | OFFICIAL_VALID_COMPLETE
    | CONFIRMING | CONFIRMED | SUBMISSION_BUILDING | SUBMISSION_VALID
    | PROMOTED | FAILED_REPAIRABLE | REPAIRING | REJECTED | ABANDONED | FAILED_FINAL

  function RunTransitions(s: RunState): set<RunState>
  {
    match s
    case INITIALIZING => {BASELINE_VERIFYING, BASELINE_BLOCKED, FATAL}
    case BASELINE_VERIFYING => {SEARCHING, BASELINE_BLOCKED, FATAL}
    case SEARCHING => {FINALIZING, BUDGET_EXHAUSTED, FATAL}
    case FINALIZING => {COMPLETE, FATAL, BUDGET_EXHAUSTED}
    case COMPLETE => {}
    case BASELINE_BLOCKED => {}
    case BUDGET_EXHAUSTED => {FINALIZING}
    case FATAL => {}
  }

  function ExperimentTransitions(s: ExperimentState): set<ExperimentState>
  {
    match s
    case PROPOSED => {WORKTREE_READY, REJECTED, ABANDONED}
    case WORKTREE_READY => {PATCHED, FAILED_REPAIRABLE, REJECTED}
    case PATCHED => {STATIC_VALID, FAILED_REPAIRABLE, REJECTED}
    case STATIC_VALID => {FIXTURE_VALID, FAILED_REPAIRABLE, REJECTED}
    case FIXTURE_VALID => {CHEAP_RUNNING, FAILED_REPAIRABLE, REJECTED}
    case CHEAP_RUNNING => {CHEAP_COMPLETE, FAILED_REPAIRABLE, FAILED_FINAL}
    case CHEAP_COMPLETE => {FULL_RESERVED, REJECTED, ABANDONED}
    case FULL_RESERVED => {FULL_RUNNING, FAILED_FINAL}
    case FULL_RUNNING => {FULL_COMPLETE, FAILED_REPAIRABLE, FAILED_FINAL}
    case FULL_COMPLETE => {DIAGNOSED, FAILED_FINAL}
    case DIAGNOSED => {OFFICIAL_VALID_RUNNING, CONFIRMING, REJECTED, ABANDONED}
    case OFFICIAL_VALID_RUNNING => {OFFICIAL_VALID_COMPLETE, FAILED_REPAIRABLE, FAILED_FINAL, ABANDONED}
    case OFFICIAL_VALID_COMPLETE => {PROMOTED, REJECTED, ABANDONED}
    case CONFIRMING => {CONFIRMED, REJECTED, FAILED_FINAL}
    case CONFIRMED => {SUBMISSION_BUILDING, REJECTED}
    case SUBMISSION_BUILDING => {SUBMISSION_VALID, FAILED_FINAL}
    case SUBMISSION_VALID => {PROMOTED, REJECTED}
    case FAILED_REPAIRABLE => {REPAIRING, FAILED_FINAL, ABANDONED}
    case REPAIRING => {PATCHED, CHEAP_RUNNING, FULL_RUNNING, OFFICIAL_VALID_RUNNING, FAILED_FINAL}
    case PROMOTED => {}
    case REJECTED => {}
    case ABANDONED => {}
    case FAILED_FINAL => {}
  }

  predicate Terminal(s: ExperimentState)
  {
    s == PROMOTED || s == REJECTED || s == ABANDONED || s == FAILED_FINAL
  }

  lemma TerminalHasNoWayOut(s: ExperimentState)
    ensures Terminal(s) <==> ExperimentTransitions(s) == {}
  {
    match s
    case PROPOSED => assert REJECTED in ExperimentTransitions(s);
    case WORKTREE_READY => assert REJECTED in ExperimentTransitions(s);
    case PATCHED => assert REJECTED in ExperimentTransitions(s);
    case STATIC_VALID => assert REJECTED in ExperimentTransitions(s);
    case FIXTURE_VALID => assert REJECTED in ExperimentTransitions(s);
    case CHEAP_RUNNING => assert FAILED_FINAL in ExperimentTransitions(s);
    case CHEAP_COMPLETE => assert REJECTED in ExperimentTransitions(s);
    case FULL_RESERVED => assert FAILED_FINAL in ExperimentTransitions(s);
    case FULL_RUNNING => assert FAILED_FINAL in ExperimentTransitions(s);
    case FULL_COMPLETE => assert FAILED_FINAL in ExperimentTransitions(s);
    case DIAGNOSED => assert REJECTED in ExperimentTransitions(s);
    case OFFICIAL_VALID_RUNNING => assert FAILED_FINAL in ExperimentTransitions(s);
    case OFFICIAL_VALID_COMPLETE => assert REJECTED in ExperimentTransitions(s);
    case CONFIRMING => assert REJECTED in ExperimentTransitions(s);
    case CONFIRMED => assert REJECTED in ExperimentTransitions(s);
    case SUBMISSION_BUILDING => assert FAILED_FINAL in ExperimentTransitions(s);
    case SUBMISSION_VALID => assert REJECTED in ExperimentTransitions(s);
    case FAILED_REPAIRABLE => assert FAILED_FINAL in ExperimentTransitions(s);
    case REPAIRING => assert FAILED_FINAL in ExperimentTransitions(s);
    case PROMOTED =>
    case REJECTED =>
    case ABANDONED =>
    case FAILED_FINAL =>
  }

  // ---- repairs ---------------------------------------------------------------

  datatype AttemptStatus =
    | SUCCESS | SYNTAX | IMPORT | CONTRACT | TIMEOUT | OOM | NAN | CRASH | INVALID_ARTIFACT | INTERRUPTED

  datatype RepairAction = RESUME | PATCH | REDUCE_WORKLOAD | TERMINAL

  predicate Repairable(s: AttemptStatus)
  {
    s != SUCCESS && s != CRASH
  }

  datatype RepairDecision = RepairDecision(repair: bool, repairNumber: nat)

  datatype RepairPlan = RepairPlan(repair: bool, consumesBudget: bool, repairNumber: nat, action: RepairAction)

  function DecideRepair(status: AttemptStatus, used: nat, maximum: nat): RepairDecision
  {
    if !Repairable(status) || used >= maximum then RepairDecision(false, used) else RepairDecision(true, used + 1)
  }

  function PlanRepair(status: AttemptStatus, used: nat, maximum: nat): RepairPlan
  {
    if status == INTERRUPTED then RepairPlan(true, false, used, RESUME)
    else if status == CRASH then RepairPlan(false, false, used, TERMINAL)
    else if !Repairable(status) || used >= maximum then RepairPlan(false, false, used, TERMINAL)
    else if status == TIMEOUT || status == OOM then RepairPlan(true, true, used + 1, REDUCE_WORKLOAD)
    else RepairPlan(true, true, used + 1, PATCH)
  }

  /**
    The typed plan and the plain decision agree except on interruptions, which
    resume without a repair; a plan that consumes budget never exceeds it.
   */
  lemma PlanMatchesDecision(status: AttemptStatus, used: nat, maximum: nat)
    ensures var plan, decision := PlanRepair(status, used, maximum), DecideRepair(status, used, maximum);
      && (status != INTERRUPTED ==> plan.repair == plan.consumesBudget == decision.repair)
      && (status != INTERRUPTED ==> plan.repairNumber == decision.repairNumber)
      && (plan.consumesBudget ==> plan.repairNumber == used + 1 <= maximum)
      && (plan.action == RESUME <==> status == INTERRUPTED)
      && (plan.repair <==> plan.action != TERMINAL)
      && (plan.action == REDUCE_WORKLOAD <==> plan.repair && (status == TIMEOUT || status == OOM))
      && (!plan.repair <==> status == SUCCESS || status == CRASH || (used >= maximum && status != INTERRUPTED))
  {}
}
