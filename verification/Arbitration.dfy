/** The gate between a model's plan and the deterministic decision
    (internal/domain/policy/arbitrate.go). Modes stay strings, as in the source. */
module Arbitration {
  import opened Common
  import opened FlowBalance

  const OFF := "off"
  const SHADOW := "shadow"
  const ON := "on"

  const MAX_PROPOSED_HEADS := 50

  datatype Source = Deterministic | Llm | Fallback

  datatype PlanProposal = PlanProposal(action: string, heads: int, rationale: string)

  datatype InvalidPlan = UnknownAction(action: string) | HeadsOutOfRange(heads: int) | HeadsWithoutAssign | EmptyRationale

  datatype FallbackReason = PlanError(error: string) | NoPlanProduced | Rejected(why: InvalidPlan)

  datatype Arbitrated = Arbitrated(decision: Decision, source: Source, agree: Option<bool>, reason: Option<FallbackReason>)

  function ParseLLMMode(raw: string): (r: Result<string, string>)
    ensures r.Ok? <==> raw in {"", OFF, SHADOW, ON}
    ensures r.Ok? ==> r.value in {OFF, SHADOW, ON} && (raw != "" ==> r.value == raw) && (raw == "" ==> r.value == OFF)
  {
    if raw == OFF || raw == SHADOW || raw == ON then Ok(raw)
    else if raw == "" then Ok(OFF)
    else Err(raw)
  }

  function ValidatePlan(p: PlanProposal): Option<InvalidPlan> {
    if p.action != ASSIGN_LABOR && p.action != RELEASE_NEXT_WORK && p.action != HOLD then Some(UnknownAction(p.action))
    else if p.heads < 0 || p.heads > MAX_PROPOSED_HEADS then Some(HeadsOutOfRange(p.heads))
    else if p.action != ASSIGN_LABOR && p.heads != 0 then Some(HeadsWithoutAssign)
    else if p.rationale == "" then Some(EmptyRationale)
    else None
  }

  /** The vocabulary and bounds an accepted plan is promised to respect. */
  predicate InVocabulary(p: PlanProposal) {
    && p.action in {ASSIGN_LABOR, RELEASE_NEXT_WORK, HOLD}
    && 0 <= p.heads <= MAX_PROPOSED_HEADS
    && (p.heads != 0 ==> p.action == ASSIGN_LABOR)
    && p.rationale != ""
  }

  function Arbitrate(det: Decision, plan: Option<PlanProposal>, planErr: Option<string>, mode: string): Arbitrated {
    var fallbackSource := if mode == ON then Fallback else Deterministic;
    if mode == OFF then
      Arbitrated(det, Deterministic, None, None)
    else if planErr.Some? then
      Arbitrated(det, fallbackSource, None, Some(PlanError(planErr.value)))
    else if plan.None? then
      Arbitrated(det, fallbackSource, None, Some(NoPlanProduced))
    else
      match ValidatePlan(plan.value)
      case Some(why) => Arbitrated(det, fallbackSource, None, Some(Rejected(why)))
      case None =>
        var agree := Some(plan.value.action == det.recommendedAction);
        if mode == SHADOW then
          Arbitrated(det, Deterministic, agree, None)
        else
          Arbitrated(
            det.(recommendedAction := plan.value.action, proposedHeads := plan.value.heads, rationale := ModelRationale(plan.value.rationale)),
            Llm, agree, None)
  }

  /** A plan is refused exactly outside the vocabulary, by the first rule it breaks. */
  lemma ValidPlansAreInVocabulary(p: PlanProposal)
    ensures ValidatePlan(p).None? <==> InVocabulary(p)
    ensures var known, inRange := p.action in {ASSIGN_LABOR, RELEASE_NEXT_WORK, HOLD}, 0 <= p.heads <= 50;
            match ValidatePlan(p)
            case None => true
            case Some(UnknownAction(action)) => !known && action == p.action
            case Some(HeadsOutOfRange(heads)) => known && !inRange && heads == p.heads
            case Some(HeadsWithoutAssign) => known && inRange && p.heads != 0 && p.action != ASSIGN_LABOR
            case Some(EmptyRationale) => known && inRange && (p.heads != 0 ==> p.action == ASSIGN_LABOR) && p.rationale == ""
  {
  }

  /** `after` is `before` with at most the lever, the head count and the reason replaced by the plan's own. */
  predicate ReplacedBy(after: Decision, before: Decision, p: PlanProposal) {
    && after.recommendedAction == p.action && after.proposedHeads == p.heads
    && after.rationale == ModelRationale(p.rationale)
    && after.pathId == before.pathId
    && after.partial == before.partial
    && after.missingSignals == before.missingSignals
    && after.evidence == before.evidence
    && after.utilization == before.utilization
  }

  /** The plan is adopted exactly when the mode is neither off nor shadow, no error came with it
      and it stays in the vocabulary; then it replaces only what a plan may replace. In every other
      case the deterministic decision comes back unchanged. The source label says which, and
      agreement is known exactly when a valid plan was available. */
  lemma ArbitrateIsTheOnlyGate(det: Decision, plan: Option<PlanProposal>, planErr: Option<string>, mode: string)
    ensures var out := Arbitrate(det, plan, planErr, mode);
            var available := planErr.None? && plan.Some? && InVocabulary(plan.value);
            && (out.source == Llm <==> mode !in {OFF, SHADOW} && available)
            && (out.source == Llm ==> ReplacedBy(out.decision, det, plan.value))
            && (out.source != Llm ==> out.decision == det)
            && (out.source == Fallback <==> mode == ON && !available)
            && (out.agree.Some? <==> mode != OFF && available)
            && (out.agree.Some? ==> out.agree.value == (plan.value.action == det.recommendedAction))
            && out.reason == if mode == OFF || available then None
                             else if planErr.Some? then Some(PlanError(planErr.value))
                             else if plan.None? then Some(NoPlanProduced)
                             else Some(Rejected(ValidatePlan(plan.value).value))
  {
    if plan.Some? { ValidPlansAreInVocabulary(plan.value); }
  }

  /** The constant's comment says the deterministic head count already respects the bound. It does
      not: three signals can propose any number of heads. */
  lemma DeterministicHeadsAreUnbounded(pathId: string)
    ensures var wes := RebalanceSignal(WES_SOURCE, pathId, REASSIGN_LABOR, 0, 0);
            var wfm := StaffingSignal(WFM_SOURCE, pathId, 51, 0, true);
            Decide(pathId, Some(wes), Some(wfm), None).proposedHeads > MAX_PROPOSED_HEADS
  {
  }

  /** Exactly when the bound holds of the deterministic decision: unless a confirmed labor gap wider
      than the bound is being assigned. */
  lemma DeterministicHeadsBound(pathId: string, wes: Option<RebalanceSignal>, wfm: Option<StaffingSignal>,
                                fe: Option<StuckTasksSignal>)
    ensures 0 <= Decide(pathId, wes, wfm, fe).proposedHeads <= MAX_PROPOSED_HEADS <==>
            !(wes.Some? && wes.value.action in {REASSIGN_LABOR, THROTTLE_UPSTREAM}
              && wfm.Some? && wfm.value.understaffed && wfm.value.plannedHeads - wfm.value.activeHeads > MAX_PROPOSED_HEADS)
  {
  }
}
