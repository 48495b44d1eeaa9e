/** The flow-balance use case (internal/application/usecases/flow_balance_advisory.go):
    gather the signals, decide, add the utilization overlay, arbitrate. The readings and the
    reasoner's reply are parameters, so every statement holds for any upstream and any model. */
module Advisory {
  import opened Common
  import opened Ports
  import opened FlowBalance
  import opened Arbitration
  import opened Utilization

  const LP_SOURCE := "labor-performance.get_task_type_utilization"

  /** Everything one run reads upstream; `taskType` is the path's entry in PathTaskTypes. */
  datatype Upstream = Upstream(
    wes: Reading<RebalanceReading>,
    wfm: Reading<StaffingReading>,
    fe: Reading<StuckTasksReading>,
    lp: Reading<UtilizationReading>,
    taskType: Option<string>)

  /** What a Reason call returned; None when no reasoner is wired. */
  type Reply = Option<Result<Plan, string>>

  function RebalanceOf(r: Reading<RebalanceReading>): Result<Option<RebalanceSignal>, string> {
    if !r.Read? then Ok(None) else
    match ParseRebalanceAction(r.value.action)
    case Err(raw) => Err(raw)
    case Ok(action) => Ok(Some(RebalanceSignal(WES_SOURCE, r.value.pathId, action, r.value.backlogDepth, r.value.wip)))
  }

  function StaffingOf(r: Reading<StaffingReading>): Option<StaffingSignal> {
    if r.Read? then Some(StaffingSignal(WFM_SOURCE, r.value.pathId, r.value.plannedHeads, r.value.activeHeads, r.value.understaffed))
    else None
  }

  function ReasonsOf(tasks: seq<StuckTask>): seq<string> {
    seq(|tasks|, i requires 0 <= i < |tasks| => tasks[i].reason)
  }

  function StuckOf(r: Reading<StuckTasksReading>): Option<StuckTasksSignal> {
    if r.Read? then Some(StuckTasksSignal(FE_SOURCE, r.value.count, ReasonsOf(r.value.tasks))) else None
  }

  function UtilizationOf(r: Reading<UtilizationReading>, taskType: Option<string>): Option<UtilizationSignal> {
    if r.Read? && taskType.Some? && taskType.value != "" then
      var v := r.value;
      Some(UtilizationSignal(LP_SOURCE, v.taskType, v.associates, v.windowSeconds, v.taskSeconds, v.idleSeconds, v.openGapSeconds, v.pct))
    else None
  }

  function UtilizationEvidence(u: UtilizationSignal): EvidenceEntry {
    EvidenceEntry(u.source, UtilizationDetail(u.taskType, u.pct, u.idleSeconds, u.taskSeconds, u.windowSeconds))
  }

  /** The decision the rules alone reach; the error is an action outside the closed set. */
  function RulesOnly(pathId: string, up: Upstream): Result<Decision, string> {
    match RebalanceOf(up.wes)
    case Err(raw) => Err(raw)
    case Ok(wes) =>
      var d := Decide(pathId, wes, StaffingOf(up.wfm), StuckOf(up.fe));
      if wes.None? then Ok(d) else
      var util := UtilizationOf(up.lp, up.taskType);
      var evidence := if util.Some? then d.evidence + [UtilizationEvidence(util.value)] else d.evidence;
      Ok(d.(evidence := evidence, utilization := CorrelateUtilization(wes.value.backlogDepth, util)))
  }

  function ProposalOf(plan: Plan): PlanProposal { PlanProposal(plan.action, plan.heads, plan.rationale) }

  function Settle(det: Decision, mode: string, reply: Reply): Decision {
    if mode == "" || mode == OFF || reply.None? then det
    else
      match reply.value
      case Ok(plan) => Arbitrate(det, Some(ProposalOf(plan)), None, mode).decision
      case Err(e) => Arbitrate(det, None, Some(e), mode).decision
  }

  function Advise(pathId: string, up: Upstream, mode: string, reply: Reply): Result<Decision, string> {
    match RulesOnly(pathId, up)
    case Err(raw) => Err(raw)
    case Ok(det) => Ok(Settle(det, mode, reply))
  }

  // ----- the rules, over the readings alone -----

  /** The readings the rules turn on, when they were read. */
  function ActionRead(up: Upstream): Option<string> { if up.wes.Read? then Some(up.wes.value.action) else None }
  function UnderstaffedRead(up: Upstream): Option<bool> { if up.wfm.Read? then Some(up.wfm.value.understaffed) else None }
  function StuckRead(up: Upstream): Option<int> { if up.fe.Read? then Some(up.fe.value.count) else None }

  /** The utilization of a path is read only beside the anchor reading and only for a bound task type. */
  predicate UtilizationRead(up: Upstream) {
    up.wes.Read? && up.lp.Read? && up.taskType.Some? && up.taskType.value != ""
  }

  /** Lever, heads and reason follow from what was read. */
  ghost predicate DecidesOnReadings(d: Decision, up: Upstream) {
    var (action, understaffed, stuck) := (ActionRead(up), UnderstaffedRead(up), StuckRead(up));
    && (d.recommendedAction == ASSIGN_LABOR <==> Assigns(action, understaffed))
    && (d.recommendedAction == RELEASE_NEXT_WORK <==> Releases(action, understaffed, stuck))
    && (d.recommendedAction == HOLD <==> !Assigns(action, understaffed) && !Releases(action, understaffed, stuck))
    && (Assigns(action, understaffed) ==> CoversGap(d.proposedHeads, up.wfm.value.plannedHeads, up.wfm.value.activeHeads))
    && (!Assigns(action, understaffed) ==> d.proposedHeads == 0)
    && ReasonHolds(d.rationale, d.proposedHeads, d.partial, action, understaffed, stuck)
  }

  /** A partial decision lists, in order, the sources that were not read; any other lists none. */
  ghost predicate ListsUnread(d: Decision, up: Upstream) {
    var (w, s, f) := (if up.wes.Read? then 1 else 0, if up.wfm.Read? then 1 else 0, if up.fe.Read? then 1 else 0);
    var missing := d.missingSignals;
    && |missing| == (if d.partial then 3 - w - s - f else 0) && (d.partial ==> missing != [])
    && (d.partial && !up.wes.Read? ==> missing[0] == WES_SOURCE)
    && (d.partial && !up.wfm.Read? ==> missing[1 - w] == WFM_SOURCE)
    && (d.partial && !up.fe.Read? ==> missing[2 - w - s] == FE_SOURCE)
  }

  /** One evidence entry per reading made, in order, each with that reading's own numbers; n of them come
      from the three signals. */
  ghost predicate CitesSignals(e: seq<EvidenceEntry>, up: Upstream, n: nat) {
    var (w, s, f) := (if up.wes.Read? then 1 else 0, if up.wfm.Read? then 1 else 0, if up.fe.Read? then 1 else 0);
    && n == w + s + f <= |e|
    && (up.wes.Read? ==> var v := up.wes.value;
          e[0] == EvidenceEntry(WES_SOURCE, RebalanceDetail(v.action, v.backlogDepth, v.wip, v.pathId)))
    && (up.wfm.Read? ==> var v := up.wfm.value;
          e[w] == EvidenceEntry(WFM_SOURCE, StaffingDetail(v.plannedHeads, v.activeHeads, v.understaffed, v.pathId)))
    && (up.fe.Read? ==>
          var (cited, tasks) := (e[w + s], up.fe.value.tasks);
          && cited.source == FE_SOURCE && cited.detail.StuckDetail? && cited.detail.count == up.fe.value.count
          && |cited.detail.reasons| == |tasks|
          && forall i :: 0 <= i < |tasks| ==> cited.detail.reasons[i] == tasks[i].reason)
  }

  /** The utilization read comes last. */
  ghost predicate CitesReadings(e: seq<EvidenceEntry>, up: Upstream) {
    exists n: nat ::
      && CitesSignals(e, up, n)
      && |e| == n + (if UtilizationRead(up) then 1 else 0)
      && (UtilizationRead(up) ==> var v := up.lp.value;
            e[n] == EvidenceEntry(LP_SOURCE, UtilizationDetail(v.taskType, v.pct, v.idleSeconds, v.taskSeconds, v.windowSeconds)))
  }

  /** The overlay is that of the depth and the utilization read. */
  ghost predicate OverlaysReadings(c: Option<Correlation>, up: Upstream) {
    if !UtilizationRead(up) then c == None
    else var v := up.lp.value;
         Correlates(c, up.wes.value.backlogDepth, v.taskType, v.pct, v.taskSeconds, v.idleSeconds, v.windowSeconds)
  }

  /** The whole decision, over what was read. */
  ghost predicate FollowsReadings(d: Decision, pathId: string, up: Upstream) {
    && d.pathId == pathId && DecidesOnReadings(d, up) && ListsUnread(d, up) && CitesReadings(d.evidence, up)
    && OverlaysReadings(d.utilization, up)
  }

  lemma RulesDecide(pathId: string, up: Upstream)
    requires RulesOnly(pathId, up).Ok?
    ensures var d := RulesOnly(pathId, up).value; d.pathId == pathId && DecidesOnReadings(d, up)
  {
    hide CorrelateUtilization;
    LeverExactly(pathId, RebalanceOf(up.wes).value, StaffingOf(up.wfm), StuckOf(up.fe));
    hide Decide, ReasonHolds;
  }

  lemma DecisionCites(pathId: string, wes: Option<RebalanceSignal>, up: Upstream)
    requires RebalanceOf(up.wes) == Ok(wes)
    ensures var d := Decide(pathId, wes, StaffingOf(up.wfm), StuckOf(up.fe));
            ListsUnread(d, up) && CitesSignals(d.evidence, up, |d.evidence|)
  {
    PartialHoldsAndCites(pathId, wes, StaffingOf(up.wfm), StuckOf(up.fe));
    hide Decide;
  }

  lemma CitesOneMore(e: seq<EvidenceEntry>, last: EvidenceEntry, up: Upstream)
    requires CitesSignals(e, up, |e|)
    ensures CitesSignals(e + [last], up, |e|)
  {
  }

  lemma RulesAppend(pathId: string, up: Upstream)
    requires RulesOnly(pathId, up).Ok?
    ensures var bare, d := Decide(pathId, RebalanceOf(up.wes).value, StaffingOf(up.wfm), StuckOf(up.fe)), RulesOnly(pathId, up).value;
            && d.partial == bare.partial && d.missingSignals == bare.missingSignals
            && (UtilizationRead(up) ==>
                  d.evidence == bare.evidence + [UtilizationEvidence(UtilizationOf(up.lp, up.taskType).value)])
            && (!UtilizationRead(up) ==> d.evidence == bare.evidence)
  {
    hide Decide, CorrelateUtilization;
  }

  lemma RulesCite(pathId: string, up: Upstream)
    requires RulesOnly(pathId, up).Ok?
    ensures var d := RulesOnly(pathId, up).value; ListsUnread(d, up) && CitesReadings(d.evidence, up)
  {
    var wes := RebalanceOf(up.wes).value;
    var e := Decide(pathId, wes, StaffingOf(up.wfm), StuckOf(up.fe)).evidence;
    DecisionCites(pathId, wes, up);
    RulesAppend(pathId, up);
    if UtilizationRead(up) {
      CitesOneMore(e, UtilizationEvidence(UtilizationOf(up.lp, up.taskType).value), up);
    }
    hide RulesOnly, Decide, CitesSignals, RebalanceOf, StaffingOf, StuckOf;
    assert CitesSignals(RulesOnly(pathId, up).value.evidence, up, |e|);
  }

  lemma RulesOverlay(pathId: string, up: Upstream)
    requires RulesOnly(pathId, up).Ok?
    ensures OverlaysReadings(RulesOnly(pathId, up).value.utilization, up)
  {
    LeverExactly(pathId, RebalanceOf(up.wes).value, StaffingOf(up.wfm), StuckOf(up.fe));
    if UtilizationRead(up) {
      CorrelationExactly(up.wes.value.backlogDepth, UtilizationOf(up.lp, up.taskType).value);
    }
    assert CorrelateUtilization(if up.wes.Read? then up.wes.value.backlogDepth else 0, None) == None;
    hide Decide, CorrelateUtilization, Correlates;
  }

  /** The rules-only decision, over the readings alone. Only an action outside the closed set gives none. */
  lemma RulesFollowTheReadings(pathId: string, up: Upstream)
    ensures RulesOnly(pathId, up).Err? <==> up.wes.Read? && up.wes.value.action !in {NO_ACTION_NEEDED, THROTTLE_UPSTREAM, REASSIGN_LABOR}
    ensures RulesOnly(pathId, up).Ok? ==> FollowsReadings(RulesOnly(pathId, up).value, pathId, up)
  {
    OverlayIsAdditive(pathId, up);
    hide RulesOnly, DecidesOnReadings, ListsUnread, CitesReadings, OverlaysReadings;
    if RulesOnly(pathId, up).Ok? {
      RulesDecide(pathId, up);
      RulesCite(pathId, up);
      RulesOverlay(pathId, up);
    }
  }

  method GatherStuckTasksSignal(r: Reading<StuckTasksReading>) returns (signal: Option<StuckTasksSignal>)
    ensures signal == StuckOf(r)
  {
    if !r.Read? { return None; }
    var reasons: seq<string> := [];
    for i := 0 to |r.value.tasks|
      invariant reasons == ReasonsOf(r.value.tasks)[..i]
    {
      reasons := reasons + [r.value.tasks[i].reason];
    }
    assert reasons == ReasonsOf(r.value.tasks);
    return Some(StuckTasksSignal(FE_SOURCE, r.value.count, reasons));
  }

  /** A plan arrived without error and stays in the vocabulary. */
  predicate Adoptable(reply: Reply) {
    && reply.Some? && reply.value.Ok?
    && var plan := reply.value.value; InVocabulary(PlanProposal(plan.action, plan.heads, plan.rationale))
  }

  method Execute(pathId: string, up: Upstream, mode: string, reply: Reply) returns (result: Result<Decision, string>)
    ensures result == Advise(pathId, up, mode, reply)
    ensures result.Ok? && (mode in {"", OFF, SHADOW} || !Adoptable(reply)) ==> FollowsReadings(result.value, pathId, up)
  {
    ModelNonInterference(pathId, up, mode, reply);
    RulesFollowTheReadings(pathId, up);
    hide FollowsReadings, Adoptable;
    var wes := RebalanceOf(up.wes);
    if wes.Err? { return Err(wes.error); }
    var wfm := StaffingOf(up.wfm);
    var fe := GatherStuckTasksSignal(up.fe);
    var decision := Decide(pathId, wes.value, wfm, fe);
    if wes.value.Some? {
      var util := UtilizationOf(up.lp, up.taskType);
      if util.Some? {
        decision := decision.(evidence := decision.evidence + [UtilizationEvidence(util.value)]);
      }
      decision := decision.(utilization := CorrelateUtilization(wes.value.value.backlogDepth, util));
    }
    var mode' := if mode == "" then OFF else mode;
    if mode' == OFF || reply.None? { return Ok(decision); }
    var proposal := if reply.value.Ok? then Some(ProposalOf(reply.value.value)) else None;
    var planErr := if reply.value.Err? then Some(reply.value.error) else None;
    return Ok(Arbitrate(decision, proposal, planErr, mode').decision);
  }

  /** Non-interference of the model. Whatever the reasoner replies, off and shadow return what the
      rules alone return, errors included. In mode on the same holds unless an in-vocabulary plan
      arrived without error, and then exactly the plan's lever, heads and reason are substituted. */
  lemma ModelNonInterference(pathId: string, up: Upstream, mode: string, reply: Reply)
    ensures mode in {"", OFF, SHADOW} ==> Advise(pathId, up, mode, reply) == RulesOnly(pathId, up)
    ensures Advise(pathId, up, mode, reply).Err? <==> RulesOnly(pathId, up).Err?
    ensures !Adoptable(reply) ==> Advise(pathId, up, mode, reply) == RulesOnly(pathId, up)
    ensures mode == ON && Adoptable(reply) && RulesOnly(pathId, up).Ok? ==>
              var plan := reply.value.value;
              ReplacedBy(Advise(pathId, up, mode, reply).value, RulesOnly(pathId, up).value,
                         PlanProposal(plan.action, plan.heads, plan.rationale))
  {
    var rules := RulesOnly(pathId, up);
    if rules.Ok? && reply.Some? {
      match reply.value
      case Ok(plan) => ArbitrateIsTheOnlyGate(rules.value, Some(ProposalOf(plan)), None, mode);
      case Err(e) => ArbitrateIsTheOnlyGate(rules.value, None, Some(e), mode);
    }
  }

  /** Two models, same upstream: the answers can only differ in lever, heads and reason, and every
      head count the model brought in is within the bound and only ever assigns labor. */
  lemma TwoModelsDifferOnlyInTheOutcome(pathId: string, up: Upstream, mode: string, r1: Reply, r2: Reply)
    requires ParseLLMMode(mode).Ok?
    ensures var a1, a2 := Advise(pathId, up, mode, r1), Advise(pathId, up, mode, r2);
            && (a1.Err? <==> a2.Err?)
            && (a1.Ok? ==>
                  && a1.value.(recommendedAction := "", proposedHeads := 0, rationale := NoAnchorSignal)
                     == a2.value.(recommendedAction := "", proposedHeads := 0, rationale := NoAnchorSignal)
                  && (OutcomeOf(a1.value) != OutcomeOf(a2.value) ==> mode == ON && (Adoptable(r1) || Adoptable(r2)))
                  && (a1.value != RulesOnly(pathId, up).value ==>
                        0 <= a1.value.proposedHeads <= MAX_PROPOSED_HEADS
                        && (a1.value.proposedHeads != 0 ==> a1.value.recommendedAction == ASSIGN_LABOR)))
  {
    ModelNonInterference(pathId, up, mode, r1);
    ModelNonInterference(pathId, up, mode, r2);
  }

  /** Partial means hold for the rules alone. In mode on it does not: a decision stays marked partial
      while acting exactly when the rules were partial and an adopted plan acts. */
  lemma PartialNeedNotHold(pathId: string, up: Upstream, mode: string, reply: Reply)
    requires ParseLLMMode(mode).Ok? && RulesOnly(pathId, up).Ok?
    ensures RulesOnly(pathId, up).value.partial ==> RulesOnly(pathId, up).value.recommendedAction == HOLD
    ensures var d := Advise(pathId, up, mode, reply).value;
            d.partial && d.recommendedAction != HOLD <==>
            RulesOnly(pathId, up).value.partial && mode == ON && Adoptable(reply) && reply.value.value.action != HOLD
  {
    ModelNonInterference(pathId, up, mode, reply);
  }

  /** Such a decision: staffing is unknown, so the rules hold, and an adopted plan assigns two heads. */
  lemma PartialAndActing(pathId: string)
    ensures var up := Upstream(Read(RebalanceReading(pathId, REASSIGN_LABOR, 40, 3)), Failed("timeout"), NotWired, NotWired, None);
            var reply := Some(Ok(Plan(ASSIGN_LABOR, 2, "backlog is deep", [], "")));
            && RulesOnly(pathId, up).Ok? && RulesOnly(pathId, up).value.recommendedAction == HOLD
            && Advise(pathId, up, ON, reply).Ok?
            && Advise(pathId, up, ON, reply).value.partial
            && Advise(pathId, up, ON, reply).value.recommendedAction == ASSIGN_LABOR
  {
  }

  /** Only an action outside the closed set fails a run; any upstream may be down. In that case nothing
      is decided, and otherwise the overlay never touches lever, heads, reason or partiality, and is
      silent without the anchor signal. */
  lemma OverlayIsAdditive(pathId: string, up: Upstream)
    ensures RulesOnly(pathId, up).Err? <==> up.wes.Read? && up.wes.value.action !in {NO_ACTION_NEEDED, THROTTLE_UPSTREAM, REASSIGN_LABOR}
    ensures RulesOnly(pathId, up).Ok? ==>
              var wes := RebalanceOf(up.wes).value;
              var bare, d := Decide(pathId, wes, StaffingOf(up.wfm), StuckOf(up.fe)), RulesOnly(pathId, up).value;
              && OutcomeOf(d) == OutcomeOf(bare) && d.partial == bare.partial && d.missingSignals == bare.missingSignals
              && bare.evidence <= d.evidence
              && |d.evidence| <= |bare.evidence| + 1
              && (d.utilization.Some? ==> up.wes.Read? && up.lp.Read? && |d.evidence| == |bare.evidence| + 1)
  {
  }
}
