/** The deterministic flow-balance rule (internal/domain/policy/flow_balance.go):
    three optional upstream signals are ranked into one recommended lever.

    Action names stay strings, as in the source, so that the branch for an
    unrecognised action is part of the model. Rationale texts are constructors
    carrying the values the text mentions. */
module FlowBalance {
  import opened Common

  const NO_ACTION_NEEDED := "NoActionNeeded"
  const THROTTLE_UPSTREAM := "ThrottleUpstream"
  const REASSIGN_LABOR := "ReassignLabor"

  const ASSIGN_LABOR := "assign_labor"
  const RELEASE_NEXT_WORK := "release_next_work"
  const HOLD := "hold"

  const WES_SOURCE := "wes-work-planning.get_rebalance_recommendation"
  const WFM_SOURCE := "workforce-management.get_staffing_gap"
  const FE_SOURCE := "fulfillment-execution.diagnose_stuck_tasks"

  datatype RebalanceSignal = RebalanceSignal(source: string, pathId: string, action: string, backlogDepth: int, wip: int)
  datatype StaffingSignal = StaffingSignal(source: string, pathId: string, plannedHeads: int, activeHeads: int, understaffed: bool)
  datatype StuckTasksSignal = StuckTasksSignal(source: string, count: int, reasons: seq<string>)

  datatype Rationale =
    | NoAnchorSignal
    | UnrecognizedAction(action: string)
    | StaffingUnknown(action: string)
    | UnderstaffedPath(action: string, heads: int)
    | StuckTasksUnknown(action: string)
    | BlockedClaims(action: string, count: int)
    | Uncorroborated(action: string)
    | HealthyStuckTasksUnknown
    | HealthyButStuck(count: int)
    | HealthyStaffingUnknown
    | SafeToRelease
    | HealthyStaffingGap
    | ModelRationale(text: string)

  datatype Detail =
    | RebalanceDetail(action: string, backlogDepth: int, wip: int, pathId: string)
    | StaffingDetail(planned: int, active: int, understaffed: bool, pathId: string)
    | StuckDetail(count: int, reasons: seq<string>)
    | UtilizationDetail(taskType: string, pct: Option<real>, idleSeconds: int, taskSeconds: int, windowSeconds: int)

  datatype EvidenceEntry = EvidenceEntry(source: string, detail: Detail)

  /** The overlay of utilization_correlation.go; None is its nil pointer. */
  datatype Kind = ClaimFlowProblem | Starvation | StaffingGapConfirmed
  /** The confirmed-gap text does not print the queue depth; the other two do. */
  datatype Correlation = Correlation(kind: Kind, queueDepth: Option<int>, taskType: string, pct: real, idleShare: real,
                                     windowSeconds: int)

  datatype Decision = Decision(
    pathId: string,
    recommendedAction: string,
    proposedHeads: int,
    rationale: Rationale,
    partial: bool,
    missingSignals: seq<string>,
    evidence: seq<EvidenceEntry>,
    utilization: Option<Correlation>)

  /** What an operator acts on: the lever, the head count and the reason given. */
  datatype Outcome = Outcome(action: string, heads: int, rationale: Rationale)

  function OutcomeOf(d: Decision): Outcome {
    Outcome(d.recommendedAction, d.proposedHeads, d.rationale)
  }

  /** An upstream action outside the closed set is refused, never defaulted. */
  function ParseRebalanceAction(raw: string): (r: Result<string, string>)
    ensures r.Ok? <==> raw in {NO_ACTION_NEEDED, THROTTLE_UPSTREAM, REASSIGN_LABOR}
    ensures r.Ok? ==> r.value == raw
    ensures r.Err? ==> r.error == raw
  {
    if raw == NO_ACTION_NEEDED || raw == THROTTLE_UPSTREAM || raw == REASSIGN_LABOR then Ok(raw) else Err(raw)
  }

  function MissingSignals(wes: Option<RebalanceSignal>, wfm: Option<StaffingSignal>,
                          fe: Option<StuckTasksSignal>): seq<string> {
    (if wes.None? then [WES_SOURCE] else [])
    + (if wfm.None? then [WFM_SOURCE] else [])
    + (if fe.None? then [FE_SOURCE] else [])
  }

  function WesEvidence(w: RebalanceSignal): EvidenceEntry {
    EvidenceEntry(w.source, RebalanceDetail(w.action, w.backlogDepth, w.wip, w.pathId))
  }

  function WfmEvidence(s: StaffingSignal): EvidenceEntry {
    EvidenceEntry(s.source, StaffingDetail(s.plannedHeads, s.activeHeads, s.understaffed, s.pathId))
  }

  function FeEvidence(f: StuckTasksSignal): EvidenceEntry { EvidenceEntry(f.source, StuckDetail(f.count, f.reasons)) }

  function EvidenceEntries(wes: Option<RebalanceSignal>, wfm: Option<StaffingSignal>,
                           fe: Option<StuckTasksSignal>): seq<EvidenceEntry> {
    (match wes
     case None => []
     case Some(w) => [WesEvidence(w)])
    + (match wfm
       case None => []
       case Some(s) => [WfmEvidence(s)])
    + (match fe
       case None => []
       case Some(f) => [FeEvidence(f)])
  }

  function DegradeToHold(d: Decision, missing: seq<string>, rationale: Rationale): Decision {
    d.(partial := true, missingSignals := missing, recommendedAction := HOLD, rationale := rationale)
  }

  /** The labor gap, never below one head. */
  function ProposedHeads(planned: int, active: int): int {
    var gap := planned - active;
    if gap < 1 then 1 else gap
  }

  function DecideLaborGap(d: Decision, action: string, wfm: Option<StaffingSignal>, fe: Option<StuckTasksSignal>,
                          missing: seq<string>): Decision {
    if wfm.None? then
      DegradeToHold(d, missing, StaffingUnknown(action))
    else if wfm.value.understaffed then
      var heads := ProposedHeads(wfm.value.plannedHeads, wfm.value.activeHeads);
      d.(recommendedAction := ASSIGN_LABOR, proposedHeads := heads, rationale := UnderstaffedPath(action, heads))
    else if fe.None? then
      DegradeToHold(d, missing, StuckTasksUnknown(action))
    else if fe.value.count > 0 then
      d.(recommendedAction := HOLD, rationale := BlockedClaims(action, fe.value.count))
    else
      d.(recommendedAction := HOLD, rationale := Uncorroborated(action))
  }

  function DecideHealthyBacklog(d: Decision, wfm: Option<StaffingSignal>, fe: Option<StuckTasksSignal>,
                                missing: seq<string>): Decision {
    if fe.None? then
      DegradeToHold(d, missing, HealthyStuckTasksUnknown)
    else if fe.value.count > 0 then
      d.(recommendedAction := HOLD, rationale := HealthyButStuck(fe.value.count))
    else if wfm.None? then
      DegradeToHold(d, missing, HealthyStaffingUnknown)
    else if !wfm.value.understaffed then
      d.(recommendedAction := RELEASE_NEXT_WORK, rationale := SafeToRelease)
    else
      d.(recommendedAction := HOLD, rationale := HealthyStaffingGap)
  }

  function Decide(pathId: string, wes: Option<RebalanceSignal>, wfm: Option<StaffingSignal>,
                  fe: Option<StuckTasksSignal>): Decision {
    var missing := MissingSignals(wes, wfm, fe);
    // No lever yet: the empty strings are Go's zero values.
    var d := Decision(pathId, "", 0, ModelRationale(""), false, [], EvidenceEntries(wes, wfm, fe), None);
    if wes.None? then
      DegradeToHold(d, missing, NoAnchorSignal)
    else if wes.value.action == REASSIGN_LABOR || wes.value.action == THROTTLE_UPSTREAM then
      DecideLaborGap(d, wes.value.action, wfm, fe, missing)
    else if wes.value.action == NO_ACTION_NEEDED then
      DecideHealthyBacklog(d, wfm, fe, missing)
    else
      d.(recommendedAction := HOLD, rationale := UnrecognizedAction(wes.value.action))
  }

  // ----- what "partial" promises -----

  /** `full` agrees with every signal that was actually read. */
  ghost predicate Completes<T(!new)>(full: T, known: Option<T>) {
    known.Some? ==> known.value == full
  }

  /** `more` knows at least what `known` knows. */
  ghost predicate Extends<T(!new)>(more: Option<T>, known: Option<T>) {
    known.Some? ==> more == known
  }

  ghost predicate Completion(w: RebalanceSignal, s: StaffingSignal, f: StuckTasksSignal,
                             wes: Option<RebalanceSignal>, wfm: Option<StaffingSignal>, fe: Option<StuckTasksSignal>) {
    Completes(w, wes) && Completes(s, wfm) && Completes(f, fe)
  }

  function FullOutcome(w: RebalanceSignal, s: StaffingSignal, f: StuckTasksSignal): Outcome {
    OutcomeOf(Decide("", Some(w), Some(s), Some(f)))
  }

  /** Two ways of filling in the missing readings would lead the operator to different outcomes. */
  ghost predicate OutcomeUndetermined(wes: Option<RebalanceSignal>, wfm: Option<StaffingSignal>,
                                      fe: Option<StuckTasksSignal>) {
    exists w1, s1, f1, w2, s2, f2 ::
      Completion(w1, s1, f1, wes, wfm, fe) && Completion(w2, s2, f2, wes, wfm, fe)
      && FullOutcome(w1, s1, f1) != FullOutcome(w2, s2, f2)
  }

  ghost predicate ActionUndetermined(wes: Option<RebalanceSignal>, wfm: Option<StaffingSignal>,
                                     fe: Option<StuckTasksSignal>) {
    exists w1, s1, f1, w2, s2, f2 ::
      Completion(w1, s1, f1, wes, wfm, fe) && Completion(w2, s2, f2, wes, wfm, fe)
      && FullOutcome(w1, s1, f1).action != FullOutcome(w2, s2, f2).action
  }

  function Probe(action: string): RebalanceSignal { RebalanceSignal(WES_SOURCE, "", action, 0, 0) }
  function Staffed(understaffed: bool): StaffingSignal { StaffingSignal(WFM_SOURCE, "", 0, 0, understaffed) }
  function Stuck(count: int): StuckTasksSignal { StuckTasksSignal(FE_SOURCE, count, []) }

  function Or<T>(o: Option<T>, default: T): T { if o.Some? then o.value else default }

  /** A settled outcome survives any reading that arrives later, and stays settled. */
  lemma SettledOutcomeIsStable(pathId: string,
                               wes: Option<RebalanceSignal>, wfm: Option<StaffingSignal>, fe: Option<StuckTasksSignal>,
                               wes': Option<RebalanceSignal>, wfm': Option<StaffingSignal>, fe': Option<StuckTasksSignal>)
    requires !Decide(pathId, wes, wfm, fe).partial
    requires Extends(wes', wes) && Extends(wfm', wfm) && Extends(fe', fe)
    ensures OutcomeOf(Decide(pathId, wes', wfm', fe')) == OutcomeOf(Decide(pathId, wes, wfm, fe))
    ensures !Decide(pathId, wes', wfm', fe').partial
  {
  }

  /** A decision is marked partial exactly when the missing readings could still change the outcome. */
  lemma PartialIsExact(pathId: string, wes: Option<RebalanceSignal>, wfm: Option<StaffingSignal>,
                       fe: Option<StuckTasksSignal>)
    ensures Decide(pathId, wes, wfm, fe).partial <==> OutcomeUndetermined(wes, wfm, fe)
  {
    var d := Decide(pathId, wes, wfm, fe);
    if d.partial {
      var w1, w2 := Or(wes, Probe(REASSIGN_LABOR)), Or(wes, Probe(THROTTLE_UPSTREAM));
      var s1, s2 := Or(wfm, Staffed(false)), Or(wfm, Staffed(true));
      var f1, f2 := Or(fe, Stuck(1)), Or(fe, Stuck(2));
      var f0 := Or(fe, Stuck(0));
      assert Completion(w1, s1, f1, wes, wfm, fe) && Completion(w2, s2, f2, wes, wfm, fe);
      assert Completion(w1, s1, f0, wes, wfm, fe) && Completion(w1, s2, f0, wes, wfm, fe);
      assert FullOutcome(w1, s1, f1) != FullOutcome(w2, s2, f2) || FullOutcome(w1, s1, f0) != FullOutcome(w1, s2, f0)
             || FullOutcome(w1, s1, f0) != FullOutcome(w1, s1, f1);
    } else {
      forall w, s, f | Completion(w, s, f, wes, wfm, fe)
        ensures FullOutcome(w, s, f) == OutcomeOf(d)
      {
        SettledOutcomeIsStable(pathId, wes, wfm, fe, Some(w), Some(s), Some(f));
      }
    }
  }

  /** Partial decisions whose missing readings could change the reason but not the lever: the
      three families of inputs in which holding was already certain. */
  ghost predicate HoldAlreadyCertain(wes: Option<RebalanceSignal>, wfm: Option<StaffingSignal>,
                                     fe: Option<StuckTasksSignal>) {
    || (wes.Some? && wes.value.action in {REASSIGN_LABOR, THROTTLE_UPSTREAM} && wfm.Some? && !wfm.value.understaffed && fe.None?)
    || (wes.Some? && wes.value.action == NO_ACTION_NEEDED && wfm.Some? && wfm.value.understaffed && fe.None?)
    || (wes.None? && wfm.Some? && !wfm.value.understaffed && fe.Some? && fe.value.count > 0)
  }

  /** On the lever alone, partial is exact outside `HoldAlreadyCertain`. */
  lemma PartialOnTheLever(pathId: string, wes: Option<RebalanceSignal>, wfm: Option<StaffingSignal>,
                          fe: Option<StuckTasksSignal>)
    ensures ActionUndetermined(wes, wfm, fe) <==> Decide(pathId, wes, wfm, fe).partial && !HoldAlreadyCertain(wes, wfm, fe)
  {
    var d := Decide(pathId, wes, wfm, fe);
    if HoldAlreadyCertain(wes, wfm, fe) {
      forall w, s, f | Completion(w, s, f, wes, wfm, fe)
        ensures FullOutcome(w, s, f).action == HOLD
      {
      }
    } else if d.partial {
      var w1, w2 := Or(wes, Probe(REASSIGN_LABOR)), Or(wes, Probe(NO_ACTION_NEEDED));
      var s1, s2 := Or(wfm, Staffed(false)), Or(wfm, Staffed(true));
      var f0, f1 := Or(fe, Stuck(0)), Or(fe, Stuck(1));
      assert Completion(w1, s2, f0, wes, wfm, fe) && Completion(w2, s1, f0, wes, wfm, fe);
      assert Completion(w1, s1, f0, wes, wfm, fe) && Completion(w2, s2, f0, wes, wfm, fe);
      assert Completion(w2, s1, f1, wes, wfm, fe);
      assert FullOutcome(w1, s2, f0).action != FullOutcome(w1, s1, f0).action
             || FullOutcome(w2, s1, f0).action != FullOutcome(w2, s2, f0).action
             || FullOutcome(w1, s2, f0).action != FullOutcome(w2, s2, f0).action
             || FullOutcome(w1, s1, f0).action != FullOutcome(w2, s1, f0).action
             || FullOutcome(w2, s1, f0).action != FullOutcome(w2, s1, f1).action;
    } else {
      forall w, s, f | Completion(w, s, f, wes, wfm, fe)
        ensures FullOutcome(w, s, f) == OutcomeOf(d)
      {
        SettledOutcomeIsStable(pathId, wes, wfm, fe, Some(w), Some(s), Some(f));
      }
    }
  }

  lemma EvidenceInOrder(wes: Option<RebalanceSignal>, wfm: Option<StaffingSignal>, fe: Option<StuckTasksSignal>)
    ensures var cited := EvidenceEntries(wes, wfm, fe);
            var (w, s, f) := (if wes.Some? then 1 else 0, if wfm.Some? then 1 else 0, if fe.Some? then 1 else 0);
            && |cited| == w + s + f
            && (wes.Some? ==> cited[0] == WesEvidence(wes.value))
            && (wfm.Some? ==> cited[w] == WfmEvidence(wfm.value))
            && (fe.Some? ==> cited[w + s] == FeEvidence(fe.value))
  {
    hide WesEvidence, WfmEvidence, FeEvidence;
  }

  lemma MissingInOrder(wes: Option<RebalanceSignal>, wfm: Option<StaffingSignal>, fe: Option<StuckTasksSignal>)
    ensures var missing := MissingSignals(wes, wfm, fe);
            var (w, s, f) := (if wes.Some? then 1 else 0, if wfm.Some? then 1 else 0, if fe.Some? then 1 else 0);
            && |missing| == 3 - w - s - f
            && (wes.None? ==> missing[0] == WES_SOURCE)
            && (wfm.None? ==> missing[1 - w] == WFM_SOURCE)
            && (fe.None? ==> missing[2 - w - s] == FE_SOURCE)
  {
    hide WES_SOURCE, WFM_SOURCE, FE_SOURCE;
  }

  lemma DecisionCarries(pathId: string, wes: Option<RebalanceSignal>, wfm: Option<StaffingSignal>,
                        fe: Option<StuckTasksSignal>)
    ensures var d := Decide(pathId, wes, wfm, fe);
            && d.evidence == EvidenceEntries(wes, wfm, fe)
            && d.missingSignals == (if d.partial then MissingSignals(wes, wfm, fe) else [])
            && (d.partial ==> d.recommendedAction == HOLD && d.proposedHeads == 0 && (wes.None? || wfm.None? || fe.None?))
  {
    hide EvidenceEntries, MissingSignals;
  }

  /** A partial decision holds with no heads and lists exactly the signals that are missing, in source
      order; a settled one lists none. Every reading supplied is cited, in source order, with its own
      source and its own numbers. */
  lemma PartialHoldsAndCites(pathId: string, wes: Option<RebalanceSignal>, wfm: Option<StaffingSignal>,
                             fe: Option<StuckTasksSignal>)
    ensures var d := Decide(pathId, wes, wfm, fe);
            var (w, s, f) := (if wes.Some? then 1 else 0, if wfm.Some? then 1 else 0, if fe.Some? then 1 else 0);
            var (cited, missing) := (d.evidence, d.missingSignals);
            && (d.partial ==> d.recommendedAction == HOLD && d.proposedHeads == 0)
            && |missing| == (if d.partial then 3 - w - s - f else 0) && (d.partial ==> missing != [])
            && (d.partial && wes.None? ==> missing[0] == WES_SOURCE)
            && (d.partial && wfm.None? ==> missing[1 - w] == WFM_SOURCE)
            && (d.partial && fe.None? ==> missing[2 - w - s] == FE_SOURCE)
            && |cited| == w + s + f
            && (wes.Some? ==> var v := wes.value;
                  cited[0] == EvidenceEntry(v.source, RebalanceDetail(v.action, v.backlogDepth, v.wip, v.pathId)))
            && (wfm.Some? ==> var v := wfm.value;
                  cited[w] == EvidenceEntry(v.source, StaffingDetail(v.plannedHeads, v.activeHeads, v.understaffed, v.pathId)))
            && (fe.Some? ==> cited[w + s] == EvidenceEntry(fe.value.source, StuckDetail(fe.value.count, fe.value.reasons)))
  {
    DecisionCarries(pathId, wes, wfm, fe);
    EvidenceInOrder(wes, wfm, fe);
    MissingInOrder(wes, wfm, fe);
    hide Decide, EvidenceEntries, MissingSignals;
  }

  // ----- which signals call for which lever -----

  /** wes sees a flow problem and wfm confirms a labor gap. */
  ghost predicate Assigns(action: Option<string>, understaffed: Option<bool>) {
    action in {Some(REASSIGN_LABOR), Some(THROTTLE_UPSTREAM)} && understaffed == Some(true)
  }

  /** wes sees none, nothing is stuck and the path is fully staffed. */
  ghost predicate Releases(action: Option<string>, understaffed: Option<bool>, stuck: Option<int>) {
    action == Some(NO_ACTION_NEEDED) && understaffed == Some(false) && stuck.Some? && stuck.value <= 0
  }

  /** The greater of one and the gap. */
  ghost predicate CoversGap(heads: int, planned: int, active: int) {
    heads >= 1 && heads >= planned - active && (heads == 1 || heads == planned - active)
  }

  /** The reason given says what the signals say, and with it whether a missing one decided. No two of the
      cases hold of the same signals. */
  ghost predicate ReasonHolds(r: Rationale, heads: int, partial: bool, action: Option<string>,
                              understaffed: Option<bool>, stuck: Option<int>) {
    var flow := action in {Some(REASSIGN_LABOR), Some(THROTTLE_UPSTREAM)};
    var healthy := action == Some(NO_ACTION_NEEDED);
    match r
    case NoAnchorSignal => action == None && partial
    case UnrecognizedAction(a) => action == Some(a) && !flow && !healthy && !partial
    case StaffingUnknown(a) => flow && action == Some(a) && understaffed == None && partial
    case UnderstaffedPath(a, h) => flow && action == Some(a) && understaffed == Some(true) && h == heads && !partial
    case StuckTasksUnknown(a) => flow && action == Some(a) && understaffed == Some(false) && stuck == None && partial
    case BlockedClaims(a, n) =>
      flow && action == Some(a) && understaffed == Some(false) && stuck == Some(n) && n > 0 && !partial
    case Uncorroborated(a) =>
      flow && action == Some(a) && understaffed == Some(false) && stuck.Some? && stuck.value <= 0 && !partial
    case HealthyStuckTasksUnknown => healthy && stuck == None && partial
    case HealthyButStuck(n) => healthy && stuck == Some(n) && n > 0 && !partial
    case HealthyStaffingUnknown => healthy && stuck.Some? && stuck.value <= 0 && understaffed == None && partial
    case SafeToRelease => Releases(action, understaffed, stuck) && !partial
    case HealthyStaffingGap => healthy && stuck.Some? && stuck.value <= 0 && understaffed == Some(true) && !partial
    case ModelRationale(_) => false
  }

  /** The rule, as an operator would check it: labor is assigned exactly on a flow problem with a confirmed
      gap, work released exactly on a healthy, staffed path with nothing stuck, and everything else holds;
      heads are the gap, at least one, when assigning and none otherwise; and the reason given is true. */
  lemma LeverExactly(pathId: string, wes: Option<RebalanceSignal>, wfm: Option<StaffingSignal>,
                     fe: Option<StuckTasksSignal>)
    ensures var d := Decide(pathId, wes, wfm, fe);
            var action := if wes.Some? then Some(wes.value.action) else None;
            var understaffed := if wfm.Some? then Some(wfm.value.understaffed) else None;
            var stuck := if fe.Some? then Some(fe.value.count) else None;
            && (d.recommendedAction == ASSIGN_LABOR <==> Assigns(action, understaffed))
            && (d.recommendedAction == RELEASE_NEXT_WORK <==> Releases(action, understaffed, stuck))
            && (d.recommendedAction == HOLD <==> !Assigns(action, understaffed) && !Releases(action, understaffed, stuck))
            && (Assigns(action, understaffed) ==> CoversGap(d.proposedHeads, wfm.value.plannedHeads, wfm.value.activeHeads))
            && (!Assigns(action, understaffed) ==> d.proposedHeads == 0)
            && ReasonHolds(d.rationale, d.proposedHeads, d.partial, action, understaffed, stuck)
            && d.pathId == pathId && d.utilization == None
  {
  }
}
