/** One path's correlation rule in the daily brief (internal/domain/policy/dailybrief.go). Summaries and
    evidence lines are constructors carrying the numbers they print. */
module BriefPolicy {
  import opened Common

  const INFO := "info"
  const WARNING := "warning"
  const CRITICAL := "critical"

  datatype PathTarget = PathTarget(siteCode: string, pathId: string, processPath: string, buildingId: string, shiftId: string)

  datatype BacklogFact = BacklogFact(backlogDepth: int, wip: int, overAlarmThreshold: bool)
  datatype StaffingFact = StaffingFact(plannedHeads: int, activeHeads: int, understaffed: bool)
  datatype QueueFact = QueueFact(depth: int)
  datatype StuckFact = StuckFact(count: int)

  datatype Evidence = OverAlarm(backlogDepth: int, wip: int) | Understaffed(planned: int, active: int) | Stuck(count: int)

  datatype Summary = SignalsCorrelated(signals: int, pathId: string)

  /** Every exception is of the one kind flow_balance_risk. */
  datatype OpenException = OpenException(siteCode: string, pathId: string, severity: string, summary: Summary, evidence: seq<Evidence>)

  datatype Unavailable = NotConfigured(source: string) | CallFailed(source: string, error: string)

  datatype PathBrief = PathBrief(
    target: PathTarget,
    backlog: Option<BacklogFact>,
    staffing: Option<StaffingFact>,
    queue: Option<QueueFact>,
    stuck: Option<StuckFact>,
    unavailable: seq<Unavailable>,
    exceptions: seq<OpenException>)

  predicate OverThreshold(b: PathBrief) { b.backlog.Some? && b.backlog.value.overAlarmThreshold }
  predicate ShortOfHeads(b: PathBrief) { b.staffing.Some? && b.staffing.value.understaffed }
  predicate HasStuckTasks(b: PathBrief) { b.stuck.Some? && b.stuck.value.count > 0 }

  /** How many of the three independent signals fire. */
  function Signals(b: PathBrief): nat {
    (if OverThreshold(b) then 1 else 0) + (if ShortOfHeads(b) then 1 else 0) + (if HasStuckTasks(b) then 1 else 0)
  }

  /** The source's counter and evidence list, updated signal by signal. */
  method DeriveExceptions(b: PathBrief) returns (exceptions: seq<OpenException>)
    ensures exceptions == Derived(b)
  {
    var evidence: seq<Evidence> := [];
    var signals := 0;
    if b.backlog.Some? && b.backlog.value.overAlarmThreshold {
      signals := signals + 1;
      evidence := evidence + [OverAlarm(b.backlog.value.backlogDepth, b.backlog.value.wip)];
    }
    if b.staffing.Some? && b.staffing.value.understaffed {
      signals := signals + 1;
      evidence := evidence + [Understaffed(b.staffing.value.plannedHeads, b.staffing.value.activeHeads)];
    }
    if b.stuck.Some? && b.stuck.value.count > 0 {
      signals := signals + 1;
      evidence := evidence + [Stuck(b.stuck.value.count)];
    }
    assert evidence == EvidenceOf(b) && signals == Signals(b);
    if signals < 2 { return []; }
    var severity := WARNING;
    if signals >= 3 { severity := CRITICAL; }
    return [OpenException(b.target.siteCode, b.target.pathId, severity, SignalsCorrelated(signals, b.target.pathId), evidence)];
  }

  function EvidenceOf(b: PathBrief): (e: seq<Evidence>)
    ensures |e| == Signals(b)
    ensures OverThreshold(b) ==> OverAlarm(b.backlog.value.backlogDepth, b.backlog.value.wip) in e
    ensures ShortOfHeads(b) ==> Understaffed(b.staffing.value.plannedHeads, b.staffing.value.activeHeads) in e
    ensures HasStuckTasks(b) ==> Stuck(b.stuck.value.count) in e
  {
    (if OverThreshold(b) then [OverAlarm(b.backlog.value.backlogDepth, b.backlog.value.wip)] else [])
    + (if ShortOfHeads(b) then [Understaffed(b.staffing.value.plannedHeads, b.staffing.value.activeHeads)] else [])
    + (if HasStuckTasks(b) then [Stuck(b.stuck.value.count)] else [])
  }

  function Derived(b: PathBrief): (r: seq<OpenException>)
    ensures |r| <= 1 && (r != [] <==> Signals(b) >= 2)
    ensures r != [] ==> (r[0].severity == CRITICAL <==> Signals(b) == 3) && (r[0].severity == WARNING <==> Signals(b) == 2)
  {
    if Signals(b) < 2 then []
    else [OpenException(b.target.siteCode, b.target.pathId, if Signals(b) == 3 then CRITICAL else WARNING,
                        SignalsCorrelated(Signals(b), b.target.pathId), EvidenceOf(b))]
  }

  /** No correlation on a single metric: a path is flagged exactly when two signals fire, and one more
      reading can raise the severity but never lower it. */
  lemma MoreSignalsNeverLower(b: PathBrief, b': PathBrief)
    requires OverThreshold(b) ==> OverThreshold(b')
    requires ShortOfHeads(b) ==> ShortOfHeads(b')
    requires HasStuckTasks(b) ==> HasStuckTasks(b')
    ensures |Derived(b)| <= |Derived(b')|
    ensures Derived(b) != [] && Derived(b)[0].severity == CRITICAL ==> Derived(b')[0].severity == CRITICAL
  {
  }

  /** The rule over the facts alone: two of the three alarms flag the path once, all three critically; the
      exception names its path, its number of alarms and, in source order, each alarm with its own numbers. */
  lemma FlaggedExactly(b: PathBrief)
    ensures var over := b.backlog.Some? && b.backlog.value.overAlarmThreshold;
            var short := b.staffing.Some? && b.staffing.value.understaffed;
            var stuck := b.stuck.Some? && b.stuck.value.count > 0;
            var (o, s) := (if over then 1 else 0, if short then 1 else 0);
            var n := o + s + if stuck then 1 else 0;
            && |Derived(b)| == (if n >= 2 then 1 else 0)
            && (n >= 2 ==>
                  var e := Derived(b)[0];
                  && e.siteCode == b.target.siteCode && e.pathId == b.target.pathId
                  && e.severity == (if n == 3 then "critical" else "warning")
                  && e.summary == SignalsCorrelated(n, b.target.pathId)
                  && |e.evidence| == n
                  && (over ==> e.evidence[0] == OverAlarm(b.backlog.value.backlogDepth, b.backlog.value.wip))
                  && (short ==> e.evidence[o] == Understaffed(b.staffing.value.plannedHeads, b.staffing.value.activeHeads))
                  && (stuck ==> e.evidence[o + s] == Stuck(b.stuck.value.count)))
  {
  }
}
