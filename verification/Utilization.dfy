/** The labor-utilization overlay (internal/domain/policy/utilization_correlation.go),
    over real numbers. */
module Utilization {
  import opened Common
  import opened FlowBalance

  const QUEUE_DEPTH_HIGH := 50
  const LOW_PCT := 60.0
  const HIGH_IDLE_SHARE := 0.40

  datatype UtilizationSignal = UtilizationSignal(
    source: string, taskType: string, associates: int, windowSeconds: int, taskSeconds: int, idleSeconds: int,
    openGapSeconds: int, pct: Option<real>)

  function IdleShareOf(u: UtilizationSignal): real {
    var total := u.taskSeconds + u.idleSeconds;
    if total <= 0 then 0.0 else u.idleSeconds as real / total as real
  }

  function CorrelateUtilization(queueDepth: int, util: Option<UtilizationSignal>): Option<Correlation> {
    if util.None? || util.value.pct.None? then None else
    var u := util.value;
    var pct, share := u.pct.value, IdleShareOf(u);
    var queueHigh := queueDepth > QUEUE_DEPTH_HIGH;
    if !(pct < LOW_PCT) then
      if queueHigh then Some(Correlation(StaffingGapConfirmed, None, u.taskType, pct, share, u.windowSeconds)) else None
    else if !(share > HIGH_IDLE_SHARE) then None
    else if queueHigh then Some(Correlation(ClaimFlowProblem, Some(queueDepth), u.taskType, pct, share, u.windowSeconds))
    else Some(Correlation(Starvation, Some(queueDepth), u.taskType, pct, share, u.windowSeconds))
  }

  /** The percentage reported is the share of busy time in a window in which something was measured. */
  predicate Consistent(u: UtilizationSignal) {
    var total := u.taskSeconds + u.idleSeconds;
    total > 0 && u.pct == Some(100.0 * u.taskSeconds as real / total as real)
  }

  /** The documented thresholds are two views of one line: on a consistent reading, utilization below
      60% and an idle share above 40% are the same fact. */
  lemma GatesCoincide(u: UtilizationSignal)
    requires Consistent(u)
    ensures u.pct.value < LOW_PCT <==> IdleShareOf(u) > HIGH_IDLE_SHARE
  {
    var task, total := u.taskSeconds as real, (u.taskSeconds + u.idleSeconds) as real;
    var pct, share := u.pct.value, IdleShareOf(u);
    assert share * total == total - task;
    assert pct * total == 100.0 * task;
    ScaleOrder(pct, LOW_PCT, total);
    ScaleOrder(HIGH_IDLE_SHARE, share, total);
    assert pct < LOW_PCT <==> 100.0 * task < 60.0 * total;
    assert share > HIGH_IDLE_SHARE <==> 0.4 * total < total - task;
  }

  lemma ScaleOrder(a: real, b: real, k: real)
    requires k > 0.0
    ensures a < b <==> a * k < b * k
  {
  }

  /** On a consistent reading each quadrant has its own outcome, and only a shallow queue with healthy
      utilization is silent. */
  lemma FourQuadrants(queueDepth: int, u: UtilizationSignal)
    requires Consistent(u)
    ensures var c, deep, low := CorrelateUtilization(queueDepth, Some(u)), queueDepth > QUEUE_DEPTH_HIGH, u.pct.value < LOW_PCT;
            && (c.None? <==> !deep && !low)
            && (c.Some? ==> (c.value.kind == StaffingGapConfirmed <==> deep && !low))
            && (c.Some? ==> (c.value.kind == ClaimFlowProblem <==> deep && low))
            && (c.Some? ==> (c.value.kind == Starvation <==> !deep && low))
  {
    GatesCoincide(u);
  }

  /** On any reading, a problem is named only when both metrics agree; a missing percentage, or a low
      one over an empty window, is always silent. */
  lemma NoSingleMetricRaisesAProblem(queueDepth: int, util: Option<UtilizationSignal>)
    ensures var c := CorrelateUtilization(queueDepth, util);
            && (c.Some? && c.value.kind != StaffingGapConfirmed <==>
                  util.Some? && util.value.pct.Some? && util.value.pct.value < LOW_PCT && IdleShareOf(util.value) > HIGH_IDLE_SHARE)
            && (util.Some? && util.value.taskSeconds + util.value.idleSeconds <= 0 && c.Some? ==>
                  util.value.pct.value >= LOW_PCT && c.value.kind == StaffingGapConfirmed)
            && (util.None? || util.value.pct.None? ==> c.None?)
  {
  }

  /** More than two fifths of the measured time was idle. */
  ghost predicate MostlyIdle(taskSeconds: int, idleSeconds: int) {
    taskSeconds + idleSeconds > 0 && 5 * idleSeconds > 2 * (taskSeconds + idleSeconds)
  }

  /** The outcome named, in terms of the depth and of the reading's own numbers. */
  ghost predicate Correlates(c: Option<Correlation>, depth: int, taskType: string, pct: Option<real>,
                             taskSeconds: int, idleSeconds: int, windowSeconds: int) {
    var low := pct.Some? && pct.value < 60.0;
    && (c.Some? ==> pct.Some?)
    && (c.Some? && c.value.kind == StaffingGapConfirmed <==> pct.Some? && !low && depth > 50)
    && (c.Some? && c.value.kind == ClaimFlowProblem <==> low && MostlyIdle(taskSeconds, idleSeconds) && depth > 50)
    && (c.Some? && c.value.kind == Starvation <==> low && MostlyIdle(taskSeconds, idleSeconds) && depth <= 50)
    && (c.Some? ==>
          && c.value.queueDepth == (if c.value.kind == StaffingGapConfirmed then None else Some(depth))
          && c.value.taskType == taskType && c.value.pct == pct.value && c.value.windowSeconds == windowSeconds
          && (if taskSeconds + idleSeconds <= 0 then c.value.idleShare == 0.0
              else c.value.idleShare * (taskSeconds + idleSeconds) as real == idleSeconds as real))
  }

  /** The idle-share gate in whole seconds. */
  lemma IdleGate(u: UtilizationSignal)
    requires u.taskSeconds + u.idleSeconds > 0
    ensures var total := u.taskSeconds + u.idleSeconds;
            && IdleShareOf(u) * total as real == u.idleSeconds as real
            && (IdleShareOf(u) > HIGH_IDLE_SHARE <==> MostlyIdle(u.taskSeconds, u.idleSeconds))
  {
    var idle, total := u.idleSeconds, u.taskSeconds + u.idleSeconds;
    var share := IdleShareOf(u);
    ShareTimesTotal(idle as real, total as real);
    ScaleOrder(HIGH_IDLE_SHARE, share, total as real);
    hide IdleShareOf;
    assert share > HIGH_IDLE_SHARE <==> idle as real > 0.4 * total as real;
    assert 5 * idle > 2 * total <==> (5 * idle) as real > (2 * total) as real;
    assert (5 * idle) as real == 5.0 * idle as real && (2 * total) as real == 2.0 * total as real;
  }

  lemma ShareTimesTotal(part: real, total: real)
    requires total > 0.0
    ensures part / total * total == part
  {
  }

  /** On any reading, consistent or not, the outcome and the numbers it prints are exact. */
  lemma CorrelationExactly(depth: int, u: UtilizationSignal)
    ensures Correlates(CorrelateUtilization(depth, Some(u)), depth, u.taskType, u.pct, u.taskSeconds, u.idleSeconds, u.windowSeconds)
  {
    if u.taskSeconds + u.idleSeconds > 0 {
      IdleGate(u);
      hide IdleShareOf, MostlyIdle;
    }
  }
}
