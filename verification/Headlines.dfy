/** The fixed-shape chart series (usecases/console_reports_wes.go, console_reports_wms.go): headline
    counters summed over all rows, and the labor-performance bars. */
module Headlines {
  import opened Common
  import opened Series

  datatype FunnelRow = FunnelRow(received: int, fullyAllocated: int, partiallyAllocated: int, allocationFailed: int, released: int, cancelled: int)
  datatype FlowRow = FlowRow(stowed: int, picked: int, discrepancies: int, unlocated: int)
  datatype LaborRow = LaborRow(shiftsStarted: int, laborAssigned: int, understaffingEvents: int)

  /** One counter over a report. */
  function CountOf<T>(rows: seq<T>, f: T -> int): int {
    if rows == [] then 0 else CountOf(rows[..|rows| - 1], f) + f(rows[|rows| - 1])
  }

  lemma CountSnoc<T>(rows: seq<T>, i: nat, f: T -> int)
    requires i < |rows|
    ensures CountOf(rows[..i + 1], f) == CountOf(rows[..i], f) + f(rows[i])
  {
    assert rows[..i + 1][..i] == rows[..i];
  }

  lemma {:induction false} CountSplits<T>(a: seq<T>, b: seq<T>, f: T -> int)
    ensures CountOf(a + b, f) == CountOf(a, f) + CountOf(b, f)
    decreases |b|
  {
    if b == [] {
      assert a + b == a;
    } else {
      assert (a + b)[..|a + b| - 1] == a + b[..|b| - 1];
      CountSplits(a, b[..|b| - 1], f);
    }
  }

  lemma WithoutOne<T>(rows: seq<T>, k: nat)
    requires k < |rows|
    ensures multiset(rows[..k] + rows[k + 1..]) == multiset(rows) - multiset{rows[k]}
  {
    assert rows == rows[..k] + ([rows[k]] + rows[k + 1..]);
  }

  lemma RemoveOne<T>(rows: seq<T>, k: nat, f: T -> int)
    requires k < |rows|
    ensures CountOf(rows, f) == CountOf(rows[..k] + rows[k + 1..], f) + f(rows[k])
  {
    var before, row, after := rows[..k], rows[k], rows[k + 1..];
    assert rows == before + ([row] + after);
    CountSplits(before, [row] + after, f);
    CountSplits([row], after, f);
    CountSplits(before, after, f);
    assert [row][..0] == [];
  }

  /** A counter depends only on the multiset of the rows. */
  lemma {:induction false} CountIgnoresRowOrder<T>(rows: seq<T>, rows': seq<T>, f: T -> int)
    requires multiset(rows) == multiset(rows')
    ensures CountOf(rows, f) == CountOf(rows', f)
    decreases |rows|
  {
    if rows == [] {
      assert |multiset(rows')| == 0;
    } else {
      var n := |rows| - 1;
      assert rows[n] in multiset(rows');
      var k :| 0 <= k < |rows'| && rows'[k] == rows[n];
      RemoveOne(rows, n, f);
      RemoveOne(rows', k, f);
      WithoutOne(rows, n);
      WithoutOne(rows', k);
      assert rows[..n] + rows[n + 1..] == rows[..n];
      CountIgnoresRowOrder(rows[..n], rows'[..k] + rows'[k + 1..], f);
    }
  }

  function Received(r: FunnelRow): int { r.received }
  function Allocated(r: FunnelRow): int { r.fullyAllocated + r.partiallyAllocated }
  function Released(r: FunnelRow): int { r.released }
  function Lost(r: FunnelRow): int { r.cancelled + r.allocationFailed }

  function FunnelSeries(rows: seq<FunnelRow>): seq<SeriesPoint> {
    [SeriesPoint("Received", CountOf(rows, Received) as real),
     SeriesPoint("Allocated", CountOf(rows, Allocated) as real),
     SeriesPoint("Released", CountOf(rows, Released) as real),
     SeriesPoint("Cancelled / Failed", CountOf(rows, Lost) as real)]
  }

  method FetchOrderFunnel(report: Result<seq<FunnelRow>, string>) returns (r: Result<seq<SeriesPoint>, string>)
    ensures report.Err? ==> r == Err(report.error)
    ensures report.Ok? ==> r == Ok(FunnelSeries(report.value))
  {
    if report.Err? { return Err(report.error); }
    var rows := report.value;
    var received, allocations, released, cancelledOrFailed := 0, 0, 0, 0;
    for i := 0 to |rows|
      invariant received == CountOf(rows[..i], Received) && allocations == CountOf(rows[..i], Allocated)
      invariant released == CountOf(rows[..i], Released) && cancelledOrFailed == CountOf(rows[..i], Lost)
    {
      CountSnoc(rows, i, Received); CountSnoc(rows, i, Allocated); CountSnoc(rows, i, Released); CountSnoc(rows, i, Lost);
      received := received + rows[i].received;
      allocations := allocations + rows[i].fullyAllocated + rows[i].partiallyAllocated;
      released := released + rows[i].released;
      cancelledOrFailed := cancelledOrFailed + rows[i].cancelled + rows[i].allocationFailed;
    }
    assert rows[..|rows|] == rows;
    return Ok([SeriesPoint("Received", received as real), SeriesPoint("Allocated", allocations as real),
               SeriesPoint("Released", released as real), SeriesPoint("Cancelled / Failed", cancelledOrFailed as real)]);
  }

  function Stowed(r: FlowRow): int { r.stowed }
  function Picked(r: FlowRow): int { r.picked }
  function Discrepancies(r: FlowRow): int { r.discrepancies }
  function Unlocated(r: FlowRow): int { r.unlocated }

  function FlowSeries(rows: seq<FlowRow>): seq<SeriesPoint> {
    [SeriesPoint("Stowed", CountOf(rows, Stowed) as real),
     SeriesPoint("Picked", CountOf(rows, Picked) as real),
     SeriesPoint("Discrepancies", CountOf(rows, Discrepancies) as real),
     SeriesPoint("Unlocated", CountOf(rows, Unlocated) as real)]
  }

  method FetchInventoryFlowAccuracy(report: Result<seq<FlowRow>, string>) returns (r: Result<seq<SeriesPoint>, string>)
    ensures report.Err? ==> r == Err(report.error)
    ensures report.Ok? ==> r == Ok(FlowSeries(report.value))
  {
    if report.Err? { return Err(report.error); }
    var rows := report.value;
    var stowed, picked, discrepancies, unlocated := 0, 0, 0, 0;
    for i := 0 to |rows|
      invariant stowed == CountOf(rows[..i], Stowed) && picked == CountOf(rows[..i], Picked)
      invariant discrepancies == CountOf(rows[..i], Discrepancies) && unlocated == CountOf(rows[..i], Unlocated)
    {
      CountSnoc(rows, i, Stowed); CountSnoc(rows, i, Picked); CountSnoc(rows, i, Discrepancies); CountSnoc(rows, i, Unlocated);
      stowed := stowed + rows[i].stowed;
      picked := picked + rows[i].picked;
      discrepancies := discrepancies + rows[i].discrepancies;
      unlocated := unlocated + rows[i].unlocated;
    }
    assert rows[..|rows|] == rows;
    return Ok([SeriesPoint("Stowed", stowed as real), SeriesPoint("Picked", picked as real),
               SeriesPoint("Discrepancies", discrepancies as real), SeriesPoint("Unlocated", unlocated as real)]);
  }

  function ShiftsStarted(r: LaborRow): int { r.shiftsStarted }
  function LaborAssigned(r: LaborRow): int { r.laborAssigned }
  function UnderstaffingEvents(r: LaborRow): int { r.understaffingEvents }

  function LaborSeries(rows: seq<LaborRow>): seq<SeriesPoint> {
    [SeriesPoint("Shifts Started", CountOf(rows, ShiftsStarted) as real),
     SeriesPoint("Labor Assigned", CountOf(rows, LaborAssigned) as real),
     SeriesPoint("Understaffing Events", CountOf(rows, UnderstaffingEvents) as real)]
  }

  method FetchLabor(report: Result<seq<LaborRow>, string>) returns (r: Result<seq<SeriesPoint>, string>)
    ensures report.Err? ==> r == Err(report.error)
    ensures report.Ok? ==> r == Ok(LaborSeries(report.value))
  {
    if report.Err? { return Err(report.error); }
    var rows := report.value;
    var shiftsStarted, laborAssigned, understaffing := 0, 0, 0;
    for i := 0 to |rows|
      invariant shiftsStarted == CountOf(rows[..i], ShiftsStarted) && laborAssigned == CountOf(rows[..i], LaborAssigned)
      invariant understaffing == CountOf(rows[..i], UnderstaffingEvents)
    {
      CountSnoc(rows, i, ShiftsStarted); CountSnoc(rows, i, LaborAssigned); CountSnoc(rows, i, UnderstaffingEvents);
      shiftsStarted := shiftsStarted + rows[i].shiftsStarted;
      laborAssigned := laborAssigned + rows[i].laborAssigned;
      understaffing := understaffing + rows[i].understaffingEvents;
    }
    assert rows[..|rows|] == rows;
    return Ok([SeriesPoint("Shifts Started", shiftsStarted as real), SeriesPoint("Labor Assigned", laborAssigned as real),
               SeriesPoint("Understaffing Events", understaffing as real)]);
  }

  lemma OneMoreCounted<T>(rows: seq<T>, row: T, f: T -> int)
    ensures CountOf(rows + [row], f) == CountOf(rows, f) + f(row)
  {
    assert (rows + [row])[..|rows|] == rows;
  }

  /** Bars in order, each with its label and its total so far. */
  ghost predicate Bars(series: seq<SeriesPoint>, labels: seq<string>, totals: seq<int>) {
    && |series| == |labels| == |totals|
    && forall i :: 0 <= i < |series| ==> series[i] == SeriesPoint(labels[i], totals[i] as real)
  }

  const FUNNEL_LABELS := ["Received", "Allocated", "Released", "Cancelled / Failed"]

  /** One more row of the funnel adds its own fields to the bars: partial allocations count as allocated,
      failed ones with the cancelled. An empty report has empty bars. */
  lemma FunnelCounts(rows: seq<FunnelRow>, r: FunnelRow, totals: seq<int>)
    requires Bars(FunnelSeries(rows), FUNNEL_LABELS, totals)
    ensures Bars(FunnelSeries([]), FUNNEL_LABELS, [0, 0, 0, 0])
    ensures Bars(FunnelSeries(rows + [r]), FUNNEL_LABELS,
                 [totals[0] + r.received, totals[1] + r.fullyAllocated + r.partiallyAllocated, totals[2] + r.released,
                  totals[3] + r.cancelled + r.allocationFailed])
  {
    hide CountOf;
    OneMoreCounted(rows, r, Received); OneMoreCounted(rows, r, Allocated);
    OneMoreCounted(rows, r, Released); OneMoreCounted(rows, r, Lost);
    NothingCounted(Received); NothingCounted(Allocated); NothingCounted(Released); NothingCounted(Lost);
    var s, s' := FunnelSeries(rows), FunnelSeries(rows + [r]);
    assert s[0].value == totals[0] as real && s[1].value == totals[1] as real;
    assert s[2].value == totals[2] as real && s[3].value == totals[3] as real;
  }

  lemma NothingCounted<T>(f: T -> int)
    ensures CountOf([], f) == 0
  {
  }

  const FLOW_LABELS := ["Stowed", "Picked", "Discrepancies", "Unlocated"]

  lemma FlowCounts(rows: seq<FlowRow>, r: FlowRow, totals: seq<int>)
    requires Bars(FlowSeries(rows), FLOW_LABELS, totals)
    ensures Bars(FlowSeries([]), FLOW_LABELS, [0, 0, 0, 0])
    ensures Bars(FlowSeries(rows + [r]), FLOW_LABELS,
                 [totals[0] + r.stowed, totals[1] + r.picked, totals[2] + r.discrepancies, totals[3] + r.unlocated])
  {
    hide CountOf;
    OneMoreCounted(rows, r, Stowed); OneMoreCounted(rows, r, Picked);
    OneMoreCounted(rows, r, Discrepancies); OneMoreCounted(rows, r, Unlocated);
    NothingCounted(Stowed); NothingCounted(Picked); NothingCounted(Discrepancies); NothingCounted(Unlocated);
    var s := FlowSeries(rows);
    assert s[0].value == totals[0] as real && s[1].value == totals[1] as real;
    assert s[2].value == totals[2] as real && s[3].value == totals[3] as real;
  }

  const LABOR_LABELS := ["Shifts Started", "Labor Assigned", "Understaffing Events"]

  lemma LaborCounts(rows: seq<LaborRow>, r: LaborRow, totals: seq<int>)
    requires Bars(LaborSeries(rows), LABOR_LABELS, totals)
    ensures Bars(LaborSeries([]), LABOR_LABELS, [0, 0, 0])
    ensures Bars(LaborSeries(rows + [r]), LABOR_LABELS,
                 [totals[0] + r.shiftsStarted, totals[1] + r.laborAssigned, totals[2] + r.understaffingEvents])
  {
    hide CountOf;
    OneMoreCounted(rows, r, ShiftsStarted); OneMoreCounted(rows, r, LaborAssigned);
    OneMoreCounted(rows, r, UnderstaffingEvents);
    NothingCounted(ShiftsStarted); NothingCounted(LaborAssigned); NothingCounted(UnderstaffingEvents);
    var s := LaborSeries(rows);
    assert s[0].value == totals[0] as real && s[1].value == totals[1] as real && s[2].value == totals[2] as real;
  }

  /** No headline chart can show the order its upstream returned rows in. */
  lemma HeadlinesIgnoreRowOrder(f: seq<FunnelRow>, f': seq<FunnelRow>, w: seq<FlowRow>, w': seq<FlowRow>,
                                l: seq<LaborRow>, l': seq<LaborRow>)
    requires multiset(f) == multiset(f') && multiset(w) == multiset(w') && multiset(l) == multiset(l')
    ensures FunnelSeries(f) == FunnelSeries(f') && FlowSeries(w) == FlowSeries(w') && LaborSeries(l) == LaborSeries(l')
  {
    CountIgnoresRowOrder(f, f', Received); CountIgnoresRowOrder(f, f', Allocated);
    CountIgnoresRowOrder(f, f', Released); CountIgnoresRowOrder(f, f', Lost);
    CountIgnoresRowOrder(w, w', Stowed); CountIgnoresRowOrder(w, w', Picked);
    CountIgnoresRowOrder(w, w', Discrepancies); CountIgnoresRowOrder(w, w', Unlocated);
    CountIgnoresRowOrder(l, l', ShiftsStarted); CountIgnoresRowOrder(l, l', LaborAssigned);
    CountIgnoresRowOrder(l, l', UnderstaffingEvents);
  }

  // ----- labor performance -----

  datatype TaskTypeBar = TaskTypeBar(taskType: string, meanEfficiencyPct: Option<real>)

  function BarSeries(bars: seq<TaskTypeBar>): seq<SeriesPoint> {
    if bars == [] then [] else
    var last := bars[|bars| - 1];
    BarSeries(bars[..|bars| - 1])
    + if last.meanEfficiencyPct.Some? then [SeriesPoint(last.taskType, last.meanEfficiencyPct.value)] else []
  }

  method FetchLaborPerformance(report: Result<seq<TaskTypeBar>, string>) returns (r: Result<seq<SeriesPoint>, string>)
    ensures report.Err? ==> r == Err(report.error)
    ensures report.Ok? ==> r == Ok(BarSeries(report.value))
  {
    if report.Err? { return Err(report.error); }
    var bars := report.value;
    var series: seq<SeriesPoint> := [];
    for i := 0 to |bars|
      invariant series == BarSeries(bars[..i])
    {
      assert bars[..i + 1][..i] == bars[..i];
      if bars[i].meanEfficiencyPct.None? { continue; }
      series := series + [SeriesPoint(bars[i].taskType, bars[i].meanEfficiencyPct.value)];
    }
    assert bars[..|bars|] == bars;
    return Ok(series);
  }

  /** A missing mean is never drawn as a number: the points are exactly the measured bars, and removing
      every unmeasured bar beforehand changes nothing. */
  lemma {:induction false} OnlyMeasuredBars(bars: seq<TaskTypeBar>, before: seq<TaskTypeBar>,
                                            after: seq<TaskTypeBar>, name: string)
    ensures forall p :: p in BarSeries(bars) <==> TaskTypeBar(p.bucket, Some(p.value)) in bars
    ensures BarSeries(before + [TaskTypeBar(name, None)] + after) == BarSeries(before + after)
    decreases |bars| + |after|
  {
    if bars != [] {
      assert bars == bars[..|bars| - 1] + [bars[|bars| - 1]];
      OnlyMeasuredBars(bars[..|bars| - 1], before, after, name);
    } else if after == [] {
      assert before + [TaskTypeBar(name, None)] + after == before + [TaskTypeBar(name, None)];
      assert (before + [TaskTypeBar(name, None)])[..|before|] == before && before + after == before;
    } else {
      var front, last := after[..|after| - 1], after[|after| - 1];
      OnlyMeasuredBars([], before, front, name);
      assert before + [TaskTypeBar(name, None)] + after == (before + [TaskTypeBar(name, None)] + front) + [last];
      assert before + after == (before + front) + [last];
      BarSnoc(before + [TaskTypeBar(name, None)] + front, last);
      BarSnoc(before + front, last);
    }
  }

  lemma BarSnoc(bars: seq<TaskTypeBar>, bar: TaskTypeBar)
    ensures BarSeries(bars + [bar])
            == BarSeries(bars) + if bar.meanEfficiencyPct.Some? then [SeriesPoint(bar.taskType, bar.meanEfficiencyPct.value)] else []
  {
    assert (bars + [bar])[..|bars|] == bars;
  }

  /** The measured bars come one point each, in the order of the report, repetitions included. */
  lemma {:induction false} BarsInOrder(before: seq<TaskTypeBar>, after: seq<TaskTypeBar>, bar: TaskTypeBar)
    ensures BarSeries(before + after) == BarSeries(before) + BarSeries(after)
    ensures BarSeries([bar])
            == if bar.meanEfficiencyPct.Some? then [SeriesPoint(bar.taskType, bar.meanEfficiencyPct.value)] else []
    decreases |after|
  {
    assert [bar][..0] == [];
    if after == [] {
      assert before + after == before;
    } else {
      assert (before + after)[..|before + after| - 1] == before + after[..|after| - 1];
      BarsInOrder(before, after[..|after| - 1], bar);
    }
  }
}
