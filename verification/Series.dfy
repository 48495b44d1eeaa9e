/** Bucketed chart series (usecases/console_reports*.go): rows are summed per label into a map, the
    labels sorted, one point per label. Counts are exact, so sums are over real numbers. */
module Series {
  import opened Common
  import opened Labels

  /** A row as one chart sees it: its bucket label and the count it contributes. */
  datatype Row = Row(bucket: string, count: int)

  datatype SeriesPoint = SeriesPoint(bucket: string, value: real)

  // ----- what a series is -----

  /** The sum of a label's rows, in row order. */
  function SumFor(rows: seq<Row>, bucket: string): real {
    if rows == [] then 0.0 else
    SumFor(rows[..|rows| - 1], bucket) + if rows[|rows| - 1].bucket == bucket then rows[|rows| - 1].count as real else 0.0
  }

  function LabelsOf(rows: seq<Row>): set<string> {
    if rows == [] then {} else LabelsOf(rows[..|rows| - 1]) + {rows[|rows| - 1].bucket}
  }

  ghost function PointsFor(labels: seq<string>, rows: seq<Row>): seq<SeriesPoint> {
    seq(|labels|, i requires 0 <= i < |labels| => SeriesPoint(labels[i], SumFor(rows, labels[i])))
  }

  ghost function SeriesOf(rows: seq<Row>): seq<SeriesPoint> { PointsFor(Sorted(LabelsOf(rows)), rows) }

  ghost function LabelsIn(series: seq<SeriesPoint>): seq<string> {
    seq(|series|, i requires 0 <= i < |series| => series[i].bucket)
  }

  ghost predicate Totals(totals: map<string, real>, rows: seq<Row>) {
    totals.Keys == LabelsOf(rows) && forall bucket :: bucket in totals ==> totals[bucket] == SumFor(rows, bucket)
  }

  // ----- the loops -----

  method SumByLabel(rows: seq<Row>) returns (totals: map<string, real>)
    ensures Totals(totals, rows)
  {
    totals := map[];
    for i := 0 to |rows|
      invariant Totals(totals, rows[..i])
    {
      var front, row := rows[..i], rows[i];
      OneMoreRow(front, row);
      assert rows[..i + 1] == front + [row];
      if row.bucket !in totals { NoRows(front, row.bucket); }
      totals := totals[row.bucket := (if row.bucket in totals then totals[row.bucket] else 0.0) + row.count as real];
    }
    assert rows[..|rows|] == rows;
  }

  ghost function ReadOff(labels: seq<string>, totals: map<string, real>): seq<SeriesPoint> {
    seq(|labels|, i requires 0 <= i < |labels| => SeriesPoint(labels[i], if labels[i] in totals then totals[labels[i]] else 0.0))
  }

  method BucketSeries(totals: map<string, real>) returns (series: seq<SeriesPoint>)
    ensures series == ReadOff(Sorted(totals.Keys), totals)
  {
    var labels := SortedKeys(totals.Keys);
    SortedAscends(totals.Keys);
    series := [];
    for i := 0 to |labels|
      invariant |series| == i && forall j :: 0 <= j < i ==> series[j] == SeriesPoint(labels[j], totals[labels[j]])
    {
      series := series + [SeriesPoint(labels[i], totals[labels[i]])];
    }
  }

  lemma ReadOffIsTheSeries(totals: map<string, real>, rows: seq<Row>)
    requires Totals(totals, rows)
    ensures ReadOff(Sorted(totals.Keys), totals) == SeriesOf(rows)
  {
    SortedAscends(totals.Keys);
  }

  /** Planning throughput and catalog growth: sum per bucket, then the shared bucketing. */
  method FetchBucketed(report: Result<seq<Row>, string>) returns (r: Result<seq<SeriesPoint>, string>)
    ensures report.Err? ==> r == Err(report.error)
    ensures report.Ok? ==> r == Ok(SeriesOf(report.value))
  {
    if report.Err? { return Err(report.error); }
    var totals := SumByLabel(report.value);
    ReadOffIsTheSeries(totals, report.value);
    var series := BucketSeries(totals);
    return Ok(series);
  }

  /** Fulfillment throughput writes the bucketing out in line; it computes the same series. */
  method FulfillmentSeries(rows: seq<Row>) returns (series: seq<SeriesPoint>)
    ensures series == SeriesOf(rows)
  {
    var byTaskType := SumByLabel(rows);
    var taskTypes := SortedKeys(byTaskType.Keys);
    SortedAscends(byTaskType.Keys);
    series := [];
    for i := 0 to |taskTypes|
      invariant |series| == i
      invariant forall j :: 0 <= j < i ==> series[j] == SeriesPoint(taskTypes[j], SumFor(rows, taskTypes[j]))
    {
      series := series + [SeriesPoint(taskTypes[i], byTaskType[taskTypes[i]])];
    }
    assert LabelsIn(series) == taskTypes;
    SeriesIsDetermined(rows, series);
  }

  method FetchFulfillmentThroughput(report: Result<seq<Row>, string>) returns (r: Result<seq<SeriesPoint>, string>)
    ensures report.Err? ==> r == Err(report.error)
    ensures report.Ok? ==> r == Ok(SeriesOf(report.value))
  {
    if report.Err? { return Err(report.error); }
    var series := FulfillmentSeries(report.value);
    return Ok(series);
  }

  // ----- row by row -----

  lemma OneMoreRow(rows: seq<Row>, row: Row)
    ensures LabelsOf(rows + [row]) == LabelsOf(rows) + {row.bucket}
    ensures forall bucket :: SumFor(rows + [row], bucket) == SumFor(rows, bucket) + if row.bucket == bucket then row.count as real else 0.0
  {
    assert (rows + [row])[..|rows|] == rows;
  }

  lemma {:induction false} NoRows(rows: seq<Row>, bucket: string)
    requires bucket !in LabelsOf(rows)
    ensures SumFor(rows, bucket) == 0.0
  {
    if rows != [] {
      var front, last := rows[..|rows| - 1], rows[|rows| - 1];
      assert rows == front + [last];
      OneMoreRow(front, last);
      NoRows(front, bucket);
    }
  }

  // ----- the order of rows does not matter -----

  lemma {:induction false} SumSplits(a: seq<Row>, b: seq<Row>, bucket: string)
    ensures SumFor(a + b, bucket) == SumFor(a, bucket) + SumFor(b, bucket)
    decreases |b|
  {
    if b == [] {
      assert a + b == a;
    } else {
      var front, last := b[..|b| - 1], b[|b| - 1];
      assert a + b == (a + front) + [last] && b == front + [last];
      OneMoreRow(a + front, last);
      OneMoreRow(front, last);
      SumSplits(a, front, bucket);
    }
  }

  lemma RemoveOne(rows: seq<Row>, k: nat, bucket: string)
    requires k < |rows|
    ensures SumFor(rows, bucket)
            == SumFor(rows[..k] + rows[k + 1..], bucket) + if rows[k].bucket == bucket then rows[k].count as real else 0.0
    ensures multiset(rows[..k] + rows[k + 1..]) == multiset(rows) - multiset{rows[k]}
  {
    var before, row, after := rows[..k], rows[k], rows[k + 1..];
    assert rows == (before + [row]) + after;
    SumSplits(before + [row], after, bucket);
    OneMoreRow(before, row);
    SumSplits(before, after, bucket);
  }

  lemma {:induction false} SumIgnoresOrder(rows: seq<Row>, rows': seq<Row>, bucket: string)
    requires multiset(rows) == multiset(rows')
    ensures SumFor(rows, bucket) == SumFor(rows', bucket)
    decreases |rows|
  {
    if rows == [] {
      assert |multiset(rows')| == 0;
    } else {
      var n := |rows| - 1;
      assert rows[n] in multiset(rows');
      var k :| 0 <= k < |rows'| && rows'[k] == rows[n];
      RemoveOne(rows, n, bucket);
      RemoveOne(rows', k, bucket);
      assert rows[..n] + rows[n + 1..] == rows[..n];
      SumIgnoresOrder(rows[..n], rows'[..k] + rows'[k + 1..], bucket);
    }
  }

  /** The labels of a series are those of some row. */
  lemma {:induction false} LabelsOfRows(rows: seq<Row>, bucket: string)
    ensures bucket in LabelsOf(rows) <==> exists row :: row in rows && row.bucket == bucket
  {
    if rows != [] {
      assert rows == rows[..|rows| - 1] + [rows[|rows| - 1]];
      LabelsOfRows(rows[..|rows| - 1], bucket);
    }
  }

  lemma LabelsIgnoreOrder(rows: seq<Row>, rows': seq<Row>)
    requires multiset(rows) == multiset(rows')
    ensures LabelsOf(rows) <= LabelsOf(rows')
  {
    forall bucket | bucket in LabelsOf(rows) ensures bucket in LabelsOf(rows') {
      LabelsOfRows(rows, bucket);
      var row :| row in rows && row.bucket == bucket;
      assert row in multiset(rows');
      LabelsOfRows(rows', bucket);
    }
  }

  /** A series depends only on the multiset of its rows: upstream row order, which is no contract,
      cannot show. */
  lemma SeriesIgnoresRowOrder(rows: seq<Row>, rows': seq<Row>)
    requires multiset(rows) == multiset(rows')
    ensures SeriesOf(rows) == SeriesOf(rows')
  {
    LabelsIgnoreOrder(rows, rows');
    LabelsIgnoreOrder(rows', rows);
    assert LabelsOf(rows) == LabelsOf(rows');
    forall i | 0 <= i < |SeriesOf(rows)| ensures SeriesOf(rows)[i] == SeriesOf(rows')[i] {
      SumIgnoresOrder(rows, rows', Sorted(LabelsOf(rows))[i]);
    }
  }

  /** Any series that ascends strictly over exactly the rows' labels with their sums is this one. */
  lemma SeriesIsDetermined(rows: seq<Row>, series: seq<SeriesPoint>)
    requires Ascending(LabelsIn(series)) && forall bucket :: bucket in LabelsIn(series) <==> bucket in LabelsOf(rows)
    requires forall i :: 0 <= i < |series| ==> series[i].value == SumFor(rows, series[i].bucket)
    ensures series == SeriesOf(rows)
  {
    SortedAscends(LabelsOf(rows));
    AscendingIsUnique(LabelsIn(series), Sorted(LabelsOf(rows)));
    forall i | 0 <= i < |series| ensures series[i] == SeriesOf(rows)[i] {
      assert LabelsIn(series)[i] == series[i].bucket;
    }
  }

  // ----- totals and merges -----

  function Total(rows: seq<Row>): real {
    if rows == [] then 0.0 else Total(rows[..|rows| - 1]) + rows[|rows| - 1].count as real
  }

  function ValueSum(series: seq<SeriesPoint>): real {
    if series == [] then 0.0 else ValueSum(series[..|series| - 1]) + series[|series| - 1].value
  }

  ghost function SumOver(labels: seq<string>, rows: seq<Row>): real {
    if labels == [] then 0.0 else SumOver(labels[..|labels| - 1], rows) + SumFor(rows, labels[|labels| - 1])
  }

  lemma {:induction false} ValueSumIsSumOver(labels: seq<string>, rows: seq<Row>)
    ensures ValueSum(PointsFor(labels, rows)) == SumOver(labels, rows)
  {
    if labels != [] {
      var front := labels[..|labels| - 1];
      ValueSumIsSumOver(front, rows);
      assert PointsFor(labels, rows)[..|front|] == PointsFor(front, rows);
    }
  }

  lemma {:induction false} OneRowCountsOnce(labels: seq<string>, rows: seq<Row>, row: Row)
    requires Ascending(labels)
    ensures SumOver(labels, rows + [row]) == SumOver(labels, rows) + if row.bucket in labels then row.count as real else 0.0
  {
    if labels != [] {
      var front, last := labels[..|labels| - 1], labels[|labels| - 1];
      assert labels == front + [last];
      LessIsTotal(last, last);
      forall k | 0 <= k < |front| ensures front[k] != last { assert Less(labels[k], labels[|front|]); }
      forall i, j | 0 <= i < j < |front| ensures Less(front[i], front[j]) { assert Less(labels[i], labels[j]); }
      OneRowCountsOnce(front, rows, row);
      OneMoreRow(rows, row);
    }
  }

  lemma {:induction false} NothingOver(labels: seq<string>)
    ensures SumOver(labels, []) == 0.0
  {
    if labels != [] { NothingOver(labels[..|labels| - 1]); }
  }

  lemma {:induction false} EveryRowCounts(labels: seq<string>, rows: seq<Row>)
    requires Ascending(labels) && forall bucket :: bucket in LabelsOf(rows) ==> bucket in labels
    ensures SumOver(labels, rows) == Total(rows)
    decreases |rows|
  {
    if rows == [] {
      NothingOver(labels);
    } else {
      var front, last := rows[..|rows| - 1], rows[|rows| - 1];
      assert rows == front + [last];
      OneMoreRow(front, last);
      EveryRowCounts(labels, front);
      OneRowCountsOnce(labels, front, last);
    }
  }

  /** Nothing is lost in bucketing: the points add up to the rows. */
  lemma PointsAddUpToRows(rows: seq<Row>)
    ensures ValueSum(SeriesOf(rows)) == Total(rows)
  {
    SortedAscends(LabelsOf(rows));
    ValueSumIsSumOver(Sorted(LabelsOf(rows)), rows);
    EveryRowCounts(Sorted(LabelsOf(rows)), rows);
  }

  /** What a series says about a label; no point reads as zero. */
  ghost function ValueAt(series: seq<SeriesPoint>, bucket: string): real {
    if exists i :: 0 <= i < |series| && series[i].bucket == bucket
    then var i :| 0 <= i < |series| && series[i].bucket == bucket; series[i].value
    else 0.0
  }

  lemma ValueAtIsTheSum(rows: seq<Row>, bucket: string)
    ensures ValueAt(SeriesOf(rows), bucket) == SumFor(rows, bucket)
  {
    var labels := Sorted(LabelsOf(rows));
    SortedAscends(LabelsOf(rows));
    if bucket in LabelsOf(rows) {
      var i :| 0 <= i < |labels| && labels[i] == bucket;
      assert SeriesOf(rows)[i].bucket == bucket;
    } else {
      NoRows(rows, bucket);
      forall i | 0 <= i < |SeriesOf(rows)| ensures SeriesOf(rows)[i].bucket != bucket {
        assert labels[i] in labels;
      }
    }
  }

  /** The series of two reports together is the pointwise merge of their series. */
  lemma SeriesMerge(a: seq<Row>, b: seq<Row>)
    ensures forall bucket :: bucket in LabelsIn(SeriesOf(a + b)) <==>
              bucket in LabelsIn(SeriesOf(a)) || bucket in LabelsIn(SeriesOf(b))
    ensures forall bucket :: ValueAt(SeriesOf(a + b), bucket) == ValueAt(SeriesOf(a), bucket) + ValueAt(SeriesOf(b), bucket)
  {
    SeriesLabels(a); SeriesLabels(b); SeriesLabels(a + b);
    forall bucket ensures ValueAt(SeriesOf(a + b), bucket) == ValueAt(SeriesOf(a), bucket) + ValueAt(SeriesOf(b), bucket) {
      ValueAtIsTheSum(a, bucket); ValueAtIsTheSum(b, bucket); ValueAtIsTheSum(a + b, bucket);
      SumSplits(a, b, bucket);
    }
    forall bucket ensures bucket in LabelsOf(a + b) <==> bucket in LabelsOf(a) || bucket in LabelsOf(b) {
      LabelsOfRows(a, bucket); LabelsOfRows(b, bucket); LabelsOfRows(a + b, bucket);
    }
  }

  /** Labels ascend strictly and are exactly the rows' labels. */
  lemma SeriesLabels(rows: seq<Row>)
    ensures Ascending(LabelsIn(SeriesOf(rows))) && forall bucket :: bucket in LabelsIn(SeriesOf(rows)) <==> bucket in LabelsOf(rows)
  {
    SortedAscends(LabelsOf(rows));
    assert LabelsIn(SeriesOf(rows)) == Sorted(LabelsOf(rows));
  }
}
