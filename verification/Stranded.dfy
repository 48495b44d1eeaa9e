/** The stranded-reservation decision: the pure policy (internal/domain/policy/stranded_reservation.go)
    and the gathering use case (usecases/stranded_reservation.go). */
module Stranded {
  import opened Common
  import opened Ports

  const TASK_TYPES := {"PICK", "PACK", "SLAM"}

  datatype BinLine = BinLine(stockUnitId: string, sku: string, reserved: int, usable: int, state: string)

  /** One occupancy reading, as inventory-storage returns it. */
  datatype BinOccupancy = BinOccupancy(binId: string, lines: seq<BinLine>)

  datatype Availability = Availability(sku: string, usable: int)

  datatype BlastRadius = BlastRadius(sku: string, binId: string, reservationId: string, quantityFreed: int, binLines: seq<BinLine>)

  datatype Evidence =
    | StuckTasksUnavailable
    | ExpiredLeases(count: nat, taskType: string)
    | AvailabilityUnavailable
    | UsableStock(sku: string, usable: int, threshold: int)
    | NoCandidate
    | OccupancyUnavailable
    | BinHolds(binId: string, quantity: int, sku: string)

  datatype Why =
    | LeaseSignalUnavailable
    | NoExpiredLeases(taskType: string)
    | AvailabilitySignalUnavailable
    | AboveThreshold(sku: string, usable: int, threshold: int)
    | NoReservation
    | BlastRadiusUnavailable
    | Correlated(count: nat, taskType: string, sku: string, usable: int, threshold: int, reservationId: string, binId: string, freed: int)

  datatype Action = RevokeReservation | Hold

  datatype Finding = Finding(detected: bool, action: Action, reservationId: string, why: Why, evidence: seq<Evidence>, blast: Option<BlastRadius>)

  datatype Inputs = Inputs(
    taskType: string,
    stuck: Option<seq<StuckTask>>,
    threshold: int,
    availability: Option<Availability>,
    reservationId: string,
    bin: Option<BlastRadius>)

  // ----- policy -----

  function OfType(tasks: seq<StuckTask>, t: string): seq<StuckTask> {
    if tasks == [] then [] else
    OfType(tasks[..|tasks| - 1], t) + if tasks[|tasks| - 1].taskType == t then [tasks[|tasks| - 1]] else []
  }

  method StuckByType(tasks: seq<StuckTask>, t: string) returns (out: seq<StuckTask>)
    ensures out == OfType(tasks, t)
  {
    out := [];
    for i := 0 to |tasks|
      invariant out == OfType(tasks[..i], t)
    {
      assert tasks[..i + 1][..i] == tasks[..i];
      if tasks[i].taskType == t { out := out + [tasks[i]]; }
    }
    assert tasks[..|tasks|] == tasks;
  }

  function HoldFinding(detected: bool, reservationId: string, why: Why, evidence: seq<Evidence>): Finding {
    Finding(detected, Hold, reservationId, why, evidence, None)
  }

  function RevokeFinding(inp: Inputs, expired: nat, evidence: seq<Evidence>): Finding
    requires inp.availability.Some? && inp.bin.Some?
  {
    var a, b := inp.availability.value, inp.bin.value;
    Finding(true, RevokeReservation, inp.reservationId,
            Correlated(expired, inp.taskType, a.sku, a.usable, inp.threshold, inp.reservationId, b.binId, b.quantityFreed),
            evidence, inp.bin)
  }

  function Evaluate(inp: Inputs): Result<Finding, string> {
    if inp.taskType !in TASK_TYPES then Err(inp.taskType)
    else if inp.stuck.None? then Ok(HoldFinding(false, "", LeaseSignalUnavailable, [StuckTasksUnavailable]))
    else
      var expired := |OfType(inp.stuck.value, inp.taskType)|;
      var e1 := [ExpiredLeases(expired, inp.taskType)];
      if expired == 0 then Ok(HoldFinding(false, "", NoExpiredLeases(inp.taskType), e1))
      else if inp.availability.None? then
        Ok(HoldFinding(false, "", AvailabilitySignalUnavailable, e1 + [AvailabilityUnavailable]))
      else
        var a := inp.availability.value;
        var e2 := e1 + [UsableStock(a.sku, a.usable, inp.threshold)];
        if a.usable > inp.threshold then Ok(HoldFinding(false, "", AboveThreshold(a.sku, a.usable, inp.threshold), e2))
        else if inp.reservationId == "" then Ok(HoldFinding(true, "", NoReservation, e2 + [NoCandidate]))
        else if inp.bin.None? then
          Ok(HoldFinding(true, inp.reservationId, BlastRadiusUnavailable, e2 + [OccupancyUnavailable]))
        else
          var b := inp.bin.value;
          Ok(RevokeFinding(inp, expired, e2 + [BinHolds(b.binId, b.quantityFreed, b.sku)]))
  }

  // ----- gathering -----

  datatype Request = Request(taskType: string, sku: string, threshold: int, reservationId: string, binId: string)

  /** What the three reads would answer if made. */
  datatype Answers = Answers(
    stuck: Result<StuckTasksReading, string>,
    availability: Result<Availability, string>,
    occupancy: Result<BinOccupancy, string>)

  /** The reserved quantity on the lines of one SKU. */
  function ReservedOf(lines: seq<BinLine>, sku: string): int {
    if lines == [] then 0 else
    ReservedOf(lines[..|lines| - 1], sku) + if lines[|lines| - 1].sku == sku then lines[|lines| - 1].reserved else 0
  }

  method ToBlastRadius(occ: BinOccupancy, sku: string, reservationId: string) returns (b: BlastRadius)
    ensures b == BlastRadius(sku, occ.binId, reservationId, ReservedOf(occ.lines, sku), occ.lines)
  {
    var lines: seq<BinLine> := [];
    var freed := 0;
    for i := 0 to |occ.lines|
      invariant lines == occ.lines[..i]
      invariant freed == ReservedOf(occ.lines[..i], sku)
    {
      assert occ.lines[..i + 1][..i] == occ.lines[..i];
      lines := lines + [occ.lines[i]];
      if occ.lines[i].sku == sku { freed := freed + occ.lines[i].reserved; }
    }
    assert occ.lines[..|occ.lines|] == occ.lines;
    b := BlastRadius(sku, occ.binId, reservationId, freed, lines);
  }

  function Gathered(req: Request, ans: Answers): Inputs {
    Inputs(req.taskType,
           if ans.stuck.Ok? then Some(ans.stuck.value.tasks) else None,
           req.threshold,
           if req.sku != "" && ans.availability.Ok? then Some(ans.availability.value) else None,
           req.reservationId,
           if req.reservationId != "" && req.binId != "" && ans.occupancy.Ok?
           then Some(BlastRadius(req.sku, ans.occupancy.value.binId, req.reservationId,
                                 ReservedOf(ans.occupancy.value.lines, req.sku), ans.occupancy.value.lines))
           else None)
  }

  function Detect(req: Request, ans: Answers): Result<Finding, string> { Evaluate(Gathered(req, ans)) }

  method Execute(req: Request, ans: Answers) returns (r: Result<Finding, string>)
    ensures r == Detect(req, ans)
  {
    var inp := Inputs(req.taskType, None, req.threshold, None, req.reservationId, None);
    if ans.stuck.Ok? { inp := inp.(stuck := Some(ans.stuck.value.tasks)); }
    if req.sku != "" {
      if ans.availability.Ok? { inp := inp.(availability := Some(ans.availability.value)); }
    }
    if req.reservationId != "" && req.binId != "" {
      if ans.occupancy.Ok? {
        var blast := ToBlastRadius(ans.occupancy.value, req.sku, req.reservationId);
        inp := inp.(bin := Some(blast));
      }
    }
    return Evaluate(inp);
  }

  // ----- what a revoke takes -----

  predicate Revokes(r: Result<Finding, string>) { r.Ok? && r.value.action == RevokeReservation }

  lemma {:induction false} OfTypeExactly(tasks: seq<StuckTask>, t: string)
    ensures OfType(tasks, t) != [] <==> exists task :: task in tasks && task.taskType == t
  {
    if tasks != [] {
      assert tasks == tasks[..|tasks| - 1] + [tasks[|tasks| - 1]];
      OfTypeExactly(tasks[..|tasks| - 1], t);
    }
  }

  /** Expired leases of the type and a shortfall of the SKU, both actually read. */
  ghost predicate ShortfallCorrelates(req: Request, ans: Answers) {
    && req.taskType in TASK_TYPES && req.sku != ""
    && ans.stuck.Ok? && (exists task :: task in ans.stuck.value.tasks && task.taskType == req.taskType)
    && ans.availability.Ok? && ans.availability.value.usable <= req.threshold
  }

  /** Everything a revoke needs, in terms of the request and of the three reads alone. */
  ghost predicate FullyCorrelated(req: Request, ans: Answers) {
    ShortfallCorrelates(req, ans) && req.reservationId != "" && req.binId != "" && ans.occupancy.Ok?
  }

  /** A revoke is recommended exactly when everything correlates, and then carries the request's SKU and
      reservation, the bin as read, line for line, and exactly the reserved stock of that SKU. Nothing
      short of that carries a blast radius. */
  lemma RevokeExactly(req: Request, ans: Answers)
    ensures Revokes(Detect(req, ans)) <==> FullyCorrelated(req, ans)
    ensures Revokes(Detect(req, ans)) ==>
              && Detect(req, ans).value.reservationId == req.reservationId
              && Detect(req, ans).value.blast == Some(BlastRadius(req.sku, ans.occupancy.value.binId, req.reservationId,
                   ReservedOf(ans.occupancy.value.lines, req.sku), ans.occupancy.value.lines))
    ensures Detect(req, ans).Ok? && !Revokes(Detect(req, ans)) ==> Detect(req, ans).value.blast == None
  {
    if ans.stuck.Ok? { OfTypeExactly(ans.stuck.value.tasks, req.taskType); }
  }

  /** A failed or skipped read never strengthens the finding, no finding goes without evidence, and only
      an unknown task type is an error. */
  lemma FindingsShowTheirWork(req: Request, ans: Answers)
    ensures Detect(req, ans).Err? <==> req.taskType !in TASK_TYPES
    ensures Detect(req, ans).Ok? ==> Detect(req, ans).value.evidence != []
    ensures Detect(req, ans).Ok? && Detect(req, ans).value.detected <==> ShortfallCorrelates(req, ans)
    ensures Revokes(Detect(req, ans)) ==> Detect(req, ans).value.detected
  {
    if ans.stuck.Ok? { OfTypeExactly(ans.stuck.value.tasks, req.taskType); }
  }

  /** Raising the threshold, or more stuck tasks, never turns a revoke into a hold. */
  lemma RevokeIsMonotone(req: Request, req': Request, ans: Answers, ans': Answers)
    requires Revokes(Detect(req, ans))
    requires req' == req.(threshold := req'.threshold) && req'.threshold >= req.threshold
    requires ans' == ans.(stuck := ans'.stuck) && ans'.stuck.Ok?
    requires forall task :: task in ans.stuck.value.tasks ==> task in ans'.stuck.value.tasks
    ensures Revokes(Detect(req', ans')) && Detect(req', ans').value.blast == Detect(req, ans).value.blast
  {
    RevokeExactly(req, ans);
    RevokeExactly(req', ans');
  }

  /** The freed quantity is counted line by line, wherever the bin is cut. */
  lemma {:induction false} ReservedSplits(a: seq<BinLine>, b: seq<BinLine>, sku: string)
    ensures ReservedOf(a + b, sku) == ReservedOf(a, sku) + ReservedOf(b, sku)
    decreases |b|
  {
    if b == [] {
      assert a + b == a;
    } else {
      assert (a + b)[..|a + b| - 1] == a + b[..|b| - 1];
      ReservedSplits(a, b[..|b| - 1], sku);
    }
  }

  lemma RemoveLine(lines: seq<BinLine>, k: nat, sku: string)
    requires k < |lines|
    ensures var rest := lines[..k] + lines[k + 1..];
            && multiset(rest) == multiset(lines) - multiset{lines[k]}
            && ReservedOf(lines, sku) == ReservedOf(rest, sku) + ReservedOf([lines[k]], sku)
  {
    var before, line, after := lines[..k], lines[k], lines[k + 1..];
    assert lines == before + ([line] + after);
    ReservedSplits(before, [line] + after, sku);
    ReservedSplits([line], after, sku);
    ReservedSplits(before, after, sku);
  }

  /** What a revoke frees does not depend on the order the bin's lines came in. */
  lemma {:induction false} FreedIgnoresLineOrder(lines: seq<BinLine>, lines': seq<BinLine>, sku: string)
    requires multiset(lines) == multiset(lines')
    ensures ReservedOf(lines, sku) == ReservedOf(lines', sku)
    decreases |lines|
  {
    hide ReservedOf;
    if lines == [] {
      assert |multiset(lines')| == 0;
    } else {
      assert lines[0] in multiset(lines');
      var k :| 0 <= k < |lines'| && lines'[k] == lines[0];
      RemoveLine(lines, 0, sku);
      RemoveLine(lines', k, sku);
      FreedIgnoresLineOrder(lines[..0] + lines[1..], lines'[..k] + lines'[k + 1..], sku);
    }
  }

  /** The bin's whole reservation is the part freed plus what is reserved under other SKUs. */
  lemma {:induction false} FreedPlusOthers(lines: seq<BinLine>, sku: string)
    ensures ReservedOf(lines, sku) + ReservedOutside(lines, sku) == TotalReserved(lines)
  {
    if lines != [] { FreedPlusOthers(lines[..|lines| - 1], sku); }
  }

  function ReservedOutside(lines: seq<BinLine>, sku: string): int {
    if lines == [] then 0 else
    ReservedOutside(lines[..|lines| - 1], sku) + if lines[|lines| - 1].sku != sku then lines[|lines| - 1].reserved else 0
  }

  function TotalReserved(lines: seq<BinLine>): int {
    if lines == [] then 0 else TotalReserved(lines[..|lines| - 1]) + lines[|lines| - 1].reserved
  }

  // ----- what a finding says -----

  /** The tasks of a type are its own, in order: the selection splits over any cut and takes a single task
      exactly when it has the type. */
  lemma {:induction false} OfTypeSelects(before: seq<StuckTask>, after: seq<StuckTask>, task: StuckTask, t: string)
    ensures OfType(before + after, t) == OfType(before, t) + OfType(after, t)
    ensures OfType([task], t) == if task.taskType == t then [task] else []
    decreases |after|
  {
    assert [task][..0] == [];
    if after == [] {
      assert before + after == before;
    } else {
      assert (before + after)[..|before + after| - 1] == before + after[..|after| - 1];
      OfTypeSelects(before, after[..|after| - 1], task, t);
    }
  }

  /** How many of the tasks read have the type asked for, counted by position. */
  ghost function ExpiredOf(tasks: seq<StuckTask>, t: string): nat { |PositionsOf(tasks, t)| }

  ghost function PositionsOf(tasks: seq<StuckTask>, t: string): set<int> {
    set i | 0 <= i < |tasks| && tasks[i].taskType == t
  }

  lemma {:induction false} OfTypeCounts(tasks: seq<StuckTask>, t: string)
    ensures |OfType(tasks, t)| == ExpiredOf(tasks, t)
  {
    if tasks != [] {
      var n := |tasks| - 1;
      var front := tasks[..n];
      OfTypeCounts(front, t);
      assert PositionsOf(tasks, t) == PositionsOf(front, t) + if tasks[n].taskType == t then {n} else {};
    }
  }

  /** The finding's reason, and with it its evidence, line by line, and the reservation it names. */
  ghost predicate Explains(f: Finding, req: Request, ans: Answers, expired: nat) {
    var leases := ExpiredLeases(expired, req.taskType);
    var sku, usable := req.sku != "" && ans.availability.Ok?, if ans.availability.Ok? then ans.availability.value.usable else 0;
    var stock := UsableStock(if ans.availability.Ok? then ans.availability.value.sku else "", usable, req.threshold);
    var short := ans.stuck.Ok? && expired > 0 && sku && usable <= req.threshold;
    var bin := req.binId != "" && ans.occupancy.Ok?;
    match f.why
    case LeaseSignalUnavailable => ans.stuck.Err? && f.evidence == [StuckTasksUnavailable] && f.reservationId == ""
    case NoExpiredLeases(t) => ans.stuck.Ok? && expired == 0 && t == req.taskType && f.evidence == [leases] && f.reservationId == ""
    case AvailabilitySignalUnavailable =>
      ans.stuck.Ok? && expired > 0 && !sku && f.evidence == [leases, AvailabilityUnavailable] && f.reservationId == ""
    case AboveThreshold(s, u, t) =>
      && ans.stuck.Ok? && expired > 0 && sku && usable > req.threshold
      && stock == UsableStock(s, u, t) && f.evidence == [leases, stock] && f.reservationId == ""
    case NoReservation => short && req.reservationId == "" && f.evidence == [leases, stock, NoCandidate] && f.reservationId == ""
    case BlastRadiusUnavailable =>
      && short && req.reservationId != "" && !bin
      && f.evidence == [leases, stock, OccupancyUnavailable] && f.reservationId == req.reservationId
    case Correlated(n, t, s, u, threshold, r, b, freed) =>
      && short && req.reservationId != "" && bin && f.reservationId == req.reservationId == r
      && n == expired && t == req.taskType && stock == UsableStock(s, u, threshold)
      && b == ans.occupancy.value.binId && freed == ReservedOf(ans.occupancy.value.lines, req.sku)
      && f.evidence == [leases, stock, BinHolds(b, freed, req.sku)]
  }

  /** Every finding explains itself in terms of the request and of the three reads; no two of the reasons
      fit the same ones. */
  lemma FindingsExplainThemselves(req: Request, ans: Answers)
    requires req.taskType in TASK_TYPES
    ensures Detect(req, ans).Ok?
    ensures Explains(Detect(req, ans).value, req, ans, if ans.stuck.Ok? then ExpiredOf(ans.stuck.value.tasks, req.taskType) else 0)
  {
    if ans.stuck.Ok? { OfTypeCounts(ans.stuck.value.tasks, req.taskType); }
    hide OfType, ExpiredOf, ReservedOf;
  }
}
