/** The daily brief (usecases/dailybrief.go): facts per path, grouping by site through a map of
    pointers, and the ranked list of exceptions. */
module DailyBrief {
  import opened Common
  import opened Ports
  import opened BriefPolicy
  import opened Ranking

  // ----- one path -----

  /** Which clients are configured. */
  datatype Clients = Clients(wes: bool, wfm: bool, fe: bool)

  /** What the four reads for one path would answer. */
  datatype PathReads = PathReads(
    backlog: Result<BacklogFact, string>,
    staffing: Result<StaffingFact, string>,
    queue: Result<QueueFact, string>,
    stuck: Result<StuckTasksReading, string>)

  function CountOfType(tasks: seq<StuckTask>, taskType: string): nat {
    if tasks == [] then 0 else
    CountOfType(tasks[..|tasks| - 1], taskType) + if tasks[|tasks| - 1].taskType == taskType then 1 else 0
  }

  function PathCount(reading: StuckTasksReading, processPath: string): int {
    if processPath == "" then reading.count else CountOfType(reading.tasks, processPath)
  }

  /** The positions of a type's tasks in the queue-wide list. */
  ghost function PositionsOf(tasks: seq<StuckTask>, taskType: string): set<int> {
    set i | 0 <= i < |tasks| && tasks[i].taskType == taskType
  }

  lemma {:induction false} CountsPositions(tasks: seq<StuckTask>, taskType: string)
    ensures CountOfType(tasks, taskType) == |PositionsOf(tasks, taskType)|
  {
    if tasks != [] {
      var n := |tasks| - 1;
      CountsPositions(tasks[..n], taskType);
      assert PositionsOf(tasks, taskType)
             == PositionsOf(tasks[..n], taskType) + if tasks[n].taskType == taskType then {n} else {};
    }
  }

  /** How many stuck tasks are the path's own problem, by position. */
  ghost function OwnStuckTasks(reading: StuckTasksReading, processPath: string): int {
    if processPath == "" then reading.count else |PositionsOf(reading.tasks, processPath)|
  }

  /** A path with a process path counts the tasks of exactly that type; one without counts them all. */
  lemma PathCountsItsOwn(reading: StuckTasksReading, processPath: string)
    ensures PathCount(reading, processPath) == OwnStuckTasks(reading, processPath)
  {
    CountsPositions(reading.tasks, processPath);
  }

  method CountForPath(reading: StuckTasksReading, processPath: string) returns (n: int)
    ensures n == PathCount(reading, processPath) == OwnStuckTasks(reading, processPath)
  {
    PathCountsItsOwn(reading, processPath);
    if processPath == "" { return reading.count; }
    n := 0;
    for i := 0 to |reading.tasks|
      invariant n == CountOfType(reading.tasks[..i], processPath)
    {
      assert reading.tasks[..i + 1][..i] == reading.tasks[..i];
      if reading.tasks[i].taskType == processPath { n := n + 1; }
    }
    assert reading.tasks[..|reading.tasks|] == reading.tasks;
  }

  function Got<T>(wired: bool, r: Result<T, string>): Option<T> { if wired && r.Ok? then Some(r.value) else None }

  function Missing<T>(wired: bool, r: Result<T, string>, client: string, call: string): seq<Unavailable> {
    if !wired then [NotConfigured(client)] else if r.Err? then [CallFailed(call, r.error)] else []
  }

  const WES := "wes-work-planning"
  const WFM := "workforce-management"
  const FE := "fulfillment-execution"
  const FE_QUEUE := "fulfillment-execution get_queue_status"
  const FE_STUCK := "fulfillment-execution diagnose_stuck_tasks"

  function AllMissing(c: Clients, r: PathReads): seq<Unavailable> {
    Missing(c.wes, r.backlog, WES, WES) + Missing(c.wfm, r.staffing, WFM, WFM) + Missing(c.fe, r.queue, FE, FE_QUEUE)
    + if c.fe then Missing(c.fe, r.stuck, FE, FE_STUCK) else []
  }

  /** Each source fails on its own. An unconfigured fulfillment-execution is reported once, by its queue read. */
  function Gathered(c: Clients, t: PathTarget, r: PathReads): PathBrief {
    var stuck := Got(c.fe, r.stuck);
    PathBrief(t, Got(c.wes, r.backlog), Got(c.wfm, r.staffing), Got(c.fe, r.queue),
              if stuck.Some? then Some(StuckFact(PathCount(stuck.value, t.processPath))) else None, AllMissing(c, r), [])
  }

  function Synthesized(c: Clients, t: PathTarget, r: PathReads): PathBrief {
    Gathered(c, t, r).(exceptions := Derived(Gathered(c, t, r)))
  }

  method Ask<T>(wired: bool, r: Result<T, string>, client: string, call: string, before: seq<Unavailable>)
    returns (fact: Option<T>, unavailable: seq<Unavailable>)
    ensures fact == Got(wired, r)
    ensures unavailable == before + Missing(wired, r, client, call)
  {
    fact, unavailable := None, before;
    if !wired {
      unavailable := unavailable + [NotConfigured(client)];
    } else if r.Ok? {
      fact := Some(r.value);
    } else {
      unavailable := unavailable + [CallFailed(call, r.error)];
    }
  }

  method Gather(c: Clients, t: PathTarget, r: PathReads) returns (b: PathBrief)
    ensures b == Gathered(c, t, r)
  {
    var unavailable: seq<Unavailable> := [];
    var backlog, staffing, queue;
    backlog, unavailable := Ask(c.wes, r.backlog, WES, WES, unavailable);
    staffing, unavailable := Ask(c.wfm, r.staffing, WFM, WFM, unavailable);
    queue, unavailable := Ask(c.fe, r.queue, FE, FE_QUEUE, unavailable);
    var stuck: Option<StuckFact> := None;
    if c.fe {
      var reading;
      reading, unavailable := Ask(c.fe, r.stuck, FE, FE_STUCK, unavailable);
      if reading.Some? {
        var n := CountForPath(reading.value, t.processPath);
        stuck := Some(StuckFact(n));
      }
    }
    assert unavailable == AllMissing(c, r);
    b := PathBrief(t, backlog, staffing, queue, stuck, unavailable, []);
  }

  method SynthesizeOne(c: Clients, t: PathTarget, r: PathReads) returns (b: PathBrief)
    ensures b == Synthesized(c, t, r)
  {
    b := Gather(c, t, r);
    var exceptions := DeriveExceptions(b);
    b := b.(exceptions := exceptions);
  }

  /** Each source fails on its own: a fact is present exactly when its own client is configured and its
      own read succeeded, and every failure is listed with its error. */
  lemma SourcesFailAlone(c: Clients, t: PathTarget, r: PathReads, error: string)
    ensures var b := Synthesized(c, t, r);
            && (b.backlog.Some? <==> c.wes && r.backlog.Ok?)
            && (b.staffing.Some? <==> c.wfm && r.staffing.Ok?)
            && (b.queue.Some? <==> c.fe && r.queue.Ok?)
            && (b.stuck.Some? <==> c.fe && r.stuck.Ok?)
            && (NotConfigured(WES) in b.unavailable <==> !c.wes)
            && (NotConfigured(WFM) in b.unavailable <==> !c.wfm)
            && (NotConfigured(FE) in b.unavailable <==> !c.fe)
            && (CallFailed(WES, error) in b.unavailable <==> c.wes && r.backlog == Err(error))
            && (CallFailed(WFM, error) in b.unavailable <==> c.wfm && r.staffing == Err(error))
            && (CallFailed(FE_QUEUE, error) in b.unavailable <==> c.fe && r.queue == Err(error))
            && (CallFailed(FE_STUCK, error) in b.unavailable <==> c.fe && r.stuck == Err(error))
  {
    hide AllMissing, Derived, WES, WFM, FE, FE_QUEUE, FE_STUCK;
    SourcesDiffer();
    ListedExactly(c, r, NotConfigured(WES)); ListedExactly(c, r, NotConfigured(WFM)); ListedExactly(c, r, NotConfigured(FE));
    ListedExactly(c, r, CallFailed(WES, error)); ListedExactly(c, r, CallFailed(WFM, error));
    ListedExactly(c, r, CallFailed(FE_QUEUE, error)); ListedExactly(c, r, CallFailed(FE_STUCK, error));
  }

  lemma SourcesDiffer()
    ensures WES != WFM && WES != FE && WFM != FE
    ensures WES != FE_QUEUE && WES != FE_STUCK && WFM != FE_QUEUE && WFM != FE_STUCK && FE_QUEUE != FE_STUCK
  {
    assert WES[1] != WFM[1] && WES[0] != FE[0] && WFM[0] != FE[0];
    assert FE_QUEUE[22] != FE_STUCK[22];
  }

  /** One entry of the unavailable list, by its only possible origin. */
  lemma ListedExactly(c: Clients, r: PathReads, u: Unavailable)
    ensures u in AllMissing(c, r) <==>
            || (!c.wes && u == NotConfigured(WES)) || (c.wes && r.backlog.Err? && u == CallFailed(WES, r.backlog.error))
            || (!c.wfm && u == NotConfigured(WFM)) || (c.wfm && r.staffing.Err? && u == CallFailed(WFM, r.staffing.error))
            || (!c.fe && u == NotConfigured(FE)) || (c.fe && r.queue.Err? && u == CallFailed(FE_QUEUE, r.queue.error))
            || (c.fe && r.stuck.Err? && u == CallFailed(FE_STUCK, r.stuck.error))
  {
    hide WES, WFM, FE, FE_QUEUE, FE_STUCK;
  }

  /** Each fact is its own reading's, and the failures are listed once each, in the order of the reads. */
  lemma FactsAreTheReadings(c: Clients, t: PathTarget, r: PathReads)
    ensures var b := Synthesized(c, t, r);
            && b.target == t
            && (b.backlog.Some? ==> Ok(b.backlog.value) == r.backlog)
            && (b.staffing.Some? ==> Ok(b.staffing.value) == r.staffing)
            && (b.queue.Some? ==> Ok(b.queue.value) == r.queue)
            && (b.stuck.Some? ==> r.stuck.Ok? && b.stuck.value.count == OwnStuckTasks(r.stuck.value, t.processPath))
    ensures var (w, f) := (if c.wes && r.backlog.Ok? then 0 else 1, if c.wfm && r.staffing.Ok? then 0 else 1);
            var (q, s) := (if c.fe && r.queue.Ok? then 0 else 1, if c.fe && r.stuck.Err? then 1 else 0);
            var missing := Synthesized(c, t, r).unavailable;
            && |missing| == w + f + q + s
            && (w == 1 ==> missing[0] == if c.wes then CallFailed(WES, r.backlog.error) else NotConfigured(WES))
            && (f == 1 ==> missing[w] == if c.wfm then CallFailed(WFM, r.staffing.error) else NotConfigured(WFM))
            && (q == 1 ==> missing[w + f] == if c.fe then CallFailed(FE_QUEUE, r.queue.error) else NotConfigured(FE))
            && (s == 1 ==> missing[w + f + q] == CallFailed(FE_STUCK, r.stuck.error))
  {
    if r.stuck.Ok? { PathCountsItsOwn(r.stuck.value, t.processPath); }
    hide PathCount, Derived, PositionsOf;
  }

  /** End to end: a path is flagged exactly when two of its three alarms were actually read, and critically
      exactly when all three were; the stuck tasks that count are its own. */
  lemma PathIsFlaggedExactly(c: Clients, t: PathTarget, r: PathReads)
    ensures var over := c.wes && r.backlog.Ok? && r.backlog.value.overAlarmThreshold;
            var short := c.wfm && r.staffing.Ok? && r.staffing.value.understaffed;
            var stuck := c.fe && r.stuck.Ok? && OwnStuckTasks(r.stuck.value, t.processPath) > 0;
            var n := (if over then 1 else 0) + (if short then 1 else 0) + (if stuck then 1 else 0);
            var exceptions := Synthesized(c, t, r).exceptions;
            && |exceptions| == (if n >= 2 then 1 else 0)
            && (n >= 2 ==>
                  && exceptions[0].siteCode == t.siteCode && exceptions[0].pathId == t.pathId
                  && exceptions[0].severity == (if n == 3 then "critical" else "warning")
                  && exceptions[0].summary == SignalsCorrelated(n, t.pathId))
  {
    if r.stuck.Ok? { PathCountsItsOwn(r.stuck.value, t.processPath); }
    FlaggedExactly(Gathered(c, t, r));
    hide PathCount, PositionsOf, Derived, AllMissing;
  }

  // ----- grouping -----

  datatype SiteBrief = SiteBrief(siteCode: string, siteName: string, paths: seq<PathBrief>)

  datatype Brief = Brief(generatedAt: int, sites: seq<SiteBrief>, openExceptions: seq<OpenException>)

  datatype SiteRef = SiteRef(code: string, name: string)

  /** The site record a target's path is appended to, shared through the map. */
  class SiteCell {
    const siteCode: string
    const siteName: string
    var paths: seq<PathBrief>

    constructor (siteCode: string, siteName: string)
      ensures this.siteCode == siteCode && this.siteName == siteName && paths == []
    {
      this.siteCode, this.siteName, paths := siteCode, siteName, [];
    }
  }

  /** A later entry for the same code wins. */
  function NamesOf(sites: seq<SiteRef>): map<string, string> {
    if sites == [] then map[] else
    NamesOf(sites[..|sites| - 1])[sites[|sites| - 1].code := sites[|sites| - 1].name]
  }

  lemma {:induction false} LastNameWins(sites: seq<SiteRef>, k: nat)
    requires k < |sites| && forall i :: k < i < |sites| ==> sites[i].code != sites[k].code
    ensures sites[k].code in NamesOf(sites) && NamesOf(sites)[sites[k].code] == sites[k].name
  {
    if k < |sites| - 1 { LastNameWins(sites[..|sites| - 1], k); }
  }

  lemma {:induction false} OnlyKnownNames(sites: seq<SiteRef>, code: string)
    ensures code in NamesOf(sites) ==> exists k :: 0 <= k < |sites| && sites[k].code == code
  {
    if sites != [] {
      OnlyKnownNames(sites[..|sites| - 1], code);
      if code in NamesOf(sites[..|sites| - 1]) {
        var k :| 0 <= k < |sites| - 1 && sites[..|sites| - 1][k].code == code;
        assert sites[k].code == code;
      }
    }
  }

  function NameIn(names: map<string, string>, code: string): string { if code in names then names[code] else "" }

  method SiteNames(facility: Option<Result<seq<SiteRef>, string>>) returns (names: map<string, string>)
    ensures names == if facility.Some? && facility.value.Ok? then NamesOf(facility.value.value) else map[]
  {
    names := map[];
    if facility.Some? && facility.value.Ok? {
      var sites := facility.value.value;
      for i := 0 to |sites|
        invariant names == NamesOf(sites[..i])
      {
        assert sites[..i + 1][..i] == sites[..i];
        names := names[sites[i].code := sites[i].name];
      }
      assert sites[..|sites|] == sites;
    }
  }

  function PathsFor(briefs: seq<PathBrief>, code: string): seq<PathBrief> {
    if briefs == [] then [] else
    PathsFor(briefs[..|briefs| - 1], code) + if briefs[|briefs| - 1].target.siteCode == code then [briefs[|briefs| - 1]] else []
  }

  /** The site codes in order of first appearance. */
  function FirstSeen(briefs: seq<PathBrief>): seq<string> {
    if briefs == [] then [] else
    var before, code := FirstSeen(briefs[..|briefs| - 1]), briefs[|briefs| - 1].target.siteCode;
    if code in before then before else before + [code]
  }

  function ExceptionsOf(briefs: seq<PathBrief>): seq<OpenException> {
    if briefs == [] then [] else ExceptionsOf(briefs[..|briefs| - 1]) + briefs[|briefs| - 1].exceptions
  }

  function SitesFor(codes: seq<string>, names: map<string, string>, briefs: seq<PathBrief>): seq<SiteBrief> {
    if codes == [] then [] else
    var code := codes[|codes| - 1];
    SitesFor(codes[..|codes| - 1], names, briefs) + [SiteBrief(code, NameIn(names, code), PathsFor(briefs, code))]
  }

  function BriefsUpTo(c: Clients, targets: seq<PathTarget>, answers: nat -> PathReads, n: nat): seq<PathBrief>
    requires n <= |targets|
  {
    if n == 0 then [] else BriefsUpTo(c, targets, answers, n - 1) + [Synthesized(c, targets[n - 1], answers(n - 1))]
  }

  function Composed(now: int, facility: Option<Result<seq<SiteRef>, string>>, c: Clients, targets: seq<PathTarget>,
                    answers: nat -> PathReads): Brief {
    var briefs := BriefsUpTo(c, targets, answers, |targets|);
    var names := if facility.Some? && facility.value.Ok? then NamesOf(facility.value.value) else map[];
    Brief(now, SitesFor(FirstSeen(briefs), names, briefs), Ranked(ExceptionsOf(briefs)))
  }

  /** The map holds exactly one cell per code seen, each the site's paths so far, none shared. */
  ghost predicate Grouped(bySite: map<string, SiteCell>, order: seq<string>, names: map<string, string>,
                          briefs: seq<PathBrief>,
                          cells: set<SiteCell>)
    reads cells
  {
    && order == FirstSeen(briefs)
    && (forall code :: code in bySite <==> code in order)
    && (forall code :: code in bySite ==> bySite[code] in cells)
    && (forall code :: code in bySite ==>
          && bySite[code].siteCode == code
          && bySite[code].siteName == NameIn(names, code)
          && bySite[code].paths == PathsFor(briefs, code))
  }

  /** One target's brief joins its site, which is created when its code is new. */
  method AddPath(bySite: map<string, SiteCell>, order: seq<string>, name: string, pb: PathBrief,
                 ghost names: map<string, string>, ghost briefs: seq<PathBrief>, ghost cells: set<SiteCell>)
    returns (bySite': map<string, SiteCell>, order': seq<string>, ghost cells': set<SiteCell>)
    requires Grouped(bySite, order, names, briefs, cells)
    requires name == NameIn(names, pb.target.siteCode)
    modifies cells
    ensures Grouped(bySite', order', names, briefs + [pb], cells')
    ensures fresh(cells' - cells)
  {
    bySite', order', cells' := bySite, order, cells;
    var code := pb.target.siteCode;
    assert (briefs + [pb])[..|briefs|] == briefs;
    if code !in bySite {
      NothingYet(briefs, code);
      var cell := new SiteCell(code, name);
      bySite' := bySite'[code := cell];
      order' := order' + [code];
      cells' := cells' + {cell};
    }
    bySite'[code].paths := bySite'[code].paths + [pb];
  }

  method CollectSites(bySite: map<string, SiteCell>, order: seq<string>, ghost names: map<string, string>,
                      ghost briefs: seq<PathBrief>, ghost cells: set<SiteCell>)
    returns (sites: seq<SiteBrief>)
    requires Grouped(bySite, order, names, briefs, cells)
    ensures sites == SitesFor(FirstSeen(briefs), names, briefs)
  {
    hide FirstSeen, PathsFor, NameIn;
    sites := [];
    for k := 0 to |order|
      invariant sites == SitesFor(order[..k], names, briefs)
    {
      assert order[..k + 1][..k] == order[..k];
      var cell := bySite[order[k]];
      sites := sites + [SiteBrief(cell.siteCode, cell.siteName, cell.paths)];
    }
    assert order[..|order|] == order;
  }

  /** One target: synthesize its brief, note its exceptions, file it under its site. */
  method AddTarget(c: Clients, t: PathTarget, r: PathReads, names: map<string, string>,
                   bySite: map<string, SiteCell>, order: seq<string>,
                   exceptions: seq<OpenException>, ghost briefs: seq<PathBrief>, ghost cells: set<SiteCell>)
    returns (bySite': map<string, SiteCell>, order': seq<string>, exceptions': seq<OpenException>,
             ghost briefs': seq<PathBrief>, ghost cells': set<SiteCell>)
    requires Grouped(bySite, order, names, briefs, cells) && exceptions == ExceptionsOf(briefs)
    modifies cells
    ensures briefs' == briefs + [Synthesized(c, t, r)]
    ensures Grouped(bySite', order', names, briefs', cells') && exceptions' == ExceptionsOf(briefs')
    ensures fresh(cells' - cells)
  {
    var pb := SynthesizeOne(c, t, r);
    briefs' := briefs + [pb];
    exceptions' := exceptions + pb.exceptions;
    assert briefs'[..|briefs|] == briefs;
    bySite', order', cells' := AddPath(bySite, order, NameIn(names, pb.target.siteCode), pb, names, briefs, cells);
  }

  lemma NothingFiled(names: map<string, string>)
    ensures Grouped(map[], [], names, [], {}) && ExceptionsOf([]) == []
  {
  }

  method GroupTargets(c: Clients, targets: seq<PathTarget>, answers: nat -> PathReads, names: map<string, string>)
    returns (bySite: map<string, SiteCell>, order: seq<string>, exceptions: seq<OpenException>, ghost cells: set<SiteCell>)
    ensures Grouped(bySite, order, names, BriefsUpTo(c, targets, answers, |targets|), cells) && fresh(cells)
    ensures exceptions == ExceptionsOf(BriefsUpTo(c, targets, answers, |targets|))
  {
    NothingFiled(names);
    hide Synthesized, Grouped, ExceptionsOf;
    bySite, order, exceptions, cells := map[], [], [], {};
    ghost var briefs: seq<PathBrief> := [];
    for n := 0 to |targets|
      invariant briefs == BriefsUpTo(c, targets, answers, n)
      invariant exceptions == ExceptionsOf(briefs)
      invariant Grouped(bySite, order, names, briefs, cells)
      invariant fresh(cells)
    {
      bySite, order, exceptions, briefs, cells := AddTarget(c, targets[n], answers(n), names, bySite, order, exceptions, briefs, cells);
    }
  }

  method Execute(now: int, facility: Option<Result<seq<SiteRef>, string>>, c: Clients, targets: seq<PathTarget>,
                 answers: nat -> PathReads)
    returns (brief: Brief)
    ensures brief == Composed(now, facility, c, targets, answers)
  {
    var names := SiteNames(facility);
    var bySite, order, exceptions, cells := GroupTargets(c, targets, answers, names);
    var sites := CollectSites(bySite, order, names, BriefsUpTo(c, targets, answers, |targets|), cells);
    var ranked := RankList(exceptions);
    brief := Brief(now, sites, ranked);
  }

  method RankList(exceptions: seq<OpenException>) returns (ranked: seq<OpenException>)
    ensures ranked == Ranked(exceptions)
  {
    var list := new OpenException[|exceptions|](i requires 0 <= i < |exceptions| => exceptions[i]);
    assert list[..] == exceptions;
    var sorted := RankBySeverity(list);
    ranked := sorted[..];
  }

  lemma {:induction false} NothingYet(briefs: seq<PathBrief>, code: string)
    requires code !in FirstSeen(briefs)
    ensures PathsFor(briefs, code) == []
  {
    if briefs != [] { NothingYet(briefs[..|briefs| - 1], code); }
  }

  // ----- what grouping promises -----

  /** A site's name is that of its last entry in the facility reading, and empty when it has none or the
      reading failed. */
  lemma SiteIsNamed(sites: seq<SiteRef>, code: string, k: nat)
    ensures k < |sites| && sites[k].code == code && (forall i :: k < i < |sites| ==> sites[i].code != code) ==>
              NameIn(NamesOf(sites), code) == sites[k].name
    ensures (forall i :: 0 <= i < |sites| ==> sites[i].code != code) ==> NameIn(NamesOf(sites), code) == ""
  {
    OnlyKnownNames(sites, code);
    if k < |sites| && sites[k].code == code && forall i :: k < i < |sites| ==> sites[i].code != code {
      LastNameWins(sites, k);
    }
  }

  /** All exceptions are the paths' own, path after path. */
  lemma {:induction false} ExceptionsInOrder(before: seq<PathBrief>, after: seq<PathBrief>, pb: PathBrief)
    ensures ExceptionsOf(before + after) == ExceptionsOf(before) + ExceptionsOf(after)
    ensures ExceptionsOf([pb]) == pb.exceptions
    decreases |after|
  {
    assert [pb][..0] == [];
    if after == [] {
      assert before + after == before;
    } else {
      assert (before + after)[..|before + after| - 1] == before + after[..|after| - 1];
      ExceptionsInOrder(before, after[..|after| - 1], pb);
    }
  }

  /** The position of the first target of a site, or the length when it has none. */
  function FirstIndex(briefs: seq<PathBrief>, code: string): (k: nat)
    ensures k <= |briefs| && (k < |briefs| ==> briefs[k].target.siteCode == code)
    ensures forall i :: 0 <= i < k ==> briefs[i].target.siteCode != code
  {
    if briefs == [] then 0 else
    var front := briefs[..|briefs| - 1];
    var k := FirstIndex(front, code);
    if k < |front| then k else if briefs[|front|].target.siteCode == code then |front| else |briefs|
  }

  lemma {:induction false} SeenExactly(briefs: seq<PathBrief>, code: string)
    ensures code in FirstSeen(briefs) <==> FirstIndex(briefs, code) < |briefs|
  {
    if briefs != [] { SeenExactly(briefs[..|briefs| - 1], code); }
  }

  /** Sites come once each, in order of first appearance among the targets, and none is missing. */
  ghost predicate InOrderOfAppearance(codes: seq<string>, briefs: seq<PathBrief>) {
    && (forall i :: 0 <= i < |briefs| ==> briefs[i].target.siteCode in codes)
    && (forall code :: code in codes ==> FirstIndex(briefs, code) < |briefs|)
    && (forall i, j :: 0 <= i < j < |codes| ==> FirstIndex(briefs, codes[i]) < FirstIndex(briefs, codes[j]))
  }

  lemma {:induction false} SitesAscend(briefs: seq<PathBrief>, i: nat, j: nat)
    requires i < j < |FirstSeen(briefs)|
    ensures FirstIndex(briefs, FirstSeen(briefs)[i]) < FirstIndex(briefs, FirstSeen(briefs)[j])
  {
    var front := briefs[..|briefs| - 1];
    var before := FirstSeen(front);
    SeenExactly(front, before[i]);
    if j < |before| {
      SeenExactly(front, before[j]);
      SitesAscend(front, i, j);
    } else {
      SeenExactly(front, briefs[|front|].target.siteCode);
    }
  }

  lemma SitesInOrderOfAppearance(briefs: seq<PathBrief>)
    ensures InOrderOfAppearance(FirstSeen(briefs), briefs)
  {
    forall i | 0 <= i < |briefs| ensures briefs[i].target.siteCode in FirstSeen(briefs) {
      SeenExactly(briefs, briefs[i].target.siteCode);
    }
    forall code | code in FirstSeen(briefs) ensures FirstIndex(briefs, code) < |briefs| {
      SeenExactly(briefs, code);
    }
    forall i, j | 0 <= i < j < |FirstSeen(briefs)|
      ensures FirstIndex(briefs, FirstSeen(briefs)[i]) < FirstIndex(briefs, FirstSeen(briefs)[j])
    {
      SitesAscend(briefs, i, j);
    }
  }

  /** A site's paths are the subsequence of all paths with its code, in target order: on one path this
      is the path or nothing, and it splits over any cut of the targets. */
  lemma {:induction false} PathsForIsTheSubsequence(before: seq<PathBrief>, after: seq<PathBrief>, pb: PathBrief,
                                                    code: string)
    ensures PathsFor([pb], code) == if pb.target.siteCode == code then [pb] else []
    ensures PathsFor(before + after, code) == PathsFor(before, code) + PathsFor(after, code)
    decreases |after|
  {
    assert [pb][..0] == [];
    if after == [] {
      assert before + after == before;
    } else {
      assert (before + after)[..|before + after| - 1] == before + after[..|after| - 1];
      PathsForIsTheSubsequence(before, after[..|after| - 1], pb, code);
    }
  }

  ghost predicate Distinct(codes: seq<string>) { forall i, j :: 0 <= i < j < |codes| ==> codes[i] != codes[j] }

  lemma FirstSeenIsDistinct(briefs: seq<PathBrief>)
    ensures Distinct(FirstSeen(briefs))
  {
    SitesInOrderOfAppearance(briefs);
  }

  // ----- the sites, in terms of the targets -----

  function TargetsOf(briefs: seq<PathBrief>): seq<PathTarget> {
    if briefs == [] then [] else TargetsOf(briefs[..|briefs| - 1]) + [briefs[|briefs| - 1].target]
  }

  /** The targets of one site, in order. */
  function TargetsWith(targets: seq<PathTarget>, code: string): seq<PathTarget> {
    if targets == [] then [] else
    TargetsWith(targets[..|targets| - 1], code) + if targets[|targets| - 1].siteCode == code then [targets[|targets| - 1]] else []
  }

  /** The position of the first target of a site, or the length when it has none. */
  function FirstTarget(targets: seq<PathTarget>, code: string): (k: nat)
    ensures k <= |targets| && (k < |targets| ==> targets[k].siteCode == code)
    ensures forall i :: 0 <= i < k ==> targets[i].siteCode != code
  {
    if targets == [] then 0 else if targets[0].siteCode == code then 0 else 1 + FirstTarget(targets[1..], code)
  }

  lemma {:induction false} TargetsOfAt(briefs: seq<PathBrief>)
    ensures |TargetsOf(briefs)| == |briefs| && forall i :: 0 <= i < |briefs| ==> TargetsOf(briefs)[i] == briefs[i].target
  {
    if briefs != [] { TargetsOfAt(briefs[..|briefs| - 1]); }
  }

  lemma TargetsOfSnoc(briefs: seq<PathBrief>, pb: PathBrief)
    ensures TargetsOf(briefs + [pb]) == TargetsOf(briefs) + [pb.target]
  {
    assert (briefs + [pb])[..|briefs|] == briefs;
  }

  lemma TargetsWithSnoc(targets: seq<PathTarget>, t: PathTarget, code: string)
    ensures TargetsWith(targets + [t], code) == TargetsWith(targets, code) + if t.siteCode == code then [t] else []
  {
    assert (targets + [t])[..|targets|] == targets;
  }

  lemma {:induction false} TargetsOfPaths(briefs: seq<PathBrief>, code: string)
    ensures TargetsOf(PathsFor(briefs, code)) == TargetsWith(TargetsOf(briefs), code)
  {
    if briefs != [] {
      var front, last := briefs[..|briefs| - 1], briefs[|briefs| - 1];
      TargetsOfPaths(front, code);
      TargetsWithSnoc(TargetsOf(front), last.target, code);
      if last.target.siteCode == code {
        TargetsOfSnoc(PathsFor(front, code), last);
      } else {
        assert PathsFor(briefs, code) == PathsFor(front, code);
      }
    }
  }

  lemma {:induction false} BriefsAt(c: Clients, targets: seq<PathTarget>, answers: nat -> PathReads, n: nat)
    requires n <= |targets|
    ensures var briefs := BriefsUpTo(c, targets, answers, n);
            |briefs| == n && forall i :: 0 <= i < n ==> briefs[i] == Synthesized(c, targets[i], answers(i))
  {
    hide Synthesized;
    if n > 0 { BriefsAt(c, targets, answers, n - 1); }
  }

  lemma BriefsAreOfTargets(c: Clients, targets: seq<PathTarget>, answers: nat -> PathReads)
    ensures TargetsOf(BriefsUpTo(c, targets, answers, |targets|)) == targets
  {
    hide BriefsUpTo;
    var briefs := BriefsUpTo(c, targets, answers, |targets|);
    BriefsAt(c, targets, answers, |targets|);
    TargetsOfAt(briefs);
    forall i | 0 <= i < |targets| ensures TargetsOf(briefs)[i] == targets[i] {
      SynthesizedTarget(c, targets[i], answers(i));
    }
  }

  lemma SynthesizedTarget(c: Clients, t: PathTarget, r: PathReads)
    ensures Synthesized(c, t, r).target == t
  {
  }

  lemma {:induction false} SitesAt(codes: seq<string>, names: map<string, string>, briefs: seq<PathBrief>)
    ensures var sites := SitesFor(codes, names, briefs);
            && |sites| == |codes|
            && forall k :: 0 <= k < |codes| ==> sites[k] == SiteBrief(codes[k], NameIn(names, codes[k]), PathsFor(briefs, codes[k]))
  {
    if codes != [] { SitesAt(codes[..|codes| - 1], names, briefs); }
  }

  /** A site has a target; its paths are, in order, those of its own targets; and each is what its target's
      own reads give. */
  ghost predicate SiteOfTargets(site: SiteBrief, c: Clients, targets: seq<PathTarget>, answers: nat -> PathReads) {
    && FirstTarget(targets, site.siteCode) < |targets|
    && TargetsOf(site.paths) == TargetsWith(targets, site.siteCode)
    && forall pb :: pb in site.paths ==> exists i :: 0 <= i < |targets| && pb == Synthesized(c, targets[i], answers(i))
  }

  ghost predicate HasSite(sites: seq<SiteBrief>, code: string) {
    exists k :: 0 <= k < |sites| && sites[k].siteCode == code
  }

  /** Every target's site is there, and sites come in the order of their first targets, so once each. */
  ghost predicate FollowsTargets(sites: seq<SiteBrief>, c: Clients, targets: seq<PathTarget>,
                                 answers: nat -> PathReads) {
    && (forall i :: 0 <= i < |targets| ==> HasSite(sites, targets[i].siteCode))
    && (forall k :: 0 <= k < |sites| ==> SiteOfTargets(sites[k], c, targets, answers))
    && (forall j, k :: 0 <= j < k < |sites| ==>
          FirstTarget(targets, sites[j].siteCode) < FirstTarget(targets, sites[k].siteCode))
  }

  lemma FirstTargetIsFirstIndex(briefs: seq<PathBrief>, code: string)
    ensures FirstTarget(TargetsOf(briefs), code) == FirstIndex(briefs, code)
  {
    TargetsOfAt(briefs);
    var i, j := FirstTarget(TargetsOf(briefs), code), FirstIndex(briefs, code);
    assert i < |briefs| ==> TargetsOf(briefs)[i] == briefs[i].target;
    assert j < |briefs| ==> TargetsOf(briefs)[j] == briefs[j].target;
  }

  lemma {:induction false} PathsForAreBriefs(briefs: seq<PathBrief>, code: string)
    ensures forall pb :: pb in PathsFor(briefs, code) ==> pb in briefs
  {
    if briefs != [] {
      assert briefs == briefs[..|briefs| - 1] + [briefs[|briefs| - 1]];
      PathsForAreBriefs(briefs[..|briefs| - 1], code);
    }
  }

  lemma SitesAscendInTargets(briefs: seq<PathBrief>, j: nat, k: nat)
    requires j < k < |FirstSeen(briefs)|
    ensures FirstTarget(TargetsOf(briefs), FirstSeen(briefs)[j]) < FirstTarget(TargetsOf(briefs), FirstSeen(briefs)[k])
  {
    SitesAscend(briefs, j, k);
    FirstTargetIsFirstIndex(briefs, FirstSeen(briefs)[j]);
    FirstTargetIsFirstIndex(briefs, FirstSeen(briefs)[k]);
  }

  lemma SiteFollowsTargets(c: Clients, targets: seq<PathTarget>, answers: nat -> PathReads, name: string,
                           code: string)
    requires code in FirstSeen(BriefsUpTo(c, targets, answers, |targets|))
    ensures SiteOfTargets(SiteBrief(code, name, PathsFor(BriefsUpTo(c, targets, answers, |targets|), code)), c, targets, answers)
  {
    hide BriefsUpTo, FirstSeen, FirstIndex, FirstTarget, PathsFor, TargetsOf, TargetsWith, Synthesized;
    var briefs := BriefsUpTo(c, targets, answers, |targets|);
    BriefsAt(c, targets, answers, |targets|);
    BriefsAreOfTargets(c, targets, answers);
    SeenExactly(briefs, code);
    FirstTargetIsFirstIndex(briefs, code);
    TargetsOfPaths(briefs, code);
    PathsForAreBriefs(briefs, code);
    forall pb | pb in PathsFor(briefs, code)
      ensures exists i :: 0 <= i < |targets| && pb == Synthesized(c, targets[i], answers(i))
    {
      var i :| 0 <= i < |briefs| && briefs[i] == pb;
      assert pb == Synthesized(c, targets[i], answers(i));
    }
  }

  lemma CodeHasSite(codes: seq<string>, names: map<string, string>, briefs: seq<PathBrief>, code: string)
    requires code in codes
    ensures HasSite(SitesFor(codes, names, briefs), code)
  {
    SitesAt(codes, names, briefs);
    hide SitesFor;
    var k :| 0 <= k < |codes| && codes[k] == code;
    assert SitesFor(codes, names, briefs)[k].siteCode == code;
  }

  lemma TargetHasSite(c: Clients, targets: seq<PathTarget>, answers: nat -> PathReads, names: map<string, string>,
                      i: nat)
    requires i < |targets|
    ensures var briefs := BriefsUpTo(c, targets, answers, |targets|);
            HasSite(SitesFor(FirstSeen(briefs), names, briefs), targets[i].siteCode)
  {
    hide BriefsUpTo, FirstSeen, SitesFor, Synthesized, HasSite;
    var briefs := BriefsUpTo(c, targets, answers, |targets|);
    BriefsAt(c, targets, answers, |targets|);
    SynthesizedTarget(c, targets[i], answers(i));
    SeenExactly(briefs, briefs[i].target.siteCode);
    CodeHasSite(FirstSeen(briefs), names, briefs, targets[i].siteCode);
  }

  lemma SitesFollowTargets(c: Clients, targets: seq<PathTarget>, answers: nat -> PathReads,
                           names: map<string, string>)
    ensures var briefs := BriefsUpTo(c, targets, answers, |targets|);
            FollowsTargets(SitesFor(FirstSeen(briefs), names, briefs), c, targets, answers)
  {
    hide BriefsUpTo, FirstSeen, SitesFor, SiteOfTargets, HasSite, FirstTarget, TargetsOf, NameIn, PathsFor;
    var briefs := BriefsUpTo(c, targets, answers, |targets|);
    var codes := FirstSeen(briefs);
    var sites := SitesFor(codes, names, briefs);
    SitesAt(codes, names, briefs);
    BriefsAreOfTargets(c, targets, answers);
    forall i | 0 <= i < |targets| ensures HasSite(sites, targets[i].siteCode) {
      TargetHasSite(c, targets, answers, names, i);
    }
    forall k | 0 <= k < |sites| ensures SiteOfTargets(sites[k], c, targets, answers) {
      SiteFollowsTargets(c, targets, answers, NameIn(names, codes[k]), codes[k]);
    }
    forall j, k | 0 <= j < k < |sites|
      ensures FirstTarget(targets, sites[j].siteCode) < FirstTarget(targets, sites[k].siteCode)
    {
      SitesAscendInTargets(briefs, j, k);
    }
  }

  /** The exceptions of all paths of all sites. */
  function SiteExceptions(sites: seq<SiteBrief>): multiset<OpenException> {
    if sites == [] then multiset{} else SiteExceptions(sites[..|sites| - 1]) + multiset(ExceptionsOf(sites[|sites| - 1].paths))
  }

  /** The same total, taken code by code. */
  function GroupTotal(codes: seq<string>, briefs: seq<PathBrief>): multiset<OpenException> {
    if codes == [] then multiset{} else
    GroupTotal(codes[..|codes| - 1], briefs) + multiset(ExceptionsOf(PathsFor(briefs, codes[|codes| - 1])))
  }

  lemma {:induction false} SitesTotal(codes: seq<string>, names: map<string, string>, briefs: seq<PathBrief>)
    ensures SiteExceptions(SitesFor(codes, names, briefs)) == GroupTotal(codes, briefs)
  {
    if codes != [] {
      var front, code := codes[..|codes| - 1], codes[|codes| - 1];
      SitesTotal(front, names, briefs);
      var sites := SitesFor(front, names, briefs);
      assert (sites + [SiteBrief(code, NameIn(names, code), PathsFor(briefs, code))])[..|sites|] == sites;
    }
  }

  lemma PathsForSnoc(briefs: seq<PathBrief>, pb: PathBrief, code: string)
    ensures ExceptionsOf(PathsFor(briefs + [pb], code))
            == ExceptionsOf(PathsFor(briefs, code)) + if pb.target.siteCode == code then pb.exceptions else []
  {
    assert (briefs + [pb])[..|briefs|] == briefs;
    var paths := PathsFor(briefs, code);
    assert PathsFor(briefs + [pb], code) == if pb.target.siteCode == code then paths + [pb] else paths;
    assert (paths + [pb])[..|paths|] == paths;
  }

  /** One more path adds its exceptions to its own site and to no other. */
  lemma {:induction false} OneMorePath(codes: seq<string>, briefs: seq<PathBrief>, pb: PathBrief)
    requires Distinct(codes)
    ensures GroupTotal(codes, briefs + [pb])
            == GroupTotal(codes, briefs) + if pb.target.siteCode in codes then multiset(pb.exceptions) else multiset{}
  {
    hide ExceptionsOf, PathsFor;
    if codes != [] {
      var front, code := codes[..|codes| - 1], codes[|codes| - 1];
      assert codes == front + [code];
      OneMorePath(front, briefs, pb);
      PathsForSnoc(briefs, pb, code);
      assert code !in front;
    }
  }

  lemma NewSite(codes: seq<string>, briefs: seq<PathBrief>, pb: PathBrief)
    requires PathsFor(briefs, pb.target.siteCode) == []
    ensures GroupTotal(codes + [pb.target.siteCode], briefs + [pb]) == GroupTotal(codes, briefs + [pb]) + multiset(pb.exceptions)
  {
    assert (codes + [pb.target.siteCode])[..|codes|] == codes;
    PathsForSnoc(briefs, pb, pb.target.siteCode);
  }

  lemma {:induction false} GroupsTotalEverything(briefs: seq<PathBrief>)
    ensures GroupTotal(FirstSeen(briefs), briefs) == multiset(ExceptionsOf(briefs))
  {
    if briefs != [] {
      var front, last := briefs[..|briefs| - 1], briefs[|briefs| - 1];
      var before, code := FirstSeen(front), last.target.siteCode;
      assert briefs == front + [last];
      GroupsTotalEverything(front);
      FirstSeenIsDistinct(front);
      OneMorePath(before, front, last);
      if code !in before {
        NothingYet(front, code);
        NewSite(before, front, last);
      }
    }
  }

  /** Grouping loses nothing and duplicates nothing. */
  lemma GroupingConserves(names: map<string, string>, briefs: seq<PathBrief>)
    ensures SiteExceptions(SitesFor(FirstSeen(briefs), names, briefs)) == multiset(ExceptionsOf(briefs))
  {
    SitesTotal(FirstSeen(briefs), names, briefs);
    GroupsTotalEverything(briefs);
  }

  // ----- the whole brief, as the tool shows it -----

  lemma SynthesizedSeverity(c: Clients, t: PathTarget, r: PathReads)
    ensures forall e :: e in Synthesized(c, t, r).exceptions ==> e.severity in {WARNING, CRITICAL}
  {
    var b := Gathered(c, t, r);
    assert Synthesized(c, t, r).exceptions == Derived(b);
    assert forall e :: e in Derived(b) ==> e == Derived(b)[0];
  }

  lemma {:induction false} SynthesizedSeverities(c: Clients, targets: seq<PathTarget>, answers: nat -> PathReads,
                                                 n: nat)
    requires n <= |targets|
    ensures forall e :: e in ExceptionsOf(BriefsUpTo(c, targets, answers, n)) ==> e.severity in {WARNING, CRITICAL}
  {
    if n > 0 {
      SynthesizedSeverities(c, targets, answers, n - 1);
      SynthesizedSeverity(c, targets[n - 1], answers(n - 1));
      var front, last := BriefsUpTo(c, targets, answers, n - 1), Synthesized(c, targets[n - 1], answers(n - 1));
      assert (front + [last])[..|front|] == front;
    }
  }

  /** The brief: its sites follow the targets under the facility's names, and its list holds exactly the
      exceptions of the sites' paths, all of them warnings or critical, worst first and within a severity in
      the order of the targets. */
  lemma BriefIsComplete(now: int, facility: Option<Result<seq<SiteRef>, string>>, c: Clients,
                        targets: seq<PathTarget>,
                        answers: nat -> PathReads)
    ensures var brief := Composed(now, facility, c, targets, answers);
            && brief.generatedAt == now
            && FollowsTargets(brief.sites, c, targets, answers)
            && (forall site :: site in brief.sites ==>
                  site.siteName == if facility.Some? && facility.value.Ok? then NameIn(NamesOf(facility.value.value), site.siteCode)
                                   else "")
            && (forall k: nat :: OfRank(brief.openExceptions, k)
                                 == OfRank(ExceptionsOf(BriefsUpTo(c, targets, answers, |targets|)), k))
            && multiset(brief.openExceptions) == SiteExceptions(brief.sites)
            && WorstFirst(brief.openExceptions)
            && forall e :: e in brief.openExceptions ==> e.severity in {WARNING, CRITICAL}
  {
    hide FollowsTargets, SitesFor, Synthesized, NamesOf, FirstSeen, PathsFor, ExceptionsOf, OfRank, Ranked;
    var briefs := BriefsUpTo(c, targets, answers, |targets|);
    var exceptions := ExceptionsOf(briefs);
    var names := if facility.Some? && facility.value.Ok? then NamesOf(facility.value.value) else map[];
    SitesFollowTargets(c, targets, answers, names);
    GroupingConserves(names, briefs);
    RankedIsAStableSort(exceptions);
    SynthesizedSeverities(c, targets, answers, |targets|);
    SitesAt(FirstSeen(briefs), names, briefs);
    forall e | e in Ranked(exceptions) ensures e.severity in {WARNING, CRITICAL} {
      assert e in multiset(Ranked(exceptions));
      assert e in exceptions;
    }
  }

  /** End to end: what list_open_exceptions shows of a brief, whatever the upstreams answered. An unknown
      severity is refused; none, info and warning show the whole list; critical shows a prefix of it that
      is exactly the critical ones. */
  lemma ToolShowsAPrefix(now: int, facility: Option<Result<seq<SiteRef>, string>>, c: Clients,
                         targets: seq<PathTarget>,
                         answers: nat -> PathReads, severity: string)
    ensures var all := Composed(now, facility, c, targets, answers).openExceptions;
            && (MinRank(severity).None? <==> severity !in {"", INFO, WARNING, CRITICAL})
            && (severity in {"", INFO, WARNING} ==> Filtered(all, MinRank(severity).value) == all)
            && (severity == CRITICAL ==>
                  Filtered(all, 0) <= all && forall e :: e in Filtered(all, 0) <==> e in all && e.severity == CRITICAL)
  {
    BriefIsComplete(now, facility, c, targets, answers);
    ShownOf(Composed(now, facility, c, targets, answers).openExceptions);
  }

  lemma ShownOf(all: seq<OpenException>)
    requires WorstFirst(all) && forall e :: e in all ==> e.severity in {WARNING, CRITICAL}
    ensures Filtered(all, 1) == all && Filtered(all, 2) == all && Filtered(all, 0) <= all
    ensures forall e :: e in Filtered(all, 0) <==> e in all && e.severity == CRITICAL
  {
    hide Filtered, WorstFirst;
    SeveritiesDiffer();
    FilterIsAPrefix(all, 0);
    FilterKeepsExactly(all, 0);
    FilterKeepsExactly(all, 1);
    FilterKeepsExactly(all, 2);
  }

  lemma SeveritiesDiffer()
    ensures INFO != WARNING && INFO != CRITICAL && WARNING != CRITICAL
  {
    assert INFO[0] != WARNING[0] && INFO[0] != CRITICAL[0] && WARNING[0] != CRITICAL[0];
  }
}
