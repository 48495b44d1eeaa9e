/** The only way from the model to an upstream: the allow-list is parsed at start-up
    (cmd/agent/reasoner.go) and enforced by the tool invoker (mcpclient/tool_invoker.go). */
module ToolGate {
  import opened Common
  import opened Ports
  import opened Labels

  const UPSTREAMS := {"wes-work-planning", "fulfillment-execution", "workforce-management", "inventory-storage", "facility-layout"}

  // ----- the allow-list -----

  /** strings.Cut at "/": what is before and after the first slash. */
  function Cut(s: string): Option<(string, string)> {
    if s == "" then None
    else if s[0] == '/' then Some(("", s[1..]))
    else match Cut(s[1..])
         case None => None
         case Some((before, after)) => Some(([s[0]] + before, after))
  }

  lemma {:induction false} CutExactly(s: string, before: string, after: string)
    ensures Cut(s) == Some((before, after)) <==> s == before + "/" + after && '/' !in before
  {
    if s != "" {
      assert s == [s[0]] + s[1..];
      if s[0] == '/' {
        if before != "" { assert (before + "/" + after)[0] == before[0]; assert before[0] in before; }
      } else if before == "" {
        assert (before + "/" + after)[0] == '/';
        if Cut(s[1..]).Some? { assert Cut(s).value.0 != ""; }
      } else {
        CutExactly(s[1..], before[1..], after);
        assert before == [before[0]] + before[1..];
        assert before + "/" + after == [before[0]] + (before[1..] + "/" + after);
      }
    }
  }

  predicate WellFormedEntry(entry: string) {
    Cut(entry).Some? && Cut(entry).value.0 != "" && Cut(entry).value.1 != ""
  }

  ghost predicate Listed(entries: seq<string>, upstream: string, tool: string) {
    '/' !in upstream && upstream + "/" + tool in entries
  }

  ghost predicate Granted(allowed: map<string, seq<string>>, upstream: string, tool: string) {
    upstream in allowed && tool in allowed[upstream]
  }

  /** Every entry must be <upstream>/<tool>; then the map grants exactly the listed pairs. */
  method ParseAllowList(entries: seq<string>) returns (r: Result<map<string, seq<string>>, string>)
    ensures r.Ok? <==> forall e :: e in entries ==> WellFormedEntry(e)
    ensures r.Err? ==> r.error in entries && !WellFormedEntry(r.error)
    ensures r.Ok? ==> forall upstream, tool :: Granted(r.value, upstream, tool) <==> Listed(entries, upstream, tool)
  {
    var allowed: map<string, seq<string>> := map[];
    for k := 0 to |entries|
      invariant forall i :: 0 <= i < k ==> WellFormedEntry(entries[i])
      invariant forall upstream, tool :: Granted(allowed, upstream, tool) <==> CutAmong(entries, k, upstream, tool)
    {
      if !WellFormedEntry(entries[k]) { return Err(entries[k]); }
      var (upstream, tool) := Cut(entries[k]).value;
      CutAmongStep(entries, k);
      GrantStep(allowed, upstream, tool);
      allowed := Grant(allowed, upstream, tool);
    }
    CutAmongIsListed(entries);
    return Ok(allowed);
  }

  function Grant(allowed: map<string, seq<string>>, upstream: string, tool: string): map<string, seq<string>> {
    allowed[upstream := (if upstream in allowed then allowed[upstream] else []) + [tool]]
  }

  lemma GrantStep(allowed: map<string, seq<string>>, upstream: string, tool: string)
    ensures forall u, t :: Granted(Grant(allowed, upstream, tool), u, t) <==> Granted(allowed, u, t) || (u == upstream && t == tool)
  {
  }

  ghost predicate CutAmong(entries: seq<string>, k: nat, upstream: string, tool: string)
    requires k <= |entries|
  {
    exists i :: 0 <= i < k && Cut(entries[i]) == Some((upstream, tool))
  }

  lemma CutAmongStep(entries: seq<string>, k: nat)
    requires k < |entries|
    ensures forall u, t :: CutAmong(entries, k + 1, u, t) <==> CutAmong(entries, k, u, t) || Cut(entries[k]) == Some((u, t))
  {
  }

  lemma CutAmongIsListed(entries: seq<string>)
    ensures forall u, t :: CutAmong(entries, |entries|, u, t) <==> Listed(entries, u, t)
  {
    forall u, t ensures CutAmong(entries, |entries|, u, t) <==> Listed(entries, u, t) {
      forall i | 0 <= i < |entries|
        ensures Cut(entries[i]) == Some((u, t)) <==> entries[i] == u + "/" + t && '/' !in u
      {
        CutExactly(entries[i], u, t);
      }
    }
  }

  // ----- the gate -----

  datatype Gate = Gate(sessions: map<string, string>, allowed: map<string, set<string>>)

  predicate Passes(g: Gate, upstream: string, tool: string) {
    upstream in g.sessions && upstream in g.allowed && tool in g.allowed[upstream]
  }

  /** A session that is nil or has no endpoint is skipped. */
  predicate Live(session: Option<string>) { session.Some? && session.value != "" }

  ghost function ToolsOf(allowed: map<string, seq<string>>, upstream: string): set<string> {
    if upstream in allowed then Elements(allowed[upstream]) else {}
  }

  ghost function GateOver(names: set<string>, sessions: map<string, Option<string>>,
                          allowed: map<string, seq<string>>): Gate
    requires names <= sessions.Keys
  {
    Gate(map n | n in names && Live(sessions[n]) :: sessions[n].value,
         map n | n in names && Live(sessions[n]) :: ToolsOf(allowed, n))
  }

  function Invoked(g: Gate, upstream: string, tool: string, args: Args, answer: Result<string, string>): Invocation {
    Invocation(upstream, tool, args,
               if upstream !in g.sessions then Err(UnknownUpstream(upstream))
               else if !Passes(g, upstream, tool) then Err(NotAllowed(upstream, tool))
               else match answer
                    case Ok(out) => Ok(out)
                    case Err(text) => Err(UpstreamError(text)))
  }

  /** The invocation went through to its upstream's session. */
  predicate Reached(i: Invocation) { i.result.Ok? || i.result.error.UpstreamError? }

  /** An invocation says what was asked and how it ended: the upstream's output as output and its error as
      an error, exactly when the gate passes, and otherwise which of the two refusals it met. */
  lemma InvokedExactly(g: Gate, upstream: string, tool: string, args: Args, answer: Result<string, string>)
    ensures var i := Invoked(g, upstream, tool, args, answer);
            && i.upstream == upstream && i.tool == tool && i.args == args
            && (forall out :: i.result == Ok(out) <==> Passes(g, upstream, tool) && answer == Ok(out))
            && (forall text :: i.result == Err(UpstreamError(text)) <==> Passes(g, upstream, tool) && answer == Err(text))
            && (i.result == Err(UnknownUpstream(upstream)) <==> upstream !in g.sessions)
            && (i.result == Err(NotAllowed(upstream, tool)) <==> upstream in g.sessions && !Passes(g, upstream, tool))
  {
  }

  /** A session is bound exactly when it is there and has an endpoint, then under that endpoint and with
      exactly the tools listed for it. */
  lemma BoundExactly(sessions: map<string, Option<string>>, allowed: map<string, seq<string>>, name: string)
    ensures var g := GateOver(sessions.Keys, sessions, allowed);
            && (name in g.sessions <==> name in sessions && sessions[name].Some? && sessions[name].value != "")
            && (name in g.sessions ==> g.sessions[name] == sessions[name].value && name in g.allowed)
            && (forall tool :: Passes(g, name, tool) <==> name in g.sessions && name in allowed && tool in allowed[name])
  {
    if name in allowed { InElements(allowed[name]); }
  }

  lemma OnlyGrantedCallsReachAnUpstream(g: Gate, upstream: string, tool: string, args: Args,
                                        answer: Result<string, string>)
    ensures Reached(Invoked(g, upstream, tool, args, answer)) <==> Passes(g, upstream, tool)
  {
  }

  // ----- discovery -----

  datatype ListedTool = ListedTool(name: string, description: string, schema: Option<string>)

  type Listing = string -> Result<seq<ListedTool>, string>

  function SpecOf(upstream: string, t: ListedTool): ToolSpec { ToolSpec(upstream, t.name, t.description, t.schema) }

  function Offers(g: Gate, upstream: string, listed: seq<ListedTool>): seq<ToolSpec> {
    if listed == [] then [] else
    var last := listed[|listed| - 1];
    Offers(g, upstream, listed[..|listed| - 1])
    + if upstream in g.allowed && last.name in g.allowed[upstream] then [SpecOf(upstream, last)] else []
  }

  function OffersAt(g: Gate, name: string, listing: Listing): seq<ToolSpec> {
    if listing(name).Ok? then Offers(g, name, listing(name).value) else []
  }

  function ErrorsAt(name: string, listing: Listing): seq<string> {
    if listing(name).Ok? then [] else [listing(name).error]
  }

  function Discovered(g: Gate, names: seq<string>, listing: Listing): seq<ToolSpec> {
    if names == [] then [] else
    Discovered(g, names[..|names| - 1], listing) + OffersAt(g, names[|names| - 1], listing)
  }

  function DiscoveryErrors(names: seq<string>, listing: Listing): seq<string> {
    if names == [] then [] else
    DiscoveryErrors(names[..|names| - 1], listing) + ErrorsAt(names[|names| - 1], listing)
  }

  lemma DiscoveryStep(g: Gate, names: seq<string>, n: nat, listing: Listing)
    requires n < |names|
    ensures Discovered(g, names[..n + 1], listing) == Discovered(g, names[..n], listing) + OffersAt(g, names[n], listing)
    ensures DiscoveryErrors(names[..n + 1], listing) == DiscoveryErrors(names[..n], listing) + ErrorsAt(names[n], listing)
  {
    assert names[..n + 1][..n] == names[..n];
  }

  lemma {:induction false} OffersExactly(g: Gate, upstream: string, listed: seq<ListedTool>, s: ToolSpec)
    ensures s in Offers(g, upstream, listed) <==>
            exists t :: t in listed && s == SpecOf(upstream, t) && upstream in g.allowed && t.name in g.allowed[upstream]
  {
    if listed != [] {
      var front, last := listed[..|listed| - 1], listed[|listed| - 1];
      assert listed == front + [last];
      OffersExactly(g, upstream, front, s);
    }
  }

  lemma {:induction false} DiscoveredFrom(g: Gate, names: seq<string>, listing: Listing, s: ToolSpec)
    ensures s in Discovered(g, names, listing) <==>
            s.upstream in names && listing(s.upstream).Ok? && s in Offers(g, s.upstream, listing(s.upstream).value)
  {
    if names != [] {
      var front, last := names[..|names| - 1], names[|names| - 1];
      assert names == front + [last];
      DiscoveredFrom(g, front, listing, s);
      if listing(last).Ok? { OffersExactly(g, last, listing(last).value, s); }
      if listing(s.upstream).Ok? { OffersExactly(g, s.upstream, listing(s.upstream).value, s); }
    }
  }

  lemma OffersSnoc(g: Gate, upstream: string, listed: seq<ListedTool>, t: ListedTool)
    ensures Offers(g, upstream, listed + [t])
            == Offers(g, upstream, listed)
               + if upstream in g.allowed && t.name in g.allowed[upstream]
                 then [ToolSpec(upstream, t.name, t.description, t.schema)] else []
  {
    assert (listed + [t])[..|listed|] == listed;
  }

  /** Specs come upstream by upstream, each upstream's in the order it listed them, and so do the errors. */
  lemma DiscoverySnoc(g: Gate, names: seq<string>, name: string, listing: Listing)
    ensures Discovered(g, names + [name], listing)
            == Discovered(g, names, listing) + if listing(name).Ok? then Offers(g, name, listing(name).value) else []
    ensures DiscoveryErrors(names + [name], listing)
            == DiscoveryErrors(names, listing) + if listing(name).Ok? then [] else [listing(name).error]
  {
    assert (names + [name])[..|names|] == names;
  }

  /** Discovery offers the model exactly the tools that a live upstream listed and that pass the gate. */
  lemma DiscoveredExactly(g: Gate, listing: Listing, s: ToolSpec)
    ensures s in Discovered(g, Sorted(g.sessions.Keys), listing) <==>
            && Passes(g, s.upstream, s.name)
            && listing(s.upstream).Ok?
            && ListedTool(s.name, s.description, s.schema) in listing(s.upstream).value
  {
    var names := Sorted(g.sessions.Keys);
    SortedAscends(g.sessions.Keys);
    DiscoveredFrom(g, names, listing, s);
    if listing(s.upstream).Ok? { OffersExactly(g, s.upstream, listing(s.upstream).value, s); }
  }

  lemma AddSession(done: set<string>, name: string, sessions: map<string, Option<string>>,
                   allowed: map<string, seq<string>>)
    requires done <= sessions.Keys && name in sessions
    ensures var g := GateOver(done, sessions, allowed);
            GateOver(done + {name}, sessions, allowed)
            == if Live(sessions[name]) then Gate(g.sessions[name := sessions[name].value], g.allowed[name := ToolsOf(allowed, name)])
               else g
  {
  }

  lemma NoSessionYet(sessions: map<string, Option<string>>, allowed: map<string, seq<string>>)
    ensures GateOver({}, sessions, allowed) == Gate(map[], map[])
  {
  }

  method AllowedSet(upstream: string, allowed: map<string, seq<string>>) returns (granted: set<string>)
    ensures granted == ToolsOf(allowed, upstream)
  {
    granted := {};
    var tools := if upstream in allowed then allowed[upstream] else [];
    for k := 0 to |tools|
      invariant granted == Elements(tools[..k])
    {
      assert tools[..k + 1][..k] == tools[..k];
      granted := granted + {tools[k]};
    }
    assert tools[..|tools|] == tools;
  }

  /** Sessions are bound in whatever order the map yields them. */
  method BindSessions(sessions: map<string, Option<string>>, allowed: map<string, seq<string>>) returns (g: Gate)
    ensures g == GateOver(sessions.Keys, sessions, allowed)
  {
    hide GateOver, ToolsOf;
    g := Gate(map[], map[]);
    NoSessionYet(sessions, allowed);
    var todo, done := sessions.Keys, {};
    while todo != {}
      invariant done == sessions.Keys - todo && todo <= sessions.Keys
      invariant g == GateOver(done, sessions, allowed)
      decreases |todo|
    {
      var name :| name in todo;
      AddSession(done, name, sessions, allowed);
      if Live(sessions[name]) {
        var tools := AllowedSet(name, allowed);
        g := Gate(g.sessions[name := sessions[name].value], g.allowed[name := tools]);
      }
      todo, done := todo - {name}, done + {name};
    }
    assert done == sessions.Keys;
  }

  method AllowedOf(g: Gate, upstream: string, listed: seq<ListedTool>) returns (offers: seq<ToolSpec>)
    ensures offers == Offers(g, upstream, listed)
  {
    offers := [];
    for k := 0 to |listed|
      invariant offers == Offers(g, upstream, listed[..k])
    {
      assert listed[..k + 1][..k] == listed[..k];
      if upstream in g.allowed && listed[k].name in g.allowed[upstream] {
        offers := offers + [SpecOf(upstream, listed[k])];
      }
    }
    assert listed[..|listed|] == listed;
  }

  method Discover(g: Gate, listing: Listing) returns (found: seq<ToolSpec>, errs: seq<string>)
    ensures found == Discovered(g, Sorted(g.sessions.Keys), listing)
    ensures errs == DiscoveryErrors(Sorted(g.sessions.Keys), listing)
  {
    found, errs := [], [];
    var names := SortedKeys(g.sessions.Keys);
    for n := 0 to |names|
      invariant found == Discovered(g, names[..n], listing)
      invariant errs == DiscoveryErrors(names[..n], listing)
    {
      DiscoveryStep(g, names, n, listing);
      var listed := listing(names[n]);
      if listed.Err? {
        errs := errs + [listed.error];
      } else {
        var offers := AllowedOf(g, names[n], listed.value);
        found := found + offers;
      }
    }
    assert names[..|names|] == names;
  }

  lemma AllDiscoveredPass(g: Gate, listing: Listing)
    ensures forall s :: s in Discovered(g, Sorted(g.sessions.Keys), listing) ==> Passes(g, s.upstream, s.name)
  {
    forall s | s in Discovered(g, Sorted(g.sessions.Keys), listing) ensures Passes(g, s.upstream, s.name) {
      DiscoveredExactly(g, listing, s);
    }
  }

  // ----- how often upstreams are listed -----

  /** The cached specs, and how many rounds of listing have been made so far. */
  datatype Cache = Cache(specs: seq<ToolSpec>, rounds: nat)

  const EMPTY_CACHE := Cache([], 0)

  /** One call of Specs: a non-empty discovery without errors is kept for good; until then each lists again. */
  ghost function SpecsCall(g: Gate, c: Cache, listing: Listing): (seq<ToolSpec>, seq<string>, Cache) {
    if c.specs != [] then (c.specs, [], c)
    else
      var found := Discovered(g, Sorted(g.sessions.Keys), listing);
      var errs := DiscoveryErrors(Sorted(g.sessions.Keys), listing);
      (found, errs, Cache(if errs == [] then found else [], c.rounds + 1))
  }

  /** The cache after one call per listing. */
  ghost function Served(g: Gate, listings: seq<Listing>): Cache {
    if listings == [] then EMPTY_CACHE else
    SpecsCall(g, Served(g, listings[..|listings| - 1]), listings[|listings| - 1]).2
  }

  /** Every live upstream answers, and one of them lists a tool the gate lets through. */
  ghost predicate Settles(g: Gate, listing: Listing) {
    && (forall u :: u in g.sessions ==> listing(u).Ok?)
    && exists u, t :: u in g.sessions && t in listing(u).value && Passes(g, u, t.name)
  }

  lemma {:induction false} NoErrorsExactly(names: seq<string>, listing: Listing)
    ensures DiscoveryErrors(names, listing) == [] <==> forall u :: u in names ==> listing(u).Ok?
  {
    if names != [] {
      var front, last := names[..|names| - 1], names[|names| - 1];
      assert names == front + [last];
      NoErrorsExactly(front, listing);
    }
  }

  lemma SettlesExactly(g: Gate, listing: Listing)
    ensures var names := Sorted(g.sessions.Keys);
            Settles(g, listing) <==> DiscoveryErrors(names, listing) == [] && Discovered(g, names, listing) != []
  {
    var names := Sorted(g.sessions.Keys);
    SortedAscends(g.sessions.Keys);
    NoErrorsExactly(names, listing);
    if Settles(g, listing) {
      var u, t :| u in g.sessions && t in listing(u).value && Passes(g, u, t.name);
      DiscoveredExactly(g, listing, SpecOf(u, t));
    }
    if DiscoveryErrors(names, listing) == [] && Discovered(g, names, listing) != [] {
      var s := Discovered(g, names, listing)[0];
      DiscoveredExactly(g, listing, s);
      assert s.upstream in g.sessions && ListedTool(s.name, s.description, s.schema) in listing(s.upstream).value;
    }
  }

  /** The upstreams are listed in every call up to the first that settles, and in none after it. */
  lemma {:induction false} ListsUntilSettled(g: Gate, listings: seq<Listing>, first: nat)
    requires first < |listings| && forall i :: 0 <= i < first ==> !Settles(g, listings[i])
    ensures Settles(g, listings[first]) ==>
              Served(g, listings) == Cache(Discovered(g, Sorted(g.sessions.Keys), listings[first]), first + 1)
    ensures !Settles(g, listings[first]) && first == |listings| - 1 ==> Served(g, listings) == Cache([], |listings|)
    decreases |listings|
  {
    var front := listings[..|listings| - 1];
    SettlesExactly(g, listings[first]);
    if first < |front| {
      ListsUntilSettled(g, front, first);
    } else if front != [] {
      ListsUntilSettled(g, front, first - 1);
    }
  }

  /** Discovery happens once per process, over any two or more calls, exactly when in the first of them
      every live upstream answers and one lists an allowed tool. Otherwise it happens again. */
  lemma {:induction false} DiscoversOnceExactly(g: Gate, listings: seq<Listing>)
    requires |listings| >= 2
    ensures Served(g, listings).rounds == 1 <==> Settles(g, listings[0])
    ensures Served(g, listings).rounds >= 1
  {
    var front := listings[..|listings| - 1];
    if Settles(g, listings[0]) {
      ListsUntilSettled(g, listings, 0);
    } else if |front| >= 2 {
      DiscoversOnceExactly(g, front);
    } else {
      ListsUntilSettled(g, front, 0);
    }
  }

  /** What the next call answers: from the first discovery that settled on, that discovery and no errors;
      before it, whatever the upstreams list now, and their errors. */
  lemma NextCallAnswers(g: Gate, listings: seq<Listing>, listing: Listing, first: nat)
    requires first <= |listings| && forall i :: 0 <= i < first ==> !Settles(g, listings[i])
    requires first < |listings| ==> Settles(g, listings[first])
    ensures var (found, errs, _) := SpecsCall(g, Served(g, listings), listing);
            var names := Sorted(g.sessions.Keys);
            && found == Discovered(g, names, if first < |listings| then listings[first] else listing)
            && errs == if first < |listings| then [] else DiscoveryErrors(names, listing)
  {
    if first < |listings| {
      ListsUntilSettled(g, listings, first);
      SettlesExactly(g, listings[first]);
    } else if first > 0 {
      ListsUntilSettled(g, listings, first - 1);
    }
  }

  /** Two processes that list twice: one live upstream that publishes nothing, or that is down. */
  lemma TwoRoundsOfDiscovery()
    ensures var g := Gate(map["wes-work-planning" := "http://wes"], map["wes-work-planning" := {"list_tasks"}]);
            var empty: Listing := _ => Ok([]);
            var down: Listing := _ => Err("connection refused");
            Served(g, [empty, empty]).rounds == 2 && Served(g, [down, down]).rounds == 2
  {
    var g := Gate(map["wes-work-planning" := "http://wes"], map["wes-work-planning" := {"list_tasks"}]);
    var empty: Listing := _ => Ok([]);
    var down: Listing := _ => Err("connection refused");
    assert "wes-work-planning" in g.sessions;
    ListsUntilSettled(g, [empty, empty], 1);
    ListsUntilSettled(g, [down, down], 1);
  }

  class ToolInvoker {
    var sessions: map<string, string>
    var allowed: map<string, set<string>>
    var specs: seq<ToolSpec>
    var log: seq<Invocation>
    ghost var rounds: nat

    function TheGate(): Gate reads this { Gate(sessions, allowed) }

    ghost function TheCache(): Cache reads this { Cache(specs, rounds) }

    /** Whatever is cached passes the gate. */
    ghost predicate Valid() reads this {
      forall s :: s in specs ==> Passes(TheGate(), s.upstream, s.name)
    }

    constructor (sessions: map<string, Option<string>>, allowed: map<string, seq<string>>)
      ensures Valid() && TheGate() == GateOver(sessions.Keys, sessions, allowed)
      ensures TheCache() == EMPTY_CACHE && log == []
    {
      var g := BindSessions(sessions, allowed);
      this.sessions, this.allowed, specs, log, rounds := g.sessions, g.allowed, [], [], 0;
    }

    method Invoke(upstream: string, tool: string, args: Args,
                  answer: Result<string, string>) returns (r: Result<string, InvokeError>)
      modifies this`log
      ensures log == old(log) + [Invoked(TheGate(), upstream, tool, args, answer)]
      ensures r == Invoked(TheGate(), upstream, tool, args, answer).result
      ensures forall out :: r == Ok(out) <==> Passes(TheGate(), upstream, tool) && answer == Ok(out)
      ensures forall text :: r == Err(UpstreamError(text)) <==> Passes(TheGate(), upstream, tool) && answer == Err(text)
    {
      var call: Invocation;
      if upstream !in sessions {
        call := Invocation(upstream, tool, args, Err(UnknownUpstream(upstream)));
      } else if upstream !in allowed || tool !in allowed[upstream] {
        call := Invocation(upstream, tool, args, Err(NotAllowed(upstream, tool)));
      } else if answer.Ok? {
        call := Invocation(upstream, tool, args, Ok(answer.value));
      } else {
        call := Invocation(upstream, tool, args, Err(UpstreamError(answer.error)));
      }
      log := log + [call];
      r := call.result;
    }

    /** Lists the upstreams unless an earlier discovery was kept. */
    method Specs(listing: Listing) returns (found: seq<ToolSpec>, errs: seq<string>)
      requires Valid()
      modifies this`specs, this`rounds
      ensures Valid()
      ensures (found, errs, TheCache()) == SpecsCall(TheGate(), old(TheCache()), listing)
      ensures forall s :: s in found ==> Passes(TheGate(), s.upstream, s.name)
    {
      hide Discovered, DiscoveryErrors, Sorted, Passes;
      if specs != [] { return specs, []; }
      found, errs := Discover(TheGate(), listing);
      rounds := rounds + 1;
      AllDiscoveredPass(TheGate(), listing);
      if errs == [] { specs := found; }
    }
  }

  /** What the configuration lets the model reach: one of the five upstreams, with an endpoint, and
      "<upstream>/<tool>" an entry of the list, read at its first slash. */
  ghost predicate AllowListed(endpoints: map<string, string>, entries: seq<string>, upstream: string, tool: string) {
    upstream in UPSTREAMS && upstream in endpoints && endpoints[upstream] != "" && Listed(entries, upstream, tool)
  }

  /** The gate lets through exactly what the configuration allows. */
  ghost predicate Enforces(g: Gate, endpoints: map<string, string>, entries: seq<string>) {
    forall upstream, tool :: Passes(g, upstream, tool) <==> AllowListed(endpoints, entries, upstream, tool)
  }

  /** Start-up: five sessions, the allow-list, the gate. */
  method AssembleInvoker(endpoints: map<string, string>,
                         entries: seq<string>) returns (r: Result<ToolInvoker, string>)
    ensures r.Ok? <==> forall e :: e in entries ==> WellFormedEntry(e)
    ensures r.Err? ==> r.error in entries && !WellFormedEntry(r.error)
    ensures r.Ok? ==> fresh(r.value) && r.value.Valid() && r.value.log == [] && r.value.TheCache() == EMPTY_CACHE
    ensures r.Ok? ==> Enforces(r.value.TheGate(), endpoints, entries)
  {
    var allowed := ParseAllowList(entries);
    if allowed.Err? { return Err(allowed.error); }
    var sessions := map n | n in UPSTREAMS :: Some(if n in endpoints then endpoints[n] else "");
    var invoker := new ToolInvoker(sessions, allowed.value);
    forall upstream, tool
      ensures Passes(invoker.TheGate(), upstream, tool) <==> AllowListed(endpoints, entries, upstream, tool)
    {
      assert Granted(allowed.value, upstream, tool) <==> Listed(entries, upstream, tool);
      if upstream in allowed.value { InElements(allowed.value[upstream]); }
    }
    return Ok(invoker);
  }
}
