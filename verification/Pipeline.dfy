/** The advisory with the real protocol as its reasoner: what an untrusted model, reached over an
    untrusted network, can do to a decision. */
module Pipeline {
  import opened Common
  import opened Ports
  import opened FlowBalance
  import opened Arbitration
  import opened Advisory
  import opened ModelCall
  import opened ToolNames
  import opened ToolGate
  import opened Reasoner
  import opened RunProperties
  import opened BreakerTraffic
  import opened Labels
  import Breaker

  const ALLOWED_ACTIONS := [ASSIGN_LABOR, RELEASE_NEXT_WORK, HOLD]

  /** What Reason hands back to the use case: the plan, or an error in its place. */
  function ReplyOf(v: Verdict, plan: Plan): Advisory.Reply {
    Some(if v.Submitted? then Ok(plan) else Err("no plan"))
  }

  function AdviseWith(pathId: string, up: Upstream, mode: string, s: Setting, prompt: string, model: string,
                      b: Breaker.State): Result<Decision, string> {
    var (r, v) := TheRun(s, prompt, model, b);
    Advise(pathId, up, mode, ReplyOf(v, r.plan))
  }

  lemma AdviseWithSettles(pathId: string, up: Upstream, mode: string, s: Setting, prompt: string, model: string,
                          b: Breaker.State)
    ensures var (r, v) := TheRun(s, prompt, model, b);
            RulesOnly(pathId, up).Ok? ==>
              AdviseWith(pathId, up, mode, s, prompt, model, b) == Ok(Settle(RulesOnly(pathId, up).value, mode, ReplyOf(v, r.plan)))
  {
    hide RulesOnly, TheRun;
  }

  lemma RulesAreOff(pathId: string, up: Upstream)
    ensures Advise(pathId, up, OFF, None) == RulesOnly(pathId, up)
  {
    hide RulesOnly;
  }

  /** The model's one lever on a decision: an in-vocabulary submit_plan input that decoded in the last
      reply of a run that ended by it. */
  ghost predicate SubmittedInVocabulary(s: Setting, prompt: string, model: string, b: Breaker.State,
                                        a: SubmittedPlan) {
    var (r, v) := TheRun(s, prompt, model, b);
    v == Submitted && SubmittedLast(r, a) && InVocabulary(PlanProposal(a.action, a.heads, a.rationale))
  }

  /** End to end, for every world: in mode on, an in-vocabulary answer submitted by the run's last reply
      replaces the rules' action, heads and rationale, and nothing else does anything: in every other case
      the decision is the rules' own. */
  lemma TheModelCanOnlySubmit(pathId: string, up: Upstream, mode: string, s: Setting, prompt: string, model: string,
                              b: Breaker.State)
    requires ParseLLMMode(mode).Ok?
    ensures var (d, rules) := (AdviseWith(pathId, up, mode, s, prompt, model, b), RulesOnly(pathId, up));
            && (forall a :: SubmittedInVocabulary(s, prompt, model, b, a) && mode == ON && rules.Ok? ==>
                  d.Ok? && ReplacedBy(d.value, rules.value, PlanProposal(a.action, a.heads, a.rationale)))
            && (mode != ON || rules.Err? || !(exists a :: SubmittedInVocabulary(s, prompt, model, b, a)) ==> d == rules)
  {
    var (r, v) := TheRun(s, prompt, model, b);
    ModelNonInterference(pathId, up, mode, ReplyOf(v, r.plan));
    OnlySubmitPlanAnswers(s, prompt, model, b);
    forall a | SubmittedInVocabulary(s, prompt, model, b, a) ensures v == Submitted && a == AnswerOf(r.plan) {
    }
    if Adoptable(ReplyOf(v, r.plan)) {
      assert SubmittedInVocabulary(s, prompt, model, b, AnswerOf(r.plan));
    }
  }

  /** The schema offered for submit_plan and the gate behind it allow the same plans, but for two rules the
      schema does not carry: only an assignment has heads, and a rationale says something. */
  lemma SchemaAgreesWithTheGate(p: PlanProposal)
    ensures var schema := SubmitTool(ALLOWED_ACTIONS).schema;
            InVocabulary(p) <==>
            && p.action in schema.actions && schema.minHeads <= p.heads <= schema.maxHeads
            && (p.heads != 0 ==> p.action == ASSIGN_LABOR) && p.rationale != ""
  {
    assert ALLOWED_ACTIONS[0] == ASSIGN_LABOR && ALLOWED_ACTIONS[1] == RELEASE_NEXT_WORK && ALLOWED_ACTIONS[2] == HOLD;
  }

  /** Two worlds, two models, two catalogues, one upstream: errors agree, and the decisions agree on
      everything but lever, heads and reason, which differ only in mode on. */
  lemma TwoRunsAgree(pathId: string, up: Upstream, mode: string,
                     s1: Setting, p1: string, m1: string, b1: Breaker.State,
                     s2: Setting, p2: string, m2: string, b2: Breaker.State)
    requires ParseLLMMode(mode).Ok?
    ensures var d1, d2 := AdviseWith(pathId, up, mode, s1, p1, m1, b1), AdviseWith(pathId, up, mode, s2, p2, m2, b2);
            && (d1.Err? <==> d2.Err?)
            && (mode != ON ==> d1 == d2)
            && (d1.Ok? ==> d1.value.(recommendedAction := "", proposedHeads := 0, rationale := NoAnchorSignal)
                           == d2.value.(recommendedAction := "", proposedHeads := 0, rationale := NoAnchorSignal))
  {
    var (r1, v1) := TheRun(s1, p1, m1, b1);
    var (r2, v2) := TheRun(s2, p2, m2, b2);
    TwoModelsDifferOnlyInTheOutcome(pathId, up, mode, ReplyOf(v1, r1.plan), ReplyOf(v2, r2.plan));
    ModelNonInterference(pathId, up, mode, ReplyOf(v1, r1.plan));
    ModelNonInterference(pathId, up, mode, ReplyOf(v2, r2.plan));
  }

  /** With the breaker open the advisory still answers, by the rules alone, at no cost. */
  lemma OpenBreakerFallsBack(pathId: string, up: Upstream, mode: string, s: Setting, prompt: string, model: string,
                             b: Breaker.State)
    requires b.phase == Breaker.Open && Breaker.Expire !in s.world.before(0) && s.maxTurns > 0
    ensures AdviseWith(pathId, up, mode, s, prompt, model, b) == RulesOnly(pathId, up)
    ensures Attempts(TheRun(s, prompt, model, b).0.calls) == 0 && TheRun(s, prompt, model, b).0.log == []
  {
    OpenBreakerShortCircuits(s, prompt, model, b);
    var (r, v) := TheRun(s, prompt, model, b);
    ModelNonInterference(pathId, up, mode, ReplyOf(v, r.plan));
  }

  // ----- from start-up to a run -----

  /** Behind a gate that enforces the configuration, no run of any model reaches anything but an allowed
      tool of the catalogue. */
  lemma OnlyAllowListedToolsAreReached(entries: seq<string>, endpoints: map<string, string>, s: Setting,
                                       tools: seq<ToolSpec>,
                                       prompt: string, model: string, b: Breaker.State)
    requires s.lookup == Lookup(tools) && Enforces(s.gate, endpoints, entries)
    ensures forall i :: i in TheRun(s, prompt, model, b).0.log && Reached(i) ==>
              AllowListed(endpoints, entries, i.upstream, i.tool) && exists t :: t in tools && t.upstream == i.upstream && t.name == i.tool
  {
    InvocationsAreConfined(s, tools, prompt, model, b);
  }

  /** What discovery buys: with a discovered catalogue the gate never refuses an invocation. */
  lemma DiscoveredToolsAreNeverRefused(s: Setting, listing: Listing, prompt: string, model: string, b: Breaker.State)
    requires s.lookup == Lookup(Discovered(s.gate, Sorted(s.gate.sessions.Keys), listing))
    ensures forall i :: i in TheRun(s, prompt, model, b).0.log ==> Reached(i)
  {
    AllDiscoveredPass(s.gate, listing);
    PassingToolsAreNeverRefused(s, Discovered(s.gate, Sorted(s.gate.sessions.Keys), listing), prompt, model, b);
  }

  lemma PassingToolsAreNeverRefused(s: Setting, tools: seq<ToolSpec>, prompt: string, model: string, b: Breaker.State)
    requires s.lookup == Lookup(tools) && forall t :: t in tools ==> Passes(s.gate, t.upstream, t.name)
    ensures forall i :: i in TheRun(s, prompt, model, b).0.log ==> Reached(i) && Passes(s.gate, i.upstream, i.tool)
  {
    InvocationsAreConfined(s, tools, prompt, model, b);
  }

  datatype WiringError = UnknownMode(raw: string) | KeyRequired | BadEntry(entry: string)

  /** The use case as the process holds it: wired once, then asked any number of times. */
  class FlowBalanceAdvisory {
    var mode: string
    var reasoner: ReasonerAdapter?
    var tools: seq<ToolSpec>

    constructor ()
      ensures mode == "" && reasoner == null && tools == []
    {
      mode, reasoner, tools := "", null, [];
    }

    /** The gate enforces the configuration, every tool offered passes it, and so far nothing was invoked
        that the configuration does not allow, and nothing was refused. */
    ghost predicate Confines(endpoints: map<string, string>, entries: seq<string>)
      reads this, if reasoner == null then {} else {reasoner.invoker}
    {
      reasoner != null ==>
        && Enforces(reasoner.invoker.TheGate(), endpoints, entries)
        && (forall t :: t in tools ==> Passes(reasoner.invoker.TheGate(), t.upstream, t.name))
        && (forall i :: i in reasoner.invoker.log ==> Reached(i) && AllowListed(endpoints, entries, i.upstream, i.tool))
    }

    /** Start-up fails on an unknown mode, on a missing key and on a bad entry, in that order; off wires
        nothing; otherwise a fresh reasoner is installed behind the gate, with what discovery found. */
    method WireReasoner(raw: string, cfg: Config, endpoints: map<string, string>, entries: seq<string>,
                        listing: Listing)
      returns (err: Option<WiringError>)
      modifies this
      ensures err.Some? || raw in {"", OFF} ==> unchanged(this)
      ensures ParseLLMMode(raw).Err? ==> err == Some(UnknownMode(raw))
      ensures raw in {"", OFF} ==> err == None
      ensures raw in {SHADOW, ON} && cfg.apiKey == "" ==> err == Some(KeyRequired)
      ensures raw in {SHADOW, ON} && cfg.apiKey != "" ==>
                && (err.None? <==> forall e :: e in entries ==> WellFormedEntry(e))
                && (err.Some? ==> err.value.BadEntry? && err.value.entry in entries && !WellFormedEntry(err.value.entry))
      ensures raw in {SHADOW, ON} && err.None? ==>
                && mode == raw && reasoner != null
                && fresh(reasoner) && fresh(reasoner.invoker) && fresh(reasoner.breaker)
                && tools == Discovered(reasoner.invoker.TheGate(), Sorted(reasoner.invoker.sessions.Keys), listing)
                && reasoner.breaker.state == Breaker.START && reasoner.invoker.log == []
      ensures old(reasoner) == null || (raw in {SHADOW, ON} && err.None?) ==> Confines(endpoints, entries)
    {
      var parsed := ParseLLMMode(raw);
      if parsed.Err? { return Some(UnknownMode(raw)); }
      if parsed.value == OFF { return None; }
      if cfg.apiKey == "" { return Some(KeyRequired); }
      var invoker := AssembleInvoker(endpoints, entries);
      if invoker.Err? { return Some(BadEntry(invoker.error)); }
      var adapter := New(cfg, invoker.value);
      var specs, _ := invoker.value.Specs(listing);
      reasoner, mode, tools := adapter.value, parsed.value, specs;
      return None;
    }

    /** One request: the rules decide, and unless the mode is off or nothing is wired the reasoner is asked
        once and its plan arbitrated. Whatever the model and the network do, the configuration holds. */
    method Execute(pathId: string, up: Upstream, prompt: string, w: World, caller: Option<int>, start: int,
                   ghost endpoints: map<string, string>, ghost entries: seq<string>)
      returns (result: Result<Decision, string>)
      requires Confines(endpoints, entries)
      modifies if reasoner == null then {} else {reasoner.invoker, reasoner.breaker}
      ensures Confines(endpoints, entries)
      ensures reasoner == null || mode in {"", OFF} || RulesOnly(pathId, up).Err? ==>
                && result == RulesOnly(pathId, up)
                && (reasoner != null ==> unchanged(reasoner.invoker) && unchanged(reasoner.breaker))
      ensures reasoner != null && mode !in {"", OFF} && RulesOnly(pathId, up).Ok? ==>
                var s := old(reasoner.SettingFor(Brief(prompt, tools, ALLOWED_ACTIONS), w, caller, start));
                var (run, v) := TheRun(s, prompt, reasoner.model, old(reasoner.breaker.state));
                && result == AdviseWith(pathId, up, mode, s, prompt, reasoner.model, old(reasoner.breaker.state))
                && reasoner.invoker.log == old(reasoner.invoker.log) + run.log
                && reasoner.breaker.state == run.breaker
    {
      RulesAreOff(pathId, up);
      hide RulesOnly, TheRun, AdviseWith, Advise, Settle;
      var det := Advisory.Execute(pathId, up, OFF, None);
      if det.Err? || mode == "" || mode == OFF || reasoner == null { return det; }
      ghost var s := reasoner.SettingFor(Brief(prompt, tools, ALLOWED_ACTIONS), w, caller, start);
      AdviseWithSettles(pathId, up, mode, s, prompt, reasoner.model, reasoner.breaker.state);
      PassingToolsAreNeverRefused(s, tools, prompt, reasoner.model, reasoner.breaker.state);
      var plan, verdict, run := reasoner.Reason(Brief(prompt, tools, ALLOWED_ACTIONS), w, caller, start);
      return Ok(Settle(det.value, mode, ReplyOf(verdict, plan)));
    }
  }
}
