/** The bounded tool-use protocol (reasoner.go: Reason) against a model whose replies are arbitrary,
    and what every run of it promises. */
module Reasoner {
  import opened Common
  import opened Ports
  import opened ModelCall
  import opened ToolNames
  import opened ToolGate
  import opened Turn
  import Breaker

  const DEFAULT_MAX_TURNS: nat := 6
  const NUDGE := TextBlock("Submit your plan now by calling submit_plan.")

  datatype Message = Message(role: string, content: seq<Content>)

  function UserMessage(content: seq<Content>): Message { Message("user", content) }
  function AssistantMessage(content: seq<Content>): Message { Message("assistant", content) }

  datatype Verdict = Submitted | NoPlanWithinTurns | CallFailed(error: CallError) | SubmitNotDecoded

  /** What one model call sends; the tool choice names the tool the model would be forced to use. */
  datatype Request = Request(tools: seq<ApiTool>, toolChoice: Option<string>, messages: seq<Message>)

  /** A run's whole record: the conversation, the plan, the invocations it caused, one record and one
      request per model call, and the breaker it leaves behind. */
  datatype Run = Run(messages: seq<Message>, plan: Plan, log: seq<Invocation>, calls: seq<CallRecord>,
                     requests: seq<Request>, breaker: Breaker.State)

  /** What the use case asks: its rendered question and facts, the tools and the actions it allows. */
  datatype Brief = Brief(prompt: string, tools: seq<ToolSpec>, allowedActions: seq<string>)

  /** What stays fixed during one run. */
  datatype Setting = Setting(maxTurns: nat, offered: seq<ApiTool>, lookup: map<string, ToolSpec>, gate: Gate,
                             world: World, deadline: int)

  function Started(prompt: string, model: string, b: Breaker.State): Run {
    Run([UserMessage([TextBlock(prompt)])], ZeroPlan(model), [], [], [], b)
  }

  function Reply(results: seq<Content>): seq<Content> { if results == [] then [NUDGE] else results }

  /** The reply names the model that wrote it, when it does. */
  function Named(plan: Plan, model: string): Plan { if model != "" then plan.(model := model) else plan }

  /** One turn: the call, and if it succeeds the walk over its reply. None means the loop goes on. */
  function TurnStep(s: Setting, r: Run): (Run, Option<Verdict>) {
    var (rec, b) := CallModel(s.world, |r.calls|, s.deadline, r.breaker);
    var called := r.(calls := r.calls + [rec], requests := r.requests + [Request(s.offered, None, r.messages)], breaker := b);
    if rec.result.Err? then (called, Some(CallFailed(rec.result.error)))
    else
      var response := rec.result.value;
      var plan := Named(r.plan, response.model);
      var heard := called.messages + [AssistantMessage(response.content)];
      var (p, end) := Walk(response.content, s.lookup, s.gate, s.world.answer, Progress([], plan, r.log));
      var walked := called.(messages := heard, plan := p.plan, log := p.log);
      match end
      case BadSubmit => (walked, Some(SubmitNotDecoded))
      case Submits => (walked, Some(Submitted))
      case Continues => (walked.(messages := heard + [UserMessage(Reply(p.results))]), None)
  }

  function RunFrom(s: Setting, r: Run, turn: nat): (Run, Verdict)
    decreases if turn < s.maxTurns then s.maxTurns - turn else 0
  {
    if turn >= s.maxTurns then (r, NoPlanWithinTurns)
    else
      match TurnStep(s, r)
      case (r', Some(v)) => (r', v)
      case (r', None) => RunFrom(s, r', turn + 1)
  }

  function TheRun(s: Setting, prompt: string, model: string, b: Breaker.State): (Run, Verdict) {
    RunFrom(s, Started(prompt, model, b), 0)
  }

  /** context.WithTimeout: the caller's deadline when it is nearer than the run's own budget. */
  function RunDeadline(caller: Option<int>, start: int, timeout: int): (r: int)
    ensures r <= start + timeout && (caller.Some? ==> r <= caller.value)
    ensures r == start + timeout || caller == Some(r)
  {
    if caller.Some? && caller.value < start + timeout then caller.value else start + timeout
  }

  const DEFAULT_MODEL := "claude-sonnet-4-5"
  const DEFAULT_TIMEOUT := 8_000

  datatype Config = Config(apiKey: string, model: string, maxTurns: int, timeout: int)

  datatype ConfigError = ApiKeyRequired | ToolInvokerRequired

  /** New: a key and an invoker are required; an empty model, and a turn bound or a timeout that is not
      positive, mean the defaults; the breaker starts closed and empty. */
  method New(cfg: Config, invoker: ToolInvoker?) returns (r: Result<ReasonerAdapter, ConfigError>)
    ensures cfg.apiKey == "" ==> r == Err(ApiKeyRequired)
    ensures cfg.apiKey != "" && invoker == null ==> r == Err(ToolInvokerRequired)
    ensures cfg.apiKey != "" && invoker != null ==>
              && r.Ok? && fresh(r.value) && fresh(r.value.breaker) && r.value.breaker.state == Breaker.START
              && r.value.invoker == invoker
              && r.value.model == (if cfg.model == "" then DEFAULT_MODEL else cfg.model)
              && r.value.maxTurns == (if cfg.maxTurns <= 0 then DEFAULT_MAX_TURNS else cfg.maxTurns)
              && r.value.timeout == (if cfg.timeout <= 0 then DEFAULT_TIMEOUT else cfg.timeout)
  {
    if cfg.apiKey == "" { return Err(ApiKeyRequired); }
    if invoker == null { return Err(ToolInvokerRequired); }
    var model, maxTurns, timeout := cfg.model, cfg.maxTurns, cfg.timeout;
    if model == "" { model := DEFAULT_MODEL; }
    if maxTurns <= 0 { maxTurns := DEFAULT_MAX_TURNS; }
    if timeout <= 0 { timeout := DEFAULT_TIMEOUT; }
    var reasoner := new ReasonerAdapter(maxTurns, model, timeout, invoker);
    return Ok(reasoner);
  }

  class ReasonerAdapter {
    const maxTurns: nat
    const model: string
    const timeout: int
    const invoker: ToolInvoker
    const breaker: Breaker.CircuitBreaker

    constructor (maxTurns: nat, model: string, timeout: int, invoker: ToolInvoker)
      ensures this.maxTurns == maxTurns && this.model == model && this.timeout == timeout && this.invoker == invoker
      ensures fresh(this.breaker) && this.breaker.state == Breaker.START
    {
      this.maxTurns, this.model, this.timeout, this.invoker := maxTurns, model, timeout, invoker;
      this.breaker := new Breaker.CircuitBreaker();
    }

    ghost function SettingFor(brief: Brief, w: World, caller: Option<int>, start: int): Setting
      reads invoker
    {
      Setting(maxTurns, Catalogue(brief.tools, brief.allowedActions), Lookup(brief.tools), invoker.TheGate(), w,
              RunDeadline(caller, start, timeout))
    }

    method Reason(brief: Brief, w: World, caller: Option<int>, start: int)
      returns (plan: Plan, verdict: Verdict, ghost run: Run)
      modifies invoker`log, breaker
      ensures (run, verdict) == TheRun(SettingFor(brief, w, caller, start), brief.prompt, model, old(breaker.state))
      ensures plan == run.plan
      ensures breaker.state == run.breaker
      ensures invoker.log == old(invoker.log) + run.log
    {
      var deadline := RunDeadline(caller, start, timeout);
      var offered, lookup := Tools(brief.tools, brief.allowedActions);
      var messages := [UserMessage([TextBlock(brief.prompt)])];
      var draft := new PlanDraft(model);
      ghost var s := SettingFor(brief, w, caller, start);
      var begun := |invoker.log|;
      ghost var before := invoker.log;
      run := Started(brief.prompt, model, breaker.state);
      assert invoker.log[begun..] == [];
      var made: nat := 0;
      for turn := 0 to maxTurns
        invariant fresh(draft)
        invariant invoker.TheGate() == s.gate
        invariant begun + made == |invoker.log| && invoker.log[..begun] == before
        invariant run.messages == messages && run.plan == draft.plan && run.log == invoker.log[begun..] && run.breaker == breaker.state
        invariant |run.calls| == turn
        invariant RunFrom(s, run, turn) == TheRun(s, brief.prompt, model, old(breaker.state))
      {
        ghost var r0 := run;
        ghost var step := TurnStep(s, r0);
        var rec := Call(w, turn, deadline, breaker);
        run := run.(calls := run.calls + [rec], requests := run.requests + [Request(offered, None, messages)], breaker := breaker.state);
        if rec.result.Err? {
          assert step == (run, Some(CallFailed(rec.result.error)));
          assert invoker.log == invoker.log[..begun] + invoker.log[begun..];
          return draft.plan, CallFailed(rec.result.error), run;
        }
        var response := rec.result.value;
        if response.model != "" { draft.plan := draft.plan.(model := response.model); }
        messages := messages + [AssistantMessage(response.content)];
        var results, end := ProcessAssistantTurn(response.content, lookup, invoker, draft, w.answer, made, begun);
        made := |invoker.log| - begun;
        run := run.(messages := messages, plan := draft.plan, log := invoker.log[begun..]);
        assert invoker.log == invoker.log[..begun] + invoker.log[begun..];
        if end.BadSubmit? {
          assert step == (run, Some(SubmitNotDecoded));
          return draft.plan, SubmitNotDecoded, run;
        }
        if end.Submits? {
          assert step == (run, Some(Submitted));
          return draft.plan, Submitted, run;
        }
        if results == [] {
          messages := messages + [UserMessage([NUDGE])];
        } else {
          messages := messages + [UserMessage(results)];
        }
        run := run.(messages := messages);
        assert step == (run, None);
      }
      assert invoker.log == invoker.log[..begun] + invoker.log[begun..];
      return draft.plan, NoPlanWithinTurns, run;
    }
  }
}
