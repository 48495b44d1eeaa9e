/** One assistant reply is processed block by block (reasoner.go: processAssistantTurn,
    applySubmitPlan, executeToolCall). */
module Turn {
  import opened Common
  import opened Ports
  import opened ModelCall
  import opened ToolNames
  import opened ToolGate

  const TOOL_USE := "tool_use"
  const TOOL_RESULT := "tool_result"

  predicate IsToolUse(c: Content) { c.typ == TOOL_USE }

  predicate IsSubmit(c: Content) { IsToolUse(c) && c.name == SUBMIT_PLAN }

  function TextBlock(text: string): Content { Content("text", text, "", "", NoInput, "", Text(""), false) }

  function ResultBlock(id: string, body: Body, isError: bool): Content {
    Content(TOOL_RESULT, "", "", "", NoInput, id, body, isError)
  }

  /** What a turn has produced so far; `log` is the part of the invoker's log this run wrote. */
  datatype Progress = Progress(results: seq<Content>, plan: Plan, log: seq<Invocation>)

  datatype TurnEnd = Continues | Submits | BadSubmit

  function Audited(plan: Plan, call: ToolCall): Plan { plan.(toolCalls := plan.toolCalls + [call]) }

  function AuditOf(i: Invocation): ToolCall {
    ToolCall(i.upstream, i.tool, i.args, match i.result case Ok(_) => Succeeded case Err(e) => Errored(e))
  }

  function BodyOf(i: Invocation): Body { match i.result case Ok(out) => Text(out) case Err(e) => ErrorText(e) }

  predicate BadArguments(input: RawInput) { input.RawInput? && input.args.None? }

  function ArgsOf(input: RawInput): Args
    requires !BadArguments(input)
  {
    match input case NoInput => None case RawInput(args, _) => args.value
  }

  /** One tool_use that is not submit_plan: refused if never offered or if its arguments do not decode,
      otherwise invoked; always answered and always audited. */
  function OneTool(c: Content, lookup: map<string, ToolSpec>, g: Gate, answer: nat -> Result<string, string>,
                   p: Progress): Progress {
    if c.name !in lookup then
      Progress(p.results + [ResultBlock(c.id, UnknownToolText, true)],
               Audited(p.plan, ToolCall("", c.name, None, RefusedUnknownTool)), p.log)
    else
      var spec := lookup[c.name];
      if BadArguments(c.input) then
        Progress(p.results + [ResultBlock(c.id, BadArgumentsText, true)],
                 Audited(p.plan, ToolCall(spec.upstream, spec.name, None, RefusedBadArguments)), p.log)
      else
        var i := Invoked(g, spec.upstream, spec.name, ArgsOf(c.input), answer(|p.log|));
        Progress(p.results + [ResultBlock(c.id, BodyOf(i), i.result.Err?)], Audited(p.plan, AuditOf(i)), p.log + [i])
  }

  function Walk(blocks: seq<Content>, lookup: map<string, ToolSpec>, g: Gate, answer: nat -> Result<string, string>,
                p: Progress): (Progress, TurnEnd)
    decreases |blocks|
  {
    if blocks == [] then (p, Continues)
    else if !IsToolUse(blocks[0]) then Walk(blocks[1..], lookup, g, answer, p)
    else if IsSubmit(blocks[0]) then
      match DecodedPlan(blocks[0])
      case None => (p, BadSubmit)
      case Some(s) => (p.(plan := p.plan.(action := s.action, heads := s.heads, rationale := s.rationale)), Submits)
    else Walk(blocks[1..], lookup, g, answer, OneTool(blocks[0], lookup, g, answer, p))
  }

  function DecodedPlan(c: Content): Option<SubmittedPlan> {
    if c.input.RawInput? then c.input.plan else None
  }

  // ----- the same walk, updating the plan under construction in place -----

  class PlanDraft {
    var plan: Plan

    constructor (model: string)
      ensures plan == ZeroPlan(model)
    {
      plan := ZeroPlan(model);
    }
  }

  function ZeroPlan(model: string): Plan { Plan("", 0, "", [], model) }

  method ApplySubmitPlan(input: RawInput, draft: PlanDraft) returns (ok: bool)
    modifies draft
    ensures ok <==> input.RawInput? && input.plan.Some?
    ensures !ok ==> draft.plan == old(draft.plan)
    ensures ok ==> draft.plan == old(draft.plan).(action := input.plan.value.action, heads := input.plan.value.heads,
                                                  rationale := input.plan.value.rationale)
  {
    if input.NoInput? || input.plan.None? { return false; }
    var s := input.plan.value;
    draft.plan := draft.plan.(action := s.action, heads := s.heads, rationale := s.rationale);
    return true;
  }

  method ExecuteToolCall(c: Content, spec: ToolSpec, invoker: ToolInvoker,
                         answer: Result<string, string>) returns (result: Content, call: ToolCall)
    modifies invoker`log
    ensures BadArguments(c.input) ==>
              && invoker.log == old(invoker.log)
              && result == ResultBlock(c.id, BadArgumentsText, true)
              && call == ToolCall(spec.upstream, spec.name, None, RefusedBadArguments)
    ensures !BadArguments(c.input) ==>
              var i := Invoked(invoker.TheGate(), spec.upstream, spec.name, ArgsOf(c.input), answer);
              && invoker.log == old(invoker.log) + [i]
              && result == ResultBlock(c.id, BodyOf(i), i.result.Err?)
              && call == AuditOf(i)
  {
    if BadArguments(c.input) {
      return ResultBlock(c.id, BadArgumentsText, true), ToolCall(spec.upstream, spec.name, None, RefusedBadArguments);
    }
    var args := ArgsOf(c.input);
    var out := invoker.Invoke(spec.upstream, spec.name, args, answer);
    call := ToolCall(spec.upstream, spec.name, args, Succeeded);
    result := ResultBlock(c.id, Text(""), false);
    if out.Err? {
      call := call.(outcome := Errored(out.error));
      result := result.(body := ErrorText(out.error), isError := true);
    } else {
      result := result.(body := Text(out.value));
    }
  }

  method ProcessAssistantTurn(content: seq<Content>, lookup: map<string, ToolSpec>, invoker: ToolInvoker,
                              draft: PlanDraft,
                              answer: nat -> Result<string, string>, made: nat, ghost start: nat)
    returns (results: seq<Content>, end: TurnEnd)
    requires start + made == |invoker.log|
    modifies invoker`log, draft
    ensures start <= |invoker.log| && invoker.log[..start] == old(invoker.log)[..start]
    ensures (Progress(results, draft.plan, invoker.log[start..]), end)
            == Walk(content, lookup, invoker.TheGate(), answer, Progress([], old(draft.plan), old(invoker.log)[start..]))
  {
    ghost var g := invoker.TheGate();
    ghost var first := Walk(content, lookup, g, answer, Progress([], draft.plan, invoker.log[start..]));
    results := [];
    var calls := made;
    for k := 0 to |content|
      invariant calls == |invoker.log| - start
      invariant start <= |invoker.log| && invoker.log[..start] == old(invoker.log)[..start]
      invariant invoker.TheGate() == g
      invariant Walk(content[k..], lookup, g, answer, Progress(results, draft.plan, invoker.log[start..])) == first
    {
      var c := content[k];
      assert content[k..][1..] == content[k + 1..];
      if !IsToolUse(c) { continue; }
      if c.name == SUBMIT_PLAN {
        var ok := ApplySubmitPlan(c.input, draft);
        return results, if ok then Submits else BadSubmit;
      }
      if c.name !in lookup {
        results := results + [ResultBlock(c.id, UnknownToolText, true)];
        draft.plan := Audited(draft.plan, ToolCall("", c.name, None, RefusedUnknownTool));
        continue;
      }
      ghost var before := invoker.log;
      var result, call := ExecuteToolCall(c, lookup[c.name], invoker, answer(calls));
      results := results + [result];
      draft.plan := Audited(draft.plan, call);
      if !BadArguments(c.input) {
        assert invoker.log[start..] == before[start..] + [invoker.log[|before|]];
        calls := calls + 1;
      }
    }
    return results, Continues;
  }

  // ----- what one turn promises -----

  function ToolUses(blocks: seq<Content>): seq<Content> {
    if blocks == [] then [] else (if IsToolUse(blocks[0]) then [blocks[0]] else []) + ToolUses(blocks[1..])
  }

  /** The tool uses a turn answers: all of them up to the first submit_plan. */
  function Asked(blocks: seq<Content>): seq<Content> {
    if blocks == [] then []
    else if IsSubmit(blocks[0]) then []
    else (if IsToolUse(blocks[0]) then [blocks[0]] else []) + Asked(blocks[1..])
  }

  function FirstSubmit(blocks: seq<Content>): Option<Content> {
    if blocks == [] then None else if IsSubmit(blocks[0]) then Some(blocks[0]) else FirstSubmit(blocks[1..])
  }

  predicate Answers(result: Content, use: Content) { result.typ == TOOL_RESULT && result.toolUseId == use.id }

  /** The audit entry of one tool use says what was asked, by the offered tool's own names, and how it ended. */
  predicate Audits(call: ToolCall, use: Content, lookup: map<string, ToolSpec>) {
    if use.name !in lookup then call == ToolCall("", use.name, None, RefusedUnknownTool)
    else
      && call.upstream == lookup[use.name].upstream
      && call.tool == lookup[use.name].name
      && (BadArguments(use.input) ==> call.outcome == RefusedBadArguments && call.args == None)
      && (!BadArguments(use.input) ==>
            && (call.outcome.Succeeded? || call.outcome.Errored?)
            && call.args == if use.input.NoInput? then None else use.input.args.value)
  }

  /** The result sent to the model says how the call ended, and flags everything but a success as an error. */
  predicate Tells(result: Content, call: ToolCall) {
    && (result.isError <==> !call.outcome.Succeeded?)
    && match call.outcome
       case Succeeded => result.body.Text?
       case Errored(error) => result.body == ErrorText(error)
       case RefusedUnknownTool => result.body == UnknownToolText
       case RefusedBadArguments => result.body == BadArgumentsText
  }

  /** So does the j-th result added after p, of the j-th call. */
  ghost predicate TellsAt(p: Progress, q: Progress, j: nat) {
    && |p.results| + j < |q.results| && |p.plan.toolCalls| + j < |q.plan.toolCalls|
    && Tells(q.results[|p.results| + j], q.plan.toolCalls[|p.plan.toolCalls| + j])
  }

  /** The submit_plan carries this plan. */
  predicate Submitting(c: Content, s: SubmittedPlan) { c.input.RawInput? && c.input.plan == Some(s) }

  /** The submit_plan carries no plan that decodes. */
  predicate Undecoded(c: Content) { c.input.NoInput? || c.input.plan.None? }

  predicate WasExecuted(call: ToolCall) { call.outcome.Succeeded? || call.outcome.Errored? }

  function Executed(calls: seq<ToolCall>): seq<ToolCall> {
    if calls == [] then [] else
    var last := calls[|calls| - 1];
    Executed(calls[..|calls| - 1]) + if WasExecuted(last) then [last] else []
  }

  function AuditsOf(log: seq<Invocation>): seq<ToolCall> {
    if log == [] then [] else AuditsOf(log[..|log| - 1]) + [AuditOf(log[|log| - 1])]
  }

  lemma ExecutedSnoc(calls: seq<ToolCall>, call: ToolCall)
    ensures Executed(calls + [call]) == Executed(calls) + if WasExecuted(call) then [call] else []
  {
    assert (calls + [call])[..|calls|] == calls;
  }

  lemma AuditsOfSnoc(log: seq<Invocation>, i: Invocation)
    ensures AuditsOf(log + [i]) == AuditsOf(log) + [AuditOf(i)]
  {
    assert (log + [i])[..|log|] == log;
  }

  /** An invocation of an offered tool that got past the gate only if the gate lets it. */
  ghost predicate Confined(i: Invocation, lookup: map<string, ToolSpec>, g: Gate) {
    && (exists name :: name in lookup && lookup[name].upstream == i.upstream && lookup[name].name == i.tool)
    && (Reached(i) <==> Passes(g, i.upstream, i.tool))
  }

  /** Before and after any prefix of a turn: the executed audit entries are the invoker's log, in order. */
  ghost predicate Balanced(p: Progress, lookup: map<string, ToolSpec>, g: Gate) {
    && Executed(p.plan.toolCalls) == AuditsOf(p.log)
    && (forall i :: i in p.log ==> Confined(i, lookup, g))
  }

  /** One tool use adds one result that answers it and one audit entry, and touches nothing else. */
  ghost predicate OneToolSpec(c: Content, lookup: map<string, ToolSpec>, p: Progress, q: Progress) {
    && |q.results| == |p.results| + 1 && q.results[..|p.results|] == p.results
    && Answers(q.results[|p.results|], c)
    && |q.plan.toolCalls| == |p.plan.toolCalls| + 1 && q.plan.toolCalls[..|p.plan.toolCalls|] == p.plan.toolCalls
    && Audits(q.plan.toolCalls[|p.plan.toolCalls|], c, lookup)
    && Tells(q.results[|p.results|], q.plan.toolCalls[|p.plan.toolCalls|])
    && q.plan.(toolCalls := []) == p.plan.(toolCalls := [])
  }

  lemma OneToolMeetsSpec(c: Content, lookup: map<string, ToolSpec>, g: Gate, answer: nat -> Result<string, string>,
                         p: Progress)
    ensures OneToolSpec(c, lookup, p, OneTool(c, lookup, g, answer, p))
  {
  }

  lemma OneToolKeepsBalance(c: Content, lookup: map<string, ToolSpec>, g: Gate,
                            answer: nat -> Result<string, string>, p: Progress)
    requires Balanced(p, lookup, g)
    ensures Balanced(OneTool(c, lookup, g, answer, p), lookup, g)
  {
    if c.name !in lookup {
      ExecutedSnoc(p.plan.toolCalls, ToolCall("", c.name, None, RefusedUnknownTool));
    } else {
      var spec := lookup[c.name];
      if BadArguments(c.input) {
        ExecutedSnoc(p.plan.toolCalls, ToolCall(spec.upstream, spec.name, None, RefusedBadArguments));
      } else {
        var i := Invoked(g, spec.upstream, spec.name, ArgsOf(c.input), answer(|p.log|));
        ExecutedSnoc(p.plan.toolCalls, AuditOf(i));
        AuditsOfSnoc(p.log, i);
        OnlyGrantedCallsReachAnUpstream(g, spec.upstream, spec.name, ArgsOf(c.input), answer(|p.log|));
        assert Confined(i, lookup, g);
      }
    }
  }

  /** The results are exactly one tool_result per asked use, in order and by id, and so are the audit
      entries; the walk ends on the first submit_plan, whose decoded input alone can fill in the answer. */
  ghost predicate TurnSpec(blocks: seq<Content>, lookup: map<string, ToolSpec>, p: Progress, q: Progress,
                           end: TurnEnd) {
    var asked := Asked(blocks);
    && |q.results| == |p.results| + |asked| && q.results[..|p.results|] == p.results
    && (forall j :: 0 <= j < |asked| ==> Answers(q.results[|p.results| + j], asked[j]))
    && |q.plan.toolCalls| == |p.plan.toolCalls| + |asked| && q.plan.toolCalls[..|p.plan.toolCalls|] == p.plan.toolCalls
    && (forall j :: 0 <= j < |asked| ==> Audits(q.plan.toolCalls[|p.plan.toolCalls| + j], asked[j], lookup))
    && (forall j: nat :: j < |asked| ==> TellsAt(p, q, j))
    && q.plan.model == p.plan.model
    && (end == Continues <==> FirstSubmit(blocks).None?)
    && (end == BadSubmit <==> FirstSubmit(blocks).Some? && Undecoded(FirstSubmit(blocks).value))
    && (end == Submits ==> Submitting(FirstSubmit(blocks).value, SubmittedPlan(q.plan.action, q.plan.heads, q.plan.rationale)))
    && (end != Submits ==> q.plan.action == p.plan.action && q.plan.heads == p.plan.heads && q.plan.rationale == p.plan.rationale)
  }

  lemma {:induction false} WalkMeetsSpec(blocks: seq<Content>, lookup: map<string, ToolSpec>, g: Gate,
                                         answer: nat -> Result<string, string>, p: Progress)
    ensures var (q, end) := Walk(blocks, lookup, g, answer, p); TurnSpec(blocks, lookup, p, q, end)
    decreases |blocks|
  {
    if blocks == [] || IsSubmit(blocks[0]) {
      StopsHere(blocks, lookup, g, answer, p);
    } else if IsToolUse(blocks[0]) {
      var p1 := OneTool(blocks[0], lookup, g, answer, p);
      OneToolMeetsSpec(blocks[0], lookup, g, answer, p);
      WalkMeetsSpec(blocks[1..], lookup, g, answer, p1);
      hide OneTool, TurnSpec, OneToolSpec;
      var (q, end) := Walk(blocks[1..], lookup, g, answer, p1);
      ConsTurn(blocks, lookup, p, p1, q, end);
    } else {
      WalkMeetsSpec(blocks[1..], lookup, g, answer, p);
      hide OneTool, TurnSpec;
      var (q, end) := Walk(blocks[1..], lookup, g, answer, p);
      SkipBlock(blocks, lookup, p, q, end);
    }
  }

  lemma StopsHere(blocks: seq<Content>, lookup: map<string, ToolSpec>, g: Gate,
                  answer: nat -> Result<string, string>, p: Progress)
    requires blocks == [] || IsSubmit(blocks[0])
    ensures var (q, end) := Walk(blocks, lookup, g, answer, p); TurnSpec(blocks, lookup, p, q, end)
  {
    hide OneTool;
  }

  lemma SkipBlock(blocks: seq<Content>, lookup: map<string, ToolSpec>, p: Progress, q: Progress, end: TurnEnd)
    requires blocks != [] && !IsToolUse(blocks[0]) && TurnSpec(blocks[1..], lookup, p, q, end)
    ensures TurnSpec(blocks, lookup, p, q, end)
  {
    assert Asked(blocks) == Asked(blocks[1..]) && FirstSubmit(blocks) == FirstSubmit(blocks[1..]);
    hide Asked, FirstSubmit, Audits, Answers, TellsAt;
  }

  lemma {:induction false} WalkKeepsBalance(blocks: seq<Content>, lookup: map<string, ToolSpec>, g: Gate,
                                            answer: nat -> Result<string, string>, p: Progress)
    requires Balanced(p, lookup, g)
    ensures Balanced(Walk(blocks, lookup, g, answer, p).0, lookup, g)
    decreases |blocks|
  {
    if blocks != [] && !IsSubmit(blocks[0]) {
      if IsToolUse(blocks[0]) {
        OneToolKeepsBalance(blocks[0], lookup, g, answer, p);
        WalkKeepsBalance(blocks[1..], lookup, g, answer, OneTool(blocks[0], lookup, g, answer, p));
      } else {
        WalkKeepsBalance(blocks[1..], lookup, g, answer, p);
      }
    }
  }

  lemma ConsTurn(blocks: seq<Content>, lookup: map<string, ToolSpec>, p: Progress, p1: Progress, q: Progress,
                 end: TurnEnd)
    requires blocks != [] && IsToolUse(blocks[0]) && !IsSubmit(blocks[0])
    requires OneToolSpec(blocks[0], lookup, p, p1)
    requires TurnSpec(blocks[1..], lookup, p1, q, end)
    ensures TurnSpec(blocks, lookup, p, q, end)
  {
    var asked, rest := Asked(blocks), Asked(blocks[1..]);
    assert asked == [blocks[0]] + rest;
    assert q.results[..|p.results|] == q.results[..|p1.results|][..|p.results|];
    assert q.results[|p.results|] == q.results[..|p1.results|][|p.results|];
    assert q.plan.toolCalls[..|p.plan.toolCalls|] == q.plan.toolCalls[..|p1.plan.toolCalls|][..|p.plan.toolCalls|];
    assert q.plan.toolCalls[|p.plan.toolCalls|] == q.plan.toolCalls[..|p1.plan.toolCalls|][|p.plan.toolCalls|];
    forall j | 0 <= j < |asked|
      ensures Answers(q.results[|p.results| + j], asked[j]) && Audits(q.plan.toolCalls[|p.plan.toolCalls| + j], asked[j], lookup)
      ensures TellsAt(p, q, j)
    {
      if j > 0 {
        assert asked[j] == rest[j - 1];
        assert Answers(q.results[|p1.results| + (j - 1)], rest[j - 1]);
        assert Audits(q.plan.toolCalls[|p1.plan.toolCalls| + (j - 1)], rest[j - 1], lookup);
        assert TellsAt(p1, q, j - 1);
      }
    }
  }

  /** What a user message hands to the model as tool output. */
  function Told(content: seq<Content>): seq<Body> {
    if content == [] then [] else
    var last := content[|content| - 1];
    Told(content[..|content| - 1]) + if last.typ == TOOL_RESULT && !last.isError then [last.body] else []
  }

  /** The outputs the invoker actually obtained. */
  function Obtained(log: seq<Invocation>): seq<Body> {
    if log == [] then [] else
    var last := log[|log| - 1];
    Obtained(log[..|log| - 1]) + if last.result.Ok? then [Text(last.result.value)] else []
  }

  lemma ToldSnoc(content: seq<Content>, c: Content)
    ensures Told(content + [c]) == Told(content) + if c.typ == TOOL_RESULT && !c.isError then [c.body] else []
  {
    assert (content + [c])[..|content|] == content;
  }

  lemma ObtainedSnoc(log: seq<Invocation>, i: Invocation)
    ensures Obtained(log + [i]) == Obtained(log) + if i.result.Ok? then [Text(i.result.value)] else []
  {
    assert (log + [i])[..|log|] == log;
  }

  lemma OneToolTellsTheTruth(c: Content, lookup: map<string, ToolSpec>, g: Gate,
                             answer: nat -> Result<string, string>, p: Progress, earlier: seq<Invocation>)
    requires Obtained(p.log) == Obtained(earlier) + Told(p.results)
    ensures var q := OneTool(c, lookup, g, answer, p); Obtained(q.log) == Obtained(earlier) + Told(q.results)
  {
    hide Told, Obtained;
    if c.name !in lookup {
      ToldSnoc(p.results, ResultBlock(c.id, UnknownToolText, true));
    } else if BadArguments(c.input) {
      ToldSnoc(p.results, ResultBlock(c.id, BadArgumentsText, true));
    } else {
      var spec := lookup[c.name];
      var i := Invoked(g, spec.upstream, spec.name, ArgsOf(c.input), answer(|p.log|));
      ToldSnoc(p.results, ResultBlock(c.id, BodyOf(i), i.result.Err?));
      ObtainedSnoc(p.log, i);
    }
  }

  /** Up to a submit_plan, the model is told exactly the outputs the invoker obtained, in order, and
      everything else it is told is flagged as an error. */
  lemma {:induction false} ModelIsToldWhatWasObtained(blocks: seq<Content>, lookup: map<string, ToolSpec>, g: Gate,
                                                      answer: nat -> Result<string, string>, p: Progress, earlier: seq<Invocation>)
    requires Obtained(p.log) == Obtained(earlier) + Told(p.results)
    ensures var q := Walk(blocks, lookup, g, answer, p).0; Obtained(q.log) == Obtained(earlier) + Told(q.results)
    decreases |blocks|
  {
    if blocks != [] && !IsSubmit(blocks[0]) {
      if IsToolUse(blocks[0]) {
        OneToolTellsTheTruth(blocks[0], lookup, g, answer, p, earlier);
        ModelIsToldWhatWasObtained(blocks[1..], lookup, g, answer, OneTool(blocks[0], lookup, g, answer, p), earlier);
      } else {
        ModelIsToldWhatWasObtained(blocks[1..], lookup, g, answer, p, earlier);
      }
    }
  }

  /** Without a submit_plan, every tool use of the reply is asked. */
  lemma {:induction false} NoSubmitAsksAll(blocks: seq<Content>)
    ensures FirstSubmit(blocks).None? ==> Asked(blocks) == ToolUses(blocks)
  {
    if blocks != [] { NoSubmitAsksAll(blocks[1..]); }
  }

  // ----- the blocks of a reply -----

  /** The tool uses are the blocks of that type, in order. */
  lemma {:induction false} ToolUsesExactly(before: seq<Content>, after: seq<Content>, c: Content)
    ensures ToolUses(before + after) == ToolUses(before) + ToolUses(after)
    ensures ToolUses([c]) == if c.typ == "tool_use" then [c] else []
  {
    assert [c][1..] == [];
    if before == [] {
      assert before + after == after;
    } else {
      assert (before + after)[0] == before[0] && (before + after)[1..] == before[1..] + after;
      ToolUsesExactly(before[1..], after, c);
    }
  }

  /** The submit_plan a turn ends on is the first tool use of that name, and the uses it asks are those before. */
  lemma {:induction false} SubmitExactly(blocks: seq<Content>, k: nat)
    requires k < |blocks| && forall i :: 0 <= i < k ==> !(blocks[i].typ == "tool_use" && blocks[i].name == "submit_plan")
    ensures blocks[k].typ == "tool_use" && blocks[k].name == "submit_plan" ==>
              FirstSubmit(blocks) == Some(blocks[k]) && Asked(blocks) == ToolUses(blocks[..k])
    ensures k == |blocks| - 1 && !(blocks[k].typ == "tool_use" && blocks[k].name == "submit_plan") ==>
              FirstSubmit(blocks) == None && Asked(blocks) == ToolUses(blocks)
  {
    if k > 0 {
      SubmitExactly(blocks[1..], k - 1);
      assert blocks[..k][1..] == blocks[1..][..k - 1] && blocks[..k][0] == blocks[0];
    } else {
      assert blocks[..0] == [];
      assert k == |blocks| - 1 ==> blocks[1..] == [];
    }
  }

  // ----- the log against the audit and the upstreams -----

  /** An executed audit entry is its invocation: same upstream, tool and arguments, and the same ending. */
  predicate Reports(call: ToolCall, i: Invocation) {
    && call.upstream == i.upstream && call.tool == i.tool && call.args == i.args
    && match i.result
       case Ok(_) => call.outcome == Succeeded
       case Err(error) => call.outcome == Errored(error)
  }

  lemma {:induction false} AuditsReport(log: seq<Invocation>)
    ensures |AuditsOf(log)| == |log| && forall k :: 0 <= k < |log| ==> Reports(AuditsOf(log)[k], log[k])
  {
    if log != [] { AuditsReport(log[..|log| - 1]); }
  }

  /** The k-th invocation, when it got through, carries what the k-th answer was, as output or as error. */
  ghost predicate Echoes(log: seq<Invocation>, answer: nat -> Result<string, string>) {
    forall k :: 0 <= k < |log| ==>
      match log[k].result
      case Ok(out) => answer(k) == Ok(out)
      case Err(UpstreamError(text)) => answer(k) == Err(text)
      case Err(_) => true
  }

  lemma {:induction false} WalkEchoes(blocks: seq<Content>, lookup: map<string, ToolSpec>, g: Gate,
                                      answer: nat -> Result<string, string>, p: Progress)
    requires Echoes(p.log, answer)
    ensures Echoes(Walk(blocks, lookup, g, answer, p).0.log, answer)
    decreases |blocks|
  {
    if blocks != [] && !IsSubmit(blocks[0]) {
      if IsToolUse(blocks[0]) {
        OneToolEchoes(blocks[0], lookup, g, answer, p);
        WalkEchoes(blocks[1..], lookup, g, answer, OneTool(blocks[0], lookup, g, answer, p));
      } else {
        WalkEchoes(blocks[1..], lookup, g, answer, p);
      }
    }
  }

  lemma OneToolEchoes(c: Content, lookup: map<string, ToolSpec>, g: Gate, answer: nat -> Result<string, string>,
                      p: Progress)
    requires Echoes(p.log, answer)
    ensures Echoes(OneTool(c, lookup, g, answer, p).log, answer)
  {
  }
}
