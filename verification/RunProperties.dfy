/** Whole-run properties of the tool-use protocol: for every model, every network, every tool answer,
    every clock and every other use of the breaker (all of them inside `Setting.world`). */
module RunProperties {
  import opened Common
  import opened Ports
  import opened ModelCall
  import opened ToolNames
  import opened ToolGate
  import opened Turn
  import opened Reasoner
  import Breaker

  // ----- the conversation -----

  /** The user message after a reply: one tool_result per tool use, in order and by id, or the nudge
      when the reply asked for nothing. */
  ghost predicate AnswersAll(content: seq<Content>, reply: seq<Content>) {
    var uses := ToolUses(reply);
    if uses == [] then content == [NUDGE]
    else |content| == |uses| && forall j :: 0 <= j < |uses| ==> Answers(content[j], uses[j])
  }

  /** Turn i went through: the assistant's reply is recorded verbatim, did not submit, and is answered. */
  ghost predicate Exchanged(r: Run, i: nat) {
    && i < |r.calls| && 2 * i + 2 < |r.messages|
    && r.calls[i].result.Ok?
    && var reply := r.calls[i].result.value.content;
       && r.messages[2 * i + 1] == AssistantMessage(reply)
       && FirstSubmit(reply).None?
       && r.messages[2 * i + 2].role == "user"
       && AnswersAll(r.messages[2 * i + 2].content, reply)
  }

  /** The request of turn i carried the conversation so far: 2i+1 messages. */
  ghost predicate SentSoFar(r: Run, i: nat) {
    i < |r.requests| && 2 * i + 1 <= |r.messages| && r.requests[i].messages == r.messages[..2 * i + 1]
  }

  ghost predicate Conversation(r: Run, prompt: string, exchanged: nat) {
    && |r.requests| == |r.calls|
    && r.messages != [] && r.messages[0] == UserMessage([TextBlock(prompt)])
    && (forall i: nat :: i < exchanged ==> Exchanged(r, i))
    && (forall i: nat :: i < |r.calls| ==> SentSoFar(r, i))
  }

  /** Between turns: every turn so far went through. */
  ghost predicate Between(r: Run, prompt: string) {
    Conversation(r, prompt, |r.calls|) && |r.messages| == 2 * |r.calls| + 1
  }

  ghost predicate LastReply(r: Run, reply: seq<Content>) {
    var n := |r.calls|;
    && n > 0 && |r.messages| == 2 * n
    && r.calls[n - 1].result.Ok? && r.calls[n - 1].result.value.content == reply
    && r.messages[2 * n - 1] == AssistantMessage(reply)
  }

  /** How a run can end. */
  ghost predicate EndsAs(s: Setting, r: Run, v: Verdict, prompt: string) {
    var n := |r.calls|;
    match v
    case NoPlanWithinTurns => n >= s.maxTurns && Between(r, prompt)
    case CallFailed(e) => n > 0 && Conversation(r, prompt, n - 1) && |r.messages| == 2 * n - 1 && r.calls[n - 1].result == Err(e)
    case Submitted =>
      && n > 0 && Conversation(r, prompt, n - 1)
      && exists reply :: LastReply(r, reply) && FirstSubmit(reply).Some? && !Undecoded(FirstSubmit(reply).value)
    case SubmitNotDecoded =>
      && n > 0 && Conversation(r, prompt, n - 1)
      && exists reply :: LastReply(r, reply) && FirstSubmit(reply).Some? && Undecoded(FirstSubmit(reply).value)
  }

  // ----- the nudge -----

  /** The nudges of a conversation: the messages after the prompt that are nothing but the nudge. */
  function Nudges(messages: seq<Message>): nat {
    if |messages| <= 1 then 0 else
    Nudges(messages[..|messages| - 1]) + if messages[|messages| - 1] == UserMessage([NUDGE]) then 1 else 0
  }

  /** The replies without a single tool use. */
  function ProseReplies(calls: seq<CallRecord>): nat {
    if calls == [] then 0 else
    var last := calls[|calls| - 1];
    ProseReplies(calls[..|calls| - 1]) + if last.result.Ok? && ToolUses(last.result.value.content) == [] then 1 else 0
  }

  ghost predicate NudgedPerProse(r: Run) { Nudges(r.messages) == ProseReplies(r.calls) }

  /** Every request offers the same catalogue and leaves the choice of a tool to the model. */
  ghost predicate Unforced(s: Setting, r: Run) {
    forall i :: 0 <= i < |r.requests| ==> r.requests[i].tools == s.offered && r.requests[i].toolChoice == None
  }

  // ----- the audit -----

  /** Every tool use the run answered, over all of the assistant's messages. */
  function AskedIn(messages: seq<Message>): seq<Content> {
    if messages == [] then [] else
    var last := messages[|messages| - 1];
    AskedIn(messages[..|messages| - 1]) + if last.role == "assistant" then Asked(last.content) else []
  }

  ghost predicate AuditIsComplete(s: Setting, r: Run) {
    var asked := AskedIn(r.messages);
    && Balanced(Progress([], r.plan, r.log), s.lookup, s.gate)
    && |r.plan.toolCalls| == |asked|
    && forall j :: 0 <= j < |asked| ==> Audits(r.plan.toolCalls[j], asked[j], s.lookup)
  }

  // ----- what the model is told -----

  /** All tool output handed to the model, over all user messages. */
  function ToldIn(messages: seq<Message>): seq<Body> {
    if messages == [] then [] else
    var last := messages[|messages| - 1];
    ToldIn(messages[..|messages| - 1]) + if last.role == "user" then Told(last.content) else []
  }

  ghost predicate ToldAll(r: Run) { ToldIn(r.messages) == Obtained(r.log) }

  /** A turn that ends on a submit_plan sends no more results. */
  ghost predicate ToldAtEnd(r: Run, v: Verdict) {
    if v.Submitted? || v.SubmitNotDecoded? then ToldIn(r.messages) <= Obtained(r.log) else ToldAll(r)
  }

  // ----- the answer -----

  function AnswerOf(plan: Plan): SubmittedPlan { SubmittedPlan(plan.action, plan.heads, plan.rationale) }

  const NO_ANSWER := SubmittedPlan("", 0, "")

  // ----- the cost -----

  function Attempts(calls: seq<CallRecord>): nat {
    if calls == [] then 0 else Attempts(calls[..|calls| - 1]) + calls[|calls| - 1].attempts
  }

  ghost predicate Affordable(s: Setting, r: Run) {
    && (forall i :: 0 <= i < |r.calls| ==> WithinBudget(s.world, i, s.deadline, r.calls[i]))
    && Attempts(r.calls) <= MAX_RETRY_ATTEMPTS * |r.calls|
  }

  // ----- one turn -----

  function VerdictOf(end: TurnEnd): Option<Verdict> {
    match end case Continues => None case Submits => Some(Submitted) case BadSubmit => Some(SubmitNotDecoded)
  }

  /** What one turn did to the run, in terms of its call record and of its walk's outcome. */
  ghost predicate StepFrom(s: Setting, r: Run, r': Run, v: Option<Verdict>, rec: CallRecord, q: Progress,
                           end: TurnEnd) {
    && r'.calls == r.calls + [rec] && r'.requests == r.requests + [Request(s.offered, None, r.messages)]
    && WithinBudget(s.world, |r.calls|, s.deadline, rec)
    && match rec.result
       case Err(e) => v == Some(CallFailed(e)) && r'.messages == r.messages && r'.plan == r.plan && r'.log == r.log
       case Ok(response) =>
         && TurnSpec(response.content, s.lookup, Progress([], Named(r.plan, response.model), r.log), q, end)
         && Balanced(q, s.lookup, s.gate)
         && Obtained(q.log) == Obtained(r.log) + Told(q.results)
         && r'.plan == q.plan && r'.log == q.log && v == VerdictOf(end)
         && r'.messages == r.messages + [AssistantMessage(response.content)]
                           + if end.Continues? then [UserMessage(Reply(q.results))] else []
  }

  lemma StepFacts(s: Setting, r: Run) returns (rec: CallRecord, q: Progress, end: TurnEnd)
    requires AuditIsComplete(s, r)
    ensures StepFrom(s, r, TurnStep(s, r).0, TurnStep(s, r).1, rec, q, end)
  {
    rec := CallModel(s.world, |r.calls|, s.deadline, r.breaker).0;
    CallStaysWithinBudget(s.world, |r.calls|, s.deadline, r.breaker);
    q, end := Progress([], r.plan, r.log), Continues;
    if rec.result.Ok? {
      var response := rec.result.value;
      var p0 := Progress([], Named(r.plan, response.model), r.log);
      assert Balanced(p0, s.lookup, s.gate);
      WalkMeetsSpec(response.content, s.lookup, s.gate, s.world.answer, p0);
      WalkKeepsBalance(response.content, s.lookup, s.gate, s.world.answer, p0);
      ModelIsToldWhatWasObtained(response.content, s.lookup, s.gate, s.world.answer, p0, r.log);
      var walked := Walk(response.content, s.lookup, s.gate, s.world.answer, p0);
      q, end := walked.0, walked.1;
    }
  }

  /** One turn keeps the conversation in shape, or ends it. */
  lemma TurnKeepsShape(s: Setting, r: Run, prompt: string, r': Run, v: Option<Verdict>, rec: CallRecord, q: Progress,
                       end: TurnEnd)
    requires Between(r, prompt) && StepFrom(s, r, r', v, rec, q, end)
    ensures v.None? ==> Between(r', prompt)
    ensures v.Some? ==> !v.value.NoPlanWithinTurns? && EndsAs(s, r', v.value, prompt)
  {
    OldTurnsStand(s, r, prompt, r', v, rec, q, end);
    if rec.result.Ok? {
      if v.None? {
        NewTurnStands(s, r, prompt, r', v, rec, q, end);
      } else {
        assert LastReply(r', rec.result.value.content);
      }
    }
  }

  lemma NewTurnStands(s: Setting, r: Run, prompt: string, r': Run, v: Option<Verdict>, rec: CallRecord, q: Progress,
                      end: TurnEnd)
    requires Between(r, prompt) && StepFrom(s, r, r', v, rec, q, end) && v.None?
    ensures Exchanged(r', |r.calls|) && |r'.messages| == 2 * |r'.calls| + 1
  {
    var n, reply := |r.calls|, rec.result.value.content;
    NoSubmitAsksAll(reply);
    assert r'.messages[2 * n + 1] == AssistantMessage(reply);
    assert r'.messages[2 * n + 2] == UserMessage(Reply(q.results));
    assert forall j :: 0 <= j < |Asked(reply)| ==> Answers(q.results[0 + j], Asked(reply)[j]);
  }

  lemma OldTurnsStand(s: Setting, r: Run, prompt: string, r': Run, v: Option<Verdict>, rec: CallRecord, q: Progress,
                      end: TurnEnd)
    requires Between(r, prompt) && StepFrom(s, r, r', v, rec, q, end)
    ensures Conversation(r', prompt, |r.calls|)
  {
    var n := |r.calls|;
    assert r.messages <= r'.messages;
    forall i: nat | i < n ensures SentSoFar(r', i) && Exchanged(r', i) {
      assert SentSoFar(r, i) && Exchanged(r, i);
      assert r'.messages[..2 * i + 1] == r.messages[..2 * i + 1];
    }
    assert r'.messages[..2 * n + 1] == r.messages;
    assert SentSoFar(r', n);
  }

  lemma AskedInSnoc(messages: seq<Message>, m: Message)
    ensures AskedIn(messages + [m]) == AskedIn(messages) + if m.role == "assistant" then Asked(m.content) else []
  {
    assert (messages + [m])[..|messages|] == messages;
  }

  /** One turn keeps the audit complete, however it ends. */
  lemma TurnKeepsAudit(s: Setting, r: Run, r': Run, v: Option<Verdict>, rec: CallRecord, q: Progress, end: TurnEnd)
    requires AuditIsComplete(s, r) && StepFrom(s, r, r', v, rec, q, end)
    ensures AuditIsComplete(s, r')
  {
    hide Audits, AskedIn, Asked, Answers, FirstSubmit;
    if rec.result.Ok? {
      var reply := rec.result.value.content;
      var heard := r.messages + [AssistantMessage(reply)];
      AskedInSnoc(r.messages, AssistantMessage(reply));
      AskedInSnoc(heard, UserMessage(Reply(q.results)));
      assert r'.messages == if end.Continues? then heard + [UserMessage(Reply(q.results))] else heard;
      assert AskedIn(r'.messages) == AskedIn(r.messages) + Asked(reply);
      AuditExtends(s.lookup, r.plan.toolCalls, q.plan.toolCalls, AskedIn(r.messages), Asked(reply));
    }
  }

  lemma AuditExtends(lookup: map<string, ToolSpec>, before: seq<ToolCall>, after: seq<ToolCall>, asked: seq<Content>,
                     more: seq<Content>)
    requires |before| == |asked| && forall j :: 0 <= j < |asked| ==> Audits(before[j], asked[j], lookup)
    requires |after| == |before| + |more| && after[..|before|] == before
    requires forall j :: 0 <= j < |more| ==> Audits(after[|before| + j], more[j], lookup)
    ensures |after| == |asked + more| && forall j :: 0 <= j < |asked + more| ==> Audits(after[j], (asked + more)[j], lookup)
  {
    forall j | 0 <= j < |asked + more| ensures Audits(after[j], (asked + more)[j], lookup) {
      if j < |asked| {
        assert after[j] == after[..|before|][j];
      } else {
        assert Audits(after[|before| + (j - |asked|)], more[j - |asked|], lookup);
      }
    }
  }

  /** The last reply submitted this answer. */
  ghost predicate SubmittedLast(r: Run, answer: SubmittedPlan) {
    exists reply :: LastReply(r, reply) && FirstSubmit(reply).Some? && Submitting(FirstSubmit(reply).value, answer)
  }

  /** Until a submit_plan decodes, the plan says nothing; then it says exactly what was decoded. */
  lemma TurnKeepsAnswer(s: Setting, r: Run, prompt: string, r': Run, v: Option<Verdict>, rec: CallRecord,
                        q: Progress, end: TurnEnd)
    requires AnswerOf(r.plan) == NO_ANSWER && Between(r, prompt) && StepFrom(s, r, r', v, rec, q, end)
    ensures v == Some(Submitted) ==> SubmittedLast(r', AnswerOf(r'.plan))
    ensures v != Some(Submitted) ==> AnswerOf(r'.plan) == NO_ANSWER
  {
    if v == Some(Submitted) {
      assert LastReply(r', rec.result.value.content);
    }
  }

  lemma TurnKeepsCost(s: Setting, r: Run, r': Run, v: Option<Verdict>, rec: CallRecord, q: Progress, end: TurnEnd)
    requires Affordable(s, r) && StepFrom(s, r, r', v, rec, q, end)
    ensures Affordable(s, r')
  {
    assert r'.calls[..|r.calls|] == r.calls;
  }

  lemma ToldInSnoc(messages: seq<Message>, m: Message)
    ensures ToldIn(messages + [m]) == ToldIn(messages) + if m.role == "user" then Told(m.content) else []
  {
    assert (messages + [m])[..|messages|] == messages;
  }

  lemma TurnKeepsTold(s: Setting, r: Run, r': Run, v: Option<Verdict>, rec: CallRecord, q: Progress, end: TurnEnd)
    requires ToldAll(r) && StepFrom(s, r, r', v, rec, q, end)
    ensures v.None? ==> ToldAll(r')
    ensures v.Some? ==> ToldAtEnd(r', v.value)
  {
    if rec.result.Ok? {
      var heard := r.messages + [AssistantMessage(rec.result.value.content)];
      ToldInSnoc(r.messages, AssistantMessage(rec.result.value.content));
      assert ToldIn(heard) == ToldIn(r.messages);
      ToldInSnoc(heard, UserMessage(Reply(q.results)));
      assert [NUDGE][..0] == [];
      assert Told(Reply(q.results)) == Told(q.results);
      assert r'.messages == if end.Continues? then heard + [UserMessage(Reply(q.results))] else heard;
    }
  }

  lemma NudgesSnoc(messages: seq<Message>, m: Message)
    requires messages != []
    ensures Nudges(messages + [m]) == Nudges(messages) + if m == UserMessage([NUDGE]) then 1 else 0
  {
    assert (messages + [m])[..|messages|] == messages;
  }

  lemma ProseRepliesSnoc(calls: seq<CallRecord>, c: CallRecord)
    ensures ProseReplies(calls + [c])
            == ProseReplies(calls) + if c.result.Ok? && ToolUses(c.result.value.content) == [] then 1 else 0
  {
    assert (calls + [c])[..|calls|] == calls;
  }

  lemma {:induction false} ASubmitIsAToolUse(blocks: seq<Content>)
    ensures FirstSubmit(blocks).Some? ==> ToolUses(blocks) != []
  {
    if blocks != [] { ASubmitIsAToolUse(blocks[1..]); }
  }

  /** One turn makes one call, and its request forces no tool. */
  lemma TurnForcesNothing(s: Setting, r: Run, r': Run, v: Option<Verdict>, rec: CallRecord, q: Progress, end: TurnEnd)
    requires Unforced(s, r) && StepFrom(s, r, r', v, rec, q, end)
    ensures Unforced(s, r') && |r'.calls| == |r.calls| + 1
  {
  }

  /** One turn adds a nudge exactly when it got a reply without a tool use. */
  lemma TurnKeepsNudges(s: Setting, r: Run, prompt: string, r': Run, v: Option<Verdict>, rec: CallRecord,
                        q: Progress, end: TurnEnd)
    requires Between(r, prompt) && NudgedPerProse(r) && StepFrom(s, r, r', v, rec, q, end)
    ensures NudgedPerProse(r')
  {
    hide Nudges, ProseReplies;
    ProseRepliesSnoc(r.calls, rec);
    if rec.result.Ok? {
      var reply := rec.result.value.content;
      var heard := r.messages + [AssistantMessage(reply)];
      NudgesSnoc(r.messages, AssistantMessage(reply));
      NudgesSnoc(heard, UserMessage(Reply(q.results)));
      ASubmitIsAToolUse(reply);
      NoSubmitAsksAll(reply);
      assert r'.messages == if end.Continues? then heard + [UserMessage(Reply(q.results))] else heard;
      if Asked(reply) != [] { assert Answers(q.results[0], Asked(reply)[0]); }
    }
  }

  // ----- whole runs -----

  ghost predicate Good(s: Setting, r: Run, prompt: string) {
    && Between(r, prompt) && AuditIsComplete(s, r) && ToldAll(r) && AnswerOf(r.plan) == NO_ANSWER && Affordable(s, r)
    && NudgedPerProse(r) && Unforced(s, r)
  }

  ghost predicate Over(s: Setting, r: Run, v: Verdict, prompt: string) {
    && EndsAs(s, r, v, prompt) && AuditIsComplete(s, r) && ToldAtEnd(r, v) && Affordable(s, r)
    && NudgedPerProse(r) && Unforced(s, r)
    && (v == Submitted ==> SubmittedLast(r, AnswerOf(r.plan)))
    && (v != Submitted ==> AnswerOf(r.plan) == NO_ANSWER)
  }

  lemma TurnKeepsAll(s: Setting, r: Run, prompt: string)
    requires Good(s, r, prompt)
    ensures var (r', v) := TurnStep(s, r);
            && |r'.calls| == |r.calls| + 1
            && (v.None? ==> Good(s, r', prompt))
            && (v.Some? ==> Over(s, r', v.value, prompt))
  {
    hide TurnStep, StepFrom, Between, EndsAs, AuditIsComplete, ToldAll, ToldAtEnd, SubmittedLast, Affordable;
    hide NudgedPerProse, Unforced;
    var (r', v) := TurnStep(s, r);
    var rec, q, end := StepFacts(s, r);
    TurnKeepsShape(s, r, prompt, r', v, rec, q, end);
    TurnKeepsAudit(s, r, r', v, rec, q, end);
    TurnKeepsAnswer(s, r, prompt, r', v, rec, q, end);
    TurnKeepsTold(s, r, r', v, rec, q, end);
    TurnKeepsCost(s, r, r', v, rec, q, end);
    TurnKeepsNudges(s, r, prompt, r', v, rec, q, end);
    TurnForcesNothing(s, r, r', v, rec, q, end);
  }

  lemma {:induction false} RunKeepsAll(s: Setting, r: Run, prompt: string)
    requires |r.calls| <= s.maxTurns && Good(s, r, prompt)
    ensures var (r', v) := RunFrom(s, r, |r.calls|);
            Over(s, r', v, prompt) && |r'.calls| <= s.maxTurns
    decreases s.maxTurns - |r.calls|
  {
    if |r.calls| < s.maxTurns {
      TurnKeepsAll(s, r, prompt);
      var (r', v) := TurnStep(s, r);
      if v.None? { RunKeepsAll(s, r', prompt); }
    }
  }

  lemma StartIsGood(s: Setting, prompt: string, model: string, b: Breaker.State)
    ensures Good(s, Started(prompt, model, b), prompt)
  {
    var r := Started(prompt, model, b);
    assert r.messages[..0] == [];
    assert AskedIn(r.messages) == [];
    assert [TextBlock(prompt)][..0] == [];
    assert Told([TextBlock(prompt)]) == [];
  }

  ghost predicate Alternates(messages: seq<Message>) {
    forall k :: 0 <= k < |messages| ==> messages[k].role == if k % 2 == 0 then "user" else "assistant"
  }

  lemma ExchangesAlternate(r: Run, prompt: string, exchanged: nat)
    requires Conversation(r, prompt, exchanged)
    ensures 2 * exchanged + 1 <= |r.messages| && Alternates(r.messages[..2 * exchanged + 1])
  {
    if exchanged > 0 { assert Exchanged(r, exchanged - 1); }
    forall k | 0 <= k < 2 * exchanged + 1
      ensures r.messages[k].role == if k % 2 == 0 then "user" else "assistant"
    {
      if k > 0 { assert Exchanged(r, (k - 1) / 2); }
    }
  }

  lemma EndedTalk(s: Setting, r: Run, v: Verdict, prompt: string)
    requires EndsAs(s, r, v, prompt)
    ensures |r.requests| == |r.calls| && r.messages != [] && r.messages[0] == UserMessage([TextBlock(prompt)])
    ensures forall t: nat :: t < |r.calls| ==> SentSoFar(r, t) && Conversation(r, prompt, t)
  {
    hide Exchanged, SentSoFar, LastReply;
  }

  /** The conversation. Whatever the model replies, the request of turn t carries 2t+1 messages,
      alternating from user to user; each is the previous one plus the reply verbatim plus its answer;
      each offers the whole catalogue and forces no tool; and the run ends in exactly one of four ways
      within the turn bound. */
  lemma ProtocolShape(s: Setting, prompt: string, model: string, b: Breaker.State)
    ensures var (r, v) := TheRun(s, prompt, model, b);
            && EndsAs(s, r, v, prompt)
            && |r.requests| == |r.calls| <= s.maxTurns
            && Unforced(s, r)
            && r.messages[0].role == "user" && |r.messages[0].content| == 1
            && r.messages[0].content[0].typ == "text" && r.messages[0].content[0].text == prompt
            && forall t :: 0 <= t < |r.requests| ==>
                 var sent := r.requests[t].messages;
                 |sent| == 2 * t + 1 && sent <= r.messages && Alternates(sent)
  {
    StartIsGood(s, prompt, model, b);
    RunKeepsAll(s, Started(prompt, model, b), prompt);
    var (r, v) := TheRun(s, prompt, model, b);
    EndedTalk(s, r, v, prompt);
    hide EndsAs, AuditIsComplete, ToldAtEnd, Affordable, NudgedPerProse, Alternates, Conversation, Unforced;
    forall t | 0 <= t < |r.requests|
      ensures var sent := r.requests[t].messages; |sent| == 2 * t + 1 && sent <= r.messages && Alternates(sent)
    {
      assert SentSoFar(r, t);
      ExchangesAlternate(r, prompt, t);
    }
  }

  /** A run nudges once per reply without a tool use: at most once in all exactly when at most one of its
      replies is prose. */
  lemma NudgesOncePerProseReply(s: Setting, prompt: string, model: string, b: Breaker.State)
    ensures var r := TheRun(s, prompt, model, b).0;
            && Nudges(r.messages) == ProseReplies(r.calls)
            && (Nudges(r.messages) <= 1 <==> ProseReplies(r.calls) <= 1)
  {
    StartIsGood(s, prompt, model, b);
    RunKeepsAll(s, Started(prompt, model, b), prompt);
  }

  const PROSE := [TextBlock("I would hold.")]

  /** A model that only ever answers in prose, over a network that never fails. */
  function ProseWorld(): World {
    World(_ => _ => Answered(200, ApiResponse(PROSE, "")), _ => _ => 0, _ => 0, _ => [], _ => [], _ => Err("not reached"))
  }

  const PROSE_CALL := CallRecord(Ok(ApiResponse(PROSE, "")), 1, 8_000, Some(true))

  /** Such a model is nudged in every turn, here twice, and no request forces submit_plan. */
  lemma TwoNudgesInARun(prompt: string, model: string)
    ensures var s := Setting(2, Catalogue([], []), map[], Gate(map[], map[]), ProseWorld(), 8_000);
            var (r, v) := TheRun(s, prompt, model, Breaker.START);
            && v == NoPlanWithinTurns && Nudges(r.messages) == 2
            && |r.requests| == 2 && r.requests[0].toolChoice == r.requests[1].toolChoice == None
  {
    var s := Setting(2, Catalogue([], []), map[], Gate(map[], map[]), ProseWorld(), 8_000);
    ProseRun(s, prompt, model);
    hide TheRun, Nudges, ProseReplies, EndsAs;
    var (r, v) := TheRun(s, prompt, model, Breaker.START);
    TwoProseReplies();
    NudgesOncePerProseReply(s, prompt, model, Breaker.START);
    ProtocolShape(s, prompt, model, Breaker.START);
  }

  lemma TwoProseReplies()
    ensures ProseReplies([PROSE_CALL, PROSE_CALL]) == 2
  {
    assert PROSE[1..] == [];
    ProseRepliesSnoc([], PROSE_CALL);
    ProseRepliesSnoc([PROSE_CALL], PROSE_CALL);
    assert [] + [PROSE_CALL] == [PROSE_CALL] && [PROSE_CALL] + [PROSE_CALL] == [PROSE_CALL, PROSE_CALL];
  }

  lemma ProseRun(s: Setting, prompt: string, model: string)
    requires s.world == ProseWorld() && s.deadline == 8_000 && s.maxTurns == 2
    ensures var (r, v) := TheRun(s, prompt, model, Breaker.START);
            v == NoPlanWithinTurns && r.calls == [PROSE_CALL, PROSE_CALL]
  {
    var r0 := Started(prompt, model, Breaker.START);
    var (r1, v1) := TurnStep(s, r0);
    var (r2, v2) := TurnStep(s, r1);
    ProseTurn(s, r0);
    ProseTurn(s, r1);
    hide TurnStep;
    assert RunFrom(s, r2, 2) == (r2, NoPlanWithinTurns);
    assert RunFrom(s, r1, 1) == RunFrom(s, r2, 2);
    assert RunFrom(s, r0, 0) == RunFrom(s, r1, 1);
  }

  lemma ProseTurn(s: Setting, r: Run)
    requires s.world == ProseWorld() && s.deadline == 8_000
    requires r.breaker.phase == Breaker.Closed && Breaker.Inv(r.breaker)
    ensures var (r', v) := TurnStep(s, r);
            v == None && r'.breaker.phase == Breaker.Closed && Breaker.Inv(r'.breaker) && r'.calls == r.calls + [PROSE_CALL]
  {
    assert s.world.http(|r.calls|)(0) == Answered(200, ApiResponse(PROSE, ""));
    assert PROSE[1..] == [];
  }

  /** The audit, on every run including those that end in an error: the executed audit entries are the
      invoker's log, in order, and there is exactly one entry per answered tool use, in order. */
  lemma AuditConservation(s: Setting, prompt: string, model: string, b: Breaker.State)
    ensures var (r, v) := TheRun(s, prompt, model, b);
            && |Executed(r.plan.toolCalls)| == |r.log|
            && (forall k :: 0 <= k < |r.log| ==> Reports(Executed(r.plan.toolCalls)[k], r.log[k]))
            && |r.plan.toolCalls| == |AskedIn(r.messages)|
            && (forall j :: 0 <= j < |r.plan.toolCalls| ==> Audits(r.plan.toolCalls[j], AskedIn(r.messages)[j], s.lookup))
  {
    StartIsGood(s, prompt, model, b);
    RunKeepsAll(s, Started(prompt, model, b), prompt);
    AuditsReport(TheRun(s, prompt, model, b).0.log);
  }

  /** The model is told exactly the outputs the invoker obtained, in order: none invented, none withheld,
      but for those of a turn that ended on a submit_plan. Everything else it is told is flagged as an
      error. */
  lemma NothingIsInvented(s: Setting, prompt: string, model: string, b: Breaker.State)
    ensures var (r, v) := TheRun(s, prompt, model, b);
            && ToldIn(r.messages) <= Obtained(r.log)
            && (v.NoPlanWithinTurns? || v.CallFailed? ==> ToldIn(r.messages) == Obtained(r.log))
  {
    StartIsGood(s, prompt, model, b);
    RunKeepsAll(s, Started(prompt, model, b), prompt);
  }

  /** The answer: action, heads and rationale are the decoded input of the first submit_plan of the
      last reply when the run submitted, and stay at their zero values in every other run. */
  lemma OnlySubmitPlanAnswers(s: Setting, prompt: string, model: string, b: Breaker.State)
    ensures var (r, v) := TheRun(s, prompt, model, b);
            && (v == Submitted ==> SubmittedLast(r, AnswerOf(r.plan)))
            && (v != Submitted ==> AnswerOf(r.plan) == NO_ANSWER)
  {
    StartIsGood(s, prompt, model, b);
    RunKeepsAll(s, Started(prompt, model, b), prompt);
  }

  /** Confinement: every invocation is of a tool that was offered, and reaches an upstream exactly if
      the gate passes it. */
  lemma InvocationsAreConfined(s: Setting, tools: seq<ToolSpec>, prompt: string, model: string, b: Breaker.State)
    requires s.lookup == Lookup(tools)
    ensures forall i :: i in TheRun(s, prompt, model, b).0.log ==>
              && (exists t :: t in tools && t.upstream == i.upstream && t.name == i.tool)
              && (Reached(i) <==> Passes(s.gate, i.upstream, i.tool))
  {
    StartIsGood(s, prompt, model, b);
    RunKeepsAll(s, Started(prompt, model, b), prompt);
    forall i | i in TheRun(s, prompt, model, b).0.log
      ensures exists t :: t in tools && t.upstream == i.upstream && t.name == i.tool
      ensures Reached(i) <==> Passes(s.gate, i.upstream, i.tool)
    {
      assert Confined(i, s.lookup, s.gate);
      var name :| name in s.lookup && s.lookup[name].upstream == i.upstream && s.lookup[name].name == i.tool;
      LookupStaysInCatalogue(tools, name);
    }
  }

  /** The cost: at most MaxTurns calls and three HTTP attempts per call, each turn within its own
      deadline and reporting at most one result to the breaker. */
  lemma CostIsBounded(s: Setting, prompt: string, model: string, b: Breaker.State)
    ensures var (r, _) := TheRun(s, prompt, model, b);
            && |r.calls| <= s.maxTurns
            && Attempts(r.calls) <= 3 * s.maxTurns
            && forall t :: 0 <= t < |r.calls| ==> WithinBudget(s.world, t, s.deadline, r.calls[t])
  {
    StartIsGood(s, prompt, model, b);
    RunKeepsAll(s, Started(prompt, model, b), prompt);
  }

  // ----- what the upstreams answered, and who answered -----

  lemma {:induction false} RunFromEchoes(s: Setting, r: Run, turn: nat)
    requires Echoes(r.log, s.world.answer)
    ensures Echoes(RunFrom(s, r, turn).0.log, s.world.answer)
    decreases if turn < s.maxTurns then s.maxTurns - turn else 0
  {
    if turn < s.maxTurns {
      TurnEchoes(s, r);
      var (r', v) := TurnStep(s, r);
      if v.None? { RunFromEchoes(s, r', turn + 1); }
    }
  }

  lemma TurnEchoes(s: Setting, r: Run)
    requires Echoes(r.log, s.world.answer)
    ensures Echoes(TurnStep(s, r).0.log, s.world.answer)
  {
    hide Echoes, CallModel;
    var rec := CallModel(s.world, |r.calls|, s.deadline, r.breaker).0;
    if rec.result.Ok? {
      var response := rec.result.value;
      WalkEchoes(response.content, s.lookup, s.gate, s.world.answer, Progress([], Named(r.plan, response.model), r.log));
    }
  }

  /** In every run the k-th invocation that got through carries the k-th upstream answer: an output as
      output, an error as error. */
  lemma LogEchoesUpstreams(s: Setting, prompt: string, model: string, b: Breaker.State)
    ensures var log := TheRun(s, prompt, model, b).0.log;
            forall k :: 0 <= k < |log| && Reached(log[k]) ==>
              log[k].result == match s.world.answer(k) case Ok(out) => Ok(out) case Err(text) => Err(UpstreamError(text))
  {
    RunFromEchoes(s, Started(prompt, model, b), 0);
  }

  predicate NamesItself(c: CallRecord) { c.result.Ok? && c.result.value.model != "" }

  /** The name is that of the last reply that gave one, or the configured one when none did. */
  ghost predicate NamedBy(name: string, calls: seq<CallRecord>, model: string) {
    || (name == model && forall i :: 0 <= i < |calls| ==> !NamesItself(calls[i]))
    || exists k :: 0 <= k < |calls| && NamesItself(calls[k]) && name == calls[k].result.value.model
                   && forall i :: k < i < |calls| ==> !NamesItself(calls[i])
  }

  lemma TurnNamesTheModel(s: Setting, r: Run, model: string)
    requires NamedBy(r.plan.model, r.calls, model)
    ensures var r' := TurnStep(s, r).0; NamedBy(r'.plan.model, r'.calls, model)
  {
    hide CallModel, Walk;
    var rec, r' := CallModel(s.world, |r.calls|, s.deadline, r.breaker).0, TurnStep(s, r).0;
    assert r'.calls == r.calls + [rec];
    if rec.result.Ok? {
      var response := rec.result.value;
      WalkMeetsSpec(response.content, s.lookup, s.gate, s.world.answer, Progress([], Named(r.plan, response.model), r.log));
    }
    NameSnoc(r.plan.model, r.calls, rec, model);
  }

  lemma NameSnoc(name: string, calls: seq<CallRecord>, rec: CallRecord, model: string)
    requires NamedBy(name, calls, model)
    ensures NamedBy(if NamesItself(rec) then rec.result.value.model else name, calls + [rec], model)
  {
    var all := calls + [rec];
    if NamesItself(rec) {
      assert all[|calls|] == rec;
    } else if k :| 0 <= k < |calls| && NamesItself(calls[k]) && name == calls[k].result.value.model
                   && forall i :: k < i < |calls| ==> !NamesItself(calls[i]) {
      assert all[k] == calls[k];
    }
  }

  lemma {:induction false} RunFromNamesTheModel(s: Setting, r: Run, turn: nat, model: string)
    requires NamedBy(r.plan.model, r.calls, model)
    ensures var r' := RunFrom(s, r, turn).0; NamedBy(r'.plan.model, r'.calls, model)
    decreases if turn < s.maxTurns then s.maxTurns - turn else 0
  {
    if turn < s.maxTurns {
      TurnNamesTheModel(s, r, model);
      var (r', v) := TurnStep(s, r);
      if v.None? { RunFromNamesTheModel(s, r', turn + 1, model); }
    }
  }

  /** The plan names the model that wrote its last self-naming reply, or the configured one. */
  lemma PlanNamesItsModel(s: Setting, prompt: string, model: string, b: Breaker.State)
    ensures var r := TheRun(s, prompt, model, b).0; NamedBy(r.plan.model, r.calls, model)
  {
    RunFromNamesTheModel(s, Started(prompt, model, b), 0, model);
  }
}
