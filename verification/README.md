# Verified model of warehouse-ops-agent

warehouse-ops-agent reads the warehouse contexts and recommends; it never acts. This project models the parts of it
whose correctness spans several functions, and proves what they promise.

**Flow-balance advisory with an untrusted model in the loop** (`FlowBalance`, `Arbitration`, `Utilization`,
`Advisory`, `Breaker`, `ModelCall`, `ToolNames`, `ToolGate`, `Turn`, `Reasoner`, `RunProperties`, `BreakerTraffic`,
`Pipeline`). The rules rank a lever from three optional signals; a model may propose a plan through a bounded tool-use
protocol, behind an allow-list, a circuit breaker, a retry and a deadline. The model's replies, the network, the tool
answers, the clock and every other use of the breaker are parameters (`ModelCall.World`), so each statement holds for
all of them. The main results: `Partial` marks exactly the decisions a missing reading could still change; the model
can change a decision only through a valid, decoded `submit_plan` in mode on; the conversation, the audit trail and
the cost of every run are exact, and so is what it does to the shared breaker; from start-up on, no run reaches a tool
that is not on the allow-list.

**Daily brief** (`Decimal`, `BriefPolicy`, `Ranking`, `DailyBrief`). The integer printer in its 20-byte buffer, the
in-place stable sort, the grouping through a map of pointers, and the severity filter, up to what the tool shows.

**Console dashboards** (`Labels`, `Series`, `Headlines`, `FanOut`, `Dashboards`). The concurrent fan-out under every
schedule, and aggregations that no row order can change.

**Stranded reservation** (`Stranded`). A revoke is recommended exactly on full correlation, with an exact blast radius.

`Common` and `Ports` hold shared values. Nil pointers are `Option`; rationale, evidence and error texts are
constructors carrying the values the text mentions; modes, actions and severities stay strings, so that the branches
for unknown values are part of the model; thresholds and sums are reals.

## Where the code and its comments differ

The model follows the code.

- `MaxProposedHeads` (internal/domain/policy/arbitrate.go:46-48) is said to bound the deterministic heads as well; it
  bounds only plans (`Arbitration.DeterministicHeadsAreUnbounded`, `Arbitration.DeterministicHeadsBound`).
- The idle-share threshold is said to be stricter than the utilization threshold
  (internal/domain/policy/utilization_correlation.go:68-76); on a consistent reading the two are the same line
  (`Utilization.GatesCoincide`).
- The nudge is said to come once and to force the tool choice (reasoner.go:250-254); the code nudges after every reply
  without a tool use, so more than once exactly when more than one reply is prose
  (`RunProperties.NudgesOncePerProseReply`, `RunProperties.TwoNudgesInARun`), and no request sets a tool choice
  (`RunProperties.ProtocolShape`).
- `Decide` documents partial as a conservative hold; in mode on an adopted plan may act on a decision still marked
  partial (`Advisory.PartialNeedNotHold`, `Advisory.PartialAndActing`).
- Tool discovery is said to happen once per process (tool_invoker.go:69-73); a discovery with an error, and one that
  found no allowed tool, are not kept and repeat (`ToolGate.DiscoversOnceExactly`, `ToolGate.TwoRoundsOfDiscovery`).
- The integer printer prints -2^63 as a bare minus sign (`Decimal.PrintsAndReadsBack`).

## Model

| member | source | states |
|---|---|---|
| `FlowBalance.ParseRebalanceAction` | internal/domain/policy/flow_balance.go:22-29 | an action outside the three-value set is refused with the raw value, never defaulted |
| `FlowBalance.SettledOutcomeIsStable` | internal/domain/policy/flow_balance.go:141-282 | a decision that is not partial keeps action, heads and rationale, and stays settled, whatever missing reading arrives later |
| `FlowBalance.PartialIsExact` | internal/domain/policy/flow_balance.go:141-282 | Partial holds if and only if two ways of filling in the missing signals lead to different (action, heads, rationale) |
| `FlowBalance.PartialOnTheLever` | internal/domain/policy/flow_balance.go:213-282 | on the action alone, Partial is exact outside three families of inputs in which holding was already certain |
| `FlowBalance.LeverExactly` | internal/domain/policy/flow_balance.go:141-292 | labor is assigned if and only if wes sees a flow problem and wfm confirms a gap, work released if and only if wes sees none, nothing is stuck and the path is staffed, and everything else holds; heads are the gap, at least one, when assigning and zero otherwise; the reason given is the one the signals support |
| `FlowBalance.PartialHoldsAndCites` | internal/domain/policy/flow_balance.go:171-222 | a partial decision holds with zero heads and lists exactly the missing signals in order; a settled one lists none; the evidence is one entry per supplied reading, in order, with that reading's own source and numbers |
| `Arbitration.ParseLLMMode` | internal/domain/policy/arbitrate.go:26-35 | off, shadow, on and the empty string (as off) are accepted, everything else refused |
| `Arbitration.ValidPlansAreInVocabulary` | internal/domain/policy/arbitrate.go:63-81 | a plan passes validation if and only if its action is one of three, its heads are in [0,50] and zero unless labor is assigned, and its rationale is not empty; otherwise the first rule it breaks is named, with the plan's own value |
| `Arbitration.ArbitrateIsTheOnlyGate` | internal/domain/policy/arbitrate.go:94-138 | the plan is adopted exactly when the mode is neither off nor shadow, no error came and the plan is valid; then only action, heads and rationale change; source, agreement and fallback reason are exact; any other mode string acts as on without the fallback label |
| `Arbitration.DeterministicHeadsAreUnbounded` | internal/domain/policy/arbitrate.go:46-48 | a concrete input for which the comment's claim that the deterministic heads respect the bound of 50 fails |
| `Arbitration.DeterministicHeadsBound` | internal/domain/policy/flow_balance.go:284-292 | the deterministic heads are within the bound if and only if no confirmed labor gap wider than 50 is being assigned |
| `Utilization.GatesCoincide` | internal/domain/policy/utilization_correlation.go:66-76 | on a reading whose percentage is task/(task+idle), low utilization and high idle share are the same fact, so the second gate adds nothing |
| `Utilization.FourQuadrants` | internal/domain/policy/utilization_correlation.go:99-147 | on such a reading each queue/utilization quadrant has its own outcome and only shallow-and-healthy is silent |
| `Utilization.NoSingleMetricRaisesAProblem` | internal/domain/policy/utilization_correlation.go:87-160 | on any reading a problem is named if and only if both metrics agree; a null percentage is silent, and an empty window never names a problem |
| `Utilization.CorrelationExactly` | internal/domain/policy/utilization_correlation.go:87-160 | on any reading, which outcome is named is exact in terms of depth, percentage and seconds, and so are the depth, percentage, idle share, task type and window it prints |
| `Advisory.GatherStuckTasksSignal` | internal/application/usecases/flow_balance_advisory.go:283-306 | the gathered signal carries the reading's count and all reasons in order, or nothing when the read failed |
| `Advisory.Execute` | internal/application/usecases/flow_balance_advisory.go:91-207 | the step-by-step run returns the specified decision for every reading and every reasoner reply; unless a plan was adopted, that decision follows from the readings alone |
| `Advisory.RulesFollowTheReadings` | internal/application/usecases/flow_balance_advisory.go:91-147 | over the upstream readings alone: lever, heads, reason, missing sources, every evidence entry with its reading's own fields, and the utilization overlay; only an action outside the closed set gives no decision |
| `Advisory.ModelNonInterference` | internal/application/usecases/flow_balance_advisory.go:125-207 | off and shadow return exactly what the rules alone return; on returns it too unless a valid plan arrived without error, and then substitutes exactly the plan's action, heads and rationale |
| `Advisory.TwoModelsDifferOnlyInTheOutcome` | internal/application/usecases/flow_balance_advisory.go:152-207 | two runs that differ only in the model agree on errors and on every field but action, heads and rationale; a decision the model changed has heads in [0,50], non-zero only for assign_labor |
| `Advisory.PartialNeedNotHold` | internal/domain/policy/arbitrate.go:128-136 | the rules' partial decisions hold, but a decision is partial and acting exactly when mode on adopted an acting plan over partial rules |
| `Advisory.PartialAndActing` | internal/domain/policy/arbitrate.go:128-136 | a concrete decision that is marked partial and assigns labor |
| `Advisory.OverlayIsAdditive` | internal/application/usecases/flow_balance_advisory.go:105-147 | only an unrecognised wes action fails a run; the utilization overlay adds at most one evidence line and never changes action, heads, rationale or partiality, and is absent without the wes signal |
| `Breaker.TripsExactly` | internal/resilience/breaker.go:54-68 | the trip condition is exactly: five consecutive failures, or at least ten requests of which more than half failed |
| `Breaker.StepKeepsInv` | internal/resilience/breaker.go:54-68 | every admission, result and expiry keeps the counters' invariant |
| `Breaker.PlayKeepsInv` | internal/resilience/breaker.go:54-68 | the invariant holds after any interleaving of events |
| `Breaker.WindowBound` | internal/resilience/breaker.go:27-68 | in every reachable closed window at most 4 trailing failures and at most max(8, R/2) failures among R requests; a half-open window admits one probe |
| `Breaker.FailureOpensExactly` | internal/resilience/breaker.go:54-68 | a counted failure opens the breaker if and only if one of the two legs holds, and otherwise leaves R < 10 or 2F <= R |
| `Breaker.ProbeDecides` | internal/resilience/breaker.go:27-46 | a half-open breaker lets one probe through, whose result alone closes it on a clean window or reopens it |
| `Breaker.WindowsTurnOver` | internal/resilience/breaker.go:27-68 | a closed breaker admits and counts, a success clears the failures in a row, an interval that ends starts over, and a cooldown that ends makes an open breaker half-open |
| `Breaker.BoundIsReachedAndSuccessDoesNotTrip` | internal/resilience/breaker.go:54-68 | a run that reaches 8 failures in 9 requests while closed, and stays closed at 8 of 10 after a success |
| `Breaker.OpenUntilExpiry` | internal/adapters/outbound/llm/anthropic/reasoner.go:153-164 | an open breaker admits nothing and does not change until its cooldown ends |
| `Breaker.CircuitBreaker.Acquire` | internal/adapters/outbound/llm/anthropic/reasoner.go:378-392 | a request is admitted, and counted in the current window, exactly when the breaker is closed or half-open with its probe unused |
| `Breaker.CircuitBreaker.Report` | internal/adapters/outbound/llm/anthropic/reasoner.go:378-392 | a result counts only in the window its request was admitted in |
| `ModelCall.RetryingRequest` | internal/adapters/outbound/llm/anthropic/reasoner.go:402-416 | the retry loop returns the specified exchange |
| `ModelCall.RepliesExactly` | internal/adapters/outbound/llm/anthropic/reasoner.go:460-493 | a reply is exactly a decoded answer with a status from 200 to 299; every other outcome has its own error, with the status where there is one |
| `ModelCall.RetriesExactly` | internal/adapters/outbound/llm/anthropic/reasoner.go:394-493 | one to three attempts; a further attempt is made exactly after a transport failure, a body-read failure or a decodable 5xx, while the deadline has not passed and an attempt is left; the last attempt or the ended context is the result, a reply exactly when the last answer was 2xx |
| `ModelCall.CallTimeout` | internal/resilience/deadline.go:9-36 | the call's deadline is the nearer of the caller's deadline and now plus the cap |
| `ModelCall.Call` | internal/adapters/outbound/llm/anthropic/reasoner.go:378-392 | one turn's call and its effect on the breaker are the specified ones, within the turn's budget; the result is a reply exactly when the last attempt was answered with a 2xx |
| `ModelCall.CallStaysWithinBudget` | internal/adapters/outbound/llm/anthropic/reasoner.go:363-416 | a rejected call makes no attempt and reports nothing; any other reports its one result; no attempt after the first begins past min(run's deadline, turn start + 12 s) |
| `ModelCall.CallReturnsTheLastAnswer` | internal/adapters/outbound/llm/anthropic/reasoner.go:378-416 | in terms of the network alone: not admitted, no attempt and no report; otherwise the last attempt's answer decides, success is reported to the breaker exactly for a 2xx, and the error is that outcome's own or the ended context |
| `ModelCall.CallPlaysItsEvents` | internal/adapters/outbound/llm/anthropic/reasoner.go:363-392 | to the breaker a turn is the others' events, one request and, if that was admitted, one result in the window of its admission; nothing per attempt |
| `ModelCall.CallKeepsBreakerInv` | internal/adapters/outbound/llm/anthropic/reasoner.go:378-392 | a call interleaved with any other use of the breaker keeps the window invariant |
| `ToolGate.CutExactly` | cmd/agent/reasoner.go:53-57 | an entry is split at its first slash: the parts rejoin to the entry and the first has no slash |
| `ToolGate.ParseAllowList` | cmd/agent/reasoner.go:52-59 | start-up fails exactly on an entry that is not <upstream>/<tool>; otherwise the map grants exactly the listed pairs |
| `ToolGate.ToolInvoker.constructor` | internal/adapters/outbound/mcpclient/tool_invoker.go:28-45 | sessions that are nil or without endpoint are dropped; each live one gets exactly its listed tools |
| `ToolGate.ToolInvoker.Invoke` | internal/adapters/outbound/mcpclient/tool_invoker.go:47-67 | each invocation is logged once; its result is the upstream's output, or the upstream's error as an error, exactly when the gate passes |
| `ToolGate.InvokedExactly` | internal/adapters/outbound/mcpclient/tool_invoker.go:47-67 | output for output, error for error, exactly behind the gate; which refusal otherwise; upstream, tool and arguments are the caller's |
| `ToolGate.BoundExactly` | internal/adapters/outbound/mcpclient/tool_invoker.go:31-45 | a session is bound if and only if it is there and has an endpoint, then under that endpoint and with exactly the tools listed for it |
| `ToolGate.OnlyGrantedCallsReachAnUpstream` | internal/adapters/outbound/mcpclient/tool_invoker.go:50-57 | an invocation reaches its upstream if and only if the gate passes it |
| `ToolGate.ToolInvoker.Specs` | internal/adapters/outbound/mcpclient/tool_invoker.go:69-110 | a cached non-empty list is returned without listing; otherwise each live upstream is listed and the discovery cached only without errors; everything returned passes the gate |
| `ToolGate.ListsUntilSettled` | internal/adapters/outbound/mcpclient/tool_invoker.go:69-110 | over any sequence of calls the upstreams are listed in each call up to the first in which every live one answers and one lists an allowed tool, and in none after it; that discovery is what stays |
| `ToolGate.DiscoversOnceExactly` | internal/adapters/outbound/mcpclient/tool_invoker.go:69-73 | over two or more calls discovery happens once if and only if in the first call every live upstream answers and at least one lists an allowed tool |
| `ToolGate.TwoRoundsOfDiscovery` | internal/adapters/outbound/mcpclient/tool_invoker.go:69-73 | two concrete processes that list twice: an upstream that publishes nothing, and one that is down |
| `ToolGate.DiscoveredExactly` | internal/adapters/outbound/mcpclient/tool_invoker.go:74-110 | a spec is offered if and only if a live upstream listed it and the gate passes it |
| `ToolGate.DiscoverySnoc` | internal/adapters/outbound/mcpclient/tool_invoker.go:82-109 | specs and errors come upstream by upstream in label order |
| `ToolGate.OffersSnoc` | internal/adapters/outbound/mcpclient/tool_invoker.go:93-104 | each upstream's allowed tools come in the order it listed them, with their own name, description and schema |
| `ToolGate.NextCallAnswers` | internal/adapters/outbound/mcpclient/tool_invoker.go:74-110 | once a discovery has settled every later call returns it without errors; before that each call returns what the upstreams list now |
| `ToolGate.AllDiscoveredPass` | internal/adapters/outbound/mcpclient/tool_invoker.go:93-103 | every discovered spec passes the gate |
| `ToolGate.AssembleInvoker` | cmd/agent/reasoner.go:43-60 | start-up fails exactly on a malformed entry; otherwise the gate passes a call exactly when its upstream is one of the five with an endpoint and <upstream>/<tool> is an entry |
| `ToolNames.Tools` | internal/adapters/outbound/llm/anthropic/reasoner.go:334-361 | the catalogue is every tool under its encoded name with its own description and schema, or the default schema, then submit_plan with the allowed actions and heads from 0 to 50; the lookup maps the same names |
| `ToolNames.OfferedNamesAreKnown` | internal/adapters/outbound/llm/anthropic/reasoner.go:334-361 | a name is offered to the model if and only if the lookup resolves it or it is submit_plan |
| `ToolNames.CatalogueExactly` | internal/adapters/outbound/llm/anthropic/reasoner.go:334-361 | entry by entry: name, description and schema, the default schema where the upstream gave none, and submit_plan last |
| `ToolNames.LookupTakesTheLast` | internal/adapters/outbound/llm/anthropic/reasoner.go:337-339 | when two tools share a name the later one is meant |
| `ToolNames.SubmitPlanIsNeverOffered` | internal/adapters/outbound/llm/anthropic/reasoner.go:338-346 | no encoded tool name equals submit_plan |
| `ToolNames.UpstreamsClashExactly` | internal/adapters/outbound/llm/anthropic/reasoner.go:338 | two upstream names can produce the same encoded name if and only if one, with the separator, is a prefix of the other |
| `ToolNames.ClashWithUnderscores` | internal/adapters/outbound/llm/anthropic/reasoner.go:338 | a concrete clash for an upstream name ending in an underscore |
| `ToolNames.NamesAreInjective` | internal/adapters/outbound/llm/anthropic/reasoner.go:338 | for upstream names without underscore the encoding is injective |
| `ToolNames.LookupStaysInCatalogue` | internal/adapters/outbound/llm/anthropic/reasoner.go:334-345 | a name is found exactly when some catalogue tool carries it, and leads to such a tool |
| `ToolNames.LookupFindsItsOwn` | internal/adapters/outbound/llm/anthropic/reasoner.go:334-345 | with underscore-free upstreams and no repeated tool, every offered name leads back to its own spec |
| `Turn.ApplySubmitPlan` | internal/adapters/outbound/llm/anthropic/reasoner.go:293-304 | the plan's answer fields become the decoded input, and nothing changes when it does not decode |
| `Turn.ExecuteToolCall` | internal/adapters/outbound/llm/anthropic/reasoner.go:306-332 | bad arguments are refused without an invocation; otherwise one invocation, its echo and its audit entry agree |
| `Turn.ProcessAssistantTurn` | internal/adapters/outbound/llm/anthropic/reasoner.go:262-291 | the block loop, updating the plan under construction and the invoker's log in place, computes the specified walk |
| `Turn.OneToolMeetsSpec` | internal/adapters/outbound/llm/anthropic/reasoner.go:279-288 | one tool use adds exactly one result with its id and one audit entry with the offered tool's own names and the use's own arguments; the result says how the call ended and is flagged exactly unless it succeeded |
| `Turn.OneToolKeepsBalance` | internal/adapters/outbound/llm/anthropic/reasoner.go:279-288 | the executed audit entries stay equal, in order, to the invoker's log |
| `Turn.WalkMeetsSpec` | internal/adapters/outbound/llm/anthropic/reasoner.go:262-304 | a turn answers and audits every tool use up to the first submit_plan, one to one and in order, each answer telling how its call ended; only a submit_plan input that decodes fills in the answer |
| `Turn.ToolUsesExactly` | internal/adapters/outbound/llm/anthropic/reasoner.go:269-272 | the tool uses of a reply are its blocks of that type, in order |
| `Turn.SubmitExactly` | internal/adapters/outbound/llm/anthropic/reasoner.go:269-278 | a turn ends on the first tool use named submit_plan and asks exactly the tool uses before it |
| `Turn.WalkKeepsBalance` | internal/adapters/outbound/llm/anthropic/reasoner.go:262-332 | a whole turn keeps audit and invoker log in step, and every invocation confined to an offered tool and the gate |
| `Turn.ModelIsToldWhatWasObtained` | internal/adapters/outbound/llm/anthropic/reasoner.go:320-331 | the non-error tool results of a turn are exactly the outputs the invoker obtained, in order |
| `Reasoner.New` | internal/adapters/outbound/llm/anthropic/reasoner.go:124-167 | a missing key and a missing invoker are refused, in that order; an empty model, and a turn bound or timeout that is not positive, take the defaults; the breaker starts closed and empty |
| `Reasoner.RunDeadline` | internal/adapters/outbound/llm/anthropic/reasoner.go:220 | a run's deadline is the nearer of the caller's and start plus timeout |
| `Reasoner.ReasonerAdapter.Reason` | internal/adapters/outbound/llm/anthropic/reasoner.go:218-260 | the loop over turns, on the shared invoker and breaker, computes the specified run and returns its plan and verdict |
| `RunProperties.TurnKeepsShape` | internal/adapters/outbound/llm/anthropic/reasoner.go:227-258 | one turn extends the conversation by the reply verbatim and its answer or nudge, or ends the run |
| `RunProperties.TurnKeepsAudit` | internal/adapters/outbound/llm/anthropic/reasoner.go:243-257 | one turn, however it ends, keeps the audit complete |
| `RunProperties.TurnKeepsAnswer` | internal/adapters/outbound/llm/anthropic/reasoner.go:243-249 | the answer stays empty until a submit_plan decodes |
| `RunProperties.TurnKeepsNudges` | internal/adapters/outbound/llm/anthropic/reasoner.go:250-256 | one turn adds a nudge exactly when the reply it got has no tool use |
| `RunProperties.TurnKeepsAll` | internal/adapters/outbound/llm/anthropic/reasoner.go:227-258 | one turn keeps conversation, nudge, audit, answer and cost invariants together, or ends the run with them |
| `RunProperties.RunKeepsAll` | internal/adapters/outbound/llm/anthropic/reasoner.go:218-260 | all run invariants hold at the end of every run |
| `RunProperties.ProtocolShape` | internal/adapters/outbound/llm/anthropic/reasoner.go:223-258 | the request of turn t carries 2t+1 messages alternating from user to user, each extending the last, offers the whole catalogue and sets no tool choice; every reply is followed by its tool results one to one, in order and by id, or by the nudge; the run ends in one of four ways within the bound |
| `RunProperties.NudgesOncePerProseReply` | internal/adapters/outbound/llm/anthropic/reasoner.go:250-256 | in every run there are as many nudges as replies without a tool use, so at most one exactly when at most one reply is prose |
| `RunProperties.TwoNudgesInARun` | internal/adapters/outbound/llm/anthropic/reasoner.go:250-256 | a concrete run with two nudges and no forced tool choice |
| `RunProperties.AuditConservation` | internal/adapters/outbound/llm/anthropic/reasoner.go:219-332 | in every run, including failed ones, the k-th executed audit entry reports the k-th invocation, with its upstream, tool, arguments and ending, and there is exactly one entry per answered tool use |
| `RunProperties.LogEchoesUpstreams` | internal/adapters/outbound/llm/anthropic/reasoner.go:320-330 | in every run the k-th invocation that got through carries the k-th upstream answer, an output as output and an error as error |
| `RunProperties.PlanNamesItsModel` | internal/adapters/outbound/llm/anthropic/reasoner.go:225-240 | the plan names the model of the last reply that named itself, or the configured one |
| `RunProperties.TurnKeepsTold` | internal/adapters/outbound/llm/anthropic/reasoner.go:243-257 | one turn keeps the tool output told to the model equal to the output obtained |
| `RunProperties.NothingIsInvented` | internal/adapters/outbound/llm/anthropic/reasoner.go:243-257 | over a whole run the tool output the model is told is exactly what the invoker obtained, in order, short only of a turn that ended on a submit_plan |
| `RunProperties.OnlySubmitPlanAnswers` | internal/adapters/outbound/llm/anthropic/reasoner.go:246-304 | action, heads and rationale are the decoded input of the last reply's first submit_plan when the run submitted, and zero otherwise |
| `RunProperties.InvocationsAreConfined` | internal/adapters/outbound/llm/anthropic/reasoner.go:279-286 | every invocation is of an offered tool and reaches an upstream exactly when the gate passes it |
| `RunProperties.CostIsBounded` | internal/adapters/outbound/llm/anthropic/reasoner.go:363-416 | at most MaxTurns model calls and three times as many HTTP attempts, each turn within its own budget and deadline |
| `BreakerTraffic.RunPlaysItsEvents` | internal/adapters/outbound/llm/anthropic/reasoner.go:363-392 | every run leaves the breaker where the others' events with one request per model call and one result per admitted call leave it |
| `BreakerTraffic.RunKeepsBreakerInv` | internal/adapters/outbound/llm/anthropic/reasoner.go:363-392 | any run, interleaved with anything else, keeps the breaker's window invariant |
| `BreakerTraffic.OpenBreakerShortCircuits` | internal/adapters/outbound/llm/anthropic/reasoner.go:372-377 | with the breaker open a run fails at once without an attempt or a tool call |
| `BreakerTraffic.RunCountsItsCalls` | internal/adapters/outbound/llm/anthropic/reasoner.go:363-371 | to a closed breaker that nobody else uses, a run of n calls is n requests: n successes, or n - 1 and one failure if a call failed, however many attempts each made |
| `BreakerTraffic.FailedRunCountsOnce` | internal/adapters/outbound/llm/anthropic/reasoner.go:363-371 | in particular a run whose first call fails is one request and one failure |
| `BreakerTraffic.FiveFailedRunsOpenTheBreaker` | internal/adapters/outbound/llm/anthropic/breaker_test.go:139-180 | n failed runs leave n failures up to four and an open breaker from the fifth on, which the sixth and later runs leave open |
| `Pipeline.TheModelCanOnlySubmit` | internal/application/usecases/flow_balance_advisory.go:152-207 | for every world a valid answer submitted by the run's last reply is adopted in mode on, replacing action, heads and rationale alone; in every other case the decision is the rules' own |
| `Pipeline.SchemaAgreesWithTheGate` | internal/adapters/outbound/llm/anthropic/reasoner.go:346-359 | the schema offered for submit_plan allows the same plans as the gate, but for heads without an assignment and an empty rationale, which only the gate refuses |
| `Pipeline.TwoRunsAgree` | internal/application/usecases/flow_balance_advisory.go:152-207 | two whole runs with different models, networks and catalogues give decisions that agree outside action, heads and rationale, and agree entirely when the mode is not on |
| `Pipeline.OpenBreakerFallsBack` | internal/adapters/outbound/llm/anthropic/reasoner.go:372-377 | with the breaker open the advisory answers by the rules alone at no cost |
| `Pipeline.OnlyAllowListedToolsAreReached` | cmd/agent/reasoner.go:43-60 | behind a gate that enforces the configuration, no run of any model reaches anything but an allow-listed tool of an upstream with an endpoint |
| `Pipeline.DiscoveredToolsAreNeverRefused` | internal/adapters/outbound/mcpclient/tool_invoker.go:93-103 | with a discovered catalogue every invocation of every run reaches its upstream |
| `Pipeline.FlowBalanceAdvisory.WireReasoner` | cmd/agent/reasoner.go:30-104 | start-up refuses an unknown mode, a missing key and a malformed entry, in that order; off wires nothing; otherwise the gate installed enforces the configuration and the tools are the discovered ones |
| `Pipeline.FlowBalanceAdvisory.Execute` | internal/application/usecases/flow_balance_advisory.go:152-207 | one request against the wired reasoner returns the specified decision, adds exactly the run's invocations to the log and its events to the breaker, and keeps every invocation so far reached and allow-listed; off or unwired it touches neither |
| `Decimal.ItoaInBuffer` | internal/domain/policy/dailybrief.go:199-219 | the buffer loop prints the specified text for every 64-bit integer, the least included, and never writes below index 0 |
| `Decimal.PrintsAndReadsBack` | internal/domain/policy/dailybrief.go:199-219 | the printed text is canonical and parses back to n if and only if n is not -2^63, which prints as a bare minus sign |
| `Decimal.CanonicalTextsAreThePrintedOnes` | internal/domain/policy/dailybrief.go:199-219 | every canonical text of a printable integer is the one printed for its value |
| `Decimal.DigitsReadBack` | internal/domain/policy/dailybrief.go:207-213 | the digits of n have value n and no leading zero |
| `Decimal.TwentyBytesSuffice` | internal/domain/policy/dailybrief.go:207-208 | the text never exceeds the 20-byte buffer |
| `BriefPolicy.DeriveExceptions` | internal/domain/policy/dailybrief.go:142-178 | the signal counter and evidence list yield the specified exception |
| `BriefPolicy.Derived` | internal/domain/policy/dailybrief.go:136-178 | at most one exception, present exactly with two or more signals, critical exactly with three and warning exactly with two |
| `BriefPolicy.EvidenceOf` | internal/domain/policy/dailybrief.go:142-159 | exactly one evidence line per signal that fires, with that signal's own numbers |
| `BriefPolicy.MoreSignalsNeverLower` | internal/domain/policy/dailybrief.go:136-178 | an additional signal never removes an exception or lowers its severity |
| `BriefPolicy.FlaggedExactly` | internal/domain/policy/dailybrief.go:136-178 | over the facts alone: two of three alarms flag the path once, three critically; site, path, number of alarms and each alarm's own numbers in order |
| `Ranking.SwapKeepsRanks` | internal/application/usecases/dailybrief.go:202-207 | swapping neighbours of different severity reorders nothing within a severity |
| `Ranking.RankBySeverity` | internal/application/usecases/dailybrief.go:185-210 | the in-place swap loop over a copy returns criticals, then warnings, then the rest, each in input order, without writing the input |
| `Ranking.RankedIsAStableSort` | internal/application/usecases/dailybrief.go:185-188 | that result is sorted worst-first, a permutation, and stable |
| `Ranking.StableSortIsUnique` | internal/application/usecases/dailybrief.go:185-188 | any worst-first sequence keeping each severity's order is that result |
| `Ranking.CriticalsComeFirst` | internal/application/usecases/dailybrief.go:185-210 | by severity name: no critical after anything else, no warning after an info |
| `Ranking.ListOpenExceptions` | internal/adapters/inbound/mcp/tools.go:92-112 | an unknown severity is refused; otherwise the loop returns exactly the exceptions at or above the minimum, in order |
| `Ranking.FilterKeepsExactly` | internal/adapters/inbound/mcp/tools.go:105-110 | the filter keeps exactly the exceptions of known severity at or above the minimum |
| `Ranking.FilterIsAPrefix` | internal/adapters/inbound/mcp/tools.go:105-110 | over a worst-first list of known severities the filter returns a prefix |
| `Ranking.WeakerMinimumShowsMore` | internal/adapters/inbound/mcp/tools.go:77-110 | a weaker minimum shows a longer prefix, and the weakest the whole list |
| `Ranking.ShownBySeverity` | internal/adapters/inbound/mcp/tools.go:77-110 | what each severity argument lets through, by severity name |
| `DailyBrief.CountForPath` | internal/application/usecases/dailybrief.go:166-183 | the count is the number of positions whose task has the path's type, or the reading's own count for an unnamed process path |
| `DailyBrief.SynthesizeOne` | internal/application/usecases/dailybrief.go:100-164 | each source degrades on its own; the facts, the unavailable list and the derived exceptions are the specified ones |
| `DailyBrief.SourcesFailAlone` | internal/application/usecases/dailybrief.go:59-64 | a fact is present exactly when its own client is configured and its own read succeeded, and each failure is listed with its error |
| `DailyBrief.FactsAreTheReadings` | internal/application/usecases/dailybrief.go:100-164 | each fact carries its own reading's values, the stuck fact the count of the path's own tasks, and the failures are listed once each in the order of the reads |
| `DailyBrief.PathIsFlaggedExactly` | internal/application/usecases/dailybrief.go:100-183 | end to end: a path is flagged exactly when two of its alarms were actually read, critically when all three were, counting only its own stuck tasks |
| `DailyBrief.SiteNames` | internal/application/usecases/dailybrief.go:68-75 | site names come from the facility reading, the last entry for a code winning, and are empty when it failed |
| `DailyBrief.SiteIsNamed` | internal/application/usecases/dailybrief.go:68-75 | a site's name is that of its last entry, and empty without one |
| `DailyBrief.AddPath` | internal/application/usecases/dailybrief.go:83-89 | through the shared pointer one path joins its own site and no other |
| `DailyBrief.Execute` | internal/application/usecases/dailybrief.go:65-98 | the grouping loop over a map of pointers and the ranking compute the specified brief |
| `DailyBrief.FirstIndex` | internal/application/usecases/dailybrief.go:83-88 | the position of the first target of a site |
| `DailyBrief.SitesInOrderOfAppearance` | internal/application/usecases/dailybrief.go:77-94 | sites come once each, in order of first appearance, none missing |
| `DailyBrief.PathsForIsTheSubsequence` | internal/application/usecases/dailybrief.go:83-89 | a site's paths are the subsequence of targets with its code, in target order |
| `DailyBrief.OneMorePath` | internal/application/usecases/dailybrief.go:83-89 | one more path adds its exceptions to its own site's total and to no other |
| `DailyBrief.GroupingConserves` | internal/application/usecases/dailybrief.go:77-94 | the exceptions of all sites' paths are, as a multiset, the exceptions of all targets |
| `DailyBrief.ExceptionsInOrder` | internal/application/usecases/dailybrief.go:81-82 | all exceptions are the paths' own, path after path |
| `DailyBrief.SynthesizedSeverities` | internal/domain/policy/dailybrief.go:165-168 | every exception of a brief is a warning or critical |
| `DailyBrief.BriefIsComplete` | internal/application/usecases/dailybrief.go:65-98 | every target's site is there under the facility's name, sites come once each in the order of their first targets, a site's paths are in order those of its own targets and hold what those targets' reads give; the ranked list holds exactly the exceptions of the sites' paths, worst first and otherwise in target order |
| `DailyBrief.ToolShowsAPrefix` | internal/adapters/inbound/mcp/tools.go:92-112 | end to end, none, info and warning show the whole list, critical a prefix that is exactly the critical ones, and an unknown severity is refused |
| `Labels.SortedKeys` | internal/application/usecases/console_reports.go:255-260 | whatever order the map yields its keys in, the sorted labels are the same |
| `Labels.AscendingIsUnique` | internal/application/usecases/console_reports.go:248-254 | a strictly ascending label sequence is determined by its elements |
| `Labels.LessExactly` | internal/application/usecases/console_reports.go:255-260 | labels compare at the first point where they differ, a prefix first |
| `Series.SumByLabel` | internal/application/usecases/console_reports_wes.go:68-71 | the accumulation loop's map has exactly the rows' labels with their sums |
| `Series.BucketSeries` | internal/application/usecases/console_reports.go:248-267 | one point per key, in ascending label order, with the key's total |
| `Series.FetchBucketed` | internal/application/usecases/console_reports_wes.go:60-73 | the series of a report, or its error |
| `Series.FulfillmentSeries` | internal/application/usecases/console_reports_wes.go:89-104 | the in-line loop computes the same function of the rows as the shared bucketing |
| `Series.SeriesIgnoresRowOrder` | internal/application/usecases/console_reports_wes.go:79-82 | any permutation of the rows gives the same series |
| `Series.SeriesIsDetermined` | internal/application/usecases/console_reports.go:248-267 | a series ascending over exactly the rows' labels with their sums is the only one |
| `Series.SeriesLabels` | internal/application/usecases/console_reports.go:248-267 | labels ascend strictly and are exactly the rows' labels |
| `Series.PointsAddUpToRows` | internal/application/usecases/console_reports_wms.go:107-122 | the values of a series add up to the total over the rows |
| `Series.SeriesMerge` | internal/application/usecases/console_reports_wes.go:60-105 | the series of two reports together is the pointwise merge of their series |
| `Headlines.FetchOrderFunnel` | internal/application/usecases/console_reports_wms.go:47-73 | the loop's four counters are the sums over all rows, partial allocations and allocation failures folded in |
| `Headlines.FetchInventoryFlowAccuracy` | internal/application/usecases/console_reports_wms.go:79-101 | the loop's four counters are the sums over all rows |
| `Headlines.FunnelCounts` | internal/application/usecases/console_reports_wms.go:53-73 | one more row adds its own fields to the four bars, partial allocations to the allocated, failed ones to the cancelled; an empty report has empty bars |
| `Headlines.FlowCounts` | internal/application/usecases/console_reports_wms.go:79-101 | one more row adds its own fields to the four bars |
| `Headlines.LaborCounts` | internal/application/usecases/console_reports_wes.go:111-131 | one more row adds its own fields to the three bars |
| `Headlines.FetchLabor` | internal/application/usecases/console_reports_wes.go:111-131 | the loop's three counters are the sums over all rows |
| `Headlines.FetchLaborPerformance` | internal/application/usecases/console_reports_wes.go:149-163 | the loop keeps exactly the measured bars, in order |
| `Headlines.OnlyMeasuredBars` | internal/application/usecases/console_reports_wes.go:141-148 | a bar without a mean never becomes a point and its presence changes no other point |
| `Headlines.BarsInOrder` | internal/application/usecases/console_reports_wes.go:149-163 | the measured bars come one point each in report order, repetitions included |
| `Headlines.HeadlinesIgnoreRowOrder` | internal/application/usecases/console_reports_wms.go:53-101 | the headline counters depend only on the multiset of the rows |
| `FanOut.SectionOf` | internal/application/usecases/console_reports.go:197-246 | a panel is unavailable exactly when unwired or failed, then with the reason that applies and an empty series; freshness only annotates |
| `FanOut.AdvanceKeepsDraft` | internal/application/usecases/console_reports.go:201-246 | each step of a goroutine leaves its record as the degrade rule requires at that point |
| `FanOut.StepGoroutine` | internal/application/usecases/console_reports.go:182-185 | a goroutine's step writes its own slot only and keeps the wait group's count exact |
| `FanOut.NoDeadlock` | internal/application/usecases/console_reports.go:179-187 | until the wait ends somebody can move |
| `FanOut.RunSections` | internal/application/usecases/console_reports.go:168-195 | under every schedule the wait ends with slot i holding the section of spec i, in declaration order |
| `FanOut.PanelsAreIsolated` | internal/application/usecases/console_reports.go:173-186 | with RunSections: changing one upstream's behaviour changes only that panel |
| `Dashboards.ExecuteWES` | internal/application/usecases/console_reports_wes.go:9-58 | the four WES panels, in order, each from its own report |
| `Dashboards.ExecuteWMS` | internal/application/usecases/console_reports_wms.go:8-45 | the three WMS panels, in order, each from its own report |
| `Dashboards.WesDashboardShows` | internal/application/usecases/console_reports_wes.go:9-58 | over the clients alone: each of the four panels has its own title, context and chart, is available exactly when its client is configured and its report came, and plots that report; otherwise it says why and plots nothing |
| `Dashboards.WmsDashboardShows` | internal/application/usecases/console_reports_wms.go:8-45 | the same for the three WMS panels |
| `Dashboards.WesDashboardIgnoresRowOrder` | internal/application/usecases/console_reports_wes.go:19-131 | no schedule and no row order of a summed report shows on the WES dashboard |
| `Dashboards.WmsDashboardIgnoresRowOrder` | internal/application/usecases/console_reports_wms.go:15-122 | no schedule and no row order shows on the WMS dashboard |
| `Stranded.StuckByType` | internal/domain/policy/stranded_reservation.go:257-265 | the filtering loop keeps the tasks of the type, in order |
| `Stranded.OfTypeSelects` | internal/domain/policy/stranded_reservation.go:257-265 | the selection splits over any cut and takes a task exactly when it has the type |
| `Stranded.ToBlastRadius` | internal/application/usecases/stranded_reservation.go:110-136 | the bin's lines one for one, and the reserved quantity of the SKU's own lines |
| `Stranded.Execute` | internal/application/usecases/stranded_reservation.go:56-88 | the gathering steps and the policy compute the specified finding |
| `Stranded.RevokeExactly` | internal/application/usecases/stranded_reservation.go:63-88 | a revoke is recommended if and only if the task type is known, a stuck task has it, usable is at most the threshold, SKU, reservation and bin are given and all three reads succeeded; its blast radius is the exact bin and the exact freed quantity |
| `Stranded.FindingsShowTheirWork` | internal/domain/policy/stranded_reservation.go:166-218 | only an unknown task type is an error; every finding carries evidence; detection is exactly the correlation without its blast radius |
| `Stranded.FindingsExplainThemselves` | internal/domain/policy/stranded_reservation.go:166-218 | every finding's reason, evidence lines and reservation are exact in terms of the request and the three reads, the number of expired leases counted by position |
| `Stranded.RevokeIsMonotone` | internal/domain/policy/stranded_reservation.go:178-217 | raising the threshold or adding stuck tasks never turns a revoke into a hold |
| `Stranded.FreedPlusOthers` | internal/application/usecases/stranded_reservation.go:125-127 | what is freed and what is reserved under other SKUs add up to the bin's whole reservation |
| `Stranded.FreedIgnoresLineOrder` | internal/application/usecases/stranded_reservation.go:122-128 | the freed quantity does not depend on the order of the bin's lines |

## Left out

- HTTP, MCP and REST transport, JSON encoding, logging, telemetry and configuration from the environment: each upstream read is an arbitrary result.
- gobreaker and backoff: the breaker's documented contract (ReadyToTrip consulted after each failure while closed, results of an ended window ignored, one half-open probe, which closes or reopens) and the retry library's bound of three attempts (which breaker_test.go pins) and its stop on an ended context (which no test pins) are assumptions; window interval, cooldown and jitter become events at arbitrary moments; cancelled requests, which the breaker excludes, are not modelled.
- Decoding of tool inputs: a raw input carries what decoding it as an arguments object and as a submit_plan input would give, one of them possibly nothing.
- Prompt, rationale and evidence wording: constructors with their parameters. An audit outcome is therefore told apart from an upstream error text that happens to read the same.
- The facts map of a brief: it only shapes the prompt.
- Turn.ModelIsToldWhatWasObtained: stated per turn, with an arbitrary earlier log (RunProperties.NothingIsInvented is the whole-run form); the results of a turn that ends by submit_plan are discarded and never sent.
- Integer width outside the integer printer: counts and sums are unbounded integers, so a wrap-around of planned minus active heads or of a freed quantity is not modelled.
- Floating point: utilization, error rate and series values are real numbers; counts below 2^53 are exact in the source too.
- DailyBrief.Execute: the clock reading is a parameter, and the four reads of each target answer independently of the order they are made in.
- FanOut.RunSections: each upstream's answers are fixed per panel, independent of the schedule; slots are written by atomic steps; from and to are not carried.
- Series.FetchBucketed: a report row is reduced to the bucket label and the count its chart sums.
- ToolNames.Tools: an upstream's own schema is opaque text, and the descriptions of submit_plan's three fields are not carried.
- Reasoner.New: base URL, HTTP client, logger, breaker recorder and cooldown are not fields of the model; requests carry catalogue, tool choice and messages, not model, token limit or system prompt.
- ModelCall.CallStaysWithinBudget: an attempt that began before the deadline may be answered after it; how the network cuts it short is part of its arbitrary outcome.
- ToolGate.ToolInvoker.Specs: calls are serialised by the source's mutex, so concurrent discovery is not modelled.
- Stranded.Execute: the mapping of upstream task and line records to domain records is the identity on the fields modelled; the lookback window is part of the arbitrary answer.
- ResolveWindow, order lifecycle, travel-factor explanation, runtime signals and log sanitising: true but settled by one branch or one fold.
