/** Readings and messages that cross the ports (internal/ports): what the
    upstream clients, the reasoner and the tool invoker exchange with the core. */
module Ports {
  import opened Common

  datatype RebalanceReading = RebalanceReading(pathId: string, action: string, backlogDepth: int, wip: int)
  datatype StaffingReading = StaffingReading(pathId: string, plannedHeads: int, activeHeads: int, understaffed: bool)
  datatype StuckTask = StuckTask(taskId: string, taskType: string, leaseStationId: string, reason: string)
  datatype StuckTasksReading = StuckTasksReading(count: int, tasks: seq<StuckTask>)
  datatype UtilizationReading = UtilizationReading(
    taskType: string, associates: int, windowSeconds: int, taskSeconds: int, idleSeconds: int, openGapSeconds: int,
    pct: Option<real>)

  /** One read tool offered to the model; the schema is opaque text. */
  datatype ToolSpec = ToolSpec(upstream: string, name: string, description: string, schema: Option<string>)

  /** Why an invocation gave no output: refused at the gate, or failed beyond it. */
  datatype InvokeError = UnknownUpstream(upstream: string) | NotAllowed(upstream: string, tool: string) | UpstreamError(text: string)

  /** One line of the invoker's own call log. */
  datatype Invocation = Invocation(upstream: string, tool: string, args: Args, result: Result<string, InvokeError>)

  /** How an audited tool call ended. The source renders these as texts. */
  datatype CallOutcome = Succeeded | Errored(error: InvokeError) | RefusedUnknownTool | RefusedBadArguments

  /** Decoded tool arguments, opaque; None is the source's nil map. */
  type Args = Option<string>

  datatype ToolCall = ToolCall(upstream: string, tool: string, args: Args, outcome: CallOutcome)

  /** The reasoner's proposal. The zero plan has an empty action, no heads and an empty rationale. */
  datatype Plan = Plan(action: string, heads: int, rationale: string, toolCalls: seq<ToolCall>, model: string)
}
