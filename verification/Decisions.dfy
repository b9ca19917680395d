/** The pure decisions of the agent loop. */
module Decisions {
  import opened Domain

  /** The locals of the loop in `execute_run`. */
  datatype LoopState = LoopState(
    agent: Id,
    maxIterations: int,
    first: Option<Id>,          // `bound_tools.first()`
    forced: bool,
    iteration: int,
    toolResults: nat,
    triggerConsumed: bool)

  datatype LlmDecision = ToolCall(tool: Id, arguments: Arguments) | FinalAnswer(answer: string)

  /** The mock model. `unbound` is the tool a forced lookup finds, if there is one; None is an internal error. */
  function MockLlmDecision(loop: LoopState, unbound: Option<Id>): Option<LlmDecision> {
    if loop.forced && !loop.triggerConsumed then
      match unbound
      case Some(tool) => Some(ToolCall(tool, ForcedLookup))
      case None => Some(ToolCall(NIL, ForcedLookup))
    else if loop.toolResults < 2 then
      match loop.first
      case Some(tool) => Some(ToolCall(tool, Lookup(loop.toolResults)))
      case None => None
    else
      Some(FinalAnswer(FINAL_ANSWER))
  }

  /** The `llm_call` event of a decision. */
  function DecisionEvent(iteration: int, decision: LlmDecision): Event {
    match decision
    case ToolCall(tool, arguments) => LlmCall(iteration, Some(tool), arguments.ForcedLookup?)
    case FinalAnswer(_) => LlmCall(iteration, None, false)
  }

  /** The reason a tool call is refused for, after the tool row has been read. */
  function AuthorizeFound(tool: Option<Tool>): Option<Reason> {
    match tool
    case None => Some(ToolNotAllowedForAgent)
    case Some(row) => if row.deleted then Some(ToolDeleted) else None
  }

  function ValidateToolArguments(schema: Schema, arguments: Arguments): Option<Reason> {
    if !schema.compiles then Some(InvalidInputSchema)
    else if arguments in schema.accepted then None
    else Some(InvalidToolArguments)
  }

  function ExecuteMockHandler(handler: Handler): Option<string> {
    match handler
    case Static(response) => Some(response)
    case StaticWithoutResponse => None
    case Unsupported => None
  }
}
