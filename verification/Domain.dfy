/** The values the platform stores and exchanges: tenant-owned rows, trace events, error reasons. */
module Domain {

  /** A UUID. Zero stands for `Uuid::nil()`, which the database never generates. */
  type Id = nat
  const NIL: Id := 0

  const FINAL_ANSWER := "Deterministic mock final answer."
  const INVALID_TOOL_CALL_SENTINEL := "__force_invalid_tool_call__"
  const MAX_ITERATIONS_LIMIT := 50

  datatype Option<+T> = None | Some(value: T)

  datatype Status = Pending | Running | Success | Failed

  /** The strings that end up in `runs.error_reason`. */
  datatype Reason =
    | SchedulerCapacityExceeded
    | TenantConcurrencyLimitExceeded
    | ToolNotAllowedForAgent
    | ToolDeleted
    | InvalidInputSchema
    | InvalidToolArguments
    | InternalError
    | MaxIterationsExceeded

  /** The two reasons the scheduler gives when it refuses a run. */
  predicate Capacity(reason: Reason) {
    reason.SchedulerCapacityExceeded? || reason.TenantConcurrencyLimitExceeded?
  }

  /** The arguments the mock model can generate: `iteration-n`, or the forced lookup. */
  datatype Arguments = Lookup(count: nat) | ForcedLookup

  /** A JSON schema, by its behaviour: whether it compiles, and which arguments it accepts. */
  datatype Schema = Schema(compiles: bool, accepted: set<Arguments>)

  datatype Handler = Static(response: string) | StaticWithoutResponse | Unsupported

  datatype Tool = Tool(tenant: Id, name: string, schema: Schema, handler: Handler, deleted: bool)

  datatype Agent = Agent(tenant: Id, name: Option<string>, maxIterations: int)

  datatype Binding = Binding(tenant: Id, agent: Id, tool: Id)

  datatype ChatMessage = ChatMessage(role: string, content: string)

  datatype Run = Run(
    tenant: Id,
    agent: Id,
    status: Status,
    messages: seq<ChatMessage>,
    finalAnswer: Option<string>,
    errorReason: Option<Reason>,
    key: Option<string>,
    started: bool,
    finished: bool)

  /** Trace events with the payload fields the runtime writes. */
  datatype Event =
    | RunCreated
    | Accepted
    | Rejected(reason: Reason)
    | RunStarted
    | LlmCall(iteration: int, call: Option<Id>, forced: bool)
    | ToolExec(tool: Id, name: string, arguments: Arguments, result: string)
    | EndSuccess(answer: string)
    | EndFailed(reason: Reason)

  predicate StartsAt(s: string, sub: string, i: nat) {
    i + |sub| <= |s| && s[i..i + |sub|] == sub
  }

  predicate Contains(s: string, sub: string) {
    exists i: nat | i <= |s| :: StartsAt(s, sub, i)
  }

  predicate RequestsInvalidToolCall(message: ChatMessage) {
    message.role == "user" && Contains(message.content, INVALID_TOOL_CALL_SENTINEL)
  }

  /** Whether some user message carries the sentinel that makes the first tool call an invalid one. */
  predicate Forced(messages: seq<ChatMessage>) {
    exists i | 0 <= i < |messages| :: RequestsInvalidToolCall(messages[i])
  }

  /** Some user message has the sentinel somewhere in its text. */
  ghost predicate CarriesSentinel(messages: seq<ChatMessage>) {
    exists i, before, after :: 0 <= i < |messages| && SentinelBetween(messages[i], before, after)
  }

  ghost predicate SentinelBetween(message: ChatMessage, before: string, after: string) {
    message == ChatMessage("user", before + INVALID_TOOL_CALL_SENTINEL + after)
  }

  lemma ContainsExactly(s: string, sub: string)
    ensures Contains(s, sub) <==> exists before, after :: s == before + sub + after
  {
    if Contains(s, sub) {
      var i: nat :| i <= |s| && StartsAt(s, sub, i);
      assert s == s[..i] + sub + s[i + |sub|..];
    }
    if before, after :| s == before + sub + after {
      assert StartsAt(s, sub, |before|);
    }
  }

  /** A run is forced exactly if a user message has the sentinel at its start, at its end or anywhere between. */
  lemma ForcedExactly(messages: seq<ChatMessage>)
    ensures Forced(messages) <==> CarriesSentinel(messages)
  {
    forall i | 0 <= i < |messages|
      ensures RequestsInvalidToolCall(messages[i])
              <==> exists before, after :: SentinelBetween(messages[i], before, after)
    {
      var text := messages[i].content;
      ContainsExactly(text, INVALID_TOOL_CALL_SENTINEL);
      if RequestsInvalidToolCall(messages[i]) {
        var before, after :| text == before + INVALID_TOOL_CALL_SENTINEL + after;
        assert SentinelBetween(messages[i], before, after);
      }
    }
  }
}
