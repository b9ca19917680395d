/** The tables, and each SQL statement of the server as a query or an update on them. */
module Store {
  import opened Domain
  import opened TraceTable

  datatype Store = Store(
    tools: map<Id, Tool>,
    agents: map<Id, Agent>,
    bindings: set<Binding>,
    runs: map<Id, Run>,
    traces: Traces)

  const EMPTY_STORE := Store(map[], map[], {}, map[], map[])

  // ---- queries, each with its WHERE clause

  function GetAgent(st: Store, tenant: Id, agent: Id): Option<Agent> {
    if agent in st.agents && st.agents[agent].tenant == tenant then Some(st.agents[agent]) else None
  }

  function GetRun(st: Store, tenant: Id, run: Id): Option<Run> {
    if run in st.runs && st.runs[run].tenant == tenant then Some(st.runs[run]) else None
  }

  function GetTool(st: Store, tenant: Id, tool: Id): Option<Tool> {
    if tool in st.tools && st.tools[tool].tenant == tenant then Some(st.tools[tool]) else None
  }

  predicate ActiveTool(st: Store, tenant: Id, tool: Id) {
    tool in st.tools && st.tools[tool].tenant == tenant && !st.tools[tool].deleted
  }

  function ListTools(st: Store, tenant: Id): set<Id> {
    set x | x in st.tools && st.tools[x].tenant == tenant && !st.tools[x].deleted
  }

  function AgentToolIds(st: Store, tenant: Id, agent: Id): set<Id> {
    set b | b in st.bindings && b.tenant == tenant && b.agent == agent :: b.tool
  }

  /** The join of bindings and tools; it does not filter deleted tools. */
  function ListAgentTools(st: Store, tenant: Id, agent: Id): set<Id> {
    set x | x in st.tools && st.tools[x].tenant == tenant && Binding(tenant, agent, x) in st.bindings
  }

  function UnboundActiveTools(st: Store, tenant: Id, agent: Id): set<Id> {
    set x | x in st.tools && st.tools[x].tenant == tenant && !st.tools[x].deleted
         && Binding(tenant, agent, x) !in st.bindings
  }

  /** The rows an idempotency key already stands for; a NULL key matches none. */
  function RunsInScope(st: Store, tenant: Id, agent: Id, key: Option<string>): set<Id> {
    set r | r in st.runs && key.Some? && st.runs[r].tenant == tenant && st.runs[r].agent == agent
         && st.runs[r].key == key
  }

  // ---- updates

  function NewRun(tenant: Id, agent: Id, messages: seq<ChatMessage>, key: Option<string>): Run {
    Run(tenant, agent, Pending, messages, None, None, key, false, false)
  }

  function InsertRun(st: Store, run: Id, row: Run): Store {
    st.(runs := st.runs[run := row])
  }

  function FailedRow(row: Run, reason: Reason): Run {
    row.(status := Failed, errorReason := Some(reason), finished := true)
  }

  function StartedRow(row: Run): Run {
    row.(status := Running, started := true)
  }

  function FinalRow(row: Run, status: Status, answer: Option<string>, reason: Option<Reason>): Run {
    row.(status := status, finalAnswer := answer, errorReason := reason, finished := true)
  }

  /** `UPDATE runs SET ... WHERE tenant_id AND id`: no row is touched when none matches. */
  function UpdateRun(st: Store, tenant: Id, run: Id, row: Run): Store {
    if GetRun(st, tenant, run).Some? then st.(runs := st.runs[run := row]) else st
  }

  /** The statement has no guard on the current status. */
  function MarkRunFailed(st: Store, tenant: Id, run: Id, reason: Reason): Store {
    match GetRun(st, tenant, run)
    case None => st
    case Some(row) => UpdateRun(st, tenant, run, FailedRow(row, reason))
  }

  predicate CanBegin(st: Store, tenant: Id, run: Id) {
    run in st.runs && st.runs[run].tenant == tenant && st.runs[run].status == Pending
  }

  function BeginRunExecution(st: Store, tenant: Id, run: Id): Store {
    if CanBegin(st, tenant, run) then UpdateRun(st, tenant, run, StartedRow(st.runs[run])) else st
  }

  /** The statement has no guard on the current status. */
  function FinalizeRun(st: Store, tenant: Id, run: Id, status: Status, answer: Option<string>,
                       reason: Option<Reason>): Store
  {
    match GetRun(st, tenant, run)
    case None => st
    case Some(row) => UpdateRun(st, tenant, run, FinalRow(row, status, answer, reason))
  }

  function InsertTrace(st: Store, key: TraceKey, event: Event): Store {
    st.(traces := st.traces[key := event])
  }

  function CreateTool(st: Store, id: Id, tool: Tool): Store {
    st.(tools := st.tools[id := tool])
  }

  function DeleteTool(st: Store, tenant: Id, tool: Id): Store {
    if ActiveTool(st, tenant, tool) then
      st.(tools := st.tools[tool := st.tools[tool].(deleted := true)])
    else
      st
  }

  function BindingsFor(tenant: Id, agent: Id, tools: set<Id>): set<Binding> {
    set x | x in tools :: Binding(tenant, agent, x)
  }

  function CreateAgent(st: Store, id: Id, agent: Agent, tools: set<Id>): Store {
    st.(agents := st.agents[id := agent], bindings := st.bindings + BindingsFor(agent.tenant, id, tools))
  }

  // ---- constraints declared by the migration

  predicate ToolNameFree(st: Store, tenant: Id, name: string) {
    forall x | x in st.tools :: st.tools[x].tenant == tenant && st.tools[x].name == name ==> st.tools[x].deleted
  }

  predicate AgentNameFree(st: Store, tenant: Id, name: Option<string>) {
    name.None? || forall x | x in st.agents :: st.agents[x].tenant == tenant ==> st.agents[x].name != name
  }

  ghost predicate ToolNamesUnique(st: Store) {
    forall x, y | x in st.tools && y in st.tools && x != y && !st.tools[x].deleted && !st.tools[y].deleted ::
      st.tools[x].tenant == st.tools[y].tenant ==> st.tools[x].name != st.tools[y].name
  }

  ghost predicate AgentNamesUnique(st: Store) {
    forall x, y | x in st.agents && y in st.agents && x != y && st.agents[x].name.Some? ::
      st.agents[x].tenant == st.agents[y].tenant ==> st.agents[x].name != st.agents[y].name
  }

  /** An agent's name is refused exactly when storing the row would violate the unique index; NULL never does. */
  lemma AgentNameFreeExactly(st: Store, id: Id, agent: Agent, tools: set<Id>)
    requires id !in st.agents && AgentNamesUnique(st)
    ensures AgentNameFree(st, agent.tenant, agent.name) <==> AgentNamesUnique(CreateAgent(st, id, agent, tools))
  {
    var st' := CreateAgent(st, id, agent, tools);
    if x :| x in st.agents && agent.name.Some? && st.agents[x].tenant == agent.tenant
            && st.agents[x].name == agent.name {
      assert st'.agents[x] == st.agents[x] && st'.agents[id] == agent;
    }
  }

  /** The same for a tool's name; that of a deleted tool can be taken again. */
  lemma ToolNameFreeExactly(st: Store, id: Id, tool: Tool)
    requires id !in st.tools && !tool.deleted && ToolNamesUnique(st)
    ensures ToolNameFree(st, tool.tenant, tool.name) <==> ToolNamesUnique(CreateTool(st, id, tool))
  {
    var st' := CreateTool(st, id, tool);
    if x :| x in st.tools && !st.tools[x].deleted && st.tools[x].tenant == tool.tenant
            && st.tools[x].name == tool.name {
      assert st'.tools[x] == st.tools[x] && st'.tools[id] == tool;
    }
  }

  /** Both foreign keys of `agent_tools`: a binding joins an agent and a tool of one tenant. */
  ghost predicate BindingKeys(st: Store) {
    forall b :: b in st.bindings ==>
      && b.agent in st.agents && st.agents[b.agent].tenant == b.tenant
      && b.tool in st.tools && st.tools[b.tool].tenant == b.tenant
  }

  ghost predicate AgentChecks(st: Store) {
    forall x :: x in st.agents ==> 0 < st.agents[x].maxIterations <= MAX_ITERATIONS_LIMIT
  }

  ghost predicate RunKeys(st: Store) {
    forall r :: r in st.runs ==>
      st.runs[r].agent in st.agents && st.agents[st.runs[r].agent].tenant == st.runs[r].tenant
  }

  ghost predicate IdempotencyUnique(st: Store) {
    forall q, r | q in st.runs && r in st.runs && st.runs[q].key.Some? && st.runs[q].key == st.runs[r].key ::
      (st.runs[q].tenant == st.runs[r].tenant && st.runs[q].agent == st.runs[r].agent) ==> q == r
  }

  ghost predicate TraceKeys(st: Store) {
    forall k :: k in st.traces ==> k.run in st.runs && st.runs[k.run].tenant == k.tenant && k.number > 0
  }

  ghost predicate Constraints(st: Store) {
    && NIL !in st.tools
    && ToolNamesUnique(st) && AgentNamesUnique(st)
    && BindingKeys(st) && AgentChecks(st)
    && RunKeys(st) && IdempotencyUnique(st)
    && TraceKeys(st)
  }
}
