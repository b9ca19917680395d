/**
 The run lifecycle as a concurrent state machine. A process is one request for a run: first the
 handler `start_run`, and from the spawn on the task `execute_run`. Its program counter stops at
 every statement sent to the database and at every semaphore operation, and all processes
 interleave there.
 */
module Protocol {
  import opened Domain
  import opened TraceTable
  import opened Store
  import opened Decisions

  /** What a process runs next. `k` is where it goes on once the statement has succeeded. */
  datatype Pc =
    // start_run
    | LookupAgent
    | CreateOrGetRun
    // append_event: its SELECT and its INSERT
    | ReadMax(event: Event, k: Pc)
    | InsertRow(event: Event, number: nat, k: Pc)
    // schedule_run
    | AcquireGlobal
    | EnsureTenantSemaphore
    | AcquireTenant
    | MarkFailed(reason: Reason, k: Pc)
    // execute_run
    | BeginExecution
    | LoadRun
    | LoadAgent(agent: Id, forced: bool)
    | LoadTools(agent: Id, maxIterations: int, forced: bool)
    | Decide(loop: LoopState)
    | CheckTool(loop: LoopState, tool: Id, arguments: Arguments)
    | CheckBinding(loop: LoopState, tool: Id, arguments: Arguments, record: Tool)
    | Finalize(status: Status, answer: Option<string>, why: Option<Reason>, k: Pc)
    // the caller is gone, the statement it had sent may still take effect
    | Lost(statement: Pc)
    // returned after `run_end`; returned without writing one
    | Done
    | Quit

  /** The permits a process owns; dropping the process gives them back. */
  datatype Permits = NoPermit | GlobalPermit | BothPermits

  datatype Request = Request(tenant: Id, agent: Id, messages: seq<ChatMessage>, key: Option<string>)

  datatype Proc = Proc(req: Request, run: Option<Id>, permits: Permits, pc: Pc)

  /** An Ok reply to a request. */
  datatype Reply = Reply(tenant: Id, agent: Id, key: Option<string>, run: Id, status: Status)

  /** What the surroundings decide: a generated or selected id, the global permit, a failing read. */
  datatype Choice = Choice(id: Id, granted: bool, dbError: bool)

  datatype Outcome = Outcome(store: Store, sems: map<Id, int>, proc: Proc, tookGlobal: bool, reply: Option<Reply>)

  function EndRun(end: Event): Pc {
    ReadMax(end, Done)
  }

  /** The tail of `fail_run_before_start`. */
  function Refuse(reason: Reason): Pc {
    MarkFailed(reason, ReadMax(Rejected(reason), EndRun(EndFailed(reason))))
  }

  function FailRun(reason: Reason): Pc {
    Finalize(Failed, None, Some(reason), EndRun(EndFailed(reason)))
  }

  function FinishRun(answer: string): Pc {
    Finalize(Success, Some(answer), None, EndRun(EndSuccess(answer)))
  }

  /** The loop body after the model's decision. */
  function AfterDecision(loop: LoopState, decision: LlmDecision): Pc {
    var next := match decision
                case FinalAnswer(answer) => FinishRun(answer)
                case ToolCall(tool, arguments) =>
                  CheckTool(loop.(triggerConsumed := loop.triggerConsumed || loop.forced), tool, arguments);
    ReadMax(DecisionEvent(loop.iteration, decision), next)
  }

  function DecideNext(st: Store, tenant: Id, loop: LoopState, c: Choice): Pc {
    if loop.iteration > loop.maxIterations then FailRun(MaxIterationsExceeded)
    else
      var unbound := if UnboundActiveTools(st, tenant, loop.agent) == {} then None else Some(c.id);
      match MockLlmDecision(loop, unbound)
      case None => Quit
      case Some(decision) => AfterDecision(loop, decision)
  }

  function CheckToolNext(st: Store, tenant: Id, loop: LoopState, tool: Id, arguments: Arguments, c: Choice): Pc {
    if c.dbError then FailRun(InternalError)
    else
      var found := GetTool(st, tenant, tool);
      match AuthorizeFound(found)
      case Some(reason) => FailRun(reason)
      case None => CheckBinding(loop, tool, arguments, found.value)
  }

  function CheckBindingNext(st: Store, tenant: Id, loop: LoopState, tool: Id, arguments: Arguments, record: Tool,
                            c: Choice): Pc
  {
    if c.dbError then FailRun(InternalError)
    else if tool !in AgentToolIds(st, tenant, loop.agent) then FailRun(ToolNotAllowedForAgent)
    else
      match ValidateToolArguments(record.schema, arguments)
      case Some(reason) => FailRun(reason)
      case None =>
        match ExecuteMockHandler(record.handler)
        case None => Quit
        case Some(result) =>
          ReadMax(ToolExec(tool, record.name, arguments, result),
                  Decide(loop.(iteration := loop.iteration + 1, toolResults := loop.toolResults + 1)))
  }

  /** The statements of the task that only read, by where they lead. */
  ghost function ReadNext(st: Store, tenant: Id, run: Id, pc: Pc, c: Choice): Pc {
    match pc
    case ReadMax(event, k) => InsertRow(event, MaxSeq(st.traces, tenant, run) + 1, k)
    case LoadRun =>
      (match GetRun(st, tenant, run)
       case None => Quit
       case Some(row) => LoadAgent(row.agent, Forced(row.messages)))
    case LoadAgent(agent, forced) =>
      (match GetAgent(st, tenant, agent)
       case None => Quit
       case Some(row) => LoadTools(agent, row.maxIterations, forced))
    case LoadTools(agent, maxIterations, forced) =>
      var first := if ListAgentTools(st, tenant, agent) == {} then None else Some(c.id);
      Decide(LoopState(agent, maxIterations, first, forced, 1, 0, false))
    case Decide(loop) => DecideNext(st, tenant, loop, c)
    case CheckTool(loop, tool, arguments) => CheckToolNext(st, tenant, loop, tool, arguments, c)
    case CheckBinding(loop, tool, arguments, record) => CheckBindingNext(st, tenant, loop, tool, arguments, record, c)
    case _ => Quit
  }

  /** The statements that write the process's own run, by their effect and where they lead. */
  ghost function WriteNext(st: Store, tenant: Id, run: Id, pc: Pc): (Store, Pc) {
    match pc
    case InsertRow(event, number, k) =>
      var key := TraceKey(tenant, run, number);
      // the UNIQUE index turns a second row with this number into an error
      if key in st.traces then (st, Quit) else (InsertTrace(st, key, event), k)
    case MarkFailed(reason, k) => (MarkRunFailed(st, tenant, run, reason), k)
    case BeginExecution =>
      if CanBegin(st, tenant, run) then
        (BeginRunExecution(st, tenant, run), ReadMax(Accepted, ReadMax(RunStarted, LoadRun)))
      else
        (st, Quit)
    case Finalize(status, answer, why, k) => (FinalizeRun(st, tenant, run, status, answer, why), k)
    case _ => (st, Quit)
  }

  predicate Writes(pc: Pc) {
    pc.InsertRow? || pc.MarkFailed? || pc.BeginExecution? || pc.Finalize?
  }

  predicate Reads(pc: Pc) {
    pc.ReadMax? || pc.LoadRun? || pc.LoadAgent? || pc.LoadTools? || pc.Decide? || pc.CheckTool? || pc.CheckBinding?
  }

  /**
   `create_or_get_run`. Its SELECT after a conflict runs in the transaction whose INSERT has failed, and
   the database may refuse it there: then the request ends with an error and without a reply.
   */
  function CreateNext(st: Store, sems: map<Id, int>, p: Proc, c: Choice): Outcome {
    var req := p.req;
    if GetAgent(st, req.tenant, req.agent).None? then
      Outcome(st, sems, p.(pc := Quit), false, None)
    else if RunsInScope(st, req.tenant, req.agent, req.key) == {} then
      Outcome(InsertRun(st, c.id, NewRun(req.tenant, req.agent, req.messages, req.key)), sems,
              p.(run := Some(c.id), pc := ReadMax(RunCreated, AcquireGlobal)), false, None)
    else if c.dbError then
      Outcome(st, sems, p.(pc := Quit), false, None)
    else
      var status := if c.id in st.runs then st.runs[c.id].status else Pending;
      Outcome(st, sems, p.(pc := Quit), false, Some(Reply(req.tenant, req.agent, req.key, c.id, status)))
  }

  /** The tenant's `try_acquire_owned`; on success the task is spawned and the handler replies. */
  function AcquireTenantNext(st: Store, sems: map<Id, int>, p: Proc): Outcome {
    var t := p.req.tenant;
    if t in sems && sems[t] > 0 then
      Outcome(st, sems[t := sems[t] - 1], p.(permits := BothPermits, pc := BeginExecution), false,
              if p.run.Some? then Some(Reply(t, p.req.agent, p.req.key, p.run.value, Pending)) else None)
    else
      Outcome(st, sems, p.(pc := Refuse(TenantConcurrencyLimitExceeded)), false, None)
  }

  /** One move of a process. */
  ghost function Advance(st: Store, limit: nat, sems: map<Id, int>, p: Proc, c: Choice): Outcome {
    var t := p.req.tenant;
    if p.pc.LookupAgent? then
      var ok := GetAgent(st, t, p.req.agent).Some? && p.req.messages != [];
      Outcome(st, sems, p.(pc := if ok then CreateOrGetRun else Quit), false, None)
    else if p.pc.CreateOrGetRun? then
      CreateNext(st, sems, p, c)
    else if p.pc.AcquireGlobal? then
      if c.granted then Outcome(st, sems, p.(permits := GlobalPermit, pc := EnsureTenantSemaphore), true, None)
      else Outcome(st, sems, p.(pc := Refuse(SchedulerCapacityExceeded)), false, None)
    else if p.pc.EnsureTenantSemaphore? then
      Outcome(st, if t in sems then sems else sems[t := limit], p.(pc := AcquireTenant), false, None)
    else if p.pc.AcquireTenant? then
      AcquireTenantNext(st, sems, p)
    else if p.run.None? then
      Outcome(st, sems, p.(pc := Quit), false, None)
    else if Writes(p.pc) then
      var (st', pc') := WriteNext(st, t, p.run.value, p.pc);
      Outcome(st', sems, p.(pc := pc'), false, None)
    else
      Outcome(st, sems, p.(pc := ReadNext(st, t, p.run.value, p.pc, c)), false, None)
  }

  /** Which choices the statement at the program counter leaves open. */
  ghost predicate Admissible(st: Store, p: Proc, c: Choice) {
    match p.pc
    case CreateOrGetRun =>
      var scope := RunsInScope(st, p.req.tenant, p.req.agent, p.req.key);
      if scope == {} then c.id !in st.runs && c.id != NIL else c.id in scope
    case LoadTools(agent, _, _) =>
      var bound := ListAgentTools(st, p.req.tenant, agent);
      bound != {} ==> c.id in bound
    case Decide(loop) =>
      var unbound := UnboundActiveTools(st, p.req.tenant, loop.agent);
      unbound != {} ==> c.id in unbound
    case _ => true
  }

  // ---- the system

  /** Everything but the global semaphore. `limit` is `per_tenant_max_concurrency`. */
  datatype Core = Core(limit: nat, store: Store, procs: map<Id, Proc>, sems: map<Id, int>, replies: set<Reply>)

  /** `free` counts the permits the global semaphore has left of `globalMax`. */
  datatype World = World(core: Core, globalMax: nat, free: int)

  datatype Action =
    | Arrive(pid: Id, req: Request)
    | Move(pid: Id, c: Choice)
    | Abort(pid: Id)                             // a statement fails, or the client disconnects
    | Settle(pid: Id, commits: bool, c: Choice)  // the fate of the statement an aborted process had sent
    | NewTool(id: Id, tool: Tool)
    | RemoveTool(tenant: Id, id: Id)
    | NewAgent(id: Id, agent: Agent, tools: set<Id>)
    | Crash                                      // the server process restarts, statements sent may still commit

  predicate Over(p: Proc) {
    p.pc.Done? || p.pc.Quit?
  }

  /** Returning one permit to the tenant's semaphore. */
  function Return(sems: map<Id, int>, tenant: Id): map<Id, int> {
    if tenant in sems then sems[tenant := sems[tenant] + 1] else sems
  }

  function DropTenantPermit(sems: map<Id, int>, p: Proc): map<Id, int> {
    if p.permits.BothPermits? then Return(sems, p.req.tenant) else sems
  }

  function GlobalHeld(p: Proc): int {
    if p.permits.NoPermit? then 0 else 1
  }

  function Replied(replies: set<Reply>, reply: Option<Reply>): set<Reply> {
    match reply
    case None => replies
    case Some(r) => replies + {r}
  }

  /** The process replaced by what it became, or dropped with its permits when it has returned. */
  function Commit(core: Core, pid: Id, o: Outcome): Core {
    if Over(o.proc) then
      Core(core.limit, o.store, core.procs - {pid}, DropTenantPermit(o.sems, o.proc), Replied(core.replies, o.reply))
    else
      Core(core.limit, o.store, core.procs[pid := o.proc], o.sems, Replied(core.replies, o.reply))
  }

  ghost function MoveOf(core: Core, pid: Id, c: Choice): Outcome
    requires pid in core.procs
  {
    Advance(core.store, core.limit, core.sems, core.procs[pid], c)
  }

  function Abandoned(p: Proc): Proc {
    if p.pc.Lost? then p else p.(permits := NoPermit, pc := Lost(p.pc))
  }

  /** The process an aborted one was, as far as the database can tell. */
  function Revived(p: Proc): Proc {
    if p.pc.Lost? then p.(pc := p.pc.statement) else p
  }

  ghost predicate Enabled(core: Core, a: Action) {
    match a
    case Arrive(pid, req) => pid !in core.procs
    case Move(pid, c) => pid in core.procs && !core.procs[pid].pc.Lost? && Admissible(core.store, core.procs[pid], c)
    case Abort(pid) => pid in core.procs && !core.procs[pid].pc.Lost?
    case Settle(pid, commits, c) =>
      && pid in core.procs && core.procs[pid].pc.Lost?
      && (commits ==> Admissible(core.store, Revived(core.procs[pid]), c))
    case NewTool(id, tool) =>
      && id != NIL && id !in core.store.tools && !tool.deleted
      && ToolNameFree(core.store, tool.tenant, tool.name)
    case RemoveTool(tenant, id) => ActiveTool(core.store, tenant, id)
    case NewAgent(id, agent, tools) =>
      && id !in core.store.agents && 0 < agent.maxIterations <= MAX_ITERATIONS_LIMIT
      && AgentNameFree(core.store, agent.tenant, agent.name)
      && (forall x :: x in tools ==> x in core.store.tools && core.store.tools[x].tenant == agent.tenant)
    case Crash => true
  }

  ghost function Apply(core: Core, a: Action): Core
    requires Enabled(core, a)
  {
    match a
    case Arrive(pid, req) => core.(procs := core.procs[pid := Proc(req, None, NoPermit, LookupAgent)])
    case Move(pid, c) => Commit(core, pid, MoveOf(core, pid, c))
    case Abort(pid) =>
      var p := core.procs[pid];
      core.(procs := core.procs[pid := Abandoned(p)], sems := DropTenantPermit(core.sems, p))
    case Settle(pid, commits, c) =>
      // the statement an aborted process had sent commits after all, or does not. An append that was sent is one
      // aborted at its INSERT: nobody else writes the run's trace, so its maximum can as well be read before the abort
      var p := Revived(core.procs[pid]);
      core.(store := if commits then Advance(core.store, core.limit, core.sems, p, c).store else core.store,
            procs := core.procs - {pid})
    case NewTool(id, tool) => core.(store := CreateTool(core.store, id, tool))
    case RemoveTool(tenant, id) => core.(store := DeleteTool(core.store, tenant, id))
    case NewAgent(id, agent, tools) => core.(store := CreateAgent(core.store, id, agent, tools))
    case Crash => core.(procs := map pid | pid in core.procs :: Abandoned(core.procs[pid]), sems := map[])
  }

  /** How the global semaphore's counter moves: an acquire takes one, a dropped permit gives one back. */
  ghost function FreeAfter(w: World, a: Action): int
    requires Enabled(w.core, a)
  {
    match a
    case Move(pid, c) =>
      var o := MoveOf(w.core, pid, c);
      w.free - (if o.tookGlobal then 1 else 0) + (if Over(o.proc) then GlobalHeld(o.proc) else 0)
    case Abort(pid) => w.free + GlobalHeld(w.core.procs[pid])
    case Crash => w.globalMax
    case _ => w.free
  }

  /** A permit is granted exactly when the semaphore has one. */
  ghost predicate EnabledIn(w: World, a: Action) {
    && Enabled(w.core, a)
    && (a.Move? && w.core.procs[a.pid].pc.AcquireGlobal? ==> (a.c.granted <==> w.free > 0))
  }

  ghost function ApplyIn(w: World, a: Action): World
    requires EnabledIn(w, a)
  {
    World(Apply(w.core, a), w.globalMax, FreeAfter(w, a))
  }

  ghost predicate Init(w: World) {
    && w.core.store == EMPTY_STORE && w.core.procs == map[] && w.core.sems == map[] && w.core.replies == {}
    && w.free == w.globalMax
  }

  /** Every schedule: each action enabled where it is taken. */
  ghost predicate Playable(w: World, acts: seq<Action>)
    decreases |acts|
  {
    acts == [] || (EnabledIn(w, acts[0]) && Playable(ApplyIn(w, acts[0]), acts[1..]))
  }

  ghost function Play(w: World, acts: seq<Action>): World
    requires Playable(w, acts)
    decreases |acts|
  {
    if acts == [] then w else Play(ApplyIn(w, acts[0]), acts[1..])
  }

  ghost predicate Reachable(w: World) {
    exists w0, acts :: Init(w0) && Playable(w0, acts) && Play(w0, acts) == w
  }
}
