/** What holds of one run, and of the one process that works on it, between any two statements. */
module RunInvariant {
  import opened Domain
  import opened TraceTable
  import opened Store
  import opened TraceLanguage
  import opened Decisions
  import opened Protocol

  // ---- the row and its trace

  predicate Terminal(status: Status) {
    status.Success? || status.Failed?
  }

  predicate RowShape(row: Run) {
    && (row.status.Success? <==> row.finalAnswer.Some?)
    && (row.status.Failed? <==> row.errorReason.Some?)
    && (row.finished <==> Terminal(row.status))
    && (row.started <==> row.status.Running? || row.status.Success?
                         || (row.errorReason.Some? && !Capacity(row.errorReason.value)))
  }

  /** The events a row's status goes with. A terminal row's `run_end` is there or is all that is missing. */
  predicate Agrees(spec: Spec, row: Run, phase: Phase) {
    match row.status
    case Pending => phase.Empty? || phase.Created?
    case Running => phase.Created? || phase.Admitted? || phase.Looping? || phase.Asked? || phase.Answered?
    case Success =>
      row.finalAnswer == Some(FINAL_ANSWER) && (phase.Answered? || phase == Ended(EndSuccess(FINAL_ANSWER)))
    case Failed =>
      row.errorReason.Some? &&
      var reason := row.errorReason.value;
      || phase == Ended(EndFailed(reason))
      || (Capacity(reason) && (phase.Created? || phase == Refused(reason)))
      || ((phase.Looping? || phase.Asked?) && Next(spec, phase, EndFailed(reason)) == Ended(EndFailed(reason)))
  }

  function SpecOf(st: Store, row: Run): Spec
    requires row.agent in st.agents
  {
    Spec(st.agents[row.agent].maxIterations, Forced(row.messages))
  }

  ghost function LogOf(st: Store, run: Id): seq<Event>
    requires run in st.runs
  {
    Log(st.traces, st.runs[run].tenant, run)
  }

  ghost function PhaseIn(st: Store, run: Id): Phase
    requires run in st.runs && st.runs[run].agent in st.agents
  {
    PhaseOf(SpecOf(st, st.runs[run]), LogOf(st, run))
  }

  /** Every executed tool is bound to the run's agent. */
  ghost predicate ToolsBound(st: Store, row: Run, log: seq<Event>) {
    forall i :: 0 <= i < |log| && log[i].ToolExec? ==> Binding(row.tenant, row.agent, log[i].tool) in st.bindings
  }

  ghost predicate RunOk(st: Store, run: Id)
    requires run in st.runs
  {
    var row := st.runs[run];
    && row.agent in st.agents
    && RowShape(row)
    && Dense(GetTrace(st.traces, row.tenant, run))
    && !PhaseIn(st, run).Bad?
    && Agrees(SpecOf(st, row), row, PhaseIn(st, run))
    && ToolsBound(st, row, LogOf(st, run))
  }

  // ---- how far the process working on the run is

  /** The agent has no tool bound. */
  predicate Unequipped(st: Store, t: Id, a: Id) {
    forall b | b in st.bindings :: !(b.tenant == t && b.agent == a)
  }

  predicate LoopOk(st: Store, t: Id, a: Id, spec: Spec, loop: LoopState) {
    && loop.agent == a && loop.maxIterations == spec.maxIterations && loop.forced == spec.forced
    && loop.iteration == loop.toolResults + 1 && loop.toolResults <= 2 && loop.iteration <= spec.maxIterations + 1
    && (spec.forced ==> loop.toolResults == 0)
    && (match loop.first
        case Some(x) => Binding(t, a, x) in st.bindings
        case None => Unequipped(st, t, a))
  }

  /** Between the model's call and the tool's execution: a forced call names a tool that is not bound. */
  predicate CallOk(st: Store, t: Id, a: Id, spec: Spec, loop: LoopState, tool: Id, arguments: Arguments) {
    && LoopOk(st, t, a, spec, loop)
    && loop.iteration <= spec.maxIterations && loop.toolResults < 2
    && (if spec.forced then arguments == ForcedLookup && Binding(t, a, tool) !in st.bindings
        else arguments == Lookup(loop.toolResults) && loop.first == Some(tool) && !loop.triggerConsumed)
  }

  predicate SameTool(st: Store, t: Id, tool: Id, record: Tool) {
    && tool in st.tools && st.tools[tool].tenant == t
    && st.tools[tool].(deleted := record.deleted) == record
  }

  /** Continuing with `pc` from this row and phase stays within the row's shape and the trace language. */
  ghost predicate Ready(st: Store, t: Id, a: Id, spec: Spec, pc: Pc, row: Run, phase: Phase)
    decreases pc, 0
  {
    match pc
    case LookupAgent => false
    case CreateOrGetRun => false
    case ReadMax(event, k) => ReadyAppend(st, t, a, spec, event, k, row, phase)
    case InsertRow(event, _, k) => ReadyAppend(st, t, a, spec, event, k, row, phase)
    case AcquireGlobal => row.status.Pending? && phase.Created?
    case EnsureTenantSemaphore => row.status.Pending? && phase.Created?
    case AcquireTenant => row.status.Pending? && phase.Created?
    case MarkFailed(reason, k) =>
      && row.status.Pending? && phase.Created? && Capacity(reason)
      && Ready(st, t, a, spec, k, FailedRow(row, reason), phase) && k.ReadMax? && !k.event.ToolExec?
    case BeginExecution => row.status.Pending? && phase.Created?
    case LoadRun => row.status.Running? && phase == Looping(0, NIL)
    case LoadAgent(agent, forced) => row.status.Running? && phase == Looping(0, NIL) && agent == a
      && forced == spec.forced
    case LoadTools(agent, maxIterations, forced) =>
      && row.status.Running? && phase == Looping(0, NIL)
      && agent == a && forced == spec.forced && maxIterations == spec.maxIterations
    case Decide(loop) =>
      && row.status.Running? && LoopOk(st, t, a, spec, loop) && !loop.triggerConsumed
      && phase.Looping? && phase.calls == loop.toolResults
      && (loop.toolResults > 0 ==> loop.first == Some(phase.tool))
    case CheckTool(loop, tool, arguments) =>
      row.status.Running? && CallOk(st, t, a, spec, loop, tool, arguments) && phase == Asked(loop.toolResults, tool)
    case CheckBinding(loop, tool, arguments, record) =>
      && row.status.Running? && CallOk(st, t, a, spec, loop, tool, arguments) && phase == Asked(loop.toolResults, tool)
      && SameTool(st, t, tool, record)
    case Finalize(status, answer, why, k) =>
      var row' := FinalRow(row, status, answer, why);
      && row.status.Running? && Terminal(status) && RowShape(row') && Agrees(spec, row', phase)
      && Ready(st, t, a, spec, k, row', phase) && k.ReadMax? && !k.event.ToolExec?
    case Lost(statement) =>
      !statement.Lost? && !statement.Done? && !statement.Quit? && Ready(st, t, a, spec, statement, row, phase)
    case Done => phase.Ended?
    case Quit => true
  }

  ghost predicate ReadyAppend(st: Store, t: Id, a: Id, spec: Spec, event: Event, k: Pc, row: Run, phase: Phase)
    decreases k, 1
  {
    var next := Next(spec, phase, event);
    && !next.Bad? && Agrees(spec, row, next)
    && (event.ToolExec? ==> Binding(t, a, event.tool) in st.bindings)
    && (phase.Empty? ==> k.AcquireGlobal?)
    && !k.InsertRow? && !k.Lost? && !k.Quit? && !k.CheckBinding? && (k.ReadMax? ==> !k.event.ToolExec?)
    && Ready(st, t, a, spec, k, row, next)
  }

  /** A task holds both permits; a handler holds what it has acquired; an aborted process holds none. */
  ghost predicate PermitsOk(p: Proc, row: Run, phase: Phase) {
    if p.pc.Lost? then p.permits.NoPermit?
    else
      && (p.permits.BothPermits? <==> p.pc.BeginExecution? || row.started)
      && (p.pc.AcquireGlobal? || phase.Empty? ==> p.permits.NoPermit?)
      && (p.pc.EnsureTenantSemaphore? || p.pc.AcquireTenant? ==> p.permits.GlobalPermit?)
  }

  /** The number an INSERT has computed is still the next one. */
  ghost predicate NumberOk(st: Store, p: Proc, run: Id) {
    Revived(p).pc.InsertRow? ==> Revived(p).pc.number == MaxSeq(st.traces, p.req.tenant, run) + 1
  }

  predicate SameRequest(row: Run, req: Request) {
    row.tenant == req.tenant && row.agent == req.agent && row.messages == req.messages && row.key == req.key
  }

  /** A process that has created its run: the run is the one it asked for, and the program fits its state. */
  ghost predicate PlaceOk(st: Store, p: Proc)
    requires p.run.Some?
  {
    var r := p.run.value;
    && r in st.runs && SameRequest(st.runs[r], p.req) && st.runs[r].agent in st.agents
    && !Over(p)
    && Ready(st, p.req.tenant, p.req.agent, SpecOf(st, st.runs[r]), p.pc, st.runs[r], PhaseIn(st, r))
    && NumberOk(st, p, r)
  }

  ghost predicate OwnerOk(st: Store, p: Proc)
    requires p.run.Some?
  {
    PlaceOk(st, p) && PermitsOk(p, st.runs[p.run.value], PhaseIn(st, p.run.value))
  }

  /** A process that has not. */
  predicate NewcomerOk(p: Proc) {
    p.permits.NoPermit? && (Revived(p).pc.LookupAgent? || Revived(p).pc.CreateOrGetRun?)
  }

  ghost predicate ProcOk(st: Store, p: Proc) {
    if p.run.Some? then OwnerOk(st, p) else NewcomerOk(p)
  }

  // ---- what only grows

  predicate SameIdentity(row: Run, row': Run) {
    row'.tenant == row.tenant && row'.agent == row.agent && row'.messages == row.messages && row'.key == row.key
  }

  /** The transitions of a run; a terminal row stays as it is. */
  predicate Transition(row: Run, row': Run) {
    && SameIdentity(row, row') && (row.started ==> row'.started)
    && (|| row' == row
        || (row.status.Pending? && row'.status.Running? && row'.started)
        || (row.status.Pending? && row'.status.Failed? && !row'.started)
        || (row.status.Running? && Terminal(row'.status) && row'.started))
  }

  ghost predicate ToolsGrow(st: Store, st': Store) {
    forall x :: x in st.tools ==>
      && x in st'.tools
      && st'.tools[x] == st.tools[x].(deleted := st'.tools[x].deleted)
      && (st.tools[x].deleted ==> st'.tools[x].deleted)
  }

  /** Agents never change, and the bindings of an existing agent are fixed. */
  ghost predicate AgentsGrow(st: Store, st': Store) {
    && (forall x :: x in st.agents ==> x in st'.agents && st'.agents[x] == st.agents[x])
    && (forall b: Binding :: b.agent in st.agents ==> (b in st.bindings <==> b in st'.bindings))
  }

  ghost predicate Grows(st: Store, st': Store) {
    ToolsGrow(st, st') && AgentsGrow(st, st')
  }

  lemma {:induction false} ReadyStable(st: Store, st': Store, t: Id, a: Id, spec: Spec, pc: Pc, row: Run, phase: Phase)
    requires Grows(st, st') && a in st.agents
    requires Ready(st, t, a, spec, pc, row, phase)
    ensures Ready(st', t, a, spec, pc, row, phase)
    decreases pc
  {
    match pc
    case ReadMax(event, k) => ReadyStable(st, st', t, a, spec, k, row, Next(spec, phase, event));
    case InsertRow(event, _, k) => ReadyStable(st, st', t, a, spec, k, row, Next(spec, phase, event));
    case MarkFailed(reason, k) => ReadyStable(st, st', t, a, spec, k, FailedRow(row, reason), phase);
    case Finalize(status, answer, why, k) =>
      ReadyStable(st, st', t, a, spec, k, FinalRow(row, status, answer, why), phase);
    case Lost(statement) => ReadyStable(st, st', t, a, spec, statement, row, phase);
    case _ =>
  }
}
