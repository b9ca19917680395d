/** The task `execute_run` as it is written: statements, early returns and the loop, on the tables it changes. */
module Runtime {
  import opened Domain
  import opened TraceTable
  import S = Store
  import opened Decisions
  import opened Protocol
  import opened Solo
  import opened DatabaseLayer

  /** What a task's result says; a refused tool call is returned as an error after the run has been finalized. */
  datatype TaskError = RunNotFound | NoBoundTools | BadHandler | CallRefused(reason: Reason)

  datatype TaskResult = Returned | Raised(error: TaskError)

  /** The process that a spawned task is: both permits, the run still pending. */
  function Spawned(req: Request, run: Id): Proc {
    Proc(req, Some(run), BothPermits, BeginExecution)
  }

  /** A forced lookup reads the unbound tools; any other decision does not look at them. */
  ghost function UnboundChoice(st: S.Store, t: Id, agent: Id, found: Option<Id>): Choice {
    var unbound := S.UnboundActiveTools(st, t, agent);
    if found.Some? then Choice(found.value, false, false)
    else if unbound == {} then Choice(NIL, false, false)
    else
      var x :| x in unbound;
      Choice(x, false, false)
  }

  lemma LeadsDecision(st0: S.Store, p0: Proc, st: S.Store, p: Proc, found: Option<Id>, first: Id)
    requires Leads(st0, p0, st, p, first) && p.run.Some? && p.pc.Decide?
    requires p.pc.loop.iteration <= p.pc.loop.maxIterations
    requires var loop, unbound := p.pc.loop, S.UnboundActiveTools(st, p.req.tenant, p.pc.loop.agent);
             if loop.forced && !loop.triggerConsumed then
               (found.Some? <==> unbound != {}) && (found.Some? ==> found.value in unbound)
             else found.None?
    ensures var decision := MockLlmDecision(p.pc.loop, found);
            var next := if decision.None? then Quit else AfterDecision(p.pc.loop, decision.value);
            Leads(st0, p0, st, p.(pc := next), first)
  {
    LeadsRead(st0, p0, st, p, UnboundChoice(st, p.req.tenant, p.pc.loop.agent, found), first);
  }

  lemma LeadsExhausted(st0: S.Store, p0: Proc, st: S.Store, p: Proc, first: Id)
    requires Leads(st0, p0, st, p, first) && p.run.Some? && p.pc.Decide?
             && p.pc.loop.iteration > p.pc.loop.maxIterations
    ensures Leads(st0, p0, st, p.(pc := FailRun(MaxIterationsExceeded)), first)
  {
    LeadsRead(st0, p0, st, p, UnboundChoice(st, p.req.tenant, p.pc.loop.agent, None), first);
  }

  // The reads of the task, each with the program counter it leads to.

  function AfterLoadRun(row: Option<Run>): Pc {
    match row
    case None => Quit
    case Some(r) => LoadAgent(r.agent, Forced(r.messages))
  }

  function AfterLoadAgent(agent: Id, forced: bool, row: Option<Agent>): Pc {
    match row
    case None => Quit
    case Some(r) => LoadTools(agent, r.maxIterations, forced)
  }

  function FreshLoop(agent: Id, maxIterations: int, first: Option<Id>, forced: bool): LoopState {
    LoopState(agent, maxIterations, first, forced, 1, 0, false)
  }

  function AfterChecks(loop: LoopState, tool: Id, arguments: Arguments, record: Tool, refusal: Option<Reason>): Pc {
    match refusal
    case Some(reason) => FailRun(reason)
    case None =>
      match ExecuteMockHandler(record.handler)
      case None => Quit
      case Some(result) =>
        ReadMax(ToolExec(tool, record.name, arguments, result),
                Decide(loop.(iteration := loop.iteration + 1, toolResults := loop.toolResults + 1)))
  }

  lemma LeadsLoadRun(st0: S.Store, p0: Proc, st: S.Store, p: Proc, first: Id)
    requires Leads(st0, p0, st, p, first) && p.run.Some? && p.pc.LoadRun?
    ensures Leads(st0, p0, st, p.(pc := AfterLoadRun(S.GetRun(st, p.req.tenant, p.run.value))), first)
  {
    LeadsRead(st0, p0, st, p, Choice(first, false, false), first);
  }

  lemma LeadsLoadAgent(st0: S.Store, p0: Proc, st: S.Store, p: Proc, first: Id)
    requires Leads(st0, p0, st, p, first) && p.run.Some? && p.pc.LoadAgent?
    ensures Leads(st0, p0, st, p.(pc := AfterLoadAgent(p.pc.agent, p.pc.forced,
            S.GetAgent(st, p.req.tenant, p.pc.agent))), first)
  {
    LeadsRead(st0, p0, st, p, Choice(first, false, false), first);
  }

  lemma LeadsLoadTools(st0: S.Store, p0: Proc, st: S.Store, p: Proc, first: Id)
    requires Leads(st0, p0, st, p, first) && p.run.Some? && p.pc.LoadTools?
    requires var bound := S.ListAgentTools(st, p.req.tenant, p.pc.agent); bound != {} ==> first in bound
    ensures var bound := S.ListAgentTools(st, p.req.tenant, p.pc.agent);
            var loop := FreshLoop(p.pc.agent, p.pc.maxIterations, if bound == {} then None else Some(first),
              p.pc.forced);
            Leads(st0, p0, st, p.(pc := Decide(loop)), first)
  {
    LeadsRead(st0, p0, st, p, Choice(first, false, false), first);
  }

  function AfterFound(loop: LoopState, tool: Id, arguments: Arguments, found: Option<Tool>): Pc {
    match AuthorizeFound(found)
    case Some(reason) => FailRun(reason)
    case None => if found.Some? then CheckBinding(loop, tool, arguments, found.value) else Quit
  }

  lemma LeadsCheckTool(st0: S.Store, p0: Proc, st: S.Store, p: Proc, first: Id)
    requires Leads(st0, p0, st, p, first) && p.run.Some? && p.pc.CheckTool?
    ensures Leads(st0, p0, st, p.(pc := AfterFound(p.pc.loop, p.pc.tool, p.pc.arguments,
            S.GetTool(st, p.req.tenant, p.pc.tool))), first)
  {
    LeadsRead(st0, p0, st, p, Choice(first, false, false), first);
  }

  function Checked(st: S.Store, t: Id, loop: LoopState, tool: Id, arguments: Arguments, record: Tool): Option<Reason> {
    if tool in S.AgentToolIds(st, t, loop.agent) then ValidateToolArguments(record.schema, arguments)
    else Some(ToolNotAllowedForAgent)
  }

  lemma LeadsCheckBinding(st0: S.Store, p0: Proc, st: S.Store, p: Proc, first: Id)
    requires Leads(st0, p0, st, p, first) && p.run.Some? && p.pc.CheckBinding?
    ensures var refusal := Checked(st, p.req.tenant, p.pc.loop, p.pc.tool, p.pc.arguments, p.pc.record);
            Leads(st0, p0, st, p.(pc := AfterChecks(p.pc.loop, p.pc.tool, p.pc.arguments, p.pc.record, refusal)), first)
  {
    LeadsRead(st0, p0, st, p, Choice(first, false, false), first);
  }

  // ---- what a task's result tells

  /** The run's trace ends with this event. */
  ghost predicate EndsWith(st: S.Store, t: Id, run: Id, e: Event) {
    var rows := GetTrace(st.traces, t, run);
    rows != [] && rows[|rows| - 1].event == e
  }

  lemma AppendedEndsWith(st: S.Store, t: Id, run: Id, e: Event)
    ensures EndsWith(Appended(st, t, run, e), t, run, e)
  {
    AppendNext(st.traces, t, run, e);
  }

  /** A decision for a tool call finds no tool to call. */
  predicate Toolless(loop: LoopState) {
    loop.first.None? && (!loop.forced || loop.triggerConsumed) && loop.toolResults < 2
  }

  /** A task that has written `run_end` returns what it has written there; one that has not raises an error. */
  ghost predicate Tells(st: S.Store, t: Id, run: Id, done: bool, result: TaskResult) {
    match result
    case Returned =>
      done && (EndsWith(st, t, run, EndSuccess(FINAL_ANSWER)) || EndsWith(st, t, run, EndFailed(MaxIterationsExceeded)))
    case Raised(CallRefused(reason)) =>
      done && EndsWith(st, t, run, EndFailed(reason)) && reason != MaxIterationsExceeded
    case Raised(_) => !done
  }

  /** Ending a run: the row first, then the event. */
  method EndWith(db: Database, t: Id, run: Id, status: Status, answer: Option<string>, why: Option<Reason>, end: Event,
                 ghost st0: S.Store, ghost p0: Proc, ghost p: Proc, ghost first: Id)
    requires Leads(st0, p0, db.Contents(), p, first) && p.run == Some(run) && p.req.tenant == t
    requires p.pc == Finalize(status, answer, why, EndRun(end))
    modifies db
    ensures Leads(st0, p0, db.Contents(), p.(pc := Done), first)
    ensures db.Contents() == Appended(S.FinalizeRun(old(db.Contents()), t, run, status, answer, why), t, run, end)
    ensures EndsWith(db.Contents(), t, run, end)
  {
    LeadsEnd(st0, p0, db.Contents(), p, first);
    AppendedEndsWith(S.FinalizeRun(db.Contents(), t, run, status, answer, why), t, run, end);
    db.FinalizeRun(t, run, status, answer, why);
    db.AppendEvent(t, run, end);
  }

  method AppendAt(db: Database, t: Id, run: Id, event: Event, ghost st0: S.Store, ghost p0: Proc, ghost p: Proc,
                  ghost first: Id)
    requires Leads(st0, p0, db.Contents(), p, first) && p.run == Some(run) && p.req.tenant == t
    requires p.pc.ReadMax? && p.pc.event == event
    modifies db
    ensures Leads(st0, p0, db.Contents(), p.(pc := p.pc.k), first)
    ensures db.Contents() == Appended(old(db.Contents()), t, run, event)
  {
    LeadsAppend(st0, p0, db.Contents(), p, first);
    db.AppendEvent(t, run, event);
  }

  /** The statements before the loop. */
  method Prepare(db: Database, t: Id, run: Id, first: Id, ghost p0: Proc)
    returns (result: Option<TaskResult>, loop: LoopState, ghost p: Proc)
    requires p0.run == Some(run) && p0.req.tenant == t && p0.pc.BeginExecution?
    requires var row := S.GetRun(db.Contents(), t, run);
             row.Some? && S.ListAgentTools(db.Contents(), t, row.value.agent) != {} ==>
               first in S.ListAgentTools(db.Contents(), t, row.value.agent)
    modifies db
    ensures Leads(old(db.Contents()), p0, db.Contents(), p, first)
    ensures p == p0.(pc := p.pc)
    ensures result.Some? ==> p.pc.Quit?
    ensures result == Some(Returned) <==> !old(S.CanBegin(db.Contents(), t, run))
    ensures result == Some(Returned) ==> db.Contents() == old(db.Contents())
    ensures result.None? ==> p.pc == Decide(loop)
    ensures var st := old(db.Contents());
            if !S.CanBegin(st, t, run) then result == Some(Returned)
            else LoadedAs(st, t, st.runs[run], first, result, loop)
  {
    ghost var st0 := db.Contents();
    p := p0;
    loop := FreshLoop(NIL, 0, None, false);
    LeadsNowhere(st0, p0, first);
    LeadsWrite(st0, p0, st0, p, first);
    var canStart := db.BeginRunExecution(t, run);
    if !canStart {
      p := p.(pc := Quit);
      return Some(Returned), loop, p;
    }
    p := p.(pc := ReadMax(Accepted, ReadMax(RunStarted, LoadRun)));
    AppendAt(db, t, run, Accepted, st0, p0, p, first);
    p := p.(pc := ReadMax(RunStarted, LoadRun));
    AppendAt(db, t, run, RunStarted, st0, p0, p, first);
    p := p.(pc := LoadRun);
    result, loop, p := LoadContext(db, t, run, first, st0, p0, p);
  }

  /** The loop a task starts with, read off the rows; or the error, when there is no agent. */
  ghost predicate LoadedAs(st: S.Store, t: Id, row: Run, first: Id, result: Option<TaskResult>, loop: LoopState) {
    var agent := S.GetAgent(st, t, row.agent);
    if agent.None? then
      result == Some(Raised(RunNotFound))
    else
      && result.None?
      && loop.agent == row.agent && loop.maxIterations == agent.value.maxIterations
      && (loop.forced <==> CarriesSentinel(row.messages))
      && loop.first == (if S.ListAgentTools(st, t, row.agent) == {} then None else Some(first))
      && loop.iteration == 1 && loop.toolResults == 0 && !loop.triggerConsumed
  }

  /** The run, its agent, and the agent's tools. */
  method LoadContext(db: Database, t: Id, run: Id, first: Id, ghost st0: S.Store, ghost p0: Proc, ghost p1: Proc)
    returns (result: Option<TaskResult>, loop: LoopState, ghost p: Proc)
    requires Leads(st0, p0, db.Contents(), p1, first) && p1.run == Some(run) && p1.req.tenant == t && p1.pc.LoadRun?
    requires var row := S.GetRun(db.Contents(), t, run);
             row.Some? && S.ListAgentTools(db.Contents(), t, row.value.agent) != {} ==>
               first in S.ListAgentTools(db.Contents(), t, row.value.agent)
    ensures Leads(st0, p0, db.Contents(), p, first)
    ensures p == p1.(pc := p.pc)
    ensures result.Some? ==> p.pc.Quit? && result.value.Raised?
    ensures result.None? ==> p.pc == Decide(loop)
    ensures var st := db.Contents();
            var row := S.GetRun(st, t, run);
            if row.None? then result == Some(Raised(RunNotFound))
            else LoadedAs(st, t, row.value, first, result, loop)
  {
    p := p1;
    loop := FreshLoop(NIL, 0, None, false);
    LeadsLoadRun(st0, p0, db.Contents(), p, first);
    var row := db.GetRun(t, run);
    p := p.(pc := AfterLoadRun(row));
    if row.None? {
      return Some(Raised(RunNotFound)), loop, p;
    }
    LeadsLoadAgent(st0, p0, db.Contents(), p, first);
    ForcedExactly(row.value.messages);
    var agent := db.GetAgent(t, row.value.agent);
    p := p.(pc := AfterLoadAgent(row.value.agent, p.pc.forced, agent));
    if agent.None? {
      return Some(Raised(RunNotFound)), loop, p;
    }
    LeadsLoadTools(st0, p0, db.Contents(), p, first);
    var firstTool := db.FirstAgentTool(t, row.value.agent, first);
    loop := FreshLoop(row.value.agent, agent.value.maxIterations, firstTool, Forced(row.value.messages));
    p := p.(pc := Decide(loop));
    result := None;
  }

  /** Why a tool call is refused, if it is, in terms of the rows: the first check that fails decides. */
  ghost predicate RefusedFor(st: S.Store, t: Id, agent: Id, tool: Id, arguments: Arguments, refusal: Option<Reason>) {
    if !(tool in st.tools && st.tools[tool].tenant == t) then
      refusal == Some(ToolNotAllowedForAgent)
    else
      var row := st.tools[tool];
      match refusal
      case Some(ToolDeleted) => row.deleted
      case Some(ToolNotAllowedForAgent) => !row.deleted && Binding(t, agent, tool) !in st.bindings
      case Some(InvalidInputSchema) =>
        !row.deleted && Binding(t, agent, tool) in st.bindings && !row.schema.compiles
      case Some(InvalidToolArguments) =>
        !row.deleted && Binding(t, agent, tool) in st.bindings && row.schema.compiles
        && arguments !in row.schema.accepted
      case None =>
        !row.deleted && Binding(t, agent, tool) in st.bindings && row.schema.compiles
        && arguments in row.schema.accepted
      case _ => false
  }

  /** `authorize_tool_call` and `validate_tool_arguments`; the record is what `get_tool` returned, if usable. */
  method Authorize(db: Database, t: Id, loop: LoopState, tool: Id, arguments: Arguments)
    returns (refusal: Option<Reason>, record: Option<Tool>)
    ensures var found := S.GetTool(db.Contents(), t, tool);
            if AuthorizeFound(found).Some? then record.None? && refusal == AuthorizeFound(found)
            else
              && record == found && record.Some?
              && refusal == Checked(db.Contents(), t, loop, tool, arguments, record.value)
    ensures RefusedFor(db.Contents(), t, loop.agent, tool, arguments, refusal)
  {
    var found := db.GetTool(t, tool);
    refusal := AuthorizeFound(found);
    if refusal.Some? {
      return refusal, None;
    }
    record := found;
    var allowed := db.GetAgentToolIds(t, loop.agent);
    if tool !in allowed {
      return Some(ToolNotAllowedForAgent), record;
    }
    refusal := ValidateToolArguments(found.value.schema, arguments);
  }

  /** A tool call in the loop: refused and finalized, or executed and recorded. */
  method CallTool(db: Database, t: Id, run: Id, loop: LoopState, tool: Id, arguments: Arguments,
                  ghost st0: S.Store, ghost p0: Proc, ghost p1: Proc, ghost first: Id)
    returns (error: Option<TaskError>, ghost p: Proc)
    requires Leads(st0, p0, db.Contents(), p1, first) && p1.run == Some(run) && p1.req.tenant == t
    requires p1.pc == CheckTool(loop, tool, arguments)
    modifies db
    ensures Leads(st0, p0, db.Contents(), p, first)
    ensures p == p1.(pc := p.pc)
    ensures error.None? ==> p.pc == Decide(loop.(iteration := loop.iteration + 1, toolResults := loop.toolResults + 1))
    ensures error.Some? ==> if error.value.CallRefused? then p.pc.Done? else p.pc.Quit? && error.value.BadHandler?
    ensures error.Some? ==> Tells(db.Contents(), t, run, p.pc.Done?, Raised(error.value))
  {
    p := p1;
    LeadsCheckTool(st0, p0, db.Contents(), p, first);
    var refusal, record := Authorize(db, t, loop, tool, arguments);
    p := p.(pc := AfterFound(loop, tool, arguments, S.GetTool(db.Contents(), t, tool)));
    if record.Some? {
      LeadsCheckBinding(st0, p0, db.Contents(), p, first);
      p := p.(pc := AfterChecks(loop, tool, arguments, record.value, refusal));
    }
    error, p := Execute(db, t, run, loop, tool, arguments, refusal, record, st0, p0, p, first);
  }

  /** After the checks: the failing row and event, or the handler's response and its event. */
  method Execute(db: Database, t: Id, run: Id, loop: LoopState, tool: Id, arguments: Arguments,
                 refusal: Option<Reason>, record: Option<Tool>,
                 ghost st0: S.Store, ghost p0: Proc, ghost p1: Proc, ghost first: Id)
    returns (error: Option<TaskError>, ghost p: Proc)
    requires Leads(st0, p0, db.Contents(), p1, first) && p1.run == Some(run) && p1.req.tenant == t
    requires (refusal.Some? || record.Some?) && refusal != Some(MaxIterationsExceeded)
    requires p1.pc == if refusal.Some? then FailRun(refusal.value)
             else AfterChecks(loop, tool, arguments, record.value, None)
    modifies db
    ensures Leads(st0, p0, db.Contents(), p, first)
    ensures p == p1.(pc := p.pc)
    ensures error.None? ==> p.pc == Decide(loop.(iteration := loop.iteration + 1, toolResults := loop.toolResults + 1))
    ensures error.Some? ==> if error.value.CallRefused? then p.pc.Done? else p.pc.Quit? && error.value.BadHandler?
    ensures error.Some? ==> Tells(db.Contents(), t, run, p.pc.Done?, Raised(error.value))
  {
    p := p1;
    if refusal.Some? {
      EndWith(db, t, run, Failed, None, refusal, EndFailed(refusal.value), st0, p0, p, first);
      p := p.(pc := Done);
      return Some(CallRefused(refusal.value)), p;
    }
    var result := ExecuteMockHandler(record.value.handler);
    if result.None? {
      return Some(BadHandler), p;
    }
    AppendAt(db, t, run, ToolExec(tool, record.value.name, arguments, result.value), st0, p0, p, first);
    p := p.(pc := p.pc.k);
    error := None;
  }

  /** The model's decision, recorded in the trace: None when the agent has no tool to call. */
  method AskModel(db: Database, t: Id, run: Id, loop: LoopState, ghost st0: S.Store, ghost p0: Proc, ghost p1: Proc,
                  ghost first: Id)
    returns (decision: Option<LlmDecision>, ghost p: Proc)
    requires Leads(st0, p0, db.Contents(), p1, first) && p1.run == Some(run) && p1.req.tenant == t
    requires p1.pc == Decide(loop) && loop.iteration <= loop.maxIterations
    modifies db
    ensures Leads(st0, p0, db.Contents(), p, first)
    ensures p == p1.(pc := if decision.None? then Quit else AfterDecision(loop, decision.value).k)
    ensures decision.None? <==> Toolless(loop)
    ensures decision.Some? && decision.value.FinalAnswer? ==> decision.value.answer == FINAL_ANSWER
  {
    p := p1;
    var found: Option<Id> := None;
    if loop.forced && !loop.triggerConsumed {
      found := db.FindUnboundActiveTool(t, loop.agent);
    }
    LeadsDecision(st0, p0, db.Contents(), p, found, first);
    decision := MockLlmDecision(loop, found);
    p := p.(pc := if decision.None? then Quit else AfterDecision(loop, decision.value));
    if decision.Some? {
      AppendAt(db, t, run, DecisionEvent(loop.iteration, decision.value), st0, p0, p, first);
      p := p.(pc := p.pc.k);
    }
  }

  /** Doing what the model decided: None when the loop goes on. */
  method Act(db: Database, t: Id, run: Id, loop: LoopState, decision: LlmDecision,
             ghost st0: S.Store, ghost p0: Proc, ghost p1: Proc, ghost first: Id)
    returns (result: Option<TaskResult>, loop': LoopState, ghost p: Proc)
    requires Leads(st0, p0, db.Contents(), p1, first) && p1.run == Some(run) && p1.req.tenant == t
    requires p1.pc == AfterDecision(loop, decision).k && (decision.FinalAnswer? ==> decision.answer == FINAL_ANSWER)
    modifies db
    ensures Leads(st0, p0, db.Contents(), p, first)
    ensures p == p1.(pc := p.pc)
    ensures result.Some? ==> Over(p) && Tells(db.Contents(), t, run, p.pc.Done?, result.value)
    ensures result != Some(Raised(NoBoundTools)) && result != Some(Raised(RunNotFound))
    ensures result.None? ==> p.pc == Decide(loop') && loop'.first == loop.first
    ensures result.None? ==> loop'.iteration == loop.iteration + 1 && loop'.maxIterations == loop.maxIterations
  {
    p := p1;
    loop' := loop;
    match decision
    case FinalAnswer(answer) =>
      EndWith(db, t, run, Success, Some(answer), None, EndSuccess(answer), st0, p0, p, first);
      p := p.(pc := Done);
      result := Some(Returned);
    case ToolCall(tool, arguments) =>
      var triggered := loop.(triggerConsumed := loop.triggerConsumed || loop.forced);
      var error: Option<TaskError>;
      error, p := CallTool(db, t, run, triggered, tool, arguments, st0, p0, p, first);
      loop' := triggered.(iteration := loop.iteration + 1, toolResults := loop.toolResults + 1);
      result := if error.Some? then Some(Raised(error.value)) else None;
  }

  /** One iteration: None when the loop goes on. */
  method Iterate(db: Database, t: Id, run: Id, loop: LoopState, ghost st0: S.Store, ghost p0: Proc, ghost p1: Proc,
                 ghost first: Id)
    returns (result: Option<TaskResult>, loop': LoopState, ghost p: Proc)
    requires Leads(st0, p0, db.Contents(), p1, first) && p1.run == Some(run) && p1.req.tenant == t
    requires p1.pc == Decide(loop) && loop.iteration <= loop.maxIterations
    modifies db
    ensures Leads(st0, p0, db.Contents(), p, first)
    ensures p == p1.(pc := p.pc)
    ensures result.Some? ==> Over(p) && Tells(db.Contents(), t, run, p.pc.Done?, result.value)
    ensures result == Some(Raised(NoBoundTools)) <==> Toolless(loop)
    ensures result != Some(Raised(RunNotFound))
    ensures result.None? ==> p.pc == Decide(loop') && loop'.first == loop.first
    ensures result.None? ==> loop'.iteration == loop.iteration + 1 && loop'.maxIterations == loop.maxIterations
  {
    var decision;
    decision, p := AskModel(db, t, run, loop, st0, p0, p1, first);
    if decision.None? {
      return Some(Raised(NoBoundTools)), loop, p;
    }
    result, loop', p := Act(db, t, run, loop, decision.value, st0, p0, p, first);
  }

  /** The loop and what follows when it runs out of iterations. */
  method RunLoop(db: Database, t: Id, run: Id, loop0: LoopState, ghost st0: S.Store, ghost p0: Proc, ghost p1: Proc,
                 ghost first: Id)
    returns (result: TaskResult, ghost p: Proc)
    requires Leads(st0, p0, db.Contents(), p1, first) && p1.run == Some(run) && p1.req.tenant == t
             && p1.pc == Decide(loop0)
    modifies db
    ensures Leads(st0, p0, db.Contents(), p, first)
    ensures Over(p) && p == p1.(pc := p.pc) && Tells(db.Contents(), t, run, p.pc.Done?, result)
    ensures result == Raised(NoBoundTools) ==> loop0.first.None?
    ensures Toolless(loop0) && loop0.iteration <= loop0.maxIterations ==> result == Raised(NoBoundTools)
    ensures result != Raised(RunNotFound)
  {
    p := p1;
    var loop := loop0;
    while loop.iteration <= loop.maxIterations
      invariant Leads(st0, p0, db.Contents(), p, first)
      invariant p == p1.(pc := Decide(loop)) && loop.first == loop0.first && loop.maxIterations == loop0.maxIterations
      invariant Toolless(loop0) && loop0.iteration <= loop0.maxIterations ==> loop == loop0
      decreases loop.maxIterations - loop.iteration
    {
      var early;
      early, loop, p := Iterate(db, t, run, loop, st0, p0, p, first);
      if early.Some? {
        return early.value, p;
      }
    }
    LeadsExhausted(st0, p0, db.Contents(), p, first);
    p := p.(pc := FailRun(MaxIterationsExceeded));
    EndWith(db, t, run, Failed, None, Some(MaxIterationsExceeded), EndFailed(MaxIterationsExceeded), st0, p0, p, first);
    p := p.(pc := Done);
    result := Returned;
  }

  /**
   What the result says of a task: Ok exactly if it was too late, had the answer or ran out of iterations; a refused
   call with the reason that the trace ends with; and otherwise why there is no `run_end`.
   */
  ghost predicate ResultFits(st0: S.Store, st: S.Store, t: Id, run: Id, p: Proc, result: TaskResult) {
    if !S.CanBegin(st0, t, run) then result == Returned && st == st0
    else
      var row := st0.runs[run];
      var agent, tools := S.GetAgent(st0, t, row.agent), S.ListAgentTools(st0, t, row.agent);
      && Tells(st, t, run, p.pc.Done?, result)
      && (result == Raised(RunNotFound) <==> agent.None?)
      && (result == Raised(NoBoundTools) ==> tools == {})
      && (agent.Some? && tools == {} && !CarriesSentinel(row.messages) && agent.value.maxIterations >= 1 ==>
            result == Raised(NoBoundTools))
  }

  /**
   The whole task, alone on the tables. `first` is the tool that the listing of bound tools puts first.
   Its effect is one of the fault-free executions of the protocol's process, run to its end.
   */
  method ExecuteRun(db: Database, t: Id, run: Id, first: Id, ghost req: Request)
    returns (result: TaskResult, ghost p: Proc)
    requires req.tenant == t
    requires var row := S.GetRun(db.Contents(), t, run);
             row.Some? && S.ListAgentTools(db.Contents(), t, row.value.agent) != {} ==>
               first in S.ListAgentTools(db.Contents(), t, row.value.agent)
    modifies db
    ensures Leads(old(db.Contents()), Spawned(req, run), db.Contents(), p, first)
    ensures Over(p) && p == Spawned(req, run).(pc := p.pc)
    ensures ResultFits(old(db.Contents()), db.Contents(), t, run, p, result)
  {
    var early, loop;
    early, loop, p := Prepare(db, t, run, first, Spawned(req, run));
    if early.Some? {
      return early.value, p;
    }
    result, p := RunLoop(db, t, run, loop, old(db.Contents()), Spawned(req, run), p, first);
  }
}
