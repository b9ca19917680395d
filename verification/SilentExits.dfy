/** Exactly when a task leaves its run unfinished, under every interleaving. */
module SilentExits {
  import opened Domain
  import opened Store
  import opened Decisions
  import opened Protocol
  import opened RunInvariant
  import opened RunSteps
  import opened StatementSteps
  import opened Invariant
  import opened Safety
  import opened Completion
  import opened Deletion
  import opened Solo
  import opened Interleaving

  /** The tool that a listing of bound tools puts first, if there is one. */
  function FirstBound(st: Store, t: Id, a: Id, first: Id): Option<Id> {
    if ListAgentTools(st, t, a) == {} then None else Some(first)
  }

  /** `first` is a possible first row of the listing of bound tools. */
  predicate Listed(st: Store, t: Id, a: Id, first: Id) {
    ListAgentTools(st, t, a) == {} || first in ListAgentTools(st, t, a)
  }

  /** There is no tool to call, or the first call passes its schema and meets a handler that cannot respond. */
  predicate Unresponsive(st: Store, t: Id, a: Id, first: Id) {
    match FirstBound(st, t, a, first)
    case None => true
    case Some(x) =>
      && x in st.tools && st.tools[x].tenant == t
      && st.tools[x].schema.compiles && Lookup(0) in st.tools[x].schema.accepted && !st.tools[x].handler.Static?
  }

  /** The task of an unforced run gets as far as that: a tool to call, if there is one, is not deleted. */
  predicate Silent(st: Store, t: Id, a: Id, first: Id, forced: bool) {
    !forced && Unresponsive(st, t, a, first) && (ListAgentTools(st, t, a) != {} ==> ActiveTool(st, t, first))
  }

  /** The loop calls the listing's first tool; having executed it once, it has not come across a bad handler. */
  predicate LoopLeans(st: Store, t: Id, a: Id, first: Id, silent: bool, loop: LoopState) {
    && loop.first == FirstBound(st, t, a, first)
    && (loop.toolResults > 0 ==> !silent && first in st.tools && st.tools[first].handler.Static?)
  }

  /** Where the program may stand, given whether it is bound to end silently. */
  predicate Leans(st: Store, t: Id, a: Id, first: Id, forced: bool, silent: bool, pc: Pc) {
    match pc
    case ReadMax(_, k) => Leans(st, t, a, first, forced, silent, k)
    case InsertRow(_, _, k) => Leans(st, t, a, first, forced, silent, k)
    case BeginExecution => true
    case LoadRun => true
    case LoadAgent(_, _) => true
    case LoadTools(_, _, _) => true
    case Decide(loop) => LoopLeans(st, t, a, first, silent, loop)
    case CheckTool(loop, _, _) => LoopLeans(st, t, a, first, silent, loop)
    case CheckBinding(loop, _, _, _) =>
      LoopLeans(st, t, a, first, silent, loop) && (!forced && Unresponsive(st, t, a, first) ==> silent)
    case Finalize(_, _, _, k) => !silent && Leans(st, t, a, first, forced, silent, k)
    case Done => !silent
    case Quit => silent
    case _ => false
  }

  /** What the tables say now, given whether the task is bound to end silently. */
  predicate Expects(st: Store, t: Id, a: Id, first: Id, forced: bool, silent: bool) {
    && (silent ==> !forced && Unresponsive(st, t, a, first))
    && (Silent(st, t, a, first, forced) ==> silent)
  }

  /** The process at work. */
  ghost predicate Leaning(st: Store, p: Proc, first: Id, silent: bool)
    requires p.run.Some? && p.run.value in st.runs
  {
    var forced := Forced(st.runs[p.run.value].messages);
    && Expects(st, p.req.tenant, p.req.agent, first, forced, silent)
    && Leans(st, p.req.tenant, p.req.agent, first, forced, silent, p.pc)
  }

  /** A run that will be left unfinished is pending at the first statement of its task, and running ever after. */
  predicate RowLeans(row: Run, pc: Pc, silent: bool) {
    silent ==> if pc.BeginExecution? then row.status.Pending? else row.status.Running?
  }

  ghost predicate LeanSoFar(st: Store, p: Proc, first: Id, silent: bool) {
    p.run.Some? && p.run.value in st.runs && Leaning(st, p, first, silent)
      && RowLeans(st.runs[p.run.value], p.pc, silent)
  }

  // ---- reads

  lemma FailLeans(st: Store, t: Id, a: Id, first: Id, forced: bool, reason: Reason)
    ensures Leans(st, t, a, first, forced, false, FailRun(reason))
  {
    assert Leans(st, t, a, first, forced, false, EndRun(EndFailed(reason)));
  }

  lemma DecideLeans(st: Store, p: Proc, c: Choice, first: Id, silent: bool)
    requires p.run.Some? && PlaceOk(st, p) && p.pc.Decide? && Leaning(st, p, first, silent) && AgentChecks(st)
    ensures Leaning(st, p.(pc := DecideNext(st, p.req.tenant, p.pc.loop, c)), first, silent)
  {
    var t, a, loop := p.req.tenant, p.req.agent, p.pc.loop;
    if loop.iteration > loop.maxIterations {
      FailLeans(st, t, a, first, loop.forced, MaxIterationsExceeded);
    } else if loop.forced || loop.toolResults < 2 {
      var unbound := if UnboundActiveTools(st, t, loop.agent) == {} then None else Some(c.id);
      var decision := MockLlmDecision(loop, unbound);
      if decision.Some? {
        var next := CheckTool(loop.(triggerConsumed := loop.triggerConsumed || loop.forced), decision.value.tool,
          decision.value.arguments);
        assert Leans(st, t, a, first, loop.forced, silent, next);
        assert AfterDecision(loop, decision.value) == ReadMax(DecisionEvent(loop.iteration, decision.value), next);
      }
    } else {
      assert Leans(st, t, a, first, loop.forced, silent, EndRun(EndSuccess(FINAL_ANSWER)));
      assert Leans(st, t, a, first, loop.forced, silent, FinishRun(FINAL_ANSWER));
      assert DecideNext(st, t, loop, c) == ReadMax(LlmCall(loop.iteration, None, false), FinishRun(FINAL_ANSWER));
    }
  }

  /** The process is about to read its tool's row, and the tool, one that its agent is offered, has been deleted. */
  predicate AtDeleted(st: Store, p: Proc, first: Id) {
    p.pc.CheckTool? && p.pc.tool == first && OfferedDeleted(st, p.req.tenant, p.req.agent, first)
  }

  predicate OfferedDeleted(st: Store, t: Id, a: Id, x: Id) {
    x in ListAgentTools(st, t, a) && DeletedTool(st, x)
  }

  /** A task that comes across the deletion of its tool ends with that reason instead. */
  lemma CheckToolLeans(st: Store, p: Proc, c: Choice, first: Id, silent: bool)
    requires p.run.Some? && PlaceOk(st, p) && p.pc.CheckTool? && Leaning(st, p, first, silent) && !c.dbError
    requires BindingKeys(st) && Listed(st, p.req.tenant, p.req.agent, first)
    ensures Leaning(st, p.(pc := CheckToolNext(st, p.req.tenant, p.pc.loop, p.pc.tool, p.pc.arguments, c)), first,
                    silent && !AtDeleted(st, p, first))
  {
    var t, a, loop := p.req.tenant, p.req.agent, p.pc.loop;
    var refusal := AuthorizeFound(GetTool(st, t, p.pc.tool));
    if refusal.Some? {
      assert !(silent && !AtDeleted(st, p, first));
      FailLeans(st, t, a, first, loop.forced, refusal.value);
    }
  }

  lemma CheckBindingLeans(st: Store, p: Proc, c: Choice, first: Id, silent: bool)
    requires p.run.Some? && PlaceOk(st, p) && p.pc.CheckBinding? && Leaning(st, p, first, silent) && !c.dbError
    ensures Leaning(st, p.(pc := CheckBindingNext(st, p.req.tenant, p.pc.loop, p.pc.tool, p.pc.arguments, p.pc.record,
            c)), first, silent)
  {
    var t, a, loop := p.req.tenant, p.req.agent, p.pc.loop;
    if loop.forced {
      FailLeans(st, t, a, first, true, ToolNotAllowedForAgent);
    } else {
      assert Binding(t, a, p.pc.tool) in st.bindings && p.pc.tool in AgentToolIds(st, t, loop.agent);
      var refusal := ValidateToolArguments(p.pc.record.schema, p.pc.arguments);
      if refusal.Some? {
        FailLeans(st, t, a, first, false, refusal.value);
      }
    }
  }

  lemma LoadLeans(st: Store, p: Proc, c: Choice, first: Id, silent: bool)
    requires Lookups(st) && RunKeys(st) && p.run.Some? && PlaceOk(st, p) && Leaning(st, p, first, silent)
    requires Regular(st, p, c, first)
    requires p.pc.ReadMax? || p.pc.LoadRun? || p.pc.LoadAgent? || p.pc.LoadTools?
    ensures Leaning(st, p.(pc := ReadNext(st, p.req.tenant, p.run.value, p.pc, c)), first, silent)
  {
  }

  lemma ReadLeans(st: Store, p: Proc, c: Choice, first: Id, silent: bool)
    requires Lookups(st) && RunKeys(st) && p.run.Some? && PlaceOk(st, p) && Leaning(st, p, first, silent)
    requires Regular(st, p, c, first) && Reads(p.pc) && Listed(st, p.req.tenant, p.req.agent, first)
    ensures Leaning(st, p.(pc := ReadNext(st, p.req.tenant, p.run.value, p.pc, c)), first,
            silent && !AtDeleted(st, p, first))
  {
    if p.pc.Decide? {
      DecideLeans(st, p, c, first, silent);
    } else if p.pc.CheckTool? {
      CheckToolLeans(st, p, c, first, silent);
    } else if p.pc.CheckBinding? {
      CheckBindingLeans(st, p, c, first, silent);
    } else {
      LoadLeans(st, p, c, first, silent);
    }
  }

  // ---- changes of the tables

  /** The tables say the same about the agent's tools, deletions apart. */
  ghost predicate SameOffer(st: Store, st': Store, t: Id, a: Id, first: Id) {
    && FirstBound(st', t, a, first) == FirstBound(st, t, a, first)
    && (Unresponsive(st', t, a, first) <==> Unresponsive(st, t, a, first))
    && (first in st.tools ==> first in st'.tools && st'.tools[first].handler == st.tools[first].handler)
  }

  lemma {:induction false} LeansStays(st: Store, st': Store, t: Id, a: Id, first: Id, forced: bool, silent: bool,
                                      pc: Pc)
    requires SameOffer(st, st', t, a, first) && Leans(st, t, a, first, forced, silent, pc)
    ensures Leans(st', t, a, first, forced, silent, pc)
    decreases pc
  {
    match pc
    case ReadMax(_, k) => LeansStays(st, st', t, a, first, forced, silent, k);
    case InsertRow(_, _, k) => LeansStays(st, st', t, a, first, forced, silent, k);
    case Finalize(_, _, _, k) => LeansStays(st, st', t, a, first, forced, silent, k);
    case _ =>
  }

  // ---- writes

  lemma InsertLeans(st: Store, p: Proc, first: Id, silent: bool)
    requires p.run.Some? && PlaceOk(st, p) && p.pc.InsertRow? && RunOk(st, p.run.value)
             && LeanSoFar(st, p, first, silent)
    ensures var (st', pc') := WriteNext(st, p.req.tenant, p.run.value, p.pc);
            LeanSoFar(st', p.(pc := pc'), first, silent)
  {
    InsertRowStep(st, p);
    var (st', pc') := WriteNext(st, p.req.tenant, p.run.value, p.pc);
    LeansStays(st, st', p.req.tenant, p.req.agent, first, Forced(st.runs[p.run.value].messages), silent, pc');
    assert !pc'.BeginExecution? by {
      assert ReadyAppend(st, p.req.tenant, p.req.agent, SpecOf(st, st.runs[p.run.value]), p.pc.event, pc',
                         st.runs[p.run.value], PhaseIn(st, p.run.value));
    }
  }

  lemma BeginLeans(st: Store, p: Proc, first: Id, silent: bool)
    requires p.run.Some? && PlaceOk(st, p) && p.pc.BeginExecution? && RunOk(st, p.run.value)
             && LeanSoFar(st, p, first, silent)
    ensures var (st', pc') := WriteNext(st, p.req.tenant, p.run.value, p.pc);
            LeanSoFar(st', p.(pc := pc'), first, silent)
  {
    BeginStep(st, p);
    assert Leans(BeginRunExecution(st, p.req.tenant, p.run.value), p.req.tenant, p.req.agent, first,
                 Forced(st.runs[p.run.value].messages), silent, ReadMax(RunStarted, LoadRun));
  }

  lemma FinalizeLeans(st: Store, p: Proc, first: Id, silent: bool)
    requires p.run.Some? && PlaceOk(st, p) && p.pc.Finalize? && LeanSoFar(st, p, first, silent)
    ensures var (st', pc') := WriteNext(st, p.req.tenant, p.run.value, p.pc);
            LeanSoFar(st', p.(pc := pc'), first, silent)
  {
    var (st', pc') := WriteNext(st, p.req.tenant, p.run.value, p.pc);
    LeansStays(st, st', p.req.tenant, p.req.agent, first, Forced(st.runs[p.run.value].messages), silent, pc');
  }

  lemma WriteLeans(st: Store, p: Proc, first: Id, silent: bool)
    requires p.run.Some? && PlaceOk(st, p) && Writes(p.pc) && RunOk(st, p.run.value) && LeanSoFar(st, p, first, silent)
    ensures var (st', pc') := WriteNext(st, p.req.tenant, p.run.value, p.pc);
            LeanSoFar(st', p.(pc := pc'), first, silent)
  {
    if p.pc.InsertRow? {
      InsertLeans(st, p, first, silent);
    } else if p.pc.BeginExecution? {
      BeginLeans(st, p, first, silent);
    } else {
      FinalizeLeans(st, p, first, silent);
    }
  }

  // ---- one action

  lemma KindLeans(st: Store, p: Proc, c: Choice, o: Outcome, first: Id, silent: bool)
    requires Lookups(st) && RunKeys(st) && p.run.Some? && PlaceOk(st, p) && RunOk(st, p.run.value)
    requires Regular(st, p, c, first) && ByKind(st, p, c, o)
    requires LeanSoFar(st, p, first, silent) && Listed(st, p.req.tenant, p.req.agent, first)
    ensures o.proc == p.(pc := o.proc.pc) && LeanSoFar(o.store, o.proc, first, silent && !AtDeleted(st, p, first))
  {
    if Writes(p.pc) {
      WriteLeans(st, p, first, silent);
    } else {
      ReadLeans(st, p, c, first, silent);
    }
  }

  lemma OwnLeans(st: Store, limit: nat, sems: map<Id, int>, p: Proc, c: Choice, first: Id, silent: bool)
    requires StoreOk(st) && p.run.Some? && PlaceOk(st, p) && !p.pc.Lost? && Regular(st, p, c, first)
    requires LeanSoFar(st, p, first, silent) && Listed(st, p.req.tenant, p.req.agent, first)
    ensures var o := Advance(st, limit, sems, p, c);
            o.proc == p.(pc := o.proc.pc) && LeanSoFar(o.store, o.proc, first, silent && !AtDeleted(st, p, first))
  {
    AdvanceByKind(st, limit, sems, p, c);
    KindLeans(st, p, c, Advance(st, limit, sems, p, c), first, silent);
  }

  /** The task is under way, bound to end silently or not. */
  ghost predicate Undecided(core: Core, pid: Id, run: Id, req: Request, first: Id, silent: bool) {
    && WorksOn(core, pid, run) && !core.procs[pid].pc.Lost? && core.procs[pid].req == req
    && LeanSoFar(core.store, core.procs[pid], first, silent)
    && Listed(core.store, req.tenant, req.agent, first)
  }

  /** The task is gone; it has completed its run, or has left it running. */
  ghost predicate Decided(core: Core, run: Id, silent: bool) {
    if silent then run in core.store.runs && core.store.runs[run].status.Running? && Nobody(core, run)
    else Completed(core.store, run)
  }

  ghost predicate UndecidedOrDecided(core: Core, pid: Id, run: Id, req: Request, first: Id, silent: bool) {
    Undecided(core, pid, run, req, first, silent) || Decided(core, run, silent)
  }

  lemma LeanPc(st: Store, p: Proc, c: Choice, first: Id, silent: bool)
    requires p.run.Some? && PlaceOk(st, p) && !p.pc.Lost? && LeanSoFar(st, p, first, silent)
    requires Admissible(st, p, c) && !c.dbError && Picks(st, p, c, first)
    ensures Regular(st, p, c, first)
  {
    OwnerPc(st, p);
  }

  lemma CommitLeans(core: Core, pid: Id, o: Outcome, run: Id, first: Id, silent: bool)
    requires pid in core.procs && Exclusive(core.procs) && core.procs[pid].run == Some(run) && o.proc.run == Some(run)
    requires LeanSoFar(o.store, o.proc, first, silent) && !o.proc.pc.Lost?
    requires Listed(o.store, o.proc.req.tenant, o.proc.req.agent, first)
    requires o.proc.pc.Done? ==> Completed(o.store, run)
    ensures UndecidedOrDecided(Commit(core, pid, o), pid, run, o.proc.req, first, silent)
  {
    var core' := Commit(core, pid, o);
    if Over(o.proc) {
      forall q | q in core'.procs ensures !WorksOn(core', q, run) {
        assert q in core.procs && q != pid;
      }
    }
  }

  /** The action is the run's process reading the row of its tool, which has been deleted. */
  predicate SeesDeleted(core: Core, a: Action, run: Id, first: Id) {
    a.Move? && WorksOn(core, a.pid, run) && AtDeleted(core.store, core.procs[a.pid], first)
  }

  lemma OwnKeepsUndecided(core: Core, pid: Id, c: Choice, run: Id, req: Request, first: Id, silent: bool)
    requires CoreInv(core) && Enabled(core, Move(pid, c)) && Undecided(core, pid, run, req, first, silent)
    requires !c.dbError && Picks(core.store, core.procs[pid], c, first)
    ensures UndecidedOrDecided(Apply(core, Move(pid, c)), pid, run, req, first,
                               silent && !SeesDeleted(core, Move(pid, c), run, first))
  {
    var p, o := core.procs[pid], MoveOf(core, pid, c);
    assert ProcOk(core.store, p);
    LeanPc(core.store, p, c, first, silent);
    OwnLeans(core.store, core.limit, core.sems, p, c, first, silent);
    OwnerMoves(core.store, core.limit, core.sems, p, c);
    if o.proc.pc.Done? {
      EndedIsCompleted(o.store, run);
    }
    NeverLost(core.store, core.limit, core.sems, p, c);
    MovesKeepTables(core.store, core.limit, core.sems, p, c);
    CommitLeans(core, pid, o, run, first, silent && !AtDeleted(core.store, p, first));
  }

  lemma ListingStays(st: Store, st': Store, a: Action, t: Id, agent: Id)
    requires BindingKeys(st) && agent in st.agents && Grows(st, st') && ToolsKept(st, st', a)
    ensures ListAgentTools(st', t, agent) == ListAgentTools(st, t, agent)
  {
    forall x | x in ListAgentTools(st', t, agent) ensures x in ListAgentTools(st, t, agent) {
      assert Binding(t, agent, x) in st.bindings;
    }
  }

  /** Nothing but a deletion changes what the agent's tools are. */
  lemma OfferStays(st: Store, st': Store, a: Action, t: Id, agent: Id, first: Id)
    requires BindingKeys(st) && agent in st.agents && Grows(st, st') && ToolsKept(st, st', a)
    requires Listed(st, t, agent, first)
    ensures SameOffer(st, st', t, agent, first) && Listed(st', t, agent, first)
  {
    ListingStays(st, st', a, t, agent);
  }

  lemma ExpectsStays(st: Store, st': Store, a: Action, t: Id, agent: Id, first: Id, forced: bool, silent: bool)
    requires BindingKeys(st) && agent in st.agents && Grows(st, st') && ToolsKept(st, st', a)
    requires Listed(st, t, agent, first) && Expects(st, t, agent, first, forced, silent)
    ensures Expects(st', t, agent, first, forced, silent)
  {
    OfferStays(st, st', a, t, agent, first);
    ListingStays(st, st', a, t, agent);
  }

  lemma OthersKeepUndecided(w: World, a: Action, pid: Id, run: Id, req: Request, first: Id, silent: bool)
    requires Inv(w) && EnabledIn(w, a) && Undecided(w.core, pid, run, req, first, silent) && OfOthers(w.core, a, run)
    ensures Undecided(ApplyIn(w, a).core, pid, run, req, first, silent)
  {
    var st, st', p := w.core.store, ApplyIn(w, a).core.store, w.core.procs[pid];
    var forced := Forced(st.runs[run].messages);
    assert ProcOk(st, p);
    OthersKeepRun(w, a, run);
    OthersKeepProcess(w, a, pid, run);
    OfferStays(st, st', a, p.req.tenant, p.req.agent, first);
    ExpectsStays(st, st', a, p.req.tenant, p.req.agent, first, forced, silent);
    LeansStays(st, st', p.req.tenant, p.req.agent, first, forced, silent, p.pc);
  }

  lemma StepDecides(w: World, a: Action, pid: Id, run: Id, req: Request, first: Id, silent: bool)
    requires Inv(w) && EnabledIn(w, a) && Spares(w.core, a, run, first)
    requires Undecided(w.core, pid, run, req, first, silent)
    ensures UndecidedOrDecided(ApplyIn(w, a).core, pid, run, req, first, silent && !SeesDeleted(w.core, a, run, first))
  {
    OwnOrOther(w, a, pid, run);
    if OfOthers(w.core, a, run) {
      OthersKeepUndecided(w, a, pid, run, req, first, silent);
    } else {
      OwnKeepsUndecided(w.core, pid, a.c, run, req, first, silent);
    }
  }

  /** Whatever happens afterwards, faults included, the outcome stays. */
  lemma DecidedStays(w: World, a: Action, run: Id, silent: bool)
    requires Inv(w) && EnabledIn(w, a) && Decided(w.core, run, silent)
    ensures Decided(ApplyIn(w, a).core, run, silent)
  {
    if silent {
      StepNobody(w, a, run);
    } else {
      CompletedStays(w, a, run);
    }
  }

  lemma {:induction false} DecidedForGood(w: World, acts: seq<Action>, run: Id, silent: bool)
    requires Inv(w) && Playable(w, acts) && Decided(w.core, run, silent)
    ensures Decided(Play(w, acts).core, run, silent)
    decreases |acts|
  {
    if acts != [] {
      DecidedStays(w, acts[0], run, silent);
      StepKeeps(w, acts[0]);
      DecidedForGood(ApplyIn(w, acts[0]), acts[1..], run, silent);
    }
  }

  // ---- executions

  /** At some point of the execution the run's process came across the deletion of its tool. */
  ghost predicate SawDeleted(w: World, acts: seq<Action>, run: Id, first: Id)
    requires Playable(w, acts)
    decreases |acts|
  {
    acts != [] && (SeesDeleted(w.core, acts[0], run, first) || SawDeleted(ApplyIn(w, acts[0]), acts[1..], run, first))
  }

  lemma {:induction false} Decides(w: World, acts: seq<Action>, pid: Id, run: Id, req: Request, first: Id, silent: bool)
    requires Inv(w) && Playable(w, acts) && AllSpare(w, acts, run, first, false)
    requires UndecidedOrDecided(w.core, pid, run, req, first, silent)
    ensures UndecidedOrDecided(Play(w, acts).core, pid, run, req, first, silent && !SawDeleted(w, acts, run, first))
    decreases |acts|
  {
    if acts != [] {
      if Undecided(w.core, pid, run, req, first, silent) {
        StepDecides(w, acts[0], pid, run, req, first, silent);
      } else {
        DecidedStays(w, acts[0], run, silent);
      }
      StepKeeps(w, acts[0]);
      Decides(ApplyIn(w, acts[0]), acts[1..], pid, run, req, first,
        silent && !SeesDeleted(w.core, acts[0], run, first));
    }
  }

  lemma StartsUndecided(w: World, pid: Id, first: Id)
    requires Inv(w) && pid in w.core.procs && w.core.procs[pid].pc.BeginExecution?
    requires Listed(w.core.store, w.core.procs[pid].req.tenant, w.core.procs[pid].req.agent, first)
    ensures var p := w.core.procs[pid];
            && p.run.Some?
            && Undecided(w.core, pid, p.run.value, p.req, first,
                         Silent(w.core.store, p.req.tenant, p.req.agent, first, Forced(p.req.messages)))
  {
    assert ProcOk(w.core.store, w.core.procs[pid]);
  }

  lemma RunningHasNoEnd(st: Store, run: Id)
    requires run in st.runs && RunOk(st, run) && st.runs[run].status.Running?
    ensures forall i :: 0 <= i < |LogOf(st, run)| ==> !IsEnd(LogOf(st, run)[i])
    ensures !Completed(st, run)
  {
    forall i | 0 <= i < |LogOf(st, run)| ensures !IsEnd(LogOf(st, run)[i]) {
      if IsEnd(LogOf(st, run)[i]) {
        EndIsLast(SpecOf(st, st.runs[run]), LogOf(st, run), i);
      }
    }
  }

  // ---- when a task can come across a deletion

  lemma OfferedDeletedLasts(w: World, a: Action, t: Id, agent: Id, x: Id)
    requires Inv(w) && EnabledIn(w, a) && OfferedDeleted(w.core.store, t, agent, x)
    ensures OfferedDeleted(ApplyIn(w, a).core.store, t, agent, x)
  {
    AgentsOnlyGrow(w, a);
    assert Binding(t, agent, x) in w.core.store.bindings;
  }

  lemma {:induction false} OfferedDeletedForGood(w: World, acts: seq<Action>, t: Id, agent: Id, x: Id)
    requires Inv(w) && Playable(w, acts) && OfferedDeleted(w.core.store, t, agent, x)
    ensures OfferedDeleted(Play(w, acts).core.store, t, agent, x)
    decreases |acts|
  {
    if acts != [] {
      OfferedDeletedLasts(w, acts[0], t, agent, x);
      StepKeeps(w, acts[0]);
      OfferedDeletedForGood(ApplyIn(w, acts[0]), acts[1..], t, agent, x);
    }
  }

  /** A tool that the process has found deleted is deleted from then on. */
  lemma {:induction false} SawIsDeleted(w: World, acts: seq<Action>, pid: Id, run: Id, req: Request, first: Id,
                                        silent: bool)
    requires Inv(w) && Playable(w, acts) && AllSpare(w, acts, run, first, false)
    requires UndecidedOrDecided(w.core, pid, run, req, first, silent) && silent
    requires SawDeleted(w, acts, run, first)
    ensures OfferedDeleted(Play(w, acts).core.store, req.tenant, req.agent, first)
    decreases |acts|
  {
    var w1 := ApplyIn(w, acts[0]);
    StepKeeps(w, acts[0]);
    if SeesDeleted(w.core, acts[0], run, first) {
      OfferedDeletedLasts(w, acts[0], req.tenant, req.agent, first);
      OfferedDeletedForGood(w1, acts[1..], req.tenant, req.agent, first);
    } else {
      if Undecided(w.core, pid, run, req, first, silent) {
        StepDecides(w, acts[0], pid, run, req, first, silent);
      } else {
        DecidedStays(w, acts[0], run, silent);
      }
      SawIsDeleted(w1, acts[1..], pid, run, req, first, silent);
    }
  }

  /** A tool that is not deleted, and is kept, is not deleted in the end either. */
  lemma {:induction false} KeptToolStays(w: World, acts: seq<Action>, run: Id, t: Id, agent: Id, first: Id)
    requires Inv(w) && Playable(w, acts) && AllSpare(w, acts, run, first, true) && agent in w.core.store.agents
    requires !OfferedDeleted(w.core.store, t, agent, first)
    ensures !OfferedDeleted(Play(w, acts).core.store, t, agent, first)
    decreases |acts|
  {
    if acts != [] {
      var st, st' := w.core.store, ApplyIn(w, acts[0]).core.store;
      AgentsOnlyGrow(w, acts[0]);
      AnyKeepsTools(w.core, acts[0]);
      ListingStays(st, st', acts[0], t, agent);
      StepKeeps(w, acts[0]);
      KeptToolStays(ApplyIn(w, acts[0]), acts[1..], run, t, agent, first);
    }
  }

  // ---- the outcome

  /** A task about to start, and whether it is silent. */
  ghost predicate Starts(w: World, pid: Id, run: Id, req: Request, first: Id, silent: bool) {
    && pid in w.core.procs && w.core.procs[pid].pc.BeginExecution?
    && w.core.procs[pid].run == Some(run) && w.core.procs[pid].req == req
    && Listed(w.core.store, req.tenant, req.agent, first)
    && silent == Silent(w.core.store, req.tenant, req.agent, first, Forced(req.messages))
  }

  /** The execution takes the task, without a fault of its own, to where it is gone. */
  ghost predicate Finishes(w: World, acts: seq<Action>, pid: Id, run: Id, first: Id) {
    Playable(w, acts) && AllSpare(w, acts, run, first, false) && !WorksOn(Play(w, acts).core, pid, run)
  }

  lemma GoneDecided(w: World, acts: seq<Action>, pid: Id, run: Id, req: Request, first: Id, silent: bool)
    requires Inv(w) && Starts(w, pid, run, req, first, silent) && Finishes(w, acts, pid, run, first)
    ensures Decided(Play(w, acts).core, run, silent && !SawDeleted(w, acts, run, first))
    ensures silent && SawDeleted(w, acts, run, first) ==>
            OfferedDeleted(Play(w, acts).core.store, req.tenant, req.agent, first)
  {
    StartsUndecided(w, pid, first);
    Decides(w, acts, pid, run, req, first, silent);
    if silent && SawDeleted(w, acts, run, first) {
      SawIsDeleted(w, acts, pid, run, req, first, silent);
    }
  }

  /** The outcome in a world, for good: completed, or left running by everybody, without a `run_end`. */
  lemma OutcomeOf(w: World, run: Id, silent: bool)
    requires Inv(w) && Decided(w.core, run, silent)
    ensures Completed(w.core.store, run) <==> !silent
    ensures silent ==> forall i :: 0 <= i < |LogOf(w.core.store, run)| ==> !IsEnd(LogOf(w.core.store, run)[i])
  {
    if silent {
      RunningHasNoEnd(w.core.store, run);
    }
  }

  /**
   A task that meets no fault of its own, whatever other requests, faults, deletions and new agents there
   are around it, completes its run exactly if it is not silent when it starts, or has found its tool
   deleted when it read the tool's row. Otherwise the run is left `running` by everybody and without a
   `run_end`. Whatever happens `later`, once the task is gone, changes nothing of that, deletions included.
   */
  lemma CompletesUnlessSilent(w: World, acts: seq<Action>, later: seq<Action>,
                              pid: Id, run: Id, req: Request, first: Id, silent: bool)
    requires Reachable(w) && Starts(w, pid, run, req, first, silent) && Finishes(w, acts, pid, run, first)
    requires Playable(Play(w, acts), later)
    ensures Completed(Play(Play(w, acts), later).core.store, run) <==> !silent || SawDeleted(w, acts, run, first)
    ensures silent && SawDeleted(w, acts, run, first) ==>
            OfferedDeleted(Play(w, acts).core.store, req.tenant, req.agent, first)
    ensures var core := Play(Play(w, acts), later).core;
            !Completed(core.store, run) ==>
              && run in core.store.runs && core.store.runs[run].status.Running? && Nobody(core, run)
              && forall i :: 0 <= i < |LogOf(core.store, run)| ==> !IsEnd(LogOf(core.store, run)[i])
  {
    ReachableOk(w);
    var gone, outcome := Play(w, acts), silent && !SawDeleted(w, acts, run, first);
    GoneDecided(w, acts, pid, run, req, first, silent);
    PlayKeeps(w, acts);
    DecidedForGood(gone, later, run, outcome);
    PlayKeeps(gone, later);
    OutcomeOf(Play(gone, later), run, outcome);
  }
}
