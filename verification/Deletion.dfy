/** Soft deletion against running tasks: after it commits, at most one execution per run is still to come. */
module Deletion {
  import opened Domain
  import opened Store
  import opened Decisions
  import opened Protocol
  import opened RunInvariant
  import opened RunSteps
  import opened StatementSteps
  import opened Invariant
  import opened Safety

  /** How often a trace says that a tool was executed. */
  function Executions(log: seq<Event>, tool: Id): nat {
    if log == [] then 0
    else Executions(log[..|log| - 1], tool) + (if Executes(log[|log| - 1], tool) then 1 else 0)
  }

  predicate Executes(e: Event, tool: Id) {
    e.ToolExec? && e.tool == tool
  }

  /** The process has seen the tool active and has not yet recorded its execution. */
  predicate PastCheck(pc: Pc, tool: Id) {
    match pc
    case CheckBinding(_, x, _, _) => x == tool
    case ReadMax(event, _) => Executes(event, tool)
    case InsertRow(event, _, _) => Executes(event, tool)
    case Lost(statement) => PastCheck(statement, tool)
    case _ => false
  }

  /** What is left of the checks will pass, and the execution will be recorded if the process goes on. */
  predicate Ripe(pc: Pc, tool: Id) {
    match pc
    case CheckBinding(loop, x, arguments, record) =>
      x == tool && !loop.forced && ValidateToolArguments(record.schema, arguments).None? && record.handler.Static?
    case ReadMax(event, _) => Executes(event, tool)
    case InsertRow(event, _, _) => Executes(event, tool)
    case Lost(statement) => statement.InsertRow? && Executes(statement.event, tool)
    case _ => false
  }

  predicate DeletedTool(st: Store, tool: Id) {
    tool in st.tools && st.tools[tool].deleted
  }

  /** Some process working on the run is about to execute the tool. */
  ghost predicate SomeRipe(procs: map<Id, Proc>, run: Id, tool: Id) {
    exists pid :: pid in procs && procs[pid].run == Some(run) && Ripe(procs[pid].pc, tool)
  }

  ghost function Recorded(st: Store, run: Id, tool: Id): nat {
    if run in st.runs then Executions(LogOf(st, run), tool) else 0
  }

  function Count(p: bool): nat {
    if p then 1 else 0
  }

  /** Executions recorded, and one more if a process is about to execute. */
  ghost function Budget(core: Core, run: Id, tool: Id): nat {
    Recorded(core.store, run, tool) + Count(SomeRipe(core.procs, run, tool))
  }

  lemma ExecutionsAppend(log: seq<Event>, e: Event, tool: Id)
    ensures Executions(log + [e], tool) == Executions(log, tool) + (if Executes(e, tool) then 1 else 0)
  {
    assert (log + [e])[..|log|] == log;
  }

  /** With the tool deleted, no read makes a process ripe that is not. */
  lemma ReadsRipen(st: Store, p: Proc, c: Choice, tool: Id)
    requires p.run.Some? && PlaceOk(st, p) && Reads(p.pc) && DeletedTool(st, tool)
    ensures Ripe(ReadNext(st, p.req.tenant, p.run.value, p.pc, c), tool) ==> Ripe(p.pc, tool)
  {
    if p.pc.CheckBinding? && p.pc.tool in AgentToolIds(st, p.req.tenant, p.pc.loop.agent) {
      assert Binding(p.req.tenant, p.req.agent, p.pc.tool) in st.bindings;
    }
  }

  lemma WritesPast(st: Store, p: Proc, tool: Id)
    requires p.run.Some? && PlaceOk(st, p) && Writes(p.pc) && RunOk(st, p.run.value)
    ensures var (st', pc') := WriteNext(st, p.req.tenant, p.run.value, p.pc);
            && p.run.value in st'.runs
            && !PastCheck(pc', tool) && !Ripe(pc', tool)
            && Executions(LogOf(st', p.run.value), tool)
               == Executions(LogOf(st, p.run.value), tool) + Count(Ripe(p.pc, tool))
  {
    if p.pc.InsertRow? {
      InsertRowStep(st, p);
      ExecutionsAppend(LogOf(st, p.run.value), p.pc.event, tool);
      assert ReadyAppend(st, p.req.tenant, p.req.agent, SpecOf(st, st.runs[p.run.value]), p.pc.event, p.pc.k,
                         st.runs[p.run.value], PhaseIn(st, p.run.value));
    }
  }

  /** A move of the run's own process spends what it may still execute, and gains nothing. */
  lemma OwnMove(st: Store, limit: nat, sems: map<Id, int>, p: Proc, c: Choice, tool: Id)
    requires p.run.Some? && PlaceOk(st, p) && !p.pc.Lost? && RunOk(st, p.run.value) && DeletedTool(st, tool)
    ensures var o := Advance(st, limit, sems, p, c);
            && p.run.value in o.store.runs
            && Executions(LogOf(o.store, p.run.value), tool) + Count(Ripe(o.proc.pc, tool))
               <= Executions(LogOf(st, p.run.value), tool) + Count(Ripe(p.pc, tool))
            && (!Writes(p.pc) ==> o.store == st)
  {
    OwnerPc(st, p);
    AdvanceByKind(st, limit, sems, p, c);
    if Writes(p.pc) {
      WritesPast(st, p, tool);
    } else if Reads(p.pc) {
      ReadsRipen(st, p, c, tool);
    }
  }

  /** What a move of a process may do to the executions of a run and to its own program counter. */
  ghost predicate Spends(st: Store, p: Proc, o: Outcome, run: Id, tool: Id) {
    && (p.run == Some(run) ==>
          && Recorded(o.store, run, tool) + Count(Ripe(o.proc.pc, tool))
               <= Recorded(st, run, tool) + Count(Ripe(p.pc, tool))
          && (!Writes(p.pc) ==> o.store == st))
    && (p.run != Some(run) ==>
          && Recorded(o.store, run, tool) == Recorded(st, run, tool)
          && (o.proc.run == Some(run) ==> !Ripe(o.proc.pc, tool)))
  }

  lemma KeepsRunKeys(st: Store, p: Proc, c: Choice, o: Outcome)
    requires p.run.Some? && PlaceOk(st, p) && !p.pc.Lost? && ByKind(st, p, c, o)
    ensures o.store.runs.Keys == st.runs.Keys
  {
    OwnerPc(st, p);
  }

  lemma OtherRun(st: Store, limit: nat, sems: map<Id, int>, p: Proc, c: Choice, run: Id, tool: Id)
    requires StoreOk(st) && p.run.Some? && PlaceOk(st, p) && !p.pc.Lost? && Admissible(st, p, c) && p.run != Some(run)
    ensures Recorded(Advance(st, limit, sems, p, c).store, run, tool) == Recorded(st, run, tool)
    ensures Advance(st, limit, sems, p, c).proc.run == p.run
  {
    var o := Advance(st, limit, sems, p, c);
    OwnerMoves(st, limit, sems, p, c);
    AdvanceByKind(st, limit, sems, p, c);
    KeepsRunKeys(st, p, c, o);
    if run in st.runs {
      MovedEvolves(st, p, o, run);
    }
  }

  lemma NewRunRecordsNothing(st: Store, id: Id, req: Request, run: Id, tool: Id)
    requires TraceKeys(st) && id !in st.runs && req.agent in st.agents && st.agents[req.agent].tenant == req.tenant
    ensures Recorded(InsertRun(st, id, NewRun(req.tenant, req.agent, req.messages, req.key)), run, tool)
            == Recorded(st, run, tool)
  {
    InsertRunStep(st, id, req);
  }

  lemma CreationRecordsNothing(st: Store, limit: nat, sems: map<Id, int>, p: Proc, c: Choice, run: Id, tool: Id)
    requires TraceKeys(st) && p.run.None? && NewcomerOk(p) && !p.pc.Lost? && Admissible(st, p, c)
    ensures Recorded(Advance(st, limit, sems, p, c).store, run, tool) == Recorded(st, run, tool)
    ensures !Ripe(Advance(st, limit, sems, p, c).proc.pc, tool)
  {
    if p.pc.CreateOrGetRun? && GetAgent(st, p.req.tenant, p.req.agent).Some?
       && RunsInScope(st, p.req.tenant, p.req.agent, p.req.key) == {} {
      NewRunRecordsNothing(st, c.id, p.req, run, tool);
    }
  }

  lemma ProcessSpends(st: Store, limit: nat, sems: map<Id, int>, p: Proc, c: Choice, run: Id, tool: Id)
    requires StoreOk(st) && !p.pc.Lost? && Admissible(st, p, c) && DeletedTool(st, tool)
    requires if p.run.Some? then PlaceOk(st, p) else NewcomerOk(p)
    ensures Spends(st, p, Advance(st, limit, sems, p, c), run, tool)
  {
    if p.run == Some(run) {
      OwnMove(st, limit, sems, p, c, tool);
    } else if p.run.None? {
      CreationRecordsNothing(st, limit, sems, p, c, run, tool);
    } else {
      OtherRun(st, limit, sems, p, c, run, tool);
    }
  }

  /** Replacing a process by what its move made of it spends the budget. */
  lemma CommitBudget(core: Core, pid: Id, o: Outcome, run: Id, tool: Id)
    requires pid in core.procs && Exclusive(core.procs) && Spends(core.store, core.procs[pid], o, run, tool)
    requires core.procs[pid].run.Some? ==> o.proc.run == core.procs[pid].run
    ensures Budget(Commit(core, pid, o), run, tool) <= Budget(core, run, tool)
  {
    var procs, procs' := core.procs, Commit(core, pid, o).procs;
    if SomeRipe(procs', run, tool) {
      var q :| q in procs' && procs'[q].run == Some(run) && Ripe(procs'[q].pc, tool);
      if q != pid {
        assert q in procs && procs[q] == procs'[q];
      }
    }
    if procs[pid].run == Some(run) && Ripe(procs[pid].pc, tool) {
      assert SomeRipe(procs, run, tool);
    }
  }

  lemma MoveBudget(core: Core, pid: Id, c: Choice, run: Id, tool: Id)
    requires CoreInv(core) && Enabled(core, Move(pid, c)) && DeletedTool(core.store, tool)
    ensures Budget(Apply(core, Move(pid, c)), run, tool) <= Budget(core, run, tool)
  {
    ProcessSpends(core.store, core.limit, core.sems, core.procs[pid], c, run, tool);
    MoveProc(core.store, core.limit, core.sems, core.procs[pid], c);
    CommitBudget(core, pid, MoveOf(core, pid, c), run, tool);
  }

  /** A statement that commits after its process is gone spends what the process could have executed. */
  lemma LostBudget(core: Core, pid: Id, o: Outcome, run: Id, tool: Id)
    requires pid in core.procs && Exclusive(core.procs) && core.procs[pid].pc.Lost?
    requires Spends(core.store, Revived(core.procs[pid]), o, run, tool)
    ensures Budget(core.(store := o.store, procs := core.procs - {pid}), run, tool) <= Budget(core, run, tool)
  {
    var procs, procs' := core.procs, core.procs - {pid};
    assert Writes(Revived(procs[pid]).pc) && Ripe(Revived(procs[pid]).pc, tool) ==> Ripe(procs[pid].pc, tool);
    if SomeRipe(procs', run, tool) {
      var q :| q in procs' && procs'[q].run == Some(run) && Ripe(procs'[q].pc, tool);
      assert q in procs && procs[q] == procs'[q];
    }
    if procs[pid].run == Some(run) && Ripe(procs[pid].pc, tool) {
      assert SomeRipe(procs, run, tool);
    }
  }

  lemma SameProcs(procs: map<Id, Proc>, procs': map<Id, Proc>, run: Id, tool: Id)
    requires forall q :: q in procs' && procs'[q].run == Some(run) && Ripe(procs'[q].pc, tool) ==>
               q in procs && procs[q].run == Some(run) && Ripe(procs[q].pc, tool)
    ensures SomeRipe(procs', run, tool) ==> SomeRipe(procs, run, tool)
  {
  }

  lemma RevivedPlaces(core: Core, pid: Id)
    requires CoreInv(core) && pid in core.procs && core.procs[pid].pc.Lost?
    ensures var q := Revived(core.procs[pid]);
            !q.pc.Lost? && q.run == core.procs[pid].run && if q.run.Some? then PlaceOk(core.store, q) else NewcomerOk(q)
  {
    assert ProcOk(core.store, core.procs[pid]);
    if core.procs[pid].run.Some? {
      RevivedPlace(core.store, core.procs[pid]);
    }
  }

  lemma SettleBudget(core: Core, pid: Id, commits: bool, c: Choice, run: Id, tool: Id)
    requires CoreInv(core) && Enabled(core, Settle(pid, commits, c)) && DeletedTool(core.store, tool)
    ensures Budget(Apply(core, Settle(pid, commits, c)), run, tool) <= Budget(core, run, tool)
  {
    if commits {
      var q := Revived(core.procs[pid]);
      RevivedPlaces(core, pid);
      ProcessSpends(core.store, core.limit, core.sems, q, c, run, tool);
      LostBudget(core, pid, Advance(core.store, core.limit, core.sems, q, c), run, tool);
    } else {
      SameProcs(core.procs, core.procs - {pid}, run, tool);
    }
  }

  lemma SurroundingsBudget(core: Core, core': Core, run: Id, tool: Id)
    requires core'.store.runs == core.store.runs && core'.store.traces == core.store.traces
    requires forall q :: q in core'.procs && core'.procs[q].run == Some(run) ==>
               q in core.procs && core.procs[q].run == Some(run)
               && (core'.procs[q].pc == core.procs[q].pc || core'.procs[q] == Abandoned(core.procs[q]))
    ensures Budget(core', run, tool) <= Budget(core, run, tool)
  {
    SameProcs(core.procs, core'.procs, run, tool);
  }

  lemma SurroundingsShape(core: Core, a: Action, run: Id)
    requires Enabled(core, a) && !a.Move? && !a.Settle?
    ensures var core' := Apply(core, a);
            && core'.store.runs == core.store.runs && core'.store.traces == core.store.traces
            && forall q :: q in core'.procs && core'.procs[q].run == Some(run) ==>
                 q in core.procs && core.procs[q].run == Some(run)
                 && (core'.procs[q].pc == core.procs[q].pc || core'.procs[q] == Abandoned(core.procs[q]))
  {
  }

  lemma StepBudget(w: World, a: Action, run: Id, tool: Id)
    requires Inv(w) && EnabledIn(w, a) && DeletedTool(w.core.store, tool)
    ensures Budget(ApplyIn(w, a).core, run, tool) <= Budget(w.core, run, tool)
  {
    if a.Move? {
      MoveBudget(w.core, a.pid, a.c, run, tool);
    } else if a.Settle? {
      SettleBudget(w.core, a.pid, a.commits, a.c, run, tool);
    } else {
      SurroundingsShape(w.core, a, run);
      SurroundingsBudget(w.core, Apply(w.core, a), run, tool);
    }
  }

  lemma DeletionLasts(w: World, a: Action, tool: Id)
    requires Inv(w) && EnabledIn(w, a) && DeletedTool(w.core.store, tool)
    ensures DeletedTool(ApplyIn(w, a).core.store, tool)
  {
    var core := w.core;
    if a.Move? {
      MoveProc(core.store, core.limit, core.sems, core.procs[a.pid], a.c);
    } else if a.Settle? && a.commits {
      LostMoves(core.store, core.limit, core.sems, core.procs[a.pid], a.c);
    }
  }

  /**
   Once a tool is deleted, whatever happens afterwards, a run adds at most one execution of it,
   and none unless its process was already about to execute it when the deletion committed.
   */
  lemma {:induction false} DeletedToolsFadeOut(w: World, acts: seq<Action>, run: Id, tool: Id)
    requires Inv(w) && Playable(w, acts) && DeletedTool(w.core.store, tool)
    ensures Budget(Play(w, acts).core, run, tool) <= Budget(w.core, run, tool)
    ensures run in w.core.store.runs && !SomeRipe(w.core.procs, run, tool) ==>
              && run in Play(w, acts).core.store.runs
              && Executions(LogOf(Play(w, acts).core.store, run), tool) <= Executions(LogOf(w.core.store, run), tool)
    decreases |acts|
  {
    if acts != [] {
      StepBudget(w, acts[0], run, tool);
      DeletionLasts(w, acts[0], tool);
      StepKeeps(w, acts[0]);
      DeletedToolsFadeOut(ApplyIn(w, acts[0]), acts[1..], run, tool);
    }
    if run in w.core.store.runs {
      RunsOnlyAdvance(w, acts, run);
    }
  }

  // ---- and the one execution can still come

  function Stage(pc: Pc): nat {
    match pc
    case CheckBinding(_, _, _, _) => 2
    case ReadMax(_, _) => 1
    case _ => 0
  }

  /** A ripe process that is not yet at its INSERT comes closer to it, whatever the tables say of the tool now. */
  lemma RipeReads(st: Store, p: Proc, c: Choice, tool: Id)
    requires p.run.Some? && PlaceOk(st, p) && Ripe(p.pc, tool) && !c.dbError && (p.pc.CheckBinding? || p.pc.ReadMax?)
    ensures var pc' := ReadNext(st, p.req.tenant, p.run.value, p.pc, c);
            Ripe(pc', tool) && Stage(pc') < Stage(p.pc) && !pc'.Lost? && !pc'.Done? && !pc'.Quit?
  {
    if p.pc.CheckBinding? {
      assert Binding(p.req.tenant, p.req.agent, p.pc.tool).tool in AgentToolIds(st, p.req.tenant, p.pc.loop.agent);
    }
  }

  lemma RipeAdvances(st: Store, limit: nat, sems: map<Id, int>, p: Proc, c: Choice, tool: Id)
    requires p.run.Some? && PlaceOk(st, p) && Ripe(p.pc, tool) && !c.dbError && (p.pc.CheckBinding? || p.pc.ReadMax?)
    ensures var o := Advance(st, limit, sems, p, c);
            && o.store == st && o.proc.run == p.run && !Over(o.proc)
            && Ripe(o.proc.pc, tool) && Stage(o.proc.pc) < Stage(p.pc)
  {
    AdvanceByKind(st, limit, sems, p, c);
    RipeReads(st, p, c, tool);
  }

  lemma RipeMove(w: World, pid: Id, run: Id, tool: Id) returns (a: Action)
    requires Inv(w) && pid in w.core.procs && w.core.procs[pid].run == Some(run) && Ripe(w.core.procs[pid].pc, tool)
    requires w.core.procs[pid].pc.CheckBinding? || w.core.procs[pid].pc.ReadMax?
    ensures EnabledIn(w, a)
    ensures var core' := ApplyIn(w, a).core;
            && core'.store == w.core.store && pid in core'.procs && core'.procs[pid].run == Some(run)
            && Ripe(core'.procs[pid].pc, tool) && Stage(core'.procs[pid].pc) < Stage(w.core.procs[pid].pc)
  {
    var p, c := w.core.procs[pid], Choice(NIL, false, false);
    assert ProcOk(w.core.store, p);
    RipeAdvances(w.core.store, w.core.limit, w.core.sems, p, c, tool);
    a := Move(pid, c);
  }

  lemma RipeInserts(st: Store, limit: nat, sems: map<Id, int>, p: Proc, c: Choice, tool: Id)
    requires p.run.Some? && PlaceOk(st, p) && p.pc.InsertRow? && Ripe(p.pc, tool) && RunOk(st, p.run.value)
    ensures var st' := Advance(st, limit, sems, p, c).store;
            p.run.value in st'.runs && Executions(LogOf(st', p.run.value), tool)
              == Executions(LogOf(st, p.run.value), tool) + 1
  {
    WritesPast(st, p, tool);
  }

  lemma OwnerPlace(core: Core, pid: Id)
    requires CoreInv(core) && pid in core.procs && core.procs[pid].run.Some?
    ensures PlaceOk(core.store, Revived(core.procs[pid])) && RunOk(core.store, core.procs[pid].run.value)
  {
    assert ProcOk(core.store, core.procs[pid]);
    if core.procs[pid].pc.Lost? {
      RevivedPlace(core.store, core.procs[pid]);
    }
  }

  lemma LastRipeMove(core: Core, pid: Id, run: Id, tool: Id) returns (a: Action)
    requires pid in core.procs && core.procs[pid].run == Some(run) && Ripe(core.procs[pid].pc, tool)
    requires PlaceOk(core.store, Revived(core.procs[pid])) && RunOk(core.store, run)
    requires !core.procs[pid].pc.CheckBinding? && !core.procs[pid].pc.ReadMax?
    ensures Enabled(core, a) && (a.Move? ==> !core.procs[a.pid].pc.AcquireGlobal?)
    ensures var st' := Apply(core, a).store;
            run in st'.runs && Executions(LogOf(st', run), tool) == Executions(LogOf(core.store, run), tool) + 1
  {
    var p, c := core.procs[pid], Choice(NIL, false, false);
    RipeInserts(core.store, core.limit, core.sems, Revived(p), c, tool);
    a := if p.pc.Lost? then Settle(pid, true, c) else Move(pid, c);
  }

  /** The execution is recorded in a continuation that takes no more than three steps. */
  lemma {:induction false} RipeExecutes(w: World, pid: Id, run: Id, tool: Id) returns (acts: seq<Action>)
    requires Inv(w) && pid in w.core.procs && w.core.procs[pid].run == Some(run) && Ripe(w.core.procs[pid].pc, tool)
    ensures run in w.core.store.runs && Playable(w, acts) && run in Play(w, acts).core.store.runs
    ensures Executions(LogOf(Play(w, acts).core.store, run), tool) == Executions(LogOf(w.core.store, run), tool) + 1
    decreases Stage(w.core.procs[pid].pc)
  {
    if w.core.procs[pid].pc.CheckBinding? || w.core.procs[pid].pc.ReadMax? {
      var a := RipeMove(w, pid, run, tool);
      StepKeeps(w, a);
      var rest := RipeExecutes(ApplyIn(w, a), pid, run, tool);
      acts := [a] + rest;
      assert acts[1..] == rest;
    } else {
      OwnerPlace(w.core, pid);
      var a := LastRipeMove(w.core, pid, run, tool);
      acts := [a];
      assert acts[1..] == [];
    }
  }

  /** The continuation records one more execution of the tool in the run's trace. */
  ghost predicate ExecutesOnce(w: World, acts: seq<Action>, run: Id, tool: Id)
    requires run in w.core.store.runs
  {
    && Playable(w, acts) && run in Play(w, acts).core.store.runs
    && Executions(LogOf(Play(w, acts).core.store, run), tool) == Executions(LogOf(w.core.store, run), tool) + 1
  }

  ghost predicate ExecutesMore(w: World, acts: seq<Action>, run: Id, tool: Id)
    requires run in w.core.store.runs
  {
    && Playable(w, acts) && run in Play(w, acts).core.store.runs
    && Executions(LogOf(Play(w, acts).core.store, run), tool) > Executions(LogOf(w.core.store, run), tool)
  }

  /**
   Exactly when a deleted tool can still be executed for a run: when the run's process is about to do so.
   Then some continuation records one more execution, and no continuation records more than one.
   */
  lemma DeletedToolsStillExecute(w: World, run: Id, tool: Id)
    requires Reachable(w) && DeletedTool(w.core.store, tool) && run in w.core.store.runs
    ensures SomeRipe(w.core.procs, run, tool) <==> exists acts :: ExecutesOnce(w, acts, run, tool)
    ensures SomeRipe(w.core.procs, run, tool) <==> exists acts :: ExecutesMore(w, acts, run, tool)
  {
    ReachableOk(w);
    if SomeRipe(w.core.procs, run, tool) {
      var pid :| pid in w.core.procs && w.core.procs[pid].run == Some(run) && Ripe(w.core.procs[pid].pc, tool);
      var acts := RipeExecutes(w, pid, run, tool);
      assert ExecutesOnce(w, acts, run, tool) && ExecutesMore(w, acts, run, tool);
    } else {
      forall acts ensures !ExecutesMore(w, acts, run, tool) && !ExecutesOnce(w, acts, run, tool) {
        if Playable(w, acts) {
          DeletedToolsFadeOut(w, acts, run, tool);
        }
      }
    }
  }
}
