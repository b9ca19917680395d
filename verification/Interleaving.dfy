/** Executions in which everything may happen around one task, as long as the task itself meets no fault. */
module Interleaving {
  import opened Domain
  import opened Store
  import opened Protocol
  import opened RunInvariant
  import opened Invariant
  import opened Safety

  predicate WorksOn(core: Core, pid: Id, run: Id) {
    pid in core.procs && core.procs[pid].run == Some(run)
  }

  /** A listing of bound tools, if there are any, puts `first` first. */
  predicate Picks(st: Store, p: Proc, c: Choice, first: Id) {
    p.pc.LoadTools? && ListAgentTools(st, p.req.tenant, p.pc.agent) != {} ==> c.id == first
  }

  /**
   An action that does not end the process working on the run: it is not dropped, none of its statements fails with
   an error that it passes on, and the server does not restart under it. A query of the authorization may fail.
   */
  ghost predicate Uninterrupted(core: Core, a: Action, run: Id) {
    match a
    case Abort(q) => !WorksOn(core, q, run)
    case Crash => forall q :: q in core.procs ==> !WorksOn(core, q, run)
    case _ => true
  }

  ghost predicate AllUninterrupted(w: World, acts: seq<Action>, run: Id)
    requires Playable(w, acts)
    decreases |acts|
  {
    acts == [] || (Uninterrupted(w.core, acts[0], run) && AllUninterrupted(ApplyIn(w, acts[0]), acts[1..], run))
  }

  /**
   An action that is no fault of the process working on the run: moreover none of its queries fails. All other
   requests, their faults, new tools and agents, and deletions are free.
   */
  ghost predicate Faultless(core: Core, a: Action, run: Id) {
    Uninterrupted(core, a, run) && (a.Move? && WorksOn(core, a.pid, run) ==> !a.c.dbError)
  }

  ghost predicate AllFaultless(w: World, acts: seq<Action>, run: Id)
    requires Playable(w, acts)
    decreases |acts|
  {
    acts == [] || (Faultless(w.core, acts[0], run) && AllFaultless(ApplyIn(w, acts[0]), acts[1..], run))
  }

  /** Moreover the process's listing of bound tools puts `first` first. */
  ghost predicate Spares(core: Core, a: Action, run: Id, first: Id) {
    && Faultless(core, a, run)
    && (a.Move? && WorksOn(core, a.pid, run) ==> Picks(core.store, core.procs[a.pid], a.c, first))
  }

  /** Each action of the execution spares the run's process, and none deletes a tool to be kept. */
  ghost predicate AllSpare(w: World, acts: seq<Action>, run: Id, first: Id, keep: bool)
    requires Playable(w, acts)
    decreases |acts|
  {
    acts == [] ||
    (&& Spares(w.core, acts[0], run, first)
     && (keep ==> !(acts[0].RemoveTool? && acts[0].id == first))
     && AllSpare(ApplyIn(w, acts[0]), acts[1..], run, first, keep))
  }

  /** Keeping the tool is the stronger demand. */
  lemma {:induction false} KeptAnyway(w: World, acts: seq<Action>, run: Id, first: Id, keep: bool)
    requires Playable(w, acts) && AllSpare(w, acts, run, first, true)
    ensures AllSpare(w, acts, run, first, keep)
    decreases |acts|
  {
    if acts != [] {
      KeptAnyway(ApplyIn(w, acts[0]), acts[1..], run, first, keep);
    }
  }

  // ---- what the other actions leave alone

  /** Tools stay as they are, except that one may be deleted. */
  ghost predicate ToolsKept(st: Store, st': Store, a: Action) {
    forall x :: x in st.tools ==>
      x in st'.tools && (st'.tools[x] == st.tools[x]
        || (a.RemoveTool? && a.id == x && st'.tools[x] == st.tools[x].(deleted := true)))
  }

  lemma WritesKeepTables(st: Store, t: Id, run: Id, pc: Pc)
    ensures var st' := WriteNext(st, t, run, pc).0;
            st'.tools == st.tools && st'.agents == st.agents && st'.bindings == st.bindings
  {
  }

  lemma MovesKeepTables(st: Store, limit: nat, sems: map<Id, int>, p: Proc, c: Choice)
    ensures var st' := Advance(st, limit, sems, p, c).store;
            st'.tools == st.tools && st'.agents == st.agents && st'.bindings == st.bindings
  {
    if p.run.Some? {
      WritesKeepTables(st, p.req.tenant, p.run.value, p.pc);
    }
  }

  /** No action changes a tool, except that a deletion marks it. */
  lemma AnyKeepsTools(core: Core, a: Action)
    requires Enabled(core, a)
    ensures ToolsKept(core.store, Apply(core, a).store, a)
  {
    if a.Move? {
      MovesKeepTables(core.store, core.limit, core.sems, core.procs[a.pid], a.c);
    } else if a.Settle? && a.commits {
      MovesKeepTables(core.store, core.limit, core.sems, Revived(core.procs[a.pid]), a.c);
    }
  }

  /** What an action of the surroundings, or of a process with another run, leaves of a run. */
  ghost predicate Untouched(st: Store, st': Store, a: Action, run: Id)
    requires run in st.runs
  {
    && Grows(st, st') && ToolsKept(st, st', a)
    && run in st'.runs && st'.runs[run] == st.runs[run] && LogOf(st', run) == LogOf(st, run)
  }

  lemma OtherMoveKeeps(core: Core, q: Id, c: Choice, a: Action, run: Id)
    requires CoreInv(core) && Enabled(core, Move(q, c)) && !WorksOn(core, q, run) && run in core.store.runs
    ensures Untouched(core.store, MoveOf(core, q, c).store, a, run)
  {
    var p := core.procs[q];
    MoveProc(core.store, core.limit, core.sems, p, c);
    MovedEvolves(core.store, p, MoveOf(core, q, c), run);
    MovesKeepTables(core.store, core.limit, core.sems, p, c);
  }

  lemma OtherSettleKeeps(core: Core, q: Id, c: Choice, a: Action, run: Id)
    requires CoreInv(core) && Enabled(core, Settle(q, true, c)) && !WorksOn(core, q, run) && run in core.store.runs
    ensures Untouched(core.store, Apply(core, Settle(q, true, c)).store, a, run)
  {
    var p := core.procs[q];
    LostMoves(core.store, core.limit, core.sems, p, c);
    MovedEvolves(core.store, Revived(p), Advance(core.store, core.limit, core.sems, Revived(p), c), run);
    MovesKeepTables(core.store, core.limit, core.sems, Revived(p), c);
  }

  lemma NewAgentGrows(st: Store, id: Id, agent: Agent, tools: set<Id>)
    requires id !in st.agents
    ensures Grows(st, CreateAgent(st, id, agent, tools))
  {
    assert forall b :: b in BindingsFor(agent.tenant, id, tools) ==> b.agent == id;
  }

  lemma SurroundingsGrow(core: Core, a: Action)
    requires Enabled(core, a) && (a.NewTool? || a.RemoveTool? || a.NewAgent?)
    ensures Grows(core.store, Apply(core, a).store) && ToolsKept(core.store, Apply(core, a).store, a)
  {
    if a.NewAgent? {
      NewAgentGrows(core.store, a.id, a.agent, a.tools);
    }
  }

  lemma SameRunsKept(st: Store, st': Store, a: Action, run: Id)
    requires run in st.runs && Grows(st, st') && ToolsKept(st, st', a) && st'.runs == st.runs && st'.traces == st.traces
    ensures Untouched(st, st', a, run)
  {
  }

  lemma SurroundingsKeepRun(w: World, a: Action, run: Id)
    requires EnabledIn(w, a) && run in w.core.store.runs && !a.Move? && !(a.Settle? && a.commits)
    ensures Untouched(w.core.store, ApplyIn(w, a).core.store, a, run)
  {
    if a.NewTool? || a.RemoveTool? || a.NewAgent? {
      SurroundingsGrow(w.core, a);
    }
    SameRunsKept(w.core.store, ApplyIn(w, a).core.store, a, run);
  }

  /** An action of no process that works on the run. */
  ghost predicate OfOthers(core: Core, a: Action, run: Id) {
    match a
    case Move(q, _) => !WorksOn(core, q, run)
    case Abort(q) => !WorksOn(core, q, run)
    case Settle(q, _, _) => !WorksOn(core, q, run)
    case Crash => forall q :: q in core.procs ==> !WorksOn(core, q, run)
    case _ => true
  }

  lemma OthersKeepRun(w: World, a: Action, run: Id)
    requires Inv(w) && EnabledIn(w, a) && run in w.core.store.runs && OfOthers(w.core, a, run)
    ensures Untouched(w.core.store, ApplyIn(w, a).core.store, a, run)
  {
    if a.Move? {
      OtherMoveKeeps(w.core, a.pid, a.c, a, run);
    } else if a.Settle? && a.commits {
      OtherSettleKeeps(w.core, a.pid, a.c, a, run);
    } else {
      SurroundingsKeepRun(w, a, run);
    }
  }

  lemma OthersKeepProcess(w: World, a: Action, pid: Id, run: Id)
    requires EnabledIn(w, a) && WorksOn(w.core, pid, run) && OfOthers(w.core, a, run)
    ensures var procs' := ApplyIn(w, a).core.procs; pid in procs' && procs'[pid] == w.core.procs[pid]
  {
    if a.Move? {
      assert a.pid != pid;
    }
  }

  /** An action that does not end a live process is one of others, or a move of its own. */
  lemma OwnOrOther(w: World, a: Action, pid: Id, run: Id)
    requires Inv(w) && EnabledIn(w, a) && WorksOn(w.core, pid, run) && !w.core.procs[pid].pc.Lost?
    requires Uninterrupted(w.core, a, run)
    ensures OfOthers(w.core, a, run) || (a.Move? && a.pid == pid)
  {
  }

  // ---- runs that nobody works on any more

  ghost predicate Nobody(core: Core, run: Id) {
    forall q :: q in core.procs ==> !WorksOn(core, q, run)
  }

  lemma CommitNobody(core: Core, pid: Id, o: Outcome, run: Id)
    requires pid in core.procs && Nobody(core, run) && o.proc.run != Some(run)
    ensures Nobody(Commit(core, pid, o), run)
  {
    forall q | q in Commit(core, pid, o).procs ensures !WorksOn(Commit(core, pid, o), q, run) {
      if q != pid {
        assert q in core.procs && !WorksOn(core, q, run);
      }
    }
  }

  lemma MoveNobody(core: Core, pid: Id, c: Choice, run: Id)
    requires CoreInv(core) && Enabled(core, Move(pid, c)) && run in core.store.runs && Nobody(core, run)
    ensures Nobody(Apply(core, Move(pid, c)), run)
  {
    var p := core.procs[pid];
    assert !WorksOn(core, pid, run);
    MoveProc(core.store, core.limit, core.sems, p, c);
    CommitNobody(core, pid, MoveOf(core, pid, c), run);
  }

  lemma SameOwnersNobody(core: Core, core': Core, run: Id)
    requires Nobody(core, run)
    requires forall q :: q in core'.procs && core'.procs[q].run.Some? ==>
             q in core.procs && core'.procs[q].run == core.procs[q].run
    ensures Nobody(core', run)
  {
    forall q | q in core'.procs ensures !WorksOn(core', q, run) {
      if core'.procs[q].run.Some? {
        assert !WorksOn(core, q, run);
      }
    }
  }

  lemma StepNobody(w: World, a: Action, run: Id)
    requires Inv(w) && EnabledIn(w, a) && run in w.core.store.runs && Nobody(w.core, run)
    ensures Nobody(ApplyIn(w, a).core, run) && Untouched(w.core.store, ApplyIn(w, a).core.store, a, run)
  {
    if a.Move? {
      MoveNobody(w.core, a.pid, a.c, run);
    } else {
      SameOwnersNobody(w.core, ApplyIn(w, a).core, run);
    }
    OthersKeepRun(w, a, run);
  }

  lemma {:induction false} NobodyStays(w: World, acts: seq<Action>, run: Id)
    requires Inv(w) && Playable(w, acts) && run in w.core.store.runs && Nobody(w.core, run)
    ensures var st, st' := w.core.store, Play(w, acts).core.store;
            run in st'.runs && st'.runs[run] == st.runs[run] && LogOf(st', run) == LogOf(st, run)
    decreases |acts|
  {
    if acts != [] {
      StepNobody(w, acts[0], run);
      StepKeeps(w, acts[0]);
      NobodyStays(ApplyIn(w, acts[0]), acts[1..], run);
    }
  }

  /** A run that no process works on is left as it is for good: its row and its trace never change again. */
  lemma OrphansNeverChange(w: World, acts: seq<Action>, run: Id)
    requires Reachable(w) && Playable(w, acts) && run in w.core.store.runs && Nobody(w.core, run)
    ensures var st, st' := w.core.store, Play(w, acts).core.store;
            run in st'.runs && st'.runs[run] == st.runs[run] && LogOf(st', run) == LogOf(st, run)
  {
    ReachableOk(w);
    NobodyStays(w, acts, run);
  }
}
