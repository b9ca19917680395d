/** Complete runs; and a run of an equipped agent ends with a complete trace if its process is not interrupted. */
module Completion {
  import opened Domain
  import opened Store
  import opened TraceLanguage
  import opened Protocol
  import opened RunInvariant
  import opened RunSteps
  import opened StatementSteps
  import opened Invariant
  import opened Safety
  import opened Interleaving

  /** The agent has a tool bound, and all its tools have static handlers with a response. */
  ghost predicate Equipped(st: Store, t: Id, a: Id) {
    && a in st.agents && st.agents[a].tenant == t
    && !Unequipped(st, t, a)
    && (forall b :: b in st.bindings && b.tenant == t && b.agent == a ==>
          b.tool in st.tools && st.tools[b.tool].handler.Static?)
  }

  lemma EquippedStays(st: Store, st': Store, t: Id, a: Id)
    requires Equipped(st, t, a) && Grows(st, st')
    ensures Equipped(st', t, a)
  {
    var b :| b in st.bindings && b.tenant == t && b.agent == a;
    assert b in st'.bindings;
  }

  /** The silent exits: a missing first tool, or a handler without a response. Equipped agents have neither. */
  lemma ReadsGoOn(st: Store, p: Proc, c: Choice)
    requires p.run.Some? && PlaceOk(st, p) && Reads(p.pc)
    requires Equipped(st, p.req.tenant, p.req.agent)
    ensures !Over(p.(pc := ReadNext(st, p.req.tenant, p.run.value, p.pc, c)))
  {
    if p.pc.CheckBinding? {
      CheckBindingGoesOn(st, p, c);
    }
  }

  lemma CheckBindingGoesOn(st: Store, p: Proc, c: Choice)
    requires p.run.Some? && PlaceOk(st, p) && p.pc.CheckBinding? && Equipped(st, p.req.tenant, p.req.agent)
    ensures !CheckBindingNext(st, p.req.tenant, p.pc.loop, p.pc.tool, p.pc.arguments, p.pc.record, c).Quit?
  {
    var t, a := p.req.tenant, p.req.agent;
    if p.pc.tool in AgentToolIds(st, t, p.pc.loop.agent) {
      assert Binding(t, a, p.pc.tool) in st.bindings;
    }
  }

  lemma OwnerGoesOn(st: Store, limit: nat, sems: map<Id, int>, p: Proc, c: Choice)
    requires StoreOk(st) && p.run.Some? && PlaceOk(st, p) && !p.pc.Lost? && Admissible(st, p, c)
    requires Equipped(st, p.req.tenant, p.req.agent)
    ensures !Advance(st, limit, sems, p, c).proc.pc.Quit?
  {
    OwnerPc(st, p);
    AdvanceByKind(st, limit, sems, p, c);
    if Writes(p.pc) {
      WriteMoved(st, p, Advance(st, limit, sems, p, c));
    } else if Reads(p.pc) {
      ReadsGoOn(st, p, c);
    }
  }

  /** The run's row is terminal and its trace is one of the complete words. */
  ghost predicate Completed(st: Store, run: Id) {
    && run in st.runs && st.runs[run].agent in st.agents
    && Terminal(st.runs[run].status)
    && exists script ::
         Possible(SpecOf(st, st.runs[run]), script) && LogOf(st, run) == Word(SpecOf(st, st.runs[run]), script)
  }

  lemma EndedIsCompleted(st: Store, run: Id)
    requires AgentChecks(st) && run in st.runs && RunOk(st, run) && PhaseIn(st, run).Ended?
    ensures Completed(st, run)
  {
    EndedExactly(SpecOf(st, st.runs[run]), LogOf(st, run));
  }

  lemma {:induction false} NothingFollows(spec: Spec, log: seq<Event>, log': seq<Event>)
    requires PhaseOf(spec, log).Ended? && log <= log' && !PhaseOf(spec, log').Bad?
    ensures log' == log
    decreases |log'|
  {
    if |log'| > |log| {
      var init := log'[..|log'| - 1];
      if !PhaseOf(spec, init).Bad? {
        NothingFollows(spec, log, init);
      }
    }
  }

  lemma AgentsOnlyGrow(w: World, a: Action)
    requires Inv(w) && EnabledIn(w, a)
    ensures Grows(w.core.store, ApplyIn(w, a).core.store)
  {
    var core := w.core;
    if a.Move? {
      MoveProc(core.store, core.limit, core.sems, core.procs[a.pid], a.c);
    } else if a.Settle? && a.commits {
      LostMoves(core.store, core.limit, core.sems, core.procs[a.pid], a.c);
    } else if a.RemoveTool? {
      RemoveToolStep(core.store, a.tenant, a.id);
    }
  }

  lemma CompletedStays(w: World, a: Action, run: Id)
    requires Inv(w) && EnabledIn(w, a) && Completed(w.core.store, run)
    ensures Completed(ApplyIn(w, a).core.store, run)
  {
    var st, st' := w.core.store, ApplyIn(w, a).core.store;
    StepKeeps(w, a);
    StepEvolves(w, a, run);
    AgentsOnlyGrow(w, a);
    assert RunOk(st', run);
    EndedExactly(SpecOf(st, st.runs[run]), LogOf(st, run));
    NothingFollows(SpecOf(st, st.runs[run]), LogOf(st, run), LogOf(st', run));
  }

  /** The process is still at work on the run, and its agent is equipped. */
  ghost predicate AtWork(core: Core, pid: Id, run: Id) {
    && WorksOn(core, pid, run) && !core.procs[pid].pc.Lost?
    && Equipped(core.store, core.procs[pid].req.tenant, core.procs[pid].req.agent)
  }

  lemma NeverLost(st: Store, limit: nat, sems: map<Id, int>, p: Proc, c: Choice)
    requires p.run.Some? && PlaceOk(st, p) && !p.pc.Lost? && RunOk(st, p.run.value)
    ensures !Advance(st, limit, sems, p, c).proc.pc.Lost?
  {
    OwnerPc(st, p);
    AdvanceByKind(st, limit, sems, p, c);
    if Writes(p.pc) {
      WriteStep(st, p);
    } else if Reads(p.pc) {
      StillReads(st, p, c);
    }
  }

  lemma OwnerOnwards(st: Store, limit: nat, sems: map<Id, int>, p: Proc, c: Choice)
    requires StoreOk(st) && p.run.Some? && PlaceOk(st, p) && !p.pc.Lost? && Admissible(st, p, c)
    requires Equipped(st, p.req.tenant, p.req.agent)
    ensures var o := Advance(st, limit, sems, p, c);
            && o.proc.run == p.run && o.proc.req == p.req && !o.proc.pc.Lost?
            && (Over(o.proc) ==> Completed(o.store, p.run.value))
            && Equipped(o.store, p.req.tenant, p.req.agent)
  {
    var o := Advance(st, limit, sems, p, c);
    OwnerMoves(st, limit, sems, p, c);
    OwnerGoesOn(st, limit, sems, p, c);
    EquippedStays(st, o.store, p.req.tenant, p.req.agent);
    NeverLost(st, limit, sems, p, c);
    if o.proc.pc.Done? {
      EndedIsCompleted(o.store, p.run.value);
    }
  }

  /** What a move has made of the process. */
  ghost predicate Onwards(o: Outcome, run: Id) {
    && o.proc.run == Some(run) && !o.proc.pc.Lost?
    && (Over(o.proc) ==> Completed(o.store, run))
    && Equipped(o.store, o.proc.req.tenant, o.proc.req.agent)
  }

  lemma CommitOnwards(core: Core, pid: Id, o: Outcome, run: Id)
    requires pid in core.procs && Onwards(o, run)
    ensures AtWork(Commit(core, pid, o), pid, run) || Completed(Commit(core, pid, o).store, run)
  {
  }

  lemma MoveOnwards(core: Core, pid: Id, c: Choice, run: Id)
    requires CoreInv(core) && Enabled(core, Move(pid, c)) && AtWork(core, pid, run)
    ensures Onwards(MoveOf(core, pid, c), run)
  {
    assert ProcOk(core.store, core.procs[pid]);
    OwnerOnwards(core.store, core.limit, core.sems, core.procs[pid], c);
  }

  lemma OwnMoveOnwards(core: Core, pid: Id, c: Choice, run: Id)
    requires CoreInv(core) && Enabled(core, Move(pid, c)) && AtWork(core, pid, run)
    ensures AtWork(Apply(core, Move(pid, c)), pid, run) || Completed(Apply(core, Move(pid, c)).store, run)
  {
    MoveOnwards(core, pid, c, run);
    CommitOnwards(core, pid, MoveOf(core, pid, c), run);
  }

  lemma StepOnwards(w: World, a: Action, pid: Id, run: Id)
    requires Inv(w) && EnabledIn(w, a) && Uninterrupted(w.core, a, run) && AtWork(w.core, pid, run)
    ensures AtWork(ApplyIn(w, a).core, pid, run) || Completed(ApplyIn(w, a).core.store, run)
  {
    var req := w.core.procs[pid].req;
    OwnOrOther(w, a, pid, run);
    if OfOthers(w.core, a, run) {
      AgentsOnlyGrow(w, a);
      OthersKeepProcess(w, a, pid, run);
      EquippedStays(w.core.store, ApplyIn(w, a).core.store, req.tenant, req.agent);
    } else {
      OwnMoveOnwards(w.core, pid, a.c, run);
    }
  }

  /**
   If its process is not interrupted, and whatever else happens, the run is either still at work or complete. Queries
   of the authorization that fail end the run, with its reason recorded.
   */
  lemma {:induction false} EquippedRunsComplete(w: World, acts: seq<Action>, pid: Id, run: Id)
    requires Inv(w) && Playable(w, acts) && AllUninterrupted(w, acts, run)
    requires AtWork(w.core, pid, run) || Completed(w.core.store, run)
    ensures AtWork(Play(w, acts).core, pid, run) || Completed(Play(w, acts).core.store, run)
    decreases |acts|
  {
    if acts != [] {
      if AtWork(w.core, pid, run) {
        StepOnwards(w, acts[0], pid, run);
      } else {
        CompletedStays(w, acts[0], run);
      }
      StepKeeps(w, acts[0]);
      EquippedRunsComplete(ApplyIn(w, acts[0]), acts[1..], pid, run);
    }
  }

  /** So a process of an equipped agent that is gone, and has not been interrupted, has completed its run. */
  lemma EquippedTasksEnd(w: World, acts: seq<Action>, pid: Id, run: Id)
    requires Reachable(w) && WorksOn(w.core, pid, run) && !w.core.procs[pid].pc.Lost?
    requires Equipped(w.core.store, w.core.procs[pid].req.tenant, w.core.procs[pid].req.agent)
    requires Playable(w, acts) && AllUninterrupted(w, acts, run) && !WorksOn(Play(w, acts).core, pid, run)
    ensures Completed(Play(w, acts).core.store, run)
  {
    ReachableOk(w);
    EquippedRunsComplete(w, acts, pid, run);
  }
}
