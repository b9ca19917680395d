/** Reachable worlds that show what the theorems cannot promise. */
module Witnesses {
  import opened Domain
  import opened Store
  import opened Decisions
  import opened Protocol
  import opened RunInvariant
  import opened Invariant
  import opened Safety
  import opened Completion
  import opened Deletion
  import opened Solo
  import opened Embedding
  import opened Runtime
  import opened Handler
  import opened GoodCalls
  import opened Interleaving
  import opened SilentExits
  import opened Reaching

  const REQUEST := Request(1, 1, [ChatMessage("user", "hi")], None)
  const AGENT := Agent(1, None, 3)
  const TOOL := Tool(1, "search", Schema(true, {Lookup(0), Lookup(1)}), Static("found"), false)

  const AGENT_STORE := EMPTY_STORE.(agents := map[1 := AGENT])
  const TOOL_STORE := AGENT_STORE.(tools := map[1 := TOOL], bindings := {Binding(1, 1, 1)})

  /** A system without processes. */
  function Idle(limit: nat, st: Store, globalMax: nat): World {
    World(Core(limit, st, map[], map[], {}), globalMax, globalMax)
  }

  lemma EmptyReachable(limit: nat, globalMax: nat)
    ensures Reachable(Idle(limit, EMPTY_STORE, globalMax))
  {
    var w := Idle(limit, EMPTY_STORE, globalMax);
    assert Init(w) && Playable(w, []) && Play(w, []) == w;
  }

  /** An agent without tools. */
  lemma AgentReachable(limit: nat, globalMax: nat)
    ensures Reachable(Idle(limit, AGENT_STORE, globalMax))
  {
    var w, a := Idle(limit, EMPTY_STORE, globalMax), NewAgent(1, AGENT, {});
    EmptyReachable(limit, globalMax);
    ReachStep(w, a);
    assert BindingsFor(1, 1, {}) == {};
    assert ApplyIn(w, a) == Idle(limit, AGENT_STORE, globalMax);
  }

  /** An agent with one well-behaved tool. */
  lemma ToolReachable(limit: nat, globalMax: nat)
    ensures Reachable(Idle(limit, TOOL_STORE, globalMax))
  {
    var w, a := Idle(limit, EMPTY_STORE, globalMax), NewTool(1, TOOL);
    EmptyReachable(limit, globalMax);
    ReachStep(w, a);
    var w1, b := ApplyIn(w, a), NewAgent(1, AGENT, {1});
    ReachStep(w1, b);
    assert BindingsFor(1, 1, {1}) == {Binding(1, 1, 1)};
    assert ApplyIn(w1, b) == Idle(limit, TOOL_STORE, globalMax);
  }

  // ---- requests

  function Entered(w: World, pid: Id): World {
    World(w.core.(procs := w.core.procs[pid := Arrived(REQUEST)]), w.globalMax, w.free)
  }

  lemma Enters(w: World, pid: Id)
    requires Reachable(w) && pid !in w.core.procs
    ensures Reachable(Entered(w, pid))
  {
    ReachStep(w, Arrive(pid, REQUEST));
  }

  /** The world once a request has created its run and has been admitted. */
  ghost function Admitted(w: World, pid: Id, run: Id): World {
    AfterStart(Entered(w, pid), pid, REQUEST,
               Scheduled(w.core.limit, PlatformOf(w).(store := RecordedStore(w.core.store, REQUEST, run)), 1, run),
                 Replied(run, Pending))
  }

  lemma IsAdmitted(w: World, pid: Id, run: Id)
    requires Reachable(w) && pid !in w.core.procs && run !in w.core.store.runs && run != NIL
    requires GetAgent(w.core.store, 1, 1).Some? && Verdict(w.core.limit, PlatformOf(w), 1).None?
    ensures Reachable(Admitted(w, pid, run))
  {
    var b := PlatformOf(w).(store := RecordedStore(w.core.store, REQUEST, run));
    Enters(w, pid);
    StartGoes(Entered(w, pid), pid, REQUEST, run, Scheduled(w.core.limit, b, 1, run), Replied(run, Pending));
    ReachGoes(Entered(w, pid), Admitted(w, pid, run), pid);
  }

  /** The world once a request has created its run and comes to the scheduler. */
  ghost function Waiting(w: World, pid: Id, run: Id): World {
    AtSchedulingOf(Entered(w, pid), pid, REQUEST, run)
  }

  lemma Waits(w: World, pid: Id, run: Id)
    requires Reachable(w) && pid !in w.core.procs && run !in w.core.store.runs && run != NIL
             && GetAgent(w.core.store, 1, 1).Some?
    ensures Reachable(Waiting(w, pid, run)) && AtSchedule(Waiting(w, pid, run), pid)
  {
    Enters(w, pid);
    ToScheduleGoes(Entered(w, pid), pid, REQUEST, run);
    ReachGoes(Entered(w, pid), Waiting(w, pid, run), pid);
  }

  // ---- a run that never ends

  /** Not every run ends: the task of an agent without tools returns, and its run is left `running` for good. */
  lemma NotEveryRunEnds() returns (w: World)
    ensures Reachable(w) && w.core.procs == map[]
    ensures 1 in w.core.store.runs && w.core.store.runs[1].status.Running? && !Completed(w.core.store, 1)
    ensures forall i :: 0 <= i < |LogOf(w.core.store, 1)| ==> !IsEnd(LogOf(w.core.store, 1)[i])
    ensures forall acts | Playable(w, acts) ::
              1 in Play(w, acts).core.store.runs && Play(w, acts).core.store.runs[1] == w.core.store.runs[1]
  {
    var idle := Idle(1, AGENT_STORE, 1);
    AgentReachable(1, 1);
    IsAdmitted(idle, 1, 1);
    var start := Admitted(idle, 1, 1);
    var acts := TaskEnds(start, 1, 1, NIL);
    w := Play(start, acts);
    ToollessIsSilent(start.core.store);
    KeptAnyway(start, acts, 1, NIL, false);
    ReachableOk(start);
    StartsUndecided(start, 1, NIL);
    KeptToolStays(start, acts, 1, 1, 1, NIL);
    CompletesUnlessSilent(start, acts, [], 1, 1, REQUEST, NIL, true);
    forall later | Playable(w, later)
      ensures 1 in Play(w, later).core.store.runs && Play(w, later).core.store.runs[1] == w.core.store.runs[1]
    {
      OrphansNeverChange(w, later, 1);
    }
  }

  lemma ToollessIsSilent(st: Store)
    requires st.tools == map[]
    ensures Listed(st, 1, 1, NIL) && Silent(st, 1, 1, NIL, Forced(REQUEST.messages))
  {
    assert ListAgentTools(st, 1, 1) == {};
    assert |INVALID_TOOL_CALL_SENTINEL| > 2;
  }

  // ---- a refusal by the scheduler while few tasks execute

  /** A handler that holds its global permit while it records the refusal by its tenant's semaphore. */
  ghost function Refusing(w: World, pid: Id): World
    requires pid in w.core.procs
  {
    World(w.core.(procs := w.core.procs[pid := w.core.procs[pid].(permits := GlobalPermit,
      pc := Refuse(TenantConcurrencyLimitExceeded))]),
          w.globalMax, w.free - 1)
  }

  lemma Refuses(w: World, pid: Id)
    requires Reachable(w) && AtSchedule(w, pid) && w.free > 0
    requires w.core.procs[pid].req.tenant in w.core.sems && w.core.sems[w.core.procs[pid].req.tenant] == 0
    ensures Reachable(Refusing(w, pid))
  {
    var w1 := GlobalMove(w, pid);
    GoesNowhere(w, pid);
    GoesOn(w, w, pid, Choice(NIL, true, false));
    ToTenantGoes(w, w, w1, pid);
    var c := Choice(NIL, false, false);
    var w3 := TenantMove(AtTenant(w, pid), pid, c);
    GoesOn(w, AtTenant(w, pid), pid, c);
    assert w3.core.procs == Refusing(w, pid).core.procs;
    ReachGoes(w, Refusing(w, pid), pid);
  }

  ghost predicate OneTaskOneHandler(w: World) {
    && w.core.procs.Keys == {1, 2} && w.core.procs[1].permits.BothPermits? && w.core.procs[2].permits.GlobalPermit?
    && w.globalMax == 2 && w.free == 0
    && w.core.store.runs.Keys == {1, 2} && GetAgent(w.core.store, 1, 1).Some?
  }

  /** One task executing, and one handler recording the refusal of a second run of the tenant. */
  lemma OneRefusing() returns (w: World)
    ensures Reachable(w) && OneTaskOneHandler(w)
  {
    var idle := Idle(1, AGENT_STORE, 2);
    AgentReachable(1, 2);
    IsAdmitted(idle, 1, 1);
    var w1 := Admitted(idle, 1, 1);
    Waits(w1, 2, 2);
    Refuses(Waiting(w1, 2, 2), 2);
    w := Refusing(Waiting(w1, 2, 2), 2);
  }

  lemma OneOfEach(w: World)
    requires w.core.procs.Keys == {1, 2, 3}
    requires w.core.procs[1].permits.BothPermits? && w.core.procs[2].permits.GlobalPermit?
             && w.core.procs[3].permits.NoPermit?
    ensures |Tasks(w.core.procs)| == 1 && |HandlersHolding(w.core.procs)| == 1
  {
    assert Tasks(w.core.procs) == {1};
    assert HandlersHolding(w.core.procs) == {2};
  }

  /** Two global permits, one task executing, and yet the scheduler refuses: a handler holds the other permit. */
  lemma RefusedWithOneTask() returns (w: World, c: Choice)
    ensures Reachable(w) && w.globalMax == 2 && 3 in w.core.procs && EnabledIn(w, Move(3, c))
    ensures MoveOf(w.core, 3, c).proc.pc == Refuse(SchedulerCapacityExceeded)
    ensures |Tasks(w.core.procs)| == 1 && |HandlersHolding(w.core.procs)| == 1
  {
    var before := OneRefusing();
    Waits(before, 3, 3);
    w := Waiting(before, 3, 3);
    c := Choice(NIL, false, false);
    OneOfEach(w);
  }

  // ---- a deleted tool that is executed

  lemma LoadsFirst(st0: Store, p0: Proc, st: Store, p: Proc, first: Id)
    requires Leads(st0, p0, st, p, first) && p.run.Some? && p.pc.LoadRun? && GetRun(st, p.req.tenant, p.run.value).Some?
    requires var row := st.runs[p.run.value];
             && GetAgent(st, p.req.tenant, row.agent).Some? && !Forced(row.messages)
             && first in ListAgentTools(st, p.req.tenant, row.agent)
    ensures var row := st.runs[p.run.value];
            Leads(st0, p0, st, p.(pc := Decide(FreshLoop(row.agent, st.agents[row.agent].maxIterations, Some(first),
              false))), first)
  {
    var row := st.runs[p.run.value];
    LeadsLoadRun(st0, p0, st, p, first);
    LeadsLoadAgent(st0, p0, st, p.(pc := LoadAgent(row.agent, false)), first);
    LeadsLoadTools(st0, p0, st, p.(pc := LoadTools(row.agent, st.agents[row.agent].maxIterations, false)), first);
  }

  /** The first iteration, up to the check of the binding. */
  lemma CallsFirst(st0: Store, p0: Proc, st: Store, p: Proc, first: Id) returns (st': Store, loop: LoopState)
    requires Leads(st0, p0, st, p, first) && p.run.Some? && p.pc.Decide?
    requires p.pc.loop == FreshLoop(p.pc.loop.agent, p.pc.loop.maxIterations, Some(first), false)
             && p.pc.loop.maxIterations >= 1
    requires ActiveTool(st, p.req.tenant, first)
    ensures Leads(st0, p0, st', p.(pc := CheckBinding(loop, first, Lookup(0), st.tools[first])), first) && !loop.forced
    ensures st' == st.(traces := st'.traces)
  {
    loop := p.pc.loop;
    LeadsDecision(st0, p0, st, p, None, first);
    var asked := AfterDecision(loop, ToolCall(first, Lookup(0)));
    LeadsAppend(st0, p0, st, p.(pc := asked), first);
    st' := Appended(st, p.req.tenant, p.run.value, asked.event);
    LeadsCheckTool(st0, p0, st', p.(pc := asked.k), first);
    loop := asked.k.loop;
  }

  /** From its first statement to the check of the binding, for a task with a well-behaved first tool. */
  lemma ReachesCheck(st: Store, p: Proc, first: Id) returns (st': Store, loop: LoopState)
    requires p.run.Some? && p.pc.BeginExecution? && CanBegin(st, p.req.tenant, p.run.value)
    requires var row := st.runs[p.run.value];
             && GetAgent(st, p.req.tenant, row.agent).Some? && st.agents[row.agent].maxIterations >= 1
             && BoundActive(st, p.req.tenant, row.agent, first) && !Forced(row.messages)
    ensures Leads(st, p, st', p.(pc := CheckBinding(loop, first, Lookup(0), st.tools[first])), first) && !loop.forced
    ensures st'.tools == st.tools && p.run.value in st'.runs
  {
    var t, run := p.req.tenant, p.run.value;
    LeadsNowhere(st, p, first);
    LeadsWrite(st, p, st, p, first);
    var s1 := BeginRunExecution(st, t, run);
    var started := ReadMax(RunStarted, LoadRun);
    LeadsAppend(st, p, s1, p.(pc := ReadMax(Accepted, started)), first);
    var s2 := Appended(s1, t, run, Accepted);
    LeadsAppend(st, p, s2, p.(pc := started), first);
    var s3 := Appended(s2, t, run, RunStarted);
    LoadsFirst(st, p, s3, p.(pc := LoadRun), first);
    var row := s3.runs[run];
    st', loop := CallsFirst(st, p, s3, p.(pc := Decide(FreshLoop(row.agent, s3.agents[row.agent].maxIterations,
      Some(first), false))), first);
  }

  lemma ChecksIn(w: World, pid: Id, run: Id, first: Id) returns (w': World, loop: LoopState)
    requires Reachable(w) && pid in w.core.procs && w.core.procs[pid] == Spawned(REQUEST, run)
    requires CanBegin(w.core.store, 1, run) && w.core.store.runs[run].agent == 1
             && !Forced(w.core.store.runs[run].messages)
    requires GetAgent(w.core.store, 1, 1) == Some(AGENT) && BoundActive(w.core.store, 1, 1, first)
    ensures Reachable(w') && WorksOn(w'.core, pid, run) && run in w'.core.store.runs
            && w'.core.store.tools == w.core.store.tools
    ensures w'.core.procs[pid].pc == CheckBinding(loop, first, Lookup(0), w.core.store.tools[first]) && !loop.forced
  {
    var st, p := w.core.store, w.core.procs[pid];
    var st', checking := ReachesCheck(st, p, first);
    loop := checking;
    var p' := p.(pc := CheckBinding(loop, first, Lookup(0), st.tools[first]));
    GoesNowhere(w, pid);
    WorldAtItself(w, pid);
    SoloGoes(w, w, pid, st, p, st', p', first);
    w' := WorldAt(w, pid, st', p');
    ReachGoes(w, w', pid);
  }

  lemma UnforcedRequest()
    ensures !Forced(REQUEST.messages)
  {
    assert |INVALID_TOOL_CALL_SENTINEL| > 2;
  }

  /** A tool is deleted, and some continuation executes it afterwards. */
  lemma DeletedToolIsExecuted() returns (w: World, acts: seq<Action>)
    ensures Reachable(w) && DeletedTool(w.core.store, 1)
    ensures 1 in w.core.store.runs && ExecutesOnce(w, acts, 1, 1)
  {
    var idle := Idle(1, TOOL_STORE, 1);
    ToolReachable(1, 1);
    IsAdmitted(idle, 1, 1);
    UnforcedRequest();
    var checking, loop := ChecksIn(Admitted(idle, 1, 1), 1, 1, 1);
    ReachStep(checking, RemoveTool(1, 1));
    w := ApplyIn(checking, RemoveTool(1, 1));
    assert SomeRipe(w.core.procs, 1, 1) by {
      assert w.core.procs[1].run == Some(1) && Ripe(w.core.procs[1].pc, 1);
    }
    DeletedToolsStillExecute(w, 1, 1);
    acts :| ExecutesOnce(w, acts, 1, 1);
  }
}
