/** Without new requests the system comes to rest: a measure decreases, and nothing is ever stuck. */
module Quiescence {
  import opened Domain
  import opened TraceTable
  import opened Store
  import opened Decisions
  import opened Protocol
  import opened RunInvariant
  import opened Invariant
  import opened Safety

  function LoopWeight(left: int): nat {
    if left <= 0 then 8 else 8 + 11 * left
  }

  /** An upper bound on the moves a process still has before it. */
  function Weight(pc: Pc): nat {
    match pc
    case LookupAgent => 618
    case CreateOrGetRun => 617
    case ReadMax(_, k) => 2 + Weight(k)
    case InsertRow(_, _, k) => 1 + Weight(k)
    case AcquireGlobal => 614
    case EnsureTenantSemaphore => 613
    case AcquireTenant => 612
    case MarkFailed(_, k) => 1 + Weight(k)
    case BeginExecution => 611
    case LoadRun => 602
    case LoadAgent(_, _) => 601
    case LoadTools(_, maxIterations, _) => 1 + LoopWeight(maxIterations)
    case Decide(loop) => LoopWeight(loop.maxIterations + 1 - loop.iteration)
    case CheckTool(loop, _, _) => 5 + LoopWeight(loop.maxIterations - loop.iteration)
    case CheckBinding(loop, _, _, _) => 4 + LoopWeight(loop.maxIterations - loop.iteration)
    case Finalize(_, _, _, k) => 1 + Weight(k)
    case Lost(_) => 0
    case Done => 0
    case Quit => 0
  }

  lemma EndingWeighs(reason: Reason, answer: string)
    ensures Weight(FailRun(reason)) == 3 && Weight(FinishRun(answer)) == 3
  {
    assert Weight(EndRun(EndFailed(reason))) == 2 + Weight(Done);
    assert Weight(EndRun(EndSuccess(answer))) == 2 + Weight(Done);
  }

  lemma RefusalWeighs(reason: Reason)
    ensures Weight(Refuse(reason)) == 5
  {
    assert Weight(EndRun(EndFailed(reason))) == 2 + Weight(Done);
  }

  lemma DecideDecreases(st: Store, t: Id, loop: LoopState, c: Choice)
    ensures Weight(DecideNext(st, t, loop, c)) < Weight(Decide(loop))
  {
    EndingWeighs(MaxIterationsExceeded, FINAL_ANSWER);
    var unbound := if UnboundActiveTools(st, t, loop.agent) == {} then None else Some(c.id);
    var decision := MockLlmDecision(loop, unbound);
    if loop.iteration <= loop.maxIterations && decision.Some? && decision.value.ToolCall? {
      var next := CheckTool(loop.(triggerConsumed := loop.triggerConsumed || loop.forced), decision.value.tool,
        decision.value.arguments);
      assert AfterDecision(loop, decision.value) == ReadMax(DecisionEvent(loop.iteration, decision.value), next);
    }
  }

  lemma CheckToolDecreases(st: Store, t: Id, pc: Pc, c: Choice)
    requires pc.CheckTool?
    ensures Weight(CheckToolNext(st, t, pc.loop, pc.tool, pc.arguments, c)) < Weight(pc)
  {
    EndingWeighs(InternalError, FINAL_ANSWER);
    EndingWeighs(ToolDeleted, FINAL_ANSWER);
    EndingWeighs(ToolNotAllowedForAgent, FINAL_ANSWER);
  }

  lemma CheckBindingDecreases(st: Store, t: Id, pc: Pc, c: Choice)
    requires pc.CheckBinding?
    ensures Weight(CheckBindingNext(st, t, pc.loop, pc.tool, pc.arguments, pc.record, c)) < Weight(pc)
  {
    EndingWeighs(InternalError, FINAL_ANSWER);
    EndingWeighs(ToolNotAllowedForAgent, FINAL_ANSWER);
    EndingWeighs(InvalidInputSchema, FINAL_ANSWER);
    EndingWeighs(InvalidToolArguments, FINAL_ANSWER);
    var loop' := pc.loop.(iteration := pc.loop.iteration + 1, toolResults := pc.loop.toolResults + 1);
    assert Weight(Decide(loop')) == LoopWeight(pc.loop.maxIterations - pc.loop.iteration);
  }

  /** The schema's bound on iterations bounds the loop. */
  lemma LoadDecreases(st: Store, t: Id, run: Id, pc: Pc, c: Choice)
    requires AgentChecks(st) && (pc.ReadMax? || pc.LoadRun? || pc.LoadAgent? || pc.LoadTools?)
    ensures Weight(ReadNext(st, t, run, pc, c)) < Weight(pc)
  {
  }

  lemma ReadsDecrease(st: Store, t: Id, run: Id, pc: Pc, c: Choice)
    requires AgentChecks(st) && Reads(pc)
    ensures Weight(ReadNext(st, t, run, pc, c)) < Weight(pc)
  {
    match pc
    case Decide(loop) => DecideDecreases(st, t, loop, c);
    case CheckTool(_, _, _) => CheckToolDecreases(st, t, pc, c);
    case CheckBinding(_, _, _, _) => CheckBindingDecreases(st, t, pc, c);
    case _ => LoadDecreases(st, t, run, pc, c);
  }

  lemma WritesDecrease(st: Store, t: Id, run: Id, pc: Pc)
    requires Writes(pc)
    ensures Weight(WriteNext(st, t, run, pc).1) < Weight(pc)
  {
  }

  /** A process that may still move: neither returned nor aborted. */
  predicate CanMove(p: Proc) {
    && !p.pc.Lost? && !Over(p)
    && (p.run.None? ==> p.pc.LookupAgent? || p.pc.CreateOrGetRun?)
  }

  lemma ProcessDecreases(st: Store, limit: nat, sems: map<Id, int>, p: Proc, c: Choice)
    requires AgentChecks(st) && CanMove(p)
    ensures Weight(Advance(st, limit, sems, p, c).proc.pc) < Weight(p.pc)
  {
    RefusalWeighs(SchedulerCapacityExceeded);
    RefusalWeighs(TenantConcurrencyLimitExceeded);
    assert Weight(ReadMax(RunCreated, AcquireGlobal)) == 616;
    if p.run.Some? && Writes(p.pc) {
      WritesDecrease(st, p.req.tenant, p.run.value, p.pc);
    } else if p.run.Some? && Reads(p.pc) {
      ReadsDecrease(st, p.req.tenant, p.run.value, p.pc, c);
    }
  }

  lemma ProcCanMove(st: Store, p: Proc)
    requires ProcOk(st, p) && !p.pc.Lost?
    ensures CanMove(p)
  {
  }

  lemma UnfinishedWeighs(p: Proc)
    requires CanMove(p)
    ensures Weight(p.pc) > 0
  {
  }

  // ---- the sum over all processes

  ghost function Total(procs: map<Id, Proc>): nat
    decreases |procs|
  {
    if procs == map[] then 0
    else
      var pid :| pid in procs;
      1 + Weight(procs[pid].pc) + Total(procs - {pid})
  }

  /** The sum does not depend on the order. */
  lemma {:induction false} TotalRemove(procs: map<Id, Proc>, pid: Id)
    requires pid in procs
    ensures Total(procs) == 1 + Weight(procs[pid].pc) + Total(procs - {pid})
    decreases |procs|
  {
    var q :| q in procs && Total(procs) == 1 + Weight(procs[q].pc) + Total(procs - {q});
    if q != pid {
      TotalRemove(procs - {q}, pid);
      TotalRemove(procs - {pid}, q);
      assert (procs - {q}) - {pid} == (procs - {pid}) - {q};
    }
  }

  lemma TotalUpdate(procs: map<Id, Proc>, pid: Id, p: Proc)
    requires pid in procs
    ensures Total(procs[pid := p]) - Weight(p.pc) == Total(procs) - Weight(procs[pid].pc)
  {
    TotalRemove(procs, pid);
    TotalRemove(procs[pid := p], pid);
    assert procs[pid := p] - {pid} == procs - {pid};
  }

  ghost function Measure(core: Core): nat {
    Total(core.procs)
  }

  /** An action of a process, as opposed to a new request or a change of tools and agents. */
  predicate OfProcess(a: Action) {
    a.Move? || a.Abort? || a.Settle?
  }

  lemma CommitDecreases(core: Core, pid: Id, o: Outcome)
    requires pid in core.procs && Weight(o.proc.pc) < Weight(core.procs[pid].pc)
    ensures Measure(Commit(core, pid, o)) < Measure(core)
  {
    TotalRemove(core.procs, pid);
    TotalUpdate(core.procs, pid, o.proc);
  }

  lemma MoveDecreases(core: Core, pid: Id, c: Choice)
    requires AgentChecks(core.store) && Enabled(core, Move(pid, c)) && CanMove(core.procs[pid])
    ensures Measure(Apply(core, Move(pid, c))) < Measure(core)
  {
    ProcessDecreases(core.store, core.limit, core.sems, core.procs[pid], c);
    CommitDecreases(core, pid, MoveOf(core, pid, c));
  }

  lemma AbortDecreases(core: Core, pid: Id)
    requires Enabled(core, Abort(pid)) && CanMove(core.procs[pid])
    ensures Measure(Apply(core, Abort(pid))) < Measure(core)
  {
    UnfinishedWeighs(core.procs[pid]);
    TotalUpdate(core.procs, pid, Abandoned(core.procs[pid]));
  }

  lemma StepDecreases(w: World, a: Action)
    requires Inv(w) && EnabledIn(w, a) && OfProcess(a)
    ensures Measure(ApplyIn(w, a).core) < Measure(w.core)
  {
    var p := w.core.procs[a.pid];
    assert ProcOk(w.core.store, p);
    if a.Settle? {
      TotalRemove(w.core.procs, a.pid);
    } else {
      ProcCanMove(w.core.store, p);
      if a.Move? {
        MoveDecreases(w.core, a.pid, a.c);
      } else {
        AbortDecreases(w.core, a.pid);
      }
    }
  }

  lemma {:induction false} LighterTotal(procs: map<Id, Proc>, procs': map<Id, Proc>)
    requires procs'.Keys == procs.Keys
    requires forall pid :: pid in procs ==> Weight(procs'[pid].pc) <= Weight(procs[pid].pc)
    ensures Total(procs') <= Total(procs)
    decreases |procs|
  {
    if procs != map[] {
      var pid :| pid in procs;
      TotalRemove(procs, pid);
      TotalRemove(procs', pid);
      LighterTotal(procs - {pid}, procs' - {pid});
    } else {
      assert procs' == map[];
    }
  }

  lemma SurroundingsDoNotIncrease(w: World, a: Action)
    requires EnabledIn(w, a) && !a.Arrive? && !OfProcess(a)
    ensures Measure(ApplyIn(w, a).core) <= Measure(w.core)
  {
    if a.Crash? {
      LighterTotal(w.core.procs, ApplyIn(w, a).core.procs);
    }
  }

  function ProcessActions(acts: seq<Action>): nat {
    if acts == [] then 0 else (if OfProcess(acts[0]) then 1 else 0) + ProcessActions(acts[1..])
  }

  predicate NoArrivals(acts: seq<Action>) {
    forall i | 0 <= i < |acts| :: !acts[i].Arrive?
  }

  /** With no new requests, every execution has only as many process actions as the measure allows. */
  lemma {:induction false} ExecutionsAreFinite(w: World, acts: seq<Action>)
    requires Inv(w) && Playable(w, acts) && NoArrivals(acts)
    ensures ProcessActions(acts) + Measure(Play(w, acts).core) <= Measure(w.core)
    decreases |acts|
  {
    if acts != [] {
      assert !acts[0].Arrive?;
      if OfProcess(acts[0]) {
        StepDecreases(w, acts[0]);
      } else {
        SurroundingsDoNotIncrease(w, acts[0]);
      }
      StepKeeps(w, acts[0]);
      assert NoArrivals(acts[1..]);
      ExecutionsAreFinite(ApplyIn(w, acts[0]), acts[1..]);
    }
  }

  /** Some generated id is always unused. */
  lemma FreshId(runs: map<Id, Run>) returns (id: Id)
    ensures id !in runs && id != NIL
  {
    id := Max(runs.Keys) + 1;
    assert id !in runs.Keys;
  }

  lemma SomeChoice(st: Store, p: Proc, granted: bool) returns (c: Choice)
    ensures Admissible(st, p, c) && c.granted == granted && !c.dbError
  {
    var id := FreshId(st.runs);
    var wanted: set<Id> := match p.pc
                  case CreateOrGetRun => RunsInScope(st, p.req.tenant, p.req.agent, p.req.key)
                  case LoadTools(_, _, _) => ListAgentTools(st, p.req.tenant, p.req.agent)
                  case Decide(loop) => UnboundActiveTools(st, p.req.tenant, loop.agent)
                  case _ => {};
    if wanted != {} {
      id :| id in wanted;
    }
    if p.pc.LoadTools? && ListAgentTools(st, p.req.tenant, p.pc.agent) != {} {
      id :| id in ListAgentTools(st, p.req.tenant, p.pc.agent);
    }
    c := Choice(id, granted, false);
  }

  /** No process ever waits for another one: each has an action of its own. */
  lemma NothingIsStuck(w: World, pid: Id) returns (a: Action)
    requires pid in w.core.procs
    ensures EnabledIn(w, a) && OfProcess(a) && a.pid == pid && !a.Abort?
  {
    var p := w.core.procs[pid];
    if p.pc.Lost? {
      a := Settle(pid, false, Choice(NIL, false, false));
    } else {
      var c := SomeChoice(w.core.store, p, w.free > 0);
      a := Move(pid, c);
    }
  }

  /** At rest every permit is back. */
  lemma AtRest(w: World)
    requires Reachable(w) && Measure(w.core) == 0
    ensures w.core.procs == map[] && w.free == w.globalMax
    ensures forall t :: t in w.core.sems ==> w.core.sems[t] == w.core.limit
  {
    assert w.core.procs == map[];
    PermitsConserved(w);
  }
}
