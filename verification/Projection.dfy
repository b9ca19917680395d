/**
 Tenant isolation over whole executions: erasing every action of the other tenants leaves a valid
 execution of one tenant alone, with the same rows, traces, semaphore and replies. The outcome of
 the global semaphore and the generated ids come from outside.
 */
module Projection {
  import opened Domain
  import opened TraceTable
  import opened Store
  import opened Protocol

  /** The tables without the rows of other tenants. */
  function Own(st: Store, t: Id): Store {
    Store(
      map x | x in st.tools && st.tools[x].tenant == t :: st.tools[x],
      map x | x in st.agents && st.agents[x].tenant == t :: st.agents[x],
      set b | b in st.bindings && b.tenant == t,
      map r | r in st.runs && st.runs[r].tenant == t :: st.runs[r],
      map k | k in st.traces && k.tenant == t :: st.traces[k])
  }

  function OwnSems(sems: map<Id, int>, t: Id): map<Id, int> {
    map s | s in sems && s == t :: sems[s]
  }

  function OwnProcs(procs: map<Id, Proc>, t: Id): map<Id, Proc> {
    map pid | pid in procs && procs[pid].req.tenant == t :: procs[pid]
  }

  function OwnReplies(replies: set<Reply>, t: Id): set<Reply> {
    set x | x in replies && x.tenant == t
  }

  /** What of the system belongs to one tenant. */
  function View(core: Core, t: Id): Core {
    Core(core.limit, Own(core.store, t), OwnProcs(core.procs, t), OwnSems(core.sems, t), OwnReplies(core.replies, t))
  }

  // ---- reads

  lemma OwnTrace(st: Store, t: Id, run: Id)
    ensures GetTrace(Own(st, t).traces, t, run) == GetTrace(st.traces, t, run)
    ensures MaxSeq(Own(st, t).traces, t, run) == MaxSeq(st.traces, t, run)
  {
    TraceFrame(st.traces, Own(st, t).traces, t, run);
  }

  lemma OwnSets(st: Store, t: Id, agent: Id, key: Option<string>)
    ensures ListTools(Own(st, t), t) == ListTools(st, t)
    ensures AgentToolIds(Own(st, t), t, agent) == AgentToolIds(st, t, agent)
    ensures ListAgentTools(Own(st, t), t, agent) == ListAgentTools(st, t, agent)
    ensures UnboundActiveTools(Own(st, t), t, agent) == UnboundActiveTools(st, t, agent)
    ensures RunsInScope(Own(st, t), t, agent, key) == RunsInScope(st, t, agent, key)
  {
    forall x ensures x in AgentToolIds(Own(st, t), t, agent) <==> x in AgentToolIds(st, t, agent) {
      var b := Binding(t, agent, x);
      assert b in st.bindings <==> x in AgentToolIds(st, t, agent);
      assert b in Own(st, t).bindings <==> x in AgentToolIds(Own(st, t), t, agent);
    }
  }

  /** Whatever a tenant can query, it sees the same with the other tenants' rows gone. */
  lemma ReadsAgree(st: Store, t: Id, id: Id)
    ensures GetRun(Own(st, t), t, id) == GetRun(st, t, id)
    ensures GetAgent(Own(st, t), t, id) == GetAgent(st, t, id)
    ensures GetTool(Own(st, t), t, id) == GetTool(st, t, id)
    ensures GetTrace(Own(st, t).traces, t, id) == GetTrace(st.traces, t, id)
    ensures ListTools(Own(st, t), t) == ListTools(st, t)
    ensures AgentToolIds(Own(st, t), t, id) == AgentToolIds(st, t, id)
  {
    OwnTrace(st, t, id);
    OwnSets(st, t, id, None);
  }

  lemma OwnCheckBinding(st: Store, t: Id, pc: Pc, c: Choice)
    requires pc.CheckBinding?
    ensures CheckBindingNext(Own(st, t), t, pc.loop, pc.tool, pc.arguments, pc.record, c)
         == CheckBindingNext(st, t, pc.loop, pc.tool, pc.arguments, pc.record, c)
  {
    OwnSets(st, t, pc.loop.agent, None);
  }

  lemma OwnReadNext(st: Store, t: Id, run: Id, pc: Pc, c: Choice)
    ensures ReadNext(Own(st, t), t, run, pc, c) == ReadNext(st, t, run, pc, c)
  {
    match pc
    case ReadMax(_, _) => OwnTrace(st, t, run);
    case LoadTools(agent, _, _) => OwnSets(st, t, agent, None);
    case Decide(loop) => OwnSets(st, t, loop.agent, None);
    case CheckBinding(_, _, _, _) => OwnCheckBinding(st, t, pc, c);
    case _ =>
  }

  // ---- writes

  lemma OwnUpdate(st: Store, t: Id, run: Id, row: Run)
    requires row.tenant == t
    ensures Own(UpdateRun(st, t, run, row), t) == UpdateRun(Own(st, t), t, run, row)
  {
  }

  lemma OwnWriteNext(st: Store, t: Id, run: Id, pc: Pc)
    ensures Own(WriteNext(st, t, run, pc).0, t) == WriteNext(Own(st, t), t, run, pc).0
    ensures WriteNext(st, t, run, pc).1 == WriteNext(Own(st, t), t, run, pc).1
  {
    match pc
    case InsertRow(event, number, k) =>
      var key := TraceKey(t, run, number);
      assert Own(InsertTrace(st, key, event), t).traces == InsertTrace(Own(st, t), key, event).traces;
    case MarkFailed(reason, k) =>
      if GetRun(st, t, run).Some? {
        OwnUpdate(st, t, run, FailedRow(st.runs[run], reason));
      }
    case BeginExecution =>
      if CanBegin(st, t, run) {
        OwnUpdate(st, t, run, StartedRow(st.runs[run]));
      }
    case Finalize(status, answer, why, k) =>
      if GetRun(st, t, run).Some? {
        OwnUpdate(st, t, run, FinalRow(st.runs[run], status, answer, why));
      }
    case _ =>
  }

  lemma ForeignUpdate(st: Store, t: Id, other: Id, run: Id, row: Run)
    requires other != t && row.tenant == other
    ensures Own(UpdateRun(st, other, run, row), t) == Own(st, t)
  {
  }

  lemma ForeignWriteNext(st: Store, t: Id, other: Id, run: Id, pc: Pc)
    requires other != t
    ensures Own(WriteNext(st, other, run, pc).0, t) == Own(st, t)
  {
    match pc
    case InsertRow(event, number, k) =>
      assert Own(InsertTrace(st, TraceKey(other, run, number), event), t).traces == Own(st, t).traces;
    case MarkFailed(reason, k) =>
      if GetRun(st, other, run).Some? {
        ForeignUpdate(st, t, other, run, FailedRow(st.runs[run], reason));
      }
    case BeginExecution =>
      if CanBegin(st, other, run) {
        ForeignUpdate(st, t, other, run, StartedRow(st.runs[run]));
      }
    case Finalize(status, answer, why, k) =>
      if GetRun(st, other, run).Some? {
        ForeignUpdate(st, t, other, run, FinalRow(st.runs[run], status, answer, why));
      }
    case _ =>
  }

  // ---- a process's move

  /** The outcome without what belongs to other tenants. */
  function OwnOutcome(o: Outcome, t: Id): Outcome {
    o.(store := Own(o.store, t), sems := OwnSems(o.sems, t))
  }

  lemma OwnCreate(st: Store, sems: map<Id, int>, p: Proc, c: Choice)
    requires p.pc.CreateOrGetRun? && Admissible(st, p, c)
    ensures Admissible(Own(st, p.req.tenant), p, c)
    ensures CreateNext(Own(st, p.req.tenant), OwnSems(sems, p.req.tenant), p, c)
         == OwnOutcome(CreateNext(st, sems, p, c), p.req.tenant)
  {
    var t := p.req.tenant;
    OwnSets(st, t, p.req.agent, p.req.key);
    var row := NewRun(t, p.req.agent, p.req.messages, p.req.key);
    assert Own(InsertRun(st, c.id, row), t).runs == InsertRun(Own(st, t), c.id, row).runs;
  }

  lemma OwnAdmissible(st: Store, p: Proc, c: Choice)
    requires Admissible(st, p, c)
    ensures Admissible(Own(st, p.req.tenant), p, c)
  {
    match p.pc
    case CreateOrGetRun => OwnSets(st, p.req.tenant, p.req.agent, p.req.key);
    case LoadTools(agent, _, _) => OwnSets(st, p.req.tenant, agent, None);
    case Decide(loop) => OwnSets(st, p.req.tenant, loop.agent, None);
    case _ =>
  }

  lemma OwnAcquire(st: Store, sems: map<Id, int>, p: Proc)
    ensures AcquireTenantNext(Own(st, p.req.tenant), OwnSems(sems, p.req.tenant), p)
         == OwnOutcome(AcquireTenantNext(st, sems, p), p.req.tenant)
  {
    var t := p.req.tenant;
    if t in sems {
      assert OwnSems(sems[t := sems[t] - 1], t) == OwnSems(sems, t)[t := sems[t] - 1];
    }
  }

  lemma OwnAdvance(st: Store, limit: nat, sems: map<Id, int>, p: Proc, c: Choice)
    requires Admissible(st, p, c)
    ensures var t := p.req.tenant;
            Advance(Own(st, t), limit, OwnSems(sems, t), p, c) == OwnOutcome(Advance(st, limit, sems, p, c), t)
  {
    var t := p.req.tenant;
    if p.pc.CreateOrGetRun? {
      OwnCreate(st, sems, p, c);
    } else if p.pc.AcquireTenant? {
      OwnAcquire(st, sems, p);
    } else if p.pc.EnsureTenantSemaphore? {
      assert OwnSems(sems[t := limit], t) == OwnSems(sems, t)[t := limit];
    } else if p.run.Some? && Writes(p.pc) {
      OwnWriteNext(st, t, p.run.value, p.pc);
    } else if p.run.Some? {
      OwnReadNext(st, t, p.run.value, p.pc, c);
    }
  }

  lemma ForeignCreate(st: Store, sems: map<Id, int>, p: Proc, c: Choice, t: Id)
    requires p.pc.CreateOrGetRun? && Admissible(st, p, c) && p.req.tenant != t
    ensures Own(CreateNext(st, sems, p, c).store, t) == Own(st, t)
  {
    var row := NewRun(p.req.tenant, p.req.agent, p.req.messages, p.req.key);
    if c.id !in st.runs {
      assert Own(InsertRun(st, c.id, row), t).runs == Own(st, t).runs;
    }
  }

  lemma ForeignSems(st: Store, limit: nat, sems: map<Id, int>, p: Proc, c: Choice, t: Id)
    requires p.req.tenant != t
    ensures OwnSems(Advance(st, limit, sems, p, c).sems, t) == OwnSems(sems, t)
  {
  }

  lemma ForeignAdvance(st: Store, limit: nat, sems: map<Id, int>, p: Proc, c: Choice, t: Id)
    requires Admissible(st, p, c) && p.req.tenant != t
    ensures Own(Advance(st, limit, sems, p, c).store, t) == Own(st, t)
  {
    if p.pc.CreateOrGetRun? {
      ForeignCreate(st, sems, p, c, t);
    } else if p.run.Some? && Writes(p.pc) {
      ForeignWriteNext(st, t, p.req.tenant, p.run.value, p.pc);
    }
  }

  // ---- an action

  /** Whose action it is; a crash concerns everyone. */
  predicate Concerns(core: Core, a: Action, t: Id) {
    match a
    case Arrive(_, req) => req.tenant == t
    case Move(pid, _) => pid in core.procs && core.procs[pid].req.tenant == t
    case Abort(pid) => pid in core.procs && core.procs[pid].req.tenant == t
    case Settle(pid, _, _) => pid in core.procs && core.procs[pid].req.tenant == t
    case NewTool(_, tool) => tool.tenant == t
    case RemoveTool(tenant, _) => tenant == t
    case NewAgent(_, agent, _) => agent.tenant == t
    case Crash => true
  }

  lemma OwnCommit(core: Core, pid: Id, o: Outcome, t: Id)
    requires pid in core.procs && core.procs[pid].req.tenant == t && o.proc.req.tenant == t
    requires o.reply.Some? ==> o.reply.value.tenant == t
    ensures Commit(View(core, t), pid, OwnOutcome(o, t)) == View(Commit(core, pid, o), t)
  {
    var core' := Commit(core, pid, o);
    assert OwnProcs(core.procs, t)[pid := o.proc] == OwnProcs(core.procs[pid := o.proc], t);
    assert OwnProcs(core.procs, t) - {pid} == OwnProcs(core.procs - {pid}, t);
    assert OwnSems(DropTenantPermit(o.sems, o.proc), t) == DropTenantPermit(OwnSems(o.sems, t), o.proc);
    assert OwnReplies(Replied(core.replies, o.reply), t) == Replied(OwnReplies(core.replies, t), o.reply);
  }

  lemma RepliesAreOwn(st: Store, limit: nat, sems: map<Id, int>, p: Proc, c: Choice)
    ensures var o := Advance(st, limit, sems, p, c);
            o.proc.req == p.req && (o.reply.Some? ==> o.reply.value.tenant == p.req.tenant)
  {
  }

  lemma OwnMove(core: Core, pid: Id, c: Choice, t: Id)
    requires Enabled(core, Move(pid, c)) && core.procs[pid].req.tenant == t
    ensures Enabled(View(core, t), Move(pid, c))
    ensures Apply(View(core, t), Move(pid, c)) == View(Apply(core, Move(pid, c)), t)
  {
    var p := core.procs[pid];
    OwnAdmissible(core.store, p, c);
    OwnAdvance(core.store, core.limit, core.sems, p, c);
    RepliesAreOwn(core.store, core.limit, core.sems, p, c);
    OwnCommit(core, pid, MoveOf(core, pid, c), t);
  }

  lemma OwnSettle(core: Core, pid: Id, commits: bool, c: Choice, t: Id)
    requires Enabled(core, Settle(pid, commits, c)) && core.procs[pid].req.tenant == t
    ensures Enabled(View(core, t), Settle(pid, commits, c))
    ensures Apply(View(core, t), Settle(pid, commits, c)) == View(Apply(core, Settle(pid, commits, c)), t)
  {
    if commits {
      OwnAdmissible(core.store, Revived(core.procs[pid]), c);
      OwnAdvance(core.store, core.limit, core.sems, Revived(core.procs[pid]), c);
    }
    assert OwnProcs(core.procs, t) - {pid} == OwnProcs(core.procs - {pid}, t);
  }

  lemma OwnAbort(core: Core, pid: Id, t: Id)
    requires Enabled(core, Abort(pid)) && core.procs[pid].req.tenant == t
    ensures Enabled(View(core, t), Abort(pid))
    ensures Apply(View(core, t), Abort(pid)) == View(Apply(core, Abort(pid)), t)
  {
    var p := core.procs[pid];
    assert OwnProcs(core.procs, t)[pid := Abandoned(p)] == OwnProcs(core.procs[pid := Abandoned(p)], t);
    assert OwnSems(DropTenantPermit(core.sems, p), t) == DropTenantPermit(OwnSems(core.sems, t), p);
  }

  lemma OwnNewAgent(st: Store, id: Id, agent: Agent, tools: set<Id>)
    ensures Own(CreateAgent(st, id, agent, tools), agent.tenant) == CreateAgent(Own(st, agent.tenant), id, agent, tools)
  {
    var t := agent.tenant;
    assert Own(CreateAgent(st, id, agent, tools), t).agents == Own(st, t).agents[id := agent];
    assert Own(CreateAgent(st, id, agent, tools), t).bindings == Own(st, t).bindings + BindingsFor(t, id, tools);
  }

  lemma OwnTables(core: Core, a: Action, t: Id)
    requires Enabled(core, a) && Concerns(core, a, t) && (a.NewTool? || a.RemoveTool? || a.NewAgent?)
    ensures Enabled(View(core, t), a)
    ensures Apply(View(core, t), a) == View(Apply(core, a), t)
  {
    var core' := Apply(core, a);
    match a
    case NewTool(id, tool) =>
      assert Own(core'.store, t).tools == Own(core.store, t).tools[id := tool];
    case RemoveTool(_, id) =>
      assert Own(core'.store, t).tools == DeleteTool(Own(core.store, t), t, id).tools;
    case NewAgent(id, agent, tools) =>
      OwnNewAgent(core.store, id, agent, tools);
  }

  lemma OwnProcesses(core: Core, a: Action, t: Id)
    requires Enabled(core, a) && Concerns(core, a, t) && (a.Arrive? || a.Crash?)
    ensures Enabled(View(core, t), a)
    ensures Apply(View(core, t), a) == View(Apply(core, a), t)
  {
    assert OwnProcs(Apply(core, a).procs, t) == Apply(View(core, t), a).procs;
  }

  /** An action of the tenant is possible in its view, and does there what it does in the whole system. */
  lemma OwnStep(core: Core, a: Action, t: Id)
    requires Enabled(core, a) && Concerns(core, a, t)
    ensures Enabled(View(core, t), a)
    ensures Apply(View(core, t), a) == View(Apply(core, a), t)
  {
    match a
    case Move(pid, c) => OwnMove(core, pid, c, t);
    case Abort(pid) => OwnAbort(core, pid, t);
    case Settle(pid, commits, c) => OwnSettle(core, pid, commits, c, t);
    case Arrive(_, _) => OwnProcesses(core, a, t);
    case Crash => OwnProcesses(core, a, t);
    case _ => OwnTables(core, a, t);
  }

  lemma ForeignCommit(core: Core, pid: Id, o: Outcome, t: Id)
    requires pid in core.procs && core.procs[pid].req.tenant != t && o.proc.req == core.procs[pid].req
    requires Own(o.store, t) == Own(core.store, t) && OwnSems(o.sems, t) == OwnSems(core.sems, t)
    requires o.reply.Some? ==> o.reply.value.tenant != t
    ensures View(Commit(core, pid, o), t) == View(core, t)
  {
    assert OwnProcs(core.procs[pid := o.proc], t) == OwnProcs(core.procs, t);
    assert OwnProcs(core.procs - {pid}, t) == OwnProcs(core.procs, t);
    assert OwnSems(DropTenantPermit(o.sems, o.proc), t) == OwnSems(core.sems, t);
    assert OwnReplies(Replied(core.replies, o.reply), t) == OwnReplies(core.replies, t);
  }

  lemma ForeignSettle(core: Core, pid: Id, commits: bool, c: Choice, t: Id)
    requires Enabled(core, Settle(pid, commits, c)) && core.procs[pid].req.tenant != t
    ensures View(Apply(core, Settle(pid, commits, c)), t) == View(core, t)
  {
    if commits {
      ForeignAdvance(core.store, core.limit, core.sems, Revived(core.procs[pid]), c, t);
    }
    assert OwnProcs(core.procs - {pid}, t) == OwnProcs(core.procs, t);
  }

  lemma ForeignSurroundings(core: Core, a: Action, t: Id)
    requires Enabled(core, a) && !Concerns(core, a, t)
    requires a.Arrive? || a.NewTool? || a.RemoveTool? || a.NewAgent? || a.Abort?
    ensures View(Apply(core, a), t) == View(core, t)
  {
    var core' := Apply(core, a);
    match a
    case Arrive(pid, req) =>
      assert OwnProcs(core'.procs, t) == OwnProcs(core.procs, t);
    case NewTool(id, tool) =>
      assert Own(core'.store, t).tools == Own(core.store, t).tools;
    case RemoveTool(_, id) =>
      assert Own(core'.store, t).tools == Own(core.store, t).tools;
    case NewAgent(id, agent, tools) =>
      assert Own(core'.store, t).agents == Own(core.store, t).agents;
      assert Own(core'.store, t).bindings == Own(core.store, t).bindings;
    case Abort(pid) =>
      assert OwnProcs(core'.procs, t) == OwnProcs(core.procs, t);
      assert OwnSems(core'.sems, t) == OwnSems(core.sems, t);
  }

  /** An action of another tenant changes nothing of the view. */
  lemma ForeignStep(core: Core, a: Action, t: Id)
    requires Enabled(core, a) && !Concerns(core, a, t)
    ensures View(Apply(core, a), t) == View(core, t)
  {
    match a
    case Move(pid, c) =>
      ForeignAdvance(core.store, core.limit, core.sems, core.procs[pid], c, t);
      ForeignSems(core.store, core.limit, core.sems, core.procs[pid], c, t);
      RepliesAreOwn(core.store, core.limit, core.sems, core.procs[pid], c);
      ForeignCommit(core, pid, MoveOf(core, pid, c), t);
    case Settle(pid, commits, c) => ForeignSettle(core, pid, commits, c, t);
    case _ => ForeignSurroundings(core, a, t);
  }

  // ---- executions

  /** A schedule in which the global permit is granted or not as the actions say. */
  ghost predicate CorePlayable(core: Core, acts: seq<Action>)
    decreases |acts|
  {
    acts == [] || (Enabled(core, acts[0]) && CorePlayable(Apply(core, acts[0]), acts[1..]))
  }

  ghost function CorePlay(core: Core, acts: seq<Action>): Core
    requires CorePlayable(core, acts)
    decreases |acts|
  {
    if acts == [] then core else CorePlay(Apply(core, acts[0]), acts[1..])
  }

  /** The schedule without the actions of other tenants. */
  ghost function Erase(core: Core, acts: seq<Action>, t: Id): seq<Action>
    requires CorePlayable(core, acts)
    decreases |acts|
  {
    if acts == [] then []
    else
      var rest := Erase(Apply(core, acts[0]), acts[1..], t);
      if Concerns(core, acts[0], t) then [acts[0]] + rest else rest
  }

  /** Erasing the other tenants' actions gives an execution of the tenant alone, with the same view at the end. */
  lemma {:induction false} NonInterference(core: Core, acts: seq<Action>, t: Id)
    requires CorePlayable(core, acts)
    ensures CorePlayable(View(core, t), Erase(core, acts, t))
    ensures CorePlay(View(core, t), Erase(core, acts, t)) == View(CorePlay(core, acts), t)
    decreases |acts|
  {
    if acts != [] {
      var a := acts[0];
      NonInterference(Apply(core, a), acts[1..], t);
      var rest := Erase(Apply(core, a), acts[1..], t);
      if Concerns(core, a, t) {
        OwnStep(core, a, t);
        assert ([a] + rest)[1..] == rest;
      } else {
        ForeignStep(core, a, t);
      }
    }
  }

  lemma {:induction false} WorldIsCore(w: World, acts: seq<Action>)
    requires Playable(w, acts)
    ensures CorePlayable(w.core, acts)
    ensures CorePlay(w.core, acts) == Play(w, acts).core
    decreases |acts|
  {
    if acts != [] {
      WorldIsCore(ApplyIn(w, acts[0]), acts[1..]);
    }
  }

  /** For the real system: a tenant's rows, trace and tool list are those of the erased execution. */
  lemma TenantsDoNotInterfere(w: World, acts: seq<Action>, t: Id, id: Id)
    requires Playable(w, acts)
    ensures CorePlayable(w.core, acts) && CorePlayable(View(w.core, t), Erase(w.core, acts, t))
    ensures var whole := Play(w, acts).core.store;
            var alone := CorePlay(View(w.core, t), Erase(w.core, acts, t)).store;
            && GetRun(whole, t, id) == GetRun(alone, t, id)
            && GetTrace(whole.traces, t, id) == GetTrace(alone.traces, t, id)
            && GetAgent(whole, t, id) == GetAgent(alone, t, id)
            && ListTools(whole, t) == ListTools(alone, t)
  {
    WorldIsCore(w, acts);
    NonInterference(w.core, acts, t);
    ReadsAgree(Play(w, acts).core.store, t, id);
  }
}
