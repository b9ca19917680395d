/** Every statement, seen from the rest of the store: constraints hold, and other runs stay untouched. */
module StatementSteps {
  import opened Domain
  import opened TraceTable
  import opened Store
  import opened TraceLanguage
  import opened Protocol
  import opened RunInvariant
  import opened RunSteps

  ghost predicate RunsOk(st: Store) {
    forall r :: r in st.runs ==> RunOk(st, r)
  }

  ghost predicate StoreOk(st: Store) {
    Constraints(st) && RunsOk(st)
  }

  /** All runs but `except` keep their row and their trace. */
  ghost predicate Frame(st: Store, st': Store, except: Option<Id>) {
    && Grows(st, st')
    && (forall q :: q in st.runs ==> q in st'.runs)
    && (forall q :: q in st.runs && Some(q) != except ==>
          st'.runs[q] == st.runs[q] && SameTrace(st.traces, st'.traces, st.runs[q].tenant, q))
  }

  lemma RunFrame(st: Store, st': Store, except: Option<Id>, q: Id)
    requires Frame(st, st', except) && q in st.runs && Some(q) != except && RunOk(st, q)
    ensures RunOk(st', q)
    ensures LogOf(st', q) == LogOf(st, q) && PhaseIn(st', q) == PhaseIn(st, q)
    ensures MaxSeq(st'.traces, st.runs[q].tenant, q) == MaxSeq(st.traces, st.runs[q].tenant, q)
  {
    TraceFrame(st.traces, st'.traces, st.runs[q].tenant, q);
  }

  lemma PlaceFrame(st: Store, st': Store, except: Option<Id>, p: Proc)
    requires p.run.Some? && PlaceOk(st, p) && Frame(st, st', except) && p.run != except && RunOk(st, p.run.value)
    ensures PlaceOk(st', p)
    ensures PhaseIn(st', p.run.value) == PhaseIn(st, p.run.value)
  {
    var r := p.run.value;
    RunFrame(st, st', except, r);
    ReadyStable(st, st', p.req.tenant, p.req.agent, SpecOf(st, st.runs[r]), p.pc, st.runs[r], PhaseIn(st, r));
  }

  lemma ProcFrame(st: Store, st': Store, except: Option<Id>, p: Proc)
    requires ProcOk(st, p) && Frame(st, st', except)
    requires p.run.Some? ==> p.run != except && RunOk(st, p.run.value)
    ensures ProcOk(st', p)
  {
    if p.run.Some? {
      PlaceFrame(st, st', except, p);
    }
  }

  lemma OnlyRunIsFrame(st: Store, st': Store, t: Id, run: Id)
    requires OnlyRun(st, st', t, run)
    ensures Frame(st, st', Some(run))
  {
  }

  /** Runs outside the frame's exception stay as they should be; so all do once the exception does. */
  lemma RunsFrame(st: Store, st': Store, run: Id)
    requires RunsOk(st) && Frame(st, st', Some(run)) && run in st'.runs && RunOk(st', run)
    requires forall q :: q in st'.runs && q != run ==> q in st.runs
    ensures RunsOk(st')
  {
    forall q | q in st'.runs ensures RunOk(st', q) {
      if q != run {
        RunFrame(st, st', Some(run), q);
      }
    }
  }

  lemma WriteKeepsConstraints(st: Store, st': Store, t: Id, run: Id)
    requires Constraints(st) && run in st.runs && st.runs[run].tenant == t
    requires OnlyRun(st, st', t, run) && SameIdentity(st.runs[run], st'.runs[run])
    ensures Constraints(st')
  {
    assert forall q :: q in st'.runs ==> q in st.runs && SameIdentity(st.runs[q], st'.runs[q]);
  }

  /** A fresh row: nothing refers to it yet, and its trace is empty. */
  lemma InsertRunStep(st: Store, id: Id, req: Request)
    requires TraceKeys(st) && id !in st.runs
    requires req.agent in st.agents && st.agents[req.agent].tenant == req.tenant
    ensures var row := NewRun(req.tenant, req.agent, req.messages, req.key);
            var st' := InsertRun(st, id, row);
            && RunOk(st', id) && LogOf(st', id) == []
            && Ready(st', req.tenant, req.agent, SpecOf(st', row), ReadMax(RunCreated, AcquireGlobal), row,
                 PhaseIn(st', id))
  {
    var row := NewRun(req.tenant, req.agent, req.messages, req.key);
    var st' := InsertRun(st, id, row);
    EmptyTrace(st'.traces, req.tenant, id);
    assert ReadyAppend(st', req.tenant, req.agent, SpecOf(st', row), RunCreated, AcquireGlobal, row, Empty);
  }

  lemma InsertRunIsFrame(st: Store, id: Id, row: Run)
    requires id !in st.runs
    ensures Frame(st, InsertRun(st, id, row), Some(id))
  {
  }

  lemma InsertRunKeepsConstraints(st: Store, id: Id, req: Request)
    requires Constraints(st) && id !in st.runs
    requires req.agent in st.agents && st.agents[req.agent].tenant == req.tenant
    requires RunsInScope(st, req.tenant, req.agent, req.key) == {}
    ensures Constraints(InsertRun(st, id, NewRun(req.tenant, req.agent, req.messages, req.key)))
  {
    var st' := InsertRun(st, id, NewRun(req.tenant, req.agent, req.messages, req.key));
    forall q | q in st.runs && st.runs[q].key == req.key && req.key.Some?
      ensures st.runs[q].tenant != req.tenant || st.runs[q].agent != req.agent
    {
      assert q !in RunsInScope(st, req.tenant, req.agent, req.key);
    }
    assert IdempotencyUnique(st');
  }

  // ---- the surroundings: tools come and are deleted, agents come

  lemma SurroundingsKeepRuns(st: Store, st': Store)
    requires StoreOk(st) && Grows(st, st') && st'.runs == st.runs && st'.traces == st.traces
    ensures Frame(st, st', None)
    ensures forall q :: q in st'.runs ==> RunOk(st', q)
    ensures RunKeys(st') && IdempotencyUnique(st') && TraceKeys(st')
  {
    forall q | q in st'.runs ensures RunOk(st', q) {
      RunFrame(st, st', None, q);
    }
  }

  lemma NewToolStep(st: Store, id: Id, tool: Tool)
    requires StoreOk(st) && id != NIL && id !in st.tools && !tool.deleted && ToolNameFree(st, tool.tenant, tool.name)
    ensures StoreOk(CreateTool(st, id, tool)) && Frame(st, CreateTool(st, id, tool), None)
  {
    SurroundingsKeepRuns(st, CreateTool(st, id, tool));
  }

  lemma DeletionKeepsTables(st: Store, t: Id, id: Id)
    requires NIL !in st.tools && ToolNamesUnique(st) && BindingKeys(st)
    ensures var st' := DeleteTool(st, t, id);
            NIL !in st'.tools && ToolNamesUnique(st') && BindingKeys(st') && Grows(st, st')
  {
  }

  lemma RemoveToolStep(st: Store, t: Id, id: Id)
    requires StoreOk(st)
    ensures StoreOk(DeleteTool(st, t, id)) && Frame(st, DeleteTool(st, t, id), None)
  {
    DeletionKeepsTables(st, t, id);
    SurroundingsKeepRuns(st, DeleteTool(st, t, id));
  }

  lemma NewAgentStep(st: Store, id: Id, agent: Agent, tools: set<Id>)
    requires StoreOk(st) && id !in st.agents && 0 < agent.maxIterations <= MAX_ITERATIONS_LIMIT
    requires AgentNameFree(st, agent.tenant, agent.name)
    requires forall x :: x in tools ==> x in st.tools && st.tools[x].tenant == agent.tenant
    ensures StoreOk(CreateAgent(st, id, agent, tools)) && Frame(st, CreateAgent(st, id, agent, tools), None)
  {
    var st' := CreateAgent(st, id, agent, tools);
    assert forall b :: b in BindingsFor(agent.tenant, id, tools) ==>
      b.agent == id && b.tenant == agent.tenant && b.tool in tools;
    SurroundingsKeepRuns(st, st');
    assert BindingKeys(st');
  }

  // ---- one move of a process, on the store

  /** What a move does to the store, and where it leaves the process. */
  ghost predicate Moved(st: Store, p: Proc, o: Outcome) {
    && StoreOk(o.store)
    && Frame(st, o.store, o.proc.run)
    && o.proc.req == p.req
    && (p.run.Some? ==> o.proc.run == p.run && p.run.value in st.runs && p.run.value in o.store.runs
                        && Transition(st.runs[p.run.value], o.store.runs[p.run.value])
                        && LogOf(st, p.run.value) <= LogOf(o.store, p.run.value))
    && (p.run.None? && o.proc.run.Some? ==> o.proc.run.value !in st.runs)
    && (p.run.None? && o.proc.run.None? ==> o.store == st)
    && (o.proc.run.Some? && !Over(o.proc) ==> PlaceOk(o.store, o.proc))
    && (o.proc.pc.Done? ==> o.proc.run.Some? && o.proc.run.value in o.store.runs
                            && PhaseIn(o.store, o.proc.run.value).Ended?)
  }

  lemma FrameSelf(st: Store, except: Option<Id>)
    ensures Frame(st, st, except)
  {
  }

  /** A move that leaves the store alone. */
  lemma QuietlyMoved(st: Store, p: Proc, o: Outcome)
    requires StoreOk(st) && o.store == st && o.proc.req == p.req && o.proc.run == p.run
    requires p.run.Some? ==> p.run.value in st.runs
    requires p.run.Some? && !Over(o.proc) ==> PlaceOk(st, o.proc)
    requires !o.proc.pc.Done?
    ensures Moved(st, p, o)
  {
    FrameSelf(st, o.proc.run);
  }

  lemma StillReads(st: Store, p: Proc, c: Choice)
    requires p.run.Some? && Reads(p.pc)
    ensures var pc' := ReadNext(st, p.req.tenant, p.run.value, p.pc, c);
            && !pc'.Lost? && !pc'.Done?
            && (pc'.InsertRow? ==> pc'.number == MaxSeq(st.traces, p.req.tenant, p.run.value) + 1)
  {
  }

  lemma ReadPlace(st: Store, p: Proc, c: Choice)
    requires Lookups(st) && p.run.Some? && PlaceOk(st, p) && RunOk(st, p.run.value) && Reads(p.pc)
             && Admissible(st, p, c)
    ensures var p' := p.(pc := ReadNext(st, p.req.tenant, p.run.value, p.pc, c));
            !Over(p') ==> PlaceOk(st, p')
  {
    ReadStep(st, p, c);
    StillReads(st, p, c);
  }

  lemma ReadMoved(st: Store, p: Proc, c: Choice, o: Outcome)
    requires StoreOk(st) && p.run.Some? && PlaceOk(st, p) && Reads(p.pc) && Admissible(st, p, c)
    requires o.store == st && o.proc == p.(pc := ReadNext(st, p.req.tenant, p.run.value, p.pc, c))
    ensures Moved(st, p, o)
  {
    ReadPlace(st, p, c);
    StillReads(st, p, c);
    QuietlyMoved(st, p, o);
  }

  lemma WrittenPlace(st: Store, st': Store, p: Proc, pc: Pc)
    requires p.run.Some? && PlaceOk(st, p) && Written(st, st', p.req.tenant, p.req.agent, p.run.value, pc)
    ensures pc.Done? || PlaceOk(st', p.(pc := pc))
    ensures pc.Done? ==> PhaseIn(st', p.run.value).Ended?
  {
  }

  lemma WrittenStore(st: Store, st': Store, t: Id, a: Id, run: Id, pc: Pc)
    requires StoreOk(st) && run in st.runs && st.runs[run].tenant == t && Written(st, st', t, a, run, pc)
    ensures StoreOk(st') && Frame(st, st', Some(run))
  {
    WriteKeepsConstraints(st, st', t, run);
    OnlyRunIsFrame(st, st', t, run);
    RunsFrame(st, st', run);
  }

  lemma WriteMoved(st: Store, p: Proc, o: Outcome)
    requires StoreOk(st) && p.run.Some? && PlaceOk(st, p) && Writes(p.pc)
    requires (o.store, o.proc.pc) == WriteNext(st, p.req.tenant, p.run.value, p.pc) && o.proc == p.(pc := o.proc.pc)
    ensures Moved(st, p, o) && !o.proc.pc.Quit?
  {
    WriteStep(st, p);
    WrittenStore(st, o.store, p.req.tenant, p.req.agent, p.run.value, o.proc.pc);
    WrittenPlace(st, o.store, p, o.proc.pc);
  }

  lemma CreateMoved(st: Store, p: Proc, c: Choice, o: Outcome)
    requires StoreOk(st) && p.run.None? && p.pc.CreateOrGetRun? && Admissible(st, p, c)
    requires o.store == CreateNext(st, o.sems, p, c).store && o.proc == CreateNext(st, o.sems, p, c).proc
    ensures Moved(st, p, o)
  {
    var req := p.req;
    if GetAgent(st, req.tenant, req.agent).Some? && RunsInScope(st, req.tenant, req.agent, req.key) == {} {
      InsertRunStep(st, c.id, req);
      InsertRunIsFrame(st, c.id, NewRun(req.tenant, req.agent, req.messages, req.key));
      InsertRunKeepsConstraints(st, c.id, req);
      RunsFrame(st, o.store, c.id);
    } else {
      QuietlyMoved(st, p, o);
    }
  }

  lemma RefusePlace(st: Store, p: Proc, reason: Reason)
    requires p.run.Some? && PlaceOk(st, p) && RunOk(st, p.run.value) && Capacity(reason)
    requires p.pc.AcquireGlobal? || p.pc.AcquireTenant?
    ensures PlaceOk(st, p.(pc := Refuse(reason)))
  {
    var row := st.runs[p.run.value];
    RefuseReady(st, p.req.tenant, p.req.agent, SpecOf(st, row), reason, row);
  }

  lemma AcquirePlace(st: Store, p: Proc, pc: Pc)
    requires p.run.Some? && PlaceOk(st, p)
    requires p.pc.AcquireGlobal? || p.pc.EnsureTenantSemaphore? || p.pc.AcquireTenant?
    requires pc.EnsureTenantSemaphore? || pc.AcquireTenant? || pc.BeginExecution?
    ensures PlaceOk(st, p.(pc := pc))
  {
  }

  lemma PermitsDoNotMatter(st: Store, p: Proc, q: Proc)
    requires p.run.Some? && PlaceOk(st, p) && q == p.(permits := q.permits)
    ensures PlaceOk(st, q)
  {
  }

  lemma SemaphoreMoved(st: Store, p: Proc, o: Outcome)
    requires StoreOk(st) && p.run.Some? && PlaceOk(st, p)
    requires p.pc.AcquireGlobal? || p.pc.EnsureTenantSemaphore? || p.pc.AcquireTenant?
    requires o.store == st && o.proc == p.(pc := o.proc.pc, permits := o.proc.permits)
    requires
      || (o.proc.pc == Refuse(SchedulerCapacityExceeded) && p.pc.AcquireGlobal?)
      || (o.proc.pc == Refuse(TenantConcurrencyLimitExceeded) && p.pc.AcquireTenant?)
      || o.proc.pc.EnsureTenantSemaphore? || o.proc.pc.AcquireTenant? || o.proc.pc.BeginExecution?
    ensures Moved(st, p, o)
  {
    if o.proc.pc.MarkFailed? {
      RefusePlace(st, p, o.proc.pc.reason);
    } else {
      AcquirePlace(st, p, o.proc.pc);
    }
    PermitsDoNotMatter(st, p.(pc := o.proc.pc), o.proc);
    QuietlyMoved(st, p, o);
  }

  lemma NewcomerMoves(st: Store, limit: nat, sems: map<Id, int>, p: Proc, c: Choice)
    requires StoreOk(st) && p.run.None? && (p.pc.LookupAgent? || p.pc.CreateOrGetRun?) && Admissible(st, p, c)
    ensures Moved(st, p, Advance(st, limit, sems, p, c))
  {
    var o := Advance(st, limit, sems, p, c);
    if p.pc.CreateOrGetRun? {
      CreateMoved(st, p, c, o);
    } else {
      QuietlyMoved(st, p, o);
    }
  }

  lemma OwnerPc(st: Store, p: Proc)
    requires p.run.Some? && PlaceOk(st, p) && !p.pc.Lost?
    ensures Writes(p.pc) || Reads(p.pc) || p.pc.AcquireGlobal? || p.pc.EnsureTenantSemaphore? || p.pc.AcquireTenant?
  {
  }

  /** The move of a process that has a run, by kind of program counter. */
  ghost predicate ByKind(st: Store, p: Proc, c: Choice, o: Outcome)
    requires p.run.Some?
  {
    && (Writes(p.pc) ==> (o.store, o.proc.pc) == WriteNext(st, p.req.tenant, p.run.value, p.pc))
    && (Reads(p.pc) ==> o.store == st && o.proc.pc == ReadNext(st, p.req.tenant, p.run.value, p.pc, c))
    && (Writes(p.pc) || Reads(p.pc) ==> o.proc == p.(pc := o.proc.pc))
    && (p.pc.AcquireGlobal? || p.pc.EnsureTenantSemaphore? || p.pc.AcquireTenant? ==>
          && o.store == st && o.proc == p.(pc := o.proc.pc, permits := o.proc.permits)
          && (|| (o.proc.pc == Refuse(SchedulerCapacityExceeded) && p.pc.AcquireGlobal?)
              || (o.proc.pc == Refuse(TenantConcurrencyLimitExceeded) && p.pc.AcquireTenant?)
              || o.proc.pc.EnsureTenantSemaphore? || o.proc.pc.AcquireTenant? || o.proc.pc.BeginExecution?))
  }

  lemma AdvanceByKind(st: Store, limit: nat, sems: map<Id, int>, p: Proc, c: Choice)
    requires p.run.Some? && !p.pc.LookupAgent? && !p.pc.CreateOrGetRun?
    ensures ByKind(st, p, c, Advance(st, limit, sems, p, c))
  {
  }

  lemma OwnerMovesTo(st: Store, p: Proc, c: Choice, o: Outcome)
    requires StoreOk(st) && p.run.Some? && PlaceOk(st, p) && !p.pc.Lost? && Admissible(st, p, c)
    requires ByKind(st, p, c, o)
    ensures Moved(st, p, o)
  {
    OwnerPc(st, p);
    if Writes(p.pc) {
      WriteMoved(st, p, o);
    } else if Reads(p.pc) {
      ReadMoved(st, p, c, o);
    } else {
      SemaphoreMoved(st, p, o);
    }
  }

  lemma OwnerMoves(st: Store, limit: nat, sems: map<Id, int>, p: Proc, c: Choice)
    requires StoreOk(st) && p.run.Some? && PlaceOk(st, p) && !p.pc.Lost? && Admissible(st, p, c)
    ensures Moved(st, p, Advance(st, limit, sems, p, c))
  {
    AdvanceByKind(st, limit, sems, p, c);
    OwnerMovesTo(st, p, c, Advance(st, limit, sems, p, c));
  }
}
