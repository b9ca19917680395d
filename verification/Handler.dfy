/** What `start_run` and `schedule_run` amount to when nothing interferes, and that the machine can do it. */
module Handler {
  import opened Domain
  import opened Store
  import opened Protocol
  import opened Solo
  import opened Embedding
  import opened Runtime
  import opened RunInvariant

  /** What all requests share: the tables, the tenants' free permits, the free global permits. */
  datatype Platform = Platform(store: Store, sems: map<Id, int>, free: int)

  function PlatformOf(w: World): Platform {
    Platform(w.core.store, w.core.sems, w.free)
  }

  /** What a caller of `start_run` gets. */
  datatype StartResult =
    | Replied(run: Id, status: Status)
    | AgentNotFound
    | NoMessages
    | DatabaseError
    | Refused(reason: Reason)

  function Ensured(sems: map<Id, int>, limit: nat, t: Id): (r: map<Id, int>)
    ensures t in r
  {
    if t in sems then sems else sems[t := limit]
  }

  /** Why a run cannot be scheduled now. */
  function Verdict(limit: nat, a: Platform, t: Id): Option<Reason> {
    if a.free <= 0 then Some(SchedulerCapacityExceeded)
    else if Ensured(a.sems, limit, t)[t] <= 0 then Some(TenantConcurrencyLimitExceeded)
    else None
  }

  ghost function RefusedStore(st: Store, t: Id, run: Id, reason: Reason): Store {
    Appended(Appended(MarkRunFailed(st, t, run, reason), t, run, Rejected(reason)), t, run, EndFailed(reason))
  }

  /** Either one permit of each kind is taken, or the refusal is recorded and no permit is. */
  ghost function Scheduled(limit: nat, a: Platform, t: Id, run: Id): Platform {
    var sems := Ensured(a.sems, limit, t);
    match Verdict(limit, a, t)
    case None => Platform(a.store, sems[t := sems[t] - 1], a.free - 1)
    case Some(reason) =>
      Platform(RefusedStore(a.store, t, run, reason), if a.free <= 0 then a.sems else sems, a.free)
  }

  /**
   The effect and the result of one `start_run`; `id` is the id a new row would get. A key that stands for
   a run is replayed, unless the database refuses the SELECT in the failed transaction.
   */
  ghost predicate StartsAs(limit: nat, a: Platform, req: Request, id: Id, a': Platform, result: StartResult) {
    var t := req.tenant;
    var scope := RunsInScope(a.store, t, req.agent, req.key);
    if GetAgent(a.store, t, req.agent).None? then
      a' == a && result.AgentNotFound?
    else if req.messages == [] then
      a' == a && result.NoMessages?
    else if scope != {} then
      a' == a && (result.DatabaseError? ||
                  (result.Replied? && result.run in scope && result.status == a.store.runs[result.run].status))
    else
      var b := a.(store := RecordedStore(a.store, req, id));
      && a' == Scheduled(limit, b, t, id)
      && result == match Verdict(limit, b, t)
                   case None => Replied(id, Pending)
                   case Some(reason) => Refused(reason)
  }

  // ---- a refusal

  lemma RefusalLeads(st: Store, p: Proc, reason: Reason)
    requires p.run.Some? && p.pc == Refuse(reason)
    ensures Leads(st, p, RefusedStore(st, p.req.tenant, p.run.value, reason), p.(pc := Done), NIL)
  {
    var failed := MarkRunFailed(st, p.req.tenant, p.run.value, reason);
    LeadsNowhere(st, p, NIL);
    LeadsWrite(st, p, st, p, NIL);
    LeadsAppend(st, p, failed, p.(pc := p.pc.k), NIL);
    LeadsAppend(st, p, Appended(failed, p.req.tenant, p.run.value, Rejected(reason)),
      p.(pc := EndRun(EndFailed(reason))), NIL);
  }

  lemma RefusalGoes(w0: World, w: World, pid: Id, reason: Reason)
    requires Goes(w0, w, pid) && pid in w.core.procs && w.core.procs[pid].run.Some?
    requires w.core.procs[pid].pc == Refuse(reason) && !w.core.procs[pid].permits.BothPermits?
    ensures var p := w.core.procs[pid];
            var st := RefusedStore(w.core.store, p.req.tenant, p.run.value, reason);
            Goes(w0, World(w.core.(store := st, procs := w.core.procs - {pid}), w.globalMax, w.free + GlobalHeld(p)),
              pid)
  {
    var p := w.core.procs[pid];
    RefusalLeads(w.core.store, p, reason);
    WorldAtItself(w, pid);
    SoloGoes(w0, w, pid, w.core.store, p, RefusedStore(w.core.store, p.req.tenant, p.run.value, reason),
      p.(pc := Done), NIL);
  }

  // ---- the semaphores

  ghost predicate AtSchedule(w: World, pid: Id) {
    && pid in w.core.procs
    && var p := w.core.procs[pid]; p.run.Some? && p.pc.AcquireGlobal? && p.permits.NoPermit?
  }

  /** The world after `schedule_run`: a task in place of the handler, or no process at all. */
  function AfterSchedule(w: World, pid: Id, a: Platform, spawned: bool): World
    requires pid in w.core.procs && w.core.procs[pid].run.Some?
  {
    var p := w.core.procs[pid];
    var procs := if spawned then w.core.procs[pid := Spawned(p.req, p.run.value)] else w.core.procs - {pid};
    var replies := if spawned then w.core.replies + {Reply(p.req.tenant, p.req.agent, p.req.key, p.run.value, Pending)}
      else w.core.replies;
    World(Core(w.core.limit, a.store, procs, a.sems, replies), w.globalMax, a.free)
  }

  lemma GlobalMove(w: World, pid: Id) returns (w': World)
    requires AtSchedule(w, pid)
    ensures EnabledIn(w, Move(pid, Choice(NIL, w.free > 0, false)))
            && w' == ApplyIn(w, Move(pid, Choice(NIL, w.free > 0, false)))
    ensures var p := w.core.procs[pid];
            w' == if w.free > 0 then
                    World(w.core.(procs := w.core.procs[pid := p.(permits := GlobalPermit,
                      pc := EnsureTenantSemaphore)]), w.globalMax, w.free - 1)
                  else
                    World(w.core.(procs := w.core.procs[pid := p.(pc := Refuse(SchedulerCapacityExceeded))]),
                      w.globalMax, w.free)
  {
    w' := ApplyIn(w, Move(pid, Choice(NIL, w.free > 0, false)));
  }

  lemma EnsureMove(w: World, pid: Id, c: Choice) returns (w': World)
    requires pid in w.core.procs && w.core.procs[pid].pc.EnsureTenantSemaphore?
    ensures EnabledIn(w, Move(pid, c)) && w' == ApplyIn(w, Move(pid, c))
    ensures var p := w.core.procs[pid];
            w' == World(w.core.(sems := Ensured(w.core.sems, w.core.limit, p.req.tenant),
              procs := w.core.procs[pid := p.(pc := AcquireTenant)]), w.globalMax, w.free)
  {
    w' := ApplyIn(w, Move(pid, c));
  }

  lemma TenantMove(w: World, pid: Id, c: Choice) returns (w': World)
    requires pid in w.core.procs && w.core.procs[pid].pc.AcquireTenant? && w.core.procs[pid].run.Some?
    requires w.core.procs[pid].req.tenant in w.core.sems
    ensures EnabledIn(w, Move(pid, c)) && w' == ApplyIn(w, Move(pid, c))
    ensures var p := w.core.procs[pid];
            var t := p.req.tenant;
            w' == if w.core.sems[t] > 0 then
                    AfterSchedule(w, pid, Platform(w.core.store, w.core.sems[t := w.core.sems[t] - 1], w.free), true)
                  else
                    World(w.core.(procs := w.core.procs[pid := p.(pc := Refuse(TenantConcurrencyLimitExceeded))]),
                      w.globalMax, w.free)
  {
    w' := ApplyIn(w, Move(pid, c));
  }

  /** The world once the global permit is taken and the tenant has its semaphore. */
  function AtTenant(w: World, pid: Id): World
    requires pid in w.core.procs
  {
    var p := w.core.procs[pid];
    World(w.core.(sems := Ensured(w.core.sems, w.core.limit, p.req.tenant),
                  procs := w.core.procs[pid := p.(permits := GlobalPermit, pc := AcquireTenant)]),
          w.globalMax, w.free - 1)
  }

  lemma ToTenantGoes(w0: World, w: World, w1: World, pid: Id)
    requires Goes(w0, w1, pid) && AtSchedule(w, pid) && w.free > 0
    requires w1 == World(w.core.(procs := w.core.procs[pid := w.core.procs[pid].(permits := GlobalPermit,
             pc := EnsureTenantSemaphore)]),
                         w.globalMax, w.free - 1)
    ensures Goes(w0, AtTenant(w, pid), pid)
  {
    var c, p := Choice(NIL, false, false), w.core.procs[pid];
    var w2 := EnsureMove(w1, pid, c);
    assert w2.core.procs == AtTenant(w, pid).core.procs;
    GoesOn(w0, w1, pid, c);
  }

  lemma FromTenantGoes(w0: World, w: World, pid: Id)
    requires AtSchedule(w, pid) && Goes(w0, AtTenant(w, pid), pid) && w.free > 0
    ensures var p := w.core.procs[pid];
            Goes(w0, AfterSchedule(w, pid, Scheduled(w.core.limit, PlatformOf(w), p.req.tenant, p.run.value),
                                   Verdict(w.core.limit, PlatformOf(w), p.req.tenant).None?), pid)
  {
    var c, p, w2 := Choice(NIL, false, false), w.core.procs[pid], AtTenant(w, pid);
    var w3 := TenantMove(w2, pid, c);
    GoesOn(w0, w2, pid, c);
    if w2.core.sems[p.req.tenant] > 0 {
      assert w2.core.procs[pid := Spawned(p.req, p.run.value)] == w.core.procs[pid := Spawned(p.req, p.run.value)];
    } else {
      RefusalGoes(w0, w3, pid, TenantConcurrencyLimitExceeded);
      assert w3.core.procs - {pid} == w.core.procs - {pid};
    }
  }

  /** `schedule_run` alone is an execution of the machine. */
  lemma ScheduleGoes(w0: World, w: World, pid: Id)
    requires Goes(w0, w, pid) && AtSchedule(w, pid)
    ensures var p := w.core.procs[pid];
            Goes(w0, AfterSchedule(w, pid, Scheduled(w.core.limit, PlatformOf(w), p.req.tenant, p.run.value),
                                   Verdict(w.core.limit, PlatformOf(w), p.req.tenant).None?), pid)
  {
    var w1 := GlobalMove(w, pid);
    GoesOn(w0, w, pid, Choice(NIL, w.free > 0, false));
    if w.free <= 0 {
      RefusalGoes(w0, w1, pid, SchedulerCapacityExceeded);
      assert w1.core.procs - {pid} == w.core.procs - {pid};
    } else {
      ToTenantGoes(w0, w, w1, pid);
      FromTenantGoes(w0, w, pid);
    }
  }

  // ---- the whole handler

  /** The process of a request that has just arrived. */
  function Arrived(req: Request): Proc {
    Proc(req, None, NoPermit, LookupAgent)
  }

  /** The world after `start_run`. */
  function AfterStart(w: World, pid: Id, req: Request, a: Platform, result: StartResult): World {
    var procs := if result.Replied? && result.run !in w.core.store.runs
                 then w.core.procs[pid := Spawned(req, result.run)]
                 else w.core.procs - {pid};
    var replies := if result.Replied?
                   then w.core.replies + {Reply(req.tenant, req.agent, req.key, result.run, result.status)}
                   else w.core.replies;
    World(Core(w.core.limit, a.store, procs, a.sems, replies), w.globalMax, a.free)
  }

  lemma LookupMove(w: World, pid: Id, req: Request, c: Choice) returns (w': World)
    requires pid in w.core.procs && w.core.procs[pid] == Arrived(req)
    ensures Goes(w, w', pid)
    ensures w' == if GetAgent(w.core.store, req.tenant, req.agent).None? || req.messages == [] then
                    World(w.core.(procs := w.core.procs - {pid}), w.globalMax, w.free)
                  else
                    World(w.core.(procs := w.core.procs[pid := Arrived(req).(pc := CreateOrGetRun)]), w.globalMax,
                      w.free)
  {
    w' := ApplyIn(w, Move(pid, c));
    GoesNowhere(w, pid);
    GoesOn(w, w, pid, c);
  }

  /** The handler's process once its run has been inserted. */
  function Inserted(req: Request, run: Id): Proc {
    Proc(req, Some(run), NoPermit, ReadMax(RunCreated, AcquireGlobal))
  }

  lemma CreateMove(w: World, pid: Id, req: Request, run: Id, refused: bool) returns (w': World)
    requires pid in w.core.procs && w.core.procs[pid] == Arrived(req).(pc := CreateOrGetRun)
    requires GetAgent(w.core.store, req.tenant, req.agent).Some?
    requires var scope := RunsInScope(w.core.store, req.tenant, req.agent, req.key);
             if scope == {} then run !in w.core.store.runs && run != NIL else run in scope
    ensures EnabledIn(w, Move(pid, Choice(run, false, refused)))
            && w' == ApplyIn(w, Move(pid, Choice(run, false, refused)))
    ensures var st, row := w.core.store, NewRun(req.tenant, req.agent, req.messages, req.key);
            w' == if RunsInScope(st, req.tenant, req.agent, req.key) == {} then
                    World(w.core.(store := InsertRun(st, run, row), procs := w.core.procs[pid := Inserted(req, run)]),
                      w.globalMax, w.free)
                  else if refused then
                    World(w.core.(procs := w.core.procs - {pid}), w.globalMax, w.free)
                  else
                    World(w.core.(procs := w.core.procs - {pid},
                                  replies := w.core.replies + {Reply(req.tenant, req.agent, req.key, run,
                                    st.runs[run].status)}),
                          w.globalMax, w.free)
  {
    w' := ApplyIn(w, Move(pid, Choice(run, false, refused)));
  }

  /** The tables with the new run and its first event. */
  ghost function RecordedStore(st: Store, req: Request, id: Id): Store {
    Appended(InsertRun(st, id, NewRun(req.tenant, req.agent, req.messages, req.key)), req.tenant, id, RunCreated)
  }

  /** The world in which the handler has created its run and comes to `schedule_run`. */
  ghost function AtSchedulingOf(w: World, pid: Id, req: Request, id: Id): World {
    WorldAt(w, pid, RecordedStore(w.core.store, req, id), Inserted(req, id).(pc := AcquireGlobal))
  }

  lemma InsertedGoes(w0: World, w: World, pid: Id, req: Request, run: Id, base: World)
    requires Goes(w0, w, pid) && w == WorldAt(base, pid, w.core.store, Inserted(req, run))
    ensures Goes(w0, WorldAt(base, pid, Appended(w.core.store, req.tenant, run, RunCreated),
            Inserted(req, run).(pc := AcquireGlobal)), pid)
  {
    var p, st := Inserted(req, run), w.core.store;
    LeadsNowhere(st, p, NIL);
    LeadsAppend(st, p, st, p, NIL);
    SoloGoes(w0, base, pid, st, p, Appended(st, req.tenant, run, RunCreated), p.(pc := AcquireGlobal), NIL);
  }

  /** Up to `schedule_run`, for a request that creates a run. */
  lemma ToScheduleGoes(w: World, pid: Id, req: Request, id: Id)
    requires pid in w.core.procs && w.core.procs[pid] == Arrived(req) && id !in w.core.store.runs && id != NIL
    requires GetAgent(w.core.store, req.tenant, req.agent).Some? && req.messages != []
    requires RunsInScope(w.core.store, req.tenant, req.agent, req.key) == {}
    ensures Goes(w, AtSchedulingOf(w, pid, req, id), pid)
  {
    var w1 := LookupMove(w, pid, req, Choice(NIL, false, false));
    var w2 := CreateMove(w1, pid, req, id, false);
    GoesOn(w, w1, pid, Choice(id, false, false));
    assert w2 == WorldAt(w, pid, w2.core.store, Inserted(req, id)) by {
      assert w1.core.procs[pid := Inserted(req, id)] == w.core.procs[pid := Inserted(req, id)];
    }
    InsertedGoes(w, w2, pid, req, id, w);
  }

  lemma AfterInserted(w: World, pid: Id, req: Request, id: Id, st: Store, a: Platform, refusal: Option<Reason>,
                      result: StartResult)
    requires id !in w.core.store.runs
    requires result == match refusal case None => Replied(id, Pending) case Some(reason) => Refused(reason)
    ensures AfterSchedule(WorldAt(w, pid, st, Inserted(req, id).(pc := AcquireGlobal)), pid, a, refusal.None?)
         == AfterStart(w, pid, req, a, result)
  {
    var p := Inserted(req, id).(pc := AcquireGlobal);
    assert w.core.procs[pid := p] - {pid} == w.core.procs - {pid};
    assert w.core.procs[pid := p][pid := Spawned(req, id)] == w.core.procs[pid := Spawned(req, id)];
  }

  lemma NewRunGoes(w: World, pid: Id, req: Request, id: Id, a: Platform, result: StartResult)
    requires pid in w.core.procs && w.core.procs[pid] == Arrived(req)
    requires id !in w.core.store.runs && id != NIL && StartsAs(w.core.limit, PlatformOf(w), req, id, a, result)
    requires GetAgent(w.core.store, req.tenant, req.agent).Some? && req.messages != []
    requires RunsInScope(w.core.store, req.tenant, req.agent, req.key) == {}
    ensures Goes(w, AfterStart(w, pid, req, a, result), pid)
  {
    var b := PlatformOf(w).(store := RecordedStore(w.core.store, req, id));
    ToScheduleGoes(w, pid, req, id);
    ScheduleGoes(w, AtSchedulingOf(w, pid, req, id), pid);
    AfterInserted(w, pid, req, id, b.store, a, Verdict(w.core.limit, b, req.tenant), result);
  }

  /** Some run that the request's key stands for. */
  ghost function SomeRunOf(st: Store, req: Request): (run: Id)
    requires RunsInScope(st, req.tenant, req.agent, req.key) != {}
    ensures run in RunsInScope(st, req.tenant, req.agent, req.key)
  {
    var run :| run in RunsInScope(st, req.tenant, req.agent, req.key);
    run
  }

  /** `start_run` alone is an execution of the machine. */
  lemma StartGoes(w: World, pid: Id, req: Request, id: Id, a: Platform, result: StartResult)
    requires pid in w.core.procs && w.core.procs[pid] == Arrived(req)
    requires id !in w.core.store.runs && id != NIL && StartsAs(w.core.limit, PlatformOf(w), req, id, a, result)
    ensures Goes(w, AfterStart(w, pid, req, a, result), pid)
  {
    var w1 := LookupMove(w, pid, req, Choice(NIL, false, false));
    if GetAgent(w.core.store, req.tenant, req.agent).Some? && req.messages != [] {
      if RunsInScope(w.core.store, req.tenant, req.agent, req.key) == {} {
        NewRunGoes(w, pid, req, id, a, result);
      } else {
        var refused := result.DatabaseError?;
        var run := if refused then SomeRunOf(w.core.store, req) else result.run;
        var w2 := CreateMove(w1, pid, req, run, refused);
        GoesOn(w, w1, pid, Choice(run, false, refused));
        assert w1.core.procs - {pid} == w.core.procs - {pid};
      }
    }
  }

  // ---- replay

  lemma ScheduledRuns(limit: nat, a: Platform, t: Id, run: Id)
    requires run in a.store.runs && a.store.runs[run].tenant == t
    ensures Scheduled(limit, a, t, run).store.agents == a.store.agents
    ensures Scheduled(limit, a, t, run).store.runs
         == match Verdict(limit, a, t)
            case None => a.store.runs
            case Some(reason) => a.store.runs[run := FailedRow(a.store.runs[run], reason)]
  {
  }

  /** Updating a row without changing its identity, or adding it, changes the scope by that row only. */
  lemma ScopeOf(st: Store, st': Store, req: Request, id: Id, row: Run)
    requires st'.runs == st.runs[id := row] && SameRequest(row, req) && req.key.Some?
    ensures RunsInScope(st', req.tenant, req.agent, req.key) == RunsInScope(st, req.tenant, req.agent, req.key) + {id}
  {
  }

  lemma ScopeAfterInsert(limit: nat, a: Platform, req: Request, id: Id, a': Platform, result: StartResult)
    requires StartsAs(limit, a, req, id, a', result) && id !in a.store.runs && req.key.Some?
    requires GetAgent(a.store, req.tenant, req.agent).Some? && req.messages != []
    requires RunsInScope(a.store, req.tenant, req.agent, req.key) == {}
    ensures RunsInScope(a'.store, req.tenant, req.agent, req.key) == {id} && a'.store.agents == a.store.agents
    ensures a'.store.runs[id].status == if result.Refused? then Failed else Pending
  {
    var st := RecordedStore(a.store, req, id);
    ScheduledRuns(limit, a.(store := st), req.tenant, id);
    ScopeOf(a.store, a'.store, req, id, a'.store.runs[id]);
  }

  /**
   Sending a request again, even one that was refused for capacity, changes nothing; and if it is replied
   to, the reply names the same run.
   */
  lemma RetryReturnsTheRun(limit: nat, a: Platform, req: Request, id: Id, a1: Platform, first: StartResult,
                           id2: Id, a2: Platform, second: StartResult)
    requires StartsAs(limit, a, req, id, a1, first) && StartsAs(limit, a1, req, id2, a2, second)
    requires id !in a.store.runs && req.key.Some? && IdempotencyUnique(a.store)
    ensures a2 == a1
    ensures match first
            case Replied(_, _) => second == first || second.DatabaseError?
            case Refused(_) => second == Replied(id, Failed) || second.DatabaseError?
            case DatabaseError => a1 == a && (second.Replied? || second.DatabaseError?)
            case _ => second == first
    ensures first.DatabaseError? && second.Replied? ==>
            second.run in a.store.runs && second.status == a.store.runs[second.run].status
  {
    var scope := RunsInScope(a.store, req.tenant, req.agent, req.key);
    if GetAgent(a.store, req.tenant, req.agent).Some? && req.messages != [] {
      if scope == {} {
        ScopeAfterInsert(limit, a, req, id, a1, first);
      } else if first.Replied? && second.Replied? {
        assert second.run in scope && first.run in scope;
      }
    }
  }
}
