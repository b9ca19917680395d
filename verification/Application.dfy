/** The server's shared state and the functions of `runtime.rs` and `http.rs` that change it. */
module Application {
  import opened Domain
  import S = Store
  import opened Protocol
  import opened Solo
  import opened DatabaseLayer
  import opened Runtime
  import opened Handler
  import opened Embedding

  /** A counting semaphore; the permits it hands out are returned when their owner is dropped. */
  class Semaphore {
    var available: nat

    constructor (permits: nat)
      ensures available == permits
    {
      available := permits;
    }

    method TryAcquire() returns (granted: bool)
      modifies this
      ensures granted <==> old(available) > 0
      ensures available == if granted then old(available) - 1 else old(available)
    {
      granted := available > 0;
      if granted {
        available := available - 1;
      }
    }

    method Release()
      modifies this
      ensures available == old(available) + 1
    {
      available := available + 1;
    }
  }

  class AppState {
    const db: Database
    const perTenantMax: nat
    const globalSemaphore: Semaphore
    var tenantSemaphores: map<Id, Semaphore>

    /** No semaphore is shared between tenants, or with the scheduler as a whole. */
    ghost predicate Valid()
      reads this
    {
      && globalSemaphore !in tenantSemaphores.Values
      && forall t, u :: t in tenantSemaphores && u in tenantSemaphores && t != u ==>
           tenantSemaphores[t] != tenantSemaphores[u]
    }

    ghost function Sems(): map<Id, int>
      reads this, tenantSemaphores.Values
    {
      map t | t in tenantSemaphores :: tenantSemaphores[t].available
    }

    /** What the requests share, as a value. */
    ghost function Shared(): Platform
      reads this, db, globalSemaphore, tenantSemaphores.Values
    {
      Platform(db.Contents(), Sems(), globalSemaphore.available)
    }

    constructor (globalMax: nat, perTenantMax: nat)
      ensures Valid() && this.perTenantMax == perTenantMax
      ensures fresh(db) && fresh(globalSemaphore)
      ensures Shared() == Platform(S.EMPTY_STORE, map[], globalMax)
    {
      db := new Database();
      globalSemaphore := new Semaphore(globalMax);
      this.perTenantMax := perTenantMax;
      tenantSemaphores := map[];
    }

    /** Entries are created once, with all permits, and never replaced. */
    method GetTenantSemaphore(t: Id) returns (s: Semaphore)
      requires Valid()
      modifies this
      ensures Valid() && t in tenantSemaphores && s == tenantSemaphores[t]
      ensures forall u :: u in old(tenantSemaphores) ==>
              u in tenantSemaphores && tenantSemaphores[u] == old(tenantSemaphores[u])
      ensures forall u :: u in tenantSemaphores && u !in old(tenantSemaphores) ==> u == t && fresh(tenantSemaphores[u])
      ensures Shared() == old(Shared()).(sems := Ensured(old(Sems()), perTenantMax, t))
    {
      if t !in tenantSemaphores {
        var created := new Semaphore(perTenantMax);
        tenantSemaphores := tenantSemaphores[t := created];
      }
      s := tenantSemaphores[t];
    }

    /** The refusal: the row, the decision, the end of the trace. */
    method FailRunBeforeStart(t: Id, run: Id, reason: Reason)
      modifies db
      ensures db.Contents() == RefusedStore(old(db.Contents()), t, run, reason)
    {
      db.MarkRunFailed(t, run, reason);
      db.AppendEvent(t, run, Rejected(reason));
      db.AppendEvent(t, run, EndFailed(reason));
    }

    /** `try_acquire_owned` on the tenant's semaphore. */
    method TryAcquireTenant(t: Id) returns (granted: bool)
      requires Valid()
      modifies this, tenantSemaphores.Values
      ensures Valid() && t in tenantSemaphores
      ensures forall u :: u in old(tenantSemaphores) ==>
              u in tenantSemaphores && tenantSemaphores[u] == old(tenantSemaphores[u])
      ensures forall u :: u in tenantSemaphores && u !in old(tenantSemaphores) ==> fresh(tenantSemaphores[u])
      ensures var sems := Ensured(old(Sems()), perTenantMax, t);
              && (granted <==> sems[t] > 0)
              && Sems() == if granted then sems[t := sems[t] - 1] else sems
    {
      var tenantSemaphore := GetTenantSemaphore(t);
      granted := tenantSemaphore.TryAcquire();
    }

    /** A task's permits, dropped. */
    method ReleaseBoth(t: Id)
      requires Valid() && t in tenantSemaphores
      modifies globalSemaphore, tenantSemaphores[t]
      ensures Valid()
      ensures globalSemaphore.available == old(globalSemaphore.available) + 1 && Sems() == Return(old(Sems()), t)
    {
      globalSemaphore.Release();
      tenantSemaphores[t].Release();
    }

    /** With a global permit held: the tenant's permit, or the refusal and the global permit back. */
    method ScheduleForTenant(t: Id, run: Id) returns (spawned: bool)
      requires Valid()
      modifies this, db, globalSemaphore, tenantSemaphores.Values
      ensures Valid()
      ensures forall u :: u in old(tenantSemaphores) ==>
              u in tenantSemaphores && tenantSemaphores[u] == old(tenantSemaphores[u])
      ensures forall u :: u in tenantSemaphores && u !in old(tenantSemaphores) ==> fresh(tenantSemaphores[u])
      ensures var sems := Ensured(old(Sems()), perTenantMax, t);
              && (spawned <==> sems[t] > 0)
              && Sems() == (if spawned then sems[t := sems[t] - 1] else sems)
              && globalSemaphore.available == (if spawned then old(globalSemaphore.available)
                   else old(globalSemaphore.available) + 1)
              && db.Contents() == (if spawned then old(db.Contents())
                                   else RefusedStore(old(db.Contents()), t, run, TenantConcurrencyLimitExceeded))
    {
      spawned := TryAcquireTenant(t);
      if !spawned {
        FailRunBeforeStart(t, run, TenantConcurrencyLimitExceeded);
        globalSemaphore.Release();
      }
    }

    /** None when the task has been spawned; it then owns one permit of each kind. */
    method ScheduleRun(t: Id, run: Id) returns (refusal: Option<Reason>)
      requires Valid()
      modifies this, db, globalSemaphore, tenantSemaphores.Values
      ensures Valid()
      ensures refusal == Verdict(perTenantMax, old(Shared()), t)
      ensures Shared() == Scheduled(perTenantMax, old(Shared()), t, run)
      ensures forall u :: u in old(tenantSemaphores) ==>
              u in tenantSemaphores && tenantSemaphores[u] == old(tenantSemaphores[u])
      ensures forall u :: u in tenantSemaphores && u !in old(tenantSemaphores) ==> fresh(tenantSemaphores[u])
    {
      var granted := globalSemaphore.TryAcquire();
      assert Sems() == old(Sems());
      if !granted {
        FailRunBeforeStart(t, run, SchedulerCapacityExceeded);
        return Some(SchedulerCapacityExceeded);
      }
      var spawned := ScheduleForTenant(t, run);
      refusal := if spawned then None else Some(TenantConcurrencyLimitExceeded);
    }

    /**
     `id` is the id that the database generates when it inserts a row, and `refused` whether it refuses the
     SELECT of an existing row in the failed transaction.
     */
    method StartRun(req: Request, id: Id, refused: bool) returns (result: StartResult)
      requires Valid() && id !in db.runs && id != NIL
      modifies this, db, globalSemaphore, tenantSemaphores.Values
      ensures Valid()
      ensures StartsAs(perTenantMax, old(Shared()), req, id, Shared(), result)
      ensures result.DatabaseError? ==> refused
    {
      var agent := db.GetAgent(req.tenant, req.agent);
      if agent.None? {
        return AgentNotFound;
      }
      if req.messages == [] {
        return NoMessages;
      }
      var r := db.CreateOrGetRun(id, req.tenant, req.agent, req.messages, req.key, refused);
      if r.Err? {
        return DatabaseError;
      }
      var (run, created) := r.value;
      if !created {
        return Replied(run, db.runs[run].status);
      }
      db.AppendEvent(req.tenant, run, RunCreated);
      assert Sems() == old(Sems());
      var refusal := ScheduleRun(req.tenant, run);
      result := match refusal
                case None => Replied(run, Pending)
                case Some(reason) => Refused(reason);
    }

    /** The spawned task: `execute_run`, and the permits it owns dropped with it, whatever it returns. */
    method RunTask(t: Id, run: Id, first: Id, ghost req: Request) returns (result: TaskResult, ghost p: Proc)
      requires Valid() && req.tenant == t && t in tenantSemaphores
      requires var row := S.GetRun(db.Contents(), t, run);
               row.Some? && S.ListAgentTools(db.Contents(), t, row.value.agent) != {} ==>
                 first in S.ListAgentTools(db.Contents(), t, row.value.agent)
      modifies db, globalSemaphore, tenantSemaphores[t]
      ensures Valid()
      ensures Leads(old(db.Contents()), Spawned(req, run), db.Contents(), p, first)
      ensures Over(p) && p == Spawned(req, run).(pc := p.pc)
      ensures ResultFits(old(db.Contents()), db.Contents(), t, run, p, result)
      ensures Shared() == Platform(db.Contents(), Return(old(Sems()), t), old(globalSemaphore.available) + 1)
    {
      result, p := ExecuteRun(db, t, run, first, req);
      ReleaseBoth(t);
    }
  }

  /** The spawned task alone is an execution of the machine, which ends with its permits given back. */
  lemma TaskGoes(w: World, pid: Id, req: Request, run: Id, st: S.Store, p: Proc, first: Id)
    requires pid in w.core.procs && w.core.procs[pid] == Spawned(req, run)
    requires Leads(w.core.store, Spawned(req, run), st, p, first) && Over(p) && p == Spawned(req, run).(pc := p.pc)
    ensures Goes(w, World(Core(w.core.limit, st, w.core.procs - {pid}, Return(w.core.sems, req.tenant),
            w.core.replies), w.globalMax, w.free + 1), pid)
  {
    GoesNowhere(w, pid);
    WorldAtItself(w, pid);
    SoloGoes(w, w, pid, w.core.store, Spawned(req, run), st, p, first);
  }
}
