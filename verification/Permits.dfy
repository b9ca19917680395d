/** Permit accounting: what the processes hold and what the semaphores have left always add up. */
module Permits {
  import opened Domain
  import opened Protocol

  datatype Semaphore = Global | OfTenant(tenant: Id)

  predicate Holds(p: Proc, s: Semaphore) {
    match s
    case Global => !p.permits.NoPermit?
    case OfTenant(t) => p.permits.BothPermits? && p.req.tenant == t
  }

  function Holders(procs: map<Id, Proc>, s: Semaphore): set<Id> {
    set pid | pid in procs && Holds(procs[pid], s)
  }

  /** The tasks that execute runs of a tenant: the processes past the spawn, not yet returned or aborted. */
  function LiveTasks(procs: map<Id, Proc>, tenant: Id): set<Id> {
    Holders(procs, OfTenant(tenant))
  }

  function Unit(p: Proc, s: Semaphore): int {
    if Holds(p, s) then 1 else 0
  }

  function UnitAt(procs: map<Id, Proc>, pid: Id, s: Semaphore): int {
    if pid in procs then Unit(procs[pid], s) else 0
  }

  lemma HoldersUpdate(procs: map<Id, Proc>, pid: Id, p: Proc, s: Semaphore)
    ensures |Holders(procs[pid := p], s)| == |Holders(procs, s)| - UnitAt(procs, pid, s) + Unit(p, s)
  {
    var before, after := Holders(procs, s), Holders(procs[pid := p], s);
    if Holds(p, s) {
      assert after == before + {pid};
    } else {
      assert after == before - {pid};
    }
  }

  lemma HoldersRemove(procs: map<Id, Proc>, pid: Id, s: Semaphore)
    ensures |Holders(procs - {pid}, s)| == |Holders(procs, s)| - UnitAt(procs, pid, s)
  {
    assert Holders(procs - {pid}, s) == Holders(procs, s) - {pid};
  }

  lemma NoHolders(procs: map<Id, Proc>, s: Semaphore)
    requires forall pid :: pid in procs ==> !Holds(procs[pid], s)
    ensures |Holders(procs, s)| == 0
  {
    assert Holders(procs, s) == {};
  }

  /** A process past the tenant-semaphore lookup finds its tenant's semaphore. */
  ghost predicate SemsKnown(procs: map<Id, Proc>, sems: map<Id, int>) {
    forall pid :: pid in procs && (procs[pid].pc.AcquireTenant? || procs[pid].permits.BothPermits?) ==>
      procs[pid].req.tenant in sems
  }

  ghost predicate TenantPermitsAddUp(procs: map<Id, Proc>, sems: map<Id, int>, limit: nat) {
    forall t :: t in sems ==> 0 <= sems[t] && sems[t] + |LiveTasks(procs, t)| == limit
  }

  ghost predicate GlobalPermitsAddUp(w: World) {
    0 <= w.free && w.free + |Holders(w.core.procs, Global)| == w.globalMax
  }

  ghost predicate SemsOk(core: Core) {
    SemsKnown(core.procs, core.sems) && TenantPermitsAddUp(core.procs, core.sems, core.limit)
  }

  /** What a move may do to the permits of the process and to the tenant semaphores. */
  ghost predicate PermitMove(limit: nat, sems: map<Id, int>, p: Proc, o: Outcome) {
    var t := p.req.tenant;
    && o.proc.req == p.req
    && (|| (o.sems == sems && o.proc.permits == p.permits && !o.tookGlobal && !o.proc.pc.AcquireTenant?)
        || (o.sems == sems && p.permits.NoPermit? && o.proc.permits.GlobalPermit? && o.tookGlobal
            && !Over(o.proc) && !o.proc.pc.AcquireTenant?)
        || (o.sems == (if t in sems then sems else sems[t := limit]) && o.proc.permits == p.permits && !o.tookGlobal
            && !Over(o.proc))
        || (t in sems && sems[t] > 0 && o.sems == sems[t := sems[t] - 1] && p.permits.GlobalPermit?
            && o.proc.permits.BothPermits? && !o.tookGlobal && !Over(o.proc) && !o.proc.pc.AcquireTenant?))
  }

  lemma MoveKeepsSems(core: Core, pid: Id, o: Outcome)
    requires SemsOk(core) && pid in core.procs && PermitMove(core.limit, core.sems, core.procs[pid], o)
    ensures SemsOk(Commit(core, pid, o))
  {
    var p := core.procs[pid];
    var core' := Commit(core, pid, o);
    forall t | t in core'.sems ensures 0 <= core'.sems[t] && core'.sems[t] + |LiveTasks(core'.procs, t)| == core.limit {
      HoldersUpdate(core.procs, pid, o.proc, OfTenant(t));
      HoldersRemove(core.procs, pid, OfTenant(t));
      if t !in core.sems {
        NoHolders(core.procs, OfTenant(t));
      }
    }
  }

  lemma MoveKeepsGlobal(w: World, pid: Id, o: Outcome, free': int)
    requires GlobalPermitsAddUp(w) && pid in w.core.procs && PermitMove(w.core.limit, w.core.sems, w.core.procs[pid], o)
    requires o.tookGlobal ==> w.free > 0
    requires free' == w.free - (if o.tookGlobal then 1 else 0) + (if Over(o.proc) then GlobalHeld(o.proc) else 0)
    ensures GlobalPermitsAddUp(World(Commit(w.core, pid, o), w.globalMax, free'))
  {
    HoldersUpdate(w.core.procs, pid, o.proc, Global);
    HoldersRemove(w.core.procs, pid, Global);
  }

  lemma AbortKeepsPermits(w: World, pid: Id)
    requires SemsOk(w.core) && GlobalPermitsAddUp(w) && EnabledIn(w, Abort(pid))
    ensures SemsOk(ApplyIn(w, Abort(pid)).core) && GlobalPermitsAddUp(ApplyIn(w, Abort(pid)))
  {
    var p := w.core.procs[pid];
    var w' := ApplyIn(w, Abort(pid));
    HoldersUpdate(w.core.procs, pid, Abandoned(p), Global);
    forall t | t in w'.core.sems
      ensures 0 <= w'.core.sems[t] && w'.core.sems[t] + |LiveTasks(w'.core.procs, t)| == w.core.limit
    {
      HoldersUpdate(w.core.procs, pid, Abandoned(p), OfTenant(t));
    }
  }

  lemma SettleKeepsPermits(w: World, pid: Id, commits: bool, c: Choice)
    requires SemsOk(w.core) && GlobalPermitsAddUp(w) && EnabledIn(w, Settle(pid, commits, c))
    requires w.core.procs[pid].permits.NoPermit?
    ensures SemsOk(ApplyIn(w, Settle(pid, commits, c)).core) && GlobalPermitsAddUp(ApplyIn(w, Settle(pid, commits, c)))
  {
    HoldersRemove(w.core.procs, pid, Global);
    forall t | t in w.core.sems ensures |LiveTasks(w.core.procs - {pid}, t)| == |LiveTasks(w.core.procs, t)| {
      HoldersRemove(w.core.procs, pid, OfTenant(t));
    }
  }

  lemma ArriveKeepsPermits(w: World, pid: Id, req: Request)
    requires SemsOk(w.core) && GlobalPermitsAddUp(w) && EnabledIn(w, Arrive(pid, req))
    ensures SemsOk(ApplyIn(w, Arrive(pid, req)).core) && GlobalPermitsAddUp(ApplyIn(w, Arrive(pid, req)))
  {
    var p := Proc(req, None, NoPermit, LookupAgent);
    HoldersUpdate(w.core.procs, pid, p, Global);
    forall t | t in w.core.sems ensures |LiveTasks(w.core.procs[pid := p], t)| == |LiveTasks(w.core.procs, t)| {
      HoldersUpdate(w.core.procs, pid, p, OfTenant(t));
    }
  }

  lemma CrashKeepsPermits(w: World)
    requires forall pid :: pid in w.core.procs && w.core.procs[pid].pc.Lost? ==> w.core.procs[pid].permits.NoPermit?
    ensures SemsOk(ApplyIn(w, Crash).core) && GlobalPermitsAddUp(ApplyIn(w, Crash))
  {
    NoHolders(ApplyIn(w, Crash).core.procs, Global);
  }
}
