/** One inductive invariant of the whole system, kept by every action, faults and crashes included. */
module Invariant {
  import opened Domain
  import opened Store
  import opened TraceLanguage
  import opened Protocol
  import opened RunInvariant
  import opened RunSteps
  import opened StatementSteps
  import opened Permits

  ghost predicate ProcsOk(st: Store, procs: map<Id, Proc>) {
    forall pid :: pid in procs ==> ProcOk(st, procs[pid])
  }

  /** At most one process works on a run. */
  ghost predicate Exclusive(procs: map<Id, Proc>) {
    forall i, j | i in procs && j in procs && i != j && procs[i].run.Some? :: procs[i].run != procs[j].run
  }

  /** An Ok reply names a run of exactly the scope that was asked for. */
  ghost predicate RepliesOk(st: Store, replies: set<Reply>) {
    forall x :: x in replies ==>
      && x.run in st.runs && st.runs[x.run].tenant == x.tenant && st.runs[x.run].agent == x.agent
      && st.runs[x.run].key == x.key
  }

  ghost predicate CoreInv(core: Core) {
    && StoreOk(core.store)
    && ProcsOk(core.store, core.procs)
    && Exclusive(core.procs)
    && RepliesOk(core.store, core.replies)
    && SemsOk(core)
  }

  ghost predicate Inv(w: World) {
    CoreInv(w.core) && GlobalPermitsAddUp(w)
  }

  // ---- permits of the moving process

  lemma ReadPermits(st: Store, p: Proc, c: Choice, pc': Pc)
    requires p.run.Some? && PlaceOk(st, p) && Reads(p.pc)
             && PermitsOk(p, st.runs[p.run.value], PhaseIn(st, p.run.value))
    requires pc' == ReadNext(st, p.req.tenant, p.run.value, p.pc, c)
    ensures PermitsOk(p.(pc := pc'), st.runs[p.run.value], PhaseIn(st, p.run.value))
    ensures !pc'.AcquireTenant?
  {
  }

  lemma InsertPermits(st: Store, st': Store, p: Proc)
    requires p.run.Some? && PlaceOk(st, p) && p.pc.InsertRow?
             && PermitsOk(p, st.runs[p.run.value], PhaseIn(st, p.run.value))
    requires st'.runs == st.runs && st'.agents == st.agents
    requires PhaseIn(st', p.run.value) == Next(SpecOf(st, st.runs[p.run.value]), PhaseIn(st, p.run.value), p.pc.event)
    ensures PermitsOk(p.(pc := p.pc.k), st'.runs[p.run.value], PhaseIn(st', p.run.value))
    ensures !p.pc.k.AcquireTenant?
  {
    var r := p.run.value;
    assert ReadyAppend(st, p.req.tenant, p.req.agent, SpecOf(st, st.runs[r]), p.pc.event, p.pc.k, st.runs[r],
      PhaseIn(st, r));
  }

  lemma UpdatePermits(st: Store, st': Store, p: Proc, pc': Pc)
    requires p.run.Some? && PlaceOk(st, p) && (p.pc.MarkFailed? || p.pc.BeginExecution? || p.pc.Finalize?)
    requires PermitsOk(p, st.runs[p.run.value], PhaseIn(st, p.run.value)) && RunOk(st, p.run.value)
    requires (st', pc') == WriteNext(st, p.req.tenant, p.run.value, p.pc)
    ensures p.run.value in st'.runs && st'.runs[p.run.value].agent in st'.agents
    ensures PermitsOk(p.(pc := pc'), st'.runs[p.run.value], PhaseIn(st', p.run.value))
    ensures !pc'.AcquireTenant?
  {
  }

  lemma WritePermits(st: Store, p: Proc, st': Store, pc': Pc)
    requires p.run.Some? && PlaceOk(st, p) && Writes(p.pc) && RunOk(st, p.run.value)
    requires PermitsOk(p, st.runs[p.run.value], PhaseIn(st, p.run.value))
    requires (st', pc') == WriteNext(st, p.req.tenant, p.run.value, p.pc)
    ensures p.run.value in st'.runs && st'.runs[p.run.value].agent in st'.agents
    ensures PermitsOk(p.(pc := pc'), st'.runs[p.run.value], PhaseIn(st', p.run.value))
    ensures !pc'.AcquireTenant?
  {
    if p.pc.InsertRow? {
      InsertRowStep(st, p);
      PhaseAppend(SpecOf(st, st.runs[p.run.value]), LogOf(st, p.run.value), p.pc.event);
      InsertPermits(st, st', p);
    } else {
      UpdatePermits(st, st', p, pc');
    }
  }

  lemma AcquirePermits(st: Store, limit: nat, sems: map<Id, int>, p: Proc, c: Choice)
    requires p.run.Some? && PlaceOk(st, p) && PermitsOk(p, st.runs[p.run.value], PhaseIn(st, p.run.value))
    requires p.pc.AcquireGlobal? || p.pc.EnsureTenantSemaphore? || p.pc.AcquireTenant?
    requires RunOk(st, p.run.value)
    ensures var o := Advance(st, limit, sems, p, c);
            && PermitsOk(o.proc, st.runs[p.run.value], PhaseIn(st, p.run.value))
            && PermitMove(limit, sems, p, o)
  {
  }

  lemma CreatePermits(st: Store, limit: nat, sems: map<Id, int>, p: Proc, c: Choice)
    requires p.run.None? && NewcomerOk(p) && !p.pc.Lost?
    ensures var o := Advance(st, limit, sems, p, c);
            && PermitMove(limit, sems, p, o) && o.proc.permits.NoPermit?
            && (Over(o.proc) || o.proc.pc.CreateOrGetRun? || o.proc.pc == ReadMax(RunCreated, AcquireGlobal))
  {
  }

  /** The semaphore side of a move. */
  lemma MovePermits(st: Store, limit: nat, sems: map<Id, int>, p: Proc, c: Choice)
    requires ProcOk(st, p) && !p.pc.Lost? && (p.run.Some? ==> RunOk(st, p.run.value))
    ensures PermitMove(limit, sems, p, Advance(st, limit, sems, p, c))
  {
    if p.run.None? {
      CreatePermits(st, limit, sems, p, c);
    } else {
      OwnerPc(st, p);
      AdvanceByKind(st, limit, sems, p, c);
      if Writes(p.pc) {
        var (st', pc') := WriteNext(st, p.req.tenant, p.run.value, p.pc);
        WritePermits(st, p, st', pc');
      } else if Reads(p.pc) {
        ReadPermits(st, p, c, ReadNext(st, p.req.tenant, p.run.value, p.pc, c));
      } else {
        AcquirePermits(st, limit, sems, p, c);
      }
    }
  }

  // ---- the moving process

  lemma MoveOwner(st: Store, limit: nat, sems: map<Id, int>, p: Proc, c: Choice)
    requires StoreOk(st) && p.run.Some? && OwnerOk(st, p) && !p.pc.Lost? && Admissible(st, p, c)
    ensures var o := Advance(st, limit, sems, p, c);
            Over(o.proc) || (o.proc.run.Some? && OwnerOk(o.store, o.proc))
  {
    var o := Advance(st, limit, sems, p, c);
    OwnerMoves(st, limit, sems, p, c);
    OwnerPc(st, p);
    AdvanceByKind(st, limit, sems, p, c);
    if Writes(p.pc) {
      WritePermits(st, p, o.store, o.proc.pc);
    } else if Reads(p.pc) {
      ReadPermits(st, p, c, o.proc.pc);
    } else {
      AcquirePermits(st, limit, sems, p, c);
    }
  }

  lemma CreatedProc(st: Store, p: Proc, id: Id)
    requires StoreOk(st) && p.permits.NoPermit? && id !in st.runs && GetAgent(st, p.req.tenant, p.req.agent).Some?
    ensures ProcOk(InsertRun(st, id, NewRun(p.req.tenant, p.req.agent, p.req.messages, p.req.key)),
                   p.(run := Some(id), pc := ReadMax(RunCreated, AcquireGlobal)))
  {
    InsertRunStep(st, id, p.req);
  }

  lemma MoveNewcomer(st: Store, limit: nat, sems: map<Id, int>, p: Proc, c: Choice)
    requires StoreOk(st) && p.run.None? && NewcomerOk(p) && !p.pc.Lost? && Admissible(st, p, c)
    ensures var o := Advance(st, limit, sems, p, c);
            Over(o.proc) || ProcOk(o.store, o.proc)
  {
    if p.pc.CreateOrGetRun? && GetAgent(st, p.req.tenant, p.req.agent).Some?
       && RunsInScope(st, p.req.tenant, p.req.agent, p.req.key) == {} {
      CreatedProc(st, p, c.id);
    }
  }

  lemma MoveProc(st: Store, limit: nat, sems: map<Id, int>, p: Proc, c: Choice)
    requires StoreOk(st) && ProcOk(st, p) && !p.pc.Lost? && Admissible(st, p, c)
    ensures var o := Advance(st, limit, sems, p, c);
            Moved(st, p, o) && (Over(o.proc) || ProcOk(o.store, o.proc))
  {
    if p.run.Some? {
      OwnerMoves(st, limit, sems, p, c);
      MoveOwner(st, limit, sems, p, c);
    } else {
      NewcomerMoves(st, limit, sems, p, c);
      MoveNewcomer(st, limit, sems, p, c);
    }
  }

  lemma RevivedPlace(st: Store, p: Proc)
    requires p.run.Some? && PlaceOk(st, p) && p.pc.Lost?
    ensures PlaceOk(st, Revived(p))
  {
  }

  /** What the statement an aborted process had sent would do. */
  lemma LostMoves(st: Store, limit: nat, sems: map<Id, int>, p: Proc, c: Choice)
    requires StoreOk(st) && p.pc.Lost? && Admissible(st, Revived(p), c)
    requires if p.run.Some? then PlaceOk(st, p) else NewcomerOk(p)
    ensures Moved(st, Revived(p), Advance(st, limit, sems, Revived(p), c))
  {
    var q := Revived(p);
    if p.run.Some? {
      RevivedPlace(st, p);
      OwnerMoves(st, limit, sems, q, c);
    } else {
      NewcomerMoves(st, limit, sems, q, c);
    }
  }

  // ---- the other processes

  /** A process other than the mover keeps its run out of the mover's frame. */
  lemma OtherProc(st: Store, st': Store, procs: map<Id, Proc>, pid: Id, p: Proc, o: Outcome, q: Id)
    requires ProcsOk(st, procs) && Exclusive(procs) && RunsOk(st)
    requires pid in procs && p.run == procs[pid].run && Moved(st, p, o) && o.store == st'
    requires q in procs && q != pid
    ensures ProcOk(st', procs[q])
    ensures procs[q].run.Some? ==> procs[q].run != o.proc.run
  {
    ProcFrame(st, st', o.proc.run, procs[q]);
  }

  ghost predicate NoneWorksOn(procs: map<Id, Proc>, run: Option<Id>) {
    forall q :: q in procs && procs[q].run.Some? ==> procs[q].run != run
  }

  lemma OtherProcs(st: Store, procs: map<Id, Proc>, pid: Id, p: Proc, o: Outcome)
    requires ProcsOk(st, procs) && Exclusive(procs) && RunsOk(st)
    requires pid in procs && p.run == procs[pid].run && Moved(st, p, o)
    ensures ProcsOk(o.store, procs - {pid}) && NoneWorksOn(procs - {pid}, o.proc.run)
  {
    forall q | q in procs && q != pid
      ensures ProcOk(o.store, procs[q])
      ensures procs[q].run.Some? ==> procs[q].run != o.proc.run
    {
      OtherProc(st, o.store, procs, pid, p, o, q);
    }
  }

  lemma CommitProcs(core: Core, pid: Id, o: Outcome)
    requires pid in core.procs && Exclusive(core.procs)
    requires ProcsOk(o.store, core.procs - {pid}) && NoneWorksOn(core.procs - {pid}, o.proc.run)
    requires Over(o.proc) || ProcOk(o.store, o.proc)
    ensures ProcsOk(o.store, Commit(core, pid, o).procs) && Exclusive(Commit(core, pid, o).procs)
  {
    var others, after := core.procs - {pid}, Commit(core, pid, o).procs;
    forall q | q in after && q != pid ensures q in others && after[q] == others[q] {
    }
  }

  lemma MoveKeepsProcs(core: Core, pid: Id, c: Choice)
    requires CoreInv(core) && Enabled(core, Move(pid, c))
    ensures var core' := Apply(core, Move(pid, c));
            ProcsOk(core'.store, core'.procs) && Exclusive(core'.procs)
  {
    var o := MoveOf(core, pid, c);
    MoveProc(core.store, core.limit, core.sems, core.procs[pid], c);
    OtherProcs(core.store, core.procs, pid, core.procs[pid], o);
    CommitProcs(core, pid, o);
  }

  lemma ReplyOk(st: Store, limit: nat, sems: map<Id, int>, p: Proc, c: Choice)
    requires ProcOk(st, p) && !p.pc.Lost? && Admissible(st, p, c)
    ensures var reply := Advance(st, limit, sems, p, c).reply;
            reply.Some? ==> p.pc.AcquireTenant? || p.pc.CreateOrGetRun?
    ensures var reply := Advance(st, limit, sems, p, c).reply;
            reply.Some? ==> RepliesOk(st, {reply.value})
  {
  }

  lemma RepliesStable(st: Store, st': Store, replies: set<Reply>)
    requires RepliesOk(st, replies)
    requires forall r :: r in st.runs ==> r in st'.runs && SameIdentity(st.runs[r], st'.runs[r])
    ensures RepliesOk(st', replies)
  {
  }

  /** No run disappears, and none changes what it was created for. */
  lemma MovedIdentities(st: Store, p: Proc, o: Outcome)
    requires Moved(st, p, o)
    ensures forall r :: r in st.runs ==> r in o.store.runs && SameIdentity(st.runs[r], o.store.runs[r])
  {
    forall r | r in st.runs ensures r in o.store.runs && SameIdentity(st.runs[r], o.store.runs[r]) {
      if Some(r) == o.proc.run {
      }
    }
  }

  lemma MoveKeepsReplies(core: Core, pid: Id, c: Choice)
    requires CoreInv(core) && Enabled(core, Move(pid, c))
    ensures var core' := Apply(core, Move(pid, c)); RepliesOk(core'.store, core'.replies)
  {
    var o := MoveOf(core, pid, c);
    MoveProc(core.store, core.limit, core.sems, core.procs[pid], c);
    MovedIdentities(core.store, core.procs[pid], o);
    ReplyOk(core.store, core.limit, core.sems, core.procs[pid], c);
    RepliesStable(core.store, o.store, core.replies);
    if o.reply.Some? {
      RepliesStable(core.store, o.store, {o.reply.value});
    }
  }

  // ---- the actions

  lemma MovePermitsIn(core: Core, pid: Id, c: Choice)
    requires CoreInv(core) && Enabled(core, Move(pid, c))
    ensures PermitMove(core.limit, core.sems, core.procs[pid], MoveOf(core, pid, c))
  {
    MovePermits(core.store, core.limit, core.sems, core.procs[pid], c);
  }

  lemma MoveKeepsStore(core: Core, pid: Id, c: Choice)
    requires CoreInv(core) && Enabled(core, Move(pid, c))
    ensures StoreOk(MoveOf(core, pid, c).store)
  {
    MoveProc(core.store, core.limit, core.sems, core.procs[pid], c);
  }

  lemma MoveKeepsCore(core: Core, pid: Id, c: Choice)
    requires CoreInv(core) && Enabled(core, Move(pid, c))
    ensures CoreInv(Apply(core, Move(pid, c)))
  {
    var o := MoveOf(core, pid, c);
    MoveKeepsStore(core, pid, c);
    MoveKeepsProcs(core, pid, c);
    MoveKeepsReplies(core, pid, c);
    MovePermitsIn(core, pid, c);
    MoveKeepsSems(core, pid, o);
  }

  lemma GlobalWasFree(w: World, pid: Id, c: Choice)
    requires EnabledIn(w, Move(pid, c)) && MoveOf(w.core, pid, c).tookGlobal
    ensures w.free > 0
  {
  }

  lemma MoveKeepsFree(w: World, pid: Id, c: Choice)
    requires GlobalPermitsAddUp(w) && EnabledIn(w, Move(pid, c))
    requires PermitMove(w.core.limit, w.core.sems, w.core.procs[pid], MoveOf(w.core, pid, c))
    ensures GlobalPermitsAddUp(ApplyIn(w, Move(pid, c)))
  {
    var o := MoveOf(w.core, pid, c);
    if o.tookGlobal {
      GlobalWasFree(w, pid, c);
    }
    MoveKeepsGlobal(w, pid, o, FreeAfter(w, Move(pid, c)));
  }

  lemma MoveKeeps(w: World, pid: Id, c: Choice)
    requires Inv(w) && EnabledIn(w, Move(pid, c))
    ensures Inv(ApplyIn(w, Move(pid, c)))
  {
    MoveKeepsCore(w.core, pid, c);
    MovePermitsIn(w.core, pid, c);
    MoveKeepsFree(w, pid, c);
  }

  lemma AbandonedOk(st: Store, p: Proc)
    requires ProcOk(st, p)
    ensures ProcOk(st, Abandoned(p))
  {
  }

  lemma AbortKeeps(w: World, pid: Id)
    requires Inv(w) && EnabledIn(w, Abort(pid))
    ensures Inv(ApplyIn(w, Abort(pid)))
  {
    AbandonedOk(w.core.store, w.core.procs[pid]);
    AbortKeepsPermits(w, pid);
  }

  lemma LostHoldsNothing(st: Store, p: Proc)
    requires ProcOk(st, p) && p.pc.Lost?
    ensures p.permits.NoPermit?
  {
  }

  lemma SettleKeepsStore(core: Core, pid: Id, commits: bool, c: Choice)
    requires CoreInv(core) && Enabled(core, Settle(pid, commits, c))
    ensures var core' := Apply(core, Settle(pid, commits, c));
            && StoreOk(core'.store) && ProcsOk(core'.store, core'.procs) && Exclusive(core'.procs)
            && RepliesOk(core'.store, core'.replies)
  {
    if commits {
      var p := core.procs[pid];
      var o := Advance(core.store, core.limit, core.sems, Revived(p), c);
      LostMoves(core.store, core.limit, core.sems, p, c);
      MovedIdentities(core.store, Revived(p), o);
      RepliesStable(core.store, o.store, core.replies);
      OtherProcs(core.store, core.procs, pid, Revived(p), o);
    }
  }

  lemma SettleKeeps(w: World, pid: Id, commits: bool, c: Choice)
    requires Inv(w) && EnabledIn(w, Settle(pid, commits, c))
    ensures Inv(ApplyIn(w, Settle(pid, commits, c)))
  {
    LostHoldsNothing(w.core.store, w.core.procs[pid]);
    SettleKeepsStore(w.core, pid, commits, c);
    SettleKeepsPermits(w, pid, commits, c);
  }

  lemma ArriveKeepsProcs(st: Store, procs: map<Id, Proc>, pid: Id, req: Request)
    requires ProcsOk(st, procs) && Exclusive(procs) && pid !in procs
    ensures var procs' := procs[pid := Proc(req, None, NoPermit, LookupAgent)]; ProcsOk(st, procs') && Exclusive(procs')
  {
  }

  lemma ArriveKeeps(w: World, pid: Id, req: Request)
    requires Inv(w) && EnabledIn(w, Arrive(pid, req))
    ensures Inv(ApplyIn(w, Arrive(pid, req)))
  {
    ArriveKeepsProcs(w.core.store, w.core.procs, pid, req);
    ArriveKeepsPermits(w, pid, req);
  }

  lemma SurroundingsKeep(w: World, st': Store)
    requires Inv(w) && StoreOk(st') && Frame(w.core.store, st', None)
    ensures Inv(World(w.core.(store := st'), w.globalMax, w.free))
  {
    forall pid | pid in w.core.procs ensures ProcOk(st', w.core.procs[pid]) {
      ProcFrame(w.core.store, st', None, w.core.procs[pid]);
    }
    RepliesStable(w.core.store, st', w.core.replies);
  }

  lemma CrashKeepsProcs(core: Core)
    requires ProcsOk(core.store, core.procs)
    ensures ProcsOk(core.store, Apply(core, Crash).procs)
  {
    forall pid | pid in core.procs ensures ProcOk(core.store, Abandoned(core.procs[pid])) {
      AbandonedOk(core.store, core.procs[pid]);
    }
  }

  lemma CrashKeepsExclusive(core: Core)
    requires Exclusive(core.procs)
    ensures Exclusive(Apply(core, Crash).procs)
  {
    var procs := Apply(core, Crash).procs;
    assert forall pid :: pid in procs ==> procs[pid].run == core.procs[pid].run;
  }

  lemma LostHoldNothing(st: Store, procs: map<Id, Proc>)
    requires ProcsOk(st, procs)
    ensures forall pid :: pid in procs && procs[pid].pc.Lost? ==> procs[pid].permits.NoPermit?
  {
    forall pid | pid in procs && procs[pid].pc.Lost? ensures procs[pid].permits.NoPermit? {
      LostHoldsNothing(st, procs[pid]);
    }
  }

  lemma CrashKeepsCore(core: Core)
    requires ProcsOk(core.store, core.procs) && Exclusive(core.procs)
    ensures var core' := Apply(core, Crash);
            && ProcsOk(core'.store, core'.procs) && Exclusive(core'.procs)
            && core'.store == core.store && core'.replies == core.replies
  {
    CrashKeepsProcs(core);
    CrashKeepsExclusive(core);
  }

  lemma CrashReturnsPermits(w: World)
    requires ProcsOk(w.core.store, w.core.procs)
    ensures SemsOk(ApplyIn(w, Crash).core) && GlobalPermitsAddUp(ApplyIn(w, Crash))
  {
    LostHoldNothing(w.core.store, w.core.procs);
    CrashKeepsPermits(w);
  }

  lemma CrashKeeps(w: World)
    requires Inv(w)
    ensures Inv(ApplyIn(w, Crash))
  {
    CrashKeepsCore(w.core);
    CrashReturnsPermits(w);
  }

  /** The invariant is inductive: no action can break it. */
  lemma StepKeeps(w: World, a: Action)
    requires Inv(w) && EnabledIn(w, a)
    ensures Inv(ApplyIn(w, a))
  {
    match a
    case Arrive(pid, req) => ArriveKeeps(w, pid, req);
    case Move(pid, c) => MoveKeeps(w, pid, c);
    case Abort(pid) => AbortKeeps(w, pid);
    case Settle(pid, commits, c) => SettleKeeps(w, pid, commits, c);
    case NewTool(id, tool) =>
      NewToolStep(w.core.store, id, tool);
      SurroundingsKeep(w, CreateTool(w.core.store, id, tool));
    case RemoveTool(t, id) =>
      RemoveToolStep(w.core.store, t, id);
      SurroundingsKeep(w, DeleteTool(w.core.store, t, id));
    case NewAgent(id, agent, tools) =>
      NewAgentStep(w.core.store, id, agent, tools);
      SurroundingsKeep(w, CreateAgent(w.core.store, id, agent, tools));
    case Crash => CrashKeeps(w);
  }

  lemma InitOk(w: World)
    requires Init(w)
    ensures Inv(w)
  {
    NoHolders(w.core.procs, Global);
  }

  lemma {:induction false} PlayKeeps(w: World, acts: seq<Action>)
    requires Inv(w) && Playable(w, acts)
    ensures Inv(Play(w, acts))
    decreases |acts|
  {
    if acts != [] {
      StepKeeps(w, acts[0]);
      PlayKeeps(ApplyIn(w, acts[0]), acts[1..]);
    }
  }

  lemma ReachableOk(w: World)
    requires Reachable(w)
    ensures Inv(w)
  {
    var w0, acts :| Init(w0) && Playable(w0, acts) && Play(w0, acts) == w;
    InitOk(w0);
    PlayKeeps(w0, acts);
  }
}
