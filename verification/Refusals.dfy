/** What a capacity reason in a run's row says of the moment at which the run was refused. */
module Refusals {
  import opened Domain
  import opened Store
  import opened TraceLanguage
  import opened Protocol
  import opened RunInvariant
  import opened StatementSteps
  import opened Permits
  import opened Invariant
  import opened Safety
  import opened Interleaving

  /** The program is about to write the reason, or the statement that does has been sent. */
  predicate MarksPc(pc: Pc, reason: Reason) {
    match pc
    case MarkFailed(r, _) => r == reason
    case Lost(statement) => statement.MarkFailed? && statement.reason == reason
    case _ => false
  }

  predicate RowMarked(st: Store, run: Id, reason: Reason) {
    run in st.runs && st.runs[run].errorReason == Some(reason)
  }

  ghost predicate SomeMarks(procs: map<Id, Proc>, run: Id, reason: Reason) {
    exists pid :: pid in procs && procs[pid].run == Some(run) && MarksPc(procs[pid].pc, reason)
  }

  ghost predicate Marked(core: Core, run: Id, reason: Reason) {
    RowMarked(core.store, run, reason) || SomeMarks(core.procs, run, reason)
  }

  /** The action is the run's failing acquire, and as many permits as there are at all are held. */
  ghost predicate RefusedIn(w: World, a: Action, run: Id, reason: Reason) {
    && a.Move? && EnabledIn(w, a) && WorksOn(w.core, a.pid, run)
    && var p := w.core.procs[a.pid];
       match reason
       case TenantConcurrencyLimitExceeded => p.pc.AcquireTenant?
         && |LiveTasks(w.core.procs, p.req.tenant)| == w.core.limit
       case SchedulerCapacityExceeded => p.pc.AcquireGlobal? && |Holders(w.core.procs, Global)| == w.globalMax
       case _ => false
  }

  // ---- one move

  lemma WriterMarks(st: Store, p: Proc, reason: Reason)
    requires p.run.Some? && PlaceOk(st, p) && Writes(p.pc) && RunOk(st, p.run.value) && Capacity(reason)
    ensures var (st', pc') := WriteNext(st, p.req.tenant, p.run.value, p.pc);
            && (RowMarked(st', p.run.value, reason) ==> RowMarked(st, p.run.value, reason) || MarksPc(p.pc, reason))
            && !MarksPc(pc', reason)
  {
    if p.pc.InsertRow? {
      var row, phase := st.runs[p.run.value], PhaseIn(st, p.run.value);
      var spec := SpecOf(st, row);
      assert ReadyAppend(st, p.req.tenant, p.req.agent, spec, p.pc.event, p.pc.k, row, phase);
      assert Ready(st, p.req.tenant, p.req.agent, spec, p.pc.k, row, Next(spec, phase, p.pc.event));
    }
  }

  /** The reason each acquire refuses with. */
  predicate RefusesWith(pc: Pc, reason: Reason) {
    (pc.AcquireGlobal? && reason.SchedulerCapacityExceeded?)
      || (pc.AcquireTenant? && reason.TenantConcurrencyLimitExceeded?)
  }

  lemma OwnerMarks(st: Store, limit: nat, sems: map<Id, int>, p: Proc, c: Choice, reason: Reason)
    requires p.run.Some? && PlaceOk(st, p) && !p.pc.Lost? && RunOk(st, p.run.value) && Capacity(reason)
    ensures var o := Advance(st, limit, sems, p, c);
            && (RowMarked(o.store, p.run.value, reason) ==> RowMarked(st, p.run.value, reason) || MarksPc(p.pc, reason))
            && (MarksPc(o.proc.pc, reason) ==> RefusesWith(p.pc, reason) && o.proc.pc == Refuse(reason))
  {
    OwnerPc(st, p);
    AdvanceByKind(st, limit, sems, p, c);
    if Writes(p.pc) {
      WriterMarks(st, p, reason);
    }
  }

  lemma OwnerRuns(st: Store, limit: nat, sems: map<Id, int>, p: Proc, c: Choice)
    requires p.run.Some? && PlaceOk(st, p) && !p.pc.Lost?
    ensures Advance(st, limit, sems, p, c).store.runs.Keys == st.runs.Keys
            && Advance(st, limit, sems, p, c).proc.run == p.run
  {
    OwnerPc(st, p);
    AdvanceByKind(st, limit, sems, p, c);
  }

  /** A move of a process with another run does not mark the run. */
  lemma OtherOwnerMarks(st: Store, limit: nat, sems: map<Id, int>, p: Proc, c: Choice, run: Id, reason: Reason)
    requires StoreOk(st) && p.run.Some? && PlaceOk(st, p) && !p.pc.Lost? && Admissible(st, p, c) && p.run != Some(run)
    ensures var o := Advance(st, limit, sems, p, c);
            o.proc.run != Some(run) && (RowMarked(o.store, run, reason) ==> RowMarked(st, run, reason))
  {
    OwnerRuns(st, limit, sems, p, c);
    if run in st.runs {
      OwnerMoves(st, limit, sems, p, c);
      MovedEvolves(st, p, Advance(st, limit, sems, p, c), run);
    }
  }

  /** Neither does a move of a process without a run. */
  lemma NewcomerMarks(st: Store, limit: nat, sems: map<Id, int>, p: Proc, c: Choice, run: Id, reason: Reason)
    requires p.run.None? && NewcomerOk(p) && !p.pc.Lost?
    ensures var o := Advance(st, limit, sems, p, c);
            !MarksPc(o.proc.pc, reason) && (RowMarked(o.store, run, reason) ==> RowMarked(st, run, reason))
  {
  }

  lemma MoverMarks(st: Store, limit: nat, sems: map<Id, int>, p: Proc, c: Choice, run: Id, reason: Reason)
    requires StoreOk(st) && !p.pc.Lost? && Admissible(st, p, c) && Capacity(reason)
    requires if p.run.Some? then PlaceOk(st, p) else NewcomerOk(p)
    ensures var o := Advance(st, limit, sems, p, c);
            && (RowMarked(o.store, run, reason) ==>
                  RowMarked(st, run, reason) || (p.run == Some(run) && MarksPc(p.pc, reason)))
            && (o.proc.run == Some(run) && MarksPc(o.proc.pc, reason) ==>
                  p.run == Some(run) && RefusesWith(p.pc, reason) && o.proc.pc == Refuse(reason))
  {
    if p.run == Some(run) {
      OwnerMarks(st, limit, sems, p, c, reason);
    } else if p.run.Some? {
      OtherOwnerMarks(st, limit, sems, p, c, run, reason);
    } else {
      NewcomerMarks(st, limit, sems, p, c, run, reason);
    }
  }

  // ---- one action

  lemma MarkerMarks(procs: map<Id, Proc>, pid: Id, run: Id, reason: Reason)
    requires pid in procs
    ensures procs[pid].run == Some(run) && MarksPc(procs[pid].pc, reason) ==> SomeMarks(procs, run, reason)
  {
  }

  lemma CommitMarks(core: Core, pid: Id, o: Outcome, run: Id, reason: Reason)
    requires pid in core.procs && SomeMarks(Commit(core, pid, o).procs, run, reason)
    ensures SomeMarks(core.procs, run, reason) || (o.proc.run == Some(run) && MarksPc(o.proc.pc, reason))
  {
    var procs' := Commit(core, pid, o).procs;
    var q :| q in procs' && procs'[q].run == Some(run) && MarksPc(procs'[q].pc, reason);
    assert q != pid ==> q in core.procs && core.procs[q] == procs'[q];
  }

  lemma MoveMarks(core: Core, pid: Id, c: Choice, run: Id, reason: Reason)
    requires CoreInv(core) && Enabled(core, Move(pid, c)) && Capacity(reason)
    requires !Marked(core, run, reason) && Marked(Apply(core, Move(pid, c)), run, reason)
    ensures WorksOn(core, pid, run) && RefusesWith(core.procs[pid].pc, reason)
            && MoveOf(core, pid, c).proc.pc == Refuse(reason)
  {
    var p, o := core.procs[pid], MoveOf(core, pid, c);
    assert ProcOk(core.store, p);
    MoverMarks(core.store, core.limit, core.sems, p, c, run, reason);
    MarkerMarks(core.procs, pid, run, reason);
    CommitMarks(core, pid, o, run, reason);
  }

  lemma SettleMarks(core: Core, pid: Id, commits: bool, c: Choice, run: Id, reason: Reason)
    requires CoreInv(core) && Enabled(core, Settle(pid, commits, c)) && Capacity(reason)
    requires Marked(Apply(core, Settle(pid, commits, c)), run, reason)
    ensures Marked(core, run, reason)
  {
    var p := core.procs[pid];
    assert ProcOk(core.store, p);
    if commits {
      RevivedFits(core.store, p, reason);
      LostMarks(core.store, core.limit, core.sems, p, Revived(p), c, run, reason);
    }
    RemovalMarks(core, Apply(core, Settle(pid, commits, c)), pid, run, reason);
  }

  lemma RevivedFits(st: Store, p: Proc, reason: Reason)
    requires p.pc.Lost? && if p.run.Some? then PlaceOk(st, p) else NewcomerOk(p)
    ensures if p.run.Some? then PlaceOk(st, Revived(p)) else NewcomerOk(Revived(p))
    ensures !Revived(p).pc.Lost? && Revived(p).run == p.run
            && (MarksPc(Revived(p).pc, reason) ==> MarksPc(p.pc, reason))
  {
    if p.run.Some? {
      RevivedPlace(st, p);
    }
  }

  lemma LostMarks(st: Store, limit: nat, sems: map<Id, int>, p: Proc, q: Proc, c: Choice, run: Id, reason: Reason)
    requires StoreOk(st) && !q.pc.Lost? && Admissible(st, q, c) && Capacity(reason)
    requires if q.run.Some? then PlaceOk(st, q) else NewcomerOk(q)
    requires q.run == p.run && (MarksPc(q.pc, reason) ==> MarksPc(p.pc, reason))
    ensures RowMarked(Advance(st, limit, sems, q, c).store, run, reason) ==>
              RowMarked(st, run, reason) || (p.run == Some(run) && MarksPc(p.pc, reason))
  {
    MoverMarks(st, limit, sems, q, c, run, reason);
  }

  lemma RemovalMarks(core: Core, core': Core, pid: Id, run: Id, reason: Reason)
    requires pid in core.procs && core'.procs == core.procs - {pid} && Marked(core', run, reason)
    requires RowMarked(core'.store, run, reason) ==>
               || RowMarked(core.store, run, reason)
               || (core.procs[pid].run == Some(run) && MarksPc(core.procs[pid].pc, reason))
    ensures Marked(core, run, reason)
  {
    if SomeMarks(core'.procs, run, reason) {
      var q :| q in core'.procs && core'.procs[q].run == Some(run) && MarksPc(core'.procs[q].pc, reason);
      assert q in core.procs && core.procs[q] == core'.procs[q];
    }
  }

  lemma QuietMarks(core: Core, core': Core, run: Id, reason: Reason)
    requires core'.store.runs == core.store.runs
    requires forall q :: q in core'.procs && core'.procs[q].run.Some? ==>
               q in core.procs && (core'.procs[q] == core.procs[q] || core'.procs[q] == Abandoned(core.procs[q]))
    requires Marked(core', run, reason)
    ensures Marked(core, run, reason)
  {
    if SomeMarks(core'.procs, run, reason) {
      var q :| q in core'.procs && core'.procs[q].run == Some(run) && MarksPc(core'.procs[q].pc, reason);
      assert q in core.procs && core.procs[q].run == Some(run) && MarksPc(core.procs[q].pc, reason);
    }
  }

  /** A run becomes marked only at its failing acquire, when all permits are held. */
  lemma StepMarks(w: World, a: Action, run: Id, reason: Reason)
    requires Inv(w) && EnabledIn(w, a) && Capacity(reason)
    requires !Marked(w.core, run, reason) && Marked(ApplyIn(w, a).core, run, reason)
    ensures RefusedIn(w, a, run, reason)
  {
    if a.Move? {
      MoveMarks(w.core, a.pid, a.c, run, reason);
      if reason.TenantConcurrencyLimitExceeded? {
        TenantRefusal(w.core, a.pid, a.c);
      } else {
        GlobalRefusal(w, a.pid, a.c);
      }
    } else if a.Settle? {
      SettleMarks(w.core, a.pid, a.commits, a.c, run, reason);
    } else {
      QuietMarks(w.core, ApplyIn(w, a).core, run, reason);
    }
  }

  // ---- executions

  /** The `k`-th action of the execution is the run's refusal. */
  ghost predicate RefusedAt(w: World, acts: seq<Action>, k: nat, run: Id, reason: Reason) {
    k < |acts| && Playable(w, acts[..k]) && RefusedIn(Play(w, acts[..k]), acts[k], run, reason)
  }

  lemma RefusedLater(w: World, acts: seq<Action>, k: nat, run: Id, reason: Reason)
    requires acts != [] && EnabledIn(w, acts[0]) && RefusedAt(ApplyIn(w, acts[0]), acts[1..], k, run, reason)
    ensures RefusedAt(w, acts, k + 1, run, reason)
  {
    assert acts[..k + 1][1..] == acts[1..][..k];
    assert acts[..k + 1][0] == acts[0];
  }

  lemma {:induction false} MarkedSince(w: World, acts: seq<Action>, run: Id, reason: Reason) returns (k: nat)
    requires Inv(w) && Playable(w, acts) && Capacity(reason)
    requires !Marked(w.core, run, reason) && Marked(Play(w, acts).core, run, reason)
    ensures RefusedAt(w, acts, k, run, reason)
    decreases |acts|
  {
    if Marked(ApplyIn(w, acts[0]).core, run, reason) {
      StepMarks(w, acts[0], run, reason);
      assert acts[..0] == [];
      k := 0;
    } else {
      StepKeeps(w, acts[0]);
      k := MarkedSince(ApplyIn(w, acts[0]), acts[1..], run, reason);
      RefusedLater(w, acts, k, run, reason);
      k := k + 1;
    }
  }

  /**
   Over every execution, faults included: a run whose row says `tenant_concurrency_limit_exceeded` was refused
   at a moment at which exactly the limit of its tenant's tasks were live, and one whose row says
   `scheduler_capacity_exceeded` at a moment at which exactly all global permits were held.
   */
  lemma MarkedRunsWereRefused(w: World, acts: seq<Action>, run: Id, reason: Reason)
    requires Init(w) && Playable(w, acts) && Capacity(reason)
    requires run in Play(w, acts).core.store.runs && Play(w, acts).core.store.runs[run].errorReason == Some(reason)
    ensures exists k :: RefusedAt(w, acts, k, run, reason)
  {
    InitOk(w);
    var k := MarkedSince(w, acts, run, reason);
  }

  /** So does a `scheduler_decision` that says rejected, and a `run_end` with the reason, in the run's trace. */
  lemma RejectedTracesWereRefused(w: World, acts: seq<Action>, run: Id, i: nat)
    requires Init(w) && Playable(w, acts) && run in Play(w, acts).core.store.runs
    requires var log := LogOf(Play(w, acts).core.store, run); i < |log| && log[i].Rejected?
    ensures exists k :: RefusedAt(w, acts, k, run, LogOf(Play(w, acts).core.store, run)[i].reason)
  {
    var st := Play(w, acts).core.store;
    InitOk(w);
    PlayKeeps(w, acts);
    assert RunOk(st, run);
    RejectedLog(SpecOf(st, st.runs[run]), LogOf(st, run), i);
    MarkedRunsWereRefused(w, acts, run, LogOf(st, run)[i].reason);
  }

  /** Once a trace says rejected, it is in the phase that only a row with the reason agrees with. */
  lemma {:induction false} RejectedLog(spec: Spec, log: seq<Event>, i: nat)
    requires i < |log| && log[i].Rejected? && !PhaseOf(spec, log).Bad?
    ensures Capacity(log[i].reason)
    ensures PhaseOf(spec, log) == Phase.Refused(log[i].reason) || PhaseOf(spec, log) == Ended(EndFailed(log[i].reason))
    decreases |log|
  {
    if i < |log| - 1 {
      RejectedLog(spec, log[..|log| - 1], i);
    }
  }
}
