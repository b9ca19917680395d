/** `schedule_run` is called at most once for a run, over any execution. */
module Scheduling {
  import opened Domain
  import opened Store
  import opened TraceLanguage
  import opened Protocol
  import opened RunInvariant
  import opened StatementSteps
  import opened Invariant

  /** The program has `schedule_run` still before it. */
  predicate BeforeScheduling(pc: Pc) {
    match pc
    case AcquireGlobal => true
    case ReadMax(_, k) => k.AcquireGlobal?
    case InsertRow(_, _, k) => k.AcquireGlobal?
    case _ => false
  }

  ghost predicate SomeBefore(procs: map<Id, Proc>, run: Id) {
    exists pid :: pid in procs && procs[pid].run == Some(run) && BeforeScheduling(procs[pid].pc)
  }

  function Count(p: bool): nat {
    if p then 1 else 0
  }

  /** A run that does not exist yet, or whose handler has not come to `schedule_run`, has one call left. */
  ghost function CallsLeft(core: Core, run: Id): nat {
    Count(run !in core.store.runs || SomeBefore(core.procs, run))
  }

  /** An action that enters `schedule_run` for the run. */
  ghost predicate Schedules(core: Core, a: Action, run: Id)
    requires Enabled(core, a)
  {
    a.Move? && core.procs[a.pid].run == Some(run) && core.procs[a.pid].pc.AcquireGlobal?
  }

  lemma OwnerPasses(st: Store, limit: nat, sems: map<Id, int>, p: Proc, c: Choice)
    requires p.run.Some? && PlaceOk(st, p) && !p.pc.Lost? && RunOk(st, p.run.value)
    ensures var o := Advance(st, limit, sems, p, c);
            BeforeScheduling(o.proc.pc) ==> BeforeScheduling(p.pc) && !p.pc.AcquireGlobal?
  {
    OwnerPc(st, p);
    AdvanceByKind(st, limit, sems, p, c);
    if p.pc.InsertRow? {
      InsertPasses(st, p);
    } else if Writes(p.pc) {
      UpdatePasses(st, p);
    } else if Reads(p.pc) {
      ReadPasses(st, p.req.tenant, p.run.value, p.pc, c);
    }
  }

  lemma ReadPasses(st: Store, t: Id, run: Id, pc: Pc, c: Choice)
    requires Reads(pc)
    ensures BeforeScheduling(ReadNext(st, t, run, pc, c)) ==> BeforeScheduling(pc)
  {
  }

  /** Only the append of `run_created` leads to the scheduler. */
  lemma AcquireComesFirst(st: Store, t: Id, a: Id, spec: Spec, pc: Pc, row: Run, phase: Phase)
    requires Ready(st, t, a, spec, pc, row, phase) && pc.ReadMax? && pc.k.AcquireGlobal?
    ensures phase.Empty? && row.status.Pending?
  {
    assert ReadyAppend(st, t, a, spec, pc.event, pc.k, row, phase);
    assert Ready(st, t, a, spec, pc.k, row, Next(spec, phase, pc.event));
  }

  lemma InsertPasses(st: Store, p: Proc)
    requires p.run.Some? && PlaceOk(st, p) && p.pc.InsertRow?
    ensures BeforeScheduling(p.pc.k) ==> BeforeScheduling(p.pc)
  {
    var row, phase := st.runs[p.run.value], PhaseIn(st, p.run.value);
    var spec := SpecOf(st, row);
    assert ReadyAppend(st, p.req.tenant, p.req.agent, spec, p.pc.event, p.pc.k, row, phase);
    if p.pc.k.ReadMax? && p.pc.k.k.AcquireGlobal? {
      AcquireComesFirst(st, p.req.tenant, p.req.agent, spec, p.pc.k, row, Next(spec, phase, p.pc.event));
    }
  }

  lemma UpdatePasses(st: Store, p: Proc)
    requires p.run.Some? && PlaceOk(st, p) && (p.pc.MarkFailed? || p.pc.BeginExecution? || p.pc.Finalize?)
    ensures !BeforeScheduling(WriteNext(st, p.req.tenant, p.run.value, p.pc).1)
  {
    var row, phase := st.runs[p.run.value], PhaseIn(st, p.run.value);
    var t, a, spec := p.req.tenant, p.req.agent, SpecOf(st, row);
    if p.pc.MarkFailed? && p.pc.k.k.AcquireGlobal? {
      AcquireComesFirst(st, t, a, spec, p.pc.k, FailedRow(row, p.pc.reason), phase);
    } else if p.pc.Finalize? && p.pc.k.k.AcquireGlobal? {
      AcquireComesFirst(st, t, a, spec, p.pc.k, FinalRow(row, p.pc.status, p.pc.answer, p.pc.why), phase);
    }
  }

  lemma CommitPasses(core: Core, pid: Id, o: Outcome, run: Id)
    requires pid in core.procs && Exclusive(core.procs) && core.procs[pid].run.Some?
             && o.proc.run == core.procs[pid].run
    requires core.store.runs.Keys <= o.store.runs.Keys
    requires BeforeScheduling(o.proc.pc) ==> BeforeScheduling(core.procs[pid].pc) && !core.procs[pid].pc.AcquireGlobal?
    ensures CallsLeft(Commit(core, pid, o), run)
            + Count(core.procs[pid].run == Some(run) && core.procs[pid].pc.AcquireGlobal? && run in core.store.runs)
            <= CallsLeft(core, run)
  {
    var procs, procs' := core.procs, Commit(core, pid, o).procs;
    if SomeBefore(procs', run) {
      var q :| q in procs' && procs'[q].run == Some(run) && BeforeScheduling(procs'[q].pc);
      if q != pid {
        assert q in procs && procs[q] == procs'[q];
      }
      assert SomeBefore(procs, run);
    }
    if procs[pid].run == Some(run) && procs[pid].pc.AcquireGlobal? {
      assert SomeBefore(procs, run);
    }
  }

  lemma OwnerMoveCalls(core: Core, pid: Id, c: Choice, run: Id)
    requires CoreInv(core) && Enabled(core, Move(pid, c)) && core.procs[pid].run.Some?
    ensures CallsLeft(Apply(core, Move(pid, c)), run) + Count(Schedules(core, Move(pid, c), run))
            <= CallsLeft(core, run)
  {
    var p := core.procs[pid];
    assert ProcOk(core.store, p) && RunOk(core.store, p.run.value);
    OwnerPasses(core.store, core.limit, core.sems, p, c);
    MoveProc(core.store, core.limit, core.sems, p, c);
    CommitPasses(core, pid, MoveOf(core, pid, c), run);
  }

  lemma CommitCreates(core: Core, pid: Id, o: Outcome, run: Id)
    requires pid in core.procs && core.store.runs.Keys <= o.store.runs.Keys
    requires o.proc.run.Some? ==> o.proc.run.value !in core.store.runs
    ensures CallsLeft(Commit(core, pid, o), run) <= CallsLeft(core, run)
  {
    var procs, procs' := core.procs, Commit(core, pid, o).procs;
    if SomeBefore(procs', run) && run in core.store.runs {
      var q :| q in procs' && procs'[q].run == Some(run) && BeforeScheduling(procs'[q].pc);
      assert q in procs && procs[q] == procs'[q];
      assert SomeBefore(procs, run);
    }
  }

  lemma CreationCalls(core: Core, pid: Id, c: Choice, run: Id)
    requires CoreInv(core) && Enabled(core, Move(pid, c)) && core.procs[pid].run.None?
    ensures CallsLeft(Apply(core, Move(pid, c)), run) <= CallsLeft(core, run)
    ensures !Schedules(core, Move(pid, c), run)
  {
    MoveProc(core.store, core.limit, core.sems, core.procs[pid], c);
    CommitCreates(core, pid, MoveOf(core, pid, c), run);
  }

  lemma NoNewBefore(core: Core, core': Core, run: Id)
    requires core.store.runs.Keys <= core'.store.runs.Keys
    requires forall q :: q in core'.procs && core'.procs[q].run == Some(run) ==>
               q in core.procs && (core'.procs[q] == core.procs[q] || core'.procs[q].pc.Lost?)
    ensures CallsLeft(core', run) <= CallsLeft(core, run)
  {
    if SomeBefore(core'.procs, run) {
      var q :| q in core'.procs && core'.procs[q].run == Some(run) && BeforeScheduling(core'.procs[q].pc);
      assert SomeBefore(core.procs, run);
    }
  }

  lemma StepCalls(w: World, a: Action, run: Id)
    requires Inv(w) && EnabledIn(w, a)
    ensures CallsLeft(ApplyIn(w, a).core, run) + Count(Schedules(w.core, a, run)) <= CallsLeft(w.core, run)
  {
    if a.Move? {
      if w.core.procs[a.pid].run.Some? {
        OwnerMoveCalls(w.core, a.pid, a.c, run);
      } else {
        CreationCalls(w.core, a.pid, a.c, run);
      }
    } else {
      if a.Settle? && a.commits {
        LostMoves(w.core.store, w.core.limit, w.core.sems, w.core.procs[a.pid], a.c);
      }
      NoNewBefore(w.core, ApplyIn(w, a).core, run);
    }
  }

  ghost function ScheduleCount(w: World, acts: seq<Action>, run: Id): nat
    requires Playable(w, acts)
    decreases |acts|
  {
    if acts == [] then 0
    else Count(Schedules(w.core, acts[0], run)) + ScheduleCount(ApplyIn(w, acts[0]), acts[1..], run)
  }

  lemma {:induction false} CallsAtMostOnce(w: World, acts: seq<Action>, run: Id)
    requires Inv(w) && Playable(w, acts)
    ensures ScheduleCount(w, acts, run) <= CallsLeft(w.core, run) <= 1
    decreases |acts|
  {
    if acts != [] {
      StepCalls(w, acts[0], run);
      StepKeeps(w, acts[0]);
      CallsAtMostOnce(ApplyIn(w, acts[0]), acts[1..], run);
    }
  }

  /** At most one call, and none for a run that exists and whose handler is not on its way to the call. */
  lemma ScheduledAtMostOnce(w: World, acts: seq<Action>, run: Id)
    requires Reachable(w) && Playable(w, acts)
    ensures ScheduleCount(w, acts, run) <= 1
    ensures run in w.core.store.runs && !SomeBefore(w.core.procs, run) ==> ScheduleCount(w, acts, run) == 0
  {
    ReachableOk(w);
    CallsAtMostOnce(w, acts, run);
  }
}
