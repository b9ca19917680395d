/** Forced runs: whatever else happens, a task that meets no fault of its own ends refused after one model call. */
module ForcedRuns {
  import opened Domain
  import opened Store
  import opened TraceLanguage
  import opened Decisions
  import opened Protocol
  import opened RunInvariant
  import opened RunSteps
  import opened StatementSteps
  import opened Invariant
  import opened Safety
  import opened Interleaving
  import opened Completion

  // ---- `internal_error` needs a failing statement

  /** No continuation of the program ends the run with `internal_error`. */
  predicate Clean(pc: Pc) {
    match pc
    case ReadMax(_, k) => Clean(k)
    case InsertRow(_, _, k) => Clean(k)
    case MarkFailed(reason, k) => !reason.InternalError? && Clean(k)
    case Finalize(_, _, why, k) => why != Some(InternalError) && Clean(k)
    case Lost(_) => false
    case _ => true
  }

  predicate CleanRow(row: Run) {
    row.errorReason != Some(InternalError)
  }

  lemma DecideClean(st: Store, t: Id, run: Id, pc: Pc, c: Choice)
    requires pc.Decide?
    ensures Clean(ReadNext(st, t, run, pc, c))
  {
    var loop := pc.loop;
    var unbound := if UnboundActiveTools(st, t, loop.agent) == {} then None else Some(c.id);
    var decision := MockLlmDecision(loop, unbound);
    if loop.iteration <= loop.maxIterations && decision.Some? {
      assert Clean(AfterDecision(loop, decision.value));
    }
  }

  lemma ReadsClean(st: Store, t: Id, run: Id, pc: Pc, c: Choice)
    requires Clean(pc) && !c.dbError && Reads(pc)
    ensures Clean(ReadNext(st, t, run, pc, c))
  {
    if pc.Decide? {
      DecideClean(st, t, run, pc, c);
    }
  }

  lemma WritesClean(st: Store, t: Id, run: Id, pc: Pc)
    requires run in st.runs && CleanRow(st.runs[run]) && Clean(pc) && Writes(pc)
    ensures var (st', pc') := WriteNext(st, t, run, pc); run in st'.runs && CleanRow(st'.runs[run]) && Clean(pc')
  {
  }

  // ---- the task of a forced run

  /** A forced run's task is under way: no statement has failed, and after the first one the row has started. */
  ghost predicate ForcedOn(st: Store, p: Proc) {
    && p.run.Some? && p.run.value in st.runs && Forced(st.runs[p.run.value].messages)
    && CleanRow(st.runs[p.run.value]) && Clean(p.pc)
    && (p.pc.BeginExecution? || st.runs[p.run.value].started)
  }

  lemma ForcedNeverQuits(st: Store, p: Proc, c: Choice)
    requires RunKeys(st) && p.run.Some? && PlaceOk(st, p) && Reads(p.pc) && Forced(st.runs[p.run.value].messages)
             && !c.dbError
    ensures !ReadNext(st, p.req.tenant, p.run.value, p.pc, c).Quit?
  {
    assert p.pc.CheckBinding? ==> p.pc.tool !in AgentToolIds(st, p.req.tenant, p.pc.loop.agent);
  }

  lemma ForcedReads(st: Store, p: Proc, c: Choice, o: Outcome)
    requires RunKeys(st) && p.run.Some? && PlaceOk(st, p) && ForcedOn(st, p) && Reads(p.pc) && !c.dbError
             && ByKind(st, p, c, o)
    ensures ForcedOn(o.store, o.proc) && !o.proc.pc.Quit?
  {
    ReadsClean(st, p.req.tenant, p.run.value, p.pc, c);
    ForcedNeverQuits(st, p, c);
  }

  lemma ForcedWrites(st: Store, p: Proc, c: Choice, o: Outcome)
    requires StoreOk(st) && p.run.Some? && PlaceOk(st, p) && ForcedOn(st, p) && Writes(p.pc) && ByKind(st, p, c, o)
    ensures ForcedOn(o.store, o.proc) && !o.proc.pc.Quit?
  {
    WritesClean(st, p.req.tenant, p.run.value, p.pc);
    WriteMoved(st, p, o);
    if p.pc.BeginExecution? {
      BeginStep(st, p);
    }
  }

  /** The task of a forced run is under way. */
  ghost predicate ForcedWork(core: Core, pid: Id, run: Id) {
    WorksOn(core, pid, run) && !core.procs[pid].pc.Lost? && ForcedOn(core.store, core.procs[pid])
  }

  /** The task is gone, and its run has started and is complete. */
  ghost predicate ForcedEnd(st: Store, run: Id) {
    Completed(st, run) && Forced(st.runs[run].messages) && CleanRow(st.runs[run]) && st.runs[run].started
  }

  lemma ForcedOwner(st: Store, limit: nat, sems: map<Id, int>, p: Proc, c: Choice)
    requires StoreOk(st) && p.run.Some? && PlaceOk(st, p) && !p.pc.Lost? && ForcedOn(st, p) && !c.dbError
    ensures var o := Advance(st, limit, sems, p, c); ForcedOn(o.store, o.proc) && !o.proc.pc.Quit?
  {
    assert RunOk(st, p.run.value);
    OwnerPc(st, p);
    AdvanceByKind(st, limit, sems, p, c);
    if Writes(p.pc) {
      ForcedWrites(st, p, c, Advance(st, limit, sems, p, c));
    } else {
      ForcedReads(st, p, c, Advance(st, limit, sems, p, c));
    }
  }

  lemma DoneHasStarted(st: Store, p: Proc)
    requires ForcedOn(st, p) && p.pc.Done? && Completed(st, p.run.value)
    ensures ForcedEnd(st, p.run.value)
  {
  }

  lemma CommitForced(core: Core, pid: Id, o: Outcome, run: Id)
    requires pid in core.procs && o.proc.run == Some(run) && ForcedOn(o.store, o.proc)
    requires !o.proc.pc.Quit? && !o.proc.pc.Lost? && (o.proc.pc.Done? ==> ForcedEnd(o.store, run))
    ensures var core' := Commit(core, pid, o); ForcedWork(core', pid, run) || ForcedEnd(core'.store, run)
  {
  }

  lemma OwnForced(core: Core, pid: Id, c: Choice, run: Id)
    requires CoreInv(core) && Enabled(core, Move(pid, c)) && ForcedWork(core, pid, run) && !c.dbError
    ensures ForcedWork(Apply(core, Move(pid, c)), pid, run) || ForcedEnd(Apply(core, Move(pid, c)).store, run)
  {
    var p, o := core.procs[pid], MoveOf(core, pid, c);
    assert ProcOk(core.store, p);
    ForcedOwner(core.store, core.limit, core.sems, p, c);
    OwnerMoves(core.store, core.limit, core.sems, p, c);
    NeverLost(core.store, core.limit, core.sems, p, c);
    if o.proc.pc.Done? {
      EndedIsCompleted(o.store, run);
      DoneHasStarted(o.store, o.proc);
    }
    CommitForced(core, pid, o, run);
  }

  lemma OthersForced(w: World, a: Action, pid: Id, run: Id)
    requires Inv(w) && EnabledIn(w, a) && ForcedWork(w.core, pid, run) && OfOthers(w.core, a, run)
    ensures ForcedWork(ApplyIn(w, a).core, pid, run)
  {
    OthersKeepRun(w, a, run);
    OthersKeepProcess(w, a, pid, run);
  }

  lemma ForcedEndStays(w: World, a: Action, run: Id)
    requires Inv(w) && EnabledIn(w, a) && ForcedEnd(w.core.store, run)
    ensures ForcedEnd(ApplyIn(w, a).core.store, run)
  {
    CompletedStays(w, a, run);
    StepEvolves(w, a, run);
  }

  lemma StepForced(w: World, a: Action, pid: Id, run: Id)
    requires Inv(w) && EnabledIn(w, a) && Faultless(w.core, a, run) && ForcedWork(w.core, pid, run)
    ensures ForcedWork(ApplyIn(w, a).core, pid, run) || ForcedEnd(ApplyIn(w, a).core.store, run)
  {
    OwnOrOther(w, a, pid, run);
    if OfOthers(w.core, a, run) {
      OthersForced(w, a, pid, run);
    } else {
      OwnForced(w.core, pid, a.c, run);
    }
  }

  lemma {:induction false} StaysForced(w: World, acts: seq<Action>, pid: Id, run: Id)
    requires Inv(w) && Playable(w, acts) && AllFaultless(w, acts, run)
    requires ForcedWork(w.core, pid, run) || ForcedEnd(w.core.store, run)
    ensures ForcedWork(Play(w, acts).core, pid, run) || ForcedEnd(Play(w, acts).core.store, run)
    decreases |acts|
  {
    if acts != [] {
      if ForcedWork(w.core, pid, run) {
        StepForced(w, acts[0], pid, run);
      } else {
        ForcedEndStays(w, acts[0], run);
      }
      StepKeeps(w, acts[0]);
      StaysForced(ApplyIn(w, acts[0]), acts[1..], pid, run);
    }
  }

  /** A forced run's row is terminal only for one of the two reasons, after its single model call. */
  ghost predicate EndsRefused(row: Run, log: seq<Event>) {
    && row.status.Failed?
    && (row.errorReason == Some(ToolNotAllowedForAgent) || row.errorReason == Some(ToolDeleted))
    && 4 <= |log| <= 5 && log[..3] == OPENING
    && log[3].LlmCall? && log[3].forced && log[3].iteration == 1
    && (|log| == 5 ==> log[4] == EndFailed(row.errorReason.value))
  }

  lemma ForcedLog(spec: Spec, row: Run, log: seq<Event>)
    requires spec.forced && spec.maxIterations >= 1 && RowShape(row) && Agrees(spec, row, PhaseOf(spec, log))
    requires !PhaseOf(spec, log).Bad? && row.started && Terminal(row.status) && CleanRow(row)
    ensures EndsRefused(row, log)
    ensures PhaseOf(spec, log).Ended? ==> |log| == 5
  {
    if PhaseOf(spec, log).Ended? {
      var script := EndedIsWord(spec, log);
      assert log[|log| - 1] == Word(spec, script)[|log| - 1];
      EndIsLast(spec, log, |log| - 1);
    } else {
      var results := Spell(spec, log);
    }
  }

  lemma StartsForced(w: World, pid: Id, run: Id)
    requires Inv(w) && WorksOn(w.core, pid, run) && w.core.procs[pid].pc.BeginExecution?
    requires Forced(w.core.procs[pid].req.messages)
    ensures ForcedWork(w.core, pid, run)
  {
    assert ProcOk(w.core.store, w.core.procs[pid]);
    assert RunOk(w.core.store, run);
  }

  lemma ForcedRow(st: Store, run: Id)
    requires AgentChecks(st) && run in st.runs && RunOk(st, run)
    requires Forced(st.runs[run].messages) && CleanRow(st.runs[run])
    requires st.runs[run].started && Terminal(st.runs[run].status)
    ensures EndsRefused(st.runs[run], LogOf(st, run))
    ensures Completed(st, run) ==> |LogOf(st, run)| == 5
  {
    var spec, log := SpecOf(st, st.runs[run]), LogOf(st, run);
    ForcedLog(spec, st.runs[run], log);
    if Completed(st, run) {
      EndedExactly(spec, log);
    }
  }

  /** A terminal row of a forced run under way has started: its task is past its first statement. */
  lemma TerminalHasStarted(st: Store, p: Proc)
    requires ForcedOn(st, p) && PlaceOk(st, p) && Terminal(st.runs[p.run.value].status)
    ensures st.runs[p.run.value].started
  {
  }

  /**
   Whatever other requests, faults, deletions and new agents there are around it: the run of a forced task that
   meets no fault of its own becomes terminal only by being refused with `tool_not_allowed_for_agent` or
   `tool_deleted` after its single model call; and when the task is gone, it has been, with a complete trace.
   */
  lemma ForcedRunsEndRefused(w: World, acts: seq<Action>, pid: Id, run: Id)
    requires Reachable(w) && WorksOn(w.core, pid, run) && w.core.procs[pid].pc.BeginExecution?
    requires Forced(w.core.procs[pid].req.messages)
    requires Playable(w, acts) && AllFaultless(w, acts, run)
    ensures run in Play(w, acts).core.store.runs
    ensures var st := Play(w, acts).core.store;
            Terminal(st.runs[run].status) ==> EndsRefused(st.runs[run], LogOf(st, run))
    ensures var st := Play(w, acts).core.store;
            !WorksOn(Play(w, acts).core, pid, run) ==> Terminal(st.runs[run].status) && |LogOf(st, run)| == 5
  {
    ReachableOk(w);
    StartsForced(w, pid, run);
    StaysForced(w, acts, pid, run);
    PlayKeeps(w, acts);
    var core := Play(w, acts).core;
    assert RunOk(core.store, run);
    if ForcedWork(core, pid, run) {
      assert ProcOk(core.store, core.procs[pid]);
    }
    if Terminal(core.store.runs[run].status) {
      if ForcedWork(core, pid, run) {
        TerminalHasStarted(core.store, core.procs[pid]);
      }
      ForcedRow(core.store, run);
    }
  }
}
