/** What the invariant gives over whole executions: status transitions, traces, ownership, at-most-once. */
module Safety {
  import opened Domain
  import opened TraceTable
  import opened Store
  import opened TraceLanguage
  import opened Protocol
  import opened RunInvariant
  import opened StatementSteps
  import opened Permits
  import opened Invariant

  // ---- one action, seen from one run

  /** The run after an action: a legal transition, and a trace that only got longer. */
  ghost predicate Evolves(st: Store, st': Store, run: Id)
    requires run in st.runs
  {
    && run in st'.runs
    && Transition(st.runs[run], st'.runs[run])
    && LogOf(st, run) <= LogOf(st', run)
  }

  lemma FrameEvolves(st: Store, st': Store, except: Option<Id>, run: Id)
    requires Frame(st, st', except) && run in st.runs && Some(run) != except
    ensures Evolves(st, st', run)
    ensures LogOf(st', run) == LogOf(st, run) && st'.runs[run] == st.runs[run]
  {
    TraceFrame(st.traces, st'.traces, st.runs[run].tenant, run);
  }

  lemma MovedEvolves(st: Store, p: Proc, o: Outcome, run: Id)
    requires Moved(st, p, o) && run in st.runs
    ensures Evolves(st, o.store, run)
    ensures p.run != Some(run) ==> LogOf(o.store, run) == LogOf(st, run) && o.store.runs[run] == st.runs[run]
  {
    if o.proc.run != Some(run) {
      FrameEvolves(st, o.store, o.proc.run, run);
    }
  }

  lemma MoveEvolves(core: Core, pid: Id, c: Choice, run: Id)
    requires CoreInv(core) && Enabled(core, Move(pid, c)) && run in core.store.runs
    ensures Evolves(core.store, MoveOf(core, pid, c).store, run)
  {
    MoveProc(core.store, core.limit, core.sems, core.procs[pid], c);
    MovedEvolves(core.store, core.procs[pid], MoveOf(core, pid, c), run);
  }

  lemma SettleEvolves(core: Core, pid: Id, c: Choice, run: Id)
    requires CoreInv(core) && Enabled(core, Settle(pid, true, c)) && run in core.store.runs
    ensures Evolves(core.store, Apply(core, Settle(pid, true, c)).store, run)
  {
    var p := core.procs[pid];
    LostMoves(core.store, core.limit, core.sems, p, c);
    MovedEvolves(core.store, Revived(p), Advance(core.store, core.limit, core.sems, Revived(p), c), run);
  }

  lemma SurroundingsEvolve(w: World, a: Action, run: Id)
    requires EnabledIn(w, a) && run in w.core.store.runs && !a.Move? && !(a.Settle? && a.commits)
    ensures Evolves(w.core.store, ApplyIn(w, a).core.store, run)
  {
    var st, st' := w.core.store, ApplyIn(w, a).core.store;
    assert st'.runs == st.runs && st'.traces == st.traces;
  }

  lemma StepEvolves(w: World, a: Action, run: Id)
    requires Inv(w) && EnabledIn(w, a) && run in w.core.store.runs
    ensures Evolves(w.core.store, ApplyIn(w, a).core.store, run)
  {
    if a.Move? {
      MoveEvolves(w.core, a.pid, a.c, run);
    } else if a.Settle? && a.commits {
      SettleEvolves(w.core, a.pid, a.c, run);
    } else {
      SurroundingsEvolve(w, a, run);
    }
  }

  // ---- status transitions over executions

  function Rank(status: Status): int {
    match status
    case Pending => 0
    case Running => 1
    case Success => 2
    case Failed => 2
  }

  lemma {:induction false} TerminalStays(w: World, acts: seq<Action>, run: Id)
    requires Inv(w) && Playable(w, acts)
    requires run in w.core.store.runs && Terminal(w.core.store.runs[run].status)
    ensures var runs' := Play(w, acts).core.store.runs; run in runs' && runs'[run] == w.core.store.runs[run]
    decreases |acts|
  {
    if acts != [] {
      StepEvolves(w, acts[0], run);
      StepKeeps(w, acts[0]);
      TerminalStays(ApplyIn(w, acts[0]), acts[1..], run);
    }
  }

  /** A terminal row never changes again, so a poll that sees a terminal status returns the final row. */
  lemma TerminalIsFinal(w: World, acts: seq<Action>, run: Id)
    requires Reachable(w) && Playable(w, acts)
    requires run in w.core.store.runs && Terminal(w.core.store.runs[run].status)
    ensures var runs' := Play(w, acts).core.store.runs; run in runs' && runs'[run] == w.core.store.runs[run]
  {
    ReachableOk(w);
    TerminalStays(w, acts, run);
  }

  /** A run keeps its request, its status only advances, and its trace only gets longer. */
  ghost predicate Advanced(st: Store, st': Store, run: Id)
    requires run in st.runs
  {
    && run in st'.runs && SameIdentity(st.runs[run], st'.runs[run])
    && Rank(st.runs[run].status) <= Rank(st'.runs[run].status)
    && (st.runs[run].started ==> st'.runs[run].started)
    && LogOf(st, run) <= LogOf(st', run)
  }

  lemma AdvancedFurther(st: Store, st1: Store, st2: Store, run: Id)
    requires run in st.runs && Evolves(st, st1, run) && Advanced(st1, st2, run)
    ensures Advanced(st, st2, run)
  {
  }

  /** Over any execution, faults included, runs only advance. */
  lemma {:induction false} RunsOnlyAdvance(w: World, acts: seq<Action>, run: Id)
    requires Inv(w) && Playable(w, acts) && run in w.core.store.runs
    ensures Advanced(w.core.store, Play(w, acts).core.store, run)
    decreases |acts|
  {
    if acts != [] {
      var w1 := ApplyIn(w, acts[0]);
      StepEvolves(w, acts[0], run);
      StepKeeps(w, acts[0]);
      RunsOnlyAdvance(w1, acts[1..], run);
      AdvancedFurther(w.core.store, w1.core.store, Play(w, acts).core.store, run);
    }
  }

  // ---- ownership

  /** Two processes, aborted ones included, never work on the same run. */
  lemma OneWriter(w: World, i: Id, j: Id)
    requires Reachable(w) && i in w.core.procs && j in w.core.procs
    requires w.core.procs[i].run.Some? && w.core.procs[i].run == w.core.procs[j].run
    ensures i == j
  {
    ReachableOk(w);
  }

  /** The process and the run it works on, as the invariant has them. */
  lemma ProcessAt(w: World, pid: Id)
    requires Reachable(w) && pid in w.core.procs
    ensures var p := w.core.procs[pid];
            if p.run.Some? then
              PlaceOk(w.core.store, Revived(p)) && RunOk(w.core.store, p.run.value)
            else
              NewcomerOk(p)
  {
    ReachableOk(w);
    var p := w.core.procs[pid];
    assert ProcOk(w.core.store, p);
    if p.run.Some? && p.pc.Lost? {
      RevivedPlace(w.core.store, p);
    }
  }

  lemma WriterMeetsItsRow(st: Store, p: Proc)
    requires p.run.Some? && PlaceOk(st, p) && RunOk(st, p.run.value)
    ensures var row := st.runs[p.run.value];
            && (p.pc.MarkFailed? ==> row.status.Pending? && !row.started)
            && (p.pc.Finalize? ==> row.status.Running? && Terminal(p.pc.status))
            && (p.pc.BeginExecution? ==> row.status.Pending?)
  {
  }

  /** The unguarded updates only ever meet the row they are meant for, even when they commit late. */
  lemma UnguardedWritesAreSafe(w: World, pid: Id)
    requires Reachable(w) && pid in w.core.procs && w.core.procs[pid].run.Some?
    ensures var p := w.core.procs[pid];
            && p.run.value in w.core.store.runs
            && var row := w.core.store.runs[p.run.value];
               && (Revived(p).pc.MarkFailed? ==> row.status.Pending? && !row.started)
               && (Revived(p).pc.Finalize? ==> row.status.Running? && Terminal(Revived(p).pc.status))
               && (Revived(p).pc.BeginExecution? ==> row.status.Pending?)
  {
    ProcessAt(w, pid);
    WriterMeetsItsRow(w.core.store, Revived(w.core.procs[pid]));
  }

  // ---- traces

  /** `SELECT ... ORDER BY seq` returns rows numbered 1, 2, 3, ... for every run. */
  lemma TracesAreDense(w: World, run: Id)
    requires Reachable(w) && run in w.core.store.runs
    ensures Dense(GetTrace(w.core.store.traces, w.core.store.runs[run].tenant, run))
  {
    ReachableOk(w);
    assert RunOk(w.core.store, run);
  }

  lemma NumberIsFree(st: Store, p: Proc)
    requires p.run.Some? && PlaceOk(st, p) && RunOk(st, p.run.value) && p.pc.InsertRow?
    ensures TraceKey(p.req.tenant, p.run.value, p.pc.number) !in st.traces
    ensures p.pc.number == |GetTrace(st.traces, p.req.tenant, p.run.value)| + 1
  {
    assert Revived(p) == p;
    DenseMax(st.traces, p.req.tenant, p.run.value);
    AppendNext(st.traces, p.req.tenant, p.run.value, p.pc.event);
  }

  /** Between computing MAX(seq) + 1 and inserting it no other row takes the number. */
  lemma NoSequenceCollision(w: World, pid: Id)
    requires Reachable(w) && pid in w.core.procs && Revived(w.core.procs[pid]).pc.InsertRow?
    ensures var p := w.core.procs[pid];
            && p.run.Some?
            && TraceKey(p.req.tenant, p.run.value, Revived(p).pc.number) !in w.core.store.traces
            && Revived(p).pc.number == |GetTrace(w.core.store.traces, p.req.tenant, p.run.value)| + 1
  {
    ProcessAt(w, pid);
    NumberIsFree(w.core.store, Revived(w.core.procs[pid]));
  }

  /** Every trace is the beginning of one of the possible words, so it has at most nine events. */
  lemma TracesAreWords(w: World, run: Id)
    requires Reachable(w) && run in w.core.store.runs
    ensures w.core.store.runs[run].agent in w.core.store.agents
    ensures exists script :: Begins(SpecOf(w.core.store, w.core.store.runs[run]), LogOf(w.core.store, run), script)
    ensures |LogOf(w.core.store, run)| <= 9
  {
    ReachableOk(w);
    assert RunOk(w.core.store, run);
    var spec := SpecOf(w.core.store, w.core.store.runs[run]);
    Language(spec, LogOf(w.core.store, run));
    var script :| Begins(spec, LogOf(w.core.store, run), script);
    WordBounded(spec, script);
  }

  predicate IsEnd(e: Event) {
    e.EndSuccess? || e.EndFailed?
  }

  lemma {:induction false} EndIsLast(spec: Spec, log: seq<Event>, i: nat)
    requires i < |log| && IsEnd(log[i]) && !PhaseOf(spec, log).Bad?
    ensures i == |log| - 1 && PhaseOf(spec, log) == Ended(log[i])
    decreases |log|
  {
    var init := log[..|log| - 1];
    if i < |log| - 1 {
      EndIsLast(spec, init, i);
    }
  }

  /** A `run_end` event is last and tells what the row says. */
  lemma RowAndTraceAgree(w: World, run: Id, i: nat)
    requires Reachable(w) && run in w.core.store.runs
    requires i < |LogOf(w.core.store, run)| && IsEnd(LogOf(w.core.store, run)[i])
    ensures var row, log := w.core.store.runs[run], LogOf(w.core.store, run);
            && i == |log| - 1
            && match log[i]
               case EndSuccess(answer) => row.status.Success? && row.finalAnswer == Some(answer)
                 && row.errorReason.None?
               case EndFailed(reason) => row.status.Failed? && row.errorReason == Some(reason) && row.finalAnswer.None?
               case _ => false
  {
    ReachableOk(w);
    assert RunOk(w.core.store, run);
    EndIsLast(SpecOf(w.core.store, w.core.store.runs[run]), LogOf(w.core.store, run), i);
  }

  lemma RowShapes(w: World, run: Id)
    requires Reachable(w) && run in w.core.store.runs
    ensures RowShape(w.core.store.runs[run])
  {
    ReachableOk(w);
    assert RunOk(w.core.store, run);
  }

  lemma {:induction false} ForcedNeverExecutes(spec: Spec, log: seq<Event>, i: nat)
    requires spec.forced && i < |log| && log[i].ToolExec?
    ensures PhaseOf(spec, log).Bad?
    decreases |log|
  {
    if i < |log| - 1 {
      ForcedNeverExecutes(spec, log[..|log| - 1], i);
    }
  }

  /** A run whose messages carry the sentinel executes no tool, whatever else happens. */
  lemma ForcedRunsExecuteNothing(w: World, run: Id, i: nat)
    requires Reachable(w) && run in w.core.store.runs && Forced(w.core.store.runs[run].messages)
    requires i < |LogOf(w.core.store, run)|
    ensures !LogOf(w.core.store, run)[i].ToolExec?
  {
    ReachableOk(w);
    assert RunOk(w.core.store, run);
    if LogOf(w.core.store, run)[i].ToolExec? {
      ForcedNeverExecutes(SpecOf(w.core.store, w.core.store.runs[run]), LogOf(w.core.store, run), i);
    }
  }

  /** Every executed tool belongs to the run's tenant and is bound to the run's agent. */
  lemma ExecutedToolsAreBound(w: World, run: Id, i: nat)
    requires Reachable(w) && run in w.core.store.runs
    requires i < |LogOf(w.core.store, run)| && LogOf(w.core.store, run)[i].ToolExec?
    ensures var row, x := w.core.store.runs[run], LogOf(w.core.store, run)[i].tool;
            && Binding(row.tenant, row.agent, x) in w.core.store.bindings
            && x in w.core.store.tools && w.core.store.tools[x].tenant == row.tenant
  {
    ReachableOk(w);
    assert RunOk(w.core.store, run);
  }

  /** Every row meets the CHECKs and the foreign keys of the migration, and no two rows violate a unique index. */
  lemma SchemaHolds(w: World)
    requires Reachable(w)
    ensures var st := w.core.store;
            && (forall x :: x in st.agents ==> 0 < st.agents[x].maxIterations <= 50)
            && (forall b :: b in st.bindings ==>
                  && b.agent in st.agents && st.agents[b.agent].tenant == b.tenant
                  && b.tool in st.tools && st.tools[b.tool].tenant == b.tenant)
            && (forall r :: r in st.runs ==>
                  st.runs[r].agent in st.agents && st.agents[st.runs[r].agent].tenant == st.runs[r].tenant)
            && (forall k :: k in st.traces ==>
                  k.run in st.runs && st.runs[k.run].tenant == k.tenant && k.number > 0)
    ensures var st := w.core.store;
            && (forall x, y | x in st.tools && y in st.tools && !st.tools[x].deleted && !st.tools[y].deleted ::
                  st.tools[x].tenant == st.tools[y].tenant && st.tools[x].name == st.tools[y].name ==> x == y)
            && (forall x, y | x in st.agents && y in st.agents && st.agents[x].name.Some? ::
                  st.agents[x].tenant == st.agents[y].tenant && st.agents[x].name == st.agents[y].name ==> x == y)
  {
    ReachableOk(w);
  }

  // ---- at most once

  /** One scope of an idempotency key has one run, and every Ok reply for it names that run. */
  lemma RepliesNameOneRun(w: World, x: Reply, y: Reply)
    requires Reachable(w) && x in w.core.replies && y in w.core.replies
    ensures x.key.Some? && x.tenant == y.tenant && x.agent == y.agent && x.key == y.key ==> x.run == y.run
    ensures x.run == y.run ==> x.tenant == y.tenant && x.agent == y.agent && x.key == y.key
  {
    ReachableOk(w);
  }

  lemma OneRunPerKey(w: World, q: Id, r: Id)
    requires Reachable(w) && q in w.core.store.runs && r in w.core.store.runs
    requires var x, y := w.core.store.runs[q], w.core.store.runs[r];
             x.key.Some? && x.key == y.key && x.tenant == y.tenant && x.agent == y.agent
    ensures q == r
  {
    ReachableOk(w);
  }

  /** Whether an action starts the run's execution. */
  ghost predicate Starts(w: World, a: Action, run: Id)
    requires EnabledIn(w, a)
  {
    && run in w.core.store.runs && w.core.store.runs[run].status.Pending?
    && run in ApplyIn(w, a).core.store.runs && ApplyIn(w, a).core.store.runs[run].status.Running?
  }

  ghost function StartCount(w: World, acts: seq<Action>, run: Id): nat
    requires Playable(w, acts)
    decreases |acts|
  {
    if acts == [] then 0
    else (if Starts(w, acts[0], run) then 1 else 0) + StartCount(ApplyIn(w, acts[0]), acts[1..], run)
  }

  lemma {:induction false} StartsAtMostOnce(w: World, acts: seq<Action>, run: Id)
    requires Inv(w) && Playable(w, acts)
    ensures StartCount(w, acts, run) <= 1
    ensures run in w.core.store.runs && !w.core.store.runs[run].status.Pending? ==> StartCount(w, acts, run) == 0
    decreases |acts|
  {
    if acts != [] {
      if run in w.core.store.runs {
        StepEvolves(w, acts[0], run);
      }
      StepKeeps(w, acts[0]);
      StartsAtMostOnce(ApplyIn(w, acts[0]), acts[1..], run);
    }
  }

  /** The update pending -> running succeeds at most once for a run, and never once the run has left `pending`. */
  lemma ExecutedAtMostOnce(w: World, acts: seq<Action>, run: Id)
    requires Reachable(w) && Playable(w, acts)
    ensures StartCount(w, acts, run) <= 1
    ensures run in w.core.store.runs && !w.core.store.runs[run].status.Pending? ==> StartCount(w, acts, run) == 0
  {
    ReachableOk(w);
    StartsAtMostOnce(w, acts, run);
  }

  // ---- limits

  /** No execution path, faulty or not, exceeds the limits. */
  lemma WithinLimits(w: World, tenant: Id)
    requires Reachable(w)
    ensures |LiveTasks(w.core.procs, tenant)| <= w.core.limit
    ensures |Holders(w.core.procs, Global)| <= w.globalMax
  {
    ReachableOk(w);
    if tenant !in w.core.sems {
      NoHolders(w.core.procs, OfTenant(tenant));
    }
  }

  /** All permits are accounted for, and with no process left all of them are back. */
  lemma PermitsConserved(w: World)
    requires Reachable(w)
    ensures w.free + |Holders(w.core.procs, Global)| == w.globalMax
    ensures forall t :: t in w.core.sems ==> w.core.sems[t] + |LiveTasks(w.core.procs, t)| == w.core.limit
    ensures w.core.procs == map[] ==>
              w.free == w.globalMax && forall t :: t in w.core.sems ==> w.core.sems[t] == w.core.limit
  {
    ReachableOk(w);
    if w.core.procs == map[] {
      NoHolders(w.core.procs, Global);
      forall t | t in w.core.sems ensures w.core.sems[t] == w.core.limit {
        NoHolders(w.core.procs, OfTenant(t));
      }
    }
  }

  /** Every run being executed by a process holds both permits. */
  lemma RunningMeansPermits(w: World, pid: Id)
    requires Reachable(w) && pid in w.core.procs && w.core.procs[pid].run.Some? && !w.core.procs[pid].pc.Lost?
    ensures w.core.procs[pid].run.value in w.core.store.runs
    ensures w.core.store.runs[w.core.procs[pid].run.value].started ==>
            pid in LiveTasks(w.core.procs, w.core.procs[pid].req.tenant)
  {
    ReachableOk(w);
    assert ProcOk(w.core.store, w.core.procs[pid]);
  }

  lemma TenantRefusal(core: Core, pid: Id, c: Choice)
    requires SemsOk(core) && pid in core.procs && core.procs[pid].pc.AcquireTenant?
    ensures MoveOf(core, pid, c).proc.pc == Refuse(TenantConcurrencyLimitExceeded)
       <==> |LiveTasks(core.procs, core.procs[pid].req.tenant)| == core.limit
    ensures MoveOf(core, pid, c).proc.pc.MarkFailed? ==>
            MoveOf(core, pid, c).proc.pc == Refuse(TenantConcurrencyLimitExceeded)
  {
    var t := core.procs[pid].req.tenant;
    assert t in core.sems;
    assert core.sems[t] + |LiveTasks(core.procs, t)| == core.limit;
  }

  lemma GlobalRefusal(w: World, pid: Id, c: Choice)
    requires GlobalPermitsAddUp(w) && EnabledIn(w, Move(pid, c)) && w.core.procs[pid].pc.AcquireGlobal?
    ensures MoveOf(w.core, pid, c).proc.pc == Refuse(SchedulerCapacityExceeded)
            <==> |Holders(w.core.procs, Global)| == w.globalMax
    ensures MoveOf(w.core, pid, c).proc.pc.MarkFailed? ==>
            MoveOf(w.core, pid, c).proc.pc == Refuse(SchedulerCapacityExceeded)
  {
  }

  /** The tenant limit refuses a run exactly when that many tasks of the tenant are live. */
  lemma TenantRefusalIsExact(w: World, pid: Id, c: Choice)
    requires Reachable(w) && EnabledIn(w, Move(pid, c)) && w.core.procs[pid].pc.AcquireTenant?
    ensures MoveOf(w.core, pid, c).proc.pc == Refuse(TenantConcurrencyLimitExceeded)
       <==> |LiveTasks(w.core.procs, w.core.procs[pid].req.tenant)| == w.core.limit
    ensures MoveOf(w.core, pid, c).proc.pc.MarkFailed?
       ==> MoveOf(w.core, pid, c).proc.pc == Refuse(TenantConcurrencyLimitExceeded)
  {
    ReachableOk(w);
    TenantRefusal(w.core, pid, c);
  }

  /** The scheduler refuses a run exactly when all global permits are held. */
  lemma GlobalRefusalIsExact(w: World, pid: Id, c: Choice)
    requires Reachable(w) && EnabledIn(w, Move(pid, c)) && w.core.procs[pid].pc.AcquireGlobal?
    ensures MoveOf(w.core, pid, c).proc.pc == Refuse(SchedulerCapacityExceeded)
       <==> |Holders(w.core.procs, Global)| == w.globalMax
    ensures MoveOf(w.core, pid, c).proc.pc.MarkFailed?
       ==> MoveOf(w.core, pid, c).proc.pc == Refuse(SchedulerCapacityExceeded)
  {
    ReachableOk(w);
    GlobalRefusal(w, pid, c);
  }

  /** The tasks of all tenants that execute runs. */
  function Tasks(procs: map<Id, Proc>): set<Id> {
    set pid | pid in procs && procs[pid].permits.BothPermits?
  }

  /** The handlers that hold a global permit only: on their way to the tenant's, or recording its refusal. */
  function HandlersHolding(procs: map<Id, Proc>): set<Id> {
    set pid | pid in procs && procs[pid].permits.GlobalPermit?
  }

  /** A global refusal means that so many tasks are executing exactly when no handler holds a permit. */
  lemma GlobalRefusalMeansTasks(w: World, pid: Id, c: Choice)
    requires Reachable(w) && EnabledIn(w, Move(pid, c)) && w.core.procs[pid].pc.AcquireGlobal?
    requires MoveOf(w.core, pid, c).proc.pc == Refuse(SchedulerCapacityExceeded)
    ensures |Tasks(w.core.procs)| + |HandlersHolding(w.core.procs)| == w.globalMax
    ensures |Tasks(w.core.procs)| == w.globalMax
            <==> forall q :: q in w.core.procs ==> !w.core.procs[q].permits.GlobalPermit?
  {
    GlobalRefusalIsExact(w, pid, c);
    var tasks, handlers := Tasks(w.core.procs), HandlersHolding(w.core.procs);
    assert Holders(w.core.procs, Global) == tasks + handlers;
    assert tasks !! handlers;
    assert |tasks + handlers| == |tasks| + |handlers|;
    forall q | q in w.core.procs && w.core.procs[q].permits.GlobalPermit? ensures handlers != {} {
      assert q in handlers;
    }
    if handlers != {} {
      var q :| q in handlers;
      assert q in w.core.procs && w.core.procs[q].permits.GlobalPermit?;
    }
  }

  /** A refused run has not started and, being terminal, never will. */
  lemma {:induction false} RefusedNeverStarts(w: World, acts: seq<Action>, run: Id)
    requires Reachable(w) && Playable(w, acts) && run in w.core.store.runs
    requires w.core.store.runs[run].errorReason.Some? && Capacity(w.core.store.runs[run].errorReason.value)
    ensures var runs' := Play(w, acts).core.store.runs; run in runs' && !runs'[run].started && runs'[run].status.Failed?
  {
    ReachableOk(w);
    assert RunOk(w.core.store, run);
    TerminalIsFinal(w, acts, run);
  }
}
