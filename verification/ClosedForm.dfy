/** The closed form of the agent loop under every interleaving that leaves the task itself without faults. */
module ClosedForm {
  import opened Domain
  import opened Store
  import opened TraceLanguage
  import opened Protocol
  import opened RunInvariant
  import opened RunSteps
  import opened StatementSteps
  import opened Invariant
  import opened Solo
  import opened Sightings
  import opened GoodCalls
  import opened Interleaving

  /** The tool that is called, and what of the run decides its language. */
  datatype Course = Course(first: Id, tool: Tool, spec: Spec)

  ghost predicate GoodRun(st: Store, run: Id, course: Course) {
    && run in st.runs && st.runs[run].agent in st.agents && SpecOf(st, st.runs[run]) == course.spec
    && !course.spec.forced
    && GoodLog(course.first, LogOf(st, run))
    && BoundActive(st, st.runs[run].tenant, st.runs[run].agent, course.first) && st.tools[course.first] == course.tool
  }

  /** The task is under way. */
  ghost predicate UnderWay(core: Core, pid: Id, run: Id, course: Course) {
    && WorksOn(core, pid, run) && !core.procs[pid].pc.Lost?
    && GoodRun(core.store, run, course)
    && GoodPc(course.first, core.procs[pid].pc)
  }

  /** The trace is complete, or ends with a call that the tool cannot respond to. */
  ghost predicate Stopped(st: Store, run: Id, course: Course)
    requires run in st.runs && st.runs[run].agent in st.agents
  {
    || PhaseIn(st, run).Ended?
    || (&& st.runs[run].status.Running? && PhaseIn(st, run).Asked?
        && Mute(course.tool, Lookup(PhaseIn(st, run).calls)))
  }

  /** The task is gone. */
  ghost predicate Concluded(core: Core, run: Id, course: Course) {
    Nobody(core, run) && GoodRun(core.store, run, course) && Stopped(core.store, run, course)
  }

  ghost predicate OnCourse(core: Core, pid: Id, run: Id, course: Course) {
    UnderWay(core, pid, run, course) || Concluded(core, run, course)
  }

  // ---- moves of others

  lemma GoodRunStays(st: Store, st': Store, a: Action, run: Id, course: Course)
    requires GoodRun(st, run, course) && Untouched(st, st', a, run) && !(a.RemoveTool? && a.id == course.first)
    ensures GoodRun(st', run, course)
    ensures Stopped(st, run, course) ==> Stopped(st', run, course)
  {
  }

  lemma OthersKeepUnderWay(w: World, a: Action, pid: Id, run: Id, course: Course)
    requires Inv(w) && EnabledIn(w, a) && UnderWay(w.core, pid, run, course)
    requires OfOthers(w.core, a, run) && !(a.RemoveTool? && a.id == course.first)
    ensures UnderWay(ApplyIn(w, a).core, pid, run, course)
  {
    OthersKeepRun(w, a, run);
    OthersKeepProcess(w, a, pid, run);
    GoodRunStays(w.core.store, ApplyIn(w, a).core.store, a, run, course);
  }

  lemma ConcludedStays(w: World, a: Action, run: Id, course: Course)
    requires Inv(w) && EnabledIn(w, a) && Concluded(w.core, run, course) && !(a.RemoveTool? && a.id == course.first)
    ensures Concluded(ApplyIn(w, a).core, run, course)
  {
    StepNobody(w, a, run);
    GoodRunStays(w.core.store, ApplyIn(w, a).core.store, a, run, course);
  }

  // ---- the task's own moves

  lemma GoodRunMoves(st: Store, o: Outcome, run: Id, course: Course)
    requires GoodRun(st, run, course) && run in o.store.runs && GoodLog(course.first, LogOf(o.store, run))
    requires SameIdentity(st.runs[run], o.store.runs[run])
    requires o.store.tools == st.tools && o.store.agents == st.agents && o.store.bindings == st.bindings
    ensures GoodRun(o.store, run, course)
  {
  }

  lemma WriterGoesOn(st: Store, p: Proc, course: Course, o: Outcome, c: Choice)
    requires p.run.Some? && PlaceOk(st, p) && Writes(p.pc) && RunOk(st, p.run.value) && ByKind(st, p, c, o)
    requires GoodRun(st, p.run.value, course) && GoodPc(course.first, p.pc)
    ensures p.run.value in o.store.runs && GoodLog(course.first, LogOf(o.store, p.run.value))
    ensures GoodPc(course.first, o.proc.pc) && !o.proc.pc.Quit?
  {
    GoodWrite(st, p, course.first);
    WriteStep(st, p);
  }

  lemma ReaderGoesOn(st: Store, p: Proc, course: Course, o: Outcome, c: Choice)
    requires p.run.Some? && PlaceOk(st, p) && Lookups(st) && RunKeys(st) && ByKind(st, p, c, o)
    requires Regular(st, p, c, course.first) && !Writes(p.pc)
    requires GoodRun(st, p.run.value, course) && GoodPc(course.first, p.pc)
    ensures o.store == st && GoodPc(course.first, o.proc.pc)
    ensures o.proc.pc.Quit? ==> Stopped(o.store, p.run.value, course)
  {
    GoodRead(st, p, c, course.first);
  }

  lemma GoodPcMoves(st: Store, p: Proc, c: Choice, course: Course)
    requires p.run.Some? && PlaceOk(st, p) && !p.pc.Lost? && GoodPc(course.first, p.pc)
             && Admissible(st, p, c) && !c.dbError
    requires Picks(st, p, c, course.first)
    ensures Regular(st, p, c, course.first)
  {
    OwnerPc(st, p);
  }

  /** One of the task's moves, on the store. */
  lemma OwnGoesOn(st: Store, limit: nat, sems: map<Id, int>, p: Proc, c: Choice, course: Course)
    requires StoreOk(st) && p.run.Some? && PlaceOk(st, p) && !p.pc.Lost? && Regular(st, p, c, course.first)
    requires GoodRun(st, p.run.value, course) && GoodPc(course.first, p.pc)
    ensures var o := Advance(st, limit, sems, p, c);
            && o.proc.req == p.req && o.proc.run == p.run && GoodPc(course.first, o.proc.pc)
            && GoodRun(o.store, p.run.value, course)
            && (Over(o.proc) ==> Stopped(o.store, p.run.value, course))
  {
    var o := Advance(st, limit, sems, p, c);
    assert RunOk(st, p.run.value);
    AdvanceByKind(st, limit, sems, p, c);
    MovesKeepTables(st, limit, sems, p, c);
    OwnerMoves(st, limit, sems, p, c);
    if Writes(p.pc) {
      WriterGoesOn(st, p, course, o, c);
    } else {
      ReaderGoesOn(st, p, course, o, c);
    }
    GoodRunMoves(st, o, p.run.value, course);
  }

  lemma CommitOnCourse(core: Core, pid: Id, o: Outcome, run: Id, course: Course)
    requires pid in core.procs && Exclusive(core.procs) && core.procs[pid].run == Some(run) && o.proc.run == Some(run)
    requires GoodRun(o.store, run, course) && GoodPc(course.first, o.proc.pc)
    requires Over(o.proc) ==> Stopped(o.store, run, course)
    ensures OnCourse(Commit(core, pid, o), pid, run, course)
  {
    var core' := Commit(core, pid, o);
    if Over(o.proc) {
      forall q | q in core'.procs ensures !WorksOn(core', q, run) {
        assert q in core.procs && q != pid;
      }
    }
  }

  lemma OwnKeepsOnCourse(core: Core, pid: Id, c: Choice, run: Id, course: Course)
    requires CoreInv(core) && Enabled(core, Move(pid, c)) && UnderWay(core, pid, run, course)
    requires !c.dbError && Picks(core.store, core.procs[pid], c, course.first)
    ensures OnCourse(Apply(core, Move(pid, c)), pid, run, course)
  {
    var p := core.procs[pid];
    assert ProcOk(core.store, p);
    GoodPcMoves(core.store, p, c, course);
    OwnGoesOn(core.store, core.limit, core.sems, p, c, course);
    CommitOnCourse(core, pid, MoveOf(core, pid, c), run, course);
  }

  // ---- executions

  lemma StepGoesOn(w: World, a: Action, pid: Id, run: Id, course: Course)
    requires Inv(w) && EnabledIn(w, a) && Spares(w.core, a, run, course.first)
             && !(a.RemoveTool? && a.id == course.first)
    requires OnCourse(w.core, pid, run, course)
    ensures OnCourse(ApplyIn(w, a).core, pid, run, course)
  {
    if Concluded(w.core, run, course) {
      ConcludedStays(w, a, run, course);
    } else {
      OwnOrOther(w, a, pid, run);
      if OfOthers(w.core, a, run) {
        OthersKeepUnderWay(w, a, pid, run, course);
      } else {
        OwnKeepsOnCourse(w.core, pid, a.c, run, course);
      }
    }
  }

  lemma {:induction false} StaysOnCourse(w: World, acts: seq<Action>, pid: Id, run: Id, course: Course)
    requires Inv(w) && Playable(w, acts) && AllSpare(w, acts, run, course.first, true)
    requires OnCourse(w.core, pid, run, course)
    ensures OnCourse(Play(w, acts).core, pid, run, course)
    decreases |acts|
  {
    if acts != [] {
      StepGoesOn(w, acts[0], pid, run, course);
      StepKeeps(w, acts[0]);
      StaysOnCourse(ApplyIn(w, acts[0]), acts[1..], pid, run, course);
    }
  }

  /** What a task leaves behind: the trace and the row of its fate, or the run running after its first call. */
  ghost predicate Fated(st: Store, run: Id, max: int, first: Id, tool: Tool)
    requires run in st.runs && max >= 1
  {
    match Fate(max, first, tool)
    case None => LogOf(st, run) == OPENING + [LlmCall(1, Some(first), false)] && st.runs[run].status.Running?
    case Some(script) =>
      script.Loop? && LogOf(st, run) == Word(Spec(max, false), script) && RowEnds(st.runs[run], script.ending)
  }

  lemma LogIsTrue(st: Store, run: Id, x: Id, seen: set<Sight>)
    requires run in st.runs && GoodLog(x, LogOf(st, run)) && LogTold(st, run, seen)
    ensures TrueLog(st, st.runs[run].tenant, st.runs[run].agent, x, LogOf(st, run))
  {
  }

  /** A task that has stopped, told truly, has met its fate. */
  lemma ConcludedIsFated(core: Core, run: Id, course: Course, seen: set<Sight>)
    requires Concluded(core, run, course) && RunOk(core.store, run) && AgentChecks(core.store)
             && LogTold(core.store, run, seen)
    ensures course.spec.maxIterations >= 1
    ensures Fated(core.store, run, course.spec.maxIterations, course.first, course.tool)
  {
    var st := core.store;
    var row, log := st.runs[run], LogOf(st, run);
    LogIsTrue(st, run, course.first, seen);
    if PhaseIn(st, run).Ended? {
      EndedTrue(st, course.spec, row, log, course.first);
    } else {
      AskedTrue(st, row.tenant, row.agent, course.spec, log, course.first);
    }
  }

  /** A task about to start: nothing has been said yet, and it is under way. */
  lemma StartsOnCourse(w: World, pid: Id, first: Id)
    requires Inv(w) && pid in w.core.procs && w.core.procs[pid].pc.BeginExecution?
    requires BoundActive(w.core.store, w.core.procs[pid].req.tenant, w.core.procs[pid].req.agent, first)
    requires !Forced(w.core.procs[pid].req.messages)
    ensures var p := w.core.procs[pid];
            && p.run.Some? && p.req.agent in w.core.store.agents
            && var spec := Spec(w.core.store.agents[p.req.agent].maxIterations, false);
               UnderWay(w.core, pid, p.run.value, Course(first, w.core.store.tools[first], spec))
               && RunTold(w.core, p.run.value, {})
  {
    var p := w.core.procs[pid];
    assert ProcOk(w.core.store, p);
    assert RunOk(w.core.store, p.run.value);
    CreatedLog(SpecOf(w.core.store, w.core.store.runs[p.run.value]), LogOf(w.core.store, p.run.value));
  }

  /** The same from any world in which the invariant holds. */
  lemma GoneIsFated(w: World, acts: seq<Action>, pid: Id, run: Id, course: Course)
    requires Inv(w) && UnderWay(w.core, pid, run, course) && RunTold(w.core, run, {})
    requires Playable(w, acts) && AllSpare(w, acts, run, course.first, true) && !WorksOn(Play(w, acts).core, pid, run)
    ensures course.spec.maxIterations >= 1 && run in Play(w, acts).core.store.runs
    ensures Fated(Play(w, acts).core.store, run, course.spec.maxIterations, course.first, course.tool)
  {
    StaysOnCourse(w, acts, pid, run, course);
    PlayKeeps(w, acts);
    PlayKeepsTold(w, acts, run, {});
    assert RunOk(Play(w, acts).core.store, run);
    ConcludedIsFated(Play(w, acts).core, run, course, {} + Sights(w, acts, run));
  }

  /** A task about to start that is not forced, and whose first tool is bound and active. */
  ghost predicate Calls(w: World, pid: Id, run: Id, first: Id, max: int, tool: Tool) {
    && pid in w.core.procs && w.core.procs[pid].pc.BeginExecution? && w.core.procs[pid].run == Some(run)
    && var req := w.core.procs[pid].req;
       && BoundActive(w.core.store, req.tenant, req.agent, first) && w.core.store.tools[first] == tool
       && !Forced(req.messages)
       && req.agent in w.core.store.agents && w.core.store.agents[req.agent].maxIterations == max
  }

  /**
   A task that is not forced, meets no fault of its own, and whose first tool is bound, active and not deleted
   meanwhile, leaves exactly the trace and the row of its fate. Whatever other requests, faults, deletions, new
   tools and new agents there are around it.
   */
  lemma LoopClosedForm(w: World, acts: seq<Action>, pid: Id, run: Id, first: Id, max: int, tool: Tool)
    requires Reachable(w) && Calls(w, pid, run, first, max, tool)
    requires Playable(w, acts) && AllSpare(w, acts, run, first, true) && !WorksOn(Play(w, acts).core, pid, run)
    ensures max >= 1 && run in Play(w, acts).core.store.runs
    ensures Fated(Play(w, acts).core.store, run, max, first, tool)
  {
    ReachableOk(w);
    StartsOnCourse(w, pid, first);
    GoneIsFated(w, acts, pid, run, Course(first, tool, Spec(max, false)));
  }

  /** Which fates have which row. */
  lemma FatedExactly(st: Store, run: Id, max: int, first: Id, tool: Tool)
    requires run in st.runs && max >= 1 && Fated(st, run, max, first, tool) && RowShape(st.runs[run])
    ensures FailsExactly(st.runs[run], max, tool)
    ensures Responsive(max, tool) ==> LogOf(st, run) == Word(Spec(max, false), Undisturbed(max, first, tool))
  {
  }

  /** Which calls of the tool fail, and for which reason. */
  predicate FailsExactly(row: Run, max: int, tool: Tool) {
    var accepted := tool.schema.accepted;
    && (row.errorReason == Some(InvalidInputSchema) <==> !tool.schema.compiles)
    && (row.errorReason == Some(InvalidToolArguments) <==>
          && tool.schema.compiles
          && (Lookup(0) !in accepted || (tool.handler.Static? && max >= 2 && Lookup(1) !in accepted)))
    && (row.errorReason == Some(MaxIterationsExceeded) <==> Responsive(max, tool) && max <= 2)
    && (row.status.Success? <==> Responsive(max, tool) && max >= 3)
    && (row.status.Running? <==> tool.schema.compiles && Lookup(0) in accepted && !tool.handler.Static?)
  }

  /**
   Hence which calls fail, and for which reason. A schema that does not compile fails the first call; arguments
   that are not accepted fail the first call that has them, if the task gets there; a responsive tool is executed
   min(max_iterations, 2) times, and then the run succeeds exactly when max_iterations is at least three.
   */
  lemma CallsFailExactly(w: World, acts: seq<Action>, pid: Id, run: Id, first: Id, max: int, tool: Tool)
    requires Reachable(w) && Calls(w, pid, run, first, max, tool)
    requires Playable(w, acts) && AllSpare(w, acts, run, first, true) && !WorksOn(Play(w, acts).core, pid, run)
    ensures max >= 1 && run in Play(w, acts).core.store.runs
    ensures FailsExactly(Play(w, acts).core.store.runs[run], max, tool)
    ensures Responsive(max, tool) ==>
            LogOf(Play(w, acts).core.store, run) == Word(Spec(max, false), Undisturbed(max, first, tool))
  {
    LoopClosedForm(w, acts, pid, run, first, max, tool);
    ReachableOk(w);
    PlayKeeps(w, acts);
    assert RunOk(Play(w, acts).core.store, run);
    FatedExactly(Play(w, acts).core.store, run, max, first, tool);
  }
}
