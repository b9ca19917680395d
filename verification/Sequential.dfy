/** What `execute_run` alone computes: the theorems about interleaved executions, for its sequential form. */
module Sequential {
  import opened Domain
  import opened Store
  import opened TraceLanguage
  import opened Protocol
  import opened RunInvariant
  import opened StatementSteps
  import opened Permits
  import opened Invariant
  import opened Completion
  import opened Solo
  import opened Embedding
  import opened Runtime
  import opened GoodCalls
  import opened Interleaving
  import opened ClosedForm
  import opened SilentExits

  /** A pending run whose handler has recorded `run_created`, at the point of the spawn. */
  ghost predicate Spawnable(st: Store, req: Request, run: Id) {
    && StoreOk(st) && run in st.runs && SameRequest(st.runs[run], req)
    && st.runs[run].status.Pending? && LogOf(st, run) == [RunCreated]
  }

  /** A system in which the task is the only process. */
  function OnlyTask(st: Store, req: Request, run: Id): World {
    World(Core(1, st, map[0 := Spawned(req, run)], map[req.tenant := 0], {}), 1, 0)
  }

  lemma CreatedPhase(spec: Spec)
    ensures PhaseOf(spec, [RunCreated]).Created?
  {
    PhaseAppend(spec, [], RunCreated);
    assert [] + [RunCreated] == [RunCreated];
  }

  lemma OnlyTaskFits(st: Store, req: Request, run: Id)
    requires Spawnable(st, req, run)
    ensures OwnerOk(st, Spawned(req, run))
  {
    assert RunOk(st, run);
    CreatedPhase(SpecOf(st, st.runs[run]));
    assert PlaceOk(st, Spawned(req, run));
  }

  lemma OnlyTaskPermits(st: Store, req: Request, run: Id)
    ensures SemsOk(OnlyTask(st, req, run).core) && GlobalPermitsAddUp(OnlyTask(st, req, run))
  {
    var procs := OnlyTask(st, req, run).core.procs;
    assert LiveTasks(procs, req.tenant) == {0};
    assert Holders(procs, Global) == {0};
  }

  lemma OnlyTaskOk(st: Store, req: Request, run: Id)
    requires Spawnable(st, req, run)
    ensures Inv(OnlyTask(st, req, run))
  {
    OnlyTaskFits(st, req, run);
    OnlyTaskPermits(st, req, run);
  }

  // ---- sequential executions as schedules

  function MovesOf(pid: Id, cs: seq<Choice>): seq<Action> {
    seq(|cs|, i requires 0 <= i < |cs| => Move(pid, cs[i]))
  }

  lemma {:induction false} SparesOn(w: World, acts: seq<Action>, a: Action, run: Id, first: Id)
    requires Playable(w, acts + [a]) && Playable(w, acts) && AllSpare(w, acts, run, first, true)
    requires Spares(Play(w, acts).core, a, run, first) && !a.RemoveTool?
    ensures AllSpare(w, acts + [a], run, first, true)
    decreases |acts|
  {
    if acts == [] {
      assert [a][1..] == [];
      assert acts + [a] == [a];
    } else {
      assert (acts + [a])[1..] == acts[1..] + [a];
      SparesOn(ApplyIn(w, acts[0]), acts[1..], a, run, first);
    }
  }

  /** The schedule of these moves leads from the one world to the other without a fault of the run's process. */
  ghost predicate SparesTo(w: World, acts: seq<Action>, run: Id, first: Id, w': World) {
    Playable(w, acts) && AllSpare(w, acts, run, first, true) && Play(w, acts) == w'
  }

  lemma SparesNowhere(w: World, run: Id, first: Id)
    ensures SparesTo(w, [], run, first, w)
  {
  }

  /** One more regular move at the end of a schedule. */
  lemma SparesNext(w0: World, acts: seq<Action>, run: Id, first: Id, w: World, pid: Id, st: Store, p: Proc, c: Choice)
    requires SparesTo(w0, acts, run, first, WorldAt(w, pid, st, p)) && Regular(st, p, c, first)
    ensures var o := Advance(st, 0, map[], p, c);
            SparesTo(w0, acts + [Move(pid, c)], run, first, WorldAt(w, pid, o.store, o.proc))
  {
    RegularMove(w, pid, st, p, c, first);
    PlayOn(w0, acts, Move(pid, c));
    SparesOn(w0, acts, Move(pid, c), run, first);
  }

  /** Regular moves are faultless moves of the machine. */
  lemma {:induction false} SoloSpares(w: World, pid: Id, run: Id, p0: Proc, cs: seq<Choice>, first: Id)
    requires pid in w.core.procs && w.core.procs[pid] == p0 && !Over(p0) && AllRegular(w.core.store, p0, cs, first)
    ensures var (st, p) := Follow(w.core.store, p0, cs);
            SparesTo(w, MovesOf(pid, cs), run, first, WorldAt(w, pid, st, p))
    decreases |cs|
  {
    if cs == [] {
      WorldAtItself(w, pid);
      SparesNowhere(w, run, first);
    } else {
      var n := |cs| - 1;
      var (st, p) := Follow(w.core.store, p0, cs[..n]);
      SoloSpares(w, pid, run, p0, cs[..n], first);
      SparesNext(w, MovesOf(pid, cs[..n]), run, first, w, pid, st, p, cs[n]);
      MovesNext(pid, cs);
    }
  }

  lemma MovesNext(pid: Id, cs: seq<Choice>)
    requires cs != []
    ensures MovesOf(pid, cs) == MovesOf(pid, cs[..|cs| - 1]) + [Move(pid, cs[|cs| - 1])]
  {
  }

  /** A sequential execution to the end, as a schedule of the system with this one task. */
  lemma AsSchedule(st: Store, req: Request, run: Id, st': Store, p': Proc, first: Id) returns (acts: seq<Action>)
    requires Leads(st, Spawned(req, run), st', p', first) && Over(p')
    ensures var w := OnlyTask(st, req, run);
            && Playable(w, acts) && AllSpare(w, acts, run, first, true)
            && !WorksOn(Play(w, acts).core, 0, run) && Play(w, acts).core.store == st'
  {
    var cs :| AllRegular(st, Spawned(req, run), cs, first) && Follow(st, Spawned(req, run), cs) == (st', p');
    acts := MovesOf(0, cs);
    SoloSpares(OnlyTask(st, req, run), 0, run, Spawned(req, run), cs, first);
  }

  /** The closed form for `ExecuteRun`. */
  lemma SequentialClosedForm(st: Store, req: Request, run: Id, st': Store, p': Proc, first: Id, max: int, tool: Tool)
    requires Spawnable(st, req, run) && Leads(st, Spawned(req, run), st', p', first) && Over(p')
    requires BoundActive(st, req.tenant, req.agent, first) && st.tools[first] == tool && !Forced(req.messages)
    requires req.agent in st.agents && st.agents[req.agent].maxIterations == max
    ensures max >= 1 && run in st'.runs
    ensures Fated(st', run, max, first, tool) && FailsExactly(st'.runs[run], max, tool)
  {
    var acts := AsSchedule(st, req, run, st', p', first);
    OnlyTaskOk(st, req, run);
    StartsOnCourse(OnlyTask(st, req, run), 0, first);
    GoneIsFated(OnlyTask(st, req, run), acts, 0, run, Course(first, tool, Spec(max, false)));
    PlayKeeps(OnlyTask(st, req, run), acts);
    assert RunOk(st', run);
    FatedExactly(st', run, max, first, tool);
  }

  /** `ExecuteRun` completes its run exactly if it is not silent. */
  lemma SequentialCompletes(st: Store, req: Request, run: Id, st': Store, p': Proc, first: Id)
    requires Spawnable(st, req, run) && Leads(st, Spawned(req, run), st', p', first) && Over(p')
    requires Listed(st, req.tenant, req.agent, first)
    ensures Completed(st', run) <==> !Silent(st, req.tenant, req.agent, first, Forced(req.messages))
  {
    var w, silent := OnlyTask(st, req, run), Silent(st, req.tenant, req.agent, first, Forced(req.messages));
    var acts := AsSchedule(st, req, run, st', p', first);
    OnlyTaskOk(st, req, run);
    KeptAnyway(w, acts, run, first, false);
    GoneDecided(w, acts, 0, run, req, first, silent);
    PlayKeeps(w, acts);
    OutcomeOf(Play(w, acts), run, silent && !SawDeleted(w, acts, run, first));
    if silent {
      KeptToolStays(w, acts, run, req.tenant, req.agent, first);
    }
  }

  /** A task at its first statement, in any world that can be reached, is at the point these theorems start from. */
  lemma TasksStartSpawnable(w: World, pid: Id)
    requires Reachable(w) && pid in w.core.procs && w.core.procs[pid].pc.BeginExecution?
    ensures var p := w.core.procs[pid];
            && p.run.Some? && p == Spawned(p.req, p.run.value)
            && Spawnable(w.core.store, p.req, p.run.value)
  {
    ReachableOk(w);
    var p := w.core.procs[pid];
    assert ProcOk(w.core.store, p);
    var r := p.run.value;
    assert RunOk(w.core.store, r);
    CreatedLog(SpecOf(w.core.store, w.core.store.runs[r]), LogOf(w.core.store, r));
  }
}
