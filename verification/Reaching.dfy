/** Getting from one reachable world to another, and every live process to its end. */
module Reaching {
  import opened Domain
  import opened Store
  import opened Protocol
  import opened RunInvariant
  import opened StatementSteps
  import opened Invariant
  import opened Completion
  import opened Embedding
  import opened Quiescence
  import opened Interleaving
  import opened SilentExits

  lemma ReachStep(w: World, a: Action)
    requires Reachable(w) && EnabledIn(w, a)
    ensures Reachable(ApplyIn(w, a))
  {
    var w0, acts :| Init(w0) && Playable(w0, acts) && Play(w0, acts) == w;
    PlayOn(w0, acts, a);
  }

  lemma {:induction false} ReachPlay(w: World, acts: seq<Action>)
    requires Reachable(w) && Playable(w, acts)
    ensures Reachable(Play(w, acts))
    decreases |acts|
  {
    if acts != [] {
      ReachStep(w, acts[0]);
      ReachPlay(ApplyIn(w, acts[0]), acts[1..]);
    }
  }

  lemma ReachGoes(w: World, w': World, pid: Id)
    requires Reachable(w) && Goes(w, w', pid)
    ensures Reachable(w')
  {
    var acts :| OwnMoves(acts, pid) && Playable(w, acts) && Play(w, acts) == w';
    ReachPlay(w, acts);
  }

  /** The listing that the process still has before it, if it has, can put `first` first. */
  ghost predicate CanPick(st: Store, p: Proc, first: Id) {
    Listed(st, p.req.tenant, p.req.agent, first) && (p.pc.LoadTools? ==> p.pc.agent == p.req.agent)
  }

  /** A statement always has a fault-free outcome. */
  lemma SomeFaultless(w: World, pid: Id, first: Id) returns (c: Choice)
    requires pid in w.core.procs && !w.core.procs[pid].pc.Lost? && CanPick(w.core.store, w.core.procs[pid], first)
    ensures EnabledIn(w, Move(pid, c)) && !c.dbError && Picks(w.core.store, w.core.procs[pid], c, first)
  {
    var p := w.core.procs[pid];
    if p.pc.LoadTools? {
      c := Choice(first, false, false);
    } else {
      c := SomeChoice(w.core.store, p, w.free > 0);
    }
  }

  lemma LoadsItsAgent(st: Store, p: Proc)
    requires p.run.Some? && PlaceOk(st, p) && p.pc.LoadTools?
    ensures p.pc.agent == p.req.agent
  {
  }

  lemma OwnerCanPick(core: Core, pid: Id, first: Id)
    requires CoreInv(core) && pid in core.procs && core.procs[pid].run.Some?
    requires Listed(core.store, core.procs[pid].req.tenant, core.procs[pid].req.agent, first)
    ensures CanPick(core.store, core.procs[pid], first)
  {
    assert ProcOk(core.store, core.procs[pid]);
    if core.procs[pid].pc.LoadTools? {
      LoadsItsAgent(core.store, core.procs[pid]);
    }
  }

  lemma OwnerWeighs(st: Store, limit: nat, sems: map<Id, int>, p: Proc, c: Choice)
    requires StoreOk(st) && p.run.Some? && OwnerOk(st, p) && !p.pc.Lost? && Admissible(st, p, c)
    ensures var o := Advance(st, limit, sems, p, c);
            && o.proc.run == p.run && o.proc.req == p.req && !o.proc.pc.Lost? && Weight(o.proc.pc) < Weight(p.pc)
  {
    OwnerMoves(st, limit, sems, p, c);
    NeverLost(st, limit, sems, p, c);
    ProcCanMove(st, p);
    ProcessDecreases(st, limit, sems, p, c);
  }

  /** What one of its moves makes of a live process: it is gone, or lighter. */
  ghost predicate Nearer(core: Core, core': Core, pid: Id, run: Id, first: Id)
    requires pid in core.procs
  {
    && core'.procs - {pid} == core.procs - {pid}
    && (pid in core'.procs ==>
          && WorksOn(core', pid, run) && !core'.procs[pid].pc.Lost?
          && Weight(core'.procs[pid].pc) < Weight(core.procs[pid].pc)
          && Listed(core'.store, core'.procs[pid].req.tenant, core'.procs[pid].req.agent, first))
  }

  lemma CommitNearer(core: Core, pid: Id, o: Outcome, run: Id, first: Id)
    requires WorksOn(core, pid, run) && o.proc.run == Some(run) && o.proc.req == core.procs[pid].req && !o.proc.pc.Lost?
    requires Weight(o.proc.pc) < Weight(core.procs[pid].pc)
             && Listed(o.store, o.proc.req.tenant, o.proc.req.agent, first)
    ensures Nearer(core, Commit(core, pid, o), pid, run, first)
  {
    assert core.procs[pid := o.proc] - {pid} == core.procs - {pid};
    assert core.procs - {pid} - {pid} == core.procs - {pid};
  }

  lemma MoveNearer(core: Core, pid: Id, c: Choice, run: Id, first: Id)
    requires CoreInv(core) && WorksOn(core, pid, run) && Enabled(core, Move(pid, c))
    requires Listed(core.store, core.procs[pid].req.tenant, core.procs[pid].req.agent, first)
    ensures Nearer(core, Apply(core, Move(pid, c)), pid, run, first)
  {
    assert ProcOk(core.store, core.procs[pid]);
    OwnerWeighs(core.store, core.limit, core.sems, core.procs[pid], c);
    MovesKeepTables(core.store, core.limit, core.sems, core.procs[pid], c);
    CommitNearer(core, pid, MoveOf(core, pid, c), run, first);
  }

  lemma NextMove(w: World, pid: Id, run: Id, first: Id) returns (c: Choice)
    requires Inv(w) && WorksOn(w.core, pid, run) && !w.core.procs[pid].pc.Lost?
    requires Listed(w.core.store, w.core.procs[pid].req.tenant, w.core.procs[pid].req.agent, first)
    ensures EnabledIn(w, Move(pid, c)) && Spares(w.core, Move(pid, c), run, first)
    ensures Inv(ApplyIn(w, Move(pid, c))) && Nearer(w.core, ApplyIn(w, Move(pid, c)).core, pid, run, first)
  {
    OwnerCanPick(w.core, pid, first);
    c := SomeFaultless(w, pid, first);
    StepKeeps(w, Move(pid, c));
    MoveNearer(w.core, pid, c, run, first);
  }

  lemma MoveThen(w: World, pid: Id, c: Choice, rest: seq<Action>, run: Id, first: Id)
    requires EnabledIn(w, Move(pid, c)) && Spares(w.core, Move(pid, c), run, first)
    requires OwnMoves(rest, pid) && Playable(ApplyIn(w, Move(pid, c)), rest)
    requires AllSpare(ApplyIn(w, Move(pid, c)), rest, run, first, true)
    ensures var acts := [Move(pid, c)] + rest;
            OwnMoves(acts, pid) && Playable(w, acts) && AllSpare(w, acts, run, first, true)
            && Play(w, acts) == Play(ApplyIn(w, Move(pid, c)), rest)
  {
    assert ([Move(pid, c)] + rest)[1..] == rest;
  }

  /** A live process can always come to its end by moves of its own that meet no fault. */
  lemma {:induction false} EndsAlone(w: World, pid: Id, run: Id, first: Id) returns (acts: seq<Action>)
    requires Inv(w) && WorksOn(w.core, pid, run) && !w.core.procs[pid].pc.Lost?
    requires Listed(w.core.store, w.core.procs[pid].req.tenant, w.core.procs[pid].req.agent, first)
    ensures OwnMoves(acts, pid) && Playable(w, acts) && AllSpare(w, acts, run, first, true)
    ensures Play(w, acts).core.procs == w.core.procs - {pid}
    decreases Weight(w.core.procs[pid].pc)
  {
    var c := NextMove(w, pid, run, first);
    var w' := ApplyIn(w, Move(pid, c));
    var rest := [];
    if pid in w'.core.procs {
      rest := EndsAlone(w', pid, run, first);
    } else {
      assert w'.core.procs == w'.core.procs - {pid};
    }
    MoveThen(w, pid, c, rest, run, first);
    acts := [Move(pid, c)] + rest;
  }

  /** Whatever else is going on, a live process of a reachable world can come to its end. */
  lemma TaskEnds(w: World, pid: Id, run: Id, first: Id) returns (acts: seq<Action>)
    requires Reachable(w) && WorksOn(w.core, pid, run) && !w.core.procs[pid].pc.Lost?
    requires Listed(w.core.store, w.core.procs[pid].req.tenant, w.core.procs[pid].req.agent, first)
    ensures OwnMoves(acts, pid) && Playable(w, acts) && AllSpare(w, acts, run, first, true)
    ensures Reachable(Play(w, acts)) && Play(w, acts).core.procs == w.core.procs - {pid}
  {
    ReachableOk(w);
    acts := EndsAlone(w, pid, run, first);
    ReachPlay(w, acts);
  }

  /**
   The exact condition for a task to be sure to complete its run: from a reachable world, every execution that
   brings it no fault of its own has it completed when it is gone, if and only if it is not silent when it starts.
   */
  lemma CompletionIsSure(w: World, pid: Id, run: Id, req: Request, first: Id, silent: bool)
    requires Reachable(w) && Starts(w, pid, run, req, first, silent)
    ensures (forall acts :: Finishes(w, acts, pid, run, first) ==> Completed(Play(w, acts).core.store, run))
            <==> !silent
  {
    if silent {
      ReachableOk(w);
      StartsUndecided(w, pid, first);
      var acts := TaskEnds(w, pid, run, first);
      KeptAnyway(w, acts, run, first, false);
      assert Finishes(w, acts, pid, run, first);
      KeptToolStays(w, acts, run, req.tenant, req.agent, first);
      CompletesUnlessSilent(w, acts, [], pid, run, req, first, silent);
    } else {
      forall acts | Finishes(w, acts, pid, run, first) ensures Completed(Play(w, acts).core.store, run) {
        CompletesUnlessSilent(w, acts, [], pid, run, req, first, silent);
      }
    }
  }
}
