/** Solo executions inside the machine: one process moves, everything else stands still. */
module Embedding {
  import opened Domain
  import opened Store
  import opened Protocol
  import opened Solo

  ghost predicate OwnMoves(acts: seq<Action>, pid: Id) {
    forall i :: 0 <= i < |acts| ==> acts[i].Move? && acts[i].pid == pid
  }

  /** The machine gets from one world to the other by moves of one process. */
  ghost predicate Goes(w: World, w': World, pid: Id) {
    exists acts :: OwnMoves(acts, pid) && Playable(w, acts) && Play(w, acts) == w'
  }

  lemma GoesNowhere(w: World, pid: Id)
    ensures Goes(w, w, pid)
  {
    assert OwnMoves([], pid) && Playable(w, []) && Play(w, []) == w;
  }

  lemma {:induction false} PlayOn(w: World, acts: seq<Action>, a: Action)
    requires Playable(w, acts) && EnabledIn(Play(w, acts), a)
    ensures Playable(w, acts + [a]) && Play(w, acts + [a]) == ApplyIn(Play(w, acts), a)
    decreases |acts|
  {
    if acts == [] {
      assert [a][1..] == [];
      assert acts + [a] == [a];
    } else {
      assert (acts + [a])[1..] == acts[1..] + [a];
      PlayOn(ApplyIn(w, acts[0]), acts[1..], a);
    }
  }

  lemma GoesOn(w0: World, w: World, pid: Id, c: Choice)
    requires Goes(w0, w, pid) && EnabledIn(w, Move(pid, c))
    ensures Goes(w0, ApplyIn(w, Move(pid, c)), pid)
  {
    var acts :| OwnMoves(acts, pid) && Playable(w0, acts) && Play(w0, acts) == w;
    PlayOn(w0, acts, Move(pid, c));
    assert OwnMoves(acts + [Move(pid, c)], pid);
  }

  /** The world with this store and this process, which is gone with its permits when it has returned. */
  function WorldAt(w: World, pid: Id, st: Store, p: Proc): World {
    if Over(p) then
      World(Core(w.core.limit, st, w.core.procs - {pid}, DropTenantPermit(w.core.sems, p), w.core.replies),
        w.globalMax, w.free + GlobalHeld(p))
    else
      World(w.core.(store := st, procs := w.core.procs[pid := p]), w.globalMax, w.free)
  }

  lemma WorldAtItself(w: World, pid: Id)
    requires pid in w.core.procs && !Over(w.core.procs[pid])
    ensures WorldAt(w, pid, w.core.store, w.core.procs[pid]) == w
  {
    assert w.core.procs[pid := w.core.procs[pid]] == w.core.procs;
  }

  lemma RegularMove(w: World, pid: Id, st: Store, p: Proc, c: Choice, first: Id)
    requires Regular(st, p, c, first)
    ensures EnabledIn(WorldAt(w, pid, st, p), Move(pid, c))
    ensures var o := Advance(st, 0, map[], p, c);
            ApplyIn(WorldAt(w, pid, st, p), Move(pid, c)) == WorldAt(w, pid, o.store, o.proc)
  {
    var at, o := WorldAt(w, pid, st, p), Advance(st, 0, map[], p, c);
    var o' := MoveOf(at.core, pid, c);
    assert o' == o.(sems := w.core.sems);
    assert w.core.procs[pid := p] - {pid} == w.core.procs - {pid};
    assert w.core.procs[pid := p][pid := o.proc] == w.core.procs[pid := o.proc];
  }

  lemma {:induction false} FollowGoes(w0: World, w: World, pid: Id, st: Store, p: Proc, cs: seq<Choice>, first: Id)
    requires AllRegular(st, p, cs, first) && Goes(w0, WorldAt(w, pid, st, p), pid)
    ensures var (s, q) := Follow(st, p, cs); Goes(w0, WorldAt(w, pid, s, q), pid)
    decreases |cs|
  {
    if cs != [] {
      var before, c := cs[..|cs| - 1], cs[|cs| - 1];
      FollowGoes(w0, w, pid, st, p, before, first);
      var (s, q) := Follow(st, p, before);
      RegularMove(w, pid, s, q, c, first);
      GoesOn(w0, WorldAt(w, pid, s, q), pid, c);
    }
  }

  /** What the sequential program does is an execution of the machine, permits given back at its end. */
  lemma SoloGoes(w0: World, w: World, pid: Id, st: Store, p: Proc, st': Store, p': Proc, first: Id)
    requires Leads(st, p, st', p', first) && Goes(w0, WorldAt(w, pid, st, p), pid)
    ensures Goes(w0, WorldAt(w, pid, st', p'), pid)
  {
    var cs :| AllRegular(st, p, cs, first) && Follow(st, p, cs) == (st', p');
    FollowGoes(w0, w, pid, st, p, cs, first);
  }
}
