/** One task moving alone, without faults: the executions that the sequential `execute_run` refines. */
module Solo {
  import opened Domain
  import opened TraceTable
  import opened Store
  import opened Protocol

  /** The store and the process after moves with the given choices. */
  ghost function Follow(st: Store, p: Proc, cs: seq<Choice>): (Store, Proc)
    decreases |cs|
  {
    if cs == [] then (st, p)
    else
      var (s, q) := Follow(st, p, cs[..|cs| - 1]);
      var o := Advance(s, 0, map[], q, cs[|cs| - 1]);
      (o.store, o.proc)
  }

  /** The move is a fault-free one of a task, and `first` is the tool that a listing of bound tools puts first. */
  ghost predicate Regular(st: Store, p: Proc, c: Choice, first: Id) {
    && (Reads(p.pc) || Writes(p.pc)) && p.run.Some?
    && Admissible(st, p, c) && !c.dbError
    && (p.pc.LoadTools? && ListAgentTools(st, p.req.tenant, p.pc.agent) != {} ==> c.id == first)
  }

  ghost predicate AllRegular(st: Store, p: Proc, cs: seq<Choice>, first: Id)
    decreases |cs|
  {
    cs == [] ||
    var before := cs[..|cs| - 1];
    var (s, q) := Follow(st, p, before);
    AllRegular(st, p, before, first) && Regular(s, q, cs[|cs| - 1], first)
  }

  /** From store and process to store and process by regular moves. */
  ghost predicate Leads(st: Store, p: Proc, st': Store, p': Proc, first: Id) {
    exists cs :: AllRegular(st, p, cs, first) && Follow(st, p, cs) == (st', p')
  }

  lemma LeadsNowhere(st: Store, p: Proc, first: Id)
    ensures Leads(st, p, st, p, first)
  {
    assert AllRegular(st, p, [], first) && Follow(st, p, []) == (st, p);
  }

  lemma LeadsOn(st0: Store, p0: Proc, st: Store, p: Proc, c: Choice, first: Id)
    requires Leads(st0, p0, st, p, first) && Regular(st, p, c, first)
    ensures var o := Advance(st, 0, map[], p, c); Leads(st0, p0, o.store, o.proc, first)
  {
    var cs :| AllRegular(st0, p0, cs, first) && Follow(st0, p0, cs) == (st, p);
    var more := cs + [c];
    assert more[..|more| - 1] == cs;
    assert AllRegular(st0, p0, more, first);
    var o := Advance(st, 0, map[], p, c);
    assert Follow(st0, p0, more) == (o.store, o.proc);
  }

  /** A read of the task. */
  lemma LeadsRead(st0: Store, p0: Proc, st: Store, p: Proc, c: Choice, first: Id)
    requires Leads(st0, p0, st, p, first) && Regular(st, p, c, first) && Reads(p.pc)
    ensures Leads(st0, p0, st, p.(pc := ReadNext(st, p.req.tenant, p.run.value, p.pc, c)), first)
  {
    LeadsOn(st0, p0, st, p, c, first);
  }

  /** A write of the task. */
  lemma LeadsWrite(st0: Store, p0: Proc, st: Store, p: Proc, first: Id)
    requires Leads(st0, p0, st, p, first) && p.run.Some? && Writes(p.pc)
    ensures var (st', pc') := WriteNext(st, p.req.tenant, p.run.value, p.pc);
            Leads(st0, p0, st', p.(pc := pc'), first)
  {
    LeadsOn(st0, p0, st, p, Choice(first, false, false), first);
  }

  /** `append_event` as one statement: the next number, computed and inserted. */
  ghost function Appended(st: Store, t: Id, run: Id, event: Event): Store {
    InsertTrace(st, TraceKey(t, run, MaxSeq(st.traces, t, run) + 1), event)
  }

  lemma AppendMoves(st: Store, t: Id, run: Id, event: Event, k: Pc, c: Choice)
    ensures var number := MaxSeq(st.traces, t, run) + 1;
            && ReadNext(st, t, run, ReadMax(event, k), c) == InsertRow(event, number, k)
            && WriteNext(st, t, run, InsertRow(event, number, k)) == (Appended(st, t, run, event), k)
  {
    AppendNext(st.traces, t, run, event);
  }

  /** An append is the two moves of its two halves. */
  lemma LeadsAppend(st0: Store, p0: Proc, st: Store, p: Proc, first: Id)
    requires Leads(st0, p0, st, p, first) && p.run.Some? && p.pc.ReadMax?
    ensures Leads(st0, p0, Appended(st, p.req.tenant, p.run.value, p.pc.event), p.(pc := p.pc.k), first)
  {
    var c := Choice(first, false, false);
    AppendMoves(st, p.req.tenant, p.run.value, p.pc.event, p.pc.k, c);
    LeadsRead(st0, p0, st, p, c, first);
    LeadsWrite(st0, p0, st, p.(pc := ReadNext(st, p.req.tenant, p.run.value, p.pc, c)), first);
  }

  /** Finalizing and appending `run_end`. */
  lemma LeadsEnd(st0: Store, p0: Proc, st: Store, p: Proc, first: Id)
    requires Leads(st0, p0, st, p, first) && p.run.Some? && p.pc.Finalize? && p.pc.k.ReadMax?
    ensures var t, run := p.req.tenant, p.run.value;
            var st' := Appended(FinalizeRun(st, t, run, p.pc.status, p.pc.answer, p.pc.why), t, run, p.pc.k.event);
            Leads(st0, p0, st', p.(pc := p.pc.k.k), first)
  {
    LeadsWrite(st0, p0, st, p, first);
    LeadsAppend(st0, p0, FinalizeRun(st, p.req.tenant, p.run.value, p.pc.status, p.pc.answer, p.pc.why),
      p.(pc := p.pc.k), first);
  }
}
