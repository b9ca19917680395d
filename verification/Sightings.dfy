/** What the events of a trace say of the tables is true, or was true at a moment when the trace had got that far. */
module Sightings {
  import opened Domain
  import opened Store
  import opened TraceLanguage
  import opened Protocol
  import opened RunInvariant
  import opened RunSteps
  import opened StatementSteps
  import opened Invariant
  import opened Safety
  import opened Deletion

  // ---- what an event says

  predicate ToolOf(st: Store, t: Id, x: Id) {
    x in st.tools && st.tools[x].tenant == t
  }

  /** The trace ends with the call of a tool. */
  predicate Calling(before: seq<Event>) {
    before != [] && before[|before| - 1].LlmCall? && before[|before| - 1].call.Some?
  }

  function Called(before: seq<Event>): Id
    requires Calling(before)
  {
    before[|before| - 1].call.value
  }

  /** Why a call is refused, in terms of the called tool's row; `n` is the number of the call. */
  predicate TrueReason(st: Store, t: Id, x: Id, n: int, reason: Reason) {
    match reason
    case ToolDeleted => ToolOf(st, t, x) && st.tools[x].deleted
    case ToolNotAllowedForAgent => x == NIL || ToolOf(st, t, x)
    case InvalidInputSchema => ToolOf(st, t, x) && !st.tools[x].schema.compiles
    case InvalidToolArguments =>
      ToolOf(st, t, x) && st.tools[x].schema.compiles && n >= 1 && Lookup(n - 1) !in st.tools[x].schema.accepted
    case _ => true
  }

  predicate OfCall(reason: Reason) {
    reason.ToolDeleted? || reason.ToolNotAllowedForAgent? || reason.InvalidInputSchema? || reason.InvalidToolArguments?
  }

  /**
   What an event of a run of agent `a` says of the tables. An unforced call names a tool bound to the agent, a
   forced one a tool of the tenant that is not bound, or none; an executed tool has this name, accepts these
   arguments and has this response; and a refused call is refused for the reason given.
   */
  predicate Truthful(st: Store, t: Id, a: Id, before: seq<Event>, e: Event) {
    match e
    case LlmCall(_, Some(x), false) => Binding(t, a, x) in st.bindings
    case LlmCall(_, Some(x), true) => Binding(t, a, x) !in st.bindings && (x == NIL || ToolOf(st, t, x))
    case ToolExec(x, name, arguments, result) =>
      && ToolOf(st, t, x) && st.tools[x].name == name && st.tools[x].handler == Static(result)
      && st.tools[x].schema.compiles && arguments in st.tools[x].schema.accepted
    case EndFailed(reason) =>
      OfCall(reason) ==>
        Calling(before) && TrueReason(st, t, Called(before), before[|before| - 1].iteration, reason)
    case _ => true
  }

  /**
   What was so at some moment at which the run's trace had this many events: the tool was active; or the tenant
   had no active tool that is not bound to the agent.
   */
  datatype Sight = Active(tool: Id, length: nat) | NoneUnbound(length: nat)

  /** What was seen for an event: a forced lookup's result, or that the tool of a call was not deleted. */
  predicate Witnessed(before: seq<Event>, e: Event, seen: set<Sight>) {
    match e
    case LlmCall(_, Some(x), true) => (if x == NIL then NoneUnbound(|before|) else Active(x, |before|)) in seen
    case ToolExec(x, _, _, _) => Active(x, |before|) in seen
    case EndFailed(ToolNotAllowedForAgent) =>
      Calling(before) && (Called(before) == NIL || Active(Called(before), |before|) in seen)
    case _ => true
  }

  ghost predicate AllBound(st: Store, t: Id, a: Id) {
    forall x :: ToolOf(st, t, x) && !st.tools[x].deleted ==> Binding(t, a, x) in st.bindings
  }

  ghost function SightsNow(st: Store, run: Id): set<Sight> {
    if run !in st.runs then {}
    else
      var t, a, n := st.runs[run].tenant, st.runs[run].agent, |LogOf(st, run)|;
      (set x | x in st.tools && st.tools[x].tenant == t && !st.tools[x].deleted :: Active(x, n))
      + if AllBound(st, t, a) then {NoneUnbound(n)} else {}
  }

  predicate Told(st: Store, row: Run, before: seq<Event>, e: Event, seen: set<Sight>) {
    Truthful(st, row.tenant, row.agent, before, e) && Witnessed(before, e, seen)
  }

  ghost predicate LogTold(st: Store, run: Id, seen: set<Sight>)
    requires run in st.runs
  {
    forall i :: 0 <= i < |LogOf(st, run)| ==>
      Told(st, st.runs[run], LogOf(st, run)[..i], LogOf(st, run)[i], seen)
  }

  /** The next event that a continuation appends says nothing of the tables. */
  predicate Plain(pc: Pc) {
    match pc
    case ReadMax(e, k) => PlainEvent(e) && Plain(k)
    case InsertRow(_, _, _) => false
    case MarkFailed(_, k) => Plain(k)
    case Finalize(_, _, _, k) => Plain(k)
    case CheckBinding(_, _, _, _) => false
    case Lost(_) => false
    case _ => true
  }

  predicate PlainEvent(e: Event) {
    match e
    case LlmCall(_, call, _) => call.None?
    case ToolExec(_, _, _, _) => false
    case EndFailed(reason) => !OfCall(reason)
    case _ => true
  }

  /** The next event that the process appends is told; between the checks its tool was seen active. */
  predicate PcTold(st: Store, row: Run, log: seq<Event>, pc: Pc, seen: set<Sight>) {
    match pc
    case ReadMax(e, k) => Told(st, row, log, e, seen) && Plain(k)
    case InsertRow(e, _, k) => Told(st, row, log, e, seen) && Plain(k)
    case MarkFailed(_, k) => PcTold(st, row, log, k, seen)
    case Finalize(_, _, _, k) => PcTold(st, row, log, k, seen)
    case CheckBinding(_, x, _, _) => Active(x, |log|) in seen
    case Lost(statement) => PcTold(st, row, log, statement, seen)
    case _ => true
  }

  ghost predicate ProcTold(st: Store, run: Id, p: Proc, seen: set<Sight>) {
    p.run == Some(run) && run in st.runs ==> PcTold(st, st.runs[run], LogOf(st, run), p.pc, seen)
  }

  ghost predicate RunTold(core: Core, run: Id, seen: set<Sight>) {
    && (run in core.store.runs ==> LogTold(core.store, run, seen))
    && forall pid :: pid in core.procs ==> ProcTold(core.store, run, core.procs[pid], seen)
  }

  // ---- what is told stays told

  lemma ToldStays(st: Store, st': Store, row: Run, row': Run, before: seq<Event>, e: Event, seen: set<Sight>,
                  more: set<Sight>)
    requires Grows(st, st') && row.agent in st.agents && SameIdentity(row, row') && seen <= more
    requires Told(st, row, before, e, seen)
    ensures Told(st', row', before, e, more)
  {
  }

  lemma {:induction false} PcToldStays(st: Store, st': Store, row: Run, row': Run, log: seq<Event>, pc: Pc,
                                       seen: set<Sight>, more: set<Sight>)
    requires Grows(st, st') && row.agent in st.agents && SameIdentity(row, row') && seen <= more
    requires PcTold(st, row, log, pc, seen)
    ensures PcTold(st', row', log, pc, more)
    decreases pc
  {
    match pc
    case ReadMax(e, k) => ToldStays(st, st', row, row', log, e, seen, more);
    case InsertRow(e, _, k) => ToldStays(st, st', row, row', log, e, seen, more);
    case MarkFailed(_, k) => PcToldStays(st, st', row, row', log, k, seen, more);
    case Finalize(_, _, _, k) => PcToldStays(st, st', row, row', log, k, seen, more);
    case Lost(statement) => PcToldStays(st, st', row, row', log, statement, seen, more);
    case _ =>
  }

  lemma {:induction false} PlainIsTold(st: Store, row: Run, log: seq<Event>, pc: Pc, seen: set<Sight>)
    requires Plain(pc)
    ensures PcTold(st, row, log, pc, seen)
    decreases pc
  {
    match pc
    case MarkFailed(_, k) => PlainIsTold(st, row, log, k, seen);
    case Finalize(_, _, _, k) => PlainIsTold(st, row, log, k, seen);
    case _ =>
  }

  lemma {:induction false} PcSeenLater(st: Store, row: Run, log: seq<Event>, pc: Pc, seen: set<Sight>, more: set<Sight>)
    requires PcTold(st, row, log, pc, seen) && seen <= more
    ensures PcTold(st, row, log, pc, more)
    decreases pc
  {
    match pc
    case MarkFailed(_, k) => PcSeenLater(st, row, log, k, seen, more);
    case Finalize(_, _, _, k) => PcSeenLater(st, row, log, k, seen, more);
    case Lost(statement) => PcSeenLater(st, row, log, statement, seen, more);
    case _ =>
  }

  lemma ProcSeenLater(st: Store, run: Id, p: Proc, seen: set<Sight>, more: set<Sight>)
    requires ProcTold(st, run, p, seen) && seen <= more
    ensures ProcTold(st, run, p, more)
  {
    if p.run == Some(run) && run in st.runs {
      PcSeenLater(st, st.runs[run], LogOf(st, run), p.pc, seen, more);
    }
  }

  lemma LogSeenLater(st: Store, run: Id, seen: set<Sight>, more: set<Sight>)
    requires run in st.runs && LogTold(st, run, seen) && seen <= more
    ensures LogTold(st, run, more)
  {
    var log := LogOf(st, run);
    forall i | 0 <= i < |log| ensures Told(st, st.runs[run], log[..i], log[i], more) {
      assert Witnessed(log[..i], log[i], seen);
    }
  }

  /** The run as it was, in tables that have grown. */
  ghost predicate Kept(st: Store, st': Store, run: Id) {
    && Grows(st, st') && run in st.runs && st.runs[run].agent in st.agents
    && run in st'.runs && SameIdentity(st.runs[run], st'.runs[run]) && LogOf(st', run) == LogOf(st, run)
  }

  lemma LogToldStays(st: Store, st': Store, run: Id, seen: set<Sight>, more: set<Sight>)
    requires Kept(st, st', run) && LogTold(st, run, seen) && seen <= more
    ensures LogTold(st', run, more)
  {
    var log := LogOf(st, run);
    forall i | 0 <= i < |log| ensures Told(st', st'.runs[run], log[..i], log[i], more) {
      ToldStays(st, st', st.runs[run], st'.runs[run], log[..i], log[i], seen, more);
    }
  }

  lemma ProcToldStays(st: Store, st': Store, run: Id, p: Proc, seen: set<Sight>, more: set<Sight>)
    requires p.run == Some(run) ==> Kept(st, st', run)
    requires ProcTold(st, run, p, seen) && seen <= more
    ensures ProcTold(st', run, p, more)
  {
    if p.run == Some(run) {
      PcToldStays(st, st', st.runs[run], st'.runs[run], LogOf(st, run), p.pc, seen, more);
    }
  }

  // ---- the reads of the run's process

  /** What a read knows of its run: the row, the trace told so far, and what can be seen now. */
  ghost predicate AtRead(st: Store, p: Proc, seen: set<Sight>, now: set<Sight>) {
    && Lookups(st) && p.run.Some? && PlaceOk(st, p) && Reads(p.pc)
    && LogTold(st, p.run.value, seen) && ProcTold(st, p.run.value, p, seen)
    && seen <= now && SightsNow(st, p.run.value) <= now
  }

  lemma SeenNow(st: Store, run: Id, x: Id, now: set<Sight>)
    requires run in st.runs && SightsNow(st, run) <= now
    requires x in st.tools && st.tools[x].tenant == st.runs[run].tenant && !st.tools[x].deleted
    ensures Active(x, |LogOf(st, run)|) in now
  {
    assert Active(x, |LogOf(st, run)|) in SightsNow(st, run);
  }

  lemma NoneSeenNow(st: Store, run: Id, now: set<Sight>)
    requires run in st.runs && SightsNow(st, run) <= now && AllBound(st, st.runs[run].tenant, st.runs[run].agent)
    ensures NoneUnbound(|LogOf(st, run)|) in now
  {
    assert NoneUnbound(|LogOf(st, run)|) in SightsNow(st, run);
  }

  /** The forced lookup finds an active tool that is not bound, or there is none. */
  lemma LookupTold(st: Store, p: Proc, c: Choice, seen: set<Sight>, now: set<Sight>)
    requires AtRead(st, p, seen, now) && p.pc.Decide? && p.pc.loop.forced && Admissible(st, p, c)
    ensures var run := p.run.value;
            var x := if UnboundActiveTools(st, p.req.tenant, p.pc.loop.agent) == {} then NIL else c.id;
            Told(st, st.runs[run], LogOf(st, run), LlmCall(p.pc.loop.iteration, Some(x), true), now)
  {
    var t, a, run := p.req.tenant, p.req.agent, p.run.value;
    var unbound := UnboundActiveTools(st, t, a);
    if unbound == {} {
      assert forall x :: x in st.tools ==> x !in unbound;
      NoneSeenNow(st, run, now);
      assert Binding(t, a, NIL) !in st.bindings;
    } else {
      SeenNow(st, run, c.id, now);
    }
  }

  lemma DecideTold(st: Store, p: Proc, c: Choice, seen: set<Sight>, now: set<Sight>)
    requires AtRead(st, p, seen, now) && p.pc.Decide? && Admissible(st, p, c)
    ensures var run := p.run.value;
            PcTold(st, st.runs[run], LogOf(st, run), DecideNext(st, p.req.tenant, p.pc.loop, c), now)
  {
    var run, loop := p.run.value, p.pc.loop;
    if loop.iteration <= loop.maxIterations {
      if loop.forced {
        LookupTold(st, p, c, seen, now);
      }
    } else {
      assert PcTold(st, st.runs[run], LogOf(st, run), EndRun(EndFailed(MaxIterationsExceeded)), now);
    }
  }

  lemma CallIsLast(spec: Spec, log: seq<Event>)
    requires PhaseOf(spec, log).Asked?
    ensures var phase := PhaseOf(spec, log);
            Calling(log) && log[|log| - 1] == LlmCall(phase.calls + 1, Some(phase.tool), spec.forced)
  {
    var init := log[..|log| - 1];
    assert PhaseOf(spec, log) == Next(spec, PhaseOf(spec, init), log[|log| - 1]);
  }

  /** Between the call and its execution the called tool is the one that the trace ends with. */
  lemma CheckedIsCalled(st: Store, p: Proc, seen: set<Sight>, now: set<Sight>)
    requires AtRead(st, p, seen, now) && (p.pc.CheckTool? || p.pc.CheckBinding?)
    ensures var log := LogOf(st, p.run.value);
            && Calling(log) && Called(log) == p.pc.tool
            && log[|log| - 1].iteration == p.pc.loop.toolResults + 1
            && (p.pc.tool == NIL || ToolOf(st, p.req.tenant, p.pc.tool))
  {
    var run := p.run.value;
    var log := LogOf(st, run);
    CallIsLast(SpecOf(st, st.runs[run]), log);
    assert Told(st, st.runs[run], log[..|log| - 1], log[|log| - 1], seen);
  }

  lemma FailTold(st: Store, row: Run, log: seq<Event>, reason: Reason, now: set<Sight>)
    requires Told(st, row, log, EndFailed(reason), now)
    ensures PcTold(st, row, log, FailRun(reason), now)
  {
    assert PcTold(st, row, log, EndRun(EndFailed(reason)), now);
  }

  lemma CheckToolTold(st: Store, p: Proc, c: Choice, seen: set<Sight>, now: set<Sight>)
    requires AtRead(st, p, seen, now) && p.pc.CheckTool?
    ensures var run := p.run.value;
            PcTold(st, st.runs[run], LogOf(st, run),
                   CheckToolNext(st, p.req.tenant, p.pc.loop, p.pc.tool, p.pc.arguments, c), now)
  {
    var run := p.run.value;
    var row, log, found := st.runs[run], LogOf(st, run), GetTool(st, p.req.tenant, p.pc.tool);
    CheckedIsCalled(st, p, seen, now);
    if c.dbError {
      FailTold(st, row, log, InternalError, now);
    } else if found.None? {
      FailTold(st, row, log, ToolNotAllowedForAgent, now);
    } else if found.value.deleted {
      FailTold(st, row, log, ToolDeleted, now);
    } else {
      SeenNow(st, run, p.pc.tool, now);
    }
  }

  lemma CheckBindingTold(st: Store, p: Proc, c: Choice, seen: set<Sight>, now: set<Sight>)
    requires AtRead(st, p, seen, now) && p.pc.CheckBinding?
    ensures var run := p.run.value;
            PcTold(st, st.runs[run], LogOf(st, run),
                   CheckBindingNext(st, p.req.tenant, p.pc.loop, p.pc.tool, p.pc.arguments, p.pc.record, c), now)
  {
    var run, t, loop := p.run.value, p.req.tenant, p.pc.loop;
    var row, log := st.runs[run], LogOf(st, run);
    CheckedIsCalled(st, p, seen, now);
    assert Active(p.pc.tool, |log|) in now;
    if c.dbError {
      FailTold(st, row, log, InternalError, now);
    } else if p.pc.tool !in AgentToolIds(st, t, loop.agent) {
      FailTold(st, row, log, ToolNotAllowedForAgent, now);
    } else {
      assert Binding(t, p.req.agent, p.pc.tool) in st.bindings;
      assert p.pc.arguments == Lookup(loop.toolResults);
      if !p.pc.record.schema.compiles {
        FailTold(st, row, log, InvalidInputSchema, now);
      } else if p.pc.arguments !in p.pc.record.schema.accepted {
        FailTold(st, row, log, InvalidToolArguments, now);
      }
    }
  }

  lemma ReadTold(st: Store, p: Proc, c: Choice, seen: set<Sight>, now: set<Sight>)
    requires AtRead(st, p, seen, now) && Admissible(st, p, c)
    ensures var run := p.run.value;
            PcTold(st, st.runs[run], LogOf(st, run), ReadNext(st, p.req.tenant, run, p.pc, c), now)
  {
    if p.pc.Decide? {
      DecideTold(st, p, c, seen, now);
    } else if p.pc.CheckTool? {
      CheckToolTold(st, p, c, seen, now);
    } else if p.pc.CheckBinding? {
      CheckBindingTold(st, p, c, seen, now);
    } else if p.pc.ReadMax? {
      var run := p.run.value;
      ToldStays(st, st, st.runs[run], st.runs[run], LogOf(st, run), p.pc.event, seen, now);
    }
  }

  // ---- its writes

  /** The log with one more event, which was told. */
  lemma AppendTold(st: Store, st': Store, run: Id, e: Event, seen: set<Sight>)
    requires run in st.runs && LogTold(st, run, seen) && Told(st, st.runs[run], LogOf(st, run), e, seen)
    requires run in st'.runs && st'.runs[run] == st.runs[run] && LogOf(st', run) == LogOf(st, run) + [e]
    requires st'.tools == st.tools && st'.bindings == st.bindings
    ensures LogTold(st', run, seen)
  {
    var log, log' := LogOf(st, run), LogOf(st', run);
    forall i | 0 <= i < |log'| ensures Told(st', st'.runs[run], log'[..i], log'[i], seen) {
      if i < |log| {
        assert log'[..i] == log[..i];
        assert Told(st, st.runs[run], log[..i], log[i], seen);
      } else {
        assert log'[..i] == log;
      }
    }
  }

  lemma InsertTold(st: Store, p: Proc, seen: set<Sight>)
    requires p.run.Some? && PlaceOk(st, p) && p.pc.InsertRow? && RunOk(st, p.run.value)
    requires LogTold(st, p.run.value, seen) && ProcTold(st, p.run.value, p, seen)
    ensures var (st', pc') := WriteNext(st, p.req.tenant, p.run.value, p.pc);
            && p.run.value in st'.runs && LogTold(st', p.run.value, seen)
            && ProcTold(st', p.run.value, p.(pc := pc'), seen)
  {
    InsertRowStep(st, p);
    var (st', pc') := WriteNext(st, p.req.tenant, p.run.value, p.pc);
    AppendTold(st, st', p.run.value, p.pc.event, seen);
    PlainIsTold(st', st'.runs[p.run.value], LogOf(st', p.run.value), pc', seen);
  }

  lemma BeginTold(st: Store, row: Run, log: seq<Event>, seen: set<Sight>)
    ensures PcTold(st, row, log, ReadMax(Accepted, ReadMax(RunStarted, LoadRun)), seen)
  {
    assert Plain(ReadMax(RunStarted, LoadRun));
  }

  lemma UpdateTold(st: Store, p: Proc, seen: set<Sight>)
    requires p.run.Some? && PlaceOk(st, p) && (p.pc.MarkFailed? || p.pc.BeginExecution? || p.pc.Finalize?)
    requires LogTold(st, p.run.value, seen) && ProcTold(st, p.run.value, p, seen)
    ensures var (st', pc') := WriteNext(st, p.req.tenant, p.run.value, p.pc);
            && p.run.value in st'.runs && LogTold(st', p.run.value, seen)
            && ProcTold(st', p.run.value, p.(pc := pc'), seen)
  {
    var run := p.run.value;
    var (st', pc') := WriteNext(st, p.req.tenant, run, p.pc);
    assert Kept(st, st', run);
    LogToldStays(st, st', run, seen, seen);
    if p.pc.BeginExecution? {
      BeginTold(st', st'.runs[run], LogOf(st', run), seen);
    } else {
      PcToldStays(st, st', st.runs[run], st'.runs[run], LogOf(st, run), pc', seen, seen);
    }
  }

  lemma WriteTold(st: Store, p: Proc, seen: set<Sight>)
    requires p.run.Some? && PlaceOk(st, p) && Writes(p.pc) && RunOk(st, p.run.value)
    requires LogTold(st, p.run.value, seen) && ProcTold(st, p.run.value, p, seen)
    ensures var (st', pc') := WriteNext(st, p.req.tenant, p.run.value, p.pc);
            && p.run.value in st'.runs && LogTold(st', p.run.value, seen)
            && ProcTold(st', p.run.value, p.(pc := pc'), seen)
  {
    if p.pc.InsertRow? {
      InsertTold(st, p, seen);
    } else {
      UpdateTold(st, p, seen);
    }
  }

  lemma AcquireTold(st: Store, row: Run, log: seq<Event>, pc: Pc, seen: set<Sight>)
    requires pc == Refuse(SchedulerCapacityExceeded) || pc == Refuse(TenantConcurrencyLimitExceeded)
             || pc.EnsureTenantSemaphore? || pc.AcquireTenant? || pc.BeginExecution?
    ensures PcTold(st, row, log, pc, seen)
  {
    if pc.MarkFailed? {
      assert Plain(EndRun(EndFailed(pc.reason)));
      assert PcTold(st, row, log, pc.k, seen);
    }
  }

  // ---- one move

  /** After a move the run's log, and the mover if it works on the run, are told. */
  ghost predicate StillTold(o: Outcome, run: Id, seen: set<Sight>, now: set<Sight>) {
    (run in o.store.runs ==> LogTold(o.store, run, seen)) && ProcTold(o.store, run, o.proc, now)
  }

  lemma WriterTells(st: Store, p: Proc, c: Choice, o: Outcome, seen: set<Sight>, now: set<Sight>)
    requires p.run.Some? && PlaceOk(st, p) && Writes(p.pc) && RunOk(st, p.run.value) && ByKind(st, p, c, o)
    requires LogTold(st, p.run.value, seen) && ProcTold(st, p.run.value, p, seen) && seen <= now
    ensures StillTold(o, p.run.value, seen, now)
  {
    WriteTold(st, p, seen);
    ProcSeenLater(o.store, p.run.value, o.proc, seen, now);
  }

  lemma ReaderTells(st: Store, p: Proc, c: Choice, o: Outcome, seen: set<Sight>, now: set<Sight>)
    requires AtRead(st, p, seen, now) && Admissible(st, p, c) && ByKind(st, p, c, o)
    ensures StillTold(o, p.run.value, seen, now)
  {
    ReadTold(st, p, c, seen, now);
  }

  lemma AcquirerTells(st: Store, p: Proc, c: Choice, o: Outcome, seen: set<Sight>, now: set<Sight>)
    requires p.run.Some? && PlaceOk(st, p) && ByKind(st, p, c, o) && LogTold(st, p.run.value, seen)
    requires p.pc.AcquireGlobal? || p.pc.EnsureTenantSemaphore? || p.pc.AcquireTenant?
    ensures StillTold(o, p.run.value, seen, now)
  {
    AcquireTold(st, st.runs[p.run.value], LogOf(st, p.run.value), o.proc.pc, now);
  }

  lemma KindTells(st: Store, p: Proc, c: Choice, o: Outcome, seen: set<Sight>, now: set<Sight>)
    requires StoreOk(st) && p.run.Some? && PlaceOk(st, p) && !p.pc.Lost? && Admissible(st, p, c) && ByKind(st, p, c, o)
    requires LogTold(st, p.run.value, seen) && ProcTold(st, p.run.value, p, seen)
    requires seen <= now && SightsNow(st, p.run.value) <= now
    ensures StillTold(o, p.run.value, seen, now)
  {
    assert RunOk(st, p.run.value);
    OwnerPc(st, p);
    if Writes(p.pc) {
      WriterTells(st, p, c, o, seen, now);
    } else if Reads(p.pc) {
      ReaderTells(st, p, c, o, seen, now);
    } else {
      AcquirerTells(st, p, c, o, seen, now);
    }
  }

  lemma OwnerTells(st: Store, limit: nat, sems: map<Id, int>, p: Proc, c: Choice, seen: set<Sight>)
    requires StoreOk(st) && p.run.Some? && PlaceOk(st, p) && !p.pc.Lost? && Admissible(st, p, c)
    requires LogTold(st, p.run.value, seen) && ProcTold(st, p.run.value, p, seen)
    ensures var run := p.run.value;
            StillTold(Advance(st, limit, sems, p, c), run, seen, seen + SightsNow(st, run))
  {
    AdvanceByKind(st, limit, sems, p, c);
    KindTells(st, p, c, Advance(st, limit, sems, p, c), seen, seen + SightsNow(st, p.run.value));
  }

  lemma CreatorTells(st: Store, p: Proc, id: Id, o: Outcome, run: Id, seen: set<Sight>, now: set<Sight>)
    requires StoreOk(st) && GetAgent(st, p.req.tenant, p.req.agent).Some? && id !in st.runs
    requires o.store == InsertRun(st, id, NewRun(p.req.tenant, p.req.agent, p.req.messages, p.req.key))
    requires o.proc.pc == ReadMax(RunCreated, AcquireGlobal) && o.proc.run == Some(id)
    requires run in st.runs ==> LogTold(st, run, seen)
    ensures StillTold(o, run, seen, now)
  {
    InsertRunStep(st, id, p.req);
    if run in st.runs {
      assert RunOk(st, run);
      InsertRunIsFrame(st, id, o.store.runs[id]);
      FrameEvolves(st, o.store, Some(id), run);
      LogToldStays(st, o.store, run, seen, seen);
    }
  }

  lemma NewcomerTells(st: Store, limit: nat, sems: map<Id, int>, p: Proc, c: Choice, run: Id, seen: set<Sight>,
                      now: set<Sight>)
    requires StoreOk(st) && p.run.None? && NewcomerOk(p) && !p.pc.Lost? && Admissible(st, p, c)
    requires run in st.runs ==> LogTold(st, run, seen)
    ensures StillTold(Advance(st, limit, sems, p, c), run, seen, now)
  {
    var o := Advance(st, limit, sems, p, c);
    if o.proc.run.Some? {
      CreatorTells(st, p, c.id, o, run, seen, now);
    }
  }

  lemma StrangerTells(st: Store, limit: nat, sems: map<Id, int>, p: Proc, c: Choice, run: Id, seen: set<Sight>,
                      now: set<Sight>)
    requires StoreOk(st) && p.run.Some? && p.run != Some(run) && PlaceOk(st, p) && !p.pc.Lost? && Admissible(st, p, c)
    requires run in st.runs ==> LogTold(st, run, seen)
    ensures StillTold(Advance(st, limit, sems, p, c), run, seen, now)
  {
    var o := Advance(st, limit, sems, p, c);
    OwnerMoves(st, limit, sems, p, c);
    AdvanceByKind(st, limit, sems, p, c);
    KeepsRunKeys(st, p, c, o);
    if run in st.runs {
      assert RunOk(st, run);
      MovedEvolves(st, p, o, run);
      LogToldStays(st, o.store, run, seen, seen);
    }
  }

  lemma ProcessTells(st: Store, limit: nat, sems: map<Id, int>, p: Proc, c: Choice, run: Id, seen: set<Sight>)
    requires StoreOk(st) && !p.pc.Lost? && Admissible(st, p, c)
    requires if p.run.Some? then PlaceOk(st, p) else NewcomerOk(p)
    requires (run in st.runs ==> LogTold(st, run, seen)) && ProcTold(st, run, p, seen)
    ensures StillTold(Advance(st, limit, sems, p, c), run, seen, seen + SightsNow(st, run))
  {
    if p.run == Some(run) {
      OwnerTells(st, limit, sems, p, c, seen);
    } else if p.run.Some? {
      StrangerTells(st, limit, sems, p, c, run, seen, seen + SightsNow(st, run));
    } else {
      NewcomerTells(st, limit, sems, p, c, run, seen, seen + SightsNow(st, run));
    }
  }

  // ---- one action

  /** A process other than the mover. */
  lemma OtherTells(st: Store, p: Proc, o: Outcome, q: Proc, run: Id, seen: set<Sight>, now: set<Sight>)
    requires StoreOk(st) && Moved(st, p, o) && ProcOk(st, q) && (q.run.Some? ==> q.run != p.run)
    requires ProcTold(st, run, q, seen) && seen <= now
    ensures ProcTold(o.store, run, q, now)
  {
    if q.run == Some(run) {
      assert RunOk(st, run);
      MovedEvolves(st, p, o, run);
      ProcToldStays(st, o.store, run, q, seen, now);
    }
  }

  lemma OthersTell(core: Core, pid: Id, p: Proc, o: Outcome, run: Id, seen: set<Sight>, now: set<Sight>)
    requires CoreInv(core) && RunTold(core, run, seen) && Moved(core.store, p, o) && seen <= now
    requires pid in core.procs && p.run == core.procs[pid].run
    ensures forall q :: q in core.procs && q != pid ==> ProcTold(o.store, run, core.procs[q], now)
  {
    forall q | q in core.procs && q != pid ensures ProcTold(o.store, run, core.procs[q], now) {
      OtherTells(core.store, p, o, core.procs[q], run, seen, now);
    }
  }

  /** More can have been seen. */
  lemma MoreSeen(core: Core, run: Id, seen: set<Sight>, now: set<Sight>)
    requires RunTold(core, run, seen) && seen <= now
    ensures RunTold(core, run, now)
  {
    if run in core.store.runs {
      LogSeenLater(core.store, run, seen, now);
    }
    forall q | q in core.procs ensures ProcTold(core.store, run, core.procs[q], now) {
      ProcSeenLater(core.store, run, core.procs[q], seen, now);
    }
  }

  lemma CommitTold(core: Core, pid: Id, o: Outcome, run: Id, seen: set<Sight>, now: set<Sight>)
    requires StillTold(o, run, seen, now) && seen <= now
    requires forall q :: q in core.procs && q != pid ==> ProcTold(o.store, run, core.procs[q], now)
    ensures RunTold(Commit(core, pid, o), run, now)
  {
    if run in o.store.runs {
      LogSeenLater(o.store, run, seen, now);
    }
  }

  lemma MoveKeepsTold(core: Core, pid: Id, c: Choice, run: Id, seen: set<Sight>)
    requires CoreInv(core) && Enabled(core, Move(pid, c)) && RunTold(core, run, seen)
    ensures RunTold(Apply(core, Move(pid, c)), run, seen + SightsNow(core.store, run))
  {
    var p, o, now := core.procs[pid], MoveOf(core, pid, c), seen + SightsNow(core.store, run);
    assert ProcOk(core.store, p);
    ProcessTells(core.store, core.limit, core.sems, p, c, run, seen);
    MoveProc(core.store, core.limit, core.sems, p, c);
    OthersTell(core, pid, p, o, run, seen, now);
    CommitTold(core, pid, o, run, seen, now);
  }

  lemma RevivedTold(st: Store, run: Id, p: Proc, seen: set<Sight>)
    requires ProcTold(st, run, p, seen)
    ensures ProcTold(st, run, Revived(p), seen)
  {
  }

  /** The statement of an aborted process, if it commits. */
  lemma LostTells(st: Store, limit: nat, sems: map<Id, int>, p: Proc, c: Choice, run: Id, seen: set<Sight>)
    requires StoreOk(st) && ProcOk(st, p) && p.pc.Lost? && Admissible(st, Revived(p), c)
    requires (run in st.runs ==> LogTold(st, run, seen)) && ProcTold(st, run, p, seen)
    ensures var st' := Advance(st, limit, sems, Revived(p), c).store; run in st'.runs ==> LogTold(st', run, seen)
  {
    if p.run.Some? {
      RevivedPlace(st, p);
    }
    RevivedTold(st, run, p, seen);
    ProcessTells(st, limit, sems, Revived(p), c, run, seen);
  }

  lemma SettleKeepsTold(core: Core, pid: Id, c: Choice, run: Id, seen: set<Sight>)
    requires CoreInv(core) && Enabled(core, Settle(pid, true, c)) && RunTold(core, run, seen)
    ensures RunTold(Apply(core, Settle(pid, true, c)), run, seen)
  {
    var p := core.procs[pid];
    assert ProcOk(core.store, p);
    LostTells(core.store, core.limit, core.sems, p, c, run, seen);
    LostMoves(core.store, core.limit, core.sems, p, c);
    OthersTell(core, pid, Revived(p), Advance(core.store, core.limit, core.sems, Revived(p), c), run, seen, seen);
  }

  lemma SurroundingsTell(core: Core, core': Core, run: Id, seen: set<Sight>)
    requires CoreInv(core) && RunTold(core, run, seen) && Grows(core.store, core'.store)
    requires core'.store.runs == core.store.runs && core'.store.traces == core.store.traces
    requires forall q :: q in core'.procs ==>
               || core'.procs[q].run.None?
               || (q in core.procs && (core'.procs[q] == core.procs[q] || core'.procs[q] == Abandoned(core.procs[q])))
    ensures RunTold(core', run, seen)
  {
    if run in core.store.runs {
      assert RunOk(core.store, run);
      LogToldStays(core.store, core'.store, run, seen, seen);
    }
    forall q | q in core'.procs ensures ProcTold(core'.store, run, core'.procs[q], seen) {
      if core'.procs[q].run == Some(run) {
        assert ProcTold(core.store, run, core.procs[q], seen) && ProcOk(core.store, core.procs[q]);
        ProcToldStays(core.store, core'.store, run, core.procs[q], seen, seen);
      }
    }
  }

  lemma StepKeepsTold(w: World, a: Action, run: Id, seen: set<Sight>)
    requires Inv(w) && EnabledIn(w, a) && RunTold(w.core, run, seen)
    ensures RunTold(ApplyIn(w, a).core, run, seen + SightsNow(w.core.store, run))
  {
    if a.Move? {
      MoveKeepsTold(w.core, a.pid, a.c, run, seen);
    } else {
      if a.Settle? && a.commits {
        SettleKeepsTold(w.core, a.pid, a.c, run, seen);
      } else {
        AgentsGrowOnly(w, a);
        SurroundingsTell(w.core, ApplyIn(w, a).core, run, seen);
      }
      MoreSeen(ApplyIn(w, a).core, run, seen, seen + SightsNow(w.core.store, run));
    }
  }

  lemma AgentsGrowOnly(w: World, a: Action)
    requires Inv(w) && EnabledIn(w, a) && !a.Move? && !(a.Settle? && a.commits)
    ensures Grows(w.core.store, ApplyIn(w, a).core.store)
  {
    if a.RemoveTool? {
      RemoveToolStep(w.core.store, a.tenant, a.id);
    } else if a.NewAgent? {
      NewAgentStep(w.core.store, a.id, a.agent, a.tools);
    }
  }

  // ---- executions

  /** The sights of all worlds along an execution. */
  ghost function Sights(w: World, acts: seq<Action>, run: Id): set<Sight>
    requires Playable(w, acts)
    decreases |acts|
  {
    SightsNow(w.core.store, run) + if acts == [] then {} else Sights(ApplyIn(w, acts[0]), acts[1..], run)
  }

  lemma {:induction false} PlayKeepsTold(w: World, acts: seq<Action>, run: Id, seen: set<Sight>)
    requires Inv(w) && Playable(w, acts) && RunTold(w.core, run, seen)
    ensures RunTold(Play(w, acts).core, run, seen + Sights(w, acts, run))
    decreases |acts|
  {
    if acts == [] {
      MoreSeen(w.core, run, seen, seen + Sights(w, acts, run));
    } else {
      StepKeepsTold(w, acts[0], run, seen);
      StepKeeps(w, acts[0]);
      PlayKeepsTold(ApplyIn(w, acts[0]), acts[1..], run, seen + SightsNow(w.core.store, run));
      assert seen + SightsNow(w.core.store, run) + Sights(ApplyIn(w, acts[0]), acts[1..], run)
          == seen + Sights(w, acts, run);
    }
  }

  /** An event of a trace is told by what was seen along the execution. */
  lemma EventTold(w: World, acts: seq<Action>, run: Id, i: nat)
    requires Init(w) && Playable(w, acts)
    requires run in Play(w, acts).core.store.runs && i < |LogOf(Play(w, acts).core.store, run)|
    ensures var st := Play(w, acts).core.store;
            Told(st, st.runs[run], LogOf(st, run)[..i], LogOf(st, run)[i], Sights(w, acts, run))
  {
    InitOk(w);
    PlayKeepsTold(w, acts, run, {});
    assert {} + Sights(w, acts, run) == Sights(w, acts, run);
  }

  /**
   In every reachable world, whatever has failed, what the events of a trace say of the tables is true: which
   tools were called, what was executed with which result, and why a call was refused.
   */
  lemma TracesTellTheTruth(w: World, run: Id, i: nat)
    requires Reachable(w) && run in w.core.store.runs && i < |LogOf(w.core.store, run)|
    ensures var row, log := w.core.store.runs[run], LogOf(w.core.store, run);
            Truthful(w.core.store, row.tenant, row.agent, log[..i], log[i])
  {
    var w0, acts :| Init(w0) && Playable(w0, acts) && Play(w0, acts) == w;
    EventTold(w0, acts, run, i);
  }

  // ---- from sights to moments

  /** What the sight says, in the tables. */
  ghost predicate Shows(st: Store, row: Run, s: Sight) {
    match s
    case Active(x, _) => x in st.tools && st.tools[x].tenant == row.tenant && !st.tools[x].deleted
    case NoneUnbound(_) => AllBound(st, row.tenant, row.agent)
  }

  /** The run's trace is exactly this one, and the sight is to be seen. */
  ghost predicate Here(st: Store, run: Id, s: Sight, log: seq<Event>) {
    run in st.runs && LogOf(st, run) == log && Shows(st, st.runs[run], s)
  }

  /** After the first `k` actions the run's trace is exactly this one, and the sight is to be seen. */
  ghost predicate MomentOf(w: World, acts: seq<Action>, k: nat, run: Id, s: Sight, log: seq<Event>) {
    k <= |acts| && Playable(w, acts[..k]) && Here(Play(w, acts[..k]).core.store, run, s, log)
  }

  lemma MomentLater(w: World, acts: seq<Action>, k: nat, run: Id, s: Sight, log: seq<Event>)
    requires acts != [] && EnabledIn(w, acts[0]) && MomentOf(ApplyIn(w, acts[0]), acts[1..], k, run, s, log)
    ensures MomentOf(w, acts, k + 1, run, s, log)
  {
    assert acts[..k + 1][1..] == acts[1..][..k];
    assert acts[..k + 1][0] == acts[0];
  }

  ghost predicate Somewhere(w: World, acts: seq<Action>, run: Id, s: Sight, log: seq<Event>)
    requires Playable(w, acts)
    decreases |acts|
  {
    Here(w.core.store, run, s, log) || (acts != [] && Somewhere(ApplyIn(w, acts[0]), acts[1..], run, s, log))
  }

  lemma SightHere(st: Store, run: Id, s: Sight)
    requires s in SightsNow(st, run)
    ensures run in st.runs && s.length == |LogOf(st, run)| && Shows(st, st.runs[run], s)
  {
  }

  lemma {:induction false} SightSomewhere(w: World, acts: seq<Action>, run: Id, s: Sight, st: Store)
    requires Inv(w) && Playable(w, acts) && Play(w, acts).core.store == st && s in Sights(w, acts, run)
    ensures run in st.runs && s.length <= |LogOf(st, run)|
    ensures Somewhere(w, acts, run, s, LogOf(st, run)[..s.length])
    decreases |acts|
  {
    if s in SightsNow(w.core.store, run) {
      SightHere(w.core.store, run, s);
      RunsOnlyAdvance(w, acts, run);
      assert LogOf(w.core.store, run) <= LogOf(st, run);
    } else {
      StepKeeps(w, acts[0]);
      SightSomewhere(ApplyIn(w, acts[0]), acts[1..], run, s, st);
    }
  }

  lemma {:induction false} SomewhereIsMoment(w: World, acts: seq<Action>, run: Id, s: Sight, log: seq<Event>)
    returns (k: nat)
    requires Playable(w, acts) && Somewhere(w, acts, run, s, log)
    ensures MomentOf(w, acts, k, run, s, log)
    decreases |acts|
  {
    if Here(w.core.store, run, s, log) {
      k := 0;
      assert acts[..0] == [];
    } else {
      k := SomewhereIsMoment(ApplyIn(w, acts[0]), acts[1..], run, s, log);
      MomentLater(w, acts, k, run, s, log);
      k := k + 1;
    }
  }

  /** Whatever was seen along an execution was so at a moment of it. */
  lemma SightIsMoment(w: World, acts: seq<Action>, run: Id, s: Sight, st: Store) returns (k: nat)
    requires Inv(w) && Playable(w, acts) && Play(w, acts).core.store == st && s in Sights(w, acts, run)
    ensures run in st.runs && s.length <= |LogOf(st, run)|
    ensures MomentOf(w, acts, k, run, s, LogOf(st, run)[..s.length])
  {
    SightSomewhere(w, acts, run, s, st);
    k := SomewhereIsMoment(w, acts, run, s, LogOf(st, run)[..s.length]);
  }

  lemma {:induction false} ExecFollowsCall(spec: Spec, log: seq<Event>, i: nat)
    requires i < |log| && log[i].ToolExec? && !PhaseOf(spec, log).Bad?
    ensures Calling(log[..i]) && Called(log[..i]) == log[i].tool
    decreases |log|
  {
    var init := log[..|log| - 1];
    if i < |log| - 1 {
      ExecFollowsCall(spec, init, i);
      assert init[..i] == log[..i];
    } else {
      assert PhaseOf(spec, init).Asked?;
      CallIsLast(spec, init);
    }
  }

  /**
   In every execution, whatever is deleted, aborted or restarted meanwhile: when a tool's execution is
   recorded there was a moment at which the trace ended with the model's call of that tool, and at
   which the tool was active.
   */
  lemma ExecutedToolsWereSeenActive(w: World, acts: seq<Action>, run: Id, i: nat)
    requires Init(w) && Playable(w, acts)
    requires var st := Play(w, acts).core.store;
             run in st.runs && i < |LogOf(st, run)| && LogOf(st, run)[i].ToolExec?
    ensures var log := LogOf(Play(w, acts).core.store, run);
            && Calling(log[..i]) && Called(log[..i]) == log[i].tool
            && exists k :: MomentOf(w, acts, k, run, Active(log[i].tool, i), log[..i])
  {
    InitOk(w);
    PlayKeeps(w, acts);
    var st := Play(w, acts).core.store;
    assert RunOk(st, run);
    ExecFollowsCall(SpecOf(st, st.runs[run]), LogOf(st, run), i);
    EventTold(w, acts, run, i);
    var k := SightIsMoment(w, acts, run, Active(LogOf(st, run)[i].tool, i), st);
  }

  /**
   A forced call is what a lookup found: at a moment at which the trace had got just so far, the called tool was an
   undeleted one of the tenant that is not bound to the agent; or, when the call names no tool, all of them were bound.
   */
  lemma ForcedCallsAreLookups(w: World, acts: seq<Action>, run: Id, i: nat)
    requires Init(w) && Playable(w, acts)
    requires var st := Play(w, acts).core.store;
             && run in st.runs && i < |LogOf(st, run)|
             && LogOf(st, run)[i].LlmCall? && LogOf(st, run)[i].forced && LogOf(st, run)[i].call.Some?
    ensures var st := Play(w, acts).core.store;
            var row, log, x := st.runs[run], LogOf(st, run), LogOf(st, run)[i].call.value;
            var s := if x == NIL then NoneUnbound(i) else Active(x, i);
            && Binding(row.tenant, row.agent, x) !in st.bindings
            && exists k :: MomentOf(w, acts, k, run, s, log[..i])
  {
    InitOk(w);
    EventTold(w, acts, run, i);
    var st := Play(w, acts).core.store;
    var x := LogOf(st, run)[i].call.value;
    var k := SightIsMoment(w, acts, run, if x == NIL then NoneUnbound(i) else Active(x, i), st);
  }

  /**
   A call is refused with `tool_not_allowed_for_agent` only if it names no tool, or if the called tool was not deleted
   at a moment at which the trace ended with the call.
   */
  lemma NotAllowedWasActive(w: World, acts: seq<Action>, run: Id, i: nat)
    requires Init(w) && Playable(w, acts)
    requires var st := Play(w, acts).core.store;
             run in st.runs && i < |LogOf(st, run)| && LogOf(st, run)[i] == EndFailed(ToolNotAllowedForAgent)
    ensures var log := LogOf(Play(w, acts).core.store, run);
            && Calling(log[..i])
            && var x := Called(log[..i]);
               x == NIL || exists k :: MomentOf(w, acts, k, run, Active(x, i), log[..i])
  {
    InitOk(w);
    EventTold(w, acts, run, i);
    var st := Play(w, acts).core.store;
    var x := Called(LogOf(st, run)[..i]);
    if x != NIL {
      var k := SightIsMoment(w, acts, run, Active(x, i), st);
    }
  }
}
