/** Each statement of a process keeps what holds of its run. One lemma a program counter. */
module RunSteps {
  import opened Domain
  import opened TraceTable
  import opened Store
  import opened TraceLanguage
  import opened Decisions
  import opened Protocol
  import opened RunInvariant

  // ---- reads: the row and the trace stay, the program goes on within the language

  lemma EndRunReady(st: Store, t: Id, a: Id, spec: Spec, end: Event, row: Run, phase: Phase)
    requires Next(spec, phase, end) == Ended(end) && !end.ToolExec? && !phase.Empty?
    requires Agrees(spec, row, Ended(end))
    ensures Ready(st, t, a, spec, EndRun(end), row, phase)
  {
    assert ReadyAppend(st, t, a, spec, end, Done, row, phase);
  }

  lemma FailRunReady(st: Store, t: Id, a: Id, spec: Spec, reason: Reason, row: Run, phase: Phase)
    requires row.status.Running? && RowShape(row) && !Capacity(reason)
    requires phase.Looping? || phase.Asked?
    requires Next(spec, phase, EndFailed(reason)) == Ended(EndFailed(reason))
    ensures Ready(st, t, a, spec, FailRun(reason), row, phase)
  {
    var row' := FinalRow(row, Failed, None, Some(reason));
    EndRunReady(st, t, a, spec, EndFailed(reason), row', phase);
  }

  lemma FinishRunReady(st: Store, t: Id, a: Id, spec: Spec, row: Run, phase: Phase)
    requires row.status.Running? && RowShape(row) && phase.Answered?
    ensures Ready(st, t, a, spec, FinishRun(FINAL_ANSWER), row, phase)
  {
    var row' := FinalRow(row, Success, Some(FINAL_ANSWER), None);
    EndRunReady(st, t, a, spec, EndSuccess(FINAL_ANSWER), row', phase);
  }

  lemma RefuseReady(st: Store, t: Id, a: Id, spec: Spec, reason: Reason, row: Run)
    requires row.status.Pending? && RowShape(row) && Capacity(reason)
    ensures Ready(st, t, a, spec, Refuse(reason), row, Created)
  {
    var row' := FailedRow(row, reason);
    EndRunReady(st, t, a, spec, EndFailed(reason), row', Refused(reason));
    assert ReadyAppend(st, t, a, spec, Rejected(reason), EndRun(EndFailed(reason)), row', Created);
  }

  lemma BeginReady(st: Store, t: Id, a: Id, spec: Spec, row: Run)
    requires row.status.Running?
    ensures Ready(st, t, a, spec, ReadMax(Accepted, ReadMax(RunStarted, LoadRun)), row, Created)
  {
    assert ReadyAppend(st, t, a, spec, RunStarted, LoadRun, row, Admitted);
    assert ReadyAppend(st, t, a, spec, Accepted, ReadMax(RunStarted, LoadRun), row, Created);
  }

  lemma LoadToolsReady(st: Store, t: Id, a: Id, spec: Spec, p: Proc, row: Run, c: Choice, run: Id)
    requires p.pc.LoadTools? && p.req.tenant == t && BindingKeys(st) && spec.maxIterations >= 1
    requires Ready(st, t, a, spec, p.pc, row, Looping(0, NIL))
    requires Admissible(st, p, c)
    ensures Ready(st, t, a, spec, ReadNext(st, t, run, p.pc, c), row, Looping(0, NIL))
  {
    forall b | b in st.bindings && b.tenant == t && b.agent == a ensures b.tool in ListAgentTools(st, t, a) {
      assert b == Binding(t, a, b.tool);
    }
  }

  lemma FinalDecisionReady(st: Store, t: Id, a: Id, spec: Spec, loop: LoopState, row: Run, phase: Phase)
    requires Ready(st, t, a, spec, Decide(loop), row, phase) && RowShape(row)
    requires !spec.forced && loop.iteration <= spec.maxIterations && loop.toolResults == 2
    ensures Ready(st, t, a, spec, AfterDecision(loop, FinalAnswer(FINAL_ANSWER)), row, phase)
  {
    FinishRunReady(st, t, a, spec, row, Answered(phase.tool));
    assert ReadyAppend(st, t, a, spec, LlmCall(loop.iteration, None, false), FinishRun(FINAL_ANSWER), row, phase);
  }

  lemma ToolDecisionReady(st: Store, t: Id, a: Id, spec: Spec, loop: LoopState, tool: Id, arguments: Arguments,
                          row: Run, phase: Phase)
    requires Ready(st, t, a, spec, Decide(loop), row, phase)
    requires loop.iteration <= spec.maxIterations && loop.toolResults < 2
    requires if spec.forced then arguments == ForcedLookup && Binding(t, a, tool) !in st.bindings
             else arguments == Lookup(loop.toolResults) && loop.first == Some(tool)
    ensures Ready(st, t, a, spec, AfterDecision(loop, ToolCall(tool, arguments)), row, phase)
  {
    var loop' := loop.(triggerConsumed := loop.triggerConsumed || loop.forced);
    assert Ready(st, t, a, spec, CheckTool(loop', tool, arguments), row, Asked(loop.toolResults, tool));
    assert ReadyAppend(st, t, a, spec, LlmCall(loop.iteration, Some(tool), spec.forced),
                       CheckTool(loop', tool, arguments), row, phase);
  }

  lemma DecideReady(st: Store, t: Id, a: Id, spec: Spec, p: Proc, row: Run, phase: Phase, c: Choice)
    requires p.pc.Decide? && p.req.tenant == t && BindingKeys(st) && NIL !in st.tools && spec.maxIterations >= 1
    requires Ready(st, t, a, spec, p.pc, row, phase) && RowShape(row)
    requires Admissible(st, p, c)
    ensures Ready(st, t, a, spec, DecideNext(st, t, p.pc.loop, c), row, phase)
  {
    var loop := p.pc.loop;
    if loop.iteration > loop.maxIterations {
      FailRunReady(st, t, a, spec, MaxIterationsExceeded, row, phase);
    } else if spec.forced {
      if UnboundActiveTools(st, t, loop.agent) == {} {
        assert Binding(t, a, NIL) !in st.bindings;
        ToolDecisionReady(st, t, a, spec, loop, NIL, ForcedLookup, row, phase);
      } else {
        ToolDecisionReady(st, t, a, spec, loop, c.id, ForcedLookup, row, phase);
      }
    } else if loop.toolResults < 2 {
      if loop.first.Some? {
        ToolDecisionReady(st, t, a, spec, loop, loop.first.value, Lookup(loop.toolResults), row, phase);
      }
    } else {
      FinalDecisionReady(st, t, a, spec, loop, row, phase);
    }
  }

  lemma CheckToolReady(st: Store, t: Id, a: Id, spec: Spec, pc: Pc, row: Run, phase: Phase, c: Choice)
    requires pc.CheckTool? && BindingKeys(st)
    requires Ready(st, t, a, spec, pc, row, phase) && RowShape(row)
    ensures Ready(st, t, a, spec, CheckToolNext(st, t, pc.loop, pc.tool, pc.arguments, c), row, phase)
  {
    if c.dbError {
      FailRunReady(st, t, a, spec, InternalError, row, phase);
    } else {
      var refusal := AuthorizeFound(GetTool(st, t, pc.tool));
      if refusal.Some? {
        assert refusal.value.ToolNotAllowedForAgent? ==> spec.forced;
        FailRunReady(st, t, a, spec, refusal.value, row, phase);
      }
    }
  }

  lemma ExecReady(st: Store, t: Id, a: Id, spec: Spec, pc: Pc, result: string, row: Run, phase: Phase)
    requires pc.CheckBinding? && !spec.forced
    requires Ready(st, t, a, spec, pc, row, phase)
    ensures Ready(st, t, a, spec,
                  ReadMax(ToolExec(pc.tool, pc.record.name, pc.arguments, result),
                          Decide(pc.loop.(iteration := pc.loop.iteration + 1, toolResults := pc.loop.toolResults + 1))),
                  row, phase)
  {
    var loop' := pc.loop.(iteration := pc.loop.iteration + 1, toolResults := pc.loop.toolResults + 1);
    assert Ready(st, t, a, spec, Decide(loop'), row, Looping(loop'.toolResults, pc.tool));
    assert ReadyAppend(st, t, a, spec, ToolExec(pc.tool, pc.record.name, pc.arguments, result), Decide(loop'), row,
      phase);
  }

  lemma CheckBindingReady(st: Store, t: Id, a: Id, spec: Spec, pc: Pc, row: Run, phase: Phase, c: Choice)
    requires pc.CheckBinding?
    requires Ready(st, t, a, spec, pc, row, phase) && RowShape(row)
    ensures Ready(st, t, a, spec, CheckBindingNext(st, t, pc.loop, pc.tool, pc.arguments, pc.record, c), row, phase)
  {
    if c.dbError {
      FailRunReady(st, t, a, spec, InternalError, row, phase);
    } else if spec.forced {
      assert pc.tool !in AgentToolIds(st, t, pc.loop.agent);
      FailRunReady(st, t, a, spec, ToolNotAllowedForAgent, row, phase);
    } else {
      assert Binding(t, a, pc.tool).tool in AgentToolIds(st, t, pc.loop.agent);
      var refusal := ValidateToolArguments(pc.record.schema, pc.arguments);
      if refusal.Some? {
        FailRunReady(st, t, a, spec, refusal.value, row, phase);
      } else {
        var result := ExecuteMockHandler(pc.record.handler);
        if result.Some? {
          ExecReady(st, t, a, spec, pc, result.value, row, phase);
        }
      }
    }
  }

  /** Facts about the store that a run's steps rely on. */
  ghost predicate Lookups(st: Store) {
    NIL !in st.tools && BindingKeys(st) && AgentChecks(st)
  }

  lemma ReadStep(st: Store, p: Proc, c: Choice)
    requires Lookups(st)
    requires p.run.Some? && PlaceOk(st, p) && Reads(p.pc) && RunOk(st, p.run.value)
    requires Admissible(st, p, c)
    ensures var r := p.run.value;
            Ready(st, p.req.tenant, p.req.agent, SpecOf(st, st.runs[r]), ReadNext(st, p.req.tenant, r, p.pc, c),
                  st.runs[r], PhaseIn(st, r))
  {
    var t, a, r := p.req.tenant, p.req.agent, p.run.value;
    var row, phase := st.runs[r], PhaseIn(st, r);
    var spec := SpecOf(st, row);
    match p.pc
    case ReadMax(event, k) =>
    case LoadRun =>
    case LoadAgent(agent, forced) =>
    case LoadTools(_, _, _) => LoadToolsReady(st, t, a, spec, p, row, c, r);
    case Decide(_) => DecideReady(st, t, a, spec, p, row, phase, c);
    case CheckTool(_, _, _) => CheckToolReady(st, t, a, spec, p.pc, row, phase, c);
    case CheckBinding(_, _, _, _) => CheckBindingReady(st, t, a, spec, p.pc, row, phase, c);
  }

  // ---- writes: only the process's own run changes, and it still agrees with its trace

  /** The store differs in at most the row and the trace of one run. */
  ghost predicate OnlyRun(st: Store, st': Store, t: Id, run: Id) {
    && st'.tools == st.tools && st'.agents == st.agents && st'.bindings == st.bindings
    && st'.runs.Keys == st.runs.Keys
    && (forall q :: q in st.runs && q != run ==> st'.runs[q] == st.runs[q])
    && (forall k :: k in st.traces ==> k in st'.traces && st'.traces[k] == st.traces[k])
    && (forall k :: k in st'.traces && k !in st.traces ==> k.tenant == t && k.run == run && k.number > 0)
  }

  /** The run after a write of its process that leaves the program at `pc`. */
  ghost predicate Written(st: Store, st': Store, t: Id, a: Id, run: Id, pc: Pc)
    requires run in st.runs
  {
    && OnlyRun(st, st', t, run)
    && RunOk(st', run)
    && Transition(st.runs[run], st'.runs[run])
    && LogOf(st, run) <= LogOf(st', run)
    && Ready(st', t, a, SpecOf(st', st'.runs[run]), pc, st'.runs[run], PhaseIn(st', run))
    && !pc.InsertRow? && !pc.Lost? && !pc.Quit?
  }

  /** The row computed from the maximum meets no other row, and extends the dense trace by its event. */
  lemma InsertLog(st: Store, t: Id, run: Id, event: Event)
    requires run in st.runs && st.runs[run].tenant == t && Dense(GetTrace(st.traces, t, run))
    ensures var key := TraceKey(t, run, MaxSeq(st.traces, t, run) + 1);
            var st' := InsertTrace(st, key, event);
            && key !in st.traces
            && Dense(GetTrace(st'.traces, t, run))
            && LogOf(st', run) == LogOf(st, run) + [event]
  {
    AppendNext(st.traces, t, run, event);
    DenseMax(st.traces, t, run);
    DenseAppend(GetTrace(st.traces, t, run), TraceRow(MaxSeq(st.traces, t, run) + 1, event));
  }

  lemma InsertRunOk(st: Store, st': Store, run: Id, event: Event)
    requires run in st.runs && RunOk(st, run)
    requires st'.runs == st.runs && st'.agents == st.agents && st'.bindings == st.bindings
    requires Dense(GetTrace(st'.traces, st.runs[run].tenant, run))
    requires LogOf(st', run) == LogOf(st, run) + [event]
    requires var next := Next(SpecOf(st, st.runs[run]), PhaseIn(st, run), event);
             !next.Bad? && Agrees(SpecOf(st, st.runs[run]), st.runs[run], next)
    requires event.ToolExec? ==> Binding(st.runs[run].tenant, st.runs[run].agent, event.tool) in st.bindings
    ensures RunOk(st', run)
    ensures PhaseIn(st', run) == Next(SpecOf(st, st.runs[run]), PhaseIn(st, run), event)
  {
    PhaseAppend(SpecOf(st, st.runs[run]), LogOf(st, run), event);
  }

  lemma InsertRowStep(st: Store, p: Proc)
    requires p.run.Some? && PlaceOk(st, p) && p.pc.InsertRow? && RunOk(st, p.run.value)
    ensures var t, r := p.req.tenant, p.run.value;
            var key := TraceKey(t, r, p.pc.number);
            && key !in st.traces
            && Written(st, InsertTrace(st, key, p.pc.event), t, p.req.agent, r, p.pc.k)
            && LogOf(InsertTrace(st, key, p.pc.event), r) == LogOf(st, r) + [p.pc.event]
  {
    var t, r, event := p.req.tenant, p.run.value, p.pc.event;
    var spec := SpecOf(st, st.runs[r]);
    var st' := InsertTrace(st, TraceKey(t, r, p.pc.number), event);
    assert p.pc.number == MaxSeq(st.traces, t, r) + 1 by { assert Revived(p) == p; }
    assert ReadyAppend(st, t, p.req.agent, spec, event, p.pc.k, st.runs[r], PhaseIn(st, r));
    InsertLog(st, t, r, event);
    InsertRunOk(st, st', r, event);
    ReadyStable(st, st', t, p.req.agent, spec, p.pc.k, st.runs[r], PhaseIn(st', r));
  }

  lemma MarkFailedStep(st: Store, p: Proc)
    requires p.run.Some? && PlaceOk(st, p) && p.pc.MarkFailed? && RunOk(st, p.run.value)
    ensures var t, r := p.req.tenant, p.run.value;
            Written(st, MarkRunFailed(st, t, r, p.pc.reason), t, p.req.agent, r, p.pc.k)
  {
    var t, r := p.req.tenant, p.run.value;
    var st' := MarkRunFailed(st, t, r, p.pc.reason);
    ReadyStable(st, st', t, p.req.agent, SpecOf(st, st.runs[r]), p.pc.k, st'.runs[r], PhaseIn(st, r));
  }

  lemma BeginStep(st: Store, p: Proc)
    requires p.run.Some? && PlaceOk(st, p) && p.pc.BeginExecution? && RunOk(st, p.run.value)
    ensures var t, r := p.req.tenant, p.run.value;
            && CanBegin(st, t, r)
            && Written(st, BeginRunExecution(st, t, r), t, p.req.agent, r,
                 ReadMax(Accepted, ReadMax(RunStarted, LoadRun)))
  {
    var t, r := p.req.tenant, p.run.value;
    var st' := BeginRunExecution(st, t, r);
    BeginReady(st', t, p.req.agent, SpecOf(st, st.runs[r]), st'.runs[r]);
  }

  lemma FinalizeStep(st: Store, p: Proc)
    requires p.run.Some? && PlaceOk(st, p) && p.pc.Finalize? && RunOk(st, p.run.value)
    ensures var t, r := p.req.tenant, p.run.value;
            Written(st, FinalizeRun(st, t, r, p.pc.status, p.pc.answer, p.pc.why), t, p.req.agent, r, p.pc.k)
  {
    var t, r := p.req.tenant, p.run.value;
    var st' := FinalizeRun(st, t, r, p.pc.status, p.pc.answer, p.pc.why);
    ReadyStable(st, st', t, p.req.agent, SpecOf(st, st.runs[r]), p.pc.k, st'.runs[r], PhaseIn(st, r));
  }

  ghost predicate WriteOk(st: Store, p: Proc)
    requires p.run.Some? && p.run.value in st.runs
  {
    var r := p.run.value;
    var (st', pc') := WriteNext(st, p.req.tenant, r, p.pc);
    Written(st, st', p.req.tenant, p.req.agent, r, pc')
  }

  lemma WriteStep(st: Store, p: Proc)
    requires p.run.Some? && PlaceOk(st, p) && Writes(p.pc) && RunOk(st, p.run.value)
    ensures WriteOk(st, p)
  {
    if p.pc.InsertRow? {
      InsertRowStep(st, p);
    } else if p.pc.MarkFailed? {
      MarkFailedStep(st, p);
    } else if p.pc.BeginExecution? {
      BeginStep(st, p);
    } else {
      FinalizeStep(st, p);
    }
  }
}
