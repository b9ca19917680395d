/** Tasks that call one tool, statement by statement, and how far such a task gets. */
module GoodCalls {
  import opened Domain
  import opened Store
  import opened TraceLanguage
  import opened Protocol
  import opened RunInvariant
  import opened RunSteps
  import opened Safety
  import opened Solo
  import opened Sightings

  // ---- a task that calls the one tool

  /** The tool is bound to the agent and is active. */
  ghost predicate BoundActive(st: Store, t: Id, a: Id, x: Id) {
    Binding(t, a, x) in st.bindings && ActiveTool(st, t, x)
  }

  /** The events of a run that calls no other tool, does not find it deleted, and whose statements do not fail. */
  predicate GoodEvent(x: Id, e: Event) {
    && (e.LlmCall? && e.call.Some? ==> e.call.value == x)
    && (e.EndFailed? ==> !e.reason.InternalError? && !e.reason.ToolDeleted?)
    && !e.Rejected?
  }

  predicate GoodPc(x: Id, pc: Pc) {
    match pc
    case ReadMax(event, k) => GoodEvent(x, event) && GoodPc(x, k)
    case InsertRow(event, _, k) => GoodEvent(x, event) && GoodPc(x, k)
    case BeginExecution => true
    case LoadRun => true
    case LoadAgent(_, _) => true
    case LoadTools(_, _, _) => true
    case Decide(loop) => loop.first == Some(x)
    case CheckTool(loop, _, _) => loop.first == Some(x)
    case CheckBinding(loop, _, _, _) => loop.first == Some(x)
    case Finalize(_, _, _, k) => GoodPc(x, k)
    case Done => true
    case Quit => true
    case _ => false
  }

  lemma GoodFail(x: Id, reason: Reason)
    requires !reason.InternalError? && !reason.ToolDeleted?
    ensures GoodPc(x, FailRun(reason))
  {
    assert GoodPc(x, EndRun(EndFailed(reason)));
  }

  lemma GoodDecide(st: Store, p: Proc, c: Choice, x: Id)
    requires p.run.Some? && PlaceOk(st, p) && p.pc.Decide? && GoodPc(x, p.pc)
    requires !Forced(st.runs[p.run.value].messages)
    ensures var pc' := DecideNext(st, p.req.tenant, p.pc.loop, c); GoodPc(x, pc') && !pc'.Quit?
  {
    var loop := p.pc.loop;
    if loop.iteration > loop.maxIterations {
      GoodFail(x, MaxIterationsExceeded);
    } else if loop.toolResults < 2 {
      var next := CheckTool(loop.(triggerConsumed := loop.triggerConsumed || loop.forced), x, Lookup(loop.toolResults));
      assert DecideNext(st, p.req.tenant, loop, c) == ReadMax(LlmCall(loop.iteration, Some(x), false), next);
    } else {
      assert GoodPc(x, EndRun(EndSuccess(FINAL_ANSWER)));
      assert GoodPc(x, FinishRun(FINAL_ANSWER));
      assert DecideNext(st, p.req.tenant, loop, c)
        == ReadMax(LlmCall(loop.iteration, None, false), FinishRun(FINAL_ANSWER));
    }
  }

  lemma GoodCheckTool(st: Store, p: Proc, c: Choice, x: Id)
    requires p.run.Some? && PlaceOk(st, p) && p.pc.CheckTool? && BoundActive(st, p.req.tenant, p.req.agent, x)
    requires GoodPc(x, p.pc) && !c.dbError && !Forced(st.runs[p.run.value].messages)
    ensures var pc' := CheckToolNext(st, p.req.tenant, p.pc.loop, p.pc.tool, p.pc.arguments, c);
            GoodPc(x, pc') && !pc'.Quit?
  {
  }

  /** The tool's handler cannot respond to the call that has been accepted. */
  predicate Mute(tool: Tool, arguments: Arguments) {
    !tool.handler.Static? && tool.schema.compiles && arguments in tool.schema.accepted
  }

  lemma GoodCheckBinding(st: Store, p: Proc, c: Choice, x: Id)
    requires p.run.Some? && PlaceOk(st, p) && p.pc.CheckBinding? && BoundActive(st, p.req.tenant, p.req.agent, x)
    requires GoodPc(x, p.pc) && !c.dbError && !Forced(st.runs[p.run.value].messages)
    ensures var pc' := CheckBindingNext(st, p.req.tenant, p.pc.loop, p.pc.tool, p.pc.arguments, p.pc.record, c);
            GoodPc(x, pc') && (pc'.Quit? ==> Mute(st.tools[x], Lookup(p.pc.loop.toolResults)))
  {
    var loop := p.pc.loop;
    assert p.pc.tool == x && p.pc.arguments == Lookup(loop.toolResults);
    assert Binding(p.req.tenant, p.req.agent, x) in st.bindings;
    assert x in AgentToolIds(st, p.req.tenant, loop.agent);
    GoodFail(x, InvalidInputSchema);
    GoodFail(x, InvalidToolArguments);
  }

  lemma GoodLoad(st: Store, p: Proc, c: Choice, first: Id)
    requires p.run.Some? && PlaceOk(st, p) && BoundActive(st, p.req.tenant, p.req.agent, first)
    requires Lookups(st) && RunKeys(st)
    requires Regular(st, p, c, first) && (p.pc.ReadMax? || p.pc.LoadRun? || p.pc.LoadAgent? || p.pc.LoadTools?)
    requires GoodPc(first, p.pc)
    ensures var pc' := ReadNext(st, p.req.tenant, p.run.value, p.pc, c); GoodPc(first, pc') && !pc'.Quit?
  {
    assert first in ListAgentTools(st, p.req.tenant, p.req.agent);
  }

  /** A read leads on, or to the silent exit of a handler that cannot respond. */
  lemma GoodRead(st: Store, p: Proc, c: Choice, first: Id)
    requires p.run.Some? && PlaceOk(st, p) && BoundActive(st, p.req.tenant, p.req.agent, first)
    requires Lookups(st) && RunKeys(st)
    requires Regular(st, p, c, first) && Reads(p.pc) && !Forced(st.runs[p.run.value].messages)
    requires GoodPc(first, p.pc)
    ensures var pc' := ReadNext(st, p.req.tenant, p.run.value, p.pc, c);
            && GoodPc(first, pc')
            && (pc'.Quit? ==> p.pc.CheckBinding? && Mute(st.tools[first], Lookup(p.pc.loop.toolResults)))
  {
    if p.pc.Decide? {
      GoodDecide(st, p, c, first);
    } else if p.pc.CheckTool? {
      GoodCheckTool(st, p, c, first);
    } else if p.pc.CheckBinding? {
      GoodCheckBinding(st, p, c, first);
    } else {
      GoodLoad(st, p, c, first);
    }
  }

  ghost predicate GoodLog(x: Id, log: seq<Event>) {
    forall i :: 0 <= i < |log| ==> GoodEvent(x, log[i])
  }

  lemma GoodBegin(x: Id)
    ensures GoodPc(x, ReadMax(Accepted, ReadMax(RunStarted, LoadRun)))
  {
    assert GoodPc(x, ReadMax(RunStarted, LoadRun));
  }

  lemma GoodWrite(st: Store, p: Proc, x: Id)
    requires p.run.Some? && PlaceOk(st, p) && Writes(p.pc) && RunOk(st, p.run.value)
    requires GoodPc(x, p.pc) && GoodLog(x, LogOf(st, p.run.value))
    ensures var (st', pc') := WriteNext(st, p.req.tenant, p.run.value, p.pc);
            && p.run.value in st'.runs
            && GoodPc(x, pc') && GoodLog(x, LogOf(st', p.run.value))
  {
    if p.pc.InsertRow? {
      InsertRowStep(st, p);
    } else if p.pc.BeginExecution? {
      BeginStep(st, p);
      GoodBegin(x);
    }
  }

  // ---- how far it gets

  /** The one script of an undisturbed run: as many calls as the limit allows, at most two. */
  function Undisturbed(maxIterations: int, x: Id, tool: Tool): Script
    requires tool.handler.Static? && maxIterations >= 1
  {
    var calls := if maxIterations < 2 then 1 else 2;
    Loop(x, seq(calls, i => (tool.name, tool.handler.response)), if maxIterations >= 3 then Answer else OutOfIterations)
  }

  /** The tool accepts what the model will generate within the limit, and has a response. */
  predicate Responsive(maxIterations: int, tool: Tool) {
    && tool.handler.Static? && tool.schema.compiles
    && Lookup(0) in tool.schema.accepted && (maxIterations >= 2 ==> Lookup(1) in tool.schema.accepted)
  }

  /**
   The complete trace of a run whose calls all go to this tool: the first call that its schema does not accept
   ends it. None when the handler cannot respond to the first call: then the run is left without an end.
   */
  function Fate(maxIterations: int, x: Id, tool: Tool): Option<Script>
    requires maxIterations >= 1
  {
    if !tool.schema.compiles then Some(Loop(x, [], CallFailed(x, InvalidInputSchema)))
    else if Lookup(0) !in tool.schema.accepted then Some(Loop(x, [], CallFailed(x, InvalidToolArguments)))
    else
      match tool.handler
      case Static(response) =>
        if maxIterations >= 2 && Lookup(1) !in tool.schema.accepted then
          Some(Loop(x, [(tool.name, response)], CallFailed(x, InvalidToolArguments)))
        else
          Some(Undisturbed(maxIterations, x, tool))
      case _ => None
  }

  /** The trace calls no other tool, and what it says of the one is true. */
  ghost predicate TrueLog(st: Store, t: Id, a: Id, x: Id, log: seq<Event>) {
    GoodLog(x, log) && forall i :: 0 <= i < |log| ==> Truthful(st, t, a, log[..i], log[i])
  }

  lemma TruePrefix(st: Store, t: Id, a: Id, x: Id, log: seq<Event>, n: nat)
    requires TrueLog(st, t, a, x, log) && n <= |log|
    ensures TrueLog(st, t, a, x, log[..n])
  {
    forall i | 0 <= i < n ensures Truthful(st, t, a, log[..n][..i], log[..n][i]) {
      assert log[..n][..i] == log[..i];
    }
  }

  /** What the executed calls of a true trace are. */
  lemma {:induction false} RoundsTrue(st: Store, t: Id, a: Id, x: Id, y: Id, results: seq<(string, string)>)
    requires results != [] && TrueLog(st, t, a, x, OPENING + Rounds(y, results))
    ensures y == x && ToolOf(st, t, x)
    ensures forall i :: 0 <= i < |results| ==>
              && st.tools[x].handler == Static(results[i].1) && results[i].0 == st.tools[x].name
              && st.tools[x].schema.compiles && Lookup(i) in st.tools[x].schema.accepted
    decreases |results|
  {
    var n := |results| - 1;
    var log := OPENING + Rounds(y, results);
    assert log[2 * n + 3] == LlmCall(n + 1, Some(y), false);
    assert log[2 * n + 4] == ToolExec(y, results[n].0, Lookup(n), results[n].1);
    assert Truthful(st, t, a, log[..2 * n + 4], log[2 * n + 4]);
    if n > 0 {
      assert OPENING + Rounds(y, results[..n]) == log[..2 * n + 3];
      TruePrefix(st, t, a, x, log, 2 * n + 3);
      RoundsTrue(st, t, a, x, y, results[..n]);
      assert forall i :: 0 <= i < n ==> results[i] == results[..n][i];
    }
  }

  /** The refusal of a true trace's last call. */
  lemma FailureTrue(st: Store, t: Id, a: Id, x: Id, log: seq<Event>, n: nat, y: Id, reason: Reason)
    requires TrueLog(st, t, a, x, log + [LlmCall(n + 1, Some(y), false), EndFailed(reason)])
    requires reason.InvalidInputSchema? || reason.InvalidToolArguments?
    ensures y == x && ToolOf(st, t, x)
    ensures reason.InvalidInputSchema? <==> !st.tools[x].schema.compiles
    ensures reason.InvalidToolArguments? ==> Lookup(n) !in st.tools[x].schema.accepted
  {
    var whole := log + [LlmCall(n + 1, Some(y), false), EndFailed(reason)];
    assert whole[|log|] == LlmCall(n + 1, Some(y), false);
    assert whole[..|log| + 1] == log + [LlmCall(n + 1, Some(y), false)];
    assert Truthful(st, t, a, whole[..|log| + 1], whole[|log| + 1]);
  }

  lemma SameResults(results: seq<(string, string)>, max: int, x: Id, tool: Tool)
    requires forall i :: 0 <= i < |results| ==> tool.handler == Static(results[i].1) && results[i].0 == tool.name
    requires results != [] && max >= 1 && tool.handler.Static?
    ensures |results| == 1 ==> results == [(tool.name, tool.handler.response)]
    ensures |results| == (if max < 2 then 1 else 2) ==> results == Undisturbed(max, x, tool).results
  {
    forall i | 0 <= i < |results| ensures results[i] == (tool.name, tool.handler.response) {
      assert results[i] == (results[i].0, results[i].1);
    }
  }

  /** The rounds and the ending of a true complete trace. */
  lemma LoopTrue(st: Store, t: Id, a: Id, x: Id, spec: Spec, script: Script)
    requires script.Loop? && Possible(spec, script) && !spec.forced && spec.maxIterations >= 1
    requires TrueLog(st, t, a, x, Word(spec, script))
    ensures script.results != [] ==>
              && script.tool == x && ToolOf(st, t, x)
              && forall i :: 0 <= i < |script.results| ==>
                   && st.tools[x].handler == Static(script.results[i].1) && script.results[i].0 == st.tools[x].name
                   && st.tools[x].schema.compiles && Lookup(i) in st.tools[x].schema.accepted
    ensures script.ending.CallFailed? ==>
              && script.ending.tool == x && ToolOf(st, t, x)
              && (script.ending.reason.InvalidInputSchema? || script.ending.reason.InvalidToolArguments?)
              && (script.ending.reason.InvalidInputSchema? <==> !st.tools[x].schema.compiles)
              && (script.ending.reason.InvalidToolArguments? ==>
                    Lookup(|script.results|) !in st.tools[x].schema.accepted)
  {
    var word, rounds := Word(spec, script), OPENING + Rounds(script.tool, script.results);
    assert word[..|rounds|] == rounds;
    TruePrefix(st, t, a, x, word, |rounds|);
    if script.results != [] {
      RoundsTrue(st, t, a, x, script.tool, script.results);
    }
    if script.ending.CallFailed? {
      assert word[|word| - 1] == EndFailed(script.ending.reason);
      FailureTrue(st, t, a, x, rounds, |script.results|, script.ending.tool, script.ending.reason);
    }
  }

  /** The only complete word that calls this one tool and tells the truth. */
  lemma OnlyWord(st: Store, t: Id, a: Id, x: Id, spec: Spec, script: Script)
    requires Possible(spec, script) && !spec.forced && spec.maxIterations >= 1 && ToolOf(st, t, x)
    requires TrueLog(st, t, a, x, Word(spec, script))
    ensures var fate := Fate(spec.maxIterations, x, st.tools[x]);
            && fate.Some? && Word(spec, script) == Word(spec, fate.value)
            && script.Loop? && script.ending == fate.value.ending
  {
    var word, tool := Word(spec, script), st.tools[x];
    assert word[1].Rejected? <==> script.Refusal?;
    LoopTrue(st, t, a, x, spec, script);
    if script.results != [] {
      SameResults(script.results, spec.maxIterations, x, tool);
    } else {
      assert Rounds(script.tool, []) == Rounds(x, []);
    }
  }

  lemma LastEvent(spec: Spec, script: Script, log: seq<Event>)
    requires log == Word(spec, script) && PhaseOf(spec, log).Ended? && script.Loop?
    ensures PhaseOf(spec, log) == Ended(EndOf(script.ending))
  {
    EndIsLast(spec, log, |log| - 1);
  }

  function EndOf(ending: Ending): Event {
    match ending
    case OutOfIterations => EndFailed(MaxIterationsExceeded)
    case CallFailed(_, reason) => EndFailed(reason)
    case Answer => EndSuccess(FINAL_ANSWER)
  }

  /** What the row of a run says at the end of its trace. */
  predicate RowEnds(row: Run, ending: Ending) {
    match ending
    case OutOfIterations => row.status.Failed? && row.errorReason == Some(MaxIterationsExceeded)
    case CallFailed(_, reason) => row.status.Failed? && row.errorReason == Some(reason)
    case Answer => row.status.Success? && row.finalAnswer == Some(FINAL_ANSWER)
  }

  /** What an ended true log says of the row. */
  lemma EndedTrue(st: Store, spec: Spec, row: Run, log: seq<Event>, x: Id)
    requires !spec.forced && spec.maxIterations >= 1 && ToolOf(st, row.tenant, x)
    requires PhaseOf(spec, log).Ended? && Agrees(spec, row, PhaseOf(spec, log))
    requires TrueLog(st, row.tenant, row.agent, x, log)
    ensures var fate := Fate(spec.maxIterations, x, st.tools[x]);
            fate.Some? && log == Word(spec, fate.value) && fate.value.Loop? && RowEnds(row, fate.value.ending)
  {
    var script := EndedIsWord(spec, log);
    OnlyWord(st, row.tenant, row.agent, x, spec, script);
    LastEvent(spec, script, log);
  }

  /** A true log that stops at a call to which the tool cannot respond has just that call. */
  lemma AskedTrue(st: Store, t: Id, a: Id, spec: Spec, log: seq<Event>, x: Id)
    requires !spec.forced && spec.maxIterations >= 1 && ToolOf(st, t, x) && TrueLog(st, t, a, x, log)
    requires PhaseOf(spec, log).Asked? && Mute(st.tools[x], Lookup(PhaseOf(spec, log).calls))
    ensures Fate(spec.maxIterations, x, st.tools[x]).None?
    ensures log == OPENING + [LlmCall(1, Some(x), false)]
  {
    var phase := PhaseOf(spec, log);
    var results := Spell(spec, log);
    var rounds := OPENING + Rounds(phase.tool, results);
    assert log[..|rounds|] == rounds;
    TruePrefix(st, t, a, x, log, |rounds|);
    if results != [] {
      RoundsTrue(st, t, a, x, phase.tool, results);
      assert false;
    }
    assert Rounds(phase.tool, []) == [];
    assert log[|log| - 1] == LlmCall(1, Some(phase.tool), false);
  }

  lemma CreatedLog(spec: Spec, log: seq<Event>)
    requires PhaseOf(spec, log).Created?
    ensures log == [RunCreated]
  {
    var init := log[..|log| - 1];
    assert PhaseOf(spec, log) == Next(spec, PhaseOf(spec, init), log[|log| - 1]);
    assert PhaseOf(spec, init).Empty?;
    assert log == init + [log[|log| - 1]];
  }
}
