/** Which event sequences a run can leave in its trace: an automaton, and the explicit list of words. */
module TraceLanguage {
  import opened Domain

  /** What of a run decides its language: the agent's iteration limit, and the sentinel in its messages. */
  datatype Spec = Spec(maxIterations: int, forced: bool)

  /** How far a trace has got. `tool` is NIL until a first call names one. */
  datatype Phase =
    | Empty
    | Created
    | Refused(reason: Reason)
    | Admitted
    | Looping(calls: nat, tool: Id)
    | Asked(calls: nat, tool: Id)
    | Answered(tool: Id)
    | Ended(end: Event)
    | Bad

  /** The reasons a tool call can end a run with. */
  predicate CallFailure(forced: bool, reason: Reason) {
    || reason.ToolDeleted?
    || reason.InternalError?
    || (forced && reason.ToolNotAllowedForAgent?)
    || (!forced && (reason.InvalidInputSchema? || reason.InvalidToolArguments?))
  }

  function NextInLoop(spec: Spec, calls: nat, tool: Id, e: Event): Phase {
    match e
    case LlmCall(iteration, Some(x), forced) =>
      if iteration == calls + 1 && iteration <= spec.maxIterations && forced == spec.forced
         && calls < (if forced then 1 else 2) && (calls == 0 || x == tool)
      then Asked(calls, x) else Bad
    case LlmCall(iteration, None, forced) =>
      if iteration == 3 && calls == 2 && iteration <= spec.maxIterations && !forced then Answered(tool) else Bad
    case EndFailed(reason) =>
      if reason.MaxIterationsExceeded? && calls == spec.maxIterations then Ended(e) else Bad
    case _ => Bad
  }

  function NextInCall(spec: Spec, calls: nat, tool: Id, e: Event): Phase {
    match e
    case ToolExec(x, _, arguments, _) =>
      if !spec.forced && x == tool && arguments == Lookup(calls) then Looping(calls + 1, tool) else Bad
    case EndFailed(reason) => if CallFailure(spec.forced, reason) then Ended(e) else Bad
    case _ => Bad
  }

  function Next(spec: Spec, phase: Phase, e: Event): Phase {
    match phase
    case Empty => if e.RunCreated? then Created else Bad
    case Created => if e.Accepted? then Admitted else if e.Rejected? && Capacity(e.reason) then Refused(e.reason)
      else Bad
    case Refused(reason) => if e == EndFailed(reason) then Ended(e) else Bad
    case Admitted => if e.RunStarted? then Looping(0, NIL) else Bad
    case Looping(calls, tool) => NextInLoop(spec, calls, tool, e)
    case Asked(calls, tool) => NextInCall(spec, calls, tool, e)
    case Answered(_) => if e == EndSuccess(FINAL_ANSWER) then Ended(e) else Bad
    case Ended(_) => Bad
    case Bad => Bad
  }

  function PhaseOf(spec: Spec, log: seq<Event>): Phase {
    if log == [] then Empty else Next(spec, PhaseOf(spec, log[..|log| - 1]), log[|log| - 1])
  }

  lemma PhaseAppend(spec: Spec, log: seq<Event>, e: Event)
    ensures PhaseOf(spec, log + [e]) == Next(spec, PhaseOf(spec, log), e)
  {
    assert (log + [e])[..|log|] == log;
  }

  // ---- the explicit language

  datatype Ending = OutOfIterations | CallFailed(tool: Id, reason: Reason) | Answer

  /** One complete trace: a refusal, or the executed calls (tool name and result) and how the run ended. */
  datatype Script =
    | Refusal(reason: Reason)
    | Loop(tool: Id, results: seq<(string, string)>, ending: Ending)

  const OPENING: seq<Event> := [RunCreated, Accepted, RunStarted]

  function Rounds(tool: Id, results: seq<(string, string)>): (log: seq<Event>)
    ensures |log| == 2 * |results|
  {
    if results == [] then []
    else
      var n := |results| - 1;
      Rounds(tool, results[..n])
      + [LlmCall(n + 1, Some(tool), false), ToolExec(tool, results[n].0, Lookup(n), results[n].1)]
  }

  function Tail(spec: Spec, calls: nat, ending: Ending): seq<Event> {
    match ending
    case OutOfIterations => [EndFailed(MaxIterationsExceeded)]
    case CallFailed(tool, reason) => [LlmCall(calls + 1, Some(tool), spec.forced), EndFailed(reason)]
    case Answer => [LlmCall(3, None, false), EndSuccess(FINAL_ANSWER)]
  }

  function Word(spec: Spec, script: Script): seq<Event> {
    match script
    case Refusal(reason) => [RunCreated, Rejected(reason), EndFailed(reason)]
    case Loop(tool, results, ending) => OPENING + Rounds(tool, results) + Tail(spec, |results|, ending)
  }

  predicate Possible(spec: Spec, script: Script) {
    match script
    case Refusal(reason) => Capacity(reason)
    case Loop(tool, results, OutOfIterations) =>
      !spec.forced && |results| == spec.maxIterations && |results| <= 2
    case Loop(tool, results, CallFailed(x, reason)) =>
      && |results| < 2 && |results| < spec.maxIterations && CallFailure(spec.forced, reason)
      && (spec.forced ==> results == []) && (results != [] ==> x == tool)
    case Loop(tool, results, Answer) =>
      !spec.forced && |results| == 2 && 3 <= spec.maxIterations
  }

  /** A log that the automaton has not rejected and that has not ended, written out. */
  ghost predicate Unfinished(spec: Spec, log: seq<Event>, results: seq<(string, string)>) {
    match PhaseOf(spec, log)
    case Empty => log == []
    case Created => log == [RunCreated]
    case Refused(reason) => Capacity(reason) && log == [RunCreated, Rejected(reason)]
    case Admitted => log == [RunCreated, Accepted]
    case Looping(calls, tool) =>
      && |results| == calls <= 2 && calls <= spec.maxIterations && (spec.forced ==> calls == 0)
      && log == OPENING + Rounds(tool, results)
    case Asked(calls, tool) =>
      && |results| == calls < 2 && calls < spec.maxIterations && (spec.forced ==> calls == 0)
      && log == OPENING + Rounds(tool, results) + [LlmCall(calls + 1, Some(tool), spec.forced)]
    case Answered(tool) =>
      && |results| == 2 && 3 <= spec.maxIterations && !spec.forced
      && log == OPENING + Rounds(tool, results) + [LlmCall(3, None, false)]
    case Ended(_) => false
    case Bad => false
  }

  /** One more executed call extends the written-out rounds. */
  lemma SpellExec(spec: Spec, init: seq<Event>, e: Event, results: seq<(string, string)>)
    requires PhaseOf(spec, init).Asked? && Unfinished(spec, init, results)
    requires PhaseOf(spec, init + [e]) == Next(spec, PhaseOf(spec, init), e)
    requires PhaseOf(spec, init + [e]).Looping?
    ensures Unfinished(spec, init + [e], results + [(e.name, e.result)])
  {
    var calls, tool := PhaseOf(spec, init).calls, PhaseOf(spec, init).tool;
    var more := results + [(e.name, e.result)];
    assert more[..|more| - 1] == results;
    assert OPENING + Rounds(tool, more) == init + [e];
  }

  /** A model call extends the log by itself; the first one fixes the tool. */
  lemma SpellAsk(spec: Spec, init: seq<Event>, e: Event, results: seq<(string, string)>)
    requires PhaseOf(spec, init).Looping? && Unfinished(spec, init, results)
    requires PhaseOf(spec, init + [e]) == Next(spec, PhaseOf(spec, init), e)
    requires !PhaseOf(spec, init + [e]).Bad? && !PhaseOf(spec, init + [e]).Ended?
    ensures Unfinished(spec, init + [e], results)
  {
    var tool := PhaseOf(spec, init).tool;
    if e.call.Some? && results == [] {
      assert Rounds(e.call.value, results) == Rounds(tool, results);
    }
  }

  lemma SpellOpening(spec: Spec, init: seq<Event>, e: Event, results: seq<(string, string)>)
    requires spec.maxIterations >= 1
    requires !PhaseOf(spec, init).Looping? && !PhaseOf(spec, init).Asked? && Unfinished(spec, init, results)
    requires PhaseOf(spec, init + [e]) == Next(spec, PhaseOf(spec, init), e)
    requires !PhaseOf(spec, init + [e]).Bad? && !PhaseOf(spec, init + [e]).Ended?
    ensures Unfinished(spec, init + [e], [])
  {
    assert Rounds(NIL, []) == [];
  }

  lemma {:induction false} Spell(spec: Spec, log: seq<Event>) returns (results: seq<(string, string)>)
    requires spec.maxIterations >= 1
    requires !PhaseOf(spec, log).Bad? && !PhaseOf(spec, log).Ended?
    ensures Unfinished(spec, log, results)
    decreases |log|
  {
    results := [];
    if log != [] {
      var init, e := log[..|log| - 1], log[|log| - 1];
      assert log == init + [e];
      var before := Spell(spec, init);
      if PhaseOf(spec, init).Asked? {
        SpellExec(spec, init, e, before);
        results := before + [(e.name, e.result)];
      } else if PhaseOf(spec, init).Looping? {
        SpellAsk(spec, init, e, before);
        results := before;
      } else {
        SpellOpening(spec, init, e, before);
      }
    }
  }

  lemma RoundsPhase(spec: Spec, tool: Id, results: seq<(string, string)>)
    requires |results| <= 2 && |results| <= spec.maxIterations && (spec.forced ==> results == [])
    ensures PhaseOf(spec, OPENING + Rounds(tool, results)) == Looping(|results|, if results == [] then NIL else tool)
    decreases |results|
  {
    if results == [] {
      PhaseAppend(spec, [], RunCreated);
      PhaseAppend(spec, [RunCreated], Accepted);
      PhaseAppend(spec, [RunCreated, Accepted], RunStarted);
      assert OPENING + Rounds(tool, results) == [RunCreated, Accepted] + [RunStarted];
      assert [RunCreated, Accepted] == [RunCreated] + [Accepted];
      assert [RunCreated] == [] + [RunCreated];
    } else {
      var n := |results| - 1;
      RoundsPhase(spec, tool, results[..n]);
      var log := OPENING + Rounds(tool, results[..n]);
      var ask := LlmCall(n + 1, Some(tool), false);
      var exec := ToolExec(tool, results[n].0, Lookup(n), results[n].1);
      PhaseAppend(spec, log, ask);
      PhaseAppend(spec, log + [ask], exec);
      assert OPENING + Rounds(tool, results) == log + [ask] + [exec];
    }
  }

  lemma PhaseAppendTwo(spec: Spec, log: seq<Event>, e: Event, f: Event)
    ensures PhaseOf(spec, log + [e, f]) == Next(spec, Next(spec, PhaseOf(spec, log), e), f)
  {
    PhaseAppend(spec, log, e);
    PhaseAppend(spec, log + [e], f);
    assert log + [e, f] == log + [e] + [f];
  }

  lemma RefusalAccepted(spec: Spec, reason: Reason)
    requires Capacity(reason)
    ensures PhaseOf(spec, Word(spec, Refusal(reason))).Ended?
  {
    PhaseAppend(spec, [], RunCreated);
    PhaseAppendTwo(spec, [RunCreated], Rejected(reason), EndFailed(reason));
    assert [] + [RunCreated] == [RunCreated];
    assert Word(spec, Refusal(reason)) == [RunCreated] + [Rejected(reason), EndFailed(reason)];
  }

  lemma TailAccepted(spec: Spec, log: seq<Event>, script: Script)
    requires script.Loop? && Possible(spec, script)
    requires PhaseOf(spec, log) == Looping(|script.results|, if script.results == [] then NIL else script.tool)
    ensures PhaseOf(spec, log + Tail(spec, |script.results|, script.ending)).Ended?
  {
    var tail := Tail(spec, |script.results|, script.ending);
    if script.ending.OutOfIterations? {
      PhaseAppend(spec, log, tail[0]);
    } else {
      PhaseAppendTwo(spec, log, tail[0], tail[1]);
    }
  }

  lemma WordAccepted(spec: Spec, script: Script)
    requires Possible(spec, script)
    ensures PhaseOf(spec, Word(spec, script)).Ended?
  {
    match script
    case Refusal(reason) =>
      RefusalAccepted(spec, reason);
    case Loop(tool, results, ending) =>
      RoundsPhase(spec, tool, results);
      TailAccepted(spec, OPENING + Rounds(tool, results), script);
  }

  lemma {:induction false} PrefixAccepted(spec: Spec, log: seq<Event>, whole: seq<Event>)
    requires log <= whole && !PhaseOf(spec, whole).Bad?
    ensures !PhaseOf(spec, log).Bad?
    decreases |whole|
  {
    if |log| < |whole| {
      PrefixAccepted(spec, log, whole[..|whole| - 1]);
    } else {
      assert log == whole;
    }
  }

  /** A complete word that an unfinished log begins. */
  function Completion(spec: Spec, phase: Phase, results: seq<(string, string)>): Script {
    match phase
    case Refused(reason) => Refusal(reason)
    case Looping(calls, tool) =>
      if calls == spec.maxIterations then Loop(tool, results, OutOfIterations)
      else if calls == 2 then Loop(tool, results, Answer)
      else Loop(tool, results, CallFailed(tool, InternalError))
    case Asked(calls, tool) => Loop(tool, results, CallFailed(tool, InternalError))
    case Answered(tool) => Loop(tool, results, Answer)
    case _ => Loop(NIL, [], CallFailed(NIL, InternalError))
  }

  lemma UnfinishedBegins(spec: Spec, log: seq<Event>, results: seq<(string, string)>)
    requires spec.maxIterations >= 1 && Unfinished(spec, log, results)
    ensures var script := Completion(spec, PhaseOf(spec, log), results);
            Possible(spec, script) && log <= Word(spec, script)
  {
    var script := Completion(spec, PhaseOf(spec, log), results);
    assert Rounds(NIL, []) == [];
  }

  lemma EndedIsWord(spec: Spec, log: seq<Event>) returns (script: Script)
    requires spec.maxIterations >= 1 && PhaseOf(spec, log).Ended?
    ensures Possible(spec, script) && log == Word(spec, script)
  {
    var init, e := log[..|log| - 1], log[|log| - 1];
    assert log == init + [e];
    var results := Spell(spec, init);
    match PhaseOf(spec, init)
    case Refused(reason) => script := Refusal(reason);
    case Looping(calls, tool) => script := Loop(tool, results, OutOfIterations);
    case Asked(calls, tool) => script := Loop(tool, results, CallFailed(tool, e.reason));
    case Answered(tool) => script := Loop(tool, results, Answer);
  }

  ghost predicate Begins(spec: Spec, log: seq<Event>, script: Script) {
    Possible(spec, script) && log <= Word(spec, script)
  }

  /** The automaton accepts exactly the beginnings of the possible words. */
  lemma Language(spec: Spec, log: seq<Event>)
    requires spec.maxIterations >= 1
    ensures !PhaseOf(spec, log).Bad? <==> exists script :: Begins(spec, log, script)
  {
    if !PhaseOf(spec, log).Bad? {
      if PhaseOf(spec, log).Ended? {
        var script := EndedIsWord(spec, log);
        assert Begins(spec, log, script);
      } else {
        var results := Spell(spec, log);
        UnfinishedBegins(spec, log, results);
        assert Begins(spec, log, Completion(spec, PhaseOf(spec, log), results));
      }
    }
    if script :| Begins(spec, log, script) {
      WordAccepted(spec, script);
      PrefixAccepted(spec, log, Word(spec, script));
    }
  }

  /** It has ended exactly on the complete words, and then nothing can follow. */
  lemma EndedExactly(spec: Spec, log: seq<Event>)
    requires spec.maxIterations >= 1
    ensures PhaseOf(spec, log).Ended? <==> exists script :: Possible(spec, script) && log == Word(spec, script)
  {
    if PhaseOf(spec, log).Ended? {
      var script := EndedIsWord(spec, log);
    }
    if script :| Possible(spec, script) && log == Word(spec, script) {
      WordAccepted(spec, script);
    }
  }

  lemma WordBounded(spec: Spec, script: Script)
    requires Possible(spec, script)
    ensures 3 <= |Word(spec, script)| <= 9
    ensures spec.forced ==> forall i :: 0 <= i < |Word(spec, script)| ==> !Word(spec, script)[i].ToolExec?
  {
  }
}
