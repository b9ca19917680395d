/** The repository layer: every function of `db.rs` and `trace.rs` as a method on the tables it updates in place. */
module DatabaseLayer {
  import opened Domain
  import opened TraceTable
  import S = Store
  import Solo

  datatype DbError = NotFound | DuplicateName | ConstraintViolation | TransactionAborted

  datatype Result<+T> = Ok(value: T) | Err(error: DbError)

  /** No id occurs twice in a list. */
  predicate Distinct(ids: seq<Id>) {
    forall i, j | 0 <= i < j < |ids| :: ids[i] != ids[j]
  }

  /** Every id of a list names an active tool of the tenant. */
  predicate AllActive(st: S.Store, tenant: Id, ids: seq<Id>) {
    forall i | 0 <= i < |ids| :: S.ActiveTool(st, tenant, ids[i])
  }

  /** The first id that fails its check is the one at `i`, and it fails because no active tool has it. */
  predicate MissingAt(st: S.Store, tenant: Id, ids: seq<Id>, i: nat)
    requires i < |ids|
  {
    Distinct(ids[..i]) && AllActive(st, tenant, ids[..i]) && !S.ActiveTool(st, tenant, ids[i])
  }

  /** When the first failing id is a repetition, no id is the first to fail for want of an active tool. */
  lemma NotMissing(st: S.Store, tenant: Id, ids: seq<Id>, i: nat, j: nat)
    requires i < |ids| && j < |ids| && Distinct(ids[..i]) && AllActive(st, tenant, ids[..i])
    requires ids[i] in ids[..i]
    ensures !MissingAt(st, tenant, ids, j)
  {
    var k :| 0 <= k < i && ids[..i][k] == ids[i];
    if j < i {
      assert ids[..i][j] == ids[j];
    } else if j == i {
      assert ids[..i][k] == ids[j];
    } else {
      assert ids[..j][k] == ids[..j][i];
    }
  }

  /** A row that the idempotency key of a request stands for; NULL equals nothing. */
  predicate InScope(row: Run, tenant: Id, agent: Id, key: Option<string>) {
    row.tenant == tenant && row.agent == agent && key.Some? && row.key == key
  }

  class Database {
    var tools: map<Id, Tool>
    var agents: map<Id, Agent>
    var bindings: set<Binding>
    var runs: map<Id, Run>
    var traces: Traces

    function Contents(): S.Store
      reads this
    {
      S.Store(tools, agents, bindings, runs, traces)
    }

    constructor ()
      ensures Contents() == S.EMPTY_STORE
    {
      tools, agents, bindings, runs, traces := map[], map[], {}, map[], map[];
    }

    /** The tenant's active tools; the deleted ones are left out. */
    method ListTools(tenant: Id) returns (ids: set<Id>)
      ensures forall x :: x in ids <==> x in tools && tools[x].tenant == tenant && !tools[x].deleted
    {
      ids := S.ListTools(Contents(), tenant);
    }

    /** Deleted tools are found too. */
    method GetTool(tenant: Id, tool: Id) returns (row: Option<Tool>)
      ensures row.Some? <==> tool in tools && tools[tool].tenant == tenant
      ensures row.Some? ==> row.value == tools[tool]
    {
      row := S.GetTool(Contents(), tenant, tool);
    }

    method GetAgent(tenant: Id, agent: Id) returns (row: Option<Agent>)
      ensures row.Some? <==> agent in agents && agents[agent].tenant == tenant
      ensures row.Some? ==> row.value == agents[agent]
    {
      row := S.GetAgent(Contents(), tenant, agent);
    }

    method GetRun(tenant: Id, run: Id) returns (row: Option<Run>)
      ensures row.Some? <==> run in runs && runs[run].tenant == tenant
      ensures row.Some? ==> row.value == runs[run]
    {
      row := S.GetRun(Contents(), tenant, run);
    }

    method GetAgentToolIds(tenant: Id, agent: Id) returns (ids: set<Id>)
      ensures forall x :: x in ids <==> Binding(tenant, agent, x) in bindings
    {
      ids := S.AgentToolIds(Contents(), tenant, agent);
      forall x ensures x in ids <==> Binding(tenant, agent, x) in bindings {
        var b := Binding(tenant, agent, x);
        assert b in bindings <==> x in ids;
      }
    }

    /** The name is unique among the tenant's active tools. */
    method CreateTool(id: Id, tenant: Id, name: string, schema: Schema, handler: Handler) returns (r: Result<Id>)
      requires id !in tools && id != NIL
      modifies this
      ensures r == Ok(id) || r == Err(DuplicateName)
      ensures r.Err? <==>
        exists x :: x in old(tools) && old(tools)[x].tenant == tenant && old(tools)[x].name == name
                    && !old(tools)[x].deleted
      ensures r.Ok? ==> tools == old(tools)[id := Tool(tenant, name, schema, handler, false)]
      ensures r.Ok? ==> Contents() == S.CreateTool(old(Contents()), id, Tool(tenant, name, schema, handler, false))
      ensures r.Err? ==> Contents() == old(Contents())
    {
      if S.ToolNameFree(Contents(), tenant, name) {
        tools := tools[id := Tool(tenant, name, schema, handler, false)];
        r := Ok(id);
      } else {
        r := Err(DuplicateName);
      }
    }

    /** Soft deletion; a second deletion finds nothing. */
    method DeleteTool(tenant: Id, tool: Id) returns (r: Result<()>)
      modifies this
      ensures r == Ok(()) || r == Err(NotFound)
      ensures r.Ok? <==> tool in old(tools) && old(tools)[tool].tenant == tenant && !old(tools)[tool].deleted
      ensures r.Ok? ==> tools == old(tools)[tool := old(tools)[tool].(deleted := true)]
      ensures r.Err? ==> tools == old(tools)
      ensures Contents() == S.DeleteTool(old(Contents()), tenant, tool)
      ensures !S.ActiveTool(Contents(), tenant, tool)
    {
      if S.ActiveTool(Contents(), tenant, tool) {
        tools := tools[tool := tools[tool].(deleted := true)];
        r := Ok(());
      } else {
        r := Err(NotFound);
      }
    }

    /**
     One transaction: the agent row, then a check and a binding row for each listed tool. Any error
     drops the transaction, and with it everything it wrote.
     */
    method CreateAgent(id: Id, tenant: Id, name: Option<string>, toolIds: seq<Id>, maxIterations: int)
      returns (r: Result<Id>)
      requires id !in agents && forall b :: b in bindings ==> b.agent != id
      modifies this
      ensures r.Ok? <==>
        && old(S.AgentNameFree(Contents(), tenant, name)) && 0 < maxIterations <= MAX_ITERATIONS_LIMIT
        && old(AllActive(Contents(), tenant, toolIds)) && Distinct(toolIds)
      ensures r.Ok? ==> r.value == id && agents == old(agents)[id := Agent(tenant, name, maxIterations)]
      ensures r.Ok? ==> forall b :: b in bindings <==>
        b in old(bindings) || (b.tenant == tenant && b.agent == id && b.tool in toolIds)
      ensures r.Ok? ==>
        Contents() == S.CreateAgent(old(Contents()), id, Agent(tenant, name, maxIterations), set x | x in toolIds)
      ensures r.Ok? ==> S.AgentToolIds(Contents(), tenant, id) == set x | x in toolIds
      ensures r.Err? ==> Contents() == old(Contents())
      ensures r == Err(DuplicateName) <==>
        && 0 < maxIterations <= MAX_ITERATIONS_LIMIT && name.Some?
        && exists x :: x in old(agents) && old(agents)[x].tenant == tenant && old(agents)[x].name == name
      ensures S.AgentNamesUnique(old(Contents())) && 0 < maxIterations <= MAX_ITERATIONS_LIMIT ==>
        (r == Err(DuplicateName) <==>
         !S.AgentNamesUnique(S.CreateAgent(old(Contents()), id, Agent(tenant, name, maxIterations), {})))
      ensures r == Err(NotFound) <==>
        && 0 < maxIterations <= MAX_ITERATIONS_LIMIT && old(S.AgentNameFree(Contents(), tenant, name))
        && exists i :: 0 <= i < |toolIds| && MissingAt(old(Contents()), tenant, toolIds, i)
    {
      if S.AgentNamesUnique(Contents()) {
        S.AgentNameFreeExactly(Contents(), id, Agent(tenant, name, maxIterations), {});
      }
      if maxIterations <= 0 || maxIterations > MAX_ITERATIONS_LIMIT {
        return Err(ConstraintViolation);
      }
      if !S.AgentNameFree(Contents(), tenant, name) {
        return Err(DuplicateName);
      }
      var txBindings := bindings;
      for i := 0 to |toolIds|
        invariant Contents() == old(Contents())
        invariant Distinct(toolIds[..i]) && AllActive(Contents(), tenant, toolIds[..i])
        invariant forall b :: b in txBindings <==>
          b in bindings || (b.tenant == tenant && b.agent == id && b.tool in toolIds[..i])
      {
        if !S.ActiveTool(Contents(), tenant, toolIds[i]) {
          assert MissingAt(Contents(), tenant, toolIds, i);
          return Err(NotFound);
        }
        if Binding(tenant, id, toolIds[i]) in txBindings {
          assert toolIds[i] in toolIds[..i];
          forall j | 0 <= j < |toolIds| ensures !MissingAt(Contents(), tenant, toolIds, j) {
            NotMissing(Contents(), tenant, toolIds, i, j);
          }
          return Err(ConstraintViolation);
        }
        txBindings := txBindings + {Binding(tenant, id, toolIds[i])};
        assert toolIds[..i + 1] == toolIds[..i] + [toolIds[i]];
      }
      assert toolIds[..|toolIds|] == toolIds;
      agents := agents[id := Agent(tenant, name, maxIterations)];
      bindings := txBindings;
      assert forall x :: x in toolIds <==> Binding(tenant, id, x) in bindings;
      assert bindings == old(bindings) + S.BindingsFor(tenant, id, set x | x in toolIds);
      r := Ok(id);
    }

    /**
     The row of a new run, or the row its idempotency key already stands for. That row is selected in the
     transaction whose INSERT has failed on it; `refused` says whether the database refuses the SELECT there.
     */
    method CreateOrGetRun(id: Id, tenant: Id, agent: Id, messages: seq<ChatMessage>, key: Option<string>, refused: bool)
      returns (r: Result<(Id, bool)>)
      requires id !in runs && S.GetAgent(Contents(), tenant, agent).Some?
      modifies this
      ensures r.Err? <==> refused && old(S.RunsInScope(Contents(), tenant, agent, key)) != {}
      ensures r.Err? ==> exists q :: q in runs && InScope(runs[q], tenant, agent, key)
      ensures r.Err? ==> r.error.TransactionAborted? && Contents() == old(Contents())
      ensures r.Ok? ==>
        var (run, created) := r.value;
        && (created <==> old(S.RunsInScope(Contents(), tenant, agent, key)) == {})
        && (created <==> forall q :: q in old(runs) ==> !InScope(old(runs)[q], tenant, agent, key))
        && (created ==> run == id)
        && (created ==> runs == old(runs)[id := Run(tenant, agent, Pending, messages, None, None, key, false, false)])
        && (created ==> Contents() == S.InsertRun(old(Contents()), id, S.NewRun(tenant, agent, messages, key)))
        && (!created ==> !refused && Contents() == old(Contents()))
        && run in runs && runs[run].tenant == tenant && runs[run].agent == agent && runs[run].key == key
      ensures S.IdempotencyUnique(old(Contents())) ==> S.IdempotencyUnique(Contents())
    {
      var scope := S.RunsInScope(Contents(), tenant, agent, key);
      if scope == {} {
        forall q | q in runs && key.Some? && runs[q].key == key
          ensures runs[q].tenant != tenant || runs[q].agent != agent {
          assert q !in scope;
        }
        runs := runs[id := S.NewRun(tenant, agent, messages, key)];
        r := Ok((id, true));
      } else if refused {
        r := Err(TransactionAborted);
      } else {
        var run :| run in scope;
        r := Ok((run, false));
      }
    }

    method MarkRunFailed(tenant: Id, run: Id, reason: Reason)
      modifies this
      ensures Contents() == S.MarkRunFailed(old(Contents()), tenant, run, reason)
      ensures old(S.GetRun(Contents(), tenant, run)).Some? ==>
        && run in runs && runs[run].status.Failed? && runs[run].errorReason == Some(reason) && runs[run].finished
        && runs[run].started == old(runs[run].started) && runs[run].finalAnswer == old(runs[run].finalAnswer)
      ensures old(S.GetRun(Contents(), tenant, run)).None? ==> runs == old(runs)
      ensures forall q :: q != run ==> S.GetRun(Contents(), tenant, q) == old(S.GetRun(Contents(), tenant, q))
      ensures tools == old(tools) && agents == old(agents) && bindings == old(bindings) && traces == old(traces)
    {
      if S.GetRun(Contents(), tenant, run).Some? {
        runs := runs[run := S.FailedRow(runs[run], reason)];
      }
    }

    method BeginRunExecution(tenant: Id, run: Id) returns (started: bool)
      modifies this
      ensures started <==> run in old(runs) && old(runs)[run].tenant == tenant && old(runs)[run].status.Pending?
      ensures runs == if started then old(runs)[run := old(runs)[run].(status := Running, started := true)]
                      else old(runs)
      ensures Contents() == S.BeginRunExecution(old(Contents()), tenant, run)
      ensures !S.CanBegin(Contents(), tenant, run)
    {
      started := S.CanBegin(Contents(), tenant, run);
      if started {
        runs := runs[run := S.StartedRow(runs[run])];
      }
    }

    method FinalizeRun(tenant: Id, run: Id, status: Status, answer: Option<string>, reason: Option<Reason>)
      modifies this
      ensures Contents() == S.FinalizeRun(old(Contents()), tenant, run, status, answer, reason)
      ensures old(S.GetRun(Contents(), tenant, run)).Some? ==>
        && run in runs && runs[run].status == status && runs[run].finalAnswer == answer
        && runs[run].errorReason == reason
        && runs[run].finished && runs[run].started == old(runs[run].started)
      ensures old(S.GetRun(Contents(), tenant, run)).None? ==> runs == old(runs)
      ensures forall q :: q != run ==> S.GetRun(Contents(), tenant, q) == old(S.GetRun(Contents(), tenant, q))
      ensures tools == old(tools) && agents == old(agents) && bindings == old(bindings) && traces == old(traces)
    {
      if S.GetRun(Contents(), tenant, run).Some? {
        runs := runs[run := S.FinalRow(runs[run], status, answer, reason)];
      }
    }

    /** The aggregate over one run's rows. */
    method MaxNumber(tenant: Id, run: Id) returns (m: nat)
      ensures m == MaxSeq(traces, tenant, run)
    {
      var todo := traces.Keys;
      m := 0;
      while todo != {}
        invariant todo <= traces.Keys
        invariant forall k :: k in traces.Keys - todo && k.tenant == tenant && k.run == run ==> k.number <= m
        invariant m == 0 || TraceKey(tenant, run, m) in traces
        decreases todo
      {
        var k :| k in todo;
        if k.tenant == tenant && k.run == run && k.number > m {
          m := k.number;
          assert k == TraceKey(tenant, run, m);
        }
        todo := todo - {k};
      }
      assert m == 0 || m in SeqsOf(traces, tenant, run);
    }

    /** `SELECT ... ORDER BY seq`: the run's rows, each once and in the order of their numbers. */
    method SelectTrace(tenant: Id, run: Id) returns (rows: seq<TraceRow>)
      ensures forall i, j :: 0 <= i < j < |rows| ==> rows[i].number < rows[j].number
      ensures forall row :: row in rows <==> IsRow(traces, tenant, run, row)
      ensures rows == GetTrace(traces, tenant, run)
    {
      var m := MaxNumber(tenant, run);
      rows := [];
      ghost var seen: set<nat> := {};
      for n := 0 to m + 1
        invariant seen == set x | x in SeqsOf(traces, tenant, run) && x < n
        invariant rows == Select(traces, tenant, run, seen)
      {
        var k := TraceKey(tenant, run, n);
        assert k in traces <==> n in SeqsOf(traces, tenant, run);
        if k in traces {
          SelectNext(traces, tenant, run, seen, n);
          rows := rows + [TraceRow(n, traces[k])];
          seen := seen + {n};
        }
      }
      assert seen == SeqsOf(traces, tenant, run);
      TraceInOrder(traces, tenant, run);
      assert rows == GetTrace(traces, tenant, run);
    }

    /** One INSERT ... SELECT: the trace read back is the old one with the event appended. */
    method AppendEvent(tenant: Id, run: Id, event: Event)
      modifies this
      ensures Contents() == Solo.Appended(old(Contents()), tenant, run, event)
      ensures GetTrace(traces, tenant, run)
           == old(GetTrace(traces, tenant, run)) + [TraceRow(old(MaxSeq(traces, tenant, run)) + 1, event)]
      ensures forall q :: q != run ==> GetTrace(traces, tenant, q) == old(GetTrace(traces, tenant, q))
    {
      var m := MaxNumber(tenant, run);
      ghost var before := traces;
      AppendNext(traces, tenant, run, event);
      traces := traces[TraceKey(tenant, run, m + 1) := event];
      forall q | q != run ensures GetTrace(traces, tenant, q) == GetTrace(before, tenant, q) {
        TraceFrame(before, traces, tenant, q);
      }
    }

    /** Some active tool that is not bound to the agent. */
    method FindUnboundActiveTool(tenant: Id, agent: Id) returns (found: Option<Id>)
      ensures found.Some? <==> S.UnboundActiveTools(Contents(), tenant, agent) != {}
      ensures found.Some? ==> found.value in S.UnboundActiveTools(Contents(), tenant, agent)
      ensures found.Some? ==>
        var x := found.value;
        && x in tools && tools[x].tenant == tenant && !tools[x].deleted && Binding(tenant, agent, x) !in bindings
      ensures found.None? ==>
        forall x :: x in tools && tools[x].tenant == tenant && !tools[x].deleted ==>
          Binding(tenant, agent, x) in bindings
    {
      var unbound := S.UnboundActiveTools(Contents(), tenant, agent);
      if unbound == {} {
        found := None;
        assert forall x :: x in tools ==> x !in unbound;
      } else {
        var x :| x in unbound;
        found := Some(x);
      }
    }

    /**
     The first of the bound tools. Rows written in one transaction tie, so any of them may come first;
     `choice` is the one that the database puts there.
     */
    method FirstAgentTool(tenant: Id, agent: Id, choice: Id) returns (first: Option<Id>)
      requires var bound := S.ListAgentTools(Contents(), tenant, agent); bound != {} ==> choice in bound
      ensures first.Some? <==> S.ListAgentTools(Contents(), tenant, agent) != {}
      ensures first.Some? ==> first.value == choice && choice in S.ListAgentTools(Contents(), tenant, agent)
      ensures first.Some? ==>
        choice in tools && tools[choice].tenant == tenant && Binding(tenant, agent, choice) in bindings
      ensures first.None? ==>
        forall x :: x in tools && tools[x].tenant == tenant ==> Binding(tenant, agent, x) !in bindings
    {
      var bound := S.ListAgentTools(Contents(), tenant, agent);
      first := if bound == {} then None else Some(choice);
      if bound == {} {
        assert forall x :: x in tools ==> x !in bound;
      }
    }
  }
}
