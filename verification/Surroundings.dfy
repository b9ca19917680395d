/** What happens around the processes is possible exactly when the tables allow it, and faults are always possible. */
module Surroundings {
  import opened Domain
  import opened Protocol

  /** `create_tool`: possible exactly when no active tool of the tenant has the name. */
  lemma CreateToolGoes(w: World, id: Id, tool: Tool)
    requires id != NIL && id !in w.core.store.tools && !tool.deleted
    ensures EnabledIn(w, NewTool(id, tool)) <==>
              !exists x :: x in w.core.store.tools && w.core.store.tools[x].tenant == tool.tenant
                           && w.core.store.tools[x].name == tool.name && !w.core.store.tools[x].deleted
    ensures EnabledIn(w, NewTool(id, tool)) ==>
              ApplyIn(w, NewTool(id, tool))
              == w.(core := w.core.(store := w.core.store.(tools := w.core.store.tools[id := tool])))
  {
  }

  /** `delete_tool`: possible exactly on an active tool of the tenant; only its mark changes. */
  lemma DeleteToolGoes(w: World, t: Id, id: Id)
    ensures EnabledIn(w, RemoveTool(t, id)) <==>
              && id in w.core.store.tools && w.core.store.tools[id].tenant == t && !w.core.store.tools[id].deleted
    ensures EnabledIn(w, RemoveTool(t, id)) ==>
              var tools := w.core.store.tools;
              ApplyIn(w, RemoveTool(t, id))
              == w.(core := w.core.(store := w.core.store.(tools := tools[id := tools[id].(deleted := true)])))
  {
  }

  /** `create_agent`: possible exactly when the limit is in range, the name is free and the tools are the tenant's. */
  lemma CreateAgentGoes(w: World, id: Id, agent: Agent, tools: set<Id>)
    requires id !in w.core.store.agents
    ensures EnabledIn(w, NewAgent(id, agent, tools)) <==>
              && 1 <= agent.maxIterations <= 50
              && (agent.name.Some? ==>
                    !exists x :: x in w.core.store.agents && w.core.store.agents[x].tenant == agent.tenant
                                 && w.core.store.agents[x].name == agent.name)
              && forall x :: x in tools ==> x in w.core.store.tools && w.core.store.tools[x].tenant == agent.tenant
    ensures EnabledIn(w, NewAgent(id, agent, tools)) ==>
              var st' := ApplyIn(w, NewAgent(id, agent, tools)).core.store;
              && st' == w.core.store.(agents := w.core.store.agents[id := agent], bindings := st'.bindings)
              && (forall b :: b in st'.bindings <==>
                    || b in w.core.store.bindings
                    || (b.tenant == agent.tenant && b.agent == id && b.tool in tools))
  {
    if EnabledIn(w, NewAgent(id, agent, tools)) {
      var st' := ApplyIn(w, NewAgent(id, agent, tools)).core.store;
      forall b ensures b in st'.bindings <==>
        b in w.core.store.bindings || (b.tenant == agent.tenant && b.agent == id && b.tool in tools)
      {
        assert b == Binding(b.tenant, b.agent, b.tool);
      }
    }
  }

  /**
   Any live process can be dropped at any point. The statement it has sent may then still do to the tables what it
   would have done, with any choice that was open to it, or nothing.
   */
  lemma DroppedStatementsMayCommit(w: World, pid: Id, c: Choice)
    requires pid in w.core.procs && !w.core.procs[pid].pc.Lost? && Admissible(w.core.store, w.core.procs[pid], c)
    ensures EnabledIn(w, Abort(pid)) && ApplyIn(w, Abort(pid)).core.store == w.core.store
    ensures var w' := ApplyIn(w, Abort(pid));
            && EnabledIn(w', Settle(pid, true, c)) && EnabledIn(w', Settle(pid, false, c))
            && ApplyIn(w', Settle(pid, true, c)).core.store == MoveOf(w.core, pid, c).store
            && ApplyIn(w', Settle(pid, false, c)).core.store == w.core.store
            && ApplyIn(w', Settle(pid, true, c)).core.procs == w.core.procs - {pid}
  {
  }

  /** The server can restart at any point; it then has its processes' statements in flight, and all permits. */
  lemma RestartsMayHappen(w: World, pid: Id)
    requires pid in w.core.procs && !w.core.procs[pid].pc.Lost?
    ensures EnabledIn(w, Crash)
    ensures var w' := ApplyIn(w, Crash);
            && w'.core.store == w.core.store && w'.core.procs.Keys == w.core.procs.Keys
            && w'.core.procs[pid].pc == Lost(w.core.procs[pid].pc)
            && w'.free == w.globalMax && w'.core.sems == map[]
  {
  }
}
