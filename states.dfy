/**
 * The state the top-level workflow threads through its nodes (`SystemState` with its
 * `Routing` and `AgentInputOutput` parts), the partial update a node returns, and how
 * LangGraph merges such an update into the state: every top-level key the update
 * carries replaces the state's value for that key, and the others are kept.
 */
module States {
  import opened Wrappers
  import opened Json

  /** LangGraph's reserved `START` and `END` node names. */
  const Start := "__start__"
  const End := "__end__"

  /** `Routing`: where to go next and which node ran last; None is Python's None. */
  datatype Routing = Routing(next: Option<string>, previous: Option<string>)

  /**
   * `AgentInputOutput`, a dict whose keys come and go as nodes replace it: None
   * means the dict does not carry that key. A Python None value is `JNull`.
   */
  datatype AgentIO = AgentIO(userInput: Option<Json>, agentOutput: Option<Json>)

  datatype SystemState = SystemState(workflowId: string, agentName: Option<string>,
                                     routing: Routing, agentIO: AgentIO)

  /**
   * The dict a node returns: None for a top-level key it does not carry. For
   * `agent_name` the inner option is the value, which may itself be Python's None.
   */
  datatype Update = Update(agentName: Option<Option<string>>, routing: Option<Routing>,
                           agentIO: Option<AgentIO>)

  /** Merging an update into the state. */
  function Apply(s: SystemState, u: Update): SystemState {
    SystemState(s.workflowId,
                if u.agentName.Some? then u.agentName.value else s.agentName,
                if u.routing.Some? then u.routing.value else s.routing,
                if u.agentIO.Some? then u.agentIO.value else s.agentIO)
  }

}
