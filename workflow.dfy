/**
 * The top-level workflow of `main.py`: the router node, the table its conditional
 * edges follow, the user-input step's routing decision, and the graph the module
 * builds. The interrupt that supplies the resumed user input is a parameter, and the
 * checkpointer the graph is compiled with is not part of this model.
 */
module Workflow {
  import opened Wrappers
  import opened Json
  import opened States
  import opened Graphs
  import AgentNodes

  const RouterNode := "agent_router"
  /** The name `get_user_input` records as the node that ran last. */
  const UserInputStep := "user_input"

  // ---------------------------------------------------------------- router

  /** `agent_router(state)`: an update carrying only `agent_name`, as the state has it. */
  function AgentRouter(s: SystemState): (u: Update)
    ensures u.routing.None? && u.agentIO.None?
    ensures u.agentName == Some(s.agentName)
  {
    Update(Some(s.agentName), None, None)
  }

  /** The router's update changes nothing in the state it is merged into. */
  lemma RouterKeepsState(s: SystemState)
    ensures Apply(s, AgentRouter(s)) == s
  {
  }

  /** The path map of the router's conditional edges. */
  const RouteTable: map<Option<string>, string> :=
    map[Some(AgentNodes.MarketAgent) := AgentNodes.MarketAgent,
        Some(AgentNodes.GovAgent) := AgentNodes.GovAgent,
        None := End]

  /** Looking up an `agent_name` that is not in the path map fails. */
  datatype RouteError = UnknownRoute(agentName: Option<string>)

  /** Where the router's conditional edges lead from a state. */
  function Route(s: SystemState): (r: Result<string, RouteError>)
    ensures r.Ok? <==> s.agentName in RouteTable
  {
    if s.agentName in RouteTable then Ok(RouteTable[s.agentName]) else Err(UnknownRoute(s.agentName))
  }

  /**
   * The table sends each agent's name to that agent's node and a missing name to END,
   * and nothing else is routed.
   */
  lemma RouteTableEntries(s: SystemState)
    ensures RouteTable.Keys == {Some(AgentNodes.MarketAgent), Some(AgentNodes.GovAgent), None}
    ensures s.agentName == Some(AgentNodes.MarketAgent) ==> Route(s) == Ok(AgentNodes.MarketAgent)
    ensures s.agentName == Some(AgentNodes.GovAgent) ==> Route(s) == Ok(AgentNodes.GovAgent)
    ensures s.agentName.None? ==> Route(s) == Ok(End)
    ensures (s.agentName.Some? && s.agentName.value != AgentNodes.MarketAgent &&
             s.agentName.value != AgentNodes.GovAgent) ==> Route(s).Err?
  {
  }

  // ---------------------------------------------------------------- user input

  /**
   * `get_user_input(state)` with `resumed` the value the interrupt resumed with: back
   * to the agent that ran last, with the new input, or to END when none did.
   */
  function GetUserInput(s: SystemState, resumed: Json): (u: Update)
    ensures u.agentName.None?
    ensures u.routing.Some? && u.routing.value.previous == Some(UserInputStep)
    ensures s.routing.previous.Some? ==>
      u.routing.value.next == s.routing.previous && u.agentIO == Some(AgentIO(Some(resumed), None))
    ensures s.routing.previous.None? ==>
      u.routing.value.next == Some(End) && u.agentIO.None?
  {
    if s.routing.previous.Some? then
      Update(None, Some(Routing(s.routing.previous, Some(UserInputStep))), Some(AgentIO(Some(resumed), None)))
    else
      Update(None, Some(Routing(Some(End), Some(UserInputStep))), None)
  }

  /**
   * After the user-input step the state goes back to whoever answered last, who finds
   * the new input under `user_input`; with nobody to go back to, the state's input and
   * output are kept and the workflow ends.
   */
  lemma UserInputResumesPrevious(s: SystemState, resumed: Json)
    ensures var t := Apply(s, GetUserInput(s, resumed));
      && t.workflowId == s.workflowId && t.agentName == s.agentName
      && t.routing.previous == Some(UserInputStep)
      && (s.routing.previous.Some? ==>
            t.routing.next == s.routing.previous && t.agentIO.userInput == Some(resumed) &&
            t.agentIO.agentOutput.None?)
      && (s.routing.previous.None? ==> t.routing.next == Some(End) && t.agentIO == s.agentIO)
  {
  }

  // ---------------------------------------------------------------- graph

  /** The graph `main.py` builds. */
  function TopGraph(): Shape {
    Shape({RouterNode, AgentNodes.MarketAgent, AgentNodes.GovAgent},
          {(Start, RouterNode)},
          map[RouterNode := RouteTable])
  }

  /**
   * The graph is complete, with exactly the router and the two agents as nodes (the
   * user-input step is not one of them); START leads only to the router, the router
   * to either agent or END, and the agents lead nowhere further.
   */
  lemma TopGraphShape()
    ensures Complete(TopGraph())
    ensures TopGraph().nodes == {RouterNode, AgentNodes.MarketAgent, AgentNodes.GovAgent}
    ensures "get_user_input" !in TopGraph().nodes && UserInputStep !in TopGraph().nodes
    ensures Successors(TopGraph(), Start) == {RouterNode}
    ensures Successors(TopGraph(), RouterNode) == {AgentNodes.MarketAgent, AgentNodes.GovAgent, End}
    ensures Successors(TopGraph(), AgentNodes.MarketAgent) == {}
    ensures Successors(TopGraph(), AgentNodes.GovAgent) == {}
  {
    var g := TopGraph();
    assert (Start, RouterNode) in g.edges;
    assert RouteTable[None] == End;
    assert RouteTable[Some(AgentNodes.MarketAgent)] == AgentNodes.MarketAgent;
    assert RouteTable[Some(AgentNodes.GovAgent)] == AgentNodes.GovAgent;
    assert RouteTable.Values == {AgentNodes.MarketAgent, AgentNodes.GovAgent, End};
  }

  /** The module-level builder calls of `main.py`. */
  method BuildTopGraph() returns (g: StateGraph)
    ensures fresh(g)
    ensures g.Current() == TopGraph()
  {
    g := new StateGraph();
    g.AddNode(RouterNode);
    g.AddNode(AgentNodes.MarketAgent);
    g.AddNode(AgentNodes.GovAgent);
    g.AddEdge(Start, RouterNode);
    g.AddConditionalEdges(RouterNode, RouteTable);
  }

  // ---------------------------------------------------------------- agent nodes

  /**
   * `market_price_agent(state)` and `gov_scheme_agent(state)` return their compiled
   * subgraph. LangGraph runs a node result that is itself runnable on the node's input,
   * so each node's effect is a run of its subgraph: START, the agent node, END.
   */
  datatype NodeFailure = AgentFailed(error: AgentNodes.NodeError)

  /** A subgraph's final state as the parent merges it: an update carrying every key. */
  function WholeState(t: SystemState): Update {
    Update(Some(t.agentName), Some(t.routing), Some(t.agentIO))
  }

  /**
   * Merging the subgraph's final state into the parent gives the same state as merging
   * the subgraph node's own update.
   */
  lemma SubgraphFinalStateMergesAsUpdate(s: SystemState, u: Update)
    ensures Apply(s, WholeState(Apply(s, u))) == Apply(s, u)
  {
  }

  /**
   * `market_price_agent(state)`: its subgraph's single node runs on the state, and its
   * update reaches the state, handing control back with `previous` naming the agent.
   */
  method MarketPriceNode(s: SystemState, history: AgentNodes.History, render: AgentNodes.Renderer,
                         respond: string -> Json)
    returns (r: Result<Update, NodeFailure>)
    modifies history
    ensures r.Ok? <==> s.agentIO.userInput.Some?
    ensures r.Ok? ==> Apply(s, r.value).routing == Routing(Some(End), Some(AgentNodes.MarketAgent))
    ensures s.agentIO.userInput.Some? && !Truthy(s.agentIO.userInput.value) ==>
      r.Ok? && Apply(s, r.value).agentIO.agentOutput == Some(JString(AgentNodes.NoMarketData)) &&
      unchanged(history)
    ensures s.agentIO.userInput.Some? && Truthy(s.agentIO.userInput.value) ==>
      |history.messages| == |old(history.messages)| + 1 &&
      history.messages[..|old(history.messages)|] == old(history.messages) &&
      r.Ok? && Apply(s, r.value).agentIO.agentOutput == Some(history.messages[|old(history.messages)|].agentResponse)
  {
    var answer := AgentNodes.MarketPriceAgent(s, history, render, respond);
    match answer {
      case Ok(u) => r := Ok(u);
      case Err(e) => r := Err(AgentFailed(e));
    }
  }

  /** `gov_scheme_agent(state)`: its subgraph's single node runs on the state. */
  method GovSchemeNode(s: SystemState, history: AgentNodes.History, render: AgentNodes.Renderer,
                       respond: string -> Json)
    returns (r: Result<Update, NodeFailure>)
    modifies history
    ensures r.Ok? <==> s.agentIO.userInput.Some?
    ensures r.Ok? ==> Apply(s, r.value).routing == Routing(Some(End), Some(AgentNodes.GovAgent))
    ensures s.agentIO.userInput.Some? && !Truthy(s.agentIO.userInput.value) ==>
      r.Ok? && Apply(s, r.value).agentIO.agentOutput == Some(JString(AgentNodes.GovFallback)) &&
      unchanged(history)
    ensures s.agentIO.userInput.Some? && Truthy(s.agentIO.userInput.value) ==>
      |history.messages| == |old(history.messages)| + 1 &&
      history.messages[..|old(history.messages)|] == old(history.messages) &&
      r.Ok? && Apply(s, r.value).agentIO.agentOutput == Some(history.messages[|old(history.messages)|].agentResponse)
  {
    var answer := AgentNodes.GovSchemeAgent(s, history, render, respond);
    match answer {
      case Ok(u) => r := Ok(u);
      case Err(e) => r := Err(AgentFailed(e));
    }
  }
}
