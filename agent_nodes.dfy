/**
 * The node each sub-agent graph runs (`MarketPriceAgent` and `GovSchemeAgent`): with
 * a truthy user input it asks its agent, appends one turn to its conversation history,
 * saves the history under the workflow id and returns the agent's answer; with a falsy
 * one it returns a canned answer and leaves the history alone. Either way it hands
 * control back: `next` is END and `previous` is its own name.
 *
 * The agent call (`execute_agent_safely`, then `model_dump()` of its data) is the
 * function `respond`; Python's `str()` of the history list and of the input, which the
 * prompts embed, is the `Renderer`; the loaded history is the `History` object passed
 * in, since `load_or_create` is not part of this model.
 */
module AgentNodes {
  import opened Wrappers
  import opened Json
  import opened Text
  import opened States
  import opened Graphs

  /** The node names, which are also the `agent_type` of each history. */
  const MarketAgent := "market_price_agent"
  const GovAgent := "gov_scheme_agent"

  /** The answers given when the user input is falsy. */
  const NoMarketData := "No data found!!!"
  const GovFallback := "Sorry something went wrong!!!"

  /** One history entry: the prompt sent and the agent's answer. */
  datatype Turn = Turn(userInput: string, agentResponse: Json)

  /** Python's `str()` of the history's message list and of the user input. */
  datatype Renderer = Renderer(turns: seq<Turn> -> string, value: Json -> string)

  /** Reading `state['agent_input_output']['user_input']` when the key is missing. */
  datatype NodeError = KeyError(key: string)

  /** An agent's conversation history for one workflow, as loaded, with what `save` stored. */
  class History {
    const agentType: string
    var messages: seq<Turn>
    /** The messages `save` last stored for each workflow id. */
    var persisted: map<string, seq<Turn>>

    constructor (agentType: string, messages: seq<Turn>)
      ensures this.agentType == agentType && this.messages == messages && persisted == map[]
    {
      this.agentType := agentType;
      this.messages := messages;
      persisted := map[];
    }

    /** `messages.append(turn)` */
    method Append(turn: Turn)
      modifies this
      ensures messages == old(messages) + [turn]
      ensures persisted == old(persisted)
    {
      messages := messages + [turn];
    }

    /** `save(workflow_id)`: stores the current messages for the workflow. */
    method Save(workflowId: string)
      modifies this
      ensures messages == old(messages)
      ensures persisted == old(persisted)[workflowId := messages]
    {
      persisted := persisted[workflowId := messages];
    }
  }

  // ---------------------------------------------------------------- prompts

  const HistoryHeading := "\n        # Conversation History\n        "
  const InputHeading := "\n        \n        # User Input\n        "
  const PromptEnd := "\n        "
  const WorkflowHeading := "\n        # Workflow ID\n        "

  /** The market-price agent's prompt: the rendered history, then the rendered input. */
  function MarketPrompt(history: string, input: string): string {
    HistoryHeading + history + InputHeading + input + PromptEnd
  }

  /** The scheme agent's prompt: the workflow id, the rendered history, then the input. */
  function GovPrompt(workflowId: string, history: string, input: string): string {
    WorkflowHeading + workflowId + "\n" + MarketPrompt(history, input)
  }

  /** The market-price prompt shows the agent the history it had and the user's input. */
  lemma MarketPromptMentions(history: string, input: string)
    ensures Contains(MarketPrompt(history, input), history)
    ensures Contains(MarketPrompt(history, input), input)
  {
    var p := MarketPrompt(history, input);
    assert p == HistoryHeading + history + (InputHeading + input + PromptEnd);
    ContainsAt(HistoryHeading, history, InputHeading + input + PromptEnd);
    ContainsAt(HistoryHeading + history + InputHeading, input, PromptEnd);
  }

  /** The scheme prompt also shows the agent the workflow id. */
  lemma GovPromptMentions(workflowId: string, history: string, input: string)
    ensures Contains(GovPrompt(workflowId, history, input), workflowId)
    ensures Contains(GovPrompt(workflowId, history, input), history)
    ensures Contains(GovPrompt(workflowId, history, input), input)
  {
    var p := GovPrompt(workflowId, history, input);
    var market := MarketPrompt(history, input);
    assert p == WorkflowHeading + workflowId + ("\n" + market);
    assert p == (WorkflowHeading + workflowId + "\n") + market + "";
    ContainsAt(WorkflowHeading, workflowId, "\n" + market);
    MarketPromptMentions(history, input);
    ContainsWithin(WorkflowHeading + workflowId + "\n", market, "", history);
    ContainsWithin(WorkflowHeading + workflowId + "\n", market, "", input);
  }

  // ---------------------------------------------------------------- node transitions

  /** The update both branches of an agent node return. */
  function Reply(agent: string, output: Json): Update {
    Update(None, Some(Routing(Some(End), Some(agent))), Some(AgentIO(None, Some(output))))
  }

  /** After a node's reply the workflow is finished and remembers which agent answered. */
  lemma ReplyHandsBack(s: SystemState, agent: string, output: Json)
    ensures Apply(s, Reply(agent, output)).routing == Routing(Some(End), Some(agent))
    ensures Apply(s, Reply(agent, output)).agentIO == AgentIO(None, Some(output))
    ensures Apply(s, Reply(agent, output)).agentName == s.agentName
    ensures Apply(s, Reply(agent, output)).workflowId == s.workflowId
  {
  }

  /**
   * The common turn of both agents: ask the agent, append the prompt and its answer
   * to the history, save it under the workflow id, and give the answer back.
   */
  method TakeTurn(history: History, workflowId: string, prompt: string, respond: string -> Json)
    returns (output: Json)
    modifies history
    ensures output == respond(prompt)
    ensures history.messages == old(history.messages) + [Turn(prompt, output)]
    ensures history.persisted == old(history.persisted)[workflowId := history.messages]
  {
    var result := respond(prompt);
    history.Append(Turn(prompt, result));
    history.Save(workflowId);
    output := result;
  }

  /** `MarketPriceAgent(state)` */
  method MarketPriceAgent(state: SystemState, history: History, render: Renderer,
                          respond: string -> Json)
    returns (r: Result<Update, NodeError>)
    modifies history
    ensures state.agentIO.userInput.None? ==> r == Err(KeyError("user_input")) && unchanged(history)
    ensures r.Ok? ==> r.value.routing == Some(Routing(Some(End), Some(MarketAgent)))
    ensures state.agentIO.userInput.Some? && !Truthy(state.agentIO.userInput.value) ==>
      r == Ok(Reply(MarketAgent, JString(NoMarketData))) && unchanged(history)
    ensures state.agentIO.userInput.Some? && Truthy(state.agentIO.userInput.value) ==>
      var prompt := MarketPrompt(render.turns(old(history.messages)), render.value(state.agentIO.userInput.value));
      && history.messages == old(history.messages) + [Turn(prompt, respond(prompt))]
      && history.persisted == old(history.persisted)[state.workflowId := history.messages]
      && r == Ok(Reply(MarketAgent, respond(prompt)))
  {
    if state.agentIO.userInput.None? {
      return Err(KeyError("user_input"));
    }
    var userInput := state.agentIO.userInput.value;
    if Truthy(userInput) {
      var prompt := MarketPrompt(render.turns(history.messages), render.value(userInput));
      var output := TakeTurn(history, state.workflowId, prompt, respond);
      return Ok(Reply(MarketAgent, output));
    }
    return Ok(Reply(MarketAgent, JString(NoMarketData)));
  }

  /** `GovSchemeAgent(state)` */
  method GovSchemeAgent(state: SystemState, history: History, render: Renderer,
                        respond: string -> Json)
    returns (r: Result<Update, NodeError>)
    modifies history
    ensures state.agentIO.userInput.None? ==> r == Err(KeyError("user_input")) && unchanged(history)
    ensures r.Ok? ==> r.value.routing == Some(Routing(Some(End), Some(GovAgent)))
    ensures state.agentIO.userInput.Some? && !Truthy(state.agentIO.userInput.value) ==>
      r == Ok(Reply(GovAgent, JString(GovFallback))) && unchanged(history)
    ensures state.agentIO.userInput.Some? && Truthy(state.agentIO.userInput.value) ==>
      var prompt := GovPrompt(state.workflowId, render.turns(old(history.messages)),
                              render.value(state.agentIO.userInput.value));
      && history.messages == old(history.messages) + [Turn(prompt, respond(prompt))]
      && history.persisted == old(history.persisted)[state.workflowId := history.messages]
      && r == Ok(Reply(GovAgent, respond(prompt)))
  {
    var workflowId := state.workflowId;
    if state.agentIO.userInput.None? {
      return Err(KeyError("user_input"));
    }
    var userInput := state.agentIO.userInput.value;
    if Truthy(userInput) {
      var prompt := GovPrompt(workflowId, render.turns(history.messages), render.value(userInput));
      var output := TakeTurn(history, workflowId, prompt, respond);
      return Ok(Reply(GovAgent, output));
    }
    return Ok(Reply(GovAgent, JString(GovFallback)));
  }

  // ---------------------------------------------------------------- subgraphs

  /** The market-price subgraph: START, then `market_price_agent`, then END. */
  method BuildMarketPriceGraph() returns (g: StateGraph)
    ensures fresh(g)
    ensures g.Current() == SingleNode(MarketAgent)
  {
    g := BuildSingleNodeGraph(MarketAgent);
  }

  /** The scheme subgraph: START, then `gov_scheme_agent`, then END. */
  method BuildGovSchemeGraph() returns (g: StateGraph)
    ensures fresh(g)
    ensures g.Current() == SingleNode(GovAgent)
  {
    g := BuildSingleNodeGraph(GovAgent);
  }
}
