/**
 * How the state modules' calls on the shared module-level `redis_client` behave as
 * written. `save_workflow_status` awaits `redis_client.setex`, while the routing,
 * final-output and sub-agent modules call `redis_client.setex`, `get` and `expire`
 * without `await`. Whichever kind of client the configuration module provides, one of
 * the two families misbehaves:
 *  - a blocking client runs the command and returns a plain reply; awaiting that reply
 *    raises TypeError, which the surrounding `except` turns into a failure;
 *  - an asyncio client returns a coroutine; one that is never awaited never sends its
 *    command, and the coroutine object is what the code then tests, parses or returns.
 * Redis itself is taken to succeed here: only the client's kind is in question.
 */
module ClientMix {
  import opened Wrappers
  import opened Json
  import opened RedisStore
  import opened StateKeys
  import opened StateHistory

  /** The kind of client `redis_client` is. */
  datatype ClientKind = Blocking | Asyncio

  /** What one call on the client does at a call site that does, or does not, await it. */
  datatype CallOutcome =
    | Completes        // the command runs and the expression's value is its reply
    | RunsThenRaises   // the command runs, then awaiting its plain reply raises TypeError
    | NeverRuns        // the expression's value is a coroutine that is never awaited

  function Call(kind: ClientKind, awaited: bool): (o: CallOutcome)
    ensures o == Completes <==> (kind == Asyncio <==> awaited)
    ensures o == NeverRuns <==> kind == Asyncio && !awaited
    ensures o == RunsThenRaises <==> kind == Blocking && awaited
  {
    match kind
    case Blocking => if awaited then RunsThenRaises else Completes
    case Asyncio => if awaited then Completes else NeverRuns
  }

  /** `save_workflow_status` awaits `redis_client.setex`. */
  const StatusSaveAwaited := true
  /** The routing, final-output and sub-agent modules never await `redis_client`. */
  const SharedCallsAwaited := false

  /** No kind of client makes both call styles complete. */
  lemma MixedCallSitesDisagree(kind: ClientKind)
    ensures Call(kind, StatusSaveAwaited) != Completes || Call(kind, SharedCallsAwaited) != Completes
  {
  }

  /** What a save returns: the reply flag, or the un-awaited coroutine object, which is truthy. */
  datatype SaveReply = Flag(ok: bool) | PendingCoroutine

  /** Whether a caller testing the reply takes the save as successful. */
  predicate Reported(r: SaveReply) {
    r.PendingCoroutine? || r.ok
  }

  /** The store after, and the reply of, the one `setex` of a save, at a call site that awaits or not. */
  function SetExAsWritten(kind: ClientKind, awaited: bool, data: map<string, string>, key: string,
                          value: string): (map<string, string>, SaveReply)
  {
    match Call(kind, awaited)
    case Completes => (data[key := value], Flag(true))
    case RunsThenRaises => (data[key := value], Flag(false))
    case NeverRuns => (data, PendingCoroutine)
  }

  /** `save_workflow_status` as written. */
  function SaveStatusAsWritten(kind: ClientKind, data: map<string, string>, workflowId: string, status: string)
    : (map<string, string>, SaveReply)
  {
    if workflowId == "" then (data, Flag(false))
    else SetExAsWritten(kind, StatusSaveAwaited, data, RecordKey(workflowId, Status), status)
  }

  /** `save_routing_state` as written. */
  function SaveRoutingAsWritten(kind: ClientKind, codec: Codec, data: map<string, string>, workflowId: string,
                                nextAgent: string, previousAgent: string): (map<string, string>, SaveReply)
  {
    if workflowId == "" then (data, Flag(false))
    else SetExAsWritten(kind, SharedCallsAwaited, data, RecordKey(workflowId, RoutingState),
                        codec.dumps(JObject(RoutingRecord(nextAgent, previousAgent))))
  }

  /**
   * `load_routing_state` as written. With a pending coroutine in hand the emptiness test
   * passes, and `json.loads` of the coroutine raises TypeError: the empty pair.
   */
  function LoadRoutingAsWritten(kind: ClientKind, codec: Codec, data: map<string, string>, workflowId: string)
    : map<string, Json>
  {
    if workflowId != "" && Call(kind, SharedCallsAwaited) == NeverRuns then EmptyRouting
    else RoutingLoaded(codec, data, workflowId, false)
  }

  /** `save_final_output` as written. */
  function SaveFinalOutputAsWritten(kind: ClientKind, codec: Codec, data: map<string, string>, workflowId: string,
                                    finalOutput: map<string, Json>): (map<string, string>, SaveReply)
  {
    if workflowId == "" then (data, Flag(false))
    else SetExAsWritten(kind, SharedCallsAwaited, data, RecordKey(workflowId, FinalOutput),
                        codec.dumps(JObject(finalOutput)))
  }

  /** `load_workflow_final_output` as written: a pending coroutine fails to parse, giving `{}`. */
  function LoadFinalOutputAsWritten(kind: ClientKind, codec: Codec, data: map<string, string>, workflowId: string)
    : Json
  {
    if workflowId != "" && Call(kind, SharedCallsAwaited) == NeverRuns then JObject(map[])
    else FinalOutputLoaded(codec, data, workflowId, false)
  }

  /** `save_sub_agent` as written. */
  function SaveSubAgentAsWritten(kind: ClientKind, data: map<string, string>, workflowId: string,
                                 subAgent: string): (map<string, string>, SaveReply)
  {
    if workflowId == "" then (data, Flag(false))
    else SetExAsWritten(kind, SharedCallsAwaited, data, RecordKey(workflowId, SubAgent), subAgent)
  }

  /** What `load_sub_agent` returns: a text, or the coroutine object itself. */
  datatype TextReply = Text(s: string) | CoroutineObject

  /** `load_sub_agent` as written: a pending coroutine is truthy and is returned as it is. */
  function LoadSubAgentAsWritten(kind: ClientKind, data: map<string, string>, workflowId: string): TextReply {
    if workflowId != "" && Call(kind, SharedCallsAwaited) == NeverRuns then CoroutineObject
    else Text(TextLoaded(data, workflowId, SubAgent, "", false))
  }

  /**
   * With a blocking client, `save_workflow_status` writes the status, yet reports
   * failure: the write happened and a later load returns it.
   */
  lemma BlockingStatusSaveWritesButFails(data: map<string, string>, workflowId: string, status: string)
    requires workflowId != "" && status != ""
    ensures var (after, reply) := SaveStatusAsWritten(Blocking, data, workflowId, status);
      && !Reported(reply)
      && TextLoaded(after, workflowId, Status, Processing, false) == status
  {
  }

  /**
   * With an asyncio client, the routing, final-output and sub-agent saves report success
   * but store nothing, and their loads never read: the routing pair and final output
   * load as their defaults and `load_sub_agent` returns a coroutine, whatever was saved.
   */
  lemma AsyncioSavesAreLost(codec: Codec, data: map<string, string>, workflowId: string, nextAgent: string,
                            previousAgent: string, finalOutput: map<string, Json>, subAgent: string)
    requires workflowId != ""
    ensures var (after, reply) := SaveRoutingAsWritten(Asyncio, codec, data, workflowId, nextAgent, previousAgent);
      && Reported(reply) && after == data
      && LoadRoutingAsWritten(Asyncio, codec, after, workflowId) == EmptyRouting
    ensures var (after, reply) := SaveFinalOutputAsWritten(Asyncio, codec, data, workflowId, finalOutput);
      && Reported(reply) && after == data
      && LoadFinalOutputAsWritten(Asyncio, codec, after, workflowId) == JObject(map[])
    ensures var (after, reply) := SaveSubAgentAsWritten(Asyncio, data, workflowId, subAgent);
      && Reported(reply) && after == data
      && LoadSubAgentAsWritten(Asyncio, after, workflowId) == CoroutineObject
  {
  }

  /**
   * Whatever the client's kind, some save of the workflow "w" goes wrong: with a blocking
   * client the status save reports failure after writing; with an asyncio client a saved
   * routing pair does not load back.
   */
  lemma NoClientKindServesBothFamilies(kind: ClientKind, codec: Codec, data: map<string, string>)
    requires RoundTripsOn(codec, JObject(RoutingRecord("market_price_agent", "user_input")))
    ensures kind == Blocking ==> !Reported(SaveStatusAsWritten(kind, data, "w", "COMPLETED").1)
    ensures kind == Asyncio ==>
      var after := SaveRoutingAsWritten(kind, codec, data, "w", "market_price_agent", "user_input").0;
      LoadRoutingAsWritten(kind, codec, after, "w") != RoutingRecord("market_price_agent", "user_input")
  {
    if kind == Asyncio {
      assert RoutingRecord("market_price_agent", "user_input")["next_agent"] != EmptyRouting["next_agent"];
    }
  }

  /**
   * Where a call site's calls complete, the as-written save and load are the ones the
   * `StateHistory` methods model: the save writes its key and reports success, and the
   * load is `RoutingLoaded`, `FinalOutputLoaded` or `TextLoaded`.
   */
  lemma CompletingCallsAreTheModel(kind: ClientKind, codec: Codec, data: map<string, string>, workflowId: string,
                                   nextAgent: string, previousAgent: string, finalOutput: map<string, Json>,
                                   subAgent: string, status: string)
    requires workflowId != ""
    ensures Call(kind, SharedCallsAwaited) == Completes ==>
      && SaveRoutingAsWritten(kind, codec, data, workflowId, nextAgent, previousAgent) ==
           (data[RecordKey(workflowId, RoutingState) := codec.dumps(JObject(RoutingRecord(nextAgent, previousAgent)))],
            Flag(true))
      && LoadRoutingAsWritten(kind, codec, data, workflowId) == RoutingLoaded(codec, data, workflowId, false)
      && SaveFinalOutputAsWritten(kind, codec, data, workflowId, finalOutput) ==
           (data[RecordKey(workflowId, FinalOutput) := codec.dumps(JObject(finalOutput))], Flag(true))
      && LoadFinalOutputAsWritten(kind, codec, data, workflowId) == FinalOutputLoaded(codec, data, workflowId, false)
      && SaveSubAgentAsWritten(kind, data, workflowId, subAgent) ==
           (data[RecordKey(workflowId, SubAgent) := subAgent], Flag(true))
      && LoadSubAgentAsWritten(kind, data, workflowId) == Text(TextLoaded(data, workflowId, SubAgent, "", false))
    ensures Call(kind, StatusSaveAwaited) == Completes ==>
      SaveStatusAsWritten(kind, data, workflowId, status) == (data[RecordKey(workflowId, Status) := status], Flag(true))
  {
  }
}
