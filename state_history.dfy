/**
 * The per-workflow state records kept in Redis: the routing pair, the final output,
 * the status, the workflow name and the current sub-agent. Each record has a save,
 * which writes its key with `SETEX`, and a load, which reads it, resets its expiry
 * and falls back to a fixed default when the id is empty, the key is missing or
 * empty, or anything fails. No save or load raises.
 */
module StateHistory {
  import opened Wrappers
  import opened Json
  import opened RedisStore
  import opened StateKeys

  // ---------------------------------------------------------------- shared

  /** Python truthiness of what `GET` answered: a stored, non-empty value. */
  predicate Found(data: map<string, string>, key: string) {
    key in data && data[key] != ""
  }

  /** The expiries after a load: reset on the key read when it held a value and `EXPIRE` did not fail. */
  function AfterRead(ttl: map<string, nat>, key: string, found: bool, expireFailure: bool, expiry: nat)
    : (r: map<string, nat>)
    ensures r.Keys == ttl.Keys + (if found && !expireFailure then {key} else {})
    ensures forall k :: k in ttl && k != key ==> r[k] == ttl[k]
    ensures found && !expireFailure ==> r[key] == expiry
    ensures !(found && !expireFailure) ==> r == ttl
  {
    if found && !expireFailure then ttl[key := expiry] else ttl
  }

  /** What a load of a plain-text record returns: the stored text, or `default` when there is none. */
  function TextLoaded(data: map<string, string>, workflowId: string, r: Record, default: string,
                      failure: bool): (text: string)
    ensures workflowId == "" || failure ==> text == default
    ensures workflowId != "" && !failure ==>
              text == if Found(data, RecordKey(workflowId, r)) then data[RecordKey(workflowId, r)] else default
  {
    if workflowId == "" || failure then default
    else match Lookup(data, RecordKey(workflowId, r))
      case None => default
      case Some(v) => if v == "" then default else v
  }

  /** A plain-text record reads back as saved, except that an empty text reads as the default. */
  lemma TextRoundTrip(data: map<string, string>, workflowId: string, r: Record, default: string, text: string)
    requires workflowId != ""
    ensures TextLoaded(data[RecordKey(workflowId, r) := text], workflowId, r, default, false) ==
            if text == "" then default else text
  {
  }

  /** Writing any other record, of any workflow, leaves what a plain-text load returns unchanged. */
  lemma TextIgnoresOtherWrites(data: map<string, string>, workflowId: string, r: Record, default: string,
                               failure: bool, otherId: string, other: Record, value: string)
    requires otherId != workflowId || other != r
    ensures TextLoaded(data[RecordKey(otherId, other) := value], workflowId, r, default, failure) ==
            TextLoaded(data, workflowId, r, default, failure)
  {
    OtherRecordOtherKey(workflowId, r, otherId, other);
  }

  /** Two different (workflow, record) pairs are stored under different keys. */
  lemma OtherRecordOtherKey(id1: string, r1: Record, id2: string, r2: Record)
    requires id1 != id2 || r1 != r2
    ensures RecordKey(id1, r1) != RecordKey(id2, r2)
  {
    if r1 != r2 {
      RecordKeysDistinct(id1, r1, id2, r2);
    } else if RecordKey(id1, r1) == RecordKey(id2, r2) {
      RecordKeyInjective(id1, id2, r1);
    }
  }

  // ---------------------------------------------------------------- routing_state_history.py

  /** The routing record: exactly the keys `next_agent` and `previous_agent`. */
  function RoutingRecord(nextAgent: string, previousAgent: string): (m: map<string, Json>)
    ensures m.Keys == {"next_agent", "previous_agent"}
  {
    map["next_agent" := JString(nextAgent), "previous_agent" := JString(previousAgent)]
  }

  /** The empty routing pair a failed or empty load returns. */
  const EmptyRouting := RoutingRecord("", "")

  /** `save_routing_state` */
  method SaveRoutingState(store: Store, codec: Codec, workflowId: string, nextAgent: string,
                          previousAgent: string, failure: bool) returns (saved: bool)
    requires store.Valid()
    modifies store
    ensures store.Valid()
    ensures saved <==> workflowId != "" && !failure
    ensures saved ==> var key := RecordKey(workflowId, RoutingState);
      && store.data == old(store.data)[key := codec.dumps(JObject(RoutingRecord(nextAgent, previousAgent)))]
      && store.ttl == old(store.ttl)[key := store.expiry]
    ensures !saved ==> store.data == old(store.data) && store.ttl == old(store.ttl)
  {
    if workflowId == "" {
      return false;
    }
    var key := StateKey(workflowId) + ":routing_state";
    var routingStateJson := codec.dumps(JObject(RoutingRecord(nextAgent, previousAgent)));
    var result := store.SetEx(key, store.expiry, routingStateJson, failure);
    match result {
      case Ok(ok) => saved := ok;
      case Err(_) => saved := false;
    }
  }

  /** What `load_routing_state` returns from a store holding `data`. */
  function RoutingLoaded(codec: Codec, data: map<string, string>, workflowId: string, failure: bool)
    : map<string, Json>
  {
    var key := RecordKey(workflowId, RoutingState);
    if workflowId == "" || failure || !Found(data, key) then EmptyRouting
    else match codec.loads(data[key])
      case Some(JObject(fields)) => fields
      case _ => EmptyRouting
  }

  /** `load_routing_state` */
  method LoadRoutingState(store: Store, codec: Codec, workflowId: string, getFailure: bool,
                          expireFailure: bool) returns (routingState: map<string, Json>)
    requires store.Valid()
    modifies store
    ensures store.Valid() && store.data == old(store.data)
    ensures routingState == RoutingLoaded(codec, old(store.data), workflowId, getFailure)
    ensures var key := RecordKey(workflowId, RoutingState);
      store.ttl == AfterRead(old(store.ttl), key, workflowId != "" && !getFailure && Found(old(store.data), key),
                             expireFailure, store.expiry)
  {
    if workflowId == "" {
      return EmptyRouting;
    }
    var key := StateKey(workflowId) + ":routing_state";
    var got := store.Get(key, getFailure);
    if got.Err? || got.value.None? || got.value.value == "" {
      return EmptyRouting;
    }
    var _ := store.Expire(key, store.expiry, expireFailure);
    match codec.loads(got.value.value) {
      case Some(JObject(fields)) => routingState := fields;
      case _ => routingState := EmptyRouting;
    }
  }

  /** A saved routing pair loads back unchanged. */
  lemma RoutingRoundTrip(codec: Codec, data: map<string, string>, workflowId: string, nextAgent: string,
                         previousAgent: string)
    requires RoundTripsOn(codec, JObject(RoutingRecord(nextAgent, previousAgent)))
    requires workflowId != ""
    ensures var saved := data[RecordKey(workflowId, RoutingState) :=
                              codec.dumps(JObject(RoutingRecord(nextAgent, previousAgent)))];
      RoutingLoaded(codec, saved, workflowId, false) == RoutingRecord(nextAgent, previousAgent)
  {
  }

  /** A stored value that is not a JSON object loads as the empty routing pair. */
  lemma RoutingNonObjectIsEmpty(codec: Codec, data: map<string, string>, workflowId: string)
    requires var key := RecordKey(workflowId, RoutingState);
      key in data && (codec.loads(data[key]).None? || !codec.loads(data[key]).value.JObject?)
    ensures RoutingLoaded(codec, data, workflowId, false) == EmptyRouting
  {
  }

  /** Writing any other record leaves the routing pair a load returns unchanged. */
  lemma RoutingIgnoresOtherWrites(codec: Codec, data: map<string, string>, workflowId: string, failure: bool,
                                  otherId: string, other: Record, value: string)
    requires otherId != workflowId || other != RoutingState
    ensures RoutingLoaded(codec, data[RecordKey(otherId, other) := value], workflowId, failure) ==
            RoutingLoaded(codec, data, workflowId, failure)
  {
    OtherRecordOtherKey(workflowId, RoutingState, otherId, other);
  }

  // ---------------------------------------------------------------- final_output.py

  /** `save_final_output` */
  method SaveFinalOutput(store: Store, codec: Codec, workflowId: string, finalOutput: map<string, Json>,
                         failure: bool) returns (saved: bool)
    requires store.Valid()
    modifies store
    ensures store.Valid()
    ensures saved <==> workflowId != "" && !failure
    ensures saved ==> var key := RecordKey(workflowId, FinalOutput);
      && store.data == old(store.data)[key := codec.dumps(JObject(finalOutput))]
      && store.ttl == old(store.ttl)[key := store.expiry]
    ensures !saved ==> store.data == old(store.data) && store.ttl == old(store.ttl)
  {
    if workflowId == "" {
      return false;
    }
    var key := StateKey(workflowId) + ":final_output";
    var finalOutputJson := codec.dumps(JObject(finalOutput));
    var result := store.SetEx(key, store.expiry, finalOutputJson, failure);
    match result {
      case Ok(ok) => saved := ok;
      case Err(_) => saved := false;
    }
  }

  /** What `load_workflow_final_output` returns: the decoded value, or `{}`. */
  function FinalOutputLoaded(codec: Codec, data: map<string, string>, workflowId: string, failure: bool): Json {
    var key := RecordKey(workflowId, FinalOutput);
    if workflowId == "" || failure || !Found(data, key) then JObject(map[])
    else codec.loads(data[key]).GetOr(JObject(map[]))
  }

  /** `load_workflow_final_output` */
  method LoadFinalOutput(store: Store, codec: Codec, workflowId: string, getFailure: bool,
                         expireFailure: bool) returns (finalOutput: Json)
    requires store.Valid()
    modifies store
    ensures store.Valid() && store.data == old(store.data)
    ensures finalOutput == FinalOutputLoaded(codec, old(store.data), workflowId, getFailure)
    ensures var key := RecordKey(workflowId, FinalOutput);
      store.ttl == AfterRead(old(store.ttl), key, workflowId != "" && !getFailure && Found(old(store.data), key),
                             expireFailure, store.expiry)
  {
    if workflowId == "" {
      return JObject(map[]);
    }
    var key := StateKey(workflowId) + ":final_output";
    var got := store.Get(key, getFailure);
    if got.Err? || got.value.None? || got.value.value == "" {
      return JObject(map[]);
    }
    var _ := store.Expire(key, store.expiry, expireFailure);
    finalOutput := codec.loads(got.value.value).GetOr(JObject(map[]));
  }

  /** A saved final output loads back unchanged. */
  lemma FinalOutputRoundTrip(codec: Codec, data: map<string, string>, workflowId: string,
                             finalOutput: map<string, Json>)
    requires RoundTripsOn(codec, JObject(finalOutput))
    requires workflowId != ""
    ensures var saved := data[RecordKey(workflowId, FinalOutput) := codec.dumps(JObject(finalOutput))];
      FinalOutputLoaded(codec, saved, workflowId, false) == JObject(finalOutput)
  {
  }

  /** With nothing stored, or a failed read, the final output loads as `{}`. */
  lemma FinalOutputAbsentIsEmpty(codec: Codec, data: map<string, string>, workflowId: string, failure: bool)
    requires RecordKey(workflowId, FinalOutput) !in data || failure
    ensures FinalOutputLoaded(codec, data, workflowId, failure) == JObject(map[])
  {
  }

  // ---------------------------------------------------------------- workflow_status_history.py

  const Processing := "PROCESSING"

  /** `save_workflow_status` */
  method SaveWorkflowStatus(store: Store, workflowId: string, status: string, failure: bool)
    returns (saved: bool)
    requires store.Valid()
    modifies store
    ensures store.Valid()
    ensures saved <==> workflowId != "" && !failure
    ensures saved ==> var key := RecordKey(workflowId, Status);
      store.data == old(store.data)[key := status] && store.ttl == old(store.ttl)[key := store.expiry]
    ensures !saved ==> store.data == old(store.data) && store.ttl == old(store.ttl)
  {
    if workflowId == "" {
      return false;
    }
    var key := StateKey(workflowId) + ":status";
    var result := store.SetEx(key, store.expiry, status, failure);
    match result {
      case Ok(ok) => saved := ok;
      case Err(_) => saved := false;
    }
  }

  /** `load_workflow_status`; `client` is what `get_redis_client` returned, null when unavailable. */
  method LoadWorkflowStatus(client: Store?, workflowId: string, getFailure: bool, expireFailure: bool)
    returns (status: string)
    requires client != null ==> client.Valid()
    modifies client
    ensures client == null ==> status == Processing
    ensures client != null ==> client.Valid() && client.data == old(client.data)
    ensures client != null ==> status == TextLoaded(old(client.data), workflowId, Status, Processing, getFailure)
    ensures client != null ==> var key := RecordKey(workflowId, Status);
      client.ttl == AfterRead(old(client.ttl), key, workflowId != "" && !getFailure && Found(old(client.data), key),
                              expireFailure, client.expiry)
  {
    if workflowId == "" {
      return Processing;
    }
    var key := StateKey(workflowId) + ":status";
    if client == null {
      return Processing;
    }
    var got := client.Get(key, getFailure);
    if got.Err? || got.value.None? || got.value.value == "" {
      return Processing;
    }
    var _ := client.Expire(key, client.expiry, expireFailure);
    status := got.value.value;
  }

  // ---------------------------------------------------------------- workflow_name_history.py

  /** `save_workflow_name`; `client` is what `get_redis_client` returned, null when unavailable. */
  method SaveWorkflowName(client: Store?, workflowId: string, workflowName: string, failure: bool)
    returns (saved: bool)
    requires client != null ==> client.Valid()
    modifies client
    ensures client != null ==> client.Valid()
    ensures saved <==> workflowId != "" && client != null && !failure
    ensures saved ==> var key := RecordKey(workflowId, WorkflowName);
      client.data == old(client.data)[key := workflowName] && client.ttl == old(client.ttl)[key := client.expiry]
    ensures !saved && client != null ==> client.data == old(client.data) && client.ttl == old(client.ttl)
  {
    if workflowId == "" {
      return false;
    }
    var key := StateKey(workflowId) + ":workflow_name";
    if client == null {
      return false;
    }
    var result := client.SetEx(key, client.expiry, workflowName, failure);
    match result {
      case Ok(ok) => saved := ok;
      case Err(_) => saved := false;
    }
  }

  /** `load_workflow_name`; an unavailable client fails like any other error. */
  method LoadWorkflowName(client: Store?, workflowId: string, getFailure: bool, expireFailure: bool)
    returns (workflowName: string)
    requires client != null ==> client.Valid()
    modifies client
    ensures client == null ==> workflowName == ""
    ensures client != null ==> client.Valid() && client.data == old(client.data)
    ensures client != null ==> workflowName == TextLoaded(old(client.data), workflowId, WorkflowName, "", getFailure)
    ensures client != null ==> var key := RecordKey(workflowId, WorkflowName);
      client.ttl == AfterRead(old(client.ttl), key, workflowId != "" && !getFailure && Found(old(client.data), key),
                              expireFailure, client.expiry)
  {
    if workflowId == "" {
      return "";
    }
    var key := StateKey(workflowId) + ":workflow_name";
    if client == null {
      return "";
    }
    var got := client.Get(key, getFailure);
    if got.Err? || got.value.None? || got.value.value == "" {
      return "";
    }
    var _ := client.Expire(key, client.expiry, expireFailure);
    workflowName := got.value.value;
  }

  // ---------------------------------------------------------------- sub_agent_history.py

  /** `save_sub_agent` */
  method SaveSubAgent(store: Store, workflowId: string, subAgent: string, failure: bool) returns (saved: bool)
    requires store.Valid()
    modifies store
    ensures store.Valid()
    ensures saved <==> workflowId != "" && !failure
    ensures saved ==> var key := RecordKey(workflowId, SubAgent);
      store.data == old(store.data)[key := subAgent] && store.ttl == old(store.ttl)[key := store.expiry]
    ensures !saved ==> store.data == old(store.data) && store.ttl == old(store.ttl)
  {
    if workflowId == "" {
      return false;
    }
    var key := StateKey(workflowId) + ":sub_agent";
    var result := store.SetEx(key, store.expiry, subAgent, failure);
    match result {
      case Ok(ok) => saved := ok;
      case Err(_) => saved := false;
    }
  }

  /** `load_sub_agent` */
  method LoadSubAgent(store: Store, workflowId: string, getFailure: bool, expireFailure: bool)
    returns (subAgent: string)
    requires store.Valid()
    modifies store
    ensures store.Valid() && store.data == old(store.data)
    ensures subAgent == TextLoaded(old(store.data), workflowId, SubAgent, "", getFailure)
    ensures var key := RecordKey(workflowId, SubAgent);
      store.ttl == AfterRead(old(store.ttl), key, workflowId != "" && !getFailure && Found(old(store.data), key),
                             expireFailure, store.expiry)
  {
    if workflowId == "" {
      return "";
    }
    var key := StateKey(workflowId) + ":sub_agent";
    var got := store.Get(key, getFailure);
    if got.Err? || got.value.None? || got.value.value == "" {
      return "";
    }
    var _ := store.Expire(key, store.expiry, expireFailure);
    subAgent := got.value.value;
  }
}
