/**
 * `save_messages_to_redis`: stores an agent's whole message history for a workflow
 * as one JSON document, replacing whatever was stored before.
 */
module AgentHistory {
  import opened Wrappers
  import opened Json
  import opened RedisStore

  /**
   * `get_message_key(workflow_id, agent_type)`; its module is not part of this model,
   * so the key scheme is a parameter.
   */
  type MessageKey = (string, string) -> string

  /** The one write a save performs, as (key, value), or None when it writes nothing. */
  function MessagesWrite(codec: Codec, messageKey: MessageKey, workflowId: string, agentType: string,
                         messages: Json): (w: Option<(string, string)>)
    ensures w.Some? <==> workflowId != "" && agentType != "" && Truthy(messages)
    ensures w.Some? ==> w.value.0 == messageKey(workflowId, agentType)
  {
    if workflowId == "" || agentType == "" || !Truthy(messages) then None
    else Some((messageKey(workflowId, agentType), codec.dumps(messages)))
  }

  /** After the write, the value stored under the history key decodes back to the messages saved. */
  lemma SavedHistoryDecodes(codec: Codec, messageKey: MessageKey, workflowId: string, agentType: string,
                            messages: Json, data: map<string, string>)
    requires RoundTripsOn(codec, messages)
    requires MessagesWrite(codec, messageKey, workflowId, agentType, messages).Some?
    ensures var w := MessagesWrite(codec, messageKey, workflowId, agentType, messages).value;
      var after := data[w.0 := w.1];
      && Lookup(after, messageKey(workflowId, agentType)).Some?
      && codec.loads(Lookup(after, messageKey(workflowId, agentType)).value) == Some(messages)
  {
  }

  /**
   * `save_messages_to_redis`; `client` is what `get_redis_client` returned, null when
   * unavailable. An empty id or agent type is refused, an empty history is a successful
   * no-op, and otherwise the store's reply is returned.
   */
  method SaveMessages(client: Store?, codec: Codec, messageKey: MessageKey, workflowId: string,
                      agentType: string, messages: Json, failure: bool) returns (saved: bool)
    requires client != null ==> client.Valid()
    modifies client
    ensures client != null ==> client.Valid()
    ensures workflowId == "" || agentType == "" ==> !saved
    ensures workflowId != "" && agentType != "" && !Truthy(messages) ==> saved
    ensures var w := MessagesWrite(codec, messageKey, workflowId, agentType, messages);
      && (w.Some? ==> (saved <==> client != null && !failure))
      && (client != null && saved && w.Some? ==>
            client.data == old(client.data)[w.value.0 := w.value.1] &&
            client.ttl == old(client.ttl)[w.value.0 := client.expiry])
      && (client != null && (w.None? || !saved) ==>
            client.data == old(client.data) && client.ttl == old(client.ttl))
  {
    if workflowId == "" || agentType == "" {
      return false;
    }
    if !Truthy(messages) {
      return true;
    }
    var key := messageKey(workflowId, agentType);
    if client == null {
      return false;
    }
    var messagesJson := codec.dumps(messages);
    var result := client.SetEx(key, client.expiry, messagesJson, failure);
    match result {
      case Ok(ok) => saved := ok;
      case Err(_) => saved := false;
    }
  }
}
