/**
 * The Redis key scheme of the workflow state: `get_state_key` and the suffix each
 * state module appends to it.
 */
module StateKeys {
  import opened Wrappers

  const Prefix := "workflow:"

  /** `get_state_key(workflow_id)` */
  function StateKey(workflowId: string): string {
    Prefix + workflowId
  }

  /** The workflow id a state key was built from, if it carries the prefix. */
  function WorkflowIdOf(key: string): Option<string> {
    if |key| >= |Prefix| && key[..|Prefix|] == Prefix then Some(key[|Prefix|..]) else None
  }

  /** Dropping the nine-character prefix gives the workflow id back. */
  lemma WorkflowIdOfStateKey(workflowId: string)
    ensures |Prefix| == 9
    ensures WorkflowIdOf(StateKey(workflowId)) == Some(workflowId)
  {
    assert StateKey(workflowId)[..|Prefix|] == Prefix;
  }

  /** Every key with the prefix is the state key of the id it carries. */
  lemma StateKeyOfWorkflowId(key: string, workflowId: string)
    requires WorkflowIdOf(key) == Some(workflowId)
    ensures StateKey(workflowId) == key
  {
    assert key == key[..|Prefix|] + key[|Prefix|..];
  }

  /** Every state key starts with the prefix. */
  lemma StateKeyHasPrefix(workflowId: string)
    ensures |StateKey(workflowId)| >= |Prefix| && StateKey(workflowId)[..|Prefix|] == Prefix
  {
  }

  /** Distinct workflow ids give distinct keys. */
  lemma StateKeyInjective(id1: string, id2: string)
    requires StateKey(id1) == StateKey(id2)
    ensures id1 == id2
  {
    WorkflowIdOfStateKey(id1);
    WorkflowIdOfStateKey(id2);
  }

  /** The five records kept for each workflow. */
  datatype Record = RoutingState | FinalOutput | Status | WorkflowName | SubAgent

  function Suffix(r: Record): string {
    match r
    case RoutingState => ":routing_state"
    case FinalOutput => ":final_output"
    case Status => ":status"
    case WorkflowName => ":workflow_name"
    case SubAgent => ":sub_agent"
  }

  /** The key a record of a workflow is stored under. */
  function RecordKey(workflowId: string, r: Record): (k: string)
    ensures k == StateKey(workflowId) + Suffix(r)
  {
    StateKey(workflowId) + Suffix(r)
  }

  /** Records of different kinds never share a key, whatever the workflow ids. */
  lemma RecordKeysDistinct(id1: string, r1: Record, id2: string, r2: Record)
    requires r1 != r2
    ensures RecordKey(id1, r1) != RecordKey(id2, r2)
  {
    var k1, k2 := RecordKey(id1, r1), RecordKey(id2, r2);
    assert k1[|k1| - 2..] == Suffix(r1)[|Suffix(r1)| - 2..];
    assert k2[|k2| - 2..] == Suffix(r2)[|Suffix(r2)| - 2..];
    assert Suffix(r1)[|Suffix(r1)| - 2..] != Suffix(r2)[|Suffix(r2)| - 2..];
  }

  /** Records of one kind for distinct workflows never share a key. */
  lemma RecordKeyInjective(id1: string, id2: string, r: Record)
    requires RecordKey(id1, r) == RecordKey(id2, r)
    ensures id1 == id2
  {
    var s := Suffix(r);
    assert StateKey(id1) == RecordKey(id1, r)[..|RecordKey(id1, r)| - |s|];
    assert StateKey(id2) == RecordKey(id2, r)[..|RecordKey(id2, r)| - |s|];
    StateKeyInjective(id1, id2);
  }
}
