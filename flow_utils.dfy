/**
 * The vault lookup the transition flows share (FlowUtils.retrieveOrderState):
 * the first recorded state, consumed or not, whose persisted linear_id column
 * equals the requested UUID.
 */
module FlowUtils {
  import opened Wrappers
  import opened Corda
  import opened Schema
  import opened State
  import opened Ledger

  /** The custom criterion: the OrderSchemaV1 row of the state has the requested linear id. */
  predicate MatchesLinearId(rec: VaultRecord, linearId: UniqueIdentifier)
  {
    var row := GenerateMappedObject(rec.stateAndRef.state, OrderSchemaV1());
    row.Ok? && row.value.linearId == Some(linearId.id)
  }

  /** The criterion compares only the UUID: the external id and the consumed flag play no part. */
  lemma MatchesExactlyTheUuid(rec: VaultRecord, linearId: UniqueIdentifier)
    ensures MatchesLinearId(rec, linearId) <==> rec.stateAndRef.state.linearId.id == linearId.id
  {
  }

  /** The index of the first matching record, or |vault| when none matches. */
  function FirstMatch(vault: Vault, linearId: UniqueIdentifier): (k: nat)
    ensures k <= |vault|
    ensures k < |vault| ==> MatchesLinearId(vault[k], linearId)
    ensures forall j :: 0 <= j < k ==> !MatchesLinearId(vault[j], linearId)
  {
    if vault == [] then 0
    else if MatchesLinearId(vault[0], linearId) then 0
    else 1 + FirstMatch(vault[1..], linearId)
  }

  /**
   * retrieveOrderState: the first state in query order whose linear id is the
   * requested one, over consumed and unconsumed states alike; None where the
   * source's `get(0)` on an empty page throws.
   */
  function RetrieveOrderState(linearId: UniqueIdentifier, vault: Vault): (r: Option<StateAndRef>)
    ensures r.None? <==> forall i :: 0 <= i < |vault| ==> !MatchesLinearId(vault[i], linearId)
    ensures r.Some? ==> r.value.state.linearId.id == linearId.id
    ensures r.Some? ==> exists k :: && 0 <= k < |vault|
                                    && vault[k].stateAndRef == r.value
                                    && forall j :: 0 <= j < k ==> !MatchesLinearId(vault[j], linearId)
  {
    var k := FirstMatch(vault, linearId);
    if k < |vault| then Some(vault[k].stateAndRef) else None
  }

  /**
   * A superseded version recorded before its successor is the one returned:
   * the lookup does not skip consumed states.
   */
  lemma SupersededVersionReturned(previous: StateAndRef, current: StateAndRef, linearId: UniqueIdentifier)
    requires previous.state.linearId.id == linearId.id
    ensures RetrieveOrderState(linearId, [VaultRecord(previous, Consumed), VaultRecord(current, Unconsumed)])
            == Some(previous)
  {
  }
}
