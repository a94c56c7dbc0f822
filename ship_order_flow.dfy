/**
 * ShipOrderFlow.Initiator: the node retrieves the order state with the given
 * linear id, sets the order's status to the requested one and itself as the
 * owner, and spends the retrieved state into the updated one under a Ship
 * command it signs alone. Sessions are opened with the buyer and the seller,
 * but since they are not required signers they are never asked to sign; they
 * only receive the finalised transaction. Nothing checks the status the order
 * had before.
 */
module ShipOrderFlow {
  import opened Wrappers
  import opened Corda
  import opened State
  import opened Ledger
  import opened Contract
  import opened FlowUtils
  import opened FlowFramework

  method Call(linearId: UniqueIdentifier, orderStatus: int, hub: ServiceHub)
    returns (r: Result<Finalized, FlowError>)
    ensures hub.notaries == [] ==> r == Err(NoNotary)
    ensures hub.notaries != [] && RetrieveOrderState(linearId, hub.vault).None? ==> r == Err(StateNotFound)
    ensures r.Ok? <==> hub.notaries != [] && RetrieveOrderState(linearId, hub.vault).Some?
    ensures r.Ok? ==>
              var input := RetrieveOrderState(linearId, hub.vault).value;
              var tx := r.value.stx.tx;
              && tx.inputs == [input]
              && |tx.outputs| == 1
              && Advanced(input.state, tx.outputs[0], orderStatus, hub.me)
              && tx.commands == [CommandWithParties([hub.me.owningKey], OrderCommand(Ship))]
              && tx.notary == hub.notaries[0]
              && r.value.sessions == Counterparties(Participants(input.state), input.state.buyer, input.state.seller)
              && (set p | p in r.value.sessions) == {input.state.buyer, input.state.seller}
              && r.value.stx.sigs == RequiredSigners(tx) == {hub.me.owningKey}
              && (forall p :: p in r.value.sessions && p.owningKey != hub.me.owningKey ==>
                               p.owningKey !in r.value.stx.sigs)
              && r.value.steps == [Verified, SignedByInitiator, SignaturesCollected, Finalised]
  {
    if hub.notaries == [] {
      return Err(NoNotary);
    }
    var notary := hub.notaries[0];
    var me := hub.me;

    var found := RetrieveOrderState(linearId, hub.vault);
    if found.None? {
      return Err(StateNotFound);
    }
    var stateAndRef := found.value;
    var orderState := stateAndRef.state;

    orderState := WithOrderStatus(orderState, orderStatus);
    orderState := WithOwner(orderState, me);
    var txCommand := CommandWithParties([me.owningKey], OrderCommand(Ship));
    var tx := LedgerTransaction([stateAndRef], [orderState], [txCommand], notary);

    var otherParticipants := Counterparties(Participants(orderState), orderState.buyer, orderState.seller);
    CounterpartiesOfParticipants(orderState, orderState.buyer, orderState.seller);
    OtherCommandsUnchecked(tx, Ship);
    SingleSigner(tx, me.owningKey);
    OnlyInitiatorSigns(tx, me, otherParticipants, true);
    r := VerifySignFinalise(tx, me, otherParticipants, true);
  }

  /**
   * The lookup searches consumed states too and takes the first match, so
   * when the vault lists a spent version of the order before the current one,
   * the input Call spends (its `tx.inputs == [input]`) is the spent version,
   * a state the vault already records as consumed.
   */
  lemma SpendsConsumedVersion(hub: ServiceHub, previous: StateAndRef, current: StateAndRef,
                              linearId: UniqueIdentifier)
    requires hub.vault == [VaultRecord(previous, Consumed), VaultRecord(current, Unconsumed)]
    requires previous.state.linearId.id == linearId.id
    ensures RetrieveOrderState(linearId, hub.vault).Some?
    ensures var input := RetrieveOrderState(linearId, hub.vault).value;
            input == previous && VaultRecord(input, Consumed) in hub.vault
  {
    SupersededVersionReturned(previous, current, linearId);
  }
}
