/**
 * ConfirmDeliveryFlow.Initiator: the buyer confirms a delivery. The node
 * retrieves the order state with the given linear id and refuses to go on
 * unless it is the buyer; then it sets the requested status, makes the buyer
 * the owner and spends the retrieved state into the updated one under a
 * ConfirmDelivery command it signs alone. Sessions are opened with the
 * shipper and the seller, who are not required signers: they are never asked
 * to sign and only receive the finalised transaction.
 */
module ConfirmDeliveryFlow {
  import opened Wrappers
  import opened Corda
  import opened State
  import opened Ledger
  import opened Contract
  import opened FlowUtils
  import opened FlowFramework

  const BuyerOnlyMessage := "This node identity must be buyer to perform confirm delivery flow."

  method Call(linearId: UniqueIdentifier, orderStatus: int, hub: ServiceHub)
    returns (r: Result<Finalized, FlowError>)
    ensures RetrieveOrderState(linearId, hub.vault).None? ==> r == Err(StateNotFound)
    ensures var found := RetrieveOrderState(linearId, hub.vault);
            found.Some? && !SameParty(hub.me, found.value.state.buyer) ==>
              r == Err(FailedIdentityCheck(BuyerOnlyMessage))
    ensures var found := RetrieveOrderState(linearId, hub.vault);
            found.Some? && SameParty(hub.me, found.value.state.buyer) && hub.notaries == [] ==>
              r == Err(NoNotary)
    ensures var found := RetrieveOrderState(linearId, hub.vault);
            r.Ok? <==> found.Some? && SameParty(hub.me, found.value.state.buyer) && hub.notaries != []
    ensures r.Ok? ==>
              var input := RetrieveOrderState(linearId, hub.vault).value;
              var tx := r.value.stx.tx;
              && SameParty(hub.me, input.state.buyer)
              && tx.inputs == [input]
              && |tx.outputs| == 1
              && Advanced(input.state, tx.outputs[0], orderStatus, input.state.buyer)
              && tx.commands == [CommandWithParties([hub.me.owningKey], OrderCommand(ConfirmDelivery))]
              && tx.notary == hub.notaries[0]
              && r.value.sessions == Counterparties(Participants(input.state), input.state.shipper, input.state.seller)
              && (set p | p in r.value.sessions) == {input.state.shipper, input.state.seller}
              && r.value.stx.sigs == RequiredSigners(tx) == {hub.me.owningKey}
              && (forall p :: p in r.value.sessions && p.owningKey != hub.me.owningKey ==>
                               p.owningKey !in r.value.stx.sigs)
              && r.value.steps == [Verified, SignedByInitiator, SignaturesCollected, Finalised]
  {
    var found := RetrieveOrderState(linearId, hub.vault);
    if found.None? {
      return Err(StateNotFound);
    }
    var stateAndRef := found.value;
    var orderState := stateAndRef.state;
    var me := hub.me;

    // Only the buyer may confirm a delivery; nothing has been changed yet.
    if !SameParty(me, orderState.buyer) {
      return Err(FailedIdentityCheck(BuyerOnlyMessage));
    }

    orderState := WithOrderStatus(orderState, orderStatus);

    if hub.notaries == [] {
      return Err(NoNotary);
    }
    var notary := hub.notaries[0];

    var buyer := orderState.buyer;
    orderState := WithOwner(orderState, buyer);

    var txCommand := CommandWithParties([me.owningKey], OrderCommand(ConfirmDelivery));
    var tx := LedgerTransaction([stateAndRef], [orderState], [txCommand], notary);

    var otherParticipants := Counterparties(Participants(orderState), orderState.shipper, orderState.seller);
    CounterpartiesOfParticipants(orderState, orderState.shipper, orderState.seller);
    OtherCommandsUnchecked(tx, ConfirmDelivery);
    SingleSigner(tx, me.owningKey);
    OnlyInitiatorSigns(tx, me, otherParticipants, true);
    r := VerifySignFinalise(tx, me, otherParticipants, true);
  }
}
