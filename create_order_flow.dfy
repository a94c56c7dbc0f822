/**
 * CreateOrderFlow.Initiator: the buyer issues a new order state naming a
 * seller and a shipper. The transaction consumes nothing, carries one Create
 * command signed by the buyer alone, and is finalised without collecting any
 * counter-signature; the seller and the shipper only receive it.
 */
module CreateOrderFlow {
  import opened Wrappers
  import opened Corda
  import opened Common
  import opened State
  import opened Contract
  import opened FlowFramework

  /** The flow's constructor arguments, stored unchanged. */
  datatype Initiator = Initiator(order: Order, seller: Party, shipper: Party)

  /**
   * Generating the transaction: the initiator is the buyer, the order passes
   * through unchanged, a fresh linear id identifies the new state, the only
   * signer is the initiator, and the counterparties are the participants that
   * are the seller or the shipper.
   */
  function Build(f: Initiator, me: Party, notary: Party, linearId: UniqueIdentifier): (d: Draft)
    ensures d.tx.inputs == [] && d.tx.notary == notary
    ensures d.tx.outputs == [NewOrderState(f.order, me, f.seller, f.shipper, linearId)]
    ensures d.tx.commands == [CommandWithParties([me.owningKey], OrderCommand(Create))]
    ensures RequiredSigners(d.tx) == {me.owningKey}
    ensures forall p :: p in d.counterparties <==>
                          p in Participants(d.tx.outputs[0]) && (p == f.seller || p == f.shipper)
  {
    var orderState := NewOrderState(f.order, me, f.seller, f.shipper, linearId);
    var txCommand := CommandWithParties([me.owningKey], OrderCommand(Create));
    var tx := LedgerTransaction([], [orderState], [txCommand], notary);
    SingleSigner(tx, me.owningKey);
    Draft(tx, Counterparties(Participants(orderState), f.seller, f.shipper))
  }

  /** When the initiator is neither the seller nor the shipper, the sessions go to exactly those two. */
  lemma {:induction false} BuildCounterparties(f: Initiator, me: Party, notary: Party, linearId: UniqueIdentifier)
    requires me != f.seller && me != f.shipper
    ensures var d := Build(f, me, notary, linearId);
            (set p | p in d.counterparties) == {f.seller, f.shipper} && me !in d.counterparties
  {
    var d := Build(f, me, notary, linearId);
    CounterpartiesOfParticipants(d.tx.outputs[0], f.seller, f.shipper);
  }

  /**
   * The built transaction meets every Create rule other than the one on
   * inputs exactly when the order's fields are valid and the initiator is
   * neither the seller nor the shipper.
   */
  lemma BuildMeetsOtherCreateRules(f: Initiator, me: Party, notary: Party, linearId: UniqueIdentifier)
    ensures CreateRulesExceptInputs(Build(f, me, notary, linearId).tx) <==>
              && !SameParty(me, f.seller) && !SameParty(me, f.shipper)
              && OrderFieldsValid(f.order)
  {
  }

  /**
   * The conflict between this flow and the contract as written: the contract
   * demands at least one input for Create and the flow builds none, so every
   * transaction the flow builds is rejected.
   */
  lemma BuildAlwaysRejected(f: Initiator, me: Party, notary: Party, linearId: UniqueIdentifier)
    ensures Verify(Build(f, me, notary, linearId).tx) == Rejected(FailedRequirement(NoInputsMessage))
  {
    var d := Build(f, me, notary, linearId);
    CreateRejectsEveryIssuance(d.tx, [me.owningKey]);
  }

  /**
   * call(): pick the first notary, build the transaction with a fresh linear
   * id, then verify, sign and finalise it (no signature collection) and return
   * the linear id. As written, verification always fails, so the flow fails
   * whatever its inputs.
   */
  method Call(f: Initiator, hub: ServiceHub, freshId: UniqueIdentifier)
    returns (r: Result<(UniqueIdentifier, Finalized), FlowError>)
    ensures hub.notaries == [] ==> r == Err(NoNotary)
    ensures hub.notaries != [] ==> r == Err(VerificationFailed(FailedRequirement(NoInputsMessage)))
  {
    if hub.notaries == [] {
      return Err(NoNotary);
    }
    var notary := hub.notaries[0];
    var me := hub.me;
    var draft := Build(f, me, notary, freshId);
    BuildAlwaysRejected(f, me, notary, freshId);
    var done := VerifySignFinalise(draft.tx, me, draft.counterparties, false);
    r := match done
         case Err(e) => Err(e)
         case Ok(finalized) => Ok((freshId, finalized));
  }
}
