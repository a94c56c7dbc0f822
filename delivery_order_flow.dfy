/**
 * DeliveryOrderFlow.Initiator: the shipper records a delivered order. The
 * constructor forces the order's status to 4 (delivered); call() issues a new
 * state with a fresh id, consuming nothing, under a Delivery command the
 * initiator signs alone. The buyer and the seller get sessions but are not
 * required signers, so they never sign; they only receive the transaction.
 */
module DeliveryOrderFlow {
  import opened Wrappers
  import opened Corda
  import opened Common
  import opened State
  import opened Contract
  import opened FlowFramework

  /** Status code 4: delivered. */
  const Delivered := 4

  /** The flow's fields once the constructor has run. */
  datatype Initiator = Initiator(order: Order, buyer: Party, seller: Party)

  /** The constructor: `order.setStatus(4)`, then store the order, the buyer and the seller. */
  function NewInitiator(order: Order, buyer: Party, seller: Party): (f: Initiator)
    ensures f.order.status == Delivered && SameGoods(f.order, order)
    ensures f.buyer == buyer && f.seller == seller
  {
    Initiator(WithStatus(order, Delivered), buyer, seller)
  }

  /**
   * Generating the transaction: buyer and seller from the constructor, the
   * initiator as shipper, the given fresh id; no input; one Delivery command
   * signed by the initiator; counterparties are the participants that are the
   * buyer or the seller.
   */
  function Build(f: Initiator, me: Party, notary: Party, txId: UniqueIdentifier): (d: Draft)
    ensures d.tx.inputs == [] && d.tx.notary == notary
    ensures d.tx.outputs == [NewOrderState(f.order, f.buyer, f.seller, me, txId)]
    ensures d.tx.commands == [CommandWithParties([me.owningKey], OrderCommand(Delivery))]
    ensures RequiredSigners(d.tx) == {me.owningKey}
    ensures forall p :: p in d.counterparties <==>
                          p in Participants(d.tx.outputs[0]) && (p == f.buyer || p == f.seller)
    ensures (set p | p in d.counterparties) == {f.buyer, f.seller}
  {
    var orderState := NewOrderState(f.order, f.buyer, f.seller, me, txId);
    var txCommand := CommandWithParties([me.owningKey], OrderCommand(Delivery));
    var tx := LedgerTransaction([], [orderState], [txCommand], notary);
    SingleSigner(tx, me.owningKey);
    CounterpartiesOfParticipants(orderState, f.buyer, f.seller);
    Draft(tx, Counterparties(Participants(orderState), f.buyer, f.seller))
  }

  /**
   * From constructor to transaction the order stays delivered: a flow made by
   * the constructor issues a state whose order has status 4 and the goods it
   * was given, whoever runs it.
   */
  lemma {:induction false} IssuesDeliveredOrder(order: Order, buyer: Party, seller: Party, me: Party,
                                                notary: Party, txId: UniqueIdentifier)
    ensures var out := Build(NewInitiator(order, buyer, seller), me, notary, txId).tx.outputs[0];
            out.order.status == Delivered && SameGoods(out.order, order)
  {
    var f := NewInitiator(order, buyer, seller);
    assert Build(f, me, notary, txId).tx.outputs[0].order == f.order;
  }

  /**
   * call(): pick the first notary, build the transaction with a fresh id,
   * verify (a lone Delivery command passes), sign, collect and finalise, and
   * return the fresh id, which is the linear id of the new state.
   */
  method Call(f: Initiator, hub: ServiceHub, freshId: UniqueIdentifier)
    returns (r: Result<(UniqueIdentifier, Finalized), FlowError>)
    ensures r.Err? <==> hub.notaries == []
    ensures r.Err? ==> r.error == NoNotary
    ensures r.Ok? ==>
              var d := Build(f, hub.me, hub.notaries[0], freshId);
              && r.value.0 == freshId
              && r.value.1.stx.tx == d.tx
              && r.value.1.stx.tx.outputs[0].linearId == r.value.0
              && r.value.1.sessions == d.counterparties
              && r.value.1.stx.tx.outputs[0].order.status == f.order.status
              && r.value.1.stx.sigs == RequiredSigners(d.tx) == {hub.me.owningKey}
              && (forall p :: p in r.value.1.sessions && p.owningKey != hub.me.owningKey ==>
                               p.owningKey !in r.value.1.stx.sigs)
              && r.value.1.steps == [Verified, SignedByInitiator, SignaturesCollected, Finalised]
  {
    if hub.notaries == [] {
      return Err(NoNotary);
    }
    var notary := hub.notaries[0];
    var me := hub.me;
    var draft := Build(f, me, notary, freshId);
    OtherCommandsUnchecked(draft.tx, Delivery);
    OnlyInitiatorSigns(draft.tx, me, draft.counterparties, true);
    var done := VerifySignFinalise(draft.tx, me, draft.counterparties, true);
    r := match done
         case Err(e) => Err(e)
         case Ok(finalized) => Ok((freshId, finalized));
  }
}
