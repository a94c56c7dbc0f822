/**
 * The ledger state of one order (OrderState): the order record, its three
 * parties and its linear id, mapped to a PersistentOrder row for the vault.
 * The flows also give the state an owner through a "setOwner" the class does
 * not declare; the model adds `owner` as a field that starts out absent.
 */
module State {
  import opened Wrappers
  import opened Corda
  import opened Common
  import opened Schema

  datatype OrderState = OrderState(
    order: Order,
    buyer: Party,
    seller: Party,
    shipper: Party,
    linearId: UniqueIdentifier,
    owner: Option<Party>)

  /** The five-argument constructor stores its arguments unchanged; no owner is set yet. */
  function NewOrderState(order: Order, buyer: Party, seller: Party, shipper: Party,
                         linearId: UniqueIdentifier): (s: OrderState)
    ensures s.order == order && s.linearId == linearId
    ensures s.buyer == buyer && s.seller == seller && s.shipper == shipper
    ensures s.owner == None
  {
    OrderState(order, buyer, seller, shipper, linearId, None)
  }

  /** Two states have the same parties and the same linear id. */
  predicate SameParties(a: OrderState, b: OrderState)
  {
    a.buyer == b.buyer && a.seller == b.seller && a.shipper == b.shipper && a.linearId == b.linearId
  }

  /** `getOrder().setStatus(status)`: only the wrapped order's status changes. */
  function WithOrderStatus(s: OrderState, status: int): (r: OrderState)
    ensures SameParties(r, s) && r.owner == s.owner
    ensures r.order.status == status && SameGoods(r.order, s.order)
  {
    s.(order := WithStatus(s.order, status))
  }

  /** `setOwner(p)`: only the owner changes. */
  function WithOwner(s: OrderState, p: Party): (r: OrderState)
    ensures SameParties(r, s) && r.order == s.order
    ensures r.owner == Some(p)
  {
    s.(owner := Some(p))
  }

  /**
   * `after` is `before` advanced to `status` and handed to `owner`: the goods,
   * the parties and the linear id are kept.
   */
  predicate Advanced(before: OrderState, after: OrderState, status: int, owner: Party)
  {
    && SameParties(after, before)
    && SameGoods(after.order, before.order)
    && after.order.status == status
    && after.owner == Some(owner)
  }

  /** getParticipants: buyer, seller and shipper, in that order, and no one else. */
  function Participants(s: OrderState): (ps: seq<Party>)
    ensures |ps| == 3 && ps[0] == s.buyer && ps[1] == s.seller && ps[2] == s.shipper
    ensures forall p :: p in ps <==> p == s.buyer || p == s.seller || p == s.shipper
  {
    [s.buyer, s.seller, s.shipper]
  }

  const UnrecognisedSchemaMessage := "Unrecognised schema $schema"

  /**
   * generateMappedObject: for OrderSchemaV1 a row holding the three party
   * names, every order field and the linear id's UUID; any other schema is an
   * IllegalArgumentException (whose message is the literal text, Java does not
   * interpolate "$schema").
   */
  function GenerateMappedObject(s: OrderState, schema: MappedSchema): (r: Result<PersistentOrder, string>)
    ensures r.Ok? <==> IsOrderSchemaV1(schema)
    ensures r.Err? ==> r.error == UnrecognisedSchemaMessage
    ensures r.Ok? ==> && r.value.buyer == Some(NameString(s.buyer.name))
                      && r.value.seller == Some(NameString(s.seller.name))
                      && r.value.shipper == Some(NameString(s.shipper.name))
                      && r.value.linearId == Some(s.linearId.id)
  {
    if IsOrderSchemaV1(schema) then
      Ok(PersistentOrder(
           Some(NameString(s.buyer.name)),
           Some(NameString(s.seller.name)),
           Some(NameString(s.shipper.name)),
           s.order.buyerAddress,
           s.order.sellerAddress,
           s.order.productSku,
           s.order.productName,
           s.order.productPrice,
           s.order.qty,
           s.order.shippingCost,
           s.order.status,
           Some(s.linearId.id)))
    else
      Err(UnrecognisedSchemaMessage)
  }

  /** Mapping then reading the order columns back gives the state's order unchanged. */
  lemma {:induction false} MappingRoundTrip(s: OrderState, schema: MappedSchema)
    requires IsOrderSchemaV1(schema)
    ensures GenerateMappedObject(s, schema).Ok?
    ensures RowOrder(GenerateMappedObject(s, schema).value) == s.order
  {
  }

  /** supportedSchemas: exactly one schema, OrderSchemaV1, and every state maps under it. */
  function SupportedSchemas(): (schemas: seq<MappedSchema>)
    ensures |schemas| == 1 && schemas[0].version == 1
    ensures forall s: OrderState, i :: 0 <= i < |schemas| ==> GenerateMappedObject(s, schemas[i]).Ok?
  {
    [OrderSchemaV1()]
  }
}
