/**
 * The persistence schema for order states (OrderSchemaV1): a mapped schema of
 * version 1 whose one entity is the immutable row PersistentOrder.
 */
module Schema {
  import opened Wrappers
  import opened Corda
  import opened Common

  /** The entity classes a mapped schema can list. */
  datatype EntityClass = PersistentOrderEntity | OtherEntity(className: string)

  /** A MappedSchema: the schema family (its class), its version and its entity classes. */
  datatype MappedSchema = MappedSchema(family: string, version: int, mappedTypes: seq<EntityClass>)

  const OrderSchemaV1Family := "com.gmedchain.schema.OrderSchemaV1"

  /** `schema instanceof OrderSchemaV1` */
  predicate IsOrderSchemaV1(s: MappedSchema)
  {
    s.family == OrderSchemaV1Family
  }

  /** The OrderSchemaV1 constructor: version 1, exactly one entity class, PersistentOrder. */
  function OrderSchemaV1(): (s: MappedSchema)
    ensures IsOrderSchemaV1(s)
    ensures s.version == 1 && s.mappedTypes == [PersistentOrderEntity]
  {
    MappedSchema(OrderSchemaV1Family, 1, [PersistentOrderEntity])
  }

  /**
   * The row of table order_states. The full constructor takes the twelve
   * columns in this order and stores them unchanged; the getters are the
   * field names (getOrderStatus reads `status`, getProductSKU `productSku`).
   */
  datatype PersistentOrder = PersistentOrder(
    buyer: JString,
    seller: JString,
    shipper: JString,
    buyerAddress: JString,
    sellerAddress: JString,
    productSku: JString,
    productName: JString,
    productPrice: real,
    productQty: int,
    shippingCost: real,
    status: int,
    linearId: Option<Uuid>)

  /** The no-argument constructor Hibernate needs: null strings and id, zero numbers. */
  function DefaultPersistentOrder(): (row: PersistentOrder)
    ensures row.buyer == None && row.seller == None && row.shipper == None
    ensures row.buyerAddress == None && row.sellerAddress == None
    ensures row.productSku == None && row.productName == None && row.linearId == None
    ensures row.productPrice == 0.0 && row.productQty == 0 && row.shippingCost == 0.0 && row.status == 0
  {
    PersistentOrder(None, None, None, None, None, None, None, 0.0, 0, 0.0, 0, None)
  }

  /** The order columns of a row, read back as an Order. */
  function RowOrder(row: PersistentOrder): Order
  {
    Order(row.productSku, row.productName, row.productPrice, row.productQty,
          row.shippingCost, row.status, row.buyerAddress, row.sellerAddress)
  }

  /** The full constructor stores its twelve arguments unchanged; every row is rebuilt from its getters. */
  lemma RowConstructorStoresArguments(row: PersistentOrder)
    ensures PersistentOrder(row.buyer, row.seller, row.shipper, row.buyerAddress, row.sellerAddress,
                            row.productSku, row.productName, row.productPrice, row.productQty,
                            row.shippingCost, row.status, row.linearId) == row
    ensures RowOrder(row).status == row.status && RowOrder(row).qty == row.productQty
  {
  }
}
