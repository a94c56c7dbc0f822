/**
 * The order record (package com.gmedchain.common): product, price, quantity,
 * shipping cost, status and the two addresses. Every field is final and the
 * class has no setter, so an order is a value that never changes; the flows'
 * "setStatus" is modelled as a copy with the status replaced.
 */
module Common {
  import opened Wrappers

  /** A Java String reference: None stands for null. */
  type JString = Option<string>

  /**
   * The full constructor takes its eight arguments in this order and stores
   * them unchanged, without any validation; the getters are the field names.
   */
  datatype Order = Order(
    productSku: JString,
    productName: JString,
    productPrice: real,
    qty: int,
    shippingCost: real,
    status: int,
    buyerAddress: JString,
    sellerAddress: JString)

  /** The no-argument constructor: null strings and zero numbers. */
  function DefaultOrder(): (o: Order)
    ensures o.productSku == None && o.productName == None
    ensures o.buyerAddress == None && o.sellerAddress == None
    ensures o.productPrice == 0.0 && o.qty == 0 && o.shippingCost == 0.0 && o.status == 0
  {
    Order(None, None, 0.0, 0, 0.0, 0, None, None)
  }

  /** Two orders agree on every field except, possibly, the status. */
  predicate SameGoods(a: Order, b: Order)
  {
    && a.productSku == b.productSku
    && a.productName == b.productName
    && a.productPrice == b.productPrice
    && a.qty == b.qty
    && a.shippingCost == b.shippingCost
    && a.buyerAddress == b.buyerAddress
    && a.sellerAddress == b.sellerAddress
  }

  /** The "setStatus" the flows call: the same order with only its status replaced. */
  function WithStatus(o: Order, status: int): (r: Order)
    ensures r.status == status && SameGoods(r, o)
  {
    o.(status := status)
  }

  /**
   * The constructor stores every argument unchanged and accepts any value;
   * and every order is the one its own getters rebuild.
   */
  lemma ConstructorStoresArguments(sku: JString, name: JString, price: real, qty: int,
                                   shippingCost: real, status: int,
                                   buyerAddress: JString, sellerAddress: JString, o: Order)
    ensures var c := Order(sku, name, price, qty, shippingCost, status, buyerAddress, sellerAddress);
            && c.productSku == sku && c.productName == name && c.productPrice == price
            && c.qty == qty && c.shippingCost == shippingCost && c.status == status
            && c.buyerAddress == buyerAddress && c.sellerAddress == sellerAddress
    ensures Order(o.productSku, o.productName, o.productPrice, o.qty,
                  o.shippingCost, o.status, o.buyerAddress, o.sellerAddress) == o
  {
  }

  /**
   * An order is determined by its goods and its status, so WithStatus changes
   * exactly the status: setting the current status is a no-op and a second
   * update overrides the first.
   */
  lemma WithStatusLaws(o: Order, a: int, b: int, p: Order, q: Order)
    ensures WithStatus(o, o.status) == o
    ensures WithStatus(WithStatus(o, a), b) == WithStatus(o, b)
    ensures SameGoods(p, q) && p.status == q.status ==> p == q
  {
  }
}
