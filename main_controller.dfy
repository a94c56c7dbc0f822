/**
 * The decisions the REST controller (MainController) makes itself: the
 * ordered parameter checks of create-order and of the five transition
 * endpoints, the parties create-order names, the response to a flow's
 * outcome, and the two list filters behind my-orders and peers.
 */
module MainController {
  import opened Wrappers
  import opened Corda
  import opened Common
  import opened Ledger
  import Contract

  const Created := 201
  const BadRequest := 400

  datatype Response = Response(status: int, body: string)

  /** The parameters of create-order, already parsed. */
  datatype CreateOrderRequest = CreateOrderRequest(
    sku: string,
    name: string,
    price: real,
    qty: int,
    status: int,
    shippingCost: real,
    buyerAddress: string,
    sellerAddress: string,
    partyName: X500Name)

  /** What create-order starts the create flow with: the order, the seller's name and the shipper's name. */
  datatype CreateOrderStart = CreateOrderStart(order: Order, seller: X500Name, shipper: X500Name)

  /** The hard-coded shipper "O=PartyC,L=Paris,C=FR". */
  const PartyCName := X500Name("PartyC", "Paris", "FR")

  const SkuMessage := "Query parameter 'sku' must be provided.\n"
  const NameMessage := "Query parameter 'productName' must be provided.\n"
  const PriceMessage := "Query parameter 'productPrice' must be non-negative.\n"
  const QtyMessage := "Query parameter 'qty' must be non-negative.\n"
  const ShippingCostMessage := "Query parameter 'ShippingCost' must be provided.\n"
  const BuyerAddressMessage := "Query parameter 'BuyerAddress' must be provided.\n"
  const SellerAddressMessage := "Query parameter 'sellerAddress' must be provided.\n"
  const LinearIdMessage := "Query parameter 'linearId' must be provided.\n"

  /** One parameter check: whether it passed, and the message sent back when it did not. */
  datatype Check = Check(passed: bool, message: string)

  /** The message of the first failed check, or None when every check passes. */
  function FirstFailure(checks: seq<Check>): Option<string>
  {
    if checks == [] then None
    else if !checks[0].passed then Some(checks[0].message)
    else FirstFailure(checks[1..])
  }

  /**
   * FirstFailure reports a failure exactly when some check fails, and the one
   * it reports is a failed check preceded only by passed ones.
   */
  lemma {:induction false} FirstFailureIsFirst(checks: seq<Check>)
    ensures FirstFailure(checks).None? <==> forall i :: 0 <= i < |checks| ==> checks[i].passed
    ensures FirstFailure(checks).Some? ==>
              exists k :: && 0 <= k < |checks|
                          && !checks[k].passed && checks[k].message == FirstFailure(checks).value
                          && forall j :: 0 <= j < k ==> checks[j].passed
  {
    if checks != [] && checks[0].passed {
      var rest := checks[1..];
      FirstFailureIsFirst(rest);
      assert forall i :: 1 <= i < |checks| ==> checks[i] == rest[i - 1];
      if FirstFailure(rest).Some? {
        var k :| && 0 <= k < |rest|
                 && !rest[k].passed && rest[k].message == FirstFailure(rest).value
                 && forall j :: 0 <= j < k ==> rest[j].passed;
        assert !checks[k + 1].passed && checks[k + 1].message == FirstFailure(checks).value;
      }
    }
  }

  /** The seven create-order checks, in the order the controller makes them. */
  function CreateOrderChecks(req: CreateOrderRequest): seq<Check>
  {
    [ Check(req.sku != "", SkuMessage),
      Check(req.name != "", NameMessage),
      Check(req.price > 0.0, PriceMessage),
      Check(req.qty > 0, QtyMessage),
      Check(req.shippingCost >= 0.0, ShippingCostMessage),
      Check(req.buyerAddress != "", BuyerAddressMessage),
      Check(req.sellerAddress != "", SellerAddressMessage) ]
  }

  /** The controller's chain of early returns: the first failing check's message, if any. */
  function ValidateCreateOrder(req: CreateOrderRequest): (r: Option<string>)
    ensures r.None? <==> && req.sku != "" && req.name != "" && req.price > 0.0 && req.qty > 0
                         && req.shippingCost >= 0.0 && req.buyerAddress != "" && req.sellerAddress != ""
  {
    if req.sku == "" then Some(SkuMessage)
    else if req.name == "" then Some(NameMessage)
    else if req.price <= 0.0 then Some(PriceMessage)
    else if req.qty <= 0 then Some(QtyMessage)
    else if req.shippingCost < 0.0 then Some(ShippingCostMessage)
    else if req.buyerAddress == "" then Some(BuyerAddressMessage)
    else if req.sellerAddress == "" then Some(SellerAddressMessage)
    else None
  }

  /** The controller's chain of early returns reports the first failure of its checks, taken in order. */
  lemma {:induction false} ValidateCreateOrderReportsFirstFailure(req: CreateOrderRequest)
    ensures ValidateCreateOrder(req) == FirstFailure(CreateOrderChecks(req))
  {
    var c0 := CreateOrderChecks(req);
    FirstFailureStep(c0);
    FirstFailureStep(c0[1..]);
    FirstFailureStep(c0[2..]);
    FirstFailureStep(c0[3..]);
    FirstFailureStep(c0[4..]);
    FirstFailureStep(c0[5..]);
    FirstFailureStep(c0[6..]);
    assert c0[1..][1..] == c0[2..];
    assert c0[2..][1..] == c0[3..];
    assert c0[3..][1..] == c0[4..];
    assert c0[4..][1..] == c0[5..];
    assert c0[5..][1..] == c0[6..];
    assert c0[6..][1..] == [];
  }

  lemma FirstFailureStep(checks: seq<Check>)
    requires checks != []
    ensures FirstFailure(checks) == if !checks[0].passed then Some(checks[0].message) else FirstFailure(checks[1..])
  {
  }

  /** A zero shipping cost passes create-order's checks where a zero price or quantity does not. */
  lemma {:induction false} ZeroShippingAccepted(req: CreateOrderRequest)
    requires req.sku != "" && req.name != "" && req.buyerAddress != "" && req.sellerAddress != ""
    ensures req.price > 0.0 && req.qty > 0 && req.shippingCost == 0.0 ==> ValidateCreateOrder(req) == None
    ensures req.price == 0.0 ==> ValidateCreateOrder(req) == Some(PriceMessage)
    ensures req.price > 0.0 && req.qty == 0 ==> ValidateCreateOrder(req) == Some(QtyMessage)
  {
  }

  /** The order create-order builds: the request's fields, its status passed through unchecked. */
  function RequestOrder(req: CreateOrderRequest): Order
  {
    Order(Some(req.sku), Some(req.name), req.price, req.qty, req.shippingCost, req.status,
          Some(req.buyerAddress), Some(req.sellerAddress))
  }

  /**
   * create-order up to starting the flow: 400 with the first failing check's
   * message, or the create flow started with the request's order, the named
   * party as seller and PartyC as shipper.
   */
  function CreateOrder(req: CreateOrderRequest): (r: Result<CreateOrderStart, Response>)
    ensures r.Err? <==> ValidateCreateOrder(req).Some?
    ensures r.Err? ==> r.error == Response(BadRequest, ValidateCreateOrder(req).value)
    ensures r.Ok? ==> r.value.seller == req.partyName && r.value.shipper == PartyCName
    ensures r.Ok? ==> r.value.order.status == req.status && RequestOrder(req) == r.value.order
  {
    match ValidateCreateOrder(req)
    case Some(message) => Err(Response(BadRequest, message))
    case None => Ok(CreateOrderStart(RequestOrder(req), req.partyName, PartyCName))
  }

  /**
   * The controller and the contract disagree on one field only: an order the
   * controller lets through meets the contract's field rules exactly when its
   * shipping cost is not zero.
   */
  lemma {:induction false} ControllerAdmitsWhatContractRefuses(req: CreateOrderRequest)
    ensures Contract.OrderFieldsValid(RequestOrder(req)) <==>
              ValidateCreateOrder(req).None? && req.shippingCost > 0.0
  {
  }

  /** How a flow started by an endpoint ended: its transaction id and description, or an exception message. */
  datatype FlowOutcome = Completed(id: string, description: string) | Failed(message: string)

  /** The response to a flow outcome: 201 on success, 400 with the exception's message otherwise. */
  function Respond(outcome: FlowOutcome): (resp: Response)
    ensures resp.status == Created <==> outcome.Completed?
    ensures resp.status == BadRequest <==> outcome.Failed?
    ensures outcome.Failed? ==> resp.body == outcome.message
  {
    match outcome
    case Completed(id, description) =>
      Response(Created, "Transaction id " + id + " committed to ledger.\n " + description)
    case Failed(message) => Response(BadRequest, message)
  }

  /** The five transition endpoints. */
  datatype Endpoint = ConfirmOrder | ConfirmPickup | ShipOrder | DeliveryOrder | ConfirmDeliveryEndpoint

  /** The one status each endpoint accepts. */
  function RequiredStatus(e: Endpoint): int
  {
    match e
    case ConfirmOrder => 1
    case ConfirmPickup => 2
    case ShipOrder => 3
    case DeliveryOrder => 4
    case ConfirmDeliveryEndpoint => 5
  }

  /** The message each endpoint sends back for a wrong status. */
  function StatusMessage(e: Endpoint): string
  {
    match e
    case ConfirmOrder => "Query parameter 'status' must be equals 1.\n"
    case ConfirmPickup => "Query parameter 'status' must be equals 1 (ReadyForPickup).\n"
    case ShipOrder => "Query parameter 'status' must be equals 3(Shipped).\n"
    case DeliveryOrder => "Query parameter 'status' must be equals 4(Delivered).\n"
    case ConfirmDeliveryEndpoint => "Query parameter 'status' must be equals 5(ConfirmDelivery).\n"
  }

  /** The endpoint that accepts a status, if any. */
  function StatusEndpoint(status: int): (r: Option<Endpoint>)
    ensures r.Some? <==> 1 <= status <= 5
    ensures r.Some? ==> RequiredStatus(r.value) == status
  {
    if status == 1 then Some(ConfirmOrder)
    else if status == 2 then Some(ConfirmPickup)
    else if status == 3 then Some(ShipOrder)
    else if status == 4 then Some(DeliveryOrder)
    else if status == 5 then Some(ConfirmDeliveryEndpoint)
    else None
  }

  /** Each endpoint fixes its own status: the status determines the endpoint, and no two endpoints share one. */
  lemma {:induction false} RequiredStatusIsInjective(e: Endpoint, f: Endpoint)
    ensures StatusEndpoint(RequiredStatus(e)) == Some(e)
    ensures RequiredStatus(e) == RequiredStatus(f) ==> e == f
  {
    match e
    case ConfirmOrder =>
    case ConfirmPickup =>
    case ShipOrder =>
    case DeliveryOrder =>
    case ConfirmDeliveryEndpoint =>
  }

  /**
   * A transition endpoint's checks, first failure wins: an empty linear id is
   * refused whatever the status, then any status but the endpoint's own.
   */
  function ValidateTransition(e: Endpoint, linearId: string, status: int): (r: Option<Response>)
    ensures r.None? <==> linearId != "" && status == RequiredStatus(e)
    ensures linearId == "" ==> r == Some(Response(BadRequest, LinearIdMessage))
    ensures linearId != "" && status != RequiredStatus(e) ==> r == Some(Response(BadRequest, StatusMessage(e)))
  {
    if linearId == "" then Some(Response(BadRequest, LinearIdMessage))
    else if status != RequiredStatus(e) then Some(Response(BadRequest, StatusMessage(e)))
    else None
  }

  /**
   * my-orders: the unconsumed states (the default of a vault query) whose
   * buyer equals this node's first legal identity, in vault order.
   */
  function MyOrders(vault: Vault, me: Party): (r: seq<StateAndRef>)
    ensures |r| <= |vault|
    ensures forall x :: x in r ==> SameParty(x.state.buyer, me) && VaultRecord(x, Unconsumed) in vault
    ensures forall i :: (0 <= i < |vault| && vault[i].status == Unconsumed
                         && SameParty(vault[i].stateAndRef.state.buyer, me)) ==> vault[i].stateAndRef in r
  {
    if vault == [] then []
    else
      var rest := MyOrders(vault[1..], me);
      assert forall i :: 1 <= i < |vault| ==> vault[i] == vault[1..][i - 1];
      if vault[0].status == Unconsumed && SameParty(vault[0].stateAndRef.state.buyer, me)
      then [vault[0].stateAndRef] + rest
      else rest
  }

  /** The filter keeps the vault's order: filtering a concatenation concatenates the filtered parts. */
  lemma {:induction false} MyOrdersKeepsVaultOrder(a: Vault, b: Vault, me: Party)
    ensures MyOrders(a + b, me) == MyOrders(a, me) + MyOrders(b, me)
  {
    if a == [] {
      assert a + b == b;
    } else {
      assert (a + b)[1..] == a[1..] + b;
      MyOrdersKeepsVaultOrder(a[1..], b, me);
    }
  }

  const NetworkMapOrganisation := "Network Map Service"

  /** One of the notaries is a legal identity of the node. */
  predicate IsNotary(n: NodeInfo, notaries: seq<Party>)
  {
    exists i :: 0 <= i < |notaries| && IsLegalIdentity(n, notaries[i])
  }

  /** The node's first legal name is this node's. */
  predicate IsMe(n: NodeInfo, me: X500Name)
  {
    n.primary.name == me
  }

  predicate IsNetworkMap(n: NodeInfo)
  {
    n.primary.name.organisation == NetworkMapOrganisation
  }

  predicate IsPeer(n: NodeInfo, notaries: seq<Party>, me: X500Name)
  {
    !IsNotary(n, notaries) && !IsMe(n, me) && !IsNetworkMap(n)
  }

  /** The network-map nodes that are not notaries, not this node and not the network map, in snapshot order. */
  function PeerNodes(snapshot: seq<NodeInfo>, notaries: seq<Party>, me: X500Name): (r: seq<NodeInfo>)
    ensures |r| <= |snapshot|
    ensures forall n :: n in r <==> n in snapshot && IsPeer(n, notaries, me)
  {
    if snapshot == [] then []
    else if IsPeer(snapshot[0], notaries, me) then [snapshot[0]] + PeerNodes(snapshot[1..], notaries, me)
    else PeerNodes(snapshot[1..], notaries, me)
  }

  /** peers: a map with the single key "peers", holding the peers' first legal names as strings. */
  function GetPeers(snapshot: seq<NodeInfo>, notaries: seq<Party>, me: X500Name): (m: map<string, seq<string>>)
    ensures m.Keys == {"peers"}
    ensures |m["peers"]| == |PeerNodes(snapshot, notaries, me)|
    ensures forall n :: n in snapshot && IsPeer(n, notaries, me) ==> NameString(n.primary.name) in m["peers"]
    ensures forall s :: s in m["peers"] ==>
              exists n :: n in snapshot && IsPeer(n, notaries, me) && NameString(n.primary.name) == s
  {
    var peers := PeerNodes(snapshot, notaries, me);
    var nodeNames := seq(|peers|, i requires 0 <= i < |peers| => NameString(peers[i].primary.name));
    assert forall n :: n in peers ==> NameString(n.primary.name) in nodeNames by {
      forall n | n in peers ensures NameString(n.primary.name) in nodeNames {
        var i :| 0 <= i < |peers| && peers[i] == n;
        assert nodeNames[i] == NameString(n.primary.name);
      }
    }
    map["peers" := nodeNames]
  }
}
