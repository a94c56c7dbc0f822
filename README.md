# gmedchain order CorDapp — a Dafny model

gmedchain is a Corda application that tracks a medical-supply order between a
buyer, a seller and a shipper. The order is an `OrderState` on the ledger. Flows
create it, ship it, deliver it and confirm its delivery. Each such transaction
is checked by `OrderContract.verify`. A Spring REST controller validates request
parameters, starts the flows and lists states.

This project models, one Dafny module per Java file:

- `Common` (Order.java): the order value.
- `Schema` (OrderSchemaV1.java): the relational row and its schema.
- `State` (OrderState.java): the state, its participants and its mapping to the row.
- `Contract` (OrderContract.java): the contract's `verify`, with the exact requirement messages.
- `FlowUtils` (FlowUtils.java): retrieving a state by linear id.
- `CreateOrderFlow`, `ShipOrderFlow`, `DeliveryOrderFlow`, `ConfirmDeliveryFlow`:
  the initiating side of each flow. Ship and ConfirmDelivery reassign locals
  step by step, so their `Call` is a method that follows the Java statement order.
- `MainController` (MainController.java): the controller's parameter checks,
  responses, `my-orders` and `peers`.

Four support modules sit under these:

- `Wrappers`: `Option` and `Result`.
- `Corda`: `Party`, `CordaX500Name`, `UniqueIdentifier`, `NodeInfo`.
- `Ledger`: state references and vault records.
- `FlowFramework`: verify, sign, collect signatures, finalise.

Modelling decisions:

- A Java `String` that can be `null` is an `Option<string>`.
- Calling `isEmpty()` on a null string is a contract failure (`NullPointer`).
- `float` is `real` and `int` is `int`. Both are only compared with zero.
- `Party.equals` compares owning keys (`SameParty`). The `==` in the flows'
  participant filters is value equality.
- The flows call `Order.setStatus` and `OrderState.setOwner`, which the classes
  do not declare. They are modelled as functional updates: `Common.WithStatus`,
  `State.WithOrderStatus` and `State.WithOwner`. `OrderState` gains an optional
  `owner`.
- The contract's accessors `getProductSKU`, `getProductQty` and
  `getShipmentPrice` are read from the wrapped order's SKU, quantity and
  shipping cost.
- `Commands.ConfirmDelivery` is used by ConfirmDeliveryFlow but not declared.
  It is modelled as a sixth command. The contract accepts it without checks,
  like the other non-Create commands.
- Where the code and its documentation disagree, the code is followed. The
  Create rule is written as "No inputs should be consumed…", but it requires
  `inputs.size() > 0`. It is modelled as written.
  `Contract.CreateRejectsEveryIssuance` and `CreateOrderFlow.BuildAlwaysRejected`
  state the consequence: a create transaction built by the flow never verifies.
- `my-orders` uses a vault query with default criteria, which returns
  unconsumed states only. `retrieveOrderState` asks for all states, consumed
  ones included, and takes the first.

## Model

| member | source | states |
|---|---|---|
| Common.DefaultOrder | contracts-java/src/main/java/com/gmedchain/common/Order.java:17-26 | the no-argument order has null strings and zero numbers |
| Common.ConstructorStoresArguments | contracts-java/src/main/java/com/gmedchain/common/Order.java:28-70 | each getter returns the constructor argument it was given |
| Common.WithStatus | contracts-java/src/main/java/com/gmedchain/common/Order.java:8-15 | changing the status sets it and leaves every other field unchanged |
| Common.WithStatusLaws | contracts-java/src/main/java/com/gmedchain/common/Order.java:8-15 | setting the current status is a no-op; a later status overrides an earlier one; goods plus status determine an order |
| Schema.OrderSchemaV1 | contracts-java/src/main/java/com/gmedchain/schema/OrderSchemaV1.java:16-19 | the schema is version 1 of the OrderSchema family and maps exactly the PersistentOrder entity |
| Schema.DefaultPersistentOrder | contracts-java/src/main/java/com/gmedchain/schema/OrderSchemaV1.java:65-78 | the no-argument row has every column null or zero |
| Schema.RowConstructorStoresArguments | contracts-java/src/main/java/com/gmedchain/schema/OrderSchemaV1.java:37-62 | each column of a row holds the constructor argument it was given |
| State.NewOrderState | contracts-java/src/main/java/com/gmedchain/state/OrderState.java:37-51 | the state holds its order, parties and linear id, with no owner yet |
| State.WithOrderStatus | workflows-java/src/main/java/com/gmedchain/flow/ShipOrderFlow.java:98 | setting the order's status keeps the parties, the linear id, the owner and the goods |
| State.WithOwner | workflows-java/src/main/java/com/gmedchain/flow/ShipOrderFlow.java:99 | setting the owner keeps the parties, the linear id and the order |
| State.Participants | contracts-java/src/main/java/com/gmedchain/state/OrderState.java:52-54 | exactly three participants, buyer, seller and shipper, in that order; a party participates iff it is one of them |
| State.GenerateMappedObject | contracts-java/src/main/java/com/gmedchain/state/OrderState.java:56-74 | mapping succeeds iff the schema is OrderSchemaV1, else fails with "Unrecognised schema $schema"; party columns hold the parties' X.500 names and the linearId column holds the UUID |
| State.MappingRoundTrip | contracts-java/src/main/java/com/gmedchain/state/OrderState.java:56-70 | the order read back from the mapped row is the state's order |
| State.SupportedSchemas | contracts-java/src/main/java/com/gmedchain/state/OrderState.java:76-78 | one schema, version 1, under which every state maps |
| Contract.OrderCommands | contracts-java/src/main/java/com/gmedchain/contract/OrderContract.java:42 | keeps exactly the order commands, never more than were given |
| Contract.OrderCommandsKeepsEveryEntry | contracts-java/src/main/java/com/gmedchain/contract/OrderContract.java:42 | one entry is kept iff it is an order command, and filtering a concatenation concatenates the filtered parts: every order-command entry is kept, repeats included, in order |
| Contract.RequireSingleCommand | contracts-java/src/main/java/com/gmedchain/contract/OrderContract.java:42 | succeeds iff exactly one order command is present, and returns it |
| Contract.CheckProvided | contracts-java/src/main/java/com/gmedchain/contract/OrderContract.java:57-62 | a string requirement passes iff the string is non-null and non-empty; null raises a null-pointer failure |
| Contract.VerifyCreate | contracts-java/src/main/java/com/gmedchain/contract/OrderContract.java:44-66 | the Create checks accept iff every Create rule holds |
| Contract.Verify | contracts-java/src/main/java/com/gmedchain/contract/OrderContract.java:38-76 | accepts iff there is exactly one order command and, when it is Create, every Create rule holds; a missing or repeated command is not a requirement failure |
| Contract.RepeatedCommandRejected | contracts-java/src/main/java/com/gmedchain/contract/OrderContract.java:42 | the same order command listed twice is refused as more than one command |
| Contract.SingleCommandSelected | contracts-java/src/main/java/com/gmedchain/contract/OrderContract.java:42 | a transaction whose only command is c selects c |
| Contract.CreateRejectsEveryIssuance | contracts-java/src/main/java/com/gmedchain/contract/OrderContract.java:47 | a Create transaction with no inputs is rejected with the inputs message |
| Contract.CreateRejectsBuyerAsCounterparty | contracts-java/src/main/java/com/gmedchain/contract/OrderContract.java:51-53 | a Create whose buyer is the seller or the shipper is rejected with the same-entity message |
| Contract.CreateAllowsSellerAsShipper | contracts-java/src/main/java/com/gmedchain/contract/OrderContract.java:51-63 | the seller and the shipper may be the same party |
| Contract.CreateRejectsFreeShipping | contracts-java/src/main/java/com/gmedchain/contract/OrderContract.java:63 | a zero shipment price is rejected even when every other rule holds |
| Contract.CreateRejectsDefaultOrder | contracts-java/src/main/java/com/gmedchain/contract/OrderContract.java:57 | a Create carrying the default order fails on its null SKU |
| Contract.OtherCommandsUnchecked | contracts-java/src/main/java/com/gmedchain/contract/OrderContract.java:67-75 | Confirm, ConfirmPickup, Ship, Delivery and ConfirmDelivery are accepted with no further checks |
| FlowFramework.Counterparties | workflows-java/src/main/java/com/gmedchain/flow/ShipOrderFlow.java:119-121 | the participant filter keeps exactly the participants equal to one of the two parties |
| FlowFramework.CounterpartiesOfParticipants | workflows-java/src/main/java/com/gmedchain/flow/ShipOrderFlow.java:119-126 | filtering a state's participants by two of them yields exactly those two parties as sessions |
| FlowFramework.CollectedSignatures | workflows-java/src/main/java/com/gmedchain/flow/ShipOrderFlow.java:114-130 | the initiator's key is always present; any other key comes from collection and belongs to a counterparty that is a required signer; every such counterparty's key is collected |
| FlowFramework.OnlyInitiatorSigns | workflows-java/src/main/java/com/gmedchain/flow/ShipOrderFlow.java:100-130 | when the initiator alone is a required signer, the signatures are exactly the required ones and no counterparty with another key signs |
| FlowFramework.VerifySignFinalise | workflows-java/src/main/java/com/gmedchain/flow/ShipOrderFlow.java:108-133 | fails iff the contract rejects the transaction, carrying its error; otherwise the transaction is signed by the initiator and, when signatures are collected, by the counterparties that are required signers, then finalised with those sessions |
| FlowUtils.MatchesExactlyTheUuid | workflows-java/src/main/java/com/gmedchain/utils/FlowUtils.java:22-23 | a record matches iff its state's linear-id UUID equals the requested one |
| FlowUtils.RetrieveOrderState | workflows-java/src/main/java/com/gmedchain/utils/FlowUtils.java:20-28 | nothing is found iff no record, consumed or not, has the UUID; otherwise the first such record's state is returned |
| FlowUtils.SupersededVersionReturned | workflows-java/src/main/java/com/gmedchain/utils/FlowUtils.java:21-27 | when a consumed version precedes the current one, the consumed version is returned |
| CreateOrderFlow.Build | workflows-java/src/main/java/com/gmedchain/flow/CreateOrderFlow.java:73-98 | no inputs; one output with this node as buyer and a fresh linear id; a Create command signed by this node alone; the counterparties are the participants equal to the seller or the shipper |
| CreateOrderFlow.BuildCounterparties | workflows-java/src/main/java/com/gmedchain/flow/CreateOrderFlow.java:96-103 | when this node is neither seller nor shipper, the sessions are exactly the seller and the shipper |
| CreateOrderFlow.BuildMeetsOtherCreateRules | workflows-java/src/main/java/com/gmedchain/flow/CreateOrderFlow.java:73-88 | the built transaction meets every Create rule but the inputs rule iff the buyer differs from seller and shipper and the order's fields are valid |
| CreateOrderFlow.BuildAlwaysRejected | workflows-java/src/main/java/com/gmedchain/flow/CreateOrderFlow.java:81-88 | the contract rejects every transaction the flow builds, on the inputs rule |
| CreateOrderFlow.Call | workflows-java/src/main/java/com/gmedchain/flow/CreateOrderFlow.java:66-107 | with no notary the flow fails; otherwise verification fails on the inputs rule |
| ShipOrderFlow.SpendsConsumedVersion | workflows-java/src/main/java/com/gmedchain/flow/ShipOrderFlow.java:88-106 | when a spent version of the order precedes the current one in the vault, the state the flow spends is that spent version |
| ShipOrderFlow.Call | workflows-java/src/main/java/com/gmedchain/flow/ShipOrderFlow.java:79-134 | fails iff there is no notary or no state with the id; otherwise spends the retrieved state into one with the requested status and this node as owner, under a Ship command signed by this node alone; sessions are exactly buyer and seller, yet the transaction carries only this node's signature (the required one) and neither of them signs |
| DeliveryOrderFlow.NewInitiator | workflows-java/src/main/java/com/gmedchain/flow/DeliveryOrderFlow.java:65-70 | the flow's order is the given order with status 4 (delivered) |
| DeliveryOrderFlow.Build | workflows-java/src/main/java/com/gmedchain/flow/DeliveryOrderFlow.java:89-121 | no inputs; one new state with this node as shipper; a Delivery command signed by this node; sessions are exactly buyer and seller |
| DeliveryOrderFlow.IssuesDeliveredOrder | workflows-java/src/main/java/com/gmedchain/flow/DeliveryOrderFlow.java:65-101 | a flow made by the constructor issues a state whose order has status 4 and the goods it was given |
| DeliveryOrderFlow.Call | workflows-java/src/main/java/com/gmedchain/flow/DeliveryOrderFlow.java:82-129 | fails iff there is no notary; otherwise finalises the built transaction, keeping the flow's order status, signed by this node alone (neither buyer nor seller signs), and returns the new state's linear id |
| ConfirmDeliveryFlow.Call | workflows-java/src/main/java/com/gmedchain/flow/ConfirmDeliveryFlow.java:82-150 | fails when no state has the id, when this node is not the buyer (before anything changes), or when there is no notary, and succeeds otherwise; on success it spends the state into one with the requested status and the buyer as owner, under a ConfirmDelivery command signed by the buyer alone; sessions are exactly shipper and seller, neither of whom signs |
| MainController.FirstFailureIsFirst | clients/src/main/java/com/gmedchain/server/MainController.java:157-177 | a chain of checks reports nothing iff every check passes, and otherwise the message of a failed check preceded only by passed ones |
| MainController.ValidateCreateOrder | clients/src/main/java/com/gmedchain/server/MainController.java:157-177 | create-order's parameters pass iff SKU, name and both addresses are non-empty, price and quantity are positive and shipping cost is non-negative |
| MainController.ValidateCreateOrderReportsFirstFailure | clients/src/main/java/com/gmedchain/server/MainController.java:157-177 | the message returned is that of the first failing check, in the controller's order |
| MainController.ZeroShippingAccepted | clients/src/main/java/com/gmedchain/server/MainController.java:163-171 | a zero shipping cost passes while a zero price or quantity is refused with its message |
| MainController.CreateOrder | clients/src/main/java/com/gmedchain/server/MainController.java:157-194 | refused with 400 and the first failure iff a check fails; otherwise the flow gets the request's order, status unchecked, the named party as seller and PartyC as shipper |
| MainController.ControllerAdmitsWhatContractRefuses | clients/src/main/java/com/gmedchain/server/MainController.java:163-171 | the contract's field rules hold for the request's order iff the controller accepts it and its shipping cost is positive |
| MainController.Respond | clients/src/main/java/com/gmedchain/server/MainController.java:195-204 | 201 iff the flow completed; 400 with the exception's message iff it failed |
| MainController.StatusEndpoint | clients/src/main/java/com/gmedchain/server/MainController.java:215-327 | a status selects an endpoint iff it is 1 to 5, and that endpoint requires exactly that status |
| MainController.RequiredStatusIsInjective | clients/src/main/java/com/gmedchain/server/MainController.java:215-327 | each transition endpoint accepts a status no other endpoint accepts |
| MainController.ValidateTransition | clients/src/main/java/com/gmedchain/server/MainController.java:212-217 | a transition is accepted iff the linear id is non-empty and the status is the endpoint's own; an empty id is refused first |
| MainController.MyOrders | clients/src/main/java/com/gmedchain/server/MainController.java:350-355 | exactly the unconsumed states whose buyer is this node |
| MainController.MyOrdersKeepsVaultOrder | clients/src/main/java/com/gmedchain/server/MainController.java:352-353 | the filter keeps vault order: filtering a concatenation concatenates the filtered parts |
| MainController.PeerNodes | clients/src/main/java/com/gmedchain/server/MainController.java:57-69 | exactly the nodes that are neither a notary, this node, nor the network map |
| MainController.GetPeers | clients/src/main/java/com/gmedchain/server/MainController.java:104-117 | one key, "peers", listing the name of every peer and nothing but peers' names, one per peer |

## Left out

- The Corda runtime is abstracted by `FlowFramework`: transaction building, hashing, signing, session messaging and the checks that CollectSignaturesFlow and FinalityFlow make.
- The notary's uniqueness service is not modelled. Nothing here says a consumed state cannot be spent again.
- ProgressTracker steps are not modelled. The step trace in `Finalized` records only verify, sign, collect and finalise.
- The responder flows (`Acceptor`) are not modelled. They only receive finality and never sign, which is why the model adds no counterparty signature.
- ConfirmOrderFlow and ConfirmPickupFlow are not part of this model. The confirm-order and confirm-pickup endpoints are covered only up to their parameter checks.
- The endpoints that take a linear id pass a string where the flows expect a `UniqueIdentifier`, and delivery-order passes `(linearId, status)` to a constructor taking `(Order, Party, Party)`. The model stops at the checks before these calls.
- HTTP plumbing, request parameter parsing (`Float.valueOf`, `Integer.valueOf`) and its exceptions are not modelled. The simple informational endpoints (status, servertime, addresses, identities, platformversion, notaries) are not modelled either.
- `CordaX500Name.parse` and `wellKnownPartyFromX500Name` are not modelled. Create-order passes X.500 names, not resolved parties, and an unknown name (a null party) is not modelled.
- IEEE float rounding and 32-bit `int` overflow are not modelled. Only sign comparisons are made.
- Java object identity is not modelled. The flows mutate the retrieved `Order` and `OrderState` in place, which also changes the object behind the input `StateAndRef`. The model builds new values instead, so that aliasing is not captured.
- Vault paging (a default page of 200 states), the query engine and the ordering of results are not modelled. A vault is a sequence searched in order.
- `NoSuchFieldException` from `retrieveOrderState` is not modelled. It cannot arise for the existing `linearId` column.
- `retrieveOrderState` returning nothing is modelled as `StateNotFound`. The source throws an index exception.
- A contract output that is not an `OrderState` (a `ClassCastException`) is not modelled. Outputs are `OrderState` values.
- Fresh linear ids (`new UniqueIdentifier()`) are parameters of the flows. Their freshness is not modelled.
- State.WithOrderStatus and State.WithOwner: model the undeclared setters as value updates, so they do not show that the input state seen through the old reference changes too.
