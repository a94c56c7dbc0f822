/**
 * The order contract (OrderContract): the accept/reject rule every node runs
 * over a transaction's inputs, outputs and commands. Only Create is checked;
 * every other command is accepted once it is the single order command.
 *
 * The contract reads the product fields through accessors OrderState does not
 * declare (getProductSKU, getShipmentPrice, ...); they are taken to read the
 * wrapped order's fields, getShipmentPrice reading the shipping cost.
 */
module Contract {
  import opened Wrappers
  import opened Corda
  import opened Common
  import opened State
  import opened Ledger

  /** The order commands; ConfirmDelivery is used by a flow but missing from the interface, so it is added. */
  datatype Commands = Create | Confirm | ConfirmPickup | Ship | Delivery | ConfirmDelivery

  /** Command data in a transaction: an order command or a command of some other contract. */
  datatype CommandData = OrderCommand(command: Commands) | ForeignCommand(className: string)

  datatype CommandWithParties = CommandWithParties(signers: seq<PublicKey>, value: CommandData)

  /** The parts of a ledger transaction that verification and the flows read. */
  datatype LedgerTransaction = LedgerTransaction(
    inputs: seq<StateAndRef>,
    outputs: seq<OrderState>,
    commands: seq<CommandWithParties>,
    notary: Party)

  /** Why verification failed: requireSingleCommand's two errors, a failed requirement, or isEmpty() on null. */
  datatype ContractError =
    | RequiredCommandMissing
    | MoreThanOneCommand
    | FailedRequirement(message: string)
    | NullPointer

  datatype Verdict = Accepted | Rejected(error: ContractError)

  const NoInputsMessage := "No inputs should be consumed when creating an Create Order."
  const OneOutputMessage := "Only one output state should be created."
  const SameEntityMessage := "The buyer, the seller and the shipper cannot be the same entity."
  const ParticipantsMessage := "Create Order contains at least 2 participants."
  const SkuMessage := "The product SKU must be provided."
  const NameMessage := "The product name must be provided."
  const PriceMessage := "The product price must be non-negative."
  const QtyMessage := "The product quantity must non-negative."
  const BuyerAddressMessage := "The buyer address must be provided."
  const SellerAddressMessage := "The seller address must be provided."
  const ShipmentPriceMessage := "The shipment price must non-negative."

  /** The commands of the order contract, in transaction order. */
  function OrderCommands(cs: seq<CommandWithParties>): (r: seq<CommandWithParties>)
    ensures |r| <= |cs|
    ensures forall c :: c in r <==> c in cs && c.value.OrderCommand?
  {
    if cs == [] then []
    else if cs[0].value.OrderCommand? then [cs[0]] + OrderCommands(cs[1..])
    else OrderCommands(cs[1..])
  }

  /**
   * The filter is determined entry by entry: a single entry is kept exactly
   * when it is an order command, and filtering a concatenation concatenates
   * the filtered parts. So every order-command entry is kept, repeats
   * included, in transaction order, and the count of kept entries is the
   * count requireSingleCommand tests.
   */
  lemma {:induction false} OrderCommandsKeepsEveryEntry(a: seq<CommandWithParties>, b: seq<CommandWithParties>,
                                                        c: CommandWithParties)
    ensures OrderCommands([c]) == if c.value.OrderCommand? then [c] else []
    ensures OrderCommands(a + b) == OrderCommands(a) + OrderCommands(b)
  {
    assert [c][1..] == [];
    if a == [] {
      assert a + b == b;
    } else {
      assert (a + b)[1..] == a[1..] + b;
      OrderCommandsKeepsEveryEntry(a[1..], b, c);
    }
  }

  /** requireSingleCommand(commands, Commands.class): the one order command, or an error. */
  function RequireSingleCommand(cs: seq<CommandWithParties>): (r: Result<CommandWithParties, ContractError>)
    ensures r.Ok? <==> |OrderCommands(cs)| == 1
    ensures r.Ok? ==> r.value == OrderCommands(cs)[0] && r.value in cs && r.value.value.OrderCommand?
    ensures |OrderCommands(cs)| == 0 ==> r == Err(RequiredCommandMissing)
    ensures |OrderCommands(cs)| > 1 ==> r == Err(MoreThanOneCommand)
  {
    var selected := OrderCommands(cs);
    if |selected| == 0 then Err(RequiredCommandMissing)
    else if |selected| > 1 then Err(MoreThanOneCommand)
    else Ok(selected[0])
  }

  /** A non-null, non-empty string. */
  predicate Provided(s: JString)
  {
    s.Some? && s.value != ""
  }

  /** The order-level rules Create places on its output. */
  predicate OrderFieldsValid(o: Order)
  {
    && Provided(o.productSku)
    && Provided(o.productName)
    && o.productPrice > 0.0
    && o.qty > 0
    && Provided(o.buyerAddress)
    && Provided(o.sellerAddress)
    && o.shippingCost > 0.0
  }

  /** Every Create rule except the one on inputs. */
  predicate CreateRulesExceptInputs(tx: LedgerTransaction)
  {
    && |tx.outputs| == 1
    && !SameParty(tx.outputs[0].buyer, tx.outputs[0].seller)
    && !SameParty(tx.outputs[0].buyer, tx.outputs[0].shipper)
    && |Participants(tx.outputs[0])| > 2
    && OrderFieldsValid(tx.outputs[0].order)
  }

  /** The Create rules, as written: at least one input, then the rest. */
  predicate CreateRulesHold(tx: LedgerTransaction)
  {
    |tx.inputs| > 0 && CreateRulesExceptInputs(tx)
  }

  /** A requireThat check on a string field: isEmpty() on null throws before the requirement is tested. */
  function CheckProvided(s: JString, message: string): (v: Verdict)
    ensures v.Accepted? <==> Provided(s)
    ensures s.None? ==> v == Rejected(NullPointer)
    ensures s.Some? && !Provided(s) ==> v == Rejected(FailedRequirement(message))
  {
    if s.None? then Rejected(NullPointer)
    else if s.value == "" then Rejected(FailedRequirement(message))
    else Accepted
  }

  /** The requireThat block of Create: the checks in source order, the first failure wins. */
  function VerifyCreate(tx: LedgerTransaction): (v: Verdict)
    ensures v.Accepted? <==> CreateRulesHold(tx)
  {
    if !(|tx.inputs| > 0) then Rejected(FailedRequirement(NoInputsMessage))
    else if !(|tx.outputs| == 1) then Rejected(FailedRequirement(OneOutputMessage))
    else
      var out := tx.outputs[0];
      if !(!SameParty(out.buyer, out.seller) && !SameParty(out.buyer, out.shipper)) then
        Rejected(FailedRequirement(SameEntityMessage))
      else if !(|Participants(out)| > 2) then Rejected(FailedRequirement(ParticipantsMessage))
      else if CheckProvided(out.order.productSku, SkuMessage).Rejected? then
        CheckProvided(out.order.productSku, SkuMessage)
      else if CheckProvided(out.order.productName, NameMessage).Rejected? then
        CheckProvided(out.order.productName, NameMessage)
      else if !(out.order.productPrice > 0.0) then Rejected(FailedRequirement(PriceMessage))
      else if !(out.order.qty > 0) then Rejected(FailedRequirement(QtyMessage))
      else if CheckProvided(out.order.buyerAddress, BuyerAddressMessage).Rejected? then
        CheckProvided(out.order.buyerAddress, BuyerAddressMessage)
      else if CheckProvided(out.order.sellerAddress, SellerAddressMessage).Rejected? then
        CheckProvided(out.order.sellerAddress, SellerAddressMessage)
      else if !(out.order.shippingCost > 0.0) then Rejected(FailedRequirement(ShipmentPriceMessage))
      else Accepted
  }

  /**
   * verify: the transaction needs exactly one order command; a Create command
   * must satisfy the Create rules; every other order command passes unchecked.
   */
  function Verify(tx: LedgerTransaction): (v: Verdict)
    ensures v.Accepted? <==>
              && |OrderCommands(tx.commands)| == 1
              && (OrderCommands(tx.commands)[0].value.command == Create ==> CreateRulesHold(tx))
    ensures |OrderCommands(tx.commands)| != 1 ==> v.Rejected? && !v.error.FailedRequirement?
  {
    match RequireSingleCommand(tx.commands)
    case Err(e) => Rejected(e)
    case Ok(c) => if c.value.command == Create then VerifyCreate(tx) else Accepted
  }

  /** A transaction whose only command is the given order command. */
  predicate SingleCommand(tx: LedgerTransaction, c: Commands)
  {
    |tx.commands| == 1 && tx.commands[0].value == OrderCommand(c)
  }

  lemma {:induction false} SingleCommandSelected(tx: LedgerTransaction, c: Commands)
    requires SingleCommand(tx, c)
    ensures |OrderCommands(tx.commands)| == 1 && OrderCommands(tx.commands)[0].value.command == c
  {
    assert tx.commands == [tx.commands[0]];
    assert tx.commands[1..] == [];
  }

  /** As written, Create rejects every transaction that consumes nothing, and with the "no inputs" message. */
  lemma CreateRejectsEveryIssuance(tx: LedgerTransaction, signers: seq<PublicKey>)
    requires tx.commands == [CommandWithParties(signers, OrderCommand(Create))]
    requires tx.inputs == []
    ensures Verify(tx) == Rejected(FailedRequirement(NoInputsMessage))
  {
    SingleCommandSelected(tx, Create);
  }

  /** Create rejects a buyer who is also the seller or the shipper. */
  lemma CreateRejectsBuyerAsCounterparty(tx: LedgerTransaction, signers: seq<PublicKey>)
    requires tx.commands == [CommandWithParties(signers, OrderCommand(Create))]
    requires |tx.inputs| > 0 && |tx.outputs| == 1
    requires SameParty(tx.outputs[0].buyer, tx.outputs[0].seller)
          || SameParty(tx.outputs[0].buyer, tx.outputs[0].shipper)
    ensures Verify(tx) == Rejected(FailedRequirement(SameEntityMessage))
  {
    SingleCommandSelected(tx, Create);
  }

  /** ... but does not reject a seller who is also the shipper. */
  lemma CreateAllowsSellerAsShipper(tx: LedgerTransaction, signers: seq<PublicKey>)
    requires tx.commands == [CommandWithParties(signers, OrderCommand(Create))]
    requires |tx.inputs| > 0 && |tx.outputs| == 1
    requires tx.outputs[0].seller == tx.outputs[0].shipper
    requires !SameParty(tx.outputs[0].buyer, tx.outputs[0].seller)
    requires OrderFieldsValid(tx.outputs[0].order)
    ensures Verify(tx) == Accepted
  {
    SingleCommandSelected(tx, Create);
  }

  /**
   * The shipping cost must be strictly positive: a zero shipping cost fails
   * with the "must non-negative" message once every earlier rule holds.
   */
  lemma CreateRejectsFreeShipping(tx: LedgerTransaction, signers: seq<PublicKey>)
    requires tx.commands == [CommandWithParties(signers, OrderCommand(Create))]
    requires |tx.inputs| > 0 && |tx.outputs| == 1
    requires !SameParty(tx.outputs[0].buyer, tx.outputs[0].seller)
    requires !SameParty(tx.outputs[0].buyer, tx.outputs[0].shipper)
    requires OrderFieldsValid(tx.outputs[0].order.(shippingCost := 1.0))
    requires tx.outputs[0].order.shippingCost == 0.0
    ensures Verify(tx) == Rejected(FailedRequirement(ShipmentPriceMessage))
  {
    SingleCommandSelected(tx, Create);
  }

  /** An output carrying the default order (null SKU) makes Create throw a NullPointerException. */
  lemma CreateRejectsDefaultOrder(tx: LedgerTransaction, signers: seq<PublicKey>)
    requires tx.commands == [CommandWithParties(signers, OrderCommand(Create))]
    requires |tx.inputs| > 0 && |tx.outputs| == 1
    requires !SameParty(tx.outputs[0].buyer, tx.outputs[0].seller)
    requires !SameParty(tx.outputs[0].buyer, tx.outputs[0].shipper)
    requires tx.outputs[0].order == DefaultOrder()
    ensures Verify(tx) == Rejected(NullPointer)
  {
    SingleCommandSelected(tx, Create);
  }

  /** Confirm, ConfirmPickup, Ship, Delivery and ConfirmDelivery pass with no check on states at all. */
  lemma OtherCommandsUnchecked(tx: LedgerTransaction, c: Commands)
    requires SingleCommand(tx, c) && c != Create
    ensures Verify(tx) == Accepted
  {
    SingleCommandSelected(tx, c);
  }

  /** The same order command listed twice is two commands: requireSingleCommand refuses it. */
  lemma RepeatedCommandRejected(tx: LedgerTransaction, c: CommandWithParties)
    requires tx.commands == [c, c] && c.value.OrderCommand?
    ensures Verify(tx) == Rejected(MoreThanOneCommand)
  {
    OrderCommandsKeepsEveryEntry([c], [c], c);
    assert tx.commands == [c] + [c];
  }
}
