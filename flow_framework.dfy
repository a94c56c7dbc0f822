/**
 * What the flows need from Corda's flow machinery, abstracted: the node's
 * service hub (identity, notaries, vault), signing, signature collection and
 * finality. Signatures are the set of public keys that have signed; sessions
 * are the counterparties a flow opens; finality records the signed
 * transaction and sends it to those sessions.
 */
module FlowFramework {
  import opened Wrappers
  import opened Corda
  import opened State
  import opened Ledger
  import opened Contract

  /** Why an initiator flow fails. */
  datatype FlowError =
    | NoNotary                            // getNotaryIdentities().get(0) on an empty list
    | StateNotFound                       // the vault query returned no state for the linear id
    | FailedIdentityCheck(message: string) // a requireThat in the flow itself
    | VerificationFailed(error: ContractError)

  /** The node a flow runs on: its identity, the notaries it knows and its vault. */
  datatype ServiceHub = ServiceHub(me: Party, notaries: seq<Party>, vault: Vault)

  /** The protocol steps a completed flow went through, in order. */
  datatype FlowStep = Verified | SignedByInitiator | SignaturesCollected | Finalised

  datatype SignedTransaction = SignedTransaction(tx: LedgerTransaction, sigs: set<PublicKey>)

  /** A finalised transaction, the sessions it was sent to and the steps taken to get there. */
  datatype Finalized = Finalized(stx: SignedTransaction, sessions: seq<Party>, steps: seq<FlowStep>)

  /** A built, unsigned transaction and the counterparties the flow will open sessions with. */
  datatype Draft = Draft(tx: LedgerTransaction, counterparties: seq<Party>)

  /** The owning keys of some parties. */
  function Keys(ps: seq<Party>): set<PublicKey>
  {
    set p | p in ps :: p.owningKey
  }

  /** The keys the transaction's commands name as signers. */
  function RequiredSigners(tx: LedgerTransaction): set<PublicKey>
  {
    set c, k | c in tx.commands && k in c.signers :: k
  }

  /** A transaction with one command signed by one key requires that key alone. */
  lemma SingleSigner(tx: LedgerTransaction, k: PublicKey)
    requires |tx.commands| == 1 && tx.commands[0].signers == [k]
    ensures RequiredSigners(tx) == {k}
  {
    assert tx.commands[0] in tx.commands && k in tx.commands[0].signers;
  }

  /**
   * `participants.stream().filter(party -> party == a || party == b)`: the
   * participants equal to `a` or `b`, in participant order.
   */
  function Counterparties(participants: seq<Party>, a: Party, b: Party): (r: seq<Party>)
    ensures |r| <= |participants|
    ensures forall p :: p in r <==> p in participants && (p == a || p == b)
  {
    if participants == [] then []
    else if participants[0] == a || participants[0] == b then
      [participants[0]] + Counterparties(participants[1..], a, b)
    else Counterparties(participants[1..], a, b)
  }

  /**
   * Filtering a state's participants by two of its own parties keeps exactly
   * those two (the third appears only if it equals one of them).
   */
  lemma {:induction false} CounterpartiesOfParticipants(s: OrderState, a: Party, b: Party)
    requires a in Participants(s) && b in Participants(s)
    ensures (set p | p in Counterparties(Participants(s), a, b)) == {a, b}
  {
    var r := Counterparties(Participants(s), a, b);
    assert a in r && b in r;
  }

  /**
   * The keys on a transaction once the initiator has signed it and, when
   * `collect` is set, CollectSignaturesFlow has run: the initiator's own key,
   * plus the keys of those counterparties that the commands name as required
   * signers. CollectSignaturesFlow asks only for missing required signatures,
   * so a counterparty that is not a required signer never signs.
   */
  function CollectedSignatures(tx: LedgerTransaction, me: Party, counterparties: seq<Party>, collect: bool): (sigs: set<PublicKey>)
    ensures me.owningKey in sigs
    ensures forall k :: k in sigs && k != me.owningKey ==>
                          collect && k in RequiredSigners(tx) && k in Keys(counterparties)
    ensures collect ==> forall p :: p in counterparties && p.owningKey in RequiredSigners(tx) ==> p.owningKey in sigs
  {
    {me.owningKey} + (if collect then RequiredSigners(tx) * Keys(counterparties) else {})
  }

  /**
   * When the initiator is the only required signer, as in every flow here,
   * collecting signatures adds nothing: the transaction carries exactly the
   * required signatures, and no counterparty with a key of its own signs.
   * The buyer/seller/shipper quorum of the order's design is not enforced.
   */
  lemma OnlyInitiatorSigns(tx: LedgerTransaction, me: Party, counterparties: seq<Party>, collect: bool)
    requires RequiredSigners(tx) == {me.owningKey}
    ensures CollectedSignatures(tx, me, counterparties, collect) == RequiredSigners(tx)
    ensures forall p :: p in counterparties && p.owningKey != me.owningKey ==>
                          p.owningKey !in CollectedSignatures(tx, me, counterparties, collect)
  {
  }

  /**
   * The steps after a transaction is built: verify it against the contract,
   * sign it with the initiator's key, collect the required signatures the
   * counterparties hold when `collect` is set, and finalise it with sessions
   * to the counterparties. A rejected transaction is never signed or finalised.
   */
  method VerifySignFinalise(tx: LedgerTransaction, me: Party, counterparties: seq<Party>, collect: bool)
    returns (r: Result<Finalized, FlowError>)
    ensures r.Err? <==> Verify(tx).Rejected?
    ensures r.Err? ==> r.error == VerificationFailed(Verify(tx).error)
    ensures r.Ok? ==> r.value.stx.tx == tx && r.value.sessions == counterparties
    ensures r.Ok? ==> r.value.stx.sigs == CollectedSignatures(tx, me, counterparties, collect)
    ensures r.Ok? ==> r.value.steps == [Verified, SignedByInitiator]
                                       + (if collect then [SignaturesCollected] else [])
                                       + [Finalised]
  {
    var verdict := Verify(tx);
    if verdict.Rejected? {
      return Err(VerificationFailed(verdict.error));
    }
    var steps := [Verified];
    var stx := SignedTransaction(tx, {me.owningKey});
    steps := steps + [SignedByInitiator];
    if collect {
      stx := stx.(sigs := stx.sigs + RequiredSigners(tx) * Keys(counterparties));
      steps := steps + [SignaturesCollected];
    }
    steps := steps + [Finalised];
    r := Ok(Finalized(stx, counterparties, steps));
  }
}
