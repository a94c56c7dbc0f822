/**
 * Ledger references and the local vault: a vault is the sequence of order
 * states this node has recorded, in query order, each consumed or not.
 */
module Ledger {
  import opened State

  /** A StateRef: the transaction that produced a state and the output's index in it. */
  datatype StateRef = StateRef(txhash: nat, index: nat)

  /** A StateAndRef: a recorded order state together with its reference. */
  datatype StateAndRef = StateAndRef(state: OrderState, ref: StateRef)

  datatype StateStatus = Unconsumed | Consumed

  datatype VaultRecord = VaultRecord(stateAndRef: StateAndRef, status: StateStatus)

  type Vault = seq<VaultRecord>
}
