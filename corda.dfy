/**
 * The Corda platform types the order model reads: identities, identifiers and
 * network-map entries, reduced to the fields the core looks at.
 */
module Corda {
  import opened Wrappers

  /** A java.util.UUID, identified by its value. */
  type Uuid = nat

  /** A public key, identified by its value. */
  type PublicKey = nat

  /** A UniqueIdentifier: an optional external id and the UUID that identifies a linear state. */
  datatype UniqueIdentifier = UniqueIdentifier(externalId: Option<string>, id: Uuid)

  /** A CordaX500Name, with the three attributes the network uses. */
  datatype X500Name = X500Name(organisation: string, locality: string, country: string)

  /** CordaX500Name.toString: the attributes joined as "O=..., L=..., C=...". */
  function NameString(n: X500Name): string
  {
    "O=" + n.organisation + ", L=" + n.locality + ", C=" + n.country
  }

  /** A well-known party: its legal name and its owning key. */
  datatype Party = Party(name: X500Name, owningKey: PublicKey)

  /** Party.equals: two parties are equal exactly when their owning keys are. */
  predicate SameParty(a: Party, b: Party)
  {
    a.owningKey == b.owningKey
  }

  /** A network-map entry; Corda refuses a NodeInfo without a legal identity, so the first one is a field. */
  datatype NodeInfo = NodeInfo(primary: Party, otherIdentities: seq<Party>)

  function LegalIdentities(n: NodeInfo): seq<Party>
  {
    [n.primary] + n.otherIdentities
  }

  /** NodeInfo.isLegalIdentity: the party is in the node's identity list (compared with Party.equals). */
  predicate IsLegalIdentity(n: NodeInfo, p: Party)
  {
    exists i :: 0 <= i < |LegalIdentities(n)| && SameParty(LegalIdentities(n)[i], p)
  }
}
