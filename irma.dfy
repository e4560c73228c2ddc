/**
 * The records of the irmago library that the backend builds or reads, kept
 * as plain values. Only the fields the backend sets or inspects are present.
 */
module Irma {
  import opened Wrappers

  /** irmago's `ServerStatusDone`: the session finished. */
  const ServerStatusDone := "DONE"

  /** irmago's `ProofStatusValid`: the disclosure proof checked out. */
  const ProofStatusValid := "VALID"

  /** irmago's `LDContextIssuanceRequest`: the `@context` of an issuance request. */
  const LDContextIssuanceRequest := "https://irma.app/ld/request/issuance/v2"

  /** The credential type the backend issues as a boarding pass. */
  const BoardingPassCredential := "irma-demo.demo-airline.boardingpass"

  /** A request for one attribute, by its full identifier. */
  datatype AttributeRequest = AttributeRequest(attributeType: string)

  /** A disclosure request: a conjunction of disjunctions of conjunctions of attribute requests. */
  datatype DisclosureRequest = DisclosureRequest(disclose: seq<seq<seq<AttributeRequest>>>)

  /** Where the IRMA server should fetch the follow-on session from. */
  datatype NextSessionData = NextSessionData(url: string)

  /** A signed-requestor request: the inner request plus the optional chained next session. */
  datatype ServiceProviderRequest = ServiceProviderRequest(nextSession: Option<NextSessionData>, request: DisclosureRequest)

  /** One credential to issue: its type and its attribute values by attribute name. */
  datatype CredentialRequest = CredentialRequest(credentialTypeId: string, attributes: map<string, string>)

  /** An issuance request for a list of credentials. */
  datatype IssuanceRequest = IssuanceRequest(credentials: seq<CredentialRequest>)
}
