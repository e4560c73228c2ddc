/**
 * `handleIRMAServerCallback` (backend/callback_handler.go): the chained
 * callback the verifier makes once the passport attribute is disclosed. It
 * compares the disclosed document number with the ticket's and, when they
 * agree, answers with an issuance request for the boarding pass. It only
 * reads the tickets: it is a function of the query's ticket id, the decoded
 * body and the stored tickets.
 */
module CallbackHandler {
  import opened Wrappers
  import opened Strings
  import opened Json
  import opened Http
  import Irma
  import Stores

  /** `issuanceJSON` as this file declares it: the context, the two optional callback URLs and the request. */
  datatype IssuanceJson = IssuanceJson(context: string, callbackURL: string, callbackUrl: string, request: Irma.IssuanceRequest)

  /** How a callback ends: an error response, an empty 200, or an issuance request. */
  datatype CallbackOutcome =
    | CallbackFailed(error: HttpError)
    | NoIssuance
    | Issue(payload: IssuanceJson)

  /** The boarding-pass attributes copied from a ticket. */
  function BoardingPassAttributes(t: Stores.Ticket): (a: map<string, string>)
    ensures a.Keys == {"firstname", "lastname", "flight", "from", "to", "seat"}
    ensures a["firstname"] == t.firstName && a["lastname"] == t.lastName && a["flight"] == t.flight
    ensures a["from"] == t.origin && a["to"] == t.destination && a["seat"] == t.seat
  {
    map["firstname" := t.firstName, "lastname" := t.lastName, "flight" := t.flight,
        "from" := t.origin, "to" := t.destination, "seat" := t.seat]
  }

  /** The issuance answer for a ticket: one boarding-pass credential with the ticket's attributes. */
  function IssuanceFor(t: Stores.Ticket): IssuanceJson {
    IssuanceJson(Irma.LDContextIssuanceRequest, "", "",
      Irma.IssuanceRequest([Irma.CredentialRequest(Irma.BoardingPassCredential, BoardingPassAttributes(t))]))
  }

  /**
   * `handleIRMAServerCallback`: a missing ticket id, an unreadable body, a
   * token that does not parse, claims that are not an object and a missing or
   * non-string `document_number` are 400s, in that order; an unknown ticket
   * is a 500; a document number that differs from the ticket's beyond letter
   * case is an empty 200; otherwise the boarding pass is issued.
   */
  function HandleCallback(ticketId: string, body: JwtBody, tickets: map<string, Stores.Ticket>): (r: CallbackOutcome)
    ensures ticketId == "" ==> r == CallbackFailed(HttpError(StatusBadRequest, "missing ticketId"))
    ensures ticketId != "" && body.BodyUnreadable? ==> r == CallbackFailed(HttpError(StatusBadRequest, "invalid body"))
    ensures ticketId != "" && body.JwtMalformed? ==> r == CallbackFailed(HttpError(StatusBadRequest, "invalid JWT"))
    ensures ticketId != "" && body.ClaimsNotMap? ==> r == CallbackFailed(HttpError(StatusBadRequest, "invalid JWT claims"))
    ensures (ticketId != "" && body.Claims? && StringField(body.claims, "document_number").None?) ==>
      r == CallbackFailed(HttpError(StatusBadRequest, "missing document_number"))
    ensures (ticketId != "" && body.Claims? && StringField(body.claims, "document_number").Some?
             && ticketId !in tickets) ==>
      r == CallbackFailed(HttpError(StatusInternalServerError, ErrorInternal))
    ensures r.NoIssuance? <==> (ticketId != "" && body.Claims? && ticketId in tickets
      && StringField(body.claims, "document_number").Some?
      && !EqualFold(tickets[ticketId].documentNumber, StringField(body.claims, "document_number").value))
    ensures r.Issue? <==> (ticketId != "" && body.Claims? && ticketId in tickets
      && StringField(body.claims, "document_number").Some?
      && EqualFold(tickets[ticketId].documentNumber, StringField(body.claims, "document_number").value))
    ensures r.Issue? ==> r.payload == IssuanceFor(tickets[ticketId])
  {
    if ticketId == "" then CallbackFailed(HttpError(StatusBadRequest, "missing ticketId"))
    else match body
      case BodyUnreadable => CallbackFailed(HttpError(StatusBadRequest, "invalid body"))
      case JwtMalformed => CallbackFailed(HttpError(StatusBadRequest, "invalid JWT"))
      case ClaimsNotMap => CallbackFailed(HttpError(StatusBadRequest, "invalid JWT claims"))
      case Claims(claims) =>
        match StringField(claims, "document_number")
        case None => CallbackFailed(HttpError(StatusBadRequest, "missing document_number"))
        case Some(disclosedDoc) =>
          if ticketId !in tickets then CallbackFailed(HttpError(StatusInternalServerError, ErrorInternal))
          else if !EqualFold(tickets[ticketId].documentNumber, disclosedDoc) then NoIssuance
          else Issue(IssuanceFor(tickets[ticketId]))
  }

  /**
   * What an issued boarding pass says: exactly one credential, of type
   * `irma-demo.demo-airline.boardingpass`, whose attributes are the ticket's
   * passenger and flight data, for a ticket whose document number the
   * disclosed one equals up to case (and hence in length).
   */
  lemma IssuedPassMatchesTicket(ticketId: string, body: JwtBody, tickets: map<string, Stores.Ticket>)
    requires HandleCallback(ticketId, body, tickets).Issue?
    ensures var creds := HandleCallback(ticketId, body, tickets).payload.request.credentials;
      && ticketId in tickets && body.Claims?
      && |creds| == 1 && creds[0].credentialTypeId == Irma.BoardingPassCredential
      && creds[0].attributes == BoardingPassAttributes(tickets[ticketId])
      && "document_number" in body.claims && body.claims["document_number"].JString?
      && |body.claims["document_number"].s| == |tickets[ticketId].documentNumber|
  {
    var doc := StringField(body.claims, "document_number").value;
    EqualFoldProperties(tickets[ticketId].documentNumber, doc, "");
  }

  /** Outcomes do not depend on tickets other than the one named: the callback reads one entry only. */
  lemma CallbackReadsOneTicket(ticketId: string, body: JwtBody, t1: map<string, Stores.Ticket>, t2: map<string, Stores.Ticket>)
    requires (ticketId in t1 <==> ticketId in t2) && (ticketId in t1 ==> t1[ticketId] == t2[ticketId])
    ensures HandleCallback(ticketId, body, t1) == HandleCallback(ticketId, body, t2)
  {
  }
}
