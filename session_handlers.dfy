/**
 * The ticket-bound disclosure handlers (backend/session_handlers.go):
 * starting a session for a ticket whose passenger data the caller knows, and
 * judging the verifier's result against the ticket the session was opened for.
 * The verifier's HTTP endpoints are function parameters; the JSON bodies
 * come in already decoded.
 */
module SessionHandlers {
  import opened Wrappers
  import opened Strings
  import opened Http
  import opened Seqs
  import Irma
  import Config
  import Stores
  import IrmaClient
  import SessionMatcher
  import UrlHelpers
  import Server

  /** `startVerificationRequest`. */
  datatype StartRequest = StartRequest(ticketId: string, firstName: string, lastName: string, documentNumber: string)

  /** How a start request ends: an error response, or the session pointer and id handed to the client. */
  datatype StartOutcome =
    | StartFailed(error: HttpError)
    | Started(sessionPtr: IrmaClient.SessionPointer, sessionId: string)

  /**
   * The checks a start request passes before anything outside is contacted,
   * on the decoded body (None when it did not decode) and the stored tickets:
   * the ticket to open the session for, or the error response.
   */
  function StartPrecheck(body: Option<StartRequest>, tickets: map<string, Stores.Ticket>): (r: Result<Stores.Ticket, HttpError>)
    ensures body.None? ==> r == Failure(HttpError(StatusBadRequest, "invalid request"))
    ensures body.Some? && TrimSpace(body.value.ticketId) == "" ==>
      r == Failure(HttpError(StatusBadRequest, "missing ticketId"))
    ensures body.Some? && TrimSpace(body.value.ticketId) != "" && !FieldsPresent(body.value) ==>
      r == Failure(HttpError(StatusBadRequest, "missing fields"))
    ensures (body.Some? && TrimSpace(body.value.ticketId) != "" && FieldsPresent(body.value)
             && TrimSpace(body.value.ticketId) !in tickets) ==>
      r == Failure(HttpError(StatusNotFound, "ticket not found"))
    ensures r.Success? <==> body.Some? && Admissible(body.value, tickets)
    ensures r.Success? ==> r.value == tickets[TrimSpace(body.value.ticketId)]
    ensures (body.Some? && TrimSpace(body.value.ticketId) != "" && FieldsPresent(body.value)
             && TrimSpace(body.value.ticketId) in tickets && r.Failure?) ==>
      r.error == HttpError(StatusBadRequest, "ticket mismatch")
  {
    match body
    case None => Failure(HttpError(StatusBadRequest, "invalid request"))
    case Some(req) =>
      var id := TrimSpace(req.ticketId);
      if id == "" then Failure(HttpError(StatusBadRequest, "missing ticketId"))
      else if !FieldsPresent(req) then Failure(HttpError(StatusBadRequest, "missing fields"))
      else if id !in tickets then Failure(HttpError(StatusNotFound, "ticket not found"))
      else if !PassengerMatches(req, tickets[id]) then Failure(HttpError(StatusBadRequest, "ticket mismatch"))
      else Success(tickets[id])
  }

  /** The names and document number are non-empty once trimmed (the document also upper-cased). */
  predicate FieldsPresent(req: StartRequest) {
    TrimSpace(req.firstName) != "" && TrimSpace(req.lastName) != "" && ToUpper(TrimSpace(req.documentNumber)) != ""
  }

  /** The trimmed names and the normalized document number equal the ticket's up to case. */
  predicate PassengerMatches(req: StartRequest, ticket: Stores.Ticket) {
    EqualFold(ticket.firstName, TrimSpace(req.firstName))
    && EqualFold(ticket.lastName, TrimSpace(req.lastName))
    && EqualFold(ticket.documentNumber, ToUpper(TrimSpace(req.documentNumber)))
  }

  /** A request that may open a session: an id, all fields, a stored ticket, and matching passenger data. */
  predicate Admissible(req: StartRequest, tickets: map<string, Stores.Ticket>) {
    var id := TrimSpace(req.ticketId);
    id != "" && FieldsPresent(req) && id in tickets && PassengerMatches(req, tickets[id])
  }

  /**
   * An admitted request names its ticket by its id and agrees with it: in a
   * store where every ticket sits under its own id, the ticket returned has
   * the trimmed requested id, and its names and document number equal, up to
   * case, the non-empty values the caller gave.
   */
  lemma AdmittedTicketAgrees(body: Option<StartRequest>, tickets: map<string, Stores.Ticket>)
    requires forall id :: id in tickets ==> tickets[id].id == id
    requires StartPrecheck(body, tickets).Success?
    ensures var t, req := StartPrecheck(body, tickets).value, body.value;
      && t.id == TrimSpace(req.ticketId) && t.id != ""
      && t.firstName != "" && t.lastName != "" && t.documentNumber != ""
      && EqualFold(t.firstName, TrimSpace(req.firstName))
      && EqualFold(t.lastName, TrimSpace(req.lastName))
      && EqualFold(t.documentNumber, ToUpper(TrimSpace(req.documentNumber)))
      && EqualFold(t.documentNumber, TrimSpace(req.documentNumber))
  {
    var t, req := StartPrecheck(body, tickets).value, body.value;
    EqualFoldProperties(t.firstName, TrimSpace(req.firstName), "");
    EqualFoldProperties(t.lastName, TrimSpace(req.lastName), "");
    EqualFoldToUpper(TrimSpace(req.documentNumber));
    EqualFoldProperties(t.documentNumber, ToUpper(TrimSpace(req.documentNumber)), TrimSpace(req.documentNumber));
  }

  /**
   * The checks of `handleStartIRMASession` up to the ticket comparison, in
   * the source's order, reading the ticket store once: they decide exactly
   * as StartPrecheck does and change nothing.
   */
  method CheckStart(store: Stores.TicketStore, body: Option<StartRequest>) returns (r: Result<Stores.Ticket, HttpError>)
    ensures r == StartPrecheck(body, store.tickets)
  {
    if body.None? {
      return Failure(HttpError(StatusBadRequest, "invalid request"));
    }
    var req := body.value;
    var ticketId := TrimSpace(req.ticketId);
    if ticketId == "" {
      return Failure(HttpError(StatusBadRequest, "missing ticketId"));
    }
    var first := TrimSpace(req.firstName);
    var last := TrimSpace(req.lastName);
    var doc := ToUpper(TrimSpace(req.documentNumber));
    if first == "" || last == "" || doc == "" {
      return Failure(HttpError(StatusBadRequest, "missing fields"));
    }
    var got := store.Get(ticketId);
    if got.Failure? {
      return Failure(HttpError(StatusNotFound, "ticket not found"));
    }
    var ticket := got.value;
    if !EqualFold(ticket.firstName, first) || !EqualFold(ticket.lastName, last) || !EqualFold(ticket.documentNumber, doc) {
      return Failure(HttpError(StatusBadRequest, "ticket mismatch"));
    }
    return Success(ticket);
  }

  /** The chained request: disclose the configured attribute, then let the verifier call back for the ticket. */
  function ChainedRequest(cfg: Config.CredentialConfig, httpReq: UrlHelpers.Request, ticketId: string): Irma.ServiceProviderRequest {
    Irma.ServiceProviderRequest(
      Some(Irma.NextSessionData(UrlHelpers.BuildCallbackUrl(httpReq, ticketId))),
      IrmaClient.MakeDisclosureRequest(cfg))
  }

  /**
   * `handleStartIRMASession`. `keyLoaded` says whether the private key was
   * read and parsed; `startChainedSession` stands for the signed POST to the
   * verifier. A rejected request stores no token and links nothing; a
   * started session stores the token under the session id taken from the
   * pointer and then links that id to the ticket.
   */
  method HandleStartIrmaSession(
    state: Server.ServerState,
    body: Option<StartRequest>,
    httpReq: UrlHelpers.Request,
    keyLoaded: bool,
    startChainedSession: Irma.ServiceProviderRequest -> Result<IrmaClient.SessionPackage, string>)
    returns (outcome: StartOutcome)
    modifies state.tokenStorage, state.sessionTracker
    ensures var pre := StartPrecheck(body, state.ticketStore.tickets);
      && (pre.Failure? ==> outcome == StartFailed(pre.error))
      && (pre.Success? && !keyLoaded ==> outcome == StartFailed(HttpError(StatusInternalServerError, ErrorInternal)))
      && (pre.Success? && keyLoaded ==>
            var sp := startChainedSession(ChainedRequest(state.credentialConfig, httpReq, pre.value.id));
            && (sp.Failure? ==> outcome == StartFailed(HttpError(StatusBadGateway, ErrorInternal)))
            && (sp.Success? ==>
                  var sid := IrmaClient.ExtractSessionIdFromPtr(sp.value.sessionPtr);
                  && (sid.Failure? ==> outcome == StartFailed(HttpError(StatusInternalServerError, ErrorInternal)))
                  && (sid.Success? ==>
                        && outcome == Started(sp.value.sessionPtr, sid.value)
                        && state.tokenStorage.tokenMap == old(state.tokenStorage.tokenMap)[sid.value := sp.value.token]
                        && state.sessionTracker.links == old(state.sessionTracker.links)[sid.value := pre.value.id])))
    ensures outcome.StartFailed? ==>
      state.tokenStorage.tokenMap == old(state.tokenStorage.tokenMap)
      && state.sessionTracker.links == old(state.sessionTracker.links)
  {
    var pre := CheckStart(state.ticketStore, body);
    if pre.Failure? {
      return StartFailed(pre.error);
    }
    var ticket := pre.value;
    var ext := Irma.ServiceProviderRequest(
      Some(Irma.NextSessionData(UrlHelpers.BuildCallbackUrl(httpReq, ticket.id))),
      IrmaClient.MakeDisclosureRequest(state.credentialConfig));
    if !keyLoaded {
      return StartFailed(HttpError(StatusInternalServerError, ErrorInternal));
    }
    var sp := startChainedSession(ext);
    if sp.Failure? {
      return StartFailed(HttpError(StatusBadGateway, ErrorInternal));
    }
    var sessionId := IrmaClient.ExtractSessionIdFromPtr(sp.value.sessionPtr);
    if sessionId.Failure? {
      return StartFailed(HttpError(StatusInternalServerError, ErrorInternal));
    }
    var err := state.tokenStorage.StoreToken(sessionId.value, sp.value.token);
    if err.Some? {
      return StartFailed(HttpError(StatusInternalServerError, ErrorInternal));
    }
    state.sessionTracker.Link(sessionId.value, ticket.id);
    return Started(sp.value.sessionPtr, sessionId.value);
  }

  /** What the verifier's result endpoint answered: the body as text, and what it decodes to (None when it does not). */
  datatype ResultBody = ResultBody(raw: string, parsed: Option<SessionMatcher.SessionResultPayload>)

  /** `verificationResponse`; an empty message is left out of the JSON. */
  datatype VerificationResponse = VerificationResponse(sessionResult: string, verified: bool, message: string)

  /** The attribute a result must disclose, as the result handler formats it. */
  function ExpectedAttribute(cfg: Config.CredentialConfig): string {
    "pbdf-staging." + cfg.issuerId + "." + cfg.credential + "." + cfg.attribute
  }

  /** The result handler expects exactly the attribute the start handler's disclosure request asks for. */
  lemma ExpectedAttributeIsRequested(cfg: Config.CredentialConfig)
    ensures ExpectedAttribute(cfg) == IrmaClient.MakeDisclosureRequest(cfg).disclose[0][0][0].attributeType
  {
    assert ExpectedAttribute(cfg) == IrmaClient.AttributeIdentifier(cfg);
  }

  /** Where a session's result is fetched from. */
  function ResultUrl(irmaServerUrl: string, token: string): string {
    irmaServerUrl + "/session/" + token + "/result"
  }

  /** Under one server URL, distinct session tokens are fetched from distinct result URLs. */
  lemma {:induction false} ResultUrlInjective(irmaServerUrl: string, a: string, b: string)
    ensures ResultUrl(irmaServerUrl, a) == ResultUrl(irmaServerUrl, b) <==> a == b
  {
    var n := |irmaServerUrl| + |"/session/"|;
    assert ResultUrl(irmaServerUrl, a)[n..|ResultUrl(irmaServerUrl, a)| - |"/result"|] == a;
    assert ResultUrl(irmaServerUrl, b)[n..|ResultUrl(irmaServerUrl, b)| - |"/result"|] == b;
  }

  /** The verifier reports a finished session, a valid proof and no error. */
  predicate Gate(result: SessionMatcher.SessionResultPayload) {
    result.status == Irma.ServerStatusDone && result.proofStatus == Irma.ProofStatusValid && result.err.None?
  }

  /**
   * The verdict on a parsed result for the linked ticket: `verified` and the
   * message, or the error response when the ticket cannot be loaded.
   * `verified` holds exactly when the gate passes, the expected attribute is
   * disclosed, the ticket is there, and its document number equals the
   * disclosed value up to case; each way of failing has its own message.
   */
  function Judge(result: SessionMatcher.SessionResultPayload, expectedAttr: string, ticketId: string,
                 tickets: map<string, Stores.Ticket>): (r: Result<(bool, string), HttpError>)
    ensures var (doc, found) := SessionMatcher.DocumentNumberOf(result, expectedAttr);
      && (r.Success? && r.value.0 <==>
            Gate(result) && found && ticketId in tickets && EqualFold(tickets[ticketId].documentNumber, doc))
      && (r.Success? && r.value.0 ==> r.value.1 == "")
      && (r.Failure? <==> Gate(result) && found && ticketId !in tickets)
      && (r.Failure? ==> r.error == HttpError(StatusInternalServerError, ErrorInternal))
      && (Gate(result) && !found ==> r == Success((false, "required attribute not disclosed")))
      && (Gate(result) && found && ticketId in tickets && !EqualFold(tickets[ticketId].documentNumber, doc) ==>
            r == Success((false, "passport data does not match ticket")))
      && (!Gate(result) && result.err.Some? ==> r == Success((false, result.err.value.message)))
      && (!Gate(result) && result.err.None? ==> r == Success((false, "")))
  {
    if Gate(result) then
      var (doc, found) := SessionMatcher.DocumentNumberOf(result, expectedAttr);
      if !found then Success((false, "required attribute not disclosed"))
      else if ticketId !in tickets then Failure(HttpError(StatusInternalServerError, ErrorInternal))
      else if !EqualFold(tickets[ticketId].documentNumber, doc) then Success((false, "passport data does not match ticket"))
      else Success((true, ""))
    else if result.err.Some? then Success((false, result.err.value.message))
    else Success((false, ""))
  }

  /**
   * A verified result really disclosed the passenger's document: some record,
   * in the first group-then-record position that matches, has an id equal to
   * the expected attribute up to case, and the linked ticket's document number
   * equals that record's trimmed, upper-cased value up to case.
   */
  lemma VerifiedMeansDisclosed(result: SessionMatcher.SessionResultPayload, expectedAttr: string, ticketId: string,
                               tickets: map<string, Stores.Ticket>)
    requires Judge(result, expectedAttr, ticketId, tickets) == Success((true, ""))
    ensures result.status == Irma.ServerStatusDone && result.proofStatus == Irma.ProofStatusValid && result.err.None?
    ensures ticketId in tickets
    ensures var flat := Flatten(result.disclosed);
      exists k :: 0 <= k < |flat| && EqualFold(flat[k].id, expectedAttr)
        && EqualFold(tickets[ticketId].documentNumber, SessionMatcher.Normalize(SessionMatcher.Resolve(flat[k])))
  {
    var flat := Flatten(result.disclosed);
    SessionMatcher.DocumentNumberIsFirstMatch(result, expectedAttr);
    var (doc, found) := SessionMatcher.DocumentNumberOf(result, expectedAttr);
    var k :| 0 <= k < |flat| && SessionMatcher.Hit(flat[k], expectedAttr) == Some(doc)
      && forall j :: 0 <= j < k ==> SessionMatcher.Hit(flat[j], expectedAttr).None?;
    assert EqualFold(flat[k].id, expectedAttr);
  }

  /** The response for a judged result. */
  function Respond(raw: string, verdict: Result<(bool, string), HttpError>): Result<VerificationResponse, HttpError> {
    match verdict
    case Failure(e) => Failure(e)
    case Success((verified, message)) => Success(VerificationResponse(raw, verified, message))
  }

  /**
   * `handleResultIRMASession`. `fetch` stands for the GET of the result URL
   * and the reading of its body (None when any of those failed). The token is
   * only read, never removed. Once the result is fetched, the session's link
   * is consumed before the body is parsed, so it is gone even when parsing or
   * the ticket lookup then fails; without a link the answer is the raw result,
   * unverified and without a message.
   */
  method HandleResultIrmaSession(state: Server.ServerState, sessionId: string, fetch: string -> Option<ResultBody>)
    returns (r: Result<VerificationResponse, HttpError>)
    modifies state.sessionTracker
    ensures state.tokenStorage.tokenMap == old(state.tokenStorage.tokenMap)
    ensures sessionId == "" ==> r == Failure(HttpError(StatusBadRequest, "missing sessionID"))
    ensures sessionId != "" && sessionId !in state.tokenStorage.tokenMap ==>
      r == Failure(HttpError(StatusBadRequest, "invalid sessionID"))
    ensures (sessionId == "" || sessionId !in state.tokenStorage.tokenMap) ==>
      state.sessionTracker.links == old(state.sessionTracker.links)
    ensures sessionId != "" && sessionId in state.tokenStorage.tokenMap ==>
      var fetched := fetch(ResultUrl(state.irmaServerUrl, state.tokenStorage.tokenMap[sessionId]));
      && (fetched.None? ==>
            && r == Failure(HttpError(StatusBadGateway, ErrorInternal))
            && state.sessionTracker.links == old(state.sessionTracker.links))
      && (fetched.Some? ==> state.sessionTracker.links == old(state.sessionTracker.links) - {sessionId})
      && (fetched.Some? && sessionId !in old(state.sessionTracker.links) ==>
            r == Success(VerificationResponse(fetched.value.raw, false, "")))
      && (fetched.Some? && sessionId in old(state.sessionTracker.links) && fetched.value.parsed.None? ==>
            r == Failure(HttpError(StatusBadGateway, ErrorInternal)))
      && (fetched.Some? && sessionId in old(state.sessionTracker.links) && fetched.value.parsed.Some? ==>
            r == Respond(fetched.value.raw,
                         Judge(fetched.value.parsed.value, ExpectedAttribute(state.credentialConfig),
                               old(state.sessionTracker.links)[sessionId], state.ticketStore.tickets)))
  {
    if sessionId == "" {
      return Failure(HttpError(StatusBadRequest, "missing sessionID"));
    }
    var token := state.tokenStorage.RetrieveToken(sessionId);
    if token.Failure? {
      return Failure(HttpError(StatusBadRequest, "invalid sessionID"));
    }
    var fetched := fetch(ResultUrl(state.irmaServerUrl, token.value));
    if fetched.None? {
      return Failure(HttpError(StatusBadGateway, ErrorInternal));
    }
    var body := fetched.value;
    var response := VerificationResponse(body.raw, false, "");
    var ticketId, ok := state.sessionTracker.TicketId(sessionId);
    if ok {
      state.sessionTracker.Remove(sessionId);
      if body.parsed.None? {
        return Failure(HttpError(StatusBadGateway, ErrorInternal));
      }
      var result := body.parsed.value;
      if result.status == Irma.ServerStatusDone && result.proofStatus == Irma.ProofStatusValid && result.err.None? {
        var expectedAttr := "pbdf-staging." + state.credentialConfig.issuerId + "." + state.credentialConfig.credential
          + "." + state.credentialConfig.attribute;
        var disclosedDoc, found := SessionMatcher.ExtractDocumentNumber(result, expectedAttr);
        if !found {
          response := response.(message := "required attribute not disclosed");
        } else {
          var ticket := state.ticketStore.Get(ticketId);
          if ticket.Failure? {
            return Failure(HttpError(StatusInternalServerError, ErrorInternal));
          }
          if !EqualFold(ticket.value.documentNumber, disclosedDoc) {
            response := response.(message := "passport data does not match ticket");
          } else {
            response := response.(verified := true);
          }
        }
      } else if result.err.Some? {
        response := response.(message := result.err.value.message);
      }
    }
    return Success(response);
  }

  /**
   * A link is one-shot: after a call that answered with a result, a second
   * call for the same session is never verified and carries no message,
   * whatever the verifier answers the second time.
   */
  method ResultReplay(state: Server.ServerState, sessionId: string,
                      fetch1: string -> Option<ResultBody>, fetch2: string -> Option<ResultBody>)
    returns (first: Result<VerificationResponse, HttpError>, second: Result<VerificationResponse, HttpError>)
    modifies state.sessionTracker
    ensures first.Success? ==> second.Failure? || (!second.value.verified && second.value.message == "")
  {
    first := HandleResultIrmaSession(state, sessionId, fetch1);
    second := HandleResultIrmaSession(state, sessionId, fetch2);
  }
}
