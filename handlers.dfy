/**
 * The older, token-only flow (backend/handlers.go): `handleStart` starts a
 * plain chained session and stores its token, `handleResult` hands out the
 * verifier's result once and then drops the token, and `handleNextSession`
 * answers the chained call with an issuance request built from the raw values
 * of the first disclosed group. These are the endpoints the server routes.
 */
module Handlers {
  import opened Wrappers
  import opened Json
  import opened Http
  import Irma
  import IrmaClient
  import Server

  /** `issuanceJSON` as this file declares it. */
  datatype IssuanceJson = IssuanceJson(context: string, callbackURL: string, callbackUrl: string, request: Irma.IssuanceRequest)

  /** `StartResponse`: the pointer as received and the session id taken from it. */
  datatype StartResponse = StartResponse(sessionPtr: IrmaClient.SessionPointer, sessionId: string)

  /**
   * `handleStart`. `keyLoaded` says whether the private key was read and
   * parsed, `signed` whether signing the request succeeded, and
   * `startSession` stands for the POST to the given URL together with the
   * decoding of its answer (None when either failed). Only GET is accepted;
   * every later failure is an internal error; on success the token is stored
   * under the session id from the pointer, and a failure stores nothing.
   */
  method HandleStart(state: Server.ServerState, httpMethod: string, keyLoaded: bool, signed: bool,
                     startSession: string -> Option<IrmaClient.SessionPackage>)
    returns (r: Result<StartResponse, HttpError>)
    modifies state.tokenStorage
    ensures httpMethod != "GET" ==> r == Failure(HttpError(StatusBadRequest, "invalid request"))
    ensures httpMethod == "GET" && !(keyLoaded && signed) ==>
      r == Failure(HttpError(StatusInternalServerError, ErrorInternal))
    ensures httpMethod == "GET" && keyLoaded && signed ==>
      var sp := startSession(state.irmaServerUrl + "/session");
      && (sp.None? ==> r == Failure(HttpError(StatusInternalServerError, ErrorInternal)))
      && (sp.Some? ==>
            var sid := IrmaClient.ExtractSessionIdFromPtr(sp.value.sessionPtr);
            && (sid.Failure? ==> r == Failure(HttpError(StatusInternalServerError, ErrorInternal)))
            && (sid.Success? ==>
                  && r == Success(StartResponse(sp.value.sessionPtr, sid.value))
                  && state.tokenStorage.tokenMap == old(state.tokenStorage.tokenMap)[sid.value := sp.value.token]))
    ensures r.Failure? ==> state.tokenStorage.tokenMap == old(state.tokenStorage.tokenMap)
  {
    if httpMethod != "GET" {
      return Failure(HttpError(StatusBadRequest, "invalid request"));
    }
    if !keyLoaded || !signed {
      return Failure(HttpError(StatusInternalServerError, ErrorInternal));
    }
    var sp := startSession(state.irmaServerUrl + "/session");
    if sp.None? {
      return Failure(HttpError(StatusInternalServerError, ErrorInternal));
    }
    var sessionId := IrmaClient.ExtractSessionIdFromPtr(sp.value.sessionPtr);
    if sessionId.Failure? {
      return Failure(HttpError(StatusInternalServerError, ErrorInternal));
    }
    var err := state.tokenStorage.StoreToken(sessionId.value, sp.value.token);
    if err.Some? {
      return Failure(HttpError(StatusInternalServerError, ErrorInternal));
    }
    return Success(StartResponse(sp.value.sessionPtr, sessionId.value));
  }

  /** What fetching a session's result gave: the request failed, its body could not be read, or the body. */
  datatype ResultFetch = RequestFailed | ReadFailed | Body(raw: string)

  /**
   * `handleResult`. `getDisclosureResp` stands for the request for the
   * result of the session a token belongs to. A missing session id is
   * rejected before any store is read; an unknown session id is rejected;
   * once the body is read the token is removed, so the result is handed out
   * once per stored token. Every failure leaves the tokens as they were.
   */
  method HandleResult(state: Server.ServerState, sessionId: string, getDisclosureResp: string -> ResultFetch)
    returns (r: Result<string, HttpError>)
    modifies state.tokenStorage
    ensures sessionId == "" ==> r == Failure(HttpError(StatusBadRequest, "missing sessionID"))
    ensures sessionId != "" && sessionId !in old(state.tokenStorage.tokenMap) ==>
      r == Failure(HttpError(StatusBadRequest, "invalid sessionID"))
    ensures sessionId != "" && sessionId in old(state.tokenStorage.tokenMap) ==>
      var fetched := getDisclosureResp(old(state.tokenStorage.tokenMap)[sessionId]);
      && (fetched.RequestFailed? ==> r == Failure(HttpError(StatusInternalServerError, ErrorInternal)))
      && (fetched.ReadFailed? ==> r == Failure(HttpError(StatusBadGateway, ErrorInternal)))
      && (fetched.Body? ==>
            && r == Success(fetched.raw)
            && state.tokenStorage.tokenMap == old(state.tokenStorage.tokenMap) - {sessionId})
    ensures r.Failure? ==> state.tokenStorage.tokenMap == old(state.tokenStorage.tokenMap)
  {
    if sessionId == "" {
      return Failure(HttpError(StatusBadRequest, "missing sessionID"));
    }
    var token := state.tokenStorage.RetrieveToken(sessionId);
    if token.Failure? {
      return Failure(HttpError(StatusBadRequest, "invalid sessionID"));
    }
    var discResp := getDisclosureResp(token.value);
    if discResp.RequestFailed? {
      return Failure(HttpError(StatusInternalServerError, ErrorInternal));
    }
    if discResp.ReadFailed? {
      return Failure(HttpError(StatusBadGateway, ErrorInternal));
    }
    var err := state.tokenStorage.RemoveToken(sessionId);
    if err.Some? {
      return Failure(HttpError(StatusInternalServerError, ErrorInternal));
    }
    return Success(discResp.raw);
  }

  /**
   * A token is consumed by the result it releases: after a call that handed
   * out a result, a second call for the same session is rejected as an
   * unknown session, whatever the verifier would answer.
   */
  method ResultReplay(state: Server.ServerState, sessionId: string,
                      fetch1: string -> ResultFetch, fetch2: string -> ResultFetch)
    returns (first: Result<string, HttpError>, second: Result<string, HttpError>)
    modifies state.tokenStorage
    ensures first.Success? ==> second == Failure(HttpError(StatusBadRequest, "invalid sessionID"))
  {
    first := HandleResult(state, sessionId, fetch1);
    second := HandleResult(state, sessionId, fetch2);
  }

  /** A started session's result can be picked up exactly once with the session id the start returned. */
  method StartThenResult(state: Server.ServerState, keyLoaded: bool, signed: bool,
                         startSession: string -> Option<IrmaClient.SessionPackage>, fetch: string -> ResultFetch)
    returns (started: Result<StartResponse, HttpError>, result: Result<string, HttpError>)
    modifies state.tokenStorage
    ensures started.Success? ==> startSession(state.irmaServerUrl + "/session").Some?
    ensures started.Success? ==>
      var sp := startSession(state.irmaServerUrl + "/session").value;
      && (fetch(sp.token).Body? ==> result == Success(fetch(sp.token).raw))
      && (fetch(sp.token).Body? ==> state.tokenStorage.tokenMap == old(state.tokenStorage.tokenMap) - {started.value.sessionId})
  {
    started := HandleStart(state, "GET", keyLoaded, signed, startSession);
    if started.Success? {
      result := HandleResult(state, started.value.sessionId, fetch);
    } else {
      result := Failure(HttpError(StatusBadRequest, "invalid request"));
    }
  }

  /**
   * The raw value an item of the first disclosed group contributes: its
   * `rawvalue` when the item is a JSON object and that field is a non-empty
   * string.
   */
  function RawValueOf(item: Json): (r: Option<string>)
    ensures r.Some? <==> item.JObject? && StringField(item.fields, "rawvalue").Some? && item.fields["rawvalue"].s != ""
    ensures r.Some? ==> r.value == item.fields["rawvalue"].s
  {
    if item.JObject? then
      match StringField(item.fields, "rawvalue")
      case Some(v) => if v != "" then Some(v) else None
      case None => None
    else None
  }

  /** The values collected from a group: the contributions of its items, in order. */
  function RawValues(group: seq<Json>): (values: seq<string>)
    ensures |values| <= |group|
    ensures forall i :: 0 <= i < |values| ==> values[i] != ""
    decreases |group|
  {
    if group == [] then []
    else
      var rest := RawValues(group[1..]);
      match RawValueOf(group[0])
      case Some(v) => [v] + rest
      case None => rest
  }

  /** Collecting distributes over concatenation, so the values keep the items' order. */
  lemma {:induction false} RawValuesAppend(a: seq<Json>, b: seq<Json>)
    ensures RawValues(a + b) == RawValues(a) + RawValues(b)
    decreases |a|
  {
    if a == [] {
      assert a + b == b;
    } else {
      assert (a + b)[0] == a[0] && (a + b)[1..] == a[1..] + b;
      RawValuesAppend(a[1..], b);
    }
  }

  /** A value is collected exactly when some item of the group contributes it. */
  lemma {:induction false} RawValuesMembers(group: seq<Json>, v: string)
    ensures v in RawValues(group) <==> exists i :: 0 <= i < |group| && RawValueOf(group[i]) == Some(v)
    decreases |group|
  {
    if group != [] {
      RawValuesMembers(group[1..], v);
      if exists i :: 0 <= i < |group[1..]| && RawValueOf(group[1..][i]) == Some(v) {
        var i :| 0 <= i < |group[1..]| && RawValueOf(group[1..][i]) == Some(v);
        assert group[i + 1] == group[1..][i];
      }
      if exists i :: 0 <= i < |group| && RawValueOf(group[i]) == Some(v) {
        var i :| 0 <= i < |group| && RawValueOf(group[i]) == Some(v);
        if i > 0 {
          assert group[1..][i - 1] == group[i];
        }
      }
    }
  }

  /**
   * The loop of `handleNextSession`: appends, in order, the non-empty string
   * `rawvalue` of every object item, skipping everything else.
   */
  method CollectRawValues(group: seq<Json>) returns (values: seq<string>)
    ensures values == RawValues(group)
  {
    values := [];
    var i := 0;
    while i < |group|
      invariant 0 <= i <= |group|
      invariant RawValues(group) == values + RawValues(group[i..])
    {
      assert group[i..][0] == group[i] && group[i..][1..] == group[i + 1..];
      var item := group[i];
      if item.JObject? {
        if "rawvalue" in item.fields && item.fields["rawvalue"].JString? && item.fields["rawvalue"].s != "" {
          values := values + [item.fields["rawvalue"].s];
        }
      }
      i := i + 1;
    }
    assert group[i..] == [];
  }

  /** The first disclosed group: present only when `disclosed` is a non-empty array whose first element is a non-empty array. */
  function FirstGroup(claims: map<string, Json>): (g: Option<seq<Json>>)
    ensures g.Some? <==> ("disclosed" in claims && claims["disclosed"].JArray? && |claims["disclosed"].items| > 0
                          && claims["disclosed"].items[0].JArray? && |claims["disclosed"].items[0].items| > 0)
    ensures g.Some? ==> g.value == claims["disclosed"].items[0].items
  {
    if "disclosed" in claims && claims["disclosed"].JArray? && |claims["disclosed"].items| > 0 then
      var first := claims["disclosed"].items[0];
      if first.JArray? && |first.items| > 0 then Some(first.items) else None
    else None
  }

  /** The attributes of the issued pass: the two given names and the fixed demo flight. */
  function PassAttributes(firstName: string, lastName: string): (a: map<string, string>)
    ensures a.Keys == {"firstname", "lastname", "flight", "from", "to", "seat", "date", "time", "gate"}
    ensures a["firstname"] == firstName && a["lastname"] == lastName
    ensures a["flight"] == "Y256" && a["from"] == "AMS" && a["to"] == "MXP" && a["seat"] == "15B"
    ensures a["date"] == "2025-12-5" && a["time"] == "13:30" && a["gate"] == "12"
  {
    map["firstname" := firstName, "lastname" := lastName, "flight" := "Y256", "from" := "AMS", "to" := "MXP",
        "seat" := "15B", "date" := "2025-12-5", "time" := "13:30", "gate" := "12"]
  }

  /** The issuance answer: one boarding-pass credential with the given names. */
  function Issuance(firstName: string, lastName: string): IssuanceJson {
    IssuanceJson(Irma.LDContextIssuanceRequest, "", "",
      Irma.IssuanceRequest([Irma.CredentialRequest(Irma.BoardingPassCredential, PassAttributes(firstName, lastName))]))
  }

  /** How a next-session call ends: an error response, a runtime panic, or an issuance request. */
  datatype NextOutcome =
    | NextFailed(error: HttpError)
    | Panic
    | Issue(payload: IssuanceJson)

  /** The checks before the values are collected, in the source's order; the first group when they pass. */
  function NextSessionGroup(httpMethod: string, body: JwtBody): (r: Result<seq<Json>, HttpError>)
    ensures httpMethod != "POST" ==> r == Failure(HttpError(StatusBadRequest, "invalid request"))
    ensures httpMethod == "POST" && body.BodyUnreadable? ==> r == Failure(HttpError(StatusBadRequest, "could not read body\n"))
    ensures httpMethod == "POST" && body.JwtMalformed? ==> r == Failure(HttpError(StatusBadRequest, "invalid JWT"))
    ensures httpMethod == "POST" && body.ClaimsNotMap? ==> r == Failure(HttpError(StatusBadRequest, "invalid JWT claims"))
    ensures httpMethod == "POST" && body.Claims? && FirstGroup(body.claims).None? ==>
      r == Failure(HttpError(StatusBadRequest, "invalid disclosed claims"))
    ensures r.Success? <==> httpMethod == "POST" && body.Claims? && FirstGroup(body.claims).Some?
    ensures r.Success? ==> r.value == FirstGroup(body.claims).value
  {
    if httpMethod != "POST" then Failure(HttpError(StatusBadRequest, "invalid request"))
    else match body
      case BodyUnreadable => Failure(HttpError(StatusBadRequest, "could not read body\n"))
      case JwtMalformed => Failure(HttpError(StatusBadRequest, "invalid JWT"))
      case ClaimsNotMap => Failure(HttpError(StatusBadRequest, "invalid JWT claims"))
      case Claims(claims) =>
        match FirstGroup(claims)
        case None => Failure(HttpError(StatusBadRequest, "invalid disclosed claims"))
        case Some(g) => Success(g)
  }

  /**
   * `handleNextSession` as written: no values is a 400, but a single value
   * passes that check and `values[1]` is then out of range, which panics.
   */
  function NextSessionAsWritten(httpMethod: string, body: JwtBody): (r: NextOutcome)
    ensures r.Panic? <==> (NextSessionGroup(httpMethod, body).Success?
      && |RawValues(NextSessionGroup(httpMethod, body).value)| == 1)
  {
    match NextSessionGroup(httpMethod, body)
    case Failure(e) => NextFailed(e)
    case Success(group) =>
      var values := RawValues(group);
      if |values| == 0 then NextFailed(HttpError(StatusBadRequest, "missing raw values"))
      else if |values| == 1 then Panic
      else Issue(Issuance(values[0], values[1]))
  }

  /** A first group holding one object with one non-empty `rawvalue` makes the handler as written panic. */
  lemma OneValuePanics(httpMethod: string, body: JwtBody, item: Json)
    requires httpMethod == "POST"
    requires item == JObject(map["rawvalue" := JString("Alice")])
    requires body == Claims(map["disclosed" := JArray([JArray([item])])])
    ensures NextSessionAsWritten(httpMethod, body).Panic?
  {
    assert FirstGroup(body.claims) == Some([item]);
    assert RawValueOf(item) == Some("Alice");
    assert [item][1..] == [];
    assert RawValues([item]) == ["Alice"];
  }

  /**
   * `handleNextSession` as intended: fewer than two values (the first and
   * last name) is the 400 "missing raw values"; otherwise the pass is issued
   * for the first two collected values. It never panics.
   */
  function NextSession(httpMethod: string, body: JwtBody): (r: NextOutcome)
    ensures !r.Panic?
    ensures NextSessionGroup(httpMethod, body).Failure? ==> r == NextFailed(NextSessionGroup(httpMethod, body).error)
    ensures NextSessionGroup(httpMethod, body).Success? ==>
      var values := RawValues(NextSessionGroup(httpMethod, body).value);
      && (|values| < 2 ==> r == NextFailed(HttpError(StatusBadRequest, "missing raw values")))
      && (|values| >= 2 ==> r == Issue(Issuance(values[0], values[1])))
  {
    match NextSessionGroup(httpMethod, body)
    case Failure(e) => NextFailed(e)
    case Success(group) =>
      var values := RawValues(group);
      if |values| < 2 then NextFailed(HttpError(StatusBadRequest, "missing raw values"))
      else Issue(Issuance(values[0], values[1]))
  }

  /**
   * The correction changes nothing but the panic: wherever the handler as
   * written does not panic, both answer alike, and where it panics the
   * corrected one answers "missing raw values".
   */
  lemma CorrectionOnlyReplacesPanic(httpMethod: string, body: JwtBody)
    ensures !NextSessionAsWritten(httpMethod, body).Panic? ==>
      NextSession(httpMethod, body) == NextSessionAsWritten(httpMethod, body)
    ensures NextSessionAsWritten(httpMethod, body).Panic? ==>
      NextSession(httpMethod, body) == NextFailed(HttpError(StatusBadRequest, "missing raw values"))
  {
  }

  /** The first two collected values come from two items of the group, in that order. */
  lemma {:induction false} RawValuesFirstTwo(group: seq<Json>)
    requires |RawValues(group)| >= 2
    ensures exists i, j ::
              && 0 <= i < j < |group|
              && RawValueOf(group[i]) == Some(RawValues(group)[0])
              && RawValueOf(group[j]) == Some(RawValues(group)[1])
    decreases |group|
  {
    var rest := RawValues(group[1..]);
    match RawValueOf(group[0])
    case Some(v) =>
      RawValuesMembers(group[1..], rest[0]);
      var k :| 0 <= k < |group[1..]| && RawValueOf(group[1..][k]) == Some(rest[0]);
      assert group[k + 1] == group[1..][k];
      assert RawValueOf(group[0]) == Some(RawValues(group)[0]) && RawValueOf(group[k + 1]) == Some(RawValues(group)[1]);
    case None =>
      RawValuesFirstTwo(group[1..]);
      var i, j :| 0 <= i < j < |group[1..]| &&
        RawValueOf(group[1..][i]) == Some(rest[0]) && RawValueOf(group[1..][j]) == Some(rest[1]);
      assert group[i + 1] == group[1..][i] && group[j + 1] == group[1..][j];
      assert RawValueOf(group[i + 1]) == Some(RawValues(group)[0]) && RawValueOf(group[j + 1]) == Some(RawValues(group)[1]);
  }

  /**
   * An issued pass names the passenger by the first two raw values of the
   * first disclosed group: each comes from an object item of that group and
   * is non-empty, and the first name's item comes before the last name's.
   */
  lemma IssuedNamesAreDisclosed(httpMethod: string, body: JwtBody)
    requires NextSession(httpMethod, body).Issue?
    ensures var group := FirstGroup(body.claims).value;
      var attrs := NextSession(httpMethod, body).payload.request.credentials[0].attributes;
      && body.Claims?
      && attrs["firstname"] != "" && attrs["lastname"] != ""
      && (exists i, j ::
            && 0 <= i < j < |group|
            && RawValueOf(group[i]) == Some(attrs["firstname"])
            && RawValueOf(group[j]) == Some(attrs["lastname"]))
  {
    var group := FirstGroup(body.claims).value;
    RawValuesFirstTwo(group);
  }

  /** `handleNextSession` on the decoded body, as intended: the group checks, the collecting loop, the mapping. */
  method HandleNextSession(httpMethod: string, body: JwtBody) returns (r: NextOutcome)
    ensures r == NextSession(httpMethod, body)
  {
    var checked := NextSessionGroup(httpMethod, body);
    if checked.Failure? {
      return NextFailed(checked.error);
    }
    var values := CollectRawValues(checked.value);
    if |values| < 2 {
      return NextFailed(HttpError(StatusBadRequest, "missing raw values"));
    }
    return Issue(Issuance(values[0], values[1]));
  }
}
