# Boarding pass: the ticket-bound verification layer

This project models the backend of the boarding-pass demo. A passenger buys a
ticket. To start a disclosure session, the passenger gives the ticket id and
their name and passport number, all of which must match the ticket. The
verifier (an IRMA server) then collects the passport document number from the
passenger's wallet. When that number matches the ticket, the backend confirms
the passenger and issues a boarding-pass credential.

The model covers:

- **The three stores.** The ticket registry, the one-shot links from a session
  to a ticket, and the session-token storage. Each is a class with a `map`
  field, and its methods have frame-precise contracts.
- **The two attribute matchers.** Each is a recursive specification plus the
  nested loop that implements it.
- **The handler decisions.**
  - Start: the pre-check, then the token store and the link.
  - Result: the link is consumed, then the gate on status, proof status and
    error, then the document-number comparison.
  - The chained callback and its issuance attributes.
  - The older token-only flow: start, result and next session.
  - Ticket purchase and lookup.
- **The callback URL and the web client.** The callback URL builder is modelled
  together with Go's query escaping and parsing. Also modelled: the web
  client's API-endpoint normalisation and its hash routing.

The Go sources are not one consistent program, so each file's version is kept
in its own module, and declarations that appear twice are not merged. The
model follows the code in these points, which are easy to misread:

- **Status values.** The result gate compares `status` and `proofStatus`
  exactly with irmago's upper-case constants `ServerStatusDone` ("DONE") and
  `ProofStatusValid` ("VALID"), so a lower-case "done" or "valid" fails it.
- **Inner spaces.** A disclosed " x12 34 " is trimmed and upper-cased to
  "X12 34". Only the ends are trimmed, so the inner space is kept.
- **`ServerState` fields.** In backend/server.go, `ServerState` has no
  `ticketStore` or `sessionTracker`, but the handlers use both. The model's
  `Server.ServerState` has both.
- **`CredentialConfig` fields.** In backend/main.go, `CredentialConfig` has no
  `IssuerId`, `Credential` or `Attribute`, but the handlers read all three.
  The model's `Config.CredentialConfig` has them.

Inputs from outside the program are parameters of the model:

- External calls are function-typed parameters:
  - the signed POST that starts a session;
  - the GET of a session's result;
  - `getDisclosureResp`.
- Reading and parsing the private key and signing are booleans saying whether
  they succeeded.
- Decoded request bodies are `Option` values; `None` means the body did not
  decode.
- JWT bodies are `Json.JwtBody` values.
- The random bytes of a new id and the clock are parameters.

Strings are `seq<char>`. `strings.TrimSpace` uses Go's exact white-space set.
`strings.ToUpper` and `strings.EqualFold` are ASCII approximations.
`url.QueryEscape` escapes the UTF-8 bytes of each character.

## Model

| member | source | states |
|---|---|---|
| Stores.NewId | backend/ticket_store.go:57-63 | a new id is 32 characters, each from 0-9a-f |
| Stores.HexRoundTrip | backend/ticket_store.go:62 | hex decoding the encoding of any bytes gives those bytes back |
| Stores.NewIdInjective | backend/ticket_store.go:57-63 | two ids are equal exactly when the 16 random bytes were equal |
| Stores.TicketStore.constructor | backend/ticket_store.go:31-33 | a new store is empty and every ticket sits under its own id |
| Stores.TicketStore.Create | backend/ticket_store.go:35-44 | stores the input with the new id and creation time under that id, all other entries unchanged, and returns the stored entry |
| Stores.TicketStore.Get | backend/ticket_store.go:46-55 | succeeds exactly for a stored id, with the stored ticket; otherwise "ticket not found"; nothing changes |
| Stores.CreateThenGet | backend/ticket_store.go:35-55 | Get of a created ticket's id returns that ticket, which differs from the input only in id and creation time |
| Stores.SessionTracker.constructor | backend/ticket_store.go:70-72 | a new tracker has no links |
| Stores.SessionTracker.Link | backend/ticket_store.go:74-78 | binds the session to the ticket, replacing any earlier binding |
| Stores.SessionTracker.TicketId | backend/ticket_store.go:80-85 | (ticket, true) exactly for a linked session, ("", false) otherwise; links unchanged |
| Stores.SessionTracker.Remove | backend/ticket_store.go:87-91 | deletes only the given key; an absent key is a no-op |
| Stores.LinkLookupRemove | backend/ticket_store.go:74-91 | Link then TicketID finds the ticket; Remove then TicketID finds nothing |
| TokenStorage.SessionOfKey | backend/token_storage.go:52-54 | what it returns rebuilds the key it came from |
| TokenStorage.KeyRoundTrip | backend/token_storage.go:52-54 | a key built for a session gives that session back |
| TokenStorage.CreateKeyInjective | backend/token_storage.go:52-54 | for namespaces without ':', two keys are equal exactly when namespace and session agree |
| TokenStorage.NewTokenStorage | backend/token_storage.go:73-87 | "redis" selects Redis with the configured address, password and namespace; "inmemory" selects the map; anything else is fatal with "unknown storage type: " and the type |
| TokenStorage.InMemoryTokenStorage.constructor | backend/token_storage.go:18-22 | a new storage is empty |
| TokenStorage.InMemoryTokenStorage.StoreToken | backend/token_storage.go:91-97 | sets the entry, overwriting any earlier one, and never fails |
| TokenStorage.InMemoryTokenStorage.RetrieveToken | backend/token_storage.go:99-108 | the stored token exactly when present, otherwise the error "failed to find token for" and the key; nothing changes |
| TokenStorage.InMemoryTokenStorage.RemoveToken | backend/token_storage.go:110-120 | a present key is deleted and nil is returned; an absent one is an error and nothing changes |
| TokenStorage.StoreThenRetrieve | backend/token_storage.go:34-48 | Store then Retrieve returns the stored token |
| TokenStorage.StoreRemoveThenRetrieve | backend/token_storage.go:34-48 | Store, Remove, Retrieve: the removal succeeds, the retrieval fails, and a second removal fails |
| IrmaClient.AttributeIdentifierParts | backend/irma_client.go:27 | with dot-free names, the identifier splits on '.' into pbdf-staging, issuer, credential and attribute |
| IrmaClient.MakeDisclosureRequest | backend/irma_client.go:21-31 | one discon holding one con holding exactly the configured attribute |
| IrmaClient.ExtractSessionIdFromPtr | backend/irma_client.go:65-85 | the id is the suffix of `u` after its last '/' (all of `u` without one), non-empty and without '/'; an empty `u` or one ending in '/' gives "empty session ID"; an undecodable pointer gives the unmarshal error |
| IrmaPayloads.ExactHit | backend/irma_payloads.go:20-24 | a record hits exactly when it is present, has a raw value and has exactly the expected id; its value is the raw value unchanged |
| IrmaPayloads.DocumentNumberIsFirstExactMatch | backend/irma_payloads.go:17-29 | found exactly when some record hits; the value is the raw value of the earliest hit in group-then-record order; ("", false) otherwise |
| IrmaPayloads.LeadingExactMatchWins | backend/irma_payloads.go:24 | a leading exact match is returned untrimmed and in its own case, including ("", true) for an empty raw value |
| IrmaPayloads.CaseSensitive | backend/irma_payloads.go:23 | an id that differs from the expected one only in case is not found |
| IrmaPayloads.NoExactMatchNotFound | backend/irma_payloads.go:28 | with no hit anywhere the result is ("", false) |
| IrmaPayloads.ExtractDocumentNumber | backend/irma_payloads.go:17-29 | the nested loop computes the first-hit specification |
| SessionMatcher.Resolve | backend/session_handlers.go:57-65 | `rawvalue`, else `rawValue`, else `value` only if it is a string, else "" |
| SessionMatcher.Hit | backend/session_handlers.go:56-69 | a record hits exactly when its id folds equal to the expected one and its resolved value is non-empty after trim and upper-casing; the hit value is that normal form |
| SessionMatcher.DocumentNumberIsFirstMatch | backend/session_handlers.go:53-74 | found exactly when some record hits; the value is the earliest hit's, non-empty, trimmed and upper-case; ("", false) otherwise |
| SessionMatcher.EarlierGroupWins | backend/session_handlers.go:54-69 | the first hit of the first group is returned, whatever later groups hold |
| SessionMatcher.NormalizeKeepsInnerSpace | backend/session_handlers.go:66 | " x12 34 " normalises to "X12 34" |
| SessionMatcher.FoldExample | backend/session_handlers.go:56 | "A.B.C" and "a.b.c" are equal up to case |
| SessionMatcher.InnerSpaceIsKept | backend/session_handlers.go:53-74 | a sole record " x12 34 " under an id in other case is found as "X12 34" |
| SessionMatcher.ExtractDocumentNumber | backend/session_handlers.go:53-74 | the nested loop computes the first-hit specification |
| SessionHandlers.StartPrecheck | backend/session_handlers.go:77-108 | the exact status and body for an undecodable body, a missing id, missing fields, an unknown ticket and a mismatch, in that order; success exactly for admissible requests, with the stored ticket |
| SessionHandlers.AdmittedTicketAgrees | backend/session_handlers.go:85-108 | an admitted ticket has the trimmed requested id, and its non-empty first name, last name and document number equal the trimmed given ones up to case (the document also equals the upper-cased given one up to case) |
| SessionHandlers.CheckStart | backend/session_handlers.go:77-108 | the handler's checks decide exactly as StartPrecheck and change nothing |
| SessionHandlers.HandleStartIrmaSession | backend/session_handlers.go:76-159 | a pre-check failure, a key failure (500), a failed start (502) or a bad pointer (500) stores no token and links nothing; success stores the token under the pointer's session id and links that id to the ticket |
| SessionHandlers.ExpectedAttributeIsRequested | backend/session_handlers.go:206 | the attribute the result handler expects is the one the disclosure request asks for |
| SessionHandlers.ResultUrlInjective | backend/session_handlers.go:174 | under one server URL, two result URLs are equal exactly when the session tokens are |
| SessionHandlers.Judge | backend/session_handlers.go:205-225 | verified exactly when the gate passes, the attribute is found, the ticket exists and its document folds equal to the disclosed one; each failure has its own message; a missing ticket is a 500 |
| SessionHandlers.VerifiedMeansDisclosed | backend/session_handlers.go:205-222 | a verified result has status DONE, proof VALID, no error, and a disclosed record under the expected id whose value matches the ticket |
| SessionHandlers.HandleResultIrmaSession | backend/session_handlers.go:161-232 | a missing id is a 400 and an unknown token "invalid sessionID"; a failed fetch is a 502; once fetched, the link is removed before parsing; without a link the answer is unverified with no message; the token is never removed |
| SessionHandlers.ResultReplay | backend/session_handlers.go:197-198 | after an answered call, a second call for the same session is never verified and has no message |
| UrlHelpers.HeaderGet | backend/url_helpers.go:9 | the first value under the key, or "" |
| UrlHelpers.Scheme | backend/url_helpers.go:9-16 | X-Forwarded-Proto when non-empty, else "https" under TLS and "http" without |
| UrlHelpers.Host | backend/url_helpers.go:18-21 | X-Forwarded-Host when non-empty, else the request host |
| Bytes.Utf8String | backend/url_helpers.go:28-30 | each character becomes one to four bytes, only the empty text encodes to no bytes, and ASCII text encodes byte for byte to its own codes |
| Bytes.Utf8StringAppend | backend/url_helpers.go:28-30 | the encoding of a concatenation is the concatenation of the encodings |
| UrlHelpers.QueryEscape | backend/url_helpers.go:28-30 | the escaped id holds only unreserved characters, '%', hex digits and '+', and none of '&', '=', ';', '#', '?' |
| UrlHelpers.QueryEscapeRoundTrip | backend/url_helpers.go:28-30 | unescaping the escaped text gives its UTF-8 bytes |
| UrlHelpers.EscapeUnreservedNoop | backend/url_helpers.go:29 | text of unreserved characters is escaped to itself |
| UrlHelpers.SingleParamRoundTrip | backend/url_helpers.go:28-30 | `key=escaped value` parses back to exactly that one parameter |
| UrlHelpers.CallbackQueryRoundTrip | backend/url_helpers.go:28-31 | the callback query parses to exactly one parameter, `ticketId`, holding the ticket id |
| UrlHelpers.CallbackUrlShape | backend/url_helpers.go:23-31 | the URL is scheme, "://", host, "/api/irma/callback", "?" and the callback query, which is its last '?'-part |
| Server.ServerState.constructor | backend/server.go:25-30 | the state holds the given URL, config and stores |
| CallbackHandler.BoardingPassAttributes | backend/callback_handler.go:73-80 | exactly firstname, lastname, flight, from, to, seat, copied from the ticket |
| CallbackHandler.HandleCallback | backend/callback_handler.go:23-97 | in order: missing ticketId, unreadable body, bad JWT, non-map claims and missing or non-string document_number are 400s; an unknown ticket is a 500; no issuance exactly on a case-insensitive mismatch; issuance exactly on a match, for the ticket |
| CallbackHandler.IssuedPassMatchesTicket | backend/callback_handler.go:54-86 | an issued pass is one boarding-pass credential with the ticket's attributes, for a string document_number as long as the ticket's |
| CallbackHandler.CallbackReadsOneTicket | backend/callback_handler.go:60-68 | the outcome depends on the named ticket only |
| Handlers.HandleStart | backend/handlers.go:15-71 | non-GET is a 400; key, signing, session start and pointer failures are 500s; success stores the token under the pointer's session id; a failure stores nothing |
| Handlers.HandleResult | backend/handlers.go:73-116 | a missing id is a 400 before any store access; an unknown id is "invalid sessionID"; a request failure is a 500, a read failure a 502; success returns the body and removes exactly that token |
| Handlers.ResultReplay | backend/handlers.go:81-109 | after a successful result, a repeat call is rejected as "invalid sessionID" |
| Handlers.StartThenResult | backend/handlers.go:52-109 | a started session's result is handed out with the returned id, and its token is then gone |
| Handlers.RawValueOf | backend/handlers.go:159-165 | an item contributes exactly when it is an object with a non-empty string `rawvalue` |
| Handlers.RawValues | backend/handlers.go:157-166 | the collected values are non-empty and no more than the items |
| Handlers.RawValuesAppend | backend/handlers.go:158-166 | collection keeps the items' order |
| Handlers.RawValuesMembers | backend/handlers.go:158-166 | a value is collected exactly when some item contributes it |
| Handlers.CollectRawValues | backend/handlers.go:157-166 | the loop computes RawValues |
| Handlers.FirstGroup | backend/handlers.go:144-154 | present exactly when `disclosed` is a non-empty array whose first element is a non-empty array, and then that element |
| Handlers.PassAttributes | backend/handlers.go:177-187 | the nine attribute names, with the two given names as firstname and lastname and the fixed flight Y256, AMS to MXP, seat 15B, 2025-12-5 at 13:30, gate 12 |
| Handlers.NextSessionGroup | backend/handlers.go:118-154 | non-POST, unreadable body, bad JWT, non-map claims and bad `disclosed` each give their 400, in that order; otherwise the first group |
| Handlers.NextSessionAsWritten | backend/handlers.go:168-188 | the handler as written panics exactly when one value is collected |
| Handlers.OneValuePanics | backend/handlers.go:168-179 | one object with a non-empty rawvalue makes the handler as written panic |
| Handlers.NextSession | backend/handlers.go:168-188 | never panics; fewer than two values is "missing raw values"; otherwise the pass is issued for the first two values |
| Handlers.CorrectionOnlyReplacesPanic | backend/handlers.go:168-188 | the corrected handler agrees with the handler as written wherever that does not panic |
| Handlers.RawValuesFirstTwo | backend/handlers.go:157-166 | the first two collected values come from two items of the group, the first from the earlier item |
| Handlers.IssuedNamesAreDisclosed | backend/handlers.go:157-179 | the issued names are non-empty raw values of two object items of the first group, the first name's item before the last name's |
| Handlers.HandleNextSession | backend/handlers.go:118-204 | the handler computes the corrected NextSession |
| TicketHandlers.TicketFor | backend/ticket_handlers.go:33-50 | trimmed names, trimmed upper-case document, default flight OS123 AMS-BCN seat 12A, empty date, time and gate; "missing fields" exactly when a normalised field is empty |
| TicketHandlers.TicketForIsNormalized | backend/ticket_handlers.go:33-35 | accepted passenger data is non-empty and in normal form, so normalising it again changes nothing |
| TicketHandlers.HandleCreateTicket | backend/ticket_handlers.go:26-58 | an undecodable body or missing fields is a 400 and the store is unchanged; otherwise Create runs once and its ticket is returned |
| TicketHandlers.HandleGetTicket | backend/ticket_handlers.go:60-77 | an empty id is a 400, an absent ticket a 404, otherwise the stored ticket |
| TicketHandlers.NewIdIsTrimmed | backend/ticket_store.go:62 | a generated id is unchanged by trimming |
| TicketHandlers.PurchaseAdmitsStart | backend/ticket_handlers.go:42-52 | starting a session with the purchase's own data is admitted for the stored ticket |
| FrontendConfig.NormalizeEndpoint | frontend/src/config.ts:6-9 | the trimmed value minus only trailing slashes; never ends in '/' |
| FrontendConfig.NormalizeNoop | frontend/src/config.ts:6-9 | a trimmed value without a trailing '/' is unchanged |
| FrontendConfig.NormalizeNotIdempotent | frontend/src/config.ts:6-9 | "a /" normalises to "a ", and a second pass gives "a" |
| FrontendConfig.ApiEndpoint | frontend/src/config.ts:11-17 | "/api" when the normalised value is empty or names VITE_API_ENDPOINT, else that value; never empty and never ending in '/' |
| FrontendConfig.NamedPlaceholderIsDefault | frontend/src/config.ts:15-17 | an already-normalised value (no white space at either end, no trailing '/') that contains VITE_API_ENDPOINT gives "/api" |
| FrontendConfig.NoEnvIsDefault | frontend/src/config.ts:11-17 | without a build value the placeholder is used and gives "/api" |
| FrontendConfig.BlankEnvIsDefault | frontend/src/config.ts:11-17 | an empty or all-white-space value gives "/api" |
| Router.GetRoute | frontend/src/router.tsx:9-19 | "#/about", "#/buy" and "#/verify" are kept; anything else, the empty hash included, is "#/" |
| Router.RouteIsFixedPoint | frontend/src/router.tsx:7-19 | every route maps to itself, so the mapping is idempotent |

Some functions only name a value that other members are about, and carry no
contract of their own; the rows above state their properties:
`TokenStorage.CreateKey` (backend/token_storage.go:52-54) through
`TokenStorage.KeyRoundTrip` and `TokenStorage.CreateKeyInjective`;
`UrlHelpers.BuildCallbackUrl` (backend/url_helpers.go:8-32) through
`UrlHelpers.CallbackUrlShape` and `UrlHelpers.CallbackQueryRoundTrip`;
`UrlHelpers.CallbackQuery` (backend/url_helpers.go:28-30) through
`UrlHelpers.CallbackQueryRoundTrip`;
`FrontendConfig.PlaceholderAware` (frontend/src/config.ts:11) through
`FrontendConfig.NoEnvIsDefault` and `FrontendConfig.BlankEnvIsDefault`;
`IrmaClient.AttributeIdentifier` (backend/irma_client.go:27) through
`IrmaClient.AttributeIdentifierParts`;
`SessionHandlers.ExpectedAttribute` (backend/session_handlers.go:206) through
`SessionHandlers.ExpectedAttributeIsRequested`;
`SessionHandlers.ChainedRequest` (backend/session_handlers.go:110-117) through
`SessionHandlers.HandleStartIrmaSession`, whose contract passes it to the
session start, and `SessionHandlers.ExpectedAttributeIsRequested`, about its
disclosure part;
`SessionHandlers.Respond` (backend/session_handlers.go:195-226) through
`SessionHandlers.HandleResultIrmaSession` and `SessionHandlers.Judge`;
`SessionHandlers.ResultUrl` (backend/session_handlers.go:174) through
`SessionHandlers.ResultUrlInjective`;
`SessionHandlers.Gate` (backend/session_handlers.go:205) through
`SessionHandlers.Judge`;
`CallbackHandler.IssuanceFor` (backend/callback_handler.go:70-86) through
`CallbackHandler.IssuedPassMatchesTicket`;
`Handlers.Issuance` (backend/handlers.go:174-193) through
`Handlers.PassAttributes` and `Handlers.IssuedNamesAreDisclosed`;
`SessionMatcher.Normalize` (backend/session_handlers.go:66) through
`SessionMatcher.Hit`; and the two `DocumentNumberOf` specifications,
`IrmaPayloads.DocumentNumberOf` (backend/irma_payloads.go:17-29) and
`SessionMatcher.DocumentNumberOf` (backend/session_handlers.go:53-74), through
`IrmaPayloads.DocumentNumberIsFirstExactMatch` and
`SessionMatcher.DocumentNumberIsFirstMatch` and the loops proved equal to them.

## Left out

- Redis token storage (`RedisTokenStorage`, its 24-hour TTL): it is a foreign client, and expiry is enforced by Redis. `NewTokenStorage` only records the Redis choice.
- HTTP, JSON and JWT: request decoding, signature checks, signing and PEM parsing are inputs of the model. Response encoding and write failures are left out. The callback and next-session handlers trust unverified JWT claims; no cryptography is modelled.
- `json.Marshal` failures of the issuance payload: they cannot occur for these maps of strings.
- `makeChainedRequest`, `sendDisclosureRequest` and `getDisclosureResp` (called in backend/handlers.go) are not part of this model; their effects are parameters.
- `startChainedSession`'s signing and HTTP exchange: one function parameter stands for them.
- Routing, `NewServer`, `SpaHandler`, `main` and `readConfigFile`: wiring, not decisions. Only the backend/handlers.go endpoints are routed (backend/server.go:88-100); the other handlers are modelled as they are written.
- Concurrency: the mutexes are left out; every operation runs alone.
- Unicode case mapping: `strings.ToUpper` and `strings.EqualFold` are ASCII approximations in the model.
- `crypto/rand` and `time.Now`: the random bytes and the time are parameters. The `panic` on a failed random read is left out.
- The web client's UI: the `Router` component's state and hash listener, the pages, i18n and the result-URL lambda in Verify.tsx are rendering and widget wiring.
- Stores.TicketStore.Create: requires a fresh id. The source does not check, and a collision would overwrite the stored entry.
- Stores.TicketStore.Create: the source returns a pointer to the stored entry itself. The model returns the value, and aliasing through that pointer is not modelled.
- The `ClaimsNotMap` case of `Json.JwtBody`: the "invalid JWT claims" answers of `CallbackHandler.HandleCallback` and `Handlers.NextSessionGroup` (backend/callback_handler.go:47-51, backend/handlers.go:138-142) are kept but cannot occur. `ParseUnverified` is given a `jwt.MapClaims`, so decoded claims are always a map, and a payload that is not an object already fails as "invalid JWT".
- Handlers.HandleResult: the branch where `RemoveToken` fails is kept but never reached. With one call at a time, a token just retrieved is still present.
- Handlers.HandleStart: the case where `StoreToken` fails is unreachable with the in-memory storage.
- UrlHelpers.BuildCallbackUrl: the host is not escaped as `url.URL.String` would do for unusual characters, and the fragment and user-info parts are not modelled.

## Findings

| source | as written | input that shows it | evidently intended | confidence | as-written member | corrected member |
|---|---|---|---|---|---|---|
| backend/handlers.go:168-179 | only zero collected raw values is rejected; then `values[1]` is read | a first disclosed group with exactly one object whose `rawvalue` is a non-empty string | fewer than two values (first and last name) is rejected with 400 "missing raw values" | not executed | Handlers.OneValuePanics | Handlers.NextSession |
