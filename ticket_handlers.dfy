/**
 * Buying and looking up tickets (backend/ticket_handlers.go): the passenger
 * data is normalised and checked, the flight data is the demo default, and
 * the new ticket goes into the ticket store.
 */
module TicketHandlers {
  import opened Wrappers
  import opened Strings
  import opened Http
  import opened Bytes
  import Stores
  import SessionHandlers

  /** `ticketRequest`. */
  datatype TicketRequest = TicketRequest(firstName: string, lastName: string, documentNumber: string)

  const DefaultFlight := "OS123"
  const DefaultFrom := "AMS"
  const DefaultTo := "BCN"
  const DefaultSeat := "12A"

  /**
   * The ticket a request asks for, before the store gives it an id and a
   * creation time: the trimmed names, the trimmed and upper-cased document
   * number and the default flight, with date, time and gate left empty; or
   * "missing fields" when any of the three is empty after normalisation.
   */
  function TicketFor(req: TicketRequest): (r: Result<Stores.Ticket, HttpError>)
    ensures r.Failure? <==>
      TrimSpace(req.firstName) == "" || TrimSpace(req.lastName) == "" || ToUpper(TrimSpace(req.documentNumber)) == ""
    ensures r.Failure? ==> r.error == HttpError(StatusBadRequest, "missing fields")
    ensures r.Success? ==> var t := r.value;
      && t.firstName == TrimSpace(req.firstName) && t.lastName == TrimSpace(req.lastName)
      && t.documentNumber == ToUpper(TrimSpace(req.documentNumber))
      && t.flight == DefaultFlight && t.origin == DefaultFrom && t.destination == DefaultTo && t.seat == DefaultSeat
      && t.date == "" && t.time == "" && t.gate == ""
  {
    var first := TrimSpace(req.firstName);
    var last := TrimSpace(req.lastName);
    var doc := ToUpper(TrimSpace(req.documentNumber));
    if first == "" || last == "" || doc == "" then Failure(HttpError(StatusBadRequest, "missing fields"))
    else Success(Stores.Ticket("", first, last, doc, DefaultFlight, DefaultFrom, DefaultTo, DefaultSeat, "", "", "", 0))
  }

  /**
   * The passenger data of an accepted request is in normal form: non-empty
   * and without surrounding white space, the document number also upper-case,
   * so normalising it again changes nothing.
   */
  lemma TicketForIsNormalized(req: TicketRequest)
    requires TicketFor(req).Success?
    ensures var t := TicketFor(req).value;
      && t.firstName != "" && TrimSpace(t.firstName) == t.firstName
      && t.lastName != "" && TrimSpace(t.lastName) == t.lastName
      && t.documentNumber != "" && TrimSpace(t.documentNumber) == t.documentNumber
      && ToUpper(t.documentNumber) == t.documentNumber
      && TicketFor(TicketRequest(t.firstName, t.lastName, t.documentNumber)) == TicketFor(req)
  {
    TrimFuncIdempotent(req.firstName, IsSpace);
    TrimFuncIdempotent(req.lastName, IsSpace);
    NormalizedIsTrimmed(req.documentNumber);
    ToUpperIdempotent(TrimSpace(req.documentNumber));
  }

  /**
   * `handleCreateTicket` on the decoded body (None when it did not decode).
   * A rejected request leaves the store alone; an accepted one calls Create
   * once and answers with the ticket it stored.
   */
  method HandleCreateTicket(store: Stores.TicketStore, body: Option<TicketRequest>, random: seq<byte>, now: Stores.Timestamp)
    returns (r: Result<Stores.Ticket, HttpError>)
    requires store.Valid()
    requires |random| == 16 && Stores.NewId(random) !in store.tickets
    modifies store
    ensures store.Valid()
    ensures body.None? ==> r == Failure(HttpError(StatusBadRequest, "invalid request"))
    ensures body.Some? && TicketFor(body.value).Failure? ==> r == TicketFor(body.value)
    ensures r.Failure? ==> store.tickets == old(store.tickets)
    ensures r.Success? <==> body.Some? && TicketFor(body.value).Success?
    ensures r.Success? ==>
      && r.value == TicketFor(body.value).value.(id := Stores.NewId(random), createdAt := now)
      && store.tickets == old(store.tickets)[r.value.id := r.value]
  {
    if body.None? {
      return Failure(HttpError(StatusBadRequest, "invalid request"));
    }
    var req := body.value;
    var first := TrimSpace(req.firstName);
    var last := TrimSpace(req.lastName);
    var doc := ToUpper(TrimSpace(req.documentNumber));
    if first == "" || last == "" || doc == "" {
      return Failure(HttpError(StatusBadRequest, "missing fields"));
    }
    var ticket := Stores.Ticket("", first, last, doc, DefaultFlight, DefaultFrom, DefaultTo, DefaultSeat, "", "", "", 0);
    var created := store.Create(ticket, random, now);
    return Success(created);
  }

  /** `handleGetTicket`: an empty id is a 400, an unknown one a 404; nothing changes. */
  method HandleGetTicket(store: Stores.TicketStore, ticketId: string) returns (r: Result<Stores.Ticket, HttpError>)
    ensures ticketId == "" ==> r == Failure(HttpError(StatusBadRequest, "missing ticketId"))
    ensures ticketId != "" && ticketId !in store.tickets ==> r == Failure(HttpError(StatusNotFound, "ticket not found"))
    ensures r.Success? <==> ticketId != "" && ticketId in store.tickets
    ensures r.Success? ==> r.value == store.tickets[ticketId]
  {
    if ticketId == "" {
      return Failure(HttpError(StatusBadRequest, "missing ticketId"));
    }
    var got := store.Get(ticketId);
    if got.Failure? {
      return Failure(HttpError(StatusNotFound, "ticket not found"));
    }
    return Success(got.value);
  }

  /** A generated id is never changed by trimming: hexadecimal digits are not white space. */
  lemma NewIdIsTrimmed(random: seq<byte>)
    requires |random| == 16
    ensures TrimSpace(Stores.NewId(random)) == Stores.NewId(random)
  {
    var id := Stores.NewId(random);
    assert !IsSpace(id[0]) && !IsSpace(id[|id| - 1]);
    TrimFuncNoop(id, IsSpace);
  }

  /**
   * Buying a ticket and then starting a session with the very data the
   * purchase used admits that session for the stored ticket: the new id
   * survives trimming and the normalised passenger data matches itself.
   */
  lemma PurchaseAdmitsStart(req: TicketRequest, random: seq<byte>, now: Stores.Timestamp, tickets: map<string, Stores.Ticket>)
    requires |random| == 16 && TicketFor(req).Success?
    requires var t := TicketFor(req).value.(id := Stores.NewId(random), createdAt := now);
      t.id in tickets && tickets[t.id] == t
    ensures var t := TicketFor(req).value.(id := Stores.NewId(random), createdAt := now);
      SessionHandlers.StartPrecheck(
        Some(SessionHandlers.StartRequest(t.id, req.firstName, req.lastName, req.documentNumber)), tickets) == Success(t)
  {
    var t := TicketFor(req).value.(id := Stores.NewId(random), createdAt := now);
    NewIdIsTrimmed(random);
    EqualFoldProperties(t.firstName, t.firstName, "");
    EqualFoldProperties(t.lastName, t.lastName, "");
    EqualFoldProperties(t.documentNumber, t.documentNumber, "");
  }
}
