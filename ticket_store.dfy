/**
 * The in-process ticket registry and the one-shot session-to-ticket links
 * (backend/ticket_store.go). Both are maps guarded by a mutex in the source;
 * here each is a class whose map field the methods reassign, one call at a time.
 */
module Stores {
  import opened Wrappers
  import opened Bytes

  /** An instant, as the number of nanoseconds `time.Now().UTC()` stands for. */
  type Timestamp = int

  /** A passenger's ticket. `origin` and `destination` are the JSON fields `from` and `to`. */
  datatype Ticket = Ticket(
    id: string,
    firstName: string,
    lastName: string,
    documentNumber: string,
    flight: string,
    origin: string,
    destination: string,
    seat: string,
    date: string,
    time: string,
    gate: string,
    createdAt: Timestamp)

  /** The error `Get` returns for an unknown id. */
  const TicketNotFound := "ticket not found"

  /** The lower-case hexadecimal digit of a value 0..15. */
  function HexDigit(v: int): (c: char)
    requires 0 <= v < 16
    ensures IsHexDigit(c)
  {
    if v < 10 then ('0' as int + v) as char else ('a' as int + v - 10) as char
  }

  /** A character of the lower-case hexadecimal alphabet `hex.EncodeToString` writes. */
  predicate IsHexDigit(c: char) {
    '0' <= c <= '9' || 'a' <= c <= 'f'
  }

  /** The value 0..15 of a hexadecimal digit. */
  function DigitValue(c: char): (v: int)
    requires IsHexDigit(c)
    ensures 0 <= v < 16 && HexDigit(v) == c
  {
    if c <= '9' then c as int - '0' as int else c as int - 'a' as int + 10
  }

  /** `hex.EncodeToString`: two lower-case digits per byte, high nibble first. */
  function HexEncode(b: seq<byte>): (r: string)
    ensures |r| == 2 * |b|
    ensures forall i :: 0 <= i < |r| ==> IsHexDigit(r[i])
  {
    if b == [] then ""
    else [HexDigit(b[0] as int / 16), HexDigit(b[0] as int % 16)] + HexEncode(b[1..])
  }

  /** `hex.DecodeString`: the inverse of HexEncode, failing on odd lengths and non-digits. */
  function HexDecode(s: string): Option<seq<byte>>
    decreases |s|
  {
    if s == [] then Some([])
    else if |s| == 1 || !IsHexDigit(s[0]) || !IsHexDigit(s[1]) then None
    else match HexDecode(s[2..])
      case None => None
      case Some(rest) => Some([(DigitValue(s[0]) * 16 + DigitValue(s[1])) as byte] + rest)
  }

  /** Decoding an encoding gives back the bytes. */
  lemma {:induction false} HexRoundTrip(b: seq<byte>)
    ensures HexDecode(HexEncode(b)) == Some(b)
  {
    if b != [] {
      var s := HexEncode(b);
      var hi, lo := b[0] as int / 16, b[0] as int % 16;
      assert s[..2] == [HexDigit(hi), HexDigit(lo)];
      assert s[2..] == HexEncode(b[1..]);
      assert DigitValue(s[0]) == hi && DigitValue(s[1]) == lo;
      HexRoundTrip(b[1..]);
      assert [b[0]] + b[1..] == b;
    }
  }

  /**
   * `newID`: the hex encoding of 16 random bytes, 32 lower-case hexadecimal
   * characters. The random bytes are a parameter.
   */
  function NewId(random: seq<byte>): (id: string)
    requires |random| == 16
    ensures |id| == 32
    ensures forall i :: 0 <= i < |id| ==> IsHexDigit(id[i])
  {
    HexEncode(random)
  }

  /** Distinct random draws give distinct ids. */
  lemma NewIdInjective(a: seq<byte>, b: seq<byte>)
    requires |a| == 16 && |b| == 16
    ensures NewId(a) == NewId(b) <==> a == b
  {
    HexRoundTrip(a);
    HexRoundTrip(b);
  }

  /** The ticket registry: `tickets` maps an id to the ticket stored under it. */
  class TicketStore {
    var tickets: map<string, Ticket>

    /** Every ticket is stored under its own id. */
    ghost predicate Valid()
      reads this
    {
      forall id :: id in tickets ==> tickets[id].id == id
    }

    /** `NewTicketStore`. */
    constructor ()
      ensures Valid() && tickets == map[]
    {
      tickets := map[];
    }

    /**
     * `Create`: stores a copy of `ticket` with a fresh id drawn from `random`
     * and `now` as its creation time, and returns the stored entry. The source
     * does not check for an existing id; the model asks for a fresh one.
     */
    method Create(ticket: Ticket, random: seq<byte>, now: Timestamp) returns (created: Ticket)
      requires Valid()
      requires |random| == 16 && NewId(random) !in tickets
      modifies this
      ensures Valid()
      ensures created == ticket.(id := NewId(random), createdAt := now)
      ensures tickets == old(tickets)[created.id := created]
      ensures created.id !in old(tickets)
    {
      created := ticket.(id := NewId(random), createdAt := now);
      tickets := tickets[created.id := created];
    }

    /** `Get`: a copy of the stored ticket, or "ticket not found". */
    method Get(id: string) returns (r: Result<Ticket, string>)
      ensures r.Success? <==> id in tickets
      ensures r.Success? ==> r.value == tickets[id]
      ensures r.Failure? ==> r.error == TicketNotFound
    {
      if id in tickets {
        r := Success(tickets[id]);
      } else {
        r := Failure(TicketNotFound);
      }
    }
  }

  /** Create followed by Get returns the created ticket, with a non-empty id. */
  method CreateThenGet(store: TicketStore, ticket: Ticket, random: seq<byte>, now: Timestamp)
    returns (created: Ticket, got: Result<Ticket, string>)
    requires store.Valid()
    requires |random| == 16 && NewId(random) !in store.tickets
    modifies store
    ensures got == Success(created) && created.id != ""
    ensures created.(id := ticket.id, createdAt := ticket.createdAt) == ticket
  {
    created := store.Create(ticket, random, now);
    got := store.Get(created.id);
  }

  /** The one-shot links from a disclosure session id to the ticket it was opened for. */
  class SessionTracker {
    var links: map<string, string>

    /** `NewSessionTracker`. */
    constructor ()
      ensures links == map[]
    {
      links := map[];
    }

    /** `Link`: binds `sessionId` to `ticketId`, replacing any earlier binding. */
    method Link(sessionId: string, ticketId: string)
      modifies this
      ensures links == old(links)[sessionId := ticketId]
    {
      links := links[sessionId := ticketId];
    }

    /** `TicketID`: the linked ticket id and true, or "" and false; nothing changes. */
    method TicketId(sessionId: string) returns (ticketId: string, ok: bool)
      ensures ok <==> sessionId in links
      ensures ok ==> ticketId == links[sessionId]
      ensures !ok ==> ticketId == ""
    {
      if sessionId in links {
        ticketId, ok := links[sessionId], true;
      } else {
        ticketId, ok := "", false;
      }
    }

    /** `Remove`: deletes the binding of `sessionId`; an absent key is a silent no-op. */
    method Remove(sessionId: string)
      modifies this
      ensures links == old(links) - {sessionId}
      ensures sessionId !in old(links) ==> links == old(links)
    {
      links := links - {sessionId};
    }
  }

  /** Link then TicketID finds the binding; Remove then TicketID finds nothing. */
  method LinkLookupRemove(tracker: SessionTracker, sessionId: string, ticketId: string)
    returns (found: string, ok: bool, foundAfterRemove: string, okAfterRemove: bool)
    modifies tracker
    ensures found == ticketId && ok
    ensures foundAfterRemove == "" && !okAfterRemove
    ensures tracker.links == old(tracker.links) - {sessionId}
  {
    tracker.Link(sessionId, ticketId);
    found, ok := tracker.TicketId(sessionId);
    tracker.Remove(sessionId);
    foundAfterRemove, okAfterRemove := tracker.TicketId(sessionId);
  }
}
