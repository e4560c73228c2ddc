/**
 * `buildCallbackURL` (backend/url_helpers.go): the address the verifier is
 * told to call back once a disclosure is done, carrying the ticket id as its
 * only query parameter. The query is built with Go's `url.Values.Encode`,
 * modelled here together with the `url.ParseQuery` that reads it back.
 */
module UrlHelpers {
  import opened Wrappers
  import opened Bytes
  import opened Strings

  /**
   * The parts of an incoming request that the builder reads: the header
   * values by canonical header name, whether the connection used TLS, and
   * the `Host` of the request.
   */
  datatype Request = Request(header: map<string, seq<string>>, tls: bool, host: string)

  const ForwardedProto := "X-Forwarded-Proto"
  const ForwardedHost := "X-Forwarded-Host"

  /** The path every callback URL has. */
  const CallbackPath := "/api/irma/callback"

  /** The name of the one query parameter. */
  const TicketIdParam := "ticketId"

  /** `http.Header.Get`: the first value stored under `key`, or "" when there is none. */
  function HeaderGet(header: map<string, seq<string>>, key: string): (v: string)
    ensures (key in header && header[key] != []) ==> v == header[key][0]
    ensures (key !in header || header[key] == []) ==> v == ""
  {
    if key in header && header[key] != [] then header[key][0] else ""
  }

  /** The scheme: the forwarded protocol when given, otherwise "https" under TLS and "http" without. */
  function Scheme(r: Request): (s: string)
    ensures HeaderGet(r.header, ForwardedProto) != "" ==> s == HeaderGet(r.header, ForwardedProto)
    ensures HeaderGet(r.header, ForwardedProto) == "" ==> s == (if r.tls then "https" else "http")
    ensures s != ""
  {
    var proto := HeaderGet(r.header, ForwardedProto);
    if proto != "" then proto else if r.tls then "https" else "http"
  }

  /** The host: the forwarded host when given, otherwise the request's own `Host`. */
  function Host(r: Request): (h: string)
    ensures HeaderGet(r.header, ForwardedHost) != "" ==> h == HeaderGet(r.header, ForwardedHost)
    ensures HeaderGet(r.header, ForwardedHost) == "" ==> h == r.host
  {
    var fwd := HeaderGet(r.header, ForwardedHost);
    if fwd != "" then fwd else r.host
  }

  /** The characters `url.QueryEscape` writes as they are. */
  predicate IsUnreserved(c: char) {
    'A' <= c <= 'Z' || 'a' <= c <= 'z' || '0' <= c <= '9' || c == '-' || c == '_' || c == '.' || c == '~'
  }

  /** The characters an escaped query component is made of. */
  predicate IsEscapedChar(c: char) {
    IsUnreserved(c) || c == '+' || c == '%'
  }

  /** The upper-case hexadecimal digit of a value 0..15. */
  function HexChar(v: int): (c: char)
    requires 0 <= v < 16
    ensures IsUnreserved(c)
  {
    if v < 10 then ('0' as int + v) as char else ('A' as int + v - 10) as char
  }

  /** A hexadecimal digit in either case, as `ishex` accepts it. */
  predicate IsHex(c: char) {
    '0' <= c <= '9' || 'a' <= c <= 'f' || 'A' <= c <= 'F'
  }

  /** `unhex`. */
  function HexValue(c: char): (v: int)
    requires IsHex(c)
    ensures 0 <= v < 16
  {
    if c <= '9' then c as int - '0' as int
    else if c <= 'F' then c as int - 'A' as int + 10
    else c as int - 'a' as int + 10
  }

  /** Each byte as "%" and two upper-case hexadecimal digits. */
  function PercentEncode(b: seq<byte>): (r: string)
    ensures |r| == 3 * |b|
    ensures forall i :: 0 <= i < |r| ==> IsEscapedChar(r[i])
  {
    if b == [] then ""
    else ['%', HexChar(b[0] as int / 16), HexChar(b[0] as int % 16)] + PercentEncode(b[1..])
  }

  /** How `url.QueryEscape` writes one character. */
  function EscapeChar(c: char): (r: string)
    ensures r != [] && forall i :: 0 <= i < |r| ==> IsEscapedChar(r[i])
  {
    if IsUnreserved(c) then [c] else if c == ' ' then "+" else PercentEncode(Utf8(c))
  }

  /**
   * `url.QueryEscape`: unreserved characters kept, space as "+", every other
   * character as its UTF-8 bytes percent-encoded. No '&', '=', ';' or '#'
   * survives.
   */
  function QueryEscape(s: string): (r: string)
    ensures forall i :: 0 <= i < |r| ==> IsEscapedChar(r[i])
    ensures '&' !in r && '=' !in r && ';' !in r && '#' !in r && '?' !in r
  {
    if s == [] then "" else EscapeChar(s[0]) + QueryEscape(s[1..])
  }

  /**
   * `url.QueryUnescape`, to bytes: "+" is a space, "%" must be followed by
   * two hexadecimal digits, any other character stands for its UTF-8 bytes.
   */
  function QueryUnescape(s: string): Option<seq<byte>>
    decreases |s|
  {
    if s == [] then Some([])
    else if s[0] == '%' then
      if |s| < 3 || !IsHex(s[1]) || !IsHex(s[2]) then None
      else match QueryUnescape(s[3..])
        case None => None
        case Some(rest) => Some([(HexValue(s[1]) * 16 + HexValue(s[2])) as byte] + rest)
    else match QueryUnescape(s[1..])
      case None => None
      case Some(rest) => Some((if s[0] == '+' then [32 as byte] else Utf8(s[0])) + rest)
  }

  /** Every upper-case hexadecimal digit reads back as its value. */
  lemma HexDigitRoundTrip(v: int)
    requires 0 <= v < 16
    ensures IsHex(HexChar(v)) && HexValue(HexChar(v)) == v
  {
  }

  /** Unescaping one percent-encoded byte in front of `rest`. */
  lemma PercentHead(x: byte, rest: string, w: seq<byte>)
    requires QueryUnescape(rest) == Some(w)
    ensures QueryUnescape(['%', HexChar(x as int / 16), HexChar(x as int % 16)] + rest) == Some([x] + w)
  {
    var hi, lo := x as int / 16, x as int % 16;
    HexDigitRoundTrip(hi);
    HexDigitRoundTrip(lo);
    var s := ['%', HexChar(hi), HexChar(lo)] + rest;
    assert s[0] == '%' && s[1] == HexChar(hi) && s[2] == HexChar(lo) && s[3..] == rest;
  }

  /** Unescaping a percent-encoding gives back its bytes, whatever follows. */
  lemma {:induction false} PercentRoundTrip(b: seq<byte>, t: string, u: seq<byte>)
    requires QueryUnescape(t) == Some(u)
    ensures QueryUnescape(PercentEncode(b) + t) == Some(b + u)
    decreases |b|
  {
    if b != [] {
      var x := b[0];
      var tail := PercentEncode(b[1..]) + t;
      assert PercentEncode(b) + t == ['%', HexChar(x as int / 16), HexChar(x as int % 16)] + tail;
      PercentRoundTrip(b[1..], t, u);
      PercentHead(x, tail, b[1..] + u);
      assert [x] + (b[1..] + u) == b + u;
    } else {
      assert PercentEncode(b) + t == t && b + u == u;
    }
  }

  /** Unescaping the escape of one character gives its UTF-8 bytes, whatever follows. */
  lemma EscapeCharRoundTrip(c: char, t: string, u: seq<byte>)
    requires QueryUnescape(t) == Some(u)
    ensures QueryUnescape(EscapeChar(c) + t) == Some(Utf8(c) + u)
  {
    var s := EscapeChar(c) + t;
    if IsUnreserved(c) || c == ' ' {
      assert s[0] != '%' && s[1..] == t;
    } else {
      PercentRoundTrip(Utf8(c), t, u);
    }
  }

  /** `QueryUnescape(QueryEscape(s))` is the UTF-8 encoding of `s`. */
  lemma {:induction false} QueryEscapeRoundTrip(s: string)
    ensures QueryUnescape(QueryEscape(s)) == Some(Utf8String(s))
    decreases |s|
  {
    if s != [] {
      QueryEscapeRoundTrip(s[1..]);
      EscapeCharRoundTrip(s[0], QueryEscape(s[1..]), Utf8String(s[1..]));
    }
  }

  /** A string of unreserved characters escapes to itself. */
  lemma {:induction false} EscapeUnreservedNoop(s: string)
    requires forall i :: 0 <= i < |s| ==> IsUnreserved(s[i])
    ensures QueryEscape(s) == s
    decreases |s|
  {
    if s != [] {
      EscapeUnreservedNoop(s[1..]);
      assert [s[0]] + s[1..] == s;
    }
  }

  /** One decoded query parameter: its key and value bytes. */
  datatype Param = Param(key: seq<byte>, value: seq<byte>)

  /**
   * `url.ParseQuery` as `URL.Query` uses it, on the parts between '&': empty
   * parts, parts with ';' and parts that fail to unescape are dropped; the
   * key is what precedes the first '=', the value what follows it.
   */
  function ParseParams(parts: seq<string>): seq<Param>
    decreases |parts|
  {
    if parts == [] then []
    else
      var rest := ParseParams(parts[1..]);
      var p := parts[0];
      if p == "" || ';' in p then rest
      else
        var kv := Split(p, '=');
        var key := kv[0];
        var value := if |kv| == 1 then "" else Join(kv[1..], '=');
        match (QueryUnescape(key), QueryUnescape(value))
        case (Some(k), Some(v)) => [Param(k, v)] + rest
        case _ => rest
  }

  /** `url.ParseQuery` of a whole query string. */
  function ParseQuery(q: string): seq<Param> {
    ParseParams(Split(q, '&'))
  }

  /** The query of the callback URL: `ticketId=` and the escaped id. */
  function CallbackQuery(ticketId: string): string {
    TicketIdParam + "=" + QueryEscape(ticketId)
  }

  /** `buildCallbackURL`: scheme, "://", host, the callback path, "?" and the query. */
  function BuildCallbackUrl(r: Request, ticketId: string): string {
    Scheme(r) + "://" + Host(r) + CallbackPath + "?" + CallbackQuery(ticketId)
  }

  /**
   * A query of one parameter whose key is made of unreserved characters reads
   * back as that one parameter, its value the UTF-8 encoding of the text
   * that was escaped.
   */
  lemma SingleParamRoundTrip(key: string, value: string)
    requires key != [] && forall i :: 0 <= i < |key| ==> IsUnreserved(key[i])
    ensures ParseQuery(key + "=" + QueryEscape(value)) == [Param(Utf8String(key), Utf8String(value))]
  {
    var esc := QueryEscape(value);
    var q := key + "=" + esc;
    assert q == key + ['='] + esc;
    assert '&' !in key && '=' !in key && ';' !in key;
    assert '&' !in q && ';' !in q;
    SplitNoSep(q, '&');
    SplitConcat(key, esc, '=');
    SplitNoSep(esc, '=');
    EscapeUnreservedNoop(key);
    QueryEscapeRoundTrip(key);
    QueryEscapeRoundTrip(value);
    ParseOneParam(q, key, esc);
  }

  /** A lone part `key=value` without ';' parses to its unescaped key and value. */
  lemma ParseOneParam(p: string, key: string, esc: string)
    requires p != "" && ';' !in p && Split(p, '=') == [key, esc]
    requires QueryUnescape(key).Some? && QueryUnescape(esc).Some?
    ensures ParseParams([p]) == [Param(QueryUnescape(key).value, QueryUnescape(esc).value)]
  {
    var kv := Split(p, '=');
    assert kv[1..] == [esc];
    assert ParseParams([p][1..]) == [];
  }

  /**
   * The callback query reads back as exactly one parameter, `ticketId`, whose
   * value is the UTF-8 encoding of the ticket id, whatever characters it holds.
   */
  lemma CallbackQueryRoundTrip(ticketId: string)
    ensures ParseQuery(CallbackQuery(ticketId)) == [Param(Utf8String(TicketIdParam), Utf8String(ticketId))]
  {
    var key: string := TicketIdParam;
    assert forall i :: 0 <= i < |key| ==> IsUnreserved(key[i]);
    SingleParamRoundTrip(key, ticketId);
  }

  /**
   * The URL is the scheme, "://", the host and the callback path, then "?"
   * and a query made of the last "?"-separated part, which is the callback query.
   */
  lemma CallbackUrlShape(r: Request, ticketId: string)
    ensures var u := BuildCallbackUrl(r, ticketId);
      var parts := Split(u, '?');
      && parts[|parts| - 1] == CallbackQuery(ticketId)
      && u == Scheme(r) + "://" + Host(r) + CallbackPath + "?" + parts[|parts| - 1]
  {
    var u := BuildCallbackUrl(r, ticketId);
    var q := CallbackQuery(ticketId);
    var key: string := TicketIdParam;
    assert '?' !in key by {
      assert forall i :: 0 <= i < |key| ==> IsUnreserved(key[i]);
    }
    assert q == key + "=" + QueryEscape(ticketId);
    assert '?' !in q;
    SplitLast(u, '?');
    var parts := Split(u, '?');
    var p := parts[|parts| - 1];
    var prefix := Scheme(r) + "://" + Host(r) + CallbackPath;
    assert u == prefix + ['?'] + q;
    assert u[|u| - |q| - 1] == '?' && u[|u| - |q|..] == q;
  }
}
