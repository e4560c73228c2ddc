/**
 * The pure parts of the IRMA client (backend/irma_client.go): the disclosure
 * request for the configured attribute and the session id carried by a
 * session pointer. Signing and the HTTP exchange are not part of this module.
 */
module IrmaClient {
  import opened Wrappers
  import opened Strings
  import Irma
  import Config

  /** The scheme manager every requested attribute lives under. */
  const SchemeManager := "pbdf-staging"

  /**
   * A session pointer as `json.Unmarshal` reads its `u` field: `Malformed`
   * when the JSON does not decode; a missing `u` decodes to the empty string.
   */
  datatype SessionPointer = Malformed | SessionPointer(u: string)

  /** `SessionPackage`: what the IRMA server answers to a session start. */
  datatype SessionPackage = SessionPackage(token: string, sessionPtr: SessionPointer)

  const InvalidSessionUrlFormat := "invalid session URL format"
  const EmptySessionId := "empty session ID"
  const UnmarshalPointerFailed := "failed to unmarshal session pointer"

  /** The full identifier of the configured attribute, `pbdf-staging.<issuer>.<credential>.<attribute>`. */
  function AttributeIdentifier(cfg: Config.CredentialConfig): string {
    SchemeManager + "." + cfg.issuerId + "." + cfg.credential + "." + cfg.attribute
  }

  /** With dot-free names the identifier splits back into its four components. */
  lemma AttributeIdentifierParts(cfg: Config.CredentialConfig)
    requires '.' !in cfg.issuerId && '.' !in cfg.credential && '.' !in cfg.attribute
    ensures Split(AttributeIdentifier(cfg), '.') == [SchemeManager, cfg.issuerId, cfg.credential, cfg.attribute]
  {
    var i, c, a := cfg.issuerId, cfg.credential, cfg.attribute;
    assert AttributeIdentifier(cfg) == SchemeManager + ['.'] + (i + ['.'] + (c + ['.'] + a));
    SplitConcat(SchemeManager, i + ['.'] + (c + ['.'] + a), '.');
    SplitConcat(i, c + ['.'] + a, '.');
    SplitConcat(c, a, '.');
    SplitNoSep(a, '.');
  }

  /**
   * `makeDisclosureRequest`: one discon holding one con holding a request for
   * exactly the configured attribute.
   */
  function MakeDisclosureRequest(cfg: Config.CredentialConfig): (r: Irma.DisclosureRequest)
    ensures |r.disclose| == 1 && |r.disclose[0]| == 1 && |r.disclose[0][0]| == 1
    ensures r.disclose[0][0][0].attributeType == AttributeIdentifier(cfg)
  {
    Irma.DisclosureRequest([[[Irma.AttributeRequest(AttributeIdentifier(cfg))]]])
  }

  /**
   * `extractSessionIDFromPtr`: the part of `u` after its last "/", or all of
   * `u` when it has no "/". That part is never empty and never holds a "/";
   * an empty `u`, or one ending in "/", is the error "empty session ID". The
   * branch for a split with no parts is kept as in the source and never taken.
   */
  function ExtractSessionIdFromPtr(ptr: SessionPointer): (r: Result<string, string>)
    ensures ptr.Malformed? ==> r == Failure(UnmarshalPointerFailed)
    ensures r.Success? ==> r.value != "" && '/' !in r.value
    ensures r.Success? ==> var u, id := ptr.u, r.value;
      |id| <= |u| && id == u[|u| - |id|..] && (|id| < |u| ==> u[|u| - |id| - 1] == '/')
    ensures ptr.SessionPointer? ==>
      (r.Failure? <==> ptr.u == "" || ptr.u[|ptr.u| - 1] == '/')
    ensures ptr.SessionPointer? && r.Failure? ==> r.error == EmptySessionId
    ensures ptr.SessionPointer? && ptr.u != "" && '/' !in ptr.u ==> r == Success(ptr.u)
  {
    match ptr
    case Malformed => Failure(UnmarshalPointerFailed)
    case SessionPointer(u) =>
      var parts := Split(u, '/');
      if |parts| == 0 then Failure(InvalidSessionUrlFormat)
      else
        var id := parts[|parts| - 1];
        SplitLast(u, '/');
        if id == "" then Failure(EmptySessionId) else Success(id)
  }
}
