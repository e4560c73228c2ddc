/**
 * The API base address of the web client (frontend/src/config.ts): the
 * build-time value, trimmed and stripped of trailing slashes, or "/api" when
 * that leaves nothing or the value is still the unreplaced placeholder.
 */
module FrontendConfig {
  import opened Wrappers
  import opened Strings

  /** The white space JavaScript's `String.prototype.trim` removes (WhiteSpace and LineTerminator). */
  predicate IsJsSpace(c: char) {
    var n := c as int;
    (9 <= n <= 13) || n == 0x20 || n == 0xA0 || n == 0x1680 || (0x2000 <= n <= 0x200A)
    || n == 0x2028 || n == 0x2029 || n == 0x202F || n == 0x205F || n == 0x3000 || n == 0xFEFF
  }

  predicate IsSlash(c: char) {
    c == '/'
  }

  /** The value used when the build supplies none; a server-side templating step may replace it. */
  const Placeholder := "%VITE_API_ENDPOINT%"

  /** The name whose presence marks an unreplaced placeholder. */
  const PlaceholderName := "VITE_API_ENDPOINT"

  /** The fallback base address. */
  const DefaultEndpoint := "/api"

  /**
   * `normalizeEndpoint`: trims white space, then removes every trailing "/".
   * The result is a prefix of the trimmed value, only slashes were removed
   * after it, and it never ends in "/".
   */
  function NormalizeEndpoint(value: string): (r: string)
    ensures var t := TrimFunc(value, IsJsSpace);
      && |r| <= |t| && r == t[..|r|]
      && (forall i :: |r| <= i < |t| ==> t[i] == '/')
    ensures r == [] || r[|r| - 1] != '/'
  {
    TrimRightFunc(TrimFunc(value, IsJsSpace), IsSlash)
  }

  /** A value that is already trimmed and has no trailing "/" is returned unchanged. */
  lemma NormalizeNoop(value: string)
    requires value == [] || (!IsJsSpace(value[0]) && !IsJsSpace(value[|value| - 1]) && value[|value| - 1] != '/')
    ensures NormalizeEndpoint(value) == value
  {
    TrimFuncNoop(value, IsJsSpace);
    if value != [] {
      TrimRightNoop(value, IsSlash);
    } else {
      assert TrimRightFunc(value, IsSlash) == value;
    }
  }

  /**
   * Normalising is not idempotent: stripping the slashes of "a /" exposes a
   * trailing space that only a second pass trims.
   */
  lemma NormalizeNotIdempotent(value: string)
    requires value == "a /"
    ensures NormalizeEndpoint(value) == "a "
    ensures NormalizeEndpoint(NormalizeEndpoint(value)) == "a"
  {
    TrimFuncNoop(value, IsJsSpace);
    assert value[..2] == "a ";
    TrimRightNoop("a ", IsSlash);
    var once: string := "a ";
    assert IsJsSpace(once[1]) && once[..1] == "a";
    TrimLeftNoop(once, IsJsSpace);
    TrimRightNoop("a", IsJsSpace);
    TrimRightNoop("a", IsSlash);
  }

  /** `placeholderAwareValue`: the build-time value, or the placeholder when it is undefined (`??`). */
  function PlaceholderAware(env: Option<string>): string {
    if env.Some? then env.value else Placeholder
  }

  /**
   * `apiEndpoint`, for the placeholder-aware value. The result is "/api" when
   * the normalised value is empty or still names the placeholder, and the
   * normalised value otherwise; it is never empty and never ends in "/".
   */
  function ApiEndpoint(value: string): (r: string)
    ensures var n := NormalizeEndpoint(value);
      && (n == "" || Contains(n, PlaceholderName) ==> r == DefaultEndpoint)
      && (n != "" && !Contains(n, PlaceholderName) ==> r == n)
    ensures r != "" && r[|r| - 1] != '/'
  {
    var normalized := if value != "" then NormalizeEndpoint(value) else "";
    var isPlaceholder := Contains(normalized, PlaceholderName);
    if normalized == "" || isPlaceholder then DefaultEndpoint else normalized
  }

  /** A trimmed value without a trailing "/" that names the placeholder somewhere resolves to "/api". */
  lemma NamedPlaceholderIsDefault(value: string, k: nat)
    requires value != [] && !IsJsSpace(value[0]) && !IsJsSpace(value[|value| - 1]) && value[|value| - 1] != '/'
    requires k + |PlaceholderName| <= |value| && value[k..k + |PlaceholderName|] == PlaceholderName
    ensures ApiEndpoint(value) == DefaultEndpoint
  {
    NormalizeNoop(value);
    ContainsAt(value, PlaceholderName, k);
  }

  /** Without a build-time value the placeholder is used, and it resolves to "/api". */
  lemma NoEnvIsDefault(placeholder: string)
    requires placeholder == PlaceholderAware(None)
    ensures ApiEndpoint(placeholder) == DefaultEndpoint
  {
    assert placeholder[1..1 + |PlaceholderName|] == PlaceholderName;
    NamedPlaceholderIsDefault(placeholder, 1);
  }

  /** An explicitly empty or all-white-space value falls back to "/api" as well. */
  lemma BlankEnvIsDefault(value: string)
    requires forall i :: 0 <= i < |value| ==> IsJsSpace(value[i])
    ensures ApiEndpoint(PlaceholderAware(Some(value))) == DefaultEndpoint
  {
    TrimFuncEmpty(value, IsJsSpace);
  }
}
