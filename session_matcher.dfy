/**
 * The result payload and the case-tolerant attribute matcher declared in
 * backend/session_handlers.go (`sessionResultPayload`, `disclosedAttribute`,
 * `extractDocumentNumber`).
 */
module SessionMatcher {
  import opened Wrappers
  import opened Strings
  import opened Json
  import opened Seqs

  /** The `err` object of a result. */
  datatype ErrorInfo = ErrorInfo(message: string)

  /**
   * One disclosed record. `rawValue` is the JSON field `rawvalue`, `rawValue2`
   * the field `rawValue`; `value` is whatever `value` decoded to (JNull if absent).
   */
  datatype DisclosedAttribute = DisclosedAttribute(id: string, rawValue: string, rawValue2: string, value: Json)

  /** The parts of the IRMA server's session result that the handler reads. */
  datatype SessionResultPayload = SessionResultPayload(
    status: string,
    proofStatus: string,
    disclosed: seq<seq<DisclosedAttribute>>,
    err: Option<ErrorInfo>)

  /**
   * The raw value of a record, in priority order: `rawvalue`, then `rawValue`,
   * then `value` when it is a string; "" when none of them gives one.
   */
  function Resolve(attr: DisclosedAttribute): (v: string)
    ensures attr.rawValue != "" ==> v == attr.rawValue
    ensures attr.rawValue == "" && attr.rawValue2 != "" ==> v == attr.rawValue2
    ensures attr.rawValue == "" && attr.rawValue2 == "" ==>
      v == (if attr.value.JString? then attr.value.s else "")
  {
    var v := attr.rawValue;
    var v := if v == "" then attr.rawValue2 else v;
    if v == "" && attr.value.JString? then attr.value.s else v
  }

  /** The normal form values are compared in: trimmed, then upper-cased. */
  function Normalize(v: string): string {
    ToUpper(TrimSpace(v))
  }

  /** A value already in normal form: non-empty, trimmed and upper-case. */
  predicate IsNormalized(v: string) {
    v != "" && TrimSpace(v) == v && ToUpper(v) == v
  }

  /**
   * What a record contributes to the scan: its normalized value when its id
   * folds equal to the expected identifier and that value is non-empty.
   */
  function Hit(attr: DisclosedAttribute, expectedAttr: string): (r: Option<string>)
    ensures r.Some? ==> IsNormalized(r.value)
    ensures r.Some? <==> EqualFold(attr.id, expectedAttr) && Normalize(Resolve(attr)) != ""
    ensures r.Some? ==> r.value == Normalize(Resolve(attr))
  {
    var v := Normalize(Resolve(attr));
    NormalizedIsTrimmed(Resolve(attr));
    ToUpperIdempotent(TrimSpace(Resolve(attr)));
    if EqualFold(attr.id, expectedAttr) && v != "" then Some(v) else None
  }

  /**
   * The specification of `extractDocumentNumber`: the first hit, scanning the
   * groups in order and each group's records in order, or ("", false).
   */
  function DocumentNumberOf(res: SessionResultPayload, expectedAttr: string): (string, bool) {
    match FirstSomeNested(res.disclosed, (a: DisclosedAttribute) => Hit(a, expectedAttr))
    case Some(v) => (v, true)
    case None => ("", false)
  }

  /**
   * The matcher's promise. A value is found exactly when some record, in
   * group-then-record order, has a matching id and a non-empty normalized
   * value; the value found is that of the earliest such record (matching
   * records that normalize to "" are skipped); it is non-empty, trimmed and
   * upper-case; and when nothing is found the value is "".
   */
  lemma DocumentNumberIsFirstMatch(res: SessionResultPayload, expectedAttr: string)
    ensures var (v, found) := DocumentNumberOf(res, expectedAttr);
      var flat := Flatten(res.disclosed);
      && (found <==> exists k :: 0 <= k < |flat| && Hit(flat[k], expectedAttr).Some?)
      && (found ==> IsNormalized(v))
      && (found ==> (exists k :: 0 <= k < |flat| && Hit(flat[k], expectedAttr) == Some(v)
                           && forall j :: 0 <= j < k ==> Hit(flat[j], expectedAttr).None?))
      && (!found ==> v == "")
  {
    var f := (a: DisclosedAttribute) => Hit(a, expectedAttr);
    var flat := Flatten(res.disclosed);
    NestedIsFlat(res.disclosed, f);
    FirstSomeIsEarliest(flat, f);
    assert forall k :: 0 <= k < |flat| ==> f(flat[k]) == Hit(flat[k], expectedAttr);
  }

  /** A first group's matching record wins over every later group. */
  lemma EarlierGroupWins(res: SessionResultPayload, expectedAttr: string, i: nat)
    requires |res.disclosed| > 0 && i < |res.disclosed[0]|
    requires Hit(res.disclosed[0][i], expectedAttr).Some?
    requires forall j :: 0 <= j < i ==> Hit(res.disclosed[0][j], expectedAttr).None?
    ensures DocumentNumberOf(res, expectedAttr) == (Normalize(Resolve(res.disclosed[0][i])), true)
  {
    var f := (a: DisclosedAttribute) => Hit(a, expectedAttr);
    var g := res.disclosed[0];
    var before, after := g[..i], g[i..];
    assert g == before + after;
    assert forall j :: 0 <= j < i ==> f(before[j]).None? by {
      forall j | 0 <= j < i ensures f(before[j]).None? {
        assert before[j] == g[j];
      }
    }
    FirstSomeIsEarliest(before, f);
    assert after[0] == g[i];
    assert FirstSome(after, f) == f(g[i]);
    FirstSomeAppend(before, after, f);
    assert FirstSome(g, f) == Hit(g[i], expectedAttr);
  }

  /** Trimming removes the outer spaces of " x12 34 " and keeps the inner one. */
  lemma NormalizeKeepsInnerSpace(raw: string)
    requires raw == " x12 34 "
    ensures Normalize(raw) == "X12 34"
  {
    assert IsSpace(raw[0]) && raw[1..] == "x12 34 ";
    TrimLeftNoop("x12 34 ", IsSpace);
    var left: string := "x12 34 ";
    assert IsSpace(left[6]) && left[..6] == "x12 34";
    TrimRightNoop("x12 34", IsSpace);
    assert TrimSpace(raw) == "x12 34";
    assert ToUpper("x12 34") == "X12 34";
  }

  /** "A.B.C" and "a.b.c" are equal up to case. */
  lemma FoldExample(a: string, b: string)
    requires a == "A.B.C" && b == "a.b.c"
    ensures EqualFold(a, b)
  {
    assert forall i :: 0 <= i < 5 ==> LowerChar(a[i]) == LowerChar(b[i]);
  }

  /**
   * Only the ends are trimmed: a disclosed " x12 34 " under an id in other
   * letter case is found as "X12 34", inner space kept.
   */
  lemma InnerSpaceIsKept(res: SessionResultPayload, attr: DisclosedAttribute, expectedAttr: string)
    requires res.disclosed == [[attr]]
    requires attr.id == "A.B.C" && attr.rawValue == " x12 34 " && expectedAttr == "a.b.c"
    ensures DocumentNumberOf(res, expectedAttr) == ("X12 34", true)
  {
    NormalizeKeepsInnerSpace(attr.rawValue);
    FoldExample(attr.id, expectedAttr);
    EarlierGroupWins(res, expectedAttr, 0);
  }

  /**
   * `extractDocumentNumber`: nested loops over the groups and their records,
   * returning at the first record whose id folds equal to `expectedAttr` and
   * whose resolved value is non-empty once trimmed and upper-cased.
   */
  method ExtractDocumentNumber(res: SessionResultPayload, expectedAttr: string) returns (v: string, found: bool)
    ensures (v, found) == DocumentNumberOf(res, expectedAttr)
  {
    ghost var f := (a: DisclosedAttribute) => Hit(a, expectedAttr);
    var g := 0;
    while g < |res.disclosed|
      invariant 0 <= g <= |res.disclosed|
      invariant FirstSomeNested(res.disclosed, f) == FirstSomeNested(res.disclosed[g..], f)
    {
      var group := res.disclosed[g];
      assert res.disclosed[g..][0] == group && res.disclosed[g..][1..] == res.disclosed[g + 1..];
      var i := 0;
      while i < |group|
        invariant 0 <= i <= |group|
        invariant FirstSome(group, f) == FirstSome(group[i..], f)
      {
        var attr := group[i];
        assert group[i..][0] == attr && group[i..][1..] == group[i + 1..];
        if EqualFold(attr.id, expectedAttr) {
          var raw := attr.rawValue;
          if raw == "" {
            raw := attr.rawValue2;
          }
          if raw == "" {
            if attr.value.JString? {
              raw := attr.value.s;
            }
          }
          raw := ToUpper(TrimSpace(raw));
          if raw != "" {
            assert f(attr) == Some(raw);
            return raw, true;
          }
        }
        assert f(attr).None?;
        i := i + 1;
      }
      g := g + 1;
    }
    return "", false;
  }
}
