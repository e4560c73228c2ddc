/**
 * The second declaration of the session result and of `extractDocumentNumber`
 * (backend/irma_payloads.go): records may be nil, `rawvalue` may be absent,
 * and the identifier is compared exactly, without trimming or case folding.
 */
module IrmaPayloads {
  import opened Wrappers
  import opened Seqs

  /** `disclosedAttribute`: `rawValue` is None when the JSON field `rawvalue` is absent or null. */
  datatype PayloadAttribute = PayloadAttribute(rawValue: Option<string>, identifier: string)

  /** `sessionResultPayload`; a disclosed record is None when it is a JSON null. */
  datatype Payload = Payload(
    status: string,
    proofStatus: string,
    err: Option<string>,
    disclosed: seq<seq<Option<PayloadAttribute>>>)

  /**
   * What a record contributes to the scan: its raw value, unchanged, when the
   * record is present, carries a raw value and has exactly the expected id.
   */
  function ExactHit(attr: Option<PayloadAttribute>, expectedAttr: string): (r: Option<string>)
    ensures r.Some? <==> attr.Some? && attr.value.rawValue.Some? && attr.value.identifier == expectedAttr
    ensures r.Some? ==> r.value == attr.value.rawValue.value
  {
    match attr
    case None => None
    case Some(a) =>
      if a.rawValue.None? then None
      else if a.identifier == expectedAttr then a.rawValue
      else None
  }

  /** The specification of this `extractDocumentNumber`: the first hit, or ("", false). */
  function DocumentNumberOf(res: Payload, expectedAttr: string): (string, bool) {
    match FirstSomeNested(res.disclosed, (a: Option<PayloadAttribute>) => ExactHit(a, expectedAttr))
    case Some(v) => (v, true)
    case None => ("", false)
  }

  /**
   * The exact matcher's promise: a value is found exactly when some present
   * record with a raw value carries exactly the expected id; the value is the
   * raw value of the earliest such record in group-then-record order, as it
   * was disclosed; when nothing is found the result is ("", false).
   */
  lemma DocumentNumberIsFirstExactMatch(res: Payload, expectedAttr: string)
    ensures var (v, found) := DocumentNumberOf(res, expectedAttr);
      var flat := Flatten(res.disclosed);
      && (found <==> exists k :: 0 <= k < |flat| && ExactHit(flat[k], expectedAttr).Some?)
      && (found ==> (exists k :: 0 <= k < |flat| && flat[k].Some? && flat[k].value.identifier == expectedAttr
                           && flat[k].value.rawValue == Some(v)
                           && forall j :: 0 <= j < k ==> ExactHit(flat[j], expectedAttr).None?))
      && (!found ==> v == "")
  {
    var f := (a: Option<PayloadAttribute>) => ExactHit(a, expectedAttr);
    var flat := Flatten(res.disclosed);
    NestedIsFlat(res.disclosed, f);
    FirstSomeIsEarliest(flat, f);
    assert forall k :: 0 <= k < |flat| ==> f(flat[k]) == ExactHit(flat[k], expectedAttr);
  }

  /**
   * A leading record with exactly the expected id is returned as it was
   * disclosed, untrimmed and in its own case; an explicit empty raw value
   * gives ("", true).
   */
  lemma LeadingExactMatchWins(res: Payload, expectedAttr: string, v: string)
    requires |res.disclosed| > 0 && |res.disclosed[0]| > 0
    requires res.disclosed[0][0] == Some(PayloadAttribute(Some(v), expectedAttr))
    ensures DocumentNumberOf(res, expectedAttr) == (v, true)
  {
  }

  /**
   * The comparison is case-sensitive: a sole record whose id differs from the
   * expected one only in letter case is not found.
   */
  lemma CaseSensitive(res: Payload, id: string, expectedAttr: string, v: string)
    requires res.disclosed == [[Some(PayloadAttribute(Some(v), id))]]
    requires id == "A.B.C" && expectedAttr == "a.b.c"
    ensures DocumentNumberOf(res, expectedAttr) == ("", false)
  {
    assert id[0] != expectedAttr[0];
    var f := (a: Option<PayloadAttribute>) => ExactHit(a, expectedAttr);
    assert f(res.disclosed[0][0]).None?;
    assert res.disclosed[0][1..] == [] && res.disclosed[1..] == [];
    assert FirstSome(res.disclosed[0], f).None?;
    assert FirstSomeNested(res.disclosed, f).None?;
  }

  /** Without a record that is present, has a raw value and the exact id, nothing is found. */
  lemma NoExactMatchNotFound(res: Payload, expectedAttr: string)
    requires forall g, i :: 0 <= g < |res.disclosed| && 0 <= i < |res.disclosed[g]| ==>
      ExactHit(res.disclosed[g][i], expectedAttr).None?
    ensures DocumentNumberOf(res, expectedAttr) == ("", false)
  {
    var f := (a: Option<PayloadAttribute>) => ExactHit(a, expectedAttr);
    forall g | 0 <= g < |res.disclosed|
      ensures FirstSome(res.disclosed[g], f).None?
    {
      FirstSomeIsEarliest(res.disclosed[g], f);
    }
    NoneInEveryGroup(res.disclosed, f);
  }

  /** A nested scan in which no group hits finds nothing. */
  lemma {:induction false} NoneInEveryGroup<T, U>(groups: seq<seq<T>>, f: T -> Option<U>)
    requires forall g :: 0 <= g < |groups| ==> FirstSome(groups[g], f).None?
    ensures FirstSomeNested(groups, f).None?
    decreases |groups|
  {
    if groups != [] {
      assert forall g :: 0 <= g < |groups[1..]| ==> groups[1..][g] == groups[g + 1];
      NoneInEveryGroup(groups[1..], f);
    }
  }

  /**
   * `extractDocumentNumber`: nested loops over the groups and their records,
   * skipping nil records and records without a raw value, returning at the
   * first record whose id equals `expectedAttr`.
   */
  method ExtractDocumentNumber(res: Payload, expectedAttr: string) returns (v: string, found: bool)
    ensures (v, found) == DocumentNumberOf(res, expectedAttr)
  {
    ghost var f := (a: Option<PayloadAttribute>) => ExactHit(a, expectedAttr);
    var g := 0;
    while g < |res.disclosed|
      invariant 0 <= g <= |res.disclosed|
      invariant FirstSomeNested(res.disclosed, f) == FirstSomeNested(res.disclosed[g..], f)
    {
      var conj := res.disclosed[g];
      assert res.disclosed[g..][0] == conj && res.disclosed[g..][1..] == res.disclosed[g + 1..];
      var i := 0;
      while i < |conj|
        invariant 0 <= i <= |conj|
        invariant FirstSome(conj, f) == FirstSome(conj[i..], f)
      {
        var attr := conj[i];
        assert conj[i..][0] == attr && conj[i..][1..] == conj[i + 1..];
        if attr.Some? && attr.value.rawValue.Some? {
          if attr.value.identifier == expectedAttr {
            return attr.value.rawValue.value, true;
          }
        }
        i := i + 1;
      }
      g := g + 1;
    }
    return "", false;
  }
}
