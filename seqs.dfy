/** Scans over sequences of groups, shared by the two attribute matchers. */
module Seqs {
  import opened Wrappers

  /** The groups laid end to end, keeping group order and then element order. */
  function Flatten<T>(groups: seq<seq<T>>): seq<T>
    decreases |groups|
  {
    if groups == [] then [] else groups[0] + Flatten(groups[1..])
  }

  /** The first `f(x)` that is `Some`, scanning `s` front to back. */
  function FirstSome<T, U>(s: seq<T>, f: T -> Option<U>): Option<U>
    decreases |s|
  {
    if s == [] then None
    else if f(s[0]).Some? then f(s[0])
    else FirstSome(s[1..], f)
  }

  /** The first `Some` over the groups in order, each group scanned front to back. */
  function FirstSomeNested<T, U>(groups: seq<seq<T>>, f: T -> Option<U>): Option<U>
    decreases |groups|
  {
    if groups == [] then None
    else match FirstSome(groups[0], f)
      case Some(v) => Some(v)
      case None => FirstSomeNested(groups[1..], f)
  }

  /** Scanning a concatenation: the first part decides unless it has no hit. */
  lemma {:induction false} FirstSomeAppend<T, U>(a: seq<T>, b: seq<T>, f: T -> Option<U>)
    ensures FirstSome(a + b, f) == if FirstSome(a, f).Some? then FirstSome(a, f) else FirstSome(b, f)
    decreases |a|
  {
    if a == [] {
      assert a + b == b;
    } else {
      assert (a + b)[0] == a[0];
      assert (a + b)[1..] == a[1..] + b;
      FirstSomeAppend(a[1..], b, f);
    }
  }

  /** Scanning group by group is scanning the flattened sequence. */
  lemma {:induction false} NestedIsFlat<T, U>(groups: seq<seq<T>>, f: T -> Option<U>)
    ensures FirstSomeNested(groups, f) == FirstSome(Flatten(groups), f)
    decreases |groups|
  {
    if groups != [] {
      NestedIsFlat(groups[1..], f);
      FirstSomeAppend(groups[0], Flatten(groups[1..]), f);
    }
  }

  /**
   * FirstSome finds the earliest hit: it is `None` exactly when nothing hits,
   * and otherwise it is the hit at some index before which nothing hits.
   */
  lemma {:induction false} FirstSomeIsEarliest<T, U>(s: seq<T>, f: T -> Option<U>)
    ensures FirstSome(s, f).None? <==> forall k :: 0 <= k < |s| ==> f(s[k]).None?
    ensures FirstSome(s, f).Some? ==>
      exists k :: 0 <= k < |s| && f(s[k]) == FirstSome(s, f) && forall j :: 0 <= j < k ==> f(s[j]).None?
    decreases |s|
  {
    if s != [] && f(s[0]).None? {
      FirstSomeIsEarliest(s[1..], f);
      assert forall k :: 1 <= k < |s| ==> s[k] == s[1..][k - 1];
      if FirstSome(s, f).Some? {
        var k :| 0 <= k < |s[1..]| && f(s[1..][k]) == FirstSome(s, f) && forall j :: 0 <= j < k ==> f(s[1..][j]).None?;
        assert f(s[k + 1]) == FirstSome(s, f);
        assert forall j :: 0 <= j < k + 1 ==> f(s[j]).None? by {
          forall j | 0 <= j < k + 1 ensures f(s[j]).None? {
            if j > 0 { assert s[j] == s[1..][j - 1]; }
          }
        }
      }
    } else if s != [] {
      assert f(s[0]) == FirstSome(s, f);
    }
  }
}
