/**
 * The parts of Go's `strings` package that the backend relies on.
 *
 * TrimSpace uses Go's exact `unicode.IsSpace` set. ToUpper and EqualFold are
 * ASCII approximations of Go's Unicode case mapping and simple case folding:
 * letters outside a-z/A-Z are left as they are.
 */
module Strings {

  /** Go's `unicode.IsSpace`: the Latin-1 spaces and the White_Space characters above. */
  predicate IsSpace(c: char) {
    var n := c as int;
    (9 <= n <= 13) || n == 0x20 || n == 0x85 || n == 0xA0 || n == 0x1680
    || (0x2000 <= n <= 0x200A) || n == 0x2028 || n == 0x2029 || n == 0x202F
    || n == 0x205F || n == 0x3000
  }

  /** `strings.TrimLeftFunc`: drops the longest prefix whose characters satisfy `p`. */
  function TrimLeftFunc(s: string, p: char -> bool): (r: string)
    ensures |r| <= |s| && r == s[|s| - |r|..]
    ensures r == [] || !p(r[0])
    ensures forall i :: 0 <= i < |s| - |r| ==> p(s[i])
    decreases |s|
  {
    if |s| > 0 && p(s[0]) then
      var r := TrimLeftFunc(s[1..], p);
      assert forall i :: 1 <= i < |s| - |r| ==> s[i] == s[1..][i - 1];
      r
    else s
  }

  /** `strings.TrimRightFunc`: drops the longest suffix whose characters satisfy `p`. */
  function TrimRightFunc(s: string, p: char -> bool): (r: string)
    ensures |r| <= |s| && r == s[..|r|]
    ensures r == [] || !p(r[|r| - 1])
    ensures forall i :: |r| <= i < |s| ==> p(s[i])
    decreases |s|
  {
    if |s| > 0 && p(s[|s| - 1]) then TrimRightFunc(s[..|s| - 1], p) else s
  }

  /** `strings.TrimFunc`: neither end of the result satisfies `p`. */
  function TrimFunc(s: string, p: char -> bool): (r: string)
    ensures |r| <= |s|
    ensures r == [] || (!p(r[0]) && !p(r[|r| - 1]))
  {
    TrimRightFunc(TrimLeftFunc(s, p), p)
  }

  /** `strings.TrimSpace`. */
  function TrimSpace(s: string): (r: string)
    ensures r == [] || (!IsSpace(r[0]) && !IsSpace(r[|r| - 1]))
  {
    TrimFunc(s, IsSpace)
  }

  /** TrimLeftFunc leaves a string alone whose first character fails `p`. */
  lemma TrimLeftNoop(s: string, p: char -> bool)
    requires s != [] && !p(s[0])
    ensures TrimLeftFunc(s, p) == s
  {
  }

  /** TrimRightFunc leaves a string alone whose last character fails `p`. */
  lemma TrimRightNoop(s: string, p: char -> bool)
    requires s != [] && !p(s[|s| - 1])
    ensures TrimRightFunc(s, p) == s
  {
  }

  /** Trimming a string whose ends already fail `p` is the identity. */
  lemma TrimFuncNoop(s: string, p: char -> bool)
    requires s == [] || (!p(s[0]) && !p(s[|s| - 1]))
    ensures TrimFunc(s, p) == s
  {
    if s == [] {
      assert TrimLeftFunc(s, p) == s;
      assert TrimRightFunc(s, p) == s;
    } else {
      TrimLeftNoop(s, p);
      TrimRightNoop(s, p);
    }
  }

  /** Trimming is idempotent. */
  lemma TrimFuncIdempotent(s: string, p: char -> bool)
    ensures TrimFunc(TrimFunc(s, p), p) == TrimFunc(s, p)
  {
    TrimFuncNoop(TrimFunc(s, p), p);
  }

  /** Trimming yields the empty string exactly when every character satisfies `p`. */
  lemma TrimFuncEmpty(s: string, p: char -> bool)
    ensures TrimFunc(s, p) == [] <==> forall i :: 0 <= i < |s| ==> p(s[i])
  {
  }

  /** Go's `unicode.ToUpper`, restricted to ASCII letters. */
  function UpperChar(c: char): char {
    if 'a' <= c <= 'z' then (c as int - 32) as char else c
  }

  /** Go's `unicode.ToLower`, restricted to ASCII letters. */
  function LowerChar(c: char): char {
    if 'A' <= c <= 'Z' then (c as int + 32) as char else c
  }

  /** `strings.ToUpper` (ASCII). */
  function ToUpper(s: string): (r: string)
    ensures |r| == |s|
    ensures forall i :: 0 <= i < |s| ==> r[i] == UpperChar(s[i])
  {
    seq(|s|, i requires 0 <= i < |s| => UpperChar(s[i]))
  }

  /** The case-folded form two strings are compared by. */
  function Fold(s: string): (r: string)
    ensures |r| == |s|
    ensures forall i :: 0 <= i < |s| ==> r[i] == LowerChar(s[i])
  {
    seq(|s|, i requires 0 <= i < |s| => LowerChar(s[i]))
  }

  /** `strings.EqualFold` (ASCII): equal up to letter case. */
  predicate EqualFold(a: string, b: string) {
    Fold(a) == Fold(b)
  }

  /** Upper-casing twice is upper-casing once. */
  lemma ToUpperIdempotent(s: string)
    ensures ToUpper(ToUpper(s)) == ToUpper(s)
  {
  }

  /** A string folds equal to its upper-cased form. */
  lemma EqualFoldToUpper(s: string)
    ensures EqualFold(ToUpper(s), s)
  {
    assert forall i :: 0 <= i < |s| ==> LowerChar(UpperChar(s[i])) == LowerChar(s[i]);
  }

  /** EqualFold is an equivalence that preserves length and the empty string. */
  lemma EqualFoldProperties(a: string, b: string, c: string)
    ensures EqualFold(a, a)
    ensures EqualFold(a, b) ==> EqualFold(b, a) && |a| == |b|
    ensures EqualFold(a, b) && EqualFold(b, c) ==> EqualFold(a, c)
    ensures EqualFold(a, "") <==> a == ""
  {
    if EqualFold(a, b) {
      assert |Fold(a)| == |Fold(b)|;
    }
  }

  /** Upper-casing maps spaces to spaces and non-spaces to non-spaces. */
  lemma UpperCharKeepsSpace(c: char)
    ensures IsSpace(UpperChar(c)) == IsSpace(c)
  {
  }

  /**
   * A trimmed then upper-cased string is still trimmed: `ToUpper(TrimSpace(v))`
   * is a fixed point of TrimSpace, and it is empty exactly when `v` is all spaces.
   */
  lemma NormalizedIsTrimmed(v: string)
    ensures TrimSpace(ToUpper(TrimSpace(v))) == ToUpper(TrimSpace(v))
    ensures ToUpper(TrimSpace(v)) == [] <==> forall i :: 0 <= i < |v| ==> IsSpace(v[i])
  {
    var t := TrimSpace(v);
    var u := ToUpper(t);
    if u != [] {
      UpperCharKeepsSpace(t[0]);
      UpperCharKeepsSpace(t[|t| - 1]);
    }
    TrimFuncNoop(u, IsSpace);
    TrimFuncEmpty(v, IsSpace);
  }

  /** `strings.Contains`: `sub` occurs in `s` at some offset. */
  predicate Contains(s: string, sub: string)
    decreases |s|
  {
    if |s| < |sub| then false else s[..|sub|] == sub || Contains(s[1..], sub)
  }

  /** Contains means an occurrence at some index. */
  lemma {:induction false} ContainsAt(s: string, sub: string, k: nat)
    requires k + |sub| <= |s| && s[k..k + |sub|] == sub
    ensures Contains(s, sub)
    decreases k
  {
    if k > 0 {
      assert s[1..][k - 1..k - 1 + |sub|] == sub;
      ContainsAt(s[1..], sub, k - 1);
    }
  }

  /** Go's `strings.Split(s, sep)` for a one-character separator. */
  function Split(s: string, sep: char): (parts: seq<string>)
    ensures |parts| >= 1
    decreases |s|
  {
    if |s| == 0 then [""]
    else
      var rest := Split(s[1..], sep);
      if s[0] == sep then [""] + rest else [[s[0]] + rest[0]] + rest[1..]
  }

  /** The inverse of Split: the parts glued back together with the separator. */
  function Join(parts: seq<string>, sep: char): string
    requires |parts| >= 1
    decreases |parts|
  {
    if |parts| == 1 then parts[0] else parts[0] + [sep] + Join(parts[1..], sep)
  }

  /** Splitting and joining again gives back the original string. */
  lemma {:induction false} SplitJoin(s: string, sep: char)
    ensures Join(Split(s, sep), sep) == s
    decreases |s|
  {
    if |s| > 0 {
      var rest := Split(s[1..], sep);
      SplitJoin(s[1..], sep);
      if s[0] != sep {
        if |rest| == 1 {
          assert Split(s, sep) == [[s[0]] + rest[0]];
        } else {
          assert Split(s, sep)[1..] == rest[1..];
        }
      }
    }
  }

  /** No part of a split contains the separator. */
  lemma {:induction false} SplitPartsHaveNoSep(s: string, sep: char)
    ensures forall k :: 0 <= k < |Split(s, sep)| ==> sep !in Split(s, sep)[k]
    decreases |s|
  {
    if |s| > 0 {
      SplitPartsHaveNoSep(s[1..], sep);
    }
  }

  /** A string without the separator splits into itself alone. */
  lemma {:induction false} SplitNoSep(s: string, sep: char)
    requires sep !in s
    ensures Split(s, sep) == [s]
    decreases |s|
  {
    if |s| > 0 {
      assert sep !in s[1..];
      SplitNoSep(s[1..], sep);
      assert [s[0]] + s[1..] == s;
    }
  }

  /** Splitting `a + sep + b` where `a` has no separator: `a` comes first, then the parts of `b`. */
  lemma {:induction false} SplitConcat(a: string, b: string, sep: char)
    requires sep !in a
    ensures Split(a + [sep] + b, sep) == [a] + Split(b, sep)
    decreases |a|
  {
    if |a| == 0 {
      assert a + [sep] + b == [sep] + b;
      assert ([sep] + b)[1..] == b;
    } else {
      assert (a + [sep] + b)[1..] == a[1..] + [sep] + b;
      assert sep !in a[1..];
      SplitConcat(a[1..], b, sep);
      assert [a[0]] + a[1..] == a;
    }
  }

  /** A join of two or more parts is longer than its last part. */
  lemma {:induction false} JoinLongerThanLast(parts: seq<string>, sep: char)
    requires |parts| >= 2
    ensures |Join(parts, sep)| > |parts[|parts| - 1]|
    decreases |parts|
  {
    if |parts| > 2 {
      JoinLongerThanLast(parts[1..], sep);
    }
  }

  /**
   * The last part of a split is the suffix after the last separator, or the
   * whole string when there is none.
   */
  lemma {:induction false} SplitLast(s: string, sep: char)
    ensures var parts := Split(s, sep); var p := parts[|parts| - 1];
      |p| <= |s| && p == s[|s| - |p|..] && sep !in p
      && (|p| < |s| ==> s[|s| - |p| - 1] == sep)
    decreases |s|
  {
    SplitPartsHaveNoSep(s, sep);
    if |s| > 0 {
      SplitLast(s[1..], sep);
      var rest := Split(s[1..], sep);
      var p := rest[|rest| - 1];
      SplitJoin(s[1..], sep);
      if s[0] != sep && |rest| == 1 {
        assert p == s[1..];
        assert Split(s, sep) == [[s[0]] + p];
        assert [s[0]] + s[1..] == s;
      } else {
        assert Split(s, sep)[|Split(s, sep)| - 1] == p;
        assert s[1..][|s[1..]| - |p|..] == s[|s| - |p|..];
        if |p| == |s| - 1 && s[0] != sep {
          JoinLongerThanLast(rest, sep);
          assert false;
        }
      }
    }
  }
}
