/**
 * The JavaScript string operations the core relies on, restated on
 * `seq<char>`: `trim`, a first-match `replace` with a string pattern,
 * `join`, and the decimal rendering of a number in a template literal.
 * `Split`, which the core never calls, is the reference inverse of `Join`
 * in which the tool-list properties are stated.
 */
module Text {
  import opened Types

  /** ECMAScript WhiteSpace and LineTerminator code points, which `trim` removes. */
  predicate IsJsWhitespace(c: char)
  {
    c == '\t' || c == '\n' || c == '\U{000B}' || c == '\U{000C}' || c == '\r' || c == ' '
    || c == '\U{00A0}' || c == '\U{1680}' || ('\U{2000}' <= c <= '\U{200A}')
    || c == '\U{2028}' || c == '\U{2029}' || c == '\U{202F}' || c == '\U{205F}'
    || c == '\U{3000}' || c == '\U{FEFF}'
  }

  /** The length of the longest all-whitespace prefix. */
  function TrimStartIndex(s: string): (i: nat)
    ensures i <= |s|
    ensures forall k :: 0 <= k < i ==> IsJsWhitespace(s[k])
    ensures i < |s| ==> !IsJsWhitespace(s[i])
  {
    if s == [] || !IsJsWhitespace(s[0]) then 0 else 1 + TrimStartIndex(s[1..])
  }

  /** The start of the longest all-whitespace suffix that begins at or after `lo`. */
  function TrimEndIndex(s: string, lo: nat): (j: nat)
    requires lo <= |s|
    ensures lo <= j <= |s|
    ensures forall k :: j <= k < |s| ==> IsJsWhitespace(s[k])
    ensures j > lo ==> !IsJsWhitespace(s[j - 1])
    decreases |s|
  {
    if |s| == lo || !IsJsWhitespace(s[|s| - 1]) then |s| else TrimEndIndex(s[..|s| - 1], lo)
  }

  /** `s.trim()`: drop leading and trailing whitespace. */
  function Trim(s: string): (r: string)
  {
    var i := TrimStartIndex(s);
    s[i..TrimEndIndex(s, i)]
  }

  ghost predicate HasNonWhitespace(s: string)
  {
    exists k :: 0 <= k < |s| && !IsJsWhitespace(s[k])
  }

  /** `s.trim().length > 0` holds exactly when `s` has a character that is not whitespace. */
  lemma TrimNonEmpty(s: string)
    ensures |Trim(s)| > 0 <==> HasNonWhitespace(s)
  {
    var i := TrimStartIndex(s);
    if HasNonWhitespace(s) {
      var k :| 0 <= k < |s| && !IsJsWhitespace(s[k]);
      assert i <= k;
    }
  }

  /** The trimmed string is a contiguous part of the original. */
  lemma TrimIsInfix(s: string)
    ensures exists i, j :: 0 <= i <= j <= |s| && Trim(s) == s[i..j]
  {
    var i := TrimStartIndex(s);
    var j := TrimEndIndex(s, i);
    assert Trim(s) == s[i..j];
  }

  predicate StartsWith(s: string, p: string)
  {
    |p| <= |s| && s[..|p|] == p
  }

  predicate OccursAt(s: string, p: string, i: nat)
  {
    i + |p| <= |s| && s[i..i + |p|] == p
  }

  /** The leftmost position at or after `from` where `p` occurs in `s`. */
  function IndexOfFrom(s: string, p: string, from: nat): (r: Option<nat>)
    requires from <= |s|
    ensures r.Some? ==> from <= r.value && OccursAt(s, p, r.value)
    ensures r.Some? ==> forall k :: from <= k < r.value ==> !OccursAt(s, p, k)
    ensures r.None? ==> forall k :: from <= k <= |s| ==> !OccursAt(s, p, k)
    decreases |s| - from
  {
    if OccursAt(s, p, from) then Some(from)
    else if from == |s| then None
    else IndexOfFrom(s, p, from + 1)
  }

  /** `s.indexOf(p)`, or None for -1. */
  function IndexOf(s: string, p: string): (r: Option<nat>)
  {
    IndexOfFrom(s, p, 0)
  }

  /** `s.replace(p, r)` with a string pattern: only the leftmost occurrence is replaced. */
  function ReplaceFirst(s: string, p: string, r: string): (t: string)
  {
    match IndexOf(s, p)
    case None => s
    case Some(i) => s[..i] + r + s[i + |p|..]
  }

  /** A string without any occurrence of the pattern is left as it is. */
  lemma ReplaceFirstAbsent(s: string, p: string, r: string)
    requires forall k :: 0 <= k <= |s| ==> !OccursAt(s, p, k)
    ensures ReplaceFirst(s, p, r) == s
  {
  }

  /**
   * When the pattern's first character does not occur before it, the
   * leftmost occurrence is the one just after `pre`, and only it is replaced,
   * whatever `post` holds (further occurrences included).
   */
  lemma ReplaceFirstAfter(pre: string, p: string, post: string, r: string)
    requires |p| > 0 && p[0] !in pre
    ensures IndexOf(pre + p + post, p) == Some(|pre|)
    ensures ReplaceFirst(pre + p + post, p, r) == pre + r + post
  {
    var s := pre + p + post;
    assert OccursAt(s, p, |pre|) by { assert s[|pre|..|pre| + |p|] == p; }
    forall k | 0 <= k < |pre|
      ensures !OccursAt(s, p, k)
    {
      assert s[k] == pre[k];
    }
    assert s[..|pre|] == pre;
    assert s[|pre| + |p|..] == post;
  }

  /** `parts.join(sep)`. */
  function Join(parts: seq<string>, sep: string): (s: string)
  {
    if |parts| == 0 then ""
    else if |parts| == 1 then parts[0]
    else parts[0] + sep + Join(parts[1..], sep)
  }

  /** A character that occurs neither in the parts nor in the separator does not occur in their join. */
  lemma {:induction false} JoinAvoids(parts: seq<string>, sep: string, c: char)
    requires c !in sep
    requires forall k :: 0 <= k < |parts| ==> c !in parts[k]
    ensures c !in Join(parts, sep)
  {
    if |parts| > 1 {
      JoinAvoids(parts[1..], sep, c);
    }
  }

  /** `s.split(c)` for a one-character separator; it always yields at least one part. */
  function Split(s: string, c: char): (parts: seq<string>)
    ensures |parts| > 0
  {
    if s == [] then [""]
    else
      var rest := Split(s[1..], c);
      if s[0] == c then [""] + rest else [[s[0]] + rest[0]] + rest[1..]
  }

  lemma {:induction false} SplitNoSeparator(a: string, c: char)
    requires c !in a
    ensures Split(a, c) == [a]
  {
    if a != [] {
      SplitNoSeparator(a[1..], c);
      assert [a[0]] + a[1..] == a;
    }
  }

  lemma {:induction false} SplitAtFirstSeparator(a: string, c: char, b: string)
    requires c !in a
    ensures Split(a + [c] + b, c) == [a] + Split(b, c)
  {
    var s := a + [c] + b;
    if a == [] {
      assert s[1..] == b;
    } else {
      assert s[1..] == a[1..] + [c] + b;
      SplitAtFirstSeparator(a[1..], c, b);
      assert [a[0]] + a[1..] == a;
    }
  }

  /** Splitting a join of separator-free parts gives the parts back: one part per element. */
  lemma {:induction false} SplitJoin(parts: seq<string>, c: char)
    requires |parts| > 0
    requires forall k :: 0 <= k < |parts| ==> c !in parts[k]
    ensures Split(Join(parts, [c]), c) == parts
  {
    if |parts| == 1 {
      SplitNoSeparator(parts[0], c);
    } else {
      SplitJoin(parts[1..], c);
      SplitAtFirstSeparator(parts[0], c, Join(parts[1..], [c]));
      assert parts == [parts[0]] + parts[1..];
    }
  }

  predicate IsDigit(c: char)
  {
    '0' <= c <= '9'
  }

  function DigitChar(d: nat): (c: char)
    requires d < 10
    ensures IsDigit(c)
  {
    ['0', '1', '2', '3', '4', '5', '6', '7', '8', '9'][d]
  }

  function DigitValue(c: char): (d: nat)
    requires IsDigit(c)
  {
    (c as int - '0' as int) as nat
  }

  /** The decimal rendering of a number, `${n}` in a template literal. */
  function NatToString(n: nat): (s: string)
    ensures |s| > 0
    ensures forall k :: 0 <= k < |s| ==> IsDigit(s[k])
  {
    if n < 10 then [DigitChar(n)] else NatToString(n / 10) + [DigitChar(n % 10)]
  }

  /** The number a non-empty all-digit string denotes. */
  function ParseDecimal(s: string): (n: nat)
    requires forall k :: 0 <= k < |s| ==> IsDigit(s[k])
  {
    if s == [] then 0 else 10 * ParseDecimal(s[..|s| - 1]) + DigitValue(s[|s| - 1])
  }

  lemma DigitRoundTrip(d: nat)
    requires d < 10
    ensures DigitValue(DigitChar(d)) == d
  {
  }

  /** The rendering is faithful: reading it back gives the number. */
  lemma {:induction false} NatToStringRoundTrip(n: nat)
    ensures ParseDecimal(NatToString(n)) == n
  {
    if n < 10 {
      DigitRoundTrip(n);
    } else {
      var s := NatToString(n);
      NatToStringRoundTrip(n / 10);
      DigitRoundTrip(n % 10);
      assert s[..|s| - 1] == NatToString(n / 10);
    }
  }
}
