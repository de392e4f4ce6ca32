/**
 * The string operations the key scheme and the dashboard's id parsing rest on:
 * Python's f-string formatting of an int, `int(...)` of a digit string,
 * `str.isdigit`, `str.startswith`, `str.split(sep)` and `sep.join(...)`.
 */
module Strings {
  import opened Wrappers

  /** An ASCII decimal digit. */
  predicate IsDigit(c: char) {
    '0' <= c <= '9'
  }

  /** `s.isdigit()` over ASCII: true exactly for a non-empty run of digits. */
  predicate IsDigits(s: string) {
    |s| > 0 && forall k :: 0 <= k < |s| ==> IsDigit(s[k])
  }

  /** A character that formatting an int can produce: a digit or the minus sign. */
  predicate IsIntChar(c: char) {
    IsDigit(c) || c == '-'
  }

  function DigitChar(d: nat): (c: char)
    requires d < 10
    ensures IsDigit(c)
  {
    ('0' as int + d) as char
  }

  function DigitValue(c: char): (d: nat)
    requires IsDigit(c)
    ensures d < 10 && DigitChar(d) == c
  {
    c as int - '0' as int
  }

  /** Decimal notation of a natural number, most significant digit first, no leading zero. */
  function NatToString(n: nat): (s: string)
    ensures IsDigits(s)
    ensures n < 10 <==> |s| == 1
    decreases n
  {
    if n < 10 then [DigitChar(n)] else NatToString(n / 10) + [DigitChar(n % 10)]
  }

  /** `f"{i}"` for a Python int: the magnitude in decimal, preceded by '-' when negative. */
  function IntToString(i: int): (s: string)
    ensures |s| >= 1
    ensures forall k :: 0 <= k < |s| ==> IsIntChar(s[k])
    ensures IsDigits(s) <==> i >= 0
  {
    if i < 0 then
      var s := "-" + NatToString(-i);
      assert s[0] == '-';
      s
    else NatToString(i)
  }

  /** `int(s)` for a string of decimal digits (leading zeros allowed, as in Python). */
  function ParseDigits(s: string): nat
    requires forall k :: 0 <= k < |s| ==> IsDigit(s[k])
  {
    if s == [] then 0 else ParseDigits(s[..|s| - 1]) * 10 + DigitValue(s[|s| - 1])
  }

  /** Reads back what IntToString prints; None for anything else. */
  function ParseInt(s: string): Option<int> {
    if IsDigits(s) then Some(ParseDigits(s))
    else if |s| >= 2 && s[0] == '-' && IsDigits(s[1..]) then Some(-(ParseDigits(s[1..]) as int))
    else None
  }

  lemma {:induction false} ParseNatToString(n: nat)
    ensures ParseDigits(NatToString(n)) == n
  {
    if n >= 10 {
      var s := NatToString(n);
      assert s[..|s| - 1] == NatToString(n / 10);
      ParseNatToString(n / 10);
    }
  }

  /** Printing an int and reading it back gives the int. */
  lemma IntToStringRoundTrip(i: int)
    ensures ParseInt(IntToString(i)) == Some(i)
  {
    if i < 0 {
      var s := IntToString(i);
      assert s[1..] == NatToString(-i);
      ParseNatToString(-i);
    } else {
      ParseNatToString(i);
    }
  }

  /** Distinct ints print as distinct strings. */
  lemma IntToStringInjective(a: int, b: int)
    ensures IntToString(a) == IntToString(b) <==> a == b
  {
    if IntToString(a) == IntToString(b) {
      IntToStringRoundTrip(a);
      IntToStringRoundTrip(b);
    }
  }

  /**
   * An int's text followed by a tail that is empty or starts with a character no int
   * prints is read unambiguously: the two ints agree and so do the two tails.
   */
  lemma IntThenSeparator(a: int, x: string, b: int, y: string)
    requires |x| == 0 || !IsIntChar(x[0])
    requires |y| == 0 || !IsIntChar(y[0])
    requires IntToString(a) + x == IntToString(b) + y
    ensures a == b && x == y
  {
    var sa, sb := IntToString(a), IntToString(b);
    if |sa| < |sb| {
      ConcatIndex(sa, x, |sa|);
      ConcatIndex(sb, y, |sa|);
      assert false;
    } else if |sb| < |sa| {
      ConcatIndex(sa, x, |sb|);
      ConcatIndex(sb, y, |sb|);
      assert false;
    }
    assert sa == (sa + x)[..|sa|] == (sb + y)[..|sb|] == sb;
    IntToStringInjective(a, b);
    assert x == (sa + x)[|sa|..] == (sb + y)[|sb|..] == y;
  }

  /** The same, behind a common literal prefix. */
  lemma PrefixIntThenSeparator(p: string, a: int, x: string, b: int, y: string)
    requires |x| == 0 || !IsIntChar(x[0])
    requires |y| == 0 || !IsIntChar(y[0])
    requires p + IntToString(a) + x == p + IntToString(b) + y
    ensures a == b && x == y
  {
    var sa, sb := IntToString(a), IntToString(b);
    ConcatAssoc(p, sa, x);
    ConcatAssoc(p, sb, y);
    CommonPrefixTail(p, sa + x, sb + y);
    IntThenSeparator(a, x, b, y);
  }

  /** Indexing into a concatenation. */
  lemma ConcatIndex(a: string, b: string, i: int)
    ensures 0 <= i < |a| + |b| ==> (a + b)[i] == if i < |a| then a[i] else b[i - |a|]
  {
  }

  lemma ConcatAssoc(a: string, b: string, c: string)
    ensures a + b + c == a + (b + c)
  {
  }

  /** Equal strings with a common prefix have equal tails. */
  lemma CommonPrefixTail(p: string, x: string, y: string)
    requires p + x == p + y
    ensures x == y
  {
    assert x == (p + x)[|p|..];
  }

  /** `s.startswith(prefix)`. */
  predicate StartsWith(s: string, prefix: string) {
    |prefix| <= |s| && s[..|prefix|] == prefix
  }

  /** `sep` occurs in `s` starting at index `i`. */
  predicate OccursAt(s: string, sep: string, i: nat) {
    i + |sep| <= |s| && s[i..i + |sep|] == sep
  }

  /** The first occurrence of `sep` in `s` at or after `from` (as `s.find(sep, from)`), if any. */
  function FindFrom(s: string, sep: string, from: nat): (r: Option<nat>)
    requires from <= |s|
    ensures r.Some? ==> from <= r.value && OccursAt(s, sep, r.value)
    ensures r.Some? ==> forall j :: from <= j < r.value ==> !OccursAt(s, sep, j)
    ensures r.None? ==> forall j :: from <= j <= |s| ==> !OccursAt(s, sep, j)
    decreases |s| - from
  {
    if OccursAt(s, sep, from) then Some(from)
    else if from == |s| then None
    else FindFrom(s, sep, from + 1)
  }

  /** `sep.join(parts)`. */
  function Join(parts: seq<string>, sep: string): string
    decreases |parts|
  {
    if |parts| == 0 then ""
    else if |parts| == 1 then parts[0]
    else parts[0] + sep + Join(parts[1..], sep)
  }

  /**
   * `s.split(sep)` for a non-empty separator (Python raises ValueError on an empty one):
   * the pieces between the non-overlapping occurrences found scanning left to right.
   * `SplitAt` and `SplitNone` pin the pieces down; `SplitPiecesHoldNoSeparator` says
   * none of them holds the separator.
   */
  function Split(s: string, sep: string): (parts: seq<string>)
    requires |sep| > 0
    ensures |parts| >= 1
    ensures Join(parts, sep) == s
    decreases |s|
  {
    match FindFrom(s, sep, 0)
    case None => [s]
    case Some(k) =>
      var rest := Split(s[k + |sep|..], sep);
      assert s == s[..k] + sep + s[k + |sep|..];
      [s[..k]] + rest
  }

  /** `xs[-1]`. */
  function Last<T>(xs: seq<T>): T
    requires |xs| > 0
  {
    xs[|xs| - 1]
  }

  /** Splitting at a known first occurrence. */
  lemma SplitAt(s: string, sep: string, k: nat)
    requires |sep| > 0 && OccursAt(s, sep, k)
    requires forall j :: 0 <= j < k ==> !OccursAt(s, sep, j)
    ensures Split(s, sep) == [s[..k]] + Split(s[k + |sep|..], sep)
  {
  }

  /** No piece of a split holds the separator: every occurrence was cut out. */
  lemma {:induction false} SplitPiecesHoldNoSeparator(s: string, sep: string)
    requires |sep| > 0
    ensures var parts := Split(s, sep);
      forall k, j :: 0 <= k < |parts| && 0 <= j <= |parts[k]| ==> !OccursAt(parts[k], sep, j)
    decreases |s|
  {
    var found := FindFrom(s, sep, 0);
    if found.None? {
      SplitNone(s, sep);
    } else {
      var i := found.value;
      var head, rest := s[..i], s[i + |sep|..];
      SplitAt(s, sep, i);
      SplitPiecesHoldNoSeparator(rest, sep);
      NoOccurrenceBefore(s, sep, i);
      ConsPiecesHoldNoSeparator(head, Split(rest, sep), sep);
    }
  }

  /** The text before the first occurrence holds no occurrence. */
  lemma NoOccurrenceBefore(s: string, sep: string, i: nat)
    requires |sep| > 0 && i <= |s|
    requires forall j :: 0 <= j < i ==> !OccursAt(s, sep, j)
    ensures forall j :: 0 <= j <= i ==> !OccursAt(s[..i], sep, j)
  {
    forall j | 0 <= j <= i ensures !OccursAt(s[..i], sep, j) {
      if j + |sep| <= i {
        assert !OccursAt(s, sep, j);
        assert s[..i][j..j + |sep|] == s[j..j + |sep|];
      }
    }
  }

  lemma ConsPiecesHoldNoSeparator(head: string, tail: seq<string>, sep: string)
    requires forall j :: 0 <= j <= |head| ==> !OccursAt(head, sep, j)
    requires forall k, j :: 0 <= k < |tail| && 0 <= j <= |tail[k]| ==> !OccursAt(tail[k], sep, j)
    ensures var parts := [head] + tail;
      forall k, j :: 0 <= k < |parts| && 0 <= j <= |parts[k]| ==> !OccursAt(parts[k], sep, j)
  {
    var parts := [head] + tail;
    forall k | 0 < k < |parts| ensures parts[k] == tail[k - 1] { }
  }

  /** A string with no occurrence of the separator splits into itself alone. */
  lemma SplitNone(s: string, sep: string)
    requires |sep| > 0
    requires forall j :: 0 <= j <= |s| ==> !OccursAt(s, sep, j)
    ensures Split(s, sep) == [s]
  {
  }

  /** A separator cannot occur where its first character does not. */
  lemma NoOccurrenceWithoutHead(s: string, sep: string, from: nat)
    requires |sep| > 0 && from <= |s|
    requires forall k :: from <= k < |s| ==> s[k] != sep[0]
    ensures forall j :: from <= j <= |s| ==> !OccursAt(s, sep, j)
  {
    forall j | from <= j <= |s|
      ensures !OccursAt(s, sep, j)
    {
      if j + |sep| <= |s| {
        assert s[j..j + |sep|][0] == s[j];
      }
    }
  }
}
