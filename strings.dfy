/** The JavaScript string operations the handlers rely on, as functions on
    `seq<char>`: `split` with a non-empty separator, `join`, `String(n)` for an
    integer, `padStart`, and the whitespace test behind `trim() === ''`. */
module Strings {

  import opened Types

  /** `sep` occurs in `s` starting at index `i`. */
  predicate OccursAt(s: string, sep: string, i: int)
  {
    0 <= i && i + |sep| <= |s| && s[i..i + |sep|] == sep
  }

  predicate Contains(s: string, sep: string)
  {
    exists i | 0 <= i <= |s| :: OccursAt(s, sep, i)
  }

  /** The first occurrence of `sep` in `s` at or after `from` (`indexOf`). */
  function IndexOfFrom(s: string, sep: string, from: nat): (r: Option<nat>)
    requires |sep| > 0
    ensures r.Some? ==> from <= r.value && OccursAt(s, sep, r.value)
    decreases |s| - from
  {
    if from + |sep| > |s| then None
    else if s[from..from + |sep|] == sep then Some(from)
    else IndexOfFrom(s, sep, from + 1)
  }

  /** `IndexOfFrom` finds the first occurrence, and finds one whenever there is one. */
  lemma {:induction false} IndexOfFromIsFirst(s: string, sep: string, from: nat)
    requires |sep| > 0
    ensures var r := IndexOfFrom(s, sep, from);
      forall j :: from <= j && (r.None? || j < r.value) ==> !OccursAt(s, sep, j)
    decreases |s| - from
  {
    if from + |sep| <= |s| && s[from..from + |sep|] != sep {
      IndexOfFromIsFirst(s, sep, from + 1);
    }
  }

  /** A prefix of `s` that ends before the first occurrence of `sep` does not contain `sep`. */
  lemma PrefixBeforeFirstHasNone(s: string, sep: string, i: nat)
    requires |sep| > 0 && i <= |s|
    requires forall j :: 0 <= j < i ==> !OccursAt(s, sep, j)
    ensures !Contains(s[..i], sep)
  {
    forall j | OccursAt(s[..i], sep, j)
      ensures false
    {
      assert s[..i][j..j + |sep|] == s[j..j + |sep|];
      assert OccursAt(s, sep, j);
    }
  }

  /** `s.split(sep)`: the pieces between the occurrences of `sep`, in order. */
  function Split(s: string, sep: string): (parts: seq<string>)
    requires |sep| > 0
    ensures |parts| >= 1
    decreases |s|
  {
    match IndexOfFrom(s, sep, 0)
    case None => [s]
    case Some(i) => [s[..i]] + Split(s[i + |sep|..], sep)
  }

  /** No piece of a split contains the separator. */
  lemma {:induction false} SplitPiecesAvoidSep(s: string, sep: string)
    requires |sep| > 0
    ensures forall k :: 0 <= k < |Split(s, sep)| ==> !Contains(Split(s, sep)[k], sep)
    decreases |s|
  {
    IndexOfFromIsFirst(s, sep, 0);
    match IndexOfFrom(s, sep, 0)
    case None =>
      assert s[..|s|] == s;
      PrefixBeforeFirstHasNone(s, sep, |s|);
    case Some(i) =>
      var rest := s[i + |sep|..];
      PrefixBeforeFirstHasNone(s, sep, i);
      SplitPiecesAvoidSep(rest, sep);
      assert Split(s, sep) == [s[..i]] + Split(rest, sep);
  }

  /** `parts.join(sep)`; an empty array joins to the empty string. */
  function Join(parts: seq<string>, sep: string): string
  {
    if |parts| == 0 then ""
    else if |parts| == 1 then parts[0]
    else parts[0] + sep + Join(parts[1..], sep)
  }

  lemma JoinCons(head: string, tail: seq<string>, sep: string)
    requires |tail| >= 1
    ensures Join([head] + tail, sep) == head + sep + Join(tail, sep)
  {
    assert ([head] + tail)[1..] == tail;
  }

  /** One step of `Split`: the piece before the first separator, then the split of the rest. */
  lemma SplitStep(s: string, sep: string, i: nat)
    requires |sep| > 0 && IndexOfFrom(s, sep, 0) == Some(i)
    ensures i + |sep| <= |s|
    ensures Split(s, sep) == [s[..i]] + Split(s[i + |sep|..], sep)
    ensures s == s[..i] + sep + s[i + |sep|..]
  {
    assert s == s[..i] + s[i..i + |sep|] + s[i + |sep|..];
  }

  /** Splitting loses nothing: joining the pieces with the separator gives the string back. */
  lemma {:induction false} JoinSplit(s: string, sep: string)
    requires |sep| > 0
    ensures Join(Split(s, sep), sep) == s
    decreases |s|
  {
    var first := IndexOfFrom(s, sep, 0);
    if first.Some? {
      var i := first.value;
      SplitStep(s, sep, i);
      var rest := s[i + |sep|..];
      JoinSplit(rest, sep);
      JoinCons(s[..i], Split(rest, sep), sep);
    }
  }

  /** For a one-character separator, "contains" is plain membership. */
  lemma ContainsChar(s: string, c: char)
    ensures Contains(s, [c]) <==> c in s
  {
    if c in s {
      var i :| 0 <= i < |s| && s[i] == c;
      assert OccursAt(s, [c], i);
    }
    forall i | OccursAt(s, [c], i)
      ensures c in s
    {
      assert s[i..i + 1] == [c];
      assert s[i] == c;
    }
  }

  predicate IsDigit(c: char)
  {
    '0' <= c <= '9'
  }

  predicate AllDigits(s: string)
  {
    forall i :: 0 <= i < |s| ==> IsDigit(s[i])
  }

  function DigitChar(d: nat): (c: char)
    requires d < 10
    ensures IsDigit(c)
  {
    ('0' as int + d) as char
  }

  function DigitValue(c: char): (d: nat)
    requires IsDigit(c)
    ensures d < 10 && DigitChar(d) == c
  {
    (c as int - '0' as int) as nat
  }

  /** `String(n)` for a non-negative integer: decimal digits, no leading zeros. */
  function NatToString(n: nat): (s: string)
    ensures |s| >= 1 && AllDigits(s)
    ensures n < 10 <==> |s| == 1
    decreases n
  {
    if n < 10 then [DigitChar(n)] else NatToString(n / 10) + [DigitChar(n % 10)]
  }

  /** `String(n)` for any integer: a minus sign before the digits of a negative number. */
  function IntToString(n: int): (s: string)
    ensures |s| >= 1
    ensures n < 0 <==> s[0] == '-'
    ensures n < 0 ==> s[1..] == NatToString(-n)
    ensures n >= 0 ==> AllDigits(s)
  {
    if n < 0 then "-" + NatToString(-n) else NatToString(n)
  }

  function ParseNat(s: string): nat
    requires AllDigits(s)
  {
    if |s| == 0 then 0 else ParseNat(s[..|s| - 1]) * 10 + DigitValue(s[|s| - 1])
  }

  lemma {:induction false} ParseNatToString(n: nat)
    ensures ParseNat(NatToString(n)) == n
    decreases n
  {
    var s := NatToString(n);
    if n >= 10 {
      ParseNatToString(n / 10);
      assert s[..|s| - 1] == NatToString(n / 10);
    }
  }

  /** Reads back what `IntToString` writes. */
  function ParseInt(s: string): int
    requires |s| >= 1
    requires if s[0] == '-' then AllDigits(s[1..]) else AllDigits(s)
  {
    if s[0] == '-' then -(ParseNat(s[1..]) as int) else ParseNat(s)
  }

  lemma ParseIntToString(n: int)
    ensures |IntToString(n)| >= 1
    ensures var s := IntToString(n); (if s[0] == '-' then AllDigits(s[1..]) else AllDigits(s))
    ensures ParseInt(IntToString(n)) == n
  {
    var s := IntToString(n);
    if n < 0 {
      assert s[1..] == NatToString(-n);
      ParseNatToString(-n);
    } else {
      ParseNatToString(n);
    }
  }

  /** `s.padStart(width, fill)` with a one-character fill string: a text already as long
      as the width is kept, a shorter one gets the fill in front up to the width. */
  function PadStart(s: string, width: nat, fill: char): (r: string)
    ensures |r| == if |s| >= width then |s| else width
    ensures |s| >= width ==> r == s
    ensures |s| < width ==> r == seq(width - |s|, _ => fill) + s
    decreases width - |s|
  {
    if |s| >= width then s
    else
      var r := PadStart([fill] + s, width, fill);
      assert seq(width - |s| - 1, _ => fill) + ([fill] + s) == seq(width - |s|, _ => fill) + s;
      r
  }

  /** Two decimal digits, the tens first. */
  function TwoDigits(v: nat): (s: string)
    requires v < 100
    ensures |s| == 2 && AllDigits(s)
  {
    [DigitChar(v / 10), DigitChar(v % 10)]
  }

  /** `String(v).padStart(2, '0')` for 1 <= v <= 99 is exactly two digits of `v`. */
  lemma PadTwoDigits(v: nat)
    requires 1 <= v < 100
    ensures PadStart(IntToString(v), 2, '0') == TwoDigits(v)
  {
    if v >= 10 {
      assert NatToString(v / 10) == [DigitChar(v / 10)];
    }
  }

  /** The characters `trim()` removes: ECMAScript's WhiteSpace (tab, vertical tab, form
      feed, the byte order mark and every space separator of Unicode category Zs) and its
      LineTerminators (line feed, carriage return, line and paragraph separators). */
  predicate IsSpace(c: char)
  {
    c == '\t' || c == '\n' || c == '\U{000B}' || c == '\U{000C}' || c == '\r' || c == ' ' ||
    c == '\U{00A0}' || c == '\U{1680}' || ('\U{2000}' <= c <= '\U{200A}') ||
    c == '\U{2028}' || c == '\U{2029}' || c == '\U{202F}' || c == '\U{205F}' ||
    c == '\U{3000}' || c == '\U{FEFF}'
  }

  /** Every character of `s` is one that `trim()` removes. */
  predicate IsBlank(s: string)
  {
    forall i :: 0 <= i < |s| ==> IsSpace(s[i])
  }

  /** `s.trimStart()`: the suffix left after the leading white space. */
  function TrimStart(s: string): (t: string)
    ensures |t| <= |s| && t == s[|s| - |t|..]
    ensures t == [] || !IsSpace(t[0])
    ensures forall i :: 0 <= i < |s| - |t| ==> IsSpace(s[i])
  {
    if s == [] || !IsSpace(s[0]) then s else TrimStart(s[1..])
  }

  /** `s.trimEnd()`: the prefix left before the trailing white space. */
  function TrimEnd(s: string): (t: string)
    ensures |t| <= |s| && t == s[..|t|]
    ensures t == [] || !IsSpace(t[|t| - 1])
    ensures forall i :: |t| <= i < |s| ==> IsSpace(s[i])
  {
    if s == [] || !IsSpace(s[|s| - 1]) then s else TrimEnd(s[..|s| - 1])
  }

  /** What the two trims establish, put together: the piece left is a contiguous part of the
      text with only white space on either side of it. */
  lemma TrimStartEndIsInfix(s: string, u: string, t: string)
    requires |u| <= |s| && u == s[|s| - |u|..] && forall k :: 0 <= k < |s| - |u| ==> IsSpace(s[k])
    requires |t| <= |u| && t == u[..|t|] && forall k :: |t| <= k < |u| ==> IsSpace(u[k])
    ensures |s| - |u| + |t| <= |s|
    ensures t == s[|s| - |u|..|s| - |u| + |t|]
    ensures IsBlank(s[..|s| - |u|])
    ensures IsBlank(s[|s| - |u| + |t|..])
  {
    var i := |s| - |u|;
    forall k | 0 <= k < |t|
      ensures t[k] == s[i + k]
    {
      assert t[k] == u[k];
      assert u[k] == s[i..][k];
    }
    assert t == s[i..i + |t|];
    BlankPrefix(s, i);
    BlankSuffix(u, |t|);
    assert s[i + |t|..] == u[|t|..];
  }

  lemma BlankPrefix(s: string, n: nat)
    requires n <= |s|
    requires forall k :: 0 <= k < n ==> IsSpace(s[k])
    ensures IsBlank(s[..n])
  {
  }

  lemma BlankSuffix(u: string, n: nat)
    requires n <= |u|
    requires forall k :: n <= k < |u| ==> IsSpace(u[k])
    ensures IsBlank(u[n..])
  {
    forall j | 0 <= j < |u| - n
      ensures IsSpace(u[n..][j])
    {
      assert u[n..][j] == u[n + j];
    }
  }

  /** `s.trim()`: the text with its leading and trailing white space removed, and nothing else. */
  function Trim(s: string): (t: string)
    ensures t == [] || (!IsSpace(t[0]) && !IsSpace(t[|t| - 1]))
    ensures exists i | 0 <= i <= |s| - |t| :: t == s[i..i + |t|] && IsBlank(s[..i]) && IsBlank(s[i + |t|..])
  {
    var u := TrimStart(s);
    var t := TrimEnd(u);
    TrimStartEndIsInfix(s, u, t);
    t
  }

  /** `s.trim() === ''` holds exactly for the strings made only of white space. */
  lemma TrimEmptyIffBlank(s: string)
    ensures Trim(s) == "" <==> IsBlank(s)
  {
  }
}
