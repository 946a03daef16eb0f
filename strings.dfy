/**
 * The Python `str` operations the pipeline relies on, written out over
 * `seq<char>`. Character classes follow Python's definitions; letter case is
 * modelled for ASCII letters only.
 */
module Strings {
  import opened Base

  /** Python's `str.isspace` for one character. */
  predicate IsSpace(c: char)
  {
    c == ' ' || c == '\t' || c == '\n' || c == '\r' || c == '\U{0B}' || c == '\U{0C}'
    || ('\U{1C}' <= c <= '\U{1F}') || c == '\U{85}' || c == '\U{A0}' || c == '\U{1680}'
    || ('\U{2000}' <= c <= '\U{200A}') || c == '\U{2028}' || c == '\U{2029}'
    || c == '\U{202F}' || c == '\U{205F}' || c == '\U{3000}'
  }

  /** The characters at which Python's `str.splitlines` breaks a line. */
  predicate IsLineBreak(c: char)
  {
    c == '\n' || c == '\r' || c == '\U{0B}' || c == '\U{0C}' || ('\U{1C}' <= c <= '\U{1E}')
    || c == '\U{85}' || c == '\U{2028}' || c == '\U{2029}'
  }

  function LStrip(s: string): (r: string)
    ensures |r| <= |s| && r == s[|s| - |r|..]
    ensures r == [] || !IsSpace(r[0])
    ensures forall k :: 0 <= k < |s| - |r| ==> IsSpace(s[k])
  {
    if s == [] || !IsSpace(s[0]) then s else LStrip(s[1..])
  }

  function RStrip(s: string): (r: string)
    ensures |r| <= |s| && r == s[..|r|]
    ensures r == [] || !IsSpace(r[|r| - 1])
    ensures forall k :: |r| <= k < |s| ==> IsSpace(s[k])
  {
    if s == [] || !IsSpace(s[|s| - 1]) then s else RStrip(s[..|s| - 1])
  }

  /** Python's `str.strip()` with no argument. */
  function Strip(s: string): (r: string)
    ensures r == [] || (!IsSpace(r[0]) && !IsSpace(r[|r| - 1]))
    ensures |r| <= |s|
  {
    RStrip(LStrip(s))
  }

  /** Python's `str.rstrip(c)` for a single character `c`. */
  function RStripChar(s: string, c: char): (r: string)
    ensures |r| <= |s| && r == s[..|r|]
    ensures r == [] || r[|r| - 1] != c
    ensures forall k :: |r| <= k < |s| ==> s[k] == c
  {
    if s == [] || s[|s| - 1] != c then s else RStripChar(s[..|s| - 1], c)
  }

  predicate StartsWith(s: string, prefix: string)
  {
    |prefix| <= |s| && s[..|prefix|] == prefix
  }

  predicate EndsWith(s: string, suffix: string)
  {
    |suffix| <= |s| && s[|s| - |suffix|..] == suffix
  }

  /** Python's `sub in s` for strings. */
  predicate Contains(s: string, sub: string)
    decreases |s|
  {
    StartsWith(s, sub) || (s != [] && Contains(s[1..], sub))
  }

  function IndexOfBreak(s: string): (i: nat)
    ensures i <= |s|
    ensures forall k :: 0 <= k < i ==> !IsLineBreak(s[k])
    ensures i < |s| ==> IsLineBreak(s[i])
  {
    if s == [] || IsLineBreak(s[0]) then 0 else 1 + IndexOfBreak(s[1..])
  }

  /** Python's `str.splitlines()`: a final line break opens no empty line; "\r\n" is one break. */
  function SplitLines(s: string): (lines: seq<string>)
    ensures forall l <- lines :: forall c <- l :: !IsLineBreak(c)
    ensures s == [] <==> lines == []
    decreases |s|
  {
    if s == [] then []
    else
      var i := IndexOfBreak(s);
      if i == |s| then [s]
      else
        var next := if s[i] == '\r' && i + 1 < |s| && s[i + 1] == '\n' then i + 2 else i + 1;
        [s[..i]] + SplitLines(s[next..])
  }

  function IndexOfChar(s: string, c: char): (i: nat)
    ensures i <= |s|
    ensures forall k :: 0 <= k < i ==> s[k] != c
    ensures i < |s| ==> s[i] == c
  {
    if s == [] || s[0] == c then 0 else 1 + IndexOfChar(s[1..], c)
  }

  /** Python's `str.split(sep)` for a one-character separator: empty fields are kept. */
  function Split(s: string, sep: char): (parts: seq<string>)
    ensures |parts| >= 1
    ensures forall p <- parts :: sep !in p
    decreases |s|
  {
    var i := IndexOfChar(s, sep);
    if i == |s| then [s] else [s[..i]] + Split(s[i + 1..], sep)
  }

  /** The first item of Python's `str.split()` (runs of whitespace separate words). */
  function FirstWord(s: string): (w: Option<string>)
    ensures w.Some? ==> w.value != [] && forall c <- w.value :: !IsSpace(c)
  {
    var t := LStrip(s);
    if t == [] then None else Some(TakeWord(t))
  }

  function TakeWord(s: string): (w: string)
    ensures |w| <= |s| && w == s[..|w|]
    ensures forall c <- w :: !IsSpace(c)
    ensures s != [] && !IsSpace(s[0]) ==> w != []
  {
    if s == [] || IsSpace(s[0]) then [] else [s[0]] + TakeWord(s[1..])
  }

  /** Python's `sep.join(parts)`. */
  function Join(sep: string, parts: seq<string>): string
  {
    if parts == [] then ""
    else if |parts| == 1 then parts[0]
    else parts[0] + sep + Join(sep, parts[1..])
  }

  /** Splitting a join on a separator that no part contains gives the parts back. */
  lemma {:induction false} SplitJoin(parts: seq<string>, sep: char)
    requires parts != [] && forall p <- parts :: sep !in p
    ensures Split(Join([sep], parts), sep) == parts
  {
    var s := Join([sep], parts);
    var p := parts[0];
    assert sep !in p by { assert p in parts; }
    assert forall k :: 0 <= k < |p| ==> p[k] != sep by {
      forall k | 0 <= k < |p| ensures p[k] != sep { assert p[k] in p; }
    }
    if |parts| == 1 {
    } else {
      var rest := Join([sep], parts[1..]);
      assert s == p + [sep] + rest;
      assert s[..|p|] == p;
      IndexOfCharPrefix(p, [sep] + rest, sep);
      assert s == p + ([sep] + rest);
      assert s[|p| + 1..] == rest;
      SplitJoin(parts[1..], sep);
      assert Split(s, sep) == [p] + Split(rest, sep);
      assert parts == [p] + parts[1..];
    }
  }

  lemma IndexOfCharPrefix(a: string, b: string, c: char)
    requires c !in a && b != [] && b[0] == c
    ensures IndexOfChar(a + b, c) == |a|
  {
    assert forall k :: 0 <= k < |a| ==> (a + b)[k] != c by {
      forall k | 0 <= k < |a| ensures (a + b)[k] != c { assert (a + b)[k] == a[k] && a[k] in a; }
    }
    assert (a + b)[|a|] == c;
  }

  /** Python's `s.replace(c, d)` for single characters. */
  function ReplaceChar(s: string, c: char, d: char): (r: string)
    ensures |r| == |s|
    ensures forall k :: 0 <= k < |s| ==> r[k] == (if s[k] == c then d else s[k])
  {
    if s == [] then [] else [if s[0] == c then d else s[0]] + ReplaceChar(s[1..], c, d)
  }

  /** Python's `s.replace(old, new)`: every non-overlapping occurrence of `pat`, scanning left to right. */
  function ReplaceAll(s: string, pat: string, rep: string): string
    decreases |s|
  {
    if pat == [] then
      if s == [] then rep else rep + [s[0]] + ReplaceAll(s[1..], pat, rep)
    else if s == [] then []
    else if StartsWith(s, pat) then rep + ReplaceAll(s[|pat|..], pat, rep)
    else [s[0]] + ReplaceAll(s[1..], pat, rep)
  }

  function ToLowerChar(c: char): char
  {
    if 'A' <= c <= 'Z' then (c as int + 32) as char else c
  }

  /** Python's `str.lower()` (ASCII letters). */
  function ToLower(s: string): (r: string)
    ensures |r| == |s|
    ensures forall k :: 0 <= k < |s| ==> r[k] == ToLowerChar(s[k])
  {
    if s == [] then [] else [ToLowerChar(s[0])] + ToLower(s[1..])
  }

  function ToUpperChar(c: char): char
  {
    if 'a' <= c <= 'z' then (c as int - 32) as char else c
  }

  /** Python's `str.upper()` (ASCII letters). */
  function ToUpper(s: string): (r: string)
    ensures |r| == |s|
    ensures forall k :: 0 <= k < |s| ==> r[k] == ToUpperChar(s[k])
  {
    if s == [] then [] else [ToUpperChar(s[0])] + ToUpper(s[1..])
  }

  /** `c * n`: the character repeated `n` times. */
  function Repeat(c: char, n: nat): (r: string)
    ensures |r| == n && forall x <- r :: x == c
  {
    seq(n, _ => c)
  }

  predicate IsUpperLetter(c: char) { 'A' <= c <= 'Z' }
  predicate IsLowerLetter(c: char) { 'a' <= c <= 'z' }

  /** Python's `str.isupper()`: at least one cased character, and no lower-case one. */
  predicate IsUpper(s: string)
  {
    HasUpperLetter(s) && !HasLowerLetter(s)
  }

  predicate HasUpperLetter(s: string)
  {
    s != [] && (IsUpperLetter(s[0]) || HasUpperLetter(s[1..]))
  }

  predicate HasLowerLetter(s: string)
  {
    s != [] && (IsLowerLetter(s[0]) || HasLowerLetter(s[1..]))
  }

  predicate IsDigitChar(c: char) { '0' <= c <= '9' }

  /** Python's `str.isdigit()`: non-empty and every character a digit. */
  predicate IsDigits(s: string)
  {
    s != [] && forall c <- s :: IsDigitChar(c)
  }

  function DigitChar(d: nat): char
    requires d < 10
  {
    "0123456789"[d]
  }

  /** Python's `str(n)` for a natural number. */
  function NatToString(n: nat): (r: string)
    ensures r != [] && forall c <- r :: IsDigitChar(c)
  {
    if n < 10 then [DigitChar(n)] else NatToString(n / 10) + [DigitChar(n % 10)]
  }

  /** Python's `str(i)` for an integer. */
  function IntToString(i: int): string
  {
    if i < 0 then "-" + NatToString(-i) else NatToString(i)
  }

  function DigitValue(c: char): nat
    requires IsDigitChar(c)
  {
    c as int - '0' as int
  }

  /**
   * The value of a run of digits in which single underscores may separate
   * digits, as Python's `int()` accepts; None when the run is malformed.
   */
  function ParseDigits(s: string): (r: Option<nat>)
    ensures r.Some? ==> s != [] && IsDigitChar(s[|s| - 1])
    decreases |s|
  {
    if s == [] || !IsDigitChar(s[|s| - 1]) then None
    else if |s| == 1 then Some(DigitValue(s[0]))
    else
      var init := s[..|s| - 1];
      var init' := if init[|init| - 1] == '_' then init[..|init| - 1] else init;
      match ParseDigits(init')
      case None => None
      case Some(v) => Some(v * 10 + DigitValue(s[|s| - 1]))
  }

  /** Python's `int(s)` for a decimal string; None where Python raises ValueError. */
  function ParseInt(s: string): Option<int>
  {
    ParseSigned(Strip(s))
  }

  function ParseSigned(t: string): Option<int>
  {
    if t == [] then None
    else if t[0] == '-' || t[0] == '+' then
      var d := ParseDigits(t[1..]);
      if d.None? then None else
        var v: int := d.value;
        Some(if t[0] == '-' then -v else v)
    else
      var d := ParseDigits(t);
      if d.None? then None else
        var v: int := d.value;
        Some(v)
  }

  /** An occurrence found by `in` sits at some position. */
  lemma {:induction false} ContainsIndex(s: string, sub: string) returns (k: nat)
    requires Contains(s, sub)
    ensures k + |sub| <= |s| && s[k..k + |sub|] == sub
    decreases |s|
  {
    if StartsWith(s, sub) {
      k := 0;
    } else {
      var k' := ContainsIndex(s[1..], sub);
      k := k' + 1;
      assert s[k..k + |sub|] == s[1..][k'..k' + |sub|];
    }
  }

  /** Replacing a pattern that does not occur changes nothing. */
  lemma {:induction false} ReplaceAllAbsent(s: string, pat: string, rep: string)
    requires pat != [] && !Contains(s, pat)
    ensures ReplaceAll(s, pat, rep) == s
    decreases |s|
  {
    if s != [] {
      ReplaceAllAbsent(s[1..], pat, rep);
    }
  }

  lemma {:induction false} IndexOfCharExtend(a: string, b: string, c: char)
    requires IndexOfChar(a, c) < |a|
    ensures IndexOfChar(a + b, c) == IndexOfChar(a, c)
    decreases |a|
  {
    if a[0] != c {
      assert (a + b)[1..] == a[1..] + b;
      IndexOfCharExtend(a[1..], b, c);
    }
  }

  /** Splitting at a separator placed between two texts splits each of them. */
  lemma {:induction false} SplitConcat(a: string, b: string, sep: char)
    ensures Split(a + [sep] + b, sep) == Split(a, sep) + Split(b, sep)
    decreases |a|
  {
    var s := a + [sep] + b;
    var i := IndexOfChar(a, sep);
    if i == |a| {
      assert sep !in a by {
        forall k | 0 <= k < |a| ensures a[k] != sep { }
      }
      IndexOfCharPrefix(a, [sep] + b, sep);
      assert s == a + ([sep] + b);
      assert s[..|a|] == a && s[|a| + 1..] == b;
    } else {
      assert s == a + ([sep] + b);
      IndexOfCharExtend(a, [sep] + b, sep);
      assert s[..i] == a[..i];
      assert s[i + 1..] == a[i + 1..] + [sep] + b;
      SplitConcat(a[i + 1..], b, sep);
    }
  }

  /** Replacing a leading pattern that does not occur again leaves the replacement and the rest. */
  lemma ReplaceAllPrefix(pat: string, rest: string, rep: string)
    requires pat != [] && !Contains(rest, pat)
    ensures ReplaceAll(pat + rest, pat, rep) == rep + rest
  {
    var s := pat + rest;
    assert StartsWith(s, pat) && s[|pat|..] == rest;
    ReplaceAllAbsent(rest, pat, rep);
  }
}
