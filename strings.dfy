/** String helpers standing in for the Python and JavaScript string methods the source uses. */
module Strs {
  import opened Wrappers

  // ---------------------------------------------------------------------------
  // Decimal digits

  predicate IsDigit(c: char) { '0' <= c <= '9' }

  predicate AllDigits(s: string) { forall i :: 0 <= i < |s| ==> IsDigit(s[i]) }

  function DigitChar(d: nat): (c: char)
    requires d < 10
    ensures IsDigit(c)
  {
    (('0' as int) + d) as char
  }

  function DigitVal(c: char): (d: nat)
    requires IsDigit(c)
    ensures d < 10
  {
    (c as int) - ('0' as int)
  }

  /** Python `str(n)` / a JavaScript template literal for a natural number. */
  function NatToStr(n: nat): (s: string)
    ensures |s| >= 1 && AllDigits(s)
    ensures n < 10 <==> |s| == 1
    decreases n
  {
    if n < 10 then [DigitChar(n)] else NatToStr(n / 10) + [DigitChar(n % 10)]
  }

  /** Python `str(i)` for any integer. */
  function IntToStr(i: int): (s: string)
    ensures |s| >= 1
    ensures i >= 0 ==> s == NatToStr(i)
  {
    if i >= 0 then NatToStr(i) else "-" + NatToStr(-i)
  }

  /** The value of a non-empty run of decimal digits (Python `int(s)` on such a run). */
  function DigitsValue(s: string): nat
    requires AllDigits(s)
    decreases |s|
  {
    if s == [] then 0 else DigitsValue(s[..|s| - 1]) * 10 + DigitVal(s[|s| - 1])
  }

  /** The longest run of decimal digits at the start of `s` (what `\d+` matches there). */
  function LeadingDigits(s: string): (r: string)
    ensures |r| <= |s| && AllDigits(r) && r == s[..|r|]
    ensures |r| < |s| ==> !IsDigit(s[|r|])
    decreases |s|
  {
    if s != [] && IsDigit(s[0]) then [s[0]] + LeadingDigits(s[1..]) else []
  }

  /** The run of leading digits stops at the first character that is not a digit. */
  lemma {:induction false} LeadingDigitsOf(d: string, rest: string)
    requires AllDigits(d)
    requires rest == [] || !IsDigit(rest[0])
    ensures LeadingDigits(d + rest) == d
    decreases |d|
  {
    if d != [] {
      assert (d + rest)[1..] == d[1..] + rest;
      LeadingDigitsOf(d[1..], rest);
    }
  }

  lemma {:induction false} DigitsValueOfNatToStr(n: nat)
    ensures DigitsValue(NatToStr(n)) == n
    decreases n
  {
    if n >= 10 {
      var s := NatToStr(n);
      assert s[..|s| - 1] == NatToStr(n / 10);
      DigitsValueOfNatToStr(n / 10);
    }
  }

  /** Distinct numbers render as distinct strings. */
  lemma NatToStrInjective(a: nat, b: nat)
    ensures NatToStr(a) == NatToStr(b) ==> a == b
  {
    if NatToStr(a) == NatToStr(b) {
      DigitsValueOfNatToStr(a);
      DigitsValueOfNatToStr(b);
    }
  }

  /**
   * Python `int(s)` for a decimal literal: surrounding whitespace, an optional sign and at least
   * one ASCII digit. `None` stands for the ValueError Python raises otherwise.
   */
  function PyInt(s: string): (r: Option<int>)
    ensures AllDigits(s) && s != [] ==> r == Some(DigitsValue(s))
  {
    StripKeepsDigits(s);
    IntLiteral(PyStrip(s))
  }

  /** The value of a stripped literal: an optional sign and at least one digit. */
  function IntLiteral(t: string): (r: Option<int>)
    ensures AllDigits(t) && t != [] ==> r == Some(DigitsValue(t))
  {
    if t != [] && (t[0] == '-' || t[0] == '+') then
      var digits := t[1..];
      if digits != [] && AllDigits(digits) then Some(if t[0] == '-' then -(DigitsValue(digits) as int) else DigitsValue(digits))
      else None
    else if t != [] && AllDigits(t) then Some(DigitsValue(t))
    else None
  }

  /** The ValueError message of a failed `int(s)`. */
  function PyIntError(s: string): string
  {
    "invalid literal for int() with base 10: '" + s + "'"
  }

  /** A string of digits has no whitespace to strip. */
  lemma StripKeepsDigits(s: string)
    ensures AllDigits(s) ==> PyStrip(s) == s
  {
    if AllDigits(s) && s != [] {
      assert IsDigit(s[0]) && IsDigit(s[|s| - 1]);
      assert PyLeadingSpaces(s) == 0;
      assert PyTrailingSpaces(s) == 0;
    }
  }

  lemma StripKeepsUnpadded(s: string)
    requires s != [] && !IsPySpace(s[0]) && !IsPySpace(s[|s| - 1])
    ensures PyStrip(s) == s
  {
    assert PyLeadingSpaces(s) == 0;
    assert PyTrailingSpaces(s) == 0;
  }

  /** A minus sign and a run of digits read back as the negated number. */
  lemma PyIntOfNegative(d: string)
    requires d != [] && AllDigits(d)
    ensures PyInt("-" + d) == Some(-(DigitsValue(d) as int))
  {
    var s := "-" + d;
    assert IsDigit(d[|d| - 1]) && s[|s| - 1] == d[|d| - 1];
    StripKeepsUnpadded(s);
    NegativeLiteral(d);
  }

  lemma NegativeLiteral(d: string)
    requires d != [] && AllDigits(d)
    ensures IntLiteral("-" + d) == Some(-(DigitsValue(d) as int))
  {
    var s := "-" + d;
    assert s[0] == '-' && s[1..] == d;
  }

  // ---------------------------------------------------------------------------
  // Searching

  /** `t` occurs in `s` at position `i`. */
  predicate OccursAt(s: string, t: string, i: int)
  {
    0 <= i && i + |t| <= |s| && s[i..i + |t|] == t
  }

  /** Python `t in s`, JavaScript `s.includes(t)`. */
  predicate Contains(s: string, t: string)
  {
    exists i | 0 <= i <= |s| - |t| :: OccursAt(s, t, i)
  }

  /** The first position at or after `from` where `t` occurs. */
  function IndexOfFrom(s: string, t: string, from: nat): (r: Option<nat>)
    ensures r.Some? ==> from <= r.value && OccursAt(s, t, r.value)
    ensures r.Some? ==> forall j :: from <= j < r.value ==> !OccursAt(s, t, j)
    ensures r.None? ==> forall j :: from <= j ==> !OccursAt(s, t, j)
    decreases |s| - from
  {
    if from + |t| > |s| then None
    else if s[from..from + |t|] == t then Some(from)
    else IndexOfFrom(s, t, from + 1)
  }

  /** The search from `from` finds `p` when `t` occurs there and nowhere between. */
  lemma {:induction false} IndexOfFromFinds(s: string, t: string, from: nat, p: nat)
    requires from <= p && OccursAt(s, t, p)
    requires forall j :: from <= j < p ==> !OccursAt(s, t, j)
    ensures IndexOfFrom(s, t, from) == Some(p)
    decreases p - from
  {
    if from < p {
      assert !OccursAt(s, t, from);
      IndexOfFromFinds(s, t, from + 1, p);
    }
  }

  /** The search from `from` finds nothing when `t` occurs nowhere from there on. */
  lemma {:induction false} IndexOfFromMisses(s: string, t: string, from: nat)
    requires forall j :: from <= j ==> !OccursAt(s, t, j)
    ensures IndexOfFrom(s, t, from) == None
    decreases |s| - from
  {
    if from + |t| <= |s| {
      assert !OccursAt(s, t, from);
      IndexOfFromMisses(s, t, from + 1);
    }
  }

  /** The first position where `t` occurs in `s`. */
  function IndexOf(s: string, t: string): (r: Option<nat>)
    ensures r.Some? <==> Contains(s, t)
    ensures r.Some? ==> OccursAt(s, t, r.value) && forall j :: 0 <= j < r.value ==> !OccursAt(s, t, j)
  {
    IndexOfFrom(s, t, 0)
  }

  // ---------------------------------------------------------------------------
  // Case mapping (ASCII letters only)

  function LowerChar(c: char): char
  {
    if 'A' <= c <= 'Z' then ((c as int) + 32) as char else c
  }

  function UpperChar(c: char): char
  {
    if 'a' <= c <= 'z' then ((c as int) - 32) as char else c
  }

  /** Python `s.lower()`, JavaScript `s.toLowerCase()`, restricted to ASCII letters. */
  function Lower(s: string): (r: string)
    ensures |r| == |s| && forall i :: 0 <= i < |s| ==> r[i] == LowerChar(s[i])
  {
    seq(|s|, i requires 0 <= i < |s| => LowerChar(s[i]))
  }

  // ---------------------------------------------------------------------------
  // Whitespace

  /** The characters Python's `str.isspace` accepts. */
  predicate IsPySpace(c: char)
  {
    c == ' ' || ('\t' <= c <= '\r') || ('\U{1c}' <= c <= '\U{1f}') || c == '\U{85}' || c == '\U{a0}'
    || c == '\U{1680}' || ('\U{2000}' <= c <= '\U{200a}') || c == '\U{2028}' || c == '\U{2029}'
    || c == '\U{202f}' || c == '\U{205f}' || c == '\U{3000}'
  }

  /** The characters JavaScript's `trim` and the regular-expression class `\s` accept. */
  predicate IsJsSpace(c: char)
  {
    c == ' ' || ('\t' <= c <= '\r') || c == '\U{a0}' || c == '\U{1680}' || ('\U{2000}' <= c <= '\U{200a}')
    || c == '\U{2028}' || c == '\U{2029}' || c == '\U{202f}' || c == '\U{205f}' || c == '\U{3000}' || c == '\U{feff}'
  }

  /** The number of leading characters satisfying Python's `isspace`. */
  function PyLeadingSpaces(s: string): (n: nat)
    ensures n <= |s| && (forall i :: 0 <= i < n ==> IsPySpace(s[i])) && (n < |s| ==> !IsPySpace(s[n]))
    decreases |s|
  {
    if s != [] && IsPySpace(s[0]) then 1 + PyLeadingSpaces(s[1..]) else 0
  }

  /** The number of trailing characters satisfying Python's `isspace`. */
  function PyTrailingSpaces(s: string): (n: nat)
    ensures n <= |s| && (forall i :: |s| - n <= i < |s| ==> IsPySpace(s[i])) && (n < |s| ==> !IsPySpace(s[|s| - n - 1]))
    decreases |s|
  {
    if s != [] && IsPySpace(s[|s| - 1]) then 1 + PyTrailingSpaces(s[..|s| - 1]) else 0
  }

  /** Python `s.lstrip()`. */
  function PyLStrip(s: string): string
  {
    s[PyLeadingSpaces(s)..]
  }

  /** Python `s.rstrip()`. */
  function PyRStrip(s: string): string
  {
    s[..|s| - PyTrailingSpaces(s)]
  }

  /** Python `s.strip()`. */
  function PyStrip(s: string): string
  {
    PyRStrip(PyLStrip(s))
  }

  /** The number of leading characters JavaScript's `trim` removes. */
  function JsLeadingSpaces(s: string): (n: nat)
    ensures n <= |s| && (forall i :: 0 <= i < n ==> IsJsSpace(s[i])) && (n < |s| ==> !IsJsSpace(s[n]))
    decreases |s|
  {
    if s != [] && IsJsSpace(s[0]) then 1 + JsLeadingSpaces(s[1..]) else 0
  }

  /** The number of trailing characters JavaScript's `trim` removes. */
  function JsTrailingSpaces(s: string): (n: nat)
    ensures n <= |s| && (forall i :: |s| - n <= i < |s| ==> IsJsSpace(s[i])) && (n < |s| ==> !IsJsSpace(s[|s| - n - 1]))
    decreases |s|
  {
    if s != [] && IsJsSpace(s[|s| - 1]) then 1 + JsTrailingSpaces(s[..|s| - 1]) else 0
  }

  /** JavaScript `s.trimStart()`. */
  function JsTrimStart(s: string): string
  {
    s[JsLeadingSpaces(s)..]
  }

  /** JavaScript `s.trimEnd()`. */
  function JsTrimEnd(s: string): string
  {
    s[..|s| - JsTrailingSpaces(s)]
  }

  /** JavaScript `s.trim()`. */
  function JsTrim(s: string): string
  {
    JsTrimEnd(JsTrimStart(s))
  }

  /** A string is blank when stripping leaves nothing (Python `not s.strip()`). */
  lemma PyStripEmptyIffAllSpace(s: string)
    ensures PyStrip(s) == "" <==> forall i :: 0 <= i < |s| ==> IsPySpace(s[i])
  {
    var l := PyLStrip(s);
    if l != [] {
      assert l[0] == s[PyLeadingSpaces(s)];
      assert PyTrailingSpaces(l) < |l|;
    }
  }

  /** A string is blank when trimming leaves nothing (JavaScript `!s.trim()`). */
  lemma JsTrimEmptyIffAllSpace(s: string)
    ensures JsTrim(s) == "" <==> forall i :: 0 <= i < |s| ==> IsJsSpace(s[i])
  {
    var l := JsTrimStart(s);
    if l != [] {
      assert l[0] == s[JsLeadingSpaces(s)];
      assert JsTrailingSpaces(l) < |l|;
    }
  }

  // ---------------------------------------------------------------------------
  // Split and join

  /** Python `sep.join(parts)`, JavaScript `parts.join(sep)`. */
  function Join(parts: seq<string>, sep: string): string
    decreases |parts|
  {
    if |parts| == 0 then "" else if |parts| == 1 then parts[0] else parts[0] + sep + Join(parts[1..], sep)
  }

  lemma {:induction false} JoinAppend(parts: seq<string>, p: string, sep: string)
    ensures Join(parts + [p], sep) == if parts == [] then p else Join(parts, sep) + sep + p
    decreases |parts|
  {
    if |parts| >= 2 {
      assert (parts + [p])[1..] == parts[1..] + [p];
      JoinAppend(parts[1..], p, sep);
    } else if |parts| == 1 {
      assert (parts + [p])[1..] == [p];
    }
  }

  /** Python `s.split(c)` for a one-character separator. */
  function Split(s: string, c: char): (r: seq<string>)
    ensures |r| >= 1
    ensures forall k :: 0 <= k < |r| ==> c !in r[k]
    decreases |s|
  {
    if c in s then
      var i := FirstIndexOfChar(s, c);
      [s[..i]] + Split(s[i + 1..], c)
    else [s]
  }

  function FirstIndexOfChar(s: string, c: char): (i: nat)
    requires c in s
    ensures i < |s| && s[i] == c && c !in s[..i]
  {
    if s[0] == c then 0 else 1 + FirstIndexOfChar(s[1..], c)
  }

  /** Splitting at a character and joining the pieces with it gives the string back. */
  lemma {:induction false} JoinSplit(s: string, c: char)
    ensures Join(Split(s, c), [c]) == s
    decreases |s|
  {
    if c in s {
      var i := FirstIndexOfChar(s, c);
      var a, b := s[..i], s[i + 1..];
      var rest := Split(b, c);
      JoinSplit(b, c);
      assert Split(s, c) == [a] + rest;
      JoinCons(a, rest, [c]);
      assert Join(Split(s, c), [c]) == a + [c] + b;
      assert s == a + [c] + b;
    }
  }

  lemma JoinCons(p: string, rest: seq<string>, sep: string)
    requires |rest| >= 1
    ensures Join([p] + rest, sep) == p + sep + Join(rest, sep)
  {
    assert ([p] + rest)[1..] == rest;
  }

  lemma {:induction false} FirstIndexOfCharAfter(p: string, c: char, t: string)
    requires c !in p
    ensures c in p + [c] + t && FirstIndexOfChar(p + [c] + t, c) == |p|
    decreases |p|
  {
    var s := p + [c] + t;
    assert s[|p|] == c;
    if p != [] {
      assert s[1..] == p[1..] + [c] + t;
      FirstIndexOfCharAfter(p[1..], c, t);
    }
  }

  lemma SplitAt(s: string, c: char, p: string, t: string)
    requires c !in p && s == p + [c] + t
    ensures Split(s, c) == [p] + Split(t, c)
  {
    FirstIndexOfCharAfter(p, c, t);
    assert s[..|p|] == p;
    assert s[|p| + 1..] == t;
  }

  /** Joining pieces that do not contain the separator and splitting again gives the pieces back. */
  lemma {:induction false} SplitJoin(parts: seq<string>, c: char)
    requires |parts| >= 1
    requires forall k :: 0 <= k < |parts| ==> c !in parts[k]
    ensures Split(Join(parts, [c]), c) == parts
    decreases |parts|
  {
    if |parts| >= 2 {
      var rest := Join(parts[1..], [c]);
      assert Join(parts, [c]) == parts[0] + [c] + rest;
      SplitAt(Join(parts, [c]), c, parts[0], rest);
      SplitJoin(parts[1..], c);
      assert parts == [parts[0]] + parts[1..];
    }
  }

  // ---------------------------------------------------------------------------
  // Replacement

  /** Python `s.replace(pat, rep)`: every non-overlapping occurrence, scanning left to right. */
  function ReplaceAll(s: string, pat: string, rep: string): string
    requires |pat| > 0
    decreases |s|
  {
    if |s| < |pat| then s
    else if s[..|pat|] == pat then rep + ReplaceAll(s[|pat|..], pat, rep)
    else [s[0]] + ReplaceAll(s[1..], pat, rep)
  }

  /** Text in which the pattern does not occur is returned unchanged. */
  lemma {:induction false} ReplaceAllAbsent(s: string, pat: string, rep: string)
    requires |pat| > 0 && !Contains(s, pat)
    ensures ReplaceAll(s, pat, rep) == s
    decreases |s|
  {
    if |s| >= |pat| {
      assert !OccursAt(s, pat, 0);
      ContainsTail(s, pat);
      ReplaceAllAbsent(s[1..], pat, rep);
    }
  }

  /**
   * A pattern whose first character appears nowhere else in it cannot start inside text free of
   * it and run into an occurrence that follows.
   */
  lemma NoOccurrenceAcross(before: string, t: string, pat: string)
    requires pat != [] && forall i :: 0 < i < |pat| ==> pat[i] != pat[0]
    requires before != [] && !Contains(before, pat)
    requires OccursAt(t, pat, 0)
    ensures !OccursAt(before + t, pat, 0)
  {
    var s := before + t;
    if |before| >= |pat| {
      assert before[..|pat|] == s[..|pat|];
      assert !OccursAt(before, pat, 0);
    } else {
      assert s[|before|] == t[0] == pat[0];
      assert |s| < |pat| || s[..|pat|][|before|] != pat[|before|];
    }
  }

  /** A stretch of the tail is the stretch of the whole one place further on. */
  lemma TailSlice(s: string, i: nat, j: nat)
    requires s != [] && i <= j <= |s| - 1
    ensures s[1..][i..j] == s[i + 1..j + 1]
  {
    assert forall k :: 0 <= k < j - i ==> s[1..][i..j][k] == s[i + 1 + k];
  }

  /** A text without the pattern has none after its first character either. */
  lemma ContainsTail(s: string, pat: string)
    requires s != [] && !Contains(s, pat)
    ensures !Contains(s[1..], pat)
  {
    forall i | 0 <= i <= |s[1..]| - |pat| ensures !OccursAt(s[1..], pat, i) {
      assert !OccursAt(s, pat, i + 1);
      TailSlice(s, i, i + |pat|);
    }
  }

  /** The pattern itself is replaced by the replacement. */
  lemma ReplaceAllWhole(pat: string, rep: string)
    requires |pat| > 0
    ensures ReplaceAll(pat, pat, rep) == rep
  {
    assert pat[..|pat|] == pat;
    assert ReplaceAll(pat[|pat|..], pat, rep) == [];
  }

  /** No occurrence of the pattern in `s` overlaps the stretch from `lo` up to `hi`. */
  predicate Untouched(s: string, pat: string, lo: int, hi: int)
  {
    forall j :: OccursAt(s, pat, j) ==> j + |pat| <= lo || hi <= j
  }

  /** Dropping the first `n` characters moves the stretch `n` places to the left. */
  lemma UntouchedDrop(s: string, n: nat, pat: string, lo: int, hi: int)
    requires n <= |s| && Untouched(s, pat, lo, hi)
    ensures Untouched(s[n..], pat, lo - n, hi - n)
  {
    forall j | OccursAt(s[n..], pat, j) ensures j + |pat| <= lo - n || hi - n <= j {
      assert s[n..][j..j + |pat|] == s[j + n..j + n + |pat|];
      assert OccursAt(s, pat, j + n);
    }
  }

  /**
   * A stretch that no occurrence of the pattern overlaps comes through `replace` verbatim, between
   * the replaced text before it and the replaced text after it.
   */
  lemma {:induction false} ReplaceAllKeeps(a: string, q: string, b: string, pat: string, rep: string)
    requires |pat| > 0 && Untouched(a + q + b, pat, |a|, |a| + |q|)
    ensures ReplaceAll(a + q + b, pat, rep) == ReplaceAll(a, pat, rep) + q + ReplaceAll(b, pat, rep)
    decreases |a| + |q|, 1
  {
    if a != [] {
      KeepsPastFirst(a, q, b, pat, rep);
    } else if q != [] {
      assert a + q + b == q + b;
      KeepsFromInside(q, b, pat, rep);
    } else {
      assert a + q + b == b;
    }
  }

  /** The first step of `replace` inside the text before the stretch. */
  lemma {:induction false} KeepsPastFirst(a: string, q: string, b: string, pat: string, rep: string)
    requires |pat| > 0 && a != [] && Untouched(a + q + b, pat, |a|, |a| + |q|)
    ensures ReplaceAll(a + q + b, pat, rep) == ReplaceAll(a, pat, rep) + q + ReplaceAll(b, pat, rep)
    decreases |a| + |q|, 0
  {
    var s := a + q + b;
    if |s| < |pat| {
      assert ReplaceAll(b, pat, rep) == b;
    } else if s[..|pat|] == pat {
      assert OccursAt(s, pat, 0);
      assert a[..|pat|] == pat;
      var a' := a[|pat|..];
      assert s[|pat|..] == a' + q + b;
      UntouchedDrop(s, |pat|, pat, |a|, |a| + |q|);
      ReplaceAllKeeps(a', q, b, pat, rep);
    } else {
      assert s[1..] == a[1..] + q + b;
      UntouchedDrop(s, 1, pat, |a|, |a| + |q|);
      ReplaceAllKeeps(a[1..], q, b, pat, rep);
      if |a| >= |pat| {
        assert a[..|pat|] == s[..|pat|];
      } else {
        assert ReplaceAll(a[1..], pat, rep) == a[1..];
        assert a == [a[0]] + a[1..];
      }
    }
  }

  /** The first step of `replace` at the start of the stretch: no occurrence starts there. */
  lemma {:induction false} KeepsFromInside(q: string, b: string, pat: string, rep: string)
    requires |pat| > 0 && q != [] && Untouched(q + b, pat, 0, |q|)
    ensures ReplaceAll(q + b, pat, rep) == q + ReplaceAll(b, pat, rep)
    decreases |q|, 0
  {
    var s := q + b;
    assert [] + q + b == s;
    if |s| < |pat| {
      assert ReplaceAll(b, pat, rep) == b;
    } else {
      assert !OccursAt(s, pat, 0);
      assert s[1..] == [] + q[1..] + b;
      UntouchedDrop(s, 1, pat, 0, |q|);
      ReplaceAllKeeps([], q[1..], b, pat, rep);
      assert q == [q[0]] + q[1..];
    }
  }

  // ---------------------------------------------------------------------------
  // Lines

  /** The text up to the end of the line. */
  function RestOfLine(s: string): (r: string)
    ensures |r| <= |s| && r == s[..|r|] && '\n' !in r
    ensures |r| < |s| ==> s[|r|] == '\n'
    decreases |s|
  {
    if s == [] || s[0] == '\n' then [] else [s[0]] + RestOfLine(s[1..])
  }

  /** `.*` stops at the next line break: the rest of a break-free line is that line. */
  lemma {:induction false} RestOfLineStops(line: string, rest: string)
    requires '\n' !in line
    requires rest == [] || rest[0] == '\n'
    ensures RestOfLine(line + rest) == line
    decreases |line|
  {
    if line != [] {
      assert line[0] in line;
      assert (line + rest)[1..] == line[1..] + rest;
      assert '\n' !in line[1..] by { assert forall k :: 0 <= k < |line[1..]| ==> line[1..][k] == line[k + 1]; }
      RestOfLineStops(line[1..], rest);
    } else {
      assert line + rest == rest;
    }
  }
}
