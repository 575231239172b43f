/**
 * The string operations the resource code applies to names and paths:
 * `replace` with the regular expressions it uses, case mapping, prefix and
 * `lastIndexOf` searches, and JavaScript's `<` on strings.
 */
module Text {

  /** `s.replace(/\\/g, "/")` */
  function BackslashesToSlashes(s: string): (r: string)
    ensures |r| == |s|
    ensures forall i :: 0 <= i < |s| ==> r[i] == (if s[i] == '\\' then '/' else s[i])
  {
    if s == [] then [] else [if s[0] == '\\' then '/' else s[0]] + BackslashesToSlashes(s[1..])
  }

  /** `s.replace(/[/\\]/g, "_")` */
  function SeparatorsToUnderscores(s: string): (r: string)
    ensures |r| == |s|
    ensures forall i :: 0 <= i < |s| ==> r[i] == (if s[i] == '/' || s[i] == '\\' then '_' else s[i])
  {
    if s == [] then [] else [if s[0] == '/' || s[0] == '\\' then '_' else s[0]] + SeparatorsToUnderscores(s[1..])
  }

  function UpperChar(c: char): char {
    if 'a' <= c <= 'z' then (c as int - 32) as char else c
  }

  function LowerChar(c: char): char {
    if 'A' <= c <= 'Z' then (c as int + 32) as char else c
  }

  /** `s.toUpperCase()` on the ASCII letters. */
  function ToUpper(s: string): (r: string)
    ensures |r| == |s|
    ensures forall i :: 0 <= i < |s| ==> r[i] == UpperChar(s[i])
  {
    if s == [] then [] else [UpperChar(s[0])] + ToUpper(s[1..])
  }

  /** `s.toLocaleLowerCase()` on the ASCII letters. */
  function ToLower(s: string): (r: string)
    ensures |r| == |s|
    ensures forall i :: 0 <= i < |s| ==> r[i] == LowerChar(s[i])
  {
    if s == [] then [] else [LowerChar(s[0])] + ToLower(s[1..])
  }

  /** The characters matched by `\s` in a JavaScript regular expression. */
  predicate IsWhitespace(c: char) {
    c == ' ' || c == '\t' || c == '\n' || c == '\r' || c == '\U{000B}' || c == '\U{000C}'
    || c == '\U{00A0}' || c == '\U{1680}' || ('\U{2000}' <= c <= '\U{200A}')
    || c == '\U{2028}' || c == '\U{2029}' || c == '\U{202F}' || c == '\U{205F}'
    || c == '\U{3000}' || c == '\U{FEFF}'
  }

  predicate NoWhitespace(s: string) {
    forall i :: 0 <= i < |s| ==> !IsWhitespace(s[i])
  }

  /** The length of the run of whitespace that starts `s`. */
  function WhitespaceRun(s: string): (n: nat)
    ensures n <= |s|
    ensures forall i :: 0 <= i < n ==> IsWhitespace(s[i])
    ensures n < |s| ==> !IsWhitespace(s[n])
  {
    if s != [] && IsWhitespace(s[0]) then 1 + WhitespaceRun(s[1..]) else 0
  }

  /** `s.replace(/\s+/g, "_")`: every maximal run of whitespace becomes one `_`. */
  function UnderscoreWhitespace(s: string): string
    decreases |s|
  {
    if s == [] then []
    else if IsWhitespace(s[0]) then "_" + UnderscoreWhitespace(s[WhitespaceRun(s)..])
    else [s[0]] + UnderscoreWhitespace(s[1..])
  }

  /** The replacement leaves no whitespace behind and never lengthens the text. */
  lemma {:induction false} UnderscoreWhitespaceClean(s: string)
    ensures NoWhitespace(UnderscoreWhitespace(s))
    ensures |UnderscoreWhitespace(s)| <= |s|
    decreases |s|
  {
    if s != [] {
      if IsWhitespace(s[0]) {
        UnderscoreWhitespaceClean(s[WhitespaceRun(s)..]);
      } else {
        UnderscoreWhitespaceClean(s[1..]);
      }
    }
  }

  /** Text without whitespace is left as it is, so the replacement is idempotent. */
  lemma {:induction false} UnderscoreWhitespaceIdentity(s: string)
    requires NoWhitespace(s)
    ensures UnderscoreWhitespace(s) == s
    decreases |s|
  {
    if s != [] {
      UnderscoreWhitespaceIdentity(s[1..]);
    }
  }

  /** Replacing `/` and `\` by `_` leaves no path separator. */
  predicate NoSeparator(s: string) {
    forall i :: 0 <= i < |s| ==> s[i] != '/' && s[i] != '\\'
  }

  /** The whitespace replacement introduces no path separator. */
  lemma {:induction false} UnderscoreWhitespaceKeepsNoSeparator(s: string)
    requires NoSeparator(s)
    ensures NoSeparator(UnderscoreWhitespace(s))
    decreases |s|
  {
    if s != [] {
      if IsWhitespace(s[0]) {
        UnderscoreWhitespaceKeepsNoSeparator(s[WhitespaceRun(s)..]);
      } else {
        UnderscoreWhitespaceKeepsNoSeparator(s[1..]);
      }
    }
  }

  predicate StartsWith(s: string, prefix: string) {
    |prefix| <= |s| && s[..|prefix|] == prefix
  }

  /** Whether `pat` occurs in `s` at position `i`. */
  predicate OccursAt(s: string, pat: string, i: int) {
    0 <= i && i + |pat| <= |s| && s[i..i + |pat|] == pat
  }

  /** `s.lastIndexOf(pat)` for a non-empty pattern, searching from position `from` down. */
  function LastIndexFrom(s: string, pat: string, from: int): (r: int)
    requires -1 <= from < |s|
    ensures -1 <= r <= from
    ensures r >= 0 ==> OccursAt(s, pat, r)
    ensures forall j :: r < j <= from ==> !OccursAt(s, pat, j)
    decreases from + 1
  {
    if from < 0 then -1
    else if OccursAt(s, pat, from) then from
    else LastIndexFrom(s, pat, from - 1)
  }

  /** `s.lastIndexOf(pat)`: the last position where `pat` occurs, or -1. */
  function LastIndexOf(s: string, pat: string): (r: int)
    requires pat != []
    ensures -1 <= r < |s|
    ensures r >= 0 ==> OccursAt(s, pat, r)
    ensures r == -1 <==> forall j :: 0 <= j <= |s| ==> !OccursAt(s, pat, j)
    ensures forall j :: r < j <= |s| ==> !OccursAt(s, pat, j)
  {
    var r := LastIndexFrom(s, pat, |s| - 1);
    assert !OccursAt(s, pat, |s|);
    r
  }

  /** `s.substring(0, end)`: a negative end counts as 0, a long one as the length. */
  function SubstringTo(s: string, end: int): (r: string)
    ensures end <= 0 ==> r == []
    ensures 0 <= end <= |s| ==> r == s[..end]
    ensures end > |s| ==> r == s
  {
    if end <= 0 then [] else if end >= |s| then s else s[..end]
  }

  // ---------------------------------------------------------------------
  // JavaScript's relational operators on strings
  // ---------------------------------------------------------------------

  /** The UTF-16 code units JavaScript stores for one character: one unit, or a surrogate pair. */
  function CodeUnits(c: char): (units: seq<int>)
    ensures |units| == 1 || |units| == 2
  {
    if (c as int) < 0x1_0000 then [c as int]
    else [0xD800 + (c as int - 0x1_0000) / 0x400, 0xDC00 + (c as int - 0x1_0000) % 0x400]
  }

  /** Lexicographic order on code unit sequences, a proper prefix first. */
  predicate UnitsLess(u: seq<int>, v: seq<int>) {
    if u == [] then v != []
    else if v == [] then false
    else if u[0] != v[0] then u[0] < v[0]
    else UnitsLess(u[1..], v[1..])
  }

  /**
   * A key on characters that orders them as their code units do: characters
   * below U+D800 first, then the characters outside the Basic Multilingual
   * Plane (whose first unit is a surrogate), then U+E000 to U+FFFF.
   */
  function UnitKey(c: char): int {
    if (c as int) < 0xD800 then c as int
    else if (c as int) < 0x1_0000 then c as int + 0x10_0000
    else c as int - 0x1_0000 + 0xD800
  }

  /** The character order of JavaScript's `<`. */
  predicate CharLess(x: char, y: char) {
    UnitKey(x) < UnitKey(y)
  }

  /** Comparing two characters by the key is comparing their UTF-16 code units. */
  lemma CharLessUnits(x: char, y: char)
    ensures CharLess(x, y) <==> UnitsLess(CodeUnits(x), CodeUnits(y))
  {
    var ux, uy := CodeUnits(x), CodeUnits(y);
    if (x as int) >= 0x1_0000 && (y as int) >= 0x1_0000 {
      var qx, rx := (x as int - 0x1_0000) / 0x400, (x as int - 0x1_0000) % 0x400;
      var qy, ry := (y as int - 0x1_0000) / 0x400, (y as int - 0x1_0000) % 0x400;
      assert x as int == 0x1_0000 + 0x400 * qx + rx;
      assert y as int == 0x1_0000 + 0x400 * qy + ry;
      assert ux == [0xD800 + qx, 0xDC00 + rx] && uy == [0xD800 + qy, 0xDC00 + ry];
      assert 0 <= rx < 0x400 && 0 <= ry < 0x400;
      if qx == qy {
        assert ux[1..] == [0xDC00 + rx] && uy[1..] == [0xDC00 + ry];
        assert UnitsLess(ux[1..], uy[1..]) <==> rx < ry by {
          assert ux[1..][1..] == [] && uy[1..][1..] == [];
        }
        if rx == ry {
          assert ux == uy;
          UnitsLessIrreflexive(ux);
        }
      }
    } else if (x as int) >= 0x1_0000 {
      var qx := (x as int - 0x1_0000) / 0x400;
      assert 0 <= qx < 0x400;
      assert ux[0] == 0xD800 + qx;
    } else if (y as int) >= 0x1_0000 {
      var qy := (y as int - 0x1_0000) / 0x400;
      assert 0 <= qy < 0x400;
      assert uy[0] == 0xD800 + qy;
    }
  }

  lemma {:induction false} UnitsLessIrreflexive(u: seq<int>)
    ensures !UnitsLess(u, u)
  {
    if u != [] { UnitsLessIrreflexive(u[1..]); }
  }

  /** Different characters have different keys, so the order on characters is total. */
  lemma UnitKeyInjective(x: char, y: char)
    requires x != y
    ensures UnitKey(x) != UnitKey(y)
  {
  }

  /**
   * `a < b` on strings: lexicographic on UTF-16 code units, a proper prefix
   * first.  Equal characters have equal units and the first unit of a
   * character decides how many follow, so comparing character by character
   * with `CharLess` gives the same answer.
   */
  predicate Less(a: string, b: string) {
    if a == [] then b != []
    else if b == [] then false
    else if a[0] != b[0] then CharLess(a[0], b[0])
    else Less(a[1..], b[1..])
  }

  lemma {:induction false} LessIrreflexive(a: string)
    ensures !Less(a, a)
  {
    if a != [] { LessIrreflexive(a[1..]); }
  }

  lemma {:induction false} LessAsymmetric(a: string, b: string)
    ensures Less(a, b) ==> !Less(b, a)
  {
    if a != [] && b != [] && a[0] == b[0] { LessAsymmetric(a[1..], b[1..]); }
  }

  lemma {:induction false} LessTransitive(a: string, b: string, c: string)
    requires Less(a, b) && Less(b, c)
    ensures Less(a, c)
  {
    if a != [] && a[0] == b[0] && b[0] == c[0] {
      LessTransitive(a[1..], b[1..], c[1..]);
    }
  }

  lemma {:induction false} LessTotal(a: string, b: string)
    ensures a == b || Less(a, b) || Less(b, a)
  {
    if a != [] && b != [] && a[0] == b[0] {
      LessTotal(a[1..], b[1..]);
      if a[1..] == b[1..] {
        assert a == [a[0]] + a[1..] && b == [b[0]] + b[1..];
      }
    }
  }
}
