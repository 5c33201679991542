/**
 * String helpers the handlers rely on: decimal rendering and parsing of
 * identifiers and indices, ASCII lower-casing, and substring search.
 */
module Text {
  import opened Wrappers

  predicate IsDigit(c: char) {
    '0' <= c <= '9'
  }

  predicate AllDigits(s: string) {
    forall i :: 0 <= i < |s| ==> IsDigit(s[i])
  }

  function DigitChar(d: nat): (c: char)
    requires d < 10
    ensures IsDigit(c) && c as int - '0' as int == d
  {
    ('0' as int + d) as char
  }

  function DigitValue(c: char): nat
    requires IsDigit(c)
  {
    c as int - '0' as int
  }

  /** The decimal rendering of n, without leading zeros. */
  function DecimalString(n: nat): (s: string)
    ensures s != [] && AllDigits(s)
    ensures |s| > 1 ==> s[0] != '0'
    decreases n
  {
    if n < 10 then [DigitChar(n)] else DecimalString(n / 10) + [DigitChar(n % 10)]
  }

  function DigitsValue(s: string): nat
    requires AllDigits(s)
  {
    if s == [] then 0 else 10 * DigitsValue(s[..|s| - 1]) + DigitValue(s[|s| - 1])
  }

  /** Reads a non-empty string of decimal digits; anything else is rejected. */
  function ParseDecimal(s: string): Option<nat> {
    if s != [] && AllDigits(s) then Some(DigitsValue(s)) else None
  }

  /** Parsing the rendering of n gives back n. */
  lemma {:induction false} ParseDecimalString(n: nat)
    ensures ParseDecimal(DecimalString(n)) == Some(n)
    decreases n
  {
    var s := DecimalString(n);
    if n < 10 {
      assert s[..|s| - 1] == [];
      assert DigitsValue(s) == DigitValue(DigitChar(n));
    } else {
      ParseDecimalString(n / 10);
      assert s[..|s| - 1] == DecimalString(n / 10);
      assert DigitValue(s[|s| - 1]) == n % 10;
    }
  }

  /** ASCII lower-casing of one character; every other character is kept. */
  function LowerChar(c: char): char {
    if 'A' <= c <= 'Z' then (c as int - 'A' as int + 'a' as int) as char else c
  }

  function Lower(s: string): (r: string)
    ensures |r| == |s| && forall i :: 0 <= i < |s| ==> r[i] == LowerChar(s[i])
  {
    seq(|s|, i requires 0 <= i < |s| => LowerChar(s[i]))
  }

  predicate StartsWith(s: string, prefix: string) {
    |prefix| <= |s| && s[..|prefix|] == prefix
  }

  /** needle occurs in hay starting at position i. */
  predicate OccursAt(needle: string, hay: string, i: int) {
    0 <= i && i + |needle| <= |hay| && hay[i..i + |needle|] == needle
  }

  /** needle occurs somewhere in hay, found by scanning from the left. */
  predicate Occurs(needle: string, hay: string)
    decreases |hay|
  {
    StartsWith(hay, needle) || (hay != [] && Occurs(needle, hay[1..]))
  }

  /** The scan finds needle exactly when some position holds it. */
  lemma {:induction false} OccursIffSomePosition(needle: string, hay: string)
    ensures Occurs(needle, hay) <==> exists i :: OccursAt(needle, hay, i)
    decreases |hay|
  {
    if hay != [] {
      OccursIffSomePosition(needle, hay[1..]);
    }
    if StartsWith(hay, needle) {
      assert OccursAt(needle, hay, 0);
    } else if Occurs(needle, hay) {
      var j :| OccursAt(needle, hay[1..], j);
      assert hay[1..][j..j + |needle|] == hay[j + 1..j + 1 + |needle|];
      assert OccursAt(needle, hay, j + 1);
    }
    forall i | OccursAt(needle, hay, i) ensures Occurs(needle, hay) {
      if i > 0 {
        assert hay[1..][i - 1..i - 1 + |needle|] == hay[i..i + |needle|];
        assert OccursAt(needle, hay[1..], i - 1);
      }
    }
  }

  /** Case-insensitive substring test over ASCII letters. */
  predicate ContainsIgnoreCase(hay: string, keyword: string) {
    Occurs(Lower(keyword), Lower(hay))
  }

  /** keyword matches hay at position i, letter by letter, ignoring case. */
  predicate MatchesIgnoringCaseAt(hay: string, keyword: string, i: int) {
    0 <= i && i + |keyword| <= |hay| &&
    forall j :: 0 <= j < |keyword| ==> LowerChar(hay[i + j]) == LowerChar(keyword[j])
  }

  /** The case-insensitive test holds exactly when some position of hay matches keyword letter by letter. */
  lemma ContainsIgnoreCaseIffSomePosition(hay: string, keyword: string)
    ensures ContainsIgnoreCase(hay, keyword) <==> exists i :: MatchesIgnoringCaseAt(hay, keyword, i)
  {
    var h, k := Lower(hay), Lower(keyword);
    OccursIffSomePosition(k, h);
    forall i | OccursAt(k, h, i) ensures MatchesIgnoringCaseAt(hay, keyword, i) {
      forall j | 0 <= j < |keyword| ensures LowerChar(hay[i + j]) == LowerChar(keyword[j]) {
        assert h[i..i + |k|][j] == h[i + j];
      }
    }
    forall i | MatchesIgnoringCaseAt(hay, keyword, i) ensures OccursAt(k, h, i) {
      assert h[i..i + |k|] == k;
    }
  }

  /**
   * The length JavaScript reports for a string: UTF-16 code units, so a
   * character outside the Basic Multilingual Plane counts twice.
   */
  function Utf16Length(s: string): (n: nat)
    ensures |s| <= n <= 2 * |s|
  {
    if s == [] then 0 else (if s[0] as int >= 0x1_0000 then 2 else 1) + Utf16Length(s[1..])
  }
}
