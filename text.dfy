/** String helpers behind the dashboard's search filters and labels:
    ASCII case mapping (toLowerCase / toUpperCase), the blank test behind
    `!s.trim()`, substring search (`includes`), and decimal rendering of
    integers (template-string interpolation and `padStart(2, "0")`). */
module Text {

  function LowerChar(c: char): char {
    if 'A' <= c <= 'Z' then (c as int + 32) as char else c
  }

  function UpperChar(c: char): char {
    if 'a' <= c <= 'z' then (c as int - 32) as char else c
  }

  /** s.toLowerCase(), on ASCII letters. */
  function Lower(s: string): (r: string)
    ensures |r| == |s|
    ensures forall i :: 0 <= i < |s| ==> r[i] == LowerChar(s[i])
  {
    if s == [] then [] else [LowerChar(s[0])] + Lower(s[1..])
  }

  /** s.toUpperCase(), on ASCII letters. */
  function Upper(s: string): (r: string)
    ensures |r| == |s|
    ensures forall i :: 0 <= i < |s| ==> r[i] == UpperChar(s[i])
  {
    if s == [] then [] else [UpperChar(s[0])] + Upper(s[1..])
  }

  lemma {:induction false} UpperAppend(a: string, b: string)
    ensures Upper(a + b) == Upper(a) + Upper(b)
    decreases |a|
  {
    if a == [] {
      assert a + b == b;
    } else {
      assert (a + b)[0] == a[0];
      assert (a + b)[1..] == a[1..] + b;
      UpperAppend(a[1..], b);
    }
  }

  /** Lower-casing forgets an earlier upper-casing: the two spellings of a
      word compare equal once lowered. */
  lemma LowerUpper(s: string)
    ensures Lower(Upper(s)) == Lower(s)
  {
    forall i | 0 <= i < |s| ensures Lower(Upper(s))[i] == Lower(s)[i] {
      var c := s[i];
      if 'a' <= c <= 'z' {
        assert UpperChar(c) as int == c as int - 32;
      }
    }
  }

  /** The characters String.prototype.trim removes: ECMAScript's WhiteSpace
      (tab, vertical tab, form feed, space, no-break space, the byte order
      mark and the other space separators of Unicode category Zs) and its
      LineTerminator (line feed, carriage return, line and paragraph
      separators). */
  predicate IsSpace(c: char) {
    c == '\t' || c == '\n' || c == '\U{000B}' || c == '\U{000C}' || c == '\r' || c == ' '
    || c == '\U{00A0}' || c == '\U{1680}' || '\U{2000}' <= c <= '\U{200A}'
    || c == '\U{2028}' || c == '\U{2029}' || c == '\U{202F}' || c == '\U{205F}'
    || c == '\U{3000}' || c == '\U{FEFF}'
  }

  /** `!s.trim()`: the string is empty after trimming. */
  function IsBlank(s: string): (b: bool)
    ensures b <==> forall i :: 0 <= i < |s| ==> IsSpace(s[i])
  {
    if s == [] then true else IsSpace(s[0]) && IsBlank(s[1..])
  }

  /** Non-ASCII spaces count as blank too: a no-break space, an ideographic
      space and a byte order mark trim to nothing, a letter does not. */
  lemma UnicodeSpacesAreBlank()
    ensures IsBlank("\U{00A0}") && IsBlank("\U{3000}\U{FEFF}") && IsBlank(" \U{2009}\n")
    ensures !IsBlank("\U{00A0}a")
  {
    assert "\U{00A0}a"[1] == 'a';
  }

  /** `needle` occurs at position k of `hay`. */
  predicate OccursAt(hay: string, needle: string, k: nat) {
    k + |needle| <= |hay| && hay[k..k + |needle|] == needle
  }

  /** hay.startsWith(needle). */
  function StartsWith(hay: string, needle: string): (b: bool)
    ensures b <==> OccursAt(hay, needle, 0)
  {
    |needle| <= |hay| && hay[..|needle|] == needle
  }

  /** hay.includes(needle), by scanning the start positions left to right. */
  function Contains(hay: string, needle: string): (b: bool)
    ensures b <==> exists k: nat :: OccursAt(hay, needle, k)
    decreases |hay|
  {
    if StartsWith(hay, needle) then true
    else if hay == [] then false
    else
      var rest := Contains(hay[1..], needle);
      assert forall k: nat :: OccursAt(hay[1..], needle, k) <==> OccursAt(hay, needle, k + 1) by {
        forall k: nat ensures OccursAt(hay[1..], needle, k) <==> OccursAt(hay, needle, k + 1) {
          if k + 1 + |needle| <= |hay| {
            assert hay[1..][k..k + |needle|] == hay[k + 1..k + 1 + |needle|];
          }
        }
      }
      assert rest ==> exists k: nat :: OccursAt(hay, needle, k) by {
        if rest {
          var k: nat :| OccursAt(hay[1..], needle, k);
          assert OccursAt(hay, needle, k + 1);
        }
      }
      assert (exists k: nat :: OccursAt(hay, needle, k)) ==> rest by {
        if exists k: nat :: OccursAt(hay, needle, k) {
          var k: nat :| OccursAt(hay, needle, k);
          assert k != 0;
          assert OccursAt(hay[1..], needle, k - 1);
        }
      }
      rest
  }

  /** The empty string occurs in every string. */
  lemma ContainsEmpty(hay: string)
    ensures Contains(hay, "")
  {
    assert OccursAt(hay, "", 0);
  }

  /** Every string contains itself. */
  lemma ContainsSelf(s: string)
    ensures Contains(s, s)
  {
    assert OccursAt(s, s, 0);
  }

  /** The decimal digit character of d. */
  function DigitChar(d: nat): (c: char)
    requires d < 10
    ensures IsDigit(c) && DigitValue(c) == d
  {
    (d + '0' as int) as char
  }

  function DigitValue(c: char): int {
    c as int - '0' as int
  }

  predicate IsDigit(c: char) {
    '0' <= c <= '9'
  }

  /** String(n) for a natural number: its decimal digits, no leading zeros. */
  function NatToString(n: nat): (s: string)
    ensures |s| >= 1
    ensures forall i :: 0 <= i < |s| ==> IsDigit(s[i])
    ensures n < 10 <==> |s| == 1
    decreases n
  {
    if n < 10 then [DigitChar(n)] else NatToString(n / 10) + [DigitChar(n % 10)]
  }

  /** String(n) for any integer, with a leading '-' when negative. */
  function IntToString(n: int): (s: string)
    ensures |s| >= 1
    ensures n < 0 <==> s[0] == '-'
  {
    if n < 0 then "-" + NatToString(-n) else NatToString(n)
  }

  /** Reads back a string of decimal digits. */
  function ParseDigits(s: string): int
    decreases |s|
  {
    if s == [] then 0 else ParseDigits(s[..|s| - 1]) * 10 + DigitValue(s[|s| - 1])
  }

  /** Reads back the rendering of an integer. */
  function ParseInt(s: string): int {
    if s != [] && s[0] == '-' then -ParseDigits(s[1..]) else ParseDigits(s)
  }

  lemma {:induction false} NatToStringRoundTrip(n: nat)
    ensures ParseDigits(NatToString(n)) == n
    decreases n
  {
    if n >= 10 {
      NatToStringRoundTrip(n / 10);
      var s := NatToString(n);
      assert s[..|s| - 1] == NatToString(n / 10);
    }
  }

  /** Rendering an integer in decimal loses nothing. */
  lemma IntToStringRoundTrip(n: int)
    ensures ParseInt(IntToString(n)) == n
  {
    if n < 0 {
      NegativeRoundTrip(n);
    } else {
      NonNegativeRoundTrip(n);
    }
  }

  lemma NegativeRoundTrip(n: int)
    requires n < 0
    ensures ParseInt(IntToString(n)) == n
  {
    var digits := NatToString(-n);
    var s := "-" + digits;
    assert s[1..] == digits;
    assert ParseInt(s) == -ParseDigits(digits);
    NatToStringRoundTrip(-n);
  }

  lemma NonNegativeRoundTrip(n: nat)
    ensures ParseInt(IntToString(n)) == n
  {
    var s := NatToString(n);
    assert IsDigit(s[0]);
    assert ParseInt(s) == ParseDigits(s);
    NatToStringRoundTrip(n);
  }

  /** Distinct integers render as distinct strings. */
  lemma IntToStringInjective(a: int, b: int)
    requires IntToString(a) == IntToString(b)
    ensures a == b
  {
    IntToStringRoundTrip(a);
    IntToStringRoundTrip(b);
  }

  /** A common prefix cancels. */
  lemma PrefixCancel(x: string, y: string, z: string)
    requires x + y == x + z
    ensures y == z
  {
    assert y == (x + y)[|x|..];
    assert z == (x + z)[|x|..];
  }

  /** n.toString().padStart(2, "0") for 0 <= n < 100. */
  function Pad2(n: nat): (s: string)
    requires n < 100
    ensures |s| == 2 && IsDigit(s[0]) && IsDigit(s[1])
    ensures DigitValue(s[0]) * 10 + DigitValue(s[1]) == n
  {
    [DigitChar(n / 10), DigitChar(n % 10)]
  }
}
