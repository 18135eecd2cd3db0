/** Text operations the screens use: `toLowerCase`, `includes`, the
    case-insensitive search built from them, and the decimal rendering of a
    count inside a template literal. */
module Text {

  predicate IsUpper(c: char) {
    'A' <= c <= 'Z'
  }

  /** `toLowerCase` on one character (ASCII letters only). */
  function LowerChar(c: char): (r: char)
    ensures !IsUpper(r)
    ensures !IsUpper(c) ==> r == c
  {
    if IsUpper(c) then (c as int + 32) as char else c
  }

  /** `s.toLowerCase()`. */
  function Lower(s: string): (r: string)
    ensures |r| == |s|
    ensures forall i :: 0 <= i < |r| ==> r[i] == LowerChar(s[i])
  {
    seq(|s|, i requires 0 <= i < |s| => LowerChar(s[i]))
  }

  lemma LowerIdempotent(s: string)
    ensures Lower(Lower(s)) == Lower(s)
  {
    var l := Lower(s);
    assert forall i :: 0 <= i < |l| ==> !IsUpper(l[i]);
  }

  /** `hay.includes(needle)`: needle is a prefix of hay or of one of its
      suffixes. The empty needle is a prefix of everything. */
  predicate Includes(hay: string, needle: string)
    ensures needle <= hay ==> Includes(hay, needle)
    ensures Includes(hay, needle) ==> |needle| <= |hay|
    decreases |hay|
  {
    needle <= hay || (hay != [] && Includes(hay[1..], needle))
  }

  /** `needle` occurs in `hay` starting at position `i`. */
  predicate OccursAt(hay: string, needle: string, i: int) {
    0 <= i && i + |needle| <= |hay| && hay[i..i + |needle|] == needle
  }

  /** An occurrence past the first position of `hay` is an occurrence in
      its tail, one position earlier. */
  lemma OccursInTail(hay: string, needle: string, i: int)
    requires hay != [] && i >= 1
    ensures OccursAt(hay, needle, i) <==> OccursAt(hay[1..], needle, i - 1)
  {
    if i + |needle| <= |hay| {
      assert hay[1..][i - 1..i - 1 + |needle|] == hay[i..i + |needle|];
    }
  }

  /** `Includes` agrees with "needle occurs at some position of hay". */
  lemma {:induction false} IncludesIffOccurs(hay: string, needle: string)
    ensures Includes(hay, needle) <==> exists i :: OccursAt(hay, needle, i)
    decreases |hay|
  {
    if needle <= hay {
      assert OccursAt(hay, needle, 0);
    } else if hay == [] {
      assert forall i :: !OccursAt(hay, needle, i);
    } else {
      IncludesIffOccurs(hay[1..], needle);
      if i :| OccursAt(hay, needle, i) {
        OccursInTail(hay, needle, i);
      }
      if j :| OccursAt(hay[1..], needle, j) {
        OccursInTail(hay, needle, j + 1);
      }
    }
  }

  /** The search used on every screen:
      `text.toLowerCase().includes(term.toLowerCase())`. */
  predicate Matches(text: string, term: string)
    ensures Matches(text, term) ==> |term| <= |text|
  {
    Includes(Lower(text), Lower(term))
  }

  /** An empty search term matches every text. */
  lemma EmptyTermMatches(text: string)
    ensures Matches(text, "")
  {
    assert Lower("") == "";
  }

  /** The search does not distinguish a text from its lower-case form. */
  lemma MatchesIgnoresCase(text: string, term: string)
    ensures Matches(Lower(text), term) == Matches(text, term)
    ensures Matches(text, Lower(term)) == Matches(text, term)
  {
    LowerIdempotent(text);
    LowerIdempotent(term);
  }

  predicate IsDigit(c: char) {
    '0' <= c <= '9'
  }

  function DigitChar(d: nat): (c: char)
    requires d < 10
    ensures IsDigit(c) && c as int - '0' as int == d
  {
    ('0' as int + d) as char
  }

  /** `${n}` for a count: its decimal digits, without leading zeros. */
  function NatToString(n: nat): (r: string)
    ensures |r| >= 1
    ensures forall i :: 0 <= i < |r| ==> IsDigit(r[i])
    ensures |r| > 1 ==> r[0] != '0'
    decreases n
  {
    if n < 10 then [DigitChar(n)] else NatToString(n / 10) + [DigitChar(n % 10)]
  }

  /** The value of a string of decimal digits. */
  function DigitsValue(s: string): nat
    requires forall i :: 0 <= i < |s| ==> IsDigit(s[i])
  {
    if s == [] then 0
    else DigitsValue(s[..|s| - 1]) * 10 + DigitValue(s[|s| - 1])
  }

  function DigitValue(c: char): nat
    requires IsDigit(c)
  {
    c as int - '0' as int
  }

  /** Rendering a count and reading its digits back gives the count. */
  lemma {:induction false} NatToStringRoundTrip(n: nat)
    ensures DigitsValue(NatToString(n)) == n
    decreases n
  {
    var r := NatToString(n);
    if n >= 10 {
      NatToStringRoundTrip(n / 10);
      assert r[..|r| - 1] == NatToString(n / 10);
    }
  }
}
