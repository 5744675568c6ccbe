/** Small string helpers the export and the default titles rely on:
    lower-casing, substring search and decimal rendering of step numbers. */
module Text {

  /** Lower-case one character (ASCII letters only). */
  function LowerChar(c: char): (r: char)
    ensures 'A' <= c <= 'Z' ==> r as int == c as int + 32
    ensures !('A' <= c <= 'Z') ==> r == c
  {
    if 'A' <= c <= 'Z' then (c as int + 32) as char else c
  }

  /** `s.lower()`, character by character. */
  function Lower(s: string): (r: string)
    ensures |r| == |s|
    ensures forall i :: 0 <= i < |s| ==> r[i] == LowerChar(s[i])
  {
    seq(|s|, i requires 0 <= i < |s| => LowerChar(s[i]))
  }

  /** `needle` sits in `hay` starting at position `i`. */
  predicate OccursAt(needle: string, hay: string, i: int)
  {
    0 <= i <= |hay| - |needle| && hay[i..i + |needle|] == needle
  }

  /** The specification of `needle in hay`: some window of `hay` equals `needle`. */
  ghost predicate Occurs(needle: string, hay: string)
  {
    exists i :: OccursAt(needle, hay, i)
  }

  /** Python's `needle in hay` for strings, searched left to right. */
  function Contains(needle: string, hay: string): bool
    decreases |hay|
  {
    if |needle| <= |hay| && hay[..|needle|] == needle then true
    else if |hay| <= |needle| then false
    else Contains(needle, hay[1..])
  }

  /** The search answers the specification: `needle in hay` holds iff some
      window of `hay` equals `needle`. */
  lemma {:induction false} ContainsOccurs(needle: string, hay: string)
    ensures Contains(needle, hay) <==> Occurs(needle, hay)
    decreases |hay|
  {
    if |needle| <= |hay| && hay[..|needle|] == needle {
      assert OccursAt(needle, hay, 0);
    } else if |hay| <= |needle| {
      NoRoomNoOccurrence(needle, hay);
    } else {
      ContainsOccurs(needle, hay[1..]);
      OccursPastHead(needle, hay);
    }
  }

  /** A hay no longer than the needle holds it only as a whole. */
  lemma NoRoomNoOccurrence(needle: string, hay: string)
    requires |hay| <= |needle| && hay != needle
    ensures !Occurs(needle, hay)
  {
  }

  /** When the needle is not at the head, it occurs in the hay iff it occurs
      past the head. */
  lemma OccursPastHead(needle: string, hay: string)
    requires |needle| < |hay| && hay[..|needle|] != needle
    ensures Occurs(needle, hay) <==> Occurs(needle, hay[1..])
  {
    if Occurs(needle, hay[1..]) {
      var j :| OccursAt(needle, hay[1..], j);
      assert hay[1..][j..j + |needle|] == hay[j + 1..j + 1 + |needle|];
      assert OccursAt(needle, hay, j + 1);
    }
    if Occurs(needle, hay) {
      var i :| OccursAt(needle, hay, i);
      assert i != 0;
      assert hay[1..][i - 1..i - 1 + |needle|] == hay[i..i + |needle|];
      assert OccursAt(needle, hay[1..], i - 1);
    }
  }

  /** The empty string occurs in every string. */
  lemma EmptyOccurs(hay: string)
    ensures Contains("", hay)
  {
  }

  function DigitChar(d: nat): (c: char)
    requires d < 10
    ensures '0' <= c <= '9'
  {
    ('0' as int + d) as char
  }

  /** Decimal rendering of a natural number, as `str(n)` gives it. */
  function NatToString(n: nat): (r: string)
    ensures |r| > 0
    ensures forall i :: 0 <= i < |r| ==> '0' <= r[i] <= '9'
    ensures r[|r| - 1] == DigitChar(n % 10)
  {
    if n < 10 then [DigitChar(n)] else NatToString(n / 10) + [DigitChar(n % 10)]
  }

  /** Distinct numbers have distinct renderings. */
  lemma {:induction false} NatToStringInjective(m: nat, n: nat)
    requires NatToString(m) == NatToString(n)
    ensures m == n
  {
    var a, b := NatToString(m), NatToString(n);
    assert m % 10 == n % 10 by {
      assert a[|a| - 1] == b[|b| - 1];
    }
    if m >= 10 && n >= 10 {
      assert NatToString(m / 10) == a[..|a| - 1];
      assert NatToString(n / 10) == b[..|b| - 1];
      NatToStringInjective(m / 10, n / 10);
    }
  }
}
