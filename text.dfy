/** The string operations the searches and date sorts rely on: ASCII case
    folding for `toLowerCase`/`toUpperCase`, `includes` on strings, and the
    numeric order of ISO `YYYY-MM-DD` dates. */
module Text {
  import opened Seqs
  import opened Utils

  /** `toLowerCase` on one character, restricted to the letters A to Z. */
  function LowerChar(c: char): (r: char)
    ensures 'A' <= c <= 'Z' ==> r as int == c as int + 32
    ensures !('A' <= c <= 'Z') ==> r == c
    ensures !('A' <= r <= 'Z')
  {
    if 'A' <= c <= 'Z' then (c as int + 32) as char else c
  }

  /** `toUpperCase` on one character, restricted to the letters a to z. */
  function UpperChar(c: char): (r: char)
    ensures 'a' <= c <= 'z' ==> r as int == c as int - 32
    ensures !('a' <= c <= 'z') ==> r == c
    ensures !('a' <= r <= 'z')
  {
    if 'a' <= c <= 'z' then (c as int - 32) as char else c
  }

  function LowerCase(s: string): (r: string)
    ensures |r| == |s|
    ensures forall i :: 0 <= i < |s| ==> r[i] == LowerChar(s[i])
  {
    Map(s, LowerChar)
  }

  function UpperCase(s: string): (r: string)
    ensures |r| == |s|
    ensures forall i :: 0 <= i < |s| ==> r[i] == UpperChar(s[i])
  {
    Map(s, UpperChar)
  }

  /** Lower-casing the upper-cased or the lower-cased text gives the same
      result as lower-casing the text itself: only letter case is lost. */
  lemma LowerCaseIgnoresCase(s: string)
    ensures LowerCase(LowerCase(s)) == LowerCase(s)
    ensures LowerCase(UpperCase(s)) == LowerCase(s)
  {
    assert forall i :: 0 <= i < |s| ==> LowerChar(UpperChar(s[i])) == LowerChar(s[i]);
  }

  /** Upper-casing is idempotent, so typing into an upper-cased field and
      upper-casing again changes nothing. */
  lemma UpperCaseIdempotent(s: string)
    ensures UpperCase(UpperCase(s)) == UpperCase(s)
    ensures forall i :: 0 <= i < |s| ==> !('a' <= UpperCase(s)[i] <= 'z')
  {
  }

  /** `s.includes(sub)`: sub occurs in s at some position. */
  predicate Contains(s: string, sub: string)
    decreases |s|
  {
    sub <= s || (s != [] && Contains(s[1..], sub))
  }

  /** sub is the slice of s that starts at offset i. */
  predicate OccursAt(s: string, sub: string, i: int) {
    0 <= i <= |s| - |sub| && s[i..i + |sub|] == sub
  }

  /** `includes` holds exactly when sub is the slice of s at some offset. */
  lemma {:induction false} ContainsAt(s: string, sub: string)
    ensures Contains(s, sub) <==> exists i :: OccursAt(s, sub, i)
    decreases |s|
  {
    if s != [] {
      ContainsAt(s[1..], sub);
      if sub <= s {
        assert OccursAt(s, sub, 0);
      } else if Contains(s[1..], sub) {
        var i :| OccursAt(s[1..], sub, i);
        assert s[i + 1..i + 1 + |sub|] == s[1..][i..i + |sub|];
        assert OccursAt(s, sub, i + 1);
      }
      if exists i :: OccursAt(s, sub, i) {
        var i :| OccursAt(s, sub, i);
        if i > 0 {
          assert s[1..][i - 1..i - 1 + |sub|] == s[i..i + |sub|];
          assert OccursAt(s[1..], sub, i - 1);
        } else {
          assert s[..|sub|] == sub;
        }
      }
    } else if sub == [] {
      assert OccursAt(s, sub, 0);
    }
  }

  /** The empty search text is found in every string. */
  lemma EmptyIsContained(s: string)
    ensures Contains(s, "")
  {
    assert "" <= s;
  }

  /** The digits of s, read in order as one decimal number; other characters
      are skipped. */
  function DigitsValue(s: string): nat
    decreases |s|
  {
    if s == [] then 0
    else if IsDigit(s[|s| - 1]) then DigitsValue(s[..|s| - 1]) * 10 + (s[|s| - 1] as int - '0' as int)
    else DigitsValue(s[..|s| - 1])
  }

  /** A calendar date written `YYYY-MM-DD`. */
  predicate IsIsoDate(d: string) {
    |d| == 10 && d[4] == '-' && d[7] == '-'
    && (forall i :: 0 <= i < 4 ==> IsDigit(d[i]))
    && IsDigit(d[5]) && IsDigit(d[6]) && IsDigit(d[8]) && IsDigit(d[9])
  }

  /** The sort key of a date: `new Date(d).getTime()` orders well-formed
      dates as this number does. */
  function DateKey(d: string): nat {
    DigitsValue(d)
  }

  /** A well-formed date's key is year * 10000 + month * 100 + day, so keys
      order dates chronologically. */
  lemma IsoDateKey(d: string)
    requires IsIsoDate(d)
    ensures DateKey(d) == DecimalValue(d[..4]) * 10000 + DecimalValue(d[5..7]) * 100 + DecimalValue(d[8..10])
  {
    var year := DecimalValue(d[..4]);
    var m1, m2 := d[5] as int - '0' as int, d[6] as int - '0' as int;
    var d1, d2 := d[8] as int - '0' as int, d[9] as int - '0' as int;
    DigitsOnly(d[..4]);
    assert d[..5][..4] == d[..4];
    assert DigitsValue(d[..5]) == year;
    assert d[..6][..5] == d[..5];
    assert DigitsValue(d[..6]) == year * 10 + m1;
    assert d[..7][..6] == d[..6];
    assert DigitsValue(d[..7]) == year * 100 + m1 * 10 + m2;
    assert d[..8][..7] == d[..7];
    assert DigitsValue(d[..8]) == year * 100 + m1 * 10 + m2;
    assert d[..9][..8] == d[..8];
    assert DigitsValue(d[..9]) == year * 1000 + m1 * 100 + m2 * 10 + d1;
    assert d[..10][..9] == d[..9];
    assert d[..10] == d;
    assert DigitsValue(d) == year * 10000 + m1 * 1000 + m2 * 100 + d1 * 10 + d2;
    TwoDigits(d[5..7]);
    TwoDigits(d[8..10]);
  }

  lemma TwoDigits(s: string)
    requires |s| == 2 && IsDigit(s[0]) && IsDigit(s[1])
    ensures DecimalValue(s) == (s[0] as int - '0' as int) * 10 + (s[1] as int - '0' as int)
  {
    var first := s[..1];
    assert first[..0] == [];
    assert DecimalValue(first) == s[0] as int - '0' as int;
  }

  /** On a string of digits only, skipping nothing, the two readings agree. */
  lemma {:induction false} DigitsOnly(s: string)
    requires forall i :: 0 <= i < |s| ==> IsDigit(s[i])
    ensures DigitsValue(s) == DecimalValue(s)
    decreases |s|
  {
    if s != [] {
      DigitsOnly(s[..|s| - 1]);
    }
  }
}
