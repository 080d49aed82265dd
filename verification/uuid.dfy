/** The textual UUID form that an on-behalf-of identity must have:
    32 hexadecimal digits in groups of 8-4-4-4-12 separated by hyphens. */
module Uuid {

  /** Length of a UUID in its canonical textual form. */
  const UuidLength := 36

  predicate IsHexDigit(ch: char)
  {
    ('0' <= ch <= '9') || ('a' <= ch <= 'f') || ('A' <= ch <= 'F')
  }

  /** The positions that hold the four hyphens. */
  predicate IsHyphenPosition(i: int)
  {
    i == 8 || i == 13 || i == 18 || i == 23
  }

  /** Position-wise definition: hyphens at 8, 13, 18, 23 and a hex digit everywhere else. */
  predicate IsUuid(s: string)
  {
    && |s| == UuidLength
    && forall i | 0 <= i < |s| ::
         if IsHyphenPosition(i) then s[i] == '-' else IsHexDigit(s[i])
  }

  /** A group of exactly `n` hexadecimal digits. */
  predicate IsHexGroup(g: string, n: nat)
  {
    |g| == n && forall i | 0 <= i < |g| :: IsHexDigit(g[i])
  }

  /** The five groups joined by hyphens. */
  function Join(a: string, b: string, c: string, d: string, e: string): string
  {
    a + "-" + b + "-" + c + "-" + d + "-" + e
  }

  predicate HasUuidGroups(a: string, b: string, c: string, d: string, e: string)
  {
    IsHexGroup(a, 8) && IsHexGroup(b, 4) && IsHexGroup(c, 4) && IsHexGroup(d, 4) && IsHexGroup(e, 12)
  }

  /** Five hex groups of lengths 8-4-4-4-12, joined by hyphens, make a UUID. */
  lemma JoinedGroupsAreUuid(a: string, b: string, c: string, d: string, e: string)
    requires HasUuidGroups(a, b, c, d, e)
    ensures IsUuid(Join(a, b, c, d, e))
  {
    var s := Join(a, b, c, d, e);
    assert |s| == UuidLength;
    forall i | 0 <= i < |s|
      ensures if IsHyphenPosition(i) then s[i] == '-' else IsHexDigit(s[i])
    {
      if i < 8 {
        assert s[i] == a[i];
      } else if i == 8 {
      } else if i < 13 {
        assert s[i] == b[i - 9];
      } else if i == 13 {
      } else if i < 18 {
        assert s[i] == c[i - 14];
      } else if i == 18 {
      } else if i < 23 {
        assert s[i] == d[i - 19];
      } else if i == 23 {
      } else {
        assert s[i] == e[i - 24];
      }
    }
  }

  /** Every UUID is such a join: its five slices are hex groups of the right
      lengths and joining them back gives the UUID itself. */
  lemma UuidSplitsIntoGroups(s: string)
    requires IsUuid(s)
    ensures HasUuidGroups(s[0..8], s[9..13], s[14..18], s[19..23], s[24..36])
    ensures Join(s[0..8], s[9..13], s[14..18], s[19..23], s[24..36]) == s
  {
    var a, b, c, d, e := s[0..8], s[9..13], s[14..18], s[19..23], s[24..36];
    assert forall i | 0 <= i < 8 :: a[i] == s[i];
    assert forall i | 0 <= i < 4 :: b[i] == s[i + 9];
    assert forall i | 0 <= i < 4 :: c[i] == s[i + 14];
    assert forall i | 0 <= i < 4 :: d[i] == s[i + 19];
    assert forall i | 0 <= i < 12 :: e[i] == s[i + 24];
    assert s == a + [s[8]] + b + [s[13]] + c + [s[18]] + d + [s[23]] + e;
  }
}
