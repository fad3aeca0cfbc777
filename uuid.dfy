/**
 * gen_uuid: 31 random draws written as lower-case hex digits in the UUID version-4
 * layout xxxxxxxx-xxxx-4xxx-yxxx-xxxxxxxxxxxx. The random generator is a parameter:
 * `draws` holds the values the two distributions return, in the order they are drawn.
 */
module Uuid {

  /** The lower-case hex digit that `std::hex` prints for 0..15. */
  function HexDigit(n: int): char
    requires 0 <= n < 16
  {
    "0123456789abcdef"[n]
  }

  predicate IsLowerHex(c: char) {
    '0' <= c <= '9' || 'a' <= c <= 'f'
  }

  /** The value of a lower-case hex digit: the inverse of HexDigit. */
  function HexValue(c: char): (n: int)
    requires IsLowerHex(c)
    ensures 0 <= n < 16 && HexDigit(n) == c
  {
    if c <= '9' then c as int - '0' as int else c as int - 'a' as int + 10
  }

  predicate IsDashPosition(p: int) {
    p == 8 || p == 13 || p == 18 || p == 23
  }

  /** The textual shape of a version-4 UUID. */
  predicate IsUuidV4(s: string) {
    && |s| == 36
    && (forall p :: 0 <= p < 36 && IsDashPosition(p) ==> s[p] == '-')
    && (forall p :: 0 <= p < 36 && !IsDashPosition(p) ==> IsLowerHex(s[p]))
    && s[14] == '4'
    && s[19] in "89ab"
  }

  /** Fifteen draws from 0..15, one from 8..11 (the variant digit), fifteen more from 0..15. */
  predicate ValidDraws(draws: seq<int>) {
    && |draws| == 31
    && (forall i :: 0 <= i < 31 ==> 0 <= draws[i] < 16)
    && 8 <= draws[15] <= 11
  }

  /** Positions that hold a drawn digit: every position but the dashes and the version digit. */
  predicate IsDrawPosition(p: int) {
    0 <= p < 36 && !IsDashPosition(p) && p != 14
  }

  /** The draw printed at text position `p`. */
  function DrawIndex(p: int): (i: nat)
    requires IsDrawPosition(p)
    ensures i < 31
  {
    if p < 8 then p
    else if p < 13 then p - 1
    else if p < 18 then p - 3
    else if p < 23 then p - 4
    else p - 5
  }

  /** The text position at which draw `i` is printed: the inverse of DrawIndex. */
  function DrawPosition(i: int): (p: int)
    requires 0 <= i < 31
    ensures IsDrawPosition(p) && DrawIndex(p) == i
  {
    if i < 8 then i else if i < 12 then i + 1 else if i < 15 then i + 3
    else if i < 19 then i + 4 else i + 5
  }

  /** The character at position `p` of the identifier that `draws` produce. */
  function UuidChar(draws: seq<int>, p: nat): char
    requires ValidDraws(draws) && p < 36
  {
    if IsDashPosition(p) then '-'
    else if p == 14 then '4'
    else HexDigit(draws[DrawIndex(p)])
  }

  /** The identifier that `draws` produce. */
  function UuidText(draws: seq<int>): (s: string)
    requires ValidDraws(draws)
    ensures |s| == 36
  {
    seq(36, p requires 0 <= p < 36 => UuidChar(draws, p))
  }

  lemma HexDigitIsLowerHex(n: int)
    requires 0 <= n < 16
    ensures IsLowerHex(HexDigit(n))
  {
  }

  lemma HexDigitInjective(m: int, n: int)
    requires 0 <= m < 16 && 0 <= n < 16 && HexDigit(m) == HexDigit(n)
    ensures m == n
  {
  }

  /** Every identifier the generator can produce has the version-4 shape. */
  lemma UuidTextIsUuidV4(draws: seq<int>)
    requires ValidDraws(draws)
    ensures IsUuidV4(UuidText(draws))
  {
    var s := UuidText(draws);
    forall p | 0 <= p < 36 && !IsDashPosition(p)
      ensures IsLowerHex(s[p])
    {
      if p != 14 {
        HexDigitIsLowerHex(draws[DrawIndex(p)]);
      }
    }
    assert s[19] == HexDigit(draws[15]);
  }

  /** Different draws give different identifiers: every draw is visible in the text. */
  lemma UuidTextInjective(d1: seq<int>, d2: seq<int>)
    requires ValidDraws(d1) && ValidDraws(d2)
    requires UuidText(d1) == UuidText(d2)
    ensures d1 == d2
  {
    forall i | 0 <= i < 31
      ensures d1[i] == d2[i]
    {
      var p := DrawPosition(i);
      assert UuidText(d1)[p] == HexDigit(d1[i]);
      assert UuidText(d2)[p] == HexDigit(d2[i]);
      HexDigitInjective(d1[i], d2[i]);
    }
  }

  /** Every text of the version-4 shape is one the generator can produce: IsUuidV4 is exactly its range. */
  lemma UuidV4IsGenerated(s: string)
    requires IsUuidV4(s)
    ensures exists draws :: ValidDraws(draws) && UuidText(draws) == s
  {
    var draws := seq(31, i requires 0 <= i < 31 => HexValue(s[DrawPosition(i)]));
    assert s[DrawPosition(15)] == s[19];
    assert ValidDraws(draws);
    forall p | 0 <= p < 36
      ensures UuidText(draws)[p] == s[p]
    {
      if IsDrawPosition(p) {
        assert DrawPosition(DrawIndex(p)) == p;
      }
    }
    assert UuidText(draws) == s;
  }

  /** gen_uuid: five counted loops that append digits, with the dashes and the version digit between them. */
  method GenUuid(draws: seq<int>) returns (s: string)
    requires ValidDraws(draws)
    ensures s == UuidText(draws)
    ensures IsUuidV4(s)
  {
    ghost var text := UuidText(draws);
    s := [];
    var k := 0;
    for i := 0 to 8
      invariant |s| == i && k == i
      invariant s == text[..|s|]
    {
      s := s + [HexDigit(draws[k])];
      k := k + 1;
    }
    s := s + "-";
    for i := 0 to 4
      invariant |s| == 9 + i && k == 8 + i
      invariant s == text[..|s|]
    {
      s := s + [HexDigit(draws[k])];
      k := k + 1;
    }
    s := s + "-4";
    for i := 0 to 3
      invariant |s| == 15 + i && k == 12 + i
      invariant s == text[..|s|]
    {
      s := s + [HexDigit(draws[k])];
      k := k + 1;
    }
    s := s + "-";
    s := s + [HexDigit(draws[k])];
    k := k + 1;
    for i := 0 to 3
      invariant |s| == 20 + i && k == 16 + i
      invariant s == text[..|s|]
    {
      s := s + [HexDigit(draws[k])];
      k := k + 1;
    }
    s := s + "-";
    for i := 0 to 12
      invariant |s| == 24 + i && k == 19 + i
      invariant s == text[..|s|]
    {
      s := s + [HexDigit(draws[k])];
      k := k + 1;
    }
    assert s == text;
    UuidTextIsUuidV4(draws);
  }
}
