/** The sizes of characters are those of their encodings in UTF-8, section 3 of RFC 3629. */
module Utf8Laws {
  import opened Utf8

  type Octet = o: int | 0 <= o < 256

  predicate IsSurrogate(c: Char) { 0xD800 <= c <= 0xDFFF }

  /** The octets of a character; a lone surrogate is replaced by U+FFFD. */
  function Octets(c: Char): seq<Octet> {
    if IsSurrogate(c) then [0xEF, 0xBF, 0xBD]
    else if c <= 0x7F then [c]
    else if c <= 0x7FF then [0xC0 + c / 0x40, 0x80 + c % 0x40]
    else if c <= 0xFFFF then [0xE0 + c / 0x1000, 0x80 + c / 0x40 % 0x40, 0x80 + c % 0x40]
    else [0xF0 + c / 0x4_0000, 0x80 + c / 0x1000 % 0x40, 0x80 + c / 0x40 % 0x40, 0x80 + c % 0x40]
  }

  function Continues(o: Octet): int { o - 0x80 }

  /** What a sequence of octets stands for, by its length. */
  function CodePoint(octets: seq<Octet>): int
    requires 1 <= |octets| <= 4
  {
    if |octets| == 1 then octets[0]
    else if |octets| == 2 then (octets[0] - 0xC0) * 0x40 + Continues(octets[1])
    else if |octets| == 3 then (octets[0] - 0xE0) * 0x1000 + Continues(octets[1]) * 0x40 + Continues(octets[2])
    else (octets[0] - 0xF0) * 0x4_0000 + Continues(octets[1]) * 0x1000 + Continues(octets[2]) * 0x40 + Continues(octets[3])
  }

  /** The leading octet tells how many follow, and each that follows is marked as such. */
  predicate WellFormed(octets: seq<Octet>) {
    && 1 <= |octets| <= 4
    && (|octets| == 1 <==> octets[0] < 0x80) && (|octets| == 2 <==> 0xC0 <= octets[0] < 0xE0)
    && (|octets| == 3 <==> 0xE0 <= octets[0] < 0xF0) && (|octets| == 4 <==> 0xF0 <= octets[0] < 0xF8)
    && forall i | 1 <= i < |octets| :: 0x80 <= octets[i] < 0xC0
  }

  lemma SixBits(c: Char)
    ensures c == c / 0x40 * 0x40 + c % 0x40
    ensures c / 0x40 == c / 0x1000 * 0x40 + c / 0x40 % 0x40
    ensures c / 0x1000 == c / 0x4_0000 * 0x40 + c / 0x1000 % 0x40
  {
    assert c / 0x40 / 0x40 == c / 0x1000 && c / 0x1000 / 0x40 == c / 0x4_0000;
  }

  lemma OctetsAreWellFormed(c: Char)
    ensures Size(c) == |Octets(c)| && WellFormed(Octets(c))
  {
  }

  lemma OctetsReadBack(c: Char)
    requires !IsSurrogate(c)
    ensures CodePoint(Octets(c)) == c
  {
    SixBits(c);
  }

  /** A character takes as many bytes as its encoding has octets, and the encoding is the character's. */
  lemma SizeIsOctets(c: Char)
    ensures Size(c) == |Octets(c)| && WellFormed(Octets(c))
    ensures CodePoint(Octets(c)) == if IsSurrogate(c) then 0xFFFD else c
  {
    OctetsAreWellFormed(c);
    if !IsSurrogate(c) { OctetsReadBack(c); }
  }

  function Encoded(s: Text): seq<Octet> {
    if s == [] then [] else Octets(s[0]) + Encoded(s[1..])
  }

  lemma {:induction false} ByteLengthFromFirst(s: Text)
    requires s != []
    ensures ByteLength(s) == Size(s[0]) + ByteLength(s[1..])
    decreases |s|
  {
    if |s| > 1 {
      ByteLengthFromFirst(s[..|s| - 1]);
      assert s[..|s| - 1][1..] == s[1..][..|s| - 2];
    }
  }

  /** So the byte length of a text is that of its encoding. */
  lemma {:induction false} ByteLengthIsEncoded(s: Text)
    ensures ByteLength(s) == |Encoded(s)|
    decreases |s|
  {
    if s != [] {
      SizeIsOctets(s[0]);
      ByteLengthFromFirst(s);
      ByteLengthIsEncoded(s[1..]);
    }
  }
}
