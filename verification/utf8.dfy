/** Text as a sequence of code points, and its length in UTF-8; a lone surrogate counts as U+FFFD does. */
module Utf8 {
  type Char = c: int | 0 <= c < 0x11_0000

  type Text = seq<Char>

  function Size(c: Char): (n: nat)
    ensures 1 <= n <= 4
  {
    if c < 0x80 then 1 else if c < 0x800 then 2 else if c < 0x1_0000 then 3 else 4
  }

  function ByteLength(s: Text): (n: nat)
    ensures |s| <= n <= 4 * |s|
  {
    if s == [] then 0 else ByteLength(s[..|s| - 1]) + Size(s[|s| - 1])
  }

  lemma {:induction false} ByteLengthOfSum(a: Text, b: Text)
    ensures ByteLength(a + b) == ByteLength(a) + ByteLength(b)
    decreases |b|
  {
    if b == [] {
      assert a + b == a;
    } else {
      ByteLengthOfSum(a, b[..|b| - 1]);
      assert (a + b)[..|a + b| - 1] == a + b[..|b| - 1];
    }
  }

  lemma {:induction false} ByteLengthOfPrefix(s: Text, n: nat)
    requires n <= |s|
    ensures ByteLength(s[..n]) + ByteLength(s[n..]) == ByteLength(s)
  {
    assert s == s[..n] + s[n..];
    ByteLengthOfSum(s[..n], s[n..]);
  }

  function Concat(parts: seq<Text>): Text {
    if parts == [] then [] else Concat(parts[..|parts| - 1]) + parts[|parts| - 1]
  }

  lemma {:induction false} ConcatOneMore(parts: seq<Text>, last: Text)
    ensures Concat(parts + [last]) == Concat(parts) + last
  {
    assert (parts + [last])[..|parts|] == parts;
  }
}
