/** Cutting a notification's text to the size that the outbox accepts. */
module TruncateUtf8 {
  import opened Utf8

  /** Cut: the longest prefix of the value whose bytes, with those of the suffix, stay within the maximum. */
  ghost predicate IsCut(value: Text, kept: nat, budget: int) {
    && kept < |value| && (kept == 0 || ByteLength(value[..kept]) <= budget)
    && budget < ByteLength(value[..kept + 1])
  }

  lemma LongerHasMoreBytes(value: Text, m: nat, n: nat)
    requires m <= n <= |value|
    ensures ByteLength(value[..m]) <= ByteLength(value[..n])
  {
    assert value[..n][..m] == value[..m];
    ByteLengthOfPrefix(value[..n], m);
  }

  lemma CutIsUnique(value: Text, m: nat, n: nat, budget: int)
    requires IsCut(value, m, budget) && IsCut(value, n, budget)
    ensures m == n
  {
    if m < n {
      LongerHasMoreBytes(value, m + 1, n);
    } else if n < m {
      LongerHasMoreBytes(value, n + 1, m);
    }
  }

  /** How many characters a cut keeps. */
  function Kept(value: Text, budget: int): (kept: nat)
    ensures kept <= |value|
  {
    var n := |value| - 1;
    if n <= 0 then 0
    else if ByteLength(value[..n]) <= budget then n
    else Kept(value[..n], budget)
  }

  lemma {:induction false} KeptIsCut(value: Text, budget: int)
    requires budget < ByteLength(value) && value != []
    ensures IsCut(value, Kept(value, budget), budget)
  {
    var n := |value| - 1;
    assert value[..n + 1] == value;
    if n > 0 && ByteLength(value[..n]) > budget {
      KeptIsCut(value[..n], budget);
      var kept := Kept(value[..n], budget);
      assert value[..n][..kept] == value[..kept] && value[..n][..kept + 1] == value[..kept + 1];
    }
  }

  /** The part of the value that the result begins with. */
  function KeptPrefix(value: Text, maxBytes: nat, suffix: Text): Text {
    if ByteLength(value) <= maxBytes then value else value[..Kept(value, maxBytes - ByteLength(suffix))]
  }

  function Truncated(value: Text, maxBytes: nat, suffix: Text): Text {
    if ByteLength(value) <= maxBytes then value else KeptPrefix(value, maxBytes, suffix) + suffix
  }

  lemma CutFits(value: Text, kept: nat, maxBytes: nat, suffix: Text)
    requires IsCut(value, kept, maxBytes - ByteLength(suffix))
    ensures ByteLength(value[..kept] + suffix) <= maxBytes <==> ByteLength(suffix) <= maxBytes
  {
    ByteLengthOfSum(value[..kept], suffix);
  }

  /** A text that fits is kept; any other becomes its longest prefix that leaves room for the suffix, and the suffix. */
  lemma TruncatedIsCut(value: Text, maxBytes: nat, suffix: Text)
    ensures var r := Truncated(value, maxBytes, suffix);
      && (ByteLength(value) <= maxBytes ==> r == value)
      && (ByteLength(value) > maxBytes ==>
            exists kept: nat :: IsCut(value, kept, maxBytes - ByteLength(suffix)) && r == value[..kept] + suffix)
      && (ByteLength(r) <= maxBytes <==> ByteLength(value) <= maxBytes || ByteLength(suffix) <= maxBytes)
  {
    if ByteLength(value) > maxBytes {
      var budget := maxBytes - ByteLength(suffix);
      KeptIsCut(value, budget);
      var kept := Kept(value, budget);
      assert IsCut(value, kept, budget) && Truncated(value, maxBytes, suffix) == value[..kept] + suffix;
      CutFits(value, kept, maxBytes, suffix);
    }
  }

  lemma WholeIsTooLong(value: Text, i: nat, budget: int)
    requires budget < ByteLength(value) && value != []
    requires i <= |value| && (i == 0 || ByteLength(value[..i]) <= budget)
    ensures i < |value|
  {
    assert value[..|value|] == value;
  }

  /** The loop over the characters ends at the cut. */
  lemma EndsAtTheCut(value: Text, prefix: Text, i: nat, budget: int)
    requires budget < ByteLength(value) && value != [] && i <= |value| && prefix == value[..i]
    requires i == 0 || ByteLength(prefix) <= budget
    requires i < |value| ==> budget < ByteLength(prefix + [value[i]])
    ensures prefix == value[..Kept(value, budget)]
  {
    WholeIsTooLong(value, i, budget);
    assert value[..i + 1] == value[..i] + [value[i]];
    KeptIsCut(value, budget);
    CutIsUnique(value, i, Kept(value, budget), budget);
  }

  method Truncate(value: Text, maxBytes: nat, suffix: Text) returns (r: Text)
    ensures r == Truncated(value, maxBytes, suffix)
  {
    if ByteLength(value) <= maxBytes { return value; }
    var budget := maxBytes - ByteLength(suffix);
    var prefix: Text := [];
    var i := 0;
    while i < |value| && ByteLength(prefix + [value[i]]) <= budget
      invariant 0 <= i <= |value| && prefix == value[..i]
      invariant i == 0 || ByteLength(prefix) <= budget
    {
      prefix, i := prefix + [value[i]], i + 1;
    }
    EndsAtTheCut(value, prefix, i, budget);
    r := prefix + suffix;
  }
}
