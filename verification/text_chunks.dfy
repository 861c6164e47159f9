/** Splitting a reply into messages that a channel accepts. */
module TextChunks {
  import opened Wrappers
  import opened Utf8

  const MAX_TEXT_BYTES: nat := 128 * 1024

  /** A split into consecutive pieces, each of at most `limit` bytes and none empty. */
  ghost predicate Splits(text: Text, chunks: seq<Text>, limit: int) {
    Concat(chunks) == text && forall c <- chunks :: c != [] && ByteLength(c) <= limit
  }

  predicate EachFits(text: Text, limit: int) {
    forall c <- text :: Size(c) <= limit
  }

  /** The greedy split so far: the closed chunks, and the open one. */
  datatype Progress = Progress(chunks: seq<Text>, current: Text)

  function Add(p: Progress, c: Char, limit: int): Progress {
    if ByteLength(p.current) + Size(c) > limit then Progress(p.chunks + [p.current], [c])
    else Progress(p.chunks, p.current + [c])
  }

  function Greedy(text: Text, limit: int): Progress {
    if text == [] then Progress([], []) else Add(Greedy(text[..|text| - 1], limit), text[|text| - 1], limit)
  }

  function Closed(p: Progress): seq<Text> {
    if p.current == [] then p.chunks else p.chunks + [p.current]
  }

  lemma {:induction false} NextCharacter(text: Text, i: nat, limit: int)
    requires i < |text|
    ensures Greedy(text[..i + 1], limit) == Add(Greedy(text[..i], limit), text[i], limit)
  {
    assert text[..i + 1][..i] == text[..i];
  }

  lemma {:induction false} OneMoreCharacter(s: Text, c: Char)
    ensures ByteLength(s + [c]) == ByteLength(s) + Size(c) && [] + [c] == [c]
  {
    assert (s + [c])[..|s|] == s;
  }

  method Chunks(text: Text, limit: int) returns (result: Result<seq<Text>, string>)
    ensures result == if text == [] || ByteLength(text) > 131_072 then Err("INVALID_CHANNEL_TEXT")
                      else Ok(Closed(Greedy(text, limit)))
  {
    if text == [] || ByteLength(text) > MAX_TEXT_BYTES { return Err("INVALID_CHANNEL_TEXT"); }
    var chunks: seq<Text> := [];
    var current: Text := [];
    var size := 0;
    var i := 0;
    while i < |text|
      invariant 0 <= i <= |text| && size == ByteLength(current)
      invariant Progress(chunks, current) == Greedy(text[..i], limit)
    {
      NextCharacter(text, i, limit);
      var character := text[i];
      var bytes := Size(character);
      if size + bytes > limit {
        chunks := chunks + [current];
        current, size := [], 0;
      }
      OneMoreCharacter(current, character);
      current := current + [character];
      size := size + bytes;
      i := i + 1;
    }
    assert text[..i] == text;
    result := Ok(if current != [] then chunks + [current] else chunks);
  }

  // ---- The split is whole ----

  function Covered(p: Progress): Text {
    Concat(p.chunks) + p.current
  }

  lemma AddCovers(p: Progress, c: Char, limit: int)
    ensures Covered(Add(p, c, limit)) == Covered(p) + [c]
  {
    ConcatOneMore(p.chunks, p.current);
  }

  lemma ClosedCovers(p: Progress)
    ensures Concat(Closed(p)) == Covered(p)
  {
    ConcatOneMore(p.chunks, p.current);
  }

  lemma NothingCovered(limit: int)
    ensures Covered(Greedy([], limit)) == []
  {
  }

  lemma {:induction false} GreedyCovers(text: Text, limit: int)
    ensures Covered(Greedy(text, limit)) == text
    decreases |text|
  {
    if text == [] {
      NothingCovered(limit);
    } else {
      var (init, c) := (text[..|text| - 1], text[|text| - 1]);
      var before := Greedy(init, limit);
      GreedyCovers(init, limit);
      AddCovers(before, c, limit);
      assert Greedy(text, limit) == Add(before, c, limit);
      assert text == init + [c];
    }
  }

  lemma GreedyIsWhole(text: Text, limit: int)
    ensures Concat(Closed(Greedy(text, limit))) == text
  {
    GreedyCovers(text, limit);
    ClosedCovers(Greedy(text, limit));
  }

  /** Every chunk fits, and none is empty, as long as every single character fits. */
  lemma {:induction false} GreedyFits(text: Text, limit: int)
    requires EachFits(text, limit)
    ensures var p := Greedy(text, limit);
      && (forall c <- p.chunks :: c != [] && ByteLength(c) <= limit)
      && (text != [] ==> p.current != [] && ByteLength(p.current) <= limit)
    decreases |text|
  {
    if text != [] {
      var (init, last) := (text[..|text| - 1], text[|text| - 1]);
      GreedyFits(init, limit);
      assert last in text;
      ByteLengthOfSum(Greedy(init, limit).current, [last]);
      assert [last][..0] == [] && ByteLength([last]) == Size(last);
    }
  }

  lemma {:induction false} PieceOfPart(chunks: seq<Text>, c: Char)
    requires c in Concat(chunks)
    ensures exists piece <- chunks :: c in piece
    decreases |chunks|
  {
    if chunks != [] {
      var (init, last) := (chunks[..|chunks| - 1], chunks[|chunks| - 1]);
      if c !in last {
        PieceOfPart(init, c);
      }
    }
  }

  lemma {:induction false} CharInPiece(piece: Text, c: Char)
    requires c in piece
    ensures Size(c) <= ByteLength(piece)
    decreases |piece|
  {
    if piece[|piece| - 1] != c {
      CharInPiece(piece[..|piece| - 1], c);
    }
  }

  /** The chunks are a split within the limit exactly when each character fits, as for every limit of at least 4 bytes. */
  lemma ChunksSplitIffEachFits(text: Text, limit: int)
    requires text != []
    ensures Splits(text, Closed(Greedy(text, limit)), limit) <==> EachFits(text, limit)
    ensures limit >= 4 ==> EachFits(text, limit)
  {
    var chunks := Closed(Greedy(text, limit));
    if EachFits(text, limit) {
      GreedyIsWhole(text, limit);
      GreedyFits(text, limit);
    } else if Splits(text, chunks, limit) {
      AnySplitNeedsRoom(text, chunks, limit);
    }
  }

  /** No split at all exists when some character does not fit. */
  lemma AnySplitNeedsRoom(text: Text, chunks: seq<Text>, limit: int)
    requires Splits(text, chunks, limit)
    ensures EachFits(text, limit)
  {
    forall c <- text ensures Size(c) <= limit {
      PieceOfPart(chunks, c);
      var piece :| piece in chunks && c in piece;
      CharInPiece(piece, c);
    }
  }

  /** One character of three bytes under a limit of two: an empty chunk, and one over the limit. Every caller leaves the limit
      at 3500, where this cannot happen. */
  lemma NarrowLimitSplitsBadly()
    ensures Closed(Greedy([0x4F60], 2)) == [[], [0x4F60]] && !Splits([0x4F60], Closed(Greedy([0x4F60], 2)), 2)
  {
    var text: Text := [0x4F60];
    assert text[..0] == [] && text[0] in text;
    assert Greedy(text, 2) == Add(Greedy([], 2), 0x4F60, 2);
    ChunksSplitIffEachFits(text, 2);
  }

  // ---- The split is shortest ----

  /** Fewer chunks than the other split, or as many, with an open chunk that is no longer. */
  ghost predicate NoWorse(p: Progress, other: seq<Text>) {
    || |Closed(p)| < |other|
    || (|Closed(p)| == |other| && other != [] && |p.current| <= |other[|other| - 1]|)
  }

  /** The other split without its last character. */
  lemma DropLast(text: Text, other: seq<Text>, limit: int) returns (shorter: seq<Text>)
    requires Splits(text, other, limit) && text != []
    ensures other != [] && Splits(text[..|text| - 1], shorter, limit)
    ensures var last := other[|other| - 1];
      last != [] && last[|last| - 1] == text[|text| - 1] &&
      if |last| == 1 then shorter == other[..|other| - 1]
      else |shorter| == |other| && shorter[|shorter| - 1] == last[..|last| - 1]
  {
    var (front, last) := (other[..|other| - 1], other[|other| - 1]);
    assert last in other;
    assert text == Concat(front) + last;
    if |last| == 1 {
      shorter := front;
      assert text[..|text| - 1] == Concat(front);
    } else {
      var part := last[..|last| - 1];
      shorter := front + [part];
      assert shorter[..|front|] == front;
      assert text[..|text| - 1] == Concat(front) + part;
    }
  }

  /** A suffix of a text that is no longer than its last piece is no heavier. */
  lemma SuffixIsLighter(x: Text, current: Text, y: Text, last: Text)
    requires x + current == y + last && |current| <= |last|
    ensures ByteLength(current) <= ByteLength(last)
  {
    var n := |last| - |current|;
    var whole := x + current;
    assert current == whole[|x|..] && last == whole[|y|..];
    assert last[n..] == current;
    ByteLengthOfPrefix(last, n);
  }

  lemma AddIsNoWorse(before: Progress, c: Char, limit: int, shorter: seq<Text>, other: seq<Text>)
    requires before.current != [] && NoWorse(before, shorter) && other != [] && other[|other| - 1] != []
    requires var last := other[|other| - 1];
      if |last| == 1 then |shorter| + 1 == |other|
      else |shorter| == |other| && |shorter[|shorter| - 1]| + 1 == |last|
           && (|Closed(before)| == |shorter| ==> ByteLength(before.current) + Size(c) <= limit)
    ensures NoWorse(Add(before, c, limit), other)
  {
  }

  /** The open chunk takes the next character whenever the other split's last piece, at least as long, took it. */
  lemma CharacterFits(init: Text, limit: int, shorter: seq<Text>, last: Text, c: Char)
    requires Concat(shorter) == init && shorter != [] && last == shorter[|shorter| - 1] + [c]
    requires |Greedy(init, limit).current| <= |shorter[|shorter| - 1]| && ByteLength(last) <= limit
    ensures ByteLength(Greedy(init, limit).current) + Size(c) <= limit
  {
    var before := Greedy(init, limit);
    var part := shorter[|shorter| - 1];
    GreedyCovers(init, limit);
    SuffixIsLighter(Concat(before.chunks), before.current, Concat(shorter[..|shorter| - 1]), part);
    assert last[..|last| - 1] == part;
  }

  lemma {:induction false} GreedyIsNoWorse(text: Text, other: seq<Text>, limit: int)
    requires Splits(text, other, limit) && text != []
    ensures NoWorse(Greedy(text, limit), other)
    decreases |text|
  {
    AnySplitNeedsRoom(text, other, limit);
    var (init, c) := (text[..|text| - 1], text[|text| - 1]);
    var shorter := DropLast(text, other, limit);
    var last := other[|other| - 1];
    assert last in other;
    if init != [] {
      var before := Greedy(init, limit);
      GreedyIsNoWorse(init, shorter, limit);
      GreedyFits(init, limit);
      if |last| > 1 && |Closed(before)| == |shorter| {
        assert last == last[..|last| - 1] + [c];
        CharacterFits(init, limit, shorter, last, c);
      }
      AddIsNoWorse(before, c, limit, shorter, other);
    } else {
      OneCharacter(text, limit);
    }
  }

  lemma OneCharacter(text: Text, limit: int)
    requires |text| == 1 && EachFits(text, limit)
    ensures Greedy(text, limit) == Progress([], text)
  {
    assert text[..0] == [] && Greedy(text[..0], limit) == Progress([], []);
    assert text[0] in text;
  }

  /** No split of the text into consecutive pieces within the limit has fewer pieces. */
  lemma ChunksAreFewest(text: Text, other: seq<Text>, limit: int)
    requires Splits(text, other, limit) && text != []
    ensures |Closed(Greedy(text, limit))| <= |other|
  {
    GreedyIsNoWorse(text, other, limit);
  }
}
