/** splitForStream: cutting one text into stream chunks of at most 16 KiB. */
module StreamSplit {
  import opened Utf8

  const MAX_STREAM_CHUNK_BYTES: nat := 16 * 1024

  function Min(a: nat, b: nat): nat {
    if a < b then a else b
  }

  /** The inner loop: shrink the slice by a tenth until its encoding fits. For
      lengths up to 16384, Math.floor(end * 0.9) in doubles is exactly 9 * end / 10. */
  function Shrink(s: Text, end: nat): (r: nat)
    requires end <= |s|
    ensures r <= end
    decreases end
  {
    if end > 1 && ByteLength(s[..end]) > MAX_STREAM_CHUNK_BYTES then Shrink(s, 9 * end / 10) else end
  }

  function NextEnd(s: Text): (r: nat)
    ensures r <= |s|
  {
    Shrink(s, Min(|s|, MAX_STREAM_CHUNK_BYTES))
  }

  /** The inner loop stops at a non-empty slice that fits; if it shrank at all, the
      slice still has 4915 units, because 5461 units of three bytes always fit. */
  lemma {:induction false} ShrinkFits(s: Text, end: nat)
    requires 1 <= end <= |s|
    ensures 1 <= Shrink(s, end) && ByteLength(s[..Shrink(s, end)]) <= MAX_STREAM_CHUNK_BYTES
    ensures Shrink(s, end) == end || Shrink(s, end) >= 4915
    decreases end
  {
    AtMostThreeBytesEach(s[..end]);
    if end > 1 && ByteLength(s[..end]) > MAX_STREAM_CHUNK_BYTES {
      assert end >= 5462;
      ShrinkFits(s, 9 * end / 10);
    }
  }

  function Pieces(s: Text): seq<Text>
    decreases |s|
  {
    if s == [] then []
    else
      ShrinkFits(s, Min(|s|, MAX_STREAM_CHUNK_BYTES));
      [s[..NextEnd(s)]] + Pieces(s[NextEnd(s)..])
  }

  function Split(s: Text): seq<Text> {
    if ByteLength(s) <= MAX_STREAM_CHUNK_BYTES then [s] else Pieces(s)
  }

  method SplitForStream(text: Text) returns (chunks: seq<Text>)
    ensures chunks == Split(text)
  {
    if ByteLength(text) <= MAX_STREAM_CHUNK_BYTES { return [text]; }
    chunks := [];
    var remaining := text;
    while |remaining| > 0
      invariant chunks + Pieces(remaining) == Pieces(text)
      decreases |remaining|
    {
      ShrinkFits(remaining, Min(|remaining|, MAX_STREAM_CHUNK_BYTES));
      var end: nat := Min(|remaining|, MAX_STREAM_CHUNK_BYTES);
      while end > 1 && ByteLength(remaining[..end]) > MAX_STREAM_CHUNK_BYTES
        invariant end <= |remaining| && Shrink(remaining, end) == NextEnd(remaining)
        decreases end
      {
        end := 9 * end / 10;
      }
      chunks := chunks + [remaining[..end]];
      remaining := remaining[end..];
    }
  }

  function Joined(chunks: seq<Text>): Text {
    if chunks == [] then [] else chunks[0] + Joined(chunks[1..])
  }

  lemma {:induction false} PiecesJoin(s: Text)
    ensures Joined(Pieces(s)) == s
    decreases |s|
  {
    if s != [] {
      ShrinkFits(s, Min(|s|, MAX_STREAM_CHUNK_BYTES));
      PiecesJoin(s[NextEnd(s)..]);
      assert Pieces(s)[1..] == Pieces(s[NextEnd(s)..]);
    }
  }

  lemma {:induction false} PiecesFit(s: Text, i: nat)
    requires i < |Pieces(s)|
    ensures Pieces(s)[i] != [] && ByteLength(Pieces(s)[i]) <= MAX_STREAM_CHUNK_BYTES
    ensures i < |Pieces(s)| - 1 ==> |Pieces(s)[i]| >= 4915
    decreases |s|
  {
    ShrinkFits(s, Min(|s|, MAX_STREAM_CHUNK_BYTES));
    if i > 0 { PiecesFit(s[NextEnd(s)..], i - 1); }
  }

  lemma {:induction false} PiecesAreFew(s: Text)
    ensures 4915 * |Pieces(s)| <= |s| + 4914
    decreases |s|
  {
    if s != [] {
      ShrinkFits(s, Min(|s|, MAX_STREAM_CHUNK_BYTES));
      PiecesAreFew(s[NextEnd(s)..]);
    }
  }

  /** Nothing is lost, reordered or added by splitting. */
  lemma SplitIsLossless(s: Text)
    ensures Joined(Split(s)) == s
  {
    PiecesJoin(s);
    assert Joined([s]) == s + Joined([]);
  }

  /** Every chunk fits, none of a non-empty text is empty, and a split text has no
      more than its length over 4915, plus one, chunks. */
  lemma SplitIsSound(s: Text)
    ensures forall i :: 0 <= i < |Split(s)| ==> ByteLength(Split(s)[i]) <= MAX_STREAM_CHUNK_BYTES
    ensures s != [] ==> forall i :: 0 <= i < |Split(s)| ==> Split(s)[i] != []
    ensures forall i :: 0 <= i < |Split(s)| - 1 ==> |Split(s)[i]| >= 4915
    ensures |Split(s)| <= |s| / 4915 + 1
  {
    forall i | 0 <= i < |Pieces(s)|
      ensures Pieces(s)[i] != [] && ByteLength(Pieces(s)[i]) <= MAX_STREAM_CHUNK_BYTES
      ensures i < |Pieces(s)| - 1 ==> |Pieces(s)[i]| >= 4915
    {
      PiecesFit(s, i);
    }
    PiecesAreFew(s);
  }

  /** 16384 and what taking a tenth off again and again makes of it; 5139 units fit
      whatever they are. */
  const LENGTHS: seq<nat> := [16384, 14745, 13270, 11943, 10748, 9673, 8705, 7834, 7050, 6345, 5710, 5139]

  predicate FitsAt(s: Text, n: nat) {
    n <= |s| && ByteLength(s[..n]) <= MAX_STREAM_CHUNK_BYTES
  }

  /** The slice has the longest of these lengths that fits. */
  predicate IsLongest(s: Text, lengths: seq<nat>, k: nat, n: nat) {
    && k <= n < |lengths| && FitsAt(s, lengths[n])
    && forall i :: k <= i < n ==> !FitsAt(s, lengths[i])
  }

  /** Each length is nine tenths of the one before, and the last one always fits. */
  predicate Shrinking(lengths: seq<nat>) {
    && lengths != [] && 3 * lengths[|lengths| - 1] <= MAX_STREAM_CHUNK_BYTES
    && (forall i :: 0 <= i < |lengths| ==> 1 < lengths[i] <= MAX_STREAM_CHUNK_BYTES)
    && (forall i, k :: 0 <= i && k == i + 1 < |lengths| ==> lengths[k] == 9 * lengths[i] / 10)
  }

  lemma {:induction false} ShrinksTo(s: Text, lengths: seq<nat>, k: nat) returns (n: nat)
    requires |s| >= MAX_STREAM_CHUNK_BYTES && Shrinking(lengths) && k < |lengths|
    ensures IsLongest(s, lengths, k, n) && Shrink(s, lengths[k]) == lengths[n]
    decreases |lengths| - k
  {
    AtMostThreeBytesEach(s[..lengths[k]]);
    n := k;
    if !FitsAt(s, lengths[k]) { n := ShrinksTo(s, lengths, k + 1); }
  }

  /** How long a chunk is: as long as 16384 units remain, the longest of those lengths
      that fits; near the end, all that remains if that fits. */
  lemma ChunkLength(s: Text) returns (n: nat)
    requires s != [] && ByteLength(s) > MAX_STREAM_CHUNK_BYTES
    ensures Split(s) != []
    ensures |s| >= MAX_STREAM_CHUNK_BYTES ==> IsLongest(s, LENGTHS, 0, n) && |Split(s)[0]| == LENGTHS[n]
  {
    ShrinkFits(s, Min(|s|, MAX_STREAM_CHUNK_BYTES));
    n := 0;
    if |s| >= MAX_STREAM_CHUNK_BYTES { n := ShrinksTo(s, LENGTHS, 0); }
  }

  /** And the chunks behind it are those of the rest. */
  lemma ChunksBehind(s: Text)
    requires s != [] && ByteLength(s) > MAX_STREAM_CHUNK_BYTES
    ensures Pieces(s) == Split(s) && Split(s)[0] == s[..|Split(s)[0]|]
    ensures Split(s)[1..] == Pieces(s[|Split(s)[0]|..])
  {
    ShrinkFits(s, Min(|s|, MAX_STREAM_CHUNK_BYTES));
  }
}
