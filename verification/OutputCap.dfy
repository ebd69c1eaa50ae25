/** appendWithinCap: the capped accumulation of persisted output. */
module OutputCap {
  import opened Utf8

  const MAX_RESULT_OUTPUT_BYTES: nat := 64 * 1024

  datatype Capped = Capped(value: Text, truncated: bool)

  function AppendWithinCap(current: Text, next: Text): Capped {
    if ByteLength(current) >= MAX_RESULT_OUTPUT_BYTES then Capped(current, |next| > 0)
    else
      var remaining := MAX_RESULT_OUTPUT_BYTES - ByteLength(current);
      if |Encode(next)| <= remaining then Capped(current + next, false)
      else Capped(current + Decode(Encode(next)[..remaining]), true)
  }

  /** What persisting is for: the first 64 KiB of everything a stream produced. */
  function FirstBytes(all: Text): Text {
    if ByteLength(all) <= MAX_RESULT_OUTPUT_BYTES then all
    else Decode(Encode(all)[..MAX_RESULT_OUTPUT_BYTES])
  }

  predicate Overflows(all: Text) {
    ByteLength(all) > MAX_RESULT_OUTPUT_BYTES
  }

  lemma EncodeMark()
    ensures |Encode([REPLACEMENT])| == 3
  {
    var mark: Text := [REPLACEMENT];
    assert Encode(mark) == EncodeUnit(REPLACEMENT) + Encode(mark[1..]);
  }

  /** The first 64 KiB in terms of whole characters: the n units that fit, with one
      U+FFFD for a character the limit falls into. The excess over the limit is
      exactly the difference between that mark's three bytes and the bytes it
      stands for, hence at most two. */
  lemma FirstBytesMeans(all: Text) returns (n: nat)
    requires WellFormed(all)
    ensures n <= |all| && WellFormed(FirstBytes(all))
    ensures !Overflows(all) ==> n == |all| && FirstBytes(all) == all
    ensures Overflows(all) ==>
              && MAX_RESULT_OUTPUT_BYTES - 3 <= ByteLength(all[..n]) <= MAX_RESULT_OUTPUT_BYTES
              && (ByteLength(all[..n]) == MAX_RESULT_OUTPUT_BYTES ==> FirstBytes(all) == all[..n])
              && (ByteLength(all[..n]) < MAX_RESULT_OUTPUT_BYTES ==>
                    && FirstBytes(all) == all[..n] + [REPLACEMENT]
                    && ByteLength(FirstBytes(all)) == ByteLength(all[..n]) + 3)
    ensures Overflows(all) ==>
              MAX_RESULT_OUTPUT_BYTES <= ByteLength(FirstBytes(all)) <= MAX_RESULT_OUTPUT_BYTES + 2
  {
    n := |all|;
    if Overflows(all) {
      n := Cut(all, MAX_RESULT_OUTPUT_BYTES);
      EncodeConcat(all[..n], [REPLACEMENT]);
      EncodeMark();
      DecodeIsWellFormed(Encode(all)[..MAX_RESULT_OUTPUT_BYTES]);
      if ByteLength(all[..n]) == MAX_RESULT_OUTPUT_BYTES {
        assert all[..n] + [] == all[..n];
      }
    }
  }

  lemma {:induction false} DecodeBehind(a: Text, bs: Bytes)
    requires WellFormed(a)
    ensures Decode(Encode(a) + bs) == a + Decode(bs)
    decreases |a|
  {
    if a == [] {
      assert Encode(a) + bs == bs;
    } else {
      EncodeUnfolds(a, bs);
      DecodeAfterFirst(a, Encode(a[Width(a)..]) + bs);
      DecodeBehind(a[Width(a)..], bs);
      Regroup(a, Width(a), Decode(bs));
    }
  }

  lemma Regroup(a: Text, w: nat, rest: Text)
    requires w <= |a|
    ensures a[..w] + (a[w..] + rest) == a + rest
  {
  }

  lemma EncodeUnfolds(a: Text, bs: Bytes)
    requires a != [] && WellFormed(a)
    ensures Encode(a) + bs == EncodeFirst(a) + (Encode(a[Width(a)..]) + bs)
    ensures WellFormed(a[Width(a)..]) && (StartsWithPair(a) || !IsSurrogate(a[0]))
  {
  }

  /** If the limit falls into next, the bytes of next up to the limit are kept. */
  lemma CutBehind(all: Text, next: Text)
    requires WellFormed(all) && !Overflows(all) && Overflows(all + next)
    ensures MAX_RESULT_OUTPUT_BYTES - ByteLength(all) <= |Encode(next)|
    ensures FirstBytes(all + next) == all + Decode(Encode(next)[..MAX_RESULT_OUTPUT_BYTES - ByteLength(all)])
  {
    EncodeConcat(all, next);
    var remaining := MAX_RESULT_OUTPUT_BYTES - ByteLength(all);
    DecodeBehind(all, Encode(next)[..remaining]);
    assert Encode(all + next)[..MAX_RESULT_OUTPUT_BYTES] == Encode(all) + Encode(next)[..remaining];
  }

  /** Appending behind a text that is not yet full. */
  lemma AppendBehind(all: Text, next: Text)
    requires WellFormed(all) && ByteLength(all) < MAX_RESULT_OUTPUT_BYTES
    ensures AppendWithinCap(all, next) == Capped(FirstBytes(all + next), Overflows(all + next))
  {
    EncodeConcat(all, next);
    if Overflows(all + next) { CutBehind(all, next); }
  }

  /** Appending chunk by chunk to what is kept keeps exactly the first 64 KiB of
      everything, however the output is cut into chunks; the flag is raised exactly
      when something is lost. */
  lemma AppendRefinesFirstBytes(all: Text, next: Text)
    requires WellFormed(all) && WellFormed(next)
    ensures AppendWithinCap(FirstBytes(all), next) ==
            Capped(FirstBytes(all + next), next != [] && Overflows(all + next))
  {
    var n := FirstBytesMeans(all);
    if ByteLength(all) >= MAX_RESULT_OUTPUT_BYTES {
      FullStays(all, next);
      EncodeConcat(all, next);
      AtMostThreeBytesEach(next);
    } else {
      AppendBehind(all, next);
      assert next == [] ==> all + next == all;
    }
  }

  /** Once 64 KiB have been produced, what is kept never changes again. */
  lemma FullStays(all: Text, next: Text)
    requires WellFormed(all) && ByteLength(all) >= MAX_RESULT_OUTPUT_BYTES
    ensures FirstBytes(all + next) == FirstBytes(all)
  {
    EncodeConcat(all, next);
    AtMostThreeBytesEach(next);
    assert Encode(all + next)[..MAX_RESULT_OUTPUT_BYTES] == Encode(all)[..MAX_RESULT_OUTPUT_BYTES];
    if ByteLength(all) == MAX_RESULT_OUTPUT_BYTES {
      RoundTrip(all);
      assert Encode(all)[..MAX_RESULT_OUTPUT_BYTES] == Encode(all);
      assert next == [] ==> all + next == all;
    }
  }

  /** The excess of two is attained: behind 65535 bytes, a character of three. */
  lemma OvershootHappens(all: Text)
    requires WellFormed(all) && ByteLength(all) == MAX_RESULT_OUTPUT_BYTES - 1
    ensures ByteLength(FirstBytes(all + [0x20AC])) == MAX_RESULT_OUTPUT_BYTES + 2
  {
    EuroSign();
    EncodeConcat(all, [0x20AC]);
    CutBehind(all, [0x20AC]);
    EncodeConcat(all, [REPLACEMENT]);
    EncodeMark();
  }

  lemma EuroSign()
    ensures |Encode([0x20AC])| == 3 && Decode(Encode([0x20AC])[..1]) == [REPLACEMENT]
  {
    var euro: Text := [0x20AC];
    assert Encode(euro) == EncodeFirst(euro) + Encode(euro[1..]);
    FragmentDecodes(euro, 1);
    assert Encode(euro)[..1] == EncodeFirst(euro)[..1];
  }
}
