/** JavaScript strings and their UTF-8 form (section 3 of RFC 3629): texts are
    sequences of UTF-16 code units, Buffer.from encodes them and toString decodes
    bytes, replacing each maximal ill-formed fragment by U+FFFD. */
module Utf8 {

  type Unit = u: nat | u < 0x1_0000
  type Byte = b: nat | b < 0x100
  type Text = seq<Unit>
  type Bytes = seq<Byte>

  const REPLACEMENT: Unit := 0xFFFD

  predicate IsHigh(u: Unit) { 0xD800 <= u < 0xDC00 }
  predicate IsLow(u: Unit) { 0xDC00 <= u < 0xE000 }
  predicate IsSurrogate(u: Unit) { 0xD800 <= u < 0xE000 }

  predicate StartsWithPair(s: Text) {
    |s| >= 2 && IsHigh(s[0]) && IsLow(s[1])
  }

  /** An ASCII literal as a text. */
  function Ascii(s: string): (t: Text)
    ensures |t| == |s| && forall i :: 0 <= i < |s| ==> t[i] < 0x80
  {
    seq(|s|, i requires 0 <= i < |s| => if s[i] as int < 0x80 then s[i] as int else 0)
  }

  predicate OccursAt(s: Text, i: nat, pattern: Text) {
    i + |pattern| <= |s| && s[i..i + |pattern|] == pattern
  }

  /** String.includes. */
  predicate Includes(s: Text, pattern: Text) {
    exists i :: 0 <= i <= |s| && OccursAt(s, i, pattern)
  }

  // ── encoding ─────────────────────────────────────────────────────────────

  /** One code unit on its own; a lone surrogate is encoded as U+FFFD. */
  function EncodeUnit(u: Unit): (bs: Bytes)
    ensures 1 <= |bs| <= 3
  {
    if u < 0x80 then [u]
    else if u < 0x800 then [0xC0 + u / 64, 0x80 + u % 64]
    else if IsSurrogate(u) then [0xEF, 0xBF, 0xBD]
    else [0xE0 + u / 4096, 0x80 + (u / 64) % 64, 0x80 + u % 64]
  }

  /** The offset of a surrogate pair's code point above U+10000. */
  function PairOffset(h: Unit, l: Unit): (n: nat)
    requires IsHigh(h) && IsLow(l)
    ensures n < 0x10_0000
  {
    (h - 0xD800) * 1024 + (l - 0xDC00)
  }

  function EncodePair(h: Unit, l: Unit): (bs: Bytes)
    requires IsHigh(h) && IsLow(l)
    ensures |bs| == 4
  {
    var n := PairOffset(h, l) + 0x1_0000;
    [0xF0 + n / 262144, 0x80 + (n / 4096) % 64, 0x80 + (n / 64) % 64, 0x80 + n % 64]
  }

  /** The first character: a pair if there is one, a single unit otherwise. */
  function Width(s: Text): (n: nat)
    requires s != []
    ensures 1 <= n <= 2 && n <= |s|
  {
    if StartsWithPair(s) then 2 else 1
  }

  function EncodeFirst(s: Text): (bs: Bytes)
    requires s != []
    ensures 1 <= |bs| <= 4 && |bs| <= 3 * Width(s)
  {
    if StartsWithPair(s) then EncodePair(s[0], s[1]) else EncodeUnit(s[0])
  }

  /** Buffer.from(s, 'utf-8'). */
  function Encode(s: Text): Bytes {
    if s == [] then [] else EncodeFirst(s) + Encode(s[Width(s)..])
  }

  /** Buffer.byteLength(s, 'utf-8'). */
  function ByteLength(s: Text): nat {
    |Encode(s)|
  }

  /** Every surrogate is half of a pair. */
  predicate WellFormed(s: Text) {
    s == [] || ((StartsWithPair(s) || !IsSurrogate(s[0])) && WellFormed(s[Width(s)..]))
  }

  lemma {:induction false} AtMostThreeBytesEach(s: Text)
    ensures |s| <= ByteLength(s) <= 3 * |s|
    decreases |s|
  {
    if s != [] {
      AtMostThreeBytesEach(s[Width(s)..]);
      assert StartsWithPair(s) ==> |EncodeFirst(s)| == 4;
    }
  }

  lemma {:induction false} EncodeConcat(a: Text, b: Text)
    requires WellFormed(a)
    ensures Encode(a + b) == Encode(a) + Encode(b)
    decreases |a|
  {
    if a == [] {
      assert a + b == b;
    } else {
      assert StartsWithPair(a + b) == StartsWithPair(a);
      assert (a + b)[Width(a)..] == a[Width(a)..] + b;
      EncodeConcat(a[Width(a)..], b);
    }
  }

  lemma {:induction false} WellFormedConcat(a: Text, b: Text)
    requires WellFormed(a)
    ensures WellFormed(a + b) == WellFormed(b)
    decreases |a|
  {
    if a == [] {
      assert a + b == b;
    } else {
      assert StartsWithPair(a + b) == StartsWithPair(a);
      assert (a + b)[Width(a)..] == a[Width(a)..] + b;
      WellFormedConcat(a[Width(a)..], b);
    }
  }

  // ── decoding ─────────────────────────────────────────────────────────────

  /** How many continuation bytes a leading byte announces; 4 if it is not one. */
  function Announced(b: Byte): (n: nat)
    ensures n <= 4
  {
    if b < 0x80 then 0
    else if 0xC2 <= b < 0xE0 then 1
    else if 0xE0 <= b < 0xF0 then 2
    else if 0xF0 <= b < 0xF5 then 3
    else 4
  }

  /** The second byte is constrained so that no overlong form, surrogate or value
      above U+10FFFF is accepted. */
  predicate SecondFits(b0: Byte, b1: Byte) {
    (if b0 == 0xE0 then 0xA0 else if b0 == 0xF0 then 0x90 else 0x80) <= b1 <=
    (if b0 == 0xED then 0x9F else if b0 == 0xF4 then 0x8F else 0xBF)
  }

  predicate IsContinuation(b: Byte) { 0x80 <= b <= 0xBF }

  /** How many of the announced continuation bytes are there. */
  function Matched(bs: Bytes): (m: nat)
    requires bs != [] && Announced(bs[0]) < 4
    ensures m <= Announced(bs[0]) && m < |bs|
  {
    var n := Announced(bs[0]);
    if n < 1 || |bs| < 2 || !SecondFits(bs[0], bs[1]) then 0
    else if n < 2 || |bs| < 3 || !IsContinuation(bs[2]) then 1
    else if n < 3 || |bs| < 4 || !IsContinuation(bs[3]) then 2
    else 3
  }

  /** The next character is complete. */
  predicate Complete(bs: Bytes)
    requires bs != []
  {
    Announced(bs[0]) < 4 && Matched(bs) == Announced(bs[0])
  }

  /** Bytes consumed: a whole character, or a maximal ill-formed fragment. */
  function Used(bs: Bytes): (n: nat)
    requires bs != []
    ensures 1 <= n <= |bs| && n <= 4
  {
    if Announced(bs[0]) == 4 then 1 else 1 + Matched(bs)
  }

  /** The code point spelled by a leading byte and its continuation bytes. */
  function Value(lead: int, second: int, third: int, fourth: int): int {
    lead * 262144 + second * 4096 + third * 64 + fourth
  }

  /** The four digits of a four-byte character. */
  function FourByteValue(bs: Bytes): int
    requires |bs| >= 4
  {
    var b0: int, b1: int, b2: int, b3: int := bs[0], bs[1], bs[2], bs[3];
    Value(b0 - 0xF0, b1 - 0x80, b2 - 0x80, b3 - 0x80)
  }

  lemma FourByteRange(bs: Bytes)
    requires bs != [] && Announced(bs[0]) == 3 && Matched(bs) == 3
    ensures 0x1_0000 <= FourByteValue(bs) < 0x11_0000
  {
  }

  function DecodeFirst(bs: Bytes): (s: Text)
    requires bs != []
    ensures WellFormed(s)
  {
    if !Complete(bs) then [REPLACEMENT]
    else
      var n := Announced(bs[0]);
      if n == 0 then [bs[0]]
      else if n == 1 then
        var v: int := Value(0, 0, bs[0] - 0xC0, bs[1] - 0x80);
        [v]
      else if n == 2 then
        var v: int := Value(0, bs[0] - 0xE0, bs[1] - 0x80, bs[2] - 0x80);
        [v]
      else
        FourByteRange(bs);
        var v: int := FourByteValue(bs) - 0x1_0000;
        [0xD800 + v / 1024, 0xDC00 + v % 1024]
  }

  /** bytes.toString('utf-8'). */
  function Decode(bs: Bytes): Text {
    if bs == [] then [] else DecodeFirst(bs) + Decode(bs[Used(bs)..])
  }

  lemma {:induction false} DecodeIsWellFormed(bs: Bytes)
    ensures WellFormed(Decode(bs))
    decreases |bs|
  {
    if bs != [] {
      DecodeIsWellFormed(bs[Used(bs)..]);
      WellFormedConcat(DecodeFirst(bs), Decode(bs[Used(bs)..]));
    }
  }

  // ── round trip, and what a cut does ──────────────────────────────────────

  /** Decoding starts with the first character encoded, whatever follows it. */
  lemma FirstRoundTrip(s: Text, rest: Bytes)
    requires s != [] && (StartsWithPair(s) || !IsSurrogate(s[0]))
    ensures
      var bs := EncodeFirst(s) + rest;
      Used(bs) == |EncodeFirst(s)| && DecodeFirst(bs) == s[..Width(s)]
  {
    if StartsWithPair(s) { PairRoundTrip(s[0], s[1], rest); } else { UnitRoundTrip(s[0], rest); }
  }

  lemma UnitDigits(u: Unit)
    ensures Value(0, u / 4096, (u / 64) % 64, u % 64) == u
    ensures u / 4096 == 0 ==> Value(0, 0, u / 64, u % 64) == u
    ensures u / 4096 == 0 && u >= 0x800 ==> (u / 64) % 64 >= 0x20
    ensures u / 4096 == 0xD && !IsSurrogate(u) ==> (u / 64) % 64 < 0x20
    ensures u < 0x800 ==> u / 4096 == 0 && u / 64 < 0x20
  {
    NestedDivision(u);
    var a: int, b: int := u / 64, u / 4096;
    assert u == 64 * a + u % 64 && a == 64 * b + a % 64;
  }

  lemma UnitRoundTrip(u: Unit, rest: Bytes)
    requires !IsSurrogate(u)
    ensures
      var bs := EncodeUnit(u) + rest;
      Complete(bs) && Used(bs) == |EncodeUnit(u)| && DecodeFirst(bs) == [u]
  {
    UnitDigits(u);
    var bs := EncodeUnit(u) + rest;
    if u >= 0x800 {
      assert bs[0] == 0xE0 + u / 4096 && bs[1] == 0x80 + (u / 64) % 64 && bs[2] == 0x80 + u % 64;
      assert Complete(bs);
    } else if u >= 0x80 {
      assert bs[0] == 0xC0 + u / 64 && bs[1] == 0x80 + u % 64;
      assert Complete(bs);
    }
  }

  lemma NestedDivision(n: nat)
    ensures (n / 64) / 64 == n / 4096 && (n / 4096) / 64 == n / 262144
  {
  }

  lemma Digits(n: nat)
    requires 0x1_0000 <= n < 0x11_0000
    ensures Value(n / 262144, (n / 4096) % 64, (n / 64) % 64, n % 64) == n
    ensures n / 262144 <= 4
    ensures n / 262144 == 0 ==> (n / 4096) % 64 >= 0x10
    ensures n / 262144 == 4 ==> (n / 4096) % 64 < 0x10
  {
    NestedDivision(n);
    var a, b, c := n / 64, n / 4096, n / 262144;
    assert n == 64 * a + n % 64 && a == 64 * b + a % 64 && b == 64 * c + b % 64;
  }

  lemma PairOffsetInverse(h: Unit, l: Unit)
    requires IsHigh(h) && IsLow(l)
    ensures 0xD800 + PairOffset(h, l) / 1024 == h && 0xDC00 + PairOffset(h, l) % 1024 == l
  {
  }

  lemma PairRoundTrip(h: Unit, l: Unit, rest: Bytes)
    requires IsHigh(h) && IsLow(l)
    ensures
      var bs := EncodePair(h, l) + rest;
      Complete(bs) && Used(bs) == 4 && DecodeFirst(bs) == [h, l]
  {
    var n := PairOffset(h, l) + 0x1_0000;
    var bs := EncodePair(h, l) + rest;
    Digits(n);
    PairOffsetInverse(h, l);
    assert bs[0] == 0xF0 + n / 262144 && bs[1] == 0x80 + (n / 4096) % 64;
    assert bs[2] == 0x80 + (n / 64) % 64 && bs[3] == 0x80 + n % 64;
    assert Complete(bs);
    assert FourByteValue(bs) == n;
  }

  /** Decoding undoes encoding for every well-formed text. */
  lemma {:induction false} RoundTrip(s: Text)
    requires WellFormed(s)
    ensures Decode(Encode(s)) == s
    decreases |s|
  {
    if s != [] {
      var first, rest := EncodeFirst(s), Encode(s[Width(s)..]);
      FirstRoundTrip(s, rest);
      assert (first + rest)[|first|..] == rest;
      RoundTrip(s[Width(s)..]);
    }
  }

  /** A proper part of one character decodes to a single U+FFFD. */
  lemma FragmentDecodes(s: Text, k: nat)
    requires s != [] && (StartsWithPair(s) || !IsSurrogate(s[0])) && 0 < k < |EncodeFirst(s)|
    ensures Decode(EncodeFirst(s)[..k]) == [REPLACEMENT]
  {
    var bs := EncodeFirst(s)[..k];
    if StartsWithPair(s) { PairFragment(s[0], s[1], k); } else { UnitFragment(s[0], k); }
    assert bs[Used(bs)..] == [];
  }

  lemma UnitFragment(u: Unit, k: nat)
    requires !IsSurrogate(u) && 0 < k < |EncodeUnit(u)|
    ensures var bs := EncodeUnit(u)[..k]; !Complete(bs) && Used(bs) == k
  {
  }

  lemma PairFragment(h: Unit, l: Unit, k: nat)
    requires IsHigh(h) && IsLow(l) && 0 < k < 4
    ensures var bs := EncodePair(h, l)[..k]; !Complete(bs) && Used(bs) == k
  {
    Digits(PairOffset(h, l) + 0x1_0000);
  }

  /** The first n code units are what is left whole of s when its encoding is cut
      after k bytes. */
  predicate IsCut(s: Text, k: nat, n: nat)
    requires k <= ByteLength(s)
  {
    && n <= |s| && WellFormed(s[..n]) && k - 3 <= ByteLength(s[..n]) <= k
    && Decode(Encode(s)[..k]) == s[..n] + if ByteLength(s[..n]) == k then [] else [REPLACEMENT]
  }

  /** Cutting an encoding keeps the whole characters before the cut, and turns a
      split character into one U+FFFD. */
  lemma {:induction false} Cut(s: Text, k: nat) returns (n: nat)
    requires WellFormed(s) && k <= ByteLength(s)
    ensures IsCut(s, k, n)
    decreases |s|
  {
    n := 0;
    if k > 0 {
      if k < |EncodeFirst(s)| {
        CutInFirst(s, k);
      } else {
        EncodeCut(s, k);
        var m := Cut(s[Width(s)..], k - |EncodeFirst(s)|);
        CutLater(s, k, m);
        n := Width(s) + m;
      }
    }
  }

  lemma CutInFirst(s: Text, k: nat)
    requires s != [] && WellFormed(s) && 0 < k < |EncodeFirst(s)| && k <= ByteLength(s)
    ensures IsCut(s, k, 0)
  {
    var first, rest := EncodeFirst(s), Encode(s[Width(s)..]);
    assert (first + rest)[..k] == first[..k];
    FragmentDecodes(s, k);
  }

  lemma Prepend(s: Text, m: nat)
    requires s != [] && (StartsWithPair(s) || !IsSurrogate(s[0])) && Width(s) + m <= |s|
    ensures
      var t := s[..Width(s) + m];
      && t == s[..Width(s)] + s[Width(s)..][..m]
      && Width(t) == Width(s) && EncodeFirst(t) == EncodeFirst(s) && t[Width(s)..] == s[Width(s)..][..m]
      && (StartsWithPair(t) || !IsSurrogate(t[0]))
  {
  }

  lemma DecodeAfterFirst(s: Text, rest: Bytes)
    requires s != [] && (StartsWithPair(s) || !IsSurrogate(s[0]))
    ensures Decode(EncodeFirst(s) + rest) == s[..Width(s)] + Decode(rest)
  {
    var first := EncodeFirst(s);
    FirstRoundTrip(s, rest);
    assert (first + rest)[|first|..] == rest;
  }

  lemma EncodePrepended(s: Text, m: nat)
    requires s != [] && (StartsWithPair(s) || !IsSurrogate(s[0])) && Width(s) + m <= |s|
    ensures ByteLength(s[..Width(s) + m]) == |EncodeFirst(s)| + ByteLength(s[Width(s)..][..m])
    ensures WellFormed(s[..Width(s) + m]) == WellFormed(s[Width(s)..][..m])
  {
    Prepend(s, m);
  }

  /** A cut behind the first character, in terms of what follows it. */
  lemma EncodeCut(s: Text, k: nat)
    requires s != [] && |EncodeFirst(s)| <= k <= ByteLength(s)
    ensures k - |EncodeFirst(s)| <= ByteLength(s[Width(s)..])
    ensures Encode(s)[..k] == EncodeFirst(s) + Encode(s[Width(s)..])[..k - |EncodeFirst(s)|]
  {
  }

  lemma Regrouped(s: Text, w: nat, m: nat, mark: Text)
    requires w + m <= |s|
    ensures s[..w] + (s[w..][..m] + mark) == s[..w + m] + mark
  {
    assert s[..w + m] == s[..w] + s[w..][..m];
  }

  lemma CutLater(s: Text, k: nat, m: nat)
    requires s != [] && WellFormed(s) && |EncodeFirst(s)| <= k <= ByteLength(s)
    requires k - |EncodeFirst(s)| <= ByteLength(s[Width(s)..])
    requires IsCut(s[Width(s)..], k - |EncodeFirst(s)|, m)
    ensures IsCut(s, k, Width(s) + m)
  {
    var cut := Encode(s[Width(s)..])[..k - |EncodeFirst(s)|];
    EncodeCut(s, k);
    EncodePrepended(s, m);
    DecodeAfterFirst(s, cut);
    var mark: Text := if ByteLength(s[Width(s)..][..m]) == k - |EncodeFirst(s)| then [] else [REPLACEMENT];
    Regrouped(s, Width(s), m, mark);
  }

  /** Characters of section 7 of RFC 3629: A, a Greek letter, a sign, and U+233B4. */
  lemma Examples()
    ensures EncodeUnit(0x41) == [0x41] && EncodeUnit(0x391) == [0xCE, 0x91] && EncodeUnit(0x2262) == [0xE2, 0x89, 0xA2]
    ensures EncodePair(0xD84C, 0xDFB4) == [0xF0, 0xA3, 0x8E, 0xB4]
  {
  }

  // ── arbitrary bytes ──────────────────────────────────────────────────────

  /** No encoding begins with a byte that could continue a character. */
  lemma EncodingStarts(s: Text)
    requires s != []
    ensures Encode(s) != [] && !(0x80 <= Encode(s)[0] <= 0xBF)
  {
  }

  lemma MatchedApart(bad: Bytes, e: Bytes)
    requires bad != [] && (e != [] ==> !(0x80 <= e[0] <= 0xBF)) && Announced(bad[0]) < 4
    ensures Matched(bad + e) == Matched(bad)
  {
  }

  lemma FirstApart(bad: Bytes, e: Bytes)
    requires bad != [] && (e != [] ==> !(0x80 <= e[0] <= 0xBF))
    ensures Used(bad + e) == Used(bad) && DecodeFirst(bad + e) == DecodeFirst(bad)
  {
    if Announced(bad[0]) < 4 { MatchedApart(bad, e); }
    assert forall k :: 0 <= k < |bad| ==> (bad + e)[k] == bad[k];
  }

  lemma SliceBehind(bad: Bytes, e: Bytes, n: nat)
    requires n <= |bad|
    ensures (bad + e)[n..] == bad[n..] + e
  {
  }

  lemma DecodeApart(bad: Bytes, e: Bytes)
    requires bad != [] && (e != [] ==> !(0x80 <= e[0] <= 0xBF))
    ensures Decode(bad + e) == DecodeFirst(bad) + Decode(bad[Used(bad)..] + e)
    ensures Decode(bad) == DecodeFirst(bad) + Decode(bad[Used(bad)..])
  {
    FirstApart(bad, e);
    SliceBehind(bad, e, Used(bad));
  }

  lemma Associative(x: Text, y: Text, z: Text)
    ensures x + (y + z) == (x + y) + z
  {
  }

  /** Decoding falls into step again: whatever bytes come before, an encoding behind
      them is decoded as it should be. */
  lemma {:induction false} Resynchronises(bad: Bytes, s: Text)
    requires WellFormed(s)
    ensures Decode(bad + Encode(s)) == Decode(bad) + s
    decreases |bad|
  {
    if bad == [] {
      assert bad + Encode(s) == Encode(s);
      RoundTrip(s);
    } else {
      if s != [] { EncodingStarts(s); }
      DecodeApart(bad, Encode(s));
      Resynchronises(bad[Used(bad)..], s);
      Associative(DecodeFirst(bad), Decode(bad[Used(bad)..]), s);
    }
  }

  // ── which bytes are accepted ─────────────────────────────────────────────

  lemma TwoBytesCanonical(bs: Bytes)
    requires bs != [] && Announced(bs[0]) == 1 && Complete(bs)
    ensures EncodeFirst(DecodeFirst(bs)) == bs[..2]
  {
    var a: int, b: int := bs[0] - 0xC0, bs[1] - 0x80;
    var v: int := 64 * a + b;
    assert v / 64 == a && v % 64 == b;
  }

  lemma ThreeBytesCanonical(bs: Bytes)
    requires bs != [] && Announced(bs[0]) == 2 && Complete(bs)
    ensures EncodeFirst(DecodeFirst(bs)) == bs[..3]
  {
    var a: int, b: int, c: int := bs[0] - 0xE0, bs[1] - 0x80, bs[2] - 0x80;
    var v: int := 4096 * a + 64 * b + c;
    assert v / 4096 == a && v / 64 == 64 * a + b && (v / 64) % 64 == b && v % 64 == c;
  }

  lemma FourBytesCanonical(bs: Bytes)
    requires bs != [] && Announced(bs[0]) == 3 && Complete(bs)
    ensures EncodeFirst(DecodeFirst(bs)) == bs[..4]
  {
    FourByteRange(bs);
    var v := FourByteValue(bs) - 0x1_0000;
    var h: Unit, l: Unit := 0xD800 + v / 1024, 0xDC00 + v % 1024;
    assert PairOffset(h, l) == v;
    FourDigits(bs);
  }

  lemma FourDigits(bs: Bytes)
    requires bs != [] && Announced(bs[0]) == 3 && Complete(bs)
    ensures
      var n := FourByteValue(bs);
      && n / 262144 == bs[0] - 0xF0 && (n / 4096) % 64 == bs[1] - 0x80
      && (n / 64) % 64 == bs[2] - 0x80 && n % 64 == bs[3] - 0x80
  {
    var a: int, b: int, c: int, d: int := bs[0] - 0xF0, bs[1] - 0x80, bs[2] - 0x80, bs[3] - 0x80;
    var n := FourByteValue(bs);
    assert n / 64 == 4096 * a + 64 * b + c && n / 4096 == 64 * a + b && n / 262144 == a;
  }

  /** Only what the encoding produces is taken for a character: no overlong form, no
      surrogate and nothing above U+10FFFF. */
  lemma FirstIsCanonical(bs: Bytes)
    requires bs != [] && Complete(bs)
    ensures EncodeFirst(DecodeFirst(bs)) == bs[..Used(bs)] && Width(DecodeFirst(bs)) == |DecodeFirst(bs)|
  {
    if Announced(bs[0]) == 1 {
      TwoBytesCanonical(bs);
    } else if Announced(bs[0]) == 2 {
      ThreeBytesCanonical(bs);
    } else if Announced(bs[0]) == 3 {
      FourBytesCanonical(bs);
    }
  }

  /** No byte of bs is replaced by U+FFFD. */
  predicate AllComplete(bs: Bytes) {
    bs == [] || (Complete(bs) && AllComplete(bs[Used(bs)..]))
  }

  lemma {:induction false} CompleteIsEncoding(bs: Bytes)
    requires AllComplete(bs)
    ensures Encode(Decode(bs)) == bs
    decreases |bs|
  {
    if bs != [] {
      FirstIsCanonical(bs);
      CompleteIsEncoding(bs[Used(bs)..]);
      EncodeConcat(DecodeFirst(bs), Decode(bs[Used(bs)..]));
      OneCharacter(DecodeFirst(bs));
    }
  }

  lemma OneCharacter(s: Text)
    requires s != [] && Width(s) == |s|
    ensures Encode(s) == EncodeFirst(s)
  {
    assert s[Width(s)..] == [];
  }

  lemma {:induction false} EncodingIsComplete(s: Text)
    requires WellFormed(s)
    ensures AllComplete(Encode(s))
    decreases |s|
  {
    if s != [] {
      var first, rest := EncodeFirst(s), Encode(s[Width(s)..]);
      if StartsWithPair(s) { PairRoundTrip(s[0], s[1], rest); } else { UnitRoundTrip(s[0], rest); }
      FirstRoundTrip(s, rest);
      assert (first + rest)[|first|..] == rest;
      EncodingIsComplete(s[Width(s)..]);
    }
  }

  /** Bytes are decoded without any replacement exactly if they are the encoding of a
      text without lone surrogates. */
  lemma AcceptsExactlyEncodings(bs: Bytes)
    ensures AllComplete(bs) <==> exists s :: WellFormed(s) && Encode(s) == bs
  {
    if AllComplete(bs) {
      CompleteIsEncoding(bs);
      DecodeIsWellFormed(bs);
      assert WellFormed(Decode(bs)) && Encode(Decode(bs)) == bs;
    }
    if s: Text :| WellFormed(s) && Encode(s) == bs { EncodingIsComplete(s); }
  }
}
