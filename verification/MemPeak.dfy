/** The memory-peak line the runner prints: the two regular expressions of
    handleOutput, /___MEM_PEAK___:\s*(\d+)/ and the same with \r?\n? behind it. */
module MemPeak {
  import opened Contracts
  import opened Utf8

  const MARKER: Text := Ascii("___MEM_PEAK___:")

  /** \s */
  predicate IsSpace(u: Unit) {
    0x09 <= u <= 0x0D || u == 0x20 || u == 0xA0 || u == 0x1680 || 0x2000 <= u <= 0x200A
    || u == 0x2028 || u == 0x2029 || u == 0x202F || u == 0x205F || u == 0x3000 || u == 0xFEFF
  }

  /** \d */
  predicate IsDigit(u: Unit) {
    0x30 <= u <= 0x39
  }

  /** White space and line terminators of ECMAScript, and its decimal digits. */
  lemma ClassesAre(u: Unit)
    ensures IsSpace(u) <==>
            u in {0x09, 0x0A, 0x0B, 0x0C, 0x0D, 0x20, 0xA0, 0x1680, 0x2000, 0x2001, 0x2002, 0x2003, 0x2004, 0x2005,
                  0x2006, 0x2007, 0x2008, 0x2009, 0x200A, 0x2028, 0x2029, 0x202F, 0x205F, 0x3000, 0xFEFF}
    ensures IsDigit(u) <==> u in {0x30, 0x31, 0x32, 0x33, 0x34, 0x35, 0x36, 0x37, 0x38, 0x39}
  {
  }

  function SkipSpaces(s: Text, i: nat): (r: nat)
    requires i <= |s|
    ensures i <= r <= |s| && (forall k :: i <= k < r ==> !IsSurrogate(s[k]))
    decreases |s| - i
  {
    if i < |s| && IsSpace(s[i]) then SkipSpaces(s, i + 1) else i
  }

  function SkipDigits(s: Text, i: nat): (r: nat)
    requires i <= |s|
    ensures i <= r <= |s| && (forall k :: i <= k < r ==> !IsSurrogate(s[k]))
    decreases |s| - i
  {
    if i < |s| && IsDigit(s[i]) then SkipDigits(s, i + 1) else i
  }

  function SkipUnit(s: Text, i: nat, u: Unit): (r: nat)
    requires i <= |s|
    ensures i <= r <= |s|
  {
    if i < |s| && s[i] == u then i + 1 else i
  }

  /** \r?\n? */
  function EndOfLine(s: Text, e: nat): (f: nat)
    requires e <= |s|
    ensures e <= f <= |s|
  {
    SkipUnit(s, SkipUnit(s, e, 0x0D), 0x0A)
  }

  predicate MarkerAt(s: Text, i: nat) {
    OccursAt(s, i, MARKER)
  }

  /** Where the digits after a marker at i begin. */
  function DigitsFrom(s: Text, i: nat): (d: nat)
    requires MarkerAt(s, i)
    ensures i + |MARKER| <= d <= |s|
  {
    SkipSpaces(s, i + |MARKER|)
  }

  predicate MatchesAt(s: Text, i: nat) {
    MarkerAt(s, i) && SkipDigits(s, DigitsFrom(s, i)) > DigitsFrom(s, i)
  }

  /** The leftmost match at or after i. */
  function FindMatch(s: Text, i: nat): (r: Option<nat>)
    ensures r.Some? ==> i <= r.value && MatchesAt(s, r.value)
    ensures forall k :: i <= k && (r.Some? ==> k < r.value) ==> !MatchesAt(s, k)
    decreases |s| - i
  {
    if MatchesAt(s, i) then Some(i) else if i < |s| then FindMatch(s, i + 1) else None
  }

  function MatchEnd(s: Text, i: nat): (e: nat)
    requires MatchesAt(s, i)
    ensures i < e <= |s|
  {
    EndOfLine(s, SkipDigits(s, DigitsFrom(s, i)))
  }

  /** The digits of the first match. */
  function Peak(s: Text): Option<Text> {
    match FindMatch(s, 0)
    case None => None
    case Some(i) => Some(s[DigitsFrom(s, i)..SkipDigits(s, DigitsFrom(s, i))])
  }

  /** The text without its first match. */
  function Strip(s: Text): Text {
    match FindMatch(s, 0)
    case None => s
    case Some(i) => s[..i] + s[MatchEnd(s, i)..]
  }

  predicate Plain(m: Text) {
    forall k :: 0 <= k < |m| ==> !IsSurrogate(m[k])
  }

  lemma {:induction false} WellFormedBehindPlain(m: Text, b: Text)
    requires Plain(m) && WellFormed(m + b)
    ensures WellFormed(b)
    decreases |m|
  {
    if m == [] {
      assert m + b == b;
    } else {
      assert (m + b)[0] == m[0] && (m + b)[1..] == m[1..] + b;
      WellFormedBehindPlain(m[1..], b);
    }
  }

  /** Taking plain units out of a well-formed text leaves it well formed. */
  lemma {:induction false} RemovePlain(a: Text, m: Text, b: Text)
    requires Plain(m) && m != [] && WellFormed(a + m + b)
    ensures WellFormed(a + b)
    decreases |a|
  {
    var s := a + m + b;
    if a == [] {
      assert s == m + b && a + b == b;
      WellFormedBehindPlain(m, b);
    } else {
      assert |a| == 1 ==> s[1] == m[0];
      assert StartsWithPair(s) == StartsWithPair(a);
      assert s[Width(s)..] == a[Width(s)..] + m + b;
      RemovePlain(a[Width(s)..], m, b);
      assert StartsWithPair(a + b) ==> StartsWithPair(a);
      assert (a + b)[Width(s)..] == a[Width(s)..] + b;
    }
  }

  lemma MatchIsPlain(s: Text, i: nat)
    requires MatchesAt(s, i)
    ensures Plain(s[i..MatchEnd(s, i)])
  {
    var d := DigitsFrom(s, i);
    var e := SkipDigits(s, d);
    forall k | i <= k < MatchEnd(s, i)
      ensures !IsSurrogate(s[k])
    {
      if k < i + |MARKER| { assert s[k] == s[i..i + |MARKER|][k - i]; }
    }
  }

  lemma StripKeepsWellFormed(s: Text)
    requires WellFormed(s)
    ensures WellFormed(Strip(s))
  {
    match FindMatch(s, 0)
    case None =>
    case Some(i) =>
      MatchIsPlain(s, i);
      var e := MatchEnd(s, i);
      assert s == s[..i] + s[i..e] + s[e..];
      RemovePlain(s[..i], s[i..e], s[e..]);
  }

  // ── what the two expressions mean ────────────────────────────────────────

  predicate AllSpaces(t: Text) {
    forall k :: 0 <= k < |t| ==> IsSpace(t[k])
  }

  predicate AllDigits(t: Text) {
    forall k :: 0 <= k < |t| ==> IsDigit(t[k])
  }

  /** At i stand the marker, any number of spaces, and a digit. */
  ghost predicate NamesPeakAt(s: Text, i: nat) {
    exists gap: Text, digit: Unit :: AllSpaces(gap) && IsDigit(digit) && OccursAt(s, i, MARKER + gap + [digit])
  }

  /** The optional line end behind the digits, as much of it as there is. */
  predicate IsLineEnd(end: Text, behind: Text) {
    || end == [0x0D, 0x0A]
    || end == [0x0A]
    || (end == [0x0D] && (behind == [] || behind[0] != 0x0A))
    || (end == [] && (behind == [] || (behind[0] != 0x0D && behind[0] != 0x0A && !IsDigit(behind[0]))))
  }

  lemma {:induction false} SpacesSkipped(s: Text, i: nat)
    requires i <= |s|
    ensures forall k :: i <= k < SkipSpaces(s, i) ==> IsSpace(s[k])
    decreases |s| - i
  {
    if i < |s| && IsSpace(s[i]) { SpacesSkipped(s, i + 1); }
  }

  lemma {:induction false} SkipsSpacesTo(s: Text, i: nat, e: nat)
    requires i <= e <= |s| && (forall k :: i <= k < e ==> IsSpace(s[k])) && (e < |s| ==> !IsSpace(s[e]))
    ensures SkipSpaces(s, i) == e
    decreases e - i
  {
    if i < e { SkipsSpacesTo(s, i + 1, e); }
  }

  lemma {:induction false} SkipsDigitsTo(s: Text, i: nat, e: nat)
    requires i <= e <= |s| && (forall k :: i <= k < e ==> IsDigit(s[k])) && (e < |s| ==> !IsDigit(s[e]))
    ensures SkipDigits(s, i) == e
    decreases e - i
  {
    if i < e { SkipsDigitsTo(s, i + 1, e); }
  }

  lemma MatchNames(s: Text, i: nat)
    requires MatchesAt(s, i)
    ensures NamesPeakAt(s, i)
  {
    var m, d := i + |MARKER|, DigitsFrom(s, i);
    SpacesSkipped(s, m);
    var gap := s[m..d];
    assert s[i..d + 1] == s[i..m] + gap + [s[d]];
    assert AllSpaces(gap) && IsDigit(s[d]) && OccursAt(s, i, MARKER + gap + [s[d]]);
  }

  lemma NamingMatches(s: Text, i: nat)
    requires NamesPeakAt(s, i)
    ensures MatchesAt(s, i)
  {
    var gap: Text, digit: Unit :|
      AllSpaces(gap) && IsDigit(digit) && OccursAt(s, i, MARKER + gap + [digit]);
    var m := i + |MARKER|;
    OccursInParts(s, i, MARKER, gap, digit);
    SkipsSpacesTo(s, m, m + |gap|);
  }

  lemma OccursInParts(s: Text, i: nat, marker: Text, gap: Text, last: Unit)
    requires OccursAt(s, i, marker + gap + [last])
    ensures OccursAt(s, i, marker) && s[i + |marker| + |gap|] == last
    ensures forall k :: i + |marker| <= k < i + |marker| + |gap| ==> s[k] == gap[k - i - |marker|]
  {
    var line := marker + gap + [last];
    assert forall k :: 0 <= k < |line| ==> s[i + k] == s[i..i + |line|][k] == line[k];
    assert s[i..i + |marker|] == s[i..i + |line|][..|marker|];
  }

  /** A text with a peak line in the middle. */
  function WithPeak(before: Text, gap: Text, digits: Text, end: Text, behind: Text): Text {
    before + MARKER + gap + digits + end + behind
  }

  lemma WithPeakAt(before: Text, gap: Text, digits: Text, end: Text, behind: Text)
    ensures
      var s, m := WithPeak(before, gap, digits, end, behind), |before| + |MARKER|;
      && s[..|before|] == before && s[|before|..m] == MARKER && s[m..m + |gap|] == gap
      && s[m + |gap|..m + |gap| + |digits|] == digits
      && s[m + |gap| + |digits|..] == end + behind
      && s[m + |gap| + |digits| + |end|..] == behind
  {
  }

  lemma LineEndSkipped(s: Text, e: nat, end: Text, behind: Text)
    requires e <= |s| && s[e..] == end + behind && IsLineEnd(end, behind)
    ensures EndOfLine(s, e) == e + |end| && (e < |s| ==> !IsDigit(s[e]))
  {
    assert forall k :: e <= k < |s| ==> s[k] == (end + behind)[k - e];
  }

  lemma LineEndTaken(s: Text, e: nat)
    requires e <= |s| && (e < |s| ==> !IsDigit(s[e]))
    ensures IsLineEnd(s[e..EndOfLine(s, e)], s[EndOfLine(s, e)..])
  {
  }

  lemma Regions(s: Text, m: nat, d: nat, e: nat)
    requires m <= d <= e <= |s| && AllSpaces(s[m..d]) && AllDigits(s[d..e])
    ensures forall k :: m <= k < d ==> IsSpace(s[k])
    ensures forall k :: d <= k < e ==> IsDigit(s[k])
  {
    assert forall k :: m <= k < d ==> s[k] == s[m..d][k - m];
    assert forall k :: d <= k < e ==> s[k] == s[d..e][k - d];
  }

  /** Where the match at the peak line has its digits, and where it ends. */
  lemma PeakLineMatches(before: Text, gap: Text, digits: Text, end: Text, behind: Text)
    requires AllSpaces(gap) && digits != [] && AllDigits(digits) && IsLineEnd(end, behind)
    ensures
      var s, d := WithPeak(before, gap, digits, end, behind), |before| + |MARKER| + |gap|;
      && MatchesAt(s, |before|) && DigitsFrom(s, |before|) == d && SkipDigits(s, d) == d + |digits|
      && MatchEnd(s, |before|) == d + |digits| + |end|
  {
    var s, m := WithPeak(before, gap, digits, end, behind), |before| + |MARKER|;
    var d, e := m + |gap|, m + |gap| + |digits|;
    WithPeakAt(before, gap, digits, end, behind);
    Regions(s, m, d, e);
    LineEndSkipped(s, e, end, behind);
    SkipsSpacesTo(s, m, d);
    SkipsDigitsTo(s, d, e);
    assert MatchEnd(s, |before|) == EndOfLine(s, e);
  }

  lemma PeakLineParts(before: Text, gap: Text, digits: Text, end: Text, behind: Text)
    requires AllSpaces(gap) && digits != [] && AllDigits(digits) && IsLineEnd(end, behind)
    ensures
      var s, i := WithPeak(before, gap, digits, end, behind), |before|;
      && MatchesAt(s, i) && s[..i] == before && s[MatchEnd(s, i)..] == behind
      && s[DigitsFrom(s, i)..SkipDigits(s, DigitsFrom(s, i))] == digits
  {
    PeakLineMatches(before, gap, digits, end, behind);
    WithPeakAt(before, gap, digits, end, behind);
  }

  /** The first peak line of a text is cut out with its line end, all else stays; and
      the peak is its digits. */
  lemma StripCutsLine(before: Text, gap: Text, digits: Text, end: Text, behind: Text)
    requires AllSpaces(gap) && digits != [] && AllDigits(digits) && IsLineEnd(end, behind)
    requires forall i :: 0 <= i < |before| ==> !NamesPeakAt(WithPeak(before, gap, digits, end, behind), i)
    ensures Strip(WithPeak(before, gap, digits, end, behind)) == before + behind
    ensures Peak(WithPeak(before, gap, digits, end, behind)) == Some(digits)
  {
    var s := WithPeak(before, gap, digits, end, behind);
    PeakLineParts(before, gap, digits, end, behind);
    NothingMatchesBefore(s, |before|);
    FirstMatch(s, |before|);
  }

  lemma NothingMatchesBefore(s: Text, at: nat)
    requires forall k :: 0 <= k < at ==> !NamesPeakAt(s, k)
    ensures forall k :: 0 <= k < at ==> !MatchesAt(s, k)
  {
    forall k | 0 <= k < at
      ensures !MatchesAt(s, k)
    {
      if MatchesAt(s, k) { MatchNames(s, k); }
    }
  }

  lemma FirstMatch(s: Text, i: nat)
    requires MatchesAt(s, i) && forall k :: 0 <= k < i ==> !MatchesAt(s, k)
    ensures Strip(s) == s[..i] + s[MatchEnd(s, i)..]
    ensures Peak(s) == Some(s[DigitsFrom(s, i)..SkipDigits(s, DigitsFrom(s, i))])
  {
    assert FindMatch(s, 0) == Some(i);
  }

  /** A text that names no peak stays as it is. */
  lemma StripKeepsRest(s: Text)
    requires forall i: nat :: !NamesPeakAt(s, i)
    ensures Strip(s) == s && Peak(s) == None
  {
    var found := FindMatch(s, 0);
    if found.Some? { MatchNames(s, found.value); }
  }

  lemma CutApart(s: Text, at: nat, d: nat, e: nat, f: nat)
    requires MarkerAt(s, at) && at + |MARKER| <= d <= e <= f <= |s|
    ensures s == WithPeak(s[..at], s[at + |MARKER|..d], s[d..e], s[e..f], s[f..])
  {
    assert s == s[..at] + s[at..at + |MARKER|] + s[at + |MARKER|..d] + s[d..e] + s[e..f] + s[f..];
  }

  lemma NothingNamedBefore(s: Text, at: nat)
    requires forall k :: 0 <= k < at ==> !MatchesAt(s, k)
    ensures forall k :: 0 <= k < at ==> !NamesPeakAt(s, k)
  {
    forall k | 0 <= k < at
      ensures !NamesPeakAt(s, k)
    {
      if NamesPeakAt(s, k) { NamingMatches(s, k); }
    }
  }

  /** These are all the texts there are: whatever names a peak somewhere is a first
      peak line between what precedes and what follows it. */
  lemma EveryPeakHasItsLine(s: Text, i: nat)
    returns (before: Text, gap: Text, digits: Text, end: Text, behind: Text)
    requires NamesPeakAt(s, i)
    ensures s == WithPeak(before, gap, digits, end, behind)
    ensures AllSpaces(gap) && digits != [] && AllDigits(digits) && IsLineEnd(end, behind)
    ensures forall k :: 0 <= k < |before| ==> !NamesPeakAt(s, k)
  {
    NamingMatches(s, i);
    var at := FindMatch(s, 0).value;
    NothingNamedBefore(s, at);
    var m, d := at + |MARKER|, DigitsFrom(s, at);
    var e, f := SkipDigits(s, d), MatchEnd(s, at);
    SpacesSkipped(s, m);
    DigitsSkipped(s, d);
    LineEndTaken(s, e);
    CutApart(s, at, d, e, f);
    before, gap, digits, end, behind := s[..at], s[m..d], s[d..e], s[e..f], s[f..];
  }

  lemma {:induction false} DigitsSkipped(s: Text, i: nat)
    requires i <= |s|
    ensures forall k :: i <= k < SkipDigits(s, i) ==> IsDigit(s[k])
    ensures SkipDigits(s, i) < |s| ==> !IsDigit(s[SkipDigits(s, i)])
    decreases |s| - i
  {
    if i < |s| && IsDigit(s[i]) { DigitsSkipped(s, i + 1); }
  }
}
