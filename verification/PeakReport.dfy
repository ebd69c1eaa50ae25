/** What becomes of the memory-peak line: it is not printed, and the peak that is
    reported is the one named last. */
module PeakReport {
  import opened Contracts
  import opened Utf8
  import opened Sandbox
  import opened OutputLaws
  import MemPeak

  /** The peak this chunk names. */
  function PeakOf(a: Arrival): Option<Text> {
    MemPeak.Peak(Decode(a.data))
  }

  /** Of a chunk with a peak line, everything before and behind that line is printed. */
  lemma PeakLineIsNotPrinted(a: Arrival, before: Text, gap: Text, digits: Text, end: Text, behind: Text)
    requires Decode(a.data) == MemPeak.WithPeak(before, gap, digits, end, behind)
    requires MemPeak.AllSpaces(gap) && digits != [] && MemPeak.AllDigits(digits) && MemPeak.IsLineEnd(end, behind)
    requires forall i :: 0 <= i < |before| ==> !MemPeak.NamesPeakAt(Decode(a.data), i)
    ensures PieceOf(a) == if before + behind == [] then [] else [Piece(a.channel, before + behind)]
    ensures PeakOf(a) == Some(digits)
  {
    MemPeak.StripCutsLine(before, gap, digits, end, behind);
  }

  /** Of any other chunk, everything. */
  lemma OthersArePrinted(a: Arrival)
    requires forall i: nat :: !MemPeak.NamesPeakAt(Decode(a.data), i)
    ensures PieceOf(a) == if Decode(a.data) == [] then [] else [Piece(a.channel, Decode(a.data))]
    ensures PeakOf(a) == None
  {
    MemPeak.StripKeepsRest(Decode(a.data));
  }

  /** Chunk i arrives before the limit is hit, or hits it, and names a peak. */
  predicate NotesPeak(arrivals: seq<Arrival>, i: nat) {
    i < |arrivals| && !CollectAll(arrivals[..i]).exceeded && PeakOf(arrivals[i]).Some?
  }

  lemma CollectPeak(s: State, a: Arrival)
    ensures Collect(s, a).peak == if !s.exceeded && PeakOf(a).Some? then PeakOf(a) else s.peak
  {
    OfferKeepsPeak(Noted(s, Decode(a.data)), a.channel, MemPeak.Strip(Decode(a.data)));
  }

  /** The peak after the first n chunks. */
  function PeakAfter(arrivals: seq<Arrival>, n: nat): Option<Text>
    requires n <= |arrivals|
  {
    CollectAll(arrivals[..n]).peak
  }

  /** Each chunk sets the peak or leaves it. */
  lemma PeakStep(arrivals: seq<Arrival>, n: nat)
    requires n < |arrivals|
    ensures NotesPeak(arrivals, n) ==> PeakAfter(arrivals, n + 1) == PeakOf(arrivals[n])
    ensures !NotesPeak(arrivals, n) ==> PeakAfter(arrivals, n + 1) == PeakAfter(arrivals, n)
  {
    assert arrivals[..n + 1][..n] == arrivals[..n];
    CollectPeak(CollectAll(arrivals[..n]), arrivals[n]);
  }

  lemma {:induction false} PeakKept(arrivals: seq<Arrival>, i: nat, n: nat)
    requires i <= n <= |arrivals| && forall k :: i <= k < n ==> !NotesPeak(arrivals, k)
    ensures PeakAfter(arrivals, n) == PeakAfter(arrivals, i)
    decreases n
  {
    if i < n {
      PeakKept(arrivals, i, n - 1);
      PeakStep(arrivals, n - 1);
    }
  }

  /** The reported memory peak is the one named last before the output was cut off;
      the chunk that exceeds the limit still counts. */
  lemma PeakIsLastNoted(arrivals: seq<Arrival>, i: nat)
    requires NotesPeak(arrivals, i) && forall k :: i < k < |arrivals| ==> !NotesPeak(arrivals, k)
    ensures CollectAll(arrivals).peak == PeakOf(arrivals[i])
  {
    PeakStep(arrivals, i);
    PeakKept(arrivals, i + 1, |arrivals|);
    assert arrivals[..|arrivals|] == arrivals;
  }

  lemma NoPeakNoted(arrivals: seq<Arrival>)
    requires forall k :: 0 <= k < |arrivals| ==> !NotesPeak(arrivals, k)
    ensures CollectAll(arrivals).peak == None
  {
    PeakKept(arrivals, 0, |arrivals|);
    assert arrivals[..|arrivals|] == arrivals && arrivals[..0] == [];
  }

  lemma OfferKeepsPeak(s: State, c: Channel, text: Text)
    ensures Offer(s, c, text).peak == s.peak
  {
  }
}
