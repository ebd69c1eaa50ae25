/** What a socket and a reader of the result row see of one execution's output. */
module StreamShape {
  import opened Utf8
  import opened OutputCap
  import opened Sandbox
  import opened OutputLaws
  import StreamSplit
  import MemPeak

  /** The text a client reassembles from the chunks of one source. */
  function Reassembled(chunks: seq<Chunk>, source: Source): Text {
    if chunks == [] then []
    else (if chunks[0].source == source then chunks[0].data else []) + Reassembled(chunks[1..], source)
  }

  lemma {:induction false} ReassembledConcat(a: seq<Chunk>, b: seq<Chunk>, source: Source)
    ensures Reassembled(a + b, source) == Reassembled(a, source) + Reassembled(b, source)
    decreases |a|
  {
    if a == [] {
      assert a + b == b;
    } else {
      ReassembledConcat(a[1..], b, source);
      assert (a + b)[1..] == a[1..] + b;
      var first: Text := if a[0].source == source then a[0].data else [];
      Associative(first, Reassembled(a[1..], source), Reassembled(b, source));
    }
  }

  lemma {:induction false} ReassembledLabels(c: Channel, texts: seq<Text>, source: Source)
    ensures Reassembled(Labelled(c, texts), source) == if c == source then StreamSplit.Joined(texts) else []
    decreases |texts|
  {
    if texts != [] {
      assert Labelled(c, texts)[1..] == Labelled(c, texts[1..]);
      ReassembledLabels(c, texts[1..], source);
    }
  }

  lemma {:induction false} StreamedReassembles(ps: seq<Piece>, c: Channel)
    ensures Reassembled(Streamed(ps), c) == On(ps, c)
  {
    if ps != [] {
      var rest, p := ps[..|ps| - 1], ps[|ps| - 1];
      var texts := StreamSplit.Split(p.text);
      StreamedReassembles(rest, c);
      ReassembledConcat(Streamed(rest), Labelled(p.channel, texts), c);
      ReassembledLabels(p.channel, texts, c);
      StreamSplit.SplitIsLossless(p.text);
    }
  }

  lemma {:induction false} StreamedFits(ps: seq<Piece>)
    requires Sound(ps)
    ensures forall i :: 0 <= i < |Streamed(ps)| ==>
              && !Streamed(ps)[i].source.System? && Streamed(ps)[i].data != []
              && ByteLength(Streamed(ps)[i].data) <= StreamSplit.MAX_STREAM_CHUNK_BYTES
  {
    if ps != [] {
      StreamedFits(ps[..|ps| - 1]);
      StreamSplit.SplitIsSound(ps[|ps| - 1].text);
    }
  }

  lemma {:induction false} PrefixOn(ps: seq<Piece>, k: nat, c: Channel)
    requires k <= |ps|
    ensures On(ps[..k], c) <= On(ps, c)
    decreases |ps|
  {
    if k == |ps| {
      assert ps[..k] == ps;
    } else {
      PrefixOn(ps[..|ps| - 1], k, c);
      assert ps[..|ps| - 1][..k] == ps[..k];
    }
  }

  /** What the stream of one execution shows: every chunk is non-empty and within
      16 KiB; per channel the chunks reassemble to a prefix of what the container
      printed there, all of it unless the limit was hit; the limit notice appears
      exactly when the limit was hit, once and last; and at most 1 MiB is shown. */
  lemma StreamShows(arrivals: seq<Arrival>)
    ensures
      var s := CollectAll(arrivals);
      var shown := if s.exceeded then |s.published| - 1 else |s.published|;
      && shown >= 0
      && (s.exceeded ==> s.published[shown] == LIMIT_CHUNK)
      && (forall i :: 0 <= i < shown ==>
            && !s.published[i].source.System? && s.published[i].data != []
            && ByteLength(s.published[i].data) <= StreamSplit.MAX_STREAM_CHUNK_BYTES)
      && Shows(s, Produced(arrivals))
  {
    var ps := Produced(arrivals);
    var s := CollectAll(arrivals);
    var k := CollectTells(arrivals);
    assert Sound(ps[..k]);
    StreamedFits(ps[..k]);
    ShowsPrefix(s, ps, k);
  }

  predicate Shows(s: State, ps: seq<Piece>) {
    && Reassembled(s.published, Stdout) <= On(ps, Stdout)
    && Reassembled(s.published, Stderr) <= On(ps, Stderr)
    && (!s.exceeded ==> Reassembled(s.published, Stdout) == On(ps, Stdout))
    && (!s.exceeded ==> Reassembled(s.published, Stderr) == On(ps, Stderr))
    && ByteLength(Reassembled(s.published, Stdout)) + ByteLength(Reassembled(s.published, Stderr))
       == s.totalBytes <= MAX_STREAM_OUTPUT_BYTES
  }

  lemma PublishedReassembles(s: State, ps: seq<Piece>, k: nat, c: Channel)
    requires Tells(s, ps, k)
    ensures Reassembled(s.published, c) == On(ps[..k], c)
  {
    StreamedReassembles(ps[..k], c);
    var notice: seq<Chunk> := if k < |ps| then [LIMIT_CHUNK] else [];
    ReassembledConcat(Streamed(ps[..k]), notice, c);
    assert Reassembled([LIMIT_CHUNK], c) == Reassembled([LIMIT_CHUNK][1..], c);
  }

  lemma ShowsPrefix(s: State, ps: seq<Piece>, k: nat)
    requires Tells(s, ps, k) && Sound(ps)
    ensures Shows(s, ps)
  {
    PublishedReassembles(s, ps, k, Stdout);
    PublishedReassembles(s, ps, k, Stderr);
    PrefixOn(ps, k, Stdout);
    PrefixOn(ps, k, Stderr);
    BytesAreShared(ps[..k]);
    assert k == |ps| ==> ps[..k] == ps;
  }

  /** The result row keeps, per channel, the first 64 KiB of what was streamed on
      it; it says truncated exactly when that is not all of it. */
  lemma PersistedIsStreamedPrefix(arrivals: seq<Arrival>)
    ensures
      var s := CollectAll(arrivals);
      && s.stdout == FirstBytes(Reassembled(s.published, Stdout))
      && s.stderr == FirstBytes(Reassembled(s.published, Stderr))
      && (s.truncated <==> Overflows(Reassembled(s.published, Stdout)) || Overflows(Reassembled(s.published, Stderr)))
  {
    var k := CollectTells(arrivals);
    PublishedReassembles(CollectAll(arrivals), Produced(arrivals), k, Stdout);
    PublishedReassembles(CollectAll(arrivals), Produced(arrivals), k, Stderr);
  }

  /** While nothing is marked truncated, the result row holds all that was streamed;
      it never holds more than two bytes above 64 KiB per channel. */
  lemma PersistedBound(arrivals: seq<Arrival>, c: Channel)
    ensures !CollectAll(arrivals).truncated ==>
              Kept(CollectAll(arrivals), c) == Reassembled(CollectAll(arrivals).published, c)
    ensures ByteLength(Kept(CollectAll(arrivals), c)) <= MAX_RESULT_OUTPUT_BYTES + 2
    ensures Overflows(Reassembled(CollectAll(arrivals).published, c)) ==>
              ByteLength(Kept(CollectAll(arrivals), c)) >= MAX_RESULT_OUTPUT_BYTES
  {
    PersistedIsStreamedPrefix(arrivals);
    var k := CollectTells(arrivals);
    PublishedReassembles(CollectAll(arrivals), Produced(arrivals), k, c);
    OnIsWellFormed(Produced(arrivals)[..k], c);
    var n := FirstBytesMeans(On(Produced(arrivals)[..k], c));
  }

  lemma CollectFrozen(s: State, a: Arrival, c: Channel)
    requires ByteLength(Kept(s, c)) >= MAX_RESULT_OUTPUT_BYTES
    ensures Kept(Collect(s, a), c) == Kept(s, c)
  {
    OfferFrozen(Noted(s, Decode(a.data)), a.channel, MemPeak.Strip(Decode(a.data)), c);
  }

  lemma OfferFrozen(s: State, from: Channel, text: Text, c: Channel)
    requires ByteLength(Kept(s, c)) >= MAX_RESULT_OUTPUT_BYTES
    ensures Kept(Offer(s, from, text), c) == Kept(s, c)
  {
  }

  lemma LastBehind(arrivals: seq<Arrival>, more: seq<Arrival>)
    requires more != []
    ensures arrivals + more[..|more| - 1] + [more[|more| - 1]] == arrivals + more
  {
  }

  lemma CollectAllSnoc(arrivals: seq<Arrival>, a: Arrival)
    ensures CollectAll(arrivals + [a]) == Collect(CollectAll(arrivals), a)
  {
    assert (arrivals + [a])[..|arrivals|] == arrivals;
  }

  /** An accumulator that has reached the cap is never touched again. */
  lemma {:induction false} FullIsFrozen(arrivals: seq<Arrival>, more: seq<Arrival>, c: Channel)
    requires ByteLength(Kept(CollectAll(arrivals), c)) >= MAX_RESULT_OUTPUT_BYTES
    ensures Kept(CollectAll(arrivals + more), c) == Kept(CollectAll(arrivals), c)
    decreases |more|
  {
    if more == [] {
      assert arrivals + more == arrivals;
    } else {
      var so, last := arrivals + more[..|more| - 1], more[|more| - 1];
      FullIsFrozen(arrivals, more[..|more| - 1], c);
      LastBehind(arrivals, more);
      CollectAllSnoc(so, last);
      CollectFrozen(CollectAll(so), last, c);
    }
  }
}
