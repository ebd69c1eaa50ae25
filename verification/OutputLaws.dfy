/** What a whole execution's output amounts to, for every sequence of chunks. */
module OutputLaws {
  import opened Contracts
  import opened Utf8
  import opened OutputCap
  import opened Sandbox
  import StreamSplit
  import MemPeak
  import RedisList

  /** A non-empty text that arrived on one channel. */
  datatype Piece = Piece(channel: Channel, text: Text)

  function PieceOf(a: Arrival): seq<Piece> {
    var text := MemPeak.Strip(Decode(a.data));
    if text == [] then [] else [Piece(a.channel, text)]
  }

  /** Everything the container printed. */
  function Produced(arrivals: seq<Arrival>): seq<Piece> {
    if arrivals == [] then []
    else Produced(arrivals[..|arrivals| - 1]) + PieceOf(arrivals[|arrivals| - 1])
  }

  function TotalBytes(ps: seq<Piece>): nat {
    if ps == [] then 0 else TotalBytes(ps[..|ps| - 1]) + ByteLength(ps[|ps| - 1].text)
  }

  /** The text of one channel. */
  function On(ps: seq<Piece>, c: Channel): Text {
    if ps == [] then []
    else if ps[|ps| - 1].channel == c then On(ps[..|ps| - 1], c) + ps[|ps| - 1].text
    else On(ps[..|ps| - 1], c)
  }

  function Streamed(ps: seq<Piece>): seq<Chunk> {
    if ps == [] then []
    else Streamed(ps[..|ps| - 1]) + Labelled(ps[|ps| - 1].channel, StreamSplit.Split(ps[|ps| - 1].text))
  }

  predicate Sound(ps: seq<Piece>) {
    forall i :: 0 <= i < |ps| ==> ps[i].text != [] && WellFormed(ps[i].text)
  }

  lemma Snoc(ps: seq<Piece>, p: Piece)
    ensures TotalBytes(ps + [p]) == TotalBytes(ps) + ByteLength(p.text)
    ensures On(ps + [p], p.channel) == On(ps, p.channel) + p.text
    ensures forall c: Channel :: c != p.channel ==> On(ps + [p], c) == On(ps, c)
    ensures Streamed(ps + [p]) == Streamed(ps) + Labelled(p.channel, StreamSplit.Split(p.text))
  {
    assert (ps + [p])[..|ps|] == ps;
  }

  lemma {:induction false} ProducedIsSound(arrivals: seq<Arrival>)
    ensures Sound(Produced(arrivals))
  {
    if arrivals != [] {
      var last := arrivals[|arrivals| - 1];
      ProducedIsSound(arrivals[..|arrivals| - 1]);
      DecodeIsWellFormed(last.data);
      MemPeak.StripKeepsWellFormed(Decode(last.data));
    }
  }

  lemma {:induction false} OnIsWellFormed(ps: seq<Piece>, c: Channel)
    requires Sound(ps)
    ensures WellFormed(On(ps, c))
  {
    if ps != [] {
      OnIsWellFormed(ps[..|ps| - 1], c);
      WellFormedConcat(On(ps[..|ps| - 1], c), ps[|ps| - 1].text);
    }
  }

  /** The two channels share the streamed bytes between them. */
  lemma {:induction false} BytesAreShared(ps: seq<Piece>)
    requires Sound(ps)
    ensures TotalBytes(ps) == ByteLength(On(ps, Stdout)) + ByteLength(On(ps, Stderr))
  {
    if ps != [] {
      var rest, p := ps[..|ps| - 1], ps[|ps| - 1];
      BytesAreShared(rest);
      OnIsWellFormed(rest, p.channel);
      EncodeConcat(On(rest, p.channel), p.text);
    }
  }

  /** ps has been accepted, and nothing else. */
  predicate Holds(s: State, ps: seq<Piece>) {
    && s.totalBytes == TotalBytes(ps) <= MAX_STREAM_OUTPUT_BYTES
    && s.stdout == FirstBytes(On(ps, Stdout))
    && s.stderr == FirstBytes(On(ps, Stderr))
    && (s.truncated <==> Overflows(On(ps, Stdout)) || Overflows(On(ps, Stderr)))
  }

  /** The first k of the produced pieces were accepted: they are the longest prefix
      within 1 MiB. They were streamed in order, followed by the notice exactly if a
      piece was refused; each channel keeps the first 64 KiB of what was accepted on
      it; and output counts as truncated exactly if a channel had more than that. */
  predicate Tells(s: State, ps: seq<Piece>, k: nat) {
    && k <= |ps| && Holds(s, ps[..k])
    && (s.exceeded <==> k < |ps|)
    && (k < |ps| ==> TotalBytes(ps[..k + 1]) > MAX_STREAM_OUTPUT_BYTES)
    && s.published == Streamed(ps[..k]) + (if k < |ps| then [LIMIT_CHUNK] else [])
  }

  lemma OverflowGrows(all: Text, next: Text)
    requires WellFormed(all)
    ensures Overflows(all) ==> Overflows(all + next)
  {
    EncodeConcat(all, next);
  }

  lemma OfferAccepts(s: State, ps: seq<Piece>, p: Piece)
    requires Sound(ps + [p]) && Holds(s, ps)
    requires TotalBytes(ps) + ByteLength(p.text) <= MAX_STREAM_OUTPUT_BYTES
    ensures Holds(Offer(s, p.channel, p.text), ps + [p])
  {
    assert (ps + [p])[|ps|] == p;
    assert Sound(ps) by {
      forall i | 0 <= i < |ps| ensures ps[i].text != [] && WellFormed(ps[i].text) { assert ps[i] == (ps + [p])[i]; }
    }
    Snoc(ps, p);
    OnIsWellFormed(ps, p.channel);
    AppendRefinesFirstBytes(On(ps, p.channel), p.text);
    OverflowGrows(On(ps, p.channel), p.text);
  }

  lemma RefusedStays(s: State, ps: seq<Piece>, k: nat, more: seq<Piece>)
    requires Tells(s, ps, k) && s.exceeded
    ensures Tells(s, ps + more, k)
  {
    assert (ps + more)[..k] == ps[..k] && (ps + more)[..k + 1] == ps[..k + 1];
  }

  lemma Ends(ps: seq<Piece>, p: Piece)
    ensures ps[..|ps|] == ps && (ps + [p])[..|ps|] == ps && (ps + [p])[..|ps| + 1] == ps + [p]
    ensures (ps + [p])[|ps|] == p
  {
  }

  predicate Fits(ps: seq<Piece>, p: Piece) {
    TotalBytes(ps) + ByteLength(p.text) <= MAX_STREAM_OUTPUT_BYTES
  }

  lemma OfferPublishes(s: State, ps: seq<Piece>, p: Piece)
    requires s.totalBytes == TotalBytes(ps) && p.text != []
    ensures Fits(ps, p) ==>
              && Offer(s, p.channel, p.text).exceeded == s.exceeded
              && Offer(s, p.channel, p.text).published ==
                   s.published + Labelled(p.channel, StreamSplit.Split(p.text))
    ensures !Fits(ps, p) ==>
              Offer(s, p.channel, p.text) == s.(exceeded := true, published := s.published + [LIMIT_CHUNK])
  {
  }

  lemma OfferFits(s: State, ps: seq<Piece>, p: Piece)
    requires Tells(s, ps, |ps|) && Sound(ps + [p]) && Fits(ps, p) && p.text != []
    ensures Tells(Offer(s, p.channel, p.text), ps + [p], |ps| + 1)
  {
    TellsAll(s, ps);
    OfferPublishes(s, ps, p);
    OfferAccepts(s, ps, p);
    AcceptedTells(s, Offer(s, p.channel, p.text), ps, p);
  }

  lemma OfferRefused(s: State, ps: seq<Piece>, p: Piece)
    requires Tells(s, ps, |ps|) && !Fits(ps, p) && p.text != []
    ensures Tells(Offer(s, p.channel, p.text), ps + [p], |ps|)
  {
    TellsAll(s, ps);
    OfferPublishes(s, ps, p);
    RefusedTells(s, Offer(s, p.channel, p.text), ps, p);
  }

  lemma OfferTells(s: State, ps: seq<Piece>, p: Piece)
    requires Tells(s, ps, |ps|) && Sound(ps + [p])
    ensures Tells(Offer(s, p.channel, p.text), ps + [p], |ps| + RedisList.One(Fits(ps, p)))
  {
    Ends(ps, p);
    assert (ps + [p])[|ps|].text != [];
    if Fits(ps, p) { OfferFits(s, ps, p); } else { OfferRefused(s, ps, p); }
  }

  /** Nothing has been refused yet. */
  lemma TellsAll(s: State, ps: seq<Piece>)
    ensures Tells(s, ps, |ps|) <==> Holds(s, ps) && !s.exceeded && s.published == Streamed(ps)
  {
    assert ps[..|ps|] == ps;
    assert Streamed(ps) + [] == Streamed(ps);
  }

  lemma AcceptedTells(s: State, t: State, ps: seq<Piece>, p: Piece)
    requires Tells(s, ps, |ps|) && Holds(t, ps + [p]) && t.exceeded == s.exceeded
    requires t.published == s.published + Labelled(p.channel, StreamSplit.Split(p.text))
    ensures Tells(t, ps + [p], |ps| + 1)
  {
    TellsAll(s, ps);
    Snoc(ps, p);
    TellsAll(t, ps + [p]);
  }

  lemma RefusedTells(s: State, t: State, ps: seq<Piece>, p: Piece)
    requires Tells(s, ps, |ps|) && !Fits(ps, p)
    requires t == s.(exceeded := true, published := s.published + [LIMIT_CHUNK])
    ensures Tells(t, ps + [p], |ps|)
  {
    Ends(ps, p);
    Snoc(ps, p);
  }

  lemma NotedTells(s: State, raw: Text, ps: seq<Piece>, k: nat)
    requires Tells(s, ps, k)
    ensures Tells(Noted(s, raw), ps, k) && Noted(s, raw).exceeded == s.exceeded
  {
  }

  lemma CollectMeans(s: State, a: Arrival)
    requires !s.exceeded
    ensures PieceOf(a) == [] ==> Collect(s, a) == Noted(s, Decode(a.data))
    ensures |PieceOf(a)| <= 1
    ensures PieceOf(a) != [] ==>
              Collect(s, a) == Offer(Noted(s, Decode(a.data)), PieceOf(a)[0].channel, PieceOf(a)[0].text)
  {
  }

  lemma CollectKeepsTelling(s: State, ps: seq<Piece>, k: nat, a: Arrival) returns (n: nat)
    requires Tells(s, ps, k) && Sound(ps + PieceOf(a))
    ensures Tells(Collect(s, a), ps + PieceOf(a), n)
  {
    n := k;
    if s.exceeded {
      RefusedStays(s, ps, k, PieceOf(a));
    } else {
      CollectMeans(s, a);
      NotedTells(s, Decode(a.data), ps, k);
      n := NextTells(Noted(s, Decode(a.data)), ps, PieceOf(a));
    }
  }

  /** At most one piece arrives at a time. */
  lemma NextTells(s: State, ps: seq<Piece>, more: seq<Piece>) returns (n: nat)
    requires Tells(s, ps, |ps|) && Sound(ps + more) && |more| <= 1
    ensures Tells(if more == [] then s else Offer(s, more[0].channel, more[0].text), ps + more, n)
  {
    if more == [] {
      n := |ps|;
      assert ps + more == ps;
    } else {
      var p := more[0];
      assert more == [p];
      n := |ps| + RedisList.One(Fits(ps, p));
      OfferTells(s, ps, p);
    }
  }

  lemma {:induction false} CollectTells(arrivals: seq<Arrival>) returns (k: nat)
    ensures Tells(CollectAll(arrivals), Produced(arrivals), k)
    ensures Sound(Produced(arrivals))
  {
    ProducedIsSound(arrivals);
    k := 0;
    if arrivals == [] {
      assert Produced(arrivals)[..0] == [];
    } else {
      k := CollectTells(arrivals[..|arrivals| - 1]);
      k := CollectKeepsTelling(CollectAll(arrivals[..|arrivals| - 1]), Produced(arrivals[..|arrivals| - 1]), k,
        arrivals[|arrivals| - 1]);
    }
  }
}
