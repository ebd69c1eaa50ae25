/** How the stream limit and the result caps interact, and what they make of the
    verdict. */
module OutputLimits {
  import opened Contracts
  import opened Utf8
  import opened OutputCap
  import opened Sandbox
  import opened OutputLaws
  import MemPeak

  const HARMLESS: nat := MAX_STREAM_OUTPUT_BYTES - 2 * MAX_RESULT_OUTPUT_BYTES

  predicate SmallPieces(arrivals: seq<Arrival>, size: nat) {
    forall i :: 0 <= i < |Produced(arrivals)| ==> ByteLength(Produced(arrivals)[i].text) <= size
  }

  /** If no chunk is larger than 1 MiB less 128 KiB, hitting the stream limit always
      means that the persisted output was truncated as well, however the two
      channels interleave. */
  lemma ExceededMeansTruncated(arrivals: seq<Arrival>)
    requires SmallPieces(arrivals, HARMLESS) && CollectAll(arrivals).exceeded
    ensures CollectAll(arrivals).truncated
  {
    var k := CollectTells(arrivals);
    RefusedMeansTruncated(CollectAll(arrivals), Produced(arrivals), k);
  }

  /** The accepted bytes, channel by channel, and those of the refused piece. */
  lemma RefusalBytes(ps: seq<Piece>, k: nat)
    requires Sound(ps) && k < |ps|
    ensures TotalBytes(ps[..k + 1]) ==
            ByteLength(On(ps[..k], Stdout)) + ByteLength(On(ps[..k], Stderr)) + ByteLength(ps[k].text)
  {
    assert ps[..k + 1] == ps[..k] + [ps[k]];
    Snoc(ps[..k], ps[k]);
    BytesAreShared(ps[..k]);
  }

  lemma RefusedMeansTruncated(s: State, ps: seq<Piece>, k: nat)
    requires Tells(s, ps, k) && k < |ps| && Sound(ps) && ByteLength(ps[k].text) <= HARMLESS
    ensures s.truncated
  {
    RefusalBytes(ps, k);
  }

  // ── and the bound is the best possible ───────────────────────────────────

  function Letters(n: nat): (s: seq<Byte>)
    ensures |s| == n && forall i :: 0 <= i < n ==> s[i] == 0x61
  {
    seq(n, i => 0x61)
  }

  lemma {:induction false} LettersEncode(t: Text)
    requires forall i :: 0 <= i < |t| ==> t[i] == 0x61
    ensures Encode(t) == Letters(|t|) && Decode(Letters(|t|)) == t && WellFormed(t)
    decreases |t|
  {
    if t != [] {
      LettersEncode(t[1..]);
      assert Letters(|t|) == [0x61] + Letters(|t| - 1);
      assert Letters(|t|)[1..] == Letters(|t| - 1);
    }
  }

  lemma LettersPass(n: nat, c: Channel)
    requires n > 0
    ensures PieceOf(Arrival(c, Letters(n))) == [Piece(c, Letters(n))] && ByteLength(Letters(n)) == n
  {
    var t: Text := Letters(n);
    LettersEncode(t);
    forall i: nat
      ensures !MemPeak.MatchesAt(t, i)
    {
      if i + |MemPeak.MARKER| <= |t| { assert t[i..i + |MemPeak.MARKER|][0] == t[i]; }
    }
  }

  function Burst(c: Channel, n: nat): Arrival {
    Arrival(c, Letters(n))
  }

  /** One byte more, and the stream limit can be hit with both persisted outputs
      complete. */
  lemma HarmlessIsBest() returns (arrivals: seq<Arrival>)
    ensures SmallPieces(arrivals, HARMLESS + 1)
    ensures CollectAll(arrivals).exceeded && !CollectAll(arrivals).truncated
  {
    var n, m := MAX_RESULT_OUTPUT_BYTES, HARMLESS + 1;
    arrivals := [Burst(Stdout, n), Burst(Stderr, n), Burst(Stdout, m)];
    BurstsProduce(n, m);
    ThirdRefused(arrivals, Piece(Stdout, Letters(n)), Piece(Stderr, Letters(n)), Piece(Stdout, Letters(m)));
  }

  lemma BurstsProduce(n: nat, m: nat)
    requires n > 0 && m > 0
    ensures Produced([Burst(Stdout, n), Burst(Stderr, n), Burst(Stdout, m)]) ==
            [Piece(Stdout, Letters(n)), Piece(Stderr, Letters(n)), Piece(Stdout, Letters(m))]
    ensures ByteLength(Letters(n)) == n && ByteLength(Letters(m)) == m
  {
    LettersPass(n, Stdout);
    LettersPass(n, Stderr);
    LettersPass(m, Stdout);
    ProducedByThree(Burst(Stdout, n), Burst(Stderr, n), Burst(Stdout, m),
      Piece(Stdout, Letters(n)), Piece(Stderr, Letters(n)), Piece(Stdout, Letters(m)));
  }

  lemma ProducedByThree(a: Arrival, b: Arrival, c: Arrival, p: Piece, q: Piece, r: Piece)
    requires PieceOf(a) == [p] && PieceOf(b) == [q] && PieceOf(c) == [r]
    ensures Produced([a, b, c]) == [p, q, r]
  {
    assert [a, b, c][..2] == [a, b] && [a, b][..1] == [a] && [a][..0] == [];
    assert Produced([a]) == Produced([]) + PieceOf(a);
  }

  lemma ThirdRefused(arrivals: seq<Arrival>, p: Piece, q: Piece, r: Piece)
    requires Produced(arrivals) == [p, q, r] && p.channel.Stdout? && q.channel.Stderr?
    requires ByteLength(p.text) == MAX_RESULT_OUTPUT_BYTES == ByteLength(q.text)
    requires ByteLength(r.text) == HARMLESS + 1
    ensures SmallPieces(arrivals, HARMLESS + 1)
    ensures CollectAll(arrivals).exceeded && !CollectAll(arrivals).truncated
  {
    var k := CollectTells(arrivals);
    ThreeAmount(p, q, r);
    ThirdIsTooMuch(p, q, r, CollectAll(arrivals), k);
    forall i | 0 <= i < |Produced(arrivals)|
      ensures ByteLength(Produced(arrivals)[i].text) <= HARMLESS + 1
    {
      assert i == 0 || i == 1 || i == 2;
    }
  }

  /** What the first one, two and three pieces amount to. */
  lemma ThreeAmount(p: Piece, q: Piece, r: Piece)
    requires p.channel.Stdout? && q.channel.Stderr?
    ensures TotalBytes([p]) == ByteLength(p.text) && TotalBytes([p, q]) == TotalBytes([p]) + ByteLength(q.text)
    ensures TotalBytes([p, q, r]) == TotalBytes([p, q]) + ByteLength(r.text)
    ensures On([p, q], Stdout) == p.text && On([p, q], Stderr) == q.text
  {
    Snoc([], p);
    Snoc([p], q);
    Snoc([p, q], r);
    assert [] + [p] == [p] && [p] + [q] == [p, q] && [p, q] + [r] == [p, q, r];
  }

  lemma ThirdIsTooMuch(p: Piece, q: Piece, r: Piece, s: State, k: nat)
    requires TotalBytes([p]) == MAX_RESULT_OUTPUT_BYTES && TotalBytes([p, q]) == 2 * MAX_RESULT_OUTPUT_BYTES
    requires TotalBytes([p, q, r]) == MAX_STREAM_OUTPUT_BYTES + 1
    requires !Overflows(On([p, q], Stdout)) && !Overflows(On([p, q], Stderr)) && Tells(s, [p, q, r], k)
    ensures s.exceeded && !s.truncated
  {
    var ps := [p, q, r];
    assert ps[..1] == [p] && ps[..2] == [p, q] && ps[..3] == ps;
    assert k == 2;
  }

  /** The verdict says why a job ended, each cause exactly: a timeout outranks the
      stream limit, which outranks a kill for memory, which outranks the exit code;
      and among failures of the program itself, one whose persisted stderr names a
      parser's error is a syntax error. */
  lemma VerdictMeans(r: SandboxReport)
    ensures
      var v := Judge(r);
      var failed := !r.timedOut && !r.streamOutputLimitExceeded && !r.oomKilled && r.exitCode != Some(0);
      var named := (exists i :: 0 <= i <= |r.stderr| && OccursAt(r.stderr, i, Ascii("SyntaxError")))
        || (exists i :: 0 <= i <= |r.stderr| && OccursAt(r.stderr, i, Ascii("IndentationError")));
      && (v.status.TimedOut? <==> r.timedOut)
      && (v.category == Some(Timeout) <==> r.timedOut)
      && (v.category == Some(Oom) <==> r.oomKilled && !r.timedOut && !r.streamOutputLimitExceeded)
      && (v.category == Some(SyntaxError) <==> failed && named)
      && (v.category == Some(RuntimeError) <==>
            (r.streamOutputLimitExceeded && !r.timedOut) || (failed && !named))
      && (v.category == None <==> v.status.Completed?)
      && v.category != Some(WorkerCrash) && v.category != Some(Unknown)
      && Agrees(v.status, Some(v.category)) && IsTerminal(v.status)
  {
  }

  /** The same of what the sandbox saw: exit code 137 is out of memory exactly if neither
      the timer nor the stream limit killed the container, a job completes exactly with
      exit code 0, in time and within the limit, and the persisted stderr decides what
      kind of failure any other code is. */
  lemma ReportMeans(s: State, timedOut: bool, code: Option<int>)
    ensures
      var v := Judge(Report(s, timedOut, code));
      && (v.status.TimedOut? <==> timedOut)
      && (v.category == Some(Oom) <==> code == Some(137) && !timedOut && !s.exceeded)
      && (v.status.Completed? <==> code == Some(0) && !timedOut && !s.exceeded)
      && (s.exceeded && !timedOut ==> v == Verdict(Failed, Some(RuntimeError)))
      && (v.category == Some(SyntaxError) <==>
            !timedOut && !s.exceeded && code != Some(0) && code != Some(137) && NamesSyntaxError(s.stderr))
  {
  }
}
