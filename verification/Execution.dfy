/** The Redis stream of one execution: chunks are appended by a chain of promises in
    the order they were handed over, runInSandbox awaits the chain before it
    resolves, and the worker appends the completion marker after its commit. */
module Execution {
  import opened Contracts
  import opened Utf8
  import opened Sandbox
  import StreamShape

  const COMPLETE := Chunk(System, Ascii("EXECUTION_COMPLETE"))

  /** What reaches the stream if the i-th XADD fails exactly when fails(i); a failure
      is logged and the chain goes on. */
  function Appended(chunks: seq<Chunk>, fails: nat -> bool): seq<Chunk> {
    if chunks == [] then []
    else if fails(|chunks| - 1) then Appended(chunks[..|chunks| - 1], fails)
    else Appended(chunks[..|chunks| - 1], fails) + [chunks[|chunks| - 1]]
  }

  /** Awaiting the publish queue. */
  method Drain(c: Collector, fails: nat -> bool) returns (stream: seq<Chunk>)
    ensures stream == Appended(c.publishQueue, fails)
  {
    stream := [];
    for i := 0 to |c.publishQueue|
      invariant stream == Appended(c.publishQueue[..i], fails)
    {
      assert c.publishQueue[..i + 1][..i] == c.publishQueue[..i];
      if !fails(i) { stream := stream + [c.publishQueue[i]]; }
    }
    assert c.publishQueue[..|c.publishQueue|] == c.publishQueue;
  }

  /** How the result transaction and the acknowledgement turn out; after a failure of
      either, the retry takes over and nothing is announced. */
  datatype Settlement = Settlement(committed: bool, acknowledged: bool)

  /** runInSandbox, then commit, acknowledgement and announcement. The timer may fire
      after any number of chunks; it does not touch what is collected. */
  method ExecuteAndAnnounce(arrivals: seq<Arrival>, timeoutAfter: Option<nat>, code: Option<int>,
      settlement: Settlement, fails: nat -> bool)
    returns (stream: seq<Chunk>, state: State, report: SandboxReport)
    requires timeoutAfter.Some? ==> timeoutAfter.value <= |arrivals|
    ensures state == CollectAll(arrivals)
    ensures report == Report(state, timeoutAfter.Some?, code)
    ensures stream ==
            Appended(state.published, fails) +
            (if settlement.committed && settlement.acknowledged && !fails(|state.published|) then [COMPLETE] else [])
  {
    var c := new Collector();
    for n := 0 to |arrivals|
      invariant c.Snapshot() == CollectAll(arrivals[..n])
      invariant c.timedOut <==> timeoutAfter.Some? && timeoutAfter.value < n
      invariant fresh(c)
    {
      if timeoutAfter == Some(n) { c.OnTimeout(); }
      assert arrivals[..n + 1][..n] == arrivals[..n];
      c.OnData(arrivals[n].channel, arrivals[n].data);
    }
    assert arrivals[..|arrivals|] == arrivals;
    if timeoutAfter == Some(|arrivals|) { c.OnTimeout(); }
    report := c.OnClose(code);
    stream := Drain(c, fails);
    state := c.Snapshot();
    if settlement.committed {
      if settlement.acknowledged {
        if !fails(|state.published|) { stream := stream + [COMPLETE]; }
      }
    }
  }

  lemma {:induction false} WithoutFailures(chunks: seq<Chunk>, fails: nat -> bool)
    requires forall i: nat :: i < |chunks| ==> !fails(i)
    ensures Appended(chunks, fails) == chunks
    decreases |chunks|
  {
    if chunks != [] { WithoutFailures(chunks[..|chunks| - 1], fails); }
  }

  /** How many of the first i appends succeed. */
  function Successes(i: nat, fails: nat -> bool): nat {
    if i == 0 then 0 else Successes(i - 1, fails) + (if fails(i - 1) then 0 else 1)
  }

  lemma {:induction false} AppendedCount(chunks: seq<Chunk>, fails: nat -> bool)
    ensures |Appended(chunks, fails)| == Successes(|chunks|, fails)
    decreases |chunks|
  {
    if chunks != [] { AppendedCount(chunks[..|chunks| - 1], fails); }
  }

  /** Exactly which chunks the stream has, and where: the chain goes on after a
      failure, so each chunk whose own append succeeds is there, right behind those
      that succeeded before it. */
  lemma {:induction false} AppendedExactly(chunks: seq<Chunk>, fails: nat -> bool, i: nat)
    requires i < |chunks| && !fails(i)
    ensures Successes(i, fails) < |Appended(chunks, fails)| == Successes(|chunks|, fails)
    ensures Appended(chunks, fails)[Successes(i, fails)] == chunks[i]
    decreases |chunks|
  {
    var front := chunks[..|chunks| - 1];
    AppendedCount(chunks, fails);
    AppendedCount(front, fails);
    if i < |front| { AppendedExactly(front, fails, i); }
  }

  /** a is b with some elements left out. */
  predicate IsSubsequence<T(==)>(a: seq<T>, b: seq<T>)
    decreases |b|
  {
    if b == [] then a == []
    else
      || IsSubsequence(a, b[..|b| - 1])
      || (a != [] && a[|a| - 1] == b[|b| - 1] && IsSubsequence(a[..|a| - 1], b[..|b| - 1]))
  }

  /** Failed appends leave gaps but never reorder, repeat or invent anything. */
  lemma {:induction false} FailuresOnlyDrop(chunks: seq<Chunk>, fails: nat -> bool)
    ensures IsSubsequence(Appended(chunks, fails), chunks)
    decreases |chunks|
  {
    if chunks != [] {
      FailuresOnlyDrop(chunks[..|chunks| - 1], fails);
      var a := Appended(chunks, fails);
      assert !fails(|chunks| - 1) ==> a[..|a| - 1] == Appended(chunks[..|chunks| - 1], fails);
    }
  }

  lemma NoticeIsNotCompletion()
    ensures LIMIT_CHUNK != COMPLETE
  {
    assert |LIMIT_NOTICE| != |COMPLETE.data|;
  }

  /** The only system chunk the sandbox hands over is the limit notice, and it is last. */
  lemma SystemIsNotice(arrivals: seq<Arrival>, i: nat)
    requires i < |CollectAll(arrivals).published| && CollectAll(arrivals).published[i].source.System?
    ensures i == |CollectAll(arrivals).published| - 1 && CollectAll(arrivals).exceeded
    ensures CollectAll(arrivals).published[i] == LIMIT_CHUNK
  {
    StreamShape.StreamShows(arrivals);
  }

  /** The completion marker is the last entry of an execution's stream and occurs
      nowhere else, whatever the program prints; the limit notice, if there is one,
      is right before it. */
  lemma CompletionIsLast(arrivals: seq<Arrival>, i: nat)
    requires i < |CollectAll(arrivals).published|
    ensures CollectAll(arrivals).published[i] != COMPLETE
    ensures CollectAll(arrivals).published[i].source.System? ==>
              i == |CollectAll(arrivals).published| - 1 && CollectAll(arrivals).exceeded
  {
    var chunk := CollectAll(arrivals).published[i];
    assert COMPLETE.source.System?;
    if chunk.source.System? {
      SystemIsNotice(arrivals, i);
      NoticeIsNotCompletion();
    }
  }
}
