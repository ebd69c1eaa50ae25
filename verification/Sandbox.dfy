/** runInSandbox as a stateful fold over arbitrary stdout and stderr chunks. */
module Sandbox {
  import opened Contracts
  import opened Utf8
  import opened OutputCap
  import StreamSplit
  import MemPeak

  const MAX_STREAM_OUTPUT_BYTES: nat := 1024 * 1024

  datatype Source = Stdout | Stderr | System

  type Channel = c: Source | !c.System? witness Stdout

  /** A stream chunk without its timestamp. */
  datatype Chunk = Chunk(source: Source, data: Text)

  /** One 'data' event of the container's stdout or stderr. */
  datatype Arrival = Arrival(channel: Channel, data: Bytes)

  const LIMIT_NOTICE: Text := Ascii("OUTPUT_LIMIT_EXCEEDED: container killed after exceeding 1 MB stream output cap")

  const LIMIT_CHUNK := Chunk(System, LIMIT_NOTICE)

  /** The variables runInSandbox captures; published is what was handed to the
      publish queue, in order. */
  datatype State = State(
    stdout: Text,
    stderr: Text,
    totalBytes: nat,
    exceeded: bool,
    truncated: bool,
    peak: Option<Text>,
    published: seq<Chunk>)

  const FRESH := State([], [], 0, false, false, None, [])

  function Kept(s: State, c: Channel): Text {
    if c.Stdout? then s.stdout else s.stderr
  }

  function Keep(s: State, c: Channel, value: Text): State {
    if c.Stdout? then s.(stdout := value) else s.(stderr := value)
  }

  function Labelled(c: Channel, texts: seq<Text>): seq<Chunk> {
    seq(|texts|, i requires 0 <= i < |texts| => Chunk(c, texts[i]))
  }

  /** handleOutput, up to the memory-peak line. */
  function Collect(s: State, a: Arrival): State {
    if s.exceeded then s else Offer(Noted(s, Decode(a.data)), a.channel, MemPeak.Strip(Decode(a.data)))
  }

  /** The memory peak, if this text names one. */
  function Noted(s: State, raw: Text): State {
    if MemPeak.Peak(raw).Some? then s.(peak := MemPeak.Peak(raw)) else s
  }

  /** The rest of handleOutput, on the text that remains. */
  function Offer(s: State, c: Channel, text: Text): State {
    if text == [] then s
    else if s.totalBytes + ByteLength(text) > MAX_STREAM_OUTPUT_BYTES then
      s.(exceeded := true, published := s.published + [LIMIT_CHUNK])
    else
      var capped := AppendWithinCap(Kept(s, c), text);
      Keep(s.(totalBytes := s.totalBytes + ByteLength(text),
              published := s.published + Labelled(c, StreamSplit.Split(text)),
              truncated := s.truncated || capped.truncated),
           c, capped.value)
  }

  function CollectAll(arrivals: seq<Arrival>): State {
    if arrivals == [] then FRESH
    else Collect(CollectAll(arrivals[..|arrivals| - 1]), arrivals[|arrivals| - 1])
  }

  class Collector {
    var stdoutAccumulator: Text
    var stderrAccumulator: Text
    var totalStreamBytes: nat
    var streamOutputLimitExceeded: bool
    var outputTruncated: bool
    var memoryPeak: Option<Text>
    var timedOut: bool
    var publishQueue: seq<Chunk>

    function Snapshot(): State
      reads this
    {
      State(stdoutAccumulator, stderrAccumulator, totalStreamBytes, streamOutputLimitExceeded,
            outputTruncated, memoryPeak, publishQueue)
    }

    constructor ()
      ensures Snapshot() == FRESH && !timedOut
    {
      stdoutAccumulator, stderrAccumulator, totalStreamBytes := [], [], 0;
      streamOutputLimitExceeded, outputTruncated, memoryPeak := false, false, None;
      timedOut, publishQueue := false, [];
    }

    method PublishChunk(source: Source, data: Text)
      modifies this`publishQueue
      ensures publishQueue == old(publishQueue) + [Chunk(source, data)]
    {
      publishQueue := publishQueue + [Chunk(source, data)];
    }

    method PublishAll(channel: Channel, texts: seq<Text>)
      modifies this`publishQueue
      ensures publishQueue == old(publishQueue) + Labelled(channel, texts)
    {
      for i := 0 to |texts|
        invariant publishQueue == old(publishQueue) + Labelled(channel, texts[..i])
      {
        PublishChunk(channel, texts[i]);
        assert Labelled(channel, texts[..i + 1]) == Labelled(channel, texts[..i]) + [Chunk(channel, texts[i])];
      }
      assert texts[..|texts|] == texts;
    }

    /** The accumulator is passed in and handed back, and not written here. */
    method HandleOutput(channel: Channel, data: Bytes, accumulator: Text) returns (value: Text)
      requires accumulator == Kept(Snapshot(), channel)
      modifies this`totalStreamBytes, this`streamOutputLimitExceeded, this`outputTruncated
      modifies this`memoryPeak, this`publishQueue
      ensures Keep(Snapshot(), channel, value) == Collect(old(Snapshot()), Arrival(channel, data))
    {
      value := accumulator;
      if !streamOutputLimitExceeded {
        var raw := Decode(data);
        if MemPeak.Peak(raw).Some? { memoryPeak := MemPeak.Peak(raw); }
        value := OfferText(channel, MemPeak.Strip(raw), accumulator);
      }
    }

    method OfferText(channel: Channel, text: Text, accumulator: Text) returns (value: Text)
      requires accumulator == Kept(Snapshot(), channel) && !streamOutputLimitExceeded
      modifies this`totalStreamBytes, this`streamOutputLimitExceeded, this`outputTruncated, this`publishQueue
      ensures Keep(Snapshot(), channel, value) == Offer(old(Snapshot()), channel, text)
    {
      if |text| == 0 { return accumulator; }
      var incomingBytes := ByteLength(text);
      if totalStreamBytes + incomingBytes > MAX_STREAM_OUTPUT_BYTES {
        streamOutputLimitExceeded := true;
        PublishChunk(System, LIMIT_NOTICE);
        return accumulator;
      }
      totalStreamBytes := totalStreamBytes + incomingBytes;
      var chunks := StreamSplit.SplitForStream(text);
      PublishAll(channel, chunks);
      var capped := AppendWithinCap(accumulator, text);
      if capped.truncated { outputTruncated := true; }
      return capped.value;
    }

    method OnData(channel: Channel, data: Bytes)
      modifies this
      ensures Snapshot() == Collect(old(Snapshot()), Arrival(channel, data)) && timedOut == old(timedOut)
    {
      if channel.Stdout? {
        var value := HandleOutput(channel, data, stdoutAccumulator);
        stdoutAccumulator := value;
      } else {
        var value := HandleOutput(channel, data, stderrAccumulator);
        stderrAccumulator := value;
      }
    }

    method OnTimeout()
      modifies this`timedOut
      ensures timedOut
    {
      timedOut := true;
    }

    /** The 'close' event; code 137 is a kill nobody here asked for. */
    method OnClose(code: Option<int>) returns (report: SandboxReport)
      ensures report == Report(Snapshot(), timedOut, code)
      ensures report.oomKilled <==> code == Some(137) && !timedOut && !streamOutputLimitExceeded
      ensures report.exitCode == code && report.timedOut == timedOut && report.stderr == stderrAccumulator
      ensures report.streamOutputLimitExceeded == streamOutputLimitExceeded
    {
      var oomKilled := code == Some(137) && !timedOut && !streamOutputLimitExceeded;
      report := SandboxReport(code, timedOut, streamOutputLimitExceeded, oomKilled, stderrAccumulator);
    }

    /** A whole execution: every chunk in arrival order. */
    method Run(arrivals: seq<Arrival>)
      requires Snapshot() == FRESH
      modifies this
      ensures Snapshot() == CollectAll(arrivals) && timedOut == old(timedOut)
    {
      for i := 0 to |arrivals|
        invariant Snapshot() == CollectAll(arrivals[..i]) && timedOut == old(timedOut)
      {
        OnData(arrivals[i].channel, arrivals[i].data);
        assert arrivals[..i + 1][..i] == arrivals[..i];
      }
      assert arrivals[..|arrivals|] == arrivals;
    }
  }

  function Report(s: State, timedOut: bool, code: Option<int>): SandboxReport {
    SandboxReport(code, timedOut, s.exceeded, code == Some(137) && !timedOut && !s.exceeded, s.stderr)
  }
}
