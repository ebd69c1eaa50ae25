/** The gateway's side of a job stream: the activeStreams registry, the pmessage
    fan-out and the replay loop. */
module Gateway {
  import opened Contracts

  /** The fields of one XRANGE entry: alternating names and values. */
  type Fields = seq<string>

  /** What parseStreamPayload looks for: the value behind the first field name
      "payload"; nothing if there is no such name or no value behind it. */
  function PayloadField(fields: Fields): Option<string> {
    if fields == [] then None
    else if fields[0] == "payload" then (if |fields| > 1 then Some(fields[1]) else None)
    else if |fields| == 1 then None
    else PayloadField(fields[2..])
  }

  method ParseStreamPayload(fields: Fields) returns (payload: Option<string>)
    ensures payload == PayloadField(fields)
  {
    var i := 0;
    while i < |fields|
      invariant i % 2 == 0 && (i <= |fields| || (i == |fields| + 1 && PayloadField(fields) == None))
      invariant i <= |fields| ==> PayloadField(fields) == PayloadField(fields[i..])
      decreases |fields| - i
    {
      if fields[i] == "payload" {
        if i + 1 < |fields| { return Some(fields[i + 1]); }
        return None;
      }
      i := i + 2;
      assert i <= |fields| ==> fields[i - 2..][2..] == fields[i..];
    }
    return None;
  }

  /** A payload is found exactly where an even position holds the name and no
      earlier even position does. */
  lemma {:induction false} PayloadIsFirst(fields: Fields, k: nat)
    requires 2 * k + 1 < |fields| && fields[2 * k] == "payload"
    requires forall j: nat :: j < k ==> fields[2 * j] != "payload"
    ensures PayloadField(fields) == Some(fields[2 * k + 1])
    decreases k
  {
    if k > 0 {
      assert fields[2 * 0] != "payload";
      forall j: nat | j < k - 1
        ensures fields[2..][2 * j] != "payload"
      {
        assert fields[2 * (j + 1)] != "payload";
      }
      PayloadIsFirst(fields[2..], k - 1);
    }
  }

  /** The k-th field name is the first to read "payload", and t is behind it. */
  predicate CarriesAt(fields: Fields, k: nat, t: string) {
    && 2 * k + 1 < |fields| && fields[2 * k] == "payload" && fields[2 * k + 1] == t
    && forall j: nat :: j < k ==> fields[2 * j] != "payload"
  }

  ghost predicate Carries(fields: Fields, t: string) {
    exists k: nat :: CarriesAt(fields, k, t)
  }

  /** Nothing else is ever found. */
  lemma {:induction false} FoundIsCarried(fields: Fields) returns (k: nat)
    requires PayloadField(fields).Some?
    ensures CarriesAt(fields, k, PayloadField(fields).value)
  {
    if fields[0] == "payload" {
      k := 0;
    } else {
      k := FoundIsCarried(fields[2..]);
      k := k + 1;
      forall j: nat | j < k
        ensures fields[2 * j] != "payload"
      {
        if j > 0 { assert fields[2..][2 * (j - 1)] != "payload"; }
      }
    }
  }

  /** parseStreamPayload returns t exactly if the entry carries t. */
  lemma PayloadExactly(fields: Fields, t: string)
    ensures PayloadField(fields) == Some(t) <==> Carries(fields, t)
  {
    if PayloadField(fields).Some? {
      var k := FoundIsCarried(fields);
      assert CarriesAt(fields, k, PayloadField(fields).value);
    }
    if Carries(fields, t) {
      var k: nat :| CarriesAt(fields, k, t);
      PayloadIsFirst(fields, k);
    }
  }

  /** The payloads of a replay, in stream order; absent and empty ones are skipped. */
  function Payloads(entries: seq<Fields>): seq<string> {
    if entries == [] then []
    else
      var before := Payloads(entries[..|entries| - 1]);
      var p := PayloadField(entries[|entries| - 1]);
      if p.Some? && p.value != "" then before + [p.value] else before
  }

  lemma {:induction false} PayloadsInTwo(a: seq<Fields>, b: seq<Fields>)
    ensures Payloads(a + b) == Payloads(a) + Payloads(b)
    decreases |b|
  {
    if b == [] {
      assert a + b == a;
    } else {
      PayloadsInTwo(a, b[..|b| - 1]);
      assert (a + b)[..|a + b| - 1] == a + b[..|b| - 1];
    }
  }

  /** What one entry adds to a replay: the text it carries, unless that is empty. */
  lemma PayloadsOfOne(fields: Fields, t: string)
    requires t != ""
    ensures Payloads([fields]) == [t] <==> Carries(fields, t)
    ensures |Payloads([fields])| <= 1 && forall p :: p in Payloads([fields]) ==> p != ""
  {
    var p := PayloadField(fields);
    assert [fields][..0] == [];
    assert Payloads([fields]) == if p.Some? && p.value != "" then [p.value] else [];
    assert p.Some? ==> [p.value][0] == p.value;
    assert [t][0] == t;
    PayloadExactly(fields, t);
  }

  /** Entries that carry these texts are replayed as these texts, none left out. */
  lemma {:induction false} ReplayIsComplete(entries: seq<Fields>, texts: seq<string>)
    requires |entries| == |texts|
    requires forall i :: 0 <= i < |entries| ==> Carries(entries[i], texts[i]) && texts[i] != ""
    ensures Payloads(entries) == texts
    decreases |entries|
  {
    if entries != [] {
      var n := |entries| - 1;
      ReplayIsComplete(entries[..n], texts[..n]);
      PayloadsInTwo(entries[..n], [entries[n]]);
      PayloadsOfOne(entries[n], texts[n]);
      assert entries == entries[..n] + [entries[n]] && texts == texts[..n] + [texts[n]];
    }
  }

  predicate AnyCompletes(payloads: seq<string>, completes: string -> bool) {
    exists i :: 0 <= i < |payloads| && completes(payloads[i])
  }

  lemma CompletesSnoc(payloads: seq<string>, p: string, completes: string -> bool)
    ensures AnyCompletes(payloads + [p], completes) <==> AnyCompletes(payloads, completes) || completes(p)
  {
    var more := payloads + [p];
    assert more[|payloads|] == p;
    assert forall i :: 0 <= i < |payloads| ==> more[i] == payloads[i];
  }

  class Connection {
    const id: nat
    var open: bool
    var sent: seq<string>
    var cleanedUp: bool
    var closeScheduled: bool

    constructor (id: nat)
      ensures this.id == id && open && sent == [] && !cleanedUp && !closeScheduled
    {
      this.id, open, sent, cleanedUp, closeScheduled := id, true, [], false, false;
    }

    method Send(message: string)
      modifies this`sent
      ensures sent == if open then old(sent) + [message] else old(sent)
    {
      if open { sent := sent + [message]; }
    }

    /** The replay, once XRANGE has answered. */
    method Replay(entries: seq<Fields>, completes: string -> bool, terminal: bool)
      modifies this`sent, this`closeScheduled
      ensures sent == if open then old(sent) + Payloads(entries) else old(sent)
      ensures closeScheduled <==>
                old(closeScheduled) || terminal || AnyCompletes(Payloads(entries), completes)
    {
      var sawCompletion := false;
      for n := 0 to |entries|
        invariant sent == if open then old(sent) + Payloads(entries[..n]) else old(sent)
        invariant closeScheduled == old(closeScheduled)
        invariant sawCompletion <==> AnyCompletes(Payloads(entries[..n]), completes)
      {
        assert entries[..n + 1][..n] == entries[..n];
        var payload := ParseStreamPayload(entries[n]);
        if payload.Some? && payload.value != "" {
          Send(payload.value);
          CompletesSnoc(Payloads(entries[..n]), payload.value, completes);
          if completes(payload.value) { sawCompletion := true; }
        }
      }
      assert entries[..|entries|] == entries;
      if sawCompletion || terminal { closeScheduled := true; }
    }

    /** The timer set by either path. */
    method CloseAfterDelay()
      requires closeScheduled
      modifies this`open
      ensures !open
    {
      open := false;
    }
  }

  type Registry = map<JobId, set<Connection>>

  function SocketsOf(streams: Registry, job: JobId): set<Connection> {
    if job in streams then streams[job] else {}
  }

  function Enter(streams: Registry, job: JobId, c: Connection): Registry {
    streams[job := SocketsOf(streams, job) + {c}]
  }

  function Leave(streams: Registry, job: JobId, c: Connection): Registry {
    if job !in streams then streams
    else if streams[job] == {c} || streams[job] == {} then streams - {job}
    else streams[job := streams[job] - {c}]
  }

  predicate NoEmptySets(streams: Registry) {
    forall j :: j in streams ==> streams[j] != {}
  }

  /** Cleaning up undoes registering: nothing of the socket, and no empty set, stays. */
  lemma LeaveUndoesEnter(streams: Registry, job: JobId, c: Connection)
    requires NoEmptySets(streams) && c !in SocketsOf(streams, job)
    ensures Leave(Enter(streams, job, c), job, c) == streams
  {
    if job in streams {
      assert streams[job] + {c} - {c} == streams[job];
      assert streams[job] + {c} != {c} by {
        var d :| d in streams[job];
        assert d != c;
      }
    }
  }

  /** Sockets come and go independently of each other. */
  lemma LeaveSparesOthers(streams: Registry, job: JobId, c: Connection, j: JobId, d: Connection)
    requires NoEmptySets(streams)
    ensures NoEmptySets(Leave(streams, job, c)) && NoEmptySets(Enter(streams, job, c))
    ensures d in SocketsOf(Leave(streams, job, c), j) <==> d in SocketsOf(streams, j) && (j != job || d != c)
    ensures d in SocketsOf(Enter(streams, job, c), j) <==> d in SocketsOf(streams, j) || (j == job && d == c)
  {
    if job in streams && streams[job] != {c} {
      var e :| e in streams[job] && e != c;
      assert e in streams[job] - {c};
    }
  }

  class ActiveStreams {
    var streams: Registry

    constructor ()
      ensures streams == map[]
    {
      streams := map[];
    }

    method Register(job: JobId, c: Connection)
      modifies this
      ensures streams == Enter(old(streams), job, c)
    {
      if job !in streams { streams := streams[job := {}]; }
      streams := streams[job := streams[job] + {c}];
    }

    /** Runs at most once per connection. */
    method Cleanup(job: JobId, c: Connection)
      modifies this, c`cleanedUp
      ensures c.cleanedUp
      ensures streams == if old(c.cleanedUp) then old(streams) else Leave(old(streams), job, c)
    {
      if c.cleanedUp { return; }
      c.cleanedUp := true;
      if job in streams {
        var rest := streams[job] - {c};
        assert rest == {} <==> streams[job] == {c} || streams[job] == {};
        streams := if rest == {} then streams - {job} else streams[job := rest];
      }
    }

    /** The pmessage handler: exactly the open sockets of the job receive the
        message, and a completion schedules their closing. */
    method OnMessage(job: JobId, message: string, isComplete: bool)
      modifies SocketsOf(streams, job)
      ensures forall c :: c in SocketsOf(streams, job) ==>
        && c.open == old(c.open) && c.cleanedUp == old(c.cleanedUp)
        && c.sent == (if c.open then old(c.sent) + [message] else old(c.sent))
        && (c.closeScheduled <==> old(c.closeScheduled) || (c.open && isComplete))
    {
      var rest := SocketsOf(streams, job);
      while rest != {}
        invariant rest <= SocketsOf(streams, job)
        invariant forall c :: c in SocketsOf(streams, job) ==>
          && c.open == old(c.open) && c.cleanedUp == old(c.cleanedUp)
          && c.sent == (if c.open && c !in rest then old(c.sent) + [message] else old(c.sent))
          && (c.closeScheduled <==> old(c.closeScheduled) || (c.open && isComplete && c !in rest))
        decreases |rest|
      {
        var c :| c in rest;
        if c.open {
          c.Send(message);
          if isComplete { c.closeScheduled := true; }
        }
        rest := rest - {c};
      }
    }
  }
}
