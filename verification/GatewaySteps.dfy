/** The gateway's handlers are the socket steps of the hand-off: registering a socket,
    fanning a message out, replaying and closing take the registry from one state that
    mirrors the state machine's sockets to the next. */
module GatewaySteps {
  import opened Contracts
  import opened RedisList
  import opened Gateway
  import H = StreamHandoff

  /** The payloads of stream entries. */
  function Texts(ids: seq<nat>, text: nat -> string): seq<string> {
    seq(|ids|, i requires 0 <= i < |ids| => text(ids[i]))
  }

  lemma TextsConcat(a: seq<nat>, b: seq<nat>, text: nat -> string)
    ensures Texts(a + b, text) == Texts(a, text) + Texts(b, text)
  {
  }

  /** The connection and the socket agree, as far as a client could tell. */
  ghost predicate Shows(c: Connection, s: H.Socket, text: nat -> string)
    reads c
  {
    c.open == s.open && (c.open ==> c.sent == Texts(s.sent, text))
  }

  /** The job's registered connections are the open sockets of the state machine. */
  ghost predicate Mirrors(a: ActiveStreams, job: JobId, sockets: map<H.SocketId, H.Socket>, text: nat -> string)
    reads a, SocketsOf(a.streams, job)
  {
    && (forall c :: c in SocketsOf(a.streams, job) ==> c.id in sockets && Shows(c, sockets[c.id], text))
    && (forall c, d :: c in SocketsOf(a.streams, job) && d in SocketsOf(a.streams, job) && c.id == d.id ==> c == d)
    && (forall k :: k in sockets && sockets[k].open ==> exists c :: c in SocketsOf(a.streams, job) && c.id == k)
  }

  /** pmessage is Deliver. */
  method Deliver(a: ActiveStreams, job: JobId, message: string, isComplete: bool,
      ghost n: H.Net, ghost text: nat -> string)
    requires Mirrors(a, job, n.sockets, text) && n.inFlight != [] && message == text(Tail(n.inFlight))
    modifies SocketsOf(a.streams, job)
    ensures Mirrors(a, job, H.Apply(n, H.Deliver).sockets, text)
  {
    ghost var i := Tail(n.inFlight);
    forall s: seq<nat>
      ensures Texts(s + [i], text) == Texts(s, text) + [text(i)]
    {
      TextsConcat(s, [i], text);
    }
    a.OnMessage(job, message, isComplete);
  }

  /** Registering a new connection is Join. */
  method Join(a: ActiveStreams, job: JobId, c: Connection, ghost n: H.Net, ghost text: nat -> string)
    requires Mirrors(a, job, n.sockets, text) && c.id !in n.sockets && c.open && c.sent == []
    modifies a
    ensures Mirrors(a, job, H.Apply(n, H.Join(c.id)).sockets, text)
  {
    ghost var before := SocketsOf(a.streams, job);
    a.Register(job, c);
    assert SocketsOf(a.streams, job) == before + {c};
    ghost var after := H.Apply(n, H.Join(c.id)).sockets;
    forall k | k in after && after[k].open
      ensures exists d :: d in SocketsOf(a.streams, job) && d.id == k
    {
      if k != c.id {
        var d :| d in before && d.id == k;
        assert d in SocketsOf(a.streams, job);
      } else {
        assert c in SocketsOf(a.streams, job);
      }
    }
  }

  /** Executing XRANGE changes nothing a client could see. */
  lemma Range(a: ActiveStreams, job: JobId, k: H.SocketId, n: H.Net, text: nat -> string)
    requires Mirrors(a, job, n.sockets, text) && H.Enabled(n, H.Range(k))
    ensures Mirrors(a, job, H.Apply(n, H.Range(k)).sockets, text)
  {
  }

  /** XRANGE's answer: entries that carry the payloads of the window. */
  ghost predicate Answers(entries: seq<Fields>, s: H.Socket, text: nat -> string) {
    && |entries| == |H.Window(s.from, s.upto)|
    && forall i :: 0 <= i < |entries| ==> Carries(entries[i], text(s.from + i)) && text(s.from + i) != ""
  }

  lemma AnswerIsWindow(entries: seq<Fields>, s: H.Socket, text: nat -> string)
    requires Answers(entries, s, text)
    ensures Payloads(entries) == Texts(H.Window(s.from, s.upto), text)
  {
    ReplayIsComplete(entries, Texts(H.Window(s.from, s.upto), text));
  }

  /** The replay loop over XRANGE's answer is Replay. */
  method Replay(a: ActiveStreams, job: JobId, c: Connection, entries: seq<Fields>, completes: string -> bool,
      terminal: bool, ghost n: H.Net, ghost text: nat -> string)
    requires Mirrors(a, job, n.sockets, text) && c in SocketsOf(a.streams, job) && n.sockets[c.id].stage.Ranged?
    requires Answers(entries, n.sockets[c.id], text)
    modifies c`sent, c`closeScheduled
    ensures Mirrors(a, job, H.Apply(n, H.Replay(c.id)).sockets, text)
  {
    ghost var s := n.sockets[c.id];
    TextsConcat(s.sent, H.Window(s.from, s.upto), text);
    AnswerIsWindow(entries, s, text);
    c.Replay(entries, completes, terminal);
  }

  /** The timer's close, and the cleanup the close event triggers, are Close. */
  method Close(a: ActiveStreams, job: JobId, c: Connection, ghost n: H.Net, ghost text: nat -> string)
    requires Mirrors(a, job, n.sockets, text) && c in SocketsOf(a.streams, job)
    requires c.closeScheduled && !c.cleanedUp
    modifies a, c
    ensures Mirrors(a, job, H.Apply(n, H.Close(c.id)).sockets, text)
  {
    ghost var before, after := SocketsOf(a.streams, job), H.Apply(n, H.Close(c.id)).sockets;
    c.CloseAfterDelay();
    a.Cleanup(job, c);
    assert SocketsOf(a.streams, job) == before - {c};
    forall k | k in after && after[k].open
      ensures exists d :: d in SocketsOf(a.streams, job) && d.id == k
    {
      var d :| d in before && d.id == k;
      assert d in SocketsOf(a.streams, job);
    }
  }
}
