/** The hand-off from replay to live delivery on one job's WebSocket stream. A
    publisher appends to the Redis stream and then publishes; a gateway registers a
    socket and then reads the stream. Entries are numbered in stream order. */
module StreamHandoff {
  import opened RedisList

  type SocketId = nat

  /** Registered, XRANGE not executed; executed, its reply not processed; replayed. */
  datatype Stage = Joined | Ranged | Replayed

  /** The window is the part of the stream XRANGE returned; early and late, the entries
      that arrived through pub/sub before and after the replay; sent, everything
      written to the socket. */
  datatype Socket = Socket(
    stage: Stage,
    from: nat,
    upto: nat,
    early: seq<nat>,
    late: seq<nat>,
    sent: seq<nat>,
    open: bool)

  /** unpublished: appended, PUBLISH still to come; inFlight: published, not yet
      handled by the gateway; lost: the publisher failed or crashed between the two
      calls, or the gateway's subscriber missed the message. */
  datatype Net = Net(
    added: nat,
    trimmed: nat,
    unpublished: set<nat>,
    inFlight: seq<nat>,
    lost: set<nat>,
    sockets: map<SocketId, Socket>)

  datatype Event =
    | Add
    | Trim(upto: nat)          // XADD's MAXLEN dropped the oldest entries
    | Publish(i: nat)
    | Forget(i: nat)           // the publisher never publishes i
    | Deliver                  // pmessage
    | Miss                     // the subscriber lost the message
    | Join(k: SocketId)
    | Range(k: SocketId)
    | Replay(k: SocketId)
    | Close(k: SocketId)

  const QUIET := Net(0, 0, {}, [], {}, map[])

  /** The ids XRANGE returns, in order. */
  function Window(from: nat, upto: nat): (ids: seq<nat>)
    ensures forall i: nat :: Count(ids, i) == One(from <= i < upto)
    ensures |ids| == Less(upto, from) && forall k :: 0 <= k < |ids| ==> ids[k] == from + k
    decreases upto - from
  {
    if from >= upto then [] else LPush(Window(from + 1, upto), from)
  }

  /** The pmessage handler: every open socket is sent the message. */
  function SendAll(sockets: map<SocketId, Socket>, i: nat): (r: map<SocketId, Socket>)
    ensures r.Keys == sockets.Keys
    ensures forall k :: k in sockets ==> r[k] == SendLive(sockets[k], i)
  {
    map k | k in sockets :: SendLive(sockets[k], i)
  }

  function SendLive(s: Socket, i: nat): Socket {
    if !s.open then s
    else if s.stage.Replayed? then s.(sent := s.sent + [i], late := s.late + [i])
    else s.(sent := s.sent + [i], early := s.early + [i])
  }

  /** The replay loop; it does not yield between two sends. */
  function SendReplay(s: Socket): Socket {
    if s.open then s.(stage := Replayed, sent := s.sent + Window(s.from, s.upto)) else s.(stage := Replayed)
  }

  predicate Enabled(n: Net, e: Event) {
    match e
    case Add => true
    case Trim(upto) => n.trimmed <= upto <= n.added
    case Publish(i) => i in n.unpublished
    case Forget(i) => i in n.unpublished
    case Deliver => n.inFlight != []
    case Miss => n.inFlight != []
    case Join(k) => k !in n.sockets
    case Range(k) => k in n.sockets && n.sockets[k].stage.Joined?
    case Replay(k) => k in n.sockets && n.sockets[k].stage.Ranged?
    case Close(k) => k in n.sockets
  }

  function Apply(n: Net, e: Event): Net
    requires Enabled(n, e)
  {
    match e
    case Add => n.(added := n.added + 1, unpublished := n.unpublished + {n.added})
    case Trim(upto) => n.(trimmed := upto)
    case Publish(i) => n.(unpublished := n.unpublished - {i}, inFlight := LPush(n.inFlight, i))
    case Forget(i) => n.(unpublished := n.unpublished - {i}, lost := n.lost + {i})
    case Deliver => n.(inFlight := RPop(n.inFlight), sockets := SendAll(n.sockets, Tail(n.inFlight)))
    case Miss => n.(inFlight := RPop(n.inFlight), lost := n.lost + {Tail(n.inFlight)})
    case Join(k) => n.(sockets := n.sockets[k := Socket(Joined, 0, 0, [], [], [], true)])
    case Range(k) =>
      n.(sockets := n.sockets[k := n.sockets[k].(stage := Ranged, from := n.trimmed, upto := n.added)])
    case Replay(k) => n.(sockets := n.sockets[k := SendReplay(n.sockets[k])])
    case Close(k) => n.(sockets := n.sockets[k := n.sockets[k].(open := false)])
  }

  predicate IsRun(n: Net, es: seq<Event>)
    decreases |es|
  {
    es == [] || (Enabled(n, es[0]) && IsRun(Apply(n, es[0]), es[1..]))
  }

  function After(n: Net, es: seq<Event>): Net
    requires IsRun(n, es)
    decreases |es|
  {
    if es == [] then n else After(Apply(n, es[0]), es[1..])
  }

  /** The message has not reached the gateway, or never will. */
  predicate Outstanding(n: Net, i: nat) {
    i in n.unpublished || i in n.inFlight || i in n.lost
  }

  /** Every entry is in at most one of the places it can be. */
  ghost predicate Placed(n: Net) {
    && n.trimmed <= n.added
    && (forall i :: i in n.unpublished || i in n.lost || i in n.inFlight ==> i < n.added)
    && n.unpublished !! n.lost
    && (forall i: nat :: Count(n.inFlight, i) <= One(i !in n.unpublished && i !in n.lost))
  }

  /** Received through pub/sub. */
  predicate Live(s: Socket, i: nat) {
    i in s.early || i in s.late
  }

  ghost predicate SocketInv(n: Net, s: Socket) {
    && s.from <= s.upto <= n.added
    && (forall i: nat :: Live(s, i) ==> i < n.added && !Outstanding(n, i))
    && (s.open ==> forall i: nat ::
          Count(s.sent, i) == One(s.stage.Replayed? && s.from <= i < s.upto) + One(Live(s, i)))
    && (s.open && !s.stage.Joined? ==> forall i: nat :: s.upto <= i < n.added ==> Outstanding(n, i) || Live(s, i))
  }

  ghost predicate Inv(n: Net) {
    Placed(n) && forall k :: k in n.sockets ==> SocketInv(n, n.sockets[k])
  }

  lemma CountSnoc(list: seq<nat>, x: nat, y: nat)
    ensures Count(list + [x], y) == Count(list, y) + One(x == y)
  {
  }

  lemma CountConcat(a: seq<nat>, b: seq<nat>, y: nat)
    ensures Count(a + b, y) == Count(a, y) + Count(b, y)
  {
  }

  lemma PlacesKept(n: Net, e: Event)
    requires Placed(n) && Enabled(n, e)
    ensures Placed(Apply(n, e))
  {
  }

  lemma DeliverKept(n: Net, s: Socket)
    requires Placed(n) && SocketInv(n, s) && n.inFlight != []
    ensures SocketInv(Apply(n, Deliver), SendLive(s, Tail(n.inFlight)))
  {
    var i, after := Tail(n.inFlight), Apply(n, Deliver);
    assert Count(n.inFlight, i) == 1;
    assert !Outstanding(after, i) && Outstanding(n, i);
    forall j: nat
      ensures Count(s.sent + [i], j) == Count(s.sent, j) + One(i == j)
    {
      CountSnoc(s.sent, i, j);
    }
    assert forall j: nat :: j != i ==> (Outstanding(after, j) <==> Outstanding(n, j));
  }

  lemma SameOutstanding(n: Net, m: Net, s: Socket)
    requires SocketInv(n, s) && n.added <= m.added
    requires forall i: nat :: i < n.added ==> (Outstanding(m, i) <==> Outstanding(n, i))
    requires forall i: nat :: n.added <= i < m.added ==> Outstanding(m, i)
    ensures SocketInv(m, s)
  {
  }

  lemma ReplayKept(n: Net, s: Socket)
    requires SocketInv(n, s) && s.stage.Ranged?
    ensures SocketInv(n, SendReplay(s))
  {
    forall j: nat
      ensures Count(s.sent + Window(s.from, s.upto), j) == Count(s.sent, j) + Count(Window(s.from, s.upto), j)
    {
      CountConcat(s.sent, Window(s.from, s.upto), j);
    }
  }

  predicate IsNetOnly(e: Event) {
    e.Add? || e.Trim? || e.Publish? || e.Forget? || e.Miss?
  }

  lemma NetKeepsSocket(n: Net, e: Event, s: Socket)
    requires Placed(n) && Enabled(n, e) && IsNetOnly(e) && SocketInv(n, s)
    ensures SocketInv(Apply(n, e), s)
  {
    var m := Apply(n, e);
    match e
    case Add => SameOutstanding(n, m, s);
    case Trim(_) => SameOutstanding(n, m, s);
    case Publish(_) => SameOutstanding(n, m, s);
    case Forget(_) => SameOutstanding(n, m, s);
    case Miss => SameOutstanding(n, m, s);
  }

  lemma SocketsAreSeparate(n: Net, sockets: map<SocketId, Socket>, s: Socket)
    ensures SocketInv(n.(sockets := sockets), s) <==> SocketInv(n, s)
  {
    assert forall i: nat :: Outstanding(n.(sockets := sockets), i) <==> Outstanding(n, i);
  }

  lemma RangeKept(n: Net, s: Socket)
    requires Placed(n) && SocketInv(n, s) && s.stage.Joined?
    ensures SocketInv(n, s.(stage := Ranged, from := n.trimmed, upto := n.added))
  {
    assert forall i: nat :: Live(s.(stage := Ranged, from := n.trimmed, upto := n.added), i) <==> Live(s, i);
  }

  lemma SocketKept(n: Net, e: Event, k: SocketId)
    requires Inv(n) && Enabled(n, e) && k in Apply(n, e).sockets
    ensures SocketInv(Apply(n, e), Apply(n, e).sockets[k])
  {
    if IsNetOnly(e) {
      NetKeepsSocket(n, e, n.sockets[k]);
    } else if e.Deliver? {
      DeliverKept(n, n.sockets[k]);
    } else {
      var s := Apply(n, e).sockets[k];
      SocketsAreSeparate(n, Apply(n, e).sockets, s);
      if e.Replay? && e.k == k { ReplayKept(n, n.sockets[k]); }
      if e.Range? && e.k == k { RangeKept(n, n.sockets[k]); }
    }
  }

  lemma StepInv(n: Net, e: Event)
    requires Inv(n) && Enabled(n, e)
    ensures Inv(Apply(n, e))
  {
    PlacesKept(n, e);
    forall k | k in Apply(n, e).sockets
      ensures SocketInv(Apply(n, e), Apply(n, e).sockets[k])
    {
      SocketKept(n, e, k);
    }
  }

  lemma {:induction false} RunInv(n: Net, es: seq<Event>)
    requires Inv(n) && IsRun(n, es)
    ensures Inv(After(n, es))
    decreases |es|
  {
    if es != [] {
      StepInv(n, es[0]);
      RunInv(Apply(n, es[0]), es[1..]);
    }
  }

  /** No gap, whatever the interleaving: a socket that is open and has been replayed
      to has received an entry the stream still held at its XRANGE if and only if the
      entry was in the replayed window or its message has reached the gateway. It
      never receives an entry more than twice. */
  lemma NoGap(es: seq<Event>, k: SocketId, i: nat)
    requires IsRun(QUIET, es) && k in After(QUIET, es).sockets
    requires
      var s := After(QUIET, es).sockets[k];
      s.open && s.stage.Replayed? && s.from <= i < After(QUIET, es).added
    ensures
      var n := After(QUIET, es);
      && (i in n.sockets[k].sent <==> i < n.sockets[k].upto || !Outstanding(n, i))
      && Count(n.sockets[k].sent, i) <= 2
  {
    RunInv(QUIET, es);
    NoGapNow(After(QUIET, es), After(QUIET, es).sockets[k], i);
  }

  lemma NoGapNow(n: Net, s: Socket, i: nat)
    requires SocketInv(n, s) && s.open && s.stage.Replayed? && s.from <= i < n.added
    ensures i in s.sent <==> i < s.upto || !Outstanding(n, i)
    ensures Count(s.sent, i) <= 2
  {
    assert Count(s.sent, i) == One(s.from <= i < s.upto) + One(Live(s, i));
  }

  /** Once publishers and gateway have caught up and no message was lost, an open
      socket has everything from the start of its window on. */
  lemma CaughtUpIsComplete(es: seq<Event>, k: SocketId)
    requires IsRun(QUIET, es) && k in After(QUIET, es).sockets
    requires var s := After(QUIET, es).sockets[k]; s.open && s.stage.Replayed?
    requires var n := After(QUIET, es); n.unpublished == {} == n.lost && n.inFlight == []
    ensures
      var n := After(QUIET, es);
      forall i: nat :: n.sockets[k].from <= i < n.added ==> i in n.sockets[k].sent
  {
    var n := After(QUIET, es);
    forall i: nat | n.sockets[k].from <= i < n.added
      ensures i in n.sockets[k].sent
    {
      NoGap(es, k, i);
    }
  }
}
