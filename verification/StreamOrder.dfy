/** In which order a socket receives a stream. Publishers publish in stream order, as
    the promise chain of one execution does; nevertheless a live message can overtake
    the replay, and exactly when it does is stated here. */
module StreamOrder {
  import opened RedisList
  import opened StreamHandoff

  /** XADD and PUBLISH of one entry are done before those of the next. */
  predicate InOrder(n: Net, e: Event) {
    e.Publish? ==> forall i :: i in n.unpublished ==> e.i <= i
  }

  predicate IsOrderedRun(n: Net, es: seq<Event>)
    decreases |es|
  {
    es == [] || (Enabled(n, es[0]) && InOrder(n, es[0]) && IsOrderedRun(Apply(n, es[0]), es[1..]))
  }

  lemma {:induction false} OrderedRunIsRun(n: Net, es: seq<Event>)
    requires IsOrderedRun(n, es)
    ensures IsRun(n, es)
    decreases |es|
  {
    if es != [] { OrderedRunIsRun(Apply(n, es[0]), es[1..]); }
  }

  /** Read from left to right, new entries come in stream order: whatever arrives
      after a later entry has been received before. */
  predicate FirstsInOrder(sent: seq<nat>) {
    forall a, b :: 0 <= a < b < |sent| && sent[b] < sent[a] ==> sent[b] in sent[..a]
  }

  predicate Increasing(list: seq<nat>) {
    forall a, b :: 0 <= a < b < |list| ==> list[a] < list[b]
  }

  predicate AllBelow(list: seq<nat>, i: nat) {
    forall a :: 0 <= a < |list| ==> list[a] < i
  }

  /** What an open socket has been sent once it is replayed to. */
  function Received(s: Socket): seq<nat> {
    s.early + Window(s.from, s.upto) + s.late
  }

  // ── what ordered publishing keeps ────────────────────────────────────────

  /** On the list of messages in flight the oldest is last; they are all older than
      what is still unpublished. */
  ghost predicate WireOrdered(n: Net) {
    && (forall a, b :: 0 <= a < b < |n.inFlight| ==> n.inFlight[b] < n.inFlight[a])
    && (forall i, u :: i in n.inFlight && u in n.unpublished ==> i < u)
    && (forall i :: i in n.inFlight || i in n.unpublished ==> i < n.added)
  }

  ghost predicate SocketOrdered(n: Net, s: Socket) {
    && Increasing(s.early + s.late)
    && (forall i :: i in n.inFlight || i in n.unpublished ==> AllBelow(s.early + s.late, i))
    && AllBelow(s.early + s.late, n.added)
    && (!s.stage.Replayed? ==> s.late == [])
    && (s.open ==> s.sent == if s.stage.Replayed? then Received(s) else s.early)
  }

  ghost predicate Ordered(n: Net) {
    WireOrdered(n) && forall k :: k in n.sockets ==> SocketOrdered(n, n.sockets[k])
  }

  lemma PublishWire(n: Net, i: nat)
    requires WireOrdered(n) && Enabled(n, Publish(i)) && InOrder(n, Publish(i))
    ensures WireOrdered(Apply(n, Publish(i)))
  {
    var wire := Apply(n, Publish(i)).inFlight;
    forall a | 0 < a < |wire|
      ensures wire[a] == n.inFlight[a - 1] && wire[a] < i
    {
      assert n.inFlight[a - 1] in n.inFlight;
    }
  }

  lemma WireKept(n: Net, e: Event)
    requires WireOrdered(n) && Enabled(n, e) && InOrder(n, e)
    ensures WireOrdered(Apply(n, e))
  {
    if e.Publish? {
      PublishWire(n, e.i);
    } else if e.Deliver? || e.Miss? {
      assert forall a :: 0 <= a < |Apply(n, e).inFlight| ==> Apply(n, e).inFlight[a] == n.inFlight[a];
    }
  }

  /** The oldest message in flight is younger than all that was delivered. */
  lemma DeliverOrdered(n: Net, s: Socket)
    requires WireOrdered(n) && SocketOrdered(n, s) && n.inFlight != []
    ensures SocketOrdered(Apply(n, Deliver), SendLive(s, Tail(n.inFlight)))
  {
    var i, t := Tail(n.inFlight), SendLive(s, Tail(n.inFlight));
    if s.open {
      assert t.early + t.late == s.early + s.late + [i];
      forall j | j in RPop(n.inFlight)
        ensures i < j
      {
        var a :| 0 <= a < |n.inFlight| - 1 && n.inFlight[a] == j;
      }
    }
  }

  lemma SocketUntouched(n: Net, m: Net, s: Socket)
    requires SocketOrdered(n, s) && n.added <= m.added
    requires forall i :: i in m.inFlight || i in m.unpublished ==> i in n.inFlight || i in n.unpublished || i == n.added
    ensures SocketOrdered(m, s)
  {
  }

  lemma ReplayOrdered(n: Net, s: Socket)
    requires SocketOrdered(n, s) && s.stage.Ranged?
    ensures SocketOrdered(n, SendReplay(s))
  {
    assert Received(SendReplay(s)) == s.early + Window(s.from, s.upto);
  }

  lemma SocketStep(n: Net, e: Event, k: SocketId)
    requires Ordered(n) && Enabled(n, e) && InOrder(n, e) && k in Apply(n, e).sockets
    ensures SocketOrdered(Apply(n, e), Apply(n, e).sockets[k])
  {
    var m := Apply(n, e);
    if e.Deliver? {
      DeliverOrdered(n, n.sockets[k]);
    } else if k in n.sockets {
      SocketUntouched(n, m, n.sockets[k]);
      if e.Replay? && e.k == k { ReplayOrdered(m, n.sockets[k]); }
    }
  }

  lemma {:induction false} OrderedRunInv(n: Net, es: seq<Event>)
    requires Ordered(n) && IsOrderedRun(n, es)
    ensures IsRun(n, es) && Ordered(After(n, es))
    decreases |es|
  {
    OrderedRunIsRun(n, es);
    if es != [] {
      WireKept(n, es[0]);
      forall k | k in Apply(n, es[0]).sockets
        ensures SocketOrdered(Apply(n, es[0]), Apply(n, es[0]).sockets[k])
      {
        SocketStep(n, es[0], k);
      }
      OrderedRunInv(Apply(n, es[0]), es[1..]);
    }
  }

  // ── when the order shows ─────────────────────────────────────────────────

  /** No message overtook the replay: each one delivered before it came after all
      earlier entries of the window; and none was overtaken by it: once a window was
      replayed, no entry that had been trimmed from before it came in. */
  predicate InStep(s: Socket) {
    && (forall x, y: nat :: x in s.early && s.from <= y < s.upto && y < x ==> y in s.early)
    && (s.from < s.upto ==> forall y :: y in s.late ==> s.from <= y)
  }

  predicate FromWindow(s: Socket, a: nat) {
    |s.early| <= a < |s.early| + Less(s.upto, s.from)
  }

  lemma ReceivedAt(s: Socket, a: nat)
    requires a < |Received(s)|
    ensures FromWindow(s, a) ==> Received(s)[a] == s.from + (a - |s.early|) < s.upto
    ensures a < |s.early| ==> Received(s)[a] == s.early[a] == (s.early + s.late)[a]
    ensures a >= |s.early| + Less(s.upto, s.from) ==>
              && Received(s)[a] == s.late[a - |s.early| - Less(s.upto, s.from)]
              && Received(s)[a] == (s.early + s.late)[a - Less(s.upto, s.from)]
  {
  }

  /** Live entries come in order among themselves, and so do those of the window. */
  lemma SameSource(s: Socket, a: nat, b: nat)
    requires Increasing(s.early + s.late) && a < b < |Received(s)|
    requires FromWindow(s, a) == FromWindow(s, b)
    ensures Received(s)[a] < Received(s)[b]
  {
    ReceivedAt(s, a);
    ReceivedAt(s, b);
  }

  lemma InStepShows(s: Socket)
    requires InStep(s) && Increasing(s.early + s.late)
    ensures FirstsInOrder(Received(s))
  {
    var sent := Received(s);
    forall a, b | 0 <= a < b < |sent| && sent[b] < sent[a]
      ensures sent[b] in sent[..a]
    {
      if FromWindow(s, a) == FromWindow(s, b) { SameSource(s, a, b); }
      ReceivedAt(s, a);
      ReceivedAt(s, b);
      if a < |s.early| { EarlierIsBefore(s, a, sent[b]); } else { LaterIsRepeat(s, a, sent[b]); }
    }
  }

  /** An entry of the window smaller than the a-th early one is among those before it. */
  lemma EarlierIsBefore(s: Socket, a: nat, y: nat)
    requires InStep(s) && Increasing(s.early + s.late)
    requires a < |s.early| && s.from <= y < s.upto && y < s.early[a]
    ensures y in Received(s)[..a]
  {
    assert s.early[a] in s.early && y in s.early;
    var c :| 0 <= c < |s.early| && s.early[c] == y;
    assert (s.early + s.late)[c] == y && (s.early + s.late)[a] == s.early[a];
    assert Received(s)[..a] == s.early[..a];
    assert s.early[..a][c] == y;
  }

  /** A late entry smaller than one of the window has been replayed before that one. */
  lemma LaterIsRepeat(s: Socket, a: nat, y: nat)
    requires InStep(s) && FromWindow(s, a) && a < |Received(s)|
    requires y in s.late && y < Received(s)[a]
    ensures y in Received(s)[..a]
  {
    ReceivedAt(s, a);
    var c := |s.early| + (y - s.from);
    ReceivedAt(s, c);
    assert Received(s)[..a][c] == y;
  }

  lemma EarlyKeepStep(s: Socket, x: nat, y: nat)
    requires FirstsInOrder(Received(s)) && x in s.early && s.from <= y < s.upto && y < x
    ensures y in s.early
  {
    var sent := Received(s);
    var a :| 0 <= a < |s.early| && s.early[a] == x;
    ReceivedAt(s, a);
    ReceivedAt(s, |s.early| + (y - s.from));
    assert y in sent[..a] && sent[..a] == s.early[..a];
  }

  lemma FirstsAt(sent: seq<nat>, a: nat, b: nat)
    requires FirstsInOrder(sent) && a < b < |sent|
    ensures sent[b] < sent[a] ==> sent[b] in sent[..a]
  {
  }

  lemma LateKeepStep(s: Socket, y: nat)
    requires Increasing(s.early + s.late) && FirstsInOrder(Received(s))
    requires s.from < s.upto && y in s.late
    ensures s.from <= y
  {
    var e := |s.early|;
    var b :| 0 <= b < |s.late| && s.late[b] == y;
    ReceivedAt(s, e);
    ReceivedAt(s, e + Less(s.upto, s.from) + b);
    FirstsAt(Received(s), e, e + Less(s.upto, s.from) + b);
    assert Received(s)[..e] == s.early;
    EarlyBelowLate(s, b);
  }

  lemma EarlyBelowLate(s: Socket, b: nat)
    requires Increasing(s.early + s.late) && b < |s.late|
    ensures s.late[b] !in s.early
  {
    var live := s.early + s.late;
    assert live[|s.early| + b] == s.late[b];
    assert forall c :: 0 <= c < |s.early| ==> s.early[c] == live[c] < live[|s.early| + b];
  }

  lemma ShowsInStep(s: Socket)
    requires Increasing(s.early + s.late) && FirstsInOrder(Received(s))
    ensures InStep(s)
  {
    forall x, y: nat | x in s.early && s.from <= y < s.upto && y < x
      ensures y in s.early
    {
      EarlyKeepStep(s, x, y);
    }
    forall y | y in s.late && s.from < s.upto
      ensures s.from <= y
    {
      LateKeepStep(s, y);
    }
  }

  /** Exactly when a client sees the stream in order: with publishing in stream order,
      an open, replayed socket first receives the entries in stream order if and only
      if no live message overtook the replay or was overtaken by it. */
  lemma OrderShows(es: seq<Event>, k: SocketId)
    requires IsOrderedRun(QUIET, es) && IsRun(QUIET, es) && k in After(QUIET, es).sockets
    requires var s := After(QUIET, es).sockets[k]; s.open && s.stage.Replayed?
    ensures var s := After(QUIET, es).sockets[k]; FirstsInOrder(s.sent) <==> InStep(s)
  {
    OrderedRunInv(QUIET, es);
    var s := After(QUIET, es).sockets[k];
    if InStep(s) { InStepShows(s); }
    if FirstsInOrder(s.sent) { ShowsInStep(s); }
  }

  /** In particular: a socket whose registration and replay no message came between,
      and whose stream had not been trimmed, sees it in order. */
  lemma QuietReplayIsOrdered(es: seq<Event>, k: SocketId)
    requires IsOrderedRun(QUIET, es) && IsRun(QUIET, es) && k in After(QUIET, es).sockets
    requires var s := After(QUIET, es).sockets[k]; s.open && s.stage.Replayed? && s.early == [] && s.from == 0
    ensures FirstsInOrder(After(QUIET, es).sockets[k].sent)
  {
    OrderShows(es, k);
  }

  // ── and that it can fail ─────────────────────────────────────────────────

  lemma Cons(n: Net, e: Event, rest: seq<Event>)
    requires Enabled(n, e) && InOrder(n, e) && IsOrderedRun(Apply(n, e), rest) && IsRun(Apply(n, e), rest)
    ensures IsOrderedRun(n, [e] + rest) && IsRun(n, [e] + rest)
    ensures After(n, [e] + rest) == After(Apply(n, e), rest)
  {
    assert ([e] + rest)[1..] == rest;
  }

  /** Nothing failed, and everything was published in order. */
  ghost predicate Overtaken(n: Net, es: seq<Event>) {
    && IsOrderedRun(n, es) && IsRun(n, es) && 0 in After(n, es).sockets
    && After(n, es).sockets[0].sent == [1, 0] && After(n, es).lost == {}
  }

  /** A live message overtakes the replay without any failure. */
  lemma LiveOvertakesReplay() returns (es: seq<Event>)
    ensures Overtaken(QUIET, es)
  {
    var n5 := Net(1, 0, {}, [], {}, map[0 := Socket(Ranged, 0, 1, [], [], [], true)]);
    es := RangedRun(n5);
    var n4 := Net(1, 0, {}, [], {}, map[0 := Socket(Joined, 0, 0, [], [], [], true)]);
    assert Apply(n4, Range(0)) == n5;
    Cons(n4, Range(0), es);
    es := [Range(0)] + es;
    var n3 := Net(1, 0, {}, [], {}, map[]);
    assert Apply(n3, Join(0)) == n4;
    Cons(n3, Join(0), es);
    es := FirstDelivered(n3, [Join(0)] + es);
  }

  lemma DeliveredToNobody(n2: Net, n3: Net)
    requires n2 == Net(1, 0, {}, [0], {}, map[]) && n3 == Net(1, 0, {}, [], {}, map[])
    ensures Enabled(n2, Deliver) && Apply(n2, Deliver) == n3
  {
    assert n2.inFlight == [] + [Tail(n2.inFlight)] && RPop(n2.inFlight) == [];
    assert SendAll(n2.sockets, 0) == map[];
  }

  lemma FirstDelivered(n3: Net, rest: seq<Event>) returns (es: seq<Event>)
    requires n3 == Net(1, 0, {}, [], {}, map[]) && Overtaken(n3, rest)
    ensures Overtaken(QUIET, es)
  {
    var n2 := Net(1, 0, {}, [0], {}, map[]);
    DeliveredToNobody(n2, n3);
    Cons(n2, Deliver, rest);
    es := [Deliver] + rest;
    var n1 := Net(1, 0, {0}, [], {}, map[]);
    assert Apply(n1, Publish(0)) == n2;
    Cons(n1, Publish(0), es);
    es := [Publish(0)] + es;
    Cons(QUIET, Add, es);
    es := [Add] + es;
  }

  lemma SecondDelivered(n7: Net, n8: Net)
    requires n7 == Net(2, 0, {}, [1], {}, map[0 := Socket(Ranged, 0, 1, [], [], [], true)])
    requires n8 == Net(2, 0, {}, [], {}, map[0 := Socket(Ranged, 0, 1, [1], [], [1], true)])
    ensures Apply(n7, Deliver) == n8
  {
    assert n7.inFlight == [] + [Tail(n7.inFlight)] && RPop(n7.inFlight) == [];
    assert SendAll(n7.sockets, 1)[0] == n8.sockets[0];
  }

  lemma RangedRun(n5: Net) returns (es: seq<Event>)
    requires n5 == Net(1, 0, {}, [], {}, map[0 := Socket(Ranged, 0, 1, [], [], [], true)])
    ensures Overtaken(n5, es)
  {
    var n8 := Net(2, 0, {}, [], {}, map[0 := Socket(Ranged, 0, 1, [1], [], [1], true)]);
    assert Window(0, 1) == LPush([], 0) == [0];
    assert SendReplay(n8.sockets[0]).sent == [1, 0];
    Cons(n8, Replay(0), []);
    es := [Replay(0)] + [];
    var n7 := n5.(added := 2, inFlight := [1]);
    SecondDelivered(n7, n8);
    Cons(n7, Deliver, es);
    es := [Deliver] + es;
    var n6 := n5.(added := 2, unpublished := {1});
    assert Apply(n6, Publish(1)) == n7;
    Cons(n6, Publish(1), es);
    es := [Publish(1)] + es;
    Cons(n5, Add, es);
    es := [Add] + es;
  }
}
