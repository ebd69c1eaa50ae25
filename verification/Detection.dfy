/** Dead-worker detection. The reaper SCANs the processing keys, then the heartbeat
    keys, and calls dead whoever has the first but not the second. SCAN returns keys
    in batches while workers start, beat, pop and let keys expire; all it guarantees
    is that a key present throughout the iteration is returned. */
module Detection {
  import opened Contracts

  // ── from keys to ids ─────────────────────────────────────────────────────

  const PROCESSING_PREFIX := "jobs:queue:processing:"
  const HEARTBEAT_PREFIX := "worker:heartbeat:"

  /** String.replace with a string pattern: only the first occurrence goes. */
  function RemoveFirst(s: string, pattern: string): string {
    if |pattern| <= |s| && s[..|pattern|] == pattern then s[|pattern|..]
    else if s == [] then []
    else [s[0]] + RemoveFirst(s[1..], pattern)
  }

  function ProcessingKey(id: string): string { PROCESSING_PREFIX + id }
  function HeartbeatKey(id: string): string { HEARTBEAT_PREFIX + id }
  function IdFromQueue(key: string): string { RemoveFirst(key, PROCESSING_PREFIX) }
  function IdFromHeartbeat(key: string): string { RemoveFirst(key, HEARTBEAT_PREFIX) }

  /** Extracting the id undoes building the key, whatever the id. */
  lemma KeysRoundTrip(id: string)
    ensures IdFromQueue(ProcessingKey(id)) == id && IdFromHeartbeat(HeartbeatKey(id)) == id
  {
    assert ProcessingKey(id)[..|PROCESSING_PREFIX|] == PROCESSING_PREFIX;
    assert HeartbeatKey(id)[..|HEARTBEAT_PREFIX|] == HEARTBEAT_PREFIX;
  }

  /** The comparison loop of runReaperScan over the two lists of scanned keys. */
  method FindDeadWorkers(queueKeys: seq<string>, heartbeatKeys: seq<string>) returns (dead: seq<string>)
    ensures forall id :: id in dead <==>
      && (exists k :: k in queueKeys && IdFromQueue(k) == id)
      && !(exists k :: k in heartbeatKeys && IdFromHeartbeat(k) == id)
    ensures forall i, k :: 0 <= i < k < |dead| ==> dead[i] != dead[k]
  {
    var alive := {};
    var h := 0;
    while h < |heartbeatKeys|
      invariant 0 <= h <= |heartbeatKeys|
      invariant forall id :: id in alive <==> exists k :: k in heartbeatKeys[..h] && IdFromHeartbeat(k) == id
    {
      alive := alive + {IdFromHeartbeat(heartbeatKeys[h])};
      assert heartbeatKeys[..h + 1] == heartbeatKeys[..h] + [heartbeatKeys[h]];
      h := h + 1;
    }
    assert heartbeatKeys[..h] == heartbeatKeys;
    dead := [];
    var seen := {};
    var q := 0;
    while q < |queueKeys|
      invariant 0 <= q <= |queueKeys|
      invariant forall id :: id in seen <==> exists k :: k in queueKeys[..q] && IdFromQueue(k) == id
      invariant forall id :: id in dead <==> id in seen && id !in alive
      invariant forall i, k :: 0 <= i < k < |dead| ==> dead[i] != dead[k]
    {
      var id := IdFromQueue(queueKeys[q]);
      if id !in seen && id !in alive {
        dead := dead + [id];
      }
      seen := seen + {id};
      assert queueKeys[..q + 1] == queueKeys[..q] + [queueKeys[q]];
      q := q + 1;
    }
    assert queueKeys[..q] == queueKeys;
  }

  // ── two scans against running workers ────────────────────────────────────

  /** An iteration of SCAN: what it has returned, the keys present ever since it
      began, and the keys present at some time since. */
  datatype Iteration = Iteration(found: set<WorkerId>, always: set<WorkerId>, ever: set<WorkerId>)

  datatype Leg = Off | OverLists | Between | OverBeats | Decided

  /** How far the reaper's two scans have come, and what they have returned. */
  datatype Scan = Scan(leg: Leg, lists: Iteration, beats: Iteration)

  /** begun: workers whose first sendHeartbeat has returned. lapsed: workers whose
      heartbeat key was missing at some time since then. */
  datatype Fleet = Fleet(
    beating: set<WorkerId>,
    queues: set<WorkerId>,
    begun: set<WorkerId>,
    lapsed: set<WorkerId>,
    scan: Scan)

  datatype FleetEvent =
    | Begin(w: WorkerId, heard: bool)   // a failed heartbeat is logged and ignored
    | Beat(w: WorkerId)
    | Expire(w: WorkerId)
    | PopJob(w: WorkerId)
    | QueueGone(w: WorkerId)
    | ScanLists
    | ListBatch(batch: set<WorkerId>)
    | EndLists
    | ScanBeats
    | BeatBatch(batch: set<WorkerId>)
    | EndBeats
    | Rest

  const NOTHING := Iteration({}, {}, {})

  const QUIET := Fleet({}, {}, {}, {}, Scan(Off, NOTHING, NOTHING))

  function Appears(it: Iteration, w: WorkerId): Iteration {
    it.(ever := it.ever + {w})
  }

  function Disappears(it: Iteration, w: WorkerId): Iteration {
    it.(always := it.always - {w})
  }

  function Returns(it: Iteration, batch: set<WorkerId>): Iteration {
    it.(found := it.found + batch)
  }

  predicate FleetCan(f: Fleet, e: FleetEvent) {
    match e
    case Begin(w, _) => w !in f.begun
    case Beat(w) => w in f.begun
    case Expire(w) => w in f.beating
    case PopJob(w) => w in f.begun
    case QueueGone(w) => w in f.queues
    case ScanLists => f.scan.leg.Off?
    case ListBatch(batch) => f.scan.leg.OverLists? && batch <= f.queues
    case EndLists => f.scan.leg.OverLists? && f.scan.lists.always <= f.scan.lists.found
    case ScanBeats => f.scan.leg.Between?
    case BeatBatch(batch) => f.scan.leg.OverBeats? && batch <= f.beating
    case EndBeats => f.scan.leg.OverBeats? && f.scan.beats.always <= f.scan.beats.found
    case Rest => f.scan.leg.Decided?
  }

  function NoteBeat(scan: Scan, w: WorkerId): Scan {
    if scan.leg.OverBeats? then scan.(beats := Appears(scan.beats, w)) else scan
  }

  function FleetDo(f: Fleet, e: FleetEvent): Fleet
    requires FleetCan(f, e)
  {
    match e
    case Begin(w, heard) =>
      if heard then f.(begun := f.begun + {w}, beating := f.beating + {w}, scan := NoteBeat(f.scan, w))
      else f.(begun := f.begun + {w}, lapsed := f.lapsed + {w})
    case Beat(w) => f.(beating := f.beating + {w}, scan := NoteBeat(f.scan, w))
    case Expire(w) =>
      f.(beating := f.beating - {w}, lapsed := f.lapsed + {w},
         scan := if f.scan.leg.OverBeats? then f.scan.(beats := Disappears(f.scan.beats, w)) else f.scan)
    case PopJob(w) =>
      f.(queues := f.queues + {w},
         scan := if f.scan.leg.OverLists? then f.scan.(lists := Appears(f.scan.lists, w)) else f.scan)
    case QueueGone(w) =>
      f.(queues := f.queues - {w},
         scan := if f.scan.leg.OverLists? then f.scan.(lists := Disappears(f.scan.lists, w)) else f.scan)
    case ScanLists => f.(scan := f.scan.(leg := OverLists, lists := Iteration({}, f.queues, f.queues)))
    case ListBatch(batch) => f.(scan := f.scan.(lists := Returns(f.scan.lists, batch)))
    case EndLists => f.(scan := f.scan.(leg := Between))
    case ScanBeats => f.(scan := f.scan.(leg := OverBeats, beats := Iteration({}, f.beating, f.beating)))
    case BeatBatch(batch) => f.(scan := f.scan.(beats := Returns(f.scan.beats, batch)))
    case EndBeats => f.(scan := f.scan.(leg := Decided))
    case Rest => f.(scan := f.scan.(leg := Off))
  }

  /** deadWorkerIds. */
  function Dead(scan: Scan): set<WorkerId>
    requires scan.leg.Decided?
  {
    scan.lists.found - scan.beats.found
  }

  ghost predicate FleetRun(es: seq<FleetEvent>)
    decreases |es|, 0
  {
    es == [] || (FleetRun(es[..|es| - 1]) && FleetCan(FleetAfter(es[..|es| - 1]), es[|es| - 1]))
  }

  ghost function FleetAfter(es: seq<FleetEvent>): Fleet
    requires FleetRun(es)
    decreases |es|, 1
  {
    if es == [] then QUIET else FleetDo(FleetAfter(es[..|es| - 1]), es[|es| - 1])
  }

  ghost predicate ListsSound(it: Iteration, begun: set<WorkerId>) {
    it.found <= it.ever && it.always <= it.ever && it.ever <= begun
  }

  ghost predicate FleetInv(f: Fleet) {
    && f.queues <= f.begun && f.beating <= f.begun
    && f.begun - f.lapsed <= f.beating
    && (f.scan.leg.OverLists? ==> ListsSound(f.scan.lists, f.begun) && f.queues <= f.scan.lists.ever)
    && (f.scan.leg.Between? || f.scan.leg.OverBeats? || f.scan.leg.Decided? ==>
          ListsSound(f.scan.lists, f.begun) && f.scan.lists.always <= f.scan.lists.found)
    && (f.scan.leg.OverBeats? ==>
          f.beating <= f.scan.beats.ever && f.scan.lists.found - f.lapsed <= f.scan.beats.always)
    && (f.scan.leg.OverBeats? || f.scan.leg.Decided? ==> f.scan.beats.found <= f.scan.beats.ever)
    && (f.scan.leg.Decided? ==>
          f.scan.lists.found - f.lapsed <= f.scan.beats.found && f.scan.beats.always <= f.scan.beats.found)
  }

  lemma FleetStep(f: Fleet, e: FleetEvent)
    requires FleetInv(f) && FleetCan(f, e)
    ensures FleetInv(FleetDo(f, e))
  {
  }

  lemma {:induction false} FleetRunInv(es: seq<FleetEvent>)
    requires FleetRun(es)
    ensures FleetInv(FleetAfter(es))
    decreases |es|
  {
    if es != [] {
      FleetRunInv(es[..|es| - 1]);
      FleetStep(FleetAfter(es[..|es| - 1]), es[|es| - 1]);
    }
  }

  /** No live worker is reaped: a worker whose heartbeat key has been present ever
      since its first heartbeat is never called dead, however the scans interleave
      with workers starting and popping. */
  lemma LiveWorkersAreSpared(es: seq<FleetEvent>, w: WorkerId)
    requires FleetRun(es) && FleetAfter(es).scan.leg.Decided? && w !in FleetAfter(es).lapsed
    ensures w !in Dead(FleetAfter(es).scan)
  {
    FleetRunInv(es);
  }

  /** Only workers that had begun, and whose key was missing at the start of the
      second scan or at some time during it, are called dead. */
  lemma ReapedKeysWereMissing(es: seq<FleetEvent>, w: WorkerId)
    requires FleetRun(es) && FleetAfter(es).scan.leg.Decided? && w in Dead(FleetAfter(es).scan)
    ensures w in FleetAfter(es).begun && w !in FleetAfter(es).scan.beats.always
  {
    FleetRunInv(es);
  }

  /** A worker whose key is missing throughout the second scan, and whose list is
      present throughout the first, is always called dead. */
  lemma DeadWorkersAreFound(es: seq<FleetEvent>, w: WorkerId)
    requires FleetRun(es) && FleetAfter(es).scan.leg.Decided?
    requires w in FleetAfter(es).scan.lists.always && w !in FleetAfter(es).scan.beats.ever
    ensures w in Dead(FleetAfter(es).scan)
  {
    FleetRunInv(es);
  }

  lemma Extend(es: seq<FleetEvent>, e: FleetEvent) returns (es': seq<FleetEvent>)
    requires FleetRun(es) && FleetCan(FleetAfter(es), e)
    ensures FleetRun(es') && FleetAfter(es') == FleetDo(FleetAfter(es), e)
  {
    es' := es + [e];
    assert es'[..|es'| - 1] == es;
  }

  /** The premise is needed: a worker whose first heartbeat got lost may be reaped
      while it is executing its first job. */
  lemma UnheardWorkerIsReaped(w: WorkerId) returns (es: seq<FleetEvent>)
    ensures FleetRun(es) && FleetAfter(es).scan.leg.Decided?
    ensures w in FleetAfter(es).begun && w in Dead(FleetAfter(es).scan)
  {
    es := Extend([], Begin(w, false));
    es := Extend(es, PopJob(w));
    es := Extend(es, ScanLists);
    es := Extend(es, ListBatch({w}));
    es := Extend(es, EndLists);
    es := Extend(es, ScanBeats);
    es := Extend(es, EndBeats);
  }
}
