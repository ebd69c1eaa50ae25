/** The job queue as a state machine. Every Redis command, SQL statement and SQL
    transaction is one atomic step; gateways, workers, the reaper and the
    monitor's startup recovery interleave freely, any call may fail and any
    process may crash between two calls.

    A failing call is modelled by leaving the try block from the point the
    process has reached, both before and after the call took effect, so a lost
    reply is covered as well as a lost request. */
module Protocol {
  import opened Contracts
  import opened RedisList

  /** A POST /submissions handler, keyed by the job id it drew. */
  datatype Gateway =
    | Inserted(p: Payload)   // row committed, payload not pushed
    | Pushed(p: Payload)     // payload pushed, reply not sent
    | Refusing(p: Payload)   // in the catch block, row not yet FAILED
    | Refused(p: Payload)    // row FAILED, result row not yet written

  /** Where a worker's loop stands; raw is the payload it holds. `held` says
      whether the worker has not yet removed that payload from its own list. */
  datatype Phase =
    | Idle
    | Popped(raw: Payload)        // after BRPOPLPUSH, before the claim
    | Missed(raw: Payload)        // claim matched no row
    | SawOpen(raw: Payload)       // status check found a non-terminal row
    | Repushed(raw: Payload)      // pushed back, own entry not yet removed
    | SawDone(raw: Payload)       // status check found a terminal row
    | Executing(raw: Payload)     // claimed; sandbox running
    | Committed(raw: Payload)     // result transaction committed
    | Acked(raw: Payload)         // own entry removed, completion not yet published
    | Failing(raw: Payload, held: bool)   // entered requeueWithBackoff
    | Backoff(raw: Payload, held: bool)   // row reset, waiting to push
    | Requeued(raw: Payload)      // retry pushed, own entry not yet removed
    | DlqOpen(raw: Payload)       // own entry removed, DLQ transaction not committed
    | DlqCommitted(raw: Payload)  // row FAILED, dead-letter entry not pushed
    | DlqPushed(raw: Payload)     // dead-letter entry pushed
    | Crashed

  /** The stage reached with the entry under the reaper's cursor. */
  datatype Stage = AtEntry | EntryOpen | EntryReset | EntryBuried

  /** The reaper, in the hands of whichever monitor owns the lock. `pushed`
      records whether this pass has requeued anything yet. */
  datatype Reaper =
    | Resting
    | Recovering(dead: WorkerId, entries: seq<Payload>, at: nat, stage: Stage, pushed: bool)

  /** A monitor inside recoverOrphanedJobsOnStartup, after the reset UPDATE. */
  datatype Startup = BeforeLen | BeforeSelect | Rehydrating(rest: seq<Payload>)

  datatype World = World(
    rows: Rows,
    results: Results,
    pending: seq<Payload>,
    processing: map<WorkerId, seq<Payload>>,
    deadLetter: seq<Payload>,
    gateways: map<JobId, Gateway>,
    workers: map<WorkerId, Phase>,
    reaper: Reaper,
    startups: map<MonitorId, Startup>)

  const GENESIS := World(map[], map[], [], map[], [], map[], map[], Resting, map[])

  /** A missing key is an empty list. */
  function List(s: World, w: WorkerId): seq<Payload> {
    if w in s.processing then s.processing[w] else []
  }

  function PhaseOf(s: World, w: WorkerId): Phase {
    if w in s.workers then s.workers[w] else Crashed
  }

  function SetList(s: World, w: WorkerId, list: seq<Payload>): World {
    s.(processing := s.processing[w := list])
  }

  /** The transaction of sendToDLQ. */
  function Bury(s: World, job: JobId): World {
    s.(rows := WithStatus(s.rows, job, Failed), results := s.results[job := Some(WorkerCrash)])
  }

  datatype GatewayEvent =
    | Insert(body: Body)
    | Push
    | Reply
    | Refuse                   // LPUSH or LLEN threw
    | MarkFailed               // first statement of the catch block
    | RecordUnknown            // second statement of the catch block
    | Vanish                   // crash, or an error inside the catch block

  /** The try block of processQueue, plus the life and death of a worker. */
  datatype WorkerEvent =
    | Start
    | Pop
    | PopUnseen                // the move happened, its reply was lost
    | Claim
    | ClaimMiss
    | SeeOpen
    | SeeDone
    | Repush
    | Discard                  // LREM after Repush or SeeDone
    | DiscardUnseen            // the same, its reply lost
    | Commit(report: SandboxReport)
    | Ack
    | Publish
    | Fail                     // an exception reaches the outer catch
    | Crash

  /** requeueWithBackoff and sendToDLQ, called from the catch block. */
  datatype RetryEvent =
    | Reset
    | RequeuePush
    | RequeueAck
    | DlqRemove
    | DlqCommit
    | DlqPush
    | DlqPublish
    | Abandon                  // an exception inside requeueWithBackoff

  datatype ReaperEvent =
    | Read(dead: WorkerId)
    | Skip
    | See
    | ResetEntry
    | PushEntry
    | BuryEntry
    | DeadLetterEntry
    | Delete
    | Stop                     // monitor crash, or an exception aborting the scan

  datatype StartupEvent =
    | ResetRunning
    | Length
    | Select(answer: seq<JobId>)
    | PushRow
    | Leave

  datatype Event =
    | OfGateway(job: JobId, g: GatewayEvent)
    | OfWorker(w: WorkerId, a: WorkerEvent)
    | OfRetry(w: WorkerId, r: RetryEvent)
    | OfReaper(c: ReaperEvent)
    | OfStartup(m: MonitorId, u: StartupEvent)

  function SubmittedAt(rows: Rows, job: JobId): nat {
    if job in rows then rows[job].body.submittedAt else 0
  }

  /** A correct reply to SELECT ... WHERE status = PENDING ORDER BY created_at. */
  ghost predicate IsPendingListing(rows: Rows, answer: seq<JobId>) {
    && (forall j :: j in answer <==> HasStatus(rows, j, Pending))
    && (forall i, k :: 0 <= i < k < |answer| ==> answer[i] != answer[k])
    && (forall i, k :: 0 <= i < k < |answer| ==> SubmittedAt(rows, answer[i]) <= SubmittedAt(rows, answer[k]))
  }

  function PayloadOf(rows: Rows, job: JobId): Payload
    requires job in rows
  {
    Payload(job, rows[job].retry, rows[job].body)
  }

  function Rehydration(rows: Rows, answer: seq<JobId>): (r: seq<Payload>)
    requires forall j :: j in answer ==> j in rows
    ensures |r| == |answer|
    ensures forall i :: 0 <= i < |r| ==> r[i] == PayloadOf(rows, answer[i])
  {
    if answer == [] then [] else [PayloadOf(rows, answer[0])] + Rehydration(rows, answer[1..])
  }

  predicate InTry(phase: Phase) {
    phase.Popped? || phase.Missed? || phase.SawOpen? || phase.Repushed? || phase.SawDone?
    || phase.Executing? || phase.Committed? || phase.Acked?
  }

  predicate InCatch(phase: Phase) {
    phase.Failing? || phase.Backoff? || phase.Requeued?
    || phase.DlqOpen? || phase.DlqCommitted? || phase.DlqPushed?
  }

  predicate Exhausted(p: Payload) {
    p.retry + 1 > MAX_RETRY_COUNT
  }

  predicate AtStage(s: World, stage: Stage) {
    s.reaper.Recovering? && s.reaper.at < |s.reaper.entries| && s.reaper.stage == stage
  }

  function Entry(s: World): Payload
    requires s.reaper.Recovering? && s.reaper.at < |s.reaper.entries|
  {
    s.reaper.entries[s.reaper.at]
  }

  function Advance(s: World): World
    requires s.reaper.Recovering?
  {
    s.(reaper := s.reaper.(at := s.reaper.at + 1, stage := AtEntry))
  }

  predicate GatewayEnabled(s: World, j: JobId, g: GatewayEvent) {
    match g
    case Insert(_) => j !in s.rows && j !in s.gateways
    case Push => j in s.gateways && s.gateways[j].Inserted?
    case Reply => j in s.gateways && s.gateways[j].Pushed?
    case Refuse => j in s.gateways && (s.gateways[j].Inserted? || s.gateways[j].Pushed?)
    case MarkFailed => j in s.gateways && s.gateways[j].Refusing?
    case RecordUnknown => j in s.gateways && s.gateways[j].Refused?
    case Vanish => j in s.gateways
  }

  function GatewayStep(s: World, j: JobId, g: GatewayEvent): World
    requires GatewayEnabled(s, j, g)
  {
    match g
    case Insert(body) =>
      s.(rows := s.rows[j := Row(Pending, 0, body)], gateways := s.gateways[j := Inserted(Payload(j, 0, body))])
    case Push =>
      s.(pending := LPush(s.pending, s.gateways[j].p), gateways := s.gateways[j := Pushed(s.gateways[j].p)])
    case Reply => s.(gateways := s.gateways - {j})
    case Refuse => s.(gateways := s.gateways[j := Refusing(s.gateways[j].p)])
    case MarkFailed =>
      s.(rows := WithStatus(s.rows, j, Failed), gateways := s.gateways[j := Refused(s.gateways[j].p)])
    case RecordUnknown =>
      s.(results := s.results[j := Some(Unknown)], gateways := s.gateways - {j})
    case Vanish => s.(gateways := s.gateways - {j})
  }

  /** Everything one worker can see or touch: the tables, the shared lists, its
      own processing list and its own phase. */
  datatype View = View(
    rows: Rows,
    results: Results,
    pending: seq<Payload>,
    deadLetter: seq<Payload>,
    list: seq<Payload>,
    phase: Phase)

  function Look(s: World, w: WorkerId): View {
    View(s.rows, s.results, s.pending, s.deadLetter, List(s, w), PhaseOf(s, w))
  }

  function Put(s: World, w: WorkerId, v: View): World {
    s.(rows := v.rows, results := v.results, pending := v.pending, deadLetter := v.deadLetter,
       processing := s.processing[w := v.list], workers := s.workers[w := v.phase])
  }

  predicate WorkerCan(v: View, a: WorkerEvent) {
    match a
    case Start => v.phase.Crashed? && v.list == []
    case Pop => v.phase.Idle? && v.pending != []
    case PopUnseen => v.phase.Idle? && v.pending != []
    case Claim => v.phase.Popped? && HasStatus(v.rows, v.phase.raw.job, Pending)
    case ClaimMiss => v.phase.Popped? && !HasStatus(v.rows, v.phase.raw.job, Pending)
    case SeeOpen => v.phase.Missed? && !IsClosed(v.rows, v.phase.raw.job)
    case SeeDone => v.phase.Missed? && IsClosed(v.rows, v.phase.raw.job)
    case Repush => v.phase.SawOpen?
    case Discard => v.phase.Repushed? || v.phase.SawDone?
    case DiscardUnseen => v.phase.Repushed? || v.phase.SawDone?
    case Commit(_) => v.phase.Executing?
    case Ack => v.phase.Committed?
    case Publish => v.phase.Acked?
    case Fail => InTry(v.phase)
    case Crash => !v.phase.Crashed?
  }

  function WorkerDo(v: View, a: WorkerEvent): View
    requires WorkerCan(v, a)
  {
    match a
    case Start => v.(phase := Idle)
    case Pop =>
      v.(pending := RPop(v.pending), list := LPush(v.list, Tail(v.pending)), phase := Popped(Tail(v.pending)))
    case PopUnseen => v.(pending := RPop(v.pending), list := LPush(v.list, Tail(v.pending)))
    case Claim => v.(rows := WithStatus(v.rows, v.phase.raw.job, Running), phase := Executing(v.phase.raw))
    case ClaimMiss => v.(phase := Missed(v.phase.raw))
    case SeeOpen => v.(phase := SawOpen(v.phase.raw))
    case SeeDone => v.(phase := SawDone(v.phase.raw))
    case Repush => v.(pending := LPush(v.pending, v.phase.raw), phase := Repushed(v.phase.raw))
    case Discard => v.(list := LRem(v.list, v.phase.raw), phase := Idle)
    case DiscardUnseen => v.(list := LRem(v.list, v.phase.raw), phase := Failing(v.phase.raw, false))
    case Commit(report) =>
      v.(rows := WithStatus(v.rows, v.phase.raw.job, Judge(report).status),
         results := v.results[v.phase.raw.job := Judge(report).category],
         phase := Committed(v.phase.raw))
    case Ack => v.(list := LRem(v.list, v.phase.raw), phase := Acked(v.phase.raw))
    case Publish => v.(phase := Idle)
    case Fail => v.(phase := Failing(v.phase.raw, !v.phase.Acked?))
    case Crash => v.(phase := Crashed)
  }

  /** A restarted container draws a new worker id. */
  predicate WorkerEnabled(s: World, w: WorkerId, a: WorkerEvent) {
    WorkerCan(Look(s, w), a) && (a.Start? ==> w !in s.workers)
  }

  function WorkerStep(s: World, w: WorkerId, a: WorkerEvent): World
    requires WorkerEnabled(s, w, a)
  {
    Put(s, w, WorkerDo(Look(s, w), a))
  }

  predicate RetryCan(v: View, r: RetryEvent) {
    match r
    case Reset => v.phase.Failing? && !Exhausted(v.phase.raw)
    case RequeuePush => v.phase.Backoff?
    case RequeueAck => v.phase.Requeued?
    case DlqRemove => v.phase.Failing? && Exhausted(v.phase.raw)
    case DlqCommit => v.phase.DlqOpen?
    case DlqPush => v.phase.DlqCommitted?
    case DlqPublish => v.phase.DlqPushed?
    case Abandon => InCatch(v.phase)
  }

  function RetryDo(v: View, r: RetryEvent): View
    requires RetryCan(v, r)
  {
    match r
    case Reset =>
      v.(rows := ResetTo(v.rows, v.phase.raw.job, v.phase.raw.retry + 1), phase := Backoff(v.phase.raw, v.phase.held))
    case RequeuePush => v.(pending := LPush(v.pending, Retried(v.phase.raw)), phase := Requeued(v.phase.raw))
    case RequeueAck => v.(list := LRem(v.list, v.phase.raw), phase := Idle)
    case DlqRemove => v.(list := LRem(v.list, v.phase.raw), phase := DlqOpen(v.phase.raw))
    case DlqCommit =>
      v.(rows := WithStatus(v.rows, v.phase.raw.job, Failed),
         results := v.results[v.phase.raw.job := Some(WorkerCrash)],
         phase := DlqCommitted(v.phase.raw))
    case DlqPush => v.(deadLetter := LPush(v.deadLetter, v.phase.raw), phase := DlqPushed(v.phase.raw))
    case DlqPublish => v.(phase := Idle)
    case Abandon => v.(phase := Idle)
  }

  predicate RetryEnabled(s: World, w: WorkerId, r: RetryEvent) {
    RetryCan(Look(s, w), r)
  }

  function RetryStep(s: World, w: WorkerId, r: RetryEvent): World
    requires RetryEnabled(s, w, r)
  {
    Put(s, w, RetryDo(Look(s, w), r))
  }

  predicate ReaperEnabled(s: World, c: ReaperEvent) {
    match c
    case Read(w) => s.reaper.Resting? && w in s.workers && s.workers[w].Crashed?
    case Skip => AtStage(s, AtEntry) && IsClosed(s.rows, Entry(s).job)
    case See => AtStage(s, AtEntry) && !IsClosed(s.rows, Entry(s).job)
    case ResetEntry => AtStage(s, EntryOpen) && !Exhausted(Entry(s))
    case PushEntry => AtStage(s, EntryReset)
    case BuryEntry => AtStage(s, EntryOpen) && Exhausted(Entry(s))
    case DeadLetterEntry => AtStage(s, EntryBuried)
    case Delete => s.reaper.Recovering? && s.reaper.at >= |s.reaper.entries|
    case Stop => s.reaper.Recovering?
  }

  function ReaperStep(s: World, c: ReaperEvent): World
    requires ReaperEnabled(s, c)
  {
    match c
    case Read(w) => s.(reaper := Recovering(w, List(s, w), 0, AtEntry, false))
    case Skip => Advance(s)
    case See => s.(reaper := s.reaper.(stage := EntryOpen))
    case ResetEntry =>
      s.(rows := ResetTo(s.rows, Entry(s).job, Entry(s).retry + 1), reaper := s.reaper.(stage := EntryReset))
    case PushEntry =>
      s.(pending := LPush(s.pending, Retried(Entry(s))),
         reaper := s.reaper.(at := s.reaper.at + 1, stage := AtEntry, pushed := true))
    case BuryEntry => Bury(s, Entry(s).job).(reaper := s.reaper.(stage := EntryBuried))
    case DeadLetterEntry => Advance(s).(deadLetter := LPush(s.deadLetter, Entry(s)))
    case Delete => SetList(s, s.reaper.dead, []).(reaper := Resting)
    case Stop => s.(reaper := Resting)
  }

  ghost predicate StartupEnabled(s: World, m: MonitorId, u: StartupEvent) {
    match u
    case ResetRunning => m !in s.startups
    case Length => m in s.startups && s.startups[m].BeforeLen?
    case Select(answer) => m in s.startups && s.startups[m].BeforeSelect? && IsPendingListing(s.rows, answer)
    case PushRow => m in s.startups && s.startups[m].Rehydrating? && s.startups[m].rest != []
    case Leave => m in s.startups
  }

  /** UPDATE submissions SET status = PENDING WHERE status = RUNNING. */
  function AllReset(rows: Rows): (r: Rows)
    ensures r.Keys == rows.Keys
    ensures forall j :: j in rows ==>
      r[j] == if rows[j].status.Running? then rows[j].(status := Pending) else rows[j]
  {
    map j | j in rows :: if rows[j].status.Running? then rows[j].(status := Pending) else rows[j]
  }

  ghost function StartupStep(s: World, m: MonitorId, u: StartupEvent): World
    requires StartupEnabled(s, m, u)
  {
    match u
    case ResetRunning => s.(rows := AllReset(s.rows), startups := s.startups[m := BeforeLen])
    case Length => s.(startups := if s.pending == [] then s.startups[m := BeforeSelect] else s.startups - {m})
    case Select(answer) => s.(startups := s.startups[m := Rehydrating(Rehydration(s.rows, answer))])
    case PushRow =>
      s.(pending := LPush(s.pending, s.startups[m].rest[0]),
         startups := s.startups[m := Rehydrating(s.startups[m].rest[1..])])
    case Leave => s.(startups := s.startups - {m})
  }

  ghost predicate Enabled(s: World, e: Event) {
    match e
    case OfGateway(j, g) => GatewayEnabled(s, j, g)
    case OfWorker(w, a) => WorkerEnabled(s, w, a)
    case OfRetry(w, r) => RetryEnabled(s, w, r)
    case OfReaper(c) => ReaperEnabled(s, c)
    case OfStartup(m, u) => StartupEnabled(s, m, u)
  }

  ghost function Apply(s: World, e: Event): World
    requires Enabled(s, e)
  {
    match e
    case OfGateway(j, g) => GatewayStep(s, j, g)
    case OfWorker(w, a) => WorkerStep(s, w, a)
    case OfRetry(w, r) => RetryStep(s, w, r)
    case OfReaper(c) => ReaperStep(s, c)
    case OfStartup(m, u) => StartupStep(s, m, u)
  }

  /** A run is the list of its events. */
  ghost predicate IsRun(s: World, es: seq<Event>)
    decreases |es|, 0
  {
    es == [] || (IsRun(s, Before(es)) && Enabled(After(s, Before(es)), Last(es)))
  }

  ghost function After(s: World, es: seq<Event>): World
    requires IsRun(s, es)
    decreases |es|, 1
  {
    if es == [] then s else Apply(After(s, Before(es)), Last(es))
  }

  function Before(es: seq<Event>): (r: seq<Event>)
    requires es != []
    ensures |r| == |es| - 1
  {
    es[..|es| - 1]
  }

  function Last(es: seq<Event>): Event
    requires es != []
  {
    es[|es| - 1]
  }

  lemma RunSnoc(s: World, es: seq<Event>, e: Event)
    requires IsRun(s, es) && Enabled(After(s, es), e)
    ensures IsRun(s, es + [e]) && After(s, es + [e]) == Apply(After(s, es), e)
  {
    assert Before(es + [e]) == es;
  }
}
