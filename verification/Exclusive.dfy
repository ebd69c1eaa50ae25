/** What the single-copy regime guarantees: no two processes ever act on the same
    job, claims never miss, statuses follow the documented lifecycle, terminal rows
    never change, a job is claimed at most four times and takes a bounded number of
    steps. */
module Exclusive {
  import opened Contracts
  import opened RedisList
  import opened Protocol
  import opened Soundness
  import opened NoLoss
  import opened SingleCopy

  /** The conditional UPDATE always finds the row PENDING. */
  lemma ClaimNeverMisses(es: seq<Event>, w: WorkerId)
    requires IsRun(GENESIS, es) && CalmRun(es) && PhaseOf(After(GENESIS, es), w).Popped?
    ensures Enabled(After(GENESIS, es), OfWorker(w, Claim)) && !Enabled(After(GENESIS, es), OfWorker(w, ClaimMiss))
  {
    CalmRunsAreSingle(es);
  }

  /** No two workers are ever between pop and acknowledgement of the same job. */
  lemma ExclusiveExecution(es: seq<Event>, w: WorkerId, u: WorkerId)
    requires IsRun(GENESIS, es) && CalmRun(es) && w != u
    requires ActsOnRow(PhaseOf(After(GENESIS, es), w)) && ActsOnRow(PhaseOf(After(GENESIS, es), u))
    ensures PhaseOf(After(GENESIS, es), w).raw.job != PhaseOf(After(GENESIS, es), u).raw.job
  {
    var s := After(GENESIS, es);
    CalmRunsAreSingle(es);
    SeatOwned(s, w);
    SeatOwned(s, u);
  }

  /** The entries behind the cursor are among those not yet passed, and those among
      all the list's. */
  lemma BehindCursor(entries: seq<Payload>, at: nat, cursor: nat, p: Payload)
    requires at <= cursor <= at + 1 && cursor <= |entries|
    ensures Count(entries[cursor..], p) <= Count(entries[at..], p) <= Count(entries, p)
  {
    CountSplit(entries, at, p);
    if cursor > at { CountFrom(entries, at, p); }
  }

  lemma LiveUnderCursor(s: World, w: WorkerId, p: Payload)
    requires Inv(s) && UnderCursor(s, w)
    ensures Copies(s, OnList(w), p) <= Owned(s, OnList(w), p)
  {
    BehindCursor(s.reaper.entries, s.reaper.at, Cursor(s.reaper), p);
  }

  lemma LiveIsOwned(s: World, pl: Place, p: Payload)
    requires Inv(s)
    ensures Copies(s, pl, p) <= Owned(s, pl, p)
  {
    if pl.OnList? && UnderCursor(s, pl.w) { LiveUnderCursor(s, pl.w, p); }
  }

  /** An open job that was never lost has exactly one live copy. */
  lemma ExactlyOneCopy(es: seq<Event>, j: JobId) returns (pl: Place, p: Payload)
    requires IsRun(GENESIS, es) && CalmRun(es) && NeverLost(es, j) && IsOpen(After(GENESIS, es).rows, j)
    ensures p.job == j && Copies(After(GENESIS, es), pl, p) == 1
    ensures forall pl', p': Payload :: p'.job == j && Copies(After(GENESIS, es), pl', p') > 0 ==> pl' == pl && p' == p
  {
    var s := After(GENESIS, es);
    CalmRunsAreSingle(es);
    NoJobLost(es, j);
    pl, p :| p.job == j && Copies(s, pl, p) > 0;
    LiveIsOwned(s, pl, p);
    forall pl', p': Payload | p'.job == j && Copies(s, pl', p') > 0 ensures pl' == pl && p' == p {
      LiveIsOwned(s, pl', p');
    }
  }

  // ── lifecycle ────────────────────────────────────────────────────────────

  /** The row is untouched, only its retry count changes while it is PENDING, or
      its status moves along an edge of the lifecycle. */
  predicate Orderly(before: Row, after: Row) {
    after == before || (before.status.Pending? && after.status.Pending?) || Lifecycle(before.status, after.status)
  }

  /** The edges of the documented job lifecycle. */
  predicate Lifecycle(before: Status, after: Status) {
    || (before.Pending? && (after.Running? || after.Failed?))
    || (before.Running? && (IsTerminal(after) || after.Pending?))
  }

  lemma ViewLifecycle(v: View, v': View, j: JobId)
    requires PhaseFact(v.rows, v.phase) && j in v.rows
    requires (exists a :: WorkerCan(v, a) && v' == WorkerDo(v, a))
             || (exists r :: RetryCan(v, r) && v' == RetryDo(v, r))
    ensures j in v'.rows && Orderly(v.rows[j], v'.rows[j])
  {
  }

  lemma ReaperLifecycle(s: World, c: ReaperEvent, j: JobId)
    requires Single(s) && ReaperEnabled(s, c) && j in s.rows
    ensures j in ReaperStep(s, c).rows && Orderly(s.rows[j], ReaperStep(s, c).rows[j])
  {
    assert ReaperFact(s, s.rows);
  }

  lemma GatewayLifecycle(s: World, i: JobId, g: GatewayEvent, j: JobId)
    requires Single(s) && GatewayEnabled(s, i, g) && j in s.rows
    ensures j in GatewayStep(s, i, g).rows && Orderly(s.rows[j], GatewayStep(s, i, g).rows[j])
  {
    if g.MarkFailed? { assert GatewayFact(s.rows, s.gateways[i]) && s.gateways[i].p.job == i; }
  }

  /** Every status change of an existing row is an edge of the lifecycle. */
  lemma StepLifecycle(s: World, e: Event, j: JobId)
    requires Single(s) && Enabled(s, e) && Calm(s, e) && j in s.rows
    ensures j in Apply(s, e).rows && Orderly(s.rows[j], Apply(s, e).rows[j])
  {
    match e
    case OfGateway(i, g) => GatewayLifecycle(s, i, g, j);
    case OfWorker(w, a) => ViewLifecycle(Look(s, w), WorkerDo(Look(s, w), a), j);
    case OfRetry(w, r) => ViewLifecycle(Look(s, w), RetryDo(Look(s, w), r), j);
    case OfReaper(c) => ReaperLifecycle(s, c, j);
  }

  /** At some point of the run the row of j read `row`. */
  ghost predicate Once(es: seq<Event>, j: JobId, row: Row)
    requires IsRun(GENESIS, es)
    decreases |es|
  {
    (j in After(GENESIS, es).rows && After(GENESIS, es).rows[j] == row) || (es != [] && Once(Before(es), j, row))
  }

  lemma TerminalStays(s: World, e: Event, j: JobId)
    requires Single(s) && Enabled(s, e) && Calm(s, e) && IsClosed(s.rows, j)
    ensures j in Apply(s, e).rows && Apply(s, e).rows[j] == s.rows[j]
  {
    StepLifecycle(s, e, j);
    OrderlyClosed(s.rows[j], Apply(s, e).rows[j]);
  }

  lemma OrderlyClosed(before: Row, after: Row)
    requires Orderly(before, after) && IsTerminal(before.status)
    ensures after == before
  {
  }

  /** Terminal states are absorbing over whole runs. */
  lemma {:induction false} TerminalIsForever(es: seq<Event>, j: JobId, row: Row)
    requires IsRun(GENESIS, es) && CalmRun(es) && Once(es, j, row) && IsTerminal(row.status)
    ensures j in After(GENESIS, es).rows && After(GENESIS, es).rows[j] == row
    decreases |es|
  {
    if es != [] && Once(Before(es), j, row) {
      TerminalIsForever(Before(es), j, row);
      CalmRunsAreSingle(Before(es));
      TerminalStays(After(GENESIS, Before(es)), Last(es), j);
    }
  }

  // ── and outside the regime ───────────────────────────────────────────────

  /** A write that gives the row of j another status than the one it has. */
  predicate Rewrites(s: World, e: Event, j: JobId)
    requires j in s.rows
  {
    match e
    case OfGateway(i, g) => g.MarkFailed? && i == j && !s.rows[j].status.Failed?
    case OfWorker(w, a) => a.Commit? && PhaseOf(s, w).Executing? && PhaseOf(s, w).raw.job == j
                           && Judge(a.report).status != s.rows[j].status
    case OfRetry(w, r) => InCatch(PhaseOf(s, w)) && PhaseOf(s, w).raw.job == j
                          && (r.Reset? || (r.DlqCommit? && !s.rows[j].status.Failed?))
    case OfReaper(c) => AtStage(s, EntryOpen) && Entry(s).job == j
                        && (c.ResetEntry? || (c.BuryEntry? && !s.rows[j].status.Failed?))
    case OfStartup(_, _) => false
  }

  /** In any run, a terminal status survives a step if and only if the step is none
      of these: a second verdict that differs, a retry's or the reaper's reset, a
      dead-letter transaction or a gateway's late refusal. Claims, conditional on
      PENDING, and the startup reset, conditional on RUNNING, never touch it. */
  lemma TerminalSurvives(s: World, e: Event, j: JobId)
    requires Inv(s) && Enabled(s, e) && IsClosed(s.rows, j)
    ensures j in Apply(s, e).rows
    ensures Apply(s, e).rows[j].status == s.rows[j].status <==> !Rewrites(s, e, j)
  {
    match e
    case OfGateway(i, g) => GatewaySurvives(s, i, g, j);
    case OfWorker(w, a) => WorkerSurvives(s, w, a, j);
    case OfRetry(w, r) => RetrySurvives(s, w, r, j);
    case OfReaper(c) => ReaperSurvives(s, c, j);
    case OfStartup(m, u) => StartupSurvives(s, m, u, j);
  }

  lemma ReaperSurvives(s: World, c: ReaperEvent, j: JobId)
    requires Inv(s) && ReaperEnabled(s, c) && IsClosed(s.rows, j)
    ensures j in ReaperStep(s, c).rows
    ensures ReaperStep(s, c).rows[j].status == s.rows[j].status <==> !Rewrites(s, OfReaper(c), j)
  {
  }

  lemma StartupSurvives(s: World, m: MonitorId, u: StartupEvent, j: JobId)
    requires StartupEnabled(s, m, u) && IsClosed(s.rows, j)
    ensures j in StartupStep(s, m, u).rows && StartupStep(s, m, u).rows[j].status == s.rows[j].status
  {
  }

  lemma WorkerSurvives(s: World, w: WorkerId, a: WorkerEvent, j: JobId)
    requires WorkerEnabled(s, w, a) && IsClosed(s.rows, j)
    ensures j in WorkerStep(s, w, a).rows
    ensures WorkerStep(s, w, a).rows[j].status == s.rows[j].status <==> !Rewrites(s, OfWorker(w, a), j)
  {
    assert WorkerStep(s, w, a).rows == WorkerDo(Look(s, w), a).rows;
  }

  lemma RetrySurvives(s: World, w: WorkerId, r: RetryEvent, j: JobId)
    requires RetryEnabled(s, w, r) && IsClosed(s.rows, j)
    ensures j in RetryStep(s, w, r).rows
    ensures RetryStep(s, w, r).rows[j].status == s.rows[j].status <==> !Rewrites(s, OfRetry(w, r), j)
  {
    assert RetryStep(s, w, r).rows == RetryDo(Look(s, w), r).rows;
  }

  lemma GatewaySurvives(s: World, i: JobId, g: GatewayEvent, j: JobId)
    requires Inv(s) && GatewayEnabled(s, i, g) && IsClosed(s.rows, j)
    ensures j in GatewayStep(s, i, g).rows
    ensures GatewayStep(s, i, g).rows[j].status == s.rows[j].status <==> !Rewrites(s, OfGateway(i, g), j)
  {
  }

  /** A verdict other than FAILED on a row that is PENDING again. */
  predicate SkipsRunning(s: World, e: Event, j: JobId)
    requires j in s.rows
  {
    && e.OfWorker? && e.a.Commit? && PhaseOf(s, e.w).Executing? && PhaseOf(s, e.w).raw.job == j
    && s.rows[j].status.Pending? && !Judge(e.a.report).status.Failed?
  }

  /** In any run, a step takes an open row along an edge of the documented lifecycle
      if and only if it is not such a verdict: the one status change that is not in
      the diagram is PENDING to COMPLETED or TIMEOUT, by a worker whose row was
      reset while it executed. */
  lemma OpenRowLifecycle(s: World, e: Event, j: JobId)
    requires Enabled(s, e) && IsOpen(s.rows, j)
    ensures j in Apply(s, e).rows
    ensures Orderly(s.rows[j], Apply(s, e).rows[j]) <==> !SkipsRunning(s, e, j)
  {
    match e
    case OfGateway(i, g) => OpenGatewayRow(s, i, g, j);
    case OfWorker(w, a) => OpenWorkerRow(s, w, a, j);
    case OfRetry(w, r) => OpenRetryRow(s, w, r, j);
    case OfReaper(c) => OpenReaperRow(s, c, j);
    case OfStartup(m, u) => OpenStartupRow(s, m, u, j);
  }

  lemma OpenGatewayRow(s: World, i: JobId, g: GatewayEvent, j: JobId)
    requires GatewayEnabled(s, i, g) && IsOpen(s.rows, j)
    ensures j in GatewayStep(s, i, g).rows && Orderly(s.rows[j], GatewayStep(s, i, g).rows[j])
  {
  }

  lemma OpenWorkerRow(s: World, w: WorkerId, a: WorkerEvent, j: JobId)
    requires WorkerEnabled(s, w, a) && IsOpen(s.rows, j)
    ensures j in WorkerStep(s, w, a).rows
    ensures Orderly(s.rows[j], WorkerStep(s, w, a).rows[j]) <==> !SkipsRunning(s, OfWorker(w, a), j)
  {
    assert WorkerStep(s, w, a).rows == WorkerDo(Look(s, w), a).rows;
  }

  lemma OpenRetryRow(s: World, w: WorkerId, r: RetryEvent, j: JobId)
    requires RetryEnabled(s, w, r) && IsOpen(s.rows, j)
    ensures j in RetryStep(s, w, r).rows && Orderly(s.rows[j], RetryStep(s, w, r).rows[j])
  {
    assert RetryStep(s, w, r).rows == RetryDo(Look(s, w), r).rows;
  }

  lemma OpenReaperRow(s: World, c: ReaperEvent, j: JobId)
    requires ReaperEnabled(s, c) && IsOpen(s.rows, j)
    ensures j in ReaperStep(s, c).rows && Orderly(s.rows[j], ReaperStep(s, c).rows[j])
  {
  }

  lemma OpenStartupRow(s: World, m: MonitorId, u: StartupEvent, j: JobId)
    requires StartupEnabled(s, m, u) && IsOpen(s.rows, j)
    ensures j in StartupStep(s, m, u).rows && Orderly(s.rows[j], StartupStep(s, m, u).rows[j])
  {
  }
}
