/** How often a job can be executed, in all runs: the conditional UPDATE admits one
    claim per time the row became PENDING. */
module ClaimAccounting {
  import opened Contracts
  import opened RedisList
  import opened Protocol
  import Soundness

  /** The step is a successful claim of j. */
  predicate Claims(s: World, e: Event, j: JobId) {
    e.OfWorker? && e.a.Claim? && PhaseOf(s, e.w).Popped? && PhaseOf(s, e.w).raw.job == j
  }

  /** The step writes PENDING into the existing row of j. */
  predicate Resets(s: World, e: Event, j: JobId) {
    match e
    case OfRetry(w, r) => r.Reset? && PhaseOf(s, w).Failing? && PhaseOf(s, w).raw.job == j
    case OfReaper(c) => c.ResetEntry? && AtStage(s, EntryOpen) && Entry(s).job == j
    case OfStartup(_, u) => u.ResetRunning? && HasStatus(s.rows, j, Running)
    case _ => false
  }

  ghost function ClaimCount(es: seq<Event>, j: JobId): nat
    requires IsRun(GENESIS, es)
    decreases |es|
  {
    if es == [] then 0
    else ClaimCount(Before(es), j) + One(Claims(After(GENESIS, Before(es)), Last(es), j))
  }

  ghost function ResetCount(es: seq<Event>, j: JobId): nat
    requires IsRun(GENESIS, es)
    decreases |es|
  {
    if es == [] then 0
    else ResetCount(Before(es), j) + One(Resets(After(GENESIS, Before(es)), Last(es), j))
  }

  /** Claims so far, plus the one a PENDING row still admits, are paid for by the
      insertion and the resets. */
  ghost predicate Paid(s: World, claims: nat, resets: nat, j: JobId) {
    if j in s.rows then claims + One(s.rows[j].status.Pending?) <= 1 + resets else claims == 0
  }

  lemma WorkerPaid(s: World, w: WorkerId, a: WorkerEvent, claims: nat, resets: nat, j: JobId)
    requires WorkerEnabled(s, w, a) && Paid(s, claims, resets, j)
    ensures Paid(WorkerStep(s, w, a), claims + One(Claims(s, OfWorker(w, a), j)), resets, j)
  {
    assert WorkerStep(s, w, a).rows == WorkerDo(Look(s, w), a).rows;
  }

  lemma RetryPaid(s: World, w: WorkerId, r: RetryEvent, claims: nat, resets: nat, j: JobId)
    requires RetryEnabled(s, w, r) && Paid(s, claims, resets, j)
    ensures Paid(RetryStep(s, w, r), claims, resets + One(Resets(s, OfRetry(w, r), j)), j)
  {
    assert RetryStep(s, w, r).rows == RetryDo(Look(s, w), r).rows;
  }

  lemma GatewayPaid(s: World, i: JobId, g: GatewayEvent, claims: nat, resets: nat, j: JobId)
    requires GatewayEnabled(s, i, g) && Paid(s, claims, resets, j)
    ensures Paid(GatewayStep(s, i, g), claims, resets, j)
  {
  }

  lemma ReaperPaid(s: World, c: ReaperEvent, claims: nat, resets: nat, j: JobId)
    requires ReaperEnabled(s, c) && Paid(s, claims, resets, j)
    ensures Paid(ReaperStep(s, c), claims, resets + One(Resets(s, OfReaper(c), j)), j)
  {
  }

  lemma StartupPaid(s: World, m: MonitorId, u: StartupEvent, claims: nat, resets: nat, j: JobId)
    requires StartupEnabled(s, m, u) && Paid(s, claims, resets, j)
    ensures Paid(StartupStep(s, m, u), claims, resets + One(Resets(s, OfStartup(m, u), j)), j)
  {
  }

  lemma StepPaid(s: World, e: Event, claims: nat, resets: nat, j: JobId)
    requires Enabled(s, e) && Paid(s, claims, resets, j)
    ensures Paid(Apply(s, e), claims + One(Claims(s, e, j)), resets + One(Resets(s, e, j)), j)
  {
    match e
    case OfGateway(i, g) => GatewayPaid(s, i, g, claims, resets, j);
    case OfWorker(w, a) => WorkerPaid(s, w, a, claims, resets, j);
    case OfRetry(w, r) => RetryPaid(s, w, r, claims, resets, j);
    case OfReaper(c) => ReaperPaid(s, c, claims, resets, j);
    case OfStartup(m, u) => StartupPaid(s, m, u, claims, resets, j);
  }

  /** Successful claims of a job never exceed one plus its resets, and while the
      row is PENDING they do not exceed its resets. */
  lemma {:induction false} ClaimsArePaid(es: seq<Event>, j: JobId)
    requires IsRun(GENESIS, es)
    ensures Paid(After(GENESIS, es), ClaimCount(es, j), ResetCount(es, j), j)
    ensures ClaimCount(es, j) <= 1 + ResetCount(es, j)
    decreases |es|
  {
    if es == [] {
    } else {
      ClaimsArePaid(Before(es), j);
      StepPaid(After(GENESIS, Before(es)), Last(es), ClaimCount(Before(es), j), ResetCount(Before(es), j), j);
    }
  }

  // ── the retry count ──────────────────────────────────────────────────────

  /** The payload on whose behalf a retry or the reaper resets the row. */
  function OnBehalfOf(s: World, e: Event, j: JobId): Payload
    requires Resets(s, e, j) && !e.OfStartup?
  {
    if e.OfRetry? then PhaseOf(s, e.w).raw else Entry(s)
  }

  /** The retry count after the step, if the row is there. */
  predicate Recounted(s: World, t: World, e: Event, j: JobId) {
    j in s.rows ==>
      && j in t.rows
      && t.rows[j].retry ==
           if Resets(s, e, j) && !e.OfStartup? then OnBehalfOf(s, e, j).retry + 1 else s.rows[j].retry
  }

  lemma WorkerKeepsCount(s: World, w: WorkerId, a: WorkerEvent, j: JobId)
    requires WorkerEnabled(s, w, a)
    ensures Recounted(s, WorkerStep(s, w, a), OfWorker(w, a), j)
  {
    assert WorkerStep(s, w, a).rows == WorkerDo(Look(s, w), a).rows;
  }

  lemma RetryRecounts(s: World, w: WorkerId, r: RetryEvent, j: JobId)
    requires RetryEnabled(s, w, r)
    ensures Recounted(s, RetryStep(s, w, r), OfRetry(w, r), j)
  {
    assert RetryStep(s, w, r).rows == RetryDo(Look(s, w), r).rows;
  }

  lemma ReaperRecounts(s: World, c: ReaperEvent, j: JobId)
    requires ReaperEnabled(s, c)
    ensures Recounted(s, ReaperStep(s, c), OfReaper(c), j)
  {
  }

  /** The retry count of a row moves only when a retry or the reaper resets the row,
      and then to the count of the payload it handles, plus one; claims, verdicts,
      burials and the startup reset leave it alone. */
  lemma RetryCountMoves(s: World, e: Event, j: JobId)
    requires Enabled(s, e)
    ensures Recounted(s, Apply(s, e), e, j)
  {
    match e
    case OfGateway(i, g) =>
    case OfWorker(w, a) => WorkerKeepsCount(s, w, a, j);
    case OfRetry(w, r) => RetryRecounts(s, w, r, j);
    case OfReaper(c) => ReaperRecounts(s, c, j);
    case OfStartup(m, u) =>
  }

  // ── executors ────────────────────────────────────────────────────────────

  /** The workers whose sandbox is running job j right now. */
  function Executors(s: World, j: JobId): set<WorkerId> {
    set w | w in s.workers && s.workers[w].Executing? && s.workers[w].raw.job == j
  }

  /** Only a claim of j makes a worker an executor of j. */
  lemma ExecutorWasOne(s: World, e: Event, j: JobId, w: WorkerId)
    requires Enabled(s, e)
    ensures w in Executors(Apply(s, e), j) ==> w in Executors(s, j) || (Claims(s, e, j) && e.w == w)
  {
    match e
    case OfGateway(i, g) => Soundness.GatewayOwnSphere(s, i, g);
    case OfWorker(u, a) => if u == w { assert PhaseOf(Apply(s, e), w) == WorkerDo(Look(s, w), a).phase; }
    case OfRetry(u, r) => if u == w { assert PhaseOf(Apply(s, e), w) == RetryDo(Look(s, w), r).phase; }
    case OfReaper(c) => Soundness.ReaperOwnSphere(s, c);
    case OfStartup(m, u) => Soundness.StartupOwnSphere(s, m, u);
  }

  lemma StepExecutors(s: World, e: Event, j: JobId)
    requires Enabled(s, e)
    ensures |Executors(Apply(s, e), j)| <= |Executors(s, j)| + One(Claims(s, e, j))
  {
    var newcomer := if Claims(s, e, j) then {e.w} else {};
    forall w | w in Executors(Apply(s, e), j) ensures w in Executors(s, j) + newcomer {
      ExecutorWasOne(s, e, j, w);
    }
    SubsetSize(Executors(Apply(s, e), j), Executors(s, j) + newcomer);
  }

  lemma {:induction false} SubsetSize(a: set<WorkerId>, b: set<WorkerId>)
    requires a <= b
    ensures |a| <= |b|
    decreases a
  {
    if a != {} {
      var x :| x in a;
      SubsetSize(a - {x}, b - {x});
    }
  }

  /** At most one plus resets workers execute a job at the same time. */
  lemma {:induction false} ExecutorsArePaid(es: seq<Event>, j: JobId)
    requires IsRun(GENESIS, es)
    ensures |Executors(After(GENESIS, es), j)| <= ClaimCount(es, j) <= 1 + ResetCount(es, j)
    decreases |es|
  {
    ClaimsArePaid(es, j);
    if es == [] {
      assert Executors(GENESIS, j) == {};
    } else {
      ExecutorsArePaid(Before(es), j);
      StepExecutors(After(GENESIS, Before(es)), Last(es), j);
    }
  }
}
