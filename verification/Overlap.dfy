/** When a job runs twice at once, and when it does not, in all runs: a second
    execution needs a write that resets the row while somebody executes it. */
module Overlap {
  import opened Contracts
  import opened Protocol
  import opened Soundness
  import opened ClaimAccounting

  /** At most one worker executes j, and nobody does while the row admits a claim. */
  ghost predicate OneClaimant(s: World, j: JobId) {
    && (forall w, u :: w in Executors(s, j) && u in Executors(s, j) ==> w == u)
    && (HasStatus(s.rows, j, Pending) ==> Executors(s, j) == {})
  }

  /** The step resets the row of j while somebody executes j. */
  predicate ResetsRunning(s: World, e: Event, j: JobId) {
    Resets(s, e, j) && Executors(s, j) != {}
  }

  lemma UnbornIdles(s: World, j: JobId)
    requires Inv(s) && j !in s.rows
    ensures Executors(s, j) == {}
  {
    forall w | w in s.workers && s.workers[w].Executing?
      ensures s.workers[w].raw.job != j
    {
      assert PhaseSound(s.rows, PhaseOf(s, w), List(s, w));
    }
  }

  /** A row that is PENDING after a step was so before, or was reset, or is new. */
  lemma WorkerPending(s: World, w: WorkerId, a: WorkerEvent, j: JobId)
    requires WorkerEnabled(s, w, a) && HasStatus(WorkerStep(s, w, a).rows, j, Pending)
    ensures HasStatus(s.rows, j, Pending) && !Claims(s, OfWorker(w, a), j)
  {
    assert WorkerStep(s, w, a).rows == WorkerDo(Look(s, w), a).rows;
  }

  lemma RetryPending(s: World, w: WorkerId, r: RetryEvent, j: JobId)
    requires RetryEnabled(s, w, r) && HasStatus(RetryStep(s, w, r).rows, j, Pending)
    ensures HasStatus(s.rows, j, Pending) || Resets(s, OfRetry(w, r), j)
  {
    assert RetryStep(s, w, r).rows == RetryDo(Look(s, w), r).rows;
  }

  lemma GatewayPending(s: World, i: JobId, g: GatewayEvent, j: JobId)
    requires GatewayEnabled(s, i, g) && HasStatus(GatewayStep(s, i, g).rows, j, Pending)
    ensures HasStatus(s.rows, j, Pending) || j !in s.rows
  {
  }

  lemma ReaperPending(s: World, c: ReaperEvent, j: JobId)
    requires ReaperEnabled(s, c) && HasStatus(ReaperStep(s, c).rows, j, Pending)
    ensures HasStatus(s.rows, j, Pending) || Resets(s, OfReaper(c), j)
  {
  }

  lemma StartupPending(s: World, m: MonitorId, u: StartupEvent, j: JobId)
    requires StartupEnabled(s, m, u) && HasStatus(StartupStep(s, m, u).rows, j, Pending)
    ensures HasStatus(s.rows, j, Pending) || Resets(s, OfStartup(m, u), j)
  {
  }

  lemma BecamePending(s: World, e: Event, j: JobId)
    requires Enabled(s, e) && HasStatus(Apply(s, e).rows, j, Pending)
    ensures HasStatus(s.rows, j, Pending) || Resets(s, e, j) || j !in s.rows
    ensures !Claims(s, e, j)
  {
    match e
    case OfGateway(i, g) => GatewayPending(s, i, g, j);
    case OfWorker(w, a) => WorkerPending(s, w, a, j);
    case OfRetry(w, r) => RetryPending(s, w, r, j);
    case OfReaper(c) => ReaperPending(s, c, j);
    case OfStartup(m, u) => StartupPending(s, m, u, j);
  }

  lemma RetryKeepsExecutor(s: World, w: WorkerId, r: RetryEvent, j: JobId, u: WorkerId)
    requires RetryEnabled(s, w, r) && u in Executors(s, j)
    ensures u in Executors(RetryStep(s, w, r), j)
  {
  }

  /** A reset leaves the row PENDING and every executor executing. */
  lemma ResetLeavesExecutors(s: World, e: Event, j: JobId, u: WorkerId)
    requires Inv(s) && Enabled(s, e) && Resets(s, e, j) && u in Executors(s, j)
    ensures u in Executors(Apply(s, e), j) && HasStatus(Apply(s, e).rows, j, Pending)
  {
    assert PhaseSound(s.rows, PhaseOf(s, u), List(s, u));
    match e
    case OfRetry(w, r) =>
      RetryKeepsExecutor(s, w, r, j, u);
      assert RetryStep(s, w, r).rows == RetryDo(Look(s, w), r).rows;
    case OfReaper(c) => ReaperOwnSphere(s, c);
    case OfStartup(m, i) => StartupOwnSphere(s, m, i);
  }

  lemma ClaimFindsPending(s: World, e: Event, j: JobId)
    requires Enabled(s, e) && Claims(s, e, j)
    ensures HasStatus(s.rows, j, Pending)
  {
  }

  lemma StaysOneClaimant(s: World, e: Event, j: JobId)
    requires Inv(s) && Enabled(s, e) && OneClaimant(s, j) && !ResetsRunning(s, e, j)
    ensures OneClaimant(Apply(s, e), j)
  {
    var s' := Apply(s, e);
    if Claims(s, e, j) { ClaimFindsPending(s, e, j); }
    forall w
      ensures w in Executors(s', j) ==> w in Executors(s, j) || (Claims(s, e, j) && e.w == w)
    {
      ExecutorWasOne(s, e, j, w);
    }
    if HasStatus(s'.rows, j, Pending) {
      BecamePending(s, e, j);
      if j !in s.rows { UnbornIdles(s, j); }
      assert forall w :: w !in Executors(s', j);
    }
  }

  /** Exactly which steps let a second execution in: from a state with one claimant,
      a step keeps it so if and only if it does not reset the row under an executor. */
  lemma StepOneClaimant(s: World, e: Event, j: JobId)
    requires Inv(s) && Enabled(s, e) && OneClaimant(s, j)
    ensures OneClaimant(Apply(s, e), j) <==> !ResetsRunning(s, e, j)
  {
    if ResetsRunning(s, e, j) {
      var u :| u in Executors(s, j);
      ResetLeavesExecutors(s, e, j, u);
    } else {
      StaysOneClaimant(s, e, j);
    }
  }

  /** No step of the run resets j while somebody executes it. */
  ghost predicate NeverResetRunning(es: seq<Event>, j: JobId)
    requires IsRun(GENESIS, es)
    decreases |es|
  {
    es == [] || (NeverResetRunning(Before(es), j) && !ResetsRunning(After(GENESIS, Before(es)), Last(es), j))
  }

  /** Every state of the run has at most one claimant of j. */
  ghost predicate AlwaysOneClaimant(es: seq<Event>, j: JobId)
    requires IsRun(GENESIS, es)
    decreases |es|
  {
    OneClaimant(After(GENESIS, es), j) && (es == [] || AlwaysOneClaimant(Before(es), j))
  }

  /** Over whole runs, without any regime: each state has at most one claimant of j
      if and only if no step resets j while somebody executes it. */
  lemma {:induction false} OneClaimantRuns(es: seq<Event>, j: JobId)
    requires IsRun(GENESIS, es)
    ensures AlwaysOneClaimant(es, j) <==> NeverResetRunning(es, j)
    decreases |es|
  {
    if es == [] {
      assert Executors(GENESIS, j) == {};
    } else {
      OneClaimantRuns(Before(es), j);
      if AlwaysOneClaimant(Before(es), j) {
        RunInv(Before(es));
        StepOneClaimant(After(GENESIS, Before(es)), Last(es), j);
      }
    }
  }

  /** So a job that is never reset under an executor never has two. */
  lemma NoDoubleExecution(es: seq<Event>, j: JobId, w: WorkerId, u: WorkerId)
    requires IsRun(GENESIS, es) && NeverResetRunning(es, j)
    requires PhaseOf(After(GENESIS, es), w).Executing? && PhaseOf(After(GENESIS, es), w).raw.job == j
    requires PhaseOf(After(GENESIS, es), u).Executing? && PhaseOf(After(GENESIS, es), u).raw.job == j
    ensures w == u
  {
    OneClaimantRuns(es, j);
    assert w in Executors(After(GENESIS, es), j) && u in Executors(After(GENESIS, es), j);
  }
}
