/** Where dead-letter entries come from: each has used up exactly three retries,
    and its row had been committed FAILED with category WORKER_CRASH before the
    entry was pushed. */
module DeadLetters {
  import opened Contracts
  import opened Protocol
  import opened Soundness

  ghost predicate LiesBuried(s: World, j: JobId) {
    HasStatus(s.rows, j, Failed) && ResultOf(s.results, j) == Some(Some(WorkerCrash))
  }

  /** Some state of the run, the last one included, had j buried. */
  ghost predicate WasBuried(es: seq<Event>, j: JobId)
    requires IsRun(GENESIS, es)
    decreases |es|
  {
    LiesBuried(After(GENESIS, es), j) || (es != [] && WasBuried(Before(es), j))
  }

  predicate PastBurial(phase: Phase) {
    phase.DlqCommitted? || phase.DlqPushed?
  }

  /** Entries on the dead-letter list, and entries about to be pushed to it. */
  ghost predicate Announced(s: World, j: JobId) {
    || (exists p :: p in s.deadLetter && p.job == j)
    || (exists w :: PastBurial(PhaseOf(s, w)) && PhaseOf(s, w).raw.job == j)
    || (AtStage(s, EntryBuried) && Entry(s).job == j)
  }

  lemma ViewAnnounces(s: World, w: WorkerId, v: View, j: JobId)
    requires Announced(Put(s, w, v), j)
    ensures Announced(s, j) || (exists p :: p in v.deadLetter && p.job == j)
            || (PastBurial(v.phase) && v.phase.raw.job == j)
  {
    var s' := Put(s, w, v);
    if u :| PastBurial(PhaseOf(s', u)) && PhaseOf(s', u).raw.job == j && u != w {
      assert PastBurial(PhaseOf(s, u));
    }
  }

  lemma WorkerAnnounces(s: World, w: WorkerId, a: WorkerEvent, j: JobId)
    requires WorkerEnabled(s, w, a) && Announced(WorkerStep(s, w, a), j)
    ensures Announced(s, j)
  {
    ViewAnnounces(s, w, WorkerDo(Look(s, w), a), j);
  }

  lemma RetryAnnounces(s: World, w: WorkerId, r: RetryEvent, j: JobId)
    requires Inv(s) && RetryEnabled(s, w, r) && Announced(RetryStep(s, w, r), j)
    ensures Announced(s, j) || LiesBuried(RetryStep(s, w, r), j)
  {
    var v' := RetryDo(Look(s, w), r);
    LookSound(s, w);
    ViewAnnounces(s, w, v', j);
    if r.DlqPush? || r.DlqPublish? || r.Abandon? {
      assert PastBurial(PhaseOf(s, w)) ==> PhaseOf(s, w).raw.job == j ==> Announced(s, j);
    }
  }

  lemma ReaperAnnounces(s: World, c: ReaperEvent, j: JobId)
    requires Inv(s) && ReaperEnabled(s, c) && Announced(ReaperStep(s, c), j)
    ensures Announced(s, j) || LiesBuried(ReaperStep(s, c), j)
  {
    var s' := ReaperStep(s, c);
    assert forall w :: PhaseOf(s', w) == PhaseOf(s, w);
    if s.reaper.Recovering? && s.reaper.at < |s.reaper.entries| {
      assert Entry(s) in List(s, s.reaper.dead);
    }
  }

  lemma OthersAnnounce(s: World, s': World, j: JobId)
    requires SameWork(s, s') && Announced(s', j)
    ensures Announced(s, j)
  {
    assert forall w :: PhaseOf(s', w) == PhaseOf(s, w);
  }

  lemma GatewayAnnounces(s: World, i: JobId, g: GatewayEvent, j: JobId)
    requires GatewayEnabled(s, i, g) && Announced(GatewayStep(s, i, g), j)
    ensures Announced(s, j)
  {
    OthersAnnounce(s, GatewayStep(s, i, g), j);
  }

  lemma StartupAnnounces(s: World, m: MonitorId, u: StartupEvent, j: JobId)
    requires StartupEnabled(s, m, u) && Announced(StartupStep(s, m, u), j)
    ensures Announced(s, j)
  {
    OthersAnnounce(s, StartupStep(s, m, u), j);
  }

  lemma StepAnnounces(s: World, e: Event, j: JobId)
    requires Inv(s) && Enabled(s, e) && Announced(Apply(s, e), j)
    ensures Announced(s, j) || LiesBuried(Apply(s, e), j)
  {
    match e
    case OfGateway(i, g) => GatewayAnnounces(s, i, g, j);
    case OfWorker(w, a) => WorkerAnnounces(s, w, a, j);
    case OfRetry(w, r) => RetryAnnounces(s, w, r, j);
    case OfReaper(c) => ReaperAnnounces(s, c, j);
    case OfStartup(m, u) => StartupAnnounces(s, m, u, j);
  }

  lemma GenesisAnnouncesNothing(j: JobId)
    ensures !Announced(GENESIS, j)
  {
    assert forall w :: PhaseOf(GENESIS, w) == Crashed;
  }

  lemma {:induction false} AnnouncedWasBuried(es: seq<Event>, j: JobId)
    requires IsRun(GENESIS, es) && Announced(After(GENESIS, es), j)
    ensures WasBuried(es, j)
    decreases |es|
  {
    if es == [] {
      GenesisAnnouncesNothing(j);
    } else {
      RunInv(Before(es));
      StepAnnounces(After(GENESIS, Before(es)), Last(es), j);
      if Announced(After(GENESIS, Before(es)), j) {
        AnnouncedWasBuried(Before(es), j);
      }
    }
  }

  /** Every dead-letter entry is exhausted and was buried beforehand. */
  lemma DeadLetterProvenance(es: seq<Event>, p: Payload)
    requires IsRun(GENESIS, es) && p in After(GENESIS, es).deadLetter
    ensures p.retry == MAX_RETRY_COUNT && WasBuried(es, p.job)
  {
    RunInv(es);
    AnnouncedWasBuried(es, p.job);
  }
}
