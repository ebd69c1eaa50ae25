/** Entries of a job whose row is terminal drain away: nobody pushes one back, every
    pop takes one off the pending list for good, and the worker that popped it drops
    it. Exactly a reset of the row ends this. */
module StaleEntries {
  import opened Contracts
  import opened RedisList
  import opened Protocol
  import opened Soundness
  import opened ClaimAccounting

  // ── who pushes to pending, and who pops ──────────────────────────────────

  /** The step pushes p to pending. */
  predicate Puts(s: World, e: Event, p: Payload) {
    match e
    case OfGateway(i, g) => g.Push? && i in s.gateways && s.gateways[i].p == p
    case OfWorker(w, a) => a.Repush? && PhaseOf(s, w) == SawOpen(p)
    case OfRetry(w, r) => r.RequeuePush? && PhaseOf(s, w).Backoff? && Retried(PhaseOf(s, w).raw) == p
    case OfReaper(c) => c.PushEntry? && AtStage(s, EntryReset) && Retried(Entry(s)) == p
    case OfStartup(m, u) => u.PushRow? && m in s.startups && IsNext(s.startups[m], p)
  }

  predicate IsNext(u: Startup, p: Payload) {
    u.Rehydrating? && u.rest != [] && u.rest[0] == p
  }

  /** The step takes p off pending. */
  predicate Takes(s: World, e: Event, p: Payload) {
    e.OfWorker? && (e.a.Pop? || e.a.PopUnseen?) && s.pending != [] && Tail(s.pending) == p
  }

  predicate PendingBalance(s: World, t: World, e: Event, p: Payload) {
    Count(t.pending, p) + One(Takes(s, e, p)) == Count(s.pending, p) + One(Puts(s, e, p))
  }

  lemma WorkerBooks(s: World, w: WorkerId, a: WorkerEvent, p: Payload)
    requires WorkerEnabled(s, w, a)
    ensures PendingBalance(s, WorkerStep(s, w, a), OfWorker(w, a), p)
  {
    assert WorkerStep(s, w, a).pending == WorkerDo(Look(s, w), a).pending;
  }

  lemma RetryBooks(s: World, w: WorkerId, r: RetryEvent, p: Payload)
    requires RetryEnabled(s, w, r)
    ensures PendingBalance(s, RetryStep(s, w, r), OfRetry(w, r), p)
  {
    assert RetryStep(s, w, r).pending == RetryDo(Look(s, w), r).pending;
  }

  lemma ReaperBooks(s: World, c: ReaperEvent, p: Payload)
    requires ReaperEnabled(s, c)
    ensures PendingBalance(s, ReaperStep(s, c), OfReaper(c), p)
  {
  }

  lemma GatewayBooks(s: World, i: JobId, g: GatewayEvent, p: Payload)
    requires GatewayEnabled(s, i, g)
    ensures PendingBalance(s, GatewayStep(s, i, g), OfGateway(i, g), p)
  {
  }

  lemma StartupBooks(s: World, m: MonitorId, u: StartupEvent, p: Payload)
    requires StartupEnabled(s, m, u)
    ensures PendingBalance(s, StartupStep(s, m, u), OfStartup(m, u), p)
  {
  }

  /** The books of the pending list, for every step of every process. */
  lemma PendingBooks(s: World, e: Event, p: Payload)
    requires Enabled(s, e)
    ensures PendingBalance(s, Apply(s, e), e, p)
  {
    match e
    case OfGateway(i, g) => GatewayBooks(s, i, g, p);
    case OfWorker(w, a) => WorkerBooks(s, w, a, p);
    case OfRetry(w, r) => RetryBooks(s, w, r, p);
    case OfReaper(c) => ReaperBooks(s, c, p);
    case OfStartup(m, u) => StartupBooks(s, m, u, p);
  }

  // ── a settled job ────────────────────────────────────────────────────────

  /** The worker is about to push a payload of j. */
  predicate IsPusher(phase: Phase, j: JobId) {
    (phase.SawOpen? || phase.Backoff?) && phase.raw.job == j
  }

  ghost predicate Lists(u: Startup, j: JobId) {
    u.Rehydrating? && exists p :: p in u.rest && p.job == j
  }

  /** The row is terminal, and nobody is about to push a payload of j. */
  ghost predicate Settled(s: World, j: JobId) {
    && IsClosed(s.rows, j)
    && (j in s.gateways ==> !s.gateways[j].Inserted?)
    && (forall w :: !IsPusher(PhaseOf(s, w), j))
    && !(AtStage(s, EntryReset) && Entry(s).job == j)
    && (forall m :: m in s.startups ==> !Lists(s.startups[m], j))
  }

  lemma SettledPutsNothing(s: World, e: Event, p: Payload)
    requires Inv(s) && Enabled(s, e) && Settled(s, p.job)
    ensures !Puts(s, e, p)
  {
    match e
    case OfGateway(i, g) =>
    case OfWorker(w, a) => assert !IsPusher(PhaseOf(s, w), p.job);
    case OfRetry(w, r) => assert !IsPusher(PhaseOf(s, w), p.job);
    case OfReaper(c) =>
    case OfStartup(m, u) => if m in s.startups { assert !Lists(s.startups[m], p.job); }
  }

  lemma WorkerSettled(s: World, w: WorkerId, a: WorkerEvent, j: JobId)
    requires Settled(s, j) && WorkerEnabled(s, w, a)
    ensures Settled(WorkerStep(s, w, a), j)
  {
    var t, v := WorkerStep(s, w, a), WorkerDo(Look(s, w), a);
    assert t.rows == v.rows && !IsPusher(PhaseOf(s, w), j) && !IsPusher(v.phase, j);
    forall u
      ensures !IsPusher(PhaseOf(t, u), j)
    {
      assert PhaseOf(t, u) == if u == w then v.phase else PhaseOf(s, u);
    }
  }

  lemma RetrySettled(s: World, w: WorkerId, r: RetryEvent, j: JobId)
    requires Settled(s, j) && RetryEnabled(s, w, r)
    ensures Settled(RetryStep(s, w, r), j) <==> !Resets(s, OfRetry(w, r), j)
  {
    var t, v := RetryStep(s, w, r), RetryDo(Look(s, w), r);
    assert t.rows == v.rows && !IsPusher(PhaseOf(s, w), j);
    if !Resets(s, OfRetry(w, r), j) {
      forall u
        ensures !IsPusher(PhaseOf(t, u), j)
      {
        assert PhaseOf(t, u) == if u == w then v.phase else PhaseOf(s, u);
      }
    }
  }

  lemma GatewaySettled(s: World, i: JobId, g: GatewayEvent, j: JobId)
    requires Inv(s) && Settled(s, j) && GatewayEnabled(s, i, g)
    ensures Settled(GatewayStep(s, i, g), j)
  {
    GatewayOwnSphere(s, i, g);
    assert forall w :: PhaseOf(GatewayStep(s, i, g), w) == PhaseOf(s, w);
  }

  lemma ReaperSettled(s: World, c: ReaperEvent, j: JobId)
    requires Settled(s, j) && ReaperEnabled(s, c)
    ensures Settled(ReaperStep(s, c), j) <==> !Resets(s, OfReaper(c), j)
  {
    ReaperOwnSphere(s, c);
    assert forall w :: PhaseOf(ReaperStep(s, c), w) == PhaseOf(s, w);
  }

  lemma StartupSettled(s: World, m: MonitorId, u: StartupEvent, j: JobId)
    requires Settled(s, j) && StartupEnabled(s, m, u)
    ensures Settled(StartupStep(s, m, u), j)
  {
    StartupOwnSphere(s, m, u);
    var t := StartupStep(s, m, u);
    assert forall w :: PhaseOf(t, w) == PhaseOf(s, w);
    forall n | n in t.startups
      ensures !Lists(t.startups[n], j)
    {
      if n in s.startups { assert !Lists(s.startups[n], j); }
      if n == m && u.Select? { SelectedAreOpen(s, u.answer, j); }
    }
  }

  lemma SelectedAreOpen(s: World, answer: seq<JobId>, j: JobId)
    requires IsPendingListing(s.rows, answer) && IsClosed(s.rows, j)
    ensures !Lists(Rehydrating(Rehydration(s.rows, answer)), j)
  {
    forall p | p in Rehydration(s.rows, answer)
      ensures p.job != j
    {
      var i :| 0 <= i < |answer| && Rehydration(s.rows, answer)[i] == p;
      assert answer[i] in answer;
    }
  }

  /** A settled job stays settled if and only if the step does not reset its row. */
  lemma StepSettled(s: World, e: Event, j: JobId)
    requires Inv(s) && Enabled(s, e) && Settled(s, j)
    ensures Settled(Apply(s, e), j) <==> !Resets(s, e, j)
  {
    match e
    case OfGateway(i, g) => GatewaySettled(s, i, g, j);
    case OfWorker(w, a) => WorkerSettled(s, w, a, j);
    case OfRetry(w, r) => RetrySettled(s, w, r, j);
    case OfReaper(c) => ReaperSettled(s, c, j);
    case OfStartup(m, u) => StartupSettled(s, m, u, j);
  }

  // ── over whole runs ──────────────────────────────────────────────────────

  /** How often p is taken off pending. */
  ghost function TakeCount(s: World, es: seq<Event>, p: Payload): nat
    requires IsRun(s, es)
    decreases |es|
  {
    if es == [] then 0 else TakeCount(s, Before(es), p) + One(Takes(After(s, Before(es)), Last(es), p))
  }

  ghost predicate NeverReset(s: World, es: seq<Event>, j: JobId)
    requires IsRun(s, es)
    decreases |es|
  {
    es == [] || (NeverReset(s, Before(es), j) && !Resets(After(s, Before(es)), Last(es), j))
  }

  lemma {:induction false} KeepsInv(s: World, es: seq<Event>)
    requires Inv(s) && IsRun(s, es)
    ensures Inv(After(s, es))
    decreases |es|
  {
    if es != [] {
      KeepsInv(s, Before(es));
      StepInv(After(s, Before(es)), Last(es));
    }
  }

  /** The entries of a settled job only drain: as long as its row is not reset, every
      pop of a payload lowers the number of its entries on pending by one and nothing
      raises it again, whatever all processes do and however they fail. So it is
      popped at most as often as it was listed, and does not circulate. */
  lemma {:induction false} StaleEntriesDrain(s: World, es: seq<Event>, p: Payload)
    requires Inv(s) && IsRun(s, es) && Settled(s, p.job) && NeverReset(s, es, p.job)
    ensures Settled(After(s, es), p.job)
    ensures Count(After(s, es).pending, p) + TakeCount(s, es, p) == Count(s.pending, p)
    decreases |es|
  {
    if es != [] {
      var t := After(s, Before(es));
      StaleEntriesDrain(s, Before(es), p);
      KeepsInv(s, Before(es));
      StepSettled(t, Last(es), p.job);
      PendingBooks(t, Last(es), p);
      SettledPutsNothing(t, Last(es), p);
    }
  }

  // ── the worker that popped one ───────────────────────────────────────────

  /** In any run, a worker finds a row not terminal only when it is not. */
  lemma SeenOpenWasOpen(es: seq<Event>, w: WorkerId)
    requires IsRun(GENESIS, es) && Enabled(After(GENESIS, es), OfWorker(w, SeeOpen))
    ensures IsOpen(After(GENESIS, es).rows, PhaseOf(After(GENESIS, es), w).raw.job)
  {
    RunInv(es);
    var s := After(GENESIS, es);
    assert PhaseSound(s.rows, PhaseOf(s, w), List(s, w));
  }

  /** The worker holds p and has not yet decided to drop it, or has. */
  predicate HasPopped(phase: Phase, p: Payload) {
    phase == Popped(p) || phase == Missed(p) || phase == SawDone(p)
  }

  /** What a worker can do with a payload whose row is terminal: miss the claim, see
      that the job is done, and drop its entry, unless it dies or a call throws. */
  lemma StalePathIsForced(s: World, w: WorkerId, a: WorkerEvent, p: Payload)
    requires WorkerEnabled(s, w, a) && IsClosed(s.rows, p.job) && HasPopped(PhaseOf(s, w), p)
    requires !a.Fail? && !a.Crash? && !a.DiscardUnseen?
    ensures a == match PhaseOf(s, w) case Popped(_) => ClaimMiss case Missed(_) => SeeDone case _ => Discard
  {
  }

  /** The round of a worker that pops such a payload: the entry is off pending and on
      nobody's list, and nothing else has changed. */
  lemma StaleRound(s: World, w: WorkerId) returns (es: seq<Event>)
    requires PhaseOf(s, w).Idle? && s.pending != [] && IsClosed(s.rows, Tail(s.pending).job)
    ensures es == [OfWorker(w, Pop), OfWorker(w, ClaimMiss), OfWorker(w, SeeDone), OfWorker(w, Discard)]
    ensures IsRun(s, es)
    ensures After(s, es) == s.(pending := RPop(s.pending), processing := s.processing[w := List(s, w)])
  {
    var t := PopMeans(s, w);
    StaleMiss(t, w, Tail(s.pending));
    es := Extended(s, [], w, Pop);
    es := Extended(s, es, w, ClaimMiss);
    es := Extended(s, es, w, SeeDone);
    es := Extended(s, es, w, Discard);
    PopUndone(s, w, Tail(s.pending));
  }

  lemma PopMeans(s: World, w: WorkerId) returns (t: World)
    requires PhaseOf(s, w).Idle? && s.pending != []
    ensures WorkerEnabled(s, w, Pop) && t == WorkerStep(s, w, Pop)
    ensures t ==
            s.(pending := RPop(s.pending),
               processing := s.processing[w := LPush(List(s, w), Tail(s.pending))],
               workers := s.workers[w := Popped(Tail(s.pending))])
  {
    t := WorkerStep(s, w, Pop);
  }

  lemma PopUndone(s: World, w: WorkerId, p: Payload)
    requires PhaseOf(s, w).Idle?
    ensures s.workers[w := Popped(p)][w := Idle] == s.workers
    ensures LRem(LPush(List(s, w), p), p) == List(s, w)
    ensures s.processing[w := LPush(List(s, w), p)][w := List(s, w)] == s.processing[w := List(s, w)]
  {
  }

  /** The part of the round after the pop. */
  lemma StaleMiss(t: World, w: WorkerId, p: Payload)
    requires PhaseOf(t, w) == Popped(p) && IsClosed(t.rows, p.job)
    ensures WorkerEnabled(t, w, ClaimMiss)
    ensures
      var u := WorkerStep(t, w, ClaimMiss);
      && WorkerEnabled(u, w, SeeDone) && WorkerEnabled(WorkerStep(u, w, SeeDone), w, Discard)
      && WorkerStep(WorkerStep(u, w, SeeDone), w, Discard) ==
           t.(processing := t.processing[w := LRem(List(t, w), p)], workers := t.workers[w := Idle])
  {
    var u := WorkerStep(t, w, ClaimMiss);
    assert u == t.(processing := t.processing[w := List(t, w)], workers := t.workers[w := Missed(p)]);
    var v := WorkerStep(u, w, SeeDone);
    assert v == t.(processing := t.processing[w := List(t, w)], workers := t.workers[w := SawDone(p)]);
  }

  lemma Extended(s: World, es: seq<Event>, w: WorkerId, a: WorkerEvent) returns (fs: seq<Event>)
    requires IsRun(s, es) && WorkerEnabled(After(s, es), w, a)
    ensures fs == es + [OfWorker(w, a)] && IsRun(s, fs)
    ensures After(s, fs) == WorkerStep(After(s, es), w, a)
  {
    fs := es + [OfWorker(w, a)];
    RunSnoc(s, es, OfWorker(w, a));
  }
}
