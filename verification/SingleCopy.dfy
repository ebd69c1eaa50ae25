/** The single-copy regime. As long as nothing fails between a push to pending and
    the removal of the entry it replaces, no call fails after a result commit, no
    startup reset runs and the gateway does not fail after its push, every job has
    at most one owner: the place holding its only copy that may still act.

    The invariant: ownership is unique, a payload waiting on pending matches a
    PENDING row, and each process finds the row of the job it owns in the status
    its own progress implies. Exclusive execution, absorbing terminal states and
    the bounds on executions and steps follow from it. */
module SingleCopy {
  import opened Contracts
  import opened RedisList
  import opened Protocol
  import opened Soundness
  import opened NoLoss

  // ── the regime ───────────────────────────────────────────────────────────

  predicate CalmWorker(phase: Phase, a: WorkerEvent) {
    match a
    case Fail => phase.Popped? || phase.Missed? || phase.SawOpen? || phase.Executing?
    case DiscardUnseen => false
    case Crash => !phase.Repushed? && !phase.Requeued?
    case _ => true
  }

  predicate CalmRetry(phase: Phase, r: RetryEvent) {
    r.Abandon? ==> !phase.Requeued?
  }

  /** The regime allows this step in this state. */
  predicate Calm(s: World, e: Event) {
    match e
    case OfGateway(j, g) => g.Refuse? ==> j in s.gateways && s.gateways[j].Inserted?
    case OfWorker(w, a) => CalmWorker(PhaseOf(s, w), a)
    case OfRetry(w, r) => CalmRetry(PhaseOf(s, w), r)
    case OfReaper(c) => c.Stop? ==> s.reaper.Recovering? && !s.reaper.pushed
    case OfStartup(_, _) => false
  }

  // ── ownership ────────────────────────────────────────────────────────────

  /** The worker has pushed a replacement for p and is about to remove p. */
  predicate IsReplaced(phase: Phase, p: Payload) {
    (phase.Repushed? || phase.Requeued?) && phase.raw == p
  }

  function OwnedOn(list: seq<Payload>, phase: Phase, p: Payload): nat {
    Less(Count(list, p), One(IsReplaced(phase, p)))
  }

  predicate BeingReaped(s: World, w: WorkerId) {
    s.reaper.Recovering? && s.reaper.dead == w && s.reaper.at <= |s.reaper.entries|
  }

  /** Copies of p at a place that may still act. Once a pass of the reaper has
      requeued something, it will not be interrupted, and the entries behind its
      cursor are as good as gone. */
  function Owned(s: World, pl: Place, p: Payload): nat {
    match pl
    case OnPending => Count(s.pending, p)
    case OnList(w) =>
      if BeingReaped(s, w) && s.reaper.pushed then Count(s.reaper.entries[s.reaper.at..], p)
      else OwnedOn(List(s, w), PhaseOf(s, w), p)
    case AtGateway(j) => One(GatewayHolds(s, j, p))
    case InHand(w) => One(IsInHand(PhaseOf(s, w), p))
  }

  ghost predicate Unique(s: World) {
    && (forall pl, p :: Owned(s, pl, p) <= 1)
    && (forall pl, p, pl', p' :: Owned(s, pl, p) > 0 && Owned(s, pl', p') > 0 && p.job == p'.job ==>
          pl == pl' && p == p')
  }

  // ── what an owner knows about its row ────────────────────────────────────

  predicate Matches(rows: Rows, p: Payload) {
    HasStatus(rows, p.job, Pending) && rows[p.job].retry == p.retry
  }

  predicate PhaseFact(rows: Rows, phase: Phase) {
    match phase
    case Popped(raw) => Matches(rows, raw)
    case Executing(raw) => HasStatus(rows, raw.job, Running)
    case Committed(raw) => IsClosed(rows, raw.job)
    case Failing(raw, held) => held && IsOpen(rows, raw.job)
    case Backoff(raw, held) => held && Matches(rows, Retried(raw))
    case DlqOpen(raw) => IsOpen(rows, raw.job)
    case _ => !phase.Missed? && !phase.SawOpen? && !phase.Repushed? && !phase.SawDone?
  }

  ghost predicate PendingFact(rows: Rows, pending: seq<Payload>) {
    forall p :: Count(pending, p) > 0 ==> Matches(rows, p)
  }

  predicate GatewayFact(rows: Rows, g: Gateway) {
    g.Inserted? || g.Refusing? ==> Matches(rows, g.p)
  }

  predicate ReaperFact(s: World, rows: Rows) {
    && (AtStage(s, EntryOpen) ==> IsOpen(rows, Entry(s).job))
    && (AtStage(s, EntryReset) ==> Matches(rows, Retried(Entry(s))))
    && (AtStage(s, EntryBuried) ==> IsClosed(rows, Entry(s).job))
  }

  ghost predicate Facts(s: World) {
    && (forall w :: PhaseFact(s.rows, PhaseOf(s, w)))
    && PendingFact(s.rows, s.pending)
    && (forall j :: j in s.gateways ==> GatewayFact(s.rows, s.gateways[j]))
    && ReaperFact(s, s.rows)
  }

  ghost predicate Single(s: World) {
    Inv(s) && Unique(s) && Facts(s) && s.startups == map[]
  }

  lemma GenesisSingle()
    ensures Single(GENESIS)
  {
    forall pl, p ensures Owned(GENESIS, pl, p) == 0 {}
  }

  // ── one owner per row ────────────────────────────────────────────────────

  /** The place from which a worker in this phase acts on raw. */
  function Seat(w: WorkerId, phase: Phase): Place {
    if phase.DlqOpen? then InHand(w) else OnList(w)
  }

  predicate ActsOnRow(phase: Phase) {
    phase.Popped? || phase.Executing? || phase.Committed? || phase.Failing? || phase.Backoff? || phase.DlqOpen?
  }

  lemma SeatOwned(s: World, w: WorkerId)
    requires Inv(s) && PhaseFact(s.rows, PhaseOf(s, w)) && ActsOnRow(PhaseOf(s, w))
    ensures Owned(s, Seat(w, PhaseOf(s, w)), PhaseOf(s, w).raw) > 0
  {
    assert PhaseSound(s.rows, PhaseOf(s, w), List(s, w));
  }

  lemma EntryOwned(s: World)
    requires Inv(s) && s.reaper.Recovering? && s.reaper.at < |s.reaper.entries|
    ensures Owned(s, OnList(s.reaper.dead), Entry(s)) > 0
  {
    CountFrom(s.reaper.entries, s.reaper.at, Entry(s));
  }

  ghost predicate OnlyJobChanged(rows: Rows, rows': Rows, k: JobId) {
    forall j :: j != k ==> (j in rows <==> j in rows') && (j in rows ==> rows'[j] == rows[j])
  }

  lemma OthersKeepPhases(s: World, rows': Rows, q: Place, own: Payload, w: WorkerId)
    requires Inv(s) && Unique(s) && PhaseFact(s.rows, PhaseOf(s, w))
    requires Owned(s, q, own) > 0 && OnlyJobChanged(s.rows, rows', own.job) && q != OnList(w) && q != InHand(w)
    ensures PhaseFact(rows', PhaseOf(s, w))
  {
    if ActsOnRow(PhaseOf(s, w)) { SeatOwned(s, w); }
  }

  lemma OthersKeepPending(s: World, rows': Rows, q: Place, own: Payload)
    requires Unique(s) && PendingFact(s.rows, s.pending)
    requires Owned(s, q, own) > 0 && OnlyJobChanged(s.rows, rows', own.job) && q != OnPending
    ensures PendingFact(rows', s.pending)
  {
    forall p | Count(s.pending, p) > 0
      ensures Matches(rows', p)
    {
      assert Owned(s, OnPending, p) > 0;
    }
  }

  lemma OthersKeepGateways(s: World, rows': Rows, q: Place, own: Payload, j: JobId)
    requires Inv(s) && Unique(s) && j in s.gateways && GatewayFact(s.rows, s.gateways[j])
    requires Owned(s, q, own) > 0 && OnlyJobChanged(s.rows, rows', own.job) && q != AtGateway(j)
    ensures GatewayFact(rows', s.gateways[j])
  {
    assert s.gateways[j].Inserted? || s.gateways[j].Refusing? ==> Owned(s, AtGateway(j), s.gateways[j].p) > 0;
  }

  /** If the owner of job k rewrites its row, nobody else's knowledge is affected. */
  lemma OthersKeepFacts(s: World, rows': Rows, q: Place, own: Payload)
    requires Single(s) && Owned(s, q, own) > 0 && OnlyJobChanged(s.rows, rows', own.job)
    ensures forall w :: q != OnList(w) && q != InHand(w) ==> PhaseFact(rows', PhaseOf(s, w))
    ensures q != OnPending ==> PendingFact(rows', s.pending)
    ensures forall j :: j in s.gateways && q != AtGateway(j) ==> GatewayFact(rows', s.gateways[j])
    ensures (s.reaper.Recovering? ==> q != OnList(s.reaper.dead)) ==> ReaperFact(s, rows')
  {
    forall w | q != OnList(w) && q != InHand(w)
      ensures PhaseFact(rows', PhaseOf(s, w))
    {
      OthersKeepPhases(s, rows', q, own, w);
    }
    if q != OnPending { OthersKeepPending(s, rows', q, own); }
    forall j | j in s.gateways && q != AtGateway(j)
      ensures GatewayFact(rows', s.gateways[j])
    {
      OthersKeepGateways(s, rows', q, own, j);
    }
    if s.reaper.Recovering? && s.reaper.at < |s.reaper.entries| && q != OnList(s.reaper.dead) {
      EntryOwned(s);
    }
  }

  // ── one worker's step ────────────────────────────────────────────────────

  function OwnSeen(v: View, p: Payload): nat {
    Count(v.pending, p) + OwnedOn(v.list, v.phase, p) + One(IsInHand(v.phase, p))
  }

  ghost predicate ViewUnique(v: View) {
    && (forall p :: OwnSeen(v, p) <= 1)
    && (forall p, q :: OwnSeen(v, p) > 0 && OwnSeen(v, q) > 0 && p.job == q.job ==> p == q)
  }

  ghost predicate ViewFacts(v: View) {
    PhaseFact(v.rows, v.phase) && PendingFact(v.rows, v.pending)
  }

  lemma OwnSeenIsOwned(s: World, w: WorkerId, p: Payload)
    requires !BeingReaped(s, w)
    ensures OwnSeen(Look(s, w), p) == Owned(s, OnPending, p) + Owned(s, OnList(w), p) + Owned(s, InHand(w), p)
  {
  }

  lemma LookUnique(s: World, w: WorkerId)
    requires Unique(s) && !BeingReaped(s, w)
    ensures ViewUnique(Look(s, w))
  {
    var v := Look(s, w);
    forall p ensures OwnSeen(v, p) <= 1 {
      OwnSeenIsOwned(s, w, p);
    }
    forall p, q | OwnSeen(v, p) > 0 && OwnSeen(v, q) > 0 && p.job == q.job ensures p == q {
      OwnSeenIsOwned(s, w, p);
      OwnSeenIsOwned(s, w, q);
    }
  }

  lemma NotReapedWhileAlive(s: World, w: WorkerId)
    requires Inv(s) && (!PhaseOf(s, w).Crashed? || w !in s.workers)
    ensures !BeingReaped(s, w)
  {
  }

  /** Every job owned through v' was owned through v. */
  ghost predicate NoNewJobs(v: View, v': View) {
    forall q :: OwnSeen(v', q) > 0 ==> exists p: Payload :: p.job == q.job && OwnSeen(v, p) > 0
  }

  /** The row writes of a worker's step concern only the job it acts on. */
  ghost predicate RowsByOwner(v: View, v': View) {
    v'.rows == v.rows || (ActsOnRow(v.phase) && OnlyJobChanged(v.rows, v'.rows, v.phase.raw.job))
  }

  lemma PutOwned(s: World, w: WorkerId, v': View, pl: Place, p: Payload)
    requires !BeingReaped(s, w)
    ensures OwnPlace(pl, w) ==> Owned(Put(s, w, v'), pl, p) <= OwnSeen(v', p)
    ensures !OwnPlace(pl, w) ==> Owned(Put(s, w, v'), pl, p) == Owned(s, pl, p)
  {
    LookPut(s, w, v');
    OwnSeenIsOwned(Put(s, w, v'), w, p);
  }

  lemma OwnPlacesExclude(s: World, w: WorkerId, v': View, pl: Place, pl': Place, p: Payload)
    requires !BeingReaped(s, w) && OwnPlace(pl, w) && OwnPlace(pl', w) && pl != pl'
    ensures Owned(Put(s, w, v'), pl, p) + Owned(Put(s, w, v'), pl', p) <= OwnSeen(v', p)
  {
    LookPut(s, w, v');
    OwnSeenIsOwned(Put(s, w, v'), w, p);
  }

  /** Whoever owns a job after the step can be traced to an owner before it. */
  lemma OldOwner(s: World, w: WorkerId, v': View, pl: Place, q: Payload) returns (pl0: Place, p: Payload)
    requires !BeingReaped(s, w) && NoNewJobs(Look(s, w), v') && Owned(Put(s, w, v'), pl, q) > 0
    ensures p.job == q.job && Owned(s, pl0, p) > 0 && (OwnPlace(pl0, w) <==> OwnPlace(pl, w))
    ensures !OwnPlace(pl, w) ==> pl0 == pl && p == q
  {
    PutOwned(s, w, v', pl, q);
    if OwnPlace(pl, w) {
      p :| p.job == q.job && OwnSeen(Look(s, w), p) > 0;
      OwnSeenIsOwned(s, w, p);
      pl0 := if Owned(s, OnPending, p) > 0 then OnPending
             else if Owned(s, OnList(w), p) > 0 then OnList(w) else InHand(w);
    } else {
      pl0, p := pl, q;
    }
  }

  lemma PutUnique(s: World, w: WorkerId, v': View)
    requires Unique(s) && !BeingReaped(s, w)
    requires ViewUnique(v') && NoNewJobs(Look(s, w), v')
    ensures Unique(Put(s, w, v'))
  {
    forall pl, p ensures Owned(Put(s, w, v'), pl, p) <= 1 {
      PutOwned(s, w, v', pl, p);
    }
    forall pl, p, pl', p' | Owned(Put(s, w, v'), pl, p) > 0 && Owned(Put(s, w, v'), pl', p') > 0 && p.job == p'.job
      ensures pl == pl' && p == p'
    {
      PutUniquePair(s, w, v', pl, p, pl', p');
    }
  }

  lemma PutUniquePair(s: World, w: WorkerId, v': View, pl: Place, p: Payload, pl': Place, p': Payload)
    requires Unique(s) && !BeingReaped(s, w) && ViewUnique(v') && NoNewJobs(Look(s, w), v')
    requires Owned(Put(s, w, v'), pl, p) > 0 && Owned(Put(s, w, v'), pl', p') > 0 && p.job == p'.job
    ensures pl == pl' && p == p'
  {
    var pl0, p0 := OldOwner(s, w, v', pl, p);
    var pl1, p1 := OldOwner(s, w, v', pl', p');
    assert pl0 == pl1 && p0 == p1;
    if OwnPlace(pl, w) {
      PutOwned(s, w, v', pl, p);
      PutOwned(s, w, v', pl', p');
      if pl != pl' { OwnPlacesExclude(s, w, v', pl, pl', p); }
    }
  }

  lemma PutFacts(s: World, w: WorkerId, v': View)
    requires Single(s) && !BeingReaped(s, w) && ViewFacts(v') && RowsByOwner(Look(s, w), v')
    ensures Facts(Put(s, w, v'))
  {
    var v, s' := Look(s, w), Put(s, w, v');
    if v'.rows != v.rows {
      SeatOwned(s, w);
      OthersKeepFacts(s, v'.rows, Seat(w, v.phase), v.phase.raw);
      assert ReaperFact(s, v'.rows);
    }
    assert forall u :: u != w ==> PhaseOf(s', u) == PhaseOf(s, u);
    LookPut(s, w, v');
  }

  lemma PutSingle(s: World, w: WorkerId, v': View)
    requires Single(s) && !BeingReaped(s, w) && Inv(Put(s, w, v'))
    requires ViewUnique(v') && NoNewJobs(Look(s, w), v') && ViewFacts(v') && RowsByOwner(Look(s, w), v')
    ensures Single(Put(s, w, v'))
  {
    PutUnique(s, w, v');
    PutFacts(s, w, v');
  }

  /** In the regime the main loop never creates a second owner. */
  lemma PopOwnFlow(v: View, a: WorkerEvent, p: Payload)
    requires EntryListed(v) && WorkerCan(v, a) && (a.Pop? || a.PopUnseen?)
    ensures OwnSeen(WorkerDo(v, a), p) == OwnSeen(v, p)
  {
  }

  lemma AckOwnFlow(v: View, p: Payload)
    requires EntryListed(v) && WorkerCan(v, Ack)
    ensures OwnSeen(WorkerDo(v, Ack), p) == Less(OwnSeen(v, p), One(p == v.phase.raw))
  {
  }

  lemma WorkerOwnFlow(v: View, a: WorkerEvent, p: Payload)
    requires EntryListed(v) && WorkerCan(v, a) && CalmWorker(v.phase, a) && PhaseFact(v.rows, v.phase)
    ensures OwnSeen(WorkerDo(v, a), p) <= OwnSeen(v, p)
  {
    if a.Pop? || a.PopUnseen? {
      PopOwnFlow(v, a, p);
    } else if a.Ack? {
      AckOwnFlow(v, p);
    }
  }

  /** A worker acting on raw still has it on its list, so nothing it sees on
      pending is for the same job. */
  lemma PendingIsForOthers(v: View, p: Payload)
    requires ViewUnique(v) && EntryListed(v) && HoldsEntry(v.phase) && !v.phase.Repushed? && Count(v.pending, p) > 0
    ensures p.job != v.phase.raw.job
  {
    assert OwnSeen(v, p) > 0 && OwnSeen(v, v.phase.raw) > 0;
  }

  lemma WorkerFacts(v: View, a: WorkerEvent)
    requires ViewSound(v) && ViewUnique(v) && ViewFacts(v) && WorkerCan(v, a) && CalmWorker(v.phase, a)
    ensures ViewFacts(WorkerDo(v, a)) && RowsByOwner(v, WorkerDo(v, a))
  {
    var v' := WorkerDo(v, a);
    if a.Pop? { assert Count(v.pending, Tail(v.pending)) > 0; }
    forall p | Count(v'.pending, p) > 0 ensures Matches(v'.rows, p) {
      if a.Claim? || a.Commit? { PendingIsForOthers(v, p); }
    }
  }

  lemma WorkerKeepsSingle(s: World, w: WorkerId, a: WorkerEvent)
    requires Single(s) && WorkerEnabled(s, w, a) && CalmWorker(PhaseOf(s, w), a)
    ensures Single(WorkerStep(s, w, a))
  {
    var v := Look(s, w);
    NotReapedWhileAlive(s, w);
    LookSound(s, w);
    LookUnique(s, w);
    WorkerInv(s, w, a);
    WorkerFacts(v, a);
    forall p ensures OwnSeen(WorkerDo(v, a), p) <= OwnSeen(v, p) { WorkerOwnFlow(v, a, p); }
    PutSingle(s, w, WorkerDo(v, a));
  }

  /** A retry trades the old payload for the new one; nothing else gains an owner. */
  lemma RetryOwnFlow(v: View, r: RetryEvent, p: Payload)
    requires EntryListed(v) && RetryCan(v, r) && CalmRetry(v.phase, r) && PhaseFact(v.rows, v.phase)
    ensures r.RequeuePush? ==>
              OwnSeen(RetryDo(v, r), p) + One(p == v.phase.raw) == OwnSeen(v, p) + One(p == Retried(v.phase.raw))
    ensures !r.RequeuePush? ==> OwnSeen(RetryDo(v, r), p) <= OwnSeen(v, p)
  {
    match r
    case RequeuePush =>
      assert OwnSeen(RetryDo(v, r), p) + One(p == v.phase.raw) == OwnSeen(v, p) + One(p == Retried(v.phase.raw));
    case RequeueAck => assert OwnSeen(RetryDo(v, r), p) <= OwnSeen(v, p);
    case DlqRemove => assert OwnSeen(RetryDo(v, r), p) <= OwnSeen(v, p);
    case _ =>
  }

  lemma RetryUnique(v: View, r: RetryEvent)
    requires EntryListed(v) && RetryCan(v, r) && CalmRetry(v.phase, r) && PhaseFact(v.rows, v.phase) && ViewUnique(v)
    ensures ViewUnique(RetryDo(v, r)) && NoNewJobs(v, RetryDo(v, r))
  {
    var v' := RetryDo(v, r);
    if r.RequeuePush? {
      var raw := v.phase.raw;
      assert OwnSeen(v, raw) > 0;
      assert OwnSeen(v, Retried(raw)) == 0 by { assert Retried(raw) != raw; }
      forall p
        ensures OwnSeen(v', p) + One(p == raw) == OwnSeen(v, p) + One(p == Retried(raw))
      {
        RetryOwnFlow(v, r, p);
      }
    } else {
      forall p ensures OwnSeen(v', p) <= OwnSeen(v, p) { RetryOwnFlow(v, r, p); }
    }
  }

  lemma RetryFacts(v: View, r: RetryEvent)
    requires ViewSound(v) && ViewUnique(v) && ViewFacts(v) && RetryCan(v, r) && CalmRetry(v.phase, r)
    ensures ViewFacts(RetryDo(v, r)) && RowsByOwner(v, RetryDo(v, r))
  {
    var v' := RetryDo(v, r);
    forall p | Count(v'.pending, p) > 0 ensures Matches(v'.rows, p) {
      if r.Reset? { PendingIsForOthers(v, p); }
      if r.DlqCommit? { assert OwnSeen(v, p) > 0 && OwnSeen(v, v.phase.raw) > 0; }
    }
  }

  lemma RetryKeepsSingle(s: World, w: WorkerId, r: RetryEvent)
    requires Single(s) && RetryEnabled(s, w, r) && CalmRetry(PhaseOf(s, w), r)
    ensures Single(RetryStep(s, w, r))
  {
    var v := Look(s, w);
    NotReapedWhileAlive(s, w);
    LookSound(s, w);
    LookUnique(s, w);
    RetryInv(s, w, r);
    RetryFacts(v, r);
    RetryUnique(v, r);
    PutSingle(s, w, RetryDo(v, r));
  }

  // ── gateway and reaper steps ─────────────────────────────────────────────

  lemma ShrinkUnique(s: World, s': World)
    requires Unique(s) && forall pl, p :: Owned(s', pl, p) <= Owned(s, pl, p)
    ensures Unique(s')
  {
  }

  /** Handing a job from one place to another keeps its owner unique. */
  lemma MoveUnique(s: World, s': World, src: Place, x: Payload, dst: Place, y: Payload)
    requires Unique(s) && Owned(s, src, x) > 0 && x.job == y.job && src != dst
    requires forall pl, p :: Owned(s', pl, p) + One(pl == src && p == x) <= Owned(s, pl, p) + One(pl == dst && p == y)
    ensures Unique(s')
  {
    assert Owned(s, dst, y) == 0;
    forall pl, p ensures Owned(s', pl, p) <= 1 {}
    forall pl, p, pl', p' | Owned(s', pl, p) > 0 && Owned(s', pl', p') > 0 && p.job == p'.job
      ensures pl == pl' && p == p'
    {
      assert (pl == dst && p == y) || Owned(s, pl, p) > 0;
      assert (pl' == dst && p' == y) || Owned(s, pl', p') > 0;
    }
  }

  lemma OwnedIsSound(s: World, pl: Place, p: Payload)
    requires Inv(s) && Owned(s, pl, p) > 0
    ensures Sound(s.rows, p)
  {
    if pl.OnList? {
      assert AllSound(s.rows, List(s, pl.w));
      if s.reaper.Recovering? && s.reaper.at <= |s.reaper.entries| { CountSplit(s.reaper.entries, s.reaper.at, p); }
    } else if pl.InHand? {
      assert PhaseSound(s.rows, PhaseOf(s, pl.w), List(s, pl.w));
    }
  }

  lemma SameOwned(s: World, s': World, pl: Place, p: Payload)
    requires s'.processing == s.processing && s'.workers == s.workers
    requires pl.OnList? ==> s'.reaper == s.reaper
    requires pl.AtGateway? ==> s'.gateways == s.gateways
    requires pl.OnPending? ==> s'.pending == s.pending
    ensures Owned(s', pl, p) == Owned(s, pl, p)
  {
    assert forall w :: List(s', w) == List(s, w) && PhaseOf(s', w) == PhaseOf(s, w);
  }

  lemma GatewayOwned(s: World, i: JobId, g: GatewayEvent, pl: Place, p: Payload)
    requires GatewayEnabled(s, i, g) && (g.Refuse? ==> s.gateways[i].Inserted?)
    ensures g.Insert? ==>
              Owned(GatewayStep(s, i, g), pl, p) <=
              Owned(s, pl, p) + One(pl == AtGateway(i) && p == Payload(i, 0, g.body))
    ensures g.Push? ==>
              Owned(GatewayStep(s, i, g), pl, p) + One(pl == AtGateway(i) && p == s.gateways[i].p) ==
              Owned(s, pl, p) + One(pl == OnPending && p == s.gateways[i].p)
    ensures !g.Insert? && !g.Push? ==> Owned(GatewayStep(s, i, g), pl, p) <= Owned(s, pl, p)
  {
    if pl.OnList? || pl.InHand? { SameOwned(s, GatewayStep(s, i, g), pl, p); }
  }

  lemma GatewayUnique(s: World, i: JobId, g: GatewayEvent)
    requires Single(s) && GatewayEnabled(s, i, g) && Calm(s, OfGateway(i, g))
    ensures Unique(GatewayStep(s, i, g))
  {
    var s' := GatewayStep(s, i, g);
    forall pl, p {
      GatewayOwned(s, i, g, pl, p);
    }
    if g.Insert? {
      forall pl, p | Owned(s, pl, p) > 0 ensures p.job != i { OwnedIsSound(s, pl, p); }
      assert forall p :: Owned(s, AtGateway(i), p) == 0;
    } else if g.Push? {
      MoveUnique(s, s', AtGateway(i), s.gateways[i].p, OnPending, s.gateways[i].p);
    } else {
      ShrinkUnique(s, s');
    }
  }

  lemma InsertFacts(s: World, i: JobId, body: Body)
    requires Single(s) && GatewayEnabled(s, i, Insert(body))
    ensures Facts(GatewayStep(s, i, Insert(body)))
  {
    var s' := GatewayStep(s, i, Insert(body));
    forall w ensures PhaseFact(s'.rows, PhaseOf(s', w)) {
      assert PhaseSound(s.rows, PhaseOf(s, w), List(s, w)) && PhaseOf(s', w) == PhaseOf(s, w);
    }
  }

  /** Knowledge depends on the rows, and on who has what in hand. */
  lemma SameRowsFacts(s: World, s': World)
    requires Facts(s) && s'.rows == s.rows && s'.workers == s.workers && s'.reaper == s.reaper
    requires PendingFact(s.rows, s'.pending)
    requires forall j :: j in s'.gateways ==> GatewayFact(s.rows, s'.gateways[j])
    ensures Facts(s')
  {
    assert forall w :: PhaseOf(s', w) == PhaseOf(s, w);
  }

  lemma RefuseFacts(s: World, i: JobId)
    requires Single(s) && GatewayEnabled(s, i, MarkFailed)
    ensures Facts(GatewayStep(s, i, MarkFailed))
  {
    var s' := GatewayStep(s, i, MarkFailed);
    assert forall w :: PhaseOf(s', w) == PhaseOf(s, w);
    assert Owned(s, AtGateway(i), s.gateways[i].p) > 0;
    OthersKeepFacts(s, s'.rows, AtGateway(i), s.gateways[i].p);
  }

  lemma GatewayFacts(s: World, i: JobId, g: GatewayEvent)
    requires Single(s) && GatewayEnabled(s, i, g) && Calm(s, OfGateway(i, g)) && !g.Insert?
    ensures Facts(GatewayStep(s, i, g))
  {
    if g.MarkFailed? {
      RefuseFacts(s, i);
    } else {
      assert GatewayFact(s.rows, s.gateways[i]);
      SameRowsFacts(s, GatewayStep(s, i, g));
    }
  }

  lemma GatewayKeepsSingle(s: World, i: JobId, g: GatewayEvent)
    requires Single(s) && GatewayEnabled(s, i, g) && Calm(s, OfGateway(i, g))
    ensures Single(GatewayStep(s, i, g))
  {
    GatewayInv(s, i, g);
    GatewayUnique(s, i, g);
    if g.Insert? { InsertFacts(s, i, g.body); } else { GatewayFacts(s, i, g); }
  }

  lemma ReapedPush(s: World, p: Payload)
    requires Inv(s) && ReaperEnabled(s, PushEntry)
    ensures Owned(ReaperStep(s, PushEntry), OnList(s.reaper.dead), p) + One(p == Entry(s))
            <= Owned(s, OnList(s.reaper.dead), p)
  {
    var entries, at := s.reaper.entries, s.reaper.at;
    CountSplit(entries, at, p);
    CountFrom(entries, at, p);
    assert Owned(ReaperStep(s, PushEntry), OnList(s.reaper.dead), p) == Count(entries[at + 1..], p);
  }

  lemma ReapedDelete(s: World, p: Payload)
    requires Inv(s) && ReaperEnabled(s, Delete)
    ensures Owned(ReaperStep(s, Delete), OnList(s.reaper.dead), p) == 0
  {
  }

  lemma ReapedStop(s: World, p: Payload)
    requires Inv(s) && ReaperEnabled(s, Stop) && Calm(s, OfReaper(Stop))
    ensures Owned(ReaperStep(s, Stop), OnList(s.reaper.dead), p) <= Owned(s, OnList(s.reaper.dead), p)
  {
  }

  /** The cursor has moved over the entry, or only got further with it. */
  lemma ReapedCursor(s: World, c: ReaperEvent, p: Payload)
    requires Inv(s) && ReaperEnabled(s, c) && s.reaper.Recovering?
    requires c.Skip? || c.See? || c.ResetEntry? || c.BuryEntry? || c.DeadLetterEntry?
    ensures Owned(ReaperStep(s, c), OnList(s.reaper.dead), p) <= Owned(s, OnList(s.reaper.dead), p)
  {
    CountFrom(s.reaper.entries, s.reaper.at, p);
  }

  lemma ReapedOwned(s: World, c: ReaperEvent, p: Payload)
    requires Inv(s) && ReaperEnabled(s, c) && Calm(s, OfReaper(c)) && s.reaper.Recovering?
    ensures Owned(ReaperStep(s, c), OnList(s.reaper.dead), p) + One(c.PushEntry? && p == Entry(s))
            <= Owned(s, OnList(s.reaper.dead), p)
  {
    match c
    case PushEntry => ReapedPush(s, p);
    case Delete => ReapedDelete(s, p);
    case Stop => ReapedStop(s, p);
    case Skip | See | ResetEntry | BuryEntry | DeadLetterEntry => ReapedCursor(s, c, p);
  }

  lemma ReaperOwnedElsewhere(s: World, c: ReaperEvent, pl: Place, p: Payload)
    requires ReaperEnabled(s, c) && (s.reaper.Recovering? ==> pl != OnList(s.reaper.dead))
    ensures Owned(ReaperStep(s, c), pl, p) ==
            Owned(s, pl, p) + One(c.PushEntry? && pl == OnPending && p == Retried(Entry(s)))
  {
    var s' := ReaperStep(s, c);
    if pl.OnList? {
      assert List(s', pl.w) == List(s, pl.w) && PhaseOf(s', pl.w) == PhaseOf(s, pl.w);
    }
  }

  lemma ReaperOwned(s: World, c: ReaperEvent, pl: Place, p: Payload)
    requires Inv(s) && ReaperEnabled(s, c) && Calm(s, OfReaper(c))
    ensures c.PushEntry? ==>
              Owned(ReaperStep(s, c), pl, p) + One(pl == OnList(s.reaper.dead) && p == Entry(s))
              <= Owned(s, pl, p) + One(pl == OnPending && p == Retried(Entry(s)))
    ensures !c.PushEntry? ==> Owned(ReaperStep(s, c), pl, p) <= Owned(s, pl, p)
  {
    if s.reaper.Recovering? && pl == OnList(s.reaper.dead) {
      ReapedOwned(s, c, p);
    } else {
      ReaperOwnedElsewhere(s, c, pl, p);
    }
  }

  lemma ReaperUnique(s: World, c: ReaperEvent)
    requires Single(s) && ReaperEnabled(s, c) && Calm(s, OfReaper(c))
    ensures Unique(ReaperStep(s, c))
  {
    forall pl, p {
      ReaperOwned(s, c, pl, p);
    }
    if c.PushEntry? {
      EntryOwned(s);
      MoveUnique(s, ReaperStep(s, c), OnList(s.reaper.dead), Entry(s), OnPending, Retried(Entry(s)));
    } else {
      ShrinkUnique(s, ReaperStep(s, c));
    }
  }

  /** The reaper rewrites the row of the entry under its cursor. */
  lemma RewriteFacts(s: World, c: ReaperEvent)
    requires Single(s) && ReaperEnabled(s, c) && (c.ResetEntry? || c.BuryEntry?)
    ensures Facts(ReaperStep(s, c))
  {
    var s' := ReaperStep(s, c);
    assert forall w :: PhaseOf(s', w) == PhaseOf(s, w);
    assert AllSound(s.rows, List(s, s.reaper.dead)) && Sound(s.rows, Entry(s));
    EntryOwned(s);
    OthersKeepFacts(s, s'.rows, OnList(s.reaper.dead), Entry(s));
    assert forall w :: w == s.reaper.dead ==> PhaseFact(s'.rows, PhaseOf(s', w));
  }

  lemma CursorFacts(s: World, c: ReaperEvent)
    requires Facts(s) && ReaperEnabled(s, c)
    requires c.Read? || c.Skip? || c.DeadLetterEntry? || c.Delete? || c.Stop?
    ensures Facts(ReaperStep(s, c))
  {
    var s' := ReaperStep(s, c);
    ReaperOwnSphere(s, c);
    assert forall w :: PhaseOf(s', w) == PhaseOf(s, w);
    assert !AtStage(s', EntryOpen) && !AtStage(s', EntryReset) && !AtStage(s', EntryBuried);
  }

  lemma EntryFacts(s: World, c: ReaperEvent)
    requires Single(s) && ReaperEnabled(s, c) && (c.See? || c.PushEntry?)
    ensures Facts(ReaperStep(s, c))
  {
    assert forall w :: PhaseOf(ReaperStep(s, c), w) == PhaseOf(s, w);
    assert AllSound(s.rows, List(s, s.reaper.dead)) && Sound(s.rows, Entry(s));
  }

  lemma ReaperFacts(s: World, c: ReaperEvent)
    requires Single(s) && ReaperEnabled(s, c)
    ensures Facts(ReaperStep(s, c))
  {
    match c
    case ResetEntry | BuryEntry => RewriteFacts(s, c);
    case See | PushEntry => EntryFacts(s, c);
    case Read(_) | Skip | DeadLetterEntry | Delete | Stop => CursorFacts(s, c);
  }

  lemma ReaperKeepsSingle(s: World, c: ReaperEvent)
    requires Single(s) && ReaperEnabled(s, c) && Calm(s, OfReaper(c))
    ensures Single(ReaperStep(s, c))
  {
    ReaperInv(s, c);
    ReaperUnique(s, c);
    ReaperFacts(s, c);
  }

  // ── the invariant over runs ──────────────────────────────────────────────

  lemma StepKeepsSingle(s: World, e: Event)
    requires Single(s) && Enabled(s, e) && Calm(s, e)
    ensures Single(Apply(s, e))
  {
    match e
    case OfGateway(i, g) => GatewayKeepsSingle(s, i, g);
    case OfWorker(w, a) => WorkerKeepsSingle(s, w, a);
    case OfRetry(w, r) => RetryKeepsSingle(s, w, r);
    case OfReaper(c) => ReaperKeepsSingle(s, c);
  }

  /** Every step of the run is within the regime. */
  ghost predicate CalmRun(es: seq<Event>)
    requires IsRun(GENESIS, es)
    decreases |es|
  {
    es == [] || (CalmRun(Before(es)) && Calm(After(GENESIS, Before(es)), Last(es)))
  }

  lemma {:induction false} CalmRunsAreSingle(es: seq<Event>)
    requires IsRun(GENESIS, es) && CalmRun(es)
    ensures Single(After(GENESIS, es))
    decreases |es|
  {
    if es == [] {
      GenesisSingle();
    } else {
      CalmRunsAreSingle(Before(es));
      StepKeepsSingle(After(GENESIS, Before(es)), Last(es));
    }
  }
}
