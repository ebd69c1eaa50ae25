/** What holds in every reachable state of the queue, whatever fails and whoever
    crashes: payloads describe existing rows, retry counts stay within the
    limit, a worker's unacknowledged payload is still on its own list, and the
    reaper works on an unchanging list of a dead worker. */
module Soundness {
  import opened Contracts
  import opened RedisList
  import opened Protocol

  ghost predicate Sound(rows: Rows, p: Payload) {
    p.job in rows && rows[p.job].body == p.body && p.retry <= MAX_RETRY_COUNT
  }

  ghost predicate AllSound(rows: Rows, list: seq<Payload>) {
    forall p :: p in list ==> Sound(rows, p)
  }

  /** The worker has not yet removed raw from its own processing list. */
  predicate HoldsEntry(phase: Phase) {
    phase.Popped? || phase.Missed? || phase.SawOpen? || phase.Repushed? || phase.SawDone?
    || phase.Executing? || phase.Committed?
    || (phase.Failing? && phase.held) || (phase.Backoff? && phase.held)
  }

  ghost predicate PhaseSound(rows: Rows, phase: Phase, list: seq<Payload>) {
    && (InTry(phase) || InCatch(phase) ==> Sound(rows, phase.raw))
    && (HoldsEntry(phase) ==> phase.raw in list)
    && (phase.Backoff? || phase.Requeued? ==> !Exhausted(phase.raw))
    && (phase.DlqOpen? || phase.DlqCommitted? || phase.DlqPushed? ==> Exhausted(phase.raw))
  }

  ghost predicate ReaperSound(s: World) {
    s.reaper.Recovering? ==>
      && PhaseOf(s, s.reaper.dead).Crashed? && s.reaper.dead in s.workers
      && s.reaper.entries == List(s, s.reaper.dead)
      && s.reaper.at <= |s.reaper.entries|
      && (s.reaper.at == |s.reaper.entries| ==> s.reaper.stage == AtEntry)
      && (s.reaper.stage == EntryReset ==> !Exhausted(Entry(s)))
      && (s.reaper.stage == EntryBuried ==> Exhausted(Entry(s)))
  }

  ghost predicate RowsSound(rows: Rows) {
    forall j :: j in rows ==> rows[j].retry <= MAX_RETRY_COUNT
  }

  ghost predicate GatewaysSound(s: World) {
    forall j :: j in s.gateways ==>
      s.gateways[j].p.job == j && s.gateways[j].p.retry == 0 && Sound(s.rows, s.gateways[j].p)
  }

  ghost predicate StartupsSound(s: World) {
    forall m :: m in s.startups && s.startups[m].Rehydrating? ==> AllSound(s.rows, s.startups[m].rest)
  }

  ghost predicate DeadLetterSound(s: World) {
    forall p :: p in s.deadLetter ==> Sound(s.rows, p) && p.retry == MAX_RETRY_COUNT
  }

  ghost predicate Inv(s: World) {
    && RowsSound(s.rows)
    && AllSound(s.rows, s.pending)
    && (forall w :: AllSound(s.rows, List(s, w)))
    && (forall w :: PhaseSound(s.rows, PhaseOf(s, w), List(s, w)))
    && GatewaysSound(s)
    && StartupsSound(s)
    && DeadLetterSound(s)
    && ReaperSound(s)
  }

  /** Rows are only ever added, and their bodies never change. */
  ghost predicate Extends(rows: Rows, rows': Rows) {
    forall j :: j in rows ==> j in rows' && rows'[j].body == rows[j].body
  }

  lemma GenesisInv()
    ensures Inv(GENESIS)
  {
  }

  lemma SoundKept(rows: Rows, rows': Rows)
    requires Extends(rows, rows')
    ensures forall p {:trigger Sound(rows', p)} :: Sound(rows, p) ==> Sound(rows', p)
    ensures forall list {:trigger AllSound(rows', list)} :: AllSound(rows, list) ==> AllSound(rows', list)
    ensures forall phase, list {:trigger PhaseSound(rows', phase, list)} ::
              PhaseSound(rows, phase, list) ==> PhaseSound(rows', phase, list)
  {
  }

  /** Lists, phases and the reaper are as before. */
  ghost predicate SameWork(s: World, s': World) {
    s'.processing == s.processing && s'.workers == s.workers && s'.deadLetter == s.deadLetter && s'.reaper == s.reaper
  }

  lemma SameWorkKept(s: World, s': World)
    requires Inv(s) && SameWork(s, s') && Extends(s.rows, s'.rows)
    ensures forall w :: AllSound(s'.rows, List(s', w))
    ensures forall w :: PhaseSound(s'.rows, PhaseOf(s', w), List(s', w))
    ensures DeadLetterSound(s') && ReaperSound(s')
  {
    SoundKept(s.rows, s'.rows);
    forall w ensures AllSound(s'.rows, List(s', w)) && PhaseSound(s'.rows, PhaseOf(s', w), List(s', w)) {
      assert AllSound(s.rows, List(s, w)) && PhaseSound(s.rows, PhaseOf(s, w), List(s, w));
      assert List(s', w) == List(s, w) && PhaseOf(s', w) == PhaseOf(s, w);
    }
  }

  lemma GatewayRows(s: World, j: JobId, g: GatewayEvent)
    requires Inv(s) && GatewayEnabled(s, j, g)
    ensures Extends(s.rows, GatewayStep(s, j, g).rows) && RowsSound(GatewayStep(s, j, g).rows)
    ensures SameWork(s, GatewayStep(s, j, g))
  {
  }

  lemma GatewayHeld(s: World, j: JobId, g: GatewayEvent)
    requires Inv(s) && GatewayEnabled(s, j, g) && Extends(s.rows, GatewayStep(s, j, g).rows)
    ensures GatewaysSound(GatewayStep(s, j, g)) && AllSound(GatewayStep(s, j, g).rows, GatewayStep(s, j, g).pending)
  {
    SoundKept(s.rows, GatewayStep(s, j, g).rows);
  }

  lemma GatewayInv(s: World, j: JobId, g: GatewayEvent)
    requires Inv(s) && GatewayEnabled(s, j, g)
    ensures Inv(GatewayStep(s, j, g)) && Extends(s.rows, GatewayStep(s, j, g).rows)
  {
    GatewayRows(s, j, g);
    SameWorkKept(s, GatewayStep(s, j, g));
    SoundKept(s.rows, GatewayStep(s, j, g).rows);
    GatewayHeld(s, j, g);
  }

  lemma StartupInv(s: World, m: MonitorId, u: StartupEvent)
    requires Inv(s) && StartupEnabled(s, m, u)
    ensures Inv(StartupStep(s, m, u)) && Extends(s.rows, StartupStep(s, m, u).rows)
  {
    var s' := StartupStep(s, m, u);
    SameWorkKept(s, s');
    SoundKept(s.rows, s'.rows);
    if u.Select? {
      var listing := Rehydration(s.rows, u.answer);
      forall p | p in listing ensures Sound(s.rows, p) {
        var i :| 0 <= i < |listing| && listing[i] == p;
        assert u.answer[i] in u.answer;
      }
    }
  }

  /** What a worker's view must satisfy for the whole state to. */
  ghost predicate ViewSound(v: View) {
    && RowsSound(v.rows)
    && AllSound(v.rows, v.pending)
    && AllSound(v.rows, v.list)
    && PhaseSound(v.rows, v.phase, v.list)
    && (forall p :: p in v.deadLetter ==> Sound(v.rows, p) && p.retry == MAX_RETRY_COUNT)
  }

  lemma PutKept(s: World, w: WorkerId, v: View)
    requires Inv(s) && ViewSound(v) && Extends(s.rows, v.rows)
    requires PhaseOf(s, w).Crashed? ==> w !in s.workers
    ensures Inv(Put(s, w, v))
  {
    var s' := Put(s, w, v);
    SoundKept(s.rows, s'.rows);
    forall u ensures AllSound(s'.rows, List(s', u)) && PhaseSound(s'.rows, PhaseOf(s', u), List(s', u)) {
      assert AllSound(s.rows, List(s, u)) && PhaseSound(s.rows, PhaseOf(s, u), List(s, u));
    }
  }

  lemma LookSound(s: World, w: WorkerId)
    requires Inv(s)
    ensures ViewSound(Look(s, w))
  {
  }

  /** The parts of a view a step may change, and the rows under them. */
  lemma WorkerRows(v: View, a: WorkerEvent)
    requires ViewSound(v) && WorkerCan(v, a)
    ensures Extends(v.rows, WorkerDo(v, a).rows) && RowsSound(WorkerDo(v, a).rows)
  {
  }

  lemma WorkerView(v: View, a: WorkerEvent)
    requires ViewSound(v) && WorkerCan(v, a)
    ensures ViewSound(WorkerDo(v, a)) && Extends(v.rows, WorkerDo(v, a).rows)
  {
    WorkerRows(v, a);
    SoundKept(v.rows, WorkerDo(v, a).rows);
    WorkerLists(v, a);
    WorkerPhase(v, a);
  }

  lemma WorkerLists(v: View, a: WorkerEvent)
    requires ViewSound(v) && WorkerCan(v, a)
    ensures AllSound(v.rows, WorkerDo(v, a).pending) && AllSound(v.rows, WorkerDo(v, a).list)
    ensures WorkerDo(v, a).deadLetter == v.deadLetter
  {
  }

  lemma PopPhase(v: View, a: WorkerEvent)
    requires ViewSound(v) && WorkerCan(v, a) && (a.Pop? || a.PopUnseen?)
    ensures PhaseSound(v.rows, WorkerDo(v, a).phase, WorkerDo(v, a).list)
  {
  }

  lemma RemovePhase(v: View, a: WorkerEvent)
    requires ViewSound(v) && WorkerCan(v, a) && (a.Discard? || a.DiscardUnseen? || a.Ack?)
    ensures PhaseSound(v.rows, WorkerDo(v, a).phase, WorkerDo(v, a).list)
  {
  }

  lemma WorkerPhase(v: View, a: WorkerEvent)
    requires ViewSound(v) && WorkerCan(v, a)
    ensures PhaseSound(v.rows, WorkerDo(v, a).phase, WorkerDo(v, a).list)
  {
    if a.Pop? || a.PopUnseen? {
      PopPhase(v, a);
    } else if a.Discard? || a.DiscardUnseen? || a.Ack? {
      RemovePhase(v, a);
    }
  }

  lemma RetryRows(v: View, r: RetryEvent)
    requires ViewSound(v) && RetryCan(v, r)
    ensures Extends(v.rows, RetryDo(v, r).rows) && RowsSound(RetryDo(v, r).rows)
  {
  }

  lemma RetryLists(v: View, r: RetryEvent)
    requires ViewSound(v) && RetryCan(v, r)
    ensures AllSound(v.rows, RetryDo(v, r).pending) && AllSound(v.rows, RetryDo(v, r).list)
    ensures forall p :: p in RetryDo(v, r).deadLetter ==> Sound(v.rows, p) && p.retry == MAX_RETRY_COUNT
  {
  }

  lemma RetryPhase(v: View, r: RetryEvent)
    requires ViewSound(v) && RetryCan(v, r)
    ensures PhaseSound(v.rows, RetryDo(v, r).phase, RetryDo(v, r).list)
  {
  }

  lemma RetryView(v: View, r: RetryEvent)
    requires ViewSound(v) && RetryCan(v, r)
    ensures ViewSound(RetryDo(v, r)) && Extends(v.rows, RetryDo(v, r).rows)
  {
    RetryRows(v, r);
    SoundKept(v.rows, RetryDo(v, r).rows);
    RetryLists(v, r);
    RetryPhase(v, r);
  }

  lemma WorkerInv(s: World, w: WorkerId, a: WorkerEvent)
    requires Inv(s) && WorkerEnabled(s, w, a)
    ensures Inv(WorkerStep(s, w, a)) && Extends(s.rows, WorkerStep(s, w, a).rows)
  {
    LookSound(s, w);
    WorkerView(Look(s, w), a);
    PutKept(s, w, WorkerDo(Look(s, w), a));
  }

  lemma RetryInv(s: World, w: WorkerId, r: RetryEvent)
    requires Inv(s) && RetryEnabled(s, w, r)
    ensures Inv(RetryStep(s, w, r)) && Extends(s.rows, RetryStep(s, w, r).rows)
  {
    LookSound(s, w);
    RetryView(Look(s, w), r);
    PutKept(s, w, RetryDo(Look(s, w), r));
  }

  lemma ReaperKeepsReaper(s: World, c: ReaperEvent)
    requires Inv(s) && ReaperEnabled(s, c)
    ensures Extends(s.rows, ReaperStep(s, c).rows)
    ensures forall w :: AllSound(ReaperStep(s, c).rows, List(ReaperStep(s, c), w))
    ensures forall w :: PhaseSound(ReaperStep(s, c).rows, PhaseOf(ReaperStep(s, c), w), List(ReaperStep(s, c), w))
  {
    var s' := ReaperStep(s, c);
    SoundKept(s.rows, s'.rows);
    forall w ensures AllSound(s'.rows, List(s', w)) && PhaseSound(s'.rows, PhaseOf(s', w), List(s', w)) {
      assert AllSound(s.rows, List(s, w)) && PhaseSound(s.rows, PhaseOf(s, w), List(s, w));
    }
  }

  lemma ReaperKeepsRest(s: World, c: ReaperEvent)
    requires Inv(s) && ReaperEnabled(s, c) && Extends(s.rows, ReaperStep(s, c).rows)
    ensures RowsSound(ReaperStep(s, c).rows) && AllSound(ReaperStep(s, c).rows, ReaperStep(s, c).pending)
    ensures DeadLetterSound(ReaperStep(s, c)) && ReaperSound(ReaperStep(s, c))
  {
    SoundKept(s.rows, ReaperStep(s, c).rows);
    if s.reaper.Recovering? {
      assert AllSound(s.rows, List(s, s.reaper.dead));
      assert s.reaper.at < |s.reaper.entries| ==> Sound(s.rows, Entry(s));
    }
  }

  lemma ReaperInv(s: World, c: ReaperEvent)
    requires Inv(s) && ReaperEnabled(s, c)
    ensures Inv(ReaperStep(s, c)) && Extends(s.rows, ReaperStep(s, c).rows)
  {
    ReaperKeepsReaper(s, c);
    ReaperKeepsRest(s, c);
    SoundKept(s.rows, ReaperStep(s, c).rows);
  }

  lemma ReaperOwnSphere(s: World, c: ReaperEvent)
    requires ReaperEnabled(s, c)
    ensures ReaperStep(s, c).gateways == s.gateways && ReaperStep(s, c).workers == s.workers
  {
  }

  lemma StartupOwnSphere(s: World, m: MonitorId, u: StartupEvent)
    requires StartupEnabled(s, m, u)
    ensures StartupStep(s, m, u).gateways == s.gateways && StartupStep(s, m, u).workers == s.workers
  {
  }

  lemma GatewayOwnSphere(s: World, j: JobId, g: GatewayEvent)
    requires GatewayEnabled(s, j, g)
    ensures GatewayStep(s, j, g).workers == s.workers && GatewayStep(s, j, g).reaper == s.reaper
  {
  }

  lemma StepInv(s: World, e: Event)
    requires Inv(s) && Enabled(s, e)
    ensures Inv(Apply(s, e)) && Extends(s.rows, Apply(s, e).rows)
  {
    match e
    case OfGateway(j, g) => GatewayInv(s, j, g);
    case OfWorker(w, a) => WorkerInv(s, w, a);
    case OfRetry(w, r) => RetryInv(s, w, r);
    case OfReaper(c) => ReaperInv(s, c);
    case OfStartup(m, u) => StartupInv(s, m, u);
  }

  /** Retry bounds in all runs: every queued payload and every row stays within
      0..3, and a dead-letter entry has used up exactly its three retries. */
  lemma {:induction false} RunInv(es: seq<Event>)
    requires IsRun(GENESIS, es)
    ensures Inv(After(GENESIS, es))
    decreases |es|
  {
    if es == [] {
      GenesisInv();
    } else {
      RunInv(Before(es));
      StepInv(After(GENESIS, Before(es)), Last(es));
    }
  }
}
