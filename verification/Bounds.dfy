/** Bounds on the life of a job in the single-copy regime. Each place a job can be
    owned from has a rank; every step that acts on the job lowers its rank, and
    every other step leaves it alone, so only boundedly many steps act on it. The
    same tracing bounds its executions by MAX_RETRY_COUNT + 1. */
module Bounds {
  import opened Contracts
  import opened RedisList
  import opened Protocol
  import opened Soundness
  import opened NoLoss
  import opened SingleCopy
  import opened ClaimAccounting

  // ── rank and allowance seen from one worker ──────────────────────────────

  datatype Spot = Queue | Mine | Memory

  function OwnAt(v: View, spot: Spot, p: Payload): nat {
    match spot
    case Queue => Count(v.pending, p)
    case Mine => OwnedOn(v.list, v.phase, p)
    case Memory => One(IsInHand(v.phase, p))
  }

  function MineRank(phase: Phase, p: Payload): nat {
    if phase.Crashed? then 6
    else if phase.Popped? && phase.raw == p then 11
    else if phase.Executing? && phase.raw == p then 10
    else if phase.Failing? && phase.raw == p then 9
    else if (phase.Backoff? || phase.Committed?) && phase.raw == p then 8
    else 7
  }

  const TOP: nat := 16

  function Base(p: Payload): nat {
    TOP * Less(MAX_RETRY_COUNT, p.retry)
  }

  function SpotRank(phase: Phase, spot: Spot, p: Payload): nat {
    Base(p) + match spot { case Queue => 12 case Mine => MineRank(phase, p) case Memory => 5 }
  }

  /** The payload has been claimed since it was last pushed, or may have been. */
  predicate MaybeClaimed(phase: Phase, spot: Spot, p: Payload) {
    match spot
    case Queue => false
    case Mine => !(phase.Popped? && phase.raw == p)
    case Memory => true
  }

  function SpotAllowance(phase: Phase, spot: Spot, p: Payload): nat {
    p.retry + One(MaybeClaimed(phase, spot, p))
  }

  /** The step of the main loop moves the copy of job j. */
  ghost predicate WorkerMoves(v: View, a: WorkerEvent, j: JobId) {
    match a
    case Pop => v.pending != [] && Tail(v.pending).job == j
    case PopUnseen => v.pending != [] && Tail(v.pending).job == j
    case Claim => v.phase.Popped? && v.phase.raw.job == j
    case Commit(_) => v.phase.Executing? && v.phase.raw.job == j
    case Ack => v.phase.Committed? && v.phase.raw.job == j
    case Fail => InTry(v.phase) && v.phase.raw.job == j
    case Crash => exists p: Payload :: p.job == j && OwnAt(v, Mine, p) + OwnAt(v, Memory, p) > 0
    case _ => false
  }

  predicate RetryMoves(v: View, r: RetryEvent, j: JobId) {
    match r
    case Reset => v.phase.Failing? && v.phase.raw.job == j
    case RequeuePush => v.phase.Backoff? && v.phase.raw.job == j
    case DlqRemove => v.phase.Failing? && v.phase.raw.job == j
    case DlqCommit => v.phase.DlqOpen? && v.phase.raw.job == j
    case Abandon => ActsOnRow(v.phase) && v.phase.raw.job == j
    case _ => false
  }

  predicate ViewClaims(v: View, a: WorkerEvent, j: JobId) {
    a.Claim? && v.phase.Popped? && v.phase.raw.job == j
  }

  lemma OwnAtSeen(v: View, spot: Spot, p: Payload)
    ensures OwnAt(v, spot, p) <= OwnSeen(v, p)
  {
  }

  lemma RawIsMine(v: View)
    requires EntryListed(v) && HoldsEntry(v.phase) && !v.phase.Repushed?
    ensures OwnAt(v, Mine, v.phase.raw) > 0 && OwnSeen(v, v.phase.raw) > 0
  {
  }

  /** An owner after the step was an owner before it: it has not fallen back, and
      it has moved on if the step moves its job. */
  lemma WorkerTrace(v: View, a: WorkerEvent, spot: Spot, p: Payload) returns (was: Spot)
    requires EntryListed(v) && ViewUnique(v) && PhaseFact(v.rows, v.phase)
    requires WorkerCan(v, a) && CalmWorker(v.phase, a) && OwnAt(WorkerDo(v, a), spot, p) > 0
    ensures OwnAt(v, was, p) > 0
    ensures SpotRank(WorkerDo(v, a).phase, spot, p) + One(WorkerMoves(v, a, p.job)) <= SpotRank(v.phase, was, p)
    ensures SpotAllowance(v.phase, was, p) + One(ViewClaims(v, a, p.job)) <=
            SpotAllowance(WorkerDo(v, a).phase, spot, p)
  {
    was := spot;
    match a
    case Pop => was := PopTrace(v, a, spot, p);
    case PopUnseen => was := PopTrace(v, a, spot, p);
    case Crash => CrashTrace(v, spot, p);
    case Claim => HolderTrace(v, a, spot, p);
    case Commit(_) => HolderTrace(v, a, spot, p);
    case Ack => HolderTrace(v, a, spot, p);
    case Fail => HolderTrace(v, a, spot, p);
    case _ =>
  }

  lemma PopTrace(v: View, a: WorkerEvent, spot: Spot, p: Payload) returns (was: Spot)
    requires ViewUnique(v) && (a.Pop? || a.PopUnseen?) && WorkerCan(v, a) && OwnAt(WorkerDo(v, a), spot, p) > 0
    ensures OwnAt(v, was, p) > 0
    ensures SpotRank(WorkerDo(v, a).phase, spot, p) + One(WorkerMoves(v, a, p.job)) <= SpotRank(v.phase, was, p)
    ensures SpotAllowance(v.phase, was, p) <= SpotAllowance(WorkerDo(v, a).phase, spot, p)
  {
    var raw := Tail(v.pending);
    was := if p == raw then Queue else spot;
    assert OwnSeen(v, raw) > 0 && Count(v.pending, raw) > 0;
    OwnAtSeen(v, was, p);
    assert p.job == raw.job ==> p == raw;
  }

  lemma CrashTrace(v: View, spot: Spot, p: Payload)
    requires ViewUnique(v) && WorkerCan(v, Crash) && CalmWorker(v.phase, Crash)
    requires OwnAt(WorkerDo(v, Crash), spot, p) > 0
    ensures OwnAt(v, spot, p) > 0
    ensures SpotRank(Phase.Crashed, spot, p) + One(WorkerMoves(v, Crash, p.job)) <= SpotRank(v.phase, spot, p)
    ensures SpotAllowance(v.phase, spot, p) <= SpotAllowance(Phase.Crashed, spot, p)
  {
    forall q: Payload | q.job == p.job && OwnAt(v, Mine, q) + OwnAt(v, Memory, q) > 0 ensures spot != Queue {
      OwnAtSeen(v, spot, p);
      assert OwnSeen(v, q) > 0;
      assert q == p;
    }
  }

  /** The worker's own entry is the only copy of its job it sees. */
  lemma RawIsOnly(v: View, spot: Spot, p: Payload)
    requires EntryListed(v) && HoldsEntry(v.phase) && !v.phase.Repushed? && ViewUnique(v) && OwnAt(v, spot, p) > 0
    ensures p.job == v.phase.raw.job <==> p == v.phase.raw
    ensures p == v.phase.raw ==> spot == Mine
  {
    RawIsMine(v);
    OwnAtSeen(v, spot, p);
    OwnAtSeen(v, Mine, v.phase.raw);
  }

  lemma HolderKeeps(v: View, a: WorkerEvent, spot: Spot, p: Payload)
    requires EntryListed(v) && PhaseFact(v.rows, v.phase)
    requires WorkerCan(v, a) && CalmWorker(v.phase, a) && OwnAt(WorkerDo(v, a), spot, p) > 0
    requires a.Claim? || a.Commit? || a.Ack? || a.Fail?
    ensures OwnAt(v, spot, p) > 0 && HoldsEntry(v.phase) && !v.phase.Repushed?
  {
  }

  lemma HolderTrace(v: View, a: WorkerEvent, spot: Spot, p: Payload)
    requires EntryListed(v) && ViewUnique(v) && PhaseFact(v.rows, v.phase)
    requires WorkerCan(v, a) && CalmWorker(v.phase, a) && OwnAt(WorkerDo(v, a), spot, p) > 0
    requires a.Claim? || a.Commit? || a.Ack? || a.Fail?
    ensures OwnAt(v, spot, p) > 0
    ensures SpotRank(WorkerDo(v, a).phase, spot, p) + One(WorkerMoves(v, a, p.job)) <= SpotRank(v.phase, spot, p)
    ensures SpotAllowance(v.phase, spot, p) + One(ViewClaims(v, a, p.job)) <=
            SpotAllowance(WorkerDo(v, a).phase, spot, p)
  {
    HolderKeeps(v, a, spot, p);
    RawIsOnly(v, spot, p);
    if a.Ack? { AckTakes(v, spot, p); }
  }

  /** After the acknowledgement no copy of the worker's own payload is left. */
  lemma AckTakes(v: View, spot: Spot, p: Payload)
    requires ViewUnique(v) && WorkerCan(v, Ack) && OwnAt(WorkerDo(v, Ack), spot, p) > 0
    ensures p != v.phase.raw || spot != Mine
  {
    assert OwnSeen(v, p) <= 1;
  }

  /** The retried payload comes from the one it replaces. */
  lemma RequeueTrace(v: View, spot: Spot, p: Payload) returns (was: Spot, q: Payload)
    requires EntryListed(v) && ViewUnique(v) && PhaseFact(v.rows, v.phase)
    requires v.phase.Backoff? && !Exhausted(v.phase.raw)
    requires OwnAt(RetryDo(v, RequeuePush), spot, p) > 0
    ensures q.job == p.job && OwnAt(v, was, q) > 0
    ensures SpotRank(Requeued(v.phase.raw), spot, p) + One(v.phase.raw.job == p.job) <= SpotRank(v.phase, was, q)
    ensures SpotAllowance(v.phase, was, q) <= SpotAllowance(Requeued(v.phase.raw), spot, p)
  {
    var raw := v.phase.raw;
    RetryOwnFlow(v, RequeuePush, p);
    OwnAtSeen(RetryDo(v, RequeuePush), spot, p);
    RawIsMine(v);
    assert p.job == raw.job ==> p == Retried(raw);
    if p == Retried(raw) {
      was, q := Mine, raw;
      assert OwnSeen(v, p) == 0 && spot == Queue;
    } else {
      was, q := spot, p;
    }
  }

  /** Removing an exhausted entry moves its job from the list into memory. */
  lemma RemoveTrace(v: View, spot: Spot, p: Payload) returns (was: Spot)
    requires EntryListed(v) && ViewUnique(v) && PhaseFact(v.rows, v.phase)
    requires RetryCan(v, DlqRemove) && OwnAt(RetryDo(v, DlqRemove), spot, p) > 0
    ensures OwnAt(v, was, p) > 0
    ensures SpotRank(DlqOpen(v.phase.raw), spot, p) + One(RetryMoves(v, DlqRemove, p.job)) <= SpotRank(v.phase, was, p)
    ensures SpotAllowance(v.phase, was, p) <= SpotAllowance(DlqOpen(v.phase.raw), spot, p)
  {
    var raw := v.phase.raw;
    was := if p == raw then Mine else spot;
    RetryOwnFlow(v, DlqRemove, p);
    OwnAtSeen(RetryDo(v, DlqRemove), spot, p);
    RawIsMine(v);
    OwnAtSeen(v, was, p);
  }

  lemma StayTrace(v: View, r: RetryEvent, spot: Spot, p: Payload)
    requires EntryListed(v) && ViewUnique(v) && PhaseFact(v.rows, v.phase)
    requires v.phase.Backoff? ==> !Exhausted(v.phase.raw)
    requires RetryCan(v, r) && CalmRetry(v.phase, r) && OwnAt(RetryDo(v, r), spot, p) > 0
    requires !r.RequeuePush? && !r.DlqRemove?
    ensures OwnAt(v, spot, p) > 0
    ensures SpotRank(RetryDo(v, r).phase, spot, p) + One(RetryMoves(v, r, p.job)) <= SpotRank(v.phase, spot, p)
    ensures SpotAllowance(v.phase, spot, p) <= SpotAllowance(RetryDo(v, r).phase, spot, p)
  {
    RetryOwnFlow(v, r, p);
    OwnAtSeen(RetryDo(v, r), spot, p);
    if v.phase.Failing? || v.phase.Backoff? { RawIsMine(v); }
    OwnAtSeen(v, spot, p);
    assert v.phase.DlqOpen? ==> OwnSeen(v, v.phase.raw) > 0;
  }

  lemma RetryTrace(v: View, r: RetryEvent, spot: Spot, p: Payload) returns (was: Spot, q: Payload)
    requires EntryListed(v) && ViewUnique(v) && PhaseFact(v.rows, v.phase)
    requires v.phase.Backoff? ==> !Exhausted(v.phase.raw)
    requires RetryCan(v, r) && CalmRetry(v.phase, r) && OwnAt(RetryDo(v, r), spot, p) > 0
    ensures q.job == p.job && OwnAt(v, was, q) > 0
    ensures SpotRank(RetryDo(v, r).phase, spot, p) + One(RetryMoves(v, r, p.job)) <= SpotRank(v.phase, was, q)
    ensures SpotAllowance(v.phase, was, q) <= SpotAllowance(RetryDo(v, r).phase, spot, p)
  {
    was, q := spot, p;
    if r.RequeuePush? {
      was, q := RequeueTrace(v, spot, p);
    } else if r.DlqRemove? {
      was := RemoveTrace(v, spot, p);
    } else {
      StayTrace(v, r, spot, p);
    }
  }

  // ── rank and allowance in the whole state ────────────────────────────────

  function ReapedRank(reaper: Reaper, p: Payload): nat
    requires reaper.Recovering? && reaper.at <= |reaper.entries|
  {
    if Count(reaper.entries[reaper.at..], p) == 0 then 1
    else if p != reaper.entries[reaper.at] then 5
    else match reaper.stage { case AtEntry => 5 case EntryOpen => 4 case EntryReset => 3 case EntryBuried => 3 }
  }

  function Rank(s: World, pl: Place, p: Payload): nat {
    match pl
    case OnPending => SpotRank(Idle, Queue, p)
    case OnList(w) =>
      if BeingReaped(s, w) then Base(p) + ReapedRank(s.reaper, p) else SpotRank(PhaseOf(s, w), Mine, p)
    case AtGateway(j) => Base(p) + (if j in s.gateways && s.gateways[j].Inserted? then 14 else 13)
    case InHand(w) => SpotRank(PhaseOf(s, w), Memory, p)
  }

  function Allowance(s: World, pl: Place, p: Payload): nat {
    match pl
    case OnPending => SpotAllowance(Idle, Queue, p)
    case OnList(w) =>
      if BeingReaped(s, w) then p.retry + 1 else SpotAllowance(PhaseOf(s, w), Mine, p)
    case AtGateway(j) => p.retry
    case InHand(w) => SpotAllowance(PhaseOf(s, w), Memory, p)
  }

  predicate ReaperMoves(s: World, c: ReaperEvent, j: JobId) {
    match c
    case Read(d) => exists i :: 0 <= i < |List(s, d)| && List(s, d)[i].job == j
    case Delete => false
    case Stop => false
    case _ => s.reaper.Recovering? && s.reaper.at < |s.reaper.entries| && Entry(s).job == j
  }

  /** The step acts on the copy of job j. */
  ghost predicate Moves(s: World, e: Event, j: JobId) {
    match e
    case OfGateway(i, g) => i == j && (exists p :: GatewayHolds(s, i, p)) && !g.RecordUnknown?
    case OfWorker(w, a) => WorkerMoves(Look(s, w), a, j)
    case OfRetry(w, r) => RetryMoves(Look(s, w), r, j)
    case OfReaper(c) => ReaperMoves(s, c, j)
    case OfStartup(_, _) => false
  }

  function PlaceOf(w: WorkerId, spot: Spot): Place {
    match spot
    case Queue => OnPending
    case Mine => OnList(w)
    case Memory => InHand(w)
  }

  lemma SpotIsPlace(s: World, w: WorkerId, spot: Spot, p: Payload)
    requires !BeingReaped(s, w)
    ensures OwnAt(Look(s, w), spot, p) == Owned(s, PlaceOf(w, spot), p)
    ensures SpotRank(PhaseOf(s, w), spot, p) == Rank(s, PlaceOf(w, spot), p)
    ensures SpotAllowance(PhaseOf(s, w), spot, p) == Allowance(s, PlaceOf(w, spot), p)
  {
  }

  lemma PutRank(s: World, w: WorkerId, v: View, pl: Place, p: Payload)
    requires !OwnPlace(pl, w)
    ensures Rank(Put(s, w, v), pl, p) == Rank(s, pl, p) && Allowance(Put(s, w, v), pl, p) == Allowance(s, pl, p)
  {
  }

  /** The reaper is not interrupted. */
  predicate Steady(e: Event) {
    e != OfReaper(Stop)
  }

  /** The step before and the step after, as seen by the owner of p's job. */
  ghost predicate Traced(s: World, e: Event, pl: Place, p: Payload, was: Place, q: Payload)
    requires Enabled(s, e)
  {
    && q.job == p.job && Owned(s, was, q) > 0
    && (Steady(e) ==> Rank(Apply(s, e), pl, p) + One(Moves(s, e, p.job)) <= Rank(s, was, q))
    && Allowance(s, was, q) + One(Claims(s, e, p.job)) <= Allowance(Apply(s, e), pl, p)
  }

  lemma WorkerMovesOwned(v: View, a: WorkerEvent, j: JobId) returns (spot: Spot, p: Payload)
    requires EntryListed(v) && PhaseFact(v.rows, v.phase)
    requires WorkerCan(v, a) && CalmWorker(v.phase, a) && WorkerMoves(v, a, j)
    ensures p.job == j && OwnAt(v, spot, p) > 0
  {
    if a.Pop? || a.PopUnseen? {
      spot, p := Queue, Tail(v.pending);
    } else if a.Crash? {
      p :| p.job == j && OwnAt(v, Mine, p) + OwnAt(v, Memory, p) > 0;
      spot := if OwnAt(v, Mine, p) > 0 then Mine else Memory;
    } else {
      RawIsMine(v);
      spot, p := Mine, v.phase.raw;
    }
  }

  function SpotOf(pl: Place): Spot {
    if pl.OnPending? then Queue else if pl.OnList? then Mine else Memory
  }

  /** What a live worker may rely on. */
  ghost predicate Seated(s: World, w: WorkerId) {
    && !BeingReaped(s, w) && EntryListed(Look(s, w)) && ViewUnique(Look(s, w))
    && PhaseFact(s.rows, PhaseOf(s, w)) && (PhaseOf(s, w).Backoff? ==> !Exhausted(PhaseOf(s, w).raw))
  }

  lemma AliveIsSeated(s: World, w: WorkerId)
    requires Single(s) && (!PhaseOf(s, w).Crashed? || w !in s.workers)
    ensures Seated(s, w)
  {
    NotReapedWhileAlive(s, w);
    LookSound(s, w);
    LookUnique(s, w);
  }

  /** A trace within the worker's view is a trace in the whole state. */
  lemma LiftTrace(s: World, w: WorkerId, v': View, spot: Spot, p: Payload, was: Spot, q: Payload,
      moved: nat, claimed: nat)
    requires !BeingReaped(s, w) && OwnAt(Look(s, w), was, q) > 0
    requires SpotRank(v'.phase, spot, p) + moved <= SpotRank(PhaseOf(s, w), was, q)
    requires SpotAllowance(PhaseOf(s, w), was, q) + claimed <= SpotAllowance(v'.phase, spot, p)
    ensures Owned(s, PlaceOf(w, was), q) > 0
    ensures Rank(Put(s, w, v'), PlaceOf(w, spot), p) + moved <= Rank(s, PlaceOf(w, was), q)
    ensures Allowance(s, PlaceOf(w, was), q) + claimed <= Allowance(Put(s, w, v'), PlaceOf(w, spot), p)
  {
    LookPut(s, w, v');
    SpotIsPlace(s, w, was, q);
    SpotIsPlace(Put(s, w, v'), w, spot, p);
  }

  lemma PutSpot(s: World, w: WorkerId, v': View, pl: Place, p: Payload)
    requires !BeingReaped(s, w) && OwnPlace(pl, w)
    ensures PlaceOf(w, SpotOf(pl)) == pl && OwnAt(v', SpotOf(pl), p) == Owned(Put(s, w, v'), pl, p)
  {
    LookPut(s, w, v');
    SpotIsPlace(Put(s, w, v'), w, SpotOf(pl), p);
  }

  lemma WorkerTracedHere(s: World, w: WorkerId, a: WorkerEvent, pl: Place, p: Payload) returns (was: Place)
    requires Seated(s, w) && WorkerEnabled(s, w, a) && CalmWorker(PhaseOf(s, w), a)
    requires Owned(WorkerStep(s, w, a), pl, p) > 0 && OwnPlace(pl, w)
    ensures Traced(s, OfWorker(w, a), pl, p, was, p)
  {
    var v, v' := Look(s, w), WorkerDo(Look(s, w), a);
    PutSpot(s, w, v', pl, p);
    var spot := WorkerTrace(v, a, SpotOf(pl), p);
    LiftTrace(s, w, v', SpotOf(pl), p, spot, p, One(WorkerMoves(v, a, p.job)), One(ViewClaims(v, a, p.job)));
    was := PlaceOf(w, spot);
  }

  lemma WorkerMovesElsewhere(s: World, w: WorkerId, a: WorkerEvent, pl: Place, p: Payload)
    requires Seated(s, w) && Unique(s) && WorkerEnabled(s, w, a) && CalmWorker(PhaseOf(s, w), a)
    requires Owned(s, pl, p) > 0 && !OwnPlace(pl, w)
    ensures !WorkerMoves(Look(s, w), a, p.job)
  {
    if WorkerMoves(Look(s, w), a, p.job) {
      var spot, q := WorkerMovesOwned(Look(s, w), a, p.job);
      SpotIsPlace(s, w, spot, q);
    }
  }

  lemma WorkerTracedAway(s: World, w: WorkerId, a: WorkerEvent, pl: Place, p: Payload)
    requires Seated(s, w) && Unique(s) && WorkerEnabled(s, w, a) && CalmWorker(PhaseOf(s, w), a)
    requires Owned(WorkerStep(s, w, a), pl, p) > 0 && !OwnPlace(pl, w)
    ensures Traced(s, OfWorker(w, a), pl, p, pl, p)
  {
    PutOwned(s, w, WorkerDo(Look(s, w), a), pl, p);
    PutRank(s, w, WorkerDo(Look(s, w), a), pl, p);
    WorkerMovesElsewhere(s, w, a, pl, p);
    assert Claims(s, OfWorker(w, a), p.job) ==> WorkerMoves(Look(s, w), a, p.job);
  }

  lemma WorkerTraced(s: World, w: WorkerId, a: WorkerEvent, pl: Place, p: Payload) returns (was: Place, q: Payload)
    requires Single(s) && WorkerEnabled(s, w, a) && CalmWorker(PhaseOf(s, w), a)
    requires Owned(WorkerStep(s, w, a), pl, p) > 0
    ensures Traced(s, OfWorker(w, a), pl, p, was, q)
  {
    AliveIsSeated(s, w);
    was, q := pl, p;
    if OwnPlace(pl, w) { was := WorkerTracedHere(s, w, a, pl, p); } else { WorkerTracedAway(s, w, a, pl, p); }
  }

  lemma RetryMovesOwned(v: View, r: RetryEvent, j: JobId) returns (spot: Spot, p: Payload)
    requires EntryListed(v) && PhaseFact(v.rows, v.phase)
    requires RetryCan(v, r) && CalmRetry(v.phase, r) && RetryMoves(v, r, j)
    ensures p.job == j && OwnAt(v, spot, p) > 0
  {
    p := v.phase.raw;
    spot := if v.phase.DlqOpen? then Memory else Mine;
    if !v.phase.DlqOpen? { RawIsMine(v); }
  }

  lemma RetryLifted(s: World, w: WorkerId, r: RetryEvent, pl: Place, p: Payload) returns (was: Place, q: Payload)
    requires Seated(s, w) && RetryEnabled(s, w, r) && CalmRetry(PhaseOf(s, w), r)
    requires Owned(Put(s, w, RetryDo(Look(s, w), r)), pl, p) > 0 && OwnPlace(pl, w)
    ensures q.job == p.job && Owned(s, was, q) > 0
    ensures Rank(Put(s, w, RetryDo(Look(s, w), r)), pl, p) + One(RetryMoves(Look(s, w), r, p.job)) <= Rank(s, was, q)
    ensures Allowance(s, was, q) <= Allowance(Put(s, w, RetryDo(Look(s, w), r)), pl, p)
  {
    var v, v' := Look(s, w), RetryDo(Look(s, w), r);
    PutSpot(s, w, v', pl, p);
    var spot;
    spot, q := RetryTrace(v, r, SpotOf(pl), p);
    LiftTrace(s, w, v', SpotOf(pl), p, spot, q, One(RetryMoves(v, r, p.job)), 0);
    was := PlaceOf(w, spot);
  }

  lemma RetryTracedHere(s: World, w: WorkerId, r: RetryEvent, pl: Place, p: Payload) returns (was: Place, q: Payload)
    requires Seated(s, w) && RetryEnabled(s, w, r) && CalmRetry(PhaseOf(s, w), r)
    requires Owned(RetryStep(s, w, r), pl, p) > 0 && OwnPlace(pl, w)
    ensures Traced(s, OfRetry(w, r), pl, p, was, q)
  {
    was, q := RetryLifted(s, w, r, pl, p);
  }

  lemma RetryMovesElsewhere(s: World, w: WorkerId, r: RetryEvent, pl: Place, p: Payload)
    requires Seated(s, w) && Unique(s) && RetryEnabled(s, w, r) && CalmRetry(PhaseOf(s, w), r)
    requires Owned(s, pl, p) > 0 && !OwnPlace(pl, w)
    ensures !RetryMoves(Look(s, w), r, p.job)
  {
    if RetryMoves(Look(s, w), r, p.job) {
      var spot, q := RetryMovesOwned(Look(s, w), r, p.job);
      SpotIsPlace(s, w, spot, q);
    }
  }

  lemma RetryTracedAway(s: World, w: WorkerId, r: RetryEvent, pl: Place, p: Payload)
    requires Seated(s, w) && Unique(s) && RetryEnabled(s, w, r) && CalmRetry(PhaseOf(s, w), r)
    requires Owned(RetryStep(s, w, r), pl, p) > 0 && !OwnPlace(pl, w)
    ensures Traced(s, OfRetry(w, r), pl, p, pl, p)
  {
    PutOwned(s, w, RetryDo(Look(s, w), r), pl, p);
    PutRank(s, w, RetryDo(Look(s, w), r), pl, p);
    RetryMovesElsewhere(s, w, r, pl, p);
  }

  lemma RetryTraced(s: World, w: WorkerId, r: RetryEvent, pl: Place, p: Payload) returns (was: Place, q: Payload)
    requires Single(s) && RetryEnabled(s, w, r) && CalmRetry(PhaseOf(s, w), r)
    requires Owned(RetryStep(s, w, r), pl, p) > 0
    ensures Traced(s, OfRetry(w, r), pl, p, was, q)
  {
    AliveIsSeated(s, w);
    was, q := pl, p;
    if OwnPlace(pl, w) { was, q := RetryTracedHere(s, w, r, pl, p); } else { RetryTracedAway(s, w, r, pl, p); }
  }

  lemma GatewayRank(s: World, i: JobId, g: GatewayEvent, pl: Place, p: Payload)
    requires GatewayEnabled(s, i, g) && pl != AtGateway(i)
    ensures Rank(GatewayStep(s, i, g), pl, p) == Rank(s, pl, p)
    ensures Allowance(GatewayStep(s, i, g), pl, p) == Allowance(s, pl, p)
  {
    assert forall w :: PhaseOf(GatewayStep(s, i, g), w) == PhaseOf(s, w);
  }

  lemma GatewayMovesOwned(s: World, i: JobId, g: GatewayEvent)
    requires Moves(s, OfGateway(i, g), i) && GatewaysSound(s)
    ensures s.gateways[i].p.job == i && Owned(s, AtGateway(i), s.gateways[i].p) > 0
  {
    var x :| GatewayHolds(s, i, x);
  }

  /** The payload a gateway pushes moves from its hands to pending. */
  lemma PushTraced(s: World, i: JobId)
    requires GatewaysSound(s) && GatewayEnabled(s, i, Push)
    ensures Traced(s, OfGateway(i, Push), OnPending, s.gateways[i].p, AtGateway(i), s.gateways[i].p)
  {
  }

  lemma GatewayMovesOthers(s: World, i: JobId, g: GatewayEvent, pl: Place, p: Payload)
    requires Unique(s) && GatewaysSound(s) && GatewayEnabled(s, i, g) && Owned(s, pl, p) > 0 && pl != AtGateway(i)
    ensures !Moves(s, OfGateway(i, g), p.job)
  {
    if Moves(s, OfGateway(i, g), i) { GatewayMovesOwned(s, i, g); }
  }

  lemma GatewayTraced(s: World, i: JobId, g: GatewayEvent, pl: Place, p: Payload) returns (was: Place, q: Payload)
    requires Single(s) && GatewayEnabled(s, i, g) && Calm(s, OfGateway(i, g))
    requires Owned(GatewayStep(s, i, g), pl, p) > 0 && (g.Insert? ==> p.job != i)
    ensures Traced(s, OfGateway(i, g), pl, p, was, q)
  {
    GatewayOwned(s, i, g, pl, p);
    was, q := pl, p;
    if pl == AtGateway(i) {
      GatewayOwnTraced(s, i, g, p);
    } else if Owned(s, pl, p) == 0 {
      was := AtGateway(i);
      PushTraced(s, i);
    } else {
      GatewayRank(s, i, g, pl, p);
      GatewayMovesOthers(s, i, g, pl, p);
    }
  }

  lemma GatewayOwnTraced(s: World, i: JobId, g: GatewayEvent, p: Payload)
    requires GatewaysSound(s) && GatewayEnabled(s, i, g) && Calm(s, OfGateway(i, g)) && !g.Insert?
    requires Owned(GatewayStep(s, i, g), AtGateway(i), p) > 0
    ensures Traced(s, OfGateway(i, g), AtGateway(i), p, AtGateway(i), p)
  {
  }

  lemma ReapedCount(s: World, p: Payload)
    requires Inv(s) && s.reaper.Recovering? && Owned(s, OnList(s.reaper.dead), p) <= 1
    ensures Count(s.reaper.entries[s.reaper.at..], p) <= 1
  {
    CountSplit(s.reaper.entries, s.reaper.at, p);
  }

  /** Passing an entry, or getting further with it, lowers its rank only. */
  lemma RankPassed(r: Reaper, r': Reaper, p: Payload)
    requires r.Recovering? && r.at < |r.entries| && Count(r.entries[r.at..], p) <= 1
    requires r'.Recovering? && r'.entries == r.entries && r'.at == r.at + 1
    ensures ReapedRank(r', p) + One(p == r.entries[r.at]) <= ReapedRank(r, p)
  {
    CountFrom(r.entries, r.at, p);
  }

  lemma RankStaged(r: Reaper, r': Reaper, p: Payload)
    requires r.Recovering? && r.at < |r.entries| && r'.Recovering? && r'.entries == r.entries && r'.at == r.at
    requires (r.stage.AtEntry? && r'.stage.EntryOpen?)
             || (r.stage.EntryOpen? && (r'.stage.EntryReset? || r'.stage.EntryBuried?))
    ensures ReapedRank(r', p) + One(p == r.entries[r.at]) <= ReapedRank(r, p)
  {
    CountFrom(r.entries, r.at, p);
  }

  lemma ReapedRankStep(s: World, c: ReaperEvent, p: Payload)
    requires Inv(s) && ReaperEnabled(s, c) && s.reaper.Recovering? && !c.Stop? && !c.Delete?
    requires Owned(s, OnList(s.reaper.dead), p) <= 1
    ensures ReapedRank(ReaperStep(s, c).reaper, p) + One(p == Entry(s)) <= ReapedRank(s.reaper, p)
  {
    ReapedCount(s, p);
    if c.Skip? || c.PushEntry? || c.DeadLetterEntry? {
      RankPassed(s.reaper, ReaperStep(s, c).reaper, p);
    } else {
      RankStaged(s.reaper, ReaperStep(s, c).reaper, p);
    }
  }

  /** Rank and allowance of a place depend on the reaper only for the list it reaps. */
  lemma SameRank(s: World, s': World, pl: Place, p: Payload)
    requires s'.workers == s.workers && s'.gateways == s.gateways
    requires pl.OnList? ==> !BeingReaped(s, pl.w) && !BeingReaped(s', pl.w)
    ensures Rank(s', pl, p) == Rank(s, pl, p) && Allowance(s', pl, p) == Allowance(s, pl, p)
  {
    assert forall w :: PhaseOf(s', w) == PhaseOf(s, w);
  }

  lemma ReaperRankElsewhere(s: World, c: ReaperEvent, pl: Place, p: Payload)
    requires ReaperEnabled(s, c) && (s.reaper.Recovering? ==> pl != OnList(s.reaper.dead))
    requires c.Read? ==> pl != OnList(c.dead)
    ensures Rank(ReaperStep(s, c), pl, p) == Rank(s, pl, p) && Allowance(ReaperStep(s, c), pl, p) == Allowance(s, pl, p)
  {
    ReaperOwnSphere(s, c);
    SameRank(s, ReaperStep(s, c), pl, p);
  }

  /** Reading a dead worker's list starts a pass over it. */
  lemma ReadList(s: World, d: WorkerId, p: Payload)
    requires Inv(s) && ReaperEnabled(s, Read(d)) && Owned(ReaperStep(s, Read(d)), OnList(d), p) > 0
    ensures Owned(s, OnList(d), p) > 0
    ensures Rank(ReaperStep(s, Read(d)), OnList(d), p) + 1 <= Rank(s, OnList(d), p)
    ensures Allowance(s, OnList(d), p) <= Allowance(ReaperStep(s, Read(d)), OnList(d), p)
  {
    assert List(s, d)[0..] == List(s, d);
    assert PhaseOf(ReaperStep(s, Read(d)), d) == PhaseOf(s, d) == Phase.Crashed;
  }

  lemma ReadElsewhere(s: World, d: WorkerId, pl: Place, p: Payload)
    requires Inv(s) && Unique(s) && ReaperEnabled(s, Read(d)) && Owned(s, pl, p) > 0 && pl != OnList(d)
    ensures !ReaperMoves(s, Read(d), p.job)
  {
    forall i | 0 <= i < |List(s, d)|
      ensures List(s, d)[i].job != p.job
    {
      assert Owned(s, OnList(d), List(s, d)[i]) > 0;
    }
  }

  lemma ReadTraced(s: World, d: WorkerId, pl: Place, p: Payload)
    requires Single(s) && ReaperEnabled(s, Read(d)) && Owned(ReaperStep(s, Read(d)), pl, p) > 0
    ensures Traced(s, OfReaper(Read(d)), pl, p, pl, p)
  {
    if pl == OnList(d) {
      ReadList(s, d, p);
    } else {
      ReaperOwnedElsewhere(s, Read(d), pl, p);
      ReaperRankElsewhere(s, Read(d), pl, p);
      ReadElsewhere(s, d, pl, p);
    }
  }

  lemma OnlyEntry(s: World, p: Payload)
    requires Inv(s) && Unique(s) && s.reaper.Recovering? && s.reaper.at < |s.reaper.entries|
    requires Owned(s, OnList(s.reaper.dead), p) > 0
    ensures p.job == Entry(s).job <==> p == Entry(s)
    ensures Owned(s, OnList(s.reaper.dead), p) <= 1
  {
    EntryOwned(s);
  }

  lemma ReapedPlace(s: World, p: Payload)
    requires s.reaper.Recovering? && s.reaper.at <= |s.reaper.entries|
    ensures Rank(s, OnList(s.reaper.dead), p) == Base(p) + ReapedRank(s.reaper, p)
    ensures Allowance(s, OnList(s.reaper.dead), p) == p.retry + 1
  {
  }

  lemma EntryTraced(s: World, c: ReaperEvent, p: Payload)
    requires Inv(s) && Unique(s) && ReaperEnabled(s, c) && Calm(s, OfReaper(c))
    requires s.reaper.Recovering? && !c.Stop? && !c.Delete?
    requires Owned(ReaperStep(s, c), OnList(s.reaper.dead), p) > 0
    ensures Traced(s, OfReaper(c), OnList(s.reaper.dead), p, OnList(s.reaper.dead), p)
  {
    ReapedOwned(s, c, p);
    OnlyEntry(s, p);
    ReapedRankStep(s, c, p);
    ReapedPlace(s, p);
    ReapedPlace(ReaperStep(s, c), p);
  }

  lemma PushedTraced(s: World)
    requires Single(s) && ReaperEnabled(s, PushEntry)
    ensures Traced(s, OfReaper(PushEntry), OnPending, Retried(Entry(s)), OnList(s.reaper.dead), Entry(s))
  {
    EntryOwned(s);
    CountFrom(s.reaper.entries, s.reaper.at, Entry(s));
  }

  lemma EntryMovesOthers(s: World, c: ReaperEvent, pl: Place, p: Payload)
    requires Inv(s) && Unique(s) && ReaperEnabled(s, c) && s.reaper.Recovering?
    requires Owned(s, pl, p) > 0 && pl != OnList(s.reaper.dead)
    ensures !ReaperMoves(s, c, p.job)
  {
    if s.reaper.at < |s.reaper.entries| { EntryOwned(s); }
  }

  lemma AwayTraced(s: World, c: ReaperEvent, pl: Place, p: Payload)
    requires Inv(s) && Unique(s) && ReaperEnabled(s, c) && s.reaper.Recovering? && !c.Stop? && Owned(s, pl, p) > 0
    requires pl != OnList(s.reaper.dead)
    ensures Traced(s, OfReaper(c), pl, p, pl, p)
  {
    ReaperRankElsewhere(s, c, pl, p);
    EntryMovesOthers(s, c, pl, p);
  }

  lemma StopTraced(s: World, pl: Place, p: Payload)
    requires Single(s) && ReaperEnabled(s, Stop) && Calm(s, OfReaper(Stop)) && Owned(ReaperStep(s, Stop), pl, p) > 0
    ensures Traced(s, OfReaper(Stop), pl, p, pl, p)
  {
    ReaperOwned(s, Stop, pl, p);
    if pl != OnList(s.reaper.dead) { ReaperRankElsewhere(s, Stop, pl, p); }
  }

  lemma ReaperTraced(s: World, c: ReaperEvent, pl: Place, p: Payload) returns (was: Place, q: Payload)
    requires Single(s) && ReaperEnabled(s, c) && Calm(s, OfReaper(c)) && Owned(ReaperStep(s, c), pl, p) > 0
    ensures Traced(s, OfReaper(c), pl, p, was, q)
  {
    was, q := pl, p;
    if c.Read? {
      ReadTraced(s, c.dead, pl, p);
    } else if c.Stop? {
      StopTraced(s, pl, p);
    } else if pl == OnList(s.reaper.dead) {
      ReapedOwned(s, c, p);
      if c.Delete? { DeletedList(s, p); }
      EntryTraced(s, c, p);
    } else {
      ReaperOwnedElsewhere(s, c, pl, p);
      if c.PushEntry? && pl == OnPending && p == Retried(Entry(s)) {
        was, q := OnList(s.reaper.dead), Entry(s);
        PushedTraced(s);
      } else {
        AwayTraced(s, c, pl, p);
      }
    }
  }

  lemma DeletedList(s: World, p: Payload)
    requires ReaperEnabled(s, Delete) && PhaseOf(s, s.reaper.dead).Crashed?
    ensures Owned(ReaperStep(s, Delete), OnList(s.reaper.dead), p) == 0
  {
  }

  /** Every owner after a step traces back to an owner before it. */
  lemma StepTraced(s: World, e: Event, pl: Place, p: Payload) returns (was: Place, q: Payload)
    requires Single(s) && Enabled(s, e) && Calm(s, e) && Owned(Apply(s, e), pl, p) > 0
    requires p.job in s.rows
    ensures Traced(s, e, pl, p, was, q)
  {
    match e
    case OfGateway(i, g) => was, q := GatewayTraced(s, i, g, pl, p);
    case OfWorker(w, a) => was, q := WorkerTraced(s, w, a, pl, p);
    case OfRetry(w, r) => was, q := RetryTraced(s, w, r, pl, p);
    case OfReaper(c) => was, q := ReaperTraced(s, c, pl, p);
  }
}
