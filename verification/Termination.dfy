/** The two bounds over whole runs of the single-copy regime, and the absence of
    deadlock while a job is in somebody's hands. */
module Termination {
  import opened Contracts
  import opened RedisList
  import opened Protocol
  import opened Soundness
  import opened NoLoss
  import opened SingleCopy
  import opened ClaimAccounting
  import opened Bounds
  import Exclusive

  /** The rank of a job as its gateway is about to push it. */
  const LIMIT: nat := TOP * MAX_RETRY_COUNT + 14

  ghost predicate RanksWithin(s: World, n: nat, j: JobId) {
    forall pl, p: Payload :: p.job == j && Owned(s, pl, p) > 0 ==> Rank(s, pl, p) <= n
  }

  ghost predicate ClaimsWithin(s: World, n: nat, j: JobId) {
    && n <= MAX_RETRY_COUNT + 1
    && (j !in s.rows ==> n == 0)
    && forall pl, p: Payload :: p.job == j && Owned(s, pl, p) > 0 ==> n <= Allowance(s, pl, p)
  }

  lemma RankPositive(s: World, pl: Place, p: Payload)
    ensures Rank(s, pl, p) >= 1
  {
  }

  /** Whatever moves a job's copy, some place owned it. */
  lemma MovesOwned(s: World, e: Event, j: JobId) returns (pl: Place, p: Payload)
    requires Single(s) && Enabled(s, e) && Calm(s, e) && Moves(s, e, j)
    ensures p.job == j && Owned(s, pl, p) > 0
  {
    match e
    case OfGateway(i, g) =>
      GatewayMovesOwned(s, i, g);
      pl, p := AtGateway(i), s.gateways[i].p;
    case OfWorker(w, a) =>
      NotReapedWhileAlive(s, w);
      LookSound(s, w);
      var spot;
      spot, p := WorkerMovesOwned(Look(s, w), a, j);
      SpotIsPlace(s, w, spot, p);
      pl := PlaceOf(w, spot);
    case OfRetry(w, r) =>
      NotReapedWhileAlive(s, w);
      LookSound(s, w);
      var spot;
      spot, p := RetryMovesOwned(Look(s, w), r, j);
      SpotIsPlace(s, w, spot, p);
      pl := PlaceOf(w, spot);
    case OfReaper(c) =>
      pl, p := ReaperMovesOwned(s, c, j);
  }

  lemma ReaperMovesOwned(s: World, c: ReaperEvent, j: JobId) returns (pl: Place, p: Payload)
    requires Single(s) && ReaperEnabled(s, c) && ReaperMoves(s, c, j)
    ensures p.job == j && Owned(s, pl, p) > 0
  {
    if c.Read? {
      var i :| 0 <= i < |List(s, c.dead)| && List(s, c.dead)[i].job == j;
      pl, p := OnList(c.dead), List(s, c.dead)[i];
    } else {
      EntryOwned(s);
      pl, p := OnList(s.reaper.dead), Entry(s);
    }
  }

  lemma StepRanks(s: World, e: Event, n: nat, j: JobId)
    requires Single(s) && Enabled(s, e) && Calm(s, e) && Steady(e) && j in s.rows && RanksWithin(s, n, j)
    ensures One(Moves(s, e, j)) <= n && RanksWithin(Apply(s, e), n - One(Moves(s, e, j)), j)
  {
    if Moves(s, e, j) {
      var pl, p := MovesOwned(s, e, j);
      RankPositive(s, pl, p);
    }
    forall pl, p: Payload | p.job == j && Owned(Apply(s, e), pl, p) > 0
      ensures Rank(Apply(s, e), pl, p) + One(Moves(s, e, j)) <= n
    {
      var was, q := StepTraced(s, e, pl, p);
    }
  }

  lemma NoOwnerUnborn(s: World, j: JobId, pl: Place, p: Payload)
    requires Single(s) && j !in s.rows && p.job == j
    ensures Owned(s, pl, p) == 0
  {
    if Owned(s, pl, p) > 0 { OwnedIsSound(s, pl, p); }
  }

  lemma UnbornMoves(s: World, e: Event, j: JobId)
    requires Single(s) && Enabled(s, e) && Calm(s, e) && j !in s.rows
    ensures !Moves(s, e, j)
  {
    if Moves(s, e, j) {
      var pl, p := MovesOwned(s, e, j);
      OwnedIsSound(s, pl, p);
    }
  }

  predicate IsInsertOf(e: Event, j: JobId) {
    e.OfGateway? && e.job == j && e.g.Insert?
  }

  lemma ViewStaysUnborn(v: View, v': View, j: JobId)
    requires (exists a :: WorkerCan(v, a) && v' == WorkerDo(v, a))
             || (exists r :: RetryCan(v, r) && v' == RetryDo(v, r))
    requires j !in v.rows
    ensures j !in v'.rows
  {
  }

  lemma GatewayStaysUnborn(s: World, i: JobId, g: GatewayEvent, j: JobId)
    requires GatewayEnabled(s, i, g) && j !in s.rows && !(g.Insert? && i == j)
    ensures j !in GatewayStep(s, i, g).rows
  {
  }

  lemma ReaperStaysUnborn(s: World, c: ReaperEvent, j: JobId)
    requires ReaperEnabled(s, c) && j !in s.rows
    ensures j !in ReaperStep(s, c).rows
  {
  }

  /** Only its INSERT brings a job into the table. */
  lemma StaysUnborn(s: World, e: Event, j: JobId)
    requires Enabled(s, e) && Calm(s, e) && j !in s.rows && !IsInsertOf(e, j)
    ensures j !in Apply(s, e).rows
  {
    match e
    case OfGateway(i, g) => GatewayStaysUnborn(s, i, g, j);
    case OfWorker(w, a) => ViewStaysUnborn(Look(s, w), WorkerDo(Look(s, w), a), j);
    case OfRetry(w, r) => ViewStaysUnborn(Look(s, w), RetryDo(Look(s, w), r), j);
    case OfReaper(c) => ReaperStaysUnborn(s, c, j);
  }

  lemma InsertRanks(s: World, j: JobId, body: Body)
    requires Single(s) && GatewayEnabled(s, j, Insert(body))
    ensures RanksWithin(GatewayStep(s, j, Insert(body)), LIMIT, j)
    ensures ClaimsWithin(GatewayStep(s, j, Insert(body)), 0, j)
  {
    forall pl, p: Payload | p.job == j && Owned(GatewayStep(s, j, Insert(body)), pl, p) > 0
      ensures pl == AtGateway(j) && p == Payload(j, 0, body)
    {
      GatewayOwned(s, j, Insert(body), pl, p);
      NoOwnerUnborn(s, j, pl, p);
    }
  }

  /** No process and no list knows a job before it is inserted. */
  lemma UnbornBounds(s: World, j: JobId)
    requires Single(s) && j !in s.rows
    ensures RanksWithin(s, LIMIT, j) && ClaimsWithin(s, 0, j)
  {
    forall pl, p: Payload | p.job == j ensures Owned(s, pl, p) == 0 { NoOwnerUnborn(s, j, pl, p); }
  }

  lemma BirthBounds(s: World, e: Event, j: JobId)
    requires Single(s) && Enabled(s, e) && Calm(s, e) && j !in s.rows
    ensures !Moves(s, e, j) && !Claims(s, e, j)
    ensures RanksWithin(Apply(s, e), LIMIT, j) && ClaimsWithin(Apply(s, e), 0, j)
  {
    UnbornMoves(s, e, j);
    if IsInsertOf(e, j) {
      InsertRanks(s, j, e.g.body);
    } else {
      StaysUnborn(s, e, j);
      StepKeepsSingle(s, e);
      UnbornBounds(Apply(s, e), j);
    }
  }

  lemma StepClaims(s: World, e: Event, n: nat, j: JobId)
    requires Single(s) && Enabled(s, e) && Calm(s, e) && j in s.rows && ClaimsWithin(s, n, j)
    ensures ClaimsWithin(Apply(s, e), n + One(Claims(s, e, j)), j)
  {
    var s' := Apply(s, e);
    StepKeepsSingle(s, e);
    StepInv(s, e);
    forall pl, p: Payload | p.job == j && Owned(s', pl, p) > 0
      ensures n + One(Claims(s, e, j)) <= Allowance(s', pl, p) && p.retry <= MAX_RETRY_COUNT
    {
      var was, q := StepTraced(s, e, pl, p);
      OwnedIsSound(s', pl, p);
    }
    if Claims(s, e, j) {
      ClaimerOwns(s, e);
      assert Owned(s', OnList(e.w), PhaseOf(s, e.w).raw) > 0;
    }
  }

  lemma ClaimerOwns(s: World, e: Event)
    requires Single(s) && Enabled(s, e) && Calm(s, e) && e.OfWorker? && e.a.Claim?
    ensures Owned(Apply(s, e), OnList(e.w), PhaseOf(s, e.w).raw) > 0
  {
    StepKeepsSingle(s, e);
    LookPut(s, e.w, WorkerDo(Look(s, e.w), e.a));
    SeatOwned(Apply(s, e), e.w);
  }

  // ── whole runs ───────────────────────────────────────────────────────────

  ghost function MoveCount(es: seq<Event>, j: JobId): nat
    requires IsRun(GENESIS, es)
    decreases |es|
  {
    if es == [] then 0
    else MoveCount(Before(es), j) + One(Moves(After(GENESIS, Before(es)), Last(es), j))
  }

  predicate SteadyRun(es: seq<Event>) {
    forall e :: e in es ==> Steady(e)
  }

  /** A job is claimed at most MAX_RETRY_COUNT + 1 = 4 times. */
  lemma {:induction false} ClaimedAtMostFourTimes(es: seq<Event>, j: JobId)
    requires IsRun(GENESIS, es) && CalmRun(es)
    ensures ClaimCount(es, j) <= MAX_RETRY_COUNT + 1
    ensures ClaimsWithin(After(GENESIS, es), ClaimCount(es, j), j)
    decreases |es|
  {
    CalmRunsAreSingle(es);
    if es == [] {
      UnbornBounds(GENESIS, j);
    } else {
      var s := After(GENESIS, Before(es));
      ClaimedAtMostFourTimes(Before(es), j);
      CalmRunsAreSingle(Before(es));
      if j in s.rows { StepClaims(s, Last(es), ClaimCount(Before(es), j), j); } else { BirthBounds(s, Last(es), j); }
    }
  }

  /** With the reaper uninterrupted, at most LIMIT = 62 steps ever act on a job. */
  lemma {:induction false} BoundedSteps(es: seq<Event>, j: JobId)
    requires IsRun(GENESIS, es) && CalmRun(es) && SteadyRun(es)
    ensures MoveCount(es, j) <= LIMIT
    ensures RanksWithin(After(GENESIS, es), LIMIT - MoveCount(es, j), j)
    ensures j !in After(GENESIS, es).rows ==> MoveCount(es, j) == 0
    decreases |es|
  {
    CalmRunsAreSingle(es);
    if es == [] {
      UnbornBounds(GENESIS, j);
    } else {
      var s := After(GENESIS, Before(es));
      assert Last(es) in es && forall e :: e in Before(es) ==> e in es;
      BoundedSteps(Before(es), j);
      CalmRunsAreSingle(Before(es));
      if j in s.rows {
        StepRanks(s, Last(es), LIMIT - MoveCount(Before(es), j), j);
        StepInv(s, Last(es));
      } else {
        BirthBounds(s, Last(es), j);
      }
    }
  }

  /** An open job that was never lost still has a step of its budget left: once the
      LIMIT steps have happened, it is terminal. */
  lemma OpenHasStepsLeft(es: seq<Event>, j: JobId)
    requires IsRun(GENESIS, es) && CalmRun(es) && SteadyRun(es) && NeverLost(es, j)
    requires IsOpen(After(GENESIS, es).rows, j)
    ensures MoveCount(es, j) < LIMIT
  {
    var s := After(GENESIS, es);
    BoundedSteps(es, j);
    CalmRunsAreSingle(es);
    var pl, p := Exclusive.ExactlyOneCopy(es, j);
    Exclusive.LiveIsOwned(s, pl, p);
    RankPositive(s, pl, p);
  }

  // ── no deadlock ──────────────────────────────────────────────────────────

  /** The copy waits for somebody to come by: on pending, on a list whose owner is
      not working on it, or behind the reaper's cursor position. */
  predicate Waits(s: World, pl: Place, p: Payload) {
    match pl
    case OnPending => true
    case OnList(w) =>
      if BeingReaped(s, w) then s.reaper.at >= |s.reaper.entries| || p != Entry(s)
      else !(ActsOnRow(PhaseOf(s, w)) && PhaseOf(s, w).raw == p)
    case _ => false
  }

  /** Not a crash, an error or an interruption. */
  predicate Productive(e: Event) {
    match e
    case OfGateway(_, g) => !g.Vanish? && !g.Refuse?
    case OfWorker(_, a) => !a.Crash? && !a.Fail?
    case OfRetry(_, r) => !r.Abandon?
    case OfReaper(c) => !c.Stop?
    case OfStartup(_, _) => false
  }

  /** Whoever holds a live copy that is not waiting can take its next step, and
      that step moves the job. */
  lemma HolderCanMove(s: World, pl: Place, p: Payload, report: SandboxReport) returns (e: Event)
    requires Single(s) && Copies(s, pl, p) > 0 && !Waits(s, pl, p)
    ensures Enabled(s, e) && Productive(e) && Moves(s, e, p.job)
  {
    match pl
    case AtGateway(j) =>
      e := OfGateway(j, if s.gateways[j].Inserted? then Push else MarkFailed);
      assert GatewayHolds(s, j, p);
    case InHand(w) =>
      e := OfRetry(w, DlqCommit);
    case OnList(w) =>
      e := ListHolderCanMove(s, w, p, report);
  }

  lemma ListHolderCanMove(s: World, w: WorkerId, p: Payload, report: SandboxReport) returns (e: Event)
    requires Single(s) && Copies(s, OnList(w), p) > 0 && !Waits(s, OnList(w), p)
    ensures Enabled(s, e) && Productive(e) && Moves(s, e, p.job)
  {
    if BeingReaped(s, w) {
      e := OfReaper(match s.reaper.stage
                    case AtEntry => if IsClosed(s.rows, p.job) then Skip else See
                    case EntryOpen => if Exhausted(p) then BuryEntry else ResetEntry
                    case EntryReset => PushEntry
                    case EntryBuried => DeadLetterEntry);
    } else {
      var phase := PhaseOf(s, w);
      e := if phase.Popped? then OfWorker(w, Claim)
           else if phase.Executing? then OfWorker(w, Commit(report))
           else if phase.Committed? then OfWorker(w, Ack)
           else if phase.Failing? then OfRetry(w, if Exhausted(p) then DlqRemove else Reset)
           else if phase.Backoff? then OfRetry(w, RequeuePush)
           else OfRetry(w, DlqCommit);
    }
  }
}
