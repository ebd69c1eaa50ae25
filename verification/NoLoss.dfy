/** At-least-once delivery. A list entry is doomed once its holder has already
    pushed a replacement, committed a result or seen a terminal status, or the
    reaper's cursor has passed it: it will be removed without further ado. Every
    other copy is live. A crash turns doomed entries live again.

    The main results: in every state each PENDING or RUNNING job keeps a live
    copy, unless a process vanishes in one of three windows while it holds the
    only one; which steps lose a job is stated exactly, and each window is shown
    to lose one. */
module NoLoss {
  import opened Contracts
  import opened RedisList
  import opened Protocol
  import opened Soundness

  datatype Place = OnPending | OnList(w: WorkerId) | AtGateway(job: JobId) | InHand(w: WorkerId)

  /** p is the worker's own entry, and it is only waiting to be removed. */
  predicate IsDoomed(phase: Phase, p: Payload) {
    (phase.Repushed? || phase.SawDone? || phase.Committed? || phase.Requeued?) && phase.raw == p
  }

  /** p is on no list and only in the worker's memory: between LREM and the
      dead-letter transaction, or between resetting a row whose entry was already
      removed and pushing the retry. */
  predicate IsInHand(phase: Phase, p: Payload) {
    (phase.DlqOpen? && p == phase.raw) || (phase.Backoff? && !phase.held && p == Retried(phase.raw))
  }

  function LiveOn(list: seq<Payload>, phase: Phase, p: Payload): nat {
    Less(Count(list, p), One(IsDoomed(phase, p)))
  }

  /** Entries before this index have been dealt with in the current pass. */
  function Cursor(reaper: Reaper): nat
    requires reaper.Recovering?
  {
    reaper.at + One(reaper.stage.EntryBuried?)
  }

  predicate UnderCursor(s: World, w: WorkerId) {
    s.reaper.Recovering? && s.reaper.dead == w && Cursor(s.reaper) <= |s.reaper.entries|
  }

  predicate GatewayHolds(s: World, j: JobId, p: Payload) {
    j in s.gateways && (s.gateways[j].Inserted? || s.gateways[j].Refusing?) && s.gateways[j].p == p
  }

  /** How many live copies of p a place holds. */
  function Copies(s: World, pl: Place, p: Payload): nat {
    match pl
    case OnPending => Count(s.pending, p)
    case OnList(w) =>
      if UnderCursor(s, w) then Count(s.reaper.entries[Cursor(s.reaper)..], p) else LiveOn(List(s, w), PhaseOf(s, w), p)
    case AtGateway(j) => One(GatewayHolds(s, j, p))
    case InHand(w) => One(IsInHand(PhaseOf(s, w), p))
  }

  // ── one worker's view: a conservation law ───────────────────────────────

  /** Every live copy of p a worker can see. */
  function Seen(v: View, p: Payload): nat {
    Count(v.pending, p) + LiveOn(v.list, v.phase, p) + One(IsInHand(v.phase, p))
  }

  predicate EntryListed(v: View) {
    HoldsEntry(v.phase) ==> v.phase.raw in v.list
  }

  /** Copies of p a step of the main loop takes out of, and puts into, the view. */
  function WorkerSpends(v: View, a: WorkerEvent, p: Payload): nat
    requires WorkerCan(v, a)
  {
    match a
    case SeeDone => One(p == v.phase.raw)
    case Commit(_) => One(p == v.phase.raw)
    case Crash => One(IsInHand(v.phase, p))
    case _ => 0
  }

  function WorkerAdds(v: View, a: WorkerEvent, p: Payload): nat
    requires WorkerCan(v, a)
  {
    if a.Fail? || a.Crash? then One(IsDoomed(v.phase, p) && p in v.list) else 0
  }

  /** The books balance: after + spent == before + added. */
  predicate WorkerBalance(v: View, a: WorkerEvent, p: Payload)
    requires WorkerCan(v, a)
  {
    Seen(WorkerDo(v, a), p) + WorkerSpends(v, a, p) == Seen(v, p) + WorkerAdds(v, a, p)
  }

  // one lemma per event: each balances by the counts of the list commands it issues

  lemma FlowPop(v: View, p: Payload)
    requires EntryListed(v) && WorkerCan(v, Pop)
    ensures WorkerBalance(v, Pop, p)
  {
  }

  lemma FlowPopUnseen(v: View, p: Payload)
    requires EntryListed(v) && WorkerCan(v, PopUnseen)
    ensures WorkerBalance(v, PopUnseen, p)
  {
  }

  lemma FlowRepush(v: View, p: Payload)
    requires EntryListed(v) && WorkerCan(v, Repush)
    ensures WorkerBalance(v, Repush, p)
  {
  }

  lemma FlowDiscard(v: View, p: Payload)
    requires EntryListed(v) && WorkerCan(v, Discard)
    ensures WorkerBalance(v, Discard, p)
  {
  }

  lemma FlowDiscardUnseen(v: View, p: Payload)
    requires EntryListed(v) && WorkerCan(v, DiscardUnseen)
    ensures WorkerBalance(v, DiscardUnseen, p)
  {
  }

  lemma FlowAck(v: View, p: Payload)
    requires EntryListed(v) && WorkerCan(v, Ack)
    ensures WorkerBalance(v, Ack, p)
  {
  }

  lemma FlowRetire(v: View, a: WorkerEvent, p: Payload)
    requires EntryListed(v) && WorkerCan(v, a) && (a.SeeDone? || a.Commit?)
    ensures WorkerBalance(v, a, p)
  {
  }

  lemma FlowAside(v: View, a: WorkerEvent, p: Payload)
    requires EntryListed(v) && WorkerCan(v, a)
    requires a.Start? || a.Claim? || a.ClaimMiss? || a.SeeOpen? || a.Publish?
    ensures WorkerBalance(v, a, p)
  {
  }

  lemma FlowFail(v: View, p: Payload)
    requires EntryListed(v) && WorkerCan(v, Fail)
    ensures WorkerBalance(v, Fail, p)
  {
  }

  lemma FlowCrash(v: View, p: Payload)
    requires EntryListed(v) && WorkerCan(v, WorkerEvent.Crash)
    ensures WorkerBalance(v, WorkerEvent.Crash, p)
  {
  }

  lemma WorkerFlow(v: View, a: WorkerEvent, p: Payload)
    requires EntryListed(v) && WorkerCan(v, a)
    ensures WorkerBalance(v, a, p)
  {
    match a
    case Pop => FlowPop(v, p);
    case PopUnseen => FlowPopUnseen(v, p);
    case Repush => FlowRepush(v, p);
    case Discard => FlowDiscard(v, p);
    case DiscardUnseen => FlowDiscardUnseen(v, p);
    case Ack => FlowAck(v, p);
    case SeeDone | Commit(_) => FlowRetire(v, a, p);
    case Start | Claim | ClaimMiss | SeeOpen | Publish => FlowAside(v, a, p);
    case Fail => FlowFail(v, p);
    case Crash => FlowCrash(v, p);
  }

  function RetrySpends(v: View, r: RetryEvent, p: Payload): nat
    requires RetryCan(v, r)
  {
    match r
    case RequeuePush => One(p == v.phase.raw && p in v.list) + One(IsInHand(v.phase, p))
    case DlqRemove => One(p == v.phase.raw && p in v.list)
    case DlqCommit => One(p == v.phase.raw)
    case Abandon => One(IsInHand(v.phase, p))
    case _ => 0
  }

  function RetryAdds(v: View, r: RetryEvent, p: Payload): nat
    requires RetryCan(v, r)
  {
    match r
    case Reset => One(!v.phase.held && p == Retried(v.phase.raw))
    case RequeuePush => One(p == Retried(v.phase.raw))
    case DlqRemove => One(p == v.phase.raw)
    case Abandon => One(IsDoomed(v.phase, p) && p in v.list)
    case _ => 0
  }

  predicate RetryBalance(v: View, r: RetryEvent, p: Payload)
    requires RetryCan(v, r)
  {
    Seen(RetryDo(v, r), p) + RetrySpends(v, r, p) == Seen(v, p) + RetryAdds(v, r, p)
  }

  lemma FlowRequeuePush(v: View, p: Payload)
    requires EntryListed(v) && RetryCan(v, RequeuePush)
    ensures RetryBalance(v, RequeuePush, p)
  {
  }

  lemma FlowDlqRemove(v: View, p: Payload)
    requires EntryListed(v) && RetryCan(v, DlqRemove)
    ensures RetryBalance(v, DlqRemove, p)
  {
  }

  lemma FlowReset(v: View, p: Payload)
    requires EntryListed(v) && RetryCan(v, Reset)
    ensures RetryBalance(v, Reset, p)
  {
  }

  lemma FlowRequeueAck(v: View, p: Payload)
    requires EntryListed(v) && RetryCan(v, RequeueAck)
    ensures RetryBalance(v, RequeueAck, p)
  {
  }

  lemma FlowAbandon(v: View, p: Payload)
    requires EntryListed(v) && RetryCan(v, Abandon)
    ensures RetryBalance(v, Abandon, p)
  {
  }

  lemma FlowDlq(v: View, r: RetryEvent, p: Payload)
    requires EntryListed(v) && RetryCan(v, r) && (r.DlqCommit? || r.DlqPush? || r.DlqPublish?)
    ensures RetryBalance(v, r, p)
  {
  }

  lemma RetryFlow(v: View, r: RetryEvent, p: Payload)
    requires EntryListed(v) && RetryCan(v, r)
    ensures RetryBalance(v, r, p)
  {
    match r
    case RequeuePush => FlowRequeuePush(v, p);
    case DlqRemove => FlowDlqRemove(v, p);
    case Reset => FlowReset(v, p);
    case RequeueAck => FlowRequeueAck(v, p);
    case Abandon => FlowAbandon(v, p);
    case DlqCommit | DlqPush | DlqPublish => FlowDlq(v, r, p);
  }

  // ── the whole state ──────────────────────────────────────────────────────

  ghost predicate CopyAt(s: World, pl: Place, j: JobId) {
    exists p: Payload :: p.job == j && Copies(s, pl, p) > 0
  }

  ghost predicate Covered(s: World, j: JobId) {
    exists pl :: CopyAt(s, pl, j)
  }

  ghost predicate CoveredBut(s: World, q: Place, j: JobId) {
    exists pl :: pl != q && CopyAt(s, pl, j)
  }

  /** The job is absent, terminal, or a live copy of it is somewhere. */
  ghost predicate Safe(s: World, j: JobId) {
    IsOpen(s.rows, j) ==> Covered(s, j)
  }

  /** The place whose contents vanish in a crash or an abandoned retry. */
  predicate Drops(e: Event, q: Place) {
    match e
    case OfGateway(i, g) => g.Vanish? && q == AtGateway(i)
    case OfWorker(w, a) => a.Crash? && q == InHand(w)
    case OfRetry(w, r) => r.Abandon? && q == InHand(w)
    case OfReaper(_) => false
    case OfStartup(_, _) => false
  }

  /** A step loses job j: the job is open, and the step drops its only live copy.
      All of this can be read off the state before the step. */
  ghost predicate Loses(s: World, e: Event, j: JobId) {
    IsOpen(s.rows, j) && exists q :: Drops(e, q) && CopyAt(s, q, j) && !CoveredBut(s, q, j)
  }

  predicate OwnPlace(pl: Place, w: WorkerId) {
    pl == OnPending || pl == OnList(w) || pl == InHand(w)
  }

  lemma SeenIsCopies(s: World, w: WorkerId, p: Payload)
    requires !UnderCursor(s, w)
    ensures Seen(Look(s, w), p) ==
            Copies(s, OnPending, p) + Copies(s, OnList(w), p) + Copies(s, InHand(w), p)
  {
  }

  lemma SeenCovers(s: World, w: WorkerId, p: Payload)
    requires !UnderCursor(s, w) && Seen(Look(s, w), p) > 0
    ensures Covered(s, p.job)
  {
    SeenIsCopies(s, w, p);
    assert CopyAt(s, OnPending, p.job) || CopyAt(s, OnList(w), p.job) || CopyAt(s, InHand(w), p.job);
  }

  lemma PutElsewhere(s: World, w: WorkerId, v: View, pl: Place)
    requires !UnderCursor(s, w) && !OwnPlace(pl, w)
    ensures forall p :: Copies(Put(s, w, v), pl, p) == Copies(s, pl, p)
  {
  }

  lemma LookPut(s: World, w: WorkerId, v: View)
    ensures Look(Put(s, w, v), w) == v
  {
  }

  lemma AliveNotUnderCursor(s: World, w: WorkerId)
    requires Inv(s) && (!PhaseOf(s, w).Crashed? || w !in s.workers)
    ensures !UnderCursor(s, w)
  {
  }

  /** If the view lets go of a copy only for a reason, the state stays covered. */
  lemma PutCovers(s: World, w: WorkerId, v: View, pl: Place, p: Payload)
    requires !UnderCursor(s, w) && Copies(s, pl, p) > 0
    requires OwnPlace(pl, w) ==> Seen(v, p) > 0
    ensures Covered(Put(s, w, v), p.job)
  {
    if OwnPlace(pl, w) {
      LookPut(s, w, v);
      SeenCovers(Put(s, w, v), w, p);
    } else {
      PutElsewhere(s, w, v, pl);
      assert CopyAt(Put(s, w, v), pl, p.job);
    }
  }

  lemma WorkerKeepsSeen(v: View, a: WorkerEvent, p: Payload)
    requires ViewSound(v) && WorkerCan(v, a) && IsOpen(WorkerDo(v, a).rows, p.job)
    requires Seen(v, p) > (if a.Crash? then One(IsInHand(v.phase, p)) else 0)
    ensures Seen(WorkerDo(v, a), p) > 0
  {
    WorkerFlow(v, a, p);
  }

  lemma WorkerOpensNothing(v: View, a: WorkerEvent, j: JobId)
    requires WorkerCan(v, a) && IsOpen(WorkerDo(v, a).rows, j)
    ensures IsOpen(v.rows, j)
  {
  }

  lemma WorkerKeepsCover(s: World, w: WorkerId, a: WorkerEvent, j: JobId)
    requires Inv(s) && WorkerEnabled(s, w, a) && Safe(s, j) && !Loses(s, OfWorker(w, a), j)
    ensures Safe(WorkerStep(s, w, a), j)
  {
    var v := Look(s, w);
    if IsOpen(WorkerStep(s, w, a).rows, j) {
      AliveNotUnderCursor(s, w);
      LookSound(s, w);
      WorkerOpensNothing(v, a, j);
      assert Drops(OfWorker(w, a), InHand(w)) ==> !CopyAt(s, InHand(w), j) || CoveredBut(s, InHand(w), j);
      var pl, p: Payload :| p.job == j && Copies(s, pl, p) > 0 && (a.Crash? ==> pl != InHand(w));
      if OwnPlace(pl, w) {
        SeenIsCopies(s, w, p);
        WorkerKeepsSeen(v, a, p);
      }
      PutCovers(s, w, WorkerDo(v, a), pl, p);
    }
  }

  /** A retry step hands the copy on, possibly with its retry count raised. */
  lemma RetryKeepsSeen(v: View, r: RetryEvent, p: Payload) returns (q: Payload)
    requires ViewSound(v) && RetryCan(v, r) && IsOpen(RetryDo(v, r).rows, p.job)
    requires Seen(v, p) > (if r.Abandon? then One(IsInHand(v.phase, p)) else 0)
    ensures q.job == p.job && Seen(RetryDo(v, r), q) > 0
  {
    q := if r.RequeuePush? && p == v.phase.raw then Retried(p) else p;
    RetryFlow(v, r, p);
    RetryFlow(v, r, q);
  }

  /** Only a reset reopens a job, and whoever resets holds a copy of it. */
  lemma RetryOpensHeld(v: View, r: RetryEvent, j: JobId) returns (q: Payload)
    requires ViewSound(v) && RetryCan(v, r) && IsOpen(RetryDo(v, r).rows, j) && !IsOpen(v.rows, j)
    ensures q.job == j && Seen(RetryDo(v, r), q) > 0
  {
    q := if v.phase.held then v.phase.raw else Retried(v.phase.raw);
  }

  lemma RetryKeepsCover(s: World, w: WorkerId, r: RetryEvent, j: JobId)
    requires Inv(s) && RetryEnabled(s, w, r) && Safe(s, j) && !Loses(s, OfRetry(w, r), j)
    ensures Safe(RetryStep(s, w, r), j)
  {
    var v, s' := Look(s, w), RetryStep(s, w, r);
    AliveNotUnderCursor(s, w);
    LookSound(s, w);
    LookPut(s, w, RetryDo(v, r));
    if IsOpen(s'.rows, j) && !IsOpen(s.rows, j) {
      var q := RetryOpensHeld(v, r, j);
      SeenCovers(s', w, q);
    } else if IsOpen(s'.rows, j) {
      assert Drops(OfRetry(w, r), InHand(w)) ==> !CopyAt(s, InHand(w), j) || CoveredBut(s, InHand(w), j);
      var pl, p: Payload :| p.job == j && Copies(s, pl, p) > 0 && (r.Abandon? ==> pl != InHand(w));
      if OwnPlace(pl, w) {
        SeenIsCopies(s, w, p);
        var q := RetryKeepsSeen(v, r, p);
        SeenCovers(s', w, q);
      } else {
        PutCovers(s, w, RetryDo(v, r), pl, p);
      }
    }
  }

  lemma SamePlaces(s: World, s': World, pl: Place, p: Payload)
    requires s'.processing == s.processing && s'.workers == s.workers
    requires pl.OnList? ==> s'.reaper == s.reaper
    requires pl.AtGateway? ==> s'.gateways == s.gateways
    requires pl.OnPending? ==> s'.pending == s.pending
    ensures Copies(s', pl, p) == Copies(s, pl, p)
  {
    assert forall w :: List(s', w) == List(s, w) && PhaseOf(s', w) == PhaseOf(s, w);
  }

  lemma GatewayKeepsCopy(s: World, i: JobId, g: GatewayEvent, pl: Place, p: Payload) returns (pl': Place)
    requires GatewayEnabled(s, i, g) && Copies(s, pl, p) > 0 && IsOpen(GatewayStep(s, i, g).rows, p.job)
    requires GatewaysSound(s) && (g.Vanish? ==> pl != AtGateway(i))
    ensures Copies(GatewayStep(s, i, g), pl', p) > 0
  {
    var s' := GatewayStep(s, i, g);
    pl' := if g.Push? && pl == AtGateway(i) then OnPending else pl;
    if !pl.OnPending? && !pl.AtGateway? { SamePlaces(s, s', pl, p); }
  }

  lemma GatewayKeepsCover(s: World, i: JobId, g: GatewayEvent, j: JobId)
    requires Inv(s) && GatewayEnabled(s, i, g) && Safe(s, j) && !Loses(s, OfGateway(i, g), j)
    ensures Safe(GatewayStep(s, i, g), j)
  {
    var s' := GatewayStep(s, i, g);
    if IsOpen(s'.rows, j) {
      if g.Insert? && i == j {
        assert Copies(s', AtGateway(j), s'.gateways[j].p) > 0;
        assert CopyAt(s', AtGateway(j), j);
      } else {
        assert Drops(OfGateway(i, g), AtGateway(i)) ==> !CopyAt(s, AtGateway(i), j) || CoveredBut(s, AtGateway(i), j);
        var pl, p: Payload :| p.job == j && Copies(s, pl, p) > 0 && (g.Vanish? ==> pl != AtGateway(i));
        var pl' := GatewayKeepsCopy(s, i, g, pl, p);
        assert CopyAt(s', pl', j);
      }
    }
  }

  /** Passing an entry spends it; everything behind the cursor's next position stays. */
  lemma EntriesFrom(entries: seq<Payload>, k: nat, p: Payload)
    requires k < |entries|
    ensures Count(entries[k..], p) == One(p == entries[k]) + Count(entries[k + 1..], p)
  {
    CountFrom(entries, k, p);
  }

  lemma ReaperKeepsEntry(s: World, c: ReaperEvent, p: Payload)
    requires Inv(s) && ReaperEnabled(s, c) && IsOpen(ReaperStep(s, c).rows, p.job)
    requires c.See? || c.ResetEntry? || c.BuryEntry? || c.Skip? || c.DeadLetterEntry?
    requires Copies(s, OnList(s.reaper.dead), p) > 0
    ensures Copies(ReaperStep(s, c), OnList(s.reaper.dead), p) > 0
  {
    EntriesFrom(s.reaper.entries, s.reaper.at, p);
    if c.Skip? || c.BuryEntry? {
      assert p != Entry(s);
    } else {
      assert Cursor(ReaperStep(s, c).reaper) == Cursor(s.reaper);
    }
  }

  lemma ReaperWritesKeepCopy(s: World, c: ReaperEvent, pl: Place, p: Payload)
    requires Inv(s) && ReaperEnabled(s, c) && Copies(s, pl, p) > 0 && IsOpen(ReaperStep(s, c).rows, p.job)
    requires c.See? || c.ResetEntry? || c.BuryEntry? || c.Skip? || c.DeadLetterEntry?
    ensures Copies(ReaperStep(s, c), pl, p) > 0
  {
    if pl == OnList(s.reaper.dead) {
      ReaperKeepsEntry(s, c, p);
    } else {
      ReaperElsewhere(s, c, pl, p);
    }
  }

  lemma ReaperElsewhere(s: World, c: ReaperEvent, pl: Place, p: Payload)
    requires ReaperEnabled(s, c) && s.reaper.Recovering? && pl != OnList(s.reaper.dead)
    requires !c.Delete? && (c.PushEntry? ==> !pl.OnPending?)
    ensures Copies(ReaperStep(s, c), pl, p) == Copies(s, pl, p)
  {
    var s' := ReaperStep(s, c);
    assert forall w :: List(s', w) == List(s, w) && PhaseOf(s', w) == PhaseOf(s, w);
  }

  lemma ReadKeepsCopy(s: World, d: WorkerId, pl: Place, p: Payload)
    requires Inv(s) && ReaperEnabled(s, Read(d)) && Copies(s, pl, p) > 0
    ensures Copies(ReaperStep(s, Read(d)), pl, p) > 0
  {
    assert List(s, d)[0..] == List(s, d);
  }

  /** Whatever was still behind the cursor is on the list that Stop leaves behind. */
  lemma StopKeepsCopy(s: World, pl: Place, p: Payload)
    requires Inv(s) && ReaperEnabled(s, Stop) && Copies(s, pl, p) > 0
    ensures Copies(ReaperStep(s, Stop), pl, p) > 0
  {
    if s.reaper.at + One(s.reaper.stage.EntryBuried?) <= |s.reaper.entries| {
      CountSplit(s.reaper.entries, Cursor(s.reaper), p);
    }
  }

  /** Delete only runs when nothing is behind the cursor. */
  lemma DeleteKeepsCopy(s: World, pl: Place, p: Payload)
    requires Inv(s) && ReaperEnabled(s, Delete) && Copies(s, pl, p) > 0
    ensures Copies(ReaperStep(s, Delete), pl, p) > 0
  {
    assert Cursor(s.reaper) == |s.reaper.entries| && s.reaper.entries[Cursor(s.reaper)..] == [];
    assert pl != OnList(s.reaper.dead);
    SamePlacesButList(s, ReaperStep(s, Delete), s.reaper.dead, pl, p);
  }

  lemma SamePlacesButList(s: World, s': World, d: WorkerId, pl: Place, p: Payload)
    requires s'.pending == s.pending && s'.workers == s.workers && s'.gateways == s.gateways
    requires forall w :: w != d ==> List(s', w) == List(s, w)
    requires s.reaper.Recovering? && s.reaper.dead == d && s'.reaper.Resting? && pl != OnList(d)
    ensures Copies(s', pl, p) == Copies(s, pl, p)
  {
    assert forall w :: PhaseOf(s', w) == PhaseOf(s, w);
  }

  /** Pushing an entry turns its copy into one with a raised retry count. */
  lemma PushTurnsEntry(s: World, p: Payload) returns (pl': Place, q: Payload)
    requires Inv(s) && ReaperEnabled(s, PushEntry) && Copies(s, OnList(s.reaper.dead), p) > 0
    ensures q.job == p.job && Copies(ReaperStep(s, PushEntry), pl', q) > 0
  {
    EntriesFrom(s.reaper.entries, s.reaper.at, p);
    if p == Entry(s) {
      pl', q := OnPending, Retried(p);
    } else {
      pl', q := OnList(s.reaper.dead), p;
    }
  }

  lemma PushKeepsCopy(s: World, pl: Place, p: Payload) returns (pl': Place, q: Payload)
    requires Inv(s) && ReaperEnabled(s, PushEntry) && Copies(s, pl, p) > 0
    ensures q.job == p.job && Copies(ReaperStep(s, PushEntry), pl', q) > 0
  {
    pl', q := pl, p;
    if pl == OnList(s.reaper.dead) {
      pl', q := PushTurnsEntry(s, p);
    } else if !pl.OnPending? {
      ReaperElsewhere(s, PushEntry, pl, p);
    }
  }

  lemma ReaperKeepsCopy(s: World, c: ReaperEvent, pl: Place, p: Payload) returns (pl': Place, q: Payload)
    requires Inv(s) && ReaperEnabled(s, c) && Copies(s, pl, p) > 0 && IsOpen(ReaperStep(s, c).rows, p.job)
    ensures q.job == p.job && Copies(ReaperStep(s, c), pl', q) > 0
  {
    pl', q := pl, p;
    if c.PushEntry? {
      pl', q := PushKeepsCopy(s, pl, p);
    } else if c.Read? {
      ReadKeepsCopy(s, c.dead, pl, p);
    } else if c.Delete? {
      DeleteKeepsCopy(s, pl, p);
    } else if c.Stop? {
      StopKeepsCopy(s, pl, p);
    } else {
      ReaperWritesKeepCopy(s, c, pl, p);
    }
  }

  lemma ReaperKeepsCover(s: World, c: ReaperEvent, j: JobId)
    requires Inv(s) && ReaperEnabled(s, c) && Safe(s, j)
    ensures Safe(ReaperStep(s, c), j)
  {
    var s' := ReaperStep(s, c);
    if IsOpen(s'.rows, j) && !IsOpen(s.rows, j) {
      var d := s.reaper.dead;
      assert Copies(s', OnList(d), Entry(s)) > 0;
      assert CopyAt(s', OnList(d), j);
    } else if IsOpen(s'.rows, j) {
      var pl, p: Payload :| p.job == j && Copies(s, pl, p) > 0;
      var pl', q := ReaperKeepsCopy(s, c, pl, p);
      assert CopyAt(s', pl', j);
    }
  }

  lemma StartupKeepsCopy(s: World, m: MonitorId, u: StartupEvent, pl: Place, p: Payload)
    requires StartupEnabled(s, m, u)
    ensures Copies(StartupStep(s, m, u), pl, p) >= Copies(s, pl, p)
  {
    var s' := StartupStep(s, m, u);
    if u.PushRow? && pl.OnPending? {
      assert s'.pending == LPush(s.pending, s.startups[m].rest[0]);
    } else {
      SamePlaces(s, s', pl, p);
    }
  }

  lemma StartupKeepsCover(s: World, m: MonitorId, u: StartupEvent, j: JobId)
    requires StartupEnabled(s, m, u) && Safe(s, j)
    ensures Safe(StartupStep(s, m, u), j)
  {
    var s' := StartupStep(s, m, u);
    if IsOpen(s'.rows, j) {
      var pl, p: Payload :| p.job == j && Copies(s, pl, p) > 0;
      StartupKeepsCopy(s, m, u, pl, p);
      assert CopyAt(s', pl, j);
    }
  }

  /** After a copy held in memory vanishes, no other place has gained one. */
  lemma HandVanishes(s: World, w: WorkerId, v: View, pl: Place, p: Payload)
    requires !UnderCursor(s, w) && v.pending == s.pending && v.list == List(s, w)
    requires !InDoomedPhase(PhaseOf(s, w)) && (v.phase.Crashed? || v.phase.Idle?)
    ensures Copies(Put(s, w, v), pl, p) <= if pl == InHand(w) then 0 else Copies(s, pl, p)
  {
    if !OwnPlace(pl, w) { PutElsewhere(s, w, v, pl); }
    LookPut(s, w, v);
  }

  lemma VanishAddsNothing(s: World, e: Event, q: Place, pl: Place, p: Payload)
    requires Inv(s) && Enabled(s, e) && Drops(e, q)
    requires e.OfGateway? || !InDoomedPhase(PhaseOf(s, e.w))
    ensures Copies(Apply(s, e), pl, p) <= if pl == q then 0 else Copies(s, pl, p)
  {
    if e.OfGateway? {
      if !pl.AtGateway? { SamePlaces(s, Apply(s, e), pl, p); }
    } else {
      AliveNotUnderCursor(s, e.w);
      var v := if e.OfWorker? then WorkerDo(Look(s, e.w), e.a) else RetryDo(Look(s, e.w), e.r);
      HandVanishes(s, e.w, v, pl, p);
    }
  }

  /** Whoever has a copy in hand has no doomed entry. */
  lemma HandsAreNotDoomed(s: World, q: Place, j: JobId)
    requires CopyAt(s, q, j) && q.InHand?
    ensures !InDoomedPhase(PhaseOf(s, q.w))
  {
  }

  predicate InDoomedPhase(phase: Phase) {
    phase.Repushed? || phase.SawDone? || phase.Committed? || phase.Requeued?
  }

  /** Dropping the only live copy of an open job leaves it open and uncovered. */
  lemma LossIsReal(s: World, e: Event, j: JobId)
    requires Inv(s) && Enabled(s, e) && Loses(s, e, j)
    ensures !Safe(Apply(s, e), j)
  {
    var s' := Apply(s, e);
    var q :| Drops(e, q) && CopyAt(s, q, j) && !CoveredBut(s, q, j);
    assert s'.rows == s.rows;
    if q.InHand? { HandsAreNotDoomed(s, q, j); }
    forall pl, p: Payload | p.job == j ensures Copies(s', pl, p) == 0 {
      VanishAddsNothing(s, e, q, pl, p);
      assert pl != q ==> !CopyAt(s, pl, j);
    }
  }

  /** Exactly when a step endangers a job: a step from a state in which the job is
      safe keeps it safe unless it loses it in the sense of Loses, and then it
      really is lost. */
  lemma StepSafe(s: World, e: Event, j: JobId)
    requires Inv(s) && Enabled(s, e) && Safe(s, j)
    ensures Safe(Apply(s, e), j) <==> !Loses(s, e, j)
  {
    if Loses(s, e, j) {
      LossIsReal(s, e, j);
    } else {
      match e
      case OfGateway(i, g) => GatewayKeepsCover(s, i, g, j);
      case OfWorker(w, a) => WorkerKeepsCover(s, w, a, j);
      case OfRetry(w, r) => RetryKeepsCover(s, w, r, j);
      case OfReaper(c) => ReaperKeepsCover(s, c, j);
      case OfStartup(m, u) => StartupKeepsCover(s, m, u, j);
    }
  }

  /** No step of the run loses j. */
  ghost predicate NeverLost(es: seq<Event>, j: JobId)
    requires IsRun(GENESIS, es)
    decreases |es|
  {
    es == [] || (NeverLost(Before(es), j) && !Loses(After(GENESIS, Before(es)), Last(es), j))
  }

  /** No job is lost, over whole runs with any interleaving, failures and crashes. */
  lemma {:induction false} NoJobLost(es: seq<Event>, j: JobId)
    requires IsRun(GENESIS, es) && NeverLost(es, j)
    ensures Safe(After(GENESIS, es), j)
    decreases |es|
  {
    if es == [] {
    } else {
      NoJobLost(Before(es), j);
      RunInv(Before(es));
      StepSafe(After(GENESIS, Before(es)), Last(es), j);
    }
  }

  /** A crash or a give-up inside one of the three windows, with job j in hand. */
  predicate InWindow(s: World, e: Event, j: JobId) {
    match e
    case OfGateway(i, g) =>
      g.Vanish? && i == j && i in s.gateways && (s.gateways[i].Inserted? || s.gateways[i].Refusing?)
    case OfWorker(w, a) => a.Crash? && HandsOn(PhaseOf(s, w), j)
    case OfRetry(w, r) => r.Abandon? && HandsOn(PhaseOf(s, w), j)
    case OfReaper(_) => false
    case OfStartup(_, _) => false
  }

  predicate HandsOn(phase: Phase, j: JobId) {
    (phase.DlqOpen? || (phase.Backoff? && !phase.held)) && phase.raw.job == j
  }

  lemma LossNeedsWindow(s: World, e: Event, j: JobId)
    requires Inv(s) && Loses(s, e, j)
    ensures InWindow(s, e, j)
  {
    var q :| Drops(e, q) && CopyAt(s, q, j) && !CoveredBut(s, q, j);
    var p: Payload :| p.job == j && Copies(s, q, p) > 0;
    assert q.AtGateway? ==> GatewayHolds(s, q.job, p) && s.gateways[q.job].p.job == q.job;
  }

  /** No step of the run is a crash or a give-up inside one of the windows. */
  ghost predicate WindowsSpared(es: seq<Event>, j: JobId)
    requires IsRun(GENESIS, es)
    decreases |es|
  {
    es == [] || (WindowsSpared(Before(es), j) && !InWindow(After(GENESIS, Before(es)), Last(es), j))
  }

  /** Read off the acting process alone: if nobody dies or gives up inside a window
      with j in hand, j is never lost, and so has a live copy while it is open. */
  lemma {:induction false} SparedMeansKept(es: seq<Event>, j: JobId)
    requires IsRun(GENESIS, es) && WindowsSpared(es, j)
    ensures NeverLost(es, j) && Safe(After(GENESIS, es), j)
    decreases |es|
  {
    if es != [] {
      SparedMeansKept(Before(es), j);
      RunInv(Before(es));
      if Loses(After(GENESIS, Before(es)), Last(es), j) {
        LossNeedsWindow(After(GENESIS, Before(es)), Last(es), j);
      }
    }
    NoJobLost(es, j);
  }

  /** Every queue is empty and no process has a payload in hand. */
  ghost predicate Drained(s: World) {
    && s.pending == [] && (forall w :: List(s, w) == []) && s.gateways == map[]
    && (forall w, p :: !IsInHand(PhaseOf(s, w), p))
  }

  /** Once the queues have drained, every job that was never lost is terminal. */
  lemma DrainedMeansDone(es: seq<Event>, j: JobId)
    requires IsRun(GENESIS, es) && NeverLost(es, j) && Drained(After(GENESIS, es))
    ensures j in After(GENESIS, es).rows ==> IsClosed(After(GENESIS, es).rows, j)
  {
    var s := After(GENESIS, es);
    RunInv(es);
    NoJobLost(es, j);
    forall pl, p: Payload ensures Copies(s, pl, p) == 0 {
      if pl.OnList? { assert List(s, pl.w) == []; }
    }
  }
}
