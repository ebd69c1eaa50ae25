/** The worker's loop as it runs: one command after another against stores that
    other processes change in between, any command failing before or after it took
    effect, as the network pleases. Every command is shown to be a step of the protocol's state machine. */
module Worker {
  import opened Contracts
  import opened RedisList
  import opened Protocol
  import opened Store

  datatype Own = Main(a: WorkerEvent) | Retry(r: RetryEvent)

  datatype Step = Step(before: View, own: Own, after: View)

  predicate IsStep(s: Step) {
    match s.own
    case Main(a) => !a.Start? && WorkerCan(s.before, a) && s.after == WorkerDo(s.before, a)
    case Retry(r) => RetryCan(s.before, r) && s.after == RetryDo(s.before, r)
  }

  /** Steps that connect one phase to another; what happens to the stores between
      two steps is up to other processes. */
  predicate Chain(steps: seq<Step>, from: Phase, to: Phase)
    decreases |steps|
  {
    if steps == [] then from == to
    else
      var last := steps[|steps| - 1];
      IsStep(last) && last.after.phase == to && Chain(steps[..|steps| - 1], from, last.before.phase)
  }

  function Events(steps: seq<Step>): (es: seq<Own>)
    ensures |es| == |steps|
    ensures forall i :: 0 <= i < |steps| ==> es[i] == steps[i].own
  {
    seq(|steps|, i requires 0 <= i < |steps| => steps[i].own)
  }

  const RACE: seq<Own> := [Main(Pop), Main(ClaimMiss), Main(SeeOpen), Main(Repush), Main(Discard)]
  const STALE: seq<Own> := [Main(Pop), Main(ClaimMiss), Main(SeeDone), Main(Discard)]

  /** What follows a missed claim, by whether the row is terminal. */
  function MissPath(isTerminal: bool): seq<Own> {
    if isTerminal then STALE else RACE
  }

  function Execution(r: SandboxReport): seq<Own> {
    [Main(Pop), Main(WorkerEvent.Claim), Main(Commit(r)), Main(Ack), Main(Publish)]
  }

  /** Any report; of a round that never came to run the sandbox. */
  const CRASH := SandboxReport(None, false, false, false, [])

  /** What one round of the loop does when nothing fails, given a job to pop. */
  predicate IsPath(es: seq<Own>) {
    || es == RACE
    || es == STALE
    || (|es| == 5 && es[2].Main? && es[2].a.Commit? && es == Execution(es[2].a.report))
  }

  /** One round of the loop: nothing popped; a path in full; or a path up to a
      failure, followed by the retry that the outer catch block starts. */
  predicate IsRound(es: seq<Own>, path: seq<Own>, k: nat, tail: seq<Own>) {
    IsPath(path) && k <= |path| &&
    (|| es == [] || es == [Main(PopUnseen)]
     || es == path
     || (0 < k < |path| && RetryRound(tail) && es == path[..k] + [Main(Fail)] + tail)
     || (k == |path| - 1 && path[k] == Main(Discard) && RetryRound(tail)
         && es == path[..k] + [Main(DiscardUnseen)] + tail))
  }

  const REQUEUE: seq<Own> := [Retry(Reset), Retry(RequeuePush), Retry(RequeueAck)]
  const BURIAL: seq<Own> := [Retry(DlqRemove), Retry(DlqCommit), Retry(DlqPush), Retry(DlqPublish)]

  /** requeueWithBackoff: one of two sequences in full, or a prefix given up. */
  predicate RetryRound(es: seq<Own>) {
    || es == REQUEUE
    || es == BURIAL
    || (es != [] && es[|es| - 1] == Retry(Abandon)
        && (es[..|es| - 1] <= REQUEUE || es[..|es| - 1] <= BURIAL))
  }

  lemma DiscardIsStep(v: View, raw: Payload, unseen: bool)
    requires v.phase == Repushed(raw) || v.phase == SawDone(raw)
    ensures IsStep(Step(v, Main(if unseen then DiscardUnseen else WorkerEvent.Discard),
                        v.(list := LRem(v.list, raw), phase := if unseen then Failing(raw, false) else Idle)))
  {
  }

  /** The if-chain from the sandbox's report to the verdict. */
  method Classify(r: SandboxReport) returns (status: Status, category: Option<Category>)
    ensures Verdict(status, category) == Judge(r)
  {
    status, category := Completed, None;
    if r.timedOut {
      status, category := TimedOut, Some(Timeout);
    } else if r.streamOutputLimitExceeded {
      status, category := Failed, Some(RuntimeError);
    } else if r.oomKilled {
      status, category := Failed, Some(Oom);
    } else if r.exitCode != Some(0) {
      status, category := Failed, Some(if NamesSyntaxError(r.stderr) then SyntaxError else RuntimeError);
    }
  }

  class Loop {
    const store: Stores
    const id: WorkerId
    ghost var faults: nat      // remote calls that failed so far
    ghost var phase: Phase
    ghost var steps: seq<Step>

    constructor (store: Stores, id: WorkerId)
      ensures this.store == store && this.id == id
      ensures Valid() && phase.Idle? && steps == [] && faults == 0
    {
      this.store, this.id, phase, steps, faults := store, id, Idle, [], 0;
    }

    /** The network decides how the next remote call turns out. */
    method Call() returns (reply: Reply)
      modifies this`faults
      ensures faults == old(faults) + One(!reply.Fine?)
    {
      reply := *;
      faults := faults + One(!reply.Fine?);
    }

    ghost predicate Valid()
      reads this
    {
      Chain(steps, Idle, phase)
    }

    ghost function Now(): View
      reads this, store
    {
      View(store.rows, store.results, store.pending, store.deadLetter, store.List(id), phase)
    }

    ghost function Log(): seq<Own>
      reads this
    {
      Events(steps)
    }

    /** Other processes run. */
    method Interfere()
      modifies store
    {
      store.rows, store.results := *, *;
      store.pending, store.deadLetter, store.processing := *, *, *;
    }

    ghost method Record(before: View, own: Own, next: Phase)
      requires Valid() && before.phase == phase && IsStep(Step(before, own, Now().(phase := next)))
      modifies this`phase, this`steps
      ensures Valid() && phase == next && Log() == old(Log()) + [own]
    {
      var last := Step(before, own, Now().(phase := next));
      assert (steps + [last])[..|steps|] == steps;
      steps, phase := steps + [last], next;
    }

    /** LREM processing:{worker} 1 raw. */
    method RemoveOwn(raw: Payload)
      modifies store`processing
      ensures Now() == old(Now()).(list := LRem(old(Now()).list, raw))
    {
      store.RemoveFrom(id, raw);
    }

    // ── the commands of the loop; each may fail before or after its effect ───

    /** BRPOPLPUSH with a time limit; it acts on the stores as they are. */
    method PopJob() returns (threw: bool, job: Option<Payload>)
      requires Valid() && phase.Idle?
      modifies this`phase, this`steps, this`faults, store
      ensures faults == old(faults) + One(threw)
      ensures Valid() && (threw ==> job.None? && phase.Idle?)
      ensures job.Some? ==>
                && old(store.pending) != [] && job.value == Tail(old(store.pending))
                && phase == Popped(job.value) && Log() == old(Log()) + [Main(Pop)]
      ensures !threw && job.None? ==> phase.Idle? && Log() == old(Log()) && old(store.pending) == []
      ensures threw ==> Log() == old(Log()) || Log() == old(Log()) + [Main(PopUnseen)]
    {
      var reply := Call();
      threw, job := !reply.Fine?, None;
      if reply.RequestLost? || store.pending == [] { return; }
      ghost var before := Now();
      var p := store.PopTo(id);
      Record(before, Main(if threw then PopUnseen else Pop), if threw then Idle else Popped(p));
      job := if threw then None else Some(p);
      Interfere();
    }

    method Claim(raw: Payload) returns (threw: bool, claimed: bool)
      requires Valid() && phase == Popped(raw)
      modifies this`phase, this`steps, this`faults, store
      ensures faults == old(faults) + One(threw)
      ensures Valid()
      ensures phase == Popped(raw) ==> threw && Log() == old(Log())
      ensures phase != Popped(raw) ==>
                && (claimed <==> HasStatus(old(store.rows), raw.job, Pending))
                && phase == (if claimed then Executing(raw) else Missed(raw))
                && Log() == old(Log()) + [Main(if claimed then WorkerEvent.Claim else ClaimMiss)]
    {
      var reply := Call();
      threw, claimed := reply.RequestLost?, false;
      if threw { return; }
      ghost var before := Now();
      claimed := store.ClaimRow(raw.job);
      Record(before, Main(if claimed then WorkerEvent.Claim else ClaimMiss),
        if claimed then Executing(raw) else Missed(raw));
      Interfere();
      threw := reply.ReplyLost?;
    }

    /** SELECT status; a missing row counts as not terminal. */
    method CheckStatus(raw: Payload) returns (threw: bool, isTerminal: bool)
      requires Valid() && phase == Missed(raw)
      modifies this`phase, this`steps, this`faults, store
      ensures faults == old(faults) + One(threw)
      ensures Valid()
      ensures phase == Missed(raw) ==> threw && Log() == old(Log())
      ensures phase != Missed(raw) ==>
                && (isTerminal <==> IsClosed(old(store.rows), raw.job))
                && phase == (if isTerminal then SawDone(raw) else SawOpen(raw))
                && Log() == old(Log()) + [Main(if isTerminal then SeeDone else SeeOpen)]
    {
      var reply := Call();
      threw, isTerminal := reply.RequestLost?, false;
      if threw { return; }
      ghost var before := Now();
      var status := store.SelectStatus(raw.job);
      isTerminal := status.Some? && IsTerminal(status.value);
      Record(before, Main(if isTerminal then SeeDone else SeeOpen), if isTerminal then SawDone(raw) else SawOpen(raw));
      Interfere();
      threw := reply.ReplyLost?;
    }

    method Repush(raw: Payload) returns (threw: bool)
      requires Valid() && phase == SawOpen(raw)
      modifies this`phase, this`steps, this`faults, store
      ensures faults == old(faults) + One(threw)
      ensures Valid()
      ensures phase == SawOpen(raw) ==> threw && Log() == old(Log())
      ensures phase != SawOpen(raw) ==> phase == Repushed(raw) && Log() == old(Log()) + [Main(WorkerEvent.Repush)]
    {
      var reply := Call();
      threw := reply.RequestLost?;
      if threw { return; }
      ghost var before := Now();
      store.PushPending(raw);
      Record(before, Main(WorkerEvent.Repush), Repushed(raw));
      Interfere();
      threw := reply.ReplyLost?;
    }

    /** LREM of an entry that needs no more work. If its reply is lost, the entry is
        gone and the exception still sends the job through a retry. */
    method Discard(raw: Payload) returns (threw: bool)
      requires Valid() && (phase == Repushed(raw) || phase == SawDone(raw))
      modifies this`phase, this`steps, this`faults, store
      ensures faults == old(faults) + One(threw)
      ensures Valid()
      ensures !threw ==> phase == Idle && Log() == old(Log()) + [Main(WorkerEvent.Discard)]
      ensures threw && !phase.Failing? ==> phase == old(phase) && Log() == old(Log())
      ensures threw && phase.Failing? ==> phase == Failing(raw, false) && Log() == old(Log()) + [Main(DiscardUnseen)]
    {
      var reply := Call();
      threw := reply.RequestLost?;
      if threw { return; }
      ghost var before := Now();
      RemoveOwn(raw);
      threw := reply.ReplyLost?;
      DiscardIsStep(before, raw, threw);
      Record(before, Main(if threw then DiscardUnseen else WorkerEvent.Discard),
        if threw then Failing(raw, false) else Idle);
      Interfere();
    }

    /** The result transaction: committed as a whole or rolled back. */
    method CommitVerdict(raw: Payload, r: SandboxReport) returns (threw: bool)
      requires Valid() && phase == Executing(raw)
      modifies this`phase, this`steps, this`faults, store
      ensures faults == old(faults) + One(threw)
      ensures Valid()
      ensures phase == Executing(raw) ==> threw && Log() == old(Log())
      ensures phase != Executing(raw) ==> phase == Committed(raw) && Log() == old(Log()) + [Main(Commit(r))]
    {
      var reply := Call();
      threw := reply.RequestLost?;
      if threw { return; }
      var status, category := Classify(r);
      ghost var before := Now();
      store.CommitResult(raw.job, status, category);
      Record(before, Main(Commit(r)), Committed(raw));
      Interfere();
      threw := reply.ReplyLost?;
    }

    /** The acknowledgement, after the commit. */
    method Acknowledge(raw: Payload) returns (threw: bool)
      requires Valid() && phase == Committed(raw)
      modifies this`phase, this`steps, this`faults, store
      ensures faults == old(faults) + One(threw)
      ensures Valid()
      ensures phase == Committed(raw) ==> threw && Log() == old(Log())
      ensures phase != Committed(raw) ==> phase == Acked(raw) && Log() == old(Log()) + [Main(Ack)]
    {
      var reply := Call();
      threw := reply.RequestLost?;
      if threw { return; }
      ghost var before := Now();
      RemoveOwn(raw);
      Record(before, Main(Ack), Acked(raw));
      Interfere();
      threw := reply.ReplyLost?;
    }

    /** publishSystemChunk(EXECUTION_COMPLETE): XADD, PUBLISH, EXPIRE on the stream. */
    method Announce(raw: Payload) returns (threw: bool)
      requires Valid() && (phase == Acked(raw) || phase == DlqPushed(raw))
      modifies this`phase, this`steps, this`faults, store
      ensures faults == old(faults) + One(threw)
      ensures Valid()
      ensures threw ==> phase == old(phase) && Log() == old(Log())
      ensures !threw ==>
                && phase == Idle
                && Log() == old(Log()) + [if old(phase).Acked? then Main(Publish) else Retry(DlqPublish)]
    {
      var reply := Call();
      threw := !reply.Fine?;
      if threw { return; }
      ghost var before := Now();
      Record(before, if phase.Acked? then Main(Publish) else Retry(DlqPublish), Idle);
      Interfere();
    }

    // ── requeueWithBackoff and sendToDLQ ─────────────────────────────────────

    method ResetRow(raw: Payload) returns (threw: bool)
      requires Valid() && phase.Failing? && phase.raw == raw && !Exhausted(raw)
      modifies this`phase, this`steps, this`faults, store
      ensures faults == old(faults) + One(threw)
      ensures Valid()
      ensures phase == old(phase) ==> threw && Log() == old(Log())
      ensures phase != old(phase) ==> phase == Backoff(raw, old(phase).held) && Log() == old(Log()) + [Retry(Reset)]
    {
      var reply := Call();
      threw := reply.RequestLost?;
      if threw { return; }
      ghost var before := Now();
      store.ResetRow(raw.job, raw.retry + 1);
      Record(before, Retry(Reset), Backoff(raw, phase.held));
      Interfere();
      threw := reply.ReplyLost?;
    }

    method PushRetry(raw: Payload) returns (threw: bool)
      requires Valid() && phase.Backoff? && phase.raw == raw
      modifies this`phase, this`steps, this`faults, store
      ensures faults == old(faults) + One(threw)
      ensures Valid()
      ensures phase == old(phase) ==> threw && Log() == old(Log())
      ensures phase != old(phase) ==> phase == Requeued(raw) && Log() == old(Log()) + [Retry(RequeuePush)]
    {
      var reply := Call();
      threw := reply.RequestLost?;
      if threw { return; }
      ghost var before := Now();
      store.PushPending(Retried(raw));
      Record(before, Retry(RequeuePush), Requeued(raw));
      Interfere();
      threw := reply.ReplyLost?;
    }

    /** The last command: a lost reply changes nothing any more. */
    method DropRetried(raw: Payload) returns (threw: bool)
      requires Valid() && phase == Requeued(raw)
      modifies this`phase, this`steps, this`faults, store
      ensures faults >= old(faults) + One(threw)
      ensures Valid()
      ensures threw ==> phase == Requeued(raw) && Log() == old(Log())
      ensures !threw ==> phase == Idle && Log() == old(Log()) + [Retry(RequeueAck)]
    {
      var reply := Call();
      threw := reply.RequestLost?;
      if threw { return; }
      ghost var before := Now();
      RemoveOwn(raw);
      Record(before, Retry(RequeueAck), Idle);
      Interfere();
    }

    method DropExhausted(raw: Payload) returns (threw: bool)
      requires Valid() && phase.Failing? && phase.raw == raw && Exhausted(raw)
      modifies this`phase, this`steps, this`faults, store
      ensures faults == old(faults) + One(threw)
      ensures Valid()
      ensures phase == old(phase) ==> threw && Log() == old(Log())
      ensures phase != old(phase) ==> phase == DlqOpen(raw) && Log() == old(Log()) + [Retry(DlqRemove)]
    {
      var reply := Call();
      threw := reply.RequestLost?;
      if threw { return; }
      ghost var before := Now();
      RemoveOwn(raw);
      Record(before, Retry(DlqRemove), DlqOpen(raw));
      Interfere();
      threw := reply.ReplyLost?;
    }

    method CommitFailed(raw: Payload) returns (threw: bool)
      requires Valid() && phase == DlqOpen(raw)
      modifies this`phase, this`steps, this`faults, store
      ensures faults == old(faults) + One(threw)
      ensures Valid()
      ensures phase == old(phase) ==> threw && Log() == old(Log())
      ensures phase != old(phase) ==> phase == DlqCommitted(raw) && Log() == old(Log()) + [Retry(DlqCommit)]
    {
      var reply := Call();
      threw := reply.RequestLost?;
      if threw { return; }
      ghost var before := Now();
      store.CommitFailed(raw.job);
      Record(before, Retry(DlqCommit), DlqCommitted(raw));
      Interfere();
      threw := reply.ReplyLost?;
    }

    method PushDeadLetter(raw: Payload) returns (threw: bool)
      requires Valid() && phase == DlqCommitted(raw)
      modifies this`phase, this`steps, this`faults, store
      ensures faults == old(faults) + One(threw)
      ensures Valid()
      ensures phase == old(phase) ==> threw && Log() == old(Log())
      ensures phase != old(phase) ==> phase == DlqPushed(raw) && Log() == old(Log()) + [Retry(DlqPush)]
    {
      var reply := Call();
      threw := reply.RequestLost?;
      if threw { return; }
      ghost var before := Now();
      store.PushDeadLetter(raw);
      Record(before, Retry(DlqPush), DlqPushed(raw));
      Interfere();
      threw := reply.ReplyLost?;
    }

    /** The retry path; done counts the commands that took effect. */
    method Requeue(raw: Payload) returns (threw: bool, ghost done: nat)
      requires Valid() && phase.Failing? && phase.raw == raw && !Exhausted(raw)
      modifies this`phase, this`steps, this`faults, store
      ensures faults >= old(faults) + One(threw)
      ensures Valid() && done <= 3 && Log() == old(Log()) + REQUEUE[..done]
      ensures !threw ==> done == 3 && phase == Idle
      ensures threw ==> InCatch(phase)
    {
      RetrySlices();
      done := 0;
      threw := ResetRow(raw);
      if phase.Backoff? { done := 1; }
      if threw { return; }
      threw := PushRetry(raw);
      if phase.Requeued? { done := 2; }
      if threw { return; }
      threw := DropRetried(raw);
      if phase.Idle? { done := 3; }
    }

    /** sendToDLQ: row committed FAILED, entry pushed to the dead-letter list,
        completion announced. */
    method SendToDLQ(raw: Payload) returns (threw: bool, ghost done: nat)
      requires Valid() && phase == DlqOpen(raw)
      modifies this`phase, this`steps, this`faults, store
      ensures faults == old(faults) + One(threw)
      ensures Valid() && 1 <= done <= 4 && Log() == old(Log()) + BURIAL[1..done]
      ensures !threw ==> done == 4 && phase == Idle
      ensures threw ==> InCatch(phase)
    {
      RetrySlices();
      done := 1;
      threw := CommitFailed(raw);
      if phase.DlqCommitted? { done := 2; }
      if threw { return; }
      threw := PushDeadLetter(raw);
      if phase.DlqPushed? { done := 3; }
      if threw { return; }
      threw := Announce(raw);
      if phase.Idle? { done := 4; }
    }

    /** The path of an exhausted job. */
    method Exhaust(raw: Payload) returns (threw: bool, ghost done: nat)
      requires Valid() && phase.Failing? && phase.raw == raw && Exhausted(raw)
      modifies this`phase, this`steps, this`faults, store
      ensures faults == old(faults) + One(threw)
      ensures Valid() && done <= 4 && Log() == old(Log()) + BURIAL[..done]
      ensures !threw ==> done == 4 && phase == Idle
      ensures threw ==> InCatch(phase)
    {
      done := 0;
      threw := DropExhausted(raw);
      if phase.DlqOpen? { done := 1; }
      if threw { return; }
      threw, done := SendToDLQ(raw);
      assert BURIAL[..done] == [BURIAL[0]] + BURIAL[1..done];
    }

    /** One of the two paths, chosen by the retry count. */
    method TryAgain(raw: Payload) returns (threw: bool, ghost whole: seq<Own>, ghost done: nat)
      requires Valid() && phase.Failing? && phase.raw == raw
      modifies this`phase, this`steps, this`faults, store
      ensures faults >= old(faults) + One(threw)
      ensures Valid() && whole == (if Exhausted(raw) then BURIAL else REQUEUE) && done <= |whole|
      ensures Log() == old(Log()) + whole[..done]
      ensures !threw ==> done == |whole| && phase == Idle
      ensures threw ==> InCatch(phase)
    {
      if raw.retry + 1 > MAX_RETRY_COUNT {
        whole := BURIAL;
        threw, done := Exhaust(raw);
      } else {
        whole := REQUEUE;
        threw, done := Requeue(raw);
      }
    }

    /** requeueWithBackoff inside its try block: an exception in it is swallowed. */
    method RequeueWithBackoff(raw: Payload) returns (ghost tail: seq<Own>)
      requires Valid() && phase.Failing? && phase.raw == raw
      modifies this`phase, this`steps, this`faults, store
      ensures faults >= old(faults)
      ensures Valid() && phase == Idle
      ensures Log() == old(Log()) + tail && RetryRound(tail)
      ensures faults == old(faults) ==> tail == if Exhausted(raw) then BURIAL else REQUEUE
    {
      ghost var log := Log();
      var threw;
      ghost var whole, done;
      threw, whole, done := TryAgain(raw);
      RoundsEnd(whole, done);
      tail := whole[..done];
      if threw {
        GiveUp();
        SnocAssociates(log, tail, Retry(Abandon));
        tail := tail + [Retry(Abandon)];
      }
    }

    ghost method GiveUp()
      requires Valid() && InCatch(phase)
      modifies this`phase, this`steps
      ensures Valid() && phase == Idle && Log() == old(Log()) + [Retry(Abandon)]
    {
      var before := Now();
      Record(before, Retry(Abandon), Idle);
    }

    // ── the body of the loop ─────────────────────────────────────────────────

    /** What a failing command left in the log beyond the path. */
    ghost function Unseen(): seq<Own>
      reads this
    {
      if phase.Failing? then [Main(DiscardUnseen)] else []
    }

    /** The exception left the worker with raw in hand, k commands into the path. */
    ghost predicate ThrownAt(raw: Payload, path: seq<Own>, k: nat)
      reads this
    {
      && k < |path|
      && ((InTry(phase) && phase.raw == raw)
          || (phase == Failing(raw, false) && k == |path| - 1 && path[k] == Main(WorkerEvent.Discard)))
    }

    /** The row is not terminal: another worker shall try. */
    method PutBack(raw: Payload) returns (threw: bool, ghost k: nat)
      requires Valid() && phase == SawOpen(raw)
      modifies this`phase, this`steps, this`faults, store
      ensures faults == old(faults) + One(threw)
      ensures Valid() && 3 <= k <= 5 && Log() == old(Log()) + RACE[3..k] + Unseen()
      ensures !threw ==> phase == Idle && k == 5
      ensures threw ==> ThrownAt(raw, RACE, k)
    {
      Cuts(RACE, 3);
      k := 3;
      threw := Repush(raw);
      if phase.Repushed? { k := 4; }
      if threw { return; }
      threw := Discard(raw);
      if !threw { k := 5; }
    }

    /** The row is terminal: nothing is left to do. */
    method Skip(raw: Payload) returns (threw: bool, ghost k: nat)
      requires Valid() && phase == SawDone(raw)
      modifies this`phase, this`steps, this`faults, store
      ensures faults == old(faults) + One(threw)
      ensures Valid() && 3 <= k <= 4 && Log() == old(Log()) + STALE[3..k] + Unseen()
      ensures !threw ==> phase == Idle && k == 4
      ensures threw ==> ThrownAt(raw, STALE, k)
    {
      Cuts(STALE, 2);
      k := 3;
      threw := Discard(raw);
      if !threw { k := 4; }
    }

    method SkipOrPutBack(raw: Payload, isTerminal: bool) returns (threw: bool, ghost k: nat)
      requires Valid() && phase == if isTerminal then SawDone(raw) else SawOpen(raw)
      modifies this`phase, this`steps, this`faults, store
      ensures faults == old(faults) + One(threw)
      ensures Valid() && 3 <= k <= |MissPath(isTerminal)|
      ensures Log() == old(Log()) + MissPath(isTerminal)[3..k] + Unseen()
      ensures !threw ==> phase == Idle && k == |MissPath(isTerminal)|
      ensures threw ==> ThrownAt(raw, MissPath(isTerminal), k)
    {
      if isTerminal {
        threw, k := Skip(raw);
      } else {
        threw, k := PutBack(raw);
      }
    }

    /** The claim matched no row. */
    method HandleMiss(raw: Payload) returns (threw: bool, ghost path: seq<Own>, ghost k: nat)
      requires Valid() && phase == Missed(raw)
      modifies this`phase, this`steps, this`faults, store
      ensures faults == old(faults) + One(threw)
      ensures Valid() && (path == RACE || path == STALE) && 2 <= k <= |path|
      ensures k > 2 ==> path == MissPath(IsClosed(old(store.rows), raw.job))
      ensures Log() == old(Log()) + path[2..k] + Unseen()
      ensures !threw ==> phase == Idle && k == |path|
      ensures threw ==> ThrownAt(raw, path, k)
    {
      ghost var log := Log();
      var isTerminal;
      threw, isTerminal := CheckStatus(raw);
      path := MissPath(isTerminal);
      k := if phase.Missed? then 2 else 3;
      if threw { return; }
      threw, k := SkipOrPutBack(raw, isTerminal);
      FirstOf(log, path, 2, k, Unseen());
    }

    /** Acknowledgement and announcement, after the commit. */
    method Finish(raw: Payload, ghost r: SandboxReport) returns (threw: bool, ghost k: nat)
      requires Valid() && phase == Committed(raw)
      modifies this`phase, this`steps, this`faults, store
      ensures faults == old(faults) + One(threw)
      ensures Valid() && 3 <= k <= 5 && Log() == old(Log()) + Execution(r)[3..k]
      ensures !threw ==> phase == Idle && k == 5
      ensures threw ==> InTry(phase) && phase.raw == raw && k < 5
    {
      Cuts(Execution(r), 3);
      k := 3;
      threw := Acknowledge(raw);
      if phase.Acked? { k := 4; }
      if threw { return; }
      threw := Announce(raw);
      if !threw { k := 5; }
    }

    /** Sandbox, verdict and commit. */
    method Execute(raw: Payload) returns (threw: bool, ghost r: SandboxReport, ghost k: nat)
      requires Valid() && phase == Executing(raw)
      modifies this`phase, this`steps, this`faults, store
      ensures faults == old(faults) + One(threw)
      ensures Valid() && 2 <= k <= 5
      ensures Log() == old(Log()) + Execution(r)[2..k]
      ensures !threw ==> phase == Idle && k == 5
      ensures threw ==> InTry(phase) && phase.raw == raw && k < 5
    {
      ghost var log := Log();
      var report: SandboxReport := *;
      var reply := Call();
      threw, r, k := !reply.Fine?, report, 2;
      Interfere();
      if threw { return; }
      threw := CommitVerdict(raw, report);
      Cuts(Execution(r), 2);
      if phase.Committed? { k := 3; }
      if threw { return; }
      threw, k := Finish(raw, report);
      FirstOf(log, Execution(r), 2, k, []);
      assert log + Execution(r)[2..k] + [] == log + Execution(r)[2..k];
    }

    method ClaimAndRun(raw: Payload) returns (threw: bool, ghost path: seq<Own>, ghost k: nat)
      requires Valid() && phase == Popped(raw)
      modifies this`phase, this`steps, this`faults, store
      ensures faults == old(faults) + One(threw)
      ensures Valid() && IsPath(path) && 1 <= k <= |path|
      ensures Log() == old(Log()) + path[1..k] + Unseen()
      ensures !threw ==> phase == Idle && k == |path|
      ensures threw ==> ThrownAt(raw, path, k)
    {
      ghost var log := Log();
      var claimed;
      threw, claimed, path, k := TryClaim(raw);
      if !threw {
        threw, path, k := Continue(raw, claimed);
        FirstOf(log, path, 1, k, Unseen());
      }
    }

    /** The claim; if it throws, the worker is one or two commands into a path. */
    method TryClaim(raw: Payload) returns (threw: bool, claimed: bool, ghost path: seq<Own>, ghost k: nat)
      requires Valid() && phase == Popped(raw)
      modifies this`phase, this`steps, this`faults, store
      ensures faults == old(faults) + One(threw)
      ensures Valid() && IsPath(path) && 1 <= k <= 2
      ensures threw ==> Log() == old(Log()) + path[1..k] + Unseen() && ThrownAt(raw, path, k)
      ensures !threw ==>
                && phase == (if claimed then Executing(raw) else Missed(raw))
                && Log() == old(Log()) + [Main(if claimed then WorkerEvent.Claim else ClaimMiss)]
    {
      ghost var log := Log();
      threw, claimed := Claim(raw);
      path, k := if claimed then Execution(CRASH) else RACE, if phase.Popped? then 1 else 2;
      EarlyOn(log, path, 1);
    }

    /** After the claim. */
    method Continue(raw: Payload, claimed: bool) returns (threw: bool, ghost path: seq<Own>, ghost k: nat)
      requires Valid() && phase == if claimed then Executing(raw) else Missed(raw)
      modifies this`phase, this`steps, this`faults, store
      ensures faults == old(faults) + One(threw)
      ensures Valid() && IsPath(path) && 2 <= k <= |path|
      ensures path[1] == Main(if claimed then WorkerEvent.Claim else ClaimMiss)
      ensures Log() == old(Log()) + path[2..k] + Unseen()
      ensures !threw ==> phase == Idle && k == |path|
      ensures threw ==> ThrownAt(raw, path, k)
    {
      if claimed {
        ghost var log := Log();
        ghost var r;
        threw, r, k := Execute(raw);
        path := Execution(r);
        assert log + path[2..k] + [] == log + path[2..k];
      } else {
        threw, path, k := HandleMiss(raw);
      }
    }

    method TryBlock() returns (threw: bool, job: Option<Payload>, ghost path: seq<Own>, ghost k: nat)
      requires Valid() && phase == Idle
      modifies this`phase, this`steps, this`faults, store
      ensures faults == old(faults) + One(threw)
      ensures Valid() && IsPath(path) && k <= |path|
      ensures job.None? ==> phase == Idle && (Log() == old(Log()) || Log() == old(Log()) + [Main(PopUnseen)])
      ensures job.None? && !threw ==> Log() == old(Log()) && old(store.pending) == []
      ensures job.Some? ==> k > 0 && Log() == old(Log()) + path[..k] + Unseen()
      ensures job.Some? && !threw ==> phase == Idle && k == |path|
      ensures job.Some? && threw ==> ThrownAt(job.value, path, k)
    {
      path, k := RACE, 0;
      ghost var log := Log();
      threw, job := PopJob();
      if job.Some? {
        threw, path, k := ClaimAndRun(job.value);
        assert path[..k] == path[0..k];
        FirstOf(log, path, 0, k, Unseen());
      }
    }

    /** The outer catch block, with a job in hand. */
    method CatchBlock(raw: Payload, ghost path: seq<Own>, ghost k: nat)
      returns (ghost thrown: Own, ghost tail: seq<Own>)
      requires Valid() && ThrownAt(raw, path, k)
      modifies this`phase, this`steps, this`faults, store
      ensures faults >= old(faults)
      ensures Valid() && phase == Idle && RetryRound(tail)
      ensures thrown == (if old(phase).Failing? then Main(DiscardUnseen) else Main(Fail))
      ensures Log() == old(Log()) + (if old(phase).Failing? then [] else [Main(Fail)]) + tail
      ensures faults == old(faults) ==> tail == if Exhausted(raw) then BURIAL else REQUEUE
    {
      if phase.Failing? {
        thrown := Main(DiscardUnseen);
        assert Log() == Log() + [];
      } else {
        thrown := Main(Fail);
        ghost var before := Now();
        Record(before, Main(Fail), Failing(raw, !phase.Acked?));
      }
      tail := RequeueWithBackoff(raw);
    }

    /** One round of `while (shouldRun)`. The worker is idle again whatever fails, and
        what it did is a round: in particular a popped job ends in a full path or in
        the retry that its failure started. */
    method ProcessOnce() returns (ghost es: seq<Own>, ghost path: seq<Own>, ghost k: nat, ghost tail: seq<Own>)
      requires Valid() && phase == Idle
      modifies this`phase, this`steps, this`faults, store
      ensures faults >= old(faults)
      ensures Valid() && phase == Idle
      ensures Log() == old(Log()) + es && IsRound(es, path, k, tail)
      ensures faults == old(faults) ==> es == path || (es == [] && old(store.pending) == [])
      ensures faults == old(faults) + 1 && tail != [] ==> tail == REQUEUE || tail == BURIAL
    {
      ghost var log := Log();
      var threw, job;
      threw, job, path, k := TryBlock();
      tail := [];
      if job.None? {
        es := if Log() == log then [] else [Main(PopUnseen)];
      } else if !threw {
        es := path;
        assert path[..k] == path;
      } else {
        ghost var thrown;
        thrown, tail := CatchBlock(job.value, path, k);
        ThrownRound(log, path, k, thrown, tail);
        es := path[..k] + [thrown] + tail;
      }
    }

    /** The whole loop, for as many rounds as it is allowed to run. */
    method ProcessQueue(rounds: nat)
      requires Valid() && phase == Idle
      modifies this`phase, this`steps, this`faults, store
      ensures faults >= old(faults)
      ensures Valid() && phase == Idle
      ensures exists history :: |history| == rounds && AllRounds(history) && Log() == old(Log()) + Flatten(history)
    {
      ghost var history: seq<seq<Own>> := [];
      assert Log() == old(Log()) + Flatten(history);
      for n := 0 to rounds
        invariant Valid() && phase == Idle && faults >= old(faults)
        invariant |history| == n && AllRounds(history) && Log() == old(Log()) + Flatten(history)
      {
        ghost var es, path, k, tail := ProcessOnce();
        RoundsSnoc(old(Log()), history, es, path, k, tail);
        history := history + [es];
      }
    }
  }

  lemma ThrownRound(log: seq<Own>, path: seq<Own>, k: nat, thrown: Own, tail: seq<Own>)
    ensures log + path[..Clip(path, k)] + [thrown] + [] + tail == log + (path[..Clip(path, k)] + [thrown] + tail)
    ensures log + path[..Clip(path, k)] + [] + [thrown] + tail == log + (path[..Clip(path, k)] + [thrown] + tail)
  {
    var es := path[..Clip(path, k)];
    assert log + es + [thrown] == log + (es + [thrown]);
    assert log + es + [] == log + es;
    assert log + es + [thrown] + [] == log + es + [thrown];
    assert log + (es + [thrown]) + tail == log + (es + [thrown] + tail);
  }

  function Clip(path: seq<Own>, k: nat): (r: nat)
    ensures r <= |path|
  {
    if k <= |path| then k else |path|
  }

  function Flatten(history: seq<seq<Own>>): seq<Own> {
    if history == [] then [] else Flatten(history[..|history| - 1]) + history[|history| - 1]
  }

  ghost predicate SomeRound(es: seq<Own>) {
    exists path, k, tail :: IsRound(es, path, k, tail)
  }

  ghost predicate AllRounds(history: seq<seq<Own>>) {
    forall i :: 0 <= i < |history| ==> SomeRound(history[i])
  }

  lemma RoundsSnoc(log: seq<Own>, history: seq<seq<Own>>, es: seq<Own>, path: seq<Own>, k: nat, tail: seq<Own>)
    requires AllRounds(history) && IsRound(es, path, k, tail)
    ensures AllRounds(history + [es])
    ensures log + Flatten(history) + es == log + Flatten(history + [es])
  {
    var more := history + [es];
    assert more[..|history|] == history && more[|history|] == es;
    assert log + Flatten(history) + es == log + (Flatten(history) + es);
    assert SomeRound(es);
  }

  lemma FirstOf(log: seq<Own>, path: seq<Own>, i: nat, k: nat, more: seq<Own>)
    requires i < k <= |path|
    ensures log + path[i..k] + more == log + [path[i]] + path[i + 1..k] + more
  {
    assert path[i..k] == [path[i]] + path[i + 1..k];
    assert log + ([path[i]] + path[i + 1..k]) == log + [path[i]] + path[i + 1..k];
  }

  lemma Cuts(path: seq<Own>, i: nat)
    requires i + 2 <= |path|
    ensures path[i..i] == [] && path[i..i + 1] == [path[i]] && path[i..i + 2] == [path[i], path[i + 1]]
    ensures path[i + 1..i + 1] == [] && path[i + 1..i + 2] == [path[i + 1]]
  {
  }

  lemma SnocAssociates(log: seq<Own>, es: seq<Own>, last: Own)
    ensures log + es + [last] == log + (es + [last])
  {
  }

  lemma EarlyOn(log: seq<Own>, path: seq<Own>, i: nat)
    requires i < |path|
    ensures log + path[i..i] + [] == log && log + path[i..i + 1] + [] == log + [path[i]]
  {
    assert path[i..i + 1] == [path[i]];
  }

  lemma RetrySlices()
    ensures REQUEUE[..0] == [] && REQUEUE[..1] == [REQUEUE[0]] && REQUEUE[..2] == [REQUEUE[0], REQUEUE[1]]
    ensures REQUEUE[..3] == [REQUEUE[0], REQUEUE[1], REQUEUE[2]]
    ensures BURIAL[1..1] == [] && BURIAL[1..2] == [BURIAL[1]] && BURIAL[1..3] == [BURIAL[1], BURIAL[2]]
    ensures BURIAL[1..4] == [BURIAL[1], BURIAL[2], BURIAL[3]]
  {
  }

  lemma RoundsEnd(whole: seq<Own>, done: nat)
    requires (whole == REQUEUE || whole == BURIAL) && done <= |whole|
    ensures RetryRound(whole[..done] + [Retry(Abandon)])
    ensures done == |whole| ==> whole[..done] == whole && RetryRound(whole)
  {
    var es := whole[..done] + [Retry(Abandon)];
    assert es[..|es| - 1] == whole[..done];
    assert whole[..|whole|] == whole;
  }

  // ── the loop and the state machine ───────────────────────────────────────

  /** Every step of the loop is a step of the protocol: taken in a state that looks
      as the worker saw it, it is enabled there and leads to what the worker left. */
  lemma StepIsProtocolStep(s: World, w: WorkerId, step: Step)
    requires IsStep(step) && Look(s, w) == step.before
    ensures
      var e := match step.own case Main(a) => OfWorker(w, a) case Retry(r) => OfRetry(w, r);
      Enabled(s, e) && Look(Apply(s, e), w) == step.after
  {
  }

  function Front(steps: seq<Step>): seq<Step>
    requires steps != []
  {
    steps[..|steps| - 1]
  }

  function Final(steps: seq<Step>): Step
    requires steps != []
  {
    steps[|steps| - 1]
  }

  /** The row the step wrote is terminal. */
  predicate Closes(step: Step, job: JobId) {
    job in step.after.rows ==> IsClosed(step.after.rows, job)
  }

  lemma ChainFinal(steps: seq<Step>, to: Phase)
    requires Chain(steps, Idle, to) && to != Idle
    ensures steps != [] && IsStep(Final(steps)) && Final(steps).after.phase == to
    ensures Chain(Front(steps), Idle, Final(steps).before.phase)
  {
  }

  lemma StepIntoAcked(step: Step, raw: Payload)
    requires IsStep(step) && step.after.phase == Acked(raw)
    ensures step.own == Main(Ack) && step.before.phase == Committed(raw)
  {
  }

  lemma IntoAcked(steps: seq<Step>, raw: Payload)
    requires Chain(steps, Idle, Acked(raw))
    ensures steps != [] && Final(steps).own == Main(Ack)
    ensures Chain(Front(steps), Idle, Committed(raw))
  {
    ChainFinal(steps, Acked(raw));
    StepIntoAcked(Final(steps), raw);
  }

  lemma StepIntoDlqPushed(step: Step, raw: Payload)
    requires IsStep(step) && step.after.phase == DlqPushed(raw)
    ensures step.own == Retry(DlqPush) && step.before.phase == DlqCommitted(raw)
  {
  }

  lemma IntoDlqPushed(steps: seq<Step>, raw: Payload)
    requires Chain(steps, Idle, DlqPushed(raw))
    ensures steps != [] && Final(steps).own == Retry(DlqPush)
    ensures Chain(Front(steps), Idle, DlqCommitted(raw))
  {
    ChainFinal(steps, DlqPushed(raw));
    StepIntoDlqPushed(Final(steps), raw);
  }

  lemma StepIntoCommitted(step: Step, raw: Payload)
    requires IsStep(step) && step.after.phase == Committed(raw)
    ensures step.own.Main? && step.own.a.Commit? && step.before.phase == Executing(raw) && Closes(step, raw.job)
  {
  }

  lemma IntoCommitted(steps: seq<Step>, raw: Payload)
    requires Chain(steps, Idle, Committed(raw))
    ensures steps != [] && Final(steps).own.Main? && Final(steps).own.a.Commit?
    ensures Final(steps).before.phase == Executing(raw) && Closes(Final(steps), raw.job)
  {
    ChainFinal(steps, Committed(raw));
    StepIntoCommitted(Final(steps), raw);
  }

  lemma StepIntoDlqCommitted(step: Step, raw: Payload)
    requires IsStep(step) && step.after.phase == DlqCommitted(raw)
    ensures step.own == Retry(DlqCommit) && step.before.phase == DlqOpen(raw) && Closes(step, raw.job)
  {
  }

  lemma IntoDlqCommitted(steps: seq<Step>, raw: Payload)
    requires Chain(steps, Idle, DlqCommitted(raw))
    ensures steps != [] && Final(steps).own == Retry(DlqCommit)
    ensures Final(steps).before.phase == DlqOpen(raw) && Closes(Final(steps), raw.job)
  {
    ChainFinal(steps, DlqCommitted(raw));
    StepIntoDlqCommitted(Final(steps), raw);
  }

  /** EXECUTION_COMPLETE is only ever sent in the phases Acked and DlqPushed: by then
      this worker has committed the job's row with a terminal status, and since that
      commit it has done nothing but acknowledge, or push the dead-letter entry. */
  lemma AnnouncedAfterCommit(steps: seq<Step>, to: Phase) returns (i: nat)
    requires Chain(steps, Idle, to) && (to.Acked? || to.DlqPushed?)
    ensures i + 2 == |steps| && steps[i + 1].own == (if to.Acked? then Main(Ack) else Retry(DlqPush))
    ensures steps[i].before.phase == if to.Acked? then Executing(to.raw) else DlqOpen(to.raw)
    ensures if to.Acked? then steps[i].own.Main? && steps[i].own.a.Commit? else steps[i].own == Retry(DlqCommit)
    ensures Closes(steps[i], to.raw.job)
  {
    if to.Acked? { i := LastTwoAcked(steps, to.raw); } else { i := LastTwoBuried(steps, to.raw); }
  }

  lemma LastTwoAcked(steps: seq<Step>, raw: Payload) returns (i: nat)
    requires Chain(steps, Idle, Acked(raw))
    ensures i + 2 == |steps| && steps[i + 1].own == Main(Ack) && steps[i].own.Main? && steps[i].own.a.Commit?
    ensures steps[i].before.phase == Executing(raw) && Closes(steps[i], raw.job)
  {
    IntoAcked(steps, raw);
    IntoCommitted(Front(steps), raw);
    i := |steps| - 2;
    assert Final(Front(steps)) == steps[i];
  }

  lemma LastTwoBuried(steps: seq<Step>, raw: Payload) returns (i: nat)
    requires Chain(steps, Idle, DlqPushed(raw))
    ensures i + 2 == |steps| && steps[i + 1].own == Retry(DlqPush) && steps[i].own == Retry(DlqCommit)
    ensures steps[i].before.phase == DlqOpen(raw) && Closes(steps[i], raw.job)
  {
    IntoDlqPushed(steps, raw);
    IntoDlqCommitted(Front(steps), raw);
    i := |steps| - 2;
    assert Final(Front(steps)) == steps[i];
  }
}
