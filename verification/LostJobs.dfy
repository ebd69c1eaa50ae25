/** The three windows are real: for each of them, a run from the empty system that
    ends with a PENDING or RUNNING row of which no copy is left anywhere. */
module LostJobs {
  import opened Contracts
  import opened Protocol
  import opened NoLoss

  /** Nobody but worker w, whose view is v, has anything in hand. */
  ghost predicate Solo(s: World, w: WorkerId, v: View) {
    && Look(s, w) == v && s.workers.Keys == {w}
    && s.gateways == map[] && s.reaper == Resting && s.startups == map[]
    && (forall u :: u != w ==> List(s, u) == [] && PhaseOf(s, u) == Crashed)
  }

  ghost predicate Gone(s: World, j: JobId) {
    IsOpen(s.rows, j) && !Covered(s, j)
  }

  lemma SoloGone(s: World, w: WorkerId, v: View, j: JobId)
    requires Solo(s, w, v) && IsOpen(v.rows, j) && v.pending == [] && v.list == []
    requires forall p :: !IsInHand(v.phase, p)
    ensures Gone(s, j)
  {
    forall pl, p: Payload ensures Copies(s, pl, p) == 0 {
      if pl.OnList? { assert List(s, pl.w) == []; }
    }
  }

  lemma Extend(es: seq<Event>, e: Event) returns (es': seq<Event>, s: World)
    requires IsRun(GENESIS, es) && Enabled(After(GENESIS, es), e)
    ensures es' == es + [e] && IsRun(GENESIS, es') && s == After(GENESIS, es')
    ensures s == Apply(After(GENESIS, es), e)
  {
    RunSnoc(GENESIS, es, e);
    es' := es + [e];
    s := After(GENESIS, es');
  }

  lemma PutSolo(s: World, w: WorkerId, v: View, v': View)
    requires Solo(s, w, v)
    ensures Solo(Put(s, w, v'), w, v')
  {
    LookPut(s, w, v');
    assert forall u :: u != w ==> List(Put(s, w, v'), u) == List(s, u) && PhaseOf(Put(s, w, v'), u) == PhaseOf(s, u);
  }

  /** A worker alone moves along its own view. */
  lemma Works(es: seq<Event>, w: WorkerId, v: View, a: WorkerEvent) returns (es': seq<Event>, v': View)
    requires IsRun(GENESIS, es) && Solo(After(GENESIS, es), w, v) && WorkerCan(v, a) && !a.Start?
    ensures IsRun(GENESIS, es') && v' == WorkerDo(v, a) && Solo(After(GENESIS, es'), w, v')
  {
    var s;
    v' := WorkerDo(v, a);
    PutSolo(After(GENESIS, es), w, v, v');
    es', s := Extend(es, OfWorker(w, a));
  }

  lemma Retries(es: seq<Event>, w: WorkerId, v: View, r: RetryEvent) returns (es': seq<Event>, v': View)
    requires IsRun(GENESIS, es) && Solo(After(GENESIS, es), w, v) && RetryCan(v, r)
    ensures IsRun(GENESIS, es') && v' == RetryDo(v, r) && Solo(After(GENESIS, es'), w, v')
  {
    var s;
    v' := RetryDo(v, r);
    PutSolo(After(GENESIS, es), w, v, v');
    es', s := Extend(es, OfRetry(w, r));
  }

  /** The worker idles and p is the only copy of anything. */
  ghost predicate Waiting(v: View, p: Payload) {
    v.phase == Idle && v.pending == [p] && v.list == [] && HasStatus(v.rows, p.job, Pending)
  }

  lemma GatewayWindowLoses(j: JobId, body: Body) returns (es: seq<Event>)
    ensures IsRun(GENESIS, es) && Gone(After(GENESIS, es), j)
  {
    var s;
    es, s := Extend([], OfGateway(j, Insert(body)));
    es, s := Extend(es, OfGateway(j, Vanish));
    forall pl, p: Payload ensures Copies(s, pl, p) == 0 {}
  }

  lemma Submitted(w: WorkerId, j: JobId, body: Body) returns (es: seq<Event>, v: View)
    ensures IsRun(GENESIS, es) && Solo(After(GENESIS, es), w, v) && Waiting(v, Payload(j, 0, body))
    ensures v.rows == map[j := Row(Pending, 0, body)]
  {
    var s;
    es, s := Extend([], OfGateway(j, Insert(body)));
    es, s := Extend(es, OfGateway(j, Push));
    es, s := Extend(es, OfGateway(j, Reply));
    es, s := Extend(es, OfWorker(w, Start));
    v := Look(s, w);
  }

  lemma Claimed(es0: seq<Event>, w: WorkerId, v0: View, p: Payload) returns (es: seq<Event>, v: View)
    requires IsRun(GENESIS, es0) && Solo(After(GENESIS, es0), w, v0) && Waiting(v0, p)
    ensures IsRun(GENESIS, es) && Solo(After(GENESIS, es), w, v)
    ensures v.phase == Executing(p) && v.pending == [] && v.list == [p] && HasStatus(v.rows, p.job, Running)
    ensures v.rows == WithStatus(v0.rows, p.job, Running)
  {
    es, v := Works(es0, w, v0, Pop);
    es, v := Works(es, w, v, Claim);
  }

  /** One execution that throws and is retried. */
  lemma FailsOnce(es0: seq<Event>, w: WorkerId, v0: View, p: Payload) returns (es: seq<Event>, v: View)
    requires IsRun(GENESIS, es0) && Solo(After(GENESIS, es0), w, v0) && Waiting(v0, p) && !Exhausted(p)
    ensures IsRun(GENESIS, es) && Solo(After(GENESIS, es), w, v) && Waiting(v, Retried(p))
  {
    es, v := Claimed(es0, w, v0, p);
    es, v := Works(es, w, v, Fail);
    es, v := Retries(es, w, v, Reset);
    es, v := Retries(es, w, v, RequeuePush);
    es, v := Retries(es, w, v, RequeueAck);
  }

  lemma FailsThrice(es0: seq<Event>, w: WorkerId, v0: View, j: JobId, body: Body) returns (es: seq<Event>, v: View)
    requires IsRun(GENESIS, es0) && Solo(After(GENESIS, es0), w, v0) && Waiting(v0, Payload(j, 0, body))
    ensures IsRun(GENESIS, es) && Solo(After(GENESIS, es), w, v) && Waiting(v, Payload(j, 3, body))
  {
    es, v := FailsOnce(es0, w, v0, Payload(j, 0, body));
    es, v := FailsOnce(es, w, v, Payload(j, 1, body));
    es, v := FailsOnce(es, w, v, Payload(j, 2, body));
  }

  lemma FailsLast(es0: seq<Event>, w: WorkerId, v0: View, p: Payload) returns (es: seq<Event>, v: View)
    requires IsRun(GENESIS, es0) && Solo(After(GENESIS, es0), w, v0) && Waiting(v0, p) && Exhausted(p)
    ensures IsRun(GENESIS, es) && Solo(After(GENESIS, es), w, v)
    ensures v.phase == DlqOpen(p) && v.pending == [] && v.list == [] && IsOpen(v.rows, p.job)
  {
    es, v := Claimed(es0, w, v0, p);
    es, v := Works(es, w, v, Fail);
    es, v := Retries(es, w, v, DlqRemove);
  }

  lemma DiesBurying(es0: seq<Event>, w: WorkerId, v0: View, p: Payload) returns (es: seq<Event>)
    requires IsRun(GENESIS, es0) && Solo(After(GENESIS, es0), w, v0) && Waiting(v0, p) && Exhausted(p)
    ensures IsRun(GENESIS, es) && Gone(After(GENESIS, es), p.job)
  {
    var v;
    es, v := FailsLast(es0, w, v0, p);
    es, v := Works(es, w, v, Crash);
    SoloGone(After(GENESIS, es), w, v, p.job);
  }

  /** A worker dies between removing its entry and the dead-letter transaction. */
  lemma DeadLetterWindowLoses(w: WorkerId, j: JobId, body: Body) returns (es: seq<Event>)
    ensures IsRun(GENESIS, es) && Gone(After(GENESIS, es), j)
  {
    var v;
    es, v := Submitted(w, j, body);
    es, v := FailsThrice(es, w, v, j, body);
    es := DiesBurying(es, w, v, Payload(j, 3, body));
  }

  /** A job completed, acknowledged, and then not announced: its row is reset. */
  lemma ResetsDone(w: WorkerId, j: JobId, body: Body, report: SandboxReport) returns (es: seq<Event>, v: View)
    ensures IsRun(GENESIS, es) && Solo(After(GENESIS, es), w, v)
    ensures v.phase == Backoff(Payload(j, 0, body), false) && v.pending == [] && v.list == [] && IsOpen(v.rows, j)
  {
    es, v := Finishes(w, j, body, report);
    es, v := Works(es, w, v, Fail);
    es, v := Retries(es, w, v, Reset);
  }

  lemma Finishes(w: WorkerId, j: JobId, body: Body, report: SandboxReport) returns (es: seq<Event>, v: View)
    ensures IsRun(GENESIS, es) && Solo(After(GENESIS, es), w, v)
    ensures v.phase == Acked(Payload(j, 0, body)) && v.pending == [] && v.list == [] && j in v.rows
  {
    es, v := Submitted(w, j, body);
    es, v := Claimed(es, w, v, Payload(j, 0, body));
    es, v := Works(es, w, v, Commit(report));
    es, v := Works(es, w, v, Ack);
  }

  /** A completed, acknowledged job whose completion marker cannot be published is
      reset to PENDING; the worker then fails to push the retry. */
  lemma PublishWindowLoses(w: WorkerId, j: JobId, body: Body, report: SandboxReport) returns (es: seq<Event>)
    ensures IsRun(GENESIS, es) && Gone(After(GENESIS, es), j)
  {
    var v;
    es, v := ResetsDone(w, j, body, report);
    es, v := Retries(es, w, v, Abandon);
    SoloGone(After(GENESIS, es), w, v, j);
  }
}
