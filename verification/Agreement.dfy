/** submissions.status and submission_results.error_category tell the same story
    in every reachable state, whatever the order of commits, dead-letter
    transactions, resets and crashes. The exception is the gateway's two-statement
    error path; the states in which its statements break the agreement are
    characterised exactly, and a run that ends in disagreement is given. */
module Agreement {
  import opened Contracts
  import opened Protocol
  import opened LostJobs
  import Soundness

  ghost predicate AgreesAt(s: World, j: JobId) {
    j in s.rows ==> Agrees(s.rows[j].status, ResultOf(s.results, j))
  }

  /** A gateway statement about to contradict the other table. */
  ghost predicate Contradicts(s: World, e: Event, j: JobId) {
    e.OfGateway? && e.job == j && j in s.rows &&
    match e.g
    case MarkFailed => !Agrees(Failed, ResultOf(s.results, j))
    case RecordUnknown => s.rows[j].status.Completed? || s.rows[j].status.TimedOut?
    case _ => false
  }

  /** Every verdict agrees with the category stored beside it. */
  lemma VerdictAgrees(r: SandboxReport)
    ensures IsTerminal(Judge(r).status) && Agrees(Judge(r).status, Some(Judge(r).category))
    ensures Judge(r).status.Completed? <==>
            !r.timedOut && !r.streamOutputLimitExceeded && !r.oomKilled && r.exitCode == Some(0)
  {
  }

  lemma WorkerAgrees(s: World, w: WorkerId, a: WorkerEvent, j: JobId)
    requires WorkerEnabled(s, w, a) && AgreesAt(s, j)
    ensures AgreesAt(WorkerStep(s, w, a), j)
  {
    var v' := WorkerDo(Look(s, w), a);
    assert WorkerStep(s, w, a).rows == v'.rows && WorkerStep(s, w, a).results == v'.results;
    if a.Commit? { VerdictAgrees(a.report); }
  }

  lemma RetryAgrees(s: World, w: WorkerId, r: RetryEvent, j: JobId)
    requires RetryEnabled(s, w, r) && AgreesAt(s, j)
    ensures AgreesAt(RetryStep(s, w, r), j)
  {
    var v' := RetryDo(Look(s, w), r);
    assert RetryStep(s, w, r).rows == v'.rows && RetryStep(s, w, r).results == v'.results;
  }

  lemma ReaperAgrees(s: World, c: ReaperEvent, j: JobId)
    requires ReaperEnabled(s, c) && AgreesAt(s, j)
    ensures AgreesAt(ReaperStep(s, c), j)
  {
  }

  lemma GatewayAgrees(s: World, i: JobId, g: GatewayEvent, j: JobId)
    requires GatewayEnabled(s, i, g) && AgreesAt(s, j)
    ensures AgreesAt(GatewayStep(s, i, g), j) <==> !Contradicts(s, OfGateway(i, g), j)
  {
  }

  /** Exactly two statements can break the agreement, and exactly in the states
      where they contradict what the other table says. */
  lemma StepAgreement(s: World, e: Event, j: JobId)
    requires Enabled(s, e) && AgreesAt(s, j)
    ensures AgreesAt(Apply(s, e), j) <==> !Contradicts(s, e, j)
  {
    match e
    case OfGateway(i, g) => GatewayAgrees(s, i, g, j);
    case OfWorker(w, a) => WorkerAgrees(s, w, a, j);
    case OfRetry(w, r) => RetryAgrees(s, w, r, j);
    case OfReaper(c) => ReaperAgrees(s, c, j);
    case OfStartup(m, u) => StartupAgrees(s, m, u, j);
  }

  lemma StartupAgrees(s: World, m: MonitorId, u: StartupEvent, j: JobId)
    requires StartupEnabled(s, m, u) && AgreesAt(s, j)
    ensures AgreesAt(StartupStep(s, m, u), j)
  {
  }

  /** The enqueue of j never threw. */
  predicate NeverRefused(es: seq<Event>, j: JobId) {
    OfGateway(j, Refuse) !in es
  }

  ghost predicate Untroubled(s: World, j: JobId) {
    j in s.gateways ==> !s.gateways[j].Refusing? && !s.gateways[j].Refused?
  }

  lemma GatewayUntroubled(s: World, i: JobId, g: GatewayEvent, j: JobId)
    requires GatewayEnabled(s, i, g) && Untroubled(s, j) && !(g.Refuse? && i == j)
    ensures Untroubled(GatewayStep(s, i, g), j)
  {
  }

  lemma StepUntroubled(s: World, e: Event, j: JobId)
    requires Enabled(s, e) && Untroubled(s, j) && e != OfGateway(j, Refuse)
    ensures Untroubled(Apply(s, e), j)
  {
    match e
    case OfGateway(i, g) => GatewayUntroubled(s, i, g, j);
    case OfWorker(_, _) =>
    case OfRetry(_, _) =>
    case OfReaper(c) => Soundness.ReaperOwnSphere(s, c);
    case OfStartup(m, u) => Soundness.StartupOwnSphere(s, m, u);
  }

  lemma {:induction false} RefusalNeeded(es: seq<Event>, j: JobId)
    requires IsRun(GENESIS, es) && NeverRefused(es, j)
    ensures Untroubled(After(GENESIS, es), j)
    decreases |es|
  {
    if es == [] {
    } else {
      RefusalNeeded(Before(es), j);
      assert Last(es) in es;
      StepUntroubled(After(GENESIS, Before(es)), Last(es), j);
    }
  }

  /** Status and result agree in every state of every run that enqueued the job. */
  lemma {:induction false} StatusAndResultAgree(es: seq<Event>, j: JobId)
    requires IsRun(GENESIS, es) && NeverRefused(es, j)
    ensures AgreesAt(After(GENESIS, es), j)
    decreases |es|
  {
    if es == [] {
    } else {
      StatusAndResultAgree(Before(es), j);
      RefusalNeeded(Before(es), j);
      StepAgreement(After(GENESIS, Before(es)), Last(es), j);
    }
  }

  /** The worker executes the job while its gateway has not replied yet. */
  ghost predicate Underway(s: World, w: WorkerId, p: Payload) {
    && PhaseOf(s, w) == Executing(p) && p.job in s.rows
    && p.job in s.gateways && s.gateways[p.job] == Pushed(p)
  }

  lemma StartsEarly(w: WorkerId, j: JobId, body: Body) returns (es: seq<Event>)
    ensures IsRun(GENESIS, es) && Underway(After(GENESIS, es), w, Payload(j, 0, body))
  {
    var s;
    es, s := Extend([], OfGateway(j, Insert(body)));
    es, s := Extend(es, OfGateway(j, Push));
    es, s := Extend(es, OfWorker(w, Start));
    es, s := Extend(es, OfWorker(w, Pop));
    es, s := Extend(es, OfWorker(w, Claim));
  }

  /** The push succeeded but the gateway's next call threw: the job completes, and
      the gateway's late INSERT leaves a COMPLETED row with category UNKNOWN. */
  lemma LateRefusalContradicts(w: WorkerId, j: JobId, body: Body) returns (es: seq<Event>)
    ensures IsRun(GENESIS, es)
    ensures HasStatus(After(GENESIS, es).rows, j, Completed)
    ensures ResultOf(After(GENESIS, es).results, j) == Some(Some(Unknown))
  {
    var s;
    var report := SandboxReport(Some(0), false, false, false, []);
    es := StartsEarly(w, j, body);
    es, s := Extend(es, OfGateway(j, Refuse));
    es, s := Extend(es, OfGateway(j, MarkFailed));
    assert PhaseOf(s, w) == Executing(Payload(j, 0, body));
    es, s := Extend(es, OfWorker(w, Commit(report)));
    es, s := Extend(es, OfGateway(j, RecordUnknown));
  }
}
