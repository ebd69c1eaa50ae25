/** Outside the single-copy regime a job can run twice at once: a monitor that starts
    while a worker executes resets the worker's row and rehydrates the job. */
module Duplicates {
  import opened Contracts
  import opened Protocol
  import opened LostJobs

  ghost predicate RunsTwice(s: World, j: JobId, w: WorkerId, u: WorkerId) {
    && w != u && PhaseOf(s, w).Executing? && PhaseOf(s, u).Executing?
    && PhaseOf(s, w).raw.job == j == PhaseOf(s, u).raw.job
  }

  /** The job is on pending again although w still executes it. */
  ghost predicate Rehydrated(s: World, p: Payload, w: WorkerId) {
    && s.pending == [p] && HasStatus(s.rows, p.job, Pending)
    && PhaseOf(s, w) == Executing(p) && s.workers.Keys == {w}
  }

  lemma StartupRehydrates(es0: seq<Event>, w: WorkerId, v: View, m: MonitorId, j: JobId, body: Body)
    returns (es: seq<Event>)
    requires IsRun(GENESIS, es0) && Solo(After(GENESIS, es0), w, v)
    requires v.rows == map[j := Row(Running, 0, body)] && v.pending == []
    requires v.phase == Executing(Payload(j, 0, body))
    ensures IsRun(GENESIS, es) && Rehydrated(After(GENESIS, es), Payload(j, 0, body), w)
    ensures After(GENESIS, es).processing == After(GENESIS, es0).processing
  {
    var s;
    es, s := Extend(es0, OfStartup(m, ResetRunning));
    es, s := Extend(es, OfStartup(m, Length));
    assert s.rows == map[j := Row(Pending, 0, body)];
    es, s := Extend(es, OfStartup(m, Select([j])));
    es, s := Extend(es, OfStartup(m, PushRow));
  }

  lemma SecondWorkerClaims(es0: seq<Event>, p: Payload, w: WorkerId, u: WorkerId) returns (es: seq<Event>)
    requires IsRun(GENESIS, es0) && Rehydrated(After(GENESIS, es0), p, w) && u != w
    requires List(After(GENESIS, es0), u) == []
    ensures IsRun(GENESIS, es) && RunsTwice(After(GENESIS, es), p.job, w, u)
  {
    var s;
    es, s := Extend(es0, OfWorker(u, Start));
    es, s := Extend(es, OfWorker(u, Pop));
    assert PhaseOf(s, u) == Popped(p) && PhaseOf(s, w) == Executing(p);
    es, s := Extend(es, OfWorker(u, Claim));
  }

  lemma StartupDoublesExecution(j: JobId, body: Body, w: WorkerId, u: WorkerId, m: MonitorId) returns (es: seq<Event>)
    requires w != u
    ensures IsRun(GENESIS, es) && RunsTwice(After(GENESIS, es), j, w, u)
  {
    var v;
    es, v := Submitted(w, j, body);
    es, v := Claimed(es, w, v, Payload(j, 0, body));
    assert List(After(GENESIS, es), u) == [];
    es := StartupRehydrates(es, w, v, m, j, body);
    es := SecondWorkerClaims(es, Payload(j, 0, body), w, u);
  }
}
