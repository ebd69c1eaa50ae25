/** Where a process can be interrupted: anywhere. Each may die between any two of its
    commands, and any command may throw; its own state is lost or moved to the error
    path, the stores stay as they are. */
module Interruptions {
  import opened Contracts
  import opened Protocol

  /** The stores and everybody else's state are the same. */
  ghost predicate SameStores(s: World, t: World) {
    && t.rows == s.rows && t.results == s.results && t.pending == s.pending && t.deadLetter == s.deadLetter
    && (forall w :: List(t, w) == List(s, w))
  }

  /** A worker that is not dead may die: its list stays for the reaper. */
  lemma WorkerMayDie(s: World, w: WorkerId)
    requires w in s.workers && s.workers[w] != Crashed
    ensures Enabled(s, OfWorker(w, Crash)) && SameStores(s, Apply(s, OfWorker(w, Crash)))
    ensures Apply(s, OfWorker(w, Crash)).workers == s.workers[w := Crashed]
    ensures Apply(s, OfWorker(w, Crash)).gateways == s.gateways && Apply(s, OfWorker(w, Crash)).reaper == s.reaper
  {
  }

  ghost predicate MovesTo(s: World, e: Event, w: WorkerId, phase: Phase) {
    Enabled(s, e) && SameStores(s, Apply(s, e)) && Apply(s, e).workers == s.workers[w := phase]
  }

  lemma MainMayThrow(s: World, w: WorkerId)
    requires w in s.workers && InTry(s.workers[w])
    ensures MovesTo(s, OfWorker(w, Fail), w, Failing(s.workers[w].raw, !s.workers[w].Acked?))
  {
  }

  lemma RetryMayThrow(s: World, w: WorkerId)
    requires w in s.workers && InCatch(s.workers[w])
    ensures MovesTo(s, OfRetry(w, Abandon), w, Idle)
  {
  }

  /** Whatever a worker with a payload does, it may throw: before the outer catch block
      that starts a retry, inside it that gives the retry up. */
  lemma WorkerMayThrow(s: World, w: WorkerId)
    requires w in s.workers && !s.workers[w].Idle? && !s.workers[w].Crashed?
    ensures
      var phase := s.workers[w];
      if phase.Failing? || phase.Backoff? || phase.Requeued?
         || phase.DlqOpen? || phase.DlqCommitted? || phase.DlqPushed?
      then MovesTo(s, OfRetry(w, Abandon), w, Idle)
      else MovesTo(s, OfWorker(w, Fail), w, Failing(phase.raw, !phase.Acked?))
  {
    if InTry(s.workers[w]) { MainMayThrow(s, w); } else { RetryMayThrow(s, w); }
  }

  /** A handler may vanish, a reaper stop and a starting monitor leave at any time. */
  lemma OthersMayStop(s: World, j: JobId, m: MonitorId)
    ensures j in s.gateways ==>
              Enabled(s, OfGateway(j, Vanish)) && Apply(s, OfGateway(j, Vanish)) == s.(gateways := s.gateways - {j})
    ensures s.reaper != Resting ==>
              Enabled(s, OfReaper(Stop)) && Apply(s, OfReaper(Stop)) == s.(reaper := Resting)
    ensures m in s.startups ==>
              Enabled(s, OfStartup(m, Leave)) && Apply(s, OfStartup(m, Leave)) == s.(startups := s.startups - {m})
  {
  }
}
