/** The state machine against the code, process by process: left alone, the machine's
    reaper, starting monitor and gateway handler do exactly what the code's contract
    says, wherever they stop, and can do all of it. */
module Undisturbed {
  import opened Contracts
  import opened RedisList
  import opened Protocol
  import opened Recovery
  import opened StartupRecovery
  import opened Submission
  import opened Store

  lemma FirstEvent(s: World, e: Event)
    requires Enabled(s, e)
    ensures IsRun(s, [e]) && After(s, [e]) == Apply(s, e)
  {
    RunSnoc(s, [], e);
    assert [] + [e] == [e];
  }

  // ── the reaper ───────────────────────────────────────────────────────────

  /** One recovery of a dead worker's list, and no other process. */
  predicate IsPass(es: seq<Event>, dead: WorkerId) {
    && es != [] && es[0] == OfReaper(Read(dead))
    && forall i :: 0 < i < |es| ==> es[i].OfReaper? && !es[i].c.Read?
  }

  /** k entries of the dead worker's list have been dealt with; `half`: the tables also
      reflect the next one. */
  ghost predicate PassedTo(s: World, s': World, dead: WorkerId, k: nat, half: bool) {
    var list, t := List(s, dead), Tables(s.rows, s.results);
    && k + One(half) <= |list|
    && Tables(s'.rows, s'.results) == SettleAll(t, list[..k + One(half)])
    && s'.pending == PushAll(s.pending, Requeues(t, list[..k]))
    && s'.deadLetter == PushAll(s.deadLetter, Burials(t, list[..k]))
  }

  /** Where the reaper then stands. */
  ghost predicate StandsAt(s: World, s': World, dead: WorkerId, k: nat, half: bool)
    requires PassedTo(s, s', dead, k, half)
  {
    var list := List(s, dead);
    if s'.reaper.Resting? then
      s'.processing == s.processing || (k == |list| && s'.processing == s.processing[dead := []])
    else
      && s'.processing == s.processing
      && s'.reaper.dead == dead && s'.reaper.entries == list && s'.reaper.at == k
      && (half <==> s'.reaper.stage.EntryReset? || s'.reaper.stage.EntryBuried?)
      && (s'.reaper.stage.AtEntry? || (k < |list| && StageFits(s, s'.reaper.stage, list, k)))
  }

  /** The entry in hand was open when its turn came, and is on the right branch. */
  ghost predicate StageFits(s: World, stage: Stage, list: seq<Payload>, k: nat)
    requires k < |list|
  {
    && !IsClosed(SettleAll(Tables(s.rows, s.results), list[..k]).rows, list[k].job)
    && (stage.EntryReset? ==> !Exhausted(list[k]))
    && (stage.EntryBuried? ==> Exhausted(list[k]))
  }

  /** After the step, this much has been dealt with. */
  ghost predicate Advances(s: World, s': World, c: ReaperEvent, dead: WorkerId, k: nat, half: bool)
    requires ReaperEnabled(s', c)
  {
    PassedTo(s, ReaperStep(s', c), dead, k, half) && StandsAt(s, ReaperStep(s', c), dead, k, half)
  }

  lemma PassSkips(s: World, s': World, dead: WorkerId, c: ReaperEvent, k: nat, half: bool)
    requires PassedTo(s, s', dead, k, half) && StandsAt(s, s', dead, k, half)
    requires ReaperEnabled(s', c) && (c.Skip?)
    ensures Advances(s, s', c, dead, k + 1, false)
  {
    PassPushes(Tables(s.rows, s.results), List(s, dead), k, s.pending, s.deadLetter);
  }

  lemma PassSees(s: World, s': World, dead: WorkerId, c: ReaperEvent, k: nat, half: bool)
    requires PassedTo(s, s', dead, k, half) && StandsAt(s, s', dead, k, half)
    requires ReaperEnabled(s', c) && (c.See?)
    ensures Advances(s, s', c, dead, k, false)
  {
  }

  lemma OpenSettles(t: Tables, list: seq<Payload>, k: nat)
    requires k < |list| && !IsClosed(SettleAll(t, list[..k]).rows, list[k].job)
    ensures
      var u, p := SettleAll(t, list[..k]), list[k];
      SettleAll(t, list[..k + 1]) ==
      if Exhausted(p) then Tables(WithStatus(u.rows, p.job, Failed), u.results[p.job := Some(WorkerCrash)])
      else Tables(ResetTo(u.rows, p.job, p.retry + 1), u.results)
  {
    PassSnoc(t, list, k);
  }

  lemma PassResets(s: World, s': World, dead: WorkerId, k: nat)
    requires PassedTo(s, s', dead, k, false) && StandsAt(s, s', dead, k, false)
    requires ReaperEnabled(s', ResetEntry)
    ensures Advances(s, s', ResetEntry, dead, k, true)
  {
    OpenSettles(Tables(s.rows, s.results), List(s, dead), k);
  }

  lemma PassCommits(s: World, s': World, dead: WorkerId, k: nat)
    requires PassedTo(s, s', dead, k, false) && StandsAt(s, s', dead, k, false)
    requires ReaperEnabled(s', BuryEntry)
    ensures Advances(s, s', BuryEntry, dead, k, true)
  {
    OpenSettles(Tables(s.rows, s.results), List(s, dead), k);
  }

  lemma PassRequeues(s: World, s': World, dead: WorkerId, c: ReaperEvent, k: nat, half: bool)
    requires PassedTo(s, s', dead, k, half) && StandsAt(s, s', dead, k, half)
    requires ReaperEnabled(s', c) && (c.PushEntry?)
    ensures Advances(s, s', c, dead, k + 1, false)
  {
    PassPushes(Tables(s.rows, s.results), List(s, dead), k, s.pending, s.deadLetter);
  }

  lemma PassBuries(s: World, s': World, dead: WorkerId, c: ReaperEvent, k: nat, half: bool)
    requires PassedTo(s, s', dead, k, half) && StandsAt(s, s', dead, k, half)
    requires ReaperEnabled(s', c) && (c.DeadLetterEntry?)
    ensures Advances(s, s', c, dead, k + 1, false)
  {
    PassPushes(Tables(s.rows, s.results), List(s, dead), k, s.pending, s.deadLetter);
  }

  lemma PassEnds(s: World, s': World, dead: WorkerId, c: ReaperEvent, k: nat, half: bool)
    requires PassedTo(s, s', dead, k, half) && StandsAt(s, s', dead, k, half)
    requires ReaperEnabled(s', c) && (c.Delete? || c.Stop?)
    ensures Advances(s, s', c, dead, k, half)
  {
    assert List(s, dead)[..|List(s, dead)|] == List(s, dead);
  }

  lemma PassStep(s: World, s': World, dead: WorkerId, c: ReaperEvent, k: nat, half: bool)
    returns (n: nat, more: bool)
    requires PassedTo(s, s', dead, k, half) && StandsAt(s, s', dead, k, half)
    requires ReaperEnabled(s', c) && !c.Read?
    ensures Advances(s, s', c, dead, n, more)
    ensures n == if c.Skip? || c.PushEntry? || c.DeadLetterEntry? then k + 1 else k
    ensures more == if c.Delete? || c.Stop? then half else c.ResetEntry? || c.BuryEntry?
  {
    n := if c.Skip? || c.PushEntry? || c.DeadLetterEntry? then k + 1 else k;
    more := if c.Delete? || c.Stop? then half else c.ResetEntry? || c.BuryEntry?;
    match c
    case Skip => PassSkips(s, s', dead, c, k, half);
    case See => PassSees(s, s', dead, c, k, half);
    case ResetEntry => PassResets(s, s', dead, k);
    case BuryEntry => PassCommits(s, s', dead, k);
    case PushEntry => PassRequeues(s, s', dead, c, k, half);
    case DeadLetterEntry => PassBuries(s, s', dead, c, k, half);
    case Delete => PassEnds(s, s', dead, c, k, half);
    case Stop => PassEnds(s, s', dead, c, k, half);
  }

  /** Whatever the machine's reaper does in a pass of its own, and wherever it stops, it
      has done what recoverJobsFromDeadWorker does to a prefix of the list. */
  lemma {:induction false} PassMeetsCode(s: World, es: seq<Event>, dead: WorkerId) returns (k: nat, half: bool)
    requires IsRun(s, es) && IsPass(es, dead)
    ensures PassedTo(s, After(s, es), dead, k, half) && StandsAt(s, After(s, es), dead, k, half)
    decreases |es|
  {
    if |es| == 1 {
      k, half := 0, false;
      assert Before(es) == [];
    } else {
      k, half := PassMeetsCode(s, Before(es), dead);
      k, half := PassStep(s, After(s, Before(es)), dead, Last(es).c, k, half);
    }
  }

  /** A pass under way, its reaper at the beginning of the k-th entry. */
  ghost predicate AtEntryOf(s: World, es: seq<Event>, dead: WorkerId, k: nat) {
    && IsRun(s, es) && IsPass(es, dead)
    && PassedTo(s, After(s, es), dead, k, false) && StandsAt(s, After(s, es), dead, k, false)
    && After(s, es).reaper.Recovering? && After(s, es).reaper.stage.AtEntry?
  }

  lemma ExtendPass(s: World, es: seq<Event>, dead: WorkerId, c: ReaperEvent) returns (fs: seq<Event>)
    requires IsRun(s, es) && IsPass(es, dead) && ReaperEnabled(After(s, es), c) && !c.Read?
    ensures IsRun(s, fs) && IsPass(fs, dead) && After(s, fs) == ReaperStep(After(s, es), c)
  {
    RunSnoc(s, es, OfReaper(c));
    fs := es + [OfReaper(c)];
  }

  lemma NextEntry(s: World, es: seq<Event>, dead: WorkerId, k: nat) returns (fs: seq<Event>)
    requires AtEntryOf(s, es, dead, k) && k < |List(s, dead)|
    ensures AtEntryOf(s, fs, dead, k + 1)
  {
    var t := After(s, es);
    if IsClosed(t.rows, Entry(t).job) {
      PassSkips(s, t, dead, Skip, k, false);
      fs := ExtendPass(s, es, dead, Skip);
    } else {
      PassSees(s, t, dead, See, k, false);
      fs := ExtendPass(s, es, dead, See);
      fs := OpenEntry(s, fs, dead, k);
    }
  }

  lemma OpenEntry(s: World, es: seq<Event>, dead: WorkerId, k: nat) returns (fs: seq<Event>)
    requires IsRun(s, es) && IsPass(es, dead)
    requires PassedTo(s, After(s, es), dead, k, false) && StandsAt(s, After(s, es), dead, k, false)
    requires AtStage(After(s, es), EntryOpen)
    ensures AtEntryOf(s, fs, dead, k + 1)
  {
    var t := After(s, es);
    if Exhausted(Entry(t)) {
      PassCommits(s, t, dead, k);
      PassBuries(s, ReaperStep(t, BuryEntry), dead, DeadLetterEntry, k, true);
      fs := ExtendPass(s, es, dead, BuryEntry);
      fs := ExtendPass(s, fs, dead, DeadLetterEntry);
    } else {
      PassResets(s, t, dead, k);
      PassRequeues(s, ReaperStep(t, ResetEntry), dead, PushEntry, k, true);
      fs := ExtendPass(s, es, dead, ResetEntry);
      fs := ExtendPass(s, fs, dead, PushEntry);
    }
  }

  lemma {:induction false} PassReaches(s: World, dead: WorkerId, k: nat) returns (es: seq<Event>)
    requires ReaperEnabled(s, Read(dead)) && k <= |List(s, dead)|
    ensures AtEntryOf(s, es, dead, k)
    decreases k
  {
    if k == 0 {
      FirstEvent(s, OfReaper(Read(dead)));
      es := [OfReaper(Read(dead))];
    } else {
      es := PassReaches(s, dead, k - 1);
      es := NextEntry(s, es, dead, k - 1);
    }
  }

  /** And it can get through: a pass of its own that settles and deletes the list. */
  lemma PassGetsThrough(s: World, dead: WorkerId) returns (es: seq<Event>)
    requires s.reaper.Resting? && dead in s.workers && s.workers[dead].Crashed?
    ensures IsRun(s, es) && IsPass(es, dead)
    ensures PassedTo(s, After(s, es), dead, |List(s, dead)|, false)
    ensures After(s, es).reaper.Resting? && List(After(s, es), dead) == []
  {
    es := PassReaches(s, dead, |List(s, dead)|);
    PassEnds(s, After(s, es), dead, Delete, |List(s, dead)|, false);
    es := ExtendPass(s, es, dead, Delete);
  }

  // ── a starting monitor ───────────────────────────────────────────────────

  /** One start of a monitor, and no other process. */
  predicate IsStart(es: seq<Event>, m: MonitorId) {
    && es != [] && es[0] == OfStartup(m, ResetRunning)
    && forall i :: 0 < i < |es| ==> es[i].OfStartup? && es[i].m == m && !es[i].u.ResetRunning?
  }

  /** The RUNNING rows are reset, and k listed rows are on the list, if it was empty. */
  ghost predicate StartedTo(s: World, s': World, answer: seq<JobId>, k: nat) {
    && s'.rows == AllReset(s.rows) && s'.results == s.results
    && s'.processing == s.processing && s'.deadLetter == s.deadLetter
    && k <= |answer| && (answer != [] ==> s.pending == [] && IsPendingListing(AllReset(s.rows), answer))
    && (forall j :: j in answer ==> j in AllReset(s.rows))
    && s'.pending == PushAll(s.pending, Rehydration(AllReset(s.rows), answer)[..k])
  }

  ghost predicate StartStands(s: World, s': World, m: MonitorId, answer: seq<JobId>, k: nat)
    requires StartedTo(s, s', answer, k)
  {
    m in s'.startups ==>
      match s'.startups[m]
      case BeforeLen => answer == []
      case BeforeSelect => answer == [] && s.pending == []
      case Rehydrating(rest) => s.pending == [] && rest == Rehydration(AllReset(s.rows), answer)[k..]
  }

  /** After the step, this is the answer it got, and this much has been pushed. */
  ghost predicate StartAdvances(s: World, s': World, m: MonitorId, u: StartupEvent, answer: seq<JobId>, k: nat)
    requires StartupEnabled(s', m, u)
  {
    StartedTo(s, StartupStep(s', m, u), answer, k) && StartStands(s, StartupStep(s', m, u), m, answer, k)
  }

  lemma StartSelects(s: World, s': World, m: MonitorId, answer: seq<JobId>)
    requires StartedTo(s, s', [], 0) && StartStands(s, s', m, [], 0)
    requires StartupEnabled(s', m, Select(answer))
    ensures StartAdvances(s, s', m, Select(answer), answer, 0)
  {
    assert Rehydration(AllReset(s.rows), answer)[..0] == [];
  }

  lemma StartPushes(s: World, s': World, m: MonitorId, answer: seq<JobId>, k: nat)
    requires StartedTo(s, s', answer, k) && StartStands(s, s', m, answer, k) && StartupEnabled(s', m, PushRow)
    ensures StartAdvances(s, s', m, PushRow, answer, k + 1)
  {
    var all := Rehydration(AllReset(s.rows), answer);
    assert all[..k + 1] == all[..k] + [all[k]];
    PushAllSnoc(s.pending, all[..k], all[k]);
  }

  lemma StartStep(s: World, s': World, m: MonitorId, u: StartupEvent, answer: seq<JobId>, k: nat)
    returns (more: seq<JobId>, n: nat)
    requires StartedTo(s, s', answer, k) && StartStands(s, s', m, answer, k)
    requires StartupEnabled(s', m, u) && !u.ResetRunning?
    ensures StartAdvances(s, s', m, u, more, n)
  {
    more, n := if u.Select? then u.answer else answer, if u.PushRow? then k + 1 else k;
    if u.Select? {
      StartSelects(s, s', m, u.answer);
    } else if u.PushRow? {
      StartPushes(s, s', m, answer, k);
    }
  }

  /** Whatever a starting monitor does undisturbed, and wherever it dies, it has done
      what recoverOrphanedJobsOnStartup does with some correct answer to its SELECT. */
  lemma {:induction false} StartMeetsCode(s: World, es: seq<Event>, m: MonitorId) returns (answer: seq<JobId>, k: nat)
    requires IsRun(s, es) && IsStart(es, m)
    ensures StartedTo(s, After(s, es), answer, k) && StartStands(s, After(s, es), m, answer, k)
    decreases |es|
  {
    if |es| == 1 {
      answer, k := [], 0;
      assert Before(es) == [];
    } else {
      answer, k := StartMeetsCode(s, Before(es), m);
      answer, k := StartStep(s, After(s, Before(es)), m, Last(es).u, answer, k);
    }
  }

  lemma ExtendStart(s: World, es: seq<Event>, m: MonitorId, u: StartupEvent) returns (fs: seq<Event>)
    requires IsRun(s, es) && IsStart(es, m) && StartupEnabled(After(s, es), m, u) && !u.ResetRunning?
    ensures IsRun(s, fs) && IsStart(fs, m) && After(s, fs) == StartupStep(After(s, es), m, u)
  {
    RunSnoc(s, es, OfStartup(m, u));
    fs := es + [OfStartup(m, u)];
  }

  lemma StartBegins(s: World, m: MonitorId) returns (es: seq<Event>)
    requires m !in s.startups && s.pending == []
    ensures IsRun(s, es) && IsStart(es, m)
    ensures StartedTo(s, After(s, es), [], 0) && StartStands(s, After(s, es), m, [], 0)
    ensures m in After(s, es).startups && After(s, es).startups[m].BeforeSelect?
  {
    FirstEvent(s, OfStartup(m, ResetRunning));
    es := [OfStartup(m, ResetRunning)];
    es := ExtendStart(s, es, m, Length);
  }

  /** And it can get as far as it likes: with an empty list, any number of the rows that
      any correct answer names are pushed. */
  lemma {:induction false} StartReaches(s: World, m: MonitorId, answer: seq<JobId>, k: nat) returns (es: seq<Event>)
    requires m !in s.startups && s.pending == [] && IsPendingListing(AllReset(s.rows), answer) && k <= |answer|
    ensures IsRun(s, es) && IsStart(es, m)
    ensures StartedTo(s, After(s, es), answer, k) && StartStands(s, After(s, es), m, answer, k)
    ensures m in After(s, es).startups && After(s, es).startups[m].Rehydrating?
    decreases k
  {
    if k == 0 {
      es := StartBegins(s, m);
      StartSelects(s, After(s, es), m, answer);
      es := ExtendStart(s, es, m, Select(answer));
    } else {
      es := StartReaches(s, m, answer, k - 1);
      StartPushes(s, After(s, es), m, answer, k - 1);
      es := ExtendStart(s, es, m, PushRow);
    }
  }

  // ── a gateway handler ────────────────────────────────────────────────────

  /** One submission, and no other process. */
  predicate IsSubmission(es: seq<Event>, j: JobId, body: Body) {
    && es != [] && es[0] == OfGateway(j, Insert(body))
    && forall i :: 0 < i < |es| ==> es[i].OfGateway? && es[i].job == j
  }

  /** What Submit does to the stores when its calls turn out like this. */
  predicate Submitted(s: World, s': World, j: JobId, body: Body, r: Replies) {
    && s'.pending == (if PushHappens(r) then LPush(s.pending, Payload(j, 0, body)) else s.pending)
    && s'.rows == s.rows[j := Row(if MarkHappens(r) then Failed else Pending, 0, body)]
    && s'.results ==
         (if MarkHappens(r) && r.mark.Fine? && !r.record.RequestLost? then s.results[j := Some(Unknown)] else s.results)
    && s'.processing == s.processing && s'.deadLetter == s.deadLetter
  }

  /** The phase a handler with these replies is in, if it has not ended. */
  predicate HandlerAt(g: Gateway, p: Payload, r: Replies) {
    match g
    case Inserted(q) => q == p && r.insert.ReplyLost?
    case Pushed(q) => q == p && Enqueued(r)
    case Refusing(q) => q == p && r.insert.Fine? && !Enqueued(r) && r.mark.RequestLost?
    case Refused(q) => q == p && MarkHappens(r) && r.mark.ReplyLost?
  }

  lemma SubmitStep(s: World, s': World, j: JobId, body: Body, g: GatewayEvent, r: Replies) returns (next: Replies)
    requires Submitted(s, s', j, body, r) && (j in s'.gateways ==> HandlerAt(s'.gateways[j], Payload(j, 0, body), r))
    requires GatewayEnabled(s', j, g)
    ensures Submitted(s, GatewayStep(s', j, g), j, body, next)
    ensures
      var t := GatewayStep(s', j, g);
      j in t.gateways ==> HandlerAt(t.gateways[j], Payload(j, 0, body), next)
  {
    next := match g
      case Insert(_) => r
      case Push => Replies(Fine, Fine, Fine, Fine, Fine)
      case Reply => r
      case Refuse =>
        Replies(Fine, if s'.gateways[j].Pushed? then ReplyLost else RequestLost, Fine, RequestLost, Fine)
      case MarkFailed => r.(mark := ReplyLost)
      case RecordUnknown => r.(mark := Fine, record := Fine)
      case Vanish => r;
  }

  /** Whatever a handler does undisturbed, and wherever it dies, it has done what
      POST /submissions does when its calls turn out in some way. */
  lemma {:induction false} SubmissionMeetsCode(s: World, es: seq<Event>, j: JobId, body: Body) returns (r: Replies)
    requires IsRun(s, es) && IsSubmission(es, j, body)
    ensures Submitted(s, After(s, es), j, body, r)
    ensures j in After(s, es).gateways ==> HandlerAt(After(s, es).gateways[j], Payload(j, 0, body), r)
    decreases |es|
  {
    if |es| == 1 {
      r := Replies(ReplyLost, Fine, Fine, Fine, Fine);
      assert Before(es) == [];
    } else {
      r := SubmissionMeetsCode(s, Before(es), j, body);
      r := SubmitStep(s, After(s, Before(es)), j, body, Last(es).g, r);
    }
  }

  lemma ExtendSubmission(s: World, es: seq<Event>, j: JobId, body: Body, g: GatewayEvent) returns (fs: seq<Event>)
    requires IsRun(s, es) && IsSubmission(es, j, body) && GatewayEnabled(After(s, es), j, g)
    ensures IsRun(s, fs) && IsSubmission(fs, j, body) && After(s, fs) == GatewayStep(After(s, es), j, g)
  {
    RunSnoc(s, es, OfGateway(j, g));
    fs := es + [OfGateway(j, g)];
  }

  /** And it can do what the code does, however the calls turn out. */
  lemma EverySubmissionRuns(s: World, j: JobId, body: Body, r: Replies) returns (es: seq<Event>)
    requires j !in s.rows && j !in s.gateways && !r.insert.RequestLost?
    ensures IsRun(s, es) && IsSubmission(es, j, body)
    ensures Submitted(s, After(s, es), j, body, r)
  {
    FirstEvent(s, OfGateway(j, Insert(body)));
    es := [OfGateway(j, Insert(body))];
    if PushHappens(r) { es := ExtendSubmission(s, es, j, body, Push); }
    if r.insert.Fine? && !Enqueued(r) { es := RefusalRuns(s, es, j, body, r); }
  }

  lemma RefusalRuns(s: World, es: seq<Event>, j: JobId, body: Body, r: Replies) returns (fs: seq<Event>)
    requires IsRun(s, es) && IsSubmission(es, j, body) && r.insert.Fine? && !Enqueued(r)
    requires Submitted(s, After(s, es), j, body, r.(mark := RequestLost)) && GatewayEnabled(After(s, es), j, Refuse)
    ensures IsRun(s, fs) && IsSubmission(fs, j, body) && Submitted(s, After(s, fs), j, body, r)
  {
    RefusalSteps(s, After(s, es), j, body, r);
    fs := ExtendSubmission(s, es, j, body, Refuse);
    if !r.mark.RequestLost? {
      fs := ExtendSubmission(s, fs, j, body, MarkFailed);
      if r.mark.Fine? && !r.record.RequestLost? { fs := ExtendSubmission(s, fs, j, body, RecordUnknown); }
    }
  }

  lemma RefusalSteps(s: World, t: World, j: JobId, body: Body, r: Replies)
    requires r.insert.Fine? && !Enqueued(r)
    requires Submitted(s, t, j, body, r.(mark := RequestLost)) && GatewayEnabled(t, j, Refuse)
    ensures
      var u := GatewayStep(t, j, Refuse);
      && (r.mark.RequestLost? ==> Submitted(s, u, j, body, r))
      && (!r.mark.RequestLost? ==>
            && GatewayEnabled(u, j, MarkFailed)
            && var v := GatewayStep(u, j, MarkFailed);
               && GatewayEnabled(v, j, RecordUnknown)
               && Submitted(s, if r.mark.Fine? && !r.record.RequestLost? then GatewayStep(v, j, RecordUnknown) else v,
                            j, body, r))
  {
  }
}
