/** The worker's log is a run: woven into what the other processes do in between, the
    steps that the loop records form a run of the protocol's state machine. */
module Weaving {
  import opened Protocol
  import opened Contracts
  import opened Worker
  import Soundness

  function EventOf(w: WorkerId, own: Own): Event {
    match own
    case Main(a) => OfWorker(w, a)
    case Retry(r) => OfRetry(w, r)
  }

  /** No event is one of w's own. */
  predicate OthersOnly(es: seq<Event>, w: WorkerId) {
    forall i :: 0 <= i < |es| ==>
      match es[i]
      case OfWorker(u, _) => u != w
      case OfRetry(u, _) => u != w
      case _ => true
  }

  lemma {:induction false} RunConcat(s: World, es: seq<Event>, fs: seq<Event>)
    requires IsRun(s, es) && IsRun(After(s, es), fs)
    ensures IsRun(s, es + fs) && After(s, es + fs) == After(After(s, es), fs)
    decreases |fs|
  {
    if fs == [] {
      assert es + fs == es;
    } else {
      RunConcat(s, es, Before(fs));
      RunSnoc(s, es + Before(fs), Last(fs));
      assert es + Before(fs) + [Last(fs)] == es + fs;
    }
  }

  lemma OthersKeepPhase(s: World, e: Event, w: WorkerId)
    requires Enabled(s, e) && OthersOnly([e], w)
    ensures PhaseOf(Apply(s, e), w) == PhaseOf(s, w)
  {
    assert [e][0] == e;
    match e
    case OfGateway(j, g) => Soundness.GatewayOwnSphere(s, j, g);
    case OfWorker(_, _) =>
    case OfRetry(_, _) =>
    case OfReaper(c) => Soundness.ReaperOwnSphere(s, c);
    case OfStartup(m, u) => Soundness.StartupOwnSphere(s, m, u);
  }

  lemma {:induction false} GapKeepsPhase(s: World, gap: seq<Event>, w: WorkerId)
    requires IsRun(s, gap) && OthersOnly(gap, w)
    ensures PhaseOf(After(s, gap), w) == PhaseOf(s, w)
    decreases |gap|
  {
    if gap != [] {
      GapKeepsPhase(s, Before(gap), w);
      OthersKeepPhase(After(s, Before(gap)), Last(gap), w);
    }
  }

  lemma Ends<T>(s: seq<T>)
    requires s != []
    ensures s == s[..|s| - 1] + [s[|s| - 1]]
    ensures |s| == 1 ==> s[1..] == [] && s[..|s| - 1] == []
    ensures |s| > 1 ==> s[..|s| - 1][0] == s[0] && s[..|s| - 1][1..] + [s[|s| - 1]] == s[1..]
  {
  }

  lemma ChainSnoc(steps: seq<Step>, last: Step, from: Phase)
    requires IsStep(last) && Chain(steps, from, last.before.phase)
    ensures Chain(steps + [last], from, last.after.phase)
  {
    assert (steps + [last])[..|steps|] == steps;
  }

  lemma {:induction false} ChainFirst(steps: seq<Step>, from: Phase, to: Phase)
    requires Chain(steps, from, to) && steps != []
    ensures IsStep(steps[0]) && steps[0].before.phase == from
    ensures Chain(steps[1..], steps[0].after.phase, to)
    decreases |steps|
  {
    var front, last := steps[..|steps| - 1], steps[|steps| - 1];
    Ends(steps);
    if |steps| > 1 {
      ChainFirst(front, from, last.before.phase);
      ChainSnoc(front[1..], last, front[0].after.phase);
    }
  }

  /** What the worker could not know of when it recorded the step: the stores are as
      it found them. */
  predicate Finds(s: World, w: WorkerId, v: View) {
    Look(s, w).(phase := v.phase) == v
  }

  /** Before each step other processes run, and they leave the stores as the worker
      then found them. */
  ghost predicate Amid(s: World, w: WorkerId, steps: seq<Step>, gaps: seq<seq<Event>>)
    decreases |steps|
  {
    |gaps| == |steps| && (steps != [] ==>
      && IsRun(s, gaps[0]) && OthersOnly(gaps[0], w)
      && Finds(After(s, gaps[0]), w, steps[0].before)
      && (Enabled(After(s, gaps[0]), EventOf(w, steps[0].own)) ==>
            Amid(Apply(After(s, gaps[0]), EventOf(w, steps[0].own)), w, steps[1..], gaps[1..])))
  }

  function Woven(w: WorkerId, steps: seq<Step>, gaps: seq<seq<Event>>): seq<Event>
    requires |gaps| == |steps|
    decreases |steps|
  {
    if steps == [] then [] else gaps[0] + [EventOf(w, steps[0].own)] + Woven(w, steps[1..], gaps[1..])
  }

  /** One gap and the step behind it. */
  lemma FirstWoven(s: World, w: WorkerId, gap: seq<Event>, step: Step)
    requires IsRun(s, gap) && OthersOnly(gap, w) && IsStep(step)
    requires Finds(After(s, gap), w, step.before) && step.before.phase == PhaseOf(s, w)
    ensures Enabled(After(s, gap), EventOf(w, step.own)) && IsRun(s, gap + [EventOf(w, step.own)])
    ensures After(s, gap + [EventOf(w, step.own)]) == Apply(After(s, gap), EventOf(w, step.own))
    ensures Look(After(s, gap + [EventOf(w, step.own)]), w) == step.after
  {
    GapKeepsPhase(s, gap, w);
    StepIsProtocolStep(After(s, gap), w, step);
    RunSnoc(s, gap, EventOf(w, step.own));
  }

  /** The steps a worker's loop records, woven into what the others do in between, are
      a run of the protocol, at the end of which the worker is where its log says. */
  lemma {:induction false} WovenIsRun(s: World, w: WorkerId, steps: seq<Step>, gaps: seq<seq<Event>>, to: Phase)
    requires Chain(steps, PhaseOf(s, w), to) && Amid(s, w, steps, gaps)
    ensures IsRun(s, Woven(w, steps, gaps)) && PhaseOf(After(s, Woven(w, steps, gaps)), w) == to
    decreases |steps|
  {
    if steps != [] {
      ChainFirst(steps, PhaseOf(s, w), to);
      FirstWoven(s, w, gaps[0], steps[0]);
      var first := gaps[0] + [EventOf(w, steps[0].own)];
      WovenIsRun(After(s, first), w, steps[1..], gaps[1..], to);
      RunConcat(s, first, Woven(w, steps[1..], gaps[1..]));
    }
  }
}
