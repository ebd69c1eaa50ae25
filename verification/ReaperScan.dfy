/** One full cycle of the reaper: lock, two key scans, comparison, recovery of every
    dead worker, and the release of the lock in the finally block. */
module ReaperScan {
  import opened Contracts
  import opened RedisList
  import opened Store
  import opened Recovery
  import opened ReaperLock
  import Detection

  /** One reply of SCAN: the next cursor, and some keys. */
  datatype Page = Page(cursor: nat, found: seq<string>)

  /** The replies of one iteration: cursor 0 comes last and only last. */
  predicate IsIteration(pages: seq<Page>) {
    && pages != []
    && forall i :: 0 <= i < |pages| ==> (pages[i].cursor == 0 <==> i == |pages| - 1)
  }

  function AllFound(pages: seq<Page>): seq<string> {
    if pages == [] then [] else AllFound(pages[..|pages| - 1]) + pages[|pages| - 1].found
  }

  /** The do-while loop: SCAN from cursor 0 until the server answers 0 again. */
  method ScanKeys(pages: seq<Page>) returns (keys: seq<string>)
    requires IsIteration(pages)
    ensures keys == AllFound(pages)
  {
    keys := pages[0].found;
    var cursor, asked := pages[0].cursor, 1;
    assert pages[..1][..0] == [];
    while cursor != 0
      invariant 1 <= asked <= |pages| && cursor == pages[asked - 1].cursor
      invariant keys == AllFound(pages[..asked])
      decreases |pages| - asked
    {
      assert pages[..asked + 1][..asked] == pages[..asked];
      keys := keys + pages[asked].found;
      cursor := pages[asked].cursor;
      asked := asked + 1;
    }
    assert pages[..asked] == pages;
  }

  /** Page by page, in order. */
  lemma {:induction false} FoundInOrder(a: seq<Page>, b: seq<Page>)
    ensures AllFound(a + b) == AllFound(a) + AllFound(b)
    ensures forall page :: AllFound([page]) == page.found
    decreases |b|
  {
    forall page
      ensures AllFound([page]) == page.found
    {
      assert [page][..0] == [];
    }
    if b == [] {
      assert a + b == a;
    } else {
      FoundInOrder(a, b[..|b| - 1]);
      assert (a + b)[..|a + b| - 1] == a + b[..|b| - 1];
    }
  }

  lemma {:induction false} FoundByPage(pages: seq<Page>, key: string)
    ensures key in AllFound(pages) <==> Returned(pages, key)
    decreases |pages|
  {
    if pages != [] {
      var front := pages[..|pages| - 1];
      FoundByPage(front, key);
      assert forall i :: 0 <= i < |front| ==> front[i] == pages[i];
      assert Returned(front, key) ==> Returned(pages, key);
    }
  }

  type Lists = map<WorkerId, seq<Payload>>

  function ListOf(lists: Lists, w: WorkerId): seq<Payload> {
    if w in lists then lists[w] else []
  }

  /** Recovery of several workers, one after the other. */
  function SettleFleet(t: Tables, lists: Lists, dead: seq<WorkerId>): Tables {
    if dead == [] then t
    else SettleAll(SettleFleet(t, lists, dead[..|dead| - 1]), ListOf(lists, dead[|dead| - 1]))
  }

  /** What recovering them pushes to pending, and to dead-letter. */
  function FleetRequeues(t: Tables, lists: Lists, dead: seq<WorkerId>): seq<Payload> {
    if dead == [] then []
    else
      var front := dead[..|dead| - 1];
      FleetRequeues(t, lists, front) + Requeues(SettleFleet(t, lists, front), ListOf(lists, dead[|dead| - 1]))
  }

  function FleetBurials(t: Tables, lists: Lists, dead: seq<WorkerId>): seq<Payload> {
    if dead == [] then []
    else
      var front := dead[..|dead| - 1];
      FleetBurials(t, lists, front) + Burials(SettleFleet(t, lists, front), ListOf(lists, dead[|dead| - 1]))
  }

  lemma {:induction false} PushAllConcat(list: seq<Payload>, a: seq<Payload>, b: seq<Payload>)
    ensures PushAll(list, a + b) == PushAll(PushAll(list, a), b)
    decreases |b|
  {
    if b == [] {
      assert a + b == a;
    } else {
      PushAllConcat(list, a, b[..|b| - 1]);
      assert (a + b)[..|a + b| - 1] == a + b[..|b| - 1];
    }
  }

  /** Recovering several workers in turn is one pass over their lists put together. */
  function AllEntries(lists: Lists, dead: seq<WorkerId>): seq<Payload> {
    if dead == [] then [] else ListOf(lists, dead[0]) + AllEntries(lists, dead[1..])
  }

  lemma {:induction false} AllEntriesSnoc(lists: Lists, front: seq<WorkerId>, w: WorkerId)
    ensures AllEntries(lists, front + [w]) == AllEntries(lists, front) + ListOf(lists, w)
    decreases |front|
  {
    if front == [] {
      assert [w][1..] == [] && [] + [w] == [w];
    } else {
      assert (front + [w])[1..] == front[1..] + [w];
      AllEntriesSnoc(lists, front[1..], w);
    }
  }

  lemma {:induction false} PushesInTwo(t: Tables, a: seq<Payload>, b: seq<Payload>)
    ensures Requeues(t, a + b) == Requeues(t, a) + Requeues(SettleAll(t, a), b)
    ensures Burials(t, a + b) == Burials(t, a) + Burials(SettleAll(t, a), b)
    decreases |b|
  {
    if b == [] {
      assert a + b == a;
    } else {
      var front := b[..|b| - 1];
      assert (a + b)[..|a + b| - 1] == a + front;
      PushesInTwo(t, a, front);
      PassInTwo(t, a, front);
    }
  }

  lemma {:induction false} FleetIsOnePass(t: Tables, lists: Lists, dead: seq<WorkerId>)
    ensures SettleFleet(t, lists, dead) == SettleAll(t, AllEntries(lists, dead))
    ensures FleetRequeues(t, lists, dead) == Requeues(t, AllEntries(lists, dead))
    ensures FleetBurials(t, lists, dead) == Burials(t, AllEntries(lists, dead))
    decreases |dead|
  {
    if dead != [] {
      var front, w := dead[..|dead| - 1], dead[|dead| - 1];
      assert dead == front + [w];
      FleetIsOnePass(t, lists, front);
      AllEntriesSnoc(lists, front, w);
      PassInTwo(t, AllEntries(lists, front), ListOf(lists, w));
      PushesInTwo(t, AllEntries(lists, front), ListOf(lists, w));
    }
  }

  /** How far a scan got: so many workers recovered, so many entries of the next one's
      list handled in full; `half` says that the tables also reflect the next entry. */
  datatype Progress = Progress(workers: nat, entries: nat, half: bool)

  predicate IsProgress(lists: Lists, dead: seq<WorkerId>, g: Progress) {
    && g.workers <= |dead|
    && (if g.workers == |dead| then g.entries == 0 && !g.half
        else g.entries + One(g.half) <= |ListOf(lists, dead[g.workers])|)
  }

  /** The list the scan was working on. */
  function Current(lists: Lists, dead: seq<WorkerId>, g: Progress): seq<Payload>
    requires IsProgress(lists, dead, g)
  {
    if g.workers == |dead| then [] else ListOf(lists, dead[g.workers])
  }

  function ReachedTables(t: Tables, lists: Lists, dead: seq<WorkerId>, g: Progress): Tables
    requires IsProgress(lists, dead, g)
  {
    SettleAll(SettleFleet(t, lists, dead[..g.workers]), Current(lists, dead, g)[..g.entries + One(g.half)])
  }

  function ReachedRequeues(t: Tables, lists: Lists, dead: seq<WorkerId>, g: Progress): seq<Payload>
    requires IsProgress(lists, dead, g)
  {
    FleetRequeues(t, lists, dead[..g.workers]) +
    Requeues(SettleFleet(t, lists, dead[..g.workers]), Current(lists, dead, g)[..g.entries])
  }

  function ReachedBurials(t: Tables, lists: Lists, dead: seq<WorkerId>, g: Progress): seq<Payload>
    requires IsProgress(lists, dead, g)
  {
    FleetBurials(t, lists, dead[..g.workers]) +
    Burials(SettleFleet(t, lists, dead[..g.workers]), Current(lists, dead, g)[..g.entries])
  }

  /** The stores after a scan of these workers that got this far. */
  ghost predicate Reached(store: Stores, t: Tables, lists: Lists, pending: seq<Payload>, deadLetter: seq<Payload>,
      dead: seq<WorkerId>, g: Progress)
    requires IsProgress(lists, dead, g)
    reads store
  {
    && Tables(store.rows, store.results) == ReachedTables(t, lists, dead, g)
    && store.pending == PushAll(pending, ReachedRequeues(t, lists, dead, g))
    && store.deadLetter == PushAll(deadLetter, ReachedBurials(t, lists, dead, g))
    && store.processing == lists - Members(dead[..g.workers])
  }

  function Members(ws: seq<WorkerId>): set<WorkerId> {
    set w | w in ws
  }

  /** A scan at the beginning of the n-th worker's list. */
  function Arrived(n: nat): Progress {
    Progress(n, 0, false)
  }

  lemma ArrivedMeans(t: Tables, lists: Lists, dead: seq<WorkerId>, n: nat)
    requires n <= |dead|
    ensures ReachedTables(t, lists, dead, Arrived(n)) == SettleFleet(t, lists, dead[..n])
    ensures ReachedRequeues(t, lists, dead, Arrived(n)) == FleetRequeues(t, lists, dead[..n])
    ensures ReachedBurials(t, lists, dead, Arrived(n)) == FleetBurials(t, lists, dead[..n])
  {
    assert Current(lists, dead, Arrived(n))[..0] == [];
  }

  lemma NothingReached(store: Stores, dead: seq<WorkerId>)
    ensures Reached(store, Tables(store.rows, store.results), store.processing, store.pending, store.deadLetter,
                    dead, Arrived(0))
  {
    ArrivedMeans(Tables(store.rows, store.results), store.processing, dead, 0);
    assert Members(dead[..0]) == {};
  }

  /** A whole list takes the scan to the next worker. */
  lemma ArrivesNext(t: Tables, lists: Lists, dead: seq<WorkerId>, n: nat)
    requires n < |dead|
    ensures
      var list, u := ListOf(lists, dead[n]), SettleFleet(t, lists, dead[..n]);
      && SettleFleet(t, lists, dead[..n + 1]) == SettleAll(u, list)
      && FleetRequeues(t, lists, dead[..n + 1]) == FleetRequeues(t, lists, dead[..n]) + Requeues(u, list)
      && FleetBurials(t, lists, dead[..n + 1]) == FleetBurials(t, lists, dead[..n]) + Burials(u, list)
  {
    assert dead[..n + 1][..n] == dead[..n];
  }

  datatype Outcome = Skipped | Aborted | Finished

  /** Recover the dead workers in turn; the i-th recovery fails after fuses(i)
      commands. Whatever it got done is a prefix of the whole. */
  method RecoverAll(store: Stores, dead: seq<WorkerId>, fuses: nat -> nat) returns (done: bool, ghost g: Progress)
    requires forall i, k :: 0 <= i < k < |dead| ==> dead[i] != dead[k]
    modifies store
    ensures IsProgress(old(store.processing), dead, g) && (done <==> g.workers == |dead|)
    ensures Reached(store, Tables(old(store.rows), old(store.results)), old(store.processing),
                    old(store.pending), old(store.deadLetter), dead, g)
    ensures (forall i :: 0 <= i < |dead| ==> fuses(i) >= 3 * |old(store.List(dead[i]))| + 2) ==> done
  {
    ghost var t, lists := Tables(store.rows, store.results), store.processing;
    ghost var pending, deadLetter := store.pending, store.deadLetter;
    NothingReached(store, dead);
    for n := 0 to |dead|
      invariant Reached(store, t, lists, pending, deadLetter, dead, Arrived(n))
    {
      var k;
      ghost var half;
      done, k, half := RecoverNext(store, dead, n, fuses(n), t, lists, pending, deadLetter);
      if !done {
        HandledPart(store, t, lists, pending, deadLetter, dead, n, k, half);
        return false, Progress(n, k, half);
      }
      HandledWhole(store, t, lists, pending, deadLetter, dead, n, k, half);
    }
    return true, Arrived(|dead|);
  }

  /** The stores after a recovery of the n-th worker that handled k entries. */
  ghost predicate Handled(store: Stores, t: Tables, lists: Lists, pending: seq<Payload>, deadLetter: seq<Payload>,
      dead: seq<WorkerId>, n: nat, k: nat, half: bool, done: bool)
    requires n < |dead|
    reads store
  {
    var list, u := ListOf(lists, dead[n]), SettleFleet(t, lists, dead[..n]);
    && k + One(half) <= |list| && (done ==> k == |list|)
    && Tables(store.rows, store.results) == SettleAll(u, list[..k + One(half)])
    && store.pending == PushAll(PushAll(pending, FleetRequeues(t, lists, dead[..n])), Requeues(u, list[..k]))
    && store.deadLetter == PushAll(PushAll(deadLetter, FleetBurials(t, lists, dead[..n])), Burials(u, list[..k]))
    && store.processing ==
         (if done then lists - Members(dead[..n]) - {dead[n]} else lists - Members(dead[..n]))
  }

  method RecoverNext(store: Stores, dead: seq<WorkerId>, n: nat, fuse: nat,
      ghost t: Tables, ghost lists: Lists, ghost pending: seq<Payload>, ghost deadLetter: seq<Payload>)
    returns (done: bool, k: nat, ghost half: bool)
    requires n < |dead| && forall i, k :: 0 <= i < k < |dead| ==> dead[i] != dead[k]
    requires Reached(store, t, lists, pending, deadLetter, dead, Arrived(n))
    modifies store
    ensures Handled(store, t, lists, pending, deadLetter, dead, n, k, half, done)
    ensures fuse >= 3 * |ListOf(lists, dead[n])| + 2 ==> done
  {
    ArrivedMeans(t, lists, dead, n);
    assert dead[n] !in Members(dead[..n]);
    assert store.List(dead[n]) == ListOf(lists, dead[n]);
    done, k, half := RecoverJobsFromDeadWorker(store, dead[n], fuse);
  }

  lemma RemovedNext(lists: Lists, dead: seq<WorkerId>, n: nat)
    requires n < |dead|
    ensures lists - Members(dead[..n]) - {dead[n]} == lists - Members(dead[..n + 1])
  {
    assert dead[..n + 1] == dead[..n] + [dead[n]];
    assert Members(dead[..n + 1]) == Members(dead[..n]) + {dead[n]};
  }

  lemma HandledWhole(store: Stores, t: Tables, lists: Lists, pending: seq<Payload>, deadLetter: seq<Payload>,
      dead: seq<WorkerId>, n: nat, k: nat, half: bool)
    requires n < |dead| && Handled(store, t, lists, pending, deadLetter, dead, n, k, half, true)
    ensures Reached(store, t, lists, pending, deadLetter, dead, Arrived(n + 1))
  {
    var list, u := ListOf(lists, dead[n]), SettleFleet(t, lists, dead[..n]);
    assert list[..k + One(half)] == list && list[..k] == list;
    PushAllConcat(pending, FleetRequeues(t, lists, dead[..n]), Requeues(u, list));
    PushAllConcat(deadLetter, FleetBurials(t, lists, dead[..n]), Burials(u, list));
    ArrivesNext(t, lists, dead, n);
    ArrivedMeans(t, lists, dead, n + 1);
    RemovedNext(lists, dead, n);
  }

  lemma PartRequeues(t: Tables, lists: Lists, pending: seq<Payload>, dead: seq<WorkerId>, g: Progress)
    requires IsProgress(lists, dead, g) && g.workers < |dead|
    ensures
      var u, part := SettleFleet(t, lists, dead[..g.workers]), ListOf(lists, dead[g.workers])[..g.entries];
      PushAll(PushAll(pending, FleetRequeues(t, lists, dead[..g.workers])), Requeues(u, part))
      == PushAll(pending, ReachedRequeues(t, lists, dead, g))
  {
    var u, part := SettleFleet(t, lists, dead[..g.workers]), ListOf(lists, dead[g.workers])[..g.entries];
    PushAllConcat(pending, FleetRequeues(t, lists, dead[..g.workers]), Requeues(u, part));
  }

  lemma PartBurials(t: Tables, lists: Lists, deadLetter: seq<Payload>, dead: seq<WorkerId>, g: Progress)
    requires IsProgress(lists, dead, g) && g.workers < |dead|
    ensures
      var u, part := SettleFleet(t, lists, dead[..g.workers]), ListOf(lists, dead[g.workers])[..g.entries];
      PushAll(PushAll(deadLetter, FleetBurials(t, lists, dead[..g.workers])), Burials(u, part))
      == PushAll(deadLetter, ReachedBurials(t, lists, dead, g))
  {
    var u, part := SettleFleet(t, lists, dead[..g.workers]), ListOf(lists, dead[g.workers])[..g.entries];
    PushAllConcat(deadLetter, FleetBurials(t, lists, dead[..g.workers]), Burials(u, part));
  }

  lemma PartTables(t: Tables, lists: Lists, dead: seq<WorkerId>, g: Progress)
    requires IsProgress(lists, dead, g) && g.workers < |dead|
    ensures
      var u, list := SettleFleet(t, lists, dead[..g.workers]), ListOf(lists, dead[g.workers]);
      SettleAll(u, list[..g.entries + One(g.half)]) == ReachedTables(t, lists, dead, g)
  {
    assert Current(lists, dead, g) == ListOf(lists, dead[g.workers]);
  }

  lemma HandledPart(store: Stores, t: Tables, lists: Lists, pending: seq<Payload>, deadLetter: seq<Payload>,
      dead: seq<WorkerId>, n: nat, k: nat, half: bool)
    requires n < |dead| && Handled(store, t, lists, pending, deadLetter, dead, n, k, half, false)
    ensures IsProgress(lists, dead, Progress(n, k, half))
    ensures Reached(store, t, lists, pending, deadLetter, dead, Progress(n, k, half))
  {
    PartTables(t, lists, dead, Progress(n, k, half));
    PartRequeues(t, lists, pending, dead, Progress(n, k, half));
    PartBurials(t, lists, deadLetter, dead, Progress(n, k, half));
  }

  // ── what a finished scan leaves behind ───────────────────────────────────

  predicate NotRunning(t: Tables, j: JobId) {
    j in t.rows ==> !t.rows[j].status.Running?
  }

  lemma {:induction false} PassKeepsNotRunning(t: Tables, list: seq<Payload>, j: JobId)
    requires NotRunning(t, j)
    ensures NotRunning(SettleAll(t, list), j)
    decreases |list|
  {
    if list != [] { PassKeepsNotRunning(t, list[..|list| - 1], j); }
  }

  lemma {:induction false} PassStops(t: Tables, list: seq<Payload>, i: nat)
    requires i < |list|
    ensures NotRunning(SettleAll(t, list), list[i].job)
    decreases |list|
  {
    var front, last := list[..|list| - 1], list[|list| - 1];
    if i < |front| {
      PassStops(t, front, i);
      assert front[i] == list[i];
    }
  }

  /** After a finished scan no job on a dead worker's list is RUNNING any more. */
  lemma {:induction false} NoOrphanRuns(t: Tables, lists: Lists, dead: seq<WorkerId>, n: nat, i: nat)
    requires n < |dead| && i < |ListOf(lists, dead[n])|
    ensures NotRunning(SettleFleet(t, lists, dead), ListOf(lists, dead[n])[i].job)
    decreases |dead|
  {
    var front, last := dead[..|dead| - 1], ListOf(lists, dead[|dead| - 1]);
    if n == |dead| - 1 {
      PassStops(SettleFleet(t, lists, front), last, i);
    } else {
      NoOrphanRuns(t, lists, front, n, i);
      PassKeepsNotRunning(SettleFleet(t, lists, front), last, ListOf(lists, dead[n])[i].job);
    }
  }

  // ── an aborted scan, started over ────────────────────────────────────────

  ghost predicate FleetKnown(t: Tables, lists: Lists, dead: seq<WorkerId>) {
    forall n :: 0 <= n < |dead| ==> Known(t, ListOf(lists, dead[n]))
  }

  lemma {:induction false} FleetKeepsRows(t: Tables, lists: Lists, dead: seq<WorkerId>)
    requires FleetKnown(t, lists, dead)
    ensures SettleFleet(t, lists, dead).rows.Keys == t.rows.Keys
    decreases |dead|
  {
    if dead != [] {
      FleetKeepsRows(t, lists, dead[..|dead| - 1]);
      PassKeepsRows(SettleFleet(t, lists, dead[..|dead| - 1]), ListOf(lists, dead[|dead| - 1]));
    }
  }

  /** The first worker's list, then the others'. */
  lemma {:induction false} FleetFirst(t: Tables, lists: Lists, dead: seq<WorkerId>)
    requires dead != []
    ensures SettleFleet(t, lists, dead) == SettleFleet(SettleAll(t, ListOf(lists, dead[0])), lists, dead[1..])
    decreases |dead|
  {
    var front := dead[..|dead| - 1];
    if front == [] {
      assert dead[1..] == [];
    } else {
      FleetFirst(t, lists, front);
      assert dead[1..][..|dead[1..]| - 1] == front[1..];
    }
  }

  lemma {:induction false} FleetInTwo(t: Tables, lists: Lists, dead: seq<WorkerId>, n: nat)
    requires n <= |dead|
    ensures SettleFleet(t, lists, dead) == SettleFleet(SettleFleet(t, lists, dead[..n]), lists, dead[n..])
    decreases n
  {
    if n == 0 {
      assert dead[..0] == [] && dead[0..] == dead;
    } else {
      FleetFirst(t, lists, dead);
      FleetFirst(t, lists, dead[..n]);
      FleetInTwo(SettleAll(t, ListOf(lists, dead[0])), lists, dead[1..], n - 1);
      assert dead[1..][..n - 1] == dead[..n][1..] && dead[1..][n - 1..] == dead[n..];
    }
  }

  /** Within one worker's list. */
  lemma ListRestarts(u: Tables, lists: Lists, dead: seq<WorkerId>, k: nat)
    requires dead != [] && Known(u, ListOf(lists, dead[0])) && k <= |ListOf(lists, dead[0])|
    ensures SettleFleet(SettleAll(u, ListOf(lists, dead[0])[..k]), lists, dead) == SettleFleet(u, lists, dead)
  {
    RestartOnce(u, ListOf(lists, dead[0]), k);
    FleetFirst(u, lists, dead);
    FleetFirst(SettleAll(u, ListOf(lists, dead[0])[..k]), lists, dead);
  }

  /** A scan aborted at any command, and then run over the workers that remain, leaves
      the same statuses, retry counts and categories as one that was not aborted. */
  lemma ScanRestarts(t: Tables, lists: Lists, dead: seq<WorkerId>, g: Progress)
    requires FleetKnown(t, lists, dead) && IsProgress(lists, dead, g)
    ensures SettleFleet(ReachedTables(t, lists, dead, g), lists, dead[g.workers..]) == SettleFleet(t, lists, dead)
  {
    var n := g.workers;
    FleetInTwo(t, lists, dead, n);
    if n == |dead| {
      ArrivedMeans(t, lists, dead, n);
    } else {
      FleetKeepsRows(t, lists, dead[..n]);
      ListRestarts(SettleFleet(t, lists, dead[..n]), lists, dead[n..], g.entries + One(g.half));
    }
  }

  // ── the whole cycle ──────────────────────────────────────────────────────

  /** Another monitor tries to lock while the scan is under way. */
  method RivalMayLock(lock: LockKey, rival: nat, now: nat)
    modifies lock
    ensures lock.entry ==
            if Value(old(lock.entry), now).None? then Some(Entry(rival, now + REAPER_LOCK_TTL_MS)) else old(lock.entry)
  {
    var acquired := lock.SetNxPx(rival, now);
  }

  function WorkersOf(ids: seq<string>, workerOf: string -> WorkerId): (ws: seq<WorkerId>)
    ensures |ws| == |ids| && forall i :: 0 <= i < |ids| ==> ws[i] == workerOf(ids[i])
  {
    seq(|ids|, i requires 0 <= i < |ids| => workerOf(ids[i]))
  }

  lemma WorkersOfMembers(ids: seq<string>, workerOf: string -> WorkerId)
    requires Injective(workerOf)
    ensures forall key :: workerOf(key) in WorkersOf(ids, workerOf) <==> key in ids
  {
    forall key
      ensures workerOf(key) in WorkersOf(ids, workerOf) <==> key in ids
    {
      if key in ids {
        var i :| 0 <= i < |ids| && ids[i] == key;
        assert WorkersOf(ids, workerOf)[i] == workerOf(key);
      }
    }
  }

  ghost predicate Injective(workerOf: string -> WorkerId) {
    forall a, b :: workerOf(a) == workerOf(b) ==> a == b
  }

  /** Both scans and the comparison. */
  method FindDead(queuePages: seq<Page>, beatPages: seq<Page>, workerOf: string -> WorkerId)
    returns (dead: seq<WorkerId>)
    requires Injective(workerOf) && IsIteration(queuePages) && IsIteration(beatPages)
    ensures forall id :: workerOf(id) in dead <==> IsDeadKey(id, queuePages, beatPages)
    ensures forall i, k :: 0 <= i < k < |dead| ==> dead[i] != dead[k]
  {
    var queueKeys := ScanKeys(queuePages);
    var heartbeatKeys := ScanKeys(beatPages);
    var deadIds := Detection.FindDeadWorkers(queueKeys, heartbeatKeys);
    dead := WorkersOf(deadIds, workerOf);
    WorkersOfMembers(deadIds, workerOf);
    forall key
      ensures (key in queueKeys <==> Returned(queuePages, key)) && (key in heartbeatKeys <==> Returned(beatPages, key))
    {
      FoundByPage(queuePages, key);
      FoundByPage(beatPages, key);
    }
  }

  /** runReaperScan from `start` to `end`; in between, at `mid`, a rival monitor tries
      to take the lock. The ids drawn by the two monitors differ. */
  method RunReaperScan(lock: LockKey, id: nat, rival: nat, start: nat, mid: nat, end: nat, store: Stores,
      queuePages: seq<Page>, beatPages: seq<Page>, workerOf: string -> WorkerId, fuses: nat -> nat)
    returns (outcome: Outcome, ghost dead: seq<WorkerId>, ghost g: Progress)
    requires id != rival && start <= mid <= end && Injective(workerOf)
    requires IsIteration(queuePages) && IsIteration(beatPages)
    modifies lock, store
    ensures outcome.Skipped? <==> Value(old(lock.entry), start).Some?
    ensures outcome.Skipped? ==> lock.entry == old(lock.entry) && unchanged(store)
    ensures !outcome.Skipped? && mid < start + REAPER_LOCK_TTL_MS ==> Value(lock.entry, end).None?
    ensures !outcome.Skipped? && mid >= start + REAPER_LOCK_TTL_MS ==>
              lock.entry == Some(Entry(rival, mid + REAPER_LOCK_TTL_MS))
    ensures !outcome.Skipped? ==> forall key ::
              workerOf(key) in dead <==> IsDeadKey(key, queuePages, beatPages)
    ensures !outcome.Skipped? ==>
              && IsProgress(old(store.processing), dead, g) && (outcome.Finished? <==> g.workers == |dead|)
              && Reached(store, Tables(old(store.rows), old(store.results)), old(store.processing),
                         old(store.pending), old(store.deadLetter), dead, g)
  {
    outcome, dead, g := Skipped, [], Arrived(0);
    var acquired := lock.SetNxPx(id, start);
    if !acquired { return; }
    var workers := FindDead(queuePages, beatPages, workerOf);
    dead := workers;
    RivalMayLock(lock, rival, mid);
    var done;
    done, g := RecoverAll(store, workers, fuses);
    outcome := if done then Finished else Aborted;
    var deleted := lock.DeleteIfOwned(id, end);
  }

  predicate Returned(pages: seq<Page>, key: string) {
    exists i :: 0 <= i < |pages| && key in pages[i].found
  }

  /** A reply of the first iteration names the worker's list, and no reply of the
      second names its heartbeat. */
  ghost predicate IsDeadKey(id: string, queuePages: seq<Page>, beatPages: seq<Page>) {
    && (exists k :: Returned(queuePages, k) && Detection.IdFromQueue(k) == id)
    && !(exists k :: Returned(beatPages, k) && Detection.IdFromHeartbeat(k) == id)
  }
}
