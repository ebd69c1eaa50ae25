/** Recovery of a dead worker's list, in the form the reaper runs it, and its
    crash/restart equivalence: however often recovery is interrupted, at whatever
    command, rerunning it leaves the tables as one uninterrupted run would. */
module Recovery {
  import opened Contracts
  import opened RedisList
  import opened Protocol
  import opened Store

  /** What recovery changes in Postgres. */
  datatype Tables = Tables(rows: Rows, results: Results)

  /** One entry: terminal jobs are skipped, exhausted ones buried, others reset. */
  function Settle(t: Tables, p: Payload): Tables {
    if IsClosed(t.rows, p.job) then t
    else if Exhausted(p) then Tables(WithStatus(t.rows, p.job, Failed), t.results[p.job := Some(WorkerCrash)])
    else Tables(ResetTo(t.rows, p.job, p.retry + 1), t.results)
  }

  function SettleAll(t: Tables, list: seq<Payload>): Tables
    decreases |list|
  {
    if list == [] then t else Settle(SettleAll(t, list[..|list| - 1]), list[|list| - 1])
  }

  /** The payloads an uninterrupted pass pushes to pending, and to dead-letter. */
  function Requeues(t: Tables, list: seq<Payload>): seq<Payload>
    decreases |list|
  {
    if list == [] then []
    else
      var p := list[|list| - 1];
      var sofar := Requeues(t, list[..|list| - 1]);
      if IsClosed(SettleAll(t, list[..|list| - 1]).rows, p.job) || Exhausted(p) then sofar else sofar + [Retried(p)]
  }

  function Burials(t: Tables, list: seq<Payload>): seq<Payload>
    decreases |list|
  {
    if list == [] then []
    else
      var p := list[|list| - 1];
      var sofar := Burials(t, list[..|list| - 1]);
      if IsClosed(SettleAll(t, list[..|list| - 1]).rows, p.job) || !Exhausted(p) then sofar else sofar + [p]
  }

  function PushAll(list: seq<Payload>, ps: seq<Payload>): seq<Payload>
    decreases |ps|
  {
    if ps == [] then list else LPush(PushAll(list, ps[..|ps| - 1]), ps[|ps| - 1])
  }

  lemma PushAllSnoc(list: seq<Payload>, ps: seq<Payload>, p: Payload)
    ensures PushAll(list, ps + [p]) == LPush(PushAll(list, ps), p)
  {
    assert (ps + [p])[..|ps|] == ps;
  }

  lemma PassSnoc(t: Tables, list: seq<Payload>, k: nat)
    requires k < |list|
    ensures SettleAll(t, list[..k + 1]) == Settle(SettleAll(t, list[..k]), list[k])
    ensures Requeues(t, list[..k + 1]) ==
            if IsClosed(SettleAll(t, list[..k]).rows, list[k].job) || Exhausted(list[k]) then Requeues(t, list[..k])
            else Requeues(t, list[..k]) + [Retried(list[k])]
    ensures Burials(t, list[..k + 1]) ==
            if IsClosed(SettleAll(t, list[..k]).rows, list[k].job) || !Exhausted(list[k]) then Burials(t, list[..k])
            else Burials(t, list[..k]) + [list[k]]
  {
    assert list[..k + 1][..k] == list[..k];
  }

  /** One more entry, seen from the stores. */
  lemma PassPushes(t: Tables, list: seq<Payload>, k: nat, pending: seq<Payload>, deadLetter: seq<Payload>)
    requires k < |list|
    ensures
      var u, p := SettleAll(t, list[..k]), list[k];
      && SettleAll(t, list[..k + 1]) == Settle(u, p)
      && PushAll(pending, Requeues(t, list[..k + 1])) ==
           (if !IsClosed(u.rows, p.job) && !Exhausted(p)
            then LPush(PushAll(pending, Requeues(t, list[..k])), Retried(p))
            else PushAll(pending, Requeues(t, list[..k])))
      && PushAll(deadLetter, Burials(t, list[..k + 1])) ==
           (if !IsClosed(u.rows, p.job) && Exhausted(p) then LPush(PushAll(deadLetter, Burials(t, list[..k])), p)
            else PushAll(deadLetter, Burials(t, list[..k])))
  {
    PassSnoc(t, list, k);
    PushAllSnoc(pending, Requeues(t, list[..k]), Retried(list[k]));
    PushAllSnoc(deadLetter, Burials(t, list[..k]), list[k]);
  }

  /** The loop body of recoverJobsFromDeadWorker for one entry. Before each command
      the process may die; fuse is the number of commands it lives to issue. If it
      dies, `half` says whether the tables already reflect the entry; the push that
      should follow has then not happened. */
  method RecoverEntry(store: Stores, job: Payload, fuse: nat) returns (alive: bool, left: nat, ghost half: bool)
    modifies store`rows, store`results, store`pending, store`deadLetter
    ensures
      var t := Tables(old(store.rows), old(store.results));
      Tables(store.rows, store.results) == if alive || half then Settle(t, job) else t
    ensures store.pending ==
            if alive && !old(IsClosed(store.rows, job.job)) && !Exhausted(job)
            then LPush(old(store.pending), Retried(job))
            else old(store.pending)
    ensures store.deadLetter ==
            if alive && !old(IsClosed(store.rows, job.job)) && Exhausted(job) then LPush(old(store.deadLetter), job)
            else old(store.deadLetter)
    ensures alive ==> !half && left + 3 >= fuse
    ensures fuse >= 3 ==> alive
  {
    alive, left, half := false, fuse, false;
    if left == 0 { return; }
    left := left - 1;
    var status := store.SelectStatus(job.job);
    if status.None? || !IsTerminal(status.value) {
      if left == 0 { return; }
      left := left - 1;
      if job.retry + 1 > MAX_RETRY_COUNT {
        store.CommitFailed(job.job);
        half := true;
        if left == 0 { return; }
        left := left - 1;
        store.PushDeadLetter(job);
      } else {
        store.ResetRow(job.job, job.retry + 1);
        half := true;
        if left == 0 { return; }
        left := left - 1;
        store.PushPending(Retried(job));
      }
    }
    alive, half := true, false;
  }

  /** recoverJobsFromDeadWorker, interrupted after `fuse` commands. k entries were
      handled in full; `half` says that the tables also reflect entry k. */
  method RecoverJobsFromDeadWorker(store: Stores, dead: WorkerId, fuse: nat)
    returns (done: bool, k: nat, ghost half: bool)
    modifies store
    ensures var list := old(store.List(dead)); k + One(half) <= |list|
    ensures
      var list, t := old(store.List(dead)), Tables(old(store.rows), old(store.results));
      && Tables(store.rows, store.results) == SettleAll(t, list[..k + One(half)])
      && store.pending == PushAll(old(store.pending), Requeues(t, list[..k]))
      && store.deadLetter == PushAll(old(store.deadLetter), Burials(t, list[..k]))
    ensures done ==> k == |old(store.List(dead))| && store.processing == old(store.processing) - {dead}
    ensures !done ==> store.processing == old(store.processing)
    ensures fuse >= 3 * |old(store.List(dead))| + 2 ==> done
  {
    done, k, half := false, 0, false;
    if fuse == 0 { return; }
    var rawJobs := store.List(dead);
    var left: nat := fuse - 1;
    ghost var t := Tables(store.rows, store.results);
    ghost var pending, deadLetter := store.pending, store.deadLetter;
    while k < |rawJobs|
      invariant k <= |rawJobs| && !half
      invariant rawJobs == old(store.List(dead)) && store.processing == old(store.processing)
      invariant Tables(store.rows, store.results) == SettleAll(t, rawJobs[..k])
      invariant store.pending == PushAll(pending, Requeues(t, rawJobs[..k]))
      invariant store.deadLetter == PushAll(deadLetter, Burials(t, rawJobs[..k]))
      invariant fuse >= 3 * |rawJobs| + 2 ==> left >= 3 * (|rawJobs| - k) + 1
    {
      PassPushes(t, rawJobs, k, pending, deadLetter);
      var alive;
      alive, left, half := RecoverEntry(store, rawJobs[k], left);
      if !alive { return; }
      k := k + 1;
    }
    assert rawJobs[..k] == rawJobs;
    if left == 0 { return; }
    store.Delete(dead);
    done := true;
  }

  // ── crash/restart equivalence ────────────────────────────────────────────

  /** What the tables say about one job. */
  datatype Cell = Cell(row: Row, result: Option<Option<Category>>)

  function CellOf(t: Tables, j: JobId): Option<Cell> {
    if j in t.rows then Some(Cell(t.rows[j], ResultOf(t.results, j))) else None
  }

  function SettleCell(c: Cell, p: Payload): Cell {
    if IsTerminal(c.row.status) then c
    else if Exhausted(p) then Cell(c.row.(status := Failed), Some(Some(WorkerCrash)))
    else Cell(c.row.(status := Pending, retry := p.retry + 1), c.result)
  }

  function SettleCells(c: Cell, list: seq<Payload>, j: JobId): Cell
    decreases |list|
  {
    if list == [] then c
    else
      var sofar := SettleCells(c, list[..|list| - 1], j);
      if list[|list| - 1].job == j then SettleCell(sofar, list[|list| - 1]) else sofar
  }

  /** Every entry belongs to an existing row. */
  ghost predicate Known(t: Tables, list: seq<Payload>) {
    forall p :: p in list ==> p.job in t.rows
  }

  lemma {:induction false} CellsSettle(t: Tables, list: seq<Payload>, j: JobId)
    requires Known(t, list)
    ensures SettleAll(t, list).rows.Keys == t.rows.Keys
    ensures j in t.rows ==> CellOf(SettleAll(t, list), j) == Some(SettleCells(CellOf(t, j).value, list, j))
    ensures j !in t.rows ==> ResultOf(SettleAll(t, list).results, j) == ResultOf(t.results, j)
    decreases |list|
  {
    if list != [] {
      var front, p := list[..|list| - 1], list[|list| - 1];
      assert p in list && forall q :: q in front ==> q in list;
      CellsSettle(t, front, j);
      CellsSettle(t, front, p.job);
    }
  }

  /** Once terminal, an entry's cell is left alone. */
  lemma {:induction false} TerminalCellStays(c: Cell, list: seq<Payload>, j: JobId)
    requires IsTerminal(c.row.status)
    ensures SettleCells(c, list, j) == c
    decreases |list|
  {
    if list != [] { TerminalCellStays(c, list[..|list| - 1], j); }
  }

  /** A pass that leaves a cell open leaves it in a state given by the list alone,
      or untouched if the list does not mention the job. */
  lemma {:induction false} OpenCellForgets(c: Cell, d: Cell, list: seq<Payload>, j: JobId)
    requires !IsTerminal(SettleCells(c, list, j).row.status)
    requires !IsTerminal(d.row.status) && d.row.body == c.row.body && d.result == c.result
    ensures SettleCells(c, list, j).row.body == c.row.body && SettleCells(c, list, j).result == c.result
    ensures if exists p :: p in list && p.job == j then SettleCells(d, list, j) == SettleCells(c, list, j)
            else SettleCells(c, list, j) == c && SettleCells(d, list, j) == d
    decreases |list|
  {
    if list != [] {
      var front, p := list[..|list| - 1], list[|list| - 1];
      assert list == front + [p];
      OpenCellForgets(c, d, front, j);
    }
  }

  lemma {:induction false} OpenMeansOpenBefore(c: Cell, list: seq<Payload>, j: JobId)
    ensures IsTerminal(c.row.status) ==> IsTerminal(SettleCells(c, list, j).row.status)
  {
    if IsTerminal(c.row.status) { TerminalCellStays(c, list, j); }
  }

  /** A pass repeated is a pass done once. */
  lemma CellIdempotent(c: Cell, list: seq<Payload>, j: JobId)
    ensures SettleCells(SettleCells(c, list, j), list, j) == SettleCells(c, list, j)
  {
    var d := SettleCells(c, list, j);
    if IsTerminal(d.row.status) {
      TerminalCellStays(d, list, j);
    } else {
      OpenMeansOpenBefore(c, list, j);
      OpenCellForgets(c, c, list, j);
      OpenCellForgets(c, d, list, j);
    }
  }

  lemma TablesByCells(t: Tables, u: Tables)
    requires t.rows.Keys == u.rows.Keys
    requires forall j :: CellOf(t, j) == CellOf(u, j)
    requires forall j :: j !in t.rows ==> ResultOf(t.results, j) == ResultOf(u.results, j)
    ensures t == u
  {
    forall j | j in t.rows ensures t.rows[j] == u.rows[j] { assert CellOf(t, j) == CellOf(u, j); }
    forall j ensures ResultOf(t.results, j) == ResultOf(u.results, j) { assert CellOf(t, j) == CellOf(u, j); }
    assert forall j :: j in t.results <==> ResultOf(t.results, j).Some?;
    assert forall j :: j in u.results <==> ResultOf(u.results, j).Some?;
    forall j | j in t.results ensures j in u.results && t.results[j] == u.results[j] {
      assert ResultOf(t.results, j) == ResultOf(u.results, j);
    }
  }

  lemma PassIdempotent(t: Tables, list: seq<Payload>)
    requires Known(t, list)
    ensures SettleAll(SettleAll(t, list), list) == SettleAll(t, list)
  {
    var u := SettleAll(t, list);
    CellsSettle(t, list, 0);
    forall j ensures CellOf(SettleAll(u, list), j) == CellOf(u, j) && u.rows.Keys == SettleAll(u, list).rows.Keys
      && (j !in t.rows ==> ResultOf(SettleAll(u, list).results, j) == ResultOf(u.results, j))
    {
      CellsSettle(t, list, j);
      CellsSettle(u, list, j);
      if j in t.rows { CellIdempotent(CellOf(t, j).value, list, j); }
    }
    TablesByCells(SettleAll(u, list), u);
  }

  lemma {:induction false} PassInTwo(t: Tables, front: seq<Payload>, back: seq<Payload>)
    ensures SettleAll(t, front + back) == SettleAll(SettleAll(t, front), back)
    decreases |back|
  {
    if back == [] {
      assert front + back == front;
    } else {
      var list := front + back;
      assert list[..|list| - 1] == front + back[..|back| - 1];
      PassInTwo(t, front, back[..|back| - 1]);
    }
  }

  lemma PassKeepsRows(t: Tables, list: seq<Payload>)
    requires Known(t, list)
    ensures SettleAll(t, list).rows.Keys == t.rows.Keys
  {
    CellsSettle(t, list, 0);
  }

  /** A pass interrupted after k entries and started over ends like a single pass. */
  lemma RestartOnce(t: Tables, list: seq<Payload>, k: nat)
    requires Known(t, list) && k <= |list|
    ensures Known(SettleAll(t, list[..k]), list)
    ensures SettleAll(SettleAll(t, list[..k]), list) == SettleAll(t, list)
  {
    var front, back := list[..k], list[k..];
    assert list == front + back && forall p :: p in front ==> p in list;
    PassKeepsRows(t, front);
    PassInTwo(t, front, back);
    PassInTwo(SettleAll(t, front), front, back);
    PassIdempotent(t, front);
  }

  /** Every attempt ended somewhere within the list. */
  ghost predicate Within(ks: seq<nat>, list: seq<Payload>) {
    forall n :: 0 <= n < |ks| ==> ks[n] <= |list|
  }

  /** The tables after attempts that each reached some prefix of the list. */
  ghost function Attempts(t: Tables, list: seq<Payload>, ks: seq<nat>): Tables
    requires Within(ks, list)
    decreases |ks|
  {
    if ks == [] then t else Attempts(SettleAll(t, list[..ks[0]]), list, ks[1..])
  }

  /** Any number of interrupted attempts followed by a complete one leave the same
      statuses, retry counts and categories as one uninterrupted run. */
  lemma {:induction false} RestartsAreInvisible(t: Tables, list: seq<Payload>, ks: seq<nat>)
    requires Known(t, list) && Within(ks, list)
    ensures SettleAll(Attempts(t, list, ks), list) == SettleAll(t, list)
    decreases |ks|
  {
    if ks != [] {
      RestartOnce(t, list, ks[0]);
      RestartsAreInvisible(SettleAll(t, list[..ks[0]]), list, ks[1..]);
    }
  }

  /** Some entry of the job has used up its retries. */
  predicate AnyExhausted(list: seq<Payload>, j: JobId) {
    exists i :: 0 <= i < |list| && list[i].job == j && Exhausted(list[i])
  }

  predicate IsLastOf(list: seq<Payload>, i: nat) {
    i < |list| && forall k :: i < k < |list| ==> list[k].job != list[i].job
  }

  lemma ExhaustedSnoc(front: seq<Payload>, p: Payload, j: JobId)
    ensures AnyExhausted(front + [p], j) <==> AnyExhausted(front, j) || (p.job == j && Exhausted(p))
  {
    var list := front + [p];
    assert list[|front|] == p && forall i :: 0 <= i < |front| ==> list[i] == front[i];
  }

  /** A cell stays open exactly if it was open and no entry for it is exhausted. */
  lemma {:induction false} OpenExactly(c: Cell, list: seq<Payload>, j: JobId)
    ensures !IsTerminal(SettleCells(c, list, j).row.status) <==> !IsTerminal(c.row.status) && !AnyExhausted(list, j)
    decreases |list|
  {
    if list != [] {
      var front, p := list[..|list| - 1], list[|list| - 1];
      assert list == front + [p];
      OpenExactly(c, front, j);
      ExhaustedSnoc(front, p, j);
    }
  }

  /** If it stays open, the last entry for it decides. */
  lemma {:induction false} LastDecides(c: Cell, list: seq<Payload>, i: nat)
    requires IsLastOf(list, i) && !IsTerminal(SettleCells(c, list, list[i].job).row.status)
    ensures SettleCells(c, list, list[i].job) == Cell(c.row.(status := Pending, retry := list[i].retry + 1), c.result)
    decreases |list|
  {
    var front, j := list[..|list| - 1], list[i].job;
    if i < |front| {
      LastDecides(c, front, i);
    } else {
      SettleKeepsRest(c, front, j);
    }
  }

  lemma {:induction false} SettleKeepsRest(c: Cell, list: seq<Payload>, j: JobId)
    requires !IsTerminal(SettleCells(c, list, j).row.status)
    ensures SettleCells(c, list, j).row.body == c.row.body && SettleCells(c, list, j).result == c.result
    decreases |list|
  {
    if list != [] { SettleKeepsRest(c, list[..|list| - 1], j); }
  }

  /** However many attempts recovery took and however often the list names the job,
      its row is left open exactly if it was open and none of its entries is exhausted;
      it is then PENDING with the retry count of its last entry plus one, raised once
      and not once per attempt. */
  lemma RetryRisesOnce(t: Tables, list: seq<Payload>, ks: seq<nat>, i: nat)
    requires Known(t, list) && Within(ks, list) && IsLastOf(list, i)
    ensures
      var p, u := list[i], SettleAll(Attempts(t, list, ks), list);
      && p.job in u.rows
      && (IsOpen(u.rows, p.job) <==> IsOpen(t.rows, p.job) && !AnyExhausted(list, p.job))
      && (IsOpen(u.rows, p.job) ==> u.rows[p.job] == t.rows[p.job].(status := Pending, retry := p.retry + 1))
  {
    var j := list[i].job;
    assert list[i] in list;
    RestartsAreInvisible(t, list, ks);
    CellsSettle(t, list, j);
    OpenExactly(CellOf(t, j).value, list, j);
    if !IsTerminal(SettleCells(CellOf(t, j).value, list, j).row.status) {
      LastDecides(CellOf(t, j).value, list, i);
    }
  }

  // ── what a pass pushes ───────────────────────────────────────────────────

  /** A job is open when its entry's turn comes exactly if it was open at the start and
      no earlier entry of it was buried. */
  lemma OpenAtItsTurn(t: Tables, list: seq<Payload>, j: JobId)
    requires Known(t, list) && j in t.rows
    ensures IsClosed(SettleAll(t, list).rows, j) <==> IsClosed(t.rows, j) || AnyExhausted(list, j)
  {
    CellsSettle(t, list, j);
    OpenExactly(CellOf(t, j).value, list, j);
  }

  /** Which payloads a pass pushes, read off the tables at its start: every entry of an
      open job, in order, its retry count raised by one, until an entry has none left;
      that one goes to dead-letter as it is, and nothing more of the job is pushed. */
  lemma PushedExactly(t: Tables, list: seq<Payload>, k: nat)
    requires Known(t, list) && k < |list|
    ensures
      var p := list[k];
      && Requeues(t, list[..k + 1]) ==
           Requeues(t, list[..k]) +
           (if IsOpen(t.rows, p.job) && !AnyExhausted(list[..k + 1], p.job)
            then [Payload(p.job, p.retry + 1, p.body)] else [])
      && Burials(t, list[..k + 1]) ==
           Burials(t, list[..k]) +
           (if IsOpen(t.rows, p.job) && p.retry >= MAX_RETRY_COUNT && !AnyExhausted(list[..k], p.job)
            then [p] else [])
  {
    var front, p := list[..k], list[k];
    assert p in list && forall q :: q in front ==> q in list;
    assert list[..k + 1] == front + [p];
    OpenAtItsTurn(t, front, p.job);
    ExhaustedSnoc(front, p, p.job);
    PassSnoc(t, list, k);
  }

  lemma NothingPushed(t: Tables)
    ensures Requeues(t, []) == [] && Burials(t, []) == []
  {
  }

  /** Pushing one after the other puts the last one at the head. */
  lemma {:induction false} PushAllAt(list: seq<Payload>, ps: seq<Payload>)
    ensures |PushAll(list, ps)| == |ps| + |list| && PushAll(list, ps)[|ps|..] == list
    ensures forall i :: 0 <= i < |ps| ==> PushAll(list, ps)[i] == ps[|ps| - 1 - i]
    decreases |ps|
  {
    if ps != [] { PushAllAt(list, ps[..|ps| - 1]); }
  }

  /** recovery started over until it gets through: fuses[n] is how many commands the
      n-th incarnation of the reaper lives to issue. */
  method RecoverWithRestarts(store: Stores, dead: WorkerId, fuses: seq<nat>) returns (done: bool)
    requires forall p :: p in store.List(dead) ==> p.job in store.rows
    modifies store
    ensures done ==>
      Tables(store.rows, store.results) ==
      SettleAll(Tables(old(store.rows), old(store.results)), old(store.List(dead)))
    ensures done ==> store.List(dead) == []
    ensures (exists n :: 0 <= n < |fuses| && fuses[n] >= 3 * |old(store.List(dead))| + 2) ==> done
  {
    ghost var t, list := Tables(store.rows, store.results), store.List(dead);
    ghost var ks: seq<nat> := [];
    done := false;
    var n := 0;
    while n < |fuses| && !done
      invariant 0 <= n <= |fuses| && Within(ks, list)
      invariant !done ==> store.List(dead) == list && Tables(store.rows, store.results) == Attempts(t, list, ks)
      invariant !done ==> forall m :: 0 <= m < n ==> fuses[m] < 3 * |list| + 2
      invariant done ==> Tables(store.rows, store.results) == SettleAll(t, list) && store.List(dead) == []
    {
      var k;
      ghost var half;
      done, k, half := RecoverJobsFromDeadWorker(store, dead, fuses[n]);
      if done {
        assert list[..k] == list;
        RestartsAreInvisible(t, list, ks);
      } else {
        AttemptsSnoc(t, list, ks, k + One(half));
        ks := ks + [k + One(half)];
      }
      n := n + 1;
    }
  }

  lemma {:induction false} AttemptsSnoc(t: Tables, list: seq<Payload>, ks: seq<nat>, k: nat)
    requires Within(ks, list) && k <= |list|
    ensures Within(ks + [k], list)
    ensures Attempts(t, list, ks + [k]) == SettleAll(Attempts(t, list, ks), list[..k])
    decreases |ks|
  {
    if ks == [] {
      assert ks + [k] == [k] && [k][1..] == [];
    } else {
      assert (ks + [k])[1..] == ks[1..] + [k];
      AttemptsSnoc(SettleAll(t, list[..ks[0]]), list, ks[1..], k);
    }
  }

  /** A job that is already terminal is neither pushed nor dead-lettered again. So an
      interruption between the FAILED commit and the dead-letter push costs the
      dead-letter entry, though not the verdict. */
  lemma {:induction false} TerminalNeverAnnounced(t: Tables, list: seq<Payload>, j: JobId)
    requires Known(t, list) && IsClosed(t.rows, j)
    ensures forall p :: p in Requeues(t, list) || p in Burials(t, list) ==> p.job != j
    decreases |list|
  {
    if list != [] {
      var front, p := list[..|list| - 1], list[|list| - 1];
      assert p in list && forall q :: q in front ==> q in list;
      TerminalNeverAnnounced(t, front, j);
      if p.job == j {
        CellsSettle(t, front, j);
        TerminalCellStays(CellOf(t, j).value, front, j);
      }
    }
  }

  lemma MachineSkips(s: World)
    requires AtStage(s, AtEntry) && IsClosed(s.rows, Entry(s).job)
    ensures ReaperRun(s, [Skip], ReaperStep(s, Skip))
    ensures Tables(ReaperStep(s, Skip).rows, ReaperStep(s, Skip).results) == Settle(Tables(s.rows, s.results), Entry(s))
  {
    assert [Skip][1..] == [];
  }

  lemma MachineWrites(s: World, e: ReaperEvent)
    requires AtStage(s, AtEntry) && !IsClosed(s.rows, Entry(s).job)
    requires e == if Exhausted(Entry(s)) then BuryEntry else ResetEntry
    ensures ReaperEnabled(s, See) && ReaperEnabled(ReaperStep(s, See), e)
    ensures
      var s' := ReaperStep(ReaperStep(s, See), e);
      Tables(s'.rows, s'.results) == Settle(Tables(s.rows, s.results), Entry(s))
  {
  }

  /** The state machine's reaper settles an entry exactly as this code does. */
  lemma MachineSettles(s: World) returns (es: seq<ReaperEvent>, s': World)
    requires AtStage(s, AtEntry)
    ensures ReaperRun(s, es, s') && 1 <= |es| <= 2
    ensures Tables(s'.rows, s'.results) == Settle(Tables(s.rows, s.results), Entry(s))
  {
    if IsClosed(s.rows, Entry(s).job) {
      MachineSkips(s);
      es, s' := [Skip], ReaperStep(s, Skip);
    } else {
      var e := if Exhausted(Entry(s)) then BuryEntry else ResetEntry;
      MachineWrites(s, e);
      var s1 := ReaperStep(s, See);
      es, s' := [See, e], ReaperStep(s1, e);
      assert es[1..] == [e] && ReaperRun(s1, [e], s');
    }
  }

  ghost predicate ReaperRun(s: World, es: seq<ReaperEvent>, s': World)
    decreases |es|
  {
    if es == [] then s' == s
    else ReaperEnabled(s, es[0]) && ReaperRun(ReaperStep(s, es[0]), es[1..], s')
  }
}
