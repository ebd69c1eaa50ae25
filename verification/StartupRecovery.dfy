/** recoverOrphanedJobsOnStartup: from any database state and an empty pending list
    (say, after Redis lost its data), it leaves no RUNNING row and exactly one
    payload per PENDING row, oldest first. With a non-empty list it pushes nothing. */
module StartupRecovery {
  import opened Contracts
  import opened RedisList
  import opened Protocol
  import opened Store
  import opened Recovery

  /** `answer` is the database's reply to the SELECT that follows the reset. The
      monitor dies after `fuse` commands; k is how many payloads it pushed. */
  method RecoverOrphanedJobsOnStartup(store: Stores, answer: seq<JobId>, fuse: nat) returns (done: bool, k: nat)
    requires IsPendingListing(AllReset(store.rows), answer)
    modifies store`rows, store`pending
    ensures store.rows == if fuse > 0 then AllReset(old(store.rows)) else old(store.rows)
    ensures k <= |answer|
    ensures store.pending == PushAll(old(store.pending), Rehydration(AllReset(old(store.rows)), answer)[..k])
    ensures old(store.pending) != [] ==> k == 0
    ensures done && old(store.pending) == [] ==> k == |answer|
    ensures fuse >= |answer| + 3 ==> done
    ensures old(store.pending) == [] ==> k == if fuse < 3 then 0 else if fuse - 3 < |answer| then fuse - 3 else |answer|
  {
    done, k := false, 0;
    if fuse == 0 { return; }
    store.rows := AllReset(store.rows);
    if fuse == 1 { return; }
    if |store.pending| == 0 {
      if fuse == 2 { return; }
      var payloads := Rehydration(store.rows, answer);
      while k < |payloads|
        invariant k <= |payloads| && k <= fuse - 3
        invariant store.rows == AllReset(old(store.rows))
        invariant store.pending == PushAll([], payloads[..k])
      {
        if k == fuse - 3 { return; }
        assert payloads[..k + 1][..k] == payloads[..k];
        store.PushPending(payloads[k]);
        k := k + 1;
      }
    }
    done := true;
  }

  function Reverse(ps: seq<Payload>): (r: seq<Payload>)
    ensures |r| == |ps|
    ensures forall i :: 0 <= i < |ps| ==> r[i] == ps[|ps| - 1 - i]
  {
    if ps == [] then [] else [ps[|ps| - 1]] + Reverse(ps[..|ps| - 1])
  }

  lemma {:induction false} PushAllReverses(ps: seq<Payload>)
    ensures PushAll([], ps) == Reverse(ps)
    decreases |ps|
  {
    if ps != [] { PushAllReverses(ps[..|ps| - 1]); }
  }

  /** What n calls of BRPOPLPUSH take off a list, in order. */
  function Popped(list: seq<Payload>, n: nat): seq<Payload>
    requires n <= |list|
  {
    if n == 0 then [] else [Tail(list)] + Popped(list[..|list| - 1], n - 1)
  }

  lemma {:induction false} PoppedInOrder(list: seq<Payload>, n: nat)
    requires n <= |list|
    ensures |Popped(list, n)| == n
    ensures forall i :: 0 <= i < n ==> Popped(list, n)[i] == list[|list| - 1 - i]
    decreases n
  {
    if n > 0 { PoppedInOrder(list[..|list| - 1], n - 1); }
  }

  lemma {:induction false} CountByIndex(list: seq<Payload>, i: nat)
    requires i < |list| && forall k :: 0 <= k < |list| && k != i ==> list[k] != list[i]
    ensures Count(list, list[i]) == 1
    decreases |list|
  {
    assert list == list[..|list| - 1] + [list[|list| - 1]];
    if i < |list| - 1 {
      CountByIndex(list[..|list| - 1], i);
    } else {
      assert list[i] !in list[..|list| - 1];
    }
  }

  /** p is a payload for j, with the retry count and the body of its row. */
  predicate Describes(p: Payload, rows: Rows, j: JobId) {
    j in rows && p.job == j && p.retry == rows[j].retry && p.body == rows[j].body
  }

  /** Where an answered job sits on the rehydrated list. */
  lemma RehydratedAt(rows: Rows, answer: seq<JobId>, i: nat)
    requires IsPendingListing(rows, answer) && i < |answer|
    ensures answer[i] in rows && HasStatus(rows, answer[i], Pending) && forall j :: j in answer ==> j in rows
    ensures |Reverse(Rehydration(rows, answer))| == |answer|
    ensures Describes(Reverse(Rehydration(rows, answer))[|answer| - 1 - i], rows, answer[i])
  {
    assert answer[i] in answer;
  }

  lemma PoppedAt(rows: Rows, answer: seq<JobId>, i: nat)
    requires IsPendingListing(rows, answer) && i < |answer|
    ensures forall j :: j in answer ==> j in rows
    ensures |Reverse(Rehydration(rows, answer))| == |answer|
    ensures |Popped(Reverse(Rehydration(rows, answer)), |answer|)| == |answer|
    ensures Describes(Popped(Reverse(Rehydration(rows, answer)), |answer|)[i], rows, answer[i])
  {
    RehydratedAt(rows, answer, i);
    PoppedInOrder(Reverse(Rehydration(rows, answer)), |answer|);
  }

  /** The rehydrated list: workers pop exactly the listed jobs, oldest first, each with
      the retry count and the body of its row. */
  lemma PopsOldestFirst(rows: Rows, answer: seq<JobId>)
    requires IsPendingListing(rows, answer)
    ensures
      var popped := Popped(Reverse(Rehydration(rows, answer)), |answer|);
      && |popped| == |answer|
      && (forall i :: 0 <= i < |popped| ==> Describes(popped[i], rows, answer[i]))
      && (forall i, k :: 0 <= i < k < |popped| ==> popped[i].body.submittedAt <= popped[k].body.submittedAt)
  {
    var popped := Popped(Reverse(Rehydration(rows, answer)), |answer|);
    PoppedInOrder(Reverse(Rehydration(rows, answer)), |answer|);
    forall i | 0 <= i < |answer|
      ensures Describes(popped[i], rows, answer[i])
    {
      PoppedAt(rows, answer, i);
    }
    forall i, k | 0 <= i < k < |answer|
      ensures popped[i].body.submittedAt <= popped[k].body.submittedAt
    {
      PoppedAt(rows, answer, i);
      PoppedAt(rows, answer, k);
      assert SubmittedAt(rows, answer[i]) <= SubmittedAt(rows, answer[k]);
    }
  }

  lemma RehydratedOnce(rows: Rows, answer: seq<JobId>, i: nat)
    requires IsPendingListing(rows, answer) && i < |answer|
    ensures answer[i] in rows
    ensures
      var row := rows[answer[i]];
      Count(Reverse(Rehydration(rows, answer)), Payload(answer[i], row.retry, row.body)) == 1
  {
    var pending, at := Reverse(Rehydration(rows, answer)), |answer| - 1 - i;
    RehydratedAt(rows, answer, i);
    forall k | 0 <= k < |pending| && k != at
      ensures pending[k] != pending[at]
    {
      RehydratedAt(rows, answer, |answer| - 1 - k);
    }
    CountByIndex(pending, at);
  }

  lemma RehydratedMatches(rows: Rows, answer: seq<JobId>, p: Payload)
    requires IsPendingListing(rows, answer) && p in Reverse(Rehydration(rows, answer))
    ensures HasStatus(rows, p.job, Pending) && Describes(p, rows, p.job)
  {
    var k :| 0 <= k < |answer| && Reverse(Rehydration(rows, answer))[k] == p;
    RehydratedAt(rows, answer, |answer| - 1 - k);
  }

  lemma ResetMeans(rows: Rows, j: JobId)
    ensures !HasStatus(AllReset(rows), j, Running)
    ensures IsOpen(rows, j) <==> HasStatus(AllReset(rows), j, Pending)
    ensures j in rows <==> j in AllReset(rows)
    ensures j in rows ==> AllReset(rows)[j].retry == rows[j].retry && AllReset(rows)[j].body == rows[j].body
  {
  }

  /** From any tables and an empty pending list, startup recovery restores coverage:
      nothing is RUNNING, and each open row has exactly one payload, with the retry
      count and the body that the row had. */
  lemma StartupCovers(rows0: Rows, answer: seq<JobId>, j: JobId)
    requires IsPendingListing(AllReset(rows0), answer)
    ensures !HasStatus(AllReset(rows0), j, Running)
    ensures IsOpen(rows0, j) <==> HasStatus(AllReset(rows0), j, Pending)
    ensures
      var rows, pending := AllReset(rows0), PushAll([], Rehydration(AllReset(rows0), answer));
      && (IsOpen(rows0, j) ==> Count(pending, Payload(j, rows0[j].retry, rows0[j].body)) == 1)
      && (forall p :: p in pending && p.job == j ==> IsOpen(rows0, j) && Describes(p, rows0, j))
  {
    var rows := AllReset(rows0);
    PushAllReverses(Rehydration(rows, answer));
    ResetMeans(rows0, j);
    if IsOpen(rows0, j) {
      assert j in answer;
      var i :| 0 <= i < |answer| && answer[i] == j;
      RehydratedOnce(rows, answer, i);
    }
    forall p | p in Reverse(Rehydration(rows, answer)) && p.job == j
      ensures IsOpen(rows0, j) && Describes(p, rows0, j)
    {
      RehydratedMatches(rows, answer, p);
    }
  }

  // ── a monitor that dies while it rehydrates ──────────────────────────────

  /** The pending list after a start that died having pushed k payloads, and a second
      start: it finds the list empty and fills it only if k == 0. */
  function AfterRestart(rows: Rows, answer: seq<JobId>, k: nat): seq<Payload>
    requires forall j :: j in answer ==> j in rows
    requires k <= |answer|
  {
    if k == 0 then PushAll([], Rehydration(rows, answer)) else PushAll([], Rehydration(rows, answer)[..k])
  }

  /** The code, started twice; the first monitor dies after `fuse` commands, the
      second gets through. */
  method StartTwice(store: Stores, answer: seq<JobId>, fuse: nat) returns (k: nat)
    requires store.pending == [] && IsPendingListing(AllReset(store.rows), answer)
    modifies store`rows, store`pending
    ensures store.rows == AllReset(old(store.rows))
    ensures k == if fuse < 3 then 0 else if fuse - 3 < |answer| then fuse - 3 else |answer|
    ensures store.pending == AfterRestart(store.rows, answer, k)
  {
    ghost var rows := store.rows;
    ResetTwice(rows);
    var done;
    done, k := RecoverOrphanedJobsOnStartup(store, answer, fuse);
    PushedNothing(Rehydration(AllReset(rows), answer)[..k]);
    var again, n := RecoverOrphanedJobsOnStartup(store, answer, |answer| + 3);
    assert Rehydration(AllReset(rows), answer)[..|answer|] == Rehydration(AllReset(rows), answer);
    assert k == 0 ==> Rehydration(AllReset(rows), answer)[..k] == [];
  }

  lemma ResetTwice(rows: Rows)
    ensures AllReset(AllReset(rows)) == AllReset(rows)
  {
  }

  lemma PushedNothing(ps: seq<Payload>)
    ensures PushAll([], ps) == [] <==> ps == []
  {
  }

  /** The first n payloads, pushed: payload i is there exactly if i < n. */
  lemma PushedPrefix(rows: Rows, answer: seq<JobId>, n: nat, a: nat)
    requires IsPendingListing(rows, answer) && forall j :: j in answer ==> j in rows
    requires n <= |answer| && a < n
    ensures |PushAll([], Rehydration(rows, answer)[..n])| == n
    ensures PushAll([], Rehydration(rows, answer)[..n])[n - 1 - a].job == answer[a]
  {
    PushAllReverses(Rehydration(rows, answer)[..n]);
  }

  lemma PushedExactly(rows: Rows, answer: seq<JobId>, n: nat, i: nat)
    requires IsPendingListing(rows, answer) && forall j :: j in answer ==> j in rows
    requires n <= |answer| && i < |answer|
    ensures (exists p :: p in PushAll([], Rehydration(rows, answer)[..n]) && p.job == answer[i]) <==> i < n
  {
    var pending := PushAll([], Rehydration(rows, answer)[..n]);
    PushAllReverses(Rehydration(rows, answer)[..n]);
    forall a | 0 <= a < n
      ensures pending[n - 1 - a].job == answer[a]
    {
      PushedPrefix(rows, answer, n, a);
    }
    if i < n {
      assert pending[n - 1 - i] in pending;
    } else {
      forall c | 0 <= c < |pending|
        ensures pending[c].job != answer[i]
      {
        assert pending[n - 1 - (n - 1 - c)].job == answer[n - 1 - c];
      }
    }
  }

  /** Exactly which open rows then have a payload: if the first monitor died before
      its first push, all of them; otherwise only those whose payload it had pushed.
      The others stay PENDING with no payload anywhere. */
  lemma CoveredAfterRestart(rows: Rows, answer: seq<JobId>, k: nat, i: nat)
    requires IsPendingListing(rows, answer) && i < |answer| && k <= |answer|
    ensures answer[i] in rows && forall j :: j in answer ==> j in rows
    ensures (exists p :: p in AfterRestart(rows, answer, k) && p.job == answer[i]) <==> k == 0 || i < k
  {
    RehydratedAt(rows, answer, i);
    PushedExactly(rows, answer, if k == 0 then |answer| else k, i);
    assert Rehydration(rows, answer)[..|answer|] == Rehydration(rows, answer);
  }

  /** Such a row exists: two jobs, and a monitor that dies after its first push. */
  lemma RestartStrands(early: Body, late: Body) returns (rows: Rows, answer: seq<JobId>)
    requires early.submittedAt <= late.submittedAt
    ensures IsPendingListing(rows, answer) && |answer| == 2 && forall j :: j in answer ==> j in rows
    ensures HasStatus(rows, answer[1], Pending) && forall p :: p in AfterRestart(rows, answer, 1) ==> p.job != answer[1]
  {
    rows, answer := map[0 := Row(Pending, 0, early), 1 := Row(Pending, 0, late)], [0, 1];
    CoveredAfterRestart(rows, answer, 1, 1);
  }
}
