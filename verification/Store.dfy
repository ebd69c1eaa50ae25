/** The two stores as the services' sequential code sees them: Postgres tables and
    Redis lists, updated in place one command at a time. */
module Store {
  import opened Contracts
  import opened RedisList

  /** How a remote call turns out: as meant, without effect, or with its effect but
      an error for an answer. */
  datatype Reply = Fine | RequestLost | ReplyLost

  class Stores {
    var rows: Rows
    var results: Results
    var pending: seq<Payload>
    var deadLetter: seq<Payload>
    var processing: map<WorkerId, seq<Payload>>

    constructor ()
      ensures rows == map[] && results == map[] && pending == [] && deadLetter == [] && processing == map[]
    {
      rows, results, pending, deadLetter, processing := map[], map[], [], [], map[];
    }

    function List(w: WorkerId): seq<Payload>
      reads this`processing
    {
      if w in processing then processing[w] else []
    }

    method InsertRow(job: JobId, body: Body)
      modifies this`rows
      ensures rows == old(rows)[job := Row(Pending, 0, body)]
    {
      rows := rows[job := Row(Pending, 0, body)];
    }

    /** UPDATE ... SET status = FAILED. */
    method MarkFailed(job: JobId)
      modifies this`rows
      ensures rows == WithStatus(old(rows), job, Failed)
    {
      rows := WithStatus(rows, job, Failed);
    }

    method RecordCategory(job: JobId, category: Category)
      modifies this`results
      ensures results == old(results)[job := Some(category)]
    {
      results := results[job := Some(category)];
    }

    /** BRPOPLPUSH on a non-empty pending list. */
    method PopTo(w: WorkerId) returns (p: Payload)
      requires pending != []
      modifies this`pending, this`processing
      ensures p == Tail(old(pending)) && pending == RPop(old(pending))
      ensures processing == old(processing)[w := LPush(old(List(w)), p)]
    {
      p := Tail(pending);
      pending, processing := RPop(pending), processing[w := LPush(List(w), p)];
    }

    /** LREM processing:w 1 p. */
    method RemoveFrom(w: WorkerId, p: Payload)
      modifies this`processing
      ensures processing == old(processing)[w := LRem(old(List(w)), p)]
    {
      processing := processing[w := LRem(List(w), p)];
    }

    /** UPDATE ... SET status = RUNNING WHERE status = PENDING; says if it matched. */
    method ClaimRow(job: JobId) returns (claimed: bool)
      modifies this`rows
      ensures claimed <==> HasStatus(old(rows), job, Pending)
      ensures rows == if claimed then WithStatus(old(rows), job, Running) else old(rows)
    {
      claimed := HasStatus(rows, job, Pending);
      if claimed { rows := WithStatus(rows, job, Running); }
    }

    /** The result transaction. */
    method CommitResult(job: JobId, status: Status, category: Option<Category>)
      modifies this`rows, this`results
      ensures rows == WithStatus(old(rows), job, status) && results == old(results)[job := category]
    {
      rows, results := WithStatus(rows, job, status), results[job := category];
    }

    method SelectStatus(job: JobId) returns (status: Option<Status>)
      ensures status == if job in rows then Some(rows[job].status) else None
    {
      status := if job in rows then Some(rows[job].status) else None;
    }

    method ResetRow(job: JobId, retry: nat)
      modifies this`rows
      ensures rows == ResetTo(old(rows), job, retry)
    {
      rows := ResetTo(rows, job, retry);
    }

    /** The transaction of sendToDLQ. */
    method CommitFailed(job: JobId)
      modifies this`rows, this`results
      ensures rows == WithStatus(old(rows), job, Failed) && results == old(results)[job := Some(WorkerCrash)]
    {
      rows, results := WithStatus(rows, job, Failed), results[job := Some(WorkerCrash)];
    }

    method PushPending(p: Payload)
      modifies this`pending
      ensures pending == LPush(old(pending), p)
    {
      pending := LPush(pending, p);
    }

    method PushDeadLetter(p: Payload)
      modifies this`deadLetter
      ensures deadLetter == LPush(old(deadLetter), p)
    {
      deadLetter := LPush(deadLetter, p);
    }

    method Delete(w: WorkerId)
      modifies this`processing
      ensures processing == old(processing) - {w}
    {
      processing := processing - {w};
    }
  }
}
