/** POST /submissions: the row is inserted, then the payload pushed; if anything
    throws after the insert, a catch block marks the row FAILED and records UNKNOWN. */
module Submission {
  import opened Contracts
  import opened RedisList
  import opened Store

  /** 201, 503, or an exception that leaves the handler. */
  datatype Answer = Created | Unavailable | Broken

  /** How the five remote calls turn out, as far as they are made. */
  datatype Replies = Replies(insert: Reply, push: Reply, length: Reply, mark: Reply, record: Reply)

  predicate Enqueued(r: Replies) {
    r.insert.Fine? && r.push.Fine? && r.length.Fine?
  }

  predicate PushHappens(r: Replies) {
    r.insert.Fine? && !r.push.RequestLost?
  }

  predicate MarkHappens(r: Replies) {
    r.insert.Fine? && !(r.push.Fine? && r.length.Fine?) && !r.mark.RequestLost?
  }

  /** The job is in the table, open, and its payload is nowhere: the first of the
      windows in which a job belongs to no one. */
  predicate Stranded(r: Replies) {
    || r.insert.ReplyLost?
    || (r.insert.Fine? && r.push.RequestLost? && r.mark.RequestLost?)
  }

  method Submit(store: Stores, job: JobId, body: Body, r: Replies) returns (answer: Answer)
    requires job !in store.rows && job !in store.results
    requires forall p :: p in store.pending ==> p.job != job
    modifies store`rows, store`results, store`pending
    ensures answer.Created? <==> Enqueued(r)
    ensures answer.Unavailable? <==> r.insert.Fine? && !Enqueued(r) && r.mark.Fine? && r.record.Fine?
    ensures store.pending ==
            if PushHappens(r) then LPush(old(store.pending), Payload(job, 0, body)) else old(store.pending)
    ensures store.rows ==
            if r.insert.RequestLost? then old(store.rows)
            else old(store.rows)[job := Row(if MarkHappens(r) then Failed else Pending, 0, body)]
    ensures store.results ==
            if MarkHappens(r) && r.mark.Fine? && !r.record.RequestLost? then old(store.results)[job := Some(Unknown)]
            else old(store.results)
    ensures Stranded(r) <==> IsOpen(store.rows, job) && forall p :: p in store.pending ==> p.job != job
    ensures answer.Unavailable? ==>
              HasStatus(store.rows, job, Failed) && ResultOf(store.results, job) == Some(Some(Unknown))
  {
    if r.insert.RequestLost? { return Broken; }
    store.InsertRow(job, body);
    if r.insert.ReplyLost? { return Broken; }
    var threw := r.push.RequestLost?;
    if !threw {
      store.PushPending(Payload(job, 0, body));
      threw := r.push.ReplyLost? || !r.length.Fine?;
    }
    if !threw { return Created; }
    if r.mark.RequestLost? { return Broken; }
    store.MarkFailed(job);
    if r.mark.ReplyLost? { return Broken; }
    if r.record.RequestLost? { return Broken; }
    store.RecordCategory(job, Unknown);
    return if r.record.Fine? then Unavailable else Broken;
  }
}
