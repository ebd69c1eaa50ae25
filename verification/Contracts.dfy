/** The vocabulary every service shares: statuses, failure categories, queue
    payloads and limits (shared/contracts/src/index.ts), the two table rows the
    services read and write, and how a sandbox result becomes a verdict. */
module Contracts {
  import Utf8

  datatype Option<+T> = None | Some(value: T)

  type JobId = nat
  type WorkerId = nat
  type MonitorId = nat

  const MAX_RETRY_COUNT: nat := 3

  datatype Status = Pending | Running | Completed | Failed | TimedOut

  datatype Category = SyntaxError | RuntimeError | Oom | Timeout | WorkerCrash | Unknown

  predicate IsTerminal(status: Status) {
    status.Completed? || status.Failed? || status.TimedOut?
  }

  datatype Language = Python | JavaScript

  /** The part of a submission that never changes once it is inserted.
      submittedAt doubles as the created_at column. */
  datatype Body = Body(userId: Option<string>, code: string, language: Language, submittedAt: nat)

  /** A queue entry. Equality of payloads stands for equality of their JSON texts. */
  datatype Payload = Payload(job: JobId, retry: nat, body: Body)

  function Retried(p: Payload): Payload {
    p.(retry := p.retry + 1)
  }

  /** One row of the submissions table. */
  datatype Row = Row(status: Status, retry: nat, body: Body)

  /** submissions, and the error_category column of submission_results. */
  type Rows = map<JobId, Row>
  type Results = map<JobId, Option<Category>>

  /** UPDATE ... SET status; an UPDATE that matches no row changes nothing. */
  function WithStatus(rows: Rows, job: JobId, status: Status): Rows {
    if job in rows then rows[job := rows[job].(status := status)] else rows
  }

  /** UPDATE ... SET status = PENDING, retry_count. */
  function ResetTo(rows: Rows, job: JobId, retry: nat): Rows {
    if job in rows then rows[job := rows[job].(status := Pending, retry := retry)] else rows
  }

  predicate HasStatus(rows: Rows, job: JobId, status: Status) {
    job in rows && rows[job].status == status
  }

  predicate IsOpen(rows: Rows, job: JobId) {
    job in rows && !IsTerminal(rows[job].status)
  }

  predicate IsClosed(rows: Rows, job: JobId) {
    job in rows && IsTerminal(rows[job].status)
  }

  /** What runInSandbox reports, as far as the verdict depends on it. */
  datatype SandboxReport = SandboxReport(
    exitCode: Option<int>,
    timedOut: bool,
    streamOutputLimitExceeded: bool,
    oomKilled: bool,
    stderr: Utf8.Text)

  datatype Verdict = Verdict(status: Status, category: Option<Category>)

  const SYNTAX_ERROR: Utf8.Text := Utf8.Ascii("SyntaxError")
  const INDENTATION_ERROR: Utf8.Text := Utf8.Ascii("IndentationError")

  /** stderr names an error of the parser. */
  predicate NamesSyntaxError(stderr: Utf8.Text) {
    Utf8.Includes(stderr, SYNTAX_ERROR) || Utf8.Includes(stderr, INDENTATION_ERROR)
  }

  /** The worker's if-chain from report to final status and error category. */
  function Judge(r: SandboxReport): Verdict {
    if r.timedOut then Verdict(TimedOut, Some(Timeout))
    else if r.streamOutputLimitExceeded then Verdict(Failed, Some(RuntimeError))
    else if r.oomKilled then Verdict(Failed, Some(Oom))
    else if r.exitCode != Some(0) then
      Verdict(Failed, Some(if NamesSyntaxError(r.stderr) then SyntaxError else RuntimeError))
    else Verdict(Completed, None)
  }

  /** A status and a result row that tell the same story. */
  predicate Agrees(status: Status, result: Option<Option<Category>>) {
    match status
    case Pending => true
    case Running => true
    case Completed => result == Some(None)
    case TimedOut => result == Some(Some(Timeout))
    case Failed => result.Some? && result.value.Some? && result.value.value != Timeout
  }

  function ResultOf(results: Results, job: JobId): Option<Option<Category>> {
    if job in results then Some(results[job]) else None
  }
}
