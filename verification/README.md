# A verified model of the code execution queue

A submission is a row in Postgres and a payload on a Redis list. Gateways insert the
row and push the payload; workers move a payload from `pending` to their own
`processing:{worker}` list, claim the row, run the code in a sandbox, commit the
result and acknowledge; a monitor requeues what dead workers left behind and repairs
the queue when it starts. The two stores share no transaction, any call may fail
before or after it took effect, and any process may die between two calls. What the
program promises in spite of that is stated and proved here.

## How the project is laid out

- `Contracts`, `RedisList`, `Store`: statuses, payloads and rows; the Redis list
  commands; the two stores as an object whose methods are single commands.
- `Protocol`: the queue as a state machine. Every Redis command, SQL statement and SQL
  transaction is one atomic step of a gateway, a worker, the reaper or a starting
  monitor, and all of them interleave. A run is the list of its events.
- In every run: `Soundness` (the inductive invariant, retry bounds), `NoLoss` (a
  conservation law for live copies, and exactly which steps lose a job), `LostJobs`
  (the steps that do), `Overlap` (exactly which steps let a job run twice at once),
  `Duplicates` (one that does), `StaleEntries` (entries of finished jobs drain away),
  `Interruptions` (they can happen anywhere), `Agreement`, `ClaimAccounting`,
  `DeadLetters`.
- In the single-copy regime: `SingleCopy` (the regime and its invariant), `Exclusive`,
  `Bounds`, `Termination`.
- The code that takes those steps, as it is written: `Submission`, `Worker`,
  `Recovery`, `ReaperScan`, `StartupRecovery`. `Worker` runs every command amid
  arbitrary interference and arbitrary failures and shows each to be a protocol step;
  `Weaving` turns a worker's log, amid what the others do, into a run of the protocol.
  `Undisturbed` shows that the protocol's reaper, starting monitor and gateway, left
  alone, do exactly what the code of these processes does, wherever they stop.
- Reaper coordination: `Detection` (the two key scans), `ReaperLock` (the lock, with
  time).
- The sandbox's output: `Utf8`, `OutputCap`, `StreamSplit`, `MemPeak`, `Sandbox`, and
  what follows for a whole execution in `OutputLaws`, `PeakReport`, `StreamShape`,
  `OutputLimits` and `Execution`.
- The WebSocket stream: `Gateway` (registry, fan-out, replay), `StreamHandoff` (no gap
  between replay and live delivery), `GatewaySteps` (the first takes the steps of the
  second) and `StreamOrder` (exactly when a client sees the stream in order).

## Two regimes

Without further assumptions the program is an at-least-once queue. An entry on a list
counts as a live copy of its job unless it is *doomed*: its holder has pushed a
replacement, has committed, has seen a terminal status, or the reaper's cursor has
passed it. A crash turns a doomed entry into a live one again. `NoLoss` proves that an
open job always has a live copy unless a step drops the last one, and says which steps
can: a gateway that dies between INSERT and LPUSH, a worker that dies or gives up
between LREM and the dead-letter transaction, and one that does so after resetting a
row whose entry is already gone.

The single-copy regime (`SingleCopy.Calm`) rules out what makes duplicates: a crash or
error between an LPUSH to `pending` and the matching LREM or DEL, an error after a
result commit, a gateway error after its LPUSH, and the startup reset. Under it jobs
are exclusive, terminal rows are final, and every job is claimed at most four times
and handled in at most 62 steps.

Two assumptions are built into the protocol's steps and discharged elsewhere. The
reaper reads only lists of dead workers: `Detection` proves that a worker whose
heartbeat has stayed present is never reaped. One reaper runs at a time: `ReaperLock`
proves it for scans shorter than the lock's 15 seconds. A scan that takes longer can
overlap with another monitor's, and with the next one of its own monitor, whose
interval does not wait.

## Where the code and its documents disagree

The model follows the code.

- docs/design-decisions.md line 48 says that a job never belongs to no one. It does, in
  three windows; `LostJobs` gives a run through each.
- docs/ALL_BENCHMARKS.md line 172 says that a recovered job is never executed twice.
  `Duplicates.StartupDoublesExecution` gives a run in which a starting monitor resets
  the row of a live worker and a second worker claims it while the first still executes.
  `Overlap.OneClaimantRuns` says when it is true: exactly if no step resets a row while
  somebody executes its job.
- The startup recovery in services/system-monitor/src/index.ts lines 20-31 means to
  leave no job stuck. A monitor that dies between two pushes leaves a non-empty
  list, and the next start then pushes nothing: `StartupRecovery.CoveredAfterRestart`.
- services/system-monitor/src/index.ts lines 28-29 say that live workers are handled
  separately; the reset statement does not look at heartbeats.
- `ALLOWED_TRANSITIONS` in shared/contracts/src/index.ts has no edge from RUNNING or
  any terminal status to PENDING and none from PENDING to FAILED. No service calls it,
  and retries, recovery and dead-lettering take those edges. The diagram at
  docs/architecture-diagram.md lines 110-117 is the one that `Exclusive.StepLifecycle`
  proves, in the single-copy regime; `Exclusive.OpenRowLifecycle` and
  `Exclusive.TerminalSurvives` say exactly which steps leave it in other runs.
- MAX_RESULT_OUTPUT_BYTES in shared/contracts/src/index.ts reads as a limit of 64 KiB. A
  cut inside a character is decoded as U+FFFD, so up to two bytes more are kept.

## Model

| member | source | states |
|---|---|---|
| Soundness.RunInv | services/execution-worker/src/index.ts:117-143 | in every reachable state payloads describe existing rows, every row's and payload's retry count is in 0..3, dead-letter entries have exactly 3, an unacknowledged payload is on its worker's list, and the reaper's entries are the dead worker's list |
| Soundness.StepInv | services/system-monitor/src/reaper.ts:163-217 | each step of any process keeps that invariant; rows are never removed and their bodies never change |
| NoLoss.WorkerFlow | services/execution-worker/src/index.ts:165-306 | conservation: after a step of the main loop, live copies of a payload are those before, minus what the step retires, plus the doomed entry a failure or crash revives |
| NoLoss.RetryFlow | services/execution-worker/src/index.ts:117-143 | the same books for requeueWithBackoff and sendToDLQ, where a copy may change its retry count or move into memory |
| NoLoss.LossIsReal | services/api-gateway/src/routes/submissions.ts:67-74 | dropping the only live copy of an open job leaves it open with no copy anywhere |
| NoLoss.StepSafe | services/execution-worker/src/index.ts:117-143 | from a state where an open job has a live copy, a step keeps that so if and only if it is not a crash or give-up dropping the only copy |
| NoLoss.NoJobLost | services/system-monitor/src/reaper.ts:147-219 | over whole runs with any interleaving, failures and crashes, an open job that no step dropped has a live copy |
| NoLoss.SparedMeansKept | services/execution-worker/src/index.ts:117-143 | read off the acting process alone: if nobody dies or gives up in one of the three windows with the job in hand, the job is never lost |
| NoLoss.DrainedMeansDone | docs/design-decisions.md:40-48 | once every queue and every hand is empty, each job that was never lost is terminal |
| LostJobs.GatewayWindowLoses | services/api-gateway/src/routes/submissions.ts:67-74 | a run in which a gateway dies between INSERT and LPUSH and the PENDING job has no copy |
| LostJobs.DeadLetterWindowLoses | services/execution-worker/src/index.ts:120-122 | a run in which a worker dies between LREM and the dead-letter transaction and the job is gone |
| LostJobs.PublishWindowLoses | services/execution-worker/src/index.ts:304-335 | a run in which a completed, acknowledged job is reset because its completion marker could not be published, and then lost |
| Agreement.VerdictAgrees | services/execution-worker/src/index.ts:224-250 | every verdict is terminal, agrees with its category, and is COMPLETED exactly for exit code 0 in time, within limits and memory |
| Agreement.StepAgreement | services/api-gateway/src/routes/submissions.ts:80-91 | status and category agree after a step if and only if the step is not one of the gateway's two error statements contradicting the other table |
| Agreement.StatusAndResultAgree | services/execution-worker/src/index.ts:265-298 | in every state of every run whose enqueue never threw, COMPLETED has a null category, TIMEOUT has TIMEOUT, FAILED another one |
| Agreement.LateRefusalContradicts | services/api-gateway/src/routes/submissions.ts:74-91 | a run in which the gateway's late error path leaves a COMPLETED row with category UNKNOWN |
| ClaimAccounting.ClaimsArePaid | services/execution-worker/src/index.ts:180-186 | in all runs, claims of a job are at most one plus the writes resetting it to PENDING |
| ClaimAccounting.ExecutorsArePaid | services/execution-worker/src/index.ts:180-222 | at most one plus resets workers execute a job at once |
| ClaimAccounting.RetryCountMoves | services/execution-worker/src/index.ts:128-132 | the retry count of a row moves only when a retry or the reaper resets it, and then to the count of the payload handled plus one |
| DeadLetters.DeadLetterProvenance | services/execution-worker/src/index.ts:75-104 | every dead-letter entry has retry count 3 and its row was committed FAILED with WORKER_CRASH earlier in the run |
| Duplicates.StartupDoublesExecution | services/system-monitor/src/index.ts:37-80 | a run in which a starting monitor makes two workers execute the same job at once |
| Overlap.StepOneClaimant | services/execution-worker/src/index.ts:180-222 | in any run: from a state where at most one worker executes the job, and nobody does while its row is PENDING, a step keeps that so if and only if it does not reset the row while somebody executes the job |
| Overlap.OneClaimantRuns | docs/ALL_BENCHMARKS.md:172-172 | over whole runs: that holds in every state if and only if no step of the run resets the row while somebody executes the job |
| Overlap.NoDoubleExecution | docs/ALL_BENCHMARKS.md:172-172 | two workers executing such a job are the same worker, in every run |
| StaleEntries.PendingBooks | services/execution-worker/src/index.ts:168-211 | the books of the pending list for every step of every process: entries after plus pops equal entries before plus pushes, each push named by who makes it |
| StaleEntries.SeenOpenWasOpen | services/execution-worker/src/index.ts:195-210 | in any run, a worker finds a row not terminal only when the row is not terminal |
| StaleEntries.StepSettled | services/execution-worker/src/index.ts:195-211 | a finished job of which nobody is about to push a payload stays so under a step if and only if the step does not reset its row |
| StaleEntries.StaleEntriesDrain | services/execution-worker/src/index.ts:188-211 | over whole runs in which its row is not reset: every pop of a payload of such a job lowers the number of its entries by one for good, so it is popped at most as often as it was listed and does not circulate |
| StaleEntries.StalePathIsForced | services/execution-worker/src/index.ts:176-212 | the only thing a worker can do with such a payload, short of dying or an exception, is to miss the claim, see that the job is done and drop the entry |
| StaleEntries.StaleRound | services/execution-worker/src/index.ts:165-212 | that round removes the entry and changes nothing else |
| Interruptions.WorkerMayThrow | services/execution-worker/src/index.ts:326-336 | a worker holding a payload may throw at every point: the main loop then enters the retry, the retry is given up, and the stores are as they were |
| Interruptions.WorkerMayDie | services/system-monitor/src/reaper.ts:147-158 | a worker may die at every point and leaves its list behind |
| SingleCopy.StepKeepsSingle | services/execution-worker/src/index.ts:165-211 | each permitted step keeps: one owned copy per job, payloads on pending match PENDING rows, holders' knowledge of their rows is right |
| SingleCopy.CalmRunsAreSingle | services/system-monitor/src/reaper.ts:163-217 | that invariant holds in every state of a single-copy run |
| Exclusive.ClaimNeverMisses | services/execution-worker/src/index.ts:180-188 | a popped payload's row is PENDING, so the conditional claim always matches |
| Exclusive.ExclusiveExecution | services/execution-worker/src/index.ts:180-304 | no two workers are between pop and acknowledgement of the same job |
| Exclusive.ExactlyOneCopy | services/system-monitor/src/reaper.ts:194-206 | an open job that was never lost has exactly one live copy |
| Exclusive.StepLifecycle | docs/architecture-diagram.md:110-117 | every status change of a row is an edge of the documented lifecycle |
| Exclusive.OpenRowLifecycle | docs/architecture-diagram.md:110-117 | in any run, a step takes an open row along an edge of that lifecycle, or leaves its status alone, if and only if it is not a verdict other than FAILED on a row that was reset to PENDING meanwhile |
| Exclusive.TerminalIsForever | services/execution-worker/src/index.ts:286-291 | a row once COMPLETED, FAILED or TIMEOUT stays exactly as it is for the rest of the run |
| Exclusive.TerminalSurvives | services/execution-worker/src/index.ts:180-187 | in any run, a terminal status survives a step if and only if the step is not a differing verdict, a reset by a retry or the reaper, a dead-letter transaction on a non-FAILED row, or a late refusal |
| Bounds.StepTraced | services/execution-worker/src/index.ts:117-146 | every copy after a step comes from a copy before it whose claim allowance pays for a claim and, unless the step interrupts the reaper, whose rank is at least as high, strictly higher if the step acts on the job |
| Termination.ClaimedAtMostFourTimes | shared/contracts/src/index.ts:103-103 | a job is claimed at most MAX_RETRY_COUNT + 1 = 4 times |
| Termination.BoundedSteps | services/execution-worker/src/index.ts:161-338 | with an uninterrupted reaper, at most 62 steps ever act on a job |
| Termination.OpenHasStepsLeft | services/execution-worker/src/index.ts:161-338 | an open, never lost job has not used up its 62 steps, so after them it is terminal |
| Termination.HolderCanMove | services/execution-worker/src/index.ts:165-306 | whoever holds a live copy that is not waiting can take a productive step that acts on the job |
| Submission.Submit | services/api-gateway/src/routes/submissions.ts:63-97 | the answer and the whole new state for every combination of lost requests and replies; the job is stranded without a payload exactly when INSERT's reply, or both LPUSH's and UPDATE's requests, are lost |
| Undisturbed.SubmissionMeetsCode | services/api-gateway/src/routes/submissions.ts:63-97 | whatever the protocol's handler does on its own, and wherever it dies, it has done what the code does for some outcome of its calls |
| Undisturbed.EverySubmissionRuns | services/api-gateway/src/routes/submissions.ts:63-97 | and it can do what the code does for every outcome in which the row is inserted |
| Worker.Loop.PopJob | services/execution-worker/src/index.ts:168-174 | a job or a timeout on an empty list; a lost reply leaves the entry on the worker's list and the worker idle |
| Worker.Loop.Claim | services/execution-worker/src/index.ts:180-188 | the conditional UPDATE as the protocol's claim or miss, by whether the row read is PENDING |
| Worker.Loop.HandleMiss | services/execution-worker/src/index.ts:188-212 | after a missed claim: the entry is dropped exactly if the row read is terminal, and pushed back first exactly if it is not; where an exception leaves the worker |
| Worker.Loop.CommitVerdict | services/execution-worker/src/index.ts:224-298 | the if-chain and the transaction commit exactly the protocol's verdict, or nothing |
| Worker.Loop.Execute | services/execution-worker/src/index.ts:222-306 | sandbox, commit, acknowledgement, announcement, in this order; where an exception leaves the worker |
| Worker.Loop.SendToDLQ | services/execution-worker/src/index.ts:63-110 | commit FAILED, push the dead-letter entry, announce, in this order |
| Worker.Loop.RequeueWithBackoff | services/execution-worker/src/index.ts:117-146 | one of the two retry sequences in full, chosen by the retry count, if nothing fails; a prefix that is given up otherwise; the worker is idle afterwards |
| Worker.Loop.ProcessOnce | services/execution-worker/src/index.ts:161-338 | one round does a complete path, or a path up to a failure followed by the retry that failure starts; without failures a waiting job's path is completed |
| Worker.Loop.ProcessQueue | services/execution-worker/src/index.ts:153-343 | the loop is a sequence of such rounds, each step of which is a protocol step |
| Worker.StepIsProtocolStep | services/execution-worker/src/index.ts:165-337 | a step of the loop is enabled in the state machine wherever the worker's view is the same, and has the same effect |
| Weaving.WovenIsRun | services/execution-worker/src/index.ts:153-343 | the steps a worker's loop records, woven into whatever the others do in between, are a run of the state machine, at the end of which the worker is where its log says |
| Worker.AnnouncedAfterCommit | services/execution-worker/src/index.ts:291-306 | when EXECUTION_COMPLETE may be sent, this worker has committed a terminal status for that job and done nothing else since but acknowledge or push the dead-letter entry |
| Recovery.RecoverEntry | services/system-monitor/src/reaper.ts:173-213 | tables, pending and dead-letter after one entry, for a process that may die before any command |
| Recovery.RecoverJobsFromDeadWorker | services/system-monitor/src/reaper.ts:147-219 | the whole state after a recovery interrupted at any command, in terms of the prefix of the list it settled |
| Recovery.PassIdempotent | services/system-monitor/src/reaper.ts:173-203 | settling a list twice leaves the tables as settling it once, repeated job ids included |
| Recovery.RestartOnce | services/system-monitor/src/reaper.ts:147-219 | a pass interrupted after any prefix and started over ends like a single pass |
| Recovery.RestartsAreInvisible | services/system-monitor/src/reaper.ts:147-219 | any number of interrupted attempts followed by a complete one leave statuses, retry counts and categories as one uninterrupted run |
| Recovery.RecoverWithRestarts | services/system-monitor/src/reaper.ts:147-219 | the code, restarted until it gets through, leaves exactly the tables of one uninterrupted run and an empty list |
| Recovery.RetryRisesOnce | services/system-monitor/src/reaper.ts:188-206 | for any list, job ids repeated or not, and however many attempts it took: a row is left open exactly if it was open and no entry of its job had used up its retries; it is then PENDING with the retry count of the last entry of its job plus one |
| Recovery.TerminalNeverAnnounced | services/system-monitor/src/reaper.ts:179-192 | a terminal job is neither requeued nor dead-lettered by a pass |
| Recovery.PushedExactly | services/system-monitor/src/reaper.ts:173-213 | which payloads a pass pushes, read off the tables at its start: the entries of an open job in order, retry count plus one, until one has none left, which goes to dead-letter as it is and ends it |
| Recovery.MachineSettles | services/system-monitor/src/reaper.ts:173-203 | the protocol's reaper settles an entry exactly as this code does |
| Undisturbed.PassMeetsCode | services/system-monitor/src/reaper.ts:147-219 | whatever the protocol's reaper does in a pass of its own, and wherever it stops, tables and lists are those of the code's pass over a prefix of the list |
| Undisturbed.PassGetsThrough | services/system-monitor/src/reaper.ts:147-219 | and there is such a pass that handles and deletes the whole list |
| ReaperScan.ScanKeys | services/system-monitor/src/reaper.ts:79-90 | the cursor loop returns the keys of all pages of an iteration, in order |
| ReaperScan.RecoverAll | services/system-monitor/src/reaper.ts:281-284 | several dead workers in turn, each recovery failing at any command: tables, requeued and dead-lettered payloads and deleted lists are those of a prefix of the whole, all of it when it gets through |
| ReaperScan.FleetIsOnePass | services/system-monitor/src/reaper.ts:281-284 | recovering several workers is one pass over their lists put together: tables, requeued and dead-lettered payloads |
| ReaperScan.ScanRestarts | services/system-monitor/src/reaper.ts:281-284 | a scan aborted at any command, and then run over the workers that remain, leaves the tables of one that was not aborted |
| ReaperScan.NoOrphanRuns | services/system-monitor/src/reaper.ts:179-203 | after a finished scan no job on a dead worker's list is RUNNING |
| ReaperScan.RunReaperScan | services/system-monitor/src/reaper.ts:230-295 | skips exactly if the lock is held, touching nothing; otherwise recovers exactly the workers with a list and no heartbeat seen, its effect on tables and lists being that of a prefix when it is aborted, and releases the lock unless a rival took it after the TTL, whose lock it leaves alone |
| StartupRecovery.RecoverOrphanedJobsOnStartup | services/system-monitor/src/index.ts:33-87 | the whole state for a monitor that may die after any command: RUNNING rows are reset, an empty pending list is refilled from the listed rows as far as it got, a non-empty one untouched |
| StartupRecovery.PopsOldestFirst | services/system-monitor/src/index.ts:56-80 | workers then pop exactly the listed jobs, in created_at order, each with the retry count and the body of its row |
| StartupRecovery.StartupCovers | services/system-monitor/src/index.ts:37-80 | from any tables and an empty list: exactly one payload per open row, with the retry count and body the row had, and none for other rows |
| StartupRecovery.StartTwice | services/system-monitor/src/index.ts:33-87 | a start interrupted at any command, then a complete one: if the first pushed anything, the second pushes nothing |
| StartupRecovery.CoveredAfterRestart | services/system-monitor/src/index.ts:48-80 | after those two starts an open row has a payload if and only if the first start pushed none at all or had already pushed this one |
| StartupRecovery.RestartStrands | services/system-monitor/src/index.ts:48-80 | two PENDING rows, the second of which is left without a payload that way |
| Undisturbed.StartMeetsCode | services/system-monitor/src/index.ts:33-87 | whatever the protocol's starting monitor does on its own, and wherever it dies, it has done what the code does with some correct answer to its SELECT |
| Undisturbed.StartReaches | services/system-monitor/src/index.ts:33-87 | and with an empty list it can push any number of the rows of any correct answer |
| Detection.KeysRoundTrip | services/system-monitor/src/reaper.ts:63-73 | extracting a worker id undoes building its key, whatever the id |
| Detection.FindDeadWorkers | services/system-monitor/src/reaper.ts:248-272 | exactly the ids with a processing key and no heartbeat key, each once |
| Detection.LiveWorkersAreSpared | services/system-monitor/src/reaper.ts:245-272 | a worker whose heartbeat key was present ever since its first heartbeat is never called dead, however both scans interleave with starting and popping workers |
| Detection.ReapedKeysWereMissing | services/system-monitor/src/reaper.ts:252-272 | whoever is called dead had begun, and lacked its key at some time during the second scan |
| Detection.DeadWorkersAreFound | services/system-monitor/src/reaper.ts:245-272 | a worker with a list throughout the first scan and no key throughout the second is always called dead |
| Detection.UnheardWorkerIsReaped | services/execution-worker/src/index.ts:27-33 | the premise is needed: a worker whose first heartbeat was lost is reaped during its first job |
| ReaperLock.LockKey.SetNxPx | services/system-monitor/src/reaper.ts:235-241 | acquires exactly if the key is absent or expired |
| ReaperLock.LockKey.DeleteIfOwned | services/system-monitor/src/reaper.ts:49-55 | deletes exactly if the value is the caller's own |
| ReaperLock.LockIsOwn | services/system-monitor/src/reaper.ts:44-55 | while a scan is younger than 15000 ms the lock's value is its own id |
| ReaperLock.OverlapMeansOverrun | services/system-monitor/src/reaper.ts:230-241 | of two overlapping scans, of two monitors or of one, at least one has overrun the TTL |
| ReaperLock.LeaseExcludes | services/system-monitor/src/reaper.ts:235-241 | nobody acquires the lock while such a scan runs |
| ReaperLock.ReleaseSparesOthers | services/system-monitor/src/reaper.ts:289-294 | releasing, overrun or not, leaves every other scan's lock in place |
| ReaperLock.OverrunOverlaps | services/system-monitor/src/index.ts:109-112 | overrunning does let a second scan in, for any two monitors and for one and the same |
| Utf8.RoundTrip | services/execution-worker/src/sandbox.ts:40-46 | decoding undoes encoding for every text without lone surrogates |
| Utf8.DecodeIsWellFormed | services/execution-worker/src/sandbox.ts:166-166 | decoding any bytes gives a text without lone surrogates |
| Utf8.Resynchronises | services/execution-worker/src/sandbox.ts:166-166 | whatever bytes come first, an encoded text behind them is decoded as it is |
| Utf8.AcceptsExactlyEncodings | services/execution-worker/src/sandbox.ts:166-166 | bytes are decoded without any replacement if and only if they encode some text without lone surrogates |
| Utf8.Cut | services/execution-worker/src/sandbox.ts:46-46 | decoding a prefix of an encoding keeps the whole characters before the cut and turns a split one into one U+FFFD |
| OutputCap.AppendRefinesFirstBytes | services/execution-worker/src/sandbox.ts:33-49 | appending chunk by chunk keeps exactly the decoding of the first 64 KiB of everything appended, and reports truncation exactly if something is lost |
| OutputCap.FirstBytesMeans | services/execution-worker/src/sandbox.ts:39-48 | what that is in whole characters, and its length: 65536 to 65538 bytes once cut, the excess being what the U+FFFD adds over the fragment it stands for |
| OutputCap.FullStays | services/execution-worker/src/sandbox.ts:35-37 | after 64 KiB nothing appended changes what is kept |
| OutputCap.OvershootHappens | services/execution-worker/src/sandbox.ts:45-48 | the excess of two bytes is attained |
| StreamSplit.SplitForStream | services/execution-worker/src/sandbox.ts:71-85 | the two nested loops compute the specified chunks |
| StreamSplit.SplitIsLossless | services/execution-worker/src/sandbox.ts:71-85 | the chunks of a text join to the text |
| StreamSplit.SplitIsSound | services/execution-worker/src/sandbox.ts:71-85 | every chunk is at most 16384 bytes, none of a non-empty text is empty, all but the last have at least 4915 code units, so there are at most len/4915 + 1 |
| StreamSplit.ChunkLength | services/execution-worker/src/sandbox.ts:77-82 | while 16384 units remain, a chunk has the longest length that fits among 16384, 14745, 13270 and so on down to 5139, each nine tenths of the one before |
| MemPeak.FindMatch | services/execution-worker/src/sandbox.ts:168-171 | the leftmost match of the memory-peak expression, if there is one |
| MemPeak.StripCutsLine | services/execution-worker/src/sandbox.ts:168-172 | of a text around a first peak line, exactly what precedes and follows that line with its line end remains, and the peak is the line's digits |
| MemPeak.StripKeepsRest | services/execution-worker/src/sandbox.ts:168-172 | a text without a peak line stays as it is and names no peak |
| MemPeak.EveryPeakHasItsLine | services/execution-worker/src/sandbox.ts:168-172 | these two cases are all there are |
| MemPeak.StripKeepsWellFormed | services/execution-worker/src/sandbox.ts:168-172 | removing the match leaves no lone surrogate behind |
| Sandbox.Collector.HandleOutput | services/execution-worker/src/sandbox.ts:163-193 | the new accumulator and the captured variables are those of one step of the collecting fold |
| Sandbox.Collector.OnData | services/execution-worker/src/sandbox.ts:195-196 | a data event is one step of the fold on its own channel |
| Sandbox.Collector.Run | services/execution-worker/src/sandbox.ts:163-196 | any sequence of data events is the fold over it |
| Sandbox.Collector.OnClose | services/execution-worker/src/sandbox.ts:219-247 | exit code 137 counts as out of memory exactly if neither the timeout nor the stream limit caused it |
| OutputLaws.CollectTells | services/execution-worker/src/sandbox.ts:163-196 | after any chunks: the accepted texts are the longest prefix within 1 MiB, streamed in order and followed by the notice exactly if one was refused; each channel keeps the first 64 KiB of what was accepted on it; truncated exactly if a channel had more |
| OutputLaws.BytesAreShared | services/execution-worker/src/sandbox.ts:176-185 | the streamed bytes are those of stdout plus those of stderr |
| PeakReport.PeakLineIsNotPrinted | services/execution-worker/src/sandbox.ts:166-174 | of a chunk with a peak line, what is before and behind the line counts as printed |
| PeakReport.PeakIsLastNoted | services/execution-worker/src/sandbox.ts:165-172 | the reported peak is the one named last by a chunk up to and including the one that hits the limit |
| StreamShape.StreamShows | services/execution-worker/src/sandbox.ts:129-193 | chunks are non-empty and within 16 KiB, reassemble per channel to a prefix of what was printed, all of it unless the limit was hit, at most 1 MiB; the notice is last, once, exactly if the limit was hit |
| StreamShape.PersistedIsStreamedPrefix | services/execution-worker/src/sandbox.ts:185-193 | the result row keeps, per channel, the first 64 KiB of what was streamed on it and says truncated exactly if that is not all |
| StreamShape.PersistedBound | services/execution-worker/src/sandbox.ts:33-49 | while not truncated the result row holds all that was streamed; it never exceeds 64 KiB by more than two bytes; a channel that overflowed is full |
| StreamShape.FullIsFrozen | services/execution-worker/src/sandbox.ts:33-37 | an accumulator that has reached the cap is never changed by any later chunk |
| Execution.ExecuteAndAnnounce | services/execution-worker/src/sandbox.ts:129-247 | with the publish queue awaited before the worker goes on, the stream is what was handed over less the failed appends, then the completion marker exactly if result and acknowledgement went through and its own append did; a timeout at any point changes nothing that was collected |
| Execution.WithoutFailures | services/execution-worker/src/sandbox.ts:132-140 | without Redis failures the stream is exactly what was handed over |
| Execution.AppendedExactly | services/execution-worker/src/sandbox.ts:132-140 | a failed append does not break the chain: every chunk whose own append succeeds is in the stream, behind exactly those that succeeded before it |
| Execution.FailuresOnlyDrop | services/execution-worker/src/sandbox.ts:132-140 | failed appends leave chunks out but never reorder, repeat or invent one |
| Execution.CompletionIsLast | services/execution-worker/src/index.ts:304-306 | whatever the program prints, no earlier chunk is the completion marker, and the only system chunk before it is the limit notice, directly before it |
| OutputLimits.ExceededMeansTruncated | services/execution-worker/src/sandbox.ts:165-193 | if every chunk is at most 1 MiB less 128 KiB, hitting the stream limit implies truncated persisted output, for any interleaving of the channels |
| OutputLimits.HarmlessIsBest | services/execution-worker/src/sandbox.ts:177-193 | with chunks one byte larger it does not |
| OutputLimits.VerdictMeans | services/execution-worker/src/index.ts:229-250 | status and category by cause, each an if and only if: TIMEOUT for a timeout, RUNTIME_ERROR for the stream limit, OOM, and for other failures SYNTAX_ERROR exactly if the persisted stderr names SyntaxError or IndentationError, RUNTIME_ERROR if not; never WORKER_CRASH or UNKNOWN |
| OutputLimits.ReportMeans | services/execution-worker/src/sandbox.ts:219-247 | the same in terms of what the sandbox saw: exit code, timer, stream limit and kept stderr |
| Gateway.ParseStreamPayload | services/api-gateway/src/routes/submissions.ts:23-30 | the loop over field pairs finds what the specification finds, on any list of fields |
| Gateway.PayloadIsFirst | services/api-gateway/src/routes/submissions.ts:26-28 | the value behind the first even position that reads "payload" |
| Gateway.PayloadExactly | services/api-gateway/src/routes/submissions.ts:23-30 | a payload is found if and only if the entry carries it behind the first even position that reads "payload" |
| Gateway.PayloadsInTwo | services/api-gateway/src/routes/submissions.ts:266-272 | the replay of two stretches of a stream is the replay of one and then of the other |
| Gateway.ReplayIsComplete | services/api-gateway/src/routes/submissions.ts:266-272 | entries that carry these non-empty texts are replayed as exactly these texts, in order, none left out |
| Gateway.Connection.Replay | services/api-gateway/src/routes/submissions.ts:263-281 | an open socket is sent every stored payload in stream order; closing is scheduled exactly if one of them was the completion marker or the status is terminal |
| Gateway.ActiveStreams.Register | services/api-gateway/src/routes/submissions.ts:247-252 | the socket is added to its job's set |
| Gateway.ActiveStreams.Cleanup | services/api-gateway/src/routes/submissions.ts:229-242 | the socket leaves, an emptied set goes with it, a second call does nothing |
| Gateway.LeaveUndoesEnter | services/api-gateway/src/routes/submissions.ts:229-252 | cleaning up undoes registering exactly |
| Gateway.LeaveSparesOthers | services/api-gateway/src/routes/submissions.ts:237-252 | sockets come and go independently and no empty set is left |
| Gateway.ActiveStreams.OnMessage | services/api-gateway/src/index.ts:24-50 | exactly the open sockets of the job receive the message; a completion schedules their closing and changes nothing else |
| StreamHandoff.StepInv | services/api-gateway/src/index.ts:24-50 | each step of publishers, gateway and sockets keeps the hand-off invariant |
| StreamHandoff.NoGap | services/api-gateway/src/routes/submissions.ts:247-272 | an open, replayed socket has received an entry the stream held at its XRANGE if and only if it was in the replayed window or its message reached the gateway; never more than twice |
| StreamHandoff.CaughtUpIsComplete | services/execution-worker/src/sandbox.ts:132-136 | once publishers and gateway have caught up with no message lost, such a socket has everything |
| StreamOrder.OrderShows | services/api-gateway/src/routes/submissions.ts:247-272 | when publishers publish in stream order: an open, replayed socket first receives the entries in stream order if and only if no live message overtook the replay and none was overtaken by it |
| StreamOrder.QuietReplayIsOrdered | services/api-gateway/src/routes/submissions.ts:247-272 | so it does if nothing had been trimmed and no message was delivered to it between registration and replay |
| StreamOrder.LiveOvertakesReplay | services/api-gateway/src/routes/submissions.ts:262-272 | a run without any failure in which a live message arrives before the replay |
| GatewaySteps.Deliver | services/api-gateway/src/index.ts:24-50 | fanning a message out takes the registry as the hand-off's delivery takes its sockets |
| GatewaySteps.Join | services/api-gateway/src/routes/submissions.ts:247-252 | registering a connection is a new socket joining |
| GatewaySteps.Replay | services/api-gateway/src/routes/submissions.ts:263-272 | given an answer whose entries carry the payloads of the window, the replay loop is the hand-off's replay |
| GatewaySteps.Close | services/api-gateway/src/routes/submissions.ts:229-245 | the scheduled close and the cleanup it triggers are the socket's close |

## Left out

- Docker, cgroups, the runner images and the kill command: an execution is an arbitrary sequence of stdout and stderr chunks, an exit code and a timeout flag.
- Payloads and entries that are not valid JSON, and jobs whose row is missing: payloads are well formed and carry the fields of their row. (The claim's lookup of a missing row is modelled; such a job is pushed back forever.)
- Equality of payloads stands for equality of their JSON texts. `userId` absent and `userId` null are the same value here; LREM is only ever given the text that was popped.
- A memory-peak line that arrives split over two chunks: the code does not recognise it, and neither does the model.
- Timestamps of chunks, timing fields, error messages and the numeric value of the memory peak (its digits are kept).
- Waiting times: backoff, heartbeats' intervals and the reaper's interval are not part of the protocol. The lock's expiry is, in `ReaperLock` and `ReaperScan`.
- A worker declared dead while it lives, for instance behind a network partition: DEL can then drop a freshly popped job. The protocol's reaper reads lists of crashed workers only, see `Detection` for when that is so.
- Dead-letter entries carry a failure time and a reason in the code; here they are the payload.
- Completion markers for jobs the reaper buries: the code sends none, and none is claimed.
- A dead-letter entry for every job that exhausted its retries: an interruption between the FAILED commit and the push costs the entry, as `Recovery.TerminalNeverAnnounced` shows.
- The dead-letter routes, listings, pagination, rate limits, authentication, metrics, logging and the web interface.
- Math.floor(end * 0.9) is computed in doubles; for the values that occur, up to 16384, it is exactly 9 * end / 10, which is what `StreamSplit` uses.
- Iteration order of a Set of sockets, and the 100 ms before a scheduled close.
- A socket error without a close event, and a failing SELECT or XRANGE: both end in a closed socket, which `StreamHandoff` covers by its Close event.
- NoLoss.NoJobLost: assumes that no step dropped the last copy, because the code does drop it in the three windows; `NoLoss.StepSafe` says exactly when, and `NoLoss.SparedMeansKept` which crashes have to be ruled out.
- Exclusive.TerminalIsForever: holds in the single-copy regime only, because outside it a failed completion marker or a late duplicate resets a terminal row; `Exclusive.TerminalSurvives` says exactly which steps do.
- Termination.BoundedSteps: counts steps in the single-copy regime with an uninterrupted reaper, because outside it a job can be reset without limit.
