# Control-plane agent: a verified model

The control-plane agent is the part of an MCP gateway that keeps a Channel open to
its control plane (CP). It ships billable tool-call samples and log lines, receives
configuration and rotated credentials, and survives restarts. This project models its
hard core in Dafny and proves what every run of it keeps.

| file | what it holds |
|---|---|
| `Words.dfy`, `Samples.dfy` | 64-bit counters that wrap or saturate; samples, billing classes, and ways of counting them |
| `Rollup.dfy` | the MCP Events rollup and its runs: record, drain, requeue, report, lose |
| `Ring.dfy`, `Metrics.dfy` | the metrics buffer: what each operation computes, and the class that does it in place with a cached count |
| `BillableLoss.dfy` | what a run of `record` calls loses, against every other eviction policy |
| `Lane.dfy` | the metrics lane as a step system: producers, any number of flush loops and shutdown flushes, aborts requested and landed apart |
| `Ledger.dfy`, `Order.dfy`, `Rounds.dfy`, `Numbers.dfy`, `Tasks.dfy` | the ledger, the timeline, the rounds, the report numbers, and the aborts and wake-ups of tasks, over every interleaving |
| `Usage.dfy`, `Projection.dfy` | the usage ledger of the lane, and its events as a run of the rollup |
| `Overlap.dfy`, `LateReturn.dfy` | runs that the un-awaited `abort()` allows at every positive size, and exactly when a late cancellation matters |
| `Flush.dfy`, `Shutdown.dfy`, `Alone.dfy` | one flush round and the shutdown flush as imperative code; both are runs of the step system, so its laws are theirs |
| `Settlement.dfy` | what every unrefused shutdown flush achieves, over all its runs |
| `Pacing.dfy`, `PacedLane.dfy` | the timed bound below which no sample is dropped, on timed runs that are runs of the lane |
| `Logs.dfy` | the log lane: the same ring without the guard |
| `Backoff.dfy`, `Enrollment.dfy`, `RunLoop.dfy`, `Handshake.dfy` | backoff, the enrolment URL, expiry and error classes, the run loop, and the shutdown handshake |
| `Credentials.dfy` | credentials in memory and on disk across Registers, rotations and restarts |
| `Lkg.dfy`, `ConfigLane.dfy` | the sealed last-known-good cache under crashes, and the configuration lane that writes it |

Runs are sequences of steps. A step that is not enabled changes nothing, so every
sequence is a run and a theorem over all sequences is a theorem over all
interleavings. "Queued" means accepted by the session's outbound queue.

## Where the code and its documentation differ

The model follows the code. These are the places where the two part, each with a lemma.

- `src/agent.rs:592-599` says that aborting the flush tasks returns their batches before
  the shutdown flush. `abort()` only asks; the cancellation can land later.
  `Overlap.LateCancelOutlivesFlush` gives the run, `LateReturn.LateReturnIff` says exactly
  when it matters (whatever the batch in hand carries), and `Settlement.ShutdownSettlesAll`
  says what holds when nothing is in flight. A new session's loop can overlap an old one in
  the same way, and then the order of shipping (`Order.TimelineHolds`) and the wake-up
  (`Rounds.NoLostWakeup`, `Overlap.OverlapLosesWakeup`) can break. The ledger does not
  (`Ledger.LedgerBalances`).
- The repository's README says the oldest sample is dropped on overflow. The code spends
  non-billable samples first (`MetricsRing.Victim`, `BillableLoss.ExactLoss`).
- `src/agent.rs:375-377` says the run loop returns on a non-recoverable error. It returns
  only on shutdown (`RunLoop.OnlyShutdownEnds`).
- `src/agent.rs:1001-1005` counts a status anywhere in the error chain. The code looks at the
  first one only (`Enrollment.RejectionIff`, `Enrollment.LaterStatusIgnored`).
- `trigger()` reaches only sessions already in their select. One that is being opened runs on
  until its stream ends or `trigger()` is called again, and `finished()` waits with it
  (`RunLoop.TriggerEndsIff`, `RunLoop.TriggerCanBeMissed`).
- A rejected token is presented again when the enrolment URL carries no token
  (`RunLoop.WithoutTokenReplays`).
- A rotated DEK of the wrong length is written to disk and refused in memory
  (`Credentials.WrongLengthDekDiverges`).
- A refused configuration is on disk already, and a restart reports it as applied
  (`ConfigLane.RestartReportsRefused`). `src/lkg.rs:3-4` says it is persisted after it
  was applied.
- `src/lkg.rs:122` speaks of an fsync. There is none, so crash safety here is against the
  process stopping, not against power loss (`Lkg.TornRenameUnreadable`).
- `src/logs.rs:2` says the log lane mirrors the metrics lane exactly. It has no guard, so a
  failed or aborted send loses its batch, and at capacity zero it counts
  a drop for a line that was never there (`Logs.LogLedger`, `Logs.CountIsLossIff`).

## Model

| member | source | states |
|---|---|---|
| `Ledger.LedgerBalances` | src/metrics.rs:313-403 | for each billing class and every interleaving, what was recorded equals samples and drop counts queued, in hand, in the ring or lost; exactly below 2^64, up to whole counter wraps beyond |
| `Ledger.InvRun` | src/metrics.rs:505-588 | every run keeps the ring within its bound, each sample placed, and each drop counted |
| `Ledger.OnlyFlushLoses` | src/agent.rs:616-629 | something is lost exactly when a shutdown flush at its send is refused, or dropped with the future of `run()` |
| `Ledger.ExactlyOnePlace` | src/metrics.rs:501-530 | however many batches are in flight, each recorded call is in exactly one of queue, hand, ring, lost, dropped, and nothing else is anywhere |
| `Tasks.CancelEnds` | src/agent.rs:592-597 | an aborted task whose cancellation lands, whatever it awaits, is over for good |
| `Tasks.CancelLands` | src/metrics.rs:561-572 | a cancellation lands exactly on an aborted task at an await; else nothing happens |
| `Tasks.MovesOnIff` | src/metrics.rs:548-595 | a task moves on exactly by its own enabled steps: no tick during the early-flush spacing, no wake-up without a permit, no record and no other task moves it |
| `Tasks.AbortingIff` | src/agent.rs:592-597 | a task is being aborted exactly when an abort found it alive |
| `Tasks.WakesAreEarned` | src/metrics.rs:316-318 | early wake-ups are never more than the calls that found the buffer at four fifths |
| `Usage.UsageBalances` | src/metrics.rs:285-402 | for each (event, mode) count and every interleaving, usage recorded equals usage queued, in hand, in the ring or lost, exactly below 2^64 and never more beyond |
| `Order.TimelineHolds` | src/metrics.rs:551-588 | with one batch in flight at a time, queued then in flight then buffered is a subsequence of what was recorded: nothing twice, nothing out of order |
| `Order.SequentialIsOrderly` | src/agent.rs:535-606 | sessions that do not overlap have one batch in flight at a time |
| `Order.PutBackKeeps` | src/metrics.rs:377-386 | keeping only the newest part of a returned batch keeps the timeline |
| `Rounds.NoLostWakeup` | src/metrics.rs:313-318 | a single loop at its wait point with the ring at the early mark has a permit stored |
| `Rounds.InvSolo` | src/metrics.rs:540-595 | what a round has cleared after each of its drains, under interfering producers |
| `Rounds.RoundCovers` | src/metrics.rs:540-547 | a round's number of full batches is the least that covers a full ring |
| `Rounds.UnsizedRound` | src/metrics.rs:543-547 | with a batch size of zero a round is one drain per sample of capacity |
| `Rounds.RoundShipsAll` | src/metrics.rs:551-588 | when a loop waits again, every sample that had been recorded when one of its rounds began has left the ring and stands in exactly one other place |
| `Rounds.RoundQueuesOrCounts` | src/metrics.rs:551-588 | before any shutdown flush: each such sample was queued or dropped and counted |
| `Rounds.DrainsPerRound` | src/metrics.rs:553-588 | a round takes at most that many drains |
| `Numbers.NumberedOnce` | src/metrics.rs:364-370 | in no run do two queued reports carry the same number, requeued batches included, and numbers start at one |
| `Overlap.LateCancelOutlivesFlush` | src/agent.rs:592-605 | for every positive capacity and batch size: a run in which the shutdown flush completes, no send is refused, and a billable call stays in the ring behind a later one already queued |
| `Overlap.OverlapLosesWakeup` | src/metrics.rs:589-594 | for every positive capacity and batch size: a run of two overlapping loops in which a loop waits at the early mark with no permit stored |
| `Alone.RoundIsRun` | src/metrics.rs:551-588 | the imperative flush round is a run of the loop's own steps, guard and overflow included |
| `Alone.FlushIsRun` | src/agent.rs:611-629 | the imperative shutdown flush is a run of its own steps, refused batch lost |
| `Settlement.ShutdownSettlesAll` | src/agent.rs:600-632 | from every reachable state with nothing in flight or lost, every shutdown flush that is neither refused nor dropped has, once done, nothing in hand or lost and all usage and drop counts queued; the ring is empty exactly when it fitted sixteen batches, and for each billing class all that was ever recorded is in the queued reports as samples or counts, but for what is left in the ring |
| `Settlement.FlushCanFinish` | src/agent.rs:611-632 | such a flush exists from every reachable state |
| `LateReturn.LateReturnIff` | src/agent.rs:592-605 | once every late cancellation has landed on a ring left empty, samples, drop counts and events are all still out and nothing more is lost exactly when no task had a batch in hand |
| `LateReturn.RingStaysEmptyIff` | src/agent.rs:592-605 | with no flush at its send, the whole ring stays empty exactly then |
| `BillableLoss.ExactLoss` | src/metrics.rs:307-340 | any sequence of records keeps exactly the newest billable samples that fit, in order, and drops exactly the older ones |
| `BillableLoss.ExactLength` | src/metrics.rs:313-340 | the buffer fills to min(cap, held + arrived), and kept plus dropped is all there was |
| `BillableLoss.LossCounted` | src/metrics.rs:298-305 | the billable counter grows by exactly max(0, b0 + B - max(cap, 1)), modulo 2^64 |
| `BillableLoss.MinimalLoss` | src/metrics.rs:319-338 | no eviction policy of a buffer that size loses fewer billable samples on the same arrivals |
| `BillableLoss.RingCountsDrops` | src/metrics.rs:298-340 | counting each drop as it happens equals counting them all at the end, wrap-around included |
| `MetricsRing.Victim` | src/metrics.rs:327-334 | the oldest non-billable sample if there is one, else the oldest |
| `MetricsRing.FullRefuses` | src/metrics.rs:319-326 | a full buffer refuses a denied, over-quota or replayed call and counts it as not billable |
| `MetricsRing.FullTakes` | src/metrics.rs:319-339 | a full buffer takes a call that ran, gives up the oldest that did not run or else the oldest, and counts it by whether it ran |
| `MetricsRing.RoomTakes` | src/metrics.rs:313-340 | below capacity any call is taken and nothing given up |
| `MetricsRing.EarlyMarkIsLeast` | src/metrics.rs:273 | the early mark is the least positive number that is four fifths of the capacity |
| `MetricsRing.PutBackFills` | src/metrics.rs:377-386 | a returned batch fills the buffer as far as it goes, from its newest sample down |
| `Samples.BillableIffRan` | src/metrics.rs:124-129 | exactly Ok, ClientError and ServerError are billable |
| `MetricsRing.PushConserves` | src/metrics.rs:313-340 | a record keeps the bound and drops nothing uncounted, under either way of counting |
| `MetricsRing.PutBackConserves` | src/metrics.rs:377-386 | a returned batch keeps the bound and drops nothing uncounted |
| `MetricsRing.RequeueUndoesDrain` | src/metrics.rs:344-403 | requeueing undoes a drain, sequence number apart, exactly when the ring was within capacity or the drain took no sample |
| `Metrics.MetricsBuffer.constructor` | src/metrics.rs:264-281 | a new buffer is empty, with its early mark at four fifths of its capacity |
| `Metrics.MetricsBuffer.Remove` | src/metrics.rs:226-232 | removes one sample, if there is one there, with a saturating cached count |
| `Metrics.MetricsBuffer.CountDrop` | src/metrics.rs:298-305 | counts a drop by its billability, on wrapping counters |
| `Metrics.MetricsBuffer.Position` | src/metrics.rs:328-330 | the first non-billable sample, and none exactly when all are billable |
| `Metrics.MetricsBuffer.PickVictim` | src/metrics.rs:327-334 | the victim chosen through the cache is the one a full scan chooses |
| `Metrics.MetricsBuffer.Evict` | src/metrics.rs:327-337 | that victim is removed, its drop counted and the cache kept |
| `Metrics.MetricsBuffer.Record` | src/metrics.rs:313-340 | the cached-count code computes the scanning specification, keeps cache and bound, and stores a wake-up at the mark |
| `Metrics.MetricsBuffer.Store` | src/metrics.rs:319-339 | the same without the wake-up |
| `Metrics.MetricsBuffer.RecordEvents` | src/metrics.rs:285-296 | adds to the rollup, opening its window at the first count and ignoring all-zero ones |
| `Metrics.MetricsBuffer.Drain` | src/metrics.rs:344-371 | takes the oldest batch, both counts and the rollup, and leaves the rest with the cache correct |
| `Metrics.MetricsBuffer.PutBackOne` | src/metrics.rs:381-385 | a returned sample goes to the front or is counted |
| `Metrics.MetricsBuffer.PutBack` | src/metrics.rs:379-386 | the reversed loop keeps the newest part that fits, in order, and counts the rest by class |
| `Metrics.MetricsBuffer.RequeueFront` | src/metrics.rs:377-403 | returns samples, counts and rows of a batch |
| `Metrics.MetricsBuffer.MergeRows` | src/metrics.rs:393-402 | merging row by row, in whatever order, is the pointwise saturating sum with the earlier window start |
| `Metrics.CacheFindsVictim` | src/metrics.rs:327-334 | the cached count is positive exactly when a scan would find a victim, so the fallback index is never used |
| `Metrics.RemovalCounts` | src/metrics.rs:226-232 | the saturating subtraction never saturates |
| `Rollup.RollupTotals` | src/metrics.rs:285-402 | every total held or handed out is the saturated exact sum of the counts it stands for, in any merge order; no row is all zero; every count stands in one place |
| `Rollup.MergedTallies` | src/metrics.rs:189-196 | saturating as one goes is saturating once |
| `Words.SatMeaning` | src/metrics.rs:189-196 | a saturated count is the total or the largest 64-bit word, and saturating addition keeps it so |
| `Rollup.WindowsCover` | src/metrics.rs:350-363 | with a clock that never goes back, each window covers the time of every count in it |
| `Rollup.WindowsExact` | src/metrics.rs:285-296 | whatever the clock does, a window is open exactly when it holds a count, and opens at the time of one in it |
| `Rollup.WindowsEnd` | src/metrics.rs:350-363 | each window ends at the time of its drain |
| `Rollup.HistoryHolds` | src/metrics.rs:285-296 | the usage a run recorded, and when, is what its steps say |
| `Projection.RunMirrors` | src/metrics.rs:285-402 | the events of every lane run are a run of the rollup: same held counts, and each batch a parcel with its rows and its fate |
| `Projection.SameUsage` | src/metrics.rs:285-296 | that run recorded the usage the lane recorded |
| `Projection.ReportTotals` | src/metrics.rs:350-402 | under every interleaving each total of each queued report is the saturated exact sum of the usage it stands for, and no row is all zero |
| `Projection.ReportWindows` | src/metrics.rs:350-363 | with a clock that never goes back, the window of each queued report covers the usage in it |
| `Projection.ReportWindowOpens` | src/metrics.rs:350-363 | and it opens at the time of some usage in it |
| `Projection.ReportWindowEnds` | src/metrics.rs:350-363 | and it ends when its batch was drained |
| `Flush.Outbound.Send` | src/metrics.rs:571-578 | a send queues the message, or fails and queues nothing |
| `Flush.ShipBatch` | src/metrics.rs:554-584 | drain, guard, send: the batch is queued, or back in the ring |
| `Flush.FlushRound` | src/metrics.rs:551-588 | a round's effect on buffer and queue, with the refused batch requeued |
| `Flush.ShipBatches` | src/metrics.rs:553-588 | the loop of a round computes the recursive round |
| `Shutdown.SendMetrics` | src/agent.rs:617-628 | drain and send with no guard |
| `Shutdown.FlushMetricsTo` | src/agent.rs:616-632 | the metrics loop sends until a batch is empty or refused, sixteen at most |
| `Shutdown.SendLogs` | src/agent.rs:634-638 | the same for one log batch |
| `Shutdown.FlushLogsTo` | src/agent.rs:633-641 | the same for the logs loop |
| `Shutdown.FlushRemaining` | src/agent.rs:611-643 | metrics first; the logs are not reached after a refused metrics report |
| `Shutdown.FlushConserves` | src/agent.rs:616-629 | shipped, then lost, then left is what was buffered, in order; at most one report is lost |
| `Shutdown.FlushConservesCounts` | src/agent.rs:616-629 | drop counts and usage totals are shipped, lost or left, never forgotten or told twice |
| `Shutdown.FlushShipsEvents` | src/agent.rs:616-629 | event rows go out with the first report, under the window they were taken with |
| `Shutdown.FlushDraws` | src/agent.rs:616-632 | a flush draws one number per report, and one for the empty batch that ends it early |
| `Shutdown.LogFlushDraws` | src/agent.rs:633-641 | the same for the logs |
| `Shutdown.LogFlushConserves` | src/agent.rs:633-641 | log lines, in order, and the log drop count are shipped, lost or left; at most one batch is lost |
| `Shutdown.RefusedLogsLost` | src/agent.rs:633-641 | a refused log batch is lost |
| `Shutdown.FlushLeaves` | src/agent.rs:616-632 | with accepted sends, what is left is exactly what the batches could not hold |
| `Shutdown.ShutdownCompleteIff` | src/agent.rs:611-632 | with accepted sends every sample is shipped and the ring, counters and rollup end empty exactly when the ring fits sixteen batches; every drop count and usage total is shipped, event rows with their window in the first report |
| `Shutdown.LogShutdownCompleteIff` | src/agent.rs:633-641 | with accepted sends every line is shipped, in order, and the log ring ends empty exactly when it fits sixteen batches; the drop count is shipped, and nothing is lost |
| `Shutdown.RemainingCompleteIff` | src/agent.rs:611-643 | the whole flush queues every sample and every line and empties both rings exactly when both fit sixteen batches |
| `Pacing.NoDropUnderPacedLoad` | src/metrics.rs:16-26 | no sample is dropped while at most cap arrive within the spacing of a round's start and a fifth of cap between a later crossing of the mark and its round |
| `Pacing.EarlyRoundsSpaced` | src/metrics.rs:589-594 | a round that a wake-up causes begins at least a second after the one before |
| `PacedLane.PacedIsRun` | src/metrics.rs:551-594 | every timed run of a paced load is a run of the lane's steps, with the same ring and drops |
| `PacedLane.LaneDropsNothing` | src/metrics.rs:16-26 | so the lane drops nothing under a paced load |
| `Pacing.RoundEmpties` | src/metrics.rs:553-588 | a round of accepted sends leaves nothing behind |
| `Pacing.BurstDropsIff` | src/metrics.rs:313-319 | a burst into an empty buffer loses nothing exactly when it is at most cap long |
| `Logs.LogBuffer.constructor` | src/logs.rs:82-92 | a new log buffer is empty |
| `Logs.LogBuffer.Record` | src/logs.rs:96-103 | drops and counts the oldest line when full |
| `Logs.LogBuffer.Drain` | src/logs.rs:107-114 | takes the oldest batch and the drop count |
| `Logs.ExactLoss` | src/logs.rs:96-103 | any sequence of records keeps exactly the newest lines, and counts once per record into a full ring |
| `Logs.CountIsLossIff` | src/logs.rs:98-101 | that count is the number of lines lost exactly unless a zero-capacity ring was found empty |
| `Logs.LogLedger` | src/logs.rs:158-178 | under every interleaving and for every capacity, lines recorded plus phantom drops equal lines and drop counts in ring, hand, queue and lost batches; a positive capacity has no phantoms |
| `Logs.FatesCounted` | src/logs.rs:162-173 | exactly the accepted batches are queued, and exactly the failed or aborted ones lost |
| `Logs.NumberedOnce` | src/logs.rs:107-114 | in no run do two queued log batches carry the same number, and numbers start at one |
| `Backoffs.Backoff.constructor` | src/backoff.rs:16-23 | a new backoff has no attempts |
| `Backoffs.Backoff.NextDelay` | src/backoff.rs:26-38 | the delay is min(initial * 2^min(attempts, 20), max), within a quarter either way under jitter; attempts saturate |
| `Backoffs.Shift` | src/backoff.rs:27-28 | the shift is a power of two and fits 32 bits |
| `Backoffs.Bounded` | src/backoff.rs:26-30 | cutting the saturated product to the maximum is cutting the exact one |
| `Backoffs.DelayMonotone` | src/backoff.rs:26-38 | more failures never shorten the delay, and it never passes the maximum |
| `Backoffs.DelayDoubles` | src/backoff.rs:26-30 | each failure doubles the delay up to the maximum, and none beyond the twentieth |
| `Enrollment.FindTokenIff` | src/agent.rs:1145-1148 | a token is found exactly when some piece of the fragment starts with `token=` |
| `Enrollment.FindTokenIs` | src/agent.rs:1145-1148 | what is found is the whole value of the first such piece, up to the next `&` |
| `Enrollment.ExtractRoundTrip` | src/agent.rs:1139-1150 | an enrolment URL of the documented shape yields its own token |
| `Enrollment.NoFragmentNoToken` | src/agent.rs:1139-1144 | a URL without a fragment has no token |
| `Enrollment.WindowMeaning` | src/agent.rs:960-966 | the refresh window is five minutes or three heartbeats, whichever is longer |
| `Enrollment.UnreadableExpires` | src/agent.rs:991-999 | a token whose expiry cannot be read counts as expired |
| `Enrollment.ExpiryMeaningIff` | src/agent.rs:991-999 | the expiry check means "does not outlive the window" for every expiry and time exactly when the window is below 2^63 - 1 seconds |
| `Enrollment.RejectionIff` | src/agent.rs:1049-1064 | an error rejects the credentials exactly when its first status is Unauthenticated, or is PermissionDenied with a message naming the instance token in any letter case |
| `Enrollment.LaterStatusIgnored` | src/agent.rs:1049-1064 | behind a first status of another code, a later Unauthenticated is no rejection |
| `Enrollment.SlotWait` | src/agent.rs:1022-1047 | a slot wait is at most 125 s, outlasts the time named up to that, and is never taken for a rejection |
| `Enrollment.SlotWaitIs` | src/agent.rs:1031-1047 | it is 250 ms past the time named, or 125 s where that is longer or none is named, and only for a held slot |
| `Enrollment.ClassifyIff` | src/agent.rs:418-462 | a session error is a rejection, a held slot with its wait, or neither |
| `Enrollment.StatuslessIsOther` | src/agent.rs:1049-1064 | an error with no gRPC status is neither a rejection nor a held slot |
| `RunLoop.OnlyShutdownEnds` | src/agent.rs:382-443 | a loop that has started ends only with success and on request, and never lacks both creds file and enrolment token |
| `RunLoop.TokenSafety` | src/agent.rs:390-413 | with an enrolment token, every Channel open presents a token with a readable expiry beyond the refresh window at that iteration's check, or one issued in that iteration |
| `RunLoop.RejectedNotReplayed` | src/agent.rs:418-443 | with an enrolment token, a rejected token is presented again only after being issued again |
| `RunLoop.RejectedLeaveDisk` | src/agent.rs:429-442 | rejected creds leave the disk when there is a token to enrol with and the removal succeeds, and only then |
| `RunLoop.FileAfter` | src/agent.rs:900-957 | Register writes the creds file, a rotation rewrites one that is there, a handled rejection may remove it, and nothing else touches it |
| `RunLoop.RejectedNotStored` | src/agent.rs:440-442 | while removals succeed, no rejected token stands in the file unless issued again, so no restart presents one |
| `RunLoop.FileIsToken` | src/agent.rs:708-725 | while writes succeed, a restart at any point presents the token the process holds |
| `RunLoop.LogIsStory` | src/agent.rs:382-443 | the log of opens, registers, rotations and rejections is what the steps say |
| `RunLoop.EndIsLast` | src/agent.rs:413-472 | what is handled is how the session ended |
| `RunLoop.SessionReturns` | src/agent.rs:413-472 | a session whose stream ends brings the loop back to its top, or to enrolling after a rejection |
| `RunLoop.OpenLeads` | src/agent.rs:478-590 | a lost or refused connection ends with its reason, an open one enters its select |
| `RunLoop.EnrolReturns` | src/agent.rs:398-406 | after a Register the loop connects if its check had sent it enrolling, and begins again otherwise |
| `RunLoop.WithoutTokenReplays` | src/agent.rs:429-439 | without one, the rejected token is presented again |
| `RunLoop.FailuresCounted` | src/agent.rs:413-472 | the loop's failure count is the failed sessions since the last clean one, held slots not counted |
| `RunLoop.BackoffThroughLoop` | src/agent.rs:413-472 | the next delay is the one of that many failures |
| `RunLoop.DelayNeverShrinks` | src/agent.rs:413-472 | until a session ends cleanly no step shortens the next delay |
| `RunLoop.ShutdownIsPrompt` | src/agent.rs:382-389 | of the Channel opens read off the steps at most one comes after the first `trigger()`, and the finished flag is up only after it |
| `RunLoop.StopsAtTop` | src/agent.rs:382-389 | a stopping agent at the loop's top finishes |
| `RunLoop.NoEarlyFlush` | src/agent.rs:596-602 | no session flushes before `trigger()` is called |
| `RunLoop.FlushedBeforeFinished` | src/agent.rs:585-606 | a session that ends after `trigger()` has its own flush done before the finished flag is up |
| `RunLoop.TriggerEndsIff` | src/agent.rs:587-590 | a live session can end with neither its stream ending nor `trigger()` called again exactly when a notification found it in its select |
| `RunLoop.SessionRunsOn` | src/agent.rs:587-590 | a session the notification missed goes on through every such continuation |
| `RunLoop.TriggerCanBeMissed` | src/agent.rs:144-150 | after a trigger between the loop's check and the select, every continuation without the stream ending or another trigger leaves the session running and the finished flag down |
| `Handshake.FinishedNeverHangs` | src/agent.rs:152-166 | once flag and notification are out, each step of a waiting call brings it closer to returning; none returns before the flag |
| `Handshake.AgentIs` | src/agent.rs:383-388 | the flag is up exactly once raised, and the waiters notified exactly by a notification after that |
| `Credentials.FromProto` | src/payload_dek.rs:60-73 | a key exactly for 32 bytes and a non-zero version, nothing exactly for no bytes, a length error exactly for any other length |
| `Credentials.AgentClient.Connect` | src/client.rs:74-110 | reuses an open channel, else opens one if it can |
| `Credentials.AgentRunner.constructor` | src/agent.rs:337-361 | a process starts from its creds file, over the bootstrap CA |
| `Credentials.BootPresents` | src/agent.rs:337-361 | a boot presents the bootstrap CA unless its file carries a certificate with a CA, and the file's token and whole key |
| `Credentials.AgentRunner.InstallPayloadDek` | src/agent.rs:917-941 | a malformed or missing key leaves the one in use |
| `Credentials.AgentRunner.InstallCreds` | src/agent.rs:827-844 | token, key and TLS material installed, the channel reset with new TLS material |
| `Credentials.AgentRunner.RegisterFresh` | src/agent.rs:884-907 | creds written and installed |
| `Credentials.AgentRunner.PersistRotatedCreds` | src/agent.rs:1070-1103 | only the fields a rotation carries are rewritten, and only in an existing file |
| `Credentials.AgentRunner.HandleRotation` | src/agent.rs:708-767 | memory and file after a rotation |
| `Credentials.AgentRunner.DiscardStoredCreds` | src/agent.rs:951-957 | the file goes, memory stays |
| `Credentials.RegisterCoherentIff` | src/agent.rs:884-907 | after a Register a restart rebuilds memory exactly when it withdraws no TLS material or key in use |
| `Credentials.RotateCoherentIff` | src/agent.rs:708-767 | a rotation keeps file and memory in step exactly when a certificate comes with its key and a CA on file, a key alone changes nothing in use, and a versioned DEK is whole or there is none to keep |
| `Credentials.WrongLengthDekDiverges` | src/agent.rs:748-765 | a rotated DEK of the wrong length survives on disk and not in memory, and a restart forgets the key in use |
| `Credentials.RestartEquivalence` | src/agent.rs:353-361 | over every run of such Registers, rotations and discards, a restart from the file gives back the very state |
| `Lkg.LkgCache.ReadNodeSecret` | src/lkg.rs:146-174 | the machine id, else a whole stored secret, else a fresh one that is stored |
| `Lkg.LkgCache.SaveEntry` | src/lkg.rs:108-134 | after a save the entry loads, whatever was there |
| `Lkg.LkgCache.LoadEntry` | src/lkg.rs:89-97 | missing, unreadable or the entry, with the side effect on the secret |
| `Lkg.UnsealSealed` | src/lkg.rs:176-211 | unsealing inverts sealing under one secret |
| `Lkg.FileLayout` | src/lkg.rs:176-192 | one byte of version, twelve of nonce, then the entry sealed under the derived key |
| `Lkg.LoadMeaning` | src/lkg.rs:89-97 | nothing loads exactly when there is no file, an entry exactly when the framed file opens to it |
| `Lkg.SecretMeaning` | src/lkg.rs:146-174 | the machine id, else a stored secret of 32 bytes, else a fresh one that is stored |
| `Lkg.CrashSafe` | src/lkg.rs:89-134 | at every point of every run of saves, crashes and loads, a load returns in full the entry of the last rename and leaves the disk alone |
| `Lkg.SaveCompletes` | src/lkg.rs:108-134 | from any reachable state a save that nothing interrupts completes, and its entry loads |
| `Lkg.CrashStops` | src/lkg.rs:122-125 | a crash stops a save where it is |
| `Lkg.OldOrNew` | src/lkg.rs:122-125 | a step changes what loads only by completing a rename, from the previous entry to the new |
| `Lkg.TornRenameUnreadable` | src/lkg.rs:194-204 | a renamed file of which fewer than thirteen bytes, version and nonce, reached the disk loads nothing |
| `ConfigLane.ConfigReceiver.constructor` | src/agent.rs:363-370 | the cached hash is reported at boot |
| `ConfigLane.ConfigReceiver.Handle` | src/agent.rs:655-704 | save, apply, report, acknowledge one update |
| `ConfigLane.ConfigReceiver.ReadInbound` | src/agent.rs:652-704 | the same for a stream of updates |
| `ConfigLane.AcksTruthful` | src/agent.rs:672-703 | one ack per update, in order, with its hash, active exactly when no applier refused, and else with its reason |
| `ConfigLane.AppliesIff` | src/agent.rs:685-687 | an update moves the report exactly when it has a hash and no applier refused its bundle |
| `ConfigLane.ReportsLastApplied` | src/agent.rs:685-687 | the reported hash is that of the last update applied with a hash |
| `ConfigLane.ReportsOldOtherwise` | src/agent.rs:685-687 | with none applied the report stays |
| `ConfigLane.DiskHoldsLastSaved` | src/agent.rs:659-667 | the disk holds the hash of the last saved bundle |
| `ConfigLane.DiskMatchesReportIff` | src/agent.rs:659-687 | for every stream, disk and report agree exactly when the last saved update and the last applied one carry the same hash |
| `ConfigLane.WholeStreamsAgreeIff` | src/agent.rs:659-687 | with whole, saved updates that is exactly when the last was not refused, or was refused what is reported anyway; a refused one moves only the disk |
| `ConfigLane.RestartKeepsReportIff` | src/agent.rs:363-370 | a restart reports what the process did exactly when those hashes are the same |
| `ConfigLane.RestartReportsRefused` | src/agent.rs:363-370 | after a whole update was refused, a restart reports it as applied |

## Hypotheses

- `Rounds.*` and `Pacing.*` ask for `batch_cap >= 1`. With `batch_cap == 0` no drain takes a sample.
- `Solo` and `Sequential` say that sessions do not overlap. The source does not enforce it;
  the `Overlap` runs show what happens without.
- `Pacing` takes rounds as instantaneous and their sends as accepted, and the spacing sleep as ending on time.
- The ledger is exact below 2^64 recorded samples, and congruent beyond; the usage ledger is exact below 2^64 per total.
- `Credentials` takes file writes as succeeding; `RunLoop` lets the creds file be written, left or torn.
- `Lkg` takes `/etc/machine-id` as constant, and the library's decryption and decoding as inverting its encryption and encoding.

## Left out

- AES-256-GCM, HKDF, BLAKE3 and random numbers: parameters with the one law above; nothing is claimed about secrecy.
- gRPC, TLS and HTTP/2: only "opened", "refused with a status" and "ended" remain.
- Protobuf, JSON and base64: taken as having inverses; the per-field mapping of reports would only add easy members.
- The async runtime: one stored permit for `notify_one`, `notify_waiters` reaching waiters already created, sends that queue nothing when cancelled, and cancellation only at awaits are the step semantics.
- The async `flush_loop` as one method: interference is in the step system, the loop's body in `Flush.FlushRound`, and `Alone.RoundIsRun` joins them.
- `src/status.rs`, `src/config.rs`, `src/license_delivery.rs`: snapshots, schema, and a plain temp-and-rename file.
- Heartbeats, events, logging, host names and file permissions.
- The clock: a parameter of every operation that reads it.
- The Register retry loop: one step that succeeds when the CP answers.
- The order of rollup rows in a report: a map here.
- Sequence numbers: unbounded here, 64-bit in the source.
- Backoffs.Backoff.NextDelay: jitter is over reals, without floating-point rounding and without the panic of a jittered delay past the longest `Duration`.
- Whether queued messages reach the control plane, and what it does with them.
