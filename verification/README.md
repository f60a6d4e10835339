# Verification of the Telegram upload bridge

A Dafny 4.11 model of the parts of the bridge whose correctness is least
obvious, with proofs. Check everything with `dafny verify dfyconfig.toml`.

**The failover upload protocol** (`Failover*.dfy`, `SpeedTracker.dfy`,
`AccountPool.dfy`, `SegmentScheduler.dfy`). A large file is cut into segments;
each segment is leased to an account, may migrate once to an idle, faster
account, must drain its first attempt before the second starts, and may create
one message. `FailoverModel` gives one `World` holding everything the segment
scheduler, the account pool, the activity registry and the speed tracker share,
and one step function per public call (each call runs under one lock). `Event`
ranges over every call with arbitrary arguments, so stale, duplicate and late
leases and tokens are all included, together with everything other users of the
pool may do. `FailoverInvariant`, `FailoverPreserved` and `FailoverSafety`
prove the joint invariant for every run; `FailoverHistory` and `FailoverRuns`
prove what runs can and cannot do; `FailoverSelection` covers selection,
deadlines and the bound on work; `FailoverBytes` the byte accounting;
`FailoverResults` what a finished file hands back. The classes then show that
the objects, updated in place, take exactly the steps of the model.

**The remote file reader** (`SplitPlan.dfy`, `Bytes.dfy`, `PartTable.dfy`,
`VirtualFile.dfy`, `RoundTrip.dfy`). Part tables, range mapping, aligned chunk
requests, the LRU block cache with its on-disk head, windows, and the round
trip from a file through segments, upload parts and padded registration back to
the same bytes. The only assumption on the documents is that no document but
the last is shorter than registered.

**Pacing** (`UploadLimiter.dfy`, `MessageBucket.dfy`). The rate-learning state
machine with its inductive invariant, the virtual-scheduling pacer with its
admission bound, and the message token bucket.

**Play time** (`PlaytimeLog.dfy`, `PlaytimeQueue.dfy`, `PlaytimeSessions.dfy`).
The repaired JSON-lines queue and queue-first settlement of sessions, over any
history of calls and crashes. JSON text is a codec whose encodings have no line
break and no valid proper prefix.

**Archive members** (`ZipMembers.dfy`, `Inflating.dfy`, `MemberReader.dfy`,
`PendingMatch.dfy`). The local header (section 4.3.7 of PKWARE APPNOTE.TXT),
stored members as windows, and deflated ones as a seekable reader over a
forward-only inflate stream (RFC 1951), from the archive's bytes to the answers
of any sequence of calls. The inflater is an oracle that may do anything a
lawful inflater may. A member is called healthy when its compressed bytes are
all there and its stream inflates to no less than the recorded size.

**Prior uploads** (`ExistingParts.dfy`, `TextOrder.dfy`) and **process trees**
(`ProcessTree.dfy`). The order-independent choice of an earlier upload, the
descendant loop as a least fixpoint, and process ownership across sessions.

Where the code and what it is meant to do differ, the model follows the code:

- The scheduler's deadline covers candidacy and snapshots but not scores.
  `DeadlineMissesScore` runs a fresh scheduler into a state in which a migration
  becomes possible one tick later, a hundred ticks before the deadline and with
  no call in between. `DeadlineMissesExactly` says when a sleep until the
  deadline misses a migration: the pair has a score now, and by the samples that
  will still count at the deadline's last tick it is outpaced.
- The admission bound of the pacer, `r*T + burst + 1` sends in `T` seconds at a
  constant rate `r`, does not hold when senders queued at a higher rate are still
  to wake (`QueuedSendersKeepTheOldPace`: seven sends in three seconds at rate
  one). `PaceBound` allows for those senders and holds always;
  `PlainBoundExactly` gives the test on the slots already handed out under which
  the plain bound holds, and `NothingPending` its simplest case.
- A flood can raise an established ceiling, in exactly the case
  `FloodRaisesCeilingExactly` states.
- A report with an error from an executor that was long superseded still fails
  the whole upload (`StaleErrorFailsTheRest`); every other stale call is without
  effect.
- `_InflateReader` can fail on a healthy member: it asks its exhausted source for
  input instead of asking the inflater for the output it still owes.
  `InflateReader.Read` says from the state before the call exactly when,
  `DecompressReader.Replay` carries that over whole sequences of calls, and
  `PendingMatchIsNotFetched` is a genuine deflate block on which two plain reads
  fail.

One assumption is made about the data: rows of prior uploads with equal sort keys
describe the same message (`Faithful`). The key leaves out, among other things,
whether a thumbnail is recorded; `TiedRowsLeaveAChoice` shows what happens
without the assumption.

## Model

| member | source | states |
|---|---|---|
| FailoverSafety.EveryRunIsSafe | segment_scheduler.py:140-656 | from a fresh scheduler over any sound pool, every run of calls keeps the joint invariant of segments, leases, jobs, requests and reservations |
| FailoverSafety.StepKeepsInv | segment_scheduler.py:172-656 | any single call, with any arguments, keeps that invariant |
| FailoverPreserved.InvCommit | segment_scheduler.py:342-390 | committing a migration keeps the invariant: the target becomes reserved for exactly this segment, the old attempt drains |
| FailoverPreserved.InvReplace | segment_scheduler.py:525-538 | turning a reservation into the second attempt keeps the invariant |
| FailoverSafety.InvSettled | segment_scheduler.py:251-266 | a settled request, current or late, keeps registry and segments in step |
| FailoverRuns.GrantOnce | segment_scheduler.py:463-471 | over any run `grant_finalize` succeeds at most once per segment |
| FailoverRuns.CompleteOnce | segment_scheduler.py:503-509 | over any run `complete_attempt` succeeds at most once per segment |
| FailoverRuns.ResultProvenance | segment_scheduler.py:463-509 | a stored result came from the one completing call, by the one attempt that was granted finalize |
| FailoverRuns.StaleCallHasNoEffect | segment_scheduler.py:172-184 | no call made with a superseded lease or action changes the segment's progress, ownership or result, an executor's report with an error excepted |
| FailoverRuns.StaleErrorFailsTheRest | segment_scheduler.py:638-655 | that exception, exactly: the report fails every unfinished segment, however old its action, and leaves finished ones as they are |
| FailoverRuns.MigrationFencesOldLease | segment_scheduler.py:361-376 | from the commit on, for the rest of any run, the first attempt's lease is powerless and its in-flight set never grows |
| FailoverRuns.DrainBeforeReplace | segment_scheduler.py:511-523 | a second attempt runs only behind a drained, quiescent, closed first one, and a segment's lease is a job of one account only |
| FailoverRuns.FinishedSegmentReturnsLease | segment_scheduler.py:413-430 | a finished segment occupies an account only while its attempt has an RPC in flight or a busy executor |
| FailoverRuns.AccountsAddUp | telegram_accounts.py:291-308 | free slots plus jobs equal capacity, jobs are exactly the open leases, reservations exactly the migrating segments, a reserved account has every slot free, an idle snapshot means nothing in flight |
| FailoverRuns.ReservationsAreHonoured | telegram_accounts.py:374-396 | once drained, activation succeeds exactly when the account is still online and linked; it never fails for want of a slot |
| FailoverSelection.SelectCommitsTheBest | segment_scheduler.py:540-566 | when no replacement starts and a migration is possible, selection commits the lexicographic maximum over accounts and segments, to an account never tried, and the commit cannot be refused; replacements refused on the way do not matter |
| FailoverSelection.RefusedReplacements | segment_scheduler.py:525-549 | a pass that starts no replacement changes only segments whose replacement the pool refused, and those have failed |
| FailoverSelection.SelectStartsPending | segment_scheduler.py:567-578 | with no replacement to start and no migration possible, selection starts a pending segment or does nothing further |
| FailoverSelection.StartPendingIs | segment_scheduler.py:567-578 | a started pending segment is the first that finds an account, as attempt one; none is started only if no pending segment finds one |
| FailoverSelection.AtMostTwoActionsPerSegment | segment_scheduler.py:540-578 | any run starts at most two attempts per segment |
| FailoverSelection.EachAttemptStartsOnce | segment_scheduler.py:186-201 | any run starts each attempt of each segment at most once |
| FailoverSelection.NothingChangesBeforeDeadline | segment_scheduler.py:580-600 | with no call in between, candidacy and snapshot freshness are constant up to the deadline, and for ever without one |
| FailoverSelection.MigratableBeforeDeadline | segment_scheduler.py:315-333 | whether a migration is possible at a later instant before the deadline, decided on what is recorded now, in both directions |
| FailoverSelection.DeadlineMissesExactly | segment_scheduler.py:580-600 | a sleep until the deadline misses a migration exactly if the pair has a score now and is outpaced at the deadline's last tick |
| FailoverSelection.DeadlineMissesScore | segment_scheduler.py:580-600 | a run from a fresh scheduler into a state in which a migration becomes possible before the deadline |
| FailoverSelection.ScoreMovesWithTheWindow | segment_scheduler.py:315-333 | before the deadline a score exists exactly when it exists now, and is the same exactly when the attempt's window keeps its bytes |
| FailoverBytes.SentCoversCounted | segment_scheduler.py:672-682 | physical bytes cover logical plus abandoned bytes in every state, so reported overhead is at least what was abandoned |
| FailoverBytes.ObserverIsDisciplined | upload_engine.py:420-422 | an observer that counts a new token's bytes before it reports the part keeps the discipline the accounting relies on, whatever calls come in between |
| FailoverBytes.ProgressFallsOnlyAtCommit | segment_scheduler.py:361-372 | logical progress falls only where a migration commits |
| FailoverBytes.FullExactlyWhenEveryPartSucceeded | segment_scheduler.py:445-461 | with reports by the part plan, the byte count is full exactly when every part of the current attempt succeeded |
| FailoverBytes.PlanHasTheseParts | tgupload.py:45-70 | the parts counted are the parts the planner cuts |
| FailoverResults.ResultsAreTheSegments | segment_scheduler.py:661-670 | the parts handed back are one per segment, in index order, each from that segment's only completing call |
| FailoverResults.GrantHasEveryPart | upload_engine.py:1050-1053 | between an accepted `bytes_prepared` and a granted finalize nothing can take a part away: at the grant every part of the segment is in |
| FailoverResults.MessagesAreWhole | upload_engine.py:1007-1066 | from a fresh scheduler, with the executor's order of calls, the message behind every stored result was created when that same attempt had sent every part |
| SpeedTracker.UploadSpeedTracker.LiveSpeed | upload_activity.py:83-108 | the pruned deque's sum is the sum of everything ever recorded for the attempt within the window |
| SpeedTracker.UploadSpeedTracker.AccountLiveSpeed | upload_activity.py:110-112 | the same per account |
| SpeedTracker.UploadSpeedTracker.FreezeIdleSnapshot | upload_activity.py:114-122 | a snapshot is taken exactly when the account's window holds bytes, with its speed and lifetime |
| SpeedTracker.UploadSpeedTracker.RecordEffective | upload_activity.py:95-104 | each part of an attempt is recorded once, whatever was pruned meanwhile |
| SpeedTracker.AccountIsItsAttempts | upload_activity.py:95-112 | an account's window is the sum of its attempts' windows |
| AccountPool.AccountActivityRegistry.Change | upload_activity.py:209-231 | an update drops or freezes the snapshot exactly at the moments the account stops or becomes idle |
| AccountPool.AccountActivityRegistry.ReserveIfIdle | upload_activity.py:287-298 | reserves exactly an idle account |
| AccountPool.TelegramAccountPool.TryAcquireExact | telegram_accounts.py:296-308 | takes a slot and a job together exactly when the account is eligible, unreserved, has a slot and no such job; otherwise changes nothing |
| AccountPool.TelegramAccountPool.AcquireUploadLease | telegram_accounts.py:318-340 | one round-robin pass takes the first account after the cursor that accepts |
| AccountPool.TelegramAccountPool.ActivateReservation | telegram_accounts.py:374-396 | swaps the reservation for a job and a slot, or changes nothing |
| AccountPool.TelegramAccountPool.ReleaseUpload | telegram_accounts.py:291-294 | ends the job and returns the slot |
| SegmentScheduler.SegmentScheduler.Activate | segment_scheduler.py:203-213 | activates exactly a pending segment on an account that can take it |
| SegmentScheduler.SegmentScheduler.BeginRequest | segment_scheduler.py:237-249 | the object takes the protocol's step, and answers with a fresh token exactly for the current lease |
| SegmentScheduler.SegmentScheduler.RequestSettled | segment_scheduler.py:251-266 | the object takes the protocol's step |
| SegmentScheduler.SegmentScheduler.PartSucceeded | segment_scheduler.py:276-285 | the object takes the protocol's step, and counts exactly new parts of the current lease |
| SegmentScheduler.SegmentScheduler.CommitMigration | segment_scheduler.py:342-390 | the object takes the protocol's step, and commits exactly above the score threshold |
| SegmentScheduler.SegmentScheduler.AttemptQuiesced | segment_scheduler.py:432-443 | the object takes the protocol's step, and reports a change exactly when the attempt was not yet quiet or its lease can now be closed |
| SegmentScheduler.SegmentScheduler.BytesPrepared | segment_scheduler.py:445-461 | the object takes the protocol's step, exactly when all bytes are in and nothing is in flight |
| SegmentScheduler.SegmentScheduler.GrantFinalize | segment_scheduler.py:463-471 | the object takes the protocol's step, exactly for the current lease of an active segment |
| SegmentScheduler.SegmentScheduler.CompleteAttempt | segment_scheduler.py:503-509 | the object takes the protocol's step, exactly for the current lease of a finalizing segment |
| SegmentScheduler.SegmentScheduler.ActivateReplacement | segment_scheduler.py:511-538 | the object takes the protocol's step |
| SegmentScheduler.SegmentScheduler.SelectNextAction | segment_scheduler.py:540-578 | the three loops of selection together are the protocol's selection |
| SegmentScheduler.SegmentScheduler.FindBest | segment_scheduler.py:551-561 | the double loop finds the protocol's best pick without changing anything it decides on |
| SegmentScheduler.SegmentScheduler.NextDeadline | segment_scheduler.py:580-600 | the loops compute the deadline the lemmas are about |
| SegmentScheduler.SegmentScheduler.ExecutorFinished | segment_scheduler.py:638-655 | the object takes the protocol's step, failing every segment on an executor error |
| SegmentScheduler.SegmentScheduler.SubmissionFailed | segment_scheduler.py:618-625 | the object takes the protocol's step |
| SplitPlan.PlanParts | tgupload.py:45-62 | the parts tile the segment evenly, at most a thousand; refused exactly for the three listed reasons |
| SplitPlan.PlanSegments | tgio.py:264-284 | the segments tile the file |
| SplitPlan.PlansAgree | tgupload.py:85-97 | protocol decision and segment plan cut every size the same way, and every segment of a nonempty file fits the thousand-part plan |
| SplitPlan.EvenTilingUnique | tgupload.py:45-62 | there is only one even tiling |
| PartTable.BuildPartTable | tgio.py:224-237 | the table lays the nonempty parts out without gaps and knows the total |
| PartTable.MapRange | tgio.py:240-261 | the pieces cover exactly the clipped range, in order, each inside its part, one per part |
| PartTable.GatherIsTheRange | tgio.py:1687-1692 | reading those pieces is reading that range of the concatenated parts, even when the last document is short |
| PartTable.UsableParts | tdapi.py:723-743 | every message the rows name is kept exactly once, at its first usable row |
| PartTable.ClipParts | tdapi.py:100-126 | the clipping loop computes the size rule |
| PartTable.ListedSizeIsReaderSize | tdapi.py:756-771 | the listed size equals the opened size exactly when no kept size is negative, and is then the smaller of registered and true size |
| PartTable.SingleSizeIsReaderSize | tdapi.py:767-771 | the same for a file that is one message |
| VirtualFile.TelegramWorker.ReadChunks | tgio.py:887-902 | aligned requests, spread round robin, joined and trimmed, give exactly the asked slice |
| VirtualFile.Contiguous | tgio.py:1511-1523 | the runs expand to the input and are maximal |
| VirtualFile.SeekableRemoteFile.Keep | tgio.py:1676-1685 | caching a batch keeps every cached block right and evicts the least recently used |
| VirtualFile.BatchStays | tgio.py:1676-1685 | a batch no wider than the cache stays cached whole |
| VirtualFile.SeekableRemoteFile.BlocksFor | tgio.py:1650-1685 | returns exactly the nonempty blocks of the range, cached or fetched by runs, even when the batch is wider than the cache |
| VirtualFile.SeekableRemoteFile.ReadAt | tgio.py:1616-1648 | head, cache and fetched blocks together give the flat file's slice |
| VirtualFile.SeekableRemoteFile.Seek | tgio.py:1580-1592 | moves as a flat file's position does, with its two errors |
| VirtualFile.SeekableRemoteFile.Read | tgio.py:1604-1612 | reads what a flat file reads |
| VirtualFile.SeekableRemoteFile.ReadInto | tgio.py:1594-1602 | fills the buffer's front as a flat file would and leaves the rest alone |
| VirtualFile.SeekableRemoteFile.Replay | tgio.py:1526-1692 | any sequence of seeks and reads answers as a flat array does |
| VirtualFile.SlicedReader.Read | tgio.py:1744-1753 | a window reads as the flat file of its bytes |
| VirtualFile.SlicedReader.Replay | tgio.py:1695-1753 | any sequence of seeks and reads on a window answers as the flat file of its bytes does |
| RoundTrip.DocumentIs | tgupload.py:45-70 | the document assembled from a segment's upload parts is that segment of the file |
| RoundTrip.ClippedFile | tdapi.py:100-126 | clipping the sizes clips the file |
| RoundTrip.DownloadUndoesUpload | tdapi.py:697-754 | whatever was uploaded reads back as itself, with true or padded sizes; with the true length on record the opened size is exact |
| RoundTrip.OpenUploaded | tgio.py:1534-1558 | opening an uploaded file from its rows gives a seekable file over exactly its bytes |
| UploadLimiter.EveryHistoryKeepsTheLimits | upload_limiter.py:218-326 | rate, ceiling, probe, cooldown and stored values keep their limits over every history, from a fresh start or any stored state |
| UploadLimiter.NeverNormalAgain | upload_limiter.py:222-231 | after a premium flood normal mode never returns |
| UploadLimiter.FloodRaisesCeilingExactly | upload_limiter.py:232-246 | the one case in which a flood raises an established ceiling, in both directions |
| UploadLimiter.RestartIsNoFaster | upload_limiter.py:99-118 | whichever of its saves landed last, a restart resumes no faster than that save recorded, with the same ceiling and within all limits |
| UploadLimiter.SlotsAre | upload_limiter.py:203-212 | along any history slots never overlap and start at most a burst early |
| UploadLimiter.PaceBound | upload_limiter.py:203-212 | after any past, while the rate stays r, any window of T seconds sees at most r*T + burst + 1 sends besides those whose slot was given before |
| UploadLimiter.PlainBoundExactly | upload_limiter.py:203-212 | the bound without that allowance holds from an instant on exactly if the slots already given for it and later are no denser than the present rate allows |
| UploadLimiter.NothingPending | upload_limiter.py:203-212 | in particular it holds once every slot given so far is over |
| UploadLimiter.QueuedSendersKeepTheOldPace | upload_limiter.py:203-258 | a history in which it fails: senders queued before a flood keep the spacing of the old rate |
| UploadLimiter.EveryHistoryIsPaced | upload_limiter.py:203-258 | over every history any window of T seconds sees at most 12*T + 49 sends |
| UploadLimiter.OnePassIsEnough | upload_limiter.py:203-212 | with no flood since it asked, a sender waking at its slot is past the penalty |
| UploadLimiter.AdaptiveUploadLimiter.Flood | upload_limiter.py:218-258 | the method is the learning step and keeps the limits |
| UploadLimiter.AdaptiveUploadLimiter.Success | upload_limiter.py:269-326 | the method is the learning step and keeps the limits |
| UploadLimiter.AdaptiveUploadLimiter.Pace | upload_limiter.py:203-212 | one caller with an exact sleeper takes one slot and returns when both it and the penalty have come |
| MessageBucket.MessageBound | upload_limiter.py:354-365 | n admissions in T seconds satisfy n*(1-1e-9) <= burst + rate*T, floods or not |
| MessageBucket.NothingBeforeTheWait | upload_limiter.py:367-369 | nothing is admitted before a flood's wait and one more token's time have passed |
| MessageBucket.OneSleepIsEnough | upload_limiter.py:354-365 | a refused sender that sleeps its delay undisturbed is admitted |
| MessageBucket.MessageTokenBucket.TryAcquire | upload_limiter.py:354-365 | one pass of the object is one step of the bucket |
| PlaytimeLog.RepairedIsClean | playtime.py:135-173 | whatever the file held, a successful repair leaves whole lines holding exactly the reported records |
| PlaytimeLog.CrashSafeAppend | playtime.py:175-196 | after any byte prefix of an append, reopening gives the old records, plus the new one exactly when its whole text arrived |
| PlaytimeLog.WrittenReads | playtime.py:208-217 | what an acknowledgment writes reads back as the remaining records |
| PlaytimeLog.RepairTwice | playtime.py:135-173 | repairing again gives the same records |
| PlaytimeQueue.PlaytimeQueue.ReadRepair | playtime.py:135-173 | the loop leaves the records and the file the definition says, and touches nothing on a corrupt line |
| PlaytimeQueue.PlaytimeQueue.Append | playtime.py:175-196 | every outcome of an append, with the file and the failed flag it leaves |
| PlaytimeQueue.PlaytimeQueue.Ack | playtime.py:208-217 | the file becomes the remaining records or stays |
| PlaytimeSessions.NoSessionIsLost | playtime.py:246-299 | over any calls and crashes every saved session is in the store, the queue or accepted; ids stay distinct; the queue stays readable |
| PlaytimeSessions.RemovedOnlyWhenQueued | playtime.py:246-252 | a store entry disappears only once its record is queued or accepted |
| PlaytimeSessions.RunningSessionStore.Save | playtime.py:79-90 | memory and disk change together or not at all |
| PlaytimeSessions.PlaytimeService.Finish | playtime.py:246-252 | queue first, then leave the store; safe wherever it breaks off |
| PlaytimeSessions.PlaytimeService.RecoverSessions | playtime.py:254-299 | every session is resumed or settled, safe wherever it breaks off |
| ZipMembers.DataIsAtTheOffset | zipfs.py:167-181 | the computed offset is where the member's data starts, whatever the header's name and extra lengths |
| ZipMembers.OpenStored | zipfs.py:364-380 | a stored member opens as a window; if the archive holds the member, as a file of exactly its bytes |
| ZipMembers.ReadStored | zipfs.py:364-380 | a stored member, from the archive's bytes to the answers of any seeks and reads, is an array of its bytes |
| Inflating.StallsExactly | zipfs.py:205-210 | on a whole member feeding stalls exactly when the last byte is swallowed, output is still owed and too little of it waits |
| Inflating.InflateReader.Fill | zipfs.py:205-210 | fails exactly when feeding from the present state stalls, and leaves the state feeding leads to |
| Inflating.InflateReader.Read | zipfs.py:212-223 | returns exactly the next bytes of the member, or one of two errors, each in exactly the stated case of the state before; sound in any case |
| MemberReader.DecompressReader.Seek | zipfs.py:268-288 | the object takes the adapter's step: invalid and negative targets refused, a new stream when going back, reading forward |
| MemberReader.DecompressReader.Read | zipfs.py:290-293 | the object takes the adapter's step |
| MemberReader.StepIsFlat | zipfs.py:268-293 | a call that succeeds moves and reads as a flat file of the member does; past the end a seek stops at the end |
| MemberReader.RunExactly | zipfs.py:232-298 | a sequence of calls meets no error exactly if no read of it, skipping ones included, stalls or asks beyond the stream |
| MemberReader.DecompressReader.Replay | zipfs.py:232-298 | any sequence of reads and in-range seeks answers as the member's bytes do, up to the first error, and meets one exactly in that case |
| MemberReader.HoldingNothingBackServes | zipfs.py:205-223 | on a healthy member whose inflater holds nothing back no call fails |
| MemberReader.OpenDeflated | zipfs.py:364-393 | a deflated member opens as a seekable reader over a fresh stream on its compressed bytes |
| MemberReader.ReadDeflated | zipfs.py:364-393 | a deflated member, from the archive's bytes to the answers of any reads and in-range seeks, is an array of its inflated bytes unless a read stalls |
| PendingMatch.PendingMatchIsNotFetched | zipfs.py:205-210 | a healthy member and a lawful inflater on which the second of two plain reads fails |
| PendingMatch.ReadPending | zipfs.py:205-223 | the same through the objects, from an archive that holds that member |
| ExistingParts.CanonicalExistingParts | upload_engine.py:219-260 | the result is nothing or an exact cover by distinct messages, and is the canonical choice of the set of rows |
| ExistingParts.SplitCandidate | upload_engine.py:182-216 | the parts of a group, or proof that the group is no whole upload |
| ExistingParts.ChoiceIsDetermined | upload_engine.py:219-260 | the set of rows determines the choice |
| ExistingParts.OrderDoesNotMatter | upload_engine.py:153-161 | any permutation of the rows gives the same parts |
| ExistingParts.TiedRowsLeaveAChoice | upload_engine.py:153-161 | two rows with equal keys and different contents for which either choice is canonical |
| ProcessTree.Descendants | gamelaunch.py:372-388 | the loop ends with exactly the processes that descend from the seeds in the snapshot |
| ProcessTree.GameLauncher.ClaimProcess | gamelaunch.py:348-370 | the claim succeeds only for the latest eligible claimant and leaves the process with it alone; a failed save undoes itself |
| ProcessTree.GameLauncher.MonitorOnce | gamelaunch.py:372-429 | keeps all sessions' processes disjoint and memory equal to disk, even when saves fail; when they land, the session holds exactly the processes that belong to it and that it owns |
| ProcessTree.OneOwner | gamelaunch.py:348-359 | two sessions never both own a process they list |

## Left out

- Telethon, asyncio and thread mechanics, HTTP, WSGI, the shell handlers, installers and media tools: input, output and foreign calls.
- Wake-up liveness of the scheduler, the version counter, `wait_for_change` and the notify calls: safety and bounded work are proved, not eventual completion.
- Revoke handles, diagnostics, `qualification_deadline` (written, never read), `metrics_snapshot` as a dictionary and `status`: they decide nothing the protocol depends on.
- Physical speed windows and flood-cycle totals of the speed tracker: the effective windows show the same pruning argument.
- SegmentScheduler.SegmentScheduler.BeginRequest: segments, account records and runtimes are values in the objects' maps, so sharing of `task()` rows by reference is not modelled; a lease with its attempt number is one value, not an object with a `_closed` flag.
- FailoverSafety.EveryRunIsSafe: ids are numbers and their comparison stands for comparing texts; the clock counts milliseconds, so the next representable instant is the next tick; speeds and scores are exact reals; an expired snapshot counts as absent when read instead of being cleared.
- AccountPool.TelegramAccountPool.AcquireUploadLease: one pass, which is all the scheduler's zero timeout allows; the sleeping retry loop of other callers is a sequence of such passes.
- Segment ids are assumed distinct and unused elsewhere in the pool; account id zero is the primary route and not a configured account.
- `commit_migration` does not close an already quiesced lease; the next selection does, and the model does the same.
- PartTable.UsableParts: rows are taken as already sorted by part index; the listing caches of the API client are left out.
- PartTable.ListedSizeIsReaderSize: parsing the true length out of the file hash text is left out, and so are directory-cache lifetimes.
- VirtualFile.TelegramWorker.ReadChunks: retries, flood waits and expired file references repeat the same request and are left out.
- UploadLimiter.PaceBound: counts wake-ups at slots; a sender that wakes inside a penalty asks again instead of sending, so sends are no more than these.
- UploadLimiter.AdaptiveUploadLimiter.Pace: exact reals and an exact sleeper; the concurrency window (a semaphore) is left out, interleaved senders are the `Asked` events of a history.
- UploadLimiter.RestartIsNoFaster: a flood whose save is lost leaves the rate from before it on disk; the JSON of the stored rate is left out; an unreadable or day-old file counts as none.
- PlaytimeSessions.NoSessionIsLost: a second failure inside a failure handler and a crash during directory syncing are not distinguished from the write landing or not; quarantining a corrupt file is left out because the queue file never becomes corrupt in any history.
- PlaytimeSessions.PlaytimeService.RecoverSessions: which processes still run is an input; finding them by executable path is the process adapter's work.
- The sender's back-off and hold times: they delay records but never drop one.
- MemberReader.DecompressReader.Replay: a sequence ends at its first error; after the error for a member shorter than recorded the adapter's position lags behind its stream, and nothing is claimed about later calls.
- MemberReader.OpenDeflated: other compression methods, data after the end of the deflate stream and the member tree are left out.
- PendingMatch.PendingMatchIsNotFetched: the decoder works on the symbols whose codes the bytes pack; decoding them back from the bits is not part of the model.
- ExistingParts.CanonicalExistingParts: converting a row's fields to numbers is left out; a row whose fields do not convert has no data.
- ProcessTree.GameLauncher.MonitorOnce: monitors do not overlap; resolving executable paths is a parameter; launching a game and truly concurrent claims are left out; a session's root stands for its case-folded text.
- Staging queues (`uploadstage.py`, `gamestage.py`): their deletion safety depends on callbacks not modelled here.
