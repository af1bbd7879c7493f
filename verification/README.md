# GoNZBd durability path: a verified model

A Usenet downloader receives the articles of a file out of order, buffers and coalesces them in memory,
writes them at their offsets, and lets a barrier drain, sync, record and acknowledge them. Only what has
been acknowledged may be treated as never needing another fetch. This project models that path in Dafny
and proves what it promises.

How the model is laid out:

- **One file.** `FileBuffer` is a file's share of the write cache as values, `Writing` the writer's record
  with every transition, `WriterInvariant` and `WriterRuns` what every operation keeps, `DrainTruth`,
  `Settlement`, `Transparency`, `WriteBounds` and `Loans` what follows over whole runs.
- **The worker.** `Assembly` is one request at a time over all files and jobs, with the calls it makes.
  `WorkerMoves` breaks every request into moves, so that a property kept by each move holds over every run;
  `WorkerFiles`, `Routing`, `WorkerLedger`, `WorkerLife` and `Completion` use it. `Arrivals`, `Rejections`,
  `Failures`, `WriteFaults` and `Anomalies` say what an article comes to and who is told of it, `Drains`, `Closings`
  and `Lifecycle` how files and jobs end and start over, `Replies` and `BarrierRequests` what the barrier is
  answered and what its requests change.
- **The program's own form.** `WriteCaches`, `FileWriters` and `Assemblers` are the objects with their fields,
  loops and in-place updates; each method's contract equates the new state with the specification function,
  so the theorems above are about them.
- **Protocols.** `BarrierLocks`, `Acks`, `AtRisk` with `ReloadSafety` and `Sweeps`, `Checkpoints` and `DiskProbes` are state
  machines over every interleaving of their steps, each beside the class that holds the guarded maps.
- **Both together.** `HeldArticles` follows one article through every operation of a file; `Refinement` runs the
  worker and the checkpoint protocol side by side and proves that the protocol's view of the worker is right;
  `Finalizing` follows a completed file through them to its close.
- **The meter.** `Meters` proves rings of buckets, and the meter object that holds them, against the exact sum
  over the log of records.
- **Limits.** `Counterexamples` gives concrete runs that break a property without its hypothesis.

The disk is part of the model: each write succeeds, or fails leaving anything inside its own range. Write
outcomes, openings, pressure victims among equally large files, and the order of a range over a map are
arbitrary, so every statement is for all of them. Histories the program does not keep (claims made, articles
taken back, closed files) are recorded only to state the theorems.

Where the code departs from its comments the model follows the code:

- A failed open returns the article's buffer twice, once in the open and once in its caller.
- A permanently failed article that carries data and was counted before never gets its buffer returned.
- The retry of a failed article skips the completion check on the assumption that it counts no part, but the
  article it displaces may then be counted for the first time, so a file can miss its completion.
- `acceptedAt` keeps the owner of an offset after its write failed, so a later article displaces an owner
  that holds no part.
- Finalizing a file whose job has no sync target reports success without draining, and then closes the file, so
  written articles can be left that no barrier will ack. A reload that follows clears their job.
- A checkpoint gives up its job's lock before it settles. A second one can then read the figure the first has
  still to settle, and the two take the same bytes off twice, at the cost of bytes counted in between.

Hypotheses the statements carry: articles at different offsets do not overlap; where single disposition is
claimed, an article always arrives at one offset; where claims are said to stay true, a truncation's bound spares
them, which is proved exact and proved of the barrier's own bound; where an entry is said to
cover its job's bytes, no settle has overdrawn it, which is proved exact and holds when checkpoints run in turn;
where nothing at all is to be unacked at a reload, files are closed with nothing unacked, which is proved exact
too, and proved of every file finalized before its close; clocks do not go back.

Nothing here is executed; the theorems are established by the Dafny verifier.

## Model

| member | source | states |
|---|---|---|
| `DrainTruth.DrainTellsTheTruth` | internal/assembler/filewriter.go:748-772 | After any run of arrivals, failures, flushes, drains, truncations that spare every claim, and write faults, every claim a drain returns reads back from the file as the article it names, no article or offset appears in it twice, and every earlier claim is still true; articles at different offsets must not overlap |
| `DrainTruth.DrainLeavesNothingOut` | internal/assembler/filewriter.go:736-772 | After a drain every accepted article not resolved as failed has been claimed, in this report or an earlier one |
| `DrainTruth.TruncationIsSafeExactly` | internal/assembler/filewriter.go:844-859 | Of a file whose claims all read back, cutting it to a bound leaves every claim true if and only if no claim with bytes ends beyond the bound |
| `Settlement.CutExactly` | internal/assembler/filewriter.go:844-859 | A run's truncations all spare the claims made before them if and only if the writer's history has recorded no harmful cut |
| `Settlement.SettledOffsetsArePermanent` | internal/assembler/filewriter.go:503-509 | Once an offset's owner has been noted written, no continuation of the run changes it |
| `Settlement.DisplacedIsClean` | internal/assembler/filewriter.go:395-404 | When articles keep to one offset each, an owner whose offset is taken has never been written, and if it was counted as accepted none of its bytes are left in the cache |
| `Settlement.DeadStaysDead` | internal/assembler/filewriter.go:605-660 | An accepted article with no bytes anywhere stays unwritten through every continuation |
| `Settlement.DisplacedIsNeverWritten` | internal/assembler/assembler.go:1777-1808 | Over whole runs with one offset per article: an accepted article that is displaced is claimed neither before nor ever after |
| `WriterInvariant.FailKeepsCount` | internal/assembler/filewriter.go:417-428 | Giving a part back keeps the part count equal to the accepted and failed articles, and the clamp at zero never acts |
| `WriterRuns.RunKeepsInv` | internal/assembler/filewriter.go:605-786 | The invariant of an open file over every run: buffered bytes belong to their offset's unwritten owner and to an accepted article, an article lands once, the part count is exact, every accepted article not failed is written or buffered, claims match settled offsets one to one |
| `WriterRuns.BufferNeverReplaces` | internal/assembler/writecache.go:203-209 | The replace arm of buffer is never reached: over every run, when an article comes to be buffered nothing is cached at its offset |
| `Transparency.DrainedFileShowsReceived` | internal/assembler/writecache.go:289-413 | Without faults, a drained file shows exactly the articles received in range over what it held when opened, for every cache limit, arrival order and flush schedule, with redeliveries and failures mixed in |
| `Transparency.CacheIsTransparent` | internal/assembler/writecache.go:171-215 | Two runs that received the same articles leave the same bytes, whatever their cache limits, orders and flush schedules |
| `Transparency.CacheAgreesWithDirectWrites` | internal/assembler/filewriter.go:605-677 | The same bytes as writing each received article straight to its offset, in any order |
| `WriteBounds.RangeCheckIsExact` | internal/assembler/assembler.go:2130-2165 | The range check, in wrapping 64-bit arithmetic, refuses exactly the articles with a negative offset, an end past the largest offset, or an end past the expected size with its eighth of slack |
| `WriteBounds.StepKeepsBounds` | internal/assembler/writecache.go:295-314 | Every operation keeps everything written, everything buffered and the run cursor inside the declared range, without overflow |
| `Arrivals.UnwelcomeLeavesNothing` | internal/assembler/assembler.go:1705-1808 | An article already accepted, out of range, or at an offset another has claimed to have written leaves not a byte anywhere and gets its buffer back; unless it was accepted before, it is failed for good |
| `Arrivals.WelcomeIsPlaced` | internal/assembler/filewriter.go:605-702 | Any other is written at once if there is no cache, it has no bytes, or it makes a run of 512 KiB at the write cursor, and is cached otherwise. Written, there is one write, of its range or of exactly the run, which leaves the cache; it is claimed and on the file, or taken back if that write failed. Cached, nothing is written |
| `Drains.DrainAccounts` | internal/assembler/filewriter.go:736-772 | A drain claims or takes back every article buffered; without a failing write all are claimed, and all are on the file if none overlap; it reports a fault if and only if a write failed, makes no write after that one, and leaves the cursor past everything |
| `Loans.StepPays` | internal/assembler/filewriter.go:663-772 | Every file operation pays back or keeps exactly the buffers it had and the one it was handed |
| `FileBuffer.ContiguousTiles` | internal/assembler/writecache.go:299-314 | The scan's articles lie end to end from the cursor and are the cached ones |
| `FileBuffer.ContiguousIsMaximal` | internal/assembler/writecache.go:299-314 | Nothing is buffered at the offset where the scan stops |
| `FileBuffer.TilesCoverRun` | internal/assembler/writecache.go:321-340 | Every byte of the merged write is the right byte of exactly the part that covers it |
| `FileBuffer.SortedIsSorted` | internal/assembler/writecache.go:391-413 | A drained file's articles are all those buffered, each once, in offset order |
| `FileBuffer.SortedIsUnique` | internal/assembler/writecache.go:391-413 | There is only one such order, so any correct sort delivers it |
| `FileBuffer.PutKeepsAccount` | internal/assembler/writecache.go:171-215 | Buffering keeps the file's total exact and moves one buffer into the cache |
| `FileBuffer.DropKeepsAccount` | internal/assembler/writecache.go:232-247 | Discarding keeps the total exact and pays the discarded buffer back |
| `FileBuffer.RunKeepsAccount` | internal/assembler/writecache.go:320-340 | Building a run keeps the total exact and pays back the run's buffers |
| `FileBuffer.DrainKeepsAccount` | internal/assembler/writecache.go:391-413 | Draining hands out every buffered byte and buffer and leaves a total of zero |
| `DrainTruth.RunLandsEveryPart` | internal/assembler/filewriter.go:686-702 | After a merged write succeeds, each part's bytes are at the part's own offset |
| `DrainTruth.RunWritesElsewhere` | internal/assembler/filewriter.go:686-702 | A merged write, complete or torn, leaves every claim at another offset as it was |
| `WorkerLife.WorkerTellsTheTruth` | internal/assembler/synctarget.go:497-509 | After any requests over any files, jobs and faults, a drain of any open file whose claims no truncation has cut is truthful, and so was every claim of such a file when it closed |
| `Routing.EveryArticleIsRoutedOnce` | internal/assembler/assembler.go:1890-1928 | Each article is returned to Outstanding once for every write fault or failed open that lost it, and reported displaced once for every displacement; no open file has any waiting; the only set dropped is that of a kept file whose cancelling drain failed |
| `Routing.RouteCallsSay` | internal/assembler/assembler.go:1901-1928 | Routing a set mentions each article in it once, in the right call, and no other |
| `Routing.DrainAndCloseQuiet` | internal/assembler/assembler.go:1235-1285 | A file is closed after a drain with nothing left to route: the leaked branch is never taken |
| `Rejections.RefusedExactly` | internal/assembler/assembler.go:1569-1592 | Over every run, a request reports its article rejected once, and no other, if and only if it is a new article out of the declared range at an open file, one at an offset another has claimed there, or one never counted that comes after completion, with that reason |
| `Failures.EveryFailureIsExplained` | internal/assembler/assembler.go:1842-1928 | Over every run, an article a file holds failed for good either arrived so, or its owner has been told that it was rejected or displaced |
| `WriteFaults.ArticleReportsFaults` | internal/assembler/assembler.go:1842-1864 | An article's request reports a write fault of a file once if one of the writes it made to that file failed, or if the file is its own and could not be opened, and not otherwise |
| `WriteFaults.OthersReportNone` | internal/assembler/synctarget.go:496-534 | No other request reports one: a drain's and a close's go into the reply |
| `WriteFaults.ReturnedBeforeReported` | internal/assembler/assembler.go:2208-2227 | What a failed write took back is returned before its fault is reported |
| `Anomalies.WarnedOncePerFile` | internal/assembler/assembler.go:1777-1928 | Over every run, a request warns of a file exactly once if it brings an article at an offset that belongs to another, written or not, and the file has not been warned of since it was opened, and never otherwise |
| `Arrivals.ArticleHasOutcome` | internal/assembler/assembler.go:1408-1510 | Over every run, an article that reaches its file while the cache has room for it is turned away, cached or written as above, or counted as failed for good without touching cache or file if that is how it comes, and its request touches no other file |
| `WorkerLedger.CacheIsAccountedFor` | internal/assembler/writecache.go:171-451 | The cached total is the sum over files and over buffered lengths, and the cache knows no file that is not open |
| `WorkerLedger.PartCountIsExact` | internal/assembler/filewriter.go:533-580 | An open file's part count is the number of its articles accepted or failed for good |
| `WorkerLedger.RequestPaysOnce` | internal/assembler/assembler.go:1408-1510 | A request's buffer changes hands exactly once if and only if its open does not fail and it is not a repeated permanent failure that carries data |
| `WorkerLedger.BuffersComeBackOnce` | internal/assembler/writecache.go:441-451 | Over every run of such requests each buffer handed in is at any moment either paid back or cached, once |
| `WorkerLedger.NothingIsLeftOnLoan` | internal/assembler/assembler.go:445-451 | With no file open, every buffer has come back once |
| `WorkerLife.PressureIsRelieved` | internal/assembler/assembler.go:2176-2233 | However ties among the largest files fall, relief ends at nine tenths of the limit or below, unless a write faults |
| `WorkerLife.PressureEnds` | internal/assembler/assembler.go:2176-2233 | Relief always terminates |
| `WorkerLife.EaseIsLeftAlone` | internal/assembler/writecache.go:343-352 | Nothing is flushed while no more than nine tenths of the limit are cached |
| `WorkerLife.VictimsAreLargest` | internal/assembler/assembler.go:2176-2183 | Each file flushed was, at its turn, one that no other had more bytes cached than, with more than nine tenths of the limit cached |
| `WorkerLife.AdmissionRelievesPressure` | internal/assembler/assembler.go:1466-1473 | A newly admitted article leaves the cache out of pressure, unless a write faults |
| `WorkerLife.CancelledJobIsIdle` | internal/assembler/assembler.go:1053-1086 | A cancelled job has no open file and nothing cached, and its articles do nothing but return their buffers, until the job is forgotten |
| `Lifecycle.CancelledExactly` | internal/assembler/assembler.go:1053-1160 | Over every run, a job is cancelled if and only if it has been cancelled and not forgotten since |
| `Lifecycle.FinishedExactly` | internal/assembler/assembler.go:1053-1160 | Over every run, a file is finished with if and only if it has been reported complete, or closed with its job, and its job has not been forgotten since |
| `Lifecycle.ForgottenJobStartsOver` | internal/assembler/assembler.go:1142-1160 | After its job is forgotten, cancelled before or not, the next article of a file opens it as the opening gives it, unless it is open still, and is handed to it |
| `Lifecycle.ForgettingKeepsFiles` | internal/assembler/assembler.go:1142-1160 | Forgetting a job touches no open file and no cached byte |
| `Closings.CancelEnds` | internal/assembler/assembler.go:1316-1380 | A cancelled job's open files all end, and their keys are buried. Kept, each was drained: every article it had buffered is claimed, and on the file if none overlapped, or a write failed, and which of the two is what is recorded. Deleted, nothing was written |
| `Closings.HandlesEnd` | internal/assembler/assembler.go:1090-1141 | Closing a job's handles drains and closes every file of it, buries their keys and cancels nothing |
| `Closings.CloseEnds` | internal/assembler/synctarget.go:514-530 | Closing one file for the barrier drains it like the others and buries nothing |
| `Closings.LateArticleOpensNothing` | internal/assembler/assembler.go:1106-1141 | After its job's handles are closed or the job cancelled, whatever is served short of its forgetting, an article of a file that was open opens nothing and does nothing but return its buffer |
| `WorkerLife.CompletionNeverCoversAHole` | internal/assembler/assembler.go:2059-2066 | Whenever a file is reported complete, enough distinct articles are written, buffered or failed for good, and none waits to be routed |
| `WorkerLife.CompletesOnce` | internal/assembler/assembler.go:1408-1510 | From any state a file is reported complete at most once more, and not at all if it already was, while its job is not forgotten |
| `WorkerLife.WorkerWritesWithinBounds` | internal/assembler/assembler.go:2130-2165 | Every write of every file, open or closed since, stayed inside the file's declared range, and no cursor overflows |
| `Completion.NoticedExactly` | internal/assembler/assembler.go:1705-1758 | Whatever faults, a request leaves a complete open file unfinished exactly when, by what holds before it, an arrival nobody looks after (the retry of a failed article, or one whose write is going to fail) displaces the file's last uncounted part and takes back no counted one, or a job is forgotten with a complete file open |
| `Completion.RunNoticesExactly` | internal/assembler/assembler.go:1408-1510 | A run leaves no completion unnoticed at any moment if and only if it makes no such request |
| `Completion.LookedAtExactly` | internal/assembler/assembler.go:1740-1757 | The completion test follows an arrival exactly when its article is new to the file and every write it makes succeeds |
| `Completion.UnseenArrivalCounts` | internal/assembler/assembler.go:1705-1758 | What an arrival nobody looks after does to the counted parts: it adds the article it displaces and takes off those its failing write carries |
| `Completion.EveryCompletionIsReported` | internal/assembler/assembler.go:1500-1510 | Over every run with no such request, an open file with as many articles accepted or failed for good as it has parts has been reported complete |
| `Completion.RunHoldsArrival` | internal/assembler/filewriter.go:642-660 | A coalesced write that faults on an arrival takes the arrival itself back |
| `Completion.NoLongRunWaits` | internal/assembler/writecache.go:293-340 | In every run, between two requests, no file has 512 KiB of articles lying end to end from its write cursor in the cache |
| `WorkerFiles.WorkerKeepsFiles` | internal/assembler/assembler.go:924-1007 | Whatever file operations preserve holds of every file of every run, while open and when it was closed |
| `WorkerMoves.ServeKeeps` | internal/assembler/assembler.go:1023-1170 | Whatever the worker's moves preserve, every run of requests preserves |
| `BarrierLocks.OneBarrierPerJob` | internal/app/durability.go:330-413 | Under every interleaving of acquire, lock, unlock, release and forget, two barriers of one job never run together, and callers of one job share one mutex that no other job has |
| `BarrierLocks.EntryOutlivesItsCallers` | internal/app/durability.go:361-413 | The holder count is the number of live callers, and an entry is deleted only when there are none |
| `BarrierLocks.ForgottenEntryGoes` | internal/app/durability.go:361-413 | Once a job has been forgotten, from inside its own barrier or not, it has no entry as soon as it has no users, until its lock is asked for anew |
| `BarrierLocks.UnforgottenEntryStays` | internal/app/durability.go:361-373 | An entry that nobody forgets keeps its mutex however its users come and go |
| `BarrierLocks.LockTable.constructor` | internal/app/durability.go:330-342 | An empty table |
| `BarrierLocks.LockTable.JobBarrierLock` | internal/app/durability.go:330-342 | The job's mutex, minted on first use, with one more holder |
| `BarrierLocks.LockTable.ReleaseJobBarrierLock` | internal/app/durability.go:361-374 | One holder fewer; a forgotten entry goes with its last holder |
| `BarrierLocks.LockTable.ForgetJobBarrierState` | internal/app/durability.go:383-413 | An unheld entry goes at once; a held one is marked |
| `Acks.NoClaimIsLost` | internal/assembler/filewriter.go:774-819 | Through any interleaving of barriers that succeed or fail anywhere, forgetting, and arrivals at any moment, every claim an open file made has been acked or will be in its next report |
| `Acks.ConfirmIsSafe` | internal/assembler/filewriter.go:806-819 | Confirming loses no claim if and only if everything reported has been acked |
| `Acks.FinalizingCutsNothing` | internal/durability/barrier.go:560-590 | After any interleaving, truncating a drained file to a bound over the claims acked and the claims just reported cuts no claim it ever made |
| `Acks.AckFollowsSyncs` | internal/durability/barrier.go:175-300 | Whenever a barrier can ack, it has had every file it drained synced after its drain, and the storage raised no fault |
| `Acks.OnlySyncedIsAcked` | internal/durability/barrier.go:175-300 | Through any interleaving, whatever has been acked had been claimed before a sync of its file that went without fault |
| `Acks.AckedMayConfirm` | internal/durability/barrier.go:285-315 | A barrier that has acked may confirm every file it drained, and acks no more |
| `Acks.BarrierStopsAtFaults` | internal/durability/barrier.go:181-256 | A drain stops its barrier if and only if one of the writes it made failed, and a sync if and only if it failed |
| `ReloadSafety.AccumulatorCovers` | internal/app/durability.go:426-445 | Over any number of reloads, and with settles that come any time after the job's lock is given up, the entry of a job no settle has overdrawn is at least the bytes counted for it that are queued, buffered, or written but not acked in an open file; no entry is zero or negative |
| `ReloadSafety.SettleIsExactExactly` | internal/app/durability.go:722-737 | A settle keeps an exact entry exact if and only if it does not both take off bytes an earlier settle has taken off and leave bytes in the entry that it never read |
| `ReloadSafety.EntryIsExactExactly` | internal/app/durability.go:479-673 | At every moment of a history the entry is exactly what was counted and not taken off, if and only if no settle of the history has overdrawn it |
| `ReloadSafety.AccumulatorCoversInTurn` | internal/app/durability.go:618-672 | When no checkpoint of a job begins before the last has settled, nothing is ever overdrawn, and the entry covers outright |
| `ReloadSafety.ReloadIsSafe` | internal/app/reloader.go:156-260 | At every reload's clearing of Emitted bits, however many reloads came before, no article with bytes of a cleared job still downloading and not overdrawn is in the pipeline, queued, buffered, or written and unacked in an open file: it can be unacked only because its file was closed over it |
| `ReloadSafety.ClosesThatWaitStrandNothing` | internal/app/durability.go:1026-1065 | No article is ever stranded if and only if every close finds its file with nothing unacked |
| `ReloadSafety.ReloadIsSafeWhenClosesWait` | internal/app/reloader.go:156-260 | Under that condition no article of a cleared job is unacked at all |
| `ReloadSafety.FlowStaysPlaced` | internal/app/pipeline.go:161-308 | The in-flight count is the number of results taken from the channel and not yet finished |
| `ReloadSafety.SweptCheckpointWins` | internal/app/durability.go:479-673 | A checkpoint begun after the quiet that succeeds leaves its job nothing queued, buffered or unacked, however late it settles |
| `ReloadSafety.NoFilesWins` | internal/app/durability.go:543-612 | One that finds no file open has a job with nothing at risk |
| `ReloadSafety.NoEntryNoRisk` | internal/app/durability.go:741-809 | A job without an entry, and not overdrawn, has at most empty articles at risk |
| `Sweeps.ProtectedExactly` | internal/app/durability.go:479-672 | Over every history, the jobs a reload's pass counts as protected are exactly those of which a checkpoint begun in that pass found no file open, or succeeded and settled |
| `Sweeps.SafeExactly` | internal/app/durability.go:909-945 | A job can be judged safe if and only if the pass has protected it or nothing of it is counted as at risk; else it can only be given up |
| `Sweeps.NoFilesExactly` | internal/app/durability.go:520-615 | A checkpoint ends as one of a job without files if and only if none was open when it asked, and only one that found a file open reads the job's entry |
| `Sweeps.SettlingNeedsAFile` | internal/app/durability.go:520-615 | No entry is settled for a barrier that ran over no file |
| `Sweeps.WithheldExactly` | internal/app/durability.go:857-946 | A reload keeps the Emitted bits of exactly the jobs it has given up, and of those with bytes at risk when the open jobs could not be listed; of a job with nothing at risk never |
| `Sweeps.RetiredHasNoEntry` | internal/app/durability.go:383-424 | A job that has left has no entry until bytes of it are counted again |
| `HeldArticles.StepHolds` | internal/assembler/filewriter.go:605-786 | No operation but an arrival makes a file hold an article it did not hold: none invents bytes or claims |
| `HeldArticles.DrainReportsAllHeld` | internal/assembler/filewriter.go:748-786 | After a drain a file holds, buffered or claimed and not confirmed, exactly the articles of its report |
| `Refinement.RequestHolds` | internal/assembler/assembler.go:1023-1170 | No request makes the worker hold an article of a file except the one that brings it |
| `Refinement.DrainReportsHeld` | internal/assembler/synctarget.go:497-505 | A served drain reports every article the worker goes on holding of that file, which is the answer the checkpoint protocol takes for granted |
| `Refinement.CourseIsTied` | internal/app/durability.go:479-673 | Worker and checkpoint protocol run together step by step, with a finalize's own drain, ack and confirm among the steps: after every course of events each article the worker holds and the barrier has not acked is held by the protocol or named in a running checkpoint's report |
| `Refinement.ReloadFindsNothingHeld` | internal/app/reloader.go:156-260 | When a reload clears Emitted bits after any such course, every article of a cleared job, not overdrawn, that the worker's own cache and writers still hold has been acked, and no delivery of it is under way |
| `Finalizing.RequestStaysSealed` | internal/assembler/assembler.go:1569-1592 | A file reported complete that holds nothing but a report goes on holding no more than it, through every request but the forgetting of its job: each later arrival is a late duplicate |
| `Finalizing.FinalizedIsFinished` | internal/durability/barrier.go:529-640 | Once a file reported complete has been drained and acked, then whatever else happens, arrivals at any moment included, neither the worker nor the protocol comes to hold anything of it unacked |
| `Finalizing.FinalizedCloseStrandsNothing` | internal/app/durability.go:1026-1038 | Closing such a file, at any later time, strands no article |
| `Finalizing.FinalizedClosesStrandNothing` | internal/app/durability.go:1026-1155 | Over every course whose closes are all of finalized files, nothing is ever stranded |
| `Finalizing.ReloadIsSafeWhenFilesAreFinalized` | internal/app/reloader.go:156-260 | And then no article of a cleared job is unacked anywhere when a reload clears it |
| `AtRisk.Accumulator.NoteBytes` | internal/app/durability.go:426-445 | Counts a positive length and says whether the volume bound is reached |
| `AtRisk.Accumulator.SettleBytes` | internal/app/durability.go:722-737 | Takes off what a barrier read, dropping an entry that would not stay positive |
| `AtRisk.Accumulator.PendingBytes` | internal/app/durability.go:741-745 | The job's entry, or zero |
| `AtRisk.Accumulator.AtRisk` | internal/app/durability.go:796-809 | Exactly the jobs with a positive entry |
| `Checkpoints.NoMarkIsLost` | internal/checkpoint/checkpointer.go:58-124 | For every interleaving of marks, prunes and flushes, a job marked and not pruned since is dirty, in flight, or on disk at least as new as its last mark; a dirty or in-flight job has been marked since its last prune |
| `Checkpoints.NothingIsStrandedInFlight` | internal/checkpoint/checkpointer.go:88-124 | With no flush running, such a job is dirty or on disk |
| `Checkpoints.RowsNeverGoBack` | internal/checkpoint/checkpointer.go:88-124 | The version on disk never decreases |
| `Checkpoints.FlushLeavesExactly` | internal/checkpoint/checkpointer.go:88-124 | When a flush is over, the jobs to be written are exactly those marked since it began and not pruned after that, and if it failed also those of its batch not pruned since |
| `Checkpoints.Checkpointer.MarkJob` | internal/checkpoint/checkpointer.go:58-62 | The job is dirty |
| `Checkpoints.Checkpointer.PruneJob` | internal/checkpoint/checkpointer.go:67-72 | The job is neither dirty nor in flight |
| `Checkpoints.Checkpointer.Take` | internal/checkpoint/checkpointer.go:88-100 | The dirty set becomes the batch, in flight |
| `Checkpoints.Checkpointer.Merge` | internal/checkpoint/checkpointer.go:109-124 | On failure whoever is still in flight and not marked again becomes dirty; the batch is in flight no more |
| `DiskProbes.OneProbePerDirectory` | internal/assembler/diskprobe.go:130-152 | However claims, completions, evictions and abandoned waits interleave, at most one statfs runs for a directory |
| `DiskProbes.EvictionSparesTheLiving` | internal/assembler/diskprobe.go:165-182 | No entry with a running probe, or that could still answer, is evicted |
| `DiskProbes.AnswersAreCurrent` | internal/assembler/diskprobe.go:89-109 | Each answer comes from a probe that finished after the call began, or less than ttl before it |
| `DiskProbes.ClaimIsExact` | internal/assembler/diskprobe.go:130-152 | Over every history a claim starts a statfs if and only if the directory has none running and none finished less than ttl before; else it joins the one running, or is answered at once with what the last one found |
| `DiskProbes.EvictionIsExact` | internal/assembler/diskprobe.go:165-182 | A claim for a directory the table does not know drops exactly those with nothing running whose last statfs finished more than ttl and more than the eviction window ago; any other claim drops none |
| `DiskProbes.AnswersAreReal` | internal/assembler/diskprobe.go:188-195 | Every answer is what a statfs found, with the time it finished |
| `DiskProbes.DiskProbe.EvictStale` | internal/assembler/diskprobe.go:165-182 | Exactly the idle entries past the threshold go |
| `DiskProbes.DiskProbe.ClaimDir` | internal/assembler/diskprobe.go:130-152 | What one claim of the interleaved protocol does: answer, join or start |
| `DiskProbes.DiskProbe.FinishProbe` | internal/assembler/diskprobe.go:188-195 | The entry holds the answer and is pending no more |
| `Meters.WindowIsExact` | internal/bpsmeter/meter.go:48-143 | Over a meter's life with a clock that never goes back, the bytes a ring shows inside the window are the exact sum of the records since the last flush whose second is after now less the window |
| `Meters.AggregateIsTheSum` | internal/bpsmeter/meter.go:99-108 | The aggregate is the sum over its servers and the unnamed traffic |
| `Meters.OverwrittenIsOutside` | internal/bpsmeter/meter.go:48-64 | No bucket still inside the window has been overwritten |
| `Meters.RingIsExact` | internal/bpsmeter/meter.go:84-95 | The same for one ring: its buckets in the window add up to its records |
| `Meters.LifetimeIsExact` | internal/bpsmeter/meter.go:84-126 | A ring's lifetime total is everything recorded for it since the start, whatever is flushed |
| `Meters.RateTakesTheWindow` | internal/bpsmeter/meter.go:133-145 | The rate is in bytes per second: times the window's length it comes to the total |
| `Meters.ServerState.constructor` | internal/bpsmeter/meter.go:66-70 | A ring of empty buckets |
| `Meters.ServerState.Record` | internal/bpsmeter/meter.go:84-95 | Adds in place to this second's slot, or starts the next |
| `Meters.ServerState.Reset` | internal/bpsmeter/meter.go:114-123 | Every bucket empty, the lifetime total kept |
| `Meters.ServerState.Total` | internal/bpsmeter/meter.go:133-143 | The loop over the buckets adds up exactly those later than the cutoff |
| `Meters.Meter.constructor` | internal/bpsmeter/meter.go:48-64 | A second for a window that is not positive; only the aggregate, empty, nothing yet recorded |
| `Meters.Meter.GetOrCreate` | internal/bpsmeter/meter.go:74-81 | The server's own ring, or a new empty one that joins the map |
| `Meters.Meter.Record` | internal/bpsmeter/meter.go:99-108 | The rings are left as the events so far and this record leave them, and no ring is exchanged for another |
| `Meters.Meter.Flush` | internal/bpsmeter/meter.go:114-123 | Every ring is emptied, as the events so far and a flush leave them, and stays the same ring |
| `Meters.Meter.Within` | internal/bpsmeter/meter.go:133-143 | The bytes one server's ring shows after the cutoff; none for an unknown server |
| `Meters.Meter.BPS` | internal/bpsmeter/meter.go:133-156 | The rate is the exact sum of the records since the last flush inside the window, over the window, whatever the ring has overwritten; zero for an unknown server |
| `WriteCaches.WriteCache.Buffer` | internal/assembler/writecache.go:171-215 | Takes an article unless caching is off or it is empty; entry, totals and buffers as the specification has them |
| `WriteCaches.WriteCache.DiscardAt` | internal/assembler/writecache.go:232-247 | Drops one offset's article, counts it out and pays its buffer back |
| `WriteCaches.WriteCache.Scan` | internal/assembler/writecache.go:295-314 | The loop finds the maximal contiguous run and where it ends |
| `WriteCaches.WriteCache.Merge` | internal/assembler/writecache.go:320-340 | The loop copies every article of the run, removes it and pays its buffer back |
| `WriteCaches.WriteCache.BuildContiguousRun` | internal/assembler/writecache.go:289-340 | A long enough run becomes one write and leaves the cache; otherwise nothing changes |
| `WriteCaches.WriteCache.FlushContiguous` | internal/assembler/writecache.go:277-283 | The same for a file the cache may not know |
| `WriteCaches.WriteCache.InPressure` | internal/assembler/writecache.go:343-348 | More than nine tenths of a positive limit used |
| `WriteCaches.WriteCache.Collect` | internal/assembler/writecache.go:391-413 | The loop and sort deliver the file in offset order and the cursor past all of it |
| `WriteCaches.WriteCache.DrainFile` | internal/assembler/writecache.go:391-413 | Everything buffered comes out in order, and the entry is left empty |
| `WriteCaches.WriteCache.ForceFlushLargest` | internal/assembler/writecache.go:353-368 | A file no other file buffers more than, drained; nothing if nothing is buffered |
| `WriteCaches.WriteCache.Forget` | internal/assembler/writecache.go:441-451 | The entry goes, its bytes are counted out and its buffers paid back |
| `FileWriters.FileWriter.NoteWritten` | internal/assembler/filewriter.go:294-306 | Latches the owner and records the claim |
| `FileWriters.FileWriter.FailDisplaced` | internal/assembler/filewriter.go:395-404 | The displaced article is failed for good and waits to be routed |
| `FileWriters.FileWriter.RollbackPart` | internal/assembler/filewriter.go:417-428 | The article is no longer accepted, and its part is given back if it had one |
| `FileWriters.FileWriter.Fail` | internal/assembler/filewriter.go:471-474 | Rolled back and waiting to be routed |
| `FileWriters.FileWriter.OffsetSettledBy` | internal/assembler/filewriter.go:503-509 | Whether another article's written bytes own the offset |
| `FileWriters.FileWriter.NotePostAnomaly` | internal/assembler/filewriter.go:515-521 | True once per file |
| `FileWriters.FileWriter.AdmitAccepted` | internal/assembler/filewriter.go:533-536 | A newly accepted part |
| `FileWriters.FileWriter.AdmitRetryOfFailed` | internal/assembler/filewriter.go:544-546 | Accepted again, not counted again |
| `FileWriters.FileWriter.AdmitPermanentFailure` | internal/assembler/filewriter.go:555-568 | Counted unless already counted either way |
| `FileWriters.FileWriter.FailPermanent` | internal/assembler/filewriter.go:577-580 | Accepted no more, failed for good |
| `FileWriters.FileWriter.TakeFaulted` | internal/assembler/filewriter.go:587-591 | The waiting set, taken once |
| `FileWriters.FileWriter.Accept` | internal/assembler/filewriter.go:605-660 | Claims the offset, displacing an unwritten owner, then buffers and flushes or writes |
| `FileWriters.FileWriter.WriteOne` | internal/assembler/filewriter.go:663-677 | One write, its buffer paid back either way, claimed or rolled back |
| `FileWriters.FileWriter.FlushRun` | internal/assembler/filewriter.go:686-702 | One merged write; all its parts claimed or all rolled back |
| `FileWriters.FileWriter.WriteInOrder` | internal/assembler/filewriter.go:749-770 | Stops at the first fault; the rest are paid back and rolled back |
| `FileWriters.FileWriter.Drain` | internal/assembler/filewriter.go:748-786 | Flushes everything and reports all claims not yet confirmed |
| `FileWriters.FileWriter.Confirm` | internal/assembler/filewriter.go:817-819 | Releases exactly the last report |
| `FileWriters.FileWriter.Truncate` | internal/assembler/filewriter.go:844-859 | The file is cut to the bound, never grown and not at all for a negative bound; the history notes a cut claim |
| `FileWriters.FileWriter.constructor` | internal/assembler/filewriter.go:265-279 | A writer that has seen nothing |
| `Assemblers.Assembler.constructor` | internal/assembler/assembler.go:924-940 | No file open, finished or cancelled, nothing cached |
| `Assemblers.Assembler.Serve` | internal/assembler/assembler.go:1023-1170 | One request from the channel to its end is one step of the specification, with the reply or the joined errors the specification gives, whatever the open, the storage, the victims and the range order turn out to be |
| `Assemblers.Assembler.ServeArticle` | internal/assembler/assembler.go:1161-1170 | An article of a cancelled job only returns its buffer; any other is processed |
| `Assemblers.Assembler.ProcessRequest` | internal/assembler/assembler.go:1408-1510 | Late duplicate, open file, or an opening that may fail |
| `Assemblers.Assembler.LateDuplicate` | internal/assembler/assembler.go:1569-1592 | The buffer goes back; an article never counted is reported rejected |
| `Assemblers.Assembler.OpenTarget` | internal/assembler/assembler.go:1613-1680 | A fresh writer joins the open files |
| `Assemblers.Assembler.OpenFailure` | internal/assembler/assembler.go:1613-1634 | The article goes back to Outstanding and its buffer is returned twice, once here and once by the caller |
| `Assemblers.Assembler.HandleFatalArticle` | internal/assembler/assembler.go:1692-1696 | Counted as failed if not counted before |
| `Assemblers.Assembler.HandleSuccessArticle` | internal/assembler/assembler.go:1705-1758 | Duplicate, retry of a failed article, or a new part |
| `Assemblers.Assembler.AcceptArticle` | internal/assembler/assembler.go:1777-1808 | Refused out of range or at a settled offset, keeping its part; otherwise accepted or lost to a fault |
| `Assemblers.Assembler.RouteAccept` | internal/assembler/assembler.go:1842-1864 | A rejection is reported; a fault hands back everything it took |
| `Assemblers.Assembler.ReleaseFaulted` | internal/assembler/assembler.go:1890-1892 | The waiting set is taken and routed |
| `Assemblers.Assembler.RouteFaulted` | internal/assembler/assembler.go:1901-1928 | One rejection per displaced article, then one call for all the rolled back |
| `Assemblers.Assembler.RelievePressure` | internal/assembler/assembler.go:2176-2233 | Flushes largest files until out of pressure or a fault; the loop ends |
| `Assemblers.Assembler.FinalizeFile` | internal/assembler/assembler.go:2059-2066 | The key is finished with and the completion reported |
| `Assemblers.Assembler.Settle` | internal/assembler/assembler.go:1499-1510 | Hands back what was taken back, then looks whether the file is done |
| `Assemblers.Assembler.DrainAndClose` | internal/assembler/assembler.go:1235-1285 | Drained, routed, synced, closed and forgotten; the error answered is the worst of the three steps' |
| `Assemblers.Assembler.CloseHandle` | internal/assembler/filewriter.go:903-909 | The writer leaves the open files and hands back whatever was never routed |
| `Assemblers.Assembler.CloseCancelled` | internal/assembler/assembler.go:1316-1380 | Drained if kept, closed and forgotten |
| `Assemblers.Assembler.CloseAll` | internal/assembler/assembler.go:1073-1086 | Every open file of the job, once each, in whatever order the range delivers |
| `Assemblers.Assembler.Cancel` | internal/assembler/assembler.go:1053-1090 | The job is cancelled and its files closed and buried |
| `Assemblers.Assembler.CloseHandles` | internal/assembler/assembler.go:1090-1141 | The job's files drained, closed and buried, and the errors of their closing joined in the order of the range |
| `Assemblers.Assembler.ForgetTombstones` | internal/assembler/assembler.go:1142-1160 | The job's finished keys and its cancellation are forgotten, its open files untouched |
| `Assemblers.Assembler.ServeBarrier` | internal/assembler/synctarget.go:451-535 | Every arm of the barrier's requests with its reply: a closed file is an error except to close, and the listings name exactly what is open |
| `Assemblers.Assembler.ServeFile` | internal/assembler/synctarget.go:496-531 | Drain, sync, confirm, stat, truncate and close of an open file, each with the fault the storage gives it |
| `Assemblers.Assembler.OpenFiles` | internal/assembler/synctarget.go:455-460 | The job's open files, each once |
| `Assemblers.Assembler.OpenJobs` | internal/assembler/synctarget.go:461-468 | The jobs with an open file, each once |
| `Assemblers.Assembler.SyncDrainFile` | internal/assembler/synctarget.go:498-505 | The barrier's report, with whatever the drain took back already routed |
| `Assemblers.Assembler.SyncConfirmFile` | internal/assembler/synctarget.go:508-509 | The file's last report is released |
| `Assemblers.Assembler.SyncTruncateFile` | internal/assembler/synctarget.go:512-513 | One file is cut to the bound and no other changes |
| `Replies.PreferredTellsTheWorst` | internal/assembler/assembler.go:1235-1285 | The fault reported of several is one of them, there is one if and only if any step failed, and it is permanent if and only if any was |
| `Replies.NotedTellsTheWorst` | internal/assembler/assembler.go:1238-1284 | Keeping the first fault and the first permanent one reports that fault |
| `Replies.RepliesTellTheFaults` | internal/assembler/synctarget.go:471-534 | The reply about an open file carries an error if and only if there was a fault, and that fault: the sync's, the stat's, the truncate's, that of a write the drain made; of a close, the worst of its drain's, its sync's and its close's. About a file that is not open it says so, but to a close. A drain's reply holds what the file has reported |
| `Replies.ListingsTellWhatIsOpen` | internal/assembler/synctarget.go:448-468 | The listings name the open files of the job, and the jobs with an open file, each once |
| `Assemblers.JoinedErrorsTell` | internal/assembler/assembler.go:1090-1141 | The errors joined when a job's handles are closed are those of its files in their order, each telling whether its own drain, sync or close failed |
| `BarrierRequests.IdleRequestsChangeNothing` | internal/assembler/synctarget.go:448-534 | A listing, a sync and a stat change nothing, nor does a request about a file that is not open |
| `BarrierRequests.ConfirmReleasesTheReport` | internal/assembler/filewriter.go:806-819 | A confirmation releases the file's last report and does nothing else |
| `BarrierRequests.TruncateCuts` | internal/assembler/filewriter.go:844-859 | A cut that goes through leaves the bytes below the bound and no others; one that fails, or has a negative bound, leaves them all; nothing else changes |
| `BarrierRequests.DrainTouchesOneFile` | internal/assembler/synctarget.go:498-505 | A drain empties one file's cache entry into the file, hands back what it took back, and touches no other file |
| `Counterexamples.MovingArticleIsWrittenAndDisplaced` | internal/assembler/filewriter.go:605-647 | An article that arrives at two offsets can be written at one and failed as displaced from the other |
| `Counterexamples.StaleOwnerIsDisplacedThenWritten` | internal/assembler/filewriter.go:605-647 | An article displaced while its write had failed can still be written when it comes back |
| `Counterexamples.OverlapFalsifiesAClaim` | internal/assembler/filewriter.go:736-772 | Overlapping articles at different offsets make a reported claim false |
| `Counterexamples.OverlappingCyclesLoseAnAck` | internal/assembler/filewriter.go:806-819 | Two overlapping drain-to-confirm cycles lose a claim |
| `Counterexamples.OverlappingSettlesUndercount` | internal/app/durability.go:618-672 | A history in which two checkpoints of one job overlap between unlock and settle: the entry comes to nothing, and a reload clears the job with an article of its written and unacked |
| `Counterexamples.CloseCanStrandAnArticle` | internal/app/durability.go:1042-1061 | A finalize that finds no sync target closes its file with a written article unacked, and a reload then clears the job |
| `Counterexamples.CompletionCanBeMissed` | internal/assembler/assembler.go:1705-1758 | A retry that displaces a rolled-back owner counts the last part, and the file is never reported complete |
| `Counterexamples.FailedOpenReturnsTwice` | internal/assembler/assembler.go:1613-1634 | From a new worker, one failed open pays the article's buffer back twice |
| `Counterexamples.RepeatedFailureKeepsABuffer` | internal/assembler/assembler.go:1692-1696 | A second permanent failure of one article that carries data pays its buffer back to nobody |

## Left out

- Assemblers.Assembler.Serve: a file's size is whatever the storage says, not derived from the writes; the fault of each write, sync, stat, truncate and close is a value the storage chooses, with only its being permanent interpreted; drainAndCloseAll when the worker stops, the telemetry and the disk-space callbacks are left out.
- Assemblers.Assembler.OpenFailure: keeps the program's double return of the buffer, which RequestPaysOnce then excludes.
- Assemblers.Assembler.CloseCancelled: a close fault there is logged by the program and answers nobody, so it has no effect in the model; the removal of a deleted job's file is recorded only as the way the file ended.
- ReloadSafety.AccumulatorCovers: a job cancelled, completed or forgotten is not covered any more, its entry being dropped on purpose; an overdrawn job is not, and OverlappingSettlesUndercount shows why.
- ReloadSafety.ReloadIsSafe: the listings the barrier asks for are answered with the open files, not with an error read as none; jobs retired during the reload and empty articles, which are never counted, are excluded. Articles a close has stranded are the exception the statement names, and CloseCanStrandAnArticle shows that the program reaches it.
- Refinement.CourseIsTied: an article's deliveries are told apart by a token, and the arrival that the worker serves is the one at the head of the protocol's queue; a finalize's requests are served as steps of their own, not through that queue.
- Acks.NoClaimIsLost: the barrier is a client that drains, syncs, acks what its own drains returned and then confirms; its stats, run records, collision checks and database commit are part of one ack step that either happens or not, and no file closes under it.
- Arrivals.ArticleHasOutcome: an article that comes while the cache has no room is placed the same way, but its request then goes on to relieve pressure, which may write out any file's articles, its own included; what relief does is stated by PressureIsRelieved, VictimsAreLargest and DrainAccounts.
- Acks.FinalizingCutsNothing: that the stored runs and the articles of the report reach at least the claims acked and reported is the meaning of the bound, not derived from the database.
- DrainTruth.DrainTellsTheTruth: a failing write may leave anything inside its own range; content under overlapping ranges that start at different offsets has no defined winner and is excluded. Offsets are mathematical integers; wrap-around is modelled where the range check decides.
- Transparency.DrainedFileShowsReceived: runs without truncation, whose effect TruncationIsSafeExactly states.
- Meters.Meter.BPS: rates are reals, not floating point, and servers are numbered, the aggregate zero. The clock never goes back and never reads the zero time.
- DiskProbes.DiskProbe.ClaimDir: entries are numbered cells in a map rather than shared pointers; closing a channel is the disappearance of its probe.
- WriteCaches.WriteCache.Merge: the run is a fresh sequence, so reuse of the scratch buffer between runs is not modelled; the sort is any that gives the one ascending order.
- WriteCaches.WriteCache.Buffer: used and totalBytes are unbounded and a part's length is not narrowed to 32 bits.
- FileWriters.FileWriter.Accept: paths, message identifiers, fault classification and the anomaly text are left out; a displaced article's routing carries its index, offset and displacer.
- FileWriters.FileWriter.Truncate: the stat that decides whether the file would grow cannot fail apart from the truncate itself.
- Checkpoints.Checkpointer.Merge: the store saves a batch entirely or not at all, one flush runs at a time, and a job is one object per identifier that only moves forward.
- The nil and the empty slice are distinguished only by whether a buffer was lent.
- The HTTP interface, command line, downloader, NNTP, decoder, dispatcher, history, post-processing and user interface.
- Stall handling, startup resume, hydration, history retry and the finalizer beyond its bound and its closing of a file.
- Completion percentages, string helpers, configuration reloads other than the downloader's, and the orchestration of direct unpacking.
