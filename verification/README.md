# sfync, modelled and verified in Dafny

sfync mirrors a directory tree to or from a server over SFTP or FTP and, as a
daemon, uploads files as they change. Its hard parts are a planner whose jobs
run in parallel phases and a handful of small concurrent protocols. This
project models those parts and proves what they keep over every input and
every interleaving.

How the model is laid out:

- `Trees`, `Schedule`, `Mirror`, `Engine`, `Sync`: the mirror engine. A tree is
  a finite map from paths (sequences of components) to nodes. The diff, the
  sort and the two executors are methods with the source's loops; a parallel
  batch takes its jobs in any order. `Mirror` proves that all these orders end
  in one tree; `Recovery` drops the assumption that steps succeed; `SecondRun`
  says what mirroring again does.
- `Walk`: the parallel remote scan as a step system and as a method.
- `ConnPool`, `SftpSessions`, `FtpSession`: the connection pool's critical
  sections as functions on its fields, a class whose methods are proved against
  them, a system of any number of threads built from the same functions, and
  the two clients' sessions on top of it.
- `Upload`, `Download`: one upload attempt for every way the server can answer,
  then any run of edits and attempts; atomic local writes.
- `Daemon`, `Retry`: debouncer, queue and workers; what a worker does with a task.
- `LeasePool`, `Reconnect`, `Deadline`: the smaller protocols.
- `FtpTime`: listing times, timezone detection, and why files stay in sync.
- `Paths`, `Sums`, `Options`: slash-separated strings, totals, options.

A step system has an invariant kept by every step, and its main results are
stated over runs. Where the code updates fields, the class method's contract
says what the new state is, by the same function that the step system uses or,
in `Engine`, `Upload`, `Deadline` and `Reconnect`, outright.

Assumptions, all visible as preconditions or parameters: the trees are
prefix-closed and have no file where the other has a directory; the ignore
patterns are one arbitrary predicate used by both scans; for runs of uploads, an
edit is later than any partial written before it and does not happen during an
attempt (for a mirror run, `Usable` says what that gives, and `Spoiled` when it
fails); a failed transfer leaves an in-order prefix; times are integers in nanoseconds; a server
shows a file by date only when it is more than 150 days old (MDTM itself is
section 3 of RFC 3659); users have stopped before the lease pool is shut down.

Where code and its comments differ, the model follows the code: MkdirAll may
report the server's refusal although the session has since fallen out of step
(`FtpSession.EnsuredMeans` says exactly when); a listing hides a lost reply to
its time lookup, and the session is used again (`FtpClient.LostTimeGoesUnnoticed`);
a client dialed while its profile changes is lent out with the old settings
(`LeaseProtocol.OldSettingsSurvive`); and an uploaded file can be missing
for good, not only for a moment, if the rename after the fallback's delete
fails (`UploadsAreAtomic`).

## Model

| member | source | states |
|---|---|---|
| `Trees.DiffTrees` | internal/transfer/mirror.go:275-373 | whatever order the maps come in, the actions listed are, as a multiset, the plan: one decision per path, upload or download direction alike |
| `Trees.DiffSourceEntry` | internal/transfer/mirror.go:278-345 | the branches for one source entry come to the pointwise decision for its path |
| `Trees.PlanMembers` | internal/transfer/mirror.go:275-373 | an entry is in the plan exactly when it is the decision for its own path |
| `Trees.SkippedExactly` | internal/transfer/mirror.go:380-392 | in the plan, up and down alike, a file on both sides is skipped exactly if the sizes agree and the local time is no more than two seconds before the remote one and no more than two seconds after the end of its precision; otherwise it is transferred |
| `Trees.EditsAreNoticed` | internal/transfer/mirror.go:380-392 | a file more than two seconds apart, either way, from a copy listed with its exact time is transferred, whatever its size |
| `Trees.PlannedExactly` | internal/transfer/mirror.go:275-373 | when a path has each of the other entries, in terms of what the two scans hold there; a file and a directory at one path are a conflict, never a transfer |
| `Trees.OneEntryEach` | internal/transfer/mirror.go:275-373 | a path has at most one entry, and none exactly if it is a directory on both sides or on neither side at all |
| `Trees.VisibleMeans` | internal/transfer/mirror.go:228-253 | an entry is shown exactly if nothing on the way down to it, itself included, is ignored or is a file whose name ends in .sfync-part |
| `Schedule.SortActions` | internal/transfer/mirror.go:399-435 | skips are dropped and nothing else is lost or repeated; phases come in order; mkdirs are shallowest first and directory removals deepest first, ties in any order |
| `Schedule.SortedExactly` | internal/transfer/mirror.go:399-435 | what such a list is, kind by kind: nothing but the skips is gone, no transfer comes before a mkdir, no deletion before a transfer, and depths ascend for mkdirs and descend for directory removals |
| `Schedule.DepthLevels` | internal/transfer/mirror.go:535-548 | the levels concatenate back to the input, none is empty, each is of one depth, neighbours differ in depth |
| `Schedule.LevelsStrict` | internal/transfer/mirror.go:441-472 | on a depth-sorted list the levels' depths are strictly monotone, so a level never holds a parent and its child |
| `Paths.SlashesAreDepth` | internal/transfer/mirror.go:419-426 | counting slashes in the joined relative path gives the depth the model sorts by |
| `Paths.JoinedIsInjective` | internal/transfer/mirror.go:235-249 | different component sequences are different relative-path strings |
| `Mirror.MirrorConverges` | internal/transfer/mirror.go:443-530 | whatever order the jobs of a phase or level take, every mkdir finds its parent, every upload its directory, every delete a file, without any fallback; an upload fails exactly when a directory is where its partial file has to go, and a removal exactly when something hidden is below; the final tree is always the same |
| `Mirror.FinalMirrorsSource` | internal/transfer/mirror.go:275-325 | what that tree is: the source's directories; each file sent, or already within tolerance, or, if its upload was blocked, as before; everything the scan hides unchanged unless it is the partial of a file sent; and, besides, just the directories that hold something hidden |
| `Mirror.SentIsExact` | internal/transfer/mirror.go:764-769 | a file sent has the source's content exactly unless its upload went on from a partial that is not the start of it, and the source's size in any case |
| `Mirror.ContinuesExactly` | internal/transfer/atomic.go:43-47 | an upload goes on from a partial exactly if the file has ten megabytes or more and the hidden file beside it is not empty, not larger and not older, and the server plays along |
| `Mirror.StalePartialSpoils` | internal/transfer/mirror.go:764-769 | a run without any failure that puts in place what is not the source's file |
| `Mirror.NothingHiddenMeansSamePaths` | internal/transfer/mirror.go:443-530 | with nothing hidden on the destination its paths end up the source's paths exactly when no file it lacks was blocked |
| `Mirror.ConsumedMeansSent` | internal/transfer/ftp.go:260-339 | the hidden entries that go are exactly the partial files of files sent |
| `Mirror.UploadStep` | internal/transfer/ftp.go:260-325 | when its turn comes an upload puts in place the file, or the partial found with the rest of the file, and takes the partial away; or it fails and changes nothing if a directory is at the partial path |
| `Mirror.HeldDirStep` | internal/transfer/mirror.go:516-530 | when its turn comes a directory with something hidden below it cannot be removed and nothing changes |
| `Mirror.EmptyDirStep` | internal/transfer/mirror.go:516-530 | when its turn comes any other directory is empty and is removed |
| `Mirror.RetriedStep` | internal/transfer/mirror.go:469-530 | a step that worked and is tried again changes nothing more; it is reported as done again, a remote file already gone included, unless it removes a directory or a local file |
| `Mirror.WithDirsExactly` | internal/transfer/ftp.go:426-488 | MkdirAll succeeds exactly if no file is on the way, and adds just the directories that are missing |
| `Mirror.StepsMakeTheirWay` | internal/transfer/mirror.go:469-480 | in any closed tree, its directory made or not, a mkdir and a download succeed exactly if no file is in the way of their directories and nothing of the other kind in their place |
| `Trees.OwnerOfPartial` | internal/transfer/atomic.go:33-36 | a partial path names its file: different files have different partials beside them |
| `Mirror.ParentReady` | internal/transfer/mirror.go:469-500 | when a mkdir or a transfer is due its parent directory is there |
| `Mirror.MirrorIsIdempotent` | internal/transfer/mirror.go:275-325 | diffing again after a run that kept file times gives one skip per source file in place, the blocked uploads and the removals that had to fail again, and nothing else |
| `SecondRun.SftpUpIsIdempotent` | internal/transfer/mirror.go:380-392 | after a mirror-up whose times were set to the whole second and are listed exactly, a second one skips every file, but for blocked uploads |
| `SecondRun.DownIsIdempotent` | internal/transfer/mirror.go:380-392 | after a mirror-down that set local times, kept at least to the second, a second one skips every file |
| `SecondRun.FtpSecondRun` | internal/transfer/ftp.go:517-613 | a second mirror-up over FTP, with every file listed anew in whatever style and each entry corrected by the server's offset or, as long as that is unknown, not at all: a file in place is skipped exactly if it compares as in sync then; one whose time was set from here always if corrected, and under an exact condition if not |
| `Engine.ExecuteUp` | internal/transfer/mirror.go:443-530 | any interleaving of jobs inside each batch, and any outcome of each job, is a run over exactly the given actions in an order that respects the plan, each reported once |
| `Engine.ExecuteDown` | internal/transfer/mirror.go:560-635 | the same with deletes before downloads |
| `Engine.FaultlessIsExec` | internal/transfer/mirror.go:443-635 | without faults the tree reached is that of the plan's own steps |
| `Engine.MirrorResult.OnResult` | internal/transfer/mirror.go:475-530 | a report adds to one counter or one list: successes count by kind, a failed transfer is an error, any other failure a warning |
| `Engine.MirrorResult.CountSkips` | internal/transfer/mirror.go:58-63 | Skipped becomes the number of skip actions in the diff |
| `Engine.ReportsAreConserved` | internal/transfer/mirror.go:59-65 | for any outcomes at all, uploads, downloads, creations, deletions, errors and warnings together count the reports, and skips are untouched |
| `Engine.CountsAreAsReported` | internal/transfer/mirror.go:475-635 | for any reports: the errors are the paths of the failed uploads and downloads in order, the warnings those of conflicts and of all other failures, and each counter the number of successes of its own kind |
| `Engine.NoErrorsMeansAllSent` | internal/transfer/mirror.go:627-635 | there is no error exactly if no upload and no download failed |
| `Engine.DownRespects` | internal/transfer/mirror.go:560-635 | the download order meets every ordering constraint the sorted list has |
| `Sync.MirrorUp` | internal/transfer/mirror.go:23-80 | for every pattern of failures everything planned but skips is tried once, the result says report by report what came of it, it is free of errors exactly if no transfer failed, and the counters add up to the size of the diff; without failures the destination ends as the mirror, each file sent being the source's exactly unless it was spoiled by its partial, the errors are exactly the blocked uploads and the warnings exactly the directories that hold something hidden; with any plausible failures ignored entries survive and, the partials being usable, no file is truncated |
| `Sync.MirrorDown` | internal/transfer/mirror.go:82-135 | the same for the other direction, with its own order: a failed download is an error |
| `Sync.SerialOrderAgrees` | internal/transfer/mirror.go:399-435 | every admissible order, parallel or deletes first, ends in the tree that the sorted list gives one by one |
| `Sync.ScansAreSound` | internal/transfer/mirror.go:137-271 | two scans of prefix-closed trees without file/directory conflicts meet the assumptions above |
| `Sync.NoConflicts` | internal/transfer/mirror.go:275-325 | on such trees the plan has no conflict action |
| `Recovery.FaultyRunsDoNoHarm` | internal/transfer/mirror.go:443-530 | steps failing, half succeeding, repeated or missing in any order, uploads leaving anything an attempt can leave and downloads a temporary file: the tree stays closed and all that .syncignore covers survives; and unless a directory still to be made can be fouled, nothing appears but source entries and partial files, and kinds never change |
| `Recovery.NextRunRepairs` | internal/transfer/mirror.go:443-530 | after any such run, the next one that gets through ends with the source's mirror, each file it sends being the source's if the partials were usable, and still keeps what is ignored; it can be run if no directory still to be made could be fouled |
| `Recovery.HarmlessExactlyIfClear` | internal/transfer/atomic.go:33-66 | every faulty run leaves kinds alone, and can be mirrored over again, exactly when no file to be transferred has a source directory that the destination lacks at its partial or temporary path |
| `Recovery.RunsCanFoul` | internal/transfer/atomic.go:33-66 | otherwise, a run of at most two steps that leaves a file where such a directory belongs |
| `Recovery.FaultyRunsNeverTruncate` | internal/transfer/ftp.go:242-339 | in any such run every file at a source path is what was there before or all of the source's file, if the partials found at the start were usable |
| `Recovery.AttemptsAreGlitches` | internal/transfer/ftp.go:292-339 | whatever one upload attempt can leave, the destination and its partial both gone included, is among the faults considered |
| `Recovery.WithDirsAdds` | internal/transfer/ftp.go:426-488 | MkdirAll adds only directories, only on the way to its path, and leaves a closed tree |
| `Walk.WalkRemote` | internal/transfer/mirror.go:200-271 | however listings complete, the parallel walk ends, with exactly the entries the serial recursion finds |
| `Walk.WalkIsOrderIndependent` | internal/transfer/mirror.go:200-271 | in every interleaving the wait group is zero exactly when no task is left, and then the result is the same map; with every directory readable it is the scan |
| `Walk.WalkTerminates` | internal/transfer/mirror.go:200-271 | every interleaving takes the same bounded number of steps, three per directory |
| `Walk.FoundIsScan` | internal/transfer/mirror.go:228-253 | found entries are those with no passed-over ancestor or self |
| `Walk.ReachedExactly` | internal/transfer/mirror.go:208-227 | what is shown is found exactly if every directory above it can be listed |
| `Walk.UnlistedIsGone` | internal/transfer/mirror.go:208-227 | a file on both sides is deleted locally by a mirror-down, and sent as new by a mirror-up, exactly if some directory above it could not be listed on the server |
| `Walk.StepKeepsInv` | internal/transfer/mirror.go:208-264 | each directory discovered is owed exactly one listing; wait group counts the tasks |
| `Reconnect.Coordinator.Healthy` | internal/transfer/mirror.go:689-693 | healthy means no reconnect since and the probe answers |
| `Reconnect.Coordinator.Replace` | internal/transfer/mirror.go:698-712 | the connection is touched only if the generation is the observed one; it advances exactly on a successful connect |
| `Reconnect.ReplacementIsExclusive` | internal/transfer/mirror.go:676-712 | no Close/Connect happens while any attempt or probe holds the lock, and only by a worker that failed on the current generation |
| `Reconnect.RetryIsOnANewerGeneration` | internal/transfer/mirror.go:738-746 | a retry starts only on a strictly newer generation than the one it failed on |
| `Reconnect.NextIsSafe` | internal/transfer/mirror.go:676-712 | locks are consistent, generations are dated, and each generation is replaced successfully at most once, after every step |
| `Reconnect.TransfersComplete` | internal/transfer/mirror.go:720-761 | every interleaving ends, no job is ever reported twice, and in the end each has run once, or twice after a failure, and was reported exactly once with its last attempt's outcome |
| `Reconnect.FailuresAreRetried` | internal/transfer/mirror.go:720-761 | in the end of every run a job has failed in a single attempt exactly if the probe made for it answered with the generation unchanged, or its own reconnect failed; after any other first failure there was exactly one second attempt, and the generation that failed has been replaced |
| `Reconnect.ReplacedForAFailure` | internal/transfer/mirror.go:738-746 | a worker replaces the connection only for a job whose first attempt failed at the generation it observed and that nothing has excused since; afterwards that generation is past, or the job's failure stands |
| `Reconnect.HealthyIsLeftAlone` | internal/transfer/mirror.go:683-693 | a failure found healthy never has the connection closed or redialed for it, before or after |
| `ConnPool.Pool.constructor` | internal/transfer/connpool.go:41-45 | a limit below one becomes one |
| `ConnPool.Pool.Seed` | internal/transfer/connpool.go:49-54 | a seeded connection counts as open and idle, and one waiter is signalled |
| `ConnPool.Pool.AcquireTurn` | internal/transfer/connpool.go:64-84 | one pass of acquire's loop: closed, idle, hopeless, dial, or sleep, in that order |
| `ConnPool.Pool.DialSucceeded` | internal/transfer/connpool.go:85-97 | a dial that won hands out its connection, or closes it if the pool was closed meanwhile |
| `ConnPool.Pool.DialFailedWith` | internal/transfer/connpool.go:98-118 | a lost dial frees its slot and wakes everyone; with none established its error stands, otherwise the limit shrinks to what is open and the loop goes on |
| `ConnPool.Pool.Release` | internal/transfer/connpool.go:126-138 | a broken connection or a closed pool closes it and wakes everyone; otherwise it goes idle and wakes one |
| `ConnPool.Pool.TryAcquireIdle` | internal/transfer/connpool.go:142-151 | takes an idle connection if there is one; busy only if connections exist and the pool is open |
| `ConnPool.Pool.CloseAll` | internal/transfer/connpool.go:155-170 | closes what is idle, once; later calls do nothing |
| `ConnPoolProtocol.StepKeepsInv` | internal/transfer/connpool.go:49-170 | open counts idle, held and dialing and never exceeds the limit; every connection ever made is in exactly one place; sleepers imply a full open pool with a woken thread for each idle connection |
| `ConnPoolProtocol.SleeperIsNotAlone` | internal/transfer/connpool.go:60-122 | whenever a thread sleeps unsignalled some woken thread, dial or holder is there to act |
| `ConnPoolProtocol.PoolDrains` | internal/transfer/connpool.go:60-138 | once nobody enters, every interleaving ends, closed meanwhile or not, and it ends with nobody inside: there is no hang |
| `ConnPoolProtocol.DrainGoesOn` | internal/transfer/connpool.go:60-138 | while somebody is inside, some step other than a new entry is possible |
| `ConnPoolProtocol.UseIsExclusive` | internal/transfer/connpool.go:49-170 | a held connection has one holder and is neither idle nor closing nor closed |
| `ConnPoolProtocol.ClosedPoolClosesAll` | internal/transfer/connpool.go:126-170 | after closeAll and all releases every connection ever made was closed exactly once |
| `ConnPoolProtocol.FailuresAreHonest` | internal/transfer/connpool.go:64-118 | a dial error is returned only when no connection is established, errPoolClosed only when the pool is closed |
| `ConnPoolProtocol.PoolOnlyShrinks` | internal/transfer/connpool.go:49-170 | the limit never grows and stays at least one; closed and capped are for good |
| `ConnPoolProtocol.ServedExactly` | internal/transfer/connpool.go:64-120 | what a caller meets: the connection released last, or a dial if there is room, or sleep; only one that has waited gives up on a remembered error, and only if nothing is open |
| `ConnPoolProtocol.FailureIsShared` | internal/transfer/connpool.go:76-107 | a failed dial that leaves nothing open is everyone's: each sleeper fails with its error instead of dialing |
| `ConnPoolProtocol.FailureCaps` | internal/transfer/connpool.go:98-118 | a failed dial with others established fails nobody: the limit drops to what is open, the caller shares that without dialing again, and the cap is reported only the first time |
| `ConnPoolProtocol.ErrorsAreCurrent` | internal/transfer/connpool.go:85-107 | over any run a remembered dial error is that of a dial that no other has succeeded after, and nothing is established while it is remembered |
| `SftpSessions.SlotMeansNoWaiting` | internal/transfer/sftp.go:189-207 | at most as many large transfers as slots hold sessions, and none ever sleeps in the session pool unless the server has refused a session |
| `SftpSessions.StepKeepsSlots` | internal/transfer/sftp.go:189-207 | everyone in the session pool has a slot and slots are never exceeded |
| `FtpSession.FtpSession.MkdirAll` | internal/transfer/ftp.go:426-488 | a session that will be reused is in the directory it started in; success means every directory on the way is there, and nothing else was made; it is in step with the server unless the last reply check was lost |
| `FtpSession.FtpSession.EnsureDir` | internal/transfer/ftp.go:456-484 | one component is handled as the function of the server's answers says |
| `FtpSession.EnsuredMeans` | internal/transfer/ftp.go:456-484 | for any answers: it succeeds exactly when the directory is made, or found by entering it and coming back; the working directory is restored or the session given up; in step exactly when the check after a refused MKD lost no reply |
| `FtpSession.MkdirAllStays` | internal/transfer/ftp.go:426-488 | over all components, with any answers, a session that is not given up is where it was |
| `FtpSession.MkdirAllKeepsStep` | internal/transfer/ftp.go:426-488 | over all components, with any answers, a session that is not given up has lost a reply exactly if the answers for some component reached slipped |
| `FtpSession.MakesThePath` | internal/transfer/ftp.go:444-454 | the last directory made is the path asked for exactly when the path is absolute and clean |
| `FtpClient.IdleSessionsAreAtHome` | internal/transfer/ftp.go:121-154 | over every interleaving of dials, probes, other operations and MkdirAll loops with any server answers, idle and handed-out sessions have the working directory they logged in with |
| `FtpClient.StepKeepsHome` | internal/transfer/ftp.go:141-154 | each step, a whole MkdirAll included, keeps every session that has not been given up at home |
| `FtpClient.BrokenExactly` | internal/transfer/ftp.go:98-156 | a single command gives up its session exactly if its reply is lost or is 421; NOOP exactly if it is not answered with success |
| `FtpClient.SwallowedExactly` | internal/transfer/ftp.go:98-156 | a session that goes back to the pool lost a reply in that use exactly if the use swallowed it: in MkdirAll's check, in the time lookup of a listing, or in a transfer whose result is another command's |
| `FtpClient.LostRepliesWereSwallowed` | internal/transfer/ftp.go:98-156 | over any run an idle or handed-out session has lost a reply exactly if some use of it swallowed one |
| `FtpClient.LostTimeGoesUnnoticed` | internal/transfer/ftp.go:550-583 | a listing whose time lookup is lost puts its session back as if nothing had happened |
| `Paths.SplitJoined` | internal/transfer/ftp.go:444-445 | splitting at slashes recovers the components of a joined path |
| `Paths.JoinedSplit` | internal/transfer/ftp.go:444-445 | joining recovers the string, and no component has a slash |
| `Upload.RemoteDir.FtpUpload` | internal/transfer/ftp.go:242-339 | one attempt for any server answers: it succeeds exactly when the transfer and the replacement do, and then the whole current file is there; failure leaves the old file, the whole new one, or, after the fallback's delete, none, and a broken transfer never touches the destination; a resumed attempt sends only the rest and a failed one keeps its partial |
| `Upload.RemoteDir.SftpUpload` | internal/transfer/sftp.go:346-433 | the same for SFTP, where a close error is fatal, only a refusal that says so counts as the destination missing, and a partial that is not to be resumed is removed |
| `Upload.RemoteDir.FtpReplace` | internal/transfer/ftp.go:332-339 | when the rename or its delete-then-rename fallback succeeds, when exactly it leaves no destination, and that the destination is never truncated |
| `Upload.RemoteDir.SftpReplace` | internal/transfer/sftp.go:438-449 | the same with posix-rename or without it |
| `Upload.RemoteDir.ResumeOffset` | internal/transfer/atomic.go:43-47 | the offset is the partial's length exactly when its size and time are known and it passes the check |
| `Upload.ResumesExactly` | internal/transfer/atomic.go:43-47 | when an attempt goes on from a partial; that FTP sends the whole file when the server refuses to go on; that a rename refused is tried again without the old file, by SFTP only if that was removed or not there, and one whose reply is lost is not |
| `UploadRuns.UploadsAreAtomic` | internal/transfer/atomic.go:14-47 | over any edits, failures and retries the destination is the first file, a complete version, or absent only if it was at first or the fallback deleted it; a successful attempt leaves exactly the current content and no partial |
| `Upload.ResumeIsExact` | internal/transfer/atomic.go:43-47 | continuing a partial that passes the check commits the local file exactly when the partial is its start |
| `UploadRuns.StaleEditCorrupts` | internal/transfer/atomic.go:43-47 | an edit no later than the partial lets a stale partial pass, so the assumption on edit times is needed |
| `Download.LocalFile.WriteLocalAtomic` | internal/transfer/atomic.go:61-108 | a download replaces the destination whole or not at all, and which; an existing file keeps its mode and a new one gets 0644; it has the given time if that could be set; finish is called exactly once, and a temporary file stays only if removing it failed |
| `Daemon.KeysAreDistinct` | internal/watcher/queue.go:117 | different tasks have different keys, file paths holding no NUL |
| `Daemon.DebounceKeysAreDistinct` | internal/watcher/watcher.go:339 | files of profiles whose names do not clash have different debouncer keys |
| `Daemon.KeysClashExactly` | internal/watcher/watcher.go:339 | two profiles have files with the same key exactly when one name extends the other with a colon and a slash |
| `Daemon.ClashLosesChange` | internal/watcher/debounce.go:24-43 | of two files with one key, the second one's event stops the first one's timer: eight steps after which all is quiet and the first change was never processed |
| `Daemon.UploadQueue.Claim` | internal/watcher/queue.go:122-132 | a free file is taken; a taken one is parked |
| `Daemon.UploadQueue.Finish` | internal/watcher/queue.go:137-148 | the file is freed and its parked work, if any, handed back |
| `Daemon.UploadQueue.RememberDir` | internal/watcher/queue.go:395-401 | the directory is remembered for its profile |
| `Daemon.UploadQueue.ForgetDirs` | internal/watcher/queue.go:405-413 | all directories of the profile are forgotten, or of every profile |
| `Daemon.Debouncer.Add` | internal/watcher/debounce.go:24-43 | the file's timer in the map is stopped and a new one armed in its place |
| `Daemon.Debouncer.Fired` | internal/watcher/debounce.go:34-38 | a fired timer clears whatever the map holds for its file by then |
| `Daemon.Debouncer.Stop` | internal/watcher/debounce.go:46-54 | the timer the map holds for the file is stopped and removed, others are not touched |
| `Daemon.Debouncer.StopAll` | internal/watcher/debounce.go:57-65 | every timer in the map is stopped |
| `Daemon.NextKeepsInv` | internal/watcher/queue.go:96-148 | one worker per file in flight, parked work only for files in flight, and, no two files sharing a key, every file changed since its last processing began is still owed one |
| `Daemon.NeverTwiceAtOnce` | internal/watcher/queue.go:122-132 | no two workers process the same file |
| `Daemon.NoChangeIsLost` | internal/watcher/queue.go:96-148 | when timers, queue and workers are quiet and no two files share a key, every file's last processing began after its last event |
| `Daemon.DaemonSettles` | internal/watcher/queue.go:96-148 | without further events every interleaving ends, quiet, and with nothing lost unless two files share a key |
| `Daemon.OneTimerIfNoneUnmapped` | internal/watcher/debounce.go:24-43 | an event leaves one live timer for its file exactly when no live timer had dropped out of the map |
| `Daemon.TwoTimersCanLive` | internal/watcher/debounce.go:34-42 | five steps after which two timers are live for one file |
| `Retry.ProcessUpload` | internal/watcher/queue.go:151-333 | for any outcomes of the three attempts: each lease is given back before the next or the report, at most one report and it is the last act, it is the outcome the attempts come to, and the server is touched only at the file's own remote path: removing only what that attempt saw missing, with the context present, deletes on and the remote kind looked up, and sending, resumably from ten megabytes on, only what it did not see missing or irregular |
| `Retry.TryOnce` | internal/watcher/queue.go:190-330 | one attempt: its verdict, and a log that is orderly, in which the lease is given back as failed exactly if the attempt failed and the directories are forgotten after a failed transfer |
| `Retry.DeleteRemote` | internal/watcher/queue.go:341-371 | deleted exactly when a removal succeeded; no error exactly when deleted, already absent, or a directory kept at the final attempt |
| `Retry.OrderlyLogBalances` | internal/watcher/queue.go:235-330 | in such a log acquires equal releases and there is at most one report |
| `Retry.OrderlyLogOrder` | internal/watcher/queue.go:235-330 | in such a log the server is touched only while exactly one lease is out, leases never overlap, and nothing follows a report |
| `Retry.SyncedExactly` | internal/watcher/queue.go:171-200 | a task is worked on, and under which path, exactly if its file is the context or below it, its name does not end in .sfync-part and the path is not ignored |
| `Retry.ErrorMeansAllFailed` | internal/watcher/queue.go:187-333 | an error is reported exactly when all three attempts failed uninterrupted, and it is the last one's |
| `Retry.SuccessMeansOneDid` | internal/watcher/queue.go:187-333 | success is reported exactly when some attempt did its work and all before it failed uninterrupted |
| `Retry.VerdictByFields` | internal/watcher/queue.go:200-330 | what one attempt comes to, from what it met: done if the file was sent or the copy removed, dropped if there was nothing to do, otherwise to be retried with the first answer that was not as hoped |
| `Retry.OutcomeByFields` | internal/watcher/queue.go:187-333 | the report, from what the attempts met: success exactly if one does the work and all before it failed without Stop in between, the last error exactly if all three fail, nothing exactly if one has nothing to do or Stop comes in a wait |
| `Retry.FilesAreReported` | internal/watcher/queue.go:187-333 | a file that is there is never silently dropped: without Stop it ends in success exactly if some attempt got a lease, has its directory and sent it, and otherwise in the third attempt's first failing answer |
| `Retry.DeletionsAreReported` | internal/watcher/queue.go:208-272 | a path that stays gone: without Stop the first attempt that settles the matter decides, silence meaning that there was no remote copy, or that a directory was kept at the last attempt; otherwise the last error is reported |
| `Retry.NotMissingUnlessSure` | internal/watcher/queue.go:208-222 | without the option, or once the context is gone, a missing path is let go in silence |
| `LeasePool.ConnectionPool.LeaseExisting` | internal/transfer/pool.go:52-62 | an entry in the map is leased; it is probed unless recently trusted |
| `LeasePool.ConnectionPool.ProbeAnswered` | internal/transfer/pool.go:62-68 | a client that answered is trusted again |
| `LeasePool.ConnectionPool.ProbeFailed` | internal/transfer/pool.go:69-73 | a dead client is retired, then the lease on it ended |
| `LeasePool.ConnectionPool.InstallClient` | internal/transfer/pool.go:85-97 | a lost race shares the installed client and closes one's own; otherwise the new client is installed with one lease |
| `LeasePool.ConnectionPool.RetireEntry` | internal/transfer/pool.go:127-137 | retiring removes the entry only if it is the current one and closes an unused client, once |
| `LeasePool.ConnectionPool.ReleaseLocked` | internal/transfer/pool.go:111-123 | the last lease of a retired entry closes it; a failure clears the trust |
| `LeasePool.ConnectionPool.UpdateProfiles` | internal/transfer/pool.go:142-184 | for every known profile with a client: the client stays, untouched, exactly if the new profiles have it with the same host, port, credentials, protocol, connection limit, certificates and host-key checking, unset meaning on; otherwise it is retired, out of the map, and closed then and there exactly if unused; all else is unchanged |
| `LeasePool.ConnectionPool.CloseAll` | internal/transfer/pool.go:160-169 | every current entry is retired and closed, the map emptied |
| `LeasePool.Releaser.Call` | internal/transfer/pool.go:100-108 | only the first call ends the lease |
| `LeaseProtocol.StepKeepsInv` | internal/transfer/pool.go:51-169 | the map holds exactly the unretired entries, users count the leases, and a client has been closed exactly when it is retired and unused, once, after every step |
| `LeaseProtocol.LeasedIsOpen` | internal/transfer/pool.go:51-123 | in every interleaving a client somebody leases has not been closed |
| `LeaseProtocol.EveryClientClosedOnce` | internal/transfer/pool.go:51-169 | no client is closed twice, and when nobody leases, all but the current ones are closed |
| `LeaseProtocol.RetiredIsForGood` | internal/transfer/pool.go:111-137 | no step leases or revives a retired entry or reopens a client |
| `LeaseProtocol.FailureForcesProbe` | internal/transfer/pool.go:56-62 | after a failed operation the next Acquire of the client probes it |
| `LeaseProtocol.SuccessSparesProbe` | internal/transfer/pool.go:56-62 | after a success the next Acquire leases the client at once while it is recent |
| `LeaseProtocol.AlikeExactly` | internal/transfer/pool.go:173-184 | a change is noticed exactly if the profiles differ in anything but the fields that do not matter for connecting, or in whether they check the host key |
| `LeaseProtocol.SettingsStay` | internal/transfer/pool.go:75-97 | the one step after which a current client's settings are not its profile's present ones is the install of a client that was being dialed while they changed |
| `LeaseProtocol.LentUnderPresentSettings` | internal/transfer/pool.go:142-156 | in every run whose reloads find no client being dialed under settings they change, whatever is lent out was dialed with the present ones |
| `LeaseProtocol.OldSettingsSurvive` | internal/transfer/pool.go:75-97 | after any other reload a client with the old settings can be lent out, and reloading once more does not retire it |
| `LeaseProtocol.CloseAllNeedsQuiet` | internal/transfer/pool.go:160-169 | CloseAll keeps the closing rule exactly when nobody leases a current client |
| `Deadline.DeadlineTracker.Begin` | internal/transfer/deadline.go:37-55 | the operation is registered under a new number and the connection's deadline is the latest registered |
| `Deadline.DeadlineTracker.Apply` | internal/transfer/deadline.go:59-67 | the loop sets the latest registered deadline, or none |
| `Deadline.Operation.End` | internal/transfer/deadline.go:47-54 | only the first call unregisters, and then the deadline is again the latest |
| `Deadline.DeadlineIsLatestInFlight` | internal/transfer/deadline.go:37-67 | over any history of begins and repeated ends the deadline is the latest among those begun and not ended, cleared if none |
| `Deadline.NeverCutShort` | internal/transfer/deadline.go:17-22 | the deadline is never before that of an operation in flight |
| `FtpTime.RoundIsNearest` | internal/transfer/ftp.go:602-613 | rounding to a quarter of an hour recovers the offset from either side |
| `FtpTime.OffsetIsExact` | internal/transfer/ftp.go:602-613 | a minute listing and MDTM together give exactly the server's offset, for every quarter of an hour up to fourteen hours either way, and none beyond |
| `FtpTime.DateOnlyIsNeverUsed` | internal/transfer/ftp.go:560-567 | an entry shown by date only never passes the test for detection, anywhere in the range of timezones |
| `FtpTime.UsableExactly` | internal/transfer/ftp.go:560-567 | the offset can be detected exactly from files listed to the minute whose shown time is under 150 days before a clock fourteen hours ahead |
| `FtpTime.OffsetDetector.Detect` | internal/transfer/ftp.go:550-583 | once known the offset is the server's; tries are bounded; a usable entry whose MDTM answers settles it |
| `FtpTime.OffsetDetector.ReadDir` | internal/transfer/ftp.go:190-222 | all entries of a listing are converted with the offset known by then, or with none, and without a usable entry it stays unknown |
| `FtpTime.TrueTimeIsInWindow` | internal/transfer/ftp.go:517-532 | corrected, the true time lies in the entry's window, which is a day for times over 150 days past and a minute otherwise |
| `FtpTime.SetTimesStayInSync` | internal/transfer/mirror.go:380-392 | a file whose time was set to the whole second compares as in sync, listed to the minute or by date |
| `FtpTime.ExactTimesStayInSync` | internal/transfer/mirror.go:380-392 | the same with exact listings |
| `FtpTime.DateOnlyDrift` | internal/transfer/mirror.go:380-392 | a file whose time was not set here goes out of sync on turning date-only exactly when the local time is off that day on the server's calendar |
| `FtpTime.DriftHappens` | internal/transfer/mirror.go:380-392 | a file in sync at 157 days and out of sync at 210 |
| `FtpTime.UncorrectedNeedsUtc` | internal/transfer/ftp.go:538-549 | without correction a recent file is in sync exactly when the server lists in UTC |
| `FtpTime.UncorrectedInSync` | internal/transfer/ftp.go:538-549 | uncorrected, a file whose time was set is in sync exactly if the server lists in UTC, or not east of it for a minute listing taken for a date, or if its time lies in what a date shows |
| `FtpTime.UncorrectedDateDiffers` | internal/transfer/ftp.go:538-549 | a file just sent that compares as different, alone in its listing and listed by date |

## Left out

- In a mirror run without faults a transfer is one step on the tree, which also takes its partial file away; what it can leave half way is in `Recovery`.
- Walk: the mirror theorems assume complete scans; a directory that cannot be listed is only warned about, and `Walk.UnlistedIsGone` says what that costs.
- Descendants of a path that is a file on one side and a directory on the other: the diff still lists actions for them, so the mirror theorems exclude such trees.
- Dry runs, symlinks, unsafe entry names, the concurrency limits of scans and transfers, and the order of warnings in the result.
- Engine.ExecuteUp: conflict actions run as a batch of their own at the start instead of being warned about while the list is split.
- Engine.MirrorResult.OnResult: warnings and errors are kept as paths; their texts, and warnings that are not about an action, are not modelled.
- Walk, Reconnect, Daemon, LeaseProtocol, ConnPoolProtocol: threads are values in a step system, with each critical section one step; the Go memory model and fairness are not modelled, termination is a bound on steps.
- ConnPool.Pool.Seed: seeding happens only before any other use.
- LeasePool: entries and clients are named by numbers in tables, so aliasing of entry pointers is not captured; a close that the code does in the background counts at once.
- Remembered directories may no longer exist on the server when workers run concurrently; nothing is claimed about them beyond the map itself.
- Upload.RemoteDir.FtpUpload, Upload.RemoteDir.SftpUpload: a session that has lost a reply is taken to stay dead; file modes, holes left by out-of-order SFTP writes, and edits in the middle of an attempt.
- Retry: path cleaning and joining are parameters, reading the ignore file and its warnings are left out, and so is the queue's remembered-directory map beyond when it is updated.
- Daemon: stopping the queue, reloading profiles, the queue-length warning, and the file-system event loop in front of the debouncer.
- FtpClient: which replies a transfer's commands get, and which of them decides its result, is arbitrary; its server side is in `Upload`.
- SftpSessions: the flag that sends large transfers to the shared session after a refusal.
- FtpTime: the year that a listing without one leaves to be guessed, and saturation of very long durations.
- Deadline: a budget is never negative, and the connection's own deadline before the first operation is cleared.
- Protocol libraries, TLS and SSH, key handling, configuration, notifications, mounting, installation, and error texts.
