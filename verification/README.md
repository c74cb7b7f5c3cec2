# EchoClip: verified models of the recorder cache, the upload, the scheduler, the protocol codec and the mixer

EchoClip records audio all the time, keeps the last minutes in a rolling cache of segment files, can export any
part of them, uploads the recording to a server over an unreliable network, runs one-shot scheduled tasks, and
mixes two capture sources on a fixed time axis. This project models the code behind those five things and proves
what it promises.

**Rolling cache.** `SegmentCache.dfy` has the recorder's operations as functions on values: pushing, opening and
closing segments, buffered writing, the start of the live window, the trim that spares pinned files and can be
stopped half way by a file that cannot be deleted, snapshots and range reads. `CacheWindow.dfy`, `ClosedWindow.dfy`
and `CacheHistory.dfy` prove that the list, the counters and the files always agree with one simple object, the
sequence of all samples ever pushed. `Recorder.dfy` is the recorder as an object whose methods (loops included) are
proved to compute those functions. `ExportWorker.dfy`, `ExportRuns.dfy` and `WorkerLoop.dfy` add the worker thread,
pinned exports and their threads as interleaved steps, `ExportProgress.dfy` that exports get to their end and leave
nothing behind. `CacheExact.dfy` says exactly where the window starts, which segments a push makes and a trim removes,
and when a read succeeds. `Recovery.dfy` and `RecoveryLoop.dfy` rebuild the list after a crash, and `CacheRestart.dfy`
follows a restart on the recorder's own files.

**Upload.** `UploadServer.dfy` has the server's sessions and its one cache, `UploadEpochs.dfy` the epoch layer and the
client, `UploadManager.dfy` the server's and client's objects. `UploadSystem.dfy` puts any number of clients, the
network and the server into one state machine. An envelope that a client sealed can be delivered never, late, often
or out of order, also after the client gave up its epoch; only sealed envelopes open (the construction of section 2.8
of RFC 8439 is taken as perfect, with keys per section 2 of RFC 5869). `UploadLedger.dfy`, `UploadSteps.dfy`,
`UploadDelivery.dfy` and `UploadClosing.dfy` prove the invariant of that machine and the guarantees of every run.
`UploadCalls.dfy` shows that whole calls of the client's loop are runs of that machine, and `ServerCache.dfy` joins the
upload with the rolling cache the server keeps its samples in. These results say that nothing wrong happens; that the
right thing does happen is said by `UploadAnswers.dfy` (when the server accepts and what it answers), `UploadReplies.dfy`
(what the client makes of replies) and `UploadProgress.dfy` (what is delivered and answered in time gets through, and
in the end everything recorded is at the server).

**Scheduler.** `SchedulerState.dfy` has its operations, `SchedulerRuns.dfy` a world with a state in memory, a state on
disk, failing writes, crashes and restarts, `SchedulerSafety.dfy`, `SchedulerEffects.dfy` and
`SchedulerLists.dfy` the proofs, and `Scheduler.dfy` the scheduler as an object. `SchedulerFiring.dfy` tells a tick from
the clock alone; `SchedulerEdits.dfy`, `SchedulerReports.dfy` and `SchedulerStartup.dfy` say exactly when edits, reports,
restarts and startup events take effect and all they change.

**Codec and mixer.** `Codec.dfy` and `CodecEnvelope.dfy` hold the binary encoding, the envelope header and the reader,
`CodecWire.dfy` the places of all fields on the wire;
`Mixer.dfy` the frame clock, the source queues and the integer mix.

`Wrappers.dfy` has the optional value, the result and the 16-bit sample; `Decimal.dfy` decimal numbers as text and the
names of segment files; `Arithmetic.dfy` multiples and remainders.

Where the code and its promises part ways: recovery keeps the timeline identity when no sample count and no start had
to be corrected. Fixed sample ranges can still change their meaning in two ways. If the first segment of the manifest is
gone and an unlisted file with samples takes first place, sample 0 is another sample
(`Recovery.KeptTimelineCanChange`). If the last listed segments are gone or were never written out, the recording
restarts before its recorded end, and the next push reuses the lost positions (`Recovery.KeptTimelineCanLoseTail`).
`Recovery.KeptPositionsExactly` says of any positions when they keep their samples through everything pushed later:
exactly when the recovery reached the last of them and none lies in an unlisted first segment.
`Recovery.KeptTimelineMeaning` says so of all positions the manifest knows.

`dafny verify dfyconfig.toml` checks the whole project.

## Model

| member | source | states |
|---|---|---|
| SegmentCache.SweepAccounts | crates/echoclip_core/src/lib.rs:862-889 | the bytes a trim subtracts are exactly those of the segments it removes, so the counter never underflows |
| CacheWindow.OpenSegmentIsLive | crates/echoclip_core/src/lib.rs:922-930 | the segment of the open writer always ends behind the start of the live window, so no trim can remove it |
| CacheWindow.TrimKeepsWindow | crates/echoclip_core/src/lib.rs:852-931 | for any pin set and any point of failure a trim leaves the window start unchanged, the window fully covered and the byte count exact |
| CacheWindow.TurnKeepsWindow | crates/echoclip_core/src/lib.rs:659-682 | a turn of the push loop keeps the window fully covered and never moves its start back |
| CacheWindow.TrimClears | crates/echoclip_core/src/lib.rs:852-894 | after a trim that no file stopped, every expired segment still listed is pinned |
| ClosedWindow.ClosedStartIsRetained | crates/echoclip_core/src/lib.rs:896-931 | with segments aligned to the capacity, the binary-searched window start is 0 below the limit and ((total-max)/cap+1)*cap from then on |
| ClosedWindow.TurnKeepsClosed | crates/echoclip_core/src/lib.rs:659-682 | pushing keeps the alignment the closed form needs, whatever the callback sizes |
| ClosedWindow.TrimKeepsClosed | crates/echoclip_core/src/lib.rs:852-894 | trimming keeps it too, whatever is pinned or locked |
| CacheHistory.PushKeeps | crates/echoclip_core/src/lib.rs:659-682 | a push appends exactly its samples to the history the cache denotes |
| CacheHistory.TrimKeeps | crates/echoclip_core/src/lib.rs:852-894 | a trim leaves the denoted history and the window alone |
| CacheHistory.FlushFreezes | crates/echoclip_core/src/lib.rs:705-714 | after the flush of a snapshot every listed file holds its slice of the history |
| CacheHistory.ReadIsExact | crates/echoclip_core/src/lib.rs:1005-1060 | a range read inside the window of a snapshot returns exactly that slice of the history, as long as the files it needs are intact, so the short-read error cannot occur |
| CacheHistory.Step | crates/echoclip_core/src/lib.rs:651-689 | one recorder operation keeps the invariant, appends to the history what was pushed, and does not move the window back |
| CacheHistory.RunRefinesHistory | crates/echoclip_core/src/lib.rs:651-931 | over every run of pushes, flushes and pinned or failing trims, the cache denotes the concatenation of everything pushed and the window start only grows |
| CacheHistory.WindowReadsHistory | crates/echoclip_core/src/lib.rs:1005-1060 | after any run, every range inside the window reads as exactly that slice of everything pushed |
| CacheHistory.FreshRunWindow | crates/echoclip_core/src/lib.rs:896-931 | for a fresh recorder with limit at least the capacity, after any run the window start is the closed form and the available audio stays in the stated bounds |
| CacheHistory.TrimResumes | crates/echoclip_core/src/lib.rs:870-879 | a trim stopped by a locked file followed by a clean one ends in the same state as one clean trim |
| CacheExact.WindowStartsExactly | crates/echoclip_core/src/lib.rs:896-931 | in a full cache the window starts where the segment that the limit cuts into ends, at the cut itself if that segment is still open, and with the next segment if the cut falls into a gap |
| CacheExact.HasExpiredExactly | crates/echoclip_core/src/lib.rs:896-913 | something has expired exactly if some listed segment ends by the window's start |
| CacheExact.PushFills | crates/echoclip_core/src/lib.rs:659-682 | every segment a push completes holds exactly the capacity, only the last may be open, all lie end to end behind what was there, and older ones are untouched |
| CacheExact.BuffersExactly | crates/echoclip_core/src/lib.rs:799-813 | what a write sends to the file and what it leaves in the writer's buffer |
| CacheExact.TrimsExactly | crates/echoclip_core/src/lib.rs:852-894 | a trim removes, in order, exactly the segments that end by the window's start and are not pinned, with their files, up to the first whose file cannot be deleted; it fails exactly if there is one |
| CacheExact.ReadsExactly | crates/echoclip_core/src/lib.rs:1005-1060 | a read is refused exactly if it is empty or not in the window, succeeds exactly if every file it touches is there and reaches far enough, and otherwise names the fault of the first that does not |
| CacheRestart.RunKeepsIndexed | crates/echoclip_core/src/lib.rs:763-797 | over every run the list stays in the order of the indexes in its file names |
| CacheRestart.RestartsExactly | crates/echoclip_core/src/lib.rs:503-605 | a flushed recorder recovered from its own manifest and files has the same segments again, and keeps the identity exactly if its list tiled the recording from sample 0 |
| SegmentNames.NameRoundTrip | crates/echoclip_core/src/lib.rs:2591-2596 | the index parsed from a segment file's name is the index it was made from |
| SegmentNames.NamesAreDistinct | crates/echoclip_core/src/lib.rs:775-781 | different indexes give different file names |
| SegmentNames.ParsesExactly | crates/echoclip_core/src/lib.rs:2591-2596 | a file is taken for a segment exactly if its name denotes an index of 64 bits, and then for that one |
| SegmentNames.NamesArePadded | crates/echoclip_core/src/lib.rs:775-781 | an index is written with at least six digits, and with more only if it needs them |
| Recorder.SegmentedRecorder.PartitionPoint | crates/echoclip_core/src/lib.rs:914-914 | the binary search returns the number of leading segments that start by the cutoff |
| Recorder.SegmentedRecorder.RetainedStartSample | crates/echoclip_core/src/lib.rs:896-931 | the query over the list computes the window start |
| Recorder.SegmentedRecorder.EnsureCurrentSegment | crates/echoclip_core/src/lib.rs:763-797 | the next segment gets the first name still free on disk |
| Recorder.SegmentedRecorder.WriteSamplesToCurrent | crates/echoclip_core/src/lib.rs:799-813 | samples go through the writer's buffer; the segment, the total and the byte count grow alike |
| Recorder.SegmentedRecorder.CloseCurrentSegment | crates/echoclip_core/src/lib.rs:815-825 | closing flushes and completes the open segment |
| Recorder.SegmentedRecorder.Flush | crates/echoclip_core/src/lib.rs:684-689 | flushing moves the buffer to the file and keeps the denoted history |
| Recorder.SegmentedRecorder.PushTurn | crates/echoclip_core/src/lib.rs:668-676 | each turn of the push loop writes at least one sample |
| Recorder.SegmentedRecorder.PushSamplesDeferTrim | crates/echoclip_core/src/lib.rs:655-682 | the push loop ends and the history grows by exactly the pushed samples |
| Recorder.SegmentedRecorder.TrimExpiredSegmentsExcept | crates/echoclip_core/src/lib.rs:852-894 | the in-place walk computes the trim, keeps the history, the byte count and the window start |
| Recorder.SegmentedRecorder.PushSamples | crates/echoclip_core/src/lib.rs:651-653 | the history grows by the pushed samples and the trim is the one of the pushed list, as far as a file that cannot be deleted lets it; if none stops it nothing expired is left |
| Recorder.SegmentedRecorder.Snapshot | crates/echoclip_core/src/lib.rs:705-714 | a snapshot freezes the list, and its files hold their slices of the history |
| Recorder.ReadRangeI16 | crates/echoclip_core/src/lib.rs:1005-1060 | the loop over segment files computes the range read with all its errors |
| ExportWorker.UnpinUndoesPin | crates/echoclip_core/src/lib.rs:2154-2177 | unpinning the files of a snapshot undoes pinning them, for every file |
| ExportWorker.CopyKeepsSound | crates/echoclip_core/src/lib.rs:1284-1320 | an export's copying takes from what it owes exactly what it adds to what it wrote, and meets no missing or short file |
| ExportWorker.FreezeIsSound | crates/echoclip_core/src/lib.rs:1895-1960 | the job made for a request owes exactly its frozen range |
| ExportRuns.FreezeRange | crates/echoclip_core/src/lib.rs:1895-1921 | a request for the latest samples freezes as many as asked or as there are; a fixed range is accepted exactly inside the window of the same timeline |
| ExportRuns.Act1 | crates/echoclip_core/src/lib.rs:1874-2005 | each step of the worker or an export thread keeps the invariant of cache, pins and jobs |
| ExportRuns.ExportIsolation | crates/echoclip_core/src/lib.rs:1874-2101 | in every interleaving: a file's pin count is the number of unfinished exports listing it, no such file is removed, a finished export wrote exactly its slice, and once all is done no expired segment is left |
| ExportRuns.ExportWritesFrozenSlice | crates/echoclip_core/src/lib.rs:2021-2101 | what an export writes is the slice of the history its request was frozen with, whatever happens meanwhile |
| ExportRuns.StartIsSound | crates/echoclip_core/src/lib.rs:1859-1874 | a worker that starts with nothing expired and no export satisfies the invariant |
| ExportProgress.CopyGetsOn | crates/echoclip_core/src/lib.rs:1284-1320 | a turn of a thread that has something left writes the next samples of its range, or goes to its next file |
| ExportProgress.ExportCompletes | crates/echoclip_core/src/lib.rs:2021-2101 | in every interleaving a thread that gets as many turns as its plan needs has written exactly its range and can tell so |
| ExportProgress.RequestIsTaken | crates/echoclip_core/src/lib.rs:1895-1960 | an accepted request gets a thread of its own with all its files pinned, a refused one none |
| ExportProgress.ListsExactly | crates/echoclip_core/src/lib.rs:1905-1921 | an export of a fixed range holds on to exactly the segments it touches |
| ExportProgress.EndsExactly | crates/echoclip_core/src/lib.rs:2037-2101 | a thread's end gives its pins back, removes it, and asks the worker for a trim |
| ExportProgress.TrimIsDone | crates/echoclip_core/src/lib.rs:1990-2005 | a trim asked for is done once and fails only at a file that cannot be deleted |
| ExportProgress.WindsDown | crates/echoclip_core/src/lib.rs:1990-2101 | from every reachable state, once the threads have ended and the trims are done with no file in the way, nothing is pinned and nothing expired is left |
| WorkerLoop.RecorderWorker.HandlePush | crates/echoclip_core/src/lib.rs:1874-1893 | a push command appends, then trims around the pinned files |
| WorkerLoop.RecorderWorker.HandleTrim | crates/echoclip_core/src/lib.rs:1990-2005 | a trim command trims around the pinned files |
| WorkerLoop.RecorderWorker.HandleSaveLatest | crates/echoclip_core/src/lib.rs:1895-1960 | a save command freezes its range and pins the files that overlap it |
| WorkerLoop.RecorderWorker.PinSnapshotSegments | crates/echoclip_core/src/lib.rs:2154-2162 | every listed file's count goes up by one |
| WorkerLoop.RecorderWorker.UnpinSnapshotSegments | crates/echoclip_core/src/lib.rs:2164-2177 | every listed file's count goes down by one and empty counts are dropped |
| WorkerLoop.RecorderWorker.ReleaseExport | crates/echoclip_core/src/lib.rs:2037-2067 | an ended export gives its pins back |
| Recovery.RecoveryTiles | crates/echoclip_core/src/lib.rs:528-583 | whatever the manifest says, the recovered list is in index order and tiles the recording from 0 to the sum of the actual file lengths |
| Recovery.RecoveryIsComplete | crates/echoclip_core/src/lib.rs:528-572 | every file with samples that the manifest or its name identifies is listed |
| Recovery.KeptTimelineKeepsSegments | crates/echoclip_core/src/lib.rs:523-583 | with a kept identity every surviving manifested segment has the start and count it had |
| Recovery.IdentityKeptExactly | crates/echoclip_core/src/lib.rs:523-583 | the identity is kept exactly if there was one, the audio format is the same, every listed segment that survived lies where and as long as it did, and an unlisted one can only begin the recording |
| Recovery.KeptPositionsExactly | crates/echoclip_core/src/lib.rs:523-583 | with a kept identity any range of positions keeps the samples it stood for, through any later pushes, if and only if it is empty, or it ends within the recovered recording and starts behind a first segment the manifest did not list |
| Recovery.KeptTimelineMeaning | crates/echoclip_core/src/lib.rs:523-583 | with a kept identity all positions up to the manifest's recorded end keep their samples, through any later pushes, if and only if there are none, or the first segment found is listed and the recovered recording reaches that end |
| Recovery.KeptTimelineCanChange | crates/echoclip_core/src/lib.rs:571-583 | a manifest and a directory for which the identity is kept although the first sample changed |
| Recovery.KeptTimelineCanLoseTail | crates/echoclip_core/src/lib.rs:528-583 | a manifest and a directory for which the identity is kept although the recorded tail is gone and its positions will be reused |
| Recovery.KeptRangeReads | crates/echoclip_core/src/lib.rs:1909-1921 | after a recovery that kept the identity and any run after it, a fixed range that is still in the window and was not affected reads exactly the samples it stood for |
| Recovery.RecoveryIsSound | crates/echoclip_core/src/lib.rs:503-605 | the recovered state satisfies the invariant of live recorders for the recovered samples if and only if the manifest lists no surviving file twice |
| RecoveryLoop.RetainManifested | crates/echoclip_core/src/lib.rs:528-562 | the pass over the manifest keeps exactly the surviving entries and notes whether a count was wrong |
| RecoveryLoop.AddUntracked | crates/echoclip_core/src/lib.rs:2500-2541 | the pass over the directory adds exactly the unlisted segment files with samples |
| RecoveryLoop.LayEndToEnd | crates/echoclip_core/src/lib.rs:571-580 | the last pass rebases the starts and notes whether one moved |
| RecoveryLoop.RecoverLatest | crates/echoclip_core/src/lib.rs:503-605 | the whole recovery: the recovered list, trimmed, as a valid recorder with nothing expired |
| UploadServer.KeyTextIsInjective | crates/echoclip_server/src/main.rs:3153-3155 | as long as stream ids hold no NUL, two streams never share a key text, whatever bytes the device ids hold |
| UploadServer.KeyTextCanCollide | crates/echoclip_server/src/main.rs:3153-3155 | with a NUL in a stream id two streams can share a key text |
| UploadAnswers.PushAnswers | crates/echoclip_server/src/main.rs:952-1028 | the cache grows exactly when whole frames of the active session come at the position behind all it has and the write does not fail first, and then by them; they are accepted up to their end exactly if no write fails; a chunk that only starts elsewhere is told where to go on |
| UploadAnswers.ResumeAnswers | crates/echoclip_server/src/main.rs:826-868 | a stream with a session is resumed exactly if it is described as before and not incomplete, at the sample behind all it has; nothing changes |
| UploadAnswers.OpenAnswers | crates/echoclip_server/src/main.rs:869-950 | a stream without a session gets one exactly if it is within the limits and fits the cache; it is the active one and begins where the cache ends, and the one before ends there as incomplete |
| UploadAnswers.CloseAnswers | crates/echoclip_server/src/main.rs:1030-1084 | a session is closed exactly by the position the cache's end has in its own counting; any other position changes nothing and is told the right one |
| UploadAnswers.MarkAnswers | crates/echoclip_server/src/main.rs:1119-1167 | marking a known session ends it as incomplete and leaves all else alone |
| UploadAnswers.EarlyAnswers | crates/echoclip_server/src/main.rs:1086-1117 | an early message about a session is told the position behind all the session has |
| UploadAnswers.RefusedExactly | crates/echoclip_server/src/main.rs:2253-2277 | an envelope is refused with 401 exactly if its epoch is unknown, idle for too long, or was not taken up before its challenge ran out |
| UploadAnswers.AnsweredByPlace | crates/echoclip_server/src/main.rs:2278-2352 | in a living epoch a repeated envelope gets its stored answer, an older one 409, an early one the sequence gap with its position, and the next one is handled |
| UploadAnswers.EpochLivesOn | crates/echoclip_server/src/main.rs:2268-2277 | an epoch that answered handles its next envelope within the idle time, however long ago its challenge ran out |
| UploadAnswers.IssueKeepsTheLiving | crates/echoclip_server/src/main.rs:2176-2206 | a challenge keeps exactly the epochs that still live, untouched, and adds one; it fails exactly if too many live or the id is in use |
| UploadLedger.HandleKeeps | crates/echoclip_server/src/main.rs:770-1167 | every message keeps the server in agreement with the ledger of who opened and who wrote what |
| UploadLedger.OpenKeeps | crates/echoclip_server/src/main.rs:896-941 | opening closes the previous session at the cache's end and starts a run of its own |
| UploadLedger.AppendKeeps | crates/echoclip_server/src/main.rs:987-1012 | an accepted chunk extends the last run and no other |
| UploadLedger.CloseAtEnd | crates/echoclip_server/src/main.rs:1042-1074 | a close that claims no more than the session appended only ever takes effect at the session's own end, also when it comes late |
| UploadClient.LogicalIdsAreDistinct | crates/echoclip_sync_client/src/lib.rs:738-744 | each retention gap starts a stream of its own |
| UploadClient.ChunkIsWholeFrames | crates/echoclip_sync_client/src/lib.rs:536-546 | a chunk is whole frames, within the maximum and the recording, and no shorter than they force it to be |
| UploadSteps.TickKeeps | crates/echoclip_sync_client/src/lib.rs:493-561 | a tick sends only a chunk of the recorded stream that continues the session, or a retention gap |
| UploadSteps.AnswerKeeps | crates/echoclip_sync_client/src/lib.rs:558-578 | the client's reaction to an answer keeps its position within what the server holds |
| UploadSteps.ConnectKeeps | crates/echoclip_sync_client/src/lib.rs:594-626 | opening or resuming in a new epoch keeps the invariant |
| UploadSteps.NoInvalidAck | crates/echoclip_sync_client/src/lib.rs:565-571 | an accepted chunk is acknowledged at exactly its end |
| UploadDelivery.DeliverAgain | crates/echoclip_server/src/main.rs:2278-2293 | delivering anything but the next envelope changes no session, no sample and no record |
| UploadDelivery.DeliverKeeps | crates/echoclip_server/src/main.rs:2244-2352 | delivering any sealed envelope at any time keeps the invariant |
| UploadDelivery.StepKeeps | crates/echoclip_sync_client/src/lib.rs:374-592 | every step of clients, network and server keeps the invariant |
| UploadDelivery.KeysNeverCollide | crates/echoclip_server/src/main.rs:826-834 | in every run the key text of a stream to be opened is that of no other stream the server knows, so the text key finds what the pair of ids would |
| UploadDelivery.ExactlyOnce | crates/echoclip_server/src/main.rs:952-1028 | over every run, the cache slice of each session not given up is the client's stream from the session's source on, without hole, repetition or swap |
| UploadDelivery.EveryRunIsRecorded | crates/echoclip_server/src/main.rs:952-1028 | the same for what any session appended, also those given up or marked incomplete |
| UploadClosing.HandleWhole | crates/echoclip_server/src/main.rs:1030-1084 | only a fair closing message makes a session whole, and no later message changes a whole session's run |
| UploadClosing.ClosedIsComplete | crates/echoclip_server/src/main.rs:1042-1074 | over every run, a session closed and not incomplete was closed by its client at exactly the sample its run ends with, and holds the client's stream up to it |
| UploadDelivery.SingleWriter | crates/echoclip_server/src/main.rs:896-978 | at most one session is open and it is the active one; the runs tile the cache in opening order; every sample was written by its run's session |
| UploadDelivery.EpochLayer | crates/echoclip_server/src/main.rs:2270-2352 | an epoch handled exactly sequences 0 to expected-1 in order, nothing is ever ahead of it, and all answers for a sequence are the one stored for it |
| UploadDelivery.NoSequenceGap | crates/echoclip_server/src/main.rs:2300-2329 | the sequence-gap branch is never reached with honest clients |
| UploadDelivery.AcksAreSound | crates/echoclip_sync_client/src/lib.rs:492-591 | the client's remote position lies between the session's source and what the server holds, and within its own recording |
| UploadDelivery.ChunksAreRecorded | crates/echoclip_sync_client/src/lib.rs:536-561 | every chunk in the network is a slice of the recorded stream at or behind the activation boundary |
| UploadDelivery.ChunksAreAligned | crates/echoclip_server/src/main.rs:979-985 | no chunk in the network is ever rejected for its alignment to the cache's frames |
| UploadDelivery.InvalidAckIsUnreachable | crates/echoclip_sync_client/src/lib.rs:565-571 | in no run is the invalid-acknowledgement error reached |
| UploadManager.StreamManager.OpenOrResume | crates/echoclip_server/src/main.rs:804-950 | the method computes the open-or-resume operation with all its rejections |
| UploadManager.StreamManager.PushPcm | crates/echoclip_server/src/main.rs:952-1028 | the method computes the push operation with all its rejections |
| UploadManager.StreamManager.CloseStream | crates/echoclip_server/src/main.rs:1030-1084 | the method computes the close operation |
| UploadManager.StreamManager.MarkIncomplete | crates/echoclip_server/src/main.rs:1119-1167 | the method computes the mark-incomplete operation |
| UploadManager.StreamManager.Handle | crates/echoclip_server/src/main.rs:770-802 | dispatching a message keeps the manager valid and its ledger in step |
| UploadManager.StreamManager.NextSample | crates/echoclip_server/src/main.rs:1086-1117 | the position reported to an early message |
| UploadManager.UploadEndpoint.IssueChallenge | crates/echoclip_server/src/main.rs:2174-2206 | dead epochs go, and a new one is opened unless too many are pending |
| UploadManager.UploadEndpoint.ProcessEnvelope | crates/echoclip_server/src/main.rs:2244-2352 | the method computes the epoch layer in front of the manager |
| UploadLoop.ReceivedWasAnswered | crates/echoclip_sync_client/src/lib.rs:644-682 | whatever the client accepts was sealed for its place in its epoch, or is a conflict of that epoch |
| UploadLoop.GapEndsSession | crates/echoclip_sync_client/src/lib.rs:495-525 | a retention gap ends the session and starts the next logical stream, whatever the server answers |
| UploadLoop.Uploader.SendMessage | crates/echoclip_sync_client/src/lib.rs:628-687 | at most two attempts with one envelope; the sequence moves on exactly when it was answered in order |
| UploadLoop.Uploader.EstablishSession | crates/echoclip_sync_client/src/lib.rs:594-626 | the method computes opening or resuming |
| UploadLoop.Uploader.SendChunk | crates/echoclip_sync_client/src/lib.rs:526-578 | the method computes sending a chunk and taking over the acknowledged position |
| UploadLoop.Uploader.SyncAvailable | crates/echoclip_sync_client/src/lib.rs:458-592 | one upload tick with its retention gap and its reconnection |
| UploadLoop.Uploader.StopUpload | crates/echoclip_sync_client/src/lib.rs:421-456 | stopping names the last acknowledged position |
| UploadRefinement.ExchangeIsAStep | crates/echoclip_sync_client/src/lib.rs:628-687 | what the client's loop does with its replies is a step of the distributed system |
| UploadRefinement.ChunkIsATick | crates/echoclip_sync_client/src/lib.rs:536-561 | sending a chunk is a step of it, and the loop comes out as that step and its exchange |
| UploadReplies.ChunkAnswered | crates/echoclip_sync_client/src/lib.rs:548-578 | the client takes over the acknowledged position exactly if the first decisive of its two replies is an accepted answer with a position in the chunk or a gap that says where to go on; otherwise the session is lost and nothing else changes |
| UploadReplies.OpeningAnswered | crates/echoclip_sync_client/src/lib.rs:594-626 | an opening connects exactly if the first decisive reply is an accepted answer that names a session, which is taken over with its position |
| UploadReplies.TickDecides | crates/echoclip_sync_client/src/lib.rs:489-548 | a tick gives the session up exactly if its position is not retained, before the activation or not recorded; otherwise it sends the most whole frames exactly if there is one to send |
| UploadReplies.AnswerMovesOn | crates/echoclip_sync_client/src/lib.rs:565-571 | in every run an accepted answer leaves the client at the chunk's end and ready for more |
| UploadProgress.DeliveredChunk | crates/echoclip_server/src/main.rs:2330-2352 | in every reachable state a delivered next chunk extends the active session's run by exactly itself if it continues the session, and changes no sample or run otherwise |
| UploadProgress.EpochAnswersOn | crates/echoclip_server/src/main.rs:2268-2277 | so lives on every epoch of every run |
| UploadProgress.ChunkGoesThrough | crates/echoclip_sync_client/src/lib.rs:526-578 | a chunk that is sent, delivered to its living epoch and answered is appended to the cache as it is, and the client stands behind it |
| UploadProgress.UploadCatchesUp | crates/echoclip_sync_client/src/lib.rs:458-592 | with exchanges no further apart than the idle time, whatever the ttl, the server gets everything recorded but for less than a frame |
| UploadProgress.ConnectGoesThrough | crates/echoclip_sync_client/src/lib.rs:594-626 | a client with a challenge in time opens its stream, or goes on where the server stands |
| UploadProgress.EverythingArrives | crates/echoclip_sync_client/src/lib.rs:374-592 | from every reachable state a client that the server will have gets all it recorded to the server, where the session's samples are exactly that part of its recording |
| UploadProgress.CloseGoesThrough | crates/echoclip_sync_client/src/lib.rs:421-456 | a client that stops behind all the server has closes its session, complete |
| UploadProgress.GapGoesThrough | crates/echoclip_sync_client/src/lib.rs:495-525 | a client whose position was lost ends its session as incomplete and goes on to its next logical stream |
| UploadCalls.CallIsARun | crates/echoclip_sync_client/src/lib.rs:458-592 | a whole call of the upload tick (connecting, retention gap, new logical stream, chunk), with any replies and anything else happening meanwhile, is a run of the distributed system that ends with the client the loop's method computes |
| UploadCalls.LoopsUploadExactlyOnce | crates/echoclip_sync_client/src/lib.rs:374-592 | however clients loop, the cache slice of each session not given up is its client's own stream from the session's source on |
| ServerCache.PushedIsTheCache | crates/echoclip_server/src/main.rs:1001-1007 | over every run the server's recorder is given exactly the samples of the cache, in order |
| ServerCache.ServerReadsWhatClientsRecorded | crates/echoclip_core/src/lib.rs:1005-1060 | after any run of the upload, any range of a session inside the server's window is read from its segment files as exactly the slice its client recorded |
| SchedulerState.Pigeonhole | crates/echoclip_core/src/scheduler.rs:691-702 | there are no more taken numbers than names, so the unbounded search for a name ends |
| SchedulerState.FirstFree | crates/echoclip_core/src/scheduler.rs:691-702 | the search stops at the first candidate that is free or too long, within one more attempt than there are names |
| SchedulerState.AutomaticNameIsSmallest | crates/echoclip_core/src/scheduler.rs:681-702 | an automatic name has the smallest number nothing else has; only an over-long name is an error |
| SchedulerSafety.TickKeeps | crates/echoclip_core/src/scheduler.rs:868-948 | nothing a tick hands out was handed out before, and nothing of it stays armed |
| SchedulerSafety.UpsertKeeps | crates/echoclip_core/src/scheduler.rs:722-788 | an edit arms only a new id or a later revision |
| SchedulerSafety.OpenKeeps | crates/echoclip_core/src/scheduler.rs:359-396 | restarting from any written file re-arms nothing |
| SchedulerSafety.ActivateKeeps | crates/echoclip_core/src/scheduler.rs:585-632 | a startup activation keeps the invariant |
| SchedulerSafety.AtMostOnce | crates/echoclip_core/src/scheduler.rs:868-948 | over every run of operations, failing writes, crashes and restarts, each arming is handed out at most once, and none that was handed out can fire again from memory or disk |
| SchedulerSafety.ArmedMeansEnabled | crates/echoclip_core/src/scheduler.rs:722-858 | in every reachable state enabled, armed and having the trigger's time as next time coincide, and a fired task is none of them |
| SchedulerEffects.SplitIsExact | crates/echoclip_core/src/scheduler.rs:891-908 | firing puts each action index, in order and once, with the actions to run or with the missed ones; it is missed exactly if more than five minutes have passed since its time and it starts a recording, saves one or switches the upload on |
| SchedulerEffects.NextWakeupIs | crates/echoclip_core/src/scheduler.rs:860-867 | the next wake-up is the earliest time of an armed task, and none exists exactly when none is armed |
| SchedulerEffects.TickFiresExactly | crates/echoclip_core/src/scheduler.rs:868-948 | a tick fires exactly the armed tasks that are due, leaves the others alone, and the next wake-up is then later than now |
| SchedulerEffects.TickHandsOut | crates/echoclip_core/src/scheduler.rs:933-943 | every due task with something to run is handed out with exactly those actions |
| SchedulerFiring.TickByClock | crates/echoclip_core/src/scheduler.rs:868-948 | told from the clock: each enabled and due task is handed out with exactly the actions that do not come too late, unless all do, the others are recorded as missed at the end of the history, and nothing else changes |
| SchedulerFiring.TicksOfAnyRun | crates/echoclip_core/src/scheduler.rs:868-948 | so does a tick in every reachable state |
| SchedulerFiring.NewestStay | crates/echoclip_core/src/scheduler.rs:1006-1012 | of more than 200 records exactly the newest 200 stay |
| SchedulerEdits.EditsExactly | crates/echoclip_core/src/scheduler.rs:722-788 | an edit is accepted exactly if its name, actions and trigger are sensible and it names a task in the expected revision or there is room for a new one; it replaces exactly that task or adds one |
| SchedulerEdits.SwitchesExactly | crates/echoclip_core/src/scheduler.rs:797-858 | arming and disarming are accepted exactly in the expected revision and, to arm, for a time still to come; exactly that task changes |
| SchedulerEdits.DeletesExactly | crates/echoclip_core/src/scheduler.rs:789-796 | deleting takes exactly the task with the id out of the list |
| SchedulerEdits.NameGiven | crates/echoclip_core/src/scheduler.rs:681-702 | a given name is taken without the white space around it; an automatic one is that of no task, preset or startup template |
| SchedulerEdits.TriggerIs | crates/echoclip_core/src/scheduler.rs:1117-1166 | a trigger can be set exactly within its limits, and a countdown's time is now plus its delay |
| SchedulerReports.ReportsExactly | crates/echoclip_core/src/scheduler.rs:949-986 | a report counts exactly if its execution's record is still running; it finishes the record, and the task it was the last execution of stands as the results say |
| SchedulerReports.OpensExactly | crates/echoclip_core/src/scheduler.rs:359-396 | opening interrupts exactly the running records and fails exactly their tasks, in the state with old settings taken over |
| SchedulerReports.MigratesOnce | crates/echoclip_core/src/scheduler.rs:496-524 | old settings are taken over once, and only the pending tasks of startup templates go |
| SchedulerStartup.StartsInAnyRun | crates/echoclip_core/src/scheduler.rs:585-632 | in every reachable state a startup event is carried out exactly if startup is enabled and the token is new, and succeeds exactly if every enabled template can be placed and there is room |
| SchedulerStartup.StartupTasksExactly | crates/echoclip_core/src/scheduler.rs:526-582 | a startup template is stored exactly if it is a countdown within the limits, has a name and actions, and names a stored one or finds room |
| SchedulerStartup.PresetsExactly | crates/echoclip_core/src/scheduler.rs:634-665 | a preset is stored exactly if there are fewer than nine and it is within the limits |
| SchedulerEffects.StaleReportIsHarmless | crates/echoclip_core/src/scheduler.rs:966-979 | a report never touches a task its execution is not the last of |
| SchedulerEffects.FirstReportWins | crates/echoclip_core/src/scheduler.rs:949-986 | a second report of an execution changes nothing |
| SchedulerEffects.PlacedIs | crates/echoclip_core/src/scheduler.rs:600-624 | placing a template arms its own instance and leaves every other task as it was |
| SchedulerEffects.ActivationArms | crates/echoclip_core/src/scheduler.rs:585-632 | a successful activation gives every enabled template one armed instance due after at least a millisecond, adds tasks only for templates without one, and leaves every other task as it was |
| SchedulerEffects.StartupAfterAnyRun | crates/echoclip_core/src/scheduler.rs:585-632 | the same after any run of operations, failing writes, crashes and restarts, with no assumption on the templates but that new ids are new |
| SchedulerEffects.TokenWorksOnce | crates/echoclip_core/src/scheduler.rs:589-592 | repeating the last token changes nothing, also after reopening the file |
| SchedulerEffects.FailedActivationRestores | crates/echoclip_core/src/scheduler.rs:593-632 | an activation that fails leaves the state as it was |
| SchedulerLists.NormalizedActions | crates/echoclip_core/src/scheduler.rs:1057-1116 | actions are accepted exactly within the stated limits, and then the same actions come back in order |
| SchedulerLists.CompletedRecord | crates/echoclip_core/src/scheduler.rs:958-966 | a completed record holds the missed and the reported results, each once, by action |
| SchedulerLists.SummaryByCounts | crates/echoclip_core/src/scheduler.rs:1167-1186 | the summary follows from the number of successes and from whether all were missed |
| SchedulerLists.NewArmingsAreLater | crates/echoclip_core/src/scheduler.rs:1117-1166 | whatever arms a task sets a time that is still to come |
| SchedulerLists.ListsStayBounded | crates/echoclip_core/src/scheduler.rs:706-1012 | in every reachable state, in memory and on disk, tasks, history, presets and templates stay within their limits |
| SchedulerObject.AutomaticNumber | crates/echoclip_core/src/scheduler.rs:691-702 | the search loop ends and finds the first free or over-long candidate |
| SchedulerObject.SplitActions | crates/echoclip_core/src/scheduler.rs:891-908 | the loop over a task's actions computes both parts, as the clock says |
| SchedulerObject.Scheduler.Open | crates/echoclip_core/src/scheduler.rs:359-396 | opening migrates the startup settings, interrupts what was running and writes back what changed; if that fails there is no scheduler |
| SchedulerObject.Scheduler.UpsertUnpersisted | crates/echoclip_core/src/scheduler.rs:722-788 | the method computes the edit with all its errors |
| SchedulerObject.Scheduler.Upsert | crates/echoclip_core/src/scheduler.rs:706-720 | an edit that cannot be written is undone in memory |
| SchedulerObject.Scheduler.SetEnabled | crates/echoclip_core/src/scheduler.rs:797-858 | arming and disarming, which stay in memory when they cannot be written |
| SchedulerObject.Scheduler.Delete | crates/echoclip_core/src/scheduler.rs:789-796 | deleting removes what has that id and writes |
| SchedulerObject.Scheduler.NextWakeup | crates/echoclip_core/src/scheduler.rs:860-867 | the loop computes the earliest time |
| SchedulerObject.Scheduler.Tick | crates/echoclip_core/src/scheduler.rs:868-948 | due tasks are disarmed and written before any action is handed out, and what is handed out follows from the clock |
| SchedulerObject.Scheduler.CompleteExecution | crates/echoclip_core/src/scheduler.rs:949-986 | the method computes the completion and returns the execution's record as it then stands |
| SchedulerObject.Scheduler.ReconcileInterrupted | crates/echoclip_core/src/scheduler.rs:987-1005 | the loop interrupts every running record and fails its task |
| SchedulerObject.Scheduler.ActivateStartupTasks | crates/echoclip_core/src/scheduler.rs:585-632 | all templates or none: any error puts the state back |
| Bytes.NumberRoundTrip | crates/echoclip_sync_protocol/src/lib.rs:645-665 | a number that fits its width is read back from its bytes |
| Bytes.BytesRoundTrip | crates/echoclip_sync_protocol/src/lib.rs:645-665 | bytes are the encoding of the number they denote |
| Codec.PcmRoundTrip | crates/echoclip_sync_protocol/src/lib.rs:484-496 | samples are read back from their bytes |
| Codec.MessageRoundTrip | crates/echoclip_sync_protocol/src/lib.rs:461-578 | every encodable message in the fixed sample format decodes to itself |
| Codec.DecodingIsCanonical | crates/echoclip_sync_protocol/src/lib.rs:513-578 | every accepted byte string is the encoding of the message it decodes to |
| Codec.ResponseRoundTrip | crates/echoclip_sync_protocol/src/lib.rs:580-601 | every encodable response decodes to itself |
| Codec.ResponseIsCanonical | crates/echoclip_sync_protocol/src/lib.rs:590-601 | every accepted response byte string is the encoding of the response it decodes to |
| CodecWire.MessagesAreLaid | crates/echoclip_sync_protocol/src/lib.rs:461-511 | the place of every field of a message on the wire, numbers most significant byte first, samples least significant byte first |
| CodecWire.ResponsesAreLaid | crates/echoclip_sync_protocol/src/lib.rs:580-588 | the same for responses |
| CodecWire.HeadersAreLaid | crates/echoclip_sync_protocol/src/lib.rs:410-417 | the same for envelope headers |
| CodecWire.NoncesAreLaid | crates/echoclip_sync_protocol/src/lib.rs:454-459 | the same for nonces |
| CodecWire.LimitsAre | crates/echoclip_sync_protocol/src/lib.rs:461-511 | which messages are within the limits |
| Envelopes.EnvelopeRoundTrip | crates/echoclip_sync_protocol/src/lib.rs:340-432 | parsing what sealing laid out gives back the header, the authenticated bytes and the ciphertext |
| Envelopes.EnvelopeIsCanonical | crates/echoclip_sync_protocol/src/lib.rs:340-391 | every accepted envelope is the one sealing its own parts would build |
| Envelopes.NoncesAreUnique | crates/echoclip_sync_protocol/src/lib.rs:454-459 | no nonce serves two messages of an epoch, in either direction |
| CodecReader.BinaryReader.Take | crates/echoclip_sync_protocol/src/lib.rs:632-643 | reading advances the offset within the input or fails as truncated |
| CodecReader.BinaryReader.Text | crates/echoclip_sync_protocol/src/lib.rs:667-675 | a string is read with its length limit and its encoding checked |
| CodecReader.DecodeSamples | crates/echoclip_sync_protocol/src/lib.rs:545-553 | the loop over byte pairs computes the samples |
| CodecReader.DecodeClientMessage | crates/echoclip_sync_protocol/src/lib.rs:513-578 | reading the fields one after another computes the decoding |
| CodecReader.EncodeClientMessage | crates/echoclip_sync_protocol/src/lib.rs:461-511 | appending the fields gives the encoding, and fails exactly beyond the limits |
| Mixer.NoDrift | crates/echoclip_windows_ffi/src/lib.rs:237-243 | frames produced are the whole frames of the elapsed ticks, however they are batched |
| Mixer.ClockFits | crates/echoclip_windows_ffi/src/lib.rs:237-243 | the clock's 64-bit arithmetic cannot overflow |
| Mixer.FrameClock.FramesFor | crates/echoclip_windows_ffi/src/lib.rs:223-243 | after each batch the total is exact |
| Mixer.EnqueueKeeps | crates/echoclip_windows_ffi/src/lib.rs:102-109 | after an enqueue the queue is within its bound and only oldest samples were dropped |
| Mixer.TakeKeeps | crates/echoclip_windows_ffi/src/lib.rs:111-130 | a chunk has the asked length: the next samples in order, then silence |
| Mixer.QueueConserves | crates/echoclip_windows_ffi/src/lib.rs:102-130 | over every run each sample was handed on, dropped for overflow, dropped for drift or is still queued, and what was handed on is an in-order subsequence |
| Mixer.UnityGainNeverClips | crates/echoclip_windows_ffi/src/lib.rs:200-215 | at unity gain the mix never needs clamping, and a single source passes unchanged |
| Mixer.DualClipsExactly | crates/echoclip_windows_ffi/src/lib.rs:200-215 | with other gains two sources clip exactly when their weighted sum leaves the range |
| Mixer.MixScales | crates/echoclip_windows_ffi/src/lib.rs:200-215 | each source that is on counts with its own gain; the output is the sum divided by 100, or by 200 for two sources, rounded toward zero, or the bound it passes |
| Mixer.EnqueueExactly | crates/echoclip_windows_ffi/src/lib.rs:102-109 | an enqueue drops the oldest samples, exactly as many as the bound has no room for |
| Mixer.TakeExactly | crates/echoclip_windows_ffi/src/lib.rs:111-130 | a chunk is the next samples, then silence; one sample is skipped exactly if more than the high water mark are queued |
| Mixer.SourceQueue.Add | crates/echoclip_windows_ffi/src/lib.rs:102-109 | the method computes the enqueue and keeps the record of every sample |
| Mixer.SourceQueue.TakeForTimeline | crates/echoclip_windows_ffi/src/lib.rs:111-130 | the popping loop computes the chunk, the shortfall and the drift correction |
| Mixer.AudioTimeline.MixWithGains | crates/echoclip_windows_ffi/src/lib.rs:179-220 | the mix has the asked length, each output sample is the scaled sum of what is on with its own gain, and a source that is off stays untouched and silent |

## Left out

- Write failures in the middle of a push, which can leave an empty open segment or part of the samples; a push at the server that fails before anything is appended, deletion failures of a trim and write failures of the scheduler are in.
- Changing the replay limit while exports are pinned: the server does the former and the worker the latter, never both.
- Writing the recorder's manifest, when it is due and what it looks like as JSON; recovery takes a manifest's contents as given.
- RecoveryLoop.RecoverLatest: a manifest that lists a surviving file twice is outside its precondition, because what it recovers is then no sound recorder (Recovery.RecoveryIsSound) and the recorder never writes one; Recovery.RecoveryTiles holds for such manifests too.
- Reconstructing a missing or unreadable manifest from the files, removing stale sessions, and a trailing odd byte of a segment file.
- Encoding of exports (WAV headers, FFmpeg); an export is the samples it reads. The size at which the buffered writer of the standard library spills is a constant of the model.
- 64-bit wrap-around of sample positions, revisions and sequences: they are unbounded here. Where it matters for text, names of segment files are parsed with the 64-bit limit.
- Server restarts and the migration of old streams: a recovered cache counts from 0 again while stored session positions do not.
- Fairness of the network: UploadProgress says what happens if envelopes and answers arrive in time, not that they do. A reconnecting client can be refused because its source start moved or another session took over; then it is not welcome in the sense of UploadProgress.Welcome.
- The stored end of sessions marked incomplete, which a later message can overwrite; EveryRunIsRecorded speaks of the end the session really had.
- UploadSystem.Apply: the client's threads, timers and status reports; a tick, an answer and a failure are separate steps, and UploadCalls connects the loop's method to them. A tick whose read of the recording fails, and a stop in the middle of one, are not in the loop's method.
- Keys, sealing, base64, challenge signatures, HTTP and sockets: an envelope is the message at its place in an epoch, and equal envelopes are equal bytes. Epoch, session and activation ids are taken as fresh, and key rotation is not modelled.
- Whether bytes are UTF-8 (section 4 of RFC 3629) is a parameter of the decoder; the scheduler trims ASCII white space only.
- Bitrates of scheduled exports, local times and time zones of time points beyond the checks made on them, and what a migration reads out of old startup templates.
- SchedulerState.SaveStartupTask and the other settings edits are functions on values only; Scheduler.dfy has the operations that arm, fire and report tasks.
- Terminal states of export jobs and records of running tasks that history pruning drops: the code does not keep either.
- Resampling, level meters and gain in decibels, which work in floating point, and the locks around the two source queues.
