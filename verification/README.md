# Verified model of the Yomins agent

The agent ships logs, events and metrics from a host to an ingest server. It is
built from small state machines that must not lose, repeat or misattribute
anything over crashes, retries and restarts. This project models the hardest of
them in Dafny and proves what they keep on every input and in every run.

`dafny verify dfyconfig.toml` verifies all modules.

| modules | part of the agent |
|---|---|
| `LogLines`, `LogTail`, `LogSource` | cutting growing files into messages, round by round |
| `LogOneShot` | when reading in rounds is splitting in one go |
| `LogShip`, `LogPositions` | batching, retrying, acknowledging; positions on disk |
| `LogDelivery`, `LogSafety` | the whole log delivery protocol as a step system, and what its runs keep |
| `LogProgress`, `LogDrain` | where positions are after any run, how far behind the reader they can be, and that all under way can be delivered and saved |
| `LogRestart` | what a restart leaves to be read, and the limit on followed files |
| `LogOnce`, `LogRuns` | when a line is sent only once, and runs that show where the promises end |
| `SemVer`, `Upgrade` | self-upgrade with rollback through marker files |
| `Events`, `EventFlush` | the ring buffer and the flush of security events |
| `BruteForce`, `ProcessWatch`, `RollingWindow` | detectors over sliding windows |
| `Glob`, `Redact`, `Cards`, `FastCgi` | a compiler, a filter and a framing |
| `RemoteConfig`, `Registry` | control loops |

Code that updates state in place is a class whose methods are proved equal to a
function on values. Concurrent parts are step systems: a state, the enabled
steps and their effect. The main results are about every run of such a system.

## Where the code and its documentation differ

The model follows the code. Each of these comes with an input on which the
documented promise fails and with the exact condition under which it holds:

- "A restart loses nothing that is still on disk" (`internal/logs/entry.go:5-6`).
  Wherever the run of a restarted agent has come to, opening a path that it has
  not opened yet reads a byte that is neither settled nor was passed over if and
  only if the path leads to the byte's file, had a saved position when the agent
  started or is opened only after the first two seconds, and the limit on
  followed files leaves room (`ReadAgainIff`). There is always room if and only
  if at most 500 paths are watched (`RoomIff`). So the promise fails for a file
  that was rotated away (`RotatedFileIsLost`), whose bytes then stay lost
  (`OrphansStayLost`); for a file still at its path while no position of it is
  saved, as in the first five seconds of the agent (`UnsavedFileIsLost`), since it
  is taken for a new one and followed from its end; and for any of more than 500
  watched paths while others are followed (`LimitBlocks`). Bytes are passed over
  by exactly the openings that `PassesOverIff` names, and by none while a
  position is saved and not forgotten since (`RunSkips`).
- "How long an unterminated last line waits for its newline"
  (`internal/logs/tail.go:27`). The timer belongs to the rounds in a row that
  end inside some line, not to the line, so a line can be cut in the round that
  first sees it (`BusyFileIsCut`). Reading in rounds is splitting in one go if and
  only if no round ends inside a line that is too long, of a file that is gone,
  or more than five seconds after the first of the rounds in a row that ended
  inside a line (`OneShotIff`, `RefinesOneShot`).
- "The oldest are dropped once the buffer is full" fails for a flush that fails
  while producers push: the unsent events come back behind the newer ones, and
  newer ones are dropped first (`NewerIsDropped`). It holds if and only if
  everything fits (`DropsOldestIffAllFit`).
- The globs mean what is documented on all paths if and only if they are ASCII
  and have no `**` (`AgreesEverywhereIff`), and on newline-free paths if and only
  if they are ASCII (`AgreesIffAscii`): they are compiled byte by byte, and `**`
  does not span a newline (`NewlineIsNotSpanned`). Without either condition an
  ASCII glob accepts nothing that it does not mean (`CompilePreservesMeaning`).
- "Set exactly the same things" (`internal/remote/fetch.go:135`): two
  configurations that compare equal do the same if and only if their lists of
  disabled collectors are equal, one possibly left out and the other empty, or
  there is nothing to clear (`SameEffectIff`). The save loses the empty list in
  the same way (`SavingKeepsEffectIff`, and `EmptyListIsLost` for the input).
- A position whose write failed is not written by the next save, unless
  something changed in between (`SaveAfterFailure`).
- A FastCGI record reads back if and only if it is at most 65535 bytes long
  (`RecordReadsIffShort`), and a name or value length if and only if it is below
  2^31 (`LengthReadsIffShort`); the first ones beyond read back as empty and as 0
  (`LongRecordIsLost`, `LongLengthIsLost`).
- "Bare card numbers" are masked (`internal/logs/redact.go:38-40`). A valid number
  between word boundaries is masked as such if and only if no longer match
  begins where it begins and no match found before reaches into it (`MaskedIff`),
  so always when it stands alone (`AloneIsMasked`). In a line of a digit other
  than 0, a space and a valid number of at most 18 digits, such as
  `1 4111111111111111`, it goes out unmasked (`NeighbourHidesCard`).

Nothing is promised about sending a line twice. It can happen without a crash
(`RenamedFileIsSentTwice`); it cannot as long as no reopening of a file goes back
before what was cut from it (`SentOnce`, `OpenedOnceSentOnce`).

## Assumptions

- Log files are append-only for the no-loss results, inodes are positive and not reused;
  encoding an entry does not fail; no post settles a batch after cancellation.
- One run of `apply-upgrade.sh` is one step; a staged binary is the verified
  release of its tag; nobody else writes to the upgrade directory.
- The state file loads as it was last saved. Clocks, replies of the server,
  listings, file contents and outcomes of writes are inputs.
- Log parsers, reading durations and path checks are parameters; averages are over exact
  reals; `Allowed` gets a cleaned path.
- While the server's configuration stays fixed, a version names one configuration.

## Model

| member | source | states |
|---|---|---|
| LogLines.SplitJoins | internal/logs/tail.go:285-294 | the complete lines, each with its newline, and the rest make up the data |
| LogLines.SplitClean | internal/logs/tail.go:285-294 | none of the complete lines holds a newline |
| LogLines.SplitUnique | internal/logs/tail.go:285-294 | splitting is the only way to cut data into newline-free lines and a newline-free rest |
| LogLines.SplitAppend | internal/logs/tail.go:278-294 | splitting a first part and then its rest with what follows equals splitting the whole |
| LogLines.BlankIff | internal/logs/tail.go:331 | a line counts as blank if and only if it is the UTF-8 encoding of white-space characters only |
| LogLines.BlankAscii | internal/logs/tail.go:331 | for ASCII: if and only if every byte is a space or one of 9 to 13 |
| LogLines.MessageIs | internal/logs/tail.go:330-337 | the message of a line is the line up to its last byte that is not a carriage return, whole up to 65536 bytes and otherwise its first 65536 and the mark; there is none if and only if that is white space only |
| LogLines.MessagesAt | internal/logs/tail.go:328-337 | each line contributes its own message, in order |
| LogTail.BeginHolds | internal/logs/tail.go:267-283 | a round starts with the unfinished line and the next chunk, at most one buffer, and the descriptor is at offset plus held bytes |
| LogTail.TruncatedIsReadAgain | internal/logs/tail.go:268-274 | a file that is shorter than what was read of it is read from its start, and the held bytes are dropped |
| LogTail.CutLineHolds | internal/logs/tail.go:285-294 | cutting a line moves the offset past it, keeps the descriptor invariant and accounts for the bytes: one truthful entry, or a blank line |
| LogTail.EndReadHolds | internal/logs/tail.go:295-324 | the end of a round keeps or emits the unfinished line and closes the file exactly when it is gone, the read was short and nothing is held |
| LogTail.CutLinesTexts | internal/logs/tail.go:285-294 | the line loop sends the messages of exactly the complete lines and leaves the rest |
| LogTail.RoundCovers | internal/logs/tail.go:267-326 | the entries of a round, with blank pieces, tile the bytes from the old to the new offset in order without gap or overlap |
| LogTail.FollowCovers | internal/logs/tail.go:267-359 | the same for any number of rounds over a growing file |
| LogOneShot.RoundKeepsOrFlushes | internal/logs/tail.go:267-314 | a round sends the messages of the complete lines; it also sends the unfinished line exactly when that is too long, the file is gone or the timer ran out, which stops the timer unless the line was too long, and otherwise keeps it and starts the timer only if none runs |
| LogOneShot.TimerOverdue | internal/logs/tail.go:306-313 | the timer stands at the first of the rounds in a row that ended inside a line |
| LogOneShot.OneShotIff | internal/logs/tail.go:267-336 | however growth is divided over rounds: after every round the messages are those of splitting what was read in one go, and the held bytes are its rest, if and only if no round ends inside a line that is too long, of a gone file, or overdue by contents and times alone |
| LogOneShot.RefinesOneShot | internal/logs/tail.go:267-336 | with lines below the limit and a file that is not gone: if and only if no round ends inside a line more than five seconds after the first of the rounds in a row that did |
| LogOneShot.BusyFileIsCut | internal/logs/tail.go:27-28 | three rounds in five seconds, the last of which sends the beginning of a line it is the first to see |
| LogTail.DrainIsComplete | internal/logs/tail.go:295-324 | a gone file whose writer stopped is dropped after exactly floor(remaining / chunk) + 1 rounds with every remaining byte emitted |
| LogSource.FileSource.constructor | internal/logs/tail.go:81-91 | nothing is followed at first and discovery is due |
| LogSource.FileSource.Open | internal/logs/tail.go:230-263 | a file is opened at its delivered position, its start or its end, and that is recorded as its position |
| LogSource.FileSource.OpenFound | internal/logs/tail.go:162-193 | followed files stay as they were; new ones were found and opened by the position they had before the pass; all are opened while below the limit, which is kept |
| LogSource.FileSource.Discover | internal/logs/tail.go:159-201 | as OpenFound, and exactly the followed files that were not found are marked gone |
| LogSource.FileSource.Scan | internal/logs/tail.go:139-155 | discovery happens exactly when its interval has passed; then every file whose path is empty or holds another inode is gone, and gone files stay gone |
| LogSource.FileSource.Read | internal/logs/tail.go:267-326 | the method is one value-level round; it fails exactly when the channel takes fewer entries, having sent a prefix; a closed file is dropped, discovery made due, and its position forgotten if its path is empty |
| LogSource.ReadFile | internal/logs/tail.go:267-314 | the truncation test, the chunk, the line loop and the switch compute the round, or its sent prefix when the channel is closed to it |
| LogSource.ReadRest | internal/logs/tail.go:295-316 | the switch over the unfinished line and the closing test are the end of the round, which sends at most one entry |
| LogSource.CutAll | internal/logs/tail.go:285-294 | the line loop computes the recursive cutting, or stops with the prefix that was sent |
| LogSource.RoundIsSteps | internal/logs/tail.go:267-326 | the begin, cut and end steps of the step system, taken one after the other, leave files, positions and channel as one call of read does |
| LogSource.ScanIsStep | internal/logs/tail.go:144-154 | a scan step marks the file that scan marks |
| LogSource.UnmatchIsStep | internal/logs/tail.go:196-200 | a step that finds a path no longer matched marks the file that discovery marks |
| LogSource.DeletedIsDrained | internal/logs/tail.go:316-324 | a followed file that is deleted with less than a chunk left: after the next scan one round sends everything left in it, drops it and forgets its position |
| LogPositions.Positions.constructor | internal/logs/positions.go:29-48 | a missing or broken state file starts empty; without a state directory nothing is read |
| LogPositions.Positions.File | internal/logs/positions.go:51-56 | the recorded position, if there is one |
| LogPositions.Positions.SetFile | internal/logs/positions.go:59-66 | the position is recorded, marked unsaved if that changed anything |
| LogPositions.Positions.Forget | internal/logs/positions.go:69-76 | the position is gone, marked unsaved if there was one |
| LogPositions.Positions.SetJournalCursor | internal/logs/positions.go:86-93 | the cursor is recorded, marked unsaved if it changed |
| LogPositions.Positions.Save | internal/logs/positions.go:96-113 | after a successful write a restart would load exactly the positions in memory; a failed write leaves the disk as it was and is not remembered as due |
| LogPositions.SaveAfterFailure | internal/logs/positions.go:96-113 | after a failed write the next save writes nothing unless something changed in between, and then it writes everything |
| LogShip.StepFaithful | internal/logs/ship.go:60-105 | every step of the shipper keeps: batches concatenate to what was received, in order and within the limits, and exactly settled batches are acknowledged, in order |
| LogShip.RunFaithful | internal/logs/ship.go:60-178 | the same in every state of every run |
| LogShip.CountsAddUp | internal/logs/ship.go:139-170 | every batched line ended accepted, refused or abandoned |
| LogShip.Conservation | internal/logs/ship.go:60-178 | received = shipped + refused + abandoned + pending in every state of every run |
| LogShip.Deliver | internal/logs/ship.go:139-170 | accepted if and only if the first reply that ends a batch took it, refused if and only if that reply refused it, given up if and only if none ends it (cancellation); pauses are as the server asked, ten seconds after a rejection, otherwise twice the one before up to a minute |
| LogShip.VerdictIs | internal/logs/ship.go:146-155 | the verdict as a function of the replies, by the first that ends the batch |
| LogShip.PostsIff | internal/logs/ship.go:89-103 | a received line makes the batch be posted if and only if it would exceed the bytes, and then without it, or fills the lines; the timer does if and only if there is one |
| LogShip.BackoffDoubles | internal/logs/ship.go:161-168 | after network errors only, the k-th pause is 2^k seconds, at most a minute |
| LogShip.WaitBounded | internal/logs/ship.go:156-168 | a pause is at least a second and at most a minute unless the server asked for a longer one |
| LogShip.Shipper.constructor | internal/logs/ship.go:46-57 | non-positive limits become 1000 lines and 1 MiB |
| LogShip.Shipper.Flush | internal/logs/ship.go:68-74 | a non-empty batch is closed with the verdict of its delivery and acknowledged unless abandoned; then the batch is empty |
| LogShip.Shipper.Receive | internal/logs/ship.go:79-100 | a line that would exceed the bytes flushes first, a batch with enough lines is flushed after, and nothing received is lost or reordered |
| LogShip.Shipper.TimerFired | internal/logs/ship.go:101-103 | what is batched is flushed |
| LogSafety.StepKeeps | internal/logs/tail.go:139-359 | every step of writers, tailer, shipper, saver and process keeps the protocol invariant: positions cover only bytes that are settled or were passed over, the queue is first in first out, entries are true to the files |
| LogSafety.RunKeeps | internal/logs/pipeline.go:29-59 | the invariant holds in every state of every run, over crashes and restarts |
| LogSafety.PositionsCoverOnlySettledBytes | internal/logs/positions.go:59-113 | in every run, each byte below a position in memory or on disk was accepted, refused for good, blank, there when the file was first opened, or passed over by an opening that took a known file for new; and what was posted is what the files held |
| LogSafety.PassesOverIff | internal/logs/tail.go:247-256 | a step passes bytes over if and only if it opens, in the first two seconds, a path without a position whose file had been opened before |
| LogRestart.RestartResumes | internal/logs/tail.go:247-261 | in every continuation of a restart, a path with a saved position that is opened for the first time is read from that position, or from 0 if another file is there; nothing is passed over, and everything before was settled or passed over |
| LogRestart.NewWhileYoung | internal/logs/tail.go:247-256 | in every run an opening takes a file for new, and follows it from its end, if and only if its path has no position and at most two seconds passed since the agent started |
| LogRestart.RunUntried | internal/logs/tail.go:230-263 | until a restarted agent opens a path, its position is the one that was loaded, whatever else happens |
| LogRestart.ReadAgainIff | internal/logs/tail.go:181-256 | in every continuation of a restart, a byte on disk neither settled nor passed over is read again by opening a path not opened since if and only if such a path leads to its file, had a saved position or is opened only after two seconds, and the limit leaves room |
| LogRestart.RoomIff | internal/logs/tail.go:181-184 | a watched path that is there can be opened between any two rounds of every run if and only if at most 500 paths are watched |
| LogRestart.LimitBlocks | internal/logs/tail.go:181-184 | with more, every one of them has a run in which it waits with a saved position and an unread line while 500 others are followed |
| LogSafety.EveryByteIsAccounted | internal/logs/ship.go:60-178 | in every run, every byte of a followed file is settled, was passed over, is on its way, or not read yet; when it is read to the end and nothing is on its way, all are settled or were passed over |
| LogProgress.AckPuts | internal/logs/tail.go:350-352 | an acknowledgement moves the position of its path to the end of its entry, and no other position |
| LogProgress.StepPuts | internal/logs/positions.go:59-76 | every step leaves the position of a path alone unless it opens it, acknowledges an entry of it, forgets it, starts or ends the process, and then puts it where that says |
| LogProgress.LastTouchDecides | internal/logs/tail.go:247-352 | in every run the position of a path is where the last opening, acknowledgement, forgetting or start put it |
| LogProgress.SaveWrites | internal/logs/positions.go:96-113 | in every run a save puts the positions on disk as they were when it marshalled them, and a failed one changes nothing there |
| LogProgress.HistoryIsPosts | internal/logs/ship.go:146-155 | in every run what was accepted and what was refused are the batches posted to that end, in order |
| LogProgress.NothingSettlesAfterStop | internal/logs/ship.go:165-167 | in every run no batch is accepted or refused from the stop to the end of the process |
| LogProgress.StepSettles | internal/logs/ship.go:139-178 | every step keeps: between where the last entry under way will put a position and where its file was cut to there is nothing to send |
| LogProgress.CaughtUp | internal/logs/ship.go:172-178 | in every run, with nothing under way, only blank lines and passed-over bytes lie between the position of a followed path and where its file was cut to |
| LogDrain.Drains | internal/logs/ship.go:60-178 | from every such state the shipper alone can accept everything under way, once and in order, which leaves every position at the end of the last entry of its path |
| LogDrain.CanSave | internal/logs/positions.go:96-113 | the saver can always finish and put the positions in memory on disk |
| LogDrain.EverythingCanBeDelivered | internal/logs/pipeline.go:29-59 | wherever a run stands with an agent that is not told to stop, shipper and saver can go on until all that was cut is accepted and saved, with nothing to send between a saved position and what was cut |
| LogSafety.SuccessorFromStart | internal/logs/tail.go:316-324 | when a drained file is dropped while another is at its path, the successor has a position to be opened by, and opening it skips nothing: at 0 unless that position is the successor's own |
| LogSafety.RunSkips | internal/logs/tail.go:247-261 | once a position of a path is saved, no later step over any crashes passes over a byte of the file that stays there |
| LogSafety.DeliveredAcrossCrashes | internal/logs/tail.go:247-261 | from then on, whenever the file is read to its end and nothing is on its way, each byte was accepted, refused or blank, except those skipped or passed over before |
| LogSafety.OrphansStayLost | internal/logs/tail.go:159-201 | once no watched path holds an inode and the agent holds nothing of it, no continuation settles another of its bytes |
| LogRuns.RotatedFileIsLost | internal/logs/entry.go:3-6 | a run in which a line on disk under its rotated name is lost by a crash |
| LogRuns.UnsavedFileIsLost | internal/logs/tail.go:253-255 | a run in which a line of a file that never left its path is lost by a crash before its position was saved |
| LogRuns.RenamedFileIsSentTwice | internal/logs/tail.go:316-324 | a run without a crash in which a line is on its way twice: its file was renamed away and back |
| LogOnce.StepOnce | internal/logs/tail.go:230-359 | every step that does not reopen the file before what was cut from it keeps its entries apart and in order, and what was cut before where it is followed |
| LogOnce.SentOnce | internal/logs/tail.go:230-359 | in every run over crashes: as long as no reopening of a file goes back before what was cut from it and settled or is on its way, no byte of it is in two entries |
| LogOnce.SeenIffOpened | internal/logs/tail.go:230-263 | the known inodes of a run are exactly those it opened |
| LogOnce.OpenedOnceSentOnce | internal/logs/tail.go:230-359 | a file that is opened only once is sent only once |
| SemVer.ParseVersion | internal/upgrade/semver.go:12-30 | the loop computes the parsed triple, or nothing for every text that is refused |
| SemVer.ParseExact | internal/upgrade/semver.go:12-30 | a version parses to a triple exactly when it spells it, with or without a leading v: three dotted unsigned decimal numbers that fit an int |
| SemVer.AtoiIs | internal/upgrade/semver.go:23-26 | a component reads as n if and only if it is the decimal numeral of n, possibly after zeros, and n fits an int |
| SemVer.VersionRoundTrip | internal/upgrade/semver.go:12-30 | a triple written in decimal, with or without a v, parses to itself |
| SemVer.IsNewer | internal/upgrade/semver.go:33-51 | an error names the first version that does not parse; otherwise true exactly when the candidate is larger at the first component that differs |
| SemVer.AfterTransitive | internal/upgrade/semver.go:42-50 | the order is transitive |
| SemVer.AfterTotal | internal/upgrade/semver.go:42-50 | different triples are ordered one way or the other |
| Upgrade.Host.constructor | systemd/apply-upgrade.sh:95-98 | a fresh installation has no markers |
| Upgrade.Host.ApplyUpgrade | systemd/apply-upgrade.sh:95-157 | the script's copies, renames and removals amount to its three paths; it fails if and only if a staged binary is pending, none is on trial and the unit changed |
| Upgrade.StartsUnless | systemd/apply-upgrade.sh:15-16 | for every disk: the service starts unless a staged binary waits, none is on trial and the unit was refreshed |
| Upgrade.ScriptLeaves | systemd/apply-upgrade.sh:100-157 | for every disk: which binary, backup, staged binary and markers a run of the script leaves |
| Upgrade.Host.RunOnce | internal/upgrade/upgrade.go:47-95 | the agent exits exactly when a newer release was staged and marked pending; nothing changes unless one is staged; a failed marker leaves what the failed write and removal leave; the files are those of the staging steps |
| Upgrade.Host.Commit | internal/upgrade/upgrade.go:121-129 | the committed marker appears only beside the applied one, as in the commit step |
| Upgrade.RunKeeps | systemd/apply-upgrade.sh:95-157 | over all interleavings of staging, exit, crash, push, commit and start: on trial the backup is the last good binary, otherwise the installed one is; staged binaries are newer |
| Upgrade.LaunchesAreSafe | systemd/apply-upgrade.sh:95-157 | every launched binary is the last good one, or the one just staged with the last good one as its backup |
| Upgrade.TrialLasts | systemd/apply-upgrade.sh:100-115 | nothing but a commit or a start ends a trial or changes the binary or the good ones |
| Upgrade.TrialFailsBack | systemd/apply-upgrade.sh:100-115 | an applied binary that stops before it commits is replaced by the last good one at the next start, and everything staged is discarded |
| Upgrade.KeptIffCommitted | systemd/apply-upgrade.sh:100-120 | with nothing pending, an applied binary survives the next run of the script if and only if its commit was written |
| Upgrade.GoodVersionsRise | internal/upgrade/upgrade.go:65-90 | the versions of successive good binaries strictly increase in every run |
| Upgrade.StagedIsApplied | systemd/apply-upgrade.sh:122-157 | a pending staged binary is installed with the last good one as backup, also after a start that only refreshed the unit |
| Upgrade.UpgradeSucceeds | internal/upgrade/upgrade.go:47-129 | from a fresh installation a run stages any newer release, applies it, commits it and keeps it at the next start |
| Events.PushAllKeepsNewest | internal/events/buffer.go:31-47 | pushing any events onto a bounded queue leaves the newest of all that were in it |
| Events.RequeueDropsNewer | internal/transport/events.go:118-122 | putting unsent events back keeps them all, in order, behind what was pushed meanwhile, whose oldest give way |
| Events.DropsOldestIffAllFit | internal/transport/events.go:91-93 | putting events back loses only the oldest if and only if everything fits |
| Events.RingBuffer.constructor | internal/events/buffer.go:19-27 | an empty buffer of the given capacity, which must be positive |
| Events.RingBuffer.Push | internal/events/buffer.go:31-47 | the ring refines the bounded queue: the event is last, the oldest is dropped exactly when full, and counted |
| Events.RingBuffer.Drain | internal/events/buffer.go:50-66 | all events in order, and an empty buffer |
| Events.RingBuffer.Len | internal/events/buffer.go:69-73 | the number of events held |
| Events.RingOverwrite | internal/events/buffer.go:35-41 | overwriting the oldest slot and advancing the head drops the first element and appends the new one |
| EventFlush.SendSorts | internal/transport/events.go:103-124 | every drained event is accepted, refused or unsent, exactly once |
| EventFlush.UnsentIsSuffix | internal/transport/events.go:118-122 | what is unsent is a suffix of what was drained |
| EventFlush.SendBatches | internal/transport/events.go:103-124 | the batch loop sorts the events by the verdicts of their batches up to the first failure |
| EventFlush.SendIs | internal/transport/events.go:103-124 | taken are the batches judged so before the first failure, in order, refused the bad ones, and unsent everything from the failed batch on |
| EventFlush.UnsentFrom | internal/transport/events.go:118-122 | a failure of the j-th batch leaves exactly the events from its beginning unsent |
| EventFlush.SentIff | internal/transport/events.go:103-124 | nothing is unsent if and only if no batch fails |
| EventFlush.Flush | internal/transport/events.go:94-126 | paused, nothing changes; otherwise, with no concurrent push, it succeeds if and only if no posted batch fails, and the buffer ends with exactly the unsent suffix in order and no drop |
| EventFlush.FlushIsSteps | internal/transport/events.go:94-126 | the drain, post and re-queue steps of the step system, taken one after the other, do what the flush does |
| EventFlush.StepConserves | internal/transport/events.go:94-126 | every step of producers and flush keeps: produced = accepted + refused + dropped + buffered + in flight as multisets, and the counter equals the drops |
| EventFlush.RunConserves | internal/events/buffer.go:31-66 | the same in every state of every run |
| EventFlush.NewerIsDropped | internal/transport/events.go:118-122 | a run in which a newer event is dropped for an older one that comes back |
| BruteForce.Prune | internal/events/auth/collector.go:473-480 | in-place compaction keeps exactly the attempts after the cutoff, in order |
| BruteForce.Detector.CheckBruteforce | internal/events/auth/collector.go:457-509 | records the attempt, drops those outside the window, alerts and suppresses as the value-level rule says; nothing without an address |
| BruteForce.Detector.GcBruteforceTracker | internal/events/auth/collector.go:512-532 | every key is pruned, and removed exactly when empty and no longer suppressed |
| BruteForce.RunIsFaithful | internal/events/auth/collector.go:457-532 | the tracker answers every attempt as a rule over the full history does: threshold reached within the window and no alert of the key within the suppression |
| BruteForce.CollectionIsInvisible | internal/events/auth/collector.go:512-532 | any two interleavings of garbage collection with the same attempts give the same alerts, those of the history rule |
| BruteForce.AlertsAreApart | internal/events/auth/collector.go:486-487 | two alerts of a key are more than the suppression period apart |
| ProcessWatch.Collector.BuildBaseline | internal/events/process/collector.go:154-166 | the listed processes are tracked and none of them counts as new |
| ProcessWatch.Collector.DropExited | internal/events/process/collector.go:190-199 | exactly the processes still listed with the same start remain; the stop events are those of the new ones that left |
| ProcessWatch.Collector.AddNew | internal/events/process/collector.go:201-208 | exactly the unknown listed processes are added as new, each with its start event |
| ProcessWatch.Collector.Poll | internal/events/process/collector.go:170-243 | with distinct pids the tracked (pid, start) pairs are the listed ones, survivors unchanged, and the events replay from the old set of new processes to the new one, also over pid reuse |
| ProcessWatch.ReplayBalances | internal/events/process/collector.go:190-208 | starts minus stops of a process are one while it is tracked as new and zero otherwise; in total they are the number of such processes |
| ProcessWatch.EventsAlternate | internal/events/process/collector.go:190-208 | in every prefix of the log of a watch, the starts and stops of a process alternate beginning with a start |
| ProcessWatch.Watch | internal/events/process/collector.go:154-243 | over a baseline and any number of polls, failed ones included, the whole log replays from nothing to the tracked new processes |
| RollingWindow.UnrollPush | internal/events/process/snapshot.go:58-70 | writing a slot and advancing keeps the circular array the last five readings |
| RollingWindow.UnrollSum | internal/events/process/snapshot.go:72-92 | summing the filled slots sums the window, wherever it wraps |
| RollingWindow.Average | internal/events/process/snapshot.go:72-81 | the loop computes the mean of the filled slots, 0 when there are none |
| RollingWindow.Snapshot.PushMetrics | internal/events/process/snapshot.go:58-63 | both results are the means of the last at most five readings ever pushed |
| RollingWindow.Snapshot.ReadyForAnomaly | internal/events/process/snapshot.go:96-98 | true exactly after three readings |
| RollingWindow.SpikeNeeds | internal/events/process/collector.go:227-239 | with multiplier 3 and k readings an alert fires exactly when the cooldown is over, the reading is over the floor and (k - 3) times it exceeds 3 times the sum of the others |
| RollingWindow.SpikeBounds | internal/events/process/collector.go:227-239 | so never at three readings, at four above nine times and at five above six times the mean of the others |
| Glob.WriteRegexp | internal/logs/allow.go:50-65 | the loop with its index writes the compiled text |
| Glob.Cache.GlobRegexp | internal/logs/allow.go:44-69 | the cache always agrees with fresh compilation |
| Glob.CompileReadsBack | internal/logs/allow.go:50-66 | the text, read as a regexp, is the pieces of the glob's tokens: every character is quoted as needed |
| Glob.PiecesMean | internal/logs/allow.go:52-64 | those pieces accept only what the tokens mean, and all of it where no `**` meets a newline |
| Glob.CompilePreservesMeaning | internal/logs/allow.go:32-69 | a compiled glob accepts only paths that its bytes, as characters, mean, and all of them without a `**` or on newline-free paths |
| Glob.AgreesIffAscii | internal/logs/allow.go:32-33 | the compiled glob agrees with the documented meaning on all newline-free paths if and only if the glob is ASCII |
| Glob.AgreesEverywhereIff | internal/logs/allow.go:32-33 | the compiled glob agrees with the documented meaning on all paths if and only if the glob is ASCII and has no `**` |
| Glob.NewlineIsNotSpanned | internal/logs/allow.go:54-56 | the shortest failure: `**` means every path but does not accept a newline |
| Glob.AllowedDepth | internal/logs/allow.go:57-60 | a glob without `**` accepts only paths with as many slashes |
| Glob.OnlyBelow | internal/logs/allow.go:54-56 | a wildcard-free prefix before `**` begins every accepted path |
| Glob.Allowed | internal/logs/allow.go:34-42 | true exactly when some glob of the list accepts the path |
| Redact.HasDigitRun | internal/logs/redact.go:107-124 | true exactly when some stretch holds n digits with at most one space or dash between neighbours |
| Redact.CardIsRun | internal/logs/redact.go:58 | every match of the card pattern, 12 to 18 times a digit and an optional separator and then a digit between word boundaries, holds a run of 13 digits |
| Redact.PrefilterHidesNothing | internal/logs/redact.go:88-90 | where the prefilter says no, the card step changes nothing, whichever matches the regexp engine picks |
| Cards.LongestMatch | internal/logs/redact.go:58 | the match of the greedy pattern at a place is the longest one that the pattern allows there |
| Cards.RedactCards | internal/logs/redact.go:88-102 | with the prefilter the result is that of the card step without it |
| Cards.MaskCardsIs | internal/logs/redact.go:91-102 | the card step replaces exactly the found matches that pass the Luhn check and leaves the rest of the line alone; the test of 13 to 19 digits never fails |
| Cards.MaskedIff | internal/logs/redact.go:88-102 | a number between word boundaries is masked as such if and only if it passes the Luhn check, no longer match begins with it and no match found before reaches into it |
| Cards.AloneIsMasked | internal/logs/redact.go:88-102 | a number to which no digit is joined by a single separator is masked if and only if it passes the Luhn check |
| Cards.GroupedIsMasked | internal/logs/redact.go:58 | sixteen digits in four groups, separated by spaces or by dashes, are masked if and only if they pass the Luhn check |
| Cards.NeighbourHidesCard | internal/logs/redact.go:37-40 | a line of a digit other than 0, a space and any valid number of 13 to 18 digits goes out as it is |
| Cards.CardAfterDigit | internal/logs/redact.go:37-40 | one such line, with a 4 and fifteen ones |
| Redact.LuhnCheck | internal/logs/redact.go:126-140 | the loop from the right decides whether the positional sum is a multiple of ten |
| Redact.SingleChangeRejected | internal/logs/redact.go:126-140 | changing one digit of an accepted number makes it rejected |
| Redact.ExactlyOneCheckDigit | internal/logs/redact.go:126-140 | every prefix is completed by exactly one last digit |
| Redact.SwapNoticed | internal/logs/redact.go:126-140 | swapping two different neighbours goes unnoticed if and only if they are 0 and 9 |
| FastCgi.WireReads | internal/integrations/fastcgi.go:76-86 | any frame that fits, whatever its padding and other header bytes, reads back as its type and content |
| FastCgi.RecordAligned | internal/integrations/fastcgi.go:27-33 | every record is a whole number of eight-byte units |
| FastCgi.RecordReadsIffShort | internal/integrations/fastcgi.go:27-33 | a record reads back as written if and only if its content is at most 65535 bytes |
| FastCgi.LongRecordIsLost | internal/integrations/fastcgi.go:29 | a content of 65536 bytes reads back as an empty one |
| FastCgi.ReadReply | internal/integrations/fastcgi.go:75-101 | the reading loop computes the reply, and an error for every stream that ends early |
| FastCgi.ReplyReads | internal/integrations/fastcgi.go:75-101 | the reply to any sequence of frames is what was said on stdout before the end of the request, or an error when there is no end |
| FastCgi.SplittingIsInvisible | internal/integrations/fastcgi.go:87-99 | the reply does not depend on how stdout is split into records, padded or mixed with others |
| FastCgi.FinishIs | internal/integrations/fastcgi.go:90-99 | the answer is what follows the first blank line, an error if the headers before it say 403 or 404, and everything if there is no blank line |
| FastCgi.LengthReadsIffShort | internal/integrations/fastcgi.go:36-44 | a length reads back if and only if it is below 2^31 |
| FastCgi.LongLengthIsLost | internal/integrations/fastcgi.go:40-42 | a length of 2^31 reads back as 0 |
| FastCgi.PairsRoundTrip | internal/integrations/fastcgi.go:35-47 | a list of pairs decodes to exactly the pairs that were encoded |
| FastCgi.Buffer.WriteRecord | internal/integrations/fastcgi.go:27-33 | the record is appended |
| FastCgi.Buffer.WritePair | internal/integrations/fastcgi.go:35-47 | the pair is appended |
| RemoteConfig.Validate | internal/remote/remote.go:98-123 | accepts exactly when the interval is between ten seconds and ten minutes and every pattern and path is one the agent can act on |
| RemoteConfig.JsonKeepsValid | internal/remote/remote.go:75-95 | what is valid when fetched is valid when loaded, and the other way round |
| RemoteConfig.SameEffectIff | internal/remote/fetch.go:135-140 | configurations that sameEffect takes for the same do the same if and only if the mode is off, their lists of disabled collectors are equal, or there is nothing to clear |
| RemoteConfig.SameEffectIs | internal/remote/fetch.go:135-140 | configurations compare equal if and only if they set the same, up to lists that one leaves out and the other has empty |
| RemoteConfig.SavingKeepsEffectIff | internal/remote/remote.go:84-95 | a saved configuration has the effect of the fetched one if and only if the mode is off, the list of disabled collectors is not an empty one, or there is nothing to clear |
| RemoteConfig.EmptyListIsLost | internal/remote/fetch.go:135-140 | an empty list of disabled collectors compares equal to none and is saved as none, but clears the local list |
| RemoteConfig.LimitedReadsNothingNew | internal/remote/remote.go:125-163 | except in full mode nothing that chooses what is read changes; local lists are extended, never replaced |
| RemoteConfig.AppliesWhatIsSet | internal/remote/remote.go:128-180 | every setting ends as the configuration says where it says something, and as it was otherwise: interval, collectors, log switch and lists, integrations, the six event switches |
| RemoteConfig.Settings.ApplyRemote | internal/remote/remote.go:128-180 | the updates in place amount to one application of the configuration; what the owner configured stays, and without full trust everything that chooses what is read |
| RemoteConfig.Settings.SetLogs | internal/remote/remote.go:140-152 | the assignments and appends of the log section, paths only with full trust |
| RemoteConfig.Settings.SetIntegrations | internal/remote/remote.go:153-163 | the integrations section: a local status URL wins, URLs are appended with full trust only |
| RemoteConfig.Settings.SetEvents | internal/remote/remote.go:164-179 | the six event switches, five of them negated |
| RemoteConfig.RunKeeps | internal/remote/fetch.go:46-140 | in every run what is saved is valid, what runs is what is saved unless a restart is due, and every restart comes at least two minutes after its start |
| RemoteConfig.AtMostOneRestart | internal/remote/fetch.go:46-90 | once the server's answer stays fixed and no restart was decided, at most one more restart happens, crashes between save and restart included, and then the answer is converged to |
| RemoteConfig.ConvergedStays | internal/remote/fetch.go:121-123 | a converged agent stays so and does not restart |
| RemoteConfig.ConvergedRunsIt | cmd/yomins-agent/main.go:91-103 | a converged running agent runs that version with that configuration |
| RemoteConfig.OnePollDecides | internal/remote/fetch.go:61-82 | one successful poll of a valid answer decides a restart or has converged |
| RemoteConfig.AnswerIsRun | internal/remote/fetch.go:61-90 | a valid answer that changes nothing is adopted at once; any other is saved, the agent may restart exactly from two minutes after its start on, and after that restart, or a crash before it, the answer runs |
| RemoteConfig.Fetcher.constructor | cmd/yomins-agent/main.go:91-103 | the agent starts with the stored configuration if it is valid and remote configuration is not off, otherwise with none |
| RemoteConfig.Fetcher.Check | internal/remote/fetch.go:93-133 | an answer is saved and returned exactly when it is new, named, valid and the write succeeded |
| RemoteConfig.Fetcher.Poll | internal/remote/fetch.go:61-82 | one turn of the loop: adopt without a restart when nothing changes, otherwise restart no earlier than the minimal uptime |
| Registry.RunKeeps | internal/collector/collector.go:81-142 | the invariant of calls, busy names and results holds in every interleaving of passes, returns and timeouts |
| Registry.AtMostOneCollect | internal/collector/collector.go:128-142 | at most one Collect per name is running, and the busy set is exactly those names |
| Registry.PassIsComplete | internal/collector/collector.go:86-114 | when a pass ends every collector has a result: what its own call of this pass returned, timed out, or still running; still running if and only if a call of its name had not finished when the pass looked at it, so only launched collectors time out; never a late result of an earlier pass |
| Registry.PassCanEnd | internal/collector/collector.go:86-114 | wherever a run stands, a pass can end without any call in flight returning |
| Registry.ReturnFrees | internal/collector/collector.go:128-142 | a call that returns can finish, which frees its name and changes nothing else, and the next pass calls the collector again |
| Registry.Gather | internal/collector/collector.go:116-125 | points follow registration order; exactly the failed collectors are in the errors, each with the last error of its name |
| Registry.PointsAt | internal/collector/collector.go:116-125 | each collector contributes exactly its own points, in registration order |
| Registry.Busy.Start | internal/collector/collector.go:128-136 | a name is taken exactly when it was free |
| Registry.Busy.Finish | internal/collector/collector.go:138-142 | the name is free again |

## Left out

- In-place truncation and inode reuse in the no-loss results: a saved offset cannot tell them from growth; the reader's own handling of truncation is in `LogTail.BeginRead` and `LogSource.FileSource.Read`.
- LogSource.FileSource.Read: after a send that fails at cancellation it does not say what the followed file holds, because the process then stops reading.
- LogSource.FileSource.Discover: takes the readable files that the specs match and the allow list admits as given; the counters of denied and outside files are not modelled.
- ProcessWatch.Collector.Poll: the readings of survivors are in `RollingWindow`, the other events of a new process are not modelled.
- RollingWindow.Snapshot.PushMetrics: over exact reals, because rounding of float64 and float32 is not the point of the window.
- Glob.Allowed: takes a path already cleaned; `filepath.Clean` belongs to Go's library.
- RemoteConfig.Validate: reading a duration and testing a pattern or an absolute path is for Go's library and therefore a parameter.
- EventFlush.Flush: pushes between the drain and the re-queueing are not in the method but in the step system (`RunConserves`).
- Power loss in the middle of `apply-upgrade.sh`, unit downloads and checksums: a script run is one step and staging is a verified binary or nothing.
- The CPU and memory percentages computed for each process.
- The journal source, Docker mounts, rsyslog copies, rotated-name rules: they only choose what is read.
- Log line parsers, the other redaction rules, auth log patterns, the regexp engine beyond what compiled globs and the card pattern use: tables over Go's regexp and time packages.
- HTTP, TLS, gzip, the session pause and its timing: a post is an outcome.
- Metric collectors, integrations other than FastCGI framing, hardware information, configuration flags, installer: input and output plumbing.
