# lognav: snapshot store, fetch state machines, configuration layers

This project models the parts of lognav that keep query results on disk and decide which results
those are, and proves what they promise.

- **Container file** (`Framing`, `ContainerFormat`, `ContainerWriter`): the byte format, the strict
  and lenient parsers, and the writer that drops itself after a failed write. `SnapshotFrames` and
  `Selection` say what a published snapshot contains.
- **Snapshot directory**: file names (`Names`), claim files (`InUse`), publication run alone
  (`Publish`), one isolated retention or prune pass (`Retention`), and the protocol of any number of
  processes, one file-system call a step (`Protocol`, with its invariant in `ClaimProtection`, its
  theorems in `SafeRuns`, and what its calls bring about in `ProtocolCalls`).
- **Headless query**: the first-response race in every interleaving (`FirstRace`), who wins it and what is
  stored (`RaceElection`), what its members report (`RaceOutcomes`), the signal gate in every
  interleaving (`SignalGate`), and the bounded error ledger (`ErrorLedger`).
- **Picker**: the fetch lifecycle as a state machine over keys, authentication messages, streams,
  flushes, watch ticks, archive dispatches and restored snapshots (`FetchState`), its handlers in
  place (`Picker`), and what every run of it keeps: the flush accounting (`FetchBooks`), what is
  published and lost (`FetchPublications`), that what is published is complete (`FetchCompleteness`),
  finished fetches closed (`FetchOrder`), who starts and wins (`FetchRaces`), where logs and sizes come
  from (`FetchLogs`), what fetches and watch rounds do to the rows (`FetchRounds`), when a fetch or a
  watch is on (`FetchModes`), what each event makes of the rows (`FetchRows`), that cancelling stops
  them (`FetchCancels`), that they stay themselves (`FetchStores`), and a whole fetch from the key to
  the published file (`FetchStreams`).
- **Configuration** (`ConfigMerge`): the in-place merge of layers that share sub-mappings, and append
  mode for instance lists.
- **Event stream** (`Sse`): the reader of a subset of server-sent events, as in sections 9.2.5 and
  9.2.6 of the WHATWG HTML Living Standard.

Files, clocks, the network, signals and the outcomes of system calls are parameters or
nondeterministic choices. `dafny verify dfyconfig.toml` checks everything.

Where the code falls short of a property, or of its own comments, the model follows the code:

- A pass whose scan is older than a re-use of an automatic name removes the new file, claimed or not
  (`SafeRuns.ReuseLosesBacking`); one that cannot read a claim takes its name as free
  (`SafeRuns.UnreadLosesBacking`); a cancelled headless query removes its final path twice
  (`SafeRuns.SecondCleanupLosesBacking`). `SafeRuns.OnlyStaleRemovals` says exactly which steps lose a
  live session's file, and `SafeRuns.BackingsSurvive` when none does.
- A claim sweep trusts a liveness check made earlier (`SafeRuns.PidReuseLosesClaim`);
  `SafeRuns.SweepsSpareLive` says exactly when that is harmless.
- A claim file's name is read with a lenient number parser (`Names.InUsePidNotInjective`);
  `Names.InUsePidCanonical` says exactly which names are read as their writer's. A claimed name with
  white space at an end is not found (`InUse.OwnClaimFound`).
- A fetch that is over can be left with its container open: by deselecting its last running row
  (`FetchLimits.ToggleLeavesOpen`), by a snapshot restored under it (`FetchLimits.RestoreLeavesOpen`),
  by a watch cap crossed during a cooldown (`FetchLimits.CapLeavesOpen`), and by the other events that
  `FetchOrder.Unsettles` lists; `FetchOrder.OrderlyRuns` says that these are all.
- A plain fetch started while a finished collect still waits for a flush is treated as a collect
  (`FetchLimits.EmptyFetchPublished`); `FetchPublications.EmptyFetch` says exactly when.
- A retried row's second flush is refused as a duplicate frame (`FetchLimits.RetryLosesFlush`);
  `FetchPublications.PublishedLosses` says exactly when a snapshot has lost nothing.
- Cancelling everything while a row holds logs that were never written has the state frame refused,
  and the frames of the other rows go with it (`FetchLimits.CancelDiscardsFrames`);
  `FetchPublications.CancelPublishes` says exactly when that is so. Viewing another row has the same
  effect on the row that was loaded before it: its unwritten logs are dropped (`FetchLogs.LoadReplaces`).
- A snapshot restored under a running fetch puts its own counts into that fetch's snapshot, without
  frames (`FetchLimits.RestoreDeclaresLogs`); `FetchCompleteness.FramedThroughout`
  and `FetchComplete` say that nothing else does.
- A layer that turns a setting into a mapping, or the other way round, shadows settings of lower
  layers; `ConfigMerge.UpperWins` says exactly when merging is setting by setting.

## Model

| member | source | states |
|---|---|---|
| Framing.ScanOfCut | internal/snapshot/container.go:203-246 | for any frame encoder and header reader that fit together, a scan of a cut stream sees the frames wholly inside the cut and reports an error exactly when bytes are left over |
| Framing.ScanWholeThenTorn | internal/snapshot/container.go:203-246 | a scan of whole frames followed by part of another sees the whole ones, in both parser modes' terms |
| Framing.FramesWithinIsLargest | internal/snapshot/container.go:203-246 | the frames counted as inside a cut are the longest leading run that fits |
| Framing.RefsAtLookup | internal/snapshot/container.go:228-233 | where each frame's content starts, and how long it is, in the encoded stream |
| ContainerFormat.UintRoundTrip | internal/snapshot/container.go:255-269 | big-endian fields of any width read back as written |
| ContainerFormat.HeaderWritten | internal/snapshot/container.go:77-85 | the very bytes of a file's header: magic and version 1 |
| ContainerFormat.Written | internal/snapshot/container.go:343-357 | the very bytes of a frame: big-endian lengths of two and four bytes, name and content |
| ContainerFormat.HeaderOfWhole | internal/snapshot/container.go:177-198 | the header of a written frame reads back its name and size, whatever follows |
| ContainerFormat.HeaderOfTorn | internal/snapshot/container.go:177-198 | what a frame header cut at any byte reads as: clean end, unexpected end, or the whole header |
| ContainerFormat.HeaderOfTooLarge | internal/snapshot/container.go:177-198 | a frame header that declares more than 2^30 bytes is refused, whatever follows, and no other |
| ContainerFormat.ReadFramePointers | internal/snapshot/container.go:203-246 | the loop over a moving offset and growing index returns what the scan of the bytes is, in both modes and on every error path |
| ContainerFormat.ParseContainer | internal/snapshot/container.go:105-139 | the whole parse: magic, version, index, end offset, and every header error |
| ContainerFormat.Truncation | internal/snapshot/container.go:105-139 | cut anywhere at or after the header, a lenient parse returns exactly the whole frames, and a strict one succeeds exactly at frame boundaries |
| ContainerFormat.WholeInIsLargest | internal/snapshot/container.go:203-246 | those frames are the longest leading run whose file fits in the cut |
| ContainerFormat.HeaderTruncation | internal/snapshot/container.go:105-115 | cut inside the header, both modes fail, with the error the code gives |
| ContainerFormat.HeaderChecks | internal/snapshot/container.go:105-118 | for any bytes and in both modes: each header error if and only if the magic, the length or the version is wrong, by the bytes that are expected |
| ContainerFormat.Damaged | internal/snapshot/container.go:203-246 | of whole frames followed by anything that is not one, a lenient parse lists the frames, and a strict one reports what is wrong with the rest |
| ContainerFormat.TornError | internal/snapshot/container.go:203-246 | so a strict parse of a file that ends inside a frame says whether it ends in the frame's header or in its content |
| ContainerFormat.FrameReadsBack | internal/snapshot/container.go:311-321 | reading a listed frame at its indexed place gives its content |
| ContainerFormat.ReadMisses | internal/snapshot/container.go:311-321 | a frame is reported missing if and only if there is none of its name, and unreadable if the file has been cut short |
| ContainerFormat.WriteParseInversion | internal/snapshot/container.go:105-139 | a strict parse of any written file lists its frames in order, and each reads back unchanged |
| ContainerFormat.CrashRecovery | internal/snapshot/container.go:203-246 | of a file with any part of one more frame at its end, a lenient parse lists every earlier frame with its content, and the extra one exactly when it is all there |
| ContainerWriter.WritableMeans | internal/snapshot/container.go:328-341 | a sequence of frames passes the writer's checks one by one if and only if no name is longer than 65535 bytes, no content longer than 2^30, and no name repeats |
| ContainerWriter.WriteOutcome | internal/snapshot/container.go:350-357 | what one buffered write leaves on disk when the sink accepts any prefix of it |
| ContainerWriter.Booked | internal/snapshot/container.go:359-365 | the index, name order and offset after an append describe the longer file |
| ContainerWriter.Container.constructor | internal/snapshot/container.go:87-100 | a new writer has the header buffered and nothing on disk |
| ContainerWriter.Container.AppendFrame | internal/snapshot/container.go:328-368 | which refusal or outcome each append has, that bookkeeping moves only with the disk, and that a failed write ends writing |
| ContainerWriter.Container.WriteFrame | internal/snapshot/container.go:343-366 | the one write of an accepted frame and the bookkeeping after it |
| ContainerWriter.Container.Recoverable | internal/snapshot/container.go:323-368 | at every moment a lenient parse of the disk recovers every acknowledged frame in order with its content, plus at most the one whose write failed; nothing is acknowledged before the header is down |
| ContainerWriter.Container.IndexAgrees | internal/snapshot/container.go:87-100 | the writer's own index, order and offset are what a strict parse of its file returns |
| SnapshotFrames.FrameNameInjective | internal/snapshot/io.go:18-21 | how frames are named; members have different frames, none of them the state frame |
| SnapshotFrames.EnsureInstanceFrames | internal/snapshot/io.go:62-80 | exactly the declared members without a frame get an empty one, in order, once each; topping up fails if and only if one of these does not fit or the writer is gone |
| SnapshotFrames.MissingCovers | internal/snapshot/io.go:62-80 | after that every declared member has a frame |
| SnapshotFrames.SaveStateFrame | internal/snapshot/io.go:139-155 | the state frame is written, last on disk, if and only if the sizes are consistent, it fits, its name is free and the writer is there |
| SnapshotFrames.FinalizeBacking | internal/ui/components/instancepicker/instancepicker.go:2087-2108 | a container is published if and only if closing worked, every frame it lacked and its state fit, the sizes are consistent and it has its writer; then it is complete and whole on disk |
| SnapshotFrames.CompleteWithState | internal/ui/components/instancepicker/instancepicker.go:2087-2108 | topping up the members and adding the state frame gives one frame a member and the state last |
| SnapshotFrames.WriteQuerySnapshot | internal/cmd/query.go:1026-1082 | the headless writer publishes if and only if its members are distinct, everything fits, no write fails and closing works, and then exactly its members' frames in order and the state; with distinct members it never meets a duplicate |
| SnapshotFrames.FitsMeans | internal/snapshot/io.go:188-200 | what fitting and consistent sizes ask of the members: bytes exactly if there are logs, and the bounds in numbers |
| SnapshotFrames.WriteMembers | internal/cmd/query.go:1044-1058 | the members' frames are all written if and only if the members are distinct, every frame fits and no write fails |
| SnapshotFrames.MembersDistinct | internal/cmd/query.go:1044-1050 | frame names are distinct if and only if the members are |
| SnapshotFrames.QueryComplete | internal/cmd/query.go:1026-1082 | that file is complete |
| Selection.OnceKeeps | internal/cmd/query.go:133-139 | deduplication keeps every CRN, once, and invents none |
| Selection.OnceInOrder | internal/cmd/query.go:133-139 | and the first occurrence of each is at the place that the number of CRNs before it gives |
| Selection.ResolvesName | internal/cmd/query.go:127-146 | a selector that is a configured name is the last instance of that name |
| Selection.ResolvesCrn | internal/cmd/query.go:142-157 | and only one that is no configured name is read as a CRN |
| Selection.WantedInOrder | internal/cmd/query.go:140-157 | what is asked for: every configured instance with `--all`, and then what each selector stands for, in order |
| Selection.SelectedInstances | internal/cmd/query.go:121-169 | succeeds if and only if there is something to select from, every selector resolves, something is selected and every selected environment is configured: then `--all` and the selectors in order, each CRN once where it first occurs; each error if and only if it is the first that applies, with the selector or the environment it names |
| Selection.WriteSelection | internal/cmd/query.go:121-169 | a snapshot of any selection never fails on a duplicate frame: it is published, complete, if and only if the targets are selectable by those conditions on the input, everything fits, no write fails and closing works |
| Names.ItoaParses | internal/snapshot/snapshot.go:57-59 | canonical decimals parse back |
| Names.AtoiOfItoa | internal/snapshot/snapshot.go:197-200 | a printed number parses back up to 2^63-1 and not beyond |
| Names.JoinSplit | internal/snapshot/snapshot.go:46-50 | fields split and joined again |
| Names.AutoNameLanguage | internal/snapshot/snapshot.go:27-60 | a name is accepted as automatic if and only if it is the name of some valid stamp and candidate |
| Names.AutoNameUnique | internal/snapshot/snapshot.go:27-60 | and of only one |
| Names.AutoNameWritten | internal/snapshot/snapshot.go:27-33 | how the candidates of a stamp are written, the first without a number |
| Names.AutoCandidateFits | internal/snapshot/snapshot.go:35-60 | a candidate's name is accepted if and only if its number is at most 2^64-1 |
| Names.WipPidOfName | internal/snapshot/snapshot.go:65-70 | the owner read from a work-in-progress name is the pid it was created with, for any token and any pid from 1 to 2^63-1, and for no other |
| Names.WipPidLanguage | internal/snapshot/snapshot.go:170-202 | only such names have an owner |
| Names.InUsePidOfOwn | internal/snapshot/inuse.go:22-29 | the owner of a claim file, and of its temporary file, is the pid that named it, for any pid up to 2^63-1 and for no other |
| Names.OwnNamesWritten | internal/snapshot/snapshot.go:65-70 | how work-in-progress files and claim files are named |
| Names.InUsePidCanonical | internal/snapshot/inuse.go:62-75 | a name that is read as some pid is the name that process writes if and only if its number is canonical, for the claim file and for its temporary file: padded and signed names are read as another's |
| Names.InUsePidNotInjective | internal/snapshot/inuse.go:62-75 | three names that are read as the same pid |
| Names.RenderInjective | internal/snapshot/snapshot.go:27-33 | no two files of the directory, of one kind or of different kinds, share a name |
| InUse.HoldersIndex | internal/snapshot/inuse.go:114-148 | one walk gives, for every name, its holders: exactly the live processes of which a readable claim file has a line with that name, each once |
| InUse.HoldersExactly | internal/snapshot/inuse.go:107-148 | a process holds a name if and only if it is alive and one of its readable claim files has a line with that name, white space around it aside |
| InUse.HoldersInOrder | internal/snapshot/inuse.go:114-148 | the holders of a name are different processes, in the order in which the listing first has them |
| InUse.DeadHoldNothing | internal/snapshot/inuse.go:128-133 | a name that only dead processes' claim files list is free |
| InUse.TrimMeans | internal/snapshot/inuse.go:138-142 | trimming a line takes white space from its ends, and all of it |
| InUse.OwnClaimFound | internal/snapshot/inuse.go:38-54 | a live process that claims a name is found to hold it if and only if the name has no line break and no white space at either end, whatever else is in the directory |
| InUse.StaleClaims | internal/snapshot/inuse.go:80-97 | the stale claim sweep removes exactly the claim files of dead owners |
| InUse.OwnClaimSpared | internal/snapshot/inuse.go:80-97 | a process's own claim file and its temporary file are removed if and only if it is dead |
| Publish.Directory.RenameNoClobber | internal/snapshot/rename.go:40-51 | the four outcomes and what each leaves bound; a bound name is never changed |
| Publish.Directory.PublishAutoSnapshot | internal/snapshot/rename.go:57-81 | the search ends, within directory size + 1 attempts, at the first candidate that is not merely taken, and that candidate decides the outcome: refused claim, failed link, published, published but not cleaned up, or overflow; what is bound then |
| Publish.LeastFree | internal/snapshot/rename.go:57-81 | a search in which nothing fails but for taken names publishes under the least free candidate, and overflows if and only if all 2^64-1 names are bound |
| Publish.Directory.CreateArchive | internal/archive/archive.go:114-136 | the archive search ends, within directory size + 1 attempts, at the first selector that is not merely taken: saved if and only if nothing failed there, and which temporary files are left behind |
| Publish.Directory.SaveAt | internal/archive/archive.go:140-164 | one attempt: a temporary file of its own, the no-clobber link, and the removal whose failure is ignored |
| Publish.LeftBehind | internal/archive/archive.go:140-164 | after any number of attempts exactly those temporary files are left, besides what was there, that an attempt created and could not remove, and each holds the archive |
| Publish.ArchiveNameWritten | internal/archive/archive.go:116-120 | how archive candidates are written, the first without a number |
| Publish.Pigeonhole | internal/snapshot/rename.go:57-81 | why the search ends |
| Publish.AutoCandidatesDiffer | internal/snapshot/snapshot.go:27-33 | candidates of one stamp have different names |
| Publish.ArchiveCandidatesDiffer | internal/archive/archive.go:116-120 | so do archive candidates |
| Retention.SnapshotDir.RetainAutoSnapshots | internal/snapshot/manage.go:20-53 | each doomed entry is tried once in scan order; exactly those whose removal works leave the directory, and nothing else does |
| Retention.DoomedExactly | internal/snapshot/manage.go:36-46 | an entry is doomed if and only if it is automatic, unheld and past the first `limit` automatic ones |
| Retention.AutoPartition | internal/snapshot/manage.go:36-46 | kept, held and doomed make up the automatic entries, with at most `limit` kept |
| Retention.RetentionResult | internal/snapshot/manage.go:20-53 | the directory after one pass, file by file: a scanned file survives if and only if it is not automatic, held, among the first `limit` automatic ones, or could not be removed; so at most limit + held + failed automatic ones are left, for every limit from 0 to 255 |
| Retention.KeptAreNewest | internal/snapshot/manage.go:20-53 | nothing newer than a kept snapshot is removed |
| Retention.RunPrune | internal/cmd/snapshot.go:791-827 | what prune reports, dry or not, with missing files, and how many errors |
| Retention.ReportOne | internal/cmd/snapshot.go:798-827 | what the report says of one target: skipped, or deleted with its size freed, or neither |
| Retention.ReportMore | internal/cmd/snapshot.go:798-827 | and of several, one after the other |
| Retention.CountIs | internal/cmd/snapshot.go:798-827 | the errors are as many as the targets that fail |
| Retention.DryRunAgrees | internal/cmd/snapshot.go:798-827 | a dry run reports what a real one does if and only if every removal it gets to succeeds |
| ClaimProtection.PublishClaims | internal/ui/components/instancepicker/instancepicker.go:2109-2130 | a session claims a candidate before it links it and goes on claiming what it linked |
| ClaimProtection.PublishProtects | internal/snapshot/rename.go:40-81 | no publishing step makes live a file a pass could already have seen under its name |
| ClaimProtection.PassPasses | internal/snapshot/inuse.go:114-148 | a pass that saw a live session's file lists its claim, and reads it or fails to before it removes anything |
| ClaimProtection.StepKnown | internal/snapshot/rename.go:40-51 | every bound or seen name leads to a file that was given that name, and a published file never changes |
| ClaimProtection.StepJobs | internal/snapshot/rename.go:57-81 | every step keeps each process's job about its own, still unpublished, file until it is linked |
| ClaimProtection.StepClaims | internal/snapshot/inuse.go:38-54 | every step keeps each live session's claim on what it is publishing or has published |
| ClaimProtection.RunKeepsInv | internal/snapshot/inuse.go:114-148 | the protocol invariant over every run of any processes and passes in which no process starts under a condemned pid |
| SafeRuns.PassSpares | internal/cmd/snapshot.go:589-613 | a pass that saw the very file a live session published there cannot remove it unless it failed to read the session's claim |
| SafeRuns.BackingsSurvive | internal/ui/components/instancepicker/instancepicker.go:2105-2129 | claim protection: over every run in which no seen name is bound again and no condemned pid is used again, every live session's published file stays bound and claimed from the link on if and only if no pass removes one whose claim it could not read |
| SafeRuns.SurvivesStep | internal/ui/components/instancepicker/instancepicker.go:2105-2129 | the same for each single step |
| SafeRuns.WipsSurvive | internal/snapshot/snapshot.go:148-168 | over any run, every process's work-in-progress file stays under its name until its process unlinks it if and only if none is opened under a name that a running pass saw as a dead process's |
| SafeRuns.OnlyStaleRemovals | internal/snapshot/manage.go:20-53 | with any re-use of names and any failed reads, a step takes a live session's file away if and only if it removes a name under which it saw, or published, an earlier file, or whose holder's claim it could not read |
| SafeRuns.SweepsSpareLive | internal/snapshot/inuse.go:80-97 | at no point of a run is a stale claim sweep about to remove a live process's claim if and only if every process starts under a pid that no sweep has found dead |
| SafeRuns.Conservation | internal/snapshot/rename.go:40-81 | published files never change; in any run without removals all of them stay bound, also when unlinking the source fails |
| SafeRuns.PublicationsDistinct | internal/snapshot/rename.go:57-81 | publications that completed have different names and keep their contents |
| SafeRuns.NeverRebound | internal/snapshot/rename.go:40-51 | no step of any process binds a bound name to another file |
| SafeRuns.ReuseLosesBacking | internal/snapshot/manage.go:20-53 | the conditions are needed: a run in which a pass with an old scan removes a live, claimed backing under a re-used name |
| SafeRuns.UnreadLosesBacking | internal/snapshot/inuse.go:134-137 | one in which, without any re-use, a pass that cannot read a claim removes the very file it saw |
| SafeRuns.SecondCleanupLosesBacking | internal/cmd/query.go:394-400 | and one in which a cancelled headless query's second removal does |
| SafeRuns.PidReuseLosesClaim | internal/snapshot/inuse.go:80-97 | and one in which a claim sweep that checked a dead pid removes the claim of its new owner |
| ProtocolCalls.LinksLeastFree | internal/snapshot/rename.go:57-81 | in the protocol too, a session that nobody disturbs claims and tries one candidate after the other and ends with the least free one claimed, bound to its file and known to it |
| ProtocolCalls.GivesUpAtLast | internal/snapshot/rename.go:57-81 | and with all 2^64-1 names taken it gives up with nothing bound |
| ProtocolCalls.LinkFails | internal/snapshot/rename.go:40-51 | a file whose work-in-progress name is gone is not linked |
| ProtocolCalls.GivesUp | internal/ui/components/instancepicker/instancepicker.go:2058-2072 | until its file is linked a process can give it up, leaving or removing it |
| ProtocolCalls.ClaimsShown | internal/ui/components/instancepicker/instancepicker.go:471-510 | when a session may claim the file it shows, and what that makes of its own backing |
| ProtocolCalls.ContentsAppended | internal/snapshot/container.go:328-366 | in every run a file holds exactly what its writer has appended to it, in order |
| ProtocolCalls.PassAlone | internal/snapshot/manage.go:20-53 | a pass that runs by itself and reads every claim removes the file it looks at if and only if no live process claims it, whatever dead ones claim, and changes nothing else |
| ProtocolCalls.TriesOnce | internal/snapshot/manage.go:36-53 | a pass tries each file it saw once |
| ProtocolCalls.SweepAlone | internal/snapshot/snapshot.go:148-168 | a sweep by itself removes a work-in-progress file if and only if its owner is dead |
| ProtocolCalls.ClaimSweepAlone | internal/snapshot/inuse.go:80-97 | a claim sweep by itself removes a claim file if and only if its owner is dead, or dies and removes none |
| ProtocolCalls.KilledLeaves | internal/snapshot/inuse.go:80-97 | a killed process leaves its files and its claim, and its pid may start again |
| FirstRace.AcceptKeeps | internal/cmd/query.go:545-573 | the election: first data with logs wins, a loser's data is dropped, data without logs passes |
| FirstRace.SettleKeeps | internal/cmd/query.go:562-572 | the loop over the losers: each one passed has stopped and its registered stream is cancelled |
| FirstRace.EmitKeeps | internal/cmd/query.go:884-897 | tee records and stored logs stay in step, whatever write fails |
| FirstRace.RunKeeps | internal/cmd/query.go:458-573 | the race invariant in every interleaving, closes after stream errors included |
| FirstRace.RaceOutcome | internal/cmd/query.go:458-573 | only the winner holds logs or emits records; when its electing callback is past the losers, each has stopped and each registered loser stream is cancelled, never the winner's |
| FirstRace.WinnerOnce | internal/cmd/query.go:531-573 | the winner is set at most once; nobody is registered, started or revived after the election, and a loser whose callback has not passed its check is frozen but for being marked cancelled |
| FirstRace.StepLater | internal/cmd/query.go:905-925 | the same for each single step |
| RaceElection.ElectsAt | internal/cmd/query.go:545-559 | a batch with logs that comes to its check elects its member if nobody has won, and nothing else elects anybody |
| RaceElection.WinnerIff | internal/cmd/query.go:545-573 | in every run there is a winner if and only if some batch with logs has come to its check |
| RaceElection.FirstBatchWins | internal/cmd/query.go:545-559 | and it is the member whose batch was the first to do so |
| RaceElection.StoresAccepted | internal/cmd/query.go:884-897 | in every run, with no failed tee write, each member holds the logs of exactly those batches that were let through for it, whole and in order, but for the one under way; and after a failed write those of some first ones |
| RaceOutcomes.FlagsHistory | internal/cmd/query.go:884-932 | in every run, with no failed tee write, a member has warned or failed if and only if a batch with warnings or errors or a stream error was let through for it, or its authentication failed |
| RaceOutcomes.CloseSays | internal/cmd/query.go:905-917 | the close of a stream reports an error, a warning or success by that history |
| RaceOutcomes.PhaseOf | internal/cmd/query.go:602-650 | which steps change a member's phase, and to what |
| RaceOutcomes.CloseRuns | internal/cmd/query.go:905-917 | the close of a stream by itself, accepted or turned away |
| RaceOutcomes.FailureRuns | internal/cmd/query.go:920-932 | the same for a stream error |
| RaceOutcomes.Emits | internal/cmd/query.go:889-895 | tee writes exactly the logs of batches let through, one by one, until a write fails |
| RaceOutcomes.AuthEnds | internal/cmd/query.go:458-486 | the three ways an authentication ends, and what each leaves |
| RaceOutcomes.AuthCancelled | internal/cmd/query.go:556-563 | in every run the open authentications are cancelled if and only if the electing callback has taken its second step |
| RaceOutcomes.CallbackEnds | internal/cmd/query.go:545-573 | whatever the others do in between, a callback is over after a bounded number of its member's own steps |
| SignalGate.RunStepKeeps | internal/cmd/query.go:961-1012 | what holds at every point of the finalizer and the outcome tail |
| SignalGate.SignalOrCommit | internal/cmd/root.go:277-345 | at exit: the signal won, with no selector, no snapshot and code 130 or 143; or the commit won and the run never removed its snapshot; or neither, and nothing is left |
| SignalGate.CommitIsFinal | internal/cmd/root.go:289-297 | after a commit no signal cancels, nothing is removed and the exit code is the run's own |
| SignalGate.CancelIsFinal | internal/cmd/root.go:277-285 | after a winning signal nothing is committed and no selector written |
| SignalGate.SignalWins | internal/cmd/root.go:277-345 | a signal that gets to the gate before the commit ends the run with its code, without selector, and without snapshot unless its removal fails |
| SignalGate.RunEnds | internal/cmd/query.go:961-1012 | a run returns after thirteen of its steps at the latest, whatever its calls answer |
| SignalGate.UndisturbedCommits | internal/cmd/query.go:391-440 | a run that nobody disturbs has, after its twelve steps, committed with its snapshot in place, printed its selector if and only if it does not tee, and returned with its own code, and exits with that |
| SignalGate.OwnCode | internal/cmd/root.go:339-345 | a run that exits without a signal sent does so with its own code |
| SignalGate.WaysOut | internal/cmd/root.go:321-345 | nothing keeps a run that has returned from exiting, with 130, 143 or its own code |
| SignalGate.FlagsRecord | internal/cmd/query.go:391-440 | in every run: published, committed, selector printed, removal failed, cancelled, each exactly if one of its steps did so |
| SignalGate.PresentStep | internal/cmd/query.go:980-984 | the snapshot is there from its publication until the run or another process removes it |
| SignalGate.GoneUncommitted | internal/cmd/query.go:1122-1140 | a snapshot that is gone before the run resolves it is never committed |
| SignalGate.CancelledEarly | internal/cmd/query.go:962-974 | a run cancelled before it publishes never does |
| ConfigMerge.MergeMappings | internal/config/config.go:268-278 | the recursive in-place merge equals the right-biased deep merge of values, for any key order, with sub-mappings moved into the lower layer |
| ConfigMerge.MergeChild | internal/config/config.go:270-273 | merging two sub-mappings changes the lower one in place and nothing beside it |
| ConfigMerge.MergeLayers | internal/config/config.go:185-187 | folding any number of layers equals the fold of the values, though later layers are merged into mappings of earlier ones |
| ConfigMerge.MergeDocument | internal/config/config.go:185-187 | merging one layer leaves the layers above it as decoded |
| ConfigMerge.MergeLookup | internal/config/config.go:268-278 | a setting of a merge is the upper layer's, or the lower one's where the upper layer has nothing at its path or in the way of it |
| ConfigMerge.UpperWins | internal/config/config.go:268-278 | the upper layer's setting wins and every other one is kept, if and only if the layers agree on which paths are mappings |
| ConfigMerge.HighestLayerWins | internal/config/config.go:172-187 | when layers agree on that, every setting is the one of the highest layer that supplies it |
| ConfigMerge.ReadInstances | internal/config/config.go:226-248 | which list a document contributes, and its two errors |
| ConfigMerge.InstanceLists | internal/config/config.go:226-248 | all contributions in layer order, or the first error |
| ConfigMerge.FromDocuments | internal/config/config.go:172-199 | the effective mapping of defaults and layers, with the lists collected before merging changes the layers |
| ConfigMerge.AppendInstances | internal/config/config.go:188-198 | append mode replaces the instance list only |
| ConfigMerge.Collects | internal/config/config.go:226-248 | the collected lists are those at `icl.instances` of each document, one after the other, and there are any if and only if no document is malformed |
| ConfigMerge.FirstFault | internal/config/config.go:226-248 | the first malformed document decides the error: `icl` is no mapping, or its instances are no list |
| ConfigMerge.AppendsOriginals | internal/config/config.go:188-198 | if the merged `icl.instancesMerge` is `append`, the effective instances are the original lists of the defaults and of every layer in order and everything else is as merged; otherwise the configuration is as merged |
| ConfigMerge.FoldKeepsIcl | internal/config/config.go:188-191 | layers that pass the first shape check keep `icl` a mapping |
| Sse.ReadEvents | internal/icl/stream.go:26-66 | the loop over lines and a buffer delivers what the line-by-line definition says, with every way it ends |
| Sse.ReadsTokens | internal/icl/stream.go:45-63 | any sequence of well-formed lines is read as those lines |
| Sse.RoundTrip | internal/icl/stream.go:26-66 | any newline-terminated payloads, with comments anywhere, are delivered exactly and in order |
| Sse.ReadsThrough | internal/icl/stream.go:26-66 | while the handler and the context let it, the reader goes through any stream of lines and comes to what follows it |
| Sse.ReadingEnds | internal/icl/stream.go:26-66 | every way a reading ends behind any stream of lines, with what it has delivered: done context, end or error of the input, an unknown line, a handler that fails or stops |
| Sse.CutDeliversPrefix | internal/icl/stream.go:29-43 | for any byte prefix of any stream the callbacks are a prefix of those for the whole |
| Sse.UnfinishedLine | internal/icl/stream.go:37-40 | an unfinished last line changes nothing |
| Sse.OnlyTerminated | internal/icl/stream.go:45-61 | only non-empty newline-terminated payloads are ever delivered |
| ErrorLedger.Bound | internal/cmd/query.go:804-813 | the message bound: at most 2048 bytes, cut at the last rune start |
| ErrorLedger.CutKeepsRunes | internal/cmd/query.go:808-812 | the cut keeps whole runes |
| ErrorLedger.BoundedUtf8 | internal/cmd/query.go:804-813 | a UTF-8 message longer than 2048 bytes is cut down to as many whole characters as fit in front of three dots, and any other is left alone |
| ErrorLedger.FirstSeenOrder | internal/cmd/query.go:769-782 | the issues are in first-seen order |
| ErrorLedger.LedgerAdds | internal/cmd/query.go:769-782 | one more message is counted, left out or opens an issue |
| ErrorLedger.NothingLost | internal/cmd/query.go:769-782 | counts plus omitted equal the number of failures |
| ErrorLedger.QueryResult.Add | internal/cmd/query.go:769-782 | the ledger holds the first eight different bounded messages with their counts |
| ErrorLedger.QueryResult.Failed | internal/cmd/query.go:848-867 | and the class is Data once any failure was, else the last one's |
| ErrorLedger.QueryResult.Accounts | internal/cmd/query.go:848-867 | both, over any history of failures |
| ErrorLedger.MembersExit | internal/cmd/query.go:695-729 | exit 65 or 69 if and only if every member failed in that class, 0 if and only if none failed |
| FetchBooks.UndeliveredRemove | internal/ui/components/instancepicker/instancepicker.go:854-861 | delivering a message takes it out of the count of its epoch only |
| FetchBooks.ReopenAccounts | internal/ui/components/instancepicker/instancepicker.go:1427-1438 | a new fetch starts with nothing undelivered, whatever the old one left behind |
| FetchBooks.DropAccounts | internal/ui/components/instancepicker/instancepicker.go:855-858 | dropping a message of an earlier epoch keeps the accounting |
| FetchBooks.DeliverAccounts | internal/ui/components/instancepicker/instancepicker.go:854-873 | a message of the current epoch finds the container open and becomes a frame or a loss |
| FetchBooks.CloseAccounts | internal/ui/components/instancepicker/instancepicker.go:1611-1630 | closing keeps every epoch published at most once, with frames of its own |
| FetchBooks.SettleBooks | internal/ui/components/instancepicker/instancepicker.go:1700-1712 | a settle closes the container if and only if the fetch is idle and no watch goes on with it |
| FetchBooks.NextAccounts | internal/ui/components/instancepicker/instancepicker.go:771-890 | every event of every kind keeps the accounting |
| FetchBooks.RunAccounts | internal/ui/components/instancepicker/instancepicker.go:854-890 | after any events whatever: the counter is the number of undelivered messages of the current epoch, a positive one has an open container, its frames are all of this fetch, every flush is a frame, lost or undelivered, and no epoch is published twice |
| FetchPublications.NextContinues | internal/ui/components/instancepicker/instancepicker.go:1604-1638 | what each event does to the container: it starts a fetch, which discards the old one, or the container takes what was handed over or delivered, and may be closed, published exactly if there are logs or it is a collect, no member declares logs without bytes or bytes without logs, it has its writer and the rest works |
| FetchPublications.CancelPublishes | internal/ui/components/instancepicker/instancepicker.go:1775-1797 | cancelling everything closes the container if and only if every row stops and no flush is undelivered, and publishes what it closes if and only if there are logs or it is a collect and no member holds logs that were never written, besides what may fail in any publication |
| FetchPublications.SettleContinues | internal/ui/components/instancepicker/instancepicker.go:1604-1638 | the same for a settle |
| FetchPublications.CollectingKept | internal/ui/components/instancepicker/instancepicker.go:1793-1799 | while a container is open only cancelling everything takes back that it is a collect's |
| FetchPublications.EmptyFetch | internal/ui/components/instancepicker/instancepicker.go:1604-1638 | a plain fetch whose container is closed without logs is published if and only if the picker was still collecting at the fetch key, nobody cancelled since, no member declares bytes, it has its writer and the rest works |
| FetchPublications.LedgerNext | internal/ui/components/instancepicker/instancepicker.go:861-873 | each event keeps count of what the fetch has started and lost |
| FetchPublications.PublishedLosses | internal/ui/components/instancepicker/instancepicker.go:792-873 | in any run, the frames of a published snapshot and the flushes refused in its fetch add up to the flushes started in it, and it has a frame of each of these if and only if none was refused |
| FetchCompleteness.NextFramed | internal/ui/components/instancepicker/instancepicker.go:854-914 | a handled event, if it starts no other fetch, leaves every declared size, of a row or of a restored record, with a frame in the container if and only if it does not restore a size without one |
| FetchCompleteness.FramedThroughout | internal/ui/components/instancepicker/instancepicker.go:854-914 | while the container of a fetch stays open, no size is ever declared without a frame if and only if no such snapshot is restored under it |
| FetchCompleteness.FetchComplete | internal/ui/components/instancepicker/instancepicker.go:1604-1638 | whatever happens between the start of a fetch and the publication of its container, there is a frame of everything the snapshot declares logs of, provided no snapshot was restored meanwhile that declares a size without a frame |
| FetchOrder.SettleOrders | internal/ui/components/instancepicker/instancepicker.go:1700-1712 | a settle leaves no finished fetch open |
| FetchOrder.KeyOrders | internal/ui/components/instancepicker/keybinds.go:18-94 | which key presses leave a finished fetch open: exactly a fetch of no row, and deselecting the last running rows |
| FetchOrder.AuthOrders | internal/ui/components/instancepicker/instancepicker.go:937-1058 | no authentication message does |
| FetchOrder.MessageOrders | internal/ui/components/instancepicker/instancepicker.go:771-929 | which other events do: exactly a collect of nothing, a batch or a dispatch that ends the last running rows, a cap or an exhausted watch with rows waiting, and restoring, viewing in context or deleting under a running fetch |
| FetchOrder.StreamOrders | internal/ui/components/instancepicker/instancepicker.go:771-787 | when a batch ends the last running rows: all lose the election, or it takes its own row out of the running phases by a warning or an error |
| FetchOrder.EndWatchOrders | internal/ui/components/instancepicker/instancepicker.go:2285-2291 | ending a watch finalizes it if and only if no row still waits |
| FetchOrder.NextOrders | internal/ui/components/instancepicker/instancepicker.go:1700-1712 | each single event keeps finished fetches closed if and only if it is none of these |
| FetchOrder.OrderlyRuns | internal/ui/components/instancepicker/instancepicker.go:1700-1712 | over every run: a fetch that is over always has its container closed, and no row waits for a watch that is off, if and only if none of these events occurs |
| FetchRaces.QueriesStart | internal/ui/components/instancepicker/instancepicker.go:937-949 | a row's query starts if and only if a token of the current generation comes for it while it is enabled |
| FetchRaces.NextOnward | internal/ui/components/instancepicker/instancepicker.go:1717-1725 | the generation moves on at exactly these events: cancelling everything, a fetch that gets its container, an election; and a race keeps its winner until it is over or a new one starts |
| FetchRaces.LateTokens | internal/ui/components/instancepicker/instancepicker.go:937-940 | an authentication message stamped before such an event never counts again, whatever happens in between |
| FetchRaces.Decided | internal/ui/components/instancepicker/instancepicker.go:771-782 | over any events of a decided race its winner stays, and no other row's batch does anything |
| FetchLogs.BatchAdds | internal/ui/components/instancepicker/instancepicker.go:771-787 | a batch adds its logs, up to the store's room, to the one row that takes it and to no other |
| FetchLogs.OnlyBatchesAdd | internal/ui/components/instancepicker/instancepicker.go:771-840 | no event but a batch and a load leaves any row with more logs |
| FetchLogs.LoadReplaces | internal/ui/ui.go:1167-1178 | a load leaves its row with what was loaded, empties the row loaded before it, unwritten logs included, and touches no other |
| FetchLogs.OnlyFlushesSize | internal/ui/components/instancepicker/instancepicker.go:861-873 | no event but a delivered flush and a restored snapshot gives any row a size |
| FetchRounds.StartsBegin | internal/ui/components/instancepicker/instancepicker.go:1427-1467 | whatever starts a fetch, it begins with no logs, sizes or queries, and its snapshot's members are exactly the rows that wait for their tokens |
| FetchRounds.NextRound | internal/ui/components/instancepicker/instancepicker.go:2246-2261 | from the end of a round over the cooldown to the next: exactly the enabled members without logs or error are fetched again, into the same container |
| FetchRounds.LoadsAnswered | internal/ui/components/instancepicker/instancepicker.go:854-890 | no waiting load is dropped: it leaves the queue only when its own flush is delivered or a new fetch answers all of them |
| FetchModes.NextFetching | internal/ui/components/instancepicker/instancepicker.go:1604-1638 | exactly when a fetch is on after an event: one has got its container or an archive is dispatched, or one was on and the event has not closed its container, cancelled everything, failed to open one or finished a dispatch |
| FetchModes.FlaggedOpen | internal/ui/components/instancepicker/instancepicker.go:2037-2050 | over every run without a dispatch, a fetch is on only while its container is open |
| FetchModes.ClosedUnoccupied | internal/ui/components/instancepicker/instancepicker.go:1604-1638 | once the container of a fetch is closed nothing is on |
| FetchModes.PublishesGone | internal/ui/components/instancepicker/instancepicker.go:1604-1638 | an event that publishes a snapshot closes its container |
| FetchModes.CollectAfterPublication | internal/ui/components/instancepicker/instancepicker.go:1493-1527 | so a collect of configured instances is taken right after a publication, and opens the next fetch |
| FetchModes.DispatchAfterPublication | internal/ui/components/instancepicker/instancepicker.go:1833-1925 | and so is a dispatch to any enabled row |
| FetchModes.NextWatching | internal/ui/components/instancepicker/instancepicker.go:2246-2390 | exactly which events start a watch and which end it, and that its epoch moves on with each |
| FetchModes.LateTicks | internal/ui/components/instancepicker/instancepicker.go:2358-2368 | a tick stamped before the watch ended never counts again, whatever happens in between |
| FetchModes.NextCancelled | internal/ui/components/instancepicker/instancepicker.go:1775-1799 | which events mark a fetch cancelled, and which start afresh |
| FetchStreams.BatchesCount | internal/ui/components/instancepicker/instancepicker.go:771-787 | any batches of a running query leave its row with all their logs there was room for, and with the worst badge any of them brought, and change nothing else |
| FetchStreams.EndHandsOver | internal/ui/components/instancepicker/instancepicker.go:792-840 | a stream that ends with logs while a container is open hands over all of them in one flush of the fetch that is on |
| FetchStreams.StreamsThrough | internal/ui/components/instancepicker/instancepicker.go:771-840 | from an instance's token over any batches to the end of its stream: all its logs are on their way to the container |
| FetchStreams.FlushTaken | internal/ui/components/instancepicker/instancepicker.go:854-890 | a flush that is written without failing becomes the next frame, and its row knows its size |
| FetchStreams.AllPublished | internal/ui/components/instancepicker/instancepicker.go:771-890 | a fetch under way whose instances are served one after the other, however many, ends in one published snapshot with exactly their frames in order, none lost |
| FetchStreams.WholeFetch | internal/ui/components/instancepicker/instancepicker.go:1411-1467 | the whole fetch, from the key to the file: each enabled row ends with all its logs flushed, and the next fetch may start |
| FetchRows.SettleRows | internal/ui/components/instancepicker/instancepicker.go:1700-1770 | what settling makes of the rows: nothing while anything runs or is undelivered, else another round for the empty members of a watch, or the end of the race for those it leaves behind |
| FetchRows.SettleBooksAndMode | internal/ui/components/instancepicker/instancepicker.go:1604-1638 | and what it makes of the container, the collect, the fetch and the watch, with the condition for publication stated on the rows and records |
| FetchRows.BatchRows | internal/ui/components/instancepicker/instancepicker.go:1717-1746 | what a batch makes of the badges of all rows, and the first logs of a race of the other candidates |
| FetchRows.BatchIgnored | internal/ui/components/instancepicker/instancepicker.go:771-782 | a batch that does not count changes nothing |
| FetchRows.EndSettles | internal/ui/components/instancepicker/instances.go:123-147 | what the end of a stream shows |
| FetchRows.FailureSettles | internal/ui/components/instancepicker/instancepicker.go:953-971 | what a failed token shows, of a row that has lost the race nothing |
| FetchRows.EnvironmentSettles | internal/ui/components/instancepicker/instancepicker.go:976-1058 | what each message about an environment makes of its waiting rows |
| FetchRows.PasscodeSettles | internal/ui/components/instancepicker/instancepicker.go:1030-1036 | an accepted passcode settles only if no row of its environment waits |
| FetchRows.CancelSettles | internal/ui/components/instancepicker/instancepicker.go:1775-1799 | what cancelling everything makes of the rows, the watch and the tokens on their way |
| FetchRows.ToggleFlips | internal/ui/components/instancepicker/instances.go:149-182 | toggling a row flips whether it is chosen, stops it if it runs, and touches no other |
| FetchRows.SelectAllRows | internal/ui/components/instancepicker/instances.go:580-598 | the all-selector |
| FetchRows.ViewRows | internal/ui/components/instancepicker/instancepicker.go:919-932 | viewing one instance in context |
| FetchRows.RetryRows | internal/ui/components/instancepicker/keybinds.go:58-72 | retrying a failed row |
| FetchRows.DispatchRows | internal/ui/components/instancepicker/instancepicker.go:1833-1925 | when an archive is dispatched, and to which rows |
| FetchRows.DispatchDoneRows | internal/ui/components/instancepicker/instancepicker.go:1944-1968 | what a dispatched instance shows |
| FetchRows.FetchRowsBegin | internal/ui/components/instancepicker/instances.go:657-680 | every configured row starts a fetch empty, with its old stream outdated, and waits for its token if it was chosen |
| FetchRows.FetchStarts | internal/ui/components/instancepicker/instancepicker.go:1411-1467 | what a fetch key makes of the books, the loads, the flags and the members, container or not |
| FetchRows.RaceBegins | internal/ui/components/instancepicker/instancepicker.go:1383-1404 | between whom a first fetch races, and what is left if it cannot start |
| FetchRows.CollectStarts | internal/ui/components/instancepicker/instancepicker.go:1493-1527 | exactly when a collect is taken, with the archive's rows and no others, and what it leaves if its container cannot be opened |
| FetchRows.WatchKeyRows | internal/ui/components/instancepicker/instancepicker.go:2341-2353 | the watch key, both ways |
| FetchRows.TickRows | internal/ui/components/instancepicker/instancepicker.go:2358-2390 | the tick of the watch that is on fetches the waiting members again, or ends the watch |
| FetchRows.StaleTick | internal/ui/components/instancepicker/instancepicker.go:2358-2368 | any other tick does nothing |
| FetchRows.RestoredRow | internal/ui/components/instancepicker/instances.go:380-396 | a restored row shows the last record of its CRN, with nothing running, or is emptied and disabled |
| FetchRows.AppendedOne | internal/ui/components/instancepicker/instancepicker.go:658-674 | which read-only rows a restore appends, in which order, and where a malformed record stops it |
| FetchRows.RestoreRows | internal/ui/components/instancepicker/instancepicker.go:897-914 | what a restore replaces, and that a fetch under way goes on |
| FetchRows.EvictRows | internal/ui/components/instancepicker/instancepicker.go:536-582 | what deleting the session's file makes of the rows |
| FetchRows.LoadQueues | internal/ui/components/instancepicker/instancepicker.go:1217-1272 | when a load is queued |
| FetchRows.LoadedRows | internal/ui/ui.go:1167-1178 | what a ready load makes of its row and of the one loaded before |
| FetchRows.FlushDelivered | internal/ui/components/instancepicker/instancepicker.go:854-890 | a current flush becomes a frame or is lost, by conditions on the container, and answers its load |
| FetchRows.FlushUnknown | internal/ui/components/instancepicker/instancepicker.go:854-890 | a flush whose instance has no row is lost |
| FetchRows.StaleFlush | internal/ui/components/instancepicker/instancepicker.go:854-861 | a flush of an earlier fetch changes nothing |
| FetchCancels.CancelStops | internal/ui/components/instancepicker/instancepicker.go:1775-1799 | in every reachable state, cancelling everything stops every query and every wait for a token, and leaves waiting only rows that a cap has left behind in a watch that is over |
| FetchStores.RowsStay | internal/ui/components/instancepicker/instances.go:461-480 | in every run the configured rows stay the same instances in order; their queries are only added to, and a store is emptied only together with the query that filled it |
| FetchLimits.ToggleLeavesOpen | internal/ui/components/instancepicker/instances.go:149-169 | a run in which deselecting the last waiting row leaves the container open, and the next fetch throws its frame away |
| FetchLimits.RestoreLeavesOpen | internal/ui/components/instancepicker/instancepicker.go:897-914 | one in which restoring a snapshot does |
| FetchLimits.CapLeavesOpen | internal/ui/components/instancepicker/instancepicker.go:2362-2365 | one in which a cap crossed in a cooldown strands the container and a waiting row, and cancelling everything does not help |
| FetchLimits.EmptyFetchPublished | internal/ui/components/instancepicker/instancepicker.go:1604-1638 | one in which an empty plain fetch is published |
| FetchLimits.RetryLosesFlush | internal/ui/components/instancepicker/keybinds.go:58-72 | one in which a retried row's second flush is refused and its snapshot published without it |
| FetchLimits.CancelDiscardsFrames | internal/snapshot/io.go:181-195 | one in which cancelling everything publishes nothing, because one row holds a log that was never written, and the other row's frame is discarded |
| FetchLimits.RestoreDeclaresLogs | internal/ui/components/instancepicker/instancepicker.go:897-914 | one in which a snapshot restored under a fetch has its logs declared by the fetch's snapshot, which has no frame of them |
| Picker.Model.constructor | internal/ui/components/instancepicker/instancepicker.go:714-747 | a picker is built in the initial state |
| Picker.Model.Find | internal/ui/components/instancepicker/instances.go:439-446 | the first row of a CRN |
| Picker.Model.MaybeFinalizeFetch | internal/ui/components/instancepicker/instancepicker.go:1604-1638 | the handler in place reaches the state of the state machine: finalization |
| Picker.Model.EvaluateWatchRound | internal/ui/components/instancepicker/instancepicker.go:2246-2261 | the same for the end of a watch round |
| Picker.Model.Settle | internal/ui/components/instancepicker/instancepicker.go:1700-1712 | for the gate of every handler |
| Picker.Model.OnWatchTick | internal/ui/components/instancepicker/instancepicker.go:2358-2368 | for a cooldown tick |
| Picker.Model.StartFetchWithSources | internal/ui/components/instancepicker/instancepicker.go:1427-1467 | for abandoning the old fetch and opening the new one, or failing to |
| Picker.Model.StartFirstFetch | internal/ui/components/instancepicker/instancepicker.go:1383-1404 | for the start of a race |
| Picker.Model.StartCollect | internal/ui/components/instancepicker/instancepicker.go:1493-1527 | for a collect, refused or started |
| Picker.Model.ToggleWatch | internal/ui/components/instancepicker/instancepicker.go:2341-2353 | for the watch key |
| Picker.Model.OnLogStream | internal/ui/components/instancepicker/instancepicker.go:771-787 | for a batch and the election it may cause |
| Picker.Model.OnLogStreamDone | internal/ui/components/instancepicker/instancepicker.go:792-840 | for the end of a stream |
| Picker.Model.OnInstanceFlushed | internal/ui/components/instancepicker/instancepicker.go:854-890 | for a delivered flush, stale or current |
| Picker.Model.OnLoadReady | internal/ui/ui.go:1167-1178 | for a load that is ready |
| Picker.Model.CancelAllFetches | internal/ui/components/instancepicker/instancepicker.go:1775-1799 | for cancelling everything |
| Picker.Model.OnSnapshotRestore | internal/ui/components/instancepicker/instancepicker.go:897-914 | for restoring a snapshot, rows of unknown CRNs included |
| Picker.Model.EvictCurrentBacking | internal/ui/components/instancepicker/instancepicker.go:536-582 | for deleting the file behind the session |
| Picker.Model.HandleKey | internal/ui/components/instancepicker/keybinds.go:18-94 | for every key |
| Picker.Model.HandleAuth | internal/ui/components/instancepicker/instancepicker.go:937-1058 | for every authentication message |
| Picker.Model.HandleMessage | internal/ui/components/instancepicker/instancepicker.go:771-929 | for every other message |
| Picker.Run | internal/ui/components/instancepicker/instancepicker.go:771-929 | the event loop is, after any events, in the state of the state machine after those events, with its accounting intact |

## Left out

- SafeRuns.BackingsSurvive: is stated for runs in which no name a running pass saw, and no name a headless query may still clean up, is bound again, and no process starts under a pid a claim sweep has found dead; `OnlyStaleRemovals` covers runs with re-used names.
- Protocol.Next: a directory listing of claim files is one step, while scans for targets see one entry a step; the temporary claim file, manual snapshots, `snapshot adopt`, session renames of a backing and deletions from the browser are not modelled.
- Publish.Directory.CreateArchive: encoding the archive and writing its temporary file are one fault; the names of temporary files are given, unused and distinct.
- Publish.Directory.Link: hard links and removals are atomic and fail only without effect; durability across a power loss (fsync) is not modelled.
- ContainerWriter.Sink.Write: the chunks a buffered writer makes of one write are not distinguished, only the prefix that reached the file; closing a container that holds nothing but its header is not modelled.
- Names.Calendar: the calendar behind a time stamp, daylight saving included, is any predicate on 15-character stamps with one dash in the right place.
- Retention.RunPrune: how `prune` and `rm` select targets (kinds, age, keep, selectors) is not modelled here; the protocol lets a pass select any of the names it saw.
- FirstRace.RaceOutcome: a loser may end in Error, Warning or Success, because its callback may have passed its check before the election, so cancelled is not claimed of every loser; token resolution order inside one environment and cancellation of the whole query are left to arbitrary interleaving.
- SignalGate.SignalOrCommit: a removal that the operating system refuses leaves the snapshot, since the code ignores that error; another process binding the same name again belongs to `SafeRuns`.
- Picker.Model: rows are values, so aliasing between the picker and the log viewer is not captured; the store's contents are a log count, and the room a store has for a batch is a parameter; which file backs the session is a parameter of the events that ask for it; a stale load is dropped before it is an event; the archive file a dispatch writes, teardown, session saving and notices are not modelled; epochs and generations do not wrap around.
- Picker.Model.StartCollect: the effective configuration is taken to be the configured rows, whose CRNs the configuration check keeps distinct; an archive's query and per-instance query ids are not modelled.
- FetchPublications.PublishedLosses: counts flushes; logs that are still in a row's store when the container is closed were never handed over, and are no flush.
- FetchCompleteness.FetchComplete: is stated of fetches over which no snapshot with an unwritten size is restored; `FramedThroughout` is exact while the container is open, but a restored size may be gone again by the time of the publication; a frame's own log count is not compared with the declared one.
- ConfigMerge.Node: list elements and scalars are opaque texts; YAML decoding and encoding, the default for `apiKeyEnvVar` and final validation are not modelled.
- ErrorLedger.QueryResult: the counters are unbounded; rendering the ledger as one message is not modelled.
- gzip, JSON and log encoding: frame contents are opaque bytes.
- Network, authentication, 1Password, editor, terminal, drawing, dialogs, completion, logging and path lookup: foreign calls or plumbing.
- Real time: timeouts, redraw ticks and cooldown durations.
