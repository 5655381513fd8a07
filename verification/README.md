# prod-code, verified

A Dafny model of the parts of prod-code that are hard to get right by reading them, with proofs
about every run or every input of each:

- **The supervised gopls connection** (`Connection*.dfy`, `Framing.dfy`, `Health.dfy`). Requests,
  notifications, automatic replies, health probes and the initialize handshake share one stdin, one
  map of pending requests, a liveness flag and a probe slot. `Connection` is a transition system in
  which one action is one atomic load or store, one section under a mutex, or the writing of some
  bytes; a timeout, an error or a cancellation may end every await. The other `Connection…` modules
  prove what holds over all interleavings: the frames on the stream, the routing of answers, that whoever
  waits can still be answered, what clearing the pending map leaves, the probe counters, the activity
  counter and what a counted timeout says about activity; and what each answer, timeout and failure does.
- **Versioned hook deployment** (`Deploy.dfy`, `Installer.dfy`). The file system is a small map of
  names, which primitives fail is an input, the process may die after any of them, and launchers start
  and read at any moment. `Installer` performs the steps in place and records every state it passes;
  `Deploys` runs any number of deploys that succeed, fail or die.
- **Change generations** (`Watch.dfy`). Callbacks take tokens and publish them with `fetch_max`,
  queries load the generation, copy the tree and record what they copied.
- **Position conversion** (`Positions.dfy`): byte offsets and (line, UTF-16 column) pairs, as in
  section "Position" of LSP 3.17.
- **Unified diffs** (`Patch.dfy`, `PatchParse.dfy`, `PatchRead.dfy`, `PatchPrint.dfy`,
  `PatchRoundTrip.dfy`, `Text.dfy`): placing hunks, reading a diff with sections that create, change or
  delete a file, and a printer whose diffs are read back.
- **Token merge and whole-word rename** (`Words.dfy`, `Merge.dfy`), over one notion of identifier.
- **The warming queue** (`Warming.dfy`, `WarmingRuns.dfy`).
- **Binary and text formats** (`Bytes.dfy`, `Cpio.dfy`, `RpmHeader.dfy`, `Report.dfy`): the cpio
  archive and header structure of an RPM package with readers written here, and the exec-shim
  report with its own reader.

`dafny verify dfyconfig.toml` checks everything.

## What the proofs found

- **A launcher that cannot be read can break isolation.** `_is_valid_launcher` answers "no" also when
  reading the hook fails, and the deploy then takes the branch for a fresh installation. Isolation
  is lost if and only if a launcher was misread, its `current` was replaced, the deploy then failed, and
  its rollback removed or damaged the release a launcher may already have resolved (`Deploy`). After a
  single fault the rollback does remove it; `LastStepFails` is the sequence of steps that gets there.
- **A launcher may be written in part.** `os.write` may write less than it was given and the result
  is not looked at; the deploy then succeeds with a hook that is only a prefix of the launcher.
  `Deploy` says `IsLauncher(fs.dest) <==> !short`. This does not itself break isolation: the hook is no
  launcher any more, and every launcher that was started keeps its release.
- **Rollback after one fault is exact but for two cases.** A plain file at `current` is lost once
  `current` was replaced (a directory there is not replaced, and a link is put back), and a store made
  under a launcher that had none stays when the swap fails.
- **A change can be lost to a stale ignore filter** until the periodic sync. Nothing is lost when the
  generation last synced was read under a filter with every ignore edit that generation counts, no
  filter was replaced by one built earlier, and every ignore edit has been notified (`NothingLost`);
  there is a losing run for each condition that fails. One of them needs no overlap at all: the event
  of renaming a file that is not ignored to `.gitignore` names that file first, and the loop over its
  paths ends there, so the filter is not marked dirty (`RenamedIgnoreFileLosesAChange`,
  `VerdictExactly`). From a settled state the next change is lost
  exactly when the filter ignores its path and the files on disk do not (`NextIsLostExactly`). The
  token scheme itself loses nothing (`NoLostChange`).
- **A probe's timeout can be counted although a request was answered while it waited**, when the
  request announced itself between the probe's look at the activity counter and its look at the epoch
  (`CountedDespiteAnAnswer`). Missed are exactly the operations that announce themselves in that window
  and do not leave before it closes (`MissedOnlyBetweenTheLooks`).
- **A request can wait for its timeout after the output has ended**: the one request that had passed
  its check of `is_alive` and registers after the pending map was cleared (`WaitsAfterTheEnd`). There
  is never more than one (`AtMostOneAfterClearing`).
- **Applying a diff changes CRLF line ends everywhere**: `str::lines` drops the CR. A text survives
  splitting and joining exactly when it has no CRLF (`TextSurvivesUnlessCrlf`).

## Model

| member | source | states |
|---|---|---|
| Framing.DecodeEncode | crates/prod-code-engine-go/src/reader.rs:36-37 | A base-protocol reader recovers exactly the framed messages, in order, and keeps a partial last frame apart |
| ConnectionFrames.ApplyKeeps | crates/prod-code-engine-go/src/lsp.rs:106-198 | Every step of every task keeps the invariant that the stream is whole frames and at most one partial frame, and that only the lock's owner may have begun it while the generation is alive |
| ConnectionFrames.FrameIntegrity | crates/prod-code-engine-go/src/lsp.rs:131-158 | At every moment of every run gopls reads exactly the messages written in full and is left with a proper prefix of one frame |
| ConnectionFrames.TornIsDead | crates/prod-code-engine-go/src/types.rs:89-135 | When a begun frame has no writer left, the generation is dead, or its guard still holds the lock and is about to kill it |
| ConnectionFrames.NothingFollowsATornFrame | crates/prod-code-engine-go/src/reader.rs:38-64 | After a torn frame no task ever writes another byte, over the rest of every run |
| ConnectionFrames.AnyPrefixCanBeTorn | crates/prod-code-engine-go/src/reader.rs:52-59 | Torn frames happen: every proper, begun prefix of a frame is the end of the stream in some run |
| ConnectionRouting.PendingEntriesAreInFlight | crates/prod-code-engine-go/src/lsp.rs:119-174 | Each pending entry belongs to the one request in flight that was given its id; ids are not shared; a task that has left by any exit has neither an entry nor the probe slot |
| ConnectionRouting.AtMostOneAnswer | crates/prod-code-engine-go/src/reader.rs:95-138 | A request or probe receives at most one message, with its own id and without a method |
| ConnectionRouting.RunKeeps | crates/prod-code-engine-go/src/reader.rs:66-225 | The routing invariant holds in every reachable state, through answers, timeouts, cancellations, retirement and the end of the output |
| ConnectionAnswers.AnswerReachesItsRequest | crates/prod-code-engine-go/src/reader.rs:99-107 | In every reachable state an answer to a pending request, whatever it says, reaches exactly that request; its entry is gone, the streak of timeouts is broken and nobody else hears of it |
| ConnectionAnswers.OtherMessagesReachNoTask | crates/prod-code-engine-go/src/reader.rs:93-218 | Any other message changes no task, entry or counter; passed on is what has no id or answers nobody known, and a request of gopls's own is replied to even when it has the number of a pending one |
| ConnectionAnswers.AnswerReachesItsProbe | crates/prod-code-engine-go/src/reader.rs:108-137 | The answer to the probe in the slot reaches it, and the counters change by whether it is valid and newer |
| ConnectionAnswers.HeldAnswerIsDelivered | crates/prod-code-engine-go/src/reader.rs:132-134 | Whatever happens in between, a probe whose sender the reader holds finds exactly the message held |
| ConnectionAnswers.RequestIsServed | crates/prod-code-engine-go/src/lsp.rs:106-174 | From every reachable state with a live generation and a free stdin a request can be written, answered with anything, and leave with that answer and everything else as it was |
| ConnectionAnswers.NotificationIsWritten | crates/prod-code-engine-go/src/lsp.rs:177-198 | A notification is written as it is and counts itself out |
| ConnectionAnswers.GoplsIsRepliedTo | crates/prod-code-engine-go/src/reader.rs:140-218 | A request of gopls's own is replied to and then passed on; nobody who waits is touched |
| ConnectionAnswers.ValidAnswerKeepsTheServer | crates/prod-code-engine-go/src/probe.rs:154-155 | A valid answer to the waiting probe leaves the loop sleeping and the flag as it was, with one more piece of evidence and no streak |
| ConnectionAnswers.AnyResultKeepsTheServer | crates/prod-code-engine-go/src/types.rs:187-188 | So does a result of any kind, `null` included |
| ConnectionAnswers.InvalidAnswerRetires | crates/prod-code-engine-go/src/probe.rs:156-166 | An invalid answer clears the flag, the pending map and the slot, and stops the loop |
| ConnectionAnswers.ThirdTimeoutRetires | crates/prod-code-engine-go/src/probe.rs:176-195 | With two counted before it, a timeout logs the decision and retires the generation |
| ConnectionAnswers.EarlierTimeoutsDoNot | crates/prod-code-engine-go/src/probe.rs:176-196 | With fewer it is counted and the loop goes on |
| ConnectionAnswers.RetiredExactly | crates/prod-code-engine-go/src/probe.rs:176-195 | In every run the decision follows a counted timeout if and only if two others came before it with no sign of life since the first |
| ConnectionAnswers.BusyProbeStandsBack | crates/prod-code-engine-go/src/probe.rs:71-78 | A probe that finds activity under the lock changes nothing and the loop goes on |
| ConnectionAnswers.AbandonedProbeStops | crates/prod-code-engine-go/src/probe.rs:167-167 | A probe whose sender was dropped ends the loop |
| ConnectionAnswers.TornProbeRetires | crates/prod-code-engine-go/src/probe.rs:131-146 | A probe that cannot write its frame retires the generation and ends the loop |
| ConnectionAnswers.FailedReplyRetires | crates/prod-code-engine-go/src/reader.rs:187-225 | A reply that fails retires the generation and ends the reader |
| ConnectionAnswers.FailedHandshakeRetires | crates/prod-code-engine-go/src/types.rs:226-237 | A handshake that fails retires the generation |
| ConnectionAnswers.DeadRefusesAtOnce | crates/prod-code-engine-go/src/lsp.rs:111-113 | In a dead generation a request is refused before it counts itself in |
| ConnectionWaiting.WaitingRequestsCanBeAnswered | crates/prod-code-engine-go/src/lsp.rs:138-174 | In every reachable state a request that waits without its answer has its own entry, until the map is cleared for good |
| ConnectionWaiting.WaitingProbesCanBeAnswered | crates/prod-code-engine-go/src/probe.rs:108-154 | A probe that waits without its answer in a live generation is in the slot, or the reader holds its answer |
| ConnectionWaiting.LoopStopsOnlyWhenDead | crates/prod-code-engine-go/src/probe.rs:131-198 | The probe loop never stops on a live generation and runs one probe at a time |
| ConnectionClearing.AtMostOneAfterClearing | crates/prod-code-engine-go/src/reader.rs:220-225 | Once the pending map was cleared, by retirement, a torn frame or the end of the output, it never holds more than one entry again |
| ConnectionClearing.LateEntryStraddles | crates/prod-code-engine-go/src/lsp.rs:135-139 | Such an entry belongs to a request that had found the generation alive before and registered after the clearing |
| ConnectionClearing.StraddlerRegisters | crates/prod-code-engine-go/src/lsp.rs:135-139 | And every request that stands at its registration when the map has been cleared makes, with its next step, the only entry there is |
| ConnectionClearing.WaitsAfterTheEnd | crates/prod-code-engine-go/src/reader.rs:220-225 | There is such a run: the output has ended, everything was cleared, and a request waits with its sender in the map |
| ConnectionMessages.WaitingMeansAsked | crates/prod-code-engine-go/src/lsp.rs:119-158 | A request or probe that waits has its message, with the id its answer is routed by, among those gopls reads from the stream |
| ConnectionProbes.RetiredAfterThreeTimeouts | crates/prod-code-engine-go/src/probe.rs:168-197 | The timeout branch retires the server only after three counted timeouts with no answered request and no valid probe answer since the first of them |
| ConnectionProbes.CountedProbesSawNoChange | crates/prod-code-engine-go/src/probe.rs:89-94 | Between a counted probe's two looks at the epoch no ordinary operation announced itself, and from its look at the evidence to the count no valid probe answer was seen |
| ConnectionIdle.CountedProbesSawNoActivity | crates/prod-code-engine-go/src/probe.rs:72-78 | A probe during which activity or loading is observed is never counted: both looks at the activity counter found zero, with no operation under way then, both looks at the readiness found it idle, and nothing was pending |
| ConnectionIdle.MissedOnlyBetweenTheLooks | crates/prod-code-engine-go/src/probe.rs:168-175 | An operation is under way at some time between a counted probe's look at the epoch and its last look at the activity counter if and only if it announced itself between the first look at that counter and the look at the epoch and had not left by then |
| ConnectionIdle.CountedDespiteAnAnswer | crates/prod-code-engine-go/src/probe.rs:71-94 | There is such a run: the request is answered while the probe waits, and the timeout is counted |
| ConnectionProbes.CompletionsBelowIssued | crates/prod-code-engine-go/src/reader.rs:123-131 | `valid_completions <= latest_valid_sequence < next_probe_id`, and the timeout counter is the streak of counted timeouts since the last sign of life |
| ConnectionProbes.ProbeTrafficStaysPrivate | crates/prod-code-engine-go/src/reader.rs:108-138 | No message without a method that carries the id of an issued probe is passed on, however late or repeated |
| ConnectionActivity.ActivityIsBalanced | crates/prod-code-engine-go/src/types.rs:29-51 | The activity counter is the number of ordinary operations under way in every reachable state, so no exit leaks a count |
| Health.HealthSequenceExact | crates/prod-code-engine-go/src/types.rs:164-175 | An id reads as probe `sequence` if and only if it is the printed id of that issued probe |
| Health.AnswersAreValid | crates/prod-code-engine-go/src/types.rs:177-198 | An object with the version, the probe's id and a result of any kind, or an error with a 64-bit code and a message, is a valid answer, whatever else is in it |
| Health.OnlyAnswersAreValid | crates/prod-code-engine-go/src/types.rs:177-198 | Nothing else is: not with a method, another id or version, both or neither of result and error, or another kind of error |
| Health.HealthIdInjective | crates/prod-code-engine-go/src/probe.rs:94-95 | Different probes have different ids |
| Installation.Deploys | scripts/hooks/hook_deploy.py:191-203 | Over any number of deploys that succeed, fail or die at any step, every launcher that starts, reads `current` once and then opens files gets all of them from one complete release, unless the last deploy was harmful: it could not read the launcher, replaced `current` and failed, and it is harmful whenever that was its one fault. The reports account for the whole record: each deploy begins where the one before it ended and succeeds exactly without a fault, which delivers its bundle; when no primitive fails it succeeds exactly for a whole source with no directory at `current` or at the hook; and one fault leaves the restored disk. Only after a harmful deploy or a launcher written short over one that was misread do the deploys stop early |
| Installation.Installer.Deploy | scripts/hooks/hook_deploy.py:206-249 | From any disk: isolation in the whole record, and wherever the process dies, if and only if it is not the case that a launcher was misread, its `current` replaced, and a failed deploy took the release away again, which after a single fault it does; when no primitive fails it succeeds if and only if the source has every component, none empty, and no directory is at `current` or at the hook; success, which is the absence of faults, activates the complete bundle and leaves a good installation; the launcher is short if and only if one is written and not in full; after one fault everything is as before but for a plain `current` that was replaced and a store made under a launcher; after any number of faults the hook is what it was and runs what it ran |
| Installation.Installer.Stage | scripts/hooks/hook_deploy.py:145-188 | When no primitive fails staging succeeds if and only if the source has every component, none empty; it adds exactly the complete release directory or, on a single fault, leaves the store as it was; more faults leave only its own entries behind |
| Installation.Installer.SwapVersion | scripts/hooks/hook_deploy.py:223-231 | With the launcher in place one link swap activates the release; a fault takes the release away again |
| Installation.Installer.InstallFresh | scripts/hooks/hook_deploy.py:232-249 | Putting a launcher in place succeeds as a whole or, on a single fault, takes back the link, the temporary files and the release; under a launcher that was misread all is well up to the moment at which the rollback touches the release, and a launcher had resolved that release |
| Installation.RolledBack | scripts/hooks/hook_deploy.py:241-246 | From every unfinished state the rollback steps lead to the store as it was, less a plain file that was at a replaced `current` |
| Installation.Installer.LastStepFails | scripts/hooks/hook_deploy.py:232-249 | The steps of a deploy whose last one fails, in order: they end in the restored disk, a plain `current` is gone, and under a launcher isolation is lost |
| Watch.NoLostChange | crates/prod-code-mcp/src/watch.rs:44-55 | A copy made after reading generation `g` holds every change with a token up to `g`, and a change it lacks makes the generation exceed `g` once its callback has ended, in whatever order callbacks publish |
| Watch.NotDueMeansInSync | crates/prod-code-mcp/src/watch/lifecycle.rs:240-261 | When no sync is due, the last recorded copy holds every change whose callback has published a token |
| Watch.StaleFilterLosesAChange | crates/prod-code-mcp/src/watch.rs:91-168 | A losing run in which an ignore edit is published between a query's look at the dirty flag and its look at the generation |
| Watch.LostOnlyThroughTheFilter | crates/prod-code-mcp/src/watch.rs:101-126 | When no sync is due, a notified change that the last copy lacks is one the filter dropped |
| Watch.NothingLost | crates/prod-code-mcp/src/watch.rs:91-168 | No notified change is lost when the generation last synced was read under a filter with every ignore edit it counts, no filter was replaced by an older one, and every ignore edit is notified |
| Watch.FilterIsRight | crates/prod-code-mcp/src/watch.rs:155-168 | Under these conditions the filter in force is the one the files on disk say |
| Watch.NextIsLostExactly | crates/prod-code-mcp/src/watch.rs:101-126 | In a settled state with no sync due, the next change is lost if and only if the filter ignores its path and the files on disk do not |
| Watch.VerdictExactly | crates/prod-code-mcp/src/watch.rs:105-122 | The loop over an event's paths marks the filter dirty if and only if it names an ignore file and every path before it is ignored, and drops the event if and only if all its paths are |
| Watch.RenamedIgnoreFileLosesAChange | crates/prod-code-mcp/src/watch.rs:105-122 | A losing run without any overlap: a file that is not ignored is renamed to the ignore file |
| Watch.RebuildingLosesAChange | crates/prod-code-mcp/src/watch.rs:155-168 | A losing run in which one query is still rebuilding the filter when another finds the flag clean |
| Watch.OlderFilterLosesAChange | crates/prod-code-mcp/src/watch.rs:155-168 | A losing run in which a query installs a filter older than the one in force |
| Watch.UnnotifiedEditLosesAChange | crates/prod-code-mcp/src/watch.rs:91-126 | A losing run in which an ignore edit has not been notified |
| Watch.PeriodicSyncFindsIt | crates/prod-code-mcp/src/watch/lifecycle.rs:240-248 | When the interval is over a sync is due whatever the generation says, and it copies the whole tree |
| Watch.UnknownEventsCount | crates/prod-code-mcp/src/watch.rs:97-100 | An error of the watcher, or an event that names no path, raises the generation |
| Watch.RecordedExactly | crates/prod-code-mcp/src/watch/lifecycle.rs:254-263 | A copy is recorded if and only if no change was published since its generation was read |
| Positions.OffsetToLineCol | crates/prod-code-engine-rust/src/vfs.rs:106-127 | The position of the first character at or after the offset, by line breaks before it and UTF-16 units since its line start |
| Positions.LineColToOffset | crates/prod-code-engine-rust/src/vfs.rs:54-104 | The offset of the character at the position, and nothing if and only if there is none |
| Positions.OffsetRoundTrip | crates/prod-code-engine-rust/src/vfs.rs:54-127 | From a character boundary outside a CRLF to a position and back is the identity |
| Positions.PositionRoundTrip | crates/prod-code-engine-rust/src/vfs.rs:54-127 | From a position to an offset and back is the identity on exactly the positions of characters |
| Positions.PositionInjective | crates/prod-code-engine-rust/src/vfs.rs:106-127 | Different characters have different positions |
| Positions.SurrogateHalvesHaveNoPosition | crates/prod-code-engine-rust/src/vfs.rs:83-91 | The column between the halves of a surrogate pair is on no character |
| Positions.PastTheEndHasNoPosition | crates/prod-code-engine-rust/src/vfs.rs:68-91 | A column past the end of its line is on no character, whatever follows |
| Patch.FindNearest | crates/prod-code-mcp/src/patch.rs:194-209 | The nearest fitting place at or after the floor, the lower on ties; nothing if and only if none fits |
| Patch.ApplyHunks | crates/prod-code-mcp/src/patch.rs:181-224 | Each hunk is where it lands in the file left by those before it, and the call fails exactly at the first hunk without a place |
| Patch.PlacedUnique | crates/prod-code-mcp/src/patch.rs:203-209 | The places of a list of hunks are determined by the file |
| Patch.HunksReplaceInOrder | crates/prod-code-mcp/src/patch.rs:181-224 | With non-empty old sides the file is the old sides, in order, in stretches that survive unchanged, and the outcome has the new sides in their stead: no hunk rewrites what an earlier one inserted |
| Patch.ExactApplication | crates/prod-code-mcp/src/patch.rs:175-230 | Hunks that name disjoint stretches at their true lines replace exactly these, whatever shift and search do, and the last line's newline is as the last hunk says |
| Patch.ExactOutcome | crates/prod-code-mcp/src/patch.rs:175-230 | On such hunks the program's loop never fails and its outcome is that replacement |
| Patch.ApplyText | crates/prod-code-mcp/src/patch.rs:175-230 | The same from text to text, trailing newline included |
| Patch.TextSurvivesUnlessCrlf | crates/prod-code-mcp/src/patch.rs:176-177 | Splitting a text and putting it together again gives it back if and only if it has no CRLF |
| PatchRead.ParseDiff | crates/prod-code-mcp/src/patch.rs:94-172 | The parser's loop reads what the recursive definition of sections and hunks reads, deletions and error cases included |
| PatchRead.ParseDeletion | crates/prod-code-mcp/src/patch/deletion.rs:18-80 | The loop over a deletion's hunks reads what the recursive definition reads |
| PatchRead.DeletionCoversFile | crates/prod-code-mcp/src/patch/deletion.rs:49-56 | Whatever deletion is accepted, its hunks remove a whole file, in order and without a gap |
| PatchRead.DeletionRoundTrip | crates/prod-code-mcp/src/patch/deletion.rs:83-110 | Reading the printed deletion of a text, in any number of hunks, with counts of 1 left out, headings and blank lines between, gives hunks whose preimage is exactly that text, carriage returns and missing newline included |
| PatchRead.AnyTextIsDeleted | crates/prod-code-mcp/src/patch/deletion.rs:83-110 | Every text has such a deletion |
| PatchRead.LinesDecide | crates/prod-code-mcp/src/patch.rs:94-172 | On a diff that deletes no file only the lines count, not how each of them ends |
| PatchRead.RawsAreLines | crates/prod-code-mcp/src/patch.rs:87-96 | The raw lines of a text, without their line ends, are those of `str::lines` |
| PatchRead.ReadHunkBody | crates/prod-code-mcp/src/patch.rs:130-163 | The loop over a hunk's lines ends where the counts end the hunk |
| PatchPrint.BodyReads | crates/prod-code-mcp/src/patch.rs:130-163 | After a printed body the reader is exactly at the line after it, also when body lines look like headers |
| PatchPrint.HeaderReads | crates/prod-code-mcp/src/patch.rs:66-86 | A printed hunk header, with a count of 1 written or left out on either side and any heading, reads back its start and both counts |
| PatchPrint.CountReads | crates/prod-code-mcp/src/patch.rs:70-74 | A count is read with blanks around it |
| PatchPrint.PathReads | crates/prod-code-mcp/src/patch.rs:52-64 | A path is read back from every form: with `a/`, `b/` or neither, blanks around it, a tab and a timestamp after it; `/dev/null` is none |
| PatchPrint.UncountedBodyReads | crates/prod-code-mcp/src/patch.rs:130-163 | Without readable counts a body goes on to the first line without a tag |
| PatchRoundTrip.DiffTextRoundTrip | crates/prod-code-mcp/src/patch.rs:53-172 | Reading the text of a printed diff whose sections change, create and delete files in any order gives back paths, hunk starts, tagged lines and no-newline flags, and of each deleted file its exact text, whatever precedes the sections, whatever form headers and paths have, and with stripped context lines |
| PatchRoundTrip.ApplyDiff | crates/prod-code-mcp/src/patch.rs:94-230 | From the text of a diff and a file to the new file: hunks at their true lines replace exactly their stretches |
| Words.Tokenize | crates/prod-code-mcp/src/rename_accessors.rs:45-62 | The tokens spell the text, each is one character or a whole identifier, and none could be longer |
| Words.TokensOfConcat | crates/prod-code-mcp/src/rename_accessors.rs:42-62 | Tokens that could not be longer are the tokens of the text they spell, so that reading is the only one |
| Words.ReplaceWord | crates/prod-code-mcp/src/rename_mentions.rs:41-61 | For an identifier the scan equals renaming the matching tokens, and the count is their number |
| Words.RenameAndBack | crates/prod-code-mcp/src/rename_mentions.rs:41-61 | Renaming to an identifier the text does not have, and back, is the identity, with equal counts |
| Merge.MergeEdits | crates/prod-code-mcp/src/rename_accessors.rs:78-101 | Union, sort, neighbour test and reverse splicing give nothing when two edits conflict and otherwise the base with all edits made at once |
| Merge.AllAtOnceIsPatched | crates/prod-code-mcp/src/rename_accessors.rs:96-100 | Deciding token by token equals making the edits from left to right |
| Merge.SpliceAll | crates/prod-code-mcp/src/rename_accessors.rs:96-99 | Splicing in place from the last edit to the first makes all edits at once |
| Merge.NeighboursSuffice | crates/prod-code-mcp/src/rename_accessors.rs:87-95 | The test on neighbours refuses if and only if some two of the edits conflict |
| Merge.RefusedExactly | crates/prod-code-mcp/src/rename_accessors.rs:76-95 | A merge is refused if and only if an edit of one side conflicts with a different edit of the other |
| Merge.WholeIsDiff | crates/prod-code-mcp/src/rename_accessors.rs:65-73 | The promise made of a diff can be kept: replacing everything keeps it |
| Merge.MergeThree | crates/prod-code-mcp/src/rename_accessors.rs:78-101 | The same from text to text |
| Merge.MergeLaws | crates/prod-code-mcp/src/rename_accessors.rs:76-101 | Swapping the sides changes nothing; merging with the base or with itself gives the other side |
| Warming.Jobs.Enqueue | crates/prod-code-gateway/src/priming.rs:45-58 | Starts a job exactly when none runs; otherwise the queue becomes the last 20 distinct files of its old contents and the request, by last request |
| Warming.Jobs.NextBatch | crates/prod-code-gateway/src/priming.rs:62-70 | Hands over the whole queue and empties it, or ends the job exactly when there is none |
| Warming.LatestOnline | crates/prod-code-gateway/src/priming.rs:51-56 | Cutting the queue after every call gives what cutting the whole history once would |
| Warming.KeptExactly | crates/prod-code-gateway/src/priming.rs:43-56 | A file is in the queue if and only if fewer than 20 others were asked for since its last request |
| WarmingRuns.AtMostOneJob | crates/prod-code-gateway/src/priming.rs:123-142 | In every run at most one job runs for a workspace, and one does exactly when the workspace is in the table |
| WarmingRuns.QueueIsHistory | crates/prod-code-gateway/src/priming.rs:45-70 | In every run the queue is the last 20 distinct files asked for since the last batch |
| WarmingRuns.NoRequestLost | crates/prod-code-gateway/src/priming.rs:123-142 | In every run a file asked for is in the next batch, or queued for a job that still runs, or overtaken by 20 others |
| WarmingRuns.DrainsInTwoRounds | crates/prod-code-gateway/src/priming.rs:133-140 | Without new requests a job takes all that waits and ends within two rounds |
| Cpio.Hex8Reads | scripts/packaging/package-rpm.py:41-54 | A number fills its eight-digit field if and only if it is below 2^32, and is read back |
| Cpio.FieldsWidth | scripts/packaging/package-rpm.py:39-55 | The header has its fixed length if and only if every number fits |
| Cpio.ArchiveRoundTrip | scripts/packaging/package-rpm.py:28-84 | Reading a concatenation of entries and the trailer gives back the files, whatever their names and contents |
| Cpio.ArchiveAligned | scripts/packaging/package-rpm.py:57-60 | Every entry and the archive are multiples of four bytes long |
| Cpio.RelPathIs | scripts/packaging/package-rpm.py:30-34 | A path that does not begin with `./` is put below it without the slashes it begins with |
| Cpio.BuildArchive | scripts/packaging/package-rpm.py:188-198 | The loop that fills the archive produces one that reads back as the files with inodes from 1, begins with the magic number and ends with the trailer's name |
| RpmHeader.InPlace | scripts/packaging/package-rpm.py:140-153 | Each entry's data is where its offset says and inside the store, at the first multiple of 2, 4 or 8 after the data before it for numbers of 16, 32 and 64 bits and at once for other types, with zeros between |
| RpmHeader.HeaderIsLaidOut | scripts/packaging/package-rpm.py:131-160 | Byte by byte: the magic, the number of entries and the size of the store, the tag, type, offset and count of each entry, the alignment and the padding |
| RpmHeader.Disjoint | scripts/packaging/package-rpm.py:140-153 | No two entries share a byte of the store |
| RpmHeader.LayOut | scripts/packaging/package-rpm.py:135-160 | The loop gives the header of the entries, and fails exactly when a number does not fit 32 bits |
| RpmHeader.Builder.Build | scripts/packaging/package-rpm.py:131-160 | What it returns is laid out like that and decodes to the items added, in ascending order of their tags; it fails exactly when a number does not fit 32 bits |
| RpmHeader.SortIsStable | scripts/packaging/package-rpm.py:133-133 | The sort keeps entries of one tag in the order they were added |
| RpmHeader.HeaderRoundTrip | scripts/packaging/package-rpm.py:131-160 | Decoding the header of any items with NUL-free strings gives them back, 32-bit numbers as they were cut |
| RpmHeader.BuiltHeaderReads | scripts/packaging/package-rpm.py:131-160 | What is built decodes to the same items in ascending order of tags, strictly when no tag is used twice |
| Report.ParseReport | crates/prod-code-gateway/src/exec_shim.rs:164-185 | The loop accepts exactly the terminated lines whose fields are all readable and gives the last value of each key |
| Report.ReportRoundTrip | crates/prod-code-gateway/src/exec_shim.rs:154-185 | Reading a report gives back every status and usage |
| Report.FormatIs | crates/prod-code-gateway/src/exec_shim.rs:154-159 | The text of the line |
| Report.CodeExactly | crates/prod-code-gateway/src/exec_shim.rs:252-256 | A raw status has the exit code of a command that ended by itself and none for one that a signal ended |
| Report.OutcomeExactly | crates/prod-code-gateway/src/exec_shim.rs:246-274 | What the outcome is with a report, without one, for the shim, on a timeout, and for the shim's own exit code 74 |
| Report.PrefixRejected | crates/prod-code-gateway/src/exec_shim.rs:162-165 | No proper prefix of a report is a report |
| Report.TornReportIsNoReport | crates/prod-code-gateway/src/exec_shim.rs:246-274 | However much of its report the shim has written, the outcome is the report's when it is whole and otherwise what it is without one |

## Left out

- Spawning and killing processes, sockets, clocks and scheduling: steps that may happen at any time.
- Readiness of gopls (`readiness.wait`, `busy()`): an arbitrary boolean at each look.
- Dropping the engine while its probe or reader runs (`Weak::upgrade` failing, task abort): the model's engine outlives its tasks.
- Wrap-around of `u64` counters (request ids, epochs, generations): unbounded numbers.
- The capabilities map that retirement clears, and the shape check of the initialize response.
- The probe's look at activity, readiness and the pending map before `try_lock`: a filter in front of the same look under the lock; the model lets every probe try.
- `crates/prod-code-engine-generic`: the same request and probe protocol.
- The rest of the launcher script (`sys.path`, `sys.modules`, its namespace): the model has its reads of `current` and of the release; `LAUNCHER` stands for its bytes.
- Permissions other than "executable", and file contents other than as opaque text.
- `check_canonical_hook_bundle`: it only reads.
- Installation.Deploys: a deploy whose made-up suffix is already in use does not run; the program relies on the process id and random digits in it.
- Applying a diff to files on disk, and the fallback to the text in Git.
- Myers diff: any function whose scripts turn the base into the changed text, in order, and are empty when nothing changed.
- `is_alphanumeric`: the parameter `id`.
- Texts of 2^32 bytes and more, which `TextSize` cannot hold.
- A warming job whose task panics, and the warming itself.
- Cpio.ArchiveRoundTrip: numbers below 2^32 only; `Cpio.FieldsWidth` says that larger ones break the fixed header length.
- Order of the files in the archive, compression, digests, the RPM lead and signature padding.
- UTF-8 encoding: names and strings are bytes in the binary formats, one `char` a byte in frames.
- `test_name`, `snake`, `accessor_names`, the Rust syntax tree and everything else in the repository: easy members or plumbing.
