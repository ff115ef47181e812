# Verified model of the replay server's merging core

Several players of one game send the same replay, each over a connection of their own. The server
merges these writer replays into one canonical replay C, with a delay, and hands C to any number of
readers. This project models that core in Dafny and proves what it promises, from the chunked buffers
up to the life of a whole replay.

## How the model is laid out

| file | what it models |
|---|---|
| `Bytes`, `CommonPrefix` | bytes, word bounds; what comparing two chunked logs computes, as a function of the logs |
| `BufDeque`, `BufTraits` | the chunked sliding window (real arrays) and comparing, iterating and reading over it, as refinements of an append-only log |
| `WriterReplay`, `MergedReplay`, `Event` | the replay of one connection, the canonical replay, its readers and their wakers |
| `OutputMachine` | C with its readers as a state machine; prefix consistency and no lost wake-up over all runs |
| `QuorumMachine` | the quorum merge strategy as a state machine on values, with connections that change replays between callbacks |
| `QuorumInvariant` | the invariant of every reachable state |
| `QuorumTheorems` | what holds of whole runs: nothing is taken back, finishing is safe, a common stream is kept whole, switching terminates |
| `QuorumMatching` | which replays agree with C, how far back and for which quorums; that C is one sent replay; the support of what is appended |
| `QuorumDecisions` | each decision of the strategy in elementary terms: which bytes are compared, where a replay goes, when a stalemate ends, which byte and which members win, what is merged, when merging starts |
| `QuorumProgress` | that a switch that is due can be made, and what a settled state waits for |
| `QuorumDelays`, `QuorumMemory` | how C's delayed position follows the quorum; how much of each replay is kept |
| `QuorumLimits`, `QuorumOverrun`, `QuorumMismatch`, `ClippedPrefix` | concrete runs in which a promise of the comments fails, and the exact conditions |
| `QuorumUpdates` | how the loops of the strategy add up to steps of the machine, and callbacks to runs |
| `SharedState`, `QuorumStrategy` | the strategy as a class over shared, mutable replay objects, refining the machine |
| `ReplayDelay` | the delay line and its update loop |
| `HeaderFormat`, `ReplayHeader` | the header format, its exact language, and the streaming parser |
| `ReplayMerger` | what connections do between two awaits, in any interleaving, with the run of the machine as a ghost history; what readers end up with |
| `EmptyCounter`, `ReplayLifetime` | waiting for a count to stay zero; the life of a replay and the protocol its strategy sees |

Code that changes objects in place is modelled by classes with the same fields and methods. Each method
is proved against a function on values (`View`, `log`), and the long-range properties are proved about
those functions and about runs. Code between two awaits is atomic, so that every method of
`ReplayMerger` and `Replay` that starts and ends in `Valid()` (or `Ready()`) is one step of one task, the
others are parts of such steps, and any interleaving of tasks is a sequence of such calls. Iteration over hash sets and ties in sorting are nondeterministic choices.

The central chain of results:

1. `QuorumMergeStrategy` refines the merge machine: every callback ends in a state that the machine
   reaches by that callback followed by switches between stalemate and quorum until none is due. On the
   way no buffer is read outside its window, so that no assertion of the buffers can fire.
2. Every reachable state of the machine satisfies the invariant of `QuorumInvariant`, for every quorum
   size of at least one and every comparison distance.
3. `ReplayMerger` owns the connections and records the run it is in. `ReaderGetsHeaderAndData` and
   `ReaderGetsHeaderAndLongest` then say, of the real objects and in every run, what a reader who is told of
   the end has received: the header of some connection, followed by all data that was taken off some
   connection, not necessarily the same. Headers need not be equal and connections may have been cut off.
   The first needs a quorum of one or two and a comparison distance that covers all but the last byte of
   data. The second needs all data to follow one stream, holds for every quorum size and distance, and
   gives the longest of that data. `CopyToEnd` shows that a reader gets there.

## Where the code differs from its comments

* `common_prefix_from_to` does not clip chunks to `end` (src/util/buf_traits.rs:36-45), so that the
  result can pass `end`; `PrefixPassesEndExactlyWhen` says exactly when. In `calculate_quorum_prefix` a
  later member can therefore raise the prefix again once there are three members, and C can end up equal
  to no sent replay (`OverrunIsMerged`). `ClippedPrefix` proves the clipped computation right for any size.
* "All replays in Q match C" (src/replay/receive/quorum_merge_strategy.rs:353): for a bound on the length
  of a replay, this is so in all reachable states if and only if the comparison distance covers all but
  the last byte and the quorum size is at most two or no replay exceeds two bytes
  (`ActiveMatchExactlyWhen`). With a shorter distance members still match the part of C that is compared,
  for a quorum of one or two (`RecentDataMatches`; `MarksAreTrueExactlyWhen` is the exact condition).
* "C is equal to one of sent replays" (src/replay/receive/quorum_merge_strategy.rs:597-602) also needs
  the comparison distance to cover all but the last byte of every replay (`LateStrangerIsMerged`).
  `SentExactlyWhen` gives the exact condition for every bound on the length of a replay.
* What is appended has the support that the third claim relies on
  (src/replay/receive/quorum_merge_strategy.rs:604-614) if and only if the quorum size is at most two or no
  replay exceeds two bytes (`SupportedExactlyWhen`).
* "C's delayed position is equal to a minimum" (src/replay/receive/quorum_merge_strategy.rs:354-356) is
  not exact, because C's delayed position never moves back: `DelayedExceedsMinimum` is a reachable
  state in which it is past the minimum. `DelayedIsMinimumExactlyWhen` says what it is at every moment of
  a quorum, and when that is the minimum.
* With a quorum size of zero the first report trips the assertion at
  src/replay/receive/quorum_merge_strategy.rs:459 (`ZeroQuorumIsStuck`). With a quorum size of at least one
  a switch that is due can always be made (`NeverStuckExactlyWhen`); everything else takes it to be so.
* "Replays in Cand are exactly those that match C and are strictly longer" and "Replays in Res are no
  longer than C" (src/replay/receive/quorum_merge_strategy.rs:182-185) ignore changes not reported yet: they
  are stated for what has been shown of a replay (`CandidatesAreExactly`). That candidates match C has the
  condition of `ActiveMatchExactlyWhen`.
* `PositionHistory` returns the first length pushed at once, so that the delay is kept only from the
  moment the queue is full (`ReturnedLengthIsOldEnough`).

## Model

| member | source | states |
|---|---|---|
| BufDeques.BufDeque.Discard | src/util/buf_deque.rs:49-60 | the discard mark moves to the last chunk boundary at or before the argument, also past the end of the data, never back and never beyond the largest word; no byte of the log changes |
| BufDeques.BufDeque.GetLastChunk | src/util/buf_deque.rs:37-47 | the returned chunk is the last one and has room for the next byte; a chunk is added exactly when the last one is full |
| BufDeques.BufDeque.AppendSome | src/util/buf_deque.rs:62-83 | takes a prefix of the buffer, which the log grows by; a nonempty one, and when not all then up to a chunk boundary; bytes before the discard mark are counted; the number taken is what fills up to that boundary |
| BufDeques.BufDeque.WriteAll | src/util/buf_deque.rs:105-113 | repeated appends terminate and consume the whole buffer: the log grows by exactly the buffer |
| BufDeques.BufDeque.GetChunk | src/util/buf_deque.rs:91-102 | inside the window the chunk is the nonempty slice of the log up to the next chunk boundary or the end |
| CommonPrefix.PrefixIsBytewise | src/util/buf_traits.rs:20-46 | the result lies inside both logs, all before it is equal, and it stops short of lengths and `end` only at a difference |
| CommonPrefix.PrefixIsLongest | src/util/buf_traits.rs:20-46 | when `end` is absent or not below the shorter length, the result is exactly the longest common prefix |
| CommonPrefix.PrefixPassesEndExactlyWhen | src/util/buf_traits.rs:29-46 | the result exceeds `end` exactly when the comparison starts before it, `end` is inside both logs and off chunk boundaries, and the logs agree at `end` too |
| BufTraits.CommonPrefixFromTo | src/util/buf_traits.rs:29-46 | the chunk-by-chunk comparison of two windows computes that function of the logs, without touching discarded data |
| BufTraits.EqualLength | src/util/buf_traits.rs:39 | number of leading bytes that two chunks share |
| BufTraits.At | src/util/buf_traits.rs:48-51 | the byte at a position inside the window |
| BufTraits.IterChunks.Next | src/util/buf_traits.rs:67-81 | yields the log up to the next multiple of 4096 or the end position and moves past it; yields nothing exactly at the end |
| BufTraits.ReadAt | src/util/buf_traits.rs:86-97 | a read returns as much of the log as fits the buffer, up to the next multiple of 4096; nothing only at the end or for an empty buffer |
| BufTraits.ReadAtCursor.ReadToEnd | src/util/buf_traits.rs:105-122 | reads into a nonempty buffer until nothing comes deliver exactly the rest of the log |
| WriterReplays.WriterReplay.SetDelayedDataLen | src/replay/streams/writer_replay.rs:61-64 | the assertion that the delayed position never moves back is a precondition every caller meets |
| WriterReplays.WriterReplay.DiscardAll | src/replay/streams/writer_replay.rs:70-72 | everything written so far and later is discarded, the length still counts it |
| MergedReplays.MergedReplay.AddData | src/replay/streams/merged_replay.rs:98-107 | C grows by exactly the writer's bytes from the end of C up to `until`, with no gap or repeat across chunk boundaries |
| MergedReplays.MergedReplay.GetChunk | src/replay/streams/merged_replay.rs:44-62 | a nonempty piece of header followed by visible data, ending where one read ends |
| MergedReplays.MReplayReader.PollRead | src/replay/streams/merged_replay.rs:139-163 | one poll parks the task, ends the stream or delivers the next bytes, as the output machine says |
| Events.Event.Notify | src/util/event.rs:23-27 | every registered waker is woken and none stays registered |
| OutputMachine.PollOfHeader | src/replay/streams/merged_replay.rs:44-62 | a poll before the end of the header delivers as much of the rest of it as the buffer takes |
| OutputMachine.PollOfData | src/replay/streams/merged_replay.rs:44-62 | behind it a poll delivers as much as the buffer takes up to the next multiple of 4096 or the delayed position, and from there on the end if C is finished, or nothing yet |
| OutputMachine.WakesExactly | src/replay/streams/merged_replay.rs:79-120 | a new header, a new delayed position and the end wake everyone who waits; new data, joining, leaving and polls wake nobody |
| OutputMachine.VisibleGrows | src/replay/streams/merged_replay.rs:79-120 | whatever happens to C, what was visible stays in place; after the end nothing changes |
| OutputMachine.StepKeepsOutput | src/replay/streams/merged_replay.rs:79-163 | every step of C or of a reader keeps prefix consistency and the wake-up property |
| OutputMachine.ReadersFollowTheStream | src/replay/streams/merged_replay.rs:122-163 | in every run every reader, whenever it joined, holds a prefix of header and visible data, has seen the end only with all of C, and a parked reader that is not woken is registered and has nothing to read |
| OutputMachine.ReceivedIsFinal | src/replay/streams/merged_replay.rs:139-163 | what a reader had at any moment is a prefix of header and data of the last state, and all of it if it had been told of the end |
| QuorumInvariant.EvolveKeepsCore | src/replay/receive/merge_strategy.rs:13-22 | connections may append, advance a delayed position or finish between callbacks without breaking what the strategy relies on, and without making a switch due |
| QuorumInvariant.JudgeIsSound | src/replay/receive/quorum_merge_strategy.rs:237-264 | a replay that is dropped is refuted by C; one that is filed agrees with C on all that was compared, is longer than C and has kept the byte it is filed under |
| QuorumInvariant.PlaceKeepsCore | src/replay/receive/quorum_merge_strategy.rs:217-264 | moving replays out of the reserve keeps the invariant; of those tried, only unfinished ones stay that are shown no further than C |
| QuorumInvariant.QuorumPrefixInRange | src/replay/receive/quorum_merge_strategy.rs:458-478 | the quorum prefix lies between the end of C and the end of the shortest member, for any number of members |
| QuorumInvariant.ExitExtendsCanon | src/replay/receive/quorum_merge_strategy.rs:308-335 | resolving a stalemate lengthens C by at least the agreed byte and keeps it within every member |
| QuorumInvariant.AfterExitOk | src/replay/receive/quorum_merge_strategy.rs:308-335 | each replay is left fit for the set it goes to: members marked up to the end of C and as long as it, reserve replays with all a later check reads, the others refuted |
| QuorumInvariant.ExitKeepsCore | src/replay/receive/quorum_merge_strategy.rs:308-388 | resolving a stalemate and building the quorum keeps the invariant |
| QuorumInvariant.FlipKeepsInv | src/replay/receive/quorum_merge_strategy.rs:431-436 | a switch in either direction leaves a state in which nothing is unreported |
| QuorumInvariant.StepKeepsInv | src/replay/receive/quorum_merge_strategy.rs:525-585 | every callback, switch and change by a connection keeps the invariant, for every quorum size and distance |
| QuorumInvariant.RunInvariant | src/replay/receive/quorum_merge_strategy.rs:180-206 | in every reachable state each id is in exactly one of Q or Cand, Res and dropped; every Cand byte is that replay's next byte; candidates and members are as long as C and marked up to its end; a dropped replay differs from C or is finished and no longer; in a stalemate replays in Res are unfinished and shown no further than C; windows still hold what later checks read |
| QuorumTheorems.RunOnlyGrows | src/replay/receive/quorum_merge_strategy.rs:145-160 | C, its delayed position and all replays only grow, and a dropped replay stays dropped and refuted for the rest of the run |
| QuorumTheorems.CanonChangesAtExit | src/replay/receive/quorum_merge_strategy.rs:308-335 | C changes only when a stalemate is resolved |
| QuorumTheorems.SettledIsReady | src/replay/receive/quorum_merge_strategy.rs:558-583 | when all replays are complete and no switch is due, the state is a stalemate with Cand and Res empty and C fully visible |
| QuorumTheorems.FinishIsSafe | src/replay/receive/quorum_merge_strategy.rs:558-585 | in every run in which all replays are finished and removed and no switch is due, `finish` neither panics nor trips an assertion |
| QuorumTheorems.FinishedRun | src/replay/receive/quorum_merge_strategy.rs:597-602 | when C is finished every replay is complete, dropped and refuted |
| QuorumTheorems.CommonStreamIsKeptWhole | src/replay/receive/quorum_merge_strategy.rs:597-602 | when all writers send prefixes of one stream, the finished C is exactly the longest of them, for every quorum size, distance and interleaving |
| QuorumMatching.FirstByteIsShared | src/replay/receive/quorum_merge_strategy.rs:458-478 | all members agree on the first byte of a nonempty prefix, for any number of members |
| QuorumMatching.SmallQuorumAgrees | src/replay/receive/quorum_merge_strategy.rs:458-478 | one or two members agree on the whole prefix |
| QuorumMatching.RecentDataMatches | src/replay/receive/quorum_merge_strategy.rs:349-353 | for a quorum of one or two and every distance, every replay that is not dropped holds the last `stream_cmp_distance` bytes of C as far as it is marked; candidates and members hold them all |
| QuorumMatching.WholeCanonMatches | src/replay/receive/quorum_merge_strategy.rs:349-353 | with a distance covering all but the last byte of every replay, candidates and members hold all of C |
| QuorumMismatch.ActiveMatchExactlyWhen | src/replay/receive/quorum_merge_strategy.rs:349-353 | for every bound on the length of a replay: in all reachable states all candidates and members hold all of C if and only if the distance covers all but the last byte and the quorum size is at most two (or no replay exceeds two bytes); the same for members of quorums between callbacks only |
| QuorumMismatch.MarksAreTrueExactlyWhen | src/replay/receive/quorum_merge_strategy.rs:58-72 | for every bound on the length of a replay: in all reachable states every replay that is not dropped holds the last `stream_cmp_distance` bytes of C up to its mark, if and only if the quorum size is at most two, no replay exceeds two bytes, or the distance is zero |
| QuorumMatching.RunStaysOnReplay | src/replay/receive/quorum_merge_strategy.rs:597-602 | C stays a prefix of some replay, under the stated condition on quorum size, lengths and distance |
| QuorumMatching.CanonIsOneSentReplay | src/replay/receive/quorum_merge_strategy.rs:597-602 | with a quorum of one or two and a distance covering all but the last byte of every replay, the finished C equals one of the sent replays |
| QuorumOverrun.SentExactlyWhen | src/replay/receive/quorum_merge_strategy.rs:597-602 | for every bound on the length of a replay: every finished run leaves C equal to a sent replay if and only if the distance covers all but the last byte and the quorum size is at most two (or no replay exceeds three bytes) |
| QuorumOverrun.OverrunIsMerged | src/replay/receive/quorum_merge_strategy.rs:458-478 | for every quorum size of at least three and every distance there is a run, of replays no longer than four bytes, whose C is none of the sent replays |
| QuorumLimits.LateStrangerIsMerged | src/replay/receive/quorum_merge_strategy.rs:63-72 | for every distance there is a run with a replay two bytes longer whose C is none of the sent replays |
| ClippedPrefixes.ClippedIsHeldByAll | src/replay/receive/quorum_merge_strategy.rs:458-478 | if each comparison stopped at the prefix found so far, all members of a quorum of any size would hold the result |
| ClippedPrefixes.ClippedIsLongest | src/replay/receive/quorum_merge_strategy.rs:458-478 | and it would be as long as possible: it ends with the shortest member or where some member differs |
| ClippedPrefixes.OverrunsOnly | src/replay/receive/quorum_merge_strategy.rs:471-477 | the code's result is never shorter than the clipped one, and the same for one or two members |
| QuorumMatching.ExitIsSupported | src/replay/receive/quorum_merge_strategy.rs:291-335 | the bytes appended at one exit are held by enough replays, or by all of a largest candidate group with an empty reserve |
| QuorumMatching.CanonGrowsWithSupport | src/replay/receive/quorum_merge_strategy.rs:604-614 | in every run every byte of C had that support when it was appended, for every distance: for a quorum of one or two always, for a larger one as long as C has at most two bytes |
| QuorumMismatch.SupportedExactlyWhen | src/replay/receive/quorum_merge_strategy.rs:604-614 | for every bound on the length of a replay: C never grows without that support if and only if the quorum size is at most two or no replay exceeds two bytes |
| QuorumDecisions.VerdictIs | src/replay/receive/quorum_merge_strategy.rs:58-72 | a replay no longer than C waits or, if finished, is dropped; a longer one is dropped exactly if it differs from C at an unmarked position at most `stream_cmp_distance` before the end of C, and is otherwise a candidate for its next byte |
| QuorumDecisions.ComparedIsKept | src/replay/receive/quorum_merge_strategy.rs:89-94 | in every reachable state every position of a lagging replay that may still be compared is in its window |
| QuorumDecisions.PlacedWhere | src/replay/receive/quorum_merge_strategy.rs:237-264 | a replay that is tried is in Res, in Cand under its next byte, or in neither, by that verdict |
| QuorumDecisions.ReportMeans | src/replay/receive/quorum_merge_strategy.rs:272-282 | a report tries that replay if it is in Res of a stalemate and moves no other one; in a stalemate it starts merging exactly if the delayed position is above zero |
| QuorumDecisions.EndMeans | src/replay/receive/quorum_merge_strategy.rs:284-289 | the end of a replay in Res of a stalemate tries it once more and changes nothing else |
| QuorumDecisions.StalemateBegins | src/replay/receive/quorum_merge_strategy.rs:427-436 | a quorum ends when all of C is shown; then every replay of Q and Res has been tried, and no other one is in either set |
| QuorumDecisions.StalemateEnds | src/replay/receive/quorum_merge_strategy.rs:291-320 | a stalemate is resolved only after merging has started, with an empty reserve or as many replays as a quorum takes wanting the byte appended, which beats every other one by number of candidates, longest of them, and value |
| QuorumDecisions.QuorumIsFormed | src/replay/receive/quorum_merge_strategy.rs:328-388 | the quorum has as many of those candidates as it takes, none shorter than one left out; those left out go to Res and candidates for other bytes are dropped |
| QuorumDecisions.DataOfOneIsMerged | src/replay/receive/quorum_merge_strategy.rs:438-444 | C grows by data of one member, and stays within every member |
| QuorumDecisions.SharedDataIsMerged | src/replay/receive/quorum_merge_strategy.rs:458-478 | C grows by everything that all members share, whatever their number |
| QuorumDecisions.MergedDataIsShared | src/replay/receive/quorum_merge_strategy.rs:458-478 | one or two members share all that C grows by |
| QuorumDecisions.RunStarts | src/replay/receive/quorum_merge_strategy.rs:278-281 | in every reachable state merging has started exactly if some delayed position is above zero, and before that C is empty and there is no quorum |
| QuorumDecisions.NothingIsMergedEarly | src/replay/receive/quorum_merge_strategy.rs:193-196 | as long as no delayed position has been set, the state is a stalemate that is not to be resolved and C is empty |
| QuorumProgress.NeverStuckExactlyWhen | src/replay/receive/quorum_merge_strategy.rs:512-522 | a switch that is due can be made in every reachable state if and only if the quorum size is at least one |
| QuorumProgress.ThereIsAChoice | src/replay/receive/quorum_merge_strategy.rs:308-388 | every stalemate with candidates has a best byte, longest replays to form a quorum and a prefix that meets the assertions |
| QuorumProgress.SettledWaits | src/replay/receive/quorum_merge_strategy.rs:193-199 | between callbacks a quorum has a member that is not shown up to the end of C; in a stalemate replays that hold C and the same next byte and are shown past C are fewer than a quorum, and if there are any, a lagging replay is awaited |
| QuorumProgress.CandidatesAreExactly | src/replay/receive/quorum_merge_strategy.rs:180-187 | in a stalemate every replay that matches C and is shown past its end is a candidate, those in Res are unfinished and shown no further than C, and candidates match C and are longer for a quorum of one or two and a sufficient distance |
| QuorumDelays.VisibleWhenAllMembersArePast | src/replay/receive/quorum_merge_strategy.rs:406-425 | C's delayed position moves only in a quorum all of whose members have a delayed position at or past it |
| QuorumDelays.SettledDelay | src/replay/receive/quorum_merge_strategy.rs:427-429 | between callbacks a stalemate shows all of C and a quorum hides some of it |
| QuorumDelays.DelayedAtLeastMinimum | src/replay/receive/quorum_merge_strategy.rs:354-356 | in every reachable quorum C's delayed position is at least the minimum of its length and the members' delayed positions |
| QuorumDelays.QuorumHasOrigin | src/replay/receive/quorum_merge_strategy.rs:308-335 | every quorum of a run goes back to a stalemate that it replaced |
| QuorumDelays.DelayedIsMinimumExactlyWhen | src/replay/receive/quorum_merge_strategy.rs:354-356 | at every moment of a quorum C's delayed position is the larger of that minimum and the length of C in the stalemate the quorum replaced; it equals the minimum if and only if all members have reached that length |
| QuorumLimits.DelayedExceedsMinimum | src/replay/receive/quorum_merge_strategy.rs:354-356 | for every quorum size of at least one and every distance there is a reachable settled quorum in which it exceeds the minimum |
| QuorumLimits.ZeroQuorumIsStuck | src/replay/receive/quorum_merge_strategy.rs:458-459 | with a quorum size of zero a state is reached in which a switch is due and none is possible |
| QuorumMemory.RunFrees | src/replay/receive/quorum_merge_strategy.rs:75-94 | in every reachable state the window of a dropped replay starts in the last chunk a word can address, that of a candidate or member less than 4096 bytes before the end of C |
| QuorumMemory.TrimmedWhenCanonGrows | src/replay/receive/quorum_merge_strategy.rs:446-456 | whenever C grows, every replay is cut to less than the comparison distance and a chunk behind the end of C, and stays so |
| QuorumTheorems.SwitchesTerminate | src/replay/receive/quorum_merge_strategy.rs:593-595 | every switch strictly lowers a natural measure, twice the distance of C from the longest replay plus one for a quorum |
| QuorumUpdates.PlaceOneMore | src/replay/receive/quorum_merge_strategy.rs:217-227 | placing replays one after another has the same effect in any order |
| QuorumUpdates.ExitIsThreeUpdates | src/replay/receive/quorum_merge_strategy.rs:329-334 | wiping losers, matching members and trimming the reserve, loop by loop, is the machine's exit |
| QuorumUpdates.SettlingKeepsStreams | src/replay/receive/quorum_merge_strategy.rs:512-522 | switching to a stable state changes nothing that the connections wrote |
| SharedStates.ReplayState.DivergesAtStalemate | src/replay/receive/quorum_merge_strategy.rs:63-72 | true exactly when the replay differs from C at a position that is not marked and at most `stream_cmp_distance` before the end of C; all it reads is in the window |
| SharedStates.ReplayState.SetMatching | src/replay/receive/quorum_merge_strategy.rs:80-87 | raises the mark to the given length and discards below it |
| SharedStates.SharedState.AppendCanonData | src/replay/receive/quorum_merge_strategy.rs:145-151 | C grows by that replay's bytes, no replay changes, and the step is one the readers' machine allows |
| SharedStates.SharedState.UpdateCanonDelayedDataLen | src/replay/receive/quorum_merge_strategy.rs:153-159 | C's delayed position becomes the smaller of hint and length, but never moves back |
| SharedStates.SharedState.Poll | src/replay/streams/merged_replay.rs:139-163 | a reader's poll of the real C is a step of the readers' machine and leaves all writer replays alone |
| SharedStates.SharedState.PollToEnd | src/replay/send/sender.rs:23-28 | once C is finished, repeated polls terminate, deliver exactly what is left of header and data, and then the end |
| SharedStates.SharedState.EveryoneIsServed | src/replay/streams/merged_replay.rs:122-163 | at any moment all readers of the real C satisfy prefix consistency and the wake-up property |
| QuorumStrategies.QuorumMergeStrategy.TryMoveReplayToCandidates | src/replay/receive/quorum_merge_strategy.rs:237-264 | stays, is wiped and dropped, or is filed under its next byte, as the machine judges; no discarded data is read |
| QuorumStrategies.QuorumMergeStrategy.CanExit | src/replay/receive/quorum_merge_strategy.rs:291-306 | true exactly when delayed data has started, there is a candidate, and the reserve is empty or a group is large enough |
| QuorumStrategies.QuorumMergeStrategy.BestByte | src/replay/receive/quorum_merge_strategy.rs:311-320 | the byte that beats every other one by number of candidates, then by the longest of them, then by itself, said without the ranking the code computes |
| QuorumStrategies.QuorumMergeStrategy.FromQuorum | src/replay/receive/quorum_merge_strategy.rs:217-227 | trying all of the reserve one after another, in any order, amounts to placing them at once |
| QuorumStrategies.QuorumMergeStrategy.EnterStalemate | src/replay/receive/quorum_merge_strategy.rs:431-436 | Q joins Res and all are tried: the machine's step back to a stalemate |
| QuorumStrategies.QuorumMergeStrategy.TakeLongest | src/replay/receive/quorum_merge_strategy.rs:372-379 | the requested number of replays, none of them shorter than one that is left |
| QuorumStrategies.QuorumMergeStrategy.CalculateQuorumPrefix | src/replay/receive/quorum_merge_strategy.rs:458-478 | compares a shortest member with every other one exactly once, in some order; the result lies between the end of C and the end of every member |
| QuorumStrategies.QuorumMergeStrategy.MergeMoreData | src/replay/receive/quorum_merge_strategy.rs:438-456 | C grows by the prefix, members are matched, the reserve is trimmed, and the delayed position follows the members |
| QuorumStrategies.QuorumMergeStrategy.FromStalemate | src/replay/receive/quorum_merge_strategy.rs:369-388 | no member of the quorum is shorter than a good replay left out, the rest joins the reserve, and the data is merged, as the machine says |
| QuorumStrategies.QuorumMergeStrategy.ExitStalemate | src/replay/receive/quorum_merge_strategy.rs:308-335 | ends in a state that the machine's exit allows, for some choice that is valid |
| QuorumStrategies.QuorumMergeStrategy.WorkStateUntilStable | src/replay/receive/quorum_merge_strategy.rs:512-522 | terminates in a state in which no switch is due, reached by switches of the machine only |
| QuorumStrategies.QuorumMergeStrategy.ReplayAdded | src/replay/receive/quorum_merge_strategy.rs:526-530 | the machine's callback for a new replay, then settling; the id is fresh and refers to that replay |
| QuorumStrategies.QuorumMergeStrategy.ReplayDataUpdated | src/replay/receive/quorum_merge_strategy.rs:549-552 | the machine's callback for changed data, then settling; merging is started by it exactly when a delayed position above zero is reported in a stalemate |
| QuorumStrategies.QuorumMergeStrategy.ReplayRemoved | src/replay/receive/quorum_merge_strategy.rs:532-535 | the machine's callback for an ended replay, then settling |
| QuorumStrategies.QuorumMergeStrategy.ReplayHeaderAdded | src/replay/receive/quorum_merge_strategy.rs:537-547 | the first header becomes C's, any other is taken and dropped, and nothing else changes |
| QuorumStrategies.QuorumMergeStrategy.Finish | src/replay/receive/quorum_merge_strategy.rs:558-585 | in a state that is ready none of the assertions fires, and C is finished |
| ReplayDelays.CyclesAreEnough | src/replay/receive/replay_delay.rs:24-32 | the number of cycles kept is the least whose duration reaches the delay |
| ReplayDelays.PositionHistory.PushAndGetDelayed | src/replay/receive/replay_delay.rs:34-41 | the k-th push returns the length pushed at position max(0, k - n) |
| ReplayDelays.DelayedIsMonotone | src/replay/receive/replay_delay.rs:34-41 | for growing lengths the results grow and never exceed the current length |
| ReplayDelays.ReturnedLengthIsOldEnough | src/replay/receive/replay_delay.rs:24-41 | once the queue is full the returned length was current at least the delay ago and less than one cycle more |
| ReplayDelays.UpdateLoop.Cycle | src/replay/receive/replay_delay.rs:58-73 | the new delayed position lies between the previous one and the current length; a report is due exactly when one of the two changed |
| HeaderFormat.FirstByteWeighsLeast | src/replay/streams/header.rs:43-49 | of the four bytes of a number the first weighs 1, the others 2^8, 2^16 and 2^24, and such a sum is written as those bytes |
| HeaderFormat.LayoutMeans | src/replay/streams/header.rs:51-83 | what makes a header well-formed, with all its numbers: gaps of three and four bytes, texts without a zero byte, counts of one byte, sizes of four, and one more byte for each army whose owner is not 255 |
| HeaderFormat.HeaderSpelledOut | src/replay/streams/header.rs:51-83 | the bytes of a header in order, but for the entries of its two lists |
| HeaderFormat.PlayersSpelledOut | src/replay/streams/header.rs:62-67 | player entries follow one another, each a text with its zero byte and a number of four bytes |
| HeaderFormat.ArmiesSpelledOut | src/replay/streams/header.rs:71-79 | army entries follow one another, each a sized block, the owner and the extra byte if there is one |
| HeaderFormat.LeBytesReturn | src/replay/streams/header.rs:43-49 | a number written back gives the bytes it was read from |
| HeaderFormat.HeaderIsParsed | src/replay/streams/header.rs:41-83 | every well-formed header is accepted, whatever follows it |
| HeaderFormat.HeaderWasEncoded | src/replay/streams/header.rs:41-83 | whatever is accepted is the encoding of some header, byte for byte, through both counted loops |
| HeaderFormat.AcceptsExactlyEncodings | src/replay/streams/header.rs:24-83 | the parser yields d exactly when d is an encoding of at most 2^20 bytes that the input starts with |
| HeaderFormat.HeaderIsSelfDelimiting | src/replay/streams/header.rs:24-83 | the same header is found whatever follows it, and every proper prefix of it is rejected |
| ReplayHeaders.HeaderReader.ReadUntilExact | src/server/connection.rs:161-175 | takes bytes up to and including the delimiter, or fails at the end or at the size limit |
| ReplayHeaders.HeaderReader.Skip | src/replay/streams/header.rs:29-39 | takes exactly that many bytes, or fails when there are fewer |
| ReplayHeaders.HeaderReader.ReadU32Le | src/replay/streams/header.rs:43-49 | the number read is the sum of its four bytes, the first weighing least, and exactly those bytes are kept |
| ReplayHeaders.HeaderReader.ReadArmies | src/replay/streams/header.rs:71-79 | the counted loop over armies succeeds exactly when the format does, at the same position |
| ReplayHeaders.ReadFromConnection | src/replay/streams/header.rs:24-27 | the streaming parser returns what the format says and leaves exactly the following bytes on the connection |
| ReplayMergers.ReplayMerger.Connect | src/replay/receive/merger.rs:38-40 | a new connection is one step of the run; its id is fresh, and what it has to deliver is on record |
| ReplayMergers.ReplayMerger.ReadHeader | src/replay/receive/merger.rs:44-46 | a header that the format accepts is taken off the connection, which starts to stream, and becomes C's if C has none; any other input ends the connection; nothing else changes |
| ReplayMergers.ReplayMerger.ReadData | src/replay/streams/writer_replay.rs:87-97 | each read moves a nonempty front piece of the connection to its replay, in one step of the run, with C and all other replays as before; the end of the connection finishes and removes the replay |
| ReplayMergers.ReplayMerger.DelayCycle | src/replay/receive/replay_delay.rs:62-72 | the delayed position becomes the length of the right number of cycles before (or the first one), never moves back, and a report is made in the same step exactly if it or the length has changed |
| ReplayMergers.ReplayMerger.Close | src/replay/receive/merger.rs:53-58 | final delayed position, report, finish and removal are steps of the run; that replay is complete and fully visible, its data and all other replays as before |
| ReplayMergers.ReplayMerger.Finalize | src/replay/receive/merger.rs:61-63 | with all connections closed the strategy is ready to finish, and C is finished |
| ReplayMergers.ReplayMerger.LogIsDelivered | src/replay/streams/writer_replay.rs:81-97 | at any moment the data of a replay is exactly what has been taken off its connection behind an accepted header |
| ReplayMergers.ReplayMerger.HeaderComesFirst | src/replay/receive/quorum_merge_strategy.rs:537-547 | C has no data before it has a header |
| ReplayMergers.ReplayMerger.ReceivedIsMerged | src/replay/streams/merged_replay.rs:139-163 | a reader of the real C holds a prefix of header and visible data, and all of C when told of the end |
| ReplayMergers.ReplayMerger.ReaderGetsOneSentReplay | src/replay/receive/quorum_merge_strategy.rs:597-602 | with a quorum of one or two and a sufficient distance, a reader told of the end has received C's header and all the data of one writer |
| ReplayMergers.ReplayMerger.ReaderGetsLongestReplay | src/replay/receive/quorum_merge_strategy.rs:597-602 | when all writers follow one stream, it has received all that any of them sent |
| ReplayMergers.ReplayMerger.CopyToEnd | src/replay/send/sender.rs:23-28 | once C is finished, copying to any reader ends, with C's header and all of C received |
| ReplayMergers.ReplayMerger.ReaderGetsHeaderAndData | src/replay/receive/merger.rs:38-63 | in every run, with a quorum of one or two and a distance covering all but the last byte of data, a reader told of the end has received the header of some connection followed by all data taken off some connection, and nothing if C has no header |
| ReplayMergers.ReplayMerger.ReaderGetsHeaderAndLongest | src/replay/receive/merger.rs:38-63 | in every run in which the data of all connections follows one stream, for every quorum size and distance, it has received the header of some connection followed by the longest data taken off any |
| ReplayMergers.ReplayMerger.ReaderGetsWholeData | src/replay/receive/merger.rs:38-63 | when all connections had a header and were read to the end, with a quorum of one or two and a sufficient distance, it has received the header of one and everything behind the header of one |
| ReplayMergers.ReplayMerger.ReaderGetsLongestData | src/replay/receive/merger.rs:38-63 | when they were and what follows their headers is cut off from one stream, it has received the header of one and the longest of what follows, for every quorum size and distance |
| ReplayMergers.ReplayMerger.ReaderGetsOneConnection | src/replay/streams/merged_replay.rs:139-163 | when all connections had the same header byte for byte (one writer, for example) and were read to the end, with a quorum of one or two and a sufficient distance, it has received byte for byte what one of them sent |
| ReplayMergers.ReplayMerger.ReaderGetsLongestConnection | src/replay/streams/merged_replay.rs:139-163 | when all had the same header, were read to the end, and sent data cut off from one stream, it has received exactly the longest of what they sent, for every quorum size and distance |
| EmptyCounters.EmptyWait.Poll | src/util/empty_counter.rs:37-52 | a poll terminates, follows the loop turn by turn, and never comes through while the count is not zero |
| EmptyCounters.PolledKeeps | src/util/empty_counter.rs:37-52 | a sleep that is under way began after the last change and has been quiet since |
| EmptyCounters.WaitEndsExactly | src/util/empty_counter.rs:37-52 | a waiter that is polled after every change comes through only after the count stayed zero for the timeout, and at its first turn after that long without a change |
| ReplayLifetimes.FinalizedIsLast | src/replay/receive/merge_strategy.rs:13-31 | in an orderly sequence of calls finalizing happens once, after every accepted writer has left, and nothing follows it |
| ReplayLifetimes.CallsAreBetween | src/replay/receive/merge_strategy.rs:13-22 | in an orderly sequence a writer is accepted once, and reported or removed only after that and before its removal and finalizing |
| ReplayLifetimes.Replay.AcceptWriter | src/replay/replay.rs:107-118 | a writer is turned away exactly when the write phase is over; otherwise it is counted and added |
| ReplayLifetimes.Replay.WriterHeader | src/replay/replay.rs:113-118 | a header is reported as a legal call; without one the writer is removed and counted no longer |
| ReplayLifetimes.Replay.WriterData | src/replay/replay.rs:113-118 | data is not reported at once; at the end of the connection the writer is removed and counted no longer |
| ReplayLifetimes.Replay.WriterCycle | src/replay/replay.rs:113-118 | an update of a writer that changes anything is a legal call, before finalizing and between its acceptance and its end |
| ReplayLifetimes.Replay.WriterEnds | src/replay/replay.rs:113-118 | its removal is a legal call, and the count goes down with it |
| ReplayLifetimes.Replay.WhileOneIsOpen | src/replay/replay.rs:82-90 | as long as a writer is connected the count is positive and merging is not finalized |
| ReplayLifetimes.Replay.PassTime | src/replay/replay.rs:75-80 | the time without writers grows with the clock, and starts again once time passes with a writer |
| ReplayLifetimes.Replay.PollWriters | src/replay/replay.rs:75-87 | the wait ends when the replay is cancelled or when there have been no writers for the configured time, and at the first turn after no writer has come or gone for that time; new connections are refused in the same step |
| ReplayLifetimes.Replay.PollDraining | src/replay/replay.rs:88-90 | merging is finalized at most once, exactly at a turn with a writer count of zero, when every accepted writer has been removed |
| ReplayLifetimes.Replay.PollReaders | src/replay/replay.rs:91-98 | the replay ends exactly at a turn with no reader left, and cancels what is still waiting |

## Left out

- Sockets, websockets, accepting and assigning connections, runtimes, threads and signals: a connection is a sequence of bytes with an end.
- Saving a replay (database, JSON, compression), metrics, logging and configuration: parameters with stated ranges, or one step without effect on merging.
- QuorumMachine.Init: a quorum size of at least one, as the code needs, is a premise of all results but `ZeroQuorumIsStuck` and `NeverStuckExactlyWhen`; the comparison distance is any number.
- ReplayMergers.ReplayMerger.ReadData: needs the length of the data to stay within a 64-bit word, which the code does not check.
- Sums of lengths and positions other than the discard mark are unbounded numbers; only `discard` is proved not to exceed a word, because it is called with the largest one.
- QuorumStrategies.QuorumMergeStrategy.ExitStalemate: sorting by length is modelled by taking a longest replay repeatedly, which leaves the same ties open.
- QuorumStrategies.QuorumMergeStrategy.WorkStateUntilStable: the `Swapping` value that only exists while the two states are exchanged, and its panics, are not modelled; nor is the wrapping of the two states as separate types.
- QuorumMemory.TrimmedWhenCanonGrows: a replay that joins or lags during a quorum is trimmed only when C grows next, as in the code; that delay bounds what accumulates until then (the fifth claim as written, in minutes) is about time and not proved.
- ReplayDelays.Cycles: durations are whole units and the division is exact; the code divides floating-point seconds. A sleep of zero is excluded.
- EmptyCounters.WaitEndsExactly: time passes only while the waiter is parked, that is, it gets its turn after every change (`prompt` in `ReplayLifetimes.Replay`); a late turn may miss a short nonzero count, but never comes through while the count is not zero.
- A waker is the number of the task it wakes; dropping an event, which also wakes everyone, is not modelled.
- ReplayLifetimes.Replay.PollWriters: one poll of the lifetime is split at its awaits into one step per stage, which allows more interleavings than the code has; the forced timeout and shutdown are one step that may come at any time.
- The third, fourth and sixth claims in the comments of the strategy as written (what happens "eventually", amortised cost, stalled connections) are about time and fairness; the support of every appended byte, with its exact condition, is the part of the third that is proved.
- Fairness of scheduling: tasks are interleaved arbitrarily, and that a task runs again is not claimed.
