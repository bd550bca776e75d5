# Verified models of a blockchain data pipeline

The repository ingests blocks from several endpoints, keeps a window of hot blocks that can still be reorganised, hands finalized
blocks to a store, turns blocks into sorted columnar tables and archives them as chunk directories. This project models five of
its components and proves what they promise, for all inputs and over whole runs.

**Hot window** (`HotTypes`, `HotModel`, `HotSim`, `HotLaws`, `HotRuns`, `HotLockstep`, `HotConvergence`, `HotLoop`,
`HotFollower`). `HotModel.Model` is the reference model of a hot dataset: a window of linked, sparsely numbered blocks over an
anchor, with a finalized watermark. `HotSim.DatasetSim` is the source that speaks to it and `HotFollower.Follower` the anchored
client. The main results close the loop: after any honest interleaving of production, forks, finality and round trips, one more
round trip gives the model exactly the source's chain, if and only if the source is not behind the model's head; model and source
stay in lockstep under every script; finalized history is never rewritten; and a follower that conflicts rolls back to exactly the
highest common block.

**Multi-endpoint source** (`DataSource`, `SourceLaws`). Endpoint state machines share one position. Poll results are arbitrary. A
fork is declared if and only if the endpoints that report one reach consensus. Every run yields a log; soundness of the log says
that emitted blocks ascend and link, that finality lags the position and never moves back, that every vote of a declared fork
concerns the current position, that a commit wakes exactly the endpoints parked by linkage rejects, and that an endpoint retries
at most once per position without a pause. The events that the caller gets account for the log.

**Live chain** (`BdsSearch`, `BdsChain`, `BdsLive`, `BdsRuns`, `BdsLaws`). Three deques aligned at the back, with finality and
storage flags, under any interleaving of growth, finalization, saves and cleaning. Nothing becomes final but what a report or a
final block vouches for.

**Columnar sort** (`ArrayOffsets`, `Picking`, `ChunkRanges`, `SortOrder`, `SortIndexes`, `TableSort`, `SortedTables`, `SortRuns`,
`Bits`, `NullMask`, `Columns` … `ColumnBuilds`, `OffsetsBuilders`, `Downcast`). The external sorter with its cached searches,
bit-packed lazy null masks, nested columns of any depth written through flat buffers (Apache Arrow Columnar Format, sections
"Validity bitmaps" and "Variable-size List Layout"), and lossless narrowing of index columns.

**Archive** (`ArchiveLayout` … `ArchiveProc`). Chunk directories under top directories, cut from a block stream, written file by
file, with crashes at any point.

State that the original updates in place is a class here; its methods equate the new state with a function of the old one, and the
theorems are about those functions. `HotLaws`, `SourceLaws` and `BdsLaws` say what the deciding operations decide in terms of the
stored blocks and references alone, without the functions that compute it. Where the original aborts on an assertion, the
condition is a precondition, so its absence in every run is part of what is proved; an abort that callers can meet is a result of
its own.

## Where the code and the expectation differ

- A single-shot fork exchange does not converge when the source's new tip is below the model's head: the source stays silent
  (`SilentWhenBehind`). `Converges` gives the exact condition and `ShorterForkIsNotFollowed` a run that reaches it.
- `compute_fork_base` is exact for every chain if and only if the hints are densely numbered (`ExactIffDense`, `HoleDefeats`).
- Every block at or below the stored head of a live chain is saved, except in front of an unsaved genesis block that has its
  parent's number (`StoredHeadIsAlwaysSafe`, `GenesisMisleads`).
- Reading single bits of a mask view fails inside the view unless it starts at bit 0 (`ReadBitIffAtStart`,
  `ReadBitRefusesInside`). The sort reads key columns that way, and a window of a table hands it such views. A table is sorted if
  and only if no two rows tie in the key columns before one that cannot be read for them (`SortTableToIndexes`). That always
  holds for columns viewed from bit 0 (`AtStartIsSortable`), and never for two or more rows of a window further inside whose
  first key column has a null mask (`WindowCannotBeSorted`, `TwoRowsNotSortable`), whether or not there is a null.
- A fixed-size list of anything but raw bytes cannot be cut, and a struct cuts its columns for every range list or index list.
  Such writes succeed if and only if no struct in the type has such a field (`WriteSelection`, `FixedListsCannotBeSelected`).
  Neither the builders nor the file writers can be made for fixed-size lists, so every type that has one of these destinations
  can be written in all four ways (`BuildableIsSelectable`).
- A list of 32-bit item indexes cannot be widened to 64 bits, so it is readable if and only if no registered item index needs
  64 bits (`RegisteredIsReadable`, `ListBesideWideIndex`). No table of the repository registers a 64-bit item index.
- A block that has its parent's number, pushed onto that very parent, leaves two references with one number; every other
  well-formed block keeps the chain valid (`CanPushIsExact`).

## Model

| member | source | states |
|---|---|---|
| `HotModel.WatermarkIsMonotone` | crates/hotblocks-harness/src/model.rs:294-334 | a finality report leaves the watermark on a stored block, never lowers it, and changes it exactly when it is applied |
| `HotModel.SplicedHangs` | crates/hotblocks-harness/src/model.rs:191-263 | the element-wise linkage checks of a replacement hold if and only if the spliced chain hangs on the anchor |
| `HotModel.ReplayKeepsFinalized` | crates/hotblocks-harness/src/model.rs:191-263 | comparing the replayed finalized part element by element is the same as keeping every (number, hash) at or below the watermark |
| `HotModel.EvictionIsLocal` | crates/hotblocks-harness/src/model.rs:268-282 | a stored block goes missing in a replacement exactly when the incoming range owns its number and omits it |
| `HotModel.LastKnown` | crates/hotblocks-harness/src/model.rs:403-452 | the result is the highest hint that the window knows; none means that no hint is known |
| `HotModel.DropBelow` | crates/hotblocks-harness/src/model.rs:403-452 | drops exactly the leading hints numbered below the watermark |
| `HotModel.Model.ApplyFinality` | crates/hotblocks-harness/src/model.rs:294-343 | moves only the watermark, as the finality rule says, and keeps the window well formed |
| `HotModel.Model.Extend` | crates/hotblocks-harness/src/model.rs:150-188 | accepts exactly the linked runs that continue the window with a report that does not contradict it; a refusal changes nothing; well-formedness is kept |
| `HotModel.Model.EvictsReported` | crates/hotblocks-harness/src/model.rs:268-282 | true exactly when the spliced chain lacks the block that the report declares final |
| `HotModel.Model.ReplacementFits` | crates/hotblocks-harness/src/model.rs:191-263 | true exactly when the spliced chain hangs on the anchor and keeps all finalized references |
| `HotModel.Model.Replace` | crates/hotblocks-harness/src/model.rs:191-263 | replaces the suffix exactly when it fits and its report does not contradict it; a refusal changes nothing; well-formedness is kept |
| `HotModel.Model.Finalize` | crates/hotblocks-harness/src/model.rs:285-292 | the new state and outcome are those of the finality rule, and the window stays well formed |
| `HotModel.Model.Retain` | crates/hotblocks-harness/src/model.rs:346-391 | trims, resets or re-anchors as the rule says, and the window stays well formed |
| `HotModel.Model.Reset` | crates/hotblocks-harness/src/model.rs:394-400 | empties the window onto the new anchor, which is well formed |
| `HotModel.Model.constructor` | crates/hotblocks-harness/src/model.rs:60-67 | a new window is empty over its anchor and well formed |
| `HotLaws.HashAtIsExact` | crates/hotblocks-harness/src/model.rs:88-97 | the hash at a position is that of the highest stored block at or below it, and the anchor's only where there is none |
| `HotLaws.ForkIsResolved` | crates/hotblocks-harness/src/model.rs:403-452 | every window answers every list of hints: refused if malformed, or if all of it is below finality or another block is named at the watermark; a reset if the anchor is contradicted; else right behind the known hint with the greatest number; only without one behind the watermark, or at the floor |
| `HotLaws.FinalityIsExact` | crates/hotblocks-harness/src/model.rs:294-343 | a report is about the stored block of its number, or the head if it is above; another hash for a stored block is the only fault, and any other report makes exactly that block final unless the watermark is above it |
| `HotLaws.AcceptedReportApplies` | crates/hotblocks-harness/src/model.rs:191-282 | an accepted replacement applies its own report: a reported number that the window had above the watermark is final afterwards, with the reported hash |
| `HotLaws.RetentionIsExact` | crates/hotblocks-harness/src/model.rs:346-391 | a bound inside the window keeps exactly the blocks at or above it, anchored on the block before them, and the watermark if it is among them; every other bound spares the window or starts over right below the bound, each exactly when it should |
| `HotLaws.QueryIsPredicted` | crates/hotblocks-harness/src/model.rs:455-502 | for all queries, finalized ones included: when each of refusal, conflict and coverage is predicted, that coverage ends at the tip or the asked end, never above the watermark for finalized queries, and that conflict hints are the last ancestors |
| `HotLaws.EmissionIsExact` | crates/hotblocks-harness/src/model.rs:514-521 | exactly the stored blocks with a number in the range are emitted, in order |
| `HotRuns.StepKeepsWf` | crates/hotblocks-harness/src/model.rs:112-147 | no transition can fail the well-formedness check |
| `HotRuns.VersionTells` | crates/hotblocks-harness/src/model.rs:150-400 | every change counts the version up by one and nothing else does |
| `HotRuns.SameVersionSameState` | crates/hotblocks-harness/src/model.rs:150-400 | two states of a run with the same version are the same state |
| `HotRuns.RunKeepsWf` | crates/hotblocks-harness/src/model.rs:112-400 | on every run of extend, replace, finalize, retain and reset no well-formedness check fails |
| `HotRuns.StepKeepsFinalized` | crates/hotblocks-harness/src/model.rs:150-343 | extend, replace and finalize keep every stored (number, hash) at or below the watermark and never lower it |
| `HotRuns.RunKeepsFinalized` | crates/hotblocks-harness/src/model.rs:150-343 | the same over whole runs of commits |
| `HotSim.ProducedKeepsHonest` | crates/hotblocks-harness/src/sim.rs:330-350 | production keeps the source linked, numbered by its numbering function and stamped with its branch |
| `HotSim.TruncatedKeepsHonest` | crates/hotblocks-harness/src/sim.rs:416-422 | dropping a suffix above finality keeps the source honest |
| `HotSim.ForkStartsAtOrAbove` | crates/hotblocks-harness/src/sim.rs:406-422 | the first block of a fork is numbered at or above the fork point, however sparse the numbering |
| `HotSim.DatasetSim.Produce` | crates/hotblocks-harness/src/sim.rs:330-350 | appends exactly n honest blocks |
| `HotSim.DatasetSim.Fork` | crates/hotblocks-harness/src/sim.rs:352-422 | forks exactly at permitted positions, giving the spliced chain on a new branch; a refusal changes nothing |
| `HotSim.DatasetSim.Finalize` | crates/hotblocks-harness/src/sim.rs:424-432 | declares the named block or the anchor final exactly when it exists |
| `HotSim.DatasetSim.constructor` | crates/hotblocks-harness/src/sim.rs:277-291 | a new source is honest |
| `HotSim.Produced` | crates/hotblocks-harness/src/sim.rs:330-350 | production extends the chain by exactly n blocks and leaves finality and branch alone |
| `HotLaws.ChainHashIsExact` | crates/hotblocks-harness/src/sim.rs:319-328 | the hash of the source at a position up to its tip is that of its highest block at or below it, or the anchor's right below the start |
| `HotLaws.SourceAnswers` | crates/hotblocks-harness/src/sim.rs:435-497 | a parent hash off the source's chain is answered with a fork and the last ancestors; every other request with exactly the blocks from its position on, or nothing if there are none |
| `HotLockstep.LockstepProduce` | crates/hotblocks-harness/src/harness.rs:156-164 | the model accepts what the source produced and the two stay equal |
| `HotLockstep.LockstepFork` | crates/hotblocks-harness/src/harness.rs:235-243 | the model accepts every non-empty fork and the two stay equal |
| `HotLockstep.LockstepFinal` | crates/hotblocks-harness/src/harness.rs:247-258 | the model accepts non-decreasing finality on existing blocks and the two stay equal |
| `HotLockstep.LockstepStep` | crates/hotblocks-harness/src/harness.rs:156-258 | each scripted step is accepted and keeps the two in step |
| `HotLockstep.Lockstep` | crates/hotblocks-harness/src/harness.rs:156-258 | for every script and numbering, every step is accepted and chains and finalized heads never part |
| `HotConvergence.SilentWhenBehind` | crates/hotblocks-harness/src/sim.rs:445-497 | a source whose tip is below the model head answers no data, whatever branch it is on |
| `HotConvergence.DivergenceIsSignalled` | crates/hotblocks-harness/src/sim.rs:445-497 | a source on another branch that is not behind answers with a fork and the last 100 of its references up to the position |
| `HotConvergence.KnownIffShared` | crates/hotblocks-harness/src/model.rs:88-97 | the window knows a block of the source exactly when the two chains share it |
| `HotConvergence.RunResolves` | crates/hotblocks-harness/src/model.rs:403-452 | hints that are a run of the source resolve to a shared position above finality, and to the last shared block itself whenever a hint names it |
| `HotConvergence.SignalResolves` | crates/hotblocks-harness/src/model.rs:403-452 | the fork answer of an honest source always resolves to a shared position, and to the last shared block itself whenever that is among the last 100 references the answer carries |
| `HotConvergence.SharedPositionIsServed` | crates/hotblocks-harness/src/sim.rs:445-497 | from a shared position the source serves exactly its chain behind it |
| `HotConvergence.SharedPositionFits` | crates/hotblocks-harness/src/model.rs:191-263 | what is served from a shared position above finality is accepted as a replacement and yields the source chain |
| `HotConvergence.ForkConverges` | crates/hotblocks-harness/src/model.rs:191-263 | fork answer, resolution, re-request and replacement leave exactly the source chain and finality |
| `HotConvergence.GrowthConverges` | crates/hotblocks-harness/src/model.rs:150-188 | a source that only grew is followed by extension to exactly its chain |
| `HotConvergence.Converges` | crates/hotblocks-harness/src/sim.rs:416-497 | one round trip makes the window the source chain if and only if the source is not behind; if it is, the window keeps its blocks |
| `HotLoop.HarnessStartsInStep` | crates/hotblocks-harness/src/harness.rs:96-153 | the harness starts source and model in step, with or without a known anchor hash |
| `HotLoop.LoopKeepsFollows` | crates/hotblocks-harness/src/sim.rs:330-497 | any honest interleaving of production, forks, finality and round trips keeps the relation that convergence needs |
| `HotLoop.LoopConverges` | crates/hotblocks-harness/src/model.rs:403-452 | after any honest interleaving the next round trip converges exactly when the source is not behind |
| `HotLoop.ShorterForkIsNotFollowed` | crates/hotblocks-harness/src/sim.rs:330-497 | for every configuration a reachable run in which the source is behind and a round trip leaves the model on the abandoned branch |
| `HotFollower.Validate` | crates/hotblocks-harness/src/driver.rs:375-438 | accepts exactly the ascending runs, linked where the query demands it, within the bounds of the request and the watermarks |
| `HotFollower.LastHeld` | crates/hotblocks-harness/src/driver.rs:471-526 | the result is the last hint that the local chain holds |
| `HotFollower.Follower.Step` | crates/hotblocks-harness/src/driver.rs:471-526 | applies exactly the valid linked answers, rolls back to the held hint or below all hints, and keeps the local chain linked |
| `HotFollower.RollbackIsExact` | crates/hotblocks-harness/src/model.rs:498-502 | if any conflict hint is held, the rollback goes to exactly the highest block the two chains share |
| `HotFollower.CommonPositionNeverConflicts` | crates/hotblocks-harness/src/model.rs:455-495 | behind a common block the prediction is exactly: covered up to the head or the asked end if blocks follow, no data otherwise; never a conflict |
| `HotFollower.RecoveryIsServed` | crates/hotblocks-harness/src/model.rs:514-521 | what is served from there passes validation and continues the common block |
| `HotFollower.AnswerBehind` | crates/hotblocks-harness/src/model.rs:455-521 | the predicted answer behind a stored block is the blocks after it, or no data if there are none |
| `HotFollower.Recover` | crates/hotblocks-harness/src/driver.rs:471-526 | one conflict, and the answer predicted at the position behind the highest common block, leave the local blocks up to that one followed by the served chain |
| `HotFollower.Follower.constructor` | crates/hotblocks-harness/src/driver.rs:457-464 | a new follower has an empty, valid local chain |
| `DataSource.BackoffClimbs` | crates/data-source/src/standard.rs:312-315 | the pause never shrinks with more faults and is ten seconds exactly from the seventh on |
| `SourceLaws.FaultsClimb` | crates/data-source/src/standard.rs:247-315 | of any number of faults in a row the first is retried at once, and each later one pauses for the next of 100, 200, 500, 1000, 2000, 5000 and 10000 ms, the last of which stays |
| `SourceLaws.FaultIsLocal` | crates/data-source/src/standard.rs:58-139 | a fault changes nothing shared and counts one error; a result that does not fit what the endpoint waits for changes nothing |
| `SourceLaws.BlockIsJudged` | crates/data-source/src/standard.rs:105-121 | a streamed block below the position is skipped, one that links is committed and moves the position behind it, and any other is rejected, at once retried only the first time |
| `SourceLaws.AnswerIsKept` | crates/data-source/src/standard.rs:72-92 | a stream remembers the finalized number of its endpoint, and a fork answer the request it answers |
| `DataSource.RouseWakesExactlyLinkage` | crates/data-source/src/standard.rs:360-388 | in every reachable endpoint state a peer commit wakes it exactly when a linkage reject parked it |
| `DataSource.VotesAre` | crates/data-source/src/standard.rs:222-234 | every endpoint counted as forked was answering a request for the current position |
| `DataSource.StandardDataSource.SetPosition` | crates/data-source/src/standard.rs:486-497 | moves the shared position, restarts all endpoints and forgets votes and strikes |
| `DataSource.StandardDataSource.AcceptNewBlock` | crates/data-source/src/standard.rs:141-162 | commits exactly the blocks that link to the position; a refusal changes nothing |
| `DataSource.StandardDataSource.OnNewFinalizedHead` | crates/data-source/src/standard.rs:169-205 | raises the finalized head exactly when the report is newer and lies below the position, or above it behind a block committed since the last repositioning; the largest number seen covers the report |
| `DataSource.StandardDataSource.Reject` | crates/data-source/src/standard.rs:279-307 | the first reject at a position retries at once and later ones pause, and the log says which |
| `DataSource.StandardDataSource.Deliver` | crates/data-source/src/standard.rs:105-121 | a streamed block is skipped, committed or rejected as the transition function says |
| `DataSource.StandardDataSource.Handle` | crates/data-source/src/standard.rs:58-139 | every poll result leads to the state and event of the transition function and keeps the invariant; a stream end tells that the head may be reached exactly when this endpoint committed the last block and no higher one was reported final |
| `DataSource.StandardDataSource.PollEndpoint` | crates/data-source/src/standard.rs:58-139 | polling until a wait or an event equals the functional drive; a quiet endpoint only holds fork answers for the current position |
| `DataSource.StandardDataSource.RouseOthers` | crates/data-source/src/standard.rs:360-388 | clears the strikes of all other endpoints and wakes exactly those parked by linkage |
| `DataSource.StandardDataSource.ExtractFork` | crates/data-source/src/standard.rs:447-462 | takes the longest hint list and puts every endpoint back to work |
| `DataSource.CountsAre` | crates/data-source/src/standard.rs:222-234 | the votes and active endpoints that are counted are the sizes of the sets of endpoints that report a fork and that are not parked |
| `DataSource.LongestIs` | crates/data-source/src/standard.rs:447-462 | the extracted hints are one of the fork answers and no answer is longer |
| `DataSource.ForkIffConsensus` | crates/data-source/src/standard.rs:392-430 | a fork is declared if and only if the sets of endpoints meet the consensus rule; what is logged are the sizes of these sets; otherwise the timer runs exactly while some endpoint reports a fork |
| `DataSource.StandardDataSource.DecideFork` | crates/data-source/src/standard.rs:392-445 | declares a fork if and only if the endpoints that report one are more than half of all, or all but parked ones, or at least one when time is over; the answer is a longest hint list and the log has the true numbers of voters, endpoints and active endpoints |
| `DataSource.StandardDataSource.PollNextEvent` | crates/data-source/src/standard.rs:351-430 | one poll equals the functional round; a fork is declared only by consensus of endpoints waiting at the current position, with a longest hint list, and a quiet poll leaves all endpoints waiting without consensus |
| `DataSource.EmittedBlocksFormAChain` | crates/data-source/src/standard.rs:96-162 | between repositionings emitted blocks strictly ascend and each names the previous one as parent |
| `DataSource.FinalityNeverMovesBack` | crates/data-source/src/standard.rs:169-205 | between repositionings the finalized number never decreases and stays below the position |
| `DataSource.OneFreeRetryPerPosition` | crates/data-source/src/standard.rs:279-307 | two unpaused rejects of one endpoint are separated by a change of position |
| `DataSource.Run` | crates/data-source/src/standard.rs:351-497 | for any number of endpoints, repositionings and poll results the whole log is sound, and the events the caller gets account for all committed, final, vote and reposition entries in order |
| `DataSource.RoundShows` | crates/data-source/src/standard.rs:351-407 | one poll leaves exactly the visible log entries of the event that it returns |
| `DataSource.VisibleIsSound` | crates/data-source/src/standard.rs:351-497 | what a caller can see of a run is a sound log by itself, at the same position and watermark |
| `DataSource.StandardDataSource.constructor` | crates/data-source/src/standard.rs:323-349 | a new source is valid, whatever the number of endpoints |
| `DataSource.StandardDataSource.ResetConsensus` | crates/data-source/src/standard.rs:164-167 | forgets the consensus timer and start and nothing else |
| `BdsSearch.Bisect` | crates/bds/src/util.rs:41-67 | the distance-seeded search returns the lower bound on every strictly ascending chain |
| `BdsSearch.Spread` | crates/bds/src/util.rs:41-67 | numbers are at least as far apart as positions, which justifies the seed |
| `BdsSearch.ComputeForkBase` | crates/bds/src/util.rs:6-35 | the two nested loops compute the recursive walk |
| `BdsSearch.DenseHintsAreExact` | crates/bds/src/util.rs:6-35 | on dense hints the walk returns the highest chain block among the hints, else the highest one below all of them, else none |
| `BdsSearch.HoleDefeats` | crates/bds/src/util.rs:26-31 | any hole in the hints makes the walk wrong on some chain |
| `BdsSearch.ExactIffDense` | crates/bds/src/util.rs:6-35 | the walk is exact for every chain if and only if the hints are dense |
| `BdsChain.PushKeepsValid` | crates/bds/src/chain.rs:65-105 | a push, taken or refused, keeps all deques aligned and linked and never touches finalized history |
| `BdsChain.CanPushIsExact` | crates/bds/src/chain.rs:65-105 | a push keeps the chain valid if and only if the block does not go onto a parent with its own number |
| `BdsLaws.PushIsExact` | crates/bds/src/chain.rs:65-105 | a block goes right behind its parent and drops what was there, onto nothing at all, or in place of everything when nothing is below its parent and nothing is final; it is refused exactly when its parent is missing above some reference or contradicts the finalized head, and what the refusal drops is said too |
| `BdsChain.CleanedKeepsValid` | crates/bds/src/chain.rs:122-137 | cleaning drops only stored blocks and keeps alignment and finalized history |
| `BdsChain.FinalizeKeepsValid` | crates/bds/src/chain.rs:139-168 | finalizing keeps the chain valid and only appends to finalized history |
| `BdsLaws.FinalizeIsExact` | crates/bds/src/chain.rs:139-168 | a reported reference of the chain becomes the finalized head and what is above it stays; a report above the newest of several makes the newest final; one below the oldest, or above a lone reference, changes nothing; any other is a mismatch and changes nothing |
| `BdsLaws.VerdictIsExact` | crates/bds/src/chain.rs:139-168 | a change is announced if and only if there is another finalized head than before |
| `BdsChain.StoredHeadIsSafe` | crates/bds/src/chain.rs:185-190 | every block at or below the stored head is saved, if and only if the first unstored block is no unsaved genesis |
| `BdsChain.StoredFinalizedIsMonotone` | crates/bds/src/chain.rs:192-205 | the stored finalized head names a saved finalized block at or above the last one reported |
| `BdsLaws.StoredHeadIsExact` | crates/bds/src/chain.rs:185-190 | the stored head is the reference right in front of the oldest block not stored yet, and the newest reference if there is none |
| `BdsLaws.StoredFinalizedIsExact` | crates/bds/src/chain.rs:192-205 | the stored finalized head is the highest reference at or below the finalized head whose block is not waiting to be stored; it exists exactly when that block is in hand or is the finalized head itself |
| `BdsLaws.MarkIsExact` | crates/bds/src/chain_watch.rs:29-54 | marking a block in hand flags it and no other, then drops the oldest blocks, stored ones only, until the oldest is not stored or the minimum is left; marking any other changes nothing |
| `BdsLaws.FinalBlockIsFinal` | crates/bds/src/chain.rs:170-183 | a final block that attaches is the finalized head |
| `BdsLive.Chain.constructor` | crates/bds/src/chain.rs:34-43 | a chain over an empty or finalized head is valid |
| `BdsLive.Chain.Push` | crates/bds/src/chain.rs:65-105 | the popping loop equals the landing function, its length assertion never fails, and finalized history is unchanged |
| `BdsLive.Chain.MarkStored` | crates/bds/src/chain.rs:107-120 | flags exactly the named block if it is in hand |
| `BdsLive.Chain.Clean` | crates/bds/src/chain.rs:122-137 | drops the longest stored front that leaves the minimum, references only while nothing is final |
| `BdsLive.Chain.Finalize` | crates/bds/src/chain.rs:139-168 | the verdict and the new deques are those whose exact effect `BdsLaws.FinalizeIsExact` states, and finalized history only grows |
| `BdsLive.Chain.FinalizeAll` | crates/bds/src/chain.rs:170-183 | everything up to the newest block becomes final |
| `BdsLive.Chain.GetStoredHead` | crates/bds/src/chain.rs:185-190 | reads the parent of the first unstored block, else the newest reference |
| `BdsLive.Chain.GetStoredFinalizedHead` | crates/bds/src/chain.rs:192-205 | reads the highest stored reference at or below the finalized head |
| `BdsLive.Chain.PushBack` | crates/bds/src/chain.rs:67-79 | attaches one block at the back of all deques |
| `BdsLive.Chain.PopBack` | crates/bds/src/chain.rs:101-103 | removes the newest entry from the back of all deques |
| `BdsRuns.StepAdvances` | crates/bds/src/chain_watch.rs:29-54 | every atomic step keeps validity, extends finalized history and never takes a report back |
| `BdsRuns.RunAdvances` | crates/bds/src/chain_watch.rs:29-54 | the same over every interleaving |
| `BdsRuns.FinalizedHeadIsNeverReplaced` | crates/bds/src/chain.rs:65-205 | a finalized head stays in finalized history after any interleaving |
| `BdsRuns.RangesNeverGoBack` | crates/bds/src/ingest/ingest.rs:116-148 | finalization ranges never go backwards and end at saved finalized blocks |
| `BdsLaws.NotedIsNext` | crates/bds/src/ingest/ingest.rs:116-148 | the next finalization range starts at the head that the last one ended at |
| `BdsLaws.FinalIsVouched` | crates/bds/src/chain.rs:65-205 | over every run, whatever becomes final is at or below a reported head or a pushed block that was final |
| `BdsRuns.StoredHeadIsAlwaysSafe` | crates/bds/src/ingest/ingest.rs:97-114 | over every run from a fresh chain the stored head covers saved blocks only, with the exact genesis exception |
| `BdsRuns.GenesisMisleads` | crates/bds/src/chain.rs:185-190 | a concrete chain whose stored head is at or below an unsaved genesis block |
| `BdsRuns.ForkBaseTakesTheNextBlock` | crates/bds/src/chain.rs:211-219 | a block whose parent is the computed fork base always attaches, keeping everything up to it |
| `ArrayOffsets.BisectOffsets` | crates/array/src/util.rs:65-81 | finds the range that holds an index if and only if there is one, on strictly increasing offsets |
| `ArrayOffsets.GetOffsetPosition` | crates/array/src/util.rs:83-94 | finds the range whatever range is tried first |
| `ArrayOffsets.BuildOffsets` | crates/array/src/util.rs:96-105 | entry i is the start plus the first i lengths |
| `ChunkRanges.BuildOrderList` | crates/array/src/chunking.rs:42-72 | non-empty ranges, each inside one chunk, expand back to the order and no two neighbours could be joined |
| `ChunkRanges.ChunkTracker.constructor` | crates/data-core/src/table_sort.rs:200-209 | a tracker stands for exactly the given order |
| `ChunkRanges.ChunkTracker.Find` | crates/data-core/src/table_sort.rs:211-275 | after any history of searches the pieces expand to exactly the window and each lies in one chunk |
| `SortOrder.KeysTotal` | crates/array/src/sort/order.rs:45-52 | the lexicographic order with nulls last is total and only equal keys compare equal |
| `SortOrder.KeysTransitive` | crates/array/src/sort/order.rs:12-40 | the lexicographic order is transitive |
| `SortOrder.KeyLeIsExact` | crates/array/src/sort/order.rs:12-62 | the comparators compute exactly this order: at the first column where two keys differ the smaller number, the list that is smaller at its first difference or a prefix, or the present value comes first |
| `SortOrder.FalseComesFirst` | crates/array/src/sort/order.rs:45-52 | false comes before true |
| `SortOrder.DispatchIsLexicographic` | crates/array/src/sort/sorting.rs:86-129 | one, two or many key columns, with or without a mask: two rows compare as their keys do, whose order `SortOrder.KeyLeIsExact` fixes, if every bit that is read can be read, and the comparison aborts otherwise |
| `SortOrder.ColumnOrderIsExact` | crates/array/src/sort/order.rs:45-67 | one column: the masks are read for both rows and the values only if both are present; an unreadable bit aborts |
| `SortOrder.SubCells` | crates/array/src/slice/struct.rs:176-178 | a window of a column shows exactly the rows it was cut from |
| `SortIndexes.SortTableToIndexes` | crates/array/src/sort/sorting.rs:86-129 | succeeds if and only if no two rows tie in the key columns before one that cannot be read for them; the result is a permutation of the rows under which keys ascend, nulls last |
| `SortIndexes.NumbersAscend` | crates/array/src/sort/sorting.rs:86-129 | rows arranged by one column of numbers without nulls ascend in these numbers |
| `SortIndexes.AtStartIsSortable` | crates/array/src/slice/bitmask.rs:41-45 | key columns whose bits start at bit 0 can always be sorted |
| `SortIndexes.InsideIsNotSortable` | crates/array/src/slice/bitmask.rs:41-45 | a first key column whose mask starts past bit 0 lets no comparison of the last row succeed, so two or more rows cannot be sorted |
| `SortIndexes.OneKeySortable` | crates/array/src/slice/nullmask.rs:42-45 | by one key column that is not boolean: sortable if and only if the mask starts at bit 0 or there are fewer than two rows |
| `SortIndexes.TwoRowsNotSortable` | crates/array/src/slice/bitmask.rs:31-45 | two rows without nulls, cut from a sortable column, that cannot be sorted |
| `SortIndexes.ComparableBeyond` | crates/array/src/sort/order.rs:12-40 | rows behind a greater row that they were compared with are comparable as well: a sort that finishes has met every unreadable pair |
| `SortIndexes.PermutedRows` | crates/data-core/src/table_sort.rs:49-66 | gathering rows by a permutation keeps every row exactly as often |
| `TableSort.TableSorter.constructor` | crates/data-core/src/table_sort.rs:22-47 | a new sorter stores nothing |
| `TableSort.TableSorter.PushBatch` | crates/data-core/src/table_sort.rs:49-66 | succeeds exactly when the batch can be sorted; then appends its rows in key order to all key and data columns and closes a chunk, and otherwise changes nothing |
| `TableSort.ReadChunkedRanges` | crates/data-core/src/table_sort.rs:143-179 | reads exactly the rows the ranges stand for, each through an existing chunk reader |
| `TableSort.WriteColumns` | crates/data-core/src/table_sort.rs:56-62 | every column of the table receives exactly the gathered rows |
| `TableSort.SortBatch` | crates/data-core/src/table_sort.rs:54-54 | the order of a batch exists exactly when the batch can be sorted, and arranges its rows by key |
| `TableSort.WholeCanBeSorted` | crates/array/src/slice/struct.rs:176-178 | a window from row 0 of columns whose bits start at bit 0 can be sorted |
| `TableSort.WindowCannotBeSorted` | crates/array/src/slice/struct.rs:176-178 | a window of two or more rows that starts further inside cannot be sorted by a first key column with a mask |
| `SortedTables.SortedTable.constructor` | crates/data-core/src/table_sort.rs:72-102 | finishing keeps the stored rows |
| `SortedTables.SortedTable.PrepareOrder` | crates/data-core/src/table_sort.rs:181-189 | always works out a sorted permutation of all rows and its chunk ranges, because builders show their bits from bit 0 |
| `SortedTables.BuilderView` | crates/array/src/builder/nullmask.rs:115-122 | a builder shows exactly its column, with a mask packed by the null-mask builder and every bit string from bit 0 |
| `SortedTables.SortedTable.ReadColumn` | crates/data-core/src/table_sort.rs:143-179 | appends the asked window of one fixed sorted table, for key and data columns alike, and never changes that table |
| `SortedTables.SortedTable.ReadKey` | crates/data-core/src/table_sort.rs:165-169 | a window of a key column gathered from memory is that window of the sorted table |
| `SortedTables.SortedTable.ReadData` | crates/data-core/src/table_sort.rs:170-178 | a window of a data column read range by range is that window of the sorted table |
| `SortedTables.ReadFound` | crates/data-core/src/table_sort.rs:173-176 | the first, whole and last chunks are read to exactly their rows |
| `SortRuns.SortAndRead` | crates/data-core/src/table_sort.rs:49-189 | a run aborts if and only if some batch cannot be sorted; otherwise, for any batches and any reads in any order, all answers are windows of one permutation of all input rows in which keys ascend, nulls last |
| `SortRuns.FromSlice` | crates/data-core/src/table_processor.rs:203-261 | the in-memory path gathers every column of one sorted permutation, aborts exactly when the batch cannot be sorted, and keeps the rows as they are when there is no key |
| `SortRuns.SortsAgreeOnKeys` | crates/data-core/src/table_processor.rs:197-202 | any two sorts of the same rows have the same key in every position |
| `SortRuns.GroupsAgree` | crates/data-core/src/table_processor.rs:197-202 | two sorts differ only among rows with equal keys: groups have the same place and contents |
| `SortRuns.Load` | crates/data-core/src/table_sort.rs:49-70 | loading succeeds exactly when every batch can be sorted, and then the sorter holds exactly their rows |
| `SortRuns.ReadAll` | crates/data-core/src/table_sort.rs:143-179 | all reads of one table are answered from one sorted arrangement |
| `NullMask.BitmaskBuilder.Append` | crates/array/src/builder/bitmask.rs:100-106 | appends one bit; byte length is ceil(len/8) and all bits past the end are zero |
| `NullMask.BitmaskBuilder.AppendSlice` | crates/array/src/builder/bitmask.rs:38-44 | appends exactly the bits of the slice under the same invariant |
| `NullMask.BitmaskBuilder.AppendSliceIndexes` | crates/array/src/builder/bitmask.rs:46-64 | appends exactly the chosen bits, whatever lower size hint was given |
| `NullMask.BitmaskBuilder.AppendSliceRanges` | crates/array/src/builder/bitmask.rs:66-73 | appends exactly the bits of the ranges |
| `NullMask.BitmaskBuilder.AppendMany` | crates/array/src/builder/bitmask.rs:75-98 | padding, filling and trimming bytes appends exactly count copies |
| `NullMask.BitmaskBuilder.Shift` | crates/array/src/builder/bitmask.rs:120-133 | drops exactly the leading bits |
| `NullMask.NullmaskBuilder.Append` | crates/array/src/builder/nullmask.rs:91-102 | appends one entry; bits exist exactly when a null was seen |
| `NullMask.NullmaskBuilder.AppendMany` | crates/array/src/builder/nullmask.rs:76-88 | appends count entries under the same rule |
| `NullMask.NullmaskBuilder.AppendSlice` | crates/array/src/builder/nullmask.rs:43-52 | appends the slice, staying a counter exactly when all of it is valid |
| `NullMask.NullmaskBuilder.AppendSliceIndexes` | crates/array/src/builder/nullmask.rs:54-63 | appends the chosen entries under the same rule |
| `NullMask.NullmaskBuilder.AppendSliceRanges` | crates/array/src/builder/nullmask.rs:65-74 | appends the ranges under the same rule |
| `NullMask.NullmaskBuilder.Clear` | crates/array/src/builder/nullmask.rs:37-41 | denotes the empty sequence again |
| `NullMask.AllValid` | crates/array/src/util.rs:37-40 | true exactly when every bit of the range is set |
| `NullMask.AllIndexesValid` | crates/array/src/util.rs:42-51 | the count exactly when every chosen bit is set |
| `NullMask.AllRangesValid` | crates/array/src/util.rs:53-62 | the total length exactly when every bit of the ranges is set |
| `NullMask.Finished` | crates/array/src/builder/nullmask.rs:37-121 | under any interleaving of appends and clears the mask denotes the plain sequence; it has bits exactly when there is a null, ceil(len/8) bytes of them, zero past the end |
| `NullMask.BitmaskBuilder.Clear` | crates/array/src/builder/bitmask.rs:22-25 | denotes the empty sequence |
| `NullMask.BitmaskBuilder.Resize` | crates/array/src/builder/bitmask.rs:33-36 | makes room with zero bits and changes no data |
| `NullMask.NullmaskBuilder.InitNulls` | crates/array/src/builder/nullmask.rs:104-109 | writes out exactly the entries that were only counted |
| `NullMask.NullmaskBuilder.Len` | crates/array/src/builder/nullmask.rs:29-35 | the number of entries, counted or packed |
| `Columns.ReadBitIffAtStart` | crates/array/src/slice/bitmask.rs:41-45 | single reads serve a whole mask view if and only if it starts at bit 0 or is empty |
| `Columns.ReadBitRefusesInside` | crates/array/src/slice/bitmask.rs:41-45 | a concrete view that refuses one of its own bits |
| `Columns.SubShows` | crates/array/src/slice/any.rs:345-346 | a sub-view exists if and only if the type is not a fixed-size list of anything but raw bytes, and then shows exactly the rows it was cut from |
| `Columns.NullIffAbsent` | crates/array/src/slice/nullmask.rs:42-45 | a row of a view of any type is null exactly when it is not marked as present |
| `Columns.ListsAreShown` | crates/array/src/slice/list.rs:168-173 | a concrete view of lists with a null list and a null number shows its rows |
| `Columns.FixedListsCannotBeSelected` | crates/array/src/slice/struct.rs:104-134 | a concrete struct of a fixed-size list that can be viewed but whose rows cannot be selected |
| `OffsetsBuilders.RebasedIsGrown` | crates/array/src/builder/offsets.rs:42-49 | rebasing a slice of offsets appends exactly the lengths of its entries |
| `OffsetsBuilders.OffsetsBuilder.AppendSlice` | crates/array/src/builder/offsets.rs:42-49 | the slice continues from the last offset |
| `OffsetsBuilders.OffsetsBuilder.AppendSliceIndexes` | crates/array/src/builder/offsets.rs:51-59 | appends the lengths of the chosen entries |
| `OffsetsBuilders.OffsetsBuilder.AppendSliceRanges` | crates/array/src/builder/offsets.rs:61-67 | appends the lengths of the entries of the ranges |
| `ColumnWriters.BuffersMatch` | crates/array/src/util.rs:111-139 | a view writes as many buffers as its type needs |
| `ColumnWriters.Destination.WriteNativeIndexes` | crates/array/src/builder/native.rs:24-57 | appends exactly the chosen values |
| `ColumnWriters.Destination.WriteNativeRanges` | crates/array/src/builder/native.rs:59-71 | appends exactly the values of the ranges |
| `ColumnWriters.Destination.WriteOffsets` | crates/array/src/slice/list.rs:82-94 | appends the rebased offsets of a run of rows |
| `ColumnWriters.Destination.WriteOffsetIndexes` | crates/array/src/slice/list.rs:110-131 | appends the offsets of the chosen rows |
| `ColumnWriters.Destination.WriteOffsetRanges` | crates/array/src/slice/list.rs:96-108 | appends the offsets of the row ranges |
| `ColumnSelect.MaskRanges` | crates/array/src/slice/bitmask.rs:58-60 | shifted ranges of a mask view are the chosen bits |
| `ColumnSelect.NullsRange` | crates/array/src/slice/nullmask.rs:63-72 | a range of a null mask, bits or none, is the chosen entries |
| `ColumnSelect.NullsRanges` | crates/array/src/slice/nullmask.rs:74-80 | ranges of a null mask, bits or none, are the chosen entries |
| `ColumnSelect.NullsIndexes` | crates/array/src/slice/nullmask.rs:82-92 | chosen entries of a null mask, bits or none |
| `ColumnSelect.ItemsOfRanges` | crates/array/src/slice/list.rs:96-108 | mapping row ranges to item ranges selects exactly the items of the selected rows |
| `ColumnSelect.NonEmptyIndexes` | crates/array/src/slice/list.rs:110-131 | leaving out empty item ranges changes nothing |
| `ColumnSelect.FixedOfRanges` | crates/array/src/slice/fixed_size_list.rs:89-95 | scaling ranges selects exactly the items of the selected rows |
| `ColumnSelect.AppendedSub` | crates/array/src/slice/struct.rs:104-134 | writing rows of a sub-view, where there is one, writes the shifted rows of the view it was cut from |
| `ColumnSelect.MaskRange` | crates/array/src/slice/bitmask.rs:51-56 | a range of a mask view is the chosen bits |
| `ColumnSelect.MaskIndexes` | crates/array/src/slice/bitmask.rs:62-74 | chosen positions of a mask view are the chosen bits |
| `ColumnSelect.ItemsOfRun` | crates/array/src/slice/list.rs:82-94 | the items of a run of rows are one run of items |
| `ColumnSelect.FixedOfRun` | crates/array/src/slice/fixed_size_list.rs:77-87 | the items of a run of fixed-size rows are one scaled run |
| `ColumnWrites.WriteListRange` | crates/array/src/slice/list.rs:82-94 | appends mask, rebased offsets and items of the row range |
| `ColumnWrites.WriteListRanges` | crates/array/src/slice/list.rs:96-108 | appends mask, offsets and items of the row ranges |
| `ColumnWrites.WriteListIndexes` | crates/array/src/slice/list.rs:110-131 | appends mask, offsets and items of the chosen rows |
| `ColumnWrites.WriteList` | crates/array/src/slice/list.rs:74-80 | appends mask, offsets and items of all rows |
| `ColumnWrites.WriteFixedRange` | crates/array/src/slice/fixed_size_list.rs:77-87 | appends mask and items of the row range |
| `ColumnWrites.WriteFixedRanges` | crates/array/src/slice/fixed_size_list.rs:89-95 | appends mask and items of the row ranges |
| `ColumnWrites.WriteFixedIndexes` | crates/array/src/slice/fixed_size_list.rs:97-112 | appends mask and items of the chosen rows |
| `ColumnWrites.WriteSrcRange` | crates/array/src/slice/struct.rs:59-68 | appends the mask and every column behind the buffers of those before it, with a running shift |
| `ColumnWrites.WriteStructRanges` | crates/array/src/slice/struct.rs:104-116 | appends the ranges of the windowed mask and columns, or aborts at the first column that cannot be cut or written |
| `ColumnWrites.WriteStructIndexes` | crates/array/src/slice/struct.rs:118-134 | appends the chosen rows of the windowed mask and columns, or aborts at the first column that cannot be cut or written |
| `ColumnWrites.WriteRange` | crates/array/src/slice/primitive.rs:65-68 | for every type, a range write is the canonical append of its rows |
| `ColumnWrites.WriteRanges` | crates/array/src/slice/primitive.rs:70-73 | a range-list write succeeds if and only if no struct in the type has a field that cannot be cut, and then is the canonical append of its rows |
| `ColumnWrites.WriteIndexes` | crates/array/src/slice/primitive.rs:75-82 | a index-list write succeeds if and only if no struct in the type has a field that cannot be cut, and then is the canonical append of its rows |
| `ColumnWrites.Write` | crates/array/src/slice/primitive.rs:60-63 | for every type, a whole write is the canonical append of all rows |
| `ColumnWrites.WriteSelection` | crates/array/src/slice/struct.rs:94-134 | whole and range writes always succeed, range-list and index-list writes exactly for selectable types; then exactly the selected logical values are appended and nothing else changes |
| `ColumnWrites.SelectionIs` | crates/array/src/slice/primitive.rs:60-82 | which rows the four kinds of selection name, and in which order |
| `ColumnWrites.WriteFixed` | crates/array/src/slice/fixed_size_list.rs:71-75 | appends mask and items of all rows |
| `ColumnGrowth.AppendedGrows` | crates/array/src/slice/list.rs:74-131 | for structs and lists of any depth, an append leaves the decoded column followed by exactly the chosen logical values |
| `ColumnGrowth.AppendedOutside` | crates/array/src/slice/struct.rs:59-134 | an append changes no buffer outside the column |
| `ColumnMeaning.ColumnFrame` | crates/array/src/builder/struct.rs:61-87 | what a column means depends on its own buffers only |
| `ColumnMeaning.CellNullIffAbsent` | crates/array/src/builder/nullmask.rs:115-122 | a row of built buffers of any type is null exactly when its bit is not set |
| `ColumnMeaning.ListsAreDecoded` | crates/array/src/builder/list.rs:128-134 | the same rows of lists, decoded from concrete buffers |
| `ColumnRouting.FindColumn` | crates/array/src/builder/struct.rs:52-58 | finds the column and inner index of a buffer if and only if the struct has one there |
| `ColumnRouting.Access` | crates/array/src/builder/any.rs:42-132 | an access succeeds if and only if that flat buffer exists and has the asked kind, and it reaches exactly that buffer |
| `ColumnRouting.AccessList` | crates/array/src/builder/list.rs:89-122 | the same for lists, whose own buffers come first |
| `ColumnRouting.AccessColumn` | crates/array/src/builder/struct.rs:64-86 | the same for structs, through the column search |
| `ColumnRouting.NewServesItsType` | crates/array/src/builder/any.rs:361-386 | a builder exists if and only if the type is buildable; it has exactly the buffers, in number, order and kind, that views of its type write, and they are a column without rows |
| `ColumnRouting.BuildableIsSelectable` | crates/array/src/visitor.rs:41-63 | every kind of selection can be written to every type that a builder or a file writer can be made for |
| `ColumnBuilds.Build` | crates/array/src/builder/any.rs:361-386 | from a new builder, any run of selections from any views leaves a column that shows exactly the selected values in order; it fails exactly for types that are not buildable |
| `ColumnRouting.AccessSized` | crates/array/src/builder/fixed_size_binary.rs:81-106 | an access reaches exactly the asked buffer of the asked kind, for fixed-size columns |
| `Downcast.MinimalType` | crates/data-core/src/downcast.rs:97-108 | the narrowest width that holds the maximum |
| `Downcast.GetMax` | crates/data-core/src/downcast.rs:82-95 | the greatest number of a column, those behind nulls included, or 0 |
| `Downcast.DowncastState.RegBlockNumber` | crates/data-core/src/downcast.rs:65-67 | the maximum covers the column, is one of its numbers or the old one, and never shrinks |
| `Downcast.DowncastState.RegItemIndex` | crates/data-core/src/downcast.rs:69-71 | the maximum covers the column, is one of its numbers or the old one, and never shrinks |
| `Downcast.CastPrimitive` | crates/array/src/item_index_cast.rs:79-103 | succeeds exactly when every number fits, and then appends the same numbers and nulls |
| `Downcast.CastAddress` | crates/array/src/item_index_cast.rs:127-145 | the same for lists, whose offsets are rebased |
| `Downcast.CastItemIndex` | crates/array/src/item_index_cast.rs:58-77 | succeeds exactly when the cast exists and every number fits |
| `Downcast.AppendedSteps` | crates/data-core/src/table_processor.rs:326-341 | appending two selections one after the other is appending their concatenation |
| `Downcast.ReadColumn` | crates/data-core/src/table_processor.rs:308-344 | casting 1000 rows at a time equals casting the whole window, and fails exactly when no cast exists |
| `Downcast.RegisteredIsReadable` | crates/data-core/src/table_processor.rs:364-390 | 64-bit block numbers and 32-bit item indexes are always readable; 32-bit lists exactly when the maximum fits 32 bits |
| `Downcast.ListBesideWideIndex` | crates/data-core/src/table_processor.rs:308-344 | a concrete list of 32-bit item indexes beside a registered 64-bit one above 32 bits cannot be read |
| `Downcast.Register` | crates/data-core/src/table_processor.rs:349-362 | after registration every number of every column is covered |
| `Downcast.RegisterAndRead` | crates/data-core/src/table_processor.rs:308-390 | with all columns registered first, any window of any of them is read without error and with every value unchanged |
| `Downcast.DowncastState.Reset` | crates/data-core/src/downcast.rs:60-63 | back to the initial maxima |
| `ArchiveLayout.GetChunks` | crates/archive/src/layout.rs:109-141 | with all its early exits the scan returns exactly the overlapping chunks in order |
| `ArchiveLayout.OverlapIsShared` | crates/archive/src/layout.rs:109-141 | a chunk overlaps a range if and only if they have a block in common |
| `ArchiveLayout.WantedIsExact` | crates/archive/src/layout.rs:109-141 | asked for are exactly the chunks that have a block in the range, in order |
| `ArchiveLayout.GetChunksInReversedOrder` | crates/archive/src/layout.rs:143-169 | the reversed scan returns exactly the same chunks in reverse |
| `ArchiveLayout.ScanShelf` | crates/archive/src/layout.rs:130-138 | one top directory: exactly the overlapping chunks, stopping only when no later one can overlap |
| `ArchiveLayout.ScanShelfReversed` | crates/archive/src/layout.rs:158-166 | one top directory from the last chunk down, stopping only when no earlier one can overlap |
| `ArchiveShape.AddKeepsShape` | crates/archive/src/layout.rs:253-272 | a chunk issued by the tracker keeps ranges tiled and top directories filled in order, each to its size and none beyond it |
| `ArchiveShape.RoomLeft` | crates/archive/src/layout.rs:253-272 | a chunk that goes into the last top directory finds room there |
| `ArchiveShape.DropKeepsShape` | crates/archive/src/layout.rs:205-211 | deleting the last chunk directory keeps the layout, whether or not an empty top directory stays |
| `ArchiveShape.ShapeIsLaid` | crates/archive/src/layout.rs:109-169 | what one writer leaves behind meets what the scans rely on |
| `ArchiveTracker.IssuedFits` | crates/archive/src/layout.rs:249-272 | an issued chunk continues the layout and the tracker stands at its end again |
| `ArchiveTracker.ChunkTracker.NextChunk` | crates/archive/src/layout.rs:253-272 | issues the next chunk and rolls over to a new top directory when the current one is full |
| `ArchiveTracker.ChunkCheck` | crates/archive/src/archive.rs:101-108 | true exactly when some file name starts with the block table name |
| `ArchiveTracker.CleanedIsSound` | crates/archive/src/layout.rs:195-211 | deleting the unfinished directory leaves a layout in which everything is written |
| `ArchiveResume.FindLast` | crates/archive/src/layout.rs:171-203 | refuses exactly the ranges that belong partly to another writer |
| `ArchiveResume.GetTopChunks` | crates/archive/src/layout.rs:73-107 | the chunks of the named top directory, none if there is none |
| `ArchiveResume.OwnRange` | crates/archive/src/layout.rs:171-203 | a writer restarted with the same parameters finds all of its chunks and nothing foreign |
| `ArchiveResume.CreateChunkTracker` | crates/archive/src/layout.rs:171-230 | deletes exactly an unfinished last directory and resumes at the block after the last one that is written |
| `ArchiveResume.Clean` | crates/archive/src/layout.rs:194-211 | deletes the last chunk exactly when it is unfinished, and the one before it then is the last |
| `ArchiveResume.Resume` | crates/archive/src/layout.rs:213-229 | the tracker stands behind the last chunk, in its top directory |
| `ArchiveRuns.SubmitKeeps` | crates/archive/src/proc.rs:131-156 | issuing ahead of the writer keeps the invariant |
| `ArchiveRuns.MoveKeeps` | crates/archive/src/writer.rs:58-62 | moving any table before the block table keeps the invariant |
| `ArchiveRuns.OpenKeeps` | crates/archive/src/fs/local.rs:41-48 | creating the directory of the next chunk before its first file keeps the invariant |
| `ArchiveRuns.OpenTopKeeps` | crates/archive/src/fs/local.rs:41-48 | creating only its top directory keeps the invariant |
| `ArchiveRuns.FinishKeeps` | crates/archive/src/writer.rs:64-65 | moving the block table completes exactly the first queued chunk |
| `ArchiveRuns.RestartKeeps` | crates/archive/src/layout.rs:171-230 | a restart keeps the invariant, leaves nothing unfinished and continues behind what is written |
| `ArchiveRuns.RunKeeps` | crates/archive/src/writer.rs:41-71 | every run of submissions, directory creations, moves, crashes, interrupted deletions and restarts keeps the invariant |
| `ArchiveRuns.ArchiveIsAlwaysTiled` | crates/archive/src/layout.rs:109-272 | after any run the written directories tile the blocks from the first one on, at most one directory is unfinished and it is the last, and a restart resumes right behind |
| `ArchiveRuns.EraseKeeps` | crates/archive/src/layout.rs:207-210 | a crash inside a deletion leaves an unfinished last directory as before |
| `ArchiveProc.Proc.SubmitChunk` | crates/archive/src/proc.rs:131-156 | sends exactly the buffered blocks under the next chunk; the assertions of the tracker hold |
| `ArchiveProc.Proc.Push` | crates/archive/src/proc.rs:99-115 | a change of mask closes the chunk before the block and a full chunk is closed behind it |
| `ArchiveProc.Proc.Check` | crates/archive/src/proc.rs:76-97 | accepts exactly the blocks that follow: after a chunk, those whose parent hash ends with the chunk's name or has it behind its first two characters; inside a stream, those that name the previous block, if asked to look |
| `ArchiveProc.Proc.Run` | crates/archive/src/proc.rs:71-129 | cuts the stream where it must and only there, and stops exactly at the first block that does not follow |
| `ArchiveProc.SentIsPrefix` | crates/archive/src/proc.rs:71-129 | the sent chunks concatenate to a prefix of the stream, to all of it when nothing failed |
| `ArchiveProc.ItemIsUniform` | crates/archive/src/proc.rs:99-156 | each chunk has one mask, holds blocks of its range only, ends at its last block and is named after the last eight characters of that block's hash |
| `ArchiveProc.ItemIsMaximal` | crates/archive/src/proc.rs:99-129 | a chunk ends only where it is full, where the mask changes, or with what was sent, and no block in it but the last filled it |
| `ArchiveProc.ShortHashIsEnd` | crates/archive/src/proc.rs:179-182 | the short hash is exactly the last eight characters, or the whole hash if it is shorter |
| `ArchiveProc.FallbackIsMiddle` | crates/archive/src/proc.rs:184-186 | the fallback is exactly the third to tenth character, or empty if there are not as many |
| `ArchiveProc.RestartLinks` | crates/archive/src/proc.rs:76-85 | a process restarted on the layout another one left accepts a first block if and only if its parent hash fits the name of the last chunk written; so it accepts the block that comes next |
| `ArchiveProc.SentKeepsShape` | crates/archive/src/proc.rs:131-156 | whatever is sent keeps tiling the layout the tracker started from |

## Left out

- Integer widths: numbers are unbounded; row, offset and length totals are taken to fit the original's `u32` and `i32`, and block
  numbers to fit `u64`.
- HTTP, timers, metrics, tracing, command lines: poll results, elapsed timers and atomic steps are parameters instead.
- Payloads and timestamps of blocks: only numbers, hashes, parents and data masks are kept; hashes of different branches are
  distinct by construction.
- Injected source faults, request statistics and lagging peers of the simulator: the theorems are about honest sources.
- HotModel.Model.Retain: needs a bound of at least 1, as the original's block arithmetic does.
- DataSource.StandardDataSource.PollEndpoint: the polls of one endpoint are a finite list; an endpoint that never waits is not
  modelled.
- The scheduling of the store writer and back-pressure of the live chain: saves complete in any order and at any time instead.
- BdsChain.CanPush: leaves out a block that has its parent's number and goes onto that very parent, for which no claim is made
  (`CanPushIsExact`).
- BdsLive.Chain.MarkStored: asks that the block was saved before, which is when the writer calls it.
- Floating-point, struct and nested-list sort keys: the original refuses them; numbers, byte strings and lists of numbers are
  modelled as numbers and number sequences.
- SortIndexes.SortTableToIndexes: the standard library's unstable sort is replaced by an insertion whose contract leaves ties
  open. Which tables abort is proved for the insertion; whether another sort meets the same unreadable pairs is proved for the
  first key column only (`InsideIsNotSortable`), and that none aborts where no pair is unreadable (`AtStartIsSortable`).
- TableSort.TableSorter.PushBatch: temporary files are sequences of cells; key and data columns are of buildable types, for which
  a column can always be cut and written.
- SortedTables.SortedTable.ReadColumn: asks for an existing column; the original's check counts a repeated key column twice.
- Reuse of a finished table as a sorter and the unsorted spill path: they would only add easy members.
- NullMask.SetBits: copies bit by bit under the contract of the Arrow routine, which works word by word.
- NullMask.AllValid: looks at bits one by one where the original counts ones in words.
- ColumnWriters.Destination.WriteNulls: a null-mask buffer is the plain sequence that `NullMask.Finished` shows the packed builder
  to denote.
- Writes of whole tables (`AnyTableSlice`), which are struct writes without a mask, and the chunked file readers.
- Downcast.GetMax: numbers of index columns are not negative; the original widens a negative maximum of a signed column to a
  number of 64 bits, and refuses to cast signed columns.
- Downcast.ReadColumn: a step's rows are a view of the column; the original copies them into a buffer first.
- Downcast.Register: columns are registered in one pass; the sharing of the maxima between threads is not modelled.
- Directory names and their parsing, foreign entries in listings: listings are given parsed and sorted.
- ArchiveResume.CreateChunkTracker: for the directories that one writer with unchanged parameters leaves behind; `FindLast` says for
  all others when it refuses.
- ArchiveTracker.ChunkTracker.NextChunk: its assertions are preconditions, which `ArchiveProc.Proc.Run` shows to hold.
- ArchiveProc.Proc.Run: whether a chunk is full after a block is a parameter; table contents and their filtering by mask are not
  modelled.
- The query engine, the storage modules, Parquet and Polars wrappers, hashing and Bloom filters.
