# Bookkeeping of an agent runtime, verified

The runtime runs a main agent per session and any number of background sub-agents. Between the model, the database and
the browser it keeps books: what each agent is shown of the stored conversation, what each browser is shown of the
stream, who owes whom a wake-up, and which shared resources may be torn down. This project models those books and
proves what they promise, for every input, every run and every interleaving.

* **Context pipeline** (`Items`, `Projection`, `ProjectionContents`, `Compaction`, `ContextBudget`, `ToolTransactions`,
  `TransactionParts`, `ModelInput`). Stored messages are projected per viewer, a closed prefix is replaced by a summary,
  the list is pruned to a token budget, and tool calls are regrouped with their outputs. The weight of an item is an
  arbitrary natural number plus 4.
* **Timeline** (`Events`, `LiveProjection`, `StreamSegments`, `SegmentRuns`, `TimelineKeys`, `SequenceStamps`,
  `TimelineWriter`, `TimelinePaging`). Streamed segments, their live view, their seqs, the batching writer behind them
  and the pages read back from it.
* **Delegation** (`Notifications`, `Drain`, `SubagentDrivers`, `MainDriver`). The task and notification tables with
  their transactions, the drain loop, and the drivers that sleep, wake and give up.
* **Self-contained algorithms** (`LightRagGate`, `MountGraph`, `Utterances`).

Code that changes state in place is modelled by classes and methods with loops, proved against functions on values; the
laws are lemmas about those functions. What an operation does is told a second time without them, from the input or from
the steps of a run alone, and the two are proved to agree: what a viewer is shown from the fields of the stored items,
what the provider is sent from the cuts of the history, how a task ends from the moves of its drive, how many relaunches
a driver has behind it from its checks, which rows are stored from the calls. Interleaved code is modelled as steps between two awaits, each database
transaction being one step; the invariants are proved for every sequence of steps.

Where a promise holds only under a condition, the condition is stated and an input that breaks it is given:

* Pending work of a sub-agent is abandoned exactly when a step cuts the last call for a driver that is asleep, stranded
  or about to sleep, or strands the driver itself while nobody calls it (`SubagentDrivers.WakeUpsAreLostExactly`). A
  drive is stranded, registered and over, exactly when a cancellation strikes it before its first step, or a
  cancellation or an error strikes its last handlers (`SubagentDrivers.StrandedExactly`). Runs that get there:
  `SubagentDrivers.CutFailureLosesWakeUp`, `SubagentDrivers.CutBeforeBeginLosesWork`,
  `SubagentDrivers.ErrorInHandlerLosesWork`, and with a running task `SubagentDrivers.CutBeforeCommitStrands`,
  `SubagentDrivers.CutBeforeBeginStrands`.
* A sleeping sub-agent has something outstanding or is being called, except exactly after a transaction of nobody's
  drive cancels all that is outstanding for it, or the last call is cut when nothing is
  (`SubagentDrivers.SleepersAreForgottenExactly`, reached in `SubagentDrivers.UnregisteredChildIsForgotten`).
* The main agent's wake-ups are lost exactly when its resume call is cut (`MainDriver.WakeUpsAreLostExactly`, reached in
  `MainDriver.CallCanBeLost`). What an interrupt leaves, a message queued while the cancelled drive unwinds included,
  waits for the next launch (`MainDriver.MessageWaitsForLaunch`).
* A sub-agent completes with something outstanding exactly when a row registered after its last check still is; such a
  row takes a shielded starter that outlived its turn (`SubagentDrivers.CompletionOwes`, reached in
  `SubagentDrivers.OutlivingStarterIsMissed`).
* Two events share a durable key exactly when they are about one segment, call, result or task, or a colon inside the id
  of a nested call makes their ids read the same (`TimelineKeys.KeysCoincideExactly`, `TimelineKeys.ColonsCollide`).
* A restart of the LightRAG instance publishes one exactly if it met no error and no cancellation, or just one and was
  given a fallback (`LightRagGate.EndsAsItCame`).
* A user interrupt does not spare the messages "never claimed since the last reset": a message claimed, released and
  then left alone by a reset keeps its start time (`Notifications.ReleasedMessageIsNotSpared`). It spares exactly those
  not claimed since the last reset that found them in processing (`Notifications.InterruptSparesExactly`).
* Cancellation of a drain does not always hand the last item back: struck before the commit of a completion that
  follows a preemption, of a failure or of a release, or after the commit of a claim, it leaves the item in processing
  (`Drain.ItemsEnd`).
* The LightRAG gate stays safe under every cancellation, but its count is too high exactly by the readers cut on their
  way out, and its flag is stuck exactly when a transition was cut on its way out (`LightRagGate.CountIsExact`,
  `LightRagGate.FlagIsStuckExactly`); either blocks it for good (`LightRagGate.CutExitsBlock`).
* Batching equals one-by-one upserts exactly when every new key of a batch keeps its seq
  (`TimelineWriter.CollapseIsExact`); stamping guarantees that provided the log is loaded first
  (`SequenceStamps.AcceptedRowsAreStable`, `SequenceStamps.StampBeforeLoadDiverges`). A status stored past the session
  objects shares its seq with another item exactly when an accepted row that is not stored yet carries the seq after
  the head (`SequenceStamps.HeadBeforeStoreClashes`, reached in `SequenceStamps.ReplacedTooEarly`).
* A returned flush means stored rows unless an upsert failed: a failure is logged, and exactly the rows of its batch are
  lost (`TimelineWriter.ResolvedMeansStored`, `TimelineWriter.OnlyFailuresLose`).
* Paging shows every row once exactly when no page begins between two rows of one seq
  (`TimelinePaging.WalkVisitsEachRowOnce`, `TimelinePaging.EqualSeqsLoseARow`).
* Publishing the completions of a turn leaves segments open that streamed only empty text
  (`StreamSegments.EmptySegmentStaysOpen`), and a turn that fails publishes none (`StreamSegments.FailedTurnStaysOpen`).
* An input whose summary is too large for the budget loses the summary; the notice is shown exactly when other items
  were left out (`ContextBudget.PrunedShape`), which is always the case when the summary is kept
  (`ContextBudget.KeptAnchorHasNotice`).

## Model

| member | source | states |
|---|---|---|
| Items.TokensAppend | core/conversation/compaction.py:67-73 | the estimate of a list is the sum of the estimates of its parts, whatever the encoder |
| Projection.FilterCompacted | core/conversation/projection.py:158-161 | the messages behind the cut, in order |
| Projection.LookupToolGroup | core/conversation/projection.py:172-184 | the group of a tool item depends on owner and call id only, memo or not |
| Projection.VisitItem | core/conversation/projection.py:116-152 | an item of the viewer or of the user leads out the pending block and itself unchanged, another agent's non-empty message is collected, and everything else is hidden, by the fields of the item |
| Projection.ProjectTopLevel | core/conversation/projection.py:100-155 | the loop equals the recursive projection with its final flush |
| Projection.ProjectVisible | core/conversation/projection.py:77-155 | both the nested and the top-level loop equal the recursive projection |
| Projection.ProjectContext | core/conversation/projection.py:52-74 | the summary, if any, followed by the projection of what lies behind its cut, which shows exactly the parts of `ProjectionContents.ProjectionShowsParts` |
| Projection.ProjectionKeepsIds | core/conversation/projection.py:77-155 | conservation: the source ids of the projection are exactly the ids of the visible messages, once each and in order; which these are is `ProjectionContents.SourcesAreShown` |
| ProjectionContents.ProjectionShowsParts | core/conversation/projection.py:77-155 | what a viewer is shown is determined by the fields of the stored items: cut the shown items into single ones (the viewer's, and what the user said) and maximal runs of other agents' messages, and every part appears as one projected item, unchanged or as a block with the texts in order; there is one such cut |
| ProjectionContents.PartsAreUnique | core/conversation/projection.py:110-155 | a list of shown items can be cut so in one way only |
| ProjectionContents.ShownItemAppears | core/conversation/projection.py:110-155 | every un-nested user item but foreign internal context, and every item of the viewer, appears unchanged as its own item; every non-empty assistant message of another agent appears in a block with its text |
| ProjectionContents.SourcesAreShown | core/conversation/projection.py:77-155 | the sources of the projection are the ids of exactly these items, each once and in order: every other item appears nowhere |
| ProjectionContents.JoinAppend | core/conversation/projection.py:187-202 | the text of a block is its texts in order with an empty line between any two |
| ProjectionContents.GroupsCoincideExactly | core/conversation/projection.py:172-184 | exactly tool items with an id have a group, and two share it iff they are of one owner's call or a colon in an owner's code makes them read the same |
| Projection.CutFrom | core/conversation/projection.py:100-155 | cutting at the last id of any projected item but the last leaves exactly the items after it, even when more messages follow |
| Projection.CutNested | core/conversation/projection.py:90-98 | the same for the projection of a nested scope |
| Projection.ProjectCut | core/conversation/projection.py:52-155 | the clean cut for any viewer, and the items before it would not have changed any more |
| Projection.AfterTwice | core/conversation/projection.py:158-161 | filtering by two cuts is filtering by the later one |
| Compaction.PreservedTail | core/conversation/compaction.py:260-270 | the kept tail is the shortest one that reaches both recency minimums, or everything |
| Compaction.SelectCandidates | core/conversation/compaction.py:251-306 | the loop returns the selection described by `Selected`: early, everything, or the longest closed prefix |
| Compaction.SelectionIsClosed | core/conversation/compaction.py:251-306 | a non-empty selection is a prefix with every group an even number of times, and the tail behind it is recent enough |
| Compaction.GroupNeverSplit | core/conversation/compaction.py:273-306 | a tool group occurring at most twice is compacted whole or not at all |
| Compaction.SelectionIsUnique | core/conversation/compaction.py:251-306 | the specification leaves no choice between two results |
| Compaction.CandidateBounds | core/conversation/compaction.py:314-321 | the stored bounds are the first id of the first and the last id of the last candidate |
| Compaction.CompactionCommutes | core/conversation/compaction.py:131-232 | re-projecting under the new cut shows the summary and then the old context from item k on, also after any later messages |
| Compaction.StepKeepsSound | core/conversation/compaction.py:211-232 | an append or a compaction keeps the context a summary plus a suffix; the start id stays and the end id never falls |
| Compaction.EveryRunIsSound | core/conversation/compaction.py:88-107 | in every run of appends and compactions the context is the latest summary followed by a suffix of the full projection |
| Compaction.CompactIfNeeded | core/conversation/compaction.py:110-248 | below the trigger nothing happens; otherwise the closed selection is stored iff it is long enough and was summarised, and the turn is stopped iff the summary of a long enough selection failed or is blank at the hard limit |
| Compaction.Settle | core/conversation/compaction.py:142-220 | stored iff summarised and long enough; stopped iff the summary failed or is blank, the selection is long enough and the hard limit is reached; a busy lock or too few candidates skip |
| ContextBudget.BuildChunks | core/conversation/context_budget.py:194-238 | the loop cuts where the recursive split cuts, and measures every chunk |
| ContextBudget.ChunksNeverSplitACall | core/conversation/context_budget.py:194-238 | the chunks concatenate to the input and every chunk but the last ends with no open call |
| ContextBudget.OpenExactly | core/conversation/context_budget.py:207-234 | an id is open iff a call of the list has it and no later output does |
| ContextBudget.SelectRecentChunks | core/conversation/context_budget.py:241-252 | the longest suffix of chunks within the budget, and how many were omitted |
| ContextBudget.DropOrphanToolItems | core/conversation/context_budget.py:263-288 | the two set comprehensions and the loop keep exactly the items of paired ids |
| ContextBudget.OrphanFilterMatches | core/conversation/context_budget.py:263-288 | on any input the remaining calls and outputs have the same ids, and the weight does not grow |
| ContextBudget.OrphansAreExact | core/conversation/context_budget.py:263-288 | an item stays, as often as it was there, iff it is no tool item or its id is among the paired ones |
| ContextBudget.IdsExactly | core/conversation/context_budget.py:264-275 | an id is among the call (or output) ids iff a call (or output) of the list carries it |
| ContextBudget.ChunkSuffixHasNoOrphans | core/conversation/context_budget.py:158-170 | on pair-complete input with unique ids the filter removes nothing from a suffix of chunks |
| ContextBudget.PrunedFits | core/conversation/context_budget.py:141-172 | whatever pruning selects is within the item budget, so the later overflow error is unreachable |
| ContextBudget.PrunedShape | core/conversation/context_budget.py:158-170 | the result is the kept summary, the notice iff anything was left out, and the rest without orphans |
| ContextBudget.KeptAnchorHasNotice | core/conversation/context_budget.py:147-168 | when the input is too large, a kept summary is directly followed by the notice; the notice follows whatever summary is kept as soon as one chunk is left out |
| ContextBudget.SummaryAndSuffix | core/conversation/context_budget.py:141-168 | the leading summary is kept iff it and the notice leave room; the longest suffix of whole chunks that fits beside the two is kept, and the newest chunk is too large iff it alone does not fit |
| ContextBudget.PruneItemsToBudget | core/conversation/context_budget.py:141-182 | it fails exactly when the newest chunk does not fit, and otherwise keeps the longest fitting suffix |
| ContextBudget.ConstrainModelInput | core/conversation/context_budget.py:83-120 | input that fits is returned unchanged; errors occur exactly for instructions or newest chunk too large; a result is within budget and shows the notice behind a kept summary |
| ContextBudget.InputBudget | core/conversation/context_budget.py:67-80 | at least one token, short of the window, and otherwise the largest budget that respects the ratio and leaves the completion slack |
| ToolTransactions.ToolTransaction.AddCall | core/agent/model_input.py:31-36 | a call is taken iff its id is non-empty and new to the transaction; a refused call changes nothing |
| ToolTransactions.ToolTransaction.AddOutput | core/agent/model_input.py:38-42 | an output is taken iff its call is open and unanswered |
| ToolTransactions.ToolTransaction.OrderedItems | core/agent/model_input.py:48-53 | calls, then their outputs in call order, then the deferred items |
| ToolTransactions.ToolTransactionNormalizer.Run | core/agent/model_input.py:64-78 | the loop with its fields equals the fold of the step function |
| ToolTransactions.OutputIsGrouped | core/agent/model_input.py:56-113 | the output is a concatenation of ordinary items and blocks of n calls with distinct non-empty ids and their n outputs in order |
| ToolTransactions.GroupedIsUnchanged | core/agent/model_input.py:56-113 | such a list is returned as it is |
| ToolTransactions.NormalizeIsIdempotent | core/agent/model_input.py:56-113 | normalising twice is normalising once |
| ToolTransactions.OrdinaryOrderIsKept | core/agent/model_input.py:92-110 | no non-empty ordinary item is lost, added or reordered |
| ToolTransactions.NothingIsLost | core/agent/model_input.py:80-113 | with distinct ids and every call answered once later, the output is a permutation of the input without empty messages |
| TransactionParts.NormalizeShowsParts | core/agent/model_input.py:56-113 | for any history: cut it at its calls into single items, runs that finish at the item that answers their last open call, and runs abandoned at a call without id or of a repeated one; the provider is sent of a finished run its calls, their first answers and the ordinary items in between, of everything else the ordinary items |
| TransactionParts.PartsAreUnique | core/agent/model_input.py:56-113 | a history can be cut so in one way only |
| ModelInput.Adapt | core/agent/model_input.py:17-21 | internal ids are stripped item by item, then the list is normalised; nothing that comes out can be told to be internal context |
| ModelInput.OnlyInternalIdsGo | core/agent/model_input.py:17-21 | item by item nothing changes but the id of internal context items |
| ModelInput.NothingInternalLeaves | core/agent/model_input.py:17-21 | no item that reaches the provider carries an internal id |
| ModelInput.SuffixIsPairComplete | core/conversation/context_budget.py:158-170 | behind a part whose calls are all answered a pair-complete list is pair-complete again |
| ModelInput.PrunedInputLosesNothing | core/agent/model_input.py:17-21 | a pair-complete history pruned to its last chunks, however many, reaches the provider as a permutation of what pruning selected: no call and no output is lost on the way |
| LiveProjection.LiveEventProjection.Apply | core/runtime/live_projection.py:50-78 | with exact index maps, applying an event is a linear search with replacement in place or append, and the maps stay exact |
| LiveProjection.LiveEventProjection.Reset | core/runtime/live_projection.py:41-43 | the list is the run-state event alone and the maps are exact |
| LiveProjection.LiveEventProjection.Snapshot | core/runtime/live_projection.py:45-48 | the events that satisfy the filter, in order |
| LiveProjection.LiveEventProjection.ApplySegmentComplete | core/runtime/live_projection.py:100-112 | a completion takes the place of the open delta of its segment and closes it |
| LiveProjection.LiveEventProjection.RebuildIndexes | core/runtime/live_projection.py:140-155 | from a list with distinct open keys the loop makes all four maps exact |
| LiveProjection.TablesAreDetermined | core/runtime/live_projection.py:34-39 | the list determines its four maps, so equal lists behave equally on every later event |
| LiveProjection.PutAbsent | core/runtime/live_projection.py:94-97 | without an open event of that key, putting is appending |
| LiveProjection.PutPresent | core/runtime/live_projection.py:98-98 | with one, putting replaces the first in place |
| LiveProjection.ApplyKeepsReplayable | core/runtime/live_projection.py:50-78 | applying an event keeps the list replayable |
| LiveProjection.EveryRunIsReplayable | core/runtime/live_projection.py:41-78 | every reachable list is replayable: at most one run-state event, and it is first |
| LiveProjection.SnapshotReplays | core/runtime/live_projection.py:45-78 | folding any filtered snapshot of a reachable projection into an empty one reproduces it |
| LiveProjection.ReplayableIsExact | core/runtime/live_projection.py:50-78 | a list replays to itself iff it is replayable |
| LiveProjection.AppliedMeans | core/runtime/live_projection.py:50-138 | an event takes the place of the open event of the same segment, call, result or task, and is put behind if there is none, unless it ends a nested run |
| LiveProjection.SurvivorsAreListed | core/runtime/live_projection.py:41-138 | in every run the list holds of every segment, call, result and task the latest state since the run began, of everything else each event, the last run state alone, and no end of a nested run |
| StreamSegments.SegmentIdsAreUnique | core/runtime/events.py:123-129 | one scope gives no two segments the same id |
| StreamSegments.SdkStreamEventNormalizer.EventFromSdkStream | core/runtime/events.py:83-94 | every kind of SDK event moves the normalizer and emits as the transition function says; segments keep distinct issued ids, and a text event carries id and text of one of them |
| StreamSegments.SdkStreamEventNormalizer.OpenSegment | core/runtime/events.py:102-110 | a new segment exactly when none is there or a delta follows completion |
| StreamSegments.SdkStreamEventNormalizer.AppendDelta | core/runtime/events.py:112-116 | the returned text is the accumulated text of the segment |
| StreamSegments.SdkStreamEventNormalizer.CompleteText | core/runtime/events.py:118-121 | the segment has the final text and is complete |
| StreamSegments.DeltaBuffers.TrackDelta | core/runtime/partial_context.py:28-41 | deltas accumulate, a completion replaces the content and closes the buffer |
| StreamSegments.DeltaBuffers.IncompleteSegmentEvents | core/runtime/partial_context.py:70-95 | one completion for each unfinished non-empty buffer, and nothing else |
| StreamSegments.AppliedOpen | core/runtime/live_projection.py:86-112 | the open deltas after publication are the published one and those it did not replace |
| StreamSegments.StepAgrees | core/runtime/session.py:378-391 | normalizing, tracking and publishing an event, or anything published elsewhere, keeps the three views in agreement |
| StreamSegments.EveryRunAgrees | core/runtime/session.py:376-391 | in every run of a turn, interleaved with other streams and run-state resets, the views agree |
| StreamSegments.SegmentViewsAgree | core/runtime/partial_context.py:28-41 | in every run of a turn a segment's text in the normalizer, its buffer and its open live event are equal; an incomplete segment is shown open, a complete one never |
| StreamSegments.ClosingLeavesNoText | core/runtime/partial_context.py:70-95 | once the completions are out, in any order and mixed with other events, no open delta of the turn has text |
| StreamSegments.CompletionsClose | core/runtime/session.py:389-390 | the list that the buffers report, once tagged, is such a set of completions |
| StreamSegments.PublishCompletions | core/runtime/session.py:420-432 | what the buffers report is published, after a whole turn and after a cut one, and is such a set of completions |
| StreamSegments.ClosedOff | core/runtime/session.py:389-390 | once a turn whose three views agree is closed so, no open event of it has text |
| StreamSegments.StreamTurn | core/runtime/session.py:376-391 | the streaming loop, from fresh normalizer and buffers to its completions, follows the model of a turn and leaves no open event with text |
| StreamSegments.FailedTurnStaysOpen | core/runtime/session.py:403-417 | a turn that fails publishes no completions: exactly the events open before stay open, with their text |
| StreamSegments.EmptySegmentStaysOpen | core/runtime/partial_context.py:85-87 | a segment of empty deltas is not completed |
| SegmentRuns.OneSegmentExactly | core/runtime/events.py:83-144 | two text events of a turn show one segment iff they are of the same part of the same response and the text did not go on after a completion in between, by the SDK events alone |
| SegmentRuns.TextIsTheDeltas | core/runtime/events.py:112-116 | the text of a delta event is what all deltas of its segment add up to, in order |
| SegmentRuns.TextIsEmitted | core/runtime/events.py:146-208 | a text event of the SDK comes out as a delta or a completion of its kind, with the id and the text of its segment |
| SegmentRuns.PartKeysCoincideExactly | core/runtime/events.py:236-262 | two parts have one key iff kind, indices, response and output agree |
| TimelineKeys.PersistableHasKey | core/runtime/timeline.py:26-45 | an event is stored iff it is keyless, or carries an id and is no delta |
| TimelineKeys.KeylessIsNeverKeyed | core/runtime/timeline.py:26-40 | a keyless item never shares its durable key with an item that carries an id |
| TimelineKeys.KeylessKeysAreUnique | core/runtime/session.py:620-624 | keyless emissions with different seqs have different durable keys |
| TimelineKeys.KeysCoincideExactly | core/runtime/timeline.py:26-40 | two events with ids share a key iff they are about one segment, call, result or task, or a colon in a nested call's id makes the two read the same |
| TimelineKeys.ColonsCollide | core/runtime/timeline.py:36-39 | two calls of different nested calls with one key |
| TimelineKeys.UserMessageTestsAgree | service/agent/event_log.py:142-148 | on every produced key the prefix test and the SQL pattern agree, and mean a user message |
| SequenceStamps.SessionTimeline.StampEvent | core/runtime/session.py:611-633 | the stamp is the known seq of the key or the next one, and the durable key is returned iff the event is stored; while calls are orderly the books stay consistent and the stamp is the one seq of the key |
| SequenceStamps.SessionTimeline.PublishExternal | core/runtime/session.py:635-651 | a row is accepted exactly for a persistable event of a loaded timeline; while calls are orderly the accepted rows have one seq per key |
| SequenceStamps.SessionTimeline.EnsureTimelineLoaded | core/runtime/session.py:591-609 | the counter never falls, the key map resumes from the log and keys stamped before keep their seqs, at the first load and at a reload; while calls are orderly no seq is above the counter |
| SequenceStamps.SessionTimeline.PersistSubagentUnpooled | service/agent/event_log.py:72-112 | a known row keeps its seq, as do all others, and a first one gets the next seq of the log; the books stay consistent if the call is orderly |
| SequenceStamps.LoadTimelineHead | service/agent/event_log.py:27-41 | the largest stored seq, 0 for an empty log |
| SequenceStamps.StampIsFreshOrKept | core/runtime/session.py:611-633 | a first-seen key gets a seq above every seq given before, a seen one its own |
| SequenceStamps.StepIsConsistent | core/runtime/session.py:591-651 | publishing, loading, storing, stopping, closing, replacing the object, crashing and persisting unpooled keep seqs distinct and keys on one seq |
| SequenceStamps.EveryRunIsConsistent | core/runtime/session.py:591-651 | the same in every orderly run, over closes and reloads of one object and over its replacements |
| SequenceStamps.StoredSeqsAreDistinct | service/agent/event_log.py:44-69 | no two stored keys share a seq |
| SequenceStamps.StoredSeqIsForever | service/agent/event_log.py:44-69 | a stored key keeps its seq in any run at all, orderly or not |
| SequenceStamps.ReemissionKeepsSeq | core/runtime/session.py:604-607 | an item stored earlier is stamped with its stored seq |
| SequenceStamps.GivenSeqIsKept | core/runtime/session.py:604-631 | while a session object lives, over closes and reloads, a key keeps the seq of its first emission, stored or not |
| SequenceStamps.AcceptedRowsAreStable | core/runtime/session.py:649-650 | the rows handed to the writer have one seq per key |
| SequenceStamps.AcceptedAreThePublished | core/runtime/session.py:637-651 | in every run the accepted rows are those of the publications that belong in the log and came between a load and the next stop, in order and under their keys; the ones not stored yet are queued |
| SequenceStamps.StampBeforeLoadDiverges | core/runtime/session.py:604-607 | a run in which an item stamped before the load keeps a live seq other than its stored one |
| SequenceStamps.HeadBeforeStoreClashes | service/agent/event_log.py:94-98 | a first status stored past the session objects ends up sharing its seq with another key iff an accepted row that is not stored yet carries the head plus one |
| SequenceStamps.ReplacedTooEarly | service/agent/event_log.py:94-98 | a run in which that happens: the object that accepted a message is replaced before its writer has stored it |
| TimelineWriter.OneByOneByKey | service/agent/event_log.py:44-69 | upserting rows one by one leaves the first-seen seq and the latest payload of every key |
| TimelineWriter.CollapseIsExact | core/runtime/timeline.py:174-182 | the collapsed batch equals one-by-one upserts iff every new key of the batch has one seq at its first and last row |
| TimelineWriter.UnstableSeqIsVisible | core/runtime/timeline.py:175-177 | with two seqs for one key the two tables differ |
| TimelineWriter.StepIsSound | core/runtime/timeline.py:74-205 | every section keeps the table equal to one-by-one upserts of the rows that passed and were not lost, and forgets no accepted row and no flush call |
| TimelineWriter.EveryScheduleIsSound | core/runtime/timeline.py:64-205 | the same for every schedule of starts, rows, flushes, stops, restarts and consumer sections, with upserts that fail or not |
| TimelineWriter.ResolvedMeansStored | core/runtime/timeline.py:85-147 | when a flush call has returned, every row accepted before it has been through its upsert; an ended consumer has done so with every accepted row; without a failed upsert the table is their one-by-one upsert |
| TimelineWriter.OnlyFailuresLose | core/runtime/timeline.py:178-184 | in a schedule without a failed upsert no row is lost |
| TimelineWriter.QuietMeansDone | core/runtime/timeline.py:85-131 | with nothing left to do every flush call has returned, each counted for itself, and every row was stored or lost to a failed upsert |
| TimelineWriter.TakenBetweenStartAndStop | core/runtime/timeline.py:74-83 | in every schedule a row is accepted iff a start took effect before it and no stop was called since; the accepted rows are these, in the order of the calls |
| TimelineWriter.QuietTableIsOneByOne | core/runtime/timeline.py:74-184 | with the consumer at rest, one seq per key and no failed upsert, the table is the one-by-one upsert of all rows enqueued between a start and the next stop |
| TimelineWriter.AdvanceMakesProgress | core/runtime/timeline.py:112-147 | every consumer section lowers a measure, whether upserts fail or not, so the writer comes to rest |
| TimelineWriter.TimelineLogWriter.AdvanceConsumer | core/runtime/timeline.py:112-147 | one section of the consumer is one step of the model and brings it closer to rest |
| TimelineWriter.TimelineLogWriter.RequestFlush | core/runtime/timeline.py:85-110 | the call gets its own number; it queues a barrier, waits for a stop under way, or returns once it has drained; whoever is not done has a consumer to wait for |
| TimelineWriter.TimelineLogWriter.RequestStop | core/runtime/timeline.py:186-197 | a stop closes the entrance and queues the stop mark, or drains directly |
| TimelineWriter.TimelineLogWriter.FinishStopCall | core/runtime/timeline.py:193-205 | a stop returns with an empty queue, every accepted row through its upsert and every flush call returned |
| TimelineWriter.TimelineLogWriter.StartConsumer | core/runtime/timeline.py:74-77 | a writer that never ran or has stopped runs again, entrance open |
| TimelineWriter.TimelineLogWriter.Accept | core/runtime/timeline.py:79-83 | a row is taken iff the writer was started and is not stopping, whatever its consumer does |
| TimelineWriter.TimelineLogWriter.DrainRemaining | core/runtime/timeline.py:149-161 | the loop empties the queue into its rows and its barriers, in order |
| TimelineWriter.TimelineLogWriter.StoreBatch | core/runtime/timeline.py:169-184 | the collapse loop and the statement store the batch; a failed statement loses exactly its rows |
| TimelinePaging.FetchTimelinePage | service/agent/event_log.py:115-181 | the queries, in their order and with their branches, compute the page `PageOf`: last rows before the cursor, extended to the last user message, and the cursor of the next page |
| TimelinePaging.PageIsTurnAligned | service/agent/event_log.py:141-162 | on a log of distinct seqs the page is one contiguous slice that starts at the nearest user message, or none precedes it |
| TimelinePaging.Decode | service/agent/event_log.py:171-178 | rows whose payload is no object are skipped, the others kept in order |
| TimelinePaging.WalkVisitsEachRowOnce | service/agent/event_log.py:130-181 | following the cursor shows every row before it exactly once and in order iff no page on the way begins between two rows of one seq |
| TimelinePaging.WalkLoses | service/agent/event_log.py:130-181 | on any log a walk has at most one page per row and shows at most as many rows as there are, strictly fewer if a page begins between two rows of one seq |
| TimelinePaging.DistinctSeqsAreClean | service/agent/event_log.py:130-169 | with distinct seqs no page begins there |
| TimelinePaging.EqualSeqsLoseARow | service/agent/event_log.py:164-169 | a walk over two rows of one seq with pages of one row never shows the older one |
| TimelinePaging.OlderPagesStay | service/agent/event_log.py:134-162 | appended rows and replaced payloads move neither the rows nor the cursor of an older page |
| Notifications.NotificationStore.CreateSubagentTask | service/agent/subordinates.py:35-90 | the task is running and its parent's obligation awaits it, in one transaction; no other task or row changes; the protocol holds |
| Notifications.NotificationStore.ResolveObligation | service/agent/notifications.py:90-128 | the awaiting row of the run becomes pending or canceled, keeping its runtime scope; any other row is untouched |
| Notifications.NotificationStore.FinishSubagentTask | service/agent/subordinates.py:250-296 | a running task gets the given status, result and error, and none of its obligations awaits any more; a task that is missing or terminal, and every other task, is left alone; the protocol holds |
| Notifications.NotificationStore.CancelRunningSubagentTasks | service/agent/subordinates.py:180-215 | the loop cancels exactly the running tasks of the session and of the parent asked for, and their awaiting obligations; every other task is unchanged |
| Notifications.NotificationStore.MarkStaleRunningSubagentTasksFailed | service/agent/subordinates.py:218-247 | the loop fails every running task and makes its obligation ready |
| Notifications.NotificationStore.EnqueueUserMessage | service/agent/notifications.py:131-185 | the message is claimable at once, ahead of all finished background work, and an interrupt spares it |
| Notifications.NotificationStore.ClaimNextPending | service/agent/notifications.py:202-243 | the claimed row has the highest priority and is oldest among the claimable; one is claimed iff a row of the session is pending for the target, or for a main agent if none is named |
| Notifications.NotificationStore.FinishNotification | service/agent/notifications.py:459-491 | a claimed item is terminal afterwards; other rows and terminal rows do not change |
| Notifications.NotificationStore.ReleaseNotification | service/agent/notifications.py:324-355 | a claimed item is claimable again and keeps its start time, so an interrupt will not spare it; other rows and terminal rows do not change |
| Notifications.NotificationStore.CancelSessionNotifications | service/agent/notifications.py:358-369 | exactly the outstanding rows of the session, or of its one instance, are canceled; every other row is unchanged |
| Notifications.NotificationStore.CancelMainAgentInterrupted | service/agent/notifications.py:372-436 | ready or claimed main-agent rows are canceled except user messages without a start time |
| Notifications.NotificationStore.ResetProcessingAll | service/agent/notifications.py:439-456 | exactly the rows in processing go back, with no start time |
| Notifications.StepKeepsProtocol | service/agent/subordinates.py:35-296 | every transaction of both services keeps tasks and obligations in step |
| Notifications.EveryRunKeepsProtocol | service/agent/notifications.py:41-128 | in every run: awaiting implies running; a running task with a parent has an awaiting or canceled obligation; ready or handled implies a result |
| Notifications.TerminalAbsorbs | service/agent/notifications.py:459-471 | no transaction changes a terminal notification or task |
| Notifications.FinishWakesParent | service/agent/subordinates.py:283-294 | ending a task makes exactly its own obligation pending, or canceled if the task was canceled |
| Notifications.EndIsStored | service/agent/subordinates.py:144-296 | in every run a task is over with a status, a result and an error iff the transaction that ended it gave it these |
| Notifications.EveryRunReports | service/agent/subordinates.py:283-307 | in every run an obligation that has become ready reports the status its task ended with |
| Notifications.UserMessagesGoFirst | service/agent/notifications.py:217-222 | in every run a waiting user message is claimed before any finished background work, and among messages, as among finished work, the oldest first |
| Notifications.StartTimeMeansClaimed | service/agent/notifications.py:332-350 | a row has a start time iff it was claimed since the last reset that found it in processing |
| Notifications.InterruptSparesExactly | service/agent/notifications.py:372-424 | an interrupt cancels all of the session's ready or claimed main-agent work except user messages not claimed since such a reset |
| Notifications.ReleasedMessageIsNotSpared | service/agent/notifications.py:439-456 | a message released before a reset is canceled although nothing claimed it since |
| Drain.SettleTurn | core/task_runtime/executor.py:88-110 | what the handlers do to the item for each outcome and each cancellation; undisturbed, an answered or preempted item is completed, a cancelled one pending again, one in error failed |
| Drain.ItemsEnd | core/task_runtime/executor.py:88-110 | exactly which cancellations leave an item in processing, which hand it back, and which outcomes complete or fail it |
| Drain.DrainRound | core/task_runtime/executor.py:80-110 | one round claims the first pending item and settles it, whatever happens elsewhere meanwhile |
| Drain.RunUntilIdle | core/task_runtime/executor.py:61-110 | claims are in order and never repeat; on return every claimed item is terminal and nothing is claimable; on an exception only the last may not be; there is one only if the initial turn raised or a cancellation struck |
| SubagentDrivers.WakeUpsAreLostExactly | core/delegation/subagents.py:565-755 | in every run: pending work of a registered driver that is asleep, stranded, or past its last look at it always has a call under way or owed by the drive whose commit made it pending, iff no step cuts the last such call or strands the uncalled driver |
| SubagentDrivers.StepNoticed | core/delegation/subagents.py:565-755 | every other step of every driver, starter, job, teardown and call keeps that |
| SubagentDrivers.AbandonedIsMissed | core/delegation/subagents.py:577-608 | such a step does leave work that nobody will look at |
| SubagentDrivers.PendingIsCalled | service/agent/subordinates.py:283-294 | work becomes pending for a driver only together with a call for it, or while it is awake |
| SubagentDrivers.CallKept | core/delegation/subagents.py:565-586 | a call stays under way until it gets through, unless the step cuts the last one |
| SubagentDrivers.OwedCallSurvives | core/delegation/subagents.py:601-608 | along a run an owed call outlives every cancellation and error of its drive until it gets through, the drive is stranded, or a teardown takes it over |
| SubagentDrivers.CutFailureLosesWakeUp | core/delegation/subagents.py:606-608 | a run from the empty world: a child cancelled between the commit of its failure and its call leaves its sleeping parent with pending work |
| SubagentDrivers.CutBeforeBeginLosesWork | core/delegation/subagents.py:409-445 | a run from the empty world: the call got through, and the drive it spawned is cancelled before its first step, with the work still pending |
| SubagentDrivers.ErrorInHandlerLosesWork | core/delegation/subagents.py:606-608 | a run from the empty world: the call found the parent awake, which then meets an error and another one in its failure handler |
| SubagentDrivers.EveryRunLooksAfter | core/delegation/subagents.py:589-765 | in every run a running task is about to be registered, was orphaned by its starter, or has a driver that has not committed its end |
| SubagentDrivers.RunningHasADriver | core/delegation/subagents.py:713-765 | no dangling obligation: a running task has a registered driver unless its starter has not registered it yet or died before |
| SubagentDrivers.UnregistersEnded | core/delegation/subagents.py:758-765 | a driver leaves the registry only when the end of its task is committed |
| SubagentDrivers.StrandedExactly | core/delegation/subagents.py:589-608 | in every run a driver is registered with a drive that is over iff an earlier step struck it before its first step or in its last handlers, and since then no call got through and no teardown dropped it |
| SubagentDrivers.CutBeforeCommitStrands | core/delegation/subagents.py:723-733 | a run from the empty world that ends with a running task whose drive is over, cut in the failure handler |
| SubagentDrivers.CutBeforeBeginStrands | core/delegation/subagents.py:409-445 | a run from the empty world that ends so because the first drive was cancelled before its first step |
| SubagentDrivers.SleepersAreForgottenExactly | core/delegation/subagents.py:419-435 | in every run a sleeping driver has something outstanding or is being called, iff no transaction of nobody's drive cancels all that an uncalled sleeper waits for, and no step cuts the last call of one that waits for nothing |
| SubagentDrivers.UnregisteredChildIsForgotten | core/delegation/subagents.py:432-435 | a run from the empty world: a child canceled before it was registered leaves its sleeping parent with nothing outstanding and no call |
| SubagentDrivers.CompletionOwes | core/delegation/subagents.py:628-635 | in every run a task completes with something outstanding for its driver iff a row registered after the last check is still outstanding, which takes a starter that was under way at that check |
| SubagentDrivers.OutlivingStarterIsMissed | core/delegation/subagents.py:143-147 | a run from the empty world: a shielded starter outlives its turn and the parent completes with a child outstanding |
| SubagentDrivers.RelaunchIsBounded | core/delegation/subagents.py:618-634 | in every run a driver relaunches itself at most five times since it last slept with work outstanding |
| SubagentDrivers.AttemptsAreRacesLost | core/delegation/subagents.py:613-634 | in every run the counter of a driver is the number of checks that found work pending since it was registered or last slept, by the steps and the tables |
| SubagentDrivers.RelaunchesWithinBudget | core/delegation/subagents.py:614-627 | a check that finds work pending relaunches the driver iff it has lost fewer than five races, and otherwise the driver fails |
| SubagentDrivers.MovesAreKnown | core/delegation/subagents.py:589-743 | in every run the last move of a drive is the one that leads to where it stands, by the steps and the tables |
| SubagentDrivers.TaskEndsAsDriven | core/delegation/subagents.py:713-743 | in every run a task succeeds iff its drive commits right after it found nothing outstanding, breaks iff it commits right after an error or a lost race with no budget left, and is stopped iff it commits after unwinding a cancellation or somebody else ended it; result, error and the parent's row agree |
| SubagentDrivers.StepIsSound | core/delegation/subagents.py:565-765 | every step keeps the protocol of the tables, the care for running tasks and the books about late rows |
| SubagentDrivers.SubagentRuntime.RegisterDriver | core/delegation/subagents.py:388-391 | a registered driver has a task and a drive; the invariant holds |
| SubagentDrivers.SubagentRuntime.ResumeSubagentInstance | core/delegation/subagents.py:577-586 | whoever the call is for is awake afterwards or gone; tables and other drivers are untouched; the invariant holds |
| SubagentDrivers.SubagentRuntime.SettlePending | core/delegation/subagents.py:614-627 | with pending work the driver drains again if it has lost fewer than five races, and otherwise fails |
| SubagentDrivers.SubagentRuntime.SettleOutstanding | core/delegation/subagents.py:628-635 | the driver sleeps iff something is outstanding for it, and otherwise completes |
| SubagentDrivers.SubagentRuntime.CommitEnd | core/delegation/subagents.py:713-743 | a running task succeeds if its drive completes, breaks if it fails and stops if it was cancelled, with the given result and error, and its obligation reports that; the parent is owed a call whoever ended the task, and everybody who got pending work by it will be called |
| SubagentDrivers.SubagentRuntime.AnswerParent | core/delegation/subagents.py:565-586 | after the call the parent is awake or gone, and nothing is owed |
| SubagentDrivers.SubagentRuntime.StopDriverTask | core/delegation/subagents.py:438-445 | a sleeping driver is left to the teardown; a live drive unwinds with what it owes, and is stranded iff it had not begun or was in its last handlers |
| SubagentDrivers.SubagentRuntime.CleanupSubagent | core/delegation/subagents.py:758-765 | what is dropped is over |
| MainDriver.WakeUpsAreLostExactly | core/runtime/session.py:97-213 | in every run, with interrupts that take their time to unwind: pending work of the instance that no interrupt left behind finds a live driver, a resume call under way or a launch being prepared, iff no step cuts the last call |
| MainDriver.StepNoticed | core/runtime/session.py:97-213 | every step that does not cut the last call keeps that, the early return of a resume call without work and the steps of an unwinding drive included |
| MainDriver.StruckIsMissed | core/runtime/session.py:801-813 | cutting the last call does leave work that nobody attends to |
| MainDriver.CallCanBeLost | core/runtime/session.py:801-813 | a run in which a child finishes for an idle session and the resume call is cut |
| MainDriver.MessageWaitsForLaunch | core/runtime/session.py:189-213 | a run in which a message is queued while a cancelled drive unwinds, and then waits with nobody to attend to it before a launch |
| MainDriver.ExcusedAreLeftBehind | core/runtime/session.py:189-213 | in every run the items left to the next launch are exactly those that were ready or claimed when a cancelled drive was over, or queued when no driver ran any more, since the last launch |
| MainDriver.ChildMakesParentWork | service/agent/subordinates.py:283-294 | ending a task makes work pending for its parent instance only |
| MainDriver.StepIsSound | core/runtime/session.py:97-187 | every step keeps one driver, a proper lock, the relaunch budget and the protocol of the tables |
| MainDriver.EveryRunIsSound | core/runtime/session.py:461-553 | the same in every interleaving |
| MainDriver.OneTaskDrives | core/runtime/session.py:475-520 | at most one task drives, any other only winds down |
| MainDriver.StepsDownWithoutWork | core/runtime/session.py:512-553 | a driver that steps down leaves no pending work of its own; with work it does so only by cancelling it after exactly five checks with a successor since the last launch |
| MainDriver.AttemptIsRelaunches | core/runtime/session.py:461-564 | in every run the attempt of a drive that is not winding down is the number of checks with a successor since the last launch, by the steps |
| MainDriver.RelaunchesWithinBudget | core/runtime/session.py:531-553 | a check has a successor iff work is pending and fewer than five checks had one since the last launch |
| MainDriver.MovesAreKnown | core/runtime/session.py:461-570 | in every run a drive stands where its last move leads, by the steps and the tables |
| MainDriver.AgentSession.StartTurn | core/runtime/session.py:103-124 | the message is queued iff a driver runs, and then one that has still to look for pending work unless it is being cancelled |
| MainDriver.AgentSession.StartRecovery | core/runtime/session.py:167-173 | after a resume call somebody attends to the session: the running driver, or the recovery that looks for work |
| MainDriver.AgentSession.LaunchDrive | core/runtime/session.py:120-124 | the new drive is the only one that is not winding down, and starts with no relaunch behind it |
| MainDriver.AgentSession.ReconcileDriver | core/runtime/session.py:531-553 | it has a successor iff work is pending and fewer than five checks had one since the launch; without work the driver goes, otherwise it is about to give up |
| MainDriver.AgentSession.GiveUp | core/runtime/session.py:537-545 | only after five relaunches since the launch; nothing of the session is outstanding and no driver is left |
| LightRagGate.StepIsSound | core/lightrag/runtime.py:71-174 | every step, error and cancellation of every coroutine keeps one transition at a time, its exclusion of readers, and the freshness of instances |
| LightRagGate.EveryRunIsSound | core/lightrag/runtime.py:71-174 | the same in every interleaving |
| LightRagGate.ReadersAreSafe | core/lightrag/runtime.py:118-174 | one transition at a time; every reader holds the published, unfinalised instance; none exists while nothing is published |
| LightRagGate.FinalisesOnlyUnused | core/lightrag/runtime.py:96-151 | an instance whose finalisation begins is not held, and not published from then on |
| LightRagGate.EndsAsItCame | core/lightrag/runtime.py:71-151 | in every run an instance is published at the end of a transition iff the coroutine came to start or restart and met no error and no cancellation, or just one and had a fallback; it was built after the coroutine arrived and withdrew the one before; a stop leaves nothing published |
| LightRagGate.StopNeverPublishes | core/lightrag/runtime.py:96-115 | in every run a coroutine that came to stop builds and publishes nothing at any of its steps |
| LightRagGate.FallbackIsTriedExactly | core/lightrag/runtime.py:141-151 | in every run a restart that was disturbed once goes on to a fallback instance iff it was given one, after what it had built is finalised |
| LightRagGate.GoesOnToItsEnd | core/lightrag/runtime.py:71-174 | in every run each step of a coroutine brings it closer to its end, and it is over only there, when it has nothing to do, or when it is cancelled before it withdrew anything |
| LightRagGate.CountIsExact | core/lightrag/runtime.py:165-174 | in every run the count exceeds the readers by exactly the readers cut on their way out |
| LightRagGate.FlagIsStuckExactly | core/lightrag/runtime.py:89-151 | in every run the flag is up with nobody to lower it iff a transition was cut while it ended |
| LightRagGate.CutExitsBlock | core/lightrag/runtime.py:96-174 | from such a cut on, no stop and no restart passes draining, or nobody who waits for the flag ever goes on, in every continuation of the run |
| LightRagGate.ReaderCanBeCut | core/lightrag/runtime.py:170-174 | a run from the closed gate reaches a state in which a reader is cut on its way out |
| LightRagGate.EndingCanBeCut | core/lightrag/runtime.py:89-92 | a run from the closed gate reaches a state in which a transition is cut while it ends |
| LightRagGate.RagGate.EnterClient | core/lightrag/runtime.py:160-169 | a reader holds the published instance, which is not finalised, and no transition is past draining; or nothing is published |
| LightRagGate.RagGate.LeaveClient | core/lightrag/runtime.py:170-174 | the other readers keep a live published instance and the count covers them |
| LightRagGate.RagGate.BeginTransition | core/lightrag/runtime.py:71-77 | a transition is alone, and while it lasts nobody who waits for the flag goes on |
| LightRagGate.RagGate.AbandonDraining | core/lightrag/runtime.py:101-106 | a cancelled wait leaves the gate open, with its instance and its count |
| LightRagGate.RagGate.Withdraw | core/lightrag/runtime.py:126-137 | what is withdrawn to be finalised is held by nobody, and nothing is published |
| LightRagGate.RagGate.Publish | core/lightrag/runtime.py:138-141 | what is published was never finalised and replaces nothing that anybody holds |
| LightRagGate.RagGate.EndTransition | core/lightrag/runtime.py:148-151 | the flag is down and no transition is under way |
| MountGraph.CheckSubagentChain | core/agent/registry.py:98-108 | the walk terminates and accepts only if no chain from here ever returns; a rejection names a cycle |
| MountGraph.ValidateSubagentGraph | core/agent/registry.py:94-96 | accepts iff the mounts of the declared agents have no cycle, self-mounts included |
| MountGraph.UnvisitedShrinks | core/agent/registry.py:98-108 | each declared mount that is followed shrinks the set of declared codes off the path |
| Utterances.IsNonTopicUtterance | core/conversation/utterances.py:255-268 | true iff the key is non-empty, within the limit and a concatenation of components |

## Left out

- Everything outside the bookkeeping: HTTP and WebSocket handlers, the model and retrieval libraries, sandbox commands, policies, permissions, the browser; they have no invariants of their own here.
- Token encoding, JSON encoding, Unicode normalisation, summary text, time stamps other than the order of creation, logging: parameters or omitted.
- Stored messages are taken in strictly ascending order of id; the store orders by time of creation first, then by id.
- Compaction.CompactIfNeeded: takes thresholds as integers, ratios already applied; the minimum counts are at least 1 as the configuration demands; the summary call is a parameter.
- Failed database transactions other than the writer's upserts: every transaction either commits or is cut before its commit.
- TimelineWriter.EveryScheduleIsSound: a writer is started again only once its stop calls have returned, and rows reach it only once it was started; the session's close and load keep to both (core/runtime/session.py:238-242, 600-609). A final drain that overtakes a new consumer is not modelled.
- SequenceStamps.EveryRunIsConsistent: is about orderly runs, in which the timeline is loaded before the first stamp, and the head is read while no row of an earlier object is unstored and, for a first status, while no object is loaded; runs that break either rule are given.
- SequenceStamps.HeadBeforeStoreClashes: takes one session object in charge at a time; a replaced one only goes on storing what it accepted, and a crash drops that.
- TimelinePaging.FetchTimelinePage: reads the log as a list in the order of its seqs, rows of one seq in some fixed order; the queries are functions on that list, and one page is read from one state of the log.
- Subscriber queues, their rebasing and the client's merging of events.
- Other fields of wire events (agent names, arguments, previews): the runtime copies them without looking.
- Notifications.EveryRunKeepsProtocol: sandbox jobs are a kind of obligation without a task table of their own, since the file that keeps them is not part of this model.
- Drain.RunUntilIdle: takes the rounds as a finite script of outcomes, cancellations and transactions elsewhere, and so covers every finite prefix of a drain.
- SubagentDrivers.WakeUpsAreLostExactly: process shutdown is left out; calls carried by sandbox jobs and by teardowns from outside may be cut at any time; an instance id belongs to one session; a drive that goes on after a teardown dropped its registration is modelled by its transactions, starters and calls only.
- SubagentDrivers.SleepersAreForgottenExactly: does not say that what is outstanding will end; a child orphaned by its starter waits for a session-wide cancel (SubagentDrivers.RunningHasADriver).
- SubagentDrivers.StepIsSound: a teardown cancels the notifications and children of its agent by the transactions of the tables, whose order relative to its own commit is left open.
- MainDriver.WakeUpsAreLostExactly: speaks of one main-agent instance of the session and not of work queued for another; an interrupt leaves the work that is ready or claimed when the cancelled drive is over, and a message whose queueing it overtook, to the next launch on purpose.
- Fairness of the locks and of the condition variable: the claims are about safety, except for TimelineWriter.AdvanceMakesProgress.
- LightRagGate.EveryRunIsSound: instances are opaque ids; whether an instance that was built but neither published nor finalised leaks resources is not tracked.
- Utterances.IsNonTopicUtterance: starts from the canonical key; the table of phrases is a parameter.
- Slicing a task's result into chunks and the short previews of events: read off their bodies.
