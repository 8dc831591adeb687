# Verified core of the NimoOS AI services

A Dafny model of the parts of the repository whose correctness is not visible in
any single function: the coalescing event log of a run, context compaction
before and during a run, the repair of chat messages, the incremental recall
index, the OpenVINO residency manager, MCP probing and approvals, document
distillation, the per-user skill view and the rate limiter.

`dafny verify dfyconfig.toml` checks the whole project.

## How it is organised

| module | what it covers |
|---|---|
| `RunSink`, `RunSinkObject` | the event log of a run, as a value and as the mutable object with aliased dictionaries |
| `Coalescing` | what merging streamed deltas does to the log |
| `ToolMessages` | the normaliser for Chat Completions messages and the DeepSeek split |
| `Items` | dangling-call repair and synthetic reasoning on history items |
| `Turns`, `Estimates` | turn boundaries, cuts, tool pairs, token estimates |
| `MicroCompact`, `MidRun` | the three stages of the model-input filter and the fold cursor over a run |
| `FilterLaws` | what one call of the filter promises, on its input and output |
| `PreRun`, `Session` | compaction before a run, and the saved history and cursor across runs |
| `SessionPairs` | calls and outputs stay together in everything that is sent, over all runs |
| `Recall` | chunking, the incremental index and its job queue |
| `SavedHistory` | what saving a run does to the history the index addresses by position |
| `Residency` | which OpenVINO models are resident |
| `Mcp`, `McpStore` | probe and approval state over whole traces, and the tables that implement it |
| `Distill` | the job table, the scanner and the sweep of note distillation |
| `SkillNames`, `SkillView` | the names in the runtime directory, and the crash-safe swap of the skill view as a protocol of file-system steps |
| `RateLimit` | the rolling window of the summary worker |

Each component has two layers. A value layer defines one step as a function and
proves the properties of all runs by induction over steps. Where the source
works in place, a class with the source's fields or a method with the source's
loop is proved equal to that step, so the run-level results hold for it.

Replies of models, of OVMS and of the parser, clocks, failures of writes and
the moment of a crash are parameters or arbitrary choices. Stretches of code
without an `await` are single steps.

## Where the code differs from what is written about it

- `_repair_dangling_tool_calls` is documented to give every call a *following*
  output; the code accepts an output anywhere in the list and closes an id only
  once. `Items.FollowingOutputCanBeMissing` has the two failing inputs,
  `Items.FollowingOutputIff` the exact condition, and `Items.EveryCallHasOutput`
  what always holds.
- The same repair can put a turn boundary between another call and its output.
  `Turns.DanglingRepairCanSplitAPair` is the concrete case and
  `Turns.DanglingRepairKeepsPairsWhole` says exactly when it does not happen.
- Synthetic reasoning is inserted into the saved history, which the recall index
  addresses by position, so a message can be indexed twice
  (`Recall.SavedReasoningIsIndexedTwice`). `Recall.AlwaysExactIff` says over all
  runs, saves during an attempt included, exactly when the index stays right, and
  `SavedHistory.SaveKeepsIndexIff` what one saved run does to it.
- `listed_at` is documented to advance on every success; a first empty listing
  leaves it alone (`Mcp.ListedAtMovesWithTheList`).
- A tool that was gone for a week is documented to need a new approval; a new
  listing revives the old one (`Mcp.StaleApprovalRevives`), exactly under the
  condition of `Mcp.StaleApprovalRevivesIff`.
- A curated note keeps its old file time, so a changed file with a curated note
  is claimed again after every scan (`Distill.CuratedNoteIsRescannedForever`).
- Scans look at one user's notes and jobs, but the job table has one row per
  path: when two users have a file in a scanned root, each takes the other's
  tombstone over with a fresh budget (`Distill.TwoUsersTakeTurns`), and a
  cancellation is erased the same way (`Distill.CancelledStaysIff`).
- `Distill.QuiescenceIff` shows that, without a manual request, these two are all:
  the bound on claims holds if and only if the file is scanned for one user only
  and that user's note is not curated. The bound counts the times a note is
  deleted or a file comes back, since each gives the version a fresh budget
  (`Distill.DeletedNoteIsDistilledAgain`), and it is lost when the user curates
  the note later (`Distill.CuratingBreaksTheBound`).
- A mid-run fold can move the cursor over items that were truncated at the start
  of the run and never summarised: `Session.CoverageCanBeIncomplete` is such a
  run for every context window the service accepts, and
  `Session.CoverageIsCompleteIff` says exactly when it happens (the code logs a
  warning in that case).
- The sweep of a user's left-overs goes by name prefix, so user `7` would sweep
  the link of a user `7.vip` (`SkillNames.CollidingIds`).
  `SkillView.OthersAreUntouchedIff` has the exact condition, with an ordinary
  rebuild as the failing run (`SkillView.SweepTakesTheLink`); the ids that the
  service accepts have no dot and never collide.
- With a clock that goes back, the pruned call log can forget grants
  (`RateLimit.BackwardClockBreaksTheBound`);
  `RateLimit.BoundIffClockNeverForgets` says exactly which clocks keep the bound.

## Model

| member | source | states |
|---|---|---|
| `RunSink.PutRenders` | agent/run_sink.py:119-141 | a put keeps the buffer invariant and adds, in every scope, exactly the tokens of the new event to what log plus buffers render |
| `RunSink.ReplayRefinement` | agent/run_sink.py:119-191 | after any interleaving of puts, timer flushes and subscriptions, the persisted rows followed by the open buffers render like the raw stream, scope by scope |
| `RunSink.LateJoiner` | agent/run_sink.py:193-204 | whenever a client subscribes, its snapshot followed by its live events renders like the whole raw stream |
| `RunSink.PastOnlyGrows` | agent/run_sink.py:177-191 | persisted rows are never changed or reordered by anything later |
| `RunSink.RowsAreBounded` | agent/run_sink.py:123-134 | every persisted delta row is one raw event or has at most COALESCE_MAX_CHARS characters |
| `Coalescing.DeltaEffect` | agent/run_sink.py:123-134 | a delta whose stream is open in its scope with room joins that row and adds no row and no buffer; otherwise the open row of the scope, if any, is logged and a buffer is opened with the delta alone; other scopes keep theirs |
| `Coalescing.RowsAreFew` | agent/run_sink.py:17-33 | however the deltas of several scopes are interleaved between two flushes, the rows of a scope with one stream hold exactly its text, at most two rows for each COALESCE_MAX_CHARS characters and one; a text within the limit is one open row and nothing is logged yet |
| `Coalescing.FlushedInOrder` | agent/run_sink.py:163-170 | a flush logs the first deltas of different scopes unchanged and in the order of their arrival |
| `Coalescing.DoneIff` | agent/run_sink.py:135-138 | over any run the sink is done if and only if a terminal event was put, and an event that is no delta leaves no buffer open |
| `RunSinkObject.RunSinkObj.Put` | agent/run_sink.py:119-141 | the object's put is the value-level put; every subscriber gets the event object itself; of the existing dictionaries only private buffer copies are written |
| `RunSinkObject.RunSinkObj.PutDelta` | agent/run_sink.py:123-134 | the object takes the value-level step, merging in place or flushing the scope and opening a private copy; `Coalescing.DeltaEffect` says which and what it adds |
| `RunSinkObject.RunSinkObj.Merge` | agent/run_sink.py:93-98 | a delta is appended in place to its own buffer and to nothing that was handed out |
| `RunSinkObject.CopyDelta` | agent/run_sink.py:143-148 | the buffer is a fresh copy, its inner event included, that reads like the original |
| `RunSinkObject.RunSinkObj.FlushScope` | agent/run_sink.py:172-175 | the buffer leaves the table and becomes the next persisted row; it is shared from then on |
| `RunSinkObject.RunSinkObj.Flush` | agent/run_sink.py:163-170 | all buffers become rows, in order, and none is left |
| `RunSinkObject.RunSinkObj.Persist` | agent/run_sink.py:177-191 | one new row with the next number exactly if the insert works, and always one new entry of the past |
| `RunSinkObject.LoggedIsNumbered` | agent/run_sink.py:177-191 | whatever inserts are lost, the rows in the log are the others, each under its own number and in order |
| `RunSinkObject.RunSinkObj.Subscribe` | agent/run_sink.py:193-204 | the snapshot is the flushed past and the new queue is empty and registered in the same step |
| `RunSinkObject.LogReplaysPast` | agent/run_sink.py:217-231 | a log that lost no insert, read back in number order, is the in-memory past |
| `ToolMessages.RepairIsCanonical` | agent/agent.py:1967-2053 | for every input the output has each identified call answered once, adjacently and in call order, and no other tool message |
| `ToolMessages.FixedPoints` | agent/agent.py:1993-2053 | repair leaves a list alone if and only if it is canonical |
| `ToolMessages.RepairIdempotent` | agent/agent.py:1993-2053 | repairing twice is repairing once, in both modes |
| `ToolMessages.EveryCallAnswered` | agent/agent.py:1973-1979 | forward guarantee by index: the k-th identified call of message i is answered at i + 1 + k, in both modes |
| `ToolMessages.NoOrphanReply` | agent/agent.py:1981-1983 | reverse guarantee: every tool message of the output is the reply to some call, in both modes |
| `ToolMessages.RealReplyUsed` | agent/agent.py:2003-2024 | the first real reply within the run behind a call is what the call is paired with; it is never lost to a placeholder |
| `ToolMessages.RepairKeepsPlain` | agent/agent.py:2046-2053 | messages that are not tool, tool-calling or empty-assistant survive in order, in both modes |
| `ToolMessages.RepairKeepsReasons` | agent/agent.py:2026-2044 | every identified call keeps its order and the reasoning it was made with, on every split part |
| `ToolMessages.RepairKeepsTexts` | agent/agent.py:2026-2044 | the text and the other fields of calling messages come out exactly once and in order, also when a message is split |
| `ToolMessages.SplitIsCanonical` | agent/agent.py:2026-2039 | the split output is canonical and no message in it has two identified calls |
| `ToolMessages.SplitKeepsPairs` | agent/agent.py:2026-2044 | the ordered (call, reply) pairs of the split equal those of the unsplit repair |
| `ToolMessages.SplitAfterRepair` | agent/agent.py:1985-1990 | splitting a repaired list is splitting the original |
| `ToolMessages.IndexReplies` | agent/agent.py:2003-2016 | the inner loop ends behind the run and maps each id to its first reply |
| `ToolMessages.RepairToolMessages` | agent/agent.py:1993-2053 | the index-walking loop computes the specified repair |
| `Items.EveryCallHasOutput` | agent/agent.py:1910-1942 | after dangling repair every identified call has an output somewhere in the list |
| `Items.FollowingOutputIff` | agent/agent.py:1910-1942 | every identified call of the repaired list has an output behind it if and only if in the input each had one, or was the first call of an id without any output |
| `Items.FollowingOutputCanBeMissing` | agent/agent.py:1925-1941 | two concrete lists whose last call gets no output behind it |
| `Items.DanglingIdempotent` | agent/agent.py:1919-1920 | dangling repair is idempotent |
| `Items.DanglingKeepsInput` | agent/agent.py:1929-1942 | the input is a subsequence of the repaired list |
| `Items.RepairDanglingToolCalls` | agent/agent.py:1922-1942 | the two loops compute the specified repair |
| `Items.EraseInject` | agent/agent.py:2086-2123 | injection adds synthesized items only |
| `Items.InjectReasoned` | agent/agent.py:2086-2123 | afterwards every assistant message is directly preceded by a reasoning item |
| `Items.InjectIdempotent` | agent/agent.py:2086-2123 | injection is idempotent and leaves a list alone if and only if it is already reasoned |
| `Items.InjectSyntheticReasoning` | agent/agent.py:2099-2123 | the loop computes the specified injection |
| `Turns.StartsAre` | agent/context_compaction.py:227-240 | the turn starts are exactly the turn items whose predecessor is not one, ascending |
| `Turns.ComputeTurnStarts` | agent/context_compaction.py:233-240 | the loop computes them |
| `Turns.StartsStableUnderAppend` | agent/context_compaction.py:227-240 | appending items only adds starts at the end |
| `Turns.StartsCommuteWithSlicing` | agent/context_compaction.py:227-240 | cutting at a start cuts the list of starts and shifts it |
| `Turns.StartsDependOnKinds` | agent/context_compaction.py:223-240 | rewriting items without changing kinds moves no start |
| `Turns.CutKeepsTurns` | agent/context_compaction.py:243-249 | the cut is 0 or a turn start, and what it keeps has exactly k turns |
| `Turns.KeepKCutIsBoundary` | agent/context_compaction.py:252-259 | the pre-run cut is 0, a user message or a turn start |
| `Turns.KeepKCutKeeps` | agent/context_compaction.py:252-259 | with more user messages than are to be kept the pre-run cut begins with one and keeps exactly that many; otherwise it keeps the last tool turns |
| `Turns.CutKeepsPairs` | agent/context_compaction.py:243-270 | a cut at a boundary of a history with whole pairs leaves no output without its call |
| `Turns.RewritingKeepsPairs` | agent/compaction_filter.py:131-168 | rewriting that keeps kinds and ids keeps the pairing |
| `Turns.DanglingRepairKeepsPairsWhole` | agent/agent.py:1931-1941 | dangling repair leaves pairs whole if and only if the stated condition on the input holds |
| `Turns.DanglingRepairCanSplitAPair` | agent/agent.py:1931-1941 | a concrete list on which the repair puts a boundary inside a pair |
| `Estimates.SuffixCostsLess` | agent/context_compaction.py:62-121 | a suffix of a history never has the larger estimate |
| `Estimates.FoldTextHoldsAll` | agent/compaction_filter.py:283-287 | the text given to the summarizer holds every folded item's text whole, tool outputs beyond SUMMARY_OUTPUT_MAX_CHARS by their beginning |
| `MicroCompact.NthOutputCounts` | agent/compaction_filter.py:53-71 | the boundary leaves exactly the wanted number of outputs behind it |
| `MicroCompact.RecentOutputBoundary` | agent/compaction_filter.py:53-71 | the backward loop and the snap to a turn start compute the boundary, for every number of results to keep |
| `MicroCompact.MicroKeepsShape` | agent/compaction_filter.py:131-168 | micro-compaction keeps length, kinds, ids and all turn starts |
| `MicroCompact.MicroKeepsRecent` | agent/compaction_filter.py:131-168 | nothing from the boundary on is altered; in particular the last KEEP_RECENT_TOOL_RESULTS outputs are not |
| `MicroCompact.MicroSnapsToTurn` | agent/compaction_filter.py:53-71 | the boundary never lies inside a turn |
| `MicroCompact.OldIsShortened` | agent/compaction_filter.py:131-168 | before a turn from which KEEP_RECENT_TOOL_RESULTS outputs follow, every long condensable output is replaced and every reasoning reduced to its marked head |
| `MicroCompact.MicroCompactLoop` | agent/compaction_filter.py:131-168 | the loop computes the rewritten list and the number of replaced outputs |
| `MidRun.FilterMovesCursor` | agent/compaction_filter.py:231-324 | one filter call leaves the cursor or moves it to a later turn start of the full input, together with an accepted summary and only then |
| `MidRun.StepKeepsRun` | agent/compaction_filter.py:250-304 | every step of a run keeps the cursor a turn start and the folds consecutive |
| `MidRun.FoldBookkeeping` | agent/compaction_filter.py:250-304 | over any run with append-only input the cursor is 0 or a turn start, never moves back, and the folds tile [0, cursor) |
| `MidRun.FoldedExactlyOnce` | agent/compaction_filter.py:279-293 | every position below the cursor lies in exactly one fold, none above it in any |
| `MidRun.BackOff` | agent/compaction_filter.py:294-304 | once folding is disabled, no later step of the run folds or changes the summary |
| `MidRun.FilterKeepsPairs` | agent/compaction_filter.py:231-324 | with whole pairs, nothing the filter sends has an output without its call |
| `FilterLaws.CallAsPromised` | agent/compaction_filter.py:231-324 | for every input: a fold happens exactly when it is due (more than 70 percent of the window after stage 1, a summarizer not given up, older turns to fold) and the reply is worth keeping, and leaves the last RECENT_TOOL_TURNS turns; a raise where a fold is due sends the input as it is; otherwise everything behind the new cursor is sent, unless it takes more than 85 percent: exactly then the list is cut down to the first user message and the last HARD_KEEP_TURNS turns, and counted |
| `FilterLaws.FitsOrIsShort` | agent/compaction_filter.py:306-322 | what is sent is within 85 percent of the window or has at most HARD_KEEP_TURNS turn starts |
| `FilterLaws.SmallIsUntouched` | agent/compaction_filter.py:254-277 | an input within 35 percent by both estimates is sent as it is and changes no counter; a filter that is off sends everything |
| `FilterLaws.NothingIsLost` | agent/compaction_filter.py:306-322 | unless the list had to be cut down, the items sent are those behind the cursor one for one; it is cut down only above 85 percent |
| `FilterLaws.UsageIsRemembered` | agent/compaction_filter.py:329-350 | after a usage report the budget of the next call is the reported count plus the estimate of what was appended since; an empty report changes nothing |
| `FilterLaws.CutIsPositiveIff` | agent/context_compaction.py:243-249 | there is something to fold if and only if there are more than the kept turns, or as many and something before them |
| `MidRun.RunCtx.CompactionFilter` | agent/compaction_filter.py:231-324 | the mutating filter computes the specified context and outgoing input, the summarizer's exception included; `FilterLaws.CallAsPromised` says what these are |
| `MidRun.RunCtx.Stage1` | agent/compaction_filter.py:268-277 | L1 with its counters and the new estimate |
| `MidRun.RunCtx.Stage2` | agent/compaction_filter.py:283-304 | L2: fold, rejection and back-off |
| `PreRun.CompactSendsSuffix` | agent/context_compaction.py:391-478 | what is sent is a suffix of the history; the cursor never passes what was dropped and a fitting cursor never moves back |
| `PreRun.CompactIsBestEffort` | agent/context_compaction.py:374-475 | what is sent fits, or is the longest boundary suffix that fits, or the last boundary segment, or has no boundary |
| `PreRun.FirstFitIsFirst` | agent/context_compaction.py:374-388 | every boundary before the chosen one was over the line, and one over the line is chosen only as the last |
| `PreRun.FoldEndsAtBoundary` | agent/context_compaction.py:418-450 | a fold ends at a boundary of the history |
| `PreRun.CursorMovesWithSummary` | agent/context_compaction.py:418-446 | the cursor moves only with a summary: a new cursor comes with the stripped reply, not blank and shorter than the text it replaces, and an old cursor keeps the old summary |
| `PreRun.FoldsExactlyWhenDue` | agent/context_compaction.py:405-446 | the cursor moves if and only if the history behind it is over the line and the reply is worth keeping for the text up to the greatest fold point before the kept turns that fits the summarizer, and it moves there; a history within the line is sent unchanged |
| `PreRun.ShrinkCutIsBest` | agent/context_compaction.py:424-431 | the shrinking loop finds that greatest fold point |
| `PreRun.CompactKeepsPairs` | agent/context_compaction.py:391-478 | with whole pairs, nothing sent has an output without its call, and the new cursor is on a boundary |
| `PreRun.ShrinkLoop` | agent/context_compaction.py:424-431 | the loop terminates at the cut itself or the next lower boundary whose text fits the summarizer |
| `PreRun.TruncateLoop` | agent/context_compaction.py:374-388 | the loop computes the specified truncation |
| `PreRun.CompactForRun` | agent/context_compaction.py:391-478 | the whole procedure, bypass, stale cursor and rejected summaries included; content is queued for recall exactly when less than the unfolded history is sent |
| `Session.RunConserves` | agent/agent.py:1374-1376 | the history a run saves, without synthesized items, is the old one followed by the new turn |
| `Session.SavedSummaryIsLastAccepted` | agent/agent.py:700-719 | a run saves the last summary it accepted, mid-run before pre-run before old, together with the cursor where that fold ended |
| `Session.HistoryConservation` | agent/agent.py:1684-1688 | the same over any number of runs |
| `Session.RunKeepsFoldedItems` | agent/agent.py:700-719 | a run never moves the stored cursor back and never changes an item below it, also when the cursor is the mid-run one |
| `Session.FoldedItemsAreFinal` | agent/agent.py:700-719 | items below the cursor never change in any later run |
| `Session.SummarisedAtMostOnce` | agent/agent.py:700-719 | what the start of a run folds, what the run itself folds and what was folded before are pairwise disjoint |
| `Session.CoverageIsCompleteIff` | agent/agent.py:706-712 | the summary covers everything below the cursor if and only if the run did not fold behind start-truncated items |
| `Session.CoverageCanBeIncomplete` | agent/agent.py:706-712 | for every window of at least MIN_CONTEXT_WINDOW and all long enough texts, a run that truncates the first message away, folds, and leaves it below the cursor unsummarised |
| `SessionPairs.InjectKeepsPaired` | agent/agent.py:2086-2123 | injecting synthetic reasoning into any part of a history neither splits a pair nor joins one |
| `SessionPairs.RunKeepsPairs` | agent/agent.py:1684-1688 | a run whose new turn keeps pairs together leaves the saved history paired and the cursor, a mid-run one included, on a boundary |
| `SessionPairs.PairsAcrossRuns` | agent/agent.py:1684-1688 | the same over any number of runs |
| `SessionPairs.NothingSentIsTorn` | agent/compaction_filter.py:231-324 | no model call of any run is sent an output without its call |
| `Recall.ChunksCoverLines` | agent/recall_index.py:66-89 | chunking loses, repeats and reorders no line |
| `Recall.ChunksAreBounded` | agent/recall_index.py:66-89 | a chunk is within the limit or a single line |
| `Recall.ChunksAreFull` | agent/recall_index.py:66-89 | a chunk ends only where the next line would have made it too large |
| `Recall.ChunksArePrefixStable` | agent/recall_index.py:66-89 | all chunks but the last are chunks of every extension, and a longer list never has fewer chunks |
| `Recall.ChunkMessages` | agent/recall_index.py:66-89 | the buffering loop computes the chunks, numbered from the given start |
| `Recall.NextKeepsInv` | agent/recall_index.py:132-174 | every step keeps index, attempt and job row consistent, except an insertion that pushes a line over the cursor and the success of an attempt over whose length a line was pushed |
| `Recall.IndexEqualsPrefix` | agent/recall_index.py:132-174 | after any run with partial batches, retries, give-ups, restarts and rewrites that keep to the condition of `Recall.AlwaysExactIff`, the chunks 0..seq-1 concatenate to the lines of the indexed prefix; after a success nothing else is stored |
| `Recall.InsertExactIff` | agent/recall_index.py:142-145 | an insertion into the history leaves the index right if and only if it pushes no line over the cursor |
| `Recall.AlwaysExactIff` | agent/recall_index.py:132-174 | over any run the index is right at every point if and only if no insertion pushes a line over the cursor and no attempt succeeds during which one was pushed over the length it remembers |
| `Recall.SavedReasoningIsIndexedTwice` | agent/recall_index.py:142-172 | a concrete run in which an insertion makes one message be stored twice |
| `SavedHistory.SavedIsInserts` | agent/agent.py:1432-1436 | seen by the index, a saved run is the old history with insertions behind what was not sent, followed by the new turn |
| `SavedHistory.SaveKeepsIndexIff` | agent/agent.py:1684-1688 | saving a run, also during an attempt, leaves the index right if and only if no reasoning it inserts pushes a line over the cursor; if the attempt in flight succeeds next, that leaves it right if and only if none was pushed over the length it remembers |
| `Recall.NoLostWakeUp` | agent/recall_index.py:26-48 | on every run, whatever is inserted into the history: the cursor reached what the latest enqueue saw, or a job exists, or MAX_ATTEMPTS attempts failed since |
| `Recall.ReenqueueSurvives` | agent/recall_index.py:110-121 | a row enqueued during an attempt survives success, failure, give-up and restart |
| `Recall.EnqueuedIsDue` | agent/recall_index.py:26-48 | an enqueued session is claimable at once when asked for, else after IDLE_SECONDS, and never later than an earlier enqueue allowed |
| `Recall.RecallIndex.MaybeEnqueueIndexJob` | agent/recall_index.py:26-48 | the coalescing upsert, with back-dating, is the enqueue step; without memory nothing happens |
| `Recall.RecallIndex.ClaimJob` | agent/recall_index.py:132-150 | claiming an idle row, or finishing it when there is nothing new |
| `Recall.RecallIndex.FailAttempt` | agent/recall_index.py:110-121 | only a running row is put back or dropped |
| `Recall.RecallIndex.FinishAttempt` | agent/recall_index.py:167-172 | cursor and sequence advance together and only a running row is deleted |
| `Recall.RecallIndex.UpsertAll` | agent/recall_index.py:157-165 | the batch loop succeeds if and only if no existing batch fails, and stores the batches before the failing one |
| `Recall.RecallIndex.ProcessPendingOnce` | agent/recall_index.py:132-174 | what a worker pass leaves in the tables, by what the upserts do: with all batches through, the cursor is at the end, the sequence advanced by the number of chunks, each of them stored under its number and the row gone; when a batch fails, cursor and sequence are as before and the row is pending with one attempt more, or gone at MAX_ATTEMPTS; nothing else is stored |
| `Residency.SelectLRU` | service/openvino_loader.go:277-293 | a least recently used candidate, or none exactly when there is no candidate |
| `Residency.SelectExpired` | service/openvino_loader.go:298-310 | exactly the models idle for at least the TTL; none for a TTL that is not positive |
| `Residency.EvictOneMore` | service/openvino_loader.go:85-93 | evicting the LRU again keeps the victims the least recently used ones |
| `Residency.Adapter.WriteConfig` | service/openvino_loader.go:315-337 | a successful write mirrors the resident set |
| `Residency.Adapter.MakeRoom` | service/openvino_loader.go:85-93 | global LRU victims, no more than needed for one free slot |
| `Residency.Adapter.LoadLoop` | service/openvino_loader.go:99-132 | one same-device LRU victim, never the new model, for each failed load; it succeeds exactly when the next attempt makes the model available and gives up on a failed load only when no model of the device is left; success keeps the model, failure removes it |
| `Residency.LoadEndIsUnique` | service/openvino_loader.go:98-132 | how many models a load costs and whether it succeeds is determined by the table and by what the outside does |
| `Residency.Adapter.EnsureLoaded` | service/openvino_loader.go:69-133 | the outcome and the whole table for everything the model server and the file system can do, and the config mirrors the table unless the last write failed |
| `Residency.Adapter.ReapOnce` | service/openvino_loader.go:370-381 | exactly the expired models leave, the others keep their entries |
| `Residency.EnsuredBound` | service/openvino_loader.go:69-133 | success leaves the model resident, failure absent; under a cap the count exceeds neither the cap nor what it was |
| `Residency.ResidentsAreMostRecent` | service/openvino_loader.go:69-133 | over any run of successful calls under a cap and of reaper passes, without load failures, nobody absent was used after somebody resident, and the cap holds |
| `Residency.ResidentsAreAllThatFit` | service/openvino_loader.go:69-133 | without a reaper the residents are exactly as many of the most recently used models as fit |
| `Mcp.RuntimeIsLastWrite` | service/mcp_runtime.go:177-240 | over any trace, the stored identity and tools are those of the last list-writing probe and the empty streak counts the empty successes |
| `Mcp.BookkeepingIsExact` | service/mcp_runtime.go:135-282 | over any trace the failure streak, the times of the last success and failure and the descriptive columns are what the trace says |
| `Mcp.ApprovalSoundness` | service/mcp_approvals.go:194-297 | over any trace, an ordinary approval is effective if and only if it was last approved with the non-empty identity and schema hash of the last list-writing probe, was not revoked or expired since, and was approved or listed within seven days |
| `Mcp.ServerApprovalSoundness` | service/mcp_approvals.go:194-297 | a server-level approval is effective if and only if its identity is the non-empty current one |
| `Mcp.ApprovalIsLastLease` | service/mcp_runtime.go:242-256 | the approval rows are what the trace says: present while there is a lease, last seen at its time, with the hashes of the last approval |
| `Mcp.ApprovalIsDated` | service/mcp_approvals.go:93-146 | the approval time is that of the last approval and the description hash the last one approved or acknowledged |
| `Mcp.ReasonsMatchGates` | service/mcp_approvals.go:304-376 | a row has no void reason if and only if it is effective |
| `Mcp.HygieneIsHarmless` | service/mcp_approvals.go:194-215 | deleting expired rows never changes which ordinary approvals are effective; a server-level one is lost exactly when expired |
| `Mcp.ListedAtMovesWithTheList` | service/mcp_runtime.go:222-240 | the listing time moves exactly when the list is written |
| `Mcp.StaleApprovalRevivesIff` | service/mcp_approvals.go:10-13 | with a clock that never goes back, a stale approval counts again without a new approval if and only if its row is still there, its tool was listed within seven days, and the config and interface gates hold |
| `Mcp.StaleApprovalRevives` | service/mcp_runtime.go:244-249 | starting at any time, a run in which a tool gone for more than a week comes back and its old approval counts again |
| `Mcp.BlipsAreHarmless` | service/mcp_runtime.go:177-282 | failures and a single empty listing leave tools, identity and all approvals alone; only a second empty success in a row clears the list |
| `Mcp.SingleFlight` | service/mcp_runtime.go:112-122 | from a granted claim until a save of that server no claim is granted |
| `Mcp.ClaimIffNoneInFlight` | service/mcp_runtime.go:112-122 | over any trace a claim is granted if and only if no probe of that server is in flight; every save, good or bad, frees it |
| `Mcp.LeasesOnlyGrow` | service/mcp_runtime.go:242-256 | with a clock that never goes back, a last-seen time never decreases |
| `McpStore.Store.ClaimProbe` | service/mcp_runtime.go:112-122 | the conditional upsert grants exactly when no probe is in flight |
| `McpStore.Store.RecordSuccess` | service/mcp_runtime.go:135-262 | the upsert, the streak and the heartbeat are the specified success step |
| `McpStore.Store.BeatAll` | service/mcp_runtime.go:244-256 | the heartbeat loop refreshes exactly the listed tools and, for a non-empty listing, the server row |
| `McpStore.Store.RecordFailure` | service/mcp_runtime.go:267-282 | the failure step, which keeps list, identity and empty streak |
| `McpStore.Store.Put` | service/mcp_approvals.go:93-104 | an ordinary approval; the reserved name is refused |
| `McpStore.Store.AckDescription` | service/mcp_approvals.go:131-146 | only the description hash of an existing row changes |
| `McpStore.Store.EffectiveApprovals` | service/mcp_approvals.go:194-297 | the read loop with its per-server cache returns exactly the effective rows, after hygiene |
| `McpStore.Store.ListForServer` | service/mcp_approvals.go:304-376 | every row of the server with the reason the gates give |
| `McpStore.ReadersAgree` | service/mcp_approvals.go:304-376 | right after the effective approvals of a user were read, the page gives no reason for exactly those rows of a server of that user |
| `Distill.TrackStep` | agent/notes_distill.py:147-247 | every step keeps the count of claims of a version tied to its attempts |
| `Distill.Quiescence` | agent/notes_distill.py:364-458 | an unknown version of a file that is scanned for one user with an uncurated note is claimed at most MAX_ATTEMPTS times, bounces netted, one more per restart and MAX_ATTEMPTS more each time the file comes back or the note is deleted, on every interleaving without a manual request or curating |
| `Distill.QuiescenceIff` | agent/notes_distill.py:289-298 | for a file without a queued job that bound holds on all runs with scans for the given users if and only if there is one such user and that user's note is not curated |
| `Distill.TwoUsersTakeTurns` | agent/notes_distill_scan.py:43-47 | for each n a run in which the scans for two users make an unchanged file be claimed n times |
| `Distill.DeletedNoteIsDistilledAgain` | agent/notes_distill_scan.py:34-36 | for each n a run that claims an unchanged, up-to-date file n times by deleting its note |
| `Distill.CuratingBreaksTheBound` | agent/main.py:4142-4144 | for each n a run that claims a later version n times after the user curates the note |
| `Distill.CuratedNoteIsRescannedForever` | agent/notes_distill.py:289-298 | for each n a run that claims a changed file with a curated note n times |
| `Distill.ChangeIsPickedUp` | agent/notes_distill_scan.py:51-90 | on every run in which the file, scanned for one user, and the note are left alone, a change stays due until a scan finds the row not running; that scan enqueues the new version with attempts 0, and from then on the known time is the file's own |
| `Distill.KnownStep` | agent/notes_distill_scan.py:29-48 | only a scan that finds the row not running changes what is known of a file, and then to the file's time |
| `Distill.CancelledStaysCancelled` | agent/notes_distill_scan.py:93-136 | a cancelled tombstone of a file scanned for its user only is never swept or re-enqueued unless the file becomes newer or is asked for |
| `Distill.CancelledStaysIff` | agent/notes_distill.py:161-178 | on all such runs a cancellation lasts if and only if the file is scanned for nobody but its user |
| `Distill.ReturningFileIsDue` | agent/notes_distill_scan.py:93-136 | a swept tombstone lets a file that comes back be distilled whatever its time; a cancelled one holds back all that is not newer |
| `Distill.ManualIsNeverDemoted` | agent/notes_distill.py:147-180 | over any run a manual row stays manual as long as it is there |
| `Distill.EndsByFate` | agent/notes_distill.py:400-458 | each way an attempt can end, from table to table: the row gone, pending, failed or skipped, and the note written or not |
| `Distill.Queue.Enqueue` | agent/notes_distill.py:147-180 | the coalescing upsert: a running row is left alone, a manual origin is kept, the row becomes the caller's; other file types are refused |
| `Distill.Queue.ScanRoot` | agent/notes_distill_scan.py:51-90 | exactly the paths newer than known to the user are enqueued |
| `Distill.Queue.KnownMtimes` | agent/notes_distill_scan.py:29-48 | the newest time known from the user's notes and the user's jobs |
| `Distill.Queue.SweepDeadTombstones` | agent/notes_distill_scan.py:93-136 | exactly the user's uncancelled tombstones of absent files are deleted |
| `Distill.Queue.ClaimJob` | agent/notes_distill.py:183-208 | the first eligible row, manual ones first and then by age, becomes running |
| `Distill.Queue.ProcessPendingOnce` | agent/notes_distill.py:364-458 | what a pass leaves in the tables: the first eligible row or none is taken; without quota an automatic row is as before the claim; a summary leaves the user's note at the job's file time unless it is curated and no row; missing credentials and retryable errors leave the row pending below MAX_ATTEMPTS and failed at it, permanent errors failed, everything else skipped and not cancelled; no other row or note changes |
| `SkillView.StepOk` | service/skills_runtime.go:31-131 | every single file-system step, and a crash after it, keeps the protocol invariant |
| `SkillView.CrashSafeSwap` | service/skills_runtime.go:31-131 | after every step of every run, crashes included, the link is absent or shows exactly the last completely built view that was swapped in |
| `SkillNames.OwnNames` | service/skills_runtime.go:112-126 | of a user's own names the prefix tests pick exactly the version directories and temporary links |
| `SkillNames.OtherNames` | service/skills_runtime.go:112-126 | of another user's names they pick one if and only if the other id itself begins with the prefix |
| `SkillNames.DotlessNames` | route/v2/skills.go:163-176 | for ids without a dot they pick exactly the user's own version directories and temporary links |
| `SkillNames.CollidingIds` | service/skills_runtime.go:112-126 | user 7 would sweep the link of user 7.vip |
| `SkillNames.TextIsInjective` | service/skills_runtime.go:39-88 | for ids without a dot the text of a name determines it |
| `SkillView.OthersAreUntouchedIff` | service/skills_runtime.go:107-131 | all runs of one user's rebuilds leave another user's link alone if and only if the other id does not begin with a prefix of the sweep |
| `SkillView.SweepTakesTheLink` | service/skills_runtime.go:79-126 | for a colliding id, a rebuild that swaps and then sweeps removes the other user's link |
| `SkillView.DotlessOthersAreUntouched` | route/v2/skills.go:163-176 | no run of one user touches anything of a user whose id has no dot |
| `SkillView.WantedSkills` | service/skills_runtime.go:53-79 | the published view has exactly the built-in skills that are neither uninstalled nor disabled and the user's own ones that are not disabled |
| `SkillView.RuntimeDir.Rebuild` | service/skills_runtime.go:31-101 | a rebuild whose operations may fail anywhere is a protocol run; it succeeds whenever every operation works, the wanted names are distinct and the temporary name is free, and then publishes exactly the wanted view with the link at its new directory; otherwise it publishes nothing; it leaves one version directory and no temporary link unless a removal failed or a full directory stands in a link's place |
| `SkillView.RuntimeDir.Sweep` | service/skills_runtime.go:107-131 | goes by the prefix tests, keeps the new directory and the live target, and leaves nothing else with a prefix of this user unless an operation failed or a full directory stands in a link's place |
| `RateLimit.RateLimiter.TakeOrDie` | wiki_summary_worker/rate_limit.py:20-43 | the log and the answer after a call, unreadable lines and the empty-log error included |
| `RateLimit.TakeIsExact` | wiki_summary_worker/rate_limit.py:20-43 | on any file a call is granted if and only if fewer than the limit of stamps of the last hour are there; the file then holds those in order and the new one; a refusal leaves it alone and is an error when there is no stamp |
| `RateLimit.GrantedIff` | wiki_summary_worker/rate_limit.py:20-43 | over any calls that are not later, a call is granted if and only if the stamps of the file and the grants of the last hour are fewer than the limit |
| `RateLimit.CallsRemember` | wiki_summary_worker/rate_limit.py:26-43 | unless the clock goes back too far, the pruned log still counts every grant less than an hour away from the next call |
| `RateLimit.WindowBound` | wiki_summary_worker/rate_limit.py:20-43 | unless the clock goes back too far, every window of an hour has at most the limit of granted calls, whatever the log held |
| `RateLimit.RollingWindowBound` | wiki_summary_worker/rate_limit.py:20-43 | the same for every clock that never goes back |
| `RateLimit.BackwardClockBreaksTheBound` | wiki_summary_worker/rate_limit.py:20-43 | calls at a, a, an hour or more after a, and back within the hour of a are all granted with a limit of two |
| `RateLimit.BoundIffClockNeverForgets` | wiki_summary_worker/rate_limit.py:20-43 | a clock keeps the bound for all calls that read it if and only if it never returns within an hour of a reading after being an hour past it |

## Left out

- HTTP routes, SSE framing, proxies, authentication, logging, tracing and schema migrations.
- Clients of language models, OVMS, the parser and search: their answers are arbitrary inputs here.
- Image hydration and compaction in history items, and non-list inputs to the repairs, which are returned unchanged.
- The context-rescue retry, the max-turns synthesis and the error paths of a run: they rebuild the input through the SDK.
- The flush timer's arming, unsubscribing, and the TTL sweep of the event log.
- Fractional thresholds: compared as integer percentages, and estimates use integer arithmetic.
- Identifiers, hashes, file paths and device names are numbers; equality is all the code uses of them.
- Unicode white space in `strip`: only the ASCII characters are stripped.
- Items.EveryCallHasOutput: an output anywhere, because a following one is not what the code gives; `Items.FollowingOutputIff` has that.
- MicroCompact.MicroCompactLoop: how one output is shortened is a parameter, since that is work of regular expressions.
- MidRun.RunCtx.CompactionFilter: the summary and plan blocks in the instructions; that the list still begins with the very first item is told by whether anything was folded away, and the counters of the usage hook are not kept.
- Recall.IndexEqualsPrefix: an upsert that is applied after its timeout is not modelled.
- Recall.RecallIndex.ProcessPendingOnce: one session, and no other writer between the batches of a pass; the interleavings are in the steps that `Recall.NextKeepsInv` covers.
- Residency.SelectExpired: the sorted order of the names.
- Residency.Adapter.WriteConfig: the order and the base paths of the entries.
- Residency.ResidentsAreMostRecent: runs without load failures, since a failed load evicts by device; `Residency.Adapter.LoadLoop` covers those.
- Residency.ResidentsAreAllThatFit: the same runs, and none with a reaper pass, which frees slots by idle time.
- Rebuilding the resident set from OVMS at startup.
- McpStore.Store.RecordSuccess: the error, cooldown and schema columns; likewise McpStore.Store.RecordFailure below.
- McpStore.Store.RecordFailure: error text, error key and cooldown.
- Back-off between probes, the startup sweep of rows left probing, and the deletion of a server with its rows.
- The contents of the seed stamp of a skill view.
- Distill.Queue.ScanRoot: the scan is one atomic step over the distillable files, without extension filters.
- Distill.Queue.ProcessPendingOnce: how much quota a claim uses up; whether there is quota is an input.
- Distill.QuiescenceIff: stated for a file without a queued job at the start; `Distill.Quiescence` also covers queued ones.
- Permission tables, model windows, memory settings, routing and confirmation dialogs: short guards with easy lemmas.
