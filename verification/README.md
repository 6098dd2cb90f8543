# Verified model of the agent runtime

This project models the hand-written agent runtime of `open_deep_research`: the
recoverable model and tool loop, the tool-call protocol its transcripts obey, the
shrinking of transcripts to a token budget, the run journal with its manifest cache
and lease fencing, the budget ledger, and the small loops around them. Everything is
checked by `dafny verify dfyconfig.toml` with Dafny 4.11.

## How it is organised

- `Transcript`: messages and the grammar: every AI message that calls tools is followed
  by exactly its results, in order, and no result stands anywhere else.
  `ToolCallIds`, `ToolBatch` and `TranscriptCheck` are the three functions of
  `agents/tool_protocol.py` that keep it.
- `QueryState`, `QueryLoop`: the loop of `agents/query.py` as a machine over a process
  and a durable state. A label is one thing that can happen next: a step with whatever a
  hook, model or tool returned, a persist, a crash, a restart.
  `QueryEffects` says field by field what a step does and why a loop ends;
  `QueryGrammar`, `QueryOutbox`, `QueryExecution`, `QueryResults` and `QueryTermination`
  prove what every run keeps; `OutputRecovery` ties the loop to the standalone recovery of
  `agents/model_recovery.py`, `ToolScheduling` is the default execution of one batch
  and `ScheduleReplay` that execution replayed as steps of the loop.
- `ProtocolBlocks`, `ContextCompiler`, `SuffixCutters`, `ResultTrimming`: how
  transcripts are shortened.
- `JournalText` is the journal file and its reader, byte by byte; `RunStore` the
  transitions of journal, manifest and lease; `JournalRun` whole runs of them,
  `JournalGuards` the appends of unbound stores in them, `JournalTears` writes that end
  badly; `RunContextStore` the store object that performs them in place. `RuntimeState`
  holds the reducers and the replay built on them, and `QueryJournal` ties the loop's
  durable state to what replay finds.
- `Budgets` (the ledger as a value, whole runs), `ModelCalls` (one call among other workers)
  and `BudgetLedger` (the objects).
- `Coverage`, `RateLimiter`, `Feedback`, `TaskTimeline`: requirement assignment, the
  fixed-window limiter, the feedback truncator and the activity timeline.
- `Wrappers`, `Text`, `JsonText` and `Counting` are shared helpers: options and results,
  strings, JSON with a reader that takes back what was written, and the sizes of finite sets.

## The steps of the loop

`QueryLoop.Step` dispatches one label to the transition of the code it stands for:

- `StepBoot`: `src/open_deep_research/agents/query.py:736-842`; `StepPersist`: every
  `_persist_query_state`, `:474-480`
- `StepDeliver`, `StepClearOutbox`, `StepComplete`: `:855-892`
- `StepReachMaxTurns`: `:894-907`; `StepBeforeTurn`, `StepStopByHook`: `:909-986`;
  `StepBeginTurn`: `:987-1012`
- `StepCallModel` with `AfterFailure`, `AfterTruncation` and `AfterAnswer`: `:1014-1551`
- `StepGovernStop`: `:1553-1634`
- `StepEnterTools`: `:1636-1706`; `StepStartTool`: `:583-673`; `StepCommitTool`:
  `:1707-1743`; `StepFinishBatch`: `:1745-1998`

A label that is not possible in a world changes nothing, so a run is any sequence of
labels.

## Where the code does not keep a promise

Each of these is modelled as the code is, with the exact condition proved.

- A crash that loses only the newline of a journal line leaves a record the reader
  accepts and never terminates; the next append then makes the journal unreadable
  (`JournalTears.LostNewlineIsFatal`, an if and only if).
- The store ignores how many bytes a write took. In a process that lives on, a short write is
  counted in the manifest, and the next append makes the journal unreadable unless every
  byte was taken (`JournalTears.ShortWriteIsFatal`, an if and only if).
- The fence guard of a store bound to no lease holds no lock, so its record can become
  durable after fences came into use: if and only if they did so between its guard and its
  write (`JournalGuards.UnfencedRecordIffLateBind`, with a run in which it happens,
  `JournalGuards.RecordAfterBind`). The append then reports the fence as lost.
- `initialize` looks for a manifest some time before it writes one; a late one takes the fence
  token back if and only if a greater one was written meanwhile
  (`JournalGuards.LateInitializeForgets`).
- `deterministic_compact` raises when the first message after the system messages calls
  tools, because its protected prefix cuts that batch in two
  (`ContextCompiler.DeterministicCompact`, an if and only if).
- The feedback truncator does not end when some string is longer than eight characters and
  the text stays over the budget with every string as short as the loop makes it: eight
  characters and the ellipsis shorten to themselves (`Feedback.LoopDiverges`,
  `Feedback.RunsOfAnyLength`; otherwise it ends, `Feedback.LoopIsShort`). The call site asks
  for at least 512 characters, so there it takes control characters, which JSON writes with
  six (`Feedback.CallEndsWithoutControlCharacters`,
  `Feedback.ControlCharactersKeepTheCallRunning`).
- A checkpoint whose payload brings its own, different next stage leaves the manifest
  and the journal with different ones, and so does one that another checkpoint with other
  stages overtakes between its append and its manifest update
  (`JournalRun.CacheAgreesAfterCheckpoint`, an if and only if).
- A query view asked to keep zero or fewer messages of a longer history indexes past its
  end (`SuffixCutters.RecentBoundary`, an if and only if).
- A settle is checked against its cap only after it is stored: it exceeds the cap if and
  only if what the other reservations use and what it reports are over the limit
  (`Budgets.OpBreaksCapIffOvershoots`, `Budgets.CapsHoldIffNothingOvershoots`). That takes
  a settle of a released reservation or one that reports more than was reserved
  (`Budgets.DisciplinedUsageStaysWithinCaps`, `Budgets.CapsCanBreak`).
- A fallback in the middle of a continuation forgets the fragments kept so far, so the
  answer is not the whole text unless they were empty
  (`OutputRecovery.FallbackForgetsFragments`, an if and only if).
- Outcomes committed for a batch are replaced by errors when the batch is then cancelled or
  its hook fails (`QueryResults.CommittedOutcomesReachTranscript`).
- A research call whose requirement ids are present but null raises when claims are
  collected (`Coverage.AssignRequirements`, an if and only if).

## Assumptions

- Messages a hook or stop governance adds are plain; a replacement transcript, a
  compacted one and a sanitised one are closed with plain recovery messages
  (`QueryLoop.Admissible`). Of the built-in compactor this is proved for every transcript
  whose prefix cuts no batch (`ContextCompiler.CompactionKeepsClean`). `close_tool_batch`
  itself filters only tool results.
- A model response is an AI message that does not carry a recovery marker.
- The outcome of a governed call carries the id of that call. The committed results are
  looked up by that id on resume, so at-most-once rests on it.
- The model registry returns an index in range, and a later one on fallback.
- Message cost is a fixed number of tokens a message, summed; the theorems on token
  budgets of suffixes need it positive. Costs of prompt, tools and output are inputs.
- A journal line is one line, decodes to its record, and neither a proper prefix nor two
  lines run together decode (`JournalText.Faithful`), as JSON objects do.
- The lease token never decreases. A bound store's append, the locked part of an unbound
  one's, a manifest update and a lease change are each one step, as their locks make them.
  A run is initialised by one store: in whole runs the look for a manifest and its creation
  are one step. Between a record and its count in the manifest a process may die; a write
  either finishes or the process dies, except in `JournalTears.ShortWriteIsFatal`.
- Evaluator scores are one to five, as their schema demands. Text beyond ASCII is written to
  JSON as it is, and control characters, quotes and backslashes are escaped.
- White space that stripping removes is space, tab, newline and carriage return.
- Clock values and ratios are real numbers. Hashes are any function that gives non-empty
  text without spaces. Batch and event ids are kept as the tuple they are printed from.

## Model

| member | source | states |
|---|---|---|
| Transcript.ClosedConcat | src/open_deep_research/agents/tool_protocol.py:225-255 | behind a closed prefix, closedness is decided by what follows |
| Transcript.BatchIsClosed | src/open_deep_research/agents/tool_protocol.py:225-255 | a calling message with exactly its answers is a closed transcript |
| Transcript.CloseTail | src/open_deep_research/agents/query.py:1888-1909 | answering the pending tail in order, then adding plain messages, closes the transcript |
| Transcript.OpenTailNotClosed | src/open_deep_research/agents/tool_protocol.py:225-255 | a transcript with a pending tail is never closed, so the two accepted shapes exclude each other |
| Transcript.UnmarkedKeepsClosed | src/open_deep_research/agents/query.py:447-471 | dropping the output-recovery messages keeps a closed transcript closed |
| Transcript.UnmarkedConcat | src/open_deep_research/agents/query.py:447-471 | dropping them is done message by message, in order |
| Transcript.UnmarkedOne | src/open_deep_research/agents/query.py:447-454 | and concerns only human and AI messages that carry one of the two recovery markers |
| ToolCallIds.FreeId | src/open_deep_research/agents/tool_protocol.py:47-69 | the id found is the first unused numbered variant: some suffix, and not taken |
| ToolCallIds.NumberedIdInjective | src/open_deep_research/agents/tool_protocol.py:47-69 | different suffixes give different ids, so the search for a free one ends |
| ToolCallIds.FirstFreeId | src/open_deep_research/agents/tool_protocol.py:47-69 | the suffix loop stops at the first free variant |
| ToolCallIds.CanonicalId | src/open_deep_research/agents/tool_protocol.py:72-127 | a call keeps its stripped id when that is usable, and never shares an id with an earlier call |
| ToolCallIds.CanonicalizeCall | src/open_deep_research/agents/tool_protocol.py:72-127 | one turn of the loop: the id of the call and the defect reported for it |
| ToolCallIds.CanonicalizeAiToolCalls | src/open_deep_research/agents/tool_protocol.py:72-127 | the loop gives the canonical message and exactly the defects of its calls; other messages pass unchanged |
| ToolCallIds.CanonicalIdsAreGood | src/open_deep_research/agents/tool_protocol.py:72-127 | every canonicalised message has non-empty, pairwise distinct ids |
| ToolCallIds.OnlyIdsChange | src/open_deep_research/agents/tool_protocol.py:72-127 | names and arguments are untouched |
| ToolCallIds.CanonicalIsStable | src/open_deep_research/agents/tool_protocol.py:72-127 | canonicalising twice is canonicalising once, and the second pass has nothing to report |
| ToolCallIds.IdReports | src/open_deep_research/agents/tool_protocol.py:86-115 | a blank id is reported missing, one an earlier call ended up with duplicate, each under the id given instead, and nothing else is reported |
| ToolCallIds.GeneratedId | src/open_deep_research/agents/tool_protocol.py:86-107 | a call that cannot keep its id gets the first variant of its digest that no earlier call has |
| ToolCallIds.KeptId | src/open_deep_research/agents/tool_protocol.py:86-92 | a stripped id that is neither blank nor taken is kept |
| Text.StripTakesSpace | src/open_deep_research/agents/tool_protocol.py:88-88 | stripping takes white space off both ends and nothing else |
| ToolBatch.GroupCandidates | src/open_deep_research/agents/tool_protocol.py:155-173 | candidates are grouped by the call they answer, and each that answers none is reported |
| ToolBatch.FilterExtra | src/open_deep_research/agents/tool_protocol.py:175-183 | extras pass in order, tool results among them are reported |
| ToolBatch.CloseToolBatch | src/open_deep_research/agents/tool_protocol.py:145-222 | one result a call in call order, stray tool results filtered out, and exactly the defects of the batch |
| ToolBatch.ClosedResultsAnswer | src/open_deep_research/agents/tool_protocol.py:185-222 | whatever a hook returned, the closed results answer the calls |
| ToolBatch.CompletionOrderIsInvisible | src/open_deep_research/agents/tool_protocol.py:185-222 | candidates in any order of completion give the same closed results |
| ToolBatch.BatchValidIffRearrangement | src/open_deep_research/agents/tool_protocol.py:34-44 | a batch reports no defect if and only if the candidates are a rearrangement of one result for each call and the extras hold no tool result |
| ToolBatch.OrderedResultsPass | src/open_deep_research/agents/tool_protocol.py:185-222 | results already in call order pass through with their contents and without defect |
| ToolBatch.BatchReports | src/open_deep_research/agents/tool_protocol.py:155-222 | each kind of defect is reported exactly for the calls, candidates and extras it is about, found by position |
| ToolBatch.ClosedResultIs | src/open_deep_research/agents/tool_protocol.py:185-222 | under a call stand the one result that answers it, the text for a missing result if none does, and the text for duplicates if several do |
| TranscriptCheck.LocalIsGrammar | src/open_deep_research/agents/tool_protocol.py:225-255 | the scan (each calling message answered by the run behind it, no orphan result) accepts exactly the closed transcripts, or those with a pending tail |
| TranscriptCheck.CollectRun | src/open_deep_research/agents/tool_protocol.py:233-242 | the inner loop collects the ids and the positions of the run behind a calling message |
| TranscriptCheck.CheckBatch | src/open_deep_research/agents/tool_protocol.py:233-250 | a calling message passes exactly when its ids are good and its run answers them, or it is the allowed pending tail |
| TranscriptCheck.ValidateToolTranscript | src/open_deep_research/agents/tool_protocol.py:225-255 | no error if and only if the transcript is valid; an orphan or id error points at a real orphan or bad ids |
| QueryState.Advance | src/open_deep_research/agents/query_state.py:479-534 | a successful advance follows a legal phase transition, raises the revision by one, and has an outcome exactly when terminal |
| QueryGrammar.BootKeeps | src/open_deep_research/agents/query.py:736-842 | starting or resuming from a sound durable state is sound |
| QueryGrammar.OutboxKeeps | src/open_deep_research/agents/query.py:855-892 | delivering, clearing and completing keep every state sound |
| QueryGrammar.MaxTurnsKeeps | src/open_deep_research/agents/query.py:894-907 | ending at the turn limit keeps every state sound and never raises |
| QueryGrammar.HooksKeep | src/open_deep_research/agents/query.py:909-959 | plain hook messages or a clean replacement keep every state sound |
| QueryGrammar.HookStopKeeps | src/open_deep_research/agents/query.py:960-986 | a stop by a hook ends in a sound terminal state |
| QueryGrammar.BeginTurnKeeps | src/open_deep_research/agents/query.py:987-1012 | beginning a turn keeps every state sound |
| QueryGrammar.AnswerExtends | src/open_deep_research/agents/query.py:1482-1521 | the answer opens a tail carrying exactly its canonical calls, or leaves the transcript closed |
| QueryGrammar.TruncationKeeps | src/open_deep_research/agents/query.py:1359-1481 | escalating, continuing or giving up on a truncated answer keeps the state sound |
| QueryGrammar.FailureKeeps | src/open_deep_research/agents/query.py:1183-1358 | context retry, fallback and model failure keep the state sound |
| QueryGrammar.CallModelKeeps | src/open_deep_research/agents/query.py:1014-1551 | every outcome of a model call keeps the state sound and never raises |
| QueryGrammar.GovernanceKeeps | src/open_deep_research/agents/query.py:1553-1634 | every decision of stop governance keeps the state sound |
| QueryGrammar.EnterToolsKeeps | src/open_deep_research/agents/query.py:1636-1706 | entering or refusing a batch keeps the state sound |
| QueryGrammar.CommitToolKeeps | src/open_deep_research/agents/query.py:1707-1743 | a committed result keeps ids, results and calls of the batch in step |
| QueryGrammar.ClosingKeepsClean | src/open_deep_research/agents/query.py:1857-1909 | closing the batch closes the transcript for every candidate list, so its validation never raises |
| QueryGrammar.BatchLeaves | src/open_deep_research/agents/query.py:1911-1998 | settling a batch drops it, stores its event, keeps the turn and moves to preparing or terminal |
| QueryGrammar.FinishBatchKeeps | src/open_deep_research/agents/query.py:1857-1998 | finishing a batch keeps every state sound |
| QueryGrammar.StepKeepsSound | src/open_deep_research/agents/query.py:736-1998 | every step, persist, crash and restart keeps every state sound |
| QueryGrammar.EveryRunIsSound | src/open_deep_research/agents/query.py:736-1998 | over every run each durable and volatile state has the transcript its phase promises |
| QueryGrammar.NothingRaises | src/open_deep_research/agents/query.py:899-1909 | over every run no validation, phase check or lookup of the loop fails |
| QueryGrammar.OpenEndingIsUnsafeReplay | src/open_deep_research/agents/query.py:1653-1687 | a terminal state has an unanswered tail if and only if it refused to replay an unsafe tool |
| QueryEffects.BrokenTranscriptsRaise | src/open_deep_research/agents/query.py:894-1909 | in any state, sound or not, no step that calls the model, ends the loop or closes a batch goes on with a broken transcript |
| QueryEffects.BadStatesRaise | src/open_deep_research/agents/query.py:736-842 | nor does a process start on one, or with a candidate that does not exist, and a missing batch is not entered |
| QueryEffects.EndsIffCaused | src/open_deep_research/agents/query.py:894-1998 | in every sound world a step ends the loop, and for the reason given, if and only if that reason's cause holds: limits, hooks, stop decisions, model outcomes, unsafe replay, broken batches |
| QueryEffects.EscalationIs | src/open_deep_research/agents/query.py:1366-1400 | a turn may ask for more output once, if and only if escalation is on and the candidate gives more than was asked for: twice as much or 4096 more, within what it gives |
| QueryEffects.EveryStepIsAccounted | src/open_deep_research/agents/query.py:855-1998 | every step leaves the state alone or changes it as a table by field says: who moves the turn, the candidate, the transcript, both recoveries, the batch, the outbox, the phase |
| QueryEffects.StepIsTakenIffDue | src/open_deep_research/agents/query.py:855-1998 | in every sound world a step is taken if and only if it is due, leads to its place in the loop, and makes the next revision |
| QueryEffects.ToolStarts | src/open_deep_research/agents/query.py:583-673 | a tool begins exactly when its call may run, was not committed at entry and has not begun |
| QueryEffects.PersistSaves | src/open_deep_research/agents/query.py:474-480 | a persist makes the state in memory durable and publishes an event the first time |
| QueryEffects.BootStarts | src/open_deep_research/agents/query.py:736-842 | a process starts from the durable state or afresh; a batch is a resumed one if the durable state was executing tools |
| QueryEffects.PromptsTooLong | src/open_deep_research/agents/query.py:1188-1256 | however often a prompt proves too long, each retry asks for a smaller share and the second alone compacts, once |
| QueryEffects.TooLongForGood | src/open_deep_research/agents/query.py:1343-1358 | one failure more than the limit ends the loop as prompt too long |
| QueryOutbox.PublishKeepsOutbox | src/open_deep_research/agents/query.py:474-480 | an event becomes durable with a revision larger than every earlier one |
| QueryOutbox.EntryInHand | src/open_deep_research/agents/query.py:834-860 | after a restart the entry in hand is acknowledged exactly when nothing is missing |
| QueryOutbox.DeliverKeepsOutbox | src/open_deep_research/agents/query.py:855-872 | an entry is applied unless its id was acknowledged |
| QueryOutbox.GovernKeepsOutbox | src/open_deep_research/agents/query.py:1579-1634 | the governance step, which stores its event, keeps the outbox invariant |
| QueryOutbox.FinishKeepsOutbox | src/open_deep_research/agents/query.py:1942-1998 | the step that settles a batch, which stores its event, keeps the outbox invariant |
| QueryOutbox.StepKeepsOutbox | src/open_deep_research/agents/query.py:736-1998 | every step, persist, crash and restart keeps the outbox invariant |
| QueryOutbox.EveryRunKeepsOutbox | src/open_deep_research/agents/query.py:496-531 | over every run applied events are the published ones, short only of the one still durable |
| QueryOutbox.EventsApplyExactlyOnce | src/open_deep_research/agents/query.py:496-531 | at every point of every run each published event was applied once and in order, except the one the durable state carries; ids never repeat |
| QueryOutbox.YieldedIsDurable | src/open_deep_research/agents/query.py:855-872 | an event is yielded only while the durable state holds it |
| QueryExecution.EnterToolsKeepsExecutions | src/open_deep_research/agents/query.py:1653-1687 | entering a batch, or refusing a resumed one, keeps the execution invariant |
| QueryExecution.StartKeepsExecutions | src/open_deep_research/agents/query.py:591-593 | starting a call keeps the execution invariant, with at most one execution of an unsafe call |
| QueryExecution.CommitKeepsExecutions | src/open_deep_research/agents/query.py:1707-1743 | committing a call keeps the execution invariant |
| QueryExecution.StepKeepsExecutions | src/open_deep_research/agents/query.py:1636-1998 | every step, persist, crash and restart keeps the execution invariant |
| QueryExecution.EveryRunKeepsLoopInv | src/open_deep_research/agents/query.py:736-1998 | all three invariants hold over every run |
| QueryExecution.UnsafeToolsRunAtMostOnce | src/open_deep_research/agents/query.py:1653-1743 | over every run with any crashes and resumes a call neither read-only nor idempotent begins at most once |
| QueryExecution.ResumeGuard | src/open_deep_research/agents/query.py:1653-1687 | a resumed batch is refused if and only if some uncommitted call has a known tool neither read-only nor idempotent, and the refusal lists exactly the ids of those calls, in call order |
| QueryExecution.FreshBatchIsEntered | src/open_deep_research/agents/query.py:1653-1706 | a batch that is not resumed is always entered |
| QueryExecution.CommittedNamesAgree | src/open_deep_research/agents/query.py:1697-1743 | the committed ids, the committed results and the calls skipped on resume are one set of the batch, without repetition |
| QueryExecution.DurableCommitIsFrozen | src/open_deep_research/agents/query.py:1707-1743 | a durable commit is frozen from the moment it is durable |
| QueryExecution.CommittedNeverRunsAgain | src/open_deep_research/agents/query.py:591-593 | in every continuation a durably committed call of a batch is never executed again |
| QueryResults.EveryCommitIsTraced | src/open_deep_research/agents/query.py:1707-1743 | over every run, crashing and resuming as it may, every outcome a batch holds was committed for that call of that batch at some step of the run |
| QueryResults.CommittedOutcomesReachTranscript | src/open_deep_research/agents/query.py:1745-1909 | whenever a batch of any run finishes on the default path, each call that may run gets exactly what some step of the run committed for it, in call order; calls over the batch limit, and all calls when the outcomes are lost to a cancellation or hook failure, get the error for missing results |
| QueryResults.CandidatesAreCommits | src/open_deep_research/agents/query.py:727-733 | the outcomes handed over are committed ones, one for each runnable call, in call order |
| QueryResults.HandedOver | src/open_deep_research/agents/query.py:1858-1863 | what a batch closes with: the messages of the hook if it gave any, else the committed results of the calls that may run, in call order |
| QueryResults.MissingTypeIs | src/open_deep_research/agents/query.py:1864-1873 | which error a call without a result gets: cancelled, failed hook, beyond the limit, or missing |
| QueryResults.InitialReports | src/open_deep_research/agents/query.py:1796-1854 | before the results are looked at, exactly the calls beyond the limit and the way the batch broke off are reported |
| QueryResults.ExtrasPass | src/open_deep_research/agents/query.py:1887-1907 | of the extra messages all but tool results pass, unless the batch broke off |
| QueryTermination.FailureDescends | src/open_deep_research/agents/query.py:1183-1358 | a context retry or a fallback lowers the measure, although fallback resets output recovery |
| QueryTermination.TruncationDescends | src/open_deep_research/agents/query.py:1359-1481 | an escalation or a continuation lowers the measure |
| QueryTermination.CommitLowersWork | src/open_deep_research/agents/query.py:1707-1743 | a commit leaves less work in the batch |
| QueryTermination.StepDescends | src/open_deep_research/agents/query.py:736-1998 | every effective step of an undisturbed process lowers the lexicographic measure |
| QueryTermination.LoopIsNeverStuck | src/open_deep_research/agents/query.py:855-1998 | an unfinished loop always has a step that changes it |
| QueryTermination.Query | src/open_deep_research/agents/query.py:736-1998 | with a finite turn limit and turns that advance, the phase loop ends, sound and with its last state durable |
| OutputRecovery.InvokeWithOutputRecovery | src/open_deep_research/agents/model_recovery.py:53-129 | at most two plus the continuation limit calls; escalation only before the first fragment; each request repeats all fragments; the text is every reply after the escalation, in order |
| OutputRecovery.SameBudget | src/open_deep_research/agents/query.py:1359-1400 | the loop and the standalone recovery escalate to the same output budget |
| OutputRecovery.TruncatedTurn | src/open_deep_research/agents/query.py:1359-1481 | after any number of truncated replies the checkpointed state holds exactly their texts and messages |
| OutputRecovery.QueryRecoversSameText | src/open_deep_research/agents/query.py:456-471 | when a reply comes that is not cut off, the turn ends with the text of every reply since the escalation, in order |
| OutputRecovery.QueryExhaustsLikewise | src/open_deep_research/agents/query.py:1459-1481 | when the continuations run out the turn ends with output recovery exhausted |
| OutputRecovery.LoopAgreesWithStandalone | src/open_deep_research/agents/model_recovery.py:53-129 | for one candidate and tool-free replies the loop makes the same requests as the standalone recovery and ends with its text, or exhausted exactly when that raises |
| OutputRecovery.FallbackForgetsFragments | src/open_deep_research/agents/query.py:1276-1322 | after a fallback the answer holds only later replies; it is still the whole text if and only if no characters had been kept |
| ToolScheduling.CallsNeverOverlapWrongly | src/open_deep_research/agents/query.py:563-733 | at every moment of every schedule an unsafe call runs alone, calls in flight are safe with no barrier between them, and no more run than the limit |
| ToolScheduling.StartsAtMostOnce | src/open_deep_research/agents/query.py:675-733 | a call starts once if it starts at all |
| ToolScheduling.OnlySafeCallsOverlap | src/open_deep_research/agents/query.py:563-733 | said of the calls: at every moment of every schedule two run together only if both tools are marked safe and no call between them has to run alone, one that has to begins after all before it ended, and no more run than the limit |
| ToolScheduling.CallMayStartIff | src/open_deep_research/agents/query.py:675-733 | said of the calls: a call may begin if and only if it is due, a slot is free and nothing that has to run alone stands in its way |
| ScheduleReplay.EnteringFits | src/open_deep_research/agents/query.py:1653-1706 | entering a batch puts the loop where its scheduler begins: the calls passed over are the committed ones |
| ScheduleReplay.ReplayMirrors | src/open_deep_research/agents/query.py:675-743 | at every moment of an orderly schedule the loop that replays it has started and committed the same calls |
| ScheduleReplay.EveryEventTakesEffect | src/open_deep_research/agents/query.py:591-596 | no guard of the loop stands in the way of its scheduler: each start begins a call neither skipped nor started, each hand-over is committed |
| ToolScheduling.SafeStartsInGroup | src/open_deep_research/agents/query.py:707-733 | a safe call starts only beside calls of its own group |
| ToolScheduling.BarrierStartsAlone | src/open_deep_research/agents/query.py:707-733 | a call that is not safe starts only when nothing runs |
| ToolScheduling.Batch.ExecuteOne | src/open_deep_research/agents/query.py:583-673 | a call alone runs from its slot to its commit |
| ToolScheduling.Batch.FlushSafeGroup | src/open_deep_research/agents/query.py:680-705 | for every order of starts, ends and commits the whole group runs and is handed over, or a failed commit breaks off |
| ToolScheduling.Batch.Run | src/open_deep_research/agents/query.py:707-721 | the loop runs exactly the uncommitted calls |
| ToolScheduling.RunBatch | src/open_deep_research/agents/query.py:675-733 | an orderly trace, and unless it broke off one start for each uncommitted call and none for a committed one |
| ToolScheduling.ExecuteDefaultToolCalls | src/open_deep_research/agents/query.py:563-733 | results come back in call order for every completion order; calls beyond the batch limit are reported |
| ProtocolBlocks.BatchBlock | src/open_deep_research/agents/context_compiler.py:297-312 | the inner loop takes a calling message with all contiguous results for its ids |
| ProtocolBlocks.ProtocolBlocks | src/open_deep_research/agents/context_compiler.py:286-313 | the loop cuts the messages into protocol blocks |
| ProtocolBlocks.BlocksPartition | src/open_deep_research/agents/context_compiler.py:286-313 | the blocks in order are the messages again |
| ProtocolBlocks.EachIsBlock | src/open_deep_research/agents/context_compiler.py:286-313 | every block is a calling message with the longest run of results for its ids behind it, or one other message, cut where the block before ends |
| ProtocolBlocks.ValidIsWholeBlocks | src/open_deep_research/agents/context_compiler.py:286-313 | on a valid transcript every block is a closed batch, except a pending tail as the last one |
| ProtocolBlocks.PickedBlocksAreValid | src/open_deep_research/agents/context_compiler.py:271-283 | any choice of whole blocks is a valid transcript, with a pending tail last if it stays |
| ProtocolBlocks.CostOfPickUpdate | src/open_deep_research/agents/context_compiler.py:257-270 | adding one block back costs exactly that block more |
| ProtocolBlocks.CostOfOne | src/open_deep_research/agents/context_compiler.py:257-270 | the cost of one message is its own weight |
| ContextCompiler.ProtectedPrefix | src/open_deep_research/agents/context_compiler.py:212-222 | the leading system messages and the message behind them, unless that is a tool result |
| ContextCompiler.CoveringCovers | src/open_deep_research/agents/context_compiler.py:237-246 | the protected blocks hold every protected message |
| ContextCompiler.RecentWindow | src/open_deep_research/agents/context_compiler.py:248-255 | the window is the shortest run of newest blocks that holds enough messages |
| ContextCompiler.SelectBlocks | src/open_deep_research/agents/context_compiler.py:257-270 | newest first, a block is taken exactly when it fits beside those taken after it |
| ContextCompiler.SplitBlocks | src/open_deep_research/agents/context_compiler.py:238-247 | the blocks are parted at the last one holding a protected message |
| ContextCompiler.ProjectionKeepsProtected | src/open_deep_research/agents/context_compiler.py:224-283 | every block with a protected message stays, and the protected prefix stays in front |
| ContextCompiler.ProjectionFits | src/open_deep_research/agents/context_compiler.py:224-283 | the projection costs at most the target if and only if the protected blocks do |
| ContextCompiler.ProjectionIsMaximal | src/open_deep_research/agents/context_compiler.py:248-270 | adding back any skipped block, if it is within the newest messages asked for or no number was asked for, would exceed the target |
| ContextCompiler.BlockStaysIff | src/open_deep_research/agents/context_compiler.py:224-283 | a block stays if and only if it holds a guarded message, or it is within the newest messages asked for, if any are, and fits beside the blocks that stay after it |
| ContextCompiler.ProtectedIffHoldsGuarded | src/open_deep_research/agents/context_compiler.py:237-246 | the protected blocks are exactly those that hold a guarded message |
| ContextCompiler.GuardedIs | src/open_deep_research/agents/context_compiler.py:212-222 | a message is guarded if and only if only system messages stand before it, and it is no tool result |
| ContextCompiler.ProjectionIsValid | src/open_deep_research/agents/context_compiler.py:271-283 | the projection of a valid transcript is valid |
| ContextCompiler.Project | src/open_deep_research/agents/context_compiler.py:224-283 | returns the projection; fails exactly when a cut transcript came out invalid |
| ContextCompiler.Compile | src/open_deep_research/agents/context_compiler.py:72-151 | fails exactly on an invalid transcript; within budget if and only if the reservations fit and the history fits what is left |
| ContextCompiler.TargetWithinAvailable | src/open_deep_research/agents/context_compiler.py:118-125 | with a ratio of at most one the target never exceeds what is available |
| ContextCompiler.TargetIsShare | src/open_deep_research/agents/context_compiler.py:118-125 | the target is the asked share of what is available, at least a twentieth, rounded down |
| ContextCompiler.MarginIsTwentieth | src/open_deep_research/agents/context_compiler.py:114-114 | the safety margin is a twentieth of the window, and 2048 at least |
| ContextCompiler.CompiledWithinBudget | src/open_deep_research/agents/context_compiler.py:118-150 | protected blocks that fit the target make the history fit, for every ratio up to one |
| ContextCompiler.CutBatchIsInvalid | src/open_deep_research/agents/context_compiler.py:153-179 | a calling message followed by the recovery notice is no valid transcript |
| ContextCompiler.DeterministicCompact | src/open_deep_research/agents/context_compiler.py:153-179 | on a valid transcript it succeeds if and only if the first message after the system messages does not call tools; then protected prefix, notice with the right count, and projection, valid |
| ContextCompiler.CompactionKeepsClean | src/open_deep_research/agents/query.py:1200-1231 | compacting a clean transcript gives a clean one whenever the prefix cuts no batch, which is what the loop assumes of its compactor |
| ResultTrimming.TrimToolResults | src/open_deep_research/agents/context_compiler.py:181-201 | exactly the long tool results are cut and noted |
| ResultTrimming.LongResultsAreCut | src/open_deep_research/agents/context_compiler.py:181-201 | only tool results over the limit change: they keep their first characters and get the note |
| ResultTrimming.TrimmedKeepsGrammar | src/open_deep_research/agents/context_compiler.py:181-201 | trimming neither breaks nor repairs a transcript |
| SuffixCutters.FindOwner | src/open_deep_research/agents/query.py:301-308 | the backward search stops at the nearest message that owns one of the ids |
| SuffixCutters.ClosedSuffix | src/open_deep_research/agents/query.py:285-310 | a suffix of a closed transcript that does not start with a tool result is closed |
| SuffixCutters.BatchHead | src/open_deep_research/agents/query.py:293-308 | before a tool result of a closed transcript stands its calling message, with only results between |
| SuffixCutters.OwnerMakesGoodCut | src/open_deep_research/agents/deep_researcher.py:264-276 | pulling the boundary back to the owner makes the suffix valid and adds only the cut batch |
| SuffixCutters.RecentBoundary | src/open_deep_research/agents/query.py:285-310 | keeps the last messages and the rest of the batch cut; fails exactly when it is asked to keep none of a longer history |
| SuffixCutters.PrepareMessagesForQuery | src/open_deep_research/agents/query.py:285-330 | the query view is a good cut of the history with long results trimmed, and valid when the history is |
| SuffixCutters.BudgetBoundary | src/open_deep_research/agents/deep_researcher.py:254-262 | the longest suffix within the budget, or a single message |
| SuffixCutters.RecentMessageWindow | src/open_deep_research/agents/deep_researcher.py:252-277 | splits the history there, extended back only by the batch it cut |
| SuffixCutters.ProjectionSuffix | src/open_deep_research/run_context.py:778-795 | the journal projection keeps such a suffix too |
| SuffixCutters.BudgetedCuttersAgree | src/open_deep_research/run_context.py:778-795 | on a valid transcript both budgeted cutters keep the same messages |
| JournalText.ReadLines | src/open_deep_research/run_context.py:500-529 | the reader loop: numbered records of the run, a repair of a torn last line, or corruption |
| JournalText.LinesOfText | src/open_deep_research/run_context.py:505-505 | splitting a file of whole lines and a tail gives the lines and those of the tail |
| JournalText.TornFileReads | src/open_deep_research/run_context.py:500-529 | a file with a torn last line reads as its whole records and the tear is cut away, or is refused without repair |
| JournalText.WholeFileReads | src/open_deep_research/run_context.py:500-529 | a file of whole lines reads as its records and is left alone |
| JournalText.UnterminatedReads | src/open_deep_research/run_context.py:506-529 | a last line that lost only its newline is read as a record and left unterminated |
| JournalText.RunTogetherIsCorrupt | src/open_deep_research/run_context.py:512-524 | two records on one line make the journal unreadable |
| JournalText.SkippedNumberIsCorrupt | src/open_deep_research/run_context.py:525-527 | a record with any other number than the next makes the journal unreadable |
| JournalText.ReadingIs | src/open_deep_research/run_context.py:500-529 | any file at all reads as its non-blank lines if they hold the records of the run numbered from 1, else as all but a torn last line, which the repair cuts away, else it is corrupt |
| JournalRun.ReaderFindsEntries | src/open_deep_research/run_context.py:500-529 | the readable records are exactly the durable ones |
| JournalRun.AppendKeepsLog | src/open_deep_research/run_context.py:550-588 | an append adds one record numbered next or at most a tear, and the manifest never counts more than there is |
| JournalRun.MissingManifestMeansEmptyJournal | src/open_deep_research/run_context.py:255-288 | as long as no one removes the manifest file, it is missing only while the journal is empty |
| JournalRun.DurableRecordsAreRead | src/open_deep_research/run_context.py:500-588 | after every run the reader finds exactly the durable records, numbered 1 to n, the manifest counts at most n, and the next append is n + 1 |
| JournalTears.LostNewlineIsFatal | src/open_deep_research/run_context.py:500-588 | after a crash at byte k the next append leaves a readable journal if and only if k is not just before the newline |
| JournalTears.ShortWriteIsFatal | src/open_deep_research/run_context.py:574-588 | after a short write whose record was counted in the manifest, the next append leaves a readable journal if and only if the whole record and its newline were taken |
| JournalRun.StepKeepsFences | src/open_deep_research/run_context.py:208-231 | every bound writer held the live lease and writer tokens never go back along the journal |
| JournalRun.StepMovesOn | src/open_deep_research/run_context.py:393-455 | entries only grow, fence token and record count never decrease, completed and cancelled runs stay so |
| JournalRun.EveryRunIsConsistent | src/open_deep_research/run_context.py:208-615 | log, fencing and stage invariants hold over every run |
| JournalRun.SupersededWriterIsSilent | src/open_deep_research/run_context.py:208-231 | once the lease moved past a token no writer with it adds a record, and once fences are in use an unfenced record is only added by an append that was past its guard |
| JournalGuards.UnfencedRecordHasGuard | src/open_deep_research/run_context.py:210-218 | every unfenced record has a guard that passed before it |
| JournalGuards.OnlyBindsBringFences | src/open_deep_research/run_context.py:233-253 | fences come into use only with a bind or the first manifest of a bound store |
| JournalGuards.UnfencedRecordIffLateBind | src/open_deep_research/run_context.py:210-218 | an unfenced record becomes durable while fences are in use if and only if they came into use between its guard and its write |
| JournalGuards.RecordAfterBind | src/open_deep_research/run_context.py:550-588 | a run in which that happens |
| JournalGuards.LateRecordIsReportedLost | src/open_deep_research/run_context.py:574-588 | such a record is durable although its append reports the fence as lost |
| JournalGuards.LateInitializeForgets | src/open_deep_research/run_context.py:255-288 | an initialisation that writes after another store did takes the token back if and only if that store had a greater one |
| JournalRun.StagesOfLast | src/open_deep_research/run_context.py:377-379 | the stages read from the records are those of the last checkpoint |
| JournalRun.ReplayAgreesWithRebuild | src/open_deep_research/run_context.py:356-391 | at every point of every run replay and a rebuilt manifest agree on the stages |
| JournalRun.ReplayReportsLastCheckpoint | src/open_deep_research/run_context.py:715-756 | at every crash point replay reports the stage and next stage of the last durable checkpoint |
| JournalRun.NoteAgreesIffLast | src/open_deep_research/run_context.py:608-614 | the manifest update that ends a checkpoint leaves manifest and replay with the same stages if and only if the last checkpoint of the journal has the stages it writes |
| JournalRun.CacheAgreesAfterCheckpoint | src/open_deep_research/run_context.py:593-615 | whatever other stores do between the append and the update: with no other checkpoint in between they agree if and only if the payload brings no different next stage, with one if and only if the last has the same stages |
| RunStore.RebuildManifest | src/open_deep_research/run_context.py:356-391 | the rebuild loop gives the manifest the records say: stages, status, record count, and no fence |
| RunStore.RequestedStatusIsTaken | src/open_deep_research/run_context.py:428-438 | a requested status is taken if and only if the run is not over for good, and a failed one is only resumed on request |
| RunStore.ManifestIsWrittenIff | src/open_deep_research/run_context.py:393-422 | a manifest is written if and only if it is there, carries no fence or exactly the store's (no newer one, when advancing), and the store's lease is live unless held already; else nothing changes |
| RunStore.WrittenManifest | src/open_deep_research/run_context.py:423-438 | a written manifest holds what was asked for, and never counts fewer records |
| RunStore.EndTimeFollows | src/open_deep_research/run_context.py:439-449 | the end time is kept from when the run first was over, and taken back when it runs again |
| RunStore.InitializedIff | src/open_deep_research/run_context.py:255-282 | a first manifest is written if and only if there is none and no one else holds the lease |
| RunStore.RebuiltSays | src/open_deep_research/run_context.py:356-391 | a rebuilt manifest counts the records, takes the status the last of them names, if one does, and knows no fence |
| RunStore.AppendWrites | src/open_deep_research/run_context.py:550-588 | an append that writes adds behind the repaired text the line of one record with the content asked for, numbered behind both manifest and journal |
| RunStore.AppendFails | src/open_deep_research/run_context.py:550-588 | why an append fails: the guard first, then the missing manifest, then the unreadable journal; a death or a refused count leaves the manifest as it was |
| RunStore.LoadedIs | src/open_deep_research/run_context.py:349-391 | a manifest that is there is loaded as it is; a missing one is rebuilt from the records and written back, if there are any |
| RunStore.CheckpointSucceedsIff | src/open_deep_research/run_context.py:593-615 | a checkpoint succeeds if and only if its append does and the guard still passes at its manifest update; the manifest then has its stages and counts its record |
| RunStore.CheckpointKeepsPayload | src/open_deep_research/run_context.py:590-615 | a payload that names a next stage keeps it, and all its other entries stay |
| RunContextStore.RunContextStore.GuardFence | src/open_deep_research/run_context.py:208-231 | refuses exactly a binding that does not hold the live lease, or none once the manifest is fenced |
| RunContextStore.RunContextStore.ReadRecords | src/open_deep_research/run_context.py:500-529 | reads the journal file and repairs it in place |
| RunContextStore.RunContextStore.ApplyStatus | src/open_deep_research/run_context.py:425-447 | completed and cancelled are kept, failed is left only for a requested resume, and the end time follows |
| RunContextStore.RunContextStore.LoadManifest | src/open_deep_research/run_context.py:349-391 | the manifest that is there, or one rebuilt from a non-empty journal and written back |
| RunContextStore.RunContextStore.UpdateManifest | src/open_deep_research/run_context.py:393-455 | loads, guards and checks; the manifest file becomes the updated one, or it stays as loaded |
| RunContextStore.RunContextStore.BindFenceToken | src/open_deep_research/run_context.py:233-253 | binds the store and advances the manifest, or keeps the old binding |
| RunContextStore.RunContextStore.Append | src/open_deep_research/run_context.py:538-591 | guard, repair, number, write, note: the transition of the files, at every crash point |
| RunContextStore.RunContextStore.AppendLocked | src/open_deep_research/run_context.py:559-588 | the same without the guard: the part under the journal lock |
| RunContextStore.RunContextStore.Checkpoint | src/open_deep_research/run_context.py:593-615 | append and manifest update, at every crash point |
| RunContextStore.RunContextStore.ReplayStages | src/open_deep_research/run_context.py:715-746 | the stages replay reports |
| RuntimeState.StateDict.ApplyUpdate | src/open_deep_research/runtime.py:104-121 | every named field is merged once with its old value and no other field changes; an error stops part of the way |
| RuntimeState.MergedAppends | src/open_deep_research/runtime.py:67-88 | one update of a list field appends its contribution, to nothing if it resets |
| RuntimeState.MessageFieldCases | src/open_deep_research/runtime.py:67-80 | a message field: an override or a removal marker replaces what it held, anything else is appended, without markers |
| RuntimeState.ListFieldCases | src/open_deep_research/runtime.py:82-88 | a reducer field: an override replaces, a list on either side concatenates, and between two values that are no lists the new one wins |
| RuntimeState.MarkersAreDropped | src/open_deep_research/runtime.py:67-80 | removal markers never stay, and every other item does, in order |
| RuntimeState.MarkerAlone | src/open_deep_research/runtime.py:67-80 | the marker, and nothing else, is dropped |
| RuntimeState.NormalizedIs | src/open_deep_research/runtime.py:55-65 | normalising keeps number and order, item by item |
| RuntimeState.OtherFieldIsReplaced | src/open_deep_research/runtime.py:103-121 | a field without a reducer holds the value of its last update, plain or override |
| RuntimeState.FieldIsConcatenation | src/open_deep_research/runtime.py:67-121 | a list field is the concatenation of its updates from the last resetting one on |
| RuntimeState.AccumulatedFromReset | src/open_deep_research/runtime.py:67-88 | nothing before a resetting update matters |
| RuntimeState.ReplayState | src/open_deep_research/run_context.py:715-735 | replay leaves in each scope the updates of that scope alone |
| RuntimeState.ReplayedFieldIsConcatenation | src/open_deep_research/run_context.py:725-735 | a replayed list field is the concatenation of its scope from the last resetting update on |
| RuntimeState.ReplayedOtherField | src/open_deep_research/runtime.py:103-121 | a replayed field without a reducer holds the last value of its scope, or nothing if there was none |
| RuntimeState.LatestIsNewest | src/open_deep_research/run_context.py:737-745 | of the journalled loop states of a key the newest revision wins, and of equal ones the later record |
| RuntimeState.ReplayQueryStates | src/open_deep_research/run_context.py:736-745 | replay keeps exactly those, and drops an empty key |
| QueryJournal.PersistIsNotOlder | src/open_deep_research/agents/query.py:474-480 | a persist never writes an older revision than the durable one |
| QueryJournal.JournalHoldsDurableState | src/open_deep_research/run_context.py:617-645 | over every run and whatever other loops append, what replay keeps for a loop is its durable state |
| QueryJournal.Resume | src/open_deep_research/run_context.py:715-746 | a restart that decodes what replay kept resumes from the state that was durable |
| BudgetLedger.RunBudgetLedger.UsedIn | src/open_deep_research/budgets.py:130-137 | the sum is the usage of the dimension |
| BudgetLedger.RunBudgetLedger.OutstandingByDimension | src/open_deep_research/budgets.py:231-246 | the sum is what is reserved or uncertain |
| BudgetLedger.RunBudgetLedger.Reserve | src/open_deep_research/budgets.py:139-169 | idempotent by key, refused over the cap with the ledger marked exhausted |
| BudgetLedger.RunBudgetLedger.Settle | src/open_deep_research/budgets.py:171-195 | settles once, and marks the ledger when that exceeds the cap |
| BudgetLedger.RunBudgetLedger.Release | src/open_deep_research/budgets.py:197-212 | gives back what is not settled |
| BudgetLedger.RunBudgetLedger.MarkUncertain | src/open_deep_research/budgets.py:214-229 | keeps an unresolved reservation as uncertain |
| Budgets.UsedIsSettledPlusOutstanding | src/open_deep_research/budgets.py:130-246 | usage is what was settled plus what is outstanding |
| Budgets.OpUsage | src/open_deep_research/budgets.py:139-229 | an operation changes the entry of its key alone, and the usage by exactly that entry |
| Budgets.ReserveGrants | src/open_deep_research/budgets.py:139-169 | a new key is granted if and only if the amount fits beside what is used; a refusal changes nothing but the mark of exhaustion |
| Budgets.SettleCounts | src/open_deep_research/budgets.py:171-195 | a first settle counts what it reports in place of what was held, and marks a limit that passes |
| Budgets.ReleaseGivesBack | src/open_deep_research/budgets.py:197-212 | a release gives back what was held, a settled entry nothing |
| Budgets.UncertainKeepsUsage | src/open_deep_research/budgets.py:214-229 | an uncertain entry stays in use, and only an unresolved one becomes uncertain |
| Budgets.ReserveIsIdempotent | src/open_deep_research/budgets.py:139-169 | whatever happens in between, reserving a key again changes nothing: the same request succeeds, any other is an error |
| Budgets.SettleIsIdempotent | src/open_deep_research/budgets.py:171-195 | whatever happens in between, settling a key again changes nothing: the same usage succeeds, any other is an error |
| Budgets.OddRequests | src/open_deep_research/budgets.py:139-229 | what is refused outright, and what an unknown key gives |
| Budgets.ExhaustionIsNoticed | src/open_deep_research/budgets.py:139-195 | over any interleaving a capped dimension above its limit leaves the ledger exhausted, and that is never cleared |
| Budgets.SettledIsForever | src/open_deep_research/budgets.py:171-229 | over any interleaving a settled entry never changes |
| Budgets.OpBreaksCapIffOvershoots | src/open_deep_research/budgets.py:139-229 | from within the caps an operation leaves them if and only if it settles an unsettled entry with more than the cap leaves beside the others |
| Budgets.CapsHoldIffNothingOvershoots | src/open_deep_research/budgets.py:139-229 | over any interleaving the caps hold at every moment if and only if no settle overshoots at its time |
| Budgets.EveryRunOfALedger | src/open_deep_research/budgets.py:130-229 | every run from the empty ledger: no excess goes unnoticed, a mark of exhaustion stays, and the caps hold exactly when nothing overshoots |
| Budgets.DisciplinedUsageStaysWithinCaps | src/open_deep_research/budgets.py:139-229 | if settles report at most what was reserved and never follow a release, no dimension ever exceeds its cap |
| Budgets.CapsCanBreak | src/open_deep_research/budgets.py:171-212 | two runs that overshoot: a settle after a release, and a settle that reports more than was reserved |
| ModelCalls.GivenBackKeepsUsage | src/open_deep_research/budgets.py:428-433 | reservations of a call that are all given back leave every usage as it was |
| ModelCalls.PlanAsks | src/open_deep_research/budgets.py:386-428 | a call asks for itself first, then for each capped dimension its estimate, at least one token, and a cost only if there is one |
| ModelCalls.CallOwns | src/open_deep_research/budgets.py:395-433 | among any operations of other workers, what was granted is in the ledger as asked for or given back, and nothing else of the call is |
| ModelCalls.FailedCallLeavesNothing | src/open_deep_research/budgets.py:386-433 | a fresh call that fails among any operations of other workers adds nothing to the usage of any dimension |
| ModelCalls.SucceededCallHoldsItsPlan | src/open_deep_research/budgets.py:386-433 | one that succeeds holds exactly what it planned |
| ModelCalls.EnoughTurnsFinish | src/open_deep_research/budgets.py:386-433 | a call that gets enough turns is granted or rolled back |
| BudgetLedger.BudgetGate.RollBack | src/open_deep_research/budgets.py:428-433 | every given key is released unless settled, nothing else changes |
| BudgetLedger.BudgetGate.ReserveKeys | src/open_deep_research/budgets.py:395-427 | takes the requests of the plan in order, up to the first refusal |
| BudgetLedger.BudgetGate.ReserveModelCall | src/open_deep_research/budgets.py:386-433 | the call is the separately locked operations of its plan; alone, a fresh one that fails after its deadline check leaves the usage of every dimension as it was and a successful one reserves exactly its estimates |
| BudgetLedger.BudgetGate.FailModelCall | src/open_deep_research/budgets.py:459-469 | counts the attempt and closes its estimates; only a differently settled call is an error |
| BudgetLedger.ClosingEntries | src/open_deep_research/budgets.py:459-469 | no estimate of the attempt stays merely reserved, and settled entries are untouched |
| BudgetLedger.UncertainFailureKeepsUsage | src/open_deep_research/budgets.py:459-469 | a failure of unknown outcome leaves the usage of every dimension as reserved |
| Coverage.Resolved | src/open_deep_research/agents/deep_researcher.py:845-852 | an id resolves to a contract id or stays as it is |
| Coverage.ResolveId | src/open_deep_research/agents/deep_researcher.py:831-868 | one id: kept when it is a contract id, else the only contract id with its ordinal |
| Coverage.CanonicalizeIds | src/open_deep_research/agents/deep_researcher.py:831-855 | ids resolved in order, each once |
| Coverage.CanonicalIsStable | src/open_deep_research/agents/deep_researcher.py:831-855 | canonical ids are left alone |
| Coverage.RepairedToTheOnlyOne | src/open_deep_research/agents/deep_researcher.py:831-855 | an id that is none of the contract's, numbered like exactly one of them, is taken for that one |
| Coverage.OthersAreNotRepaired | src/open_deep_research/agents/deep_researcher.py:831-855 | without such a number, or when none or several have it, an id stays as it is |
| Coverage.WithoutDash | src/open_deep_research/agents/deep_researcher.py:847-853 | an id without a dash has nothing to be repaired by |
| Coverage.DealOut | src/open_deep_research/agents/deep_researcher.py:905-910 | the round-robin loop gives each assignment the items of its residue |
| Coverage.Overwrite | src/open_deep_research/agents/deep_researcher.py:911-925 | only the empty calls are overwritten, each with its own share |
| Coverage.AssignRequirements | src/open_deep_research/agents/deep_researcher.py:858-926 | the assignment of the calls; fails exactly when a research call carries requirements that cannot be iterated |
| Coverage.ShareSize | src/open_deep_research/agents/deep_researcher.py:905-910 | a share is the quotient, plus one for the first residues |
| Coverage.EveryRequirementIsOwned | src/open_deep_research/agents/deep_researcher.py:858-926 | when some research call arrives empty, every contract id is owned in the end |
| Coverage.NoRequirementIsForgotten | src/open_deep_research/agents/deep_researcher.py:858-925 | one research call that brings no requirement is enough for every contract id to be named by a research call |
| Coverage.RaisesIffNotIterable | src/open_deep_research/agents/deep_researcher.py:887-897 | the assignment raises if and only if a research call brings something that cannot be iterated, null included |
| Coverage.CallsKeepTheRest | src/open_deep_research/agents/deep_researcher.py:858-925 | every call keeps its id, name and other arguments, and all but a research call that brings none only get canonical ids |
| Coverage.UnclaimedGoesToOne | src/open_deep_research/agents/deep_researcher.py:904-925 | an id nobody claimed goes to exactly one call, one of the empty ones |
| Coverage.SharesAreEven | src/open_deep_research/agents/deep_researcher.py:904-910 | the shares of two empty calls differ by at most one |
| Coverage.CallsWithIdsAreOnlyCanonicalised | src/open_deep_research/agents/deep_researcher.py:865-884 | a call that brought ids is only canonicalised, without repetition and without losing one |
| Coverage.SecondPassChangesNothing | src/open_deep_research/agents/deep_researcher.py:858-926 | a second pass succeeds and changes nothing |
| RateLimiter.FixedWindowRateLimiter.Allow | src/open_deep_research/api_governance.py:25-47 | decision, wait and windows after a call |
| RateLimiter.FixedWindowRateLimiter.Cleanup | src/open_deep_research/api_governance.py:49-57 | from the size limit on, windows older than two window lengths are dropped |
| RateLimiter.CleanupNeverChangesADecision | src/open_deep_research/api_governance.py:25-57 | with a monotone clock the limiter decides as one that never forgets |
| RateLimiter.BoundHolds | src/open_deep_research/api_governance.py:25-47 | the current window counts what it admitted, and the one before admitted at most the limit |
| RateLimiter.AtMostTwiceTheLimit | src/open_deep_research/api_governance.py:25-57 | in any half-open interval of one window length a key is admitted at most twice the limit |
| RateLimiter.RejectionsAreDue | src/open_deep_research/api_governance.py:25-49 | a request is rejected only if its key was admitted as often as the limit within one window length up to it |
| RateLimiter.RejectedOnlyWhenFull | src/open_deep_research/api_governance.py:25-49 | the same of one key, from what was admitted since its window opened |
| RateLimiter.NoLimitAdmits | src/open_deep_research/api_governance.py:34-35 | without a positive limit everyone is admitted and nothing is counted |
| RateLimiter.WindowsAfterCall | src/open_deep_research/api_governance.py:36-49 | a call changes the window of its key alone, but for a sweep when it opens a new one |
| RateLimiter.SweepForgetsStale | src/open_deep_research/api_governance.py:51-59 | a sweep of many windows leaves exactly those opened at most two window lengths ago |
| RateLimiter.RetryAfterIsEnough | src/open_deep_research/api_governance.py:42-44 | the wait is a positive whole number above the rest of the window less a millisecond, and a caller that waits it and a millisecond is admitted |
| Feedback.Longest | src/open_deep_research/agents/deep_researcher.py:3082-3082 | the first of the longest strings |
| Feedback.Shortened | src/open_deep_research/agents/deep_researcher.py:3083-3085 | one shortening takes off the excess but keeps the first eight characters |
| Feedback.RenderedLength | src/open_deep_research/agents/deep_researcher.py:3042-3067 | the text of a summary is its fixed parts and its strings, each character as wide as JSON writes it |
| JsonText.ComesBack | src/open_deep_research/agents/deep_researcher.py:3061-3066 | whatever a value holds, reading what is written for it gives it back and leaves what stood behind |
| JsonText.EscapeWidth | src/open_deep_research/agents/deep_researcher.py:3061-3066 | a character takes two places with a short escape, six as another control character, else one |
| Feedback.FeedbackSays | src/open_deep_research/agents/deep_researcher.py:3042-3088 | the text of a summary is JSON: its reader finds the decision, the scores, the first three items of each list and the reason, each the original or a prefix of it, and the mark |
| Feedback.FallbackSays | src/open_deep_research/agents/deep_researcher.py:3087-3094 | so is the text that stands in for it, with the whole decision |
| Feedback.SlotsAre | src/open_deep_research/agents/deep_researcher.py:3033-3058 | a summary starts from at most three items a list of at most 160 characters, and at most 240 of the reason |
| Feedback.TurnProgress | src/open_deep_research/agents/deep_researcher.py:3069-3086 | a turn keeps the floor; it narrows the text when the floor fits and never ends the loop when it does not |
| Feedback.LoopDiverges | src/open_deep_research/agents/deep_researcher.py:3069-3086 | when the text at the floor exceeds the budget and some string can be shortened the loop never stops, whatever the strings hold |
| Feedback.RunsOfAnyLength | src/open_deep_research/agents/deep_researcher.py:3069-3086 | and such runs exist for every number of turns |
| Feedback.LoopIsShort | src/open_deep_research/agents/deep_researcher.py:3069-3086 | otherwise the loop takes no more turns than there are rendered characters to lose |
| Feedback.PlainTextEnds | src/open_deep_research/agents/deep_researcher.py:3069-3086 | for text JSON does not escape, nine characters for each string beside the fixed parts are enough |
| Feedback.CallEndsWithoutControlCharacters | src/open_deep_research/agents/deep_researcher.py:3138-3148 | at every limit the call site can ask for, the loop ends within it unless some text holds a control character that JSON writes with six characters |
| Feedback.ControlCharactersKeepTheCallRunning | src/open_deep_research/agents/deep_researcher.py:3138-3148 | an assessment with such characters, too long to be passed on as it is, on which the call at the least limit never returns |
| Feedback.Shrink | src/open_deep_research/agents/deep_researcher.py:3069-3086 | the result fits if and only if the floor does, and each string is the original or a prefix of eight or more characters with an ellipsis |
| Feedback.BoundedFeedback | src/open_deep_research/agents/deep_researcher.py:3026-3094 | the encoded assessment when it fits, else a summary within the budget, else the fixed fallback |
| Feedback.AssessmentFeedback | src/open_deep_research/agents/deep_researcher.py:3138-3148 | the call returns a text within the configured limit |
| TaskTimeline.SortSorts | frontend/src/lib/task-activity-reducer.ts:22-22 | the sort is sorted and keeps the events |
| TaskTimeline.ReduceTaskActivity | frontend/src/lib/task-activity-reducer.ts:13-29 | the loop takes live events in order of sequence, skipping those behind the cursor or known |
| TaskTimeline.TakenAddsTheNew | frontend/src/lib/task-activity-reducer.ts:13-29 | a live batch adds exactly the events beyond the cursor and moves the cursor to the last of them |
| TaskTimeline.ByIdsHoldsEachIdOnce | frontend/src/lib/task-activity-reducer.ts:35-37 | the map by id holds each id once and loses none |
| TaskTimeline.MergeTaskActivityHistory | frontend/src/lib/task-activity-reducer.ts:31-42 | the merged page |
| TaskTimeline.MergeIsSortedUnion | frontend/src/lib/task-activity-reducer.ts:31-42 | a merge is the strictly sorted union with its ids and the largest cursor |
| TaskTimeline.MergeAllIsSortedUnion | frontend/src/lib/task-activity-reducer.ts:31-42 | so are any number of merges |
| TaskTimeline.MergeKeepsLatestVersions | frontend/src/lib/task-activity-reducer.ts:31-42 | even where page and timeline disagree: each id once, sorted, in the version of the timeline if it has one, else the last of the page; the cursor is the largest |
| TaskTimeline.FirstEventIsTaken | frontend/src/lib/task-activity-reducer.ts:9-29 | an empty timeline takes an event exactly when its number is positive |
| TaskTimeline.HistoriesConverge | frontend/src/lib/task-activity-reducer.ts:31-42 | pages with the same events in any order and with any repetition end in the same timeline |
| TaskTimeline.EveryInterleavingIsWellFormed | frontend/src/lib/task-activity-reducer.ts:13-42 | live events and pages in any interleaving keep the timeline strictly sorted, unique and at or below the cursor |
| TaskTimeline.FullHistoryWins | frontend/src/lib/task-activity-reducer.ts:13-42 | after any interleaving a full history leaves exactly its sorted listing |

## Left out

- QueryExecution.UnsafeToolsRunAtMostOnce: counts governed invocations on the default path; retries inside the governance module and executions of custom or durable batch hooks are outside it.
- QueryTermination.Query: takes the environment as a function that always answers with an effective step, because timeouts and cancellation are outcomes here, not time.
- OutputRecovery.LoopAgreesWithStandalone: is stated for one candidate and tool-free replies, where the two recoveries are meant to agree.
- ModelCalls.FailedCallLeavesNothing: is about fresh keys that no other worker uses; an existing reservation is returned without being counted again.
- BudgetLedger.BudgetGate.FailModelCall: is stated with no other worker between its operations; `Budgets` covers their interleavings one by one.
- JournalRun.DurableRecordsAreRead: excludes the crash that loses only the newline, which has its own theorem, and a crash inside the repair write.
- JournalRun.SupersededWriterIsSilent: excludes the loss of the manifest file, whose rebuild resets the fence token.
- RunContextStore.RunContextStore.LoadManifest: treats a manifest as there or missing; one that does not parse is not modelled.
- RunContextStore.RunContextStore.AppendLocked: fails on a missing manifest: the rebuild inside it waits for the journal lock that the append holds, until it gives up.
- Feedback.AssessmentFeedback: is about assessments without control characters; with them the call may not return, and `Feedback.BoundedFeedback` states when it does.
- ContextCompiler.Compile: takes reals where the code rounds floating-point products.
- The texts of errors, continuation requests, terminal details and missing results are placeholders or kept as kinds.
- A batch beyond its capacity limit is reported as a protocol violation, which ends the run, as the code does.
- A persist that fails in a live process while a tool result is committed: the code reports it as a failure of the batch hook; in the model a failed persist is a crash.
- A durable batch hook that fails after a commit re-raises; in the model that is a crash.
- `to_snapshot` and `from_snapshot`: field-by-field copies; `QueryJournal.Resume` takes them as inverses.
- The journal rebuild of manifest fields such as owner, configuration and result, and the research brief.
- Sanitising and redaction, artifact spill-over, evidence records: they rest on regular expressions and URL parsing.
- Collecting the messages of a channel in `build_projection`; its cutter is modelled.
- `settle_model_call`, tool and fetch reservations, cost estimation: one settle or reserve each.
- `normalize_messages` on API dictionaries is one function on items.
- Asyncio timing, file locks and fsync beyond atomic sections and crash points; transport retries.
- HTTP routes, retention, the React components, prompts, model configuration and quality gates.
