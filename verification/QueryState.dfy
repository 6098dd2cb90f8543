/** Immutable control state of the inner Query loop (agents/query_state.py). */
module QueryState {
  import opened Wrappers
  import opened Transcript
  import opened ToolCallIds

  datatype Phase = Preparing | CallingModel | ExecutingTools | StopGovernance | Terminal

  datatype TerminalReason =
    | Completed | MaxTurns | Cancelled | BudgetExhausted | DeadlineExceeded | ModelTimeout
    | PromptTooLong | OutputRecoveryExhausted | ModelError | ToolProtocolViolation | HookStopped

  datatype Reason =
    | Start | NextTurn | DomainEventDelivered | HookUpdate | ModelResponse | StopHookBlocking
    | ContextReprojectRetry | ReactiveCompactRetry | ModelFallback | OutputTokenEscalate
    | OutputContinuation | ToolResultCommitted | Ended(reason: TerminalReason)

  datatype Detail = NoDetail | Note(text: string) | UnsafeReplay(callIds: seq<string>)

  datatype ContextRecoveryState = ContextRecoveryState(
    attempts: nat, reactiveCompactAttempted: bool, compactionGeneration: nat, targetRatio: real)

  datatype OutputRecoveryState = OutputRecoveryState(
    continuationCount: nat, escalationAttempted: bool,
    maxOutputTokensOverride: Option<nat>, pendingFragments: seq<string>)

  datatype QualityRecoveryState = QualityRecoveryState(
    attempts: nat, active: bool, targetRequirementIds: seq<string>, triggeringRevision: Option<nat>)

  /** `key:turn:revision`, kept structured. */
  datatype BatchId = BatchId(stateKey: string, turn: nat, revision: nat)

  datatype PendingToolBatch = PendingToolBatch(
    batchId: BatchId, toolCalls: seq<ToolCall>,
    committedIds: seq<string>, committedResults: seq<Message>, resultRefs: seq<string>)

  datatype EventType = TransitionEvent | ToolResultEvent | CompletedEvent

  /** `key:revision:type`, kept structured. */
  datatype EventId = EventId(stateKey: string, revision: nat, eventType: EventType)

  datatype PendingQueryEvent = PendingQueryEvent(
    eventId: EventId, turn: nat, messages: seq<Message>, additional: seq<Message>,
    shouldContinue: Option<bool>, diagnostics: seq<Diagnostic>)

  datatype QueryTerminal = QueryTerminal(reason: TerminalReason, detail: Detail)

  datatype QueryLoopState = QueryLoopState(
    stateKey: string, messages: seq<Message>, phase: Phase, turn: nat, revision: nat, reason: Reason,
    context: ContextRecoveryState, output: OutputRecoveryState, candidate: nat, quality: QualityRecoveryState,
    pendingBatch: Option<PendingToolBatch>, pendingEvent: Option<PendingQueryEvent>,
    stopHookActive: bool, terminal: Option<QueryTerminal>)

  const FRESH_CONTEXT := ContextRecoveryState(0, false, 0, 1.0)
  const FRESH_OUTPUT := OutputRecoveryState(0, false, None, [])
  const FRESH_QUALITY := QualityRecoveryState(0, false, [], None)

  function FreshState(stateKey: string, messages: seq<Message>, turn: nat): QueryLoopState {
    QueryLoopState(stateKey, messages, Preparing, turn, 0, Start, FRESH_CONTEXT, FRESH_OUTPUT, 0,
                   FRESH_QUALITY, None, None, false, None)
  }

  predicate LegalTransition(from: Phase, to: Phase) {
    match from
    case Preparing => to in {Preparing, CallingModel, Terminal}
    case CallingModel => true
    case ExecutingTools => to in {Preparing, ExecutingTools, CallingModel, Terminal}
    case StopGovernance => to in {Preparing, StopGovernance, CallingModel, Terminal}
    case Terminal => to == Terminal
  }

  datatype AdvanceError = IllegalPhaseTransition | TerminalRequiresOutcome | NonTerminalHasOutcome

  /** `changed` is the old state with the action's field changes written in. */
  function Advance(s: QueryLoopState, phase: Phase, reason: Reason, changed: QueryLoopState)
    : (r: Result<QueryLoopState, AdvanceError>)
    ensures r.Ok? ==> LegalTransition(s.phase, r.value.phase)
    ensures r.Ok? ==> r.value.revision == s.revision + 1
    ensures r.Ok? ==> (r.value.phase == Terminal <==> r.value.terminal.Some?)
  {
    if !LegalTransition(s.phase, phase) then Err(IllegalPhaseTransition)
    else
      var next := changed.(phase := phase, reason := reason, revision := s.revision + 1);
      if phase == Terminal && next.terminal.None? then Err(TerminalRequiresOutcome)
      else if phase != Terminal && next.terminal.Some? then Err(NonTerminalHasOutcome)
      else Ok(next)
  }

  /** What ending a loop does to the state before the phase changes. */
  function Concluded(s: QueryLoopState, messages: seq<Message>, reason: TerminalReason, detail: Detail): QueryLoopState {
    s.(messages := if messages != [] then messages else s.messages,
       pendingBatch := None,
       terminal := Some(QueryTerminal(reason, detail)))
  }

  function QuietQuality(s: QueryLoopState): QueryLoopState {
    if s.quality.active then s.(quality := s.quality.(active := false)) else s
  }
}
