/**
 * The recoverable model/tool loop (agents/query.py, `query`) as a machine over a
 * process and a durable state. Every label is one thing that can happen next: a
 * step of the loop with whatever its hook, model or tool returned, a persist, a
 * crash or a restart. A label that is not possible now changes nothing.
 */
module QueryLoop {
  import opened Wrappers
  import opened Transcript
  import opened ToolCallIds
  import opened ToolBatch
  import opened QueryState

  datatype ToolSpec = ToolSpec(readOnly: bool, idempotent: bool)

  /** `outputCap` is the configured override of the model's output limit. */
  datatype Candidate = Candidate(maxTokens: nat, outputCap: Option<nat>)

  datatype Config = Config(
    stateKey: string, initialMessages: seq<Message>, initialTurn: nat,
    tools: map<string, ToolSpec>, candidates: seq<Candidate>, customCallModel: bool,
    maxTurns: Option<nat>, beforeHooks: nat, maxBatch: Option<nat>,
    contextLimit: nat, continuationLimit: nat, escalation: bool, digest: nat -> Digest)

  /** Where the process stands; `Saving(next)` is between an advance and its persist. */
  datatype Pc =
    | Top | Delivered | InHooks(cursor: nat) | HookStop(cancelled: bool) | InTools | Done
    | Saving(next: Pc)

  datatype RaiseKind = BadTranscript | BadAdvance | NoCandidate | NoPendingBatch

  datatype Process =
    | Down
    | Raised(kind: RaiseKind)
    | Up(state: QueryLoopState, pc: Pc, acked: set<EventId>, resumedBatch: bool,
         entry: set<string>, started: set<string>)

  datatype Execution = Execution(batch: BatchId, call: ToolCall)

  /**
   * `published`: outbox events in the order they became durable; `applied`: events the
   * consumer durably applied; `executed`: tool invocations in the order they began.
   */
  datatype World = World(
    durable: Option<QueryLoopState>, proc: Process,
    published: seq<PendingQueryEvent>, applied: seq<PendingQueryEvent>, executed: seq<Execution>)

  // ------------------------------------------------------------------ inputs

  datatype HookResult = HookResult(
    messages: seq<Message>, replacement: Option<seq<Message>>, shouldStop: bool, cancelled: bool)

  datatype ErrorKind = PromptTooLongError | ModelUnavailable | RateLimited | Transient | OtherError

  datatype Interruption = CancelledCall | DeadlineHit | BudgetHit

  /** `recovered` and `sanitized` are what compaction and fallback sanitising would return. */
  datatype ModelOutcome =
    | Unfit
    | Interrupted(cause: Interruption)
    | Failed(kind: ErrorKind, timeout: bool, recovered: seq<Message>, sanitized: seq<Message>, nextCandidate: nat)
    | Responded(response: Message, truncated: bool)

  /** `lost`: the batch broke off before its outcomes were returned; `custom`: a batch hook ran the tools. */
  datatype BatchReport = BatchReport(
    cancelled: bool, hookFailed: bool, lost: bool, custom: bool,
    messages: Option<seq<Message>>, additional: seq<Message>,
    requestedContinue: bool, quality: Option<QualityRecoveryState>)

  datatype Label =
    | Boot(candidate: nat)
    | Crash
    | Persist
    | Deliver
    | ClearOutbox
    | Complete
    | ReachMaxTurns
    | BeforeTurn(hook: Option<HookResult>)
    | StopByHook
    | BeginTurn(delta: nat)
    | CallModel(outcome: ModelOutcome)
    | GovernStop(action: StopAction, stopMessages: seq<Message>)
    | EnterTools
    | StartTool(index: nat, admitted: bool)
    | CommitTool(index: nat, content: string, ref: Option<string>)
    | FinishBatch(report: BatchReport)

  datatype StopAction = ContinueLoop | CompleteLoop | HaltLoop

  // ------------------------------------------------------------- small steps

  function Raise(w: World, kind: RaiseKind): World {
    w.(proc := Raised(kind))
  }

  /** Adopt the advanced state in memory; it becomes durable at the next `Persist`. */
  function Adopt(w: World, advanced: Result<QueryLoopState, AdvanceError>, next: Pc): World
    requires w.proc.Up?
  {
    match advanced
    case Ok(s) => w.(proc := w.proc.(state := s, pc := Saving(next)))
    case Err(_) => Raise(w, BadAdvance)
  }

  /** `_terminal_state` without further changes: the usual way a model phase ends. */
  function Ending(s: QueryLoopState, reason: TerminalReason): Result<QueryLoopState, AdvanceError> {
    Advance(s, Terminal, Reason.Ended(reason), Concluded(QuietQuality(s), s.messages, reason, NoDetail))
  }

  function AckedIds(events: seq<PendingQueryEvent>): set<EventId> {
    set e | e in events :: e.eventId
  }

  function StepBoot(cfg: Config, w: World, candidate: nat): World {
    if !w.proc.Down? then w
    else
      var base := if w.durable.Some? then w.durable.value
                  else FreshState(cfg.stateKey, cfg.initialMessages, cfg.initialTurn);
      if !ValidTranscript(base.messages, true) then Raise(w, BadTranscript)
      else if base.candidate >= |cfg.candidates| then Raise(w, NoCandidate)
      else
        w.(proc := Up(base.(candidate := candidate), Saving(Top), AckedIds(w.applied),
                      w.durable.Some? && base.phase == ExecutingTools, {}, {}))
  }

  function StepPersist(w: World): World {
    if w.proc.Up? && w.proc.pc.Saving? then
      var s := w.proc.state;
      var isNew := s.pendingEvent.Some? && (w.durable.None? || w.durable.value.pendingEvent != s.pendingEvent);
      w.(durable := Some(s),
         published := if isNew then w.published + [s.pendingEvent.value] else w.published,
         proc := w.proc.(pc := w.proc.pc.next))
    else w
  }

  /** Yield the outbox entry unless its id was acknowledged when this process began. */
  function StepDeliver(w: World): World {
    if w.proc.Up? && w.proc.pc == Top && w.proc.state.pendingEvent.Some? then
      var e := w.proc.state.pendingEvent.value;
      w.(applied := if e.eventId in w.proc.acked then w.applied else w.applied + [e],
         proc := w.proc.(pc := Delivered))
    else w
  }

  function StepClearOutbox(w: World): World {
    if w.proc.Up? && w.proc.pc == Delivered && w.proc.state.pendingEvent.Some? then
      var s := w.proc.state;
      var last := s.pendingEvent.value.eventId.eventType == CompletedEvent;
      Adopt(w, Advance(s, s.phase, DomainEventDelivered, s.(pendingEvent := None)), if last then Done else Top)
    else w
  }

  predicate AtTop(w: World, phase: Phase) {
    w.proc.Up? && w.proc.pc == Top && w.proc.state.pendingEvent.None? && w.proc.state.phase == phase
  }

  predicate TurnsUsedUp(cfg: Config, s: QueryLoopState) {
    cfg.maxTurns.Some? && s.turn >= cfg.maxTurns.value
  }

  function StepComplete(w: World): World {
    if AtTop(w, Terminal) then w.(proc := w.proc.(pc := Done)) else w
  }

  function StepReachMaxTurns(cfg: Config, w: World): World {
    if AtTop(w, Preparing) && TurnsUsedUp(cfg, w.proc.state) then
      var s := w.proc.state;
      if !ValidTranscript(s.messages, false) then Raise(w, BadTranscript)
      else Adopt(w, Ending(s, MaxTurns), Top)
    else w
  }

  /** Index of the hook that runs next, if the loop is at a hook. */
  function HookCursor(cfg: Config, w: World): Option<nat> {
    if !w.proc.Up? then None
    else if AtTop(w, Preparing) && !TurnsUsedUp(cfg, w.proc.state) then Some(0)
    else if w.proc.pc.InHooks? then Some(w.proc.pc.cursor)
    else None
  }

  function StepBeforeTurn(cfg: Config, w: World, hook: Option<HookResult>): World {
    var cursor := HookCursor(cfg, w);
    if cursor.None? || cursor.value >= cfg.beforeHooks then w
    else if hook.None? then w.(proc := w.proc.(pc := InHooks(cursor.value + 1)))
    else
      var s, h := w.proc.state, hook.value;
      var messages := if h.replacement.Some? then h.replacement.value else s.messages + h.messages;
      Adopt(w, Advance(s, Preparing, HookUpdate, s.(messages := messages)),
            if h.shouldStop then HookStop(h.cancelled) else InHooks(cursor.value + 1))
  }

  function StepStopByHook(w: World): World {
    if w.proc.Up? && w.proc.pc.HookStop? then
      var s := w.proc.state;
      var reason := if w.proc.pc.cancelled then TerminalReason.Cancelled else HookStopped;
      if !ValidTranscript(s.messages, false) then Raise(w, BadTranscript)
      else Adopt(w, Ending(s, reason), Done)
    else w
  }

  function StepBeginTurn(cfg: Config, w: World, delta: nat): World {
    var cursor := HookCursor(cfg, w);
    if cursor.None? || cursor.value < cfg.beforeHooks then w
    else
      var s := w.proc.state;
      Adopt(w, Advance(s, CallingModel, NextTurn, s.(turn := s.turn + delta, stopHookActive := false)), Top)
  }

  // -------------------------------------------------------------- model call

  function Requested(cfg: Config, s: QueryLoopState): nat
    requires s.candidate < |cfg.candidates|
  {
    var o := s.output.maxOutputTokensOverride;
    if o.Some? && o.value != 0 then o.value else cfg.candidates[s.candidate].maxTokens
  }

  function Max(a: nat, b: nat): nat { if a > b then a else b }

  function Min(a: nat, b: nat): nat { if a < b then a else b }

  function MaximumOutput(c: Candidate, requested: nat): nat {
    var floor := Max(1, requested);
    if c.outputCap.Some? then Max(floor, c.outputCap.value) else floor
  }

  predicate CanEscalate(cfg: Config, s: QueryLoopState)
    requires s.candidate < |cfg.candidates|
  {
    && cfg.escalation
    && Requested(cfg, s) > 0
    && MaximumOutput(cfg.candidates[s.candidate], Requested(cfg, s)) > Requested(cfg, s)
    && !s.output.escalationAttempted
  }

  function Escalated(cfg: Config, s: QueryLoopState): QueryLoopState
    requires s.candidate < |cfg.candidates|
  {
    var requested := Requested(cfg, s);
    var cap := MaximumOutput(cfg.candidates[s.candidate], requested);
    s.(output := s.output.(escalationAttempted := true,
                           maxOutputTokensOverride := Some(Min(cap, Max(requested * 2, requested + 4096)))))
  }

  /** The request that asks for the rest; its wording is the content placeholder. */
  const CONTINUATION_REQUEST := Human("resume", Marker.OutputContinuation)

  function Continued(s: QueryLoopState, response: Message): QueryLoopState
    requires response.AI?
  {
    s.(messages := s.messages + [AI(response.content, response.calls, OutputFragment), CONTINUATION_REQUEST],
       output := s.output.(continuationCount := s.output.continuationCount + 1,
                           pendingFragments := s.output.pendingFragments + [response.content]))
  }

  function Joined(fragments: seq<string>): string {
    if fragments == [] then "" else fragments[0] + Joined(fragments[1..])
  }

  /** The response with the earlier fragments put back in front of its text. */
  function Consolidated(s: QueryLoopState, response: Message): Message
    requires response.AI?
  {
    if s.output.pendingFragments == [] then response
    else AI(Joined(s.output.pendingFragments + [response.content]), response.calls, response.marker)
  }

  predicate Reactive(s: QueryLoopState) {
    s.context.attempts + 1 >= 2 && !s.context.reactiveCompactAttempted
  }

  function ContextRetried(s: QueryLoopState, recovered: seq<Message>): QueryLoopState {
    var reactive := Reactive(s);
    var ratio := s.context.targetRatio * 0.8;
    s.(messages := if reactive then recovered else s.messages,
       context := ContextRecoveryState(
         s.context.attempts + 1,
         s.context.reactiveCompactAttempted || reactive,
         s.context.compactionGeneration + (if reactive then 1 else 0),
         if ratio > 0.05 then ratio else 0.05))
  }

  predicate RetriesContext(cfg: Config, s: QueryLoopState, kind: ErrorKind) {
    kind == PromptTooLongError && s.context.attempts < cfg.contextLimit
  }

  predicate FallsBack(cfg: Config, s: QueryLoopState, kind: ErrorKind) {
    && kind in {ModelUnavailable, RateLimited, Transient}
    && !cfg.customCallModel
    && s.candidate + 1 < |cfg.candidates|
  }

  function AfterFailure(cfg: Config, s: QueryLoopState, o: ModelOutcome): Result<QueryLoopState, AdvanceError>
    requires o.Failed?
  {
    if RetriesContext(cfg, s, o.kind) then
      Advance(s, CallingModel, if Reactive(s) then ReactiveCompactRetry else ContextReprojectRetry,
              ContextRetried(s, o.recovered))
    else if FallsBack(cfg, s, o.kind) then
      Advance(s, CallingModel, ModelFallback,
              s.(messages := o.sanitized, candidate := o.nextCandidate, output := FRESH_OUTPUT))
    else
      Ending(s, if o.kind == PromptTooLongError then PromptTooLong
                else if o.timeout then ModelTimeout else ModelError)
  }

  function AfterTruncation(cfg: Config, s: QueryLoopState, response: Message): Result<QueryLoopState, AdvanceError>
    requires response.AI? && s.candidate < |cfg.candidates|
  {
    if CanEscalate(cfg, s) then Advance(s, CallingModel, OutputTokenEscalate, Escalated(cfg, s))
    else if s.output.continuationCount < cfg.continuationLimit then
      Advance(s, CallingModel, Reason.OutputContinuation, Continued(s, response))
    else Ending(s, OutputRecoveryExhausted)
  }

  /** The whole answer with canonical call ids, as it enters the transcript. */
  function Answered(cfg: Config, s: QueryLoopState, response: Message): Message
    requires response.AI?
  {
    Canonicalized(Consolidated(s, response), cfg.digest(s.turn))
  }

  function AfterAnswer(cfg: Config, s: QueryLoopState, response: Message): Result<QueryLoopState, AdvanceError>
    requires response.AI?
  {
    var answer := Answered(cfg, s, response);
    var settled := s.(messages := Unmarked(s.messages) + [answer],
                      output := FRESH_OUTPUT, context := FRESH_CONTEXT);
    if answer.Calling() then
      var batch := PendingToolBatch(BatchId(s.stateKey, s.turn, s.revision + 1), answer.calls, [], [], []);
      Advance(s, ExecutingTools, NextTurn, settled.(pendingBatch := Some(batch)))
    else Advance(s, StopGovernance, ModelResponse, settled)
  }

  function InterruptionReason(cause: Interruption): TerminalReason {
    match cause
    case CancelledCall => TerminalReason.Cancelled
    case DeadlineHit => DeadlineExceeded
    case BudgetHit => BudgetExhausted
  }

  function AfterModel(cfg: Config, s: QueryLoopState, outcome: ModelOutcome): Result<QueryLoopState, AdvanceError>
    requires s.candidate < |cfg.candidates| && (outcome.Responded? ==> outcome.response.AI?)
  {
    match outcome
    case Unfit => Ending(s, PromptTooLong)
    case Interrupted(cause) => Ending(s, InterruptionReason(cause))
    case Failed(_, _, _, _, _) => AfterFailure(cfg, s, outcome)
    case Responded(response, truncated) =>
      if truncated && response.calls == [] then AfterTruncation(cfg, s, response) else AfterAnswer(cfg, s, response)
  }

  /** A cancelled model call persists its terminal state and then leaves the loop. */
  function StepCallModel(cfg: Config, w: World, outcome: ModelOutcome): World {
    if !AtTop(w, CallingModel) || (outcome.Responded? && !outcome.response.AI?) then w
    else
      var s := w.proc.state;
      if s.candidate >= |cfg.candidates| then Raise(w, NoCandidate)
      else if !ValidTranscript(s.messages, true) then Raise(w, BadTranscript)
      else Adopt(w, AfterModel(cfg, s, outcome), if outcome == Interrupted(CancelledCall) then Done else Top)
  }

  // ---------------------------------------------------------- stop governance

  function AfterGovernance(s: QueryLoopState, action: StopAction, stopMessages: seq<Message>)
    : Result<QueryLoopState, AdvanceError>
  {
    var messages := s.messages + stopMessages;
    if action == ContinueLoop then
      var event := PendingQueryEvent(EventId(s.stateKey, s.revision + 1, TransitionEvent), s.turn, stopMessages, [], None, []);
      Advance(s, Preparing, StopHookBlocking,
              s.(messages := messages, stopHookActive := true, pendingEvent := Some(event)))
    else
      var reason := if action == HaltLoop then HookStopped else Completed;
      var event := PendingQueryEvent(EventId(s.stateKey, s.revision + 1, CompletedEvent), s.turn, messages, [], None, []);
      Advance(s, Terminal, Reason.Ended(reason),
              Concluded(QuietQuality(s).(pendingEvent := Some(event)), messages, reason, NoDetail))
  }

  function StepGovernStop(w: World, action: StopAction, stopMessages: seq<Message>): World {
    if !AtTop(w, StopGovernance) then w
    else if action != ContinueLoop && !ValidTranscript(w.proc.state.messages + stopMessages, false) then
      Raise(w, BadTranscript)
    else Adopt(w, AfterGovernance(w.proc.state, action, stopMessages), Top)
  }

  // ---------------------------------------------------------- executing tools

  predicate UnsafeCall(cfg: Config, call: ToolCall) {
    call.name in cfg.tools && !cfg.tools[call.name].readOnly && !cfg.tools[call.name].idempotent
  }

  function UnsafeUncommitted(cfg: Config, calls: seq<ToolCall>, committed: seq<string>): (r: seq<string>)
    ensures r == [] <==> forall c | c in calls && UnsafeCall(cfg, c) :: c.id in committed
  {
    if calls == [] then []
    else (if calls[0].id !in committed && UnsafeCall(cfg, calls[0]) then [calls[0].id] else [])
         + UnsafeUncommitted(cfg, calls[1..], committed)
  }

  /** The ids the committed results carry: the calls a resumed batch skips. */
  function SkippedIds(b: PendingToolBatch): set<string> {
    set m | m in b.committedResults && m.Tool? :: m.callId
  }

  /** The unsafe-replay halt passes no messages, so the open tail stays. */
  function AfterRefusal(s: QueryLoopState, unsafe: seq<string>): Result<QueryLoopState, AdvanceError> {
    Advance(s, Terminal, Reason.Ended(HookStopped), Concluded(QuietQuality(s), [], HookStopped, UnsafeReplay(unsafe)))
  }

  function StepEnterTools(cfg: Config, w: World): World {
    if !AtTop(w, ExecutingTools) then w
    else if w.proc.state.pendingBatch.None? then Raise(w, NoPendingBatch)
    else
      var s := w.proc.state;
      var b := s.pendingBatch.value;
      var unsafe := if w.proc.resumedBatch then UnsafeUncommitted(cfg, b.toolCalls, b.committedIds) else [];
      if unsafe != [] then
        Adopt(w, AfterRefusal(s, unsafe), Top)
      else w.(proc := w.proc.(pc := InTools, entry := SkippedIds(b), started := {}))
  }

  function Runnable(cfg: Config, b: PendingToolBatch): nat {
    if cfg.maxBatch.Some? then Min(cfg.maxBatch.value, |b.toolCalls|) else |b.toolCalls|
  }

  predicate RunningTools(w: World) {
    && w.proc.Up?
    && (w.proc.pc == InTools || w.proc.pc == Saving(InTools))
    && w.proc.state.pendingBatch.Some?
  }

  /** A tool may begin while another call's commit is being persisted. */
  function StepStartTool(cfg: Config, w: World, index: nat, admitted: bool): World {
    if !RunningTools(w) then w
    else
      var b := w.proc.state.pendingBatch.value;
      if index >= Runnable(cfg, b) then w
      else
        var call := b.toolCalls[index];
        if call.id in w.proc.entry || call.id in w.proc.started then w
        else
          w.(proc := w.proc.(started := w.proc.started + {call.id}),
             executed := if admitted then w.executed + [Execution(b.batchId, call)] else w.executed)
  }

  /** `on_committed` for an outcome whose message carries the call's own id. */
  function StepCommitTool(w: World, index: nat, content: string, ref: Option<string>): World {
    if !RunningTools(w) || w.proc.pc != InTools then w
    else
      var s := w.proc.state;
      var b := s.pendingBatch.value;
      if index >= |b.toolCalls| || b.toolCalls[index].id !in w.proc.started then w
      else
        var call := b.toolCalls[index];
        if call.id in b.committedIds then w
        else
          var committed := b.(committedIds := b.committedIds + [call.id],
                              committedResults := b.committedResults + [Tool(call.id, call.name, content)],
                              resultRefs := b.resultRefs + if ref.Some? then [ref.value] else []);
          Adopt(w, Advance(s, ExecutingTools, ToolResultCommitted, s.(pendingBatch := Some(committed))), InTools)
  }

  function ResultFor(results: seq<Message>, id: string): seq<Message> {
    if results == [] then []
    else if results[0].Tool? && results[0].callId == id then [results[0]]
    else ResultFor(results[1..], id)
  }

  /** The outcomes the default path returns: one per runnable call that has one, in call order. */
  function DefaultOutcomes(calls: seq<ToolCall>, results: seq<Message>): seq<Message> {
    if calls == [] then [] else ResultFor(results, calls[0].id) + DefaultOutcomes(calls[1..], results)
  }

  predicate MayFinish(cfg: Config, b: PendingToolBatch, r: BatchReport) {
    && (r.lost ==> r.cancelled || r.hookFailed)
    && (r.messages.Some? ==> !r.cancelled && !r.hookFailed)
    && (r.custom || r.lost || forall i | 0 <= i < Runnable(cfg, b) :: b.toolCalls[i].id in b.committedIds)
  }

  function BatchOutcomes(cfg: Config, b: PendingToolBatch, r: BatchReport): seq<Message> {
    if r.custom || r.lost then [] else DefaultOutcomes(b.toolCalls[..Runnable(cfg, b)], b.committedResults)
  }

  function Candidates(cfg: Config, b: PendingToolBatch, r: BatchReport): seq<Message> {
    if r.messages.Some? then r.messages.value else BatchOutcomes(cfg, b, r)
  }

  function MissingType(cfg: Config, b: PendingToolBatch, r: BatchReport): ToolErrorType {
    if r.cancelled then ToolErrorType.Cancelled
    else if r.hookFailed then RuntimeHookError
    else if cfg.maxBatch.Some? && |BatchOutcomes(cfg, b, r)| < |b.toolCalls| then TaskCapacityExceeded
    else RuntimeMissingResult
  }

  function Overflow(calls: seq<ToolCall>): seq<Diagnostic> {
    seq(|calls|, i requires 0 <= i < |calls| => Diagnostic(ToolBatchCapacityExceeded, Some(calls[i].id)))
  }

  function InitialDefects(cfg: Config, b: PendingToolBatch, r: BatchReport): seq<Diagnostic> {
    (if r.custom || r.lost then [] else Overflow(b.toolCalls[Runnable(cfg, b)..]))
    + (if r.cancelled then [Diagnostic(ToolBatchCancelled, None)]
       else if r.hookFailed then [Diagnostic(ToolBatchHookError, None)] else [])
  }

  function BatchQuality(s: QueryLoopState, r: BatchReport): QualityRecoveryState {
    var q := if r.quality.Some? && !r.cancelled && !r.hookFailed then r.quality.value else s.quality;
    if q.active && q.triggeringRevision.None? then q.(triggeringRevision := Some(s.revision)) else q
  }

  function BatchResults(cfg: Config, b: PendingToolBatch, r: BatchReport): seq<Message> {
    ClosedResults(b.toolCalls, Candidates(cfg, b, r), MissingType(cfg, b, r))
  }

  function BatchExtra(r: BatchReport): seq<Message> {
    if r.cancelled || r.hookFailed then [] else Additional(r.additional)
  }

  function AllDefects(cfg: Config, b: PendingToolBatch, r: BatchReport): seq<Diagnostic> {
    InitialDefects(cfg, b, r)
    + BatchDefects(b.toolCalls, Candidates(cfg, b, r), if r.cancelled || r.hookFailed then [] else r.additional)
  }

  predicate ProtocolFailed(cfg: Config, b: PendingToolBatch, r: BatchReport) {
    AllDefects(cfg, b, r) != [] && !r.cancelled
  }

  /** Without a hook result the loop asks to go on. */
  predicate GoesOn(cfg: Config, b: PendingToolBatch, r: BatchReport) {
    (r.requestedContinue || r.cancelled || r.hookFailed) && !ProtocolFailed(cfg, b, r) && !r.cancelled
  }

  function BatchEvent(cfg: Config, s: QueryLoopState, b: PendingToolBatch, r: BatchReport): PendingQueryEvent {
    PendingQueryEvent(EventId(s.stateKey, s.revision + 1, ToolResultEvent), s.turn,
                      BatchResults(cfg, b, r), BatchExtra(r), Some(GoesOn(cfg, b, r)), AllDefects(cfg, b, r))
  }

  function ClosedMessages(cfg: Config, s: QueryLoopState, b: PendingToolBatch, r: BatchReport): seq<Message> {
    s.messages + BatchResults(cfg, b, r) + BatchExtra(r)
  }

  function BatchReason(cfg: Config, b: PendingToolBatch, r: BatchReport): TerminalReason {
    if r.cancelled then TerminalReason.Cancelled
    else if ProtocolFailed(cfg, b, r) then ToolProtocolViolation else Completed
  }

  /** The batch is gone, its event is in the outbox, and the loop goes on or ends. */
  function BatchSettled(
      s: QueryLoopState, messages: seq<Message>, event: PendingQueryEvent, quality: QualityRecoveryState, goesOn: bool,
      reason: TerminalReason): Result<QueryLoopState, AdvanceError>
  {
    var updated := s.(pendingEvent := Some(event), quality := quality);
    if goesOn then Advance(s, Preparing, NextTurn, updated.(messages := messages, pendingBatch := None))
    else Advance(s, Terminal, Reason.Ended(reason), Concluded(updated, messages, reason, NoDetail))
  }

  function AfterBatch(cfg: Config, s: QueryLoopState, b: PendingToolBatch, r: BatchReport)
    : Result<QueryLoopState, AdvanceError>
  {
    BatchSettled(s, ClosedMessages(cfg, s, b, r), BatchEvent(cfg, s, b, r), BatchQuality(s, r), GoesOn(cfg, b, r),
                 BatchReason(cfg, b, r))
  }

  function StepFinishBatch(cfg: Config, w: World, r: BatchReport): World {
    if !RunningTools(w) || w.proc.pc != InTools || !MayFinish(cfg, w.proc.state.pendingBatch.value, r) then w
    else
      var s := w.proc.state;
      var b := s.pendingBatch.value;
      if !ValidTranscript(ClosedMessages(cfg, s, b, r), false) then Raise(w, BadTranscript)
      else Adopt(w.(proc := w.proc.(resumedBatch := false)), AfterBatch(cfg, s, b, r), if r.cancelled then Done else Top)
  }

  // --------------------------------------------------------------- the machine

  /** The assumptions on hooks, the model, the fallback registry and compaction. */
  predicate Admissible(cfg: Config, w: World, l: Label) {
    match l
    case Boot(candidate) =>
      candidate < |cfg.candidates| && (w.durable.Some? ==> w.durable.value.candidate <= candidate)
    case BeforeTurn(hook) =>
      hook.Some? ==>
        if hook.value.replacement.Some? then CleanTranscript(hook.value.replacement.value)
        else AllPlain(hook.value.messages)
    case CallModel(outcome) =>
      match outcome {
        case Failed(_, _, recovered, sanitized, next) =>
          && CleanTranscript(recovered) && CleanTranscript(sanitized)
          && next < |cfg.candidates| && (w.proc.Up? ==> w.proc.state.candidate < next || w.proc.state.candidate + 1 >= |cfg.candidates|)
        case Responded(response, _) => response.AI? && response.marker == Ordinary
        case _ => true
      }
    case GovernStop(_, stopMessages) => AllPlain(stopMessages)
    case FinishBatch(report) => forall m | m in report.additional :: m.Tool? || m.Plain()
    case _ => true
  }

  function Step(cfg: Config, w: World, l: Label): World {
    if !Admissible(cfg, w, l) then w
    else match l
      case Boot(candidate) => StepBoot(cfg, w, candidate)
      case Crash => w.(proc := Down)
      case Persist => StepPersist(w)
      case Deliver => StepDeliver(w)
      case ClearOutbox => StepClearOutbox(w)
      case Complete => StepComplete(w)
      case ReachMaxTurns => StepReachMaxTurns(cfg, w)
      case BeforeTurn(hook) => StepBeforeTurn(cfg, w, hook)
      case StopByHook => StepStopByHook(w)
      case BeginTurn(delta) => StepBeginTurn(cfg, w, delta)
      case CallModel(outcome) => StepCallModel(cfg, w, outcome)
      case GovernStop(action, stopMessages) => StepGovernStop(w, action, stopMessages)
      case EnterTools => StepEnterTools(cfg, w)
      case StartTool(index, admitted) => StepStartTool(cfg, w, index, admitted)
      case CommitTool(index, content, ref) => StepCommitTool(w, index, content, ref)
      case FinishBatch(report) => StepFinishBatch(cfg, w, report)
  }

  function Run(cfg: Config, w: World, labels: seq<Label>): World {
    if labels == [] then w
    else Step(cfg, Run(cfg, w, labels[..|labels| - 1]), labels[|labels| - 1])
  }

  const FIRST_WORLD := World(None, Down, [], [], [])

  ghost predicate WellConfigured(cfg: Config) {
    && CleanTranscript(cfg.initialMessages)
    && cfg.candidates != []
    && cfg.contextLimit >= 1
    && (cfg.maxBatch.Some? ==> cfg.maxBatch.value > 0)
    && forall turn: nat :: SolidDigest(cfg.digest(turn))
  }
}
