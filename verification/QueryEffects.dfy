/** What each step of the loop does to its state: why it ends, what it changes, and what it leaves alone. */
module QueryEffects {
  import opened Wrappers
  import opened Transcript
  import opened ToolCallIds
  import opened ToolBatch
  import opened QueryState
  import opened QueryLoop
  import opened QueryGrammar

  // ---------------------------------------------------------------------- why a loop ends

  /** No other candidate may take over after this failure. */
  predicate NoFallback(cfg: Config, s: QueryLoopState, kind: ErrorKind) {
    kind == OtherError || kind == PromptTooLongError || cfg.customCallModel || s.candidate + 1 >= |cfg.candidates|
  }

  /** The output tokens the call asked for: the override of an escalation, unless that is zero, or the candidate's own number. */
  function Asked(cfg: Config, s: QueryLoopState): nat
    requires s.candidate < |cfg.candidates|
  {
    match s.output.maxOutputTokensOverride
    case Some(n) => if n == 0 then cfg.candidates[s.candidate].maxTokens else n
    case None => cfg.candidates[s.candidate].maxTokens
  }

  /** A turn may ask for more output once, if the candidate is known to give more than was asked for. */
  predicate MayEscalate(cfg: Config, s: QueryLoopState)
    requires s.candidate < |cfg.candidates|
  {
    && cfg.escalation && !s.output.escalationAttempted && Asked(cfg, s) >= 1
    && match cfg.candidates[s.candidate].outputCap
       case Some(cap) => cap > Asked(cfg, s)
       case None => false
  }

  /** Twice as much, or 4096 tokens more if that is more, within what the candidate gives. */
  function EscalatedTo(asked: nat, cap: nat): nat {
    var more := if asked >= 4096 then 2 * asked else asked + 4096;
    if more <= cap then more else cap
  }

  lemma EscalationIs(cfg: Config, s: QueryLoopState)
    requires s.candidate < |cfg.candidates|
    ensures CanEscalate(cfg, s) <==> MayEscalate(cfg, s)
    ensures MayEscalate(cfg, s) ==>
              Escalated(cfg, s) == s.(output := s.output.(
                  escalationAttempted := true,
                  maxOutputTokensOverride := Some(EscalatedTo(Asked(cfg, s), cfg.candidates[s.candidate].outputCap.value))))
  {
  }

  /** A truncated answer without tool calls that can neither be escalated nor continued. */
  predicate OutputIsExhausted(cfg: Config, s: QueryLoopState, response: Message, truncated: bool)
    requires response.AI? && s.candidate < |cfg.candidates|
  {
    && truncated && response.calls == []
    && !MayEscalate(cfg, s)
    && s.output.continuationCount >= cfg.continuationLimit
  }

  /** A batch breaks the protocol unless it ran whole, its hook returned, and its results are one for each call. */
  ghost predicate BatchIsBroken(cfg: Config, b: PendingToolBatch, r: BatchReport) {
    || r.hookFailed
    || (!r.custom && !r.lost && cfg.maxBatch.Some? && |b.toolCalls| > cfg.maxBatch.value)
    || !Rearranged(b.toolCalls, Candidates(cfg, b, r))
    || exists m :: m in r.additional && m.Tool?
  }

  ghost predicate Rearranged(calls: seq<ToolCall>, results: seq<Message>) {
    && (forall m | m in results :: m.Tool?)
    && multiset(ResultIds(results)) == multiset(Ids(calls))
  }

  /** A batch report that is due now. */
  predicate Finishes(cfg: Config, w: World, r: BatchReport) {
    RunningTools(w) && w.proc.pc == InTools && MayFinish(cfg, w.proc.state.pendingBatch.value, r)
  }

  /** The step ends the loop for this reason. */
  ghost predicate Ends(cfg: Config, w: World, l: Label, reason: TerminalReason)
    requires w.proc.Up? && w.proc.state.candidate < |cfg.candidates|
  {
    var s := w.proc.state;
    match l
    case ReachMaxTurns => AtTop(w, Preparing) && cfg.maxTurns.Some? && s.turn >= cfg.maxTurns.value && reason == MaxTurns
    case StopByHook => w.proc.pc.HookStop? && reason == if w.proc.pc.cancelled then TerminalReason.Cancelled else HookStopped
    case GovernStop(action, _) =>
      && AtTop(w, StopGovernance)
      && ((action == CompleteLoop && reason == Completed) || (action == HaltLoop && reason == HookStopped))
    case EnterTools =>
      && AtTop(w, ExecutingTools) && w.proc.resumedBatch && s.pendingBatch.Some? && reason == HookStopped
      && exists c :: c in s.pendingBatch.value.toolCalls && c.id !in s.pendingBatch.value.committedIds
           && c.name in cfg.tools && !cfg.tools[c.name].readOnly && !cfg.tools[c.name].idempotent
    case FinishBatch(r) =>
      && Finishes(cfg, w, r)
      && reason == (if r.cancelled then TerminalReason.Cancelled
                    else if BatchIsBroken(cfg, s.pendingBatch.value, r) then ToolProtocolViolation else Completed)
      && (r.cancelled || BatchIsBroken(cfg, s.pendingBatch.value, r) || !r.requestedContinue)
    case CallModel(outcome) => AtTop(w, CallingModel) && OutcomeEnds(cfg, s, outcome, reason)
    case _ => false
  }

  predicate OutcomeEnds(cfg: Config, s: QueryLoopState, outcome: ModelOutcome, reason: TerminalReason)
    requires s.candidate < |cfg.candidates|
  {
    match outcome
    case Unfit => reason == PromptTooLong
    case Interrupted(cause) =>
      || (cause == CancelledCall && reason == TerminalReason.Cancelled)
      || (cause == DeadlineHit && reason == DeadlineExceeded)
      || (cause == BudgetHit && reason == BudgetExhausted)
    case Failed(kind, timeout, _, _, _) =>
      if kind == PromptTooLongError then s.context.attempts >= cfg.contextLimit && reason == PromptTooLong
      else NoFallback(cfg, s, kind) && reason == if timeout then ModelTimeout else ModelError
    case Responded(response, truncated) =>
      response.AI? && OutputIsExhausted(cfg, s, response, truncated) && reason == OutputRecoveryExhausted
  }

  predicate EndedWith(w: World, reason: TerminalReason) {
    w.proc.Up? && w.proc.state.phase == Terminal && w.proc.state.terminal.Some? && w.proc.state.terminal.value.reason == reason
  }

  lemma TruncationEnds(cfg: Config, s: QueryLoopState, response: Message, reason: TerminalReason)
    requires s.candidate < |cfg.candidates| && s.phase == CallingModel && s.terminal.None?
    requires response.AI? && response.calls == []
    ensures var t := AfterTruncation(cfg, s, response);
      && t.Ok?
      && (t.value.phase == Terminal && t.value.terminal.value.reason == reason <==>
          OutputIsExhausted(cfg, s, response, true) && reason == OutputRecoveryExhausted)
  {
    EscalationIs(cfg, s);
  }

  lemma FailureEnds(cfg: Config, s: QueryLoopState, o: ModelOutcome, reason: TerminalReason)
    requires s.candidate < |cfg.candidates| && s.phase == CallingModel && s.terminal.None? && o.Failed?
    ensures var t := AfterFailure(cfg, s, o);
      && t.Ok?
      && (t.value.phase == Terminal && t.value.terminal.value.reason == reason <==> OutcomeEnds(cfg, s, o, reason))
  {
  }

  lemma ModelEnds(cfg: Config, s: QueryLoopState, outcome: ModelOutcome, reason: TerminalReason)
    requires s.candidate < |cfg.candidates| && s.phase == CallingModel && s.terminal.None?
    requires outcome.Responded? ==> outcome.response.AI?
    ensures var t := AfterModel(cfg, s, outcome);
      && t.Ok?
      && (t.value.phase == Terminal && t.value.terminal.value.reason == reason <==> OutcomeEnds(cfg, s, outcome, reason))
  {
    if outcome.Failed? {
      FailureEnds(cfg, s, outcome, reason);
    } else if outcome.Responded? && !IsAnswer(outcome) {
      TruncationEnds(cfg, s, outcome.response, reason);
    }
  }

  lemma RefusalEnds(cfg: Config, calls: seq<ToolCall>, committed: seq<string>)
    ensures UnsafeUncommitted(cfg, calls, committed) != [] <==>
            exists c :: c in calls && c.id !in committed
              && c.name in cfg.tools && !cfg.tools[c.name].readOnly && !cfg.tools[c.name].idempotent
  {
  }

  lemma BrokenIffDefects(cfg: Config, b: PendingToolBatch, r: BatchReport)
    requires GoodIds(b.toolCalls) && !r.cancelled
    ensures AllDefects(cfg, b, r) != [] <==> BatchIsBroken(cfg, b, r)
  {
    if !r.hookFailed {
      BatchValidIffRearrangement(b.toolCalls, Candidates(cfg, b, r), r.additional);
    }
  }

  lemma SettledEnds(
      s: QueryLoopState, messages: seq<Message>, event: PendingQueryEvent, quality: QualityRecoveryState, goesOn: bool,
      reason: TerminalReason)
    requires s.phase == ExecutingTools && s.terminal.None?
    ensures var t := BatchSettled(s, messages, event, quality, goesOn, reason);
      && t.Ok?
      && (t.value.phase == Terminal <==> !goesOn)
      && (!goesOn ==> t.value.terminal.value.reason == reason)
  {
  }

  lemma BatchEnds(cfg: Config, s: QueryLoopState, b: PendingToolBatch, r: BatchReport, reason: TerminalReason)
    requires s.phase == ExecutingTools && s.terminal.None? && GoodIds(b.toolCalls)
    ensures var t := AfterBatch(cfg, s, b, r);
      && t.Ok?
      && (t.value.phase == Terminal && t.value.terminal.value.reason == reason <==>
          && reason == (if r.cancelled then TerminalReason.Cancelled
                        else if BatchIsBroken(cfg, b, r) then ToolProtocolViolation else Completed)
          && (r.cancelled || BatchIsBroken(cfg, b, r) || !r.requestedContinue))
  {
    SettledEnds(s, ClosedMessages(cfg, s, b, r), BatchEvent(cfg, s, b, r), BatchQuality(s, r), GoesOn(cfg, b, r),
                BatchReason(cfg, b, r));
    if !r.cancelled {
      BrokenIffDefects(cfg, b, r);
    }
    BatchReasonIs(cfg, b, r, BatchIsBroken(cfg, b, r));
  }

  lemma BatchReasonIs(cfg: Config, b: PendingToolBatch, r: BatchReport, broken: bool)
    requires r.cancelled || (AllDefects(cfg, b, r) != [] <==> broken)
    requires r.hookFailed ==> broken
    ensures BatchReason(cfg, b, r)
         == if r.cancelled then TerminalReason.Cancelled else if broken then ToolProtocolViolation else Completed
    ensures GoesOn(cfg, b, r) <==> !r.cancelled && !broken && r.requestedContinue
  {
  }

  lemma FinishEnds(cfg: Config, w: World, r: BatchReport, reason: TerminalReason)
    requires Sound(cfg, w) && Admissible(cfg, w, FinishBatch(r)) && w.proc.Up? && w.proc.state.phase != Terminal
    ensures EndedWith(StepFinishBatch(cfg, w, r), reason) <==> Ends(cfg, w, FinishBatch(r), reason)
  {
    if Finishes(cfg, w, r) {
      var s := w.proc.state;
      ClosingKeepsClean(cfg, s, r);
      assert s.messages[|s.messages| - 1].calls == s.pendingBatch.value.toolCalls;
      BatchEnds(cfg, s, s.pendingBatch.value, r, reason);
    }
  }

  lemma ModelStepEnds(cfg: Config, w: World, outcome: ModelOutcome, reason: TerminalReason)
    requires Sound(cfg, w) && w.proc.Up? && w.proc.state.phase != Terminal
    ensures EndedWith(StepCallModel(cfg, w, outcome), reason) <==> Ends(cfg, w, CallModel(outcome), reason)
  {
    if AtTop(w, CallingModel) && (outcome.Responded? ==> outcome.response.AI?) {
      ModelEnds(cfg, w.proc.state, outcome, reason);
    }
  }

  lemma HooksEnd(cfg: Config, w: World, hook: Option<HookResult>, reason: TerminalReason)
    requires Sound(cfg, w) && w.proc.Up? && w.proc.state.phase != Terminal
    ensures !EndedWith(StepBeforeTurn(cfg, w, hook), reason)
    ensures EndedWith(StepStopByHook(w), reason) <==> Ends(cfg, w, StopByHook, reason)
  {
  }

  lemma TurnsEnd(cfg: Config, w: World, delta: nat, reason: TerminalReason)
    requires Sound(cfg, w) && w.proc.Up? && w.proc.state.phase != Terminal
    ensures EndedWith(StepReachMaxTurns(cfg, w), reason) <==> Ends(cfg, w, ReachMaxTurns, reason)
    ensures !EndedWith(StepBeginTurn(cfg, w, delta), reason)
  {
  }

  lemma GovernanceConcludes(s: QueryLoopState, action: StopAction, stopMessages: seq<Message>)
    requires s.phase == StopGovernance && s.terminal.None?
    ensures var t := AfterGovernance(s, action, stopMessages);
      && t.Ok?
      && (t.value.phase == Terminal <==> action != ContinueLoop)
      && (t.value.phase == Terminal ==>
            t.value.terminal.value.reason == if action == HaltLoop then HookStopped else Completed)
  {
  }

  lemma AdoptedEnds(w: World, advanced: Result<QueryLoopState, AdvanceError>, next: Pc, reason: TerminalReason)
    requires w.proc.Up? && advanced.Ok?
    ensures EndedWith(Adopt(w, advanced, next), reason) <==>
            && advanced.value.phase == Terminal && advanced.value.terminal.Some?
            && advanced.value.terminal.value.reason == reason
  {
  }

  lemma GovernanceIsAdopted(w: World, action: StopAction, stopMessages: seq<Message>)
    requires AtTop(w, StopGovernance) && Closed(w.proc.state.messages) && AllPlain(stopMessages)
    ensures StepGovernStop(w, action, stopMessages)
         == Adopt(w, AfterGovernance(w.proc.state, action, stopMessages), Top)
  {
    ClosedPlusPlain(w.proc.state.messages, stopMessages);
  }

  lemma GovernanceEnds(cfg: Config, w: World, action: StopAction, stopMessages: seq<Message>, reason: TerminalReason)
    requires AllPlain(stopMessages) && w.proc.Up? && w.proc.state.phase != Terminal && w.proc.state.terminal.None?
    requires w.proc.state.candidate < |cfg.candidates|
    requires w.proc.state.phase == StopGovernance ==> Closed(w.proc.state.messages)
    ensures EndedWith(StepGovernStop(w, action, stopMessages), reason)
       <==> Ends(cfg, w, GovernStop(action, stopMessages), reason)
  {
    if AtTop(w, StopGovernance) {
      GovernanceIsAdopted(w, action, stopMessages);
      GovernanceConcludes(w.proc.state, action, stopMessages);
      AdoptedEnds(w, AfterGovernance(w.proc.state, action, stopMessages), Top, reason);
    } else {
      assert StepGovernStop(w, action, stopMessages) == w;
    }
  }

  lemma EnteringEnds(cfg: Config, w: World, reason: TerminalReason)
    requires w.proc.Up? && w.proc.state.phase != Terminal && w.proc.state.terminal.None?
    requires w.proc.state.candidate < |cfg.candidates|
    requires w.proc.state.phase == ExecutingTools ==> w.proc.state.pendingBatch.Some?
    ensures EndedWith(StepEnterTools(cfg, w), reason) <==> Ends(cfg, w, EnterTools, reason)
  {
    var s := w.proc.state;
    if s.pendingBatch.Some? {
      RefusalEnds(cfg, s.pendingBatch.value.toolCalls, s.pendingBatch.value.committedIds);
    }
  }

  lemma ToolsDoNotEnd(cfg: Config, w: World, index: nat, admitted: bool, content: string, ref: Option<string>, reason: TerminalReason)
    requires w.proc.Up? && w.proc.state.phase != Terminal
    ensures !EndedWith(StepStartTool(cfg, w, index, admitted), reason)
    ensures !EndedWith(StepCommitTool(w, index, content, ref), reason)
  {
  }

  lemma DeliveryDoesNotEnd(w: World, reason: TerminalReason)
    requires w.proc.Up? && w.proc.state.phase != Terminal
    ensures !EndedWith(StepPersist(w), reason) && !EndedWith(StepDeliver(w), reason)
    ensures !EndedWith(StepClearOutbox(w), reason) && !EndedWith(StepComplete(w), reason)
  {
  }

  /** A step ends the loop, and with the outcome given, exactly when one of the causes written out above holds. */
  lemma EndsIffCaused(cfg: Config, w: World, l: Label, reason: TerminalReason)
    requires Sound(cfg, w) && Admissible(cfg, w, l) && w.proc.Up? && w.proc.state.phase != Terminal
    ensures EndedWith(Step(cfg, w, l), reason) <==> Ends(cfg, w, l, reason)
  {
    match l {
      case Boot(_) =>
      case Crash =>
      case Persist => DeliveryDoesNotEnd(w, reason);
      case Deliver => DeliveryDoesNotEnd(w, reason);
      case ClearOutbox => DeliveryDoesNotEnd(w, reason);
      case Complete => DeliveryDoesNotEnd(w, reason);
      case ReachMaxTurns => TurnsEnd(cfg, w, 0, reason);
      case BeforeTurn(hook) => HooksEnd(cfg, w, hook, reason);
      case StopByHook => HooksEnd(cfg, w, None, reason);
      case BeginTurn(delta) => TurnsEnd(cfg, w, delta, reason);
      case CallModel(outcome) => ModelStepEnds(cfg, w, outcome, reason);
      case GovernStop(action, stopMessages) => GovernanceEnds(cfg, w, action, stopMessages, reason);
      case EnterTools => EnteringEnds(cfg, w, reason);
      case StartTool(index, admitted) => ToolsDoNotEnd(cfg, w, index, admitted, "", None, reason);
      case CommitTool(index, content, ref) => ToolsDoNotEnd(cfg, w, index, false, content, ref, reason);
      case FinishBatch(r) => FinishEnds(cfg, w, r, reason);
    }
  }

  // ------------------------------------------------------------ what each step does to each field

  /** A model reply that becomes the answer of the turn: whole, or cut off but calling tools. */
  predicate IsAnswer(outcome: ModelOutcome) {
    outcome.Responded? && outcome.response.AI? && (!outcome.truncated || outcome.response.calls != [])
  }

  predicate Retries(cfg: Config, s: QueryLoopState, outcome: ModelOutcome) {
    outcome.Failed? && outcome.kind == PromptTooLongError && s.context.attempts < cfg.contextLimit
  }

  predicate TakesOver(cfg: Config, s: QueryLoopState, outcome: ModelOutcome) {
    outcome.Failed? && !NoFallback(cfg, s, outcome.kind)
  }

  /** The second of the retries compacts, once. */
  predicate Compacts(s: QueryLoopState) {
    s.context.attempts >= 1 && !s.context.reactiveCompactAttempted
  }

  predicate Escalates(cfg: Config, s: QueryLoopState, outcome: ModelOutcome)
    requires s.candidate < |cfg.candidates|
  {
    outcome.Responded? && !IsAnswer(outcome) && MayEscalate(cfg, s)
  }

  predicate Continues(cfg: Config, s: QueryLoopState, outcome: ModelOutcome)
    requires s.candidate < |cfg.candidates|
  {
    outcome.Responded? && !IsAnswer(outcome) && !MayEscalate(cfg, s) && s.output.continuationCount < cfg.continuationLimit
  }

  /** Who advances the turn, who asks for another round, who moves to another candidate, who touches the quality state. */
  predicate CountersMove(cfg: Config, s: QueryLoopState, l: Label, t: QueryLoopState) {
    && t.stateKey == s.stateKey
    && t.revision == s.revision + 1
    && t.turn == s.turn + (if l.BeginTurn? then l.delta else 0)
    && t.stopHookActive == (if l.BeginTurn? then false else s.stopHookActive || (l.GovernStop? && l.action == ContinueLoop))
    && t.candidate == (if l.CallModel? && TakesOver(cfg, s, l.outcome) then l.outcome.nextCandidate else s.candidate)
    && (if l.FinishBatch? then QualityMoves(s, l.report, t) else t.quality == if t.phase == Terminal && s.phase != Terminal then s.quality.(active := false) else s.quality)
  }

  /** A batch may report a quality state of its own; an active one notes the revision that triggered it. */
  predicate QualityMoves(s: QueryLoopState, r: BatchReport, t: QueryLoopState) {
    var q := if r.quality.Some? && !r.cancelled && !r.hookFailed then r.quality.value else s.quality;
    && t.quality.(triggeringRevision := None) == q.(triggeringRevision := None)
    && t.quality.triggeringRevision == if q.active && q.triggeringRevision.None? then Some(s.revision) else q.triggeringRevision
  }

  /** Only the end of governance and of a batch put something into the outbox; only a delivery takes it out. */
  predicate OutboxMoves(s: QueryLoopState, l: Label, t: QueryLoopState) {
    match l
    case ClearOutbox => t.pendingEvent == None
    case GovernStop(action, stopMessages) =>
      && t.pendingEvent.Some? && t.pendingEvent.value.turn == s.turn
      && t.pendingEvent.value.eventId.eventType == (if action == ContinueLoop then TransitionEvent else CompletedEvent)
      && t.pendingEvent.value.messages == if action == ContinueLoop then stopMessages else s.messages + stopMessages
    case FinishBatch(r) =>
      && t.pendingEvent.Some? && t.pendingEvent.value.turn == s.turn
      && t.pendingEvent.value.eventId.eventType == ToolResultEvent
      && t.pendingEvent.value.shouldContinue == Some(t.phase == Preparing)
      && s.messages + t.pendingEvent.value.messages + t.pendingEvent.value.additional == t.messages
    case _ => t.pendingEvent == s.pendingEvent
  }

  /** The transcript only grows, but for a hook's replacement, a compaction, a fallback, and the recovery messages an answer drops. */
  predicate TranscriptMoves(cfg: Config, s: QueryLoopState, l: Label, t: QueryLoopState)
    requires s.candidate < |cfg.candidates|
  {
    match l
    case BeforeTurn(hook) =>
      hook.Some? && t.messages == if hook.value.replacement.Some? then hook.value.replacement.value
                                  else s.messages + hook.value.messages
    case GovernStop(_, stopMessages) => t.messages == s.messages + stopMessages
    case FinishBatch(_) => s.messages <= t.messages
    case CallModel(outcome) =>
      if IsAnswer(outcome) then
        var kept := Unmarked(s.messages);
        && |t.messages| == |kept| + 1 && kept <= t.messages
        && var answer := t.messages[|kept|];
          && answer.AI? && answer.content == Joined(s.output.pendingFragments + [outcome.response.content])
          && |answer.calls| == |outcome.response.calls|
          && forall i | 0 <= i < |answer.calls| ::
               answer.calls[i].name == outcome.response.calls[i].name && answer.calls[i].args == outcome.response.calls[i].args
      else if Continues(cfg, s, outcome) then
        t.messages == s.messages + [AI(outcome.response.content, [], OutputFragment), CONTINUATION_REQUEST]
      else if Retries(cfg, s, outcome) && Compacts(s) then t.messages == outcome.recovered
      else if TakesOver(cfg, s, outcome) then t.messages == outcome.sanitized
      else t.messages == s.messages
    case _ => t.messages == s.messages
  }

  /** The two recoveries: what a retry, an escalation and a continuation note, and who forgets it. */
  predicate RecoveryMoves(cfg: Config, s: QueryLoopState, l: Label, t: QueryLoopState)
    requires s.candidate < |cfg.candidates|
  {
    if !l.CallModel? then t.context == s.context && t.output == s.output
    else if IsAnswer(l.outcome) then
      t.context == ContextRecoveryState(0, false, 0, 1.0) && t.output == OutputRecoveryState(0, false, None, [])
    else if Retries(cfg, s, l.outcome) then
      && t.output == s.output
      && t.context.attempts == s.context.attempts + 1
      && (t.context.reactiveCompactAttempted <==> s.context.reactiveCompactAttempted || Compacts(s))
      && t.context.compactionGeneration == s.context.compactionGeneration + (if Compacts(s) then 1 else 0)
      && t.context.targetRatio == if s.context.targetRatio * 0.8 < 0.05 then 0.05 else s.context.targetRatio * 0.8
    else if TakesOver(cfg, s, l.outcome) then
      t.context == s.context && t.output == OutputRecoveryState(0, false, None, [])
    else if Escalates(cfg, s, l.outcome) then
      && t.context == s.context
      && t.output.escalationAttempted
      && t.output.continuationCount == s.output.continuationCount && t.output.pendingFragments == s.output.pendingFragments
      && t.output.maxOutputTokensOverride
         == Some(EscalatedTo(Asked(cfg, s), cfg.candidates[s.candidate].outputCap.value))
    else if Continues(cfg, s, l.outcome) then
      && t.context == s.context
      && t.output.escalationAttempted == s.output.escalationAttempted
      && t.output.maxOutputTokensOverride == s.output.maxOutputTokensOverride
      && t.output.continuationCount == s.output.continuationCount + 1
      && t.output.pendingFragments == s.output.pendingFragments + [l.outcome.response.content]
    else t.context == s.context && t.output == s.output
  }

  /** A batch is what an answer called for, gets one result at a time, and goes when it is closed or the loop ends. */
  predicate BatchMoves(s: QueryLoopState, l: Label, t: QueryLoopState) {
    match l
    case CallModel(outcome) =>
      if IsAnswer(outcome) && outcome.response.calls != [] then
        && t.messages != [] && t.messages[|t.messages| - 1].AI?
        && t.pendingBatch == Some(PendingToolBatch(BatchId(s.stateKey, s.turn, t.revision), t.messages[|t.messages| - 1].calls, [], [], []))
      else t.pendingBatch == if t.phase == Terminal then None else s.pendingBatch
    case CommitTool(index, content, ref) =>
      && s.pendingBatch.Some? && t.pendingBatch.Some? && index < |s.pendingBatch.value.toolCalls|
      && var call, b, c := s.pendingBatch.value.toolCalls[index], s.pendingBatch.value, t.pendingBatch.value;
        && c.batchId == b.batchId && c.toolCalls == b.toolCalls
        && c.committedIds == b.committedIds + [call.id]
        && c.committedResults == b.committedResults + [Tool(call.id, call.name, content)]
        && c.resultRefs == b.resultRefs + if ref.Some? then [ref.value] else []
    case FinishBatch(_) => t.pendingBatch == None
    case _ => t.pendingBatch == if t.phase == Terminal && s.phase != Terminal then None else s.pendingBatch
  }

  /** Where the loop goes, unless it ends, and the reason it notes. */
  predicate PhaseMoves(cfg: Config, s: QueryLoopState, l: Label, t: QueryLoopState)
    requires s.candidate < |cfg.candidates|
  {
    && (t.phase == Terminal && s.phase != Terminal ==> t.terminal.Some? && t.reason == Reason.Ended(t.terminal.value.reason))
    && (t.phase != Terminal || s.phase == Terminal ==>
          match l
          case ClearOutbox => t.phase == s.phase && t.reason == DomainEventDelivered && t.terminal == s.terminal
          case BeforeTurn(_) => t.phase == Preparing && t.reason == HookUpdate
          case BeginTurn(_) => t.phase == CallingModel && t.reason == NextTurn
          case GovernStop(_, _) => t.phase == Preparing && t.reason == StopHookBlocking
          case CommitTool(_, _, _) => t.phase == ExecutingTools && t.reason == ToolResultCommitted
          case FinishBatch(_) => t.phase == Preparing && t.reason == NextTurn
          case CallModel(outcome) =>
            if IsAnswer(outcome) then
              if outcome.response.calls != [] then t.phase == ExecutingTools && t.reason == NextTurn
              else t.phase == StopGovernance && t.reason == ModelResponse
            else
              && t.phase == CallingModel
              && t.reason == (if Retries(cfg, s, outcome) then (if Compacts(s) then ReactiveCompactRetry else ContextReprojectRetry)
                              else if TakesOver(cfg, s, outcome) then ModelFallback
                              else if Escalates(cfg, s, outcome) then OutputTokenEscalate
                              else Reason.OutputContinuation)
          case _ => false)
  }

  /** Everything a step may do to the state of the loop. */
  predicate Accounted(cfg: Config, s: QueryLoopState, l: Label, t: QueryLoopState)
    requires s.candidate < |cfg.candidates|
  {
    && CountersMove(cfg, s, l, t) && OutboxMoves(s, l, t) && TranscriptMoves(cfg, s, l, t)
    && RecoveryMoves(cfg, s, l, t) && BatchMoves(s, l, t) && PhaseMoves(cfg, s, l, t)
  }

  // the outcomes of a model call

  predicate Calling(cfg: Config, s: QueryLoopState) {
    s.phase == CallingModel && s.terminal.None? && s.pendingBatch.None? && s.pendingEvent.None? && s.candidate < |cfg.candidates|
  }

  lemma EndingAccounted(cfg: Config, s: QueryLoopState, l: Label, reason: TerminalReason)
    requires s.phase == Preparing || s.phase == CallingModel
    requires s.terminal.None? && s.candidate < |cfg.candidates|
    requires l.ReachMaxTurns? || l.StopByHook?
         || (l.CallModel? && (l.outcome.Unfit? || l.outcome.Interrupted?))
         || (l.CallModel? && l.outcome.Failed? && !Retries(cfg, s, l.outcome) && !TakesOver(cfg, s, l.outcome))
         || (l.CallModel? && l.outcome.Responded? && !IsAnswer(l.outcome)
             && !Escalates(cfg, s, l.outcome) && !Continues(cfg, s, l.outcome))
    ensures Ending(s, reason).Ok? && Accounted(cfg, s, l, Ending(s, reason).value)
  {
  }

  lemma FailureAccounted(cfg: Config, s: QueryLoopState, o: ModelOutcome)
    requires Calling(cfg, s) && o.Failed?
    ensures AfterFailure(cfg, s, o).Ok? && Accounted(cfg, s, CallModel(o), AfterFailure(cfg, s, o).value)
  {
    if !Retries(cfg, s, o) && !TakesOver(cfg, s, o) {
      EndingAccounted(cfg, s, CallModel(o), if o.kind == PromptTooLongError then PromptTooLong
                                             else if o.timeout then ModelTimeout else ModelError);
    }
  }

  lemma TruncationAccounted(cfg: Config, s: QueryLoopState, o: ModelOutcome)
    requires Calling(cfg, s) && o.Responded? && o.response.AI? && !IsAnswer(o)
    ensures AfterTruncation(cfg, s, o.response).Ok?
    ensures Accounted(cfg, s, CallModel(o), AfterTruncation(cfg, s, o.response).value)
  {
    EscalationIs(cfg, s);
    if !Escalates(cfg, s, o) && !Continues(cfg, s, o) {
      EndingAccounted(cfg, s, CallModel(o), OutputRecoveryExhausted);
    }
  }

  lemma AnswerHolds(cfg: Config, s: QueryLoopState, response: Message)
    requires response.AI?
    ensures var answer := Answered(cfg, s, response);
      && answer.AI? && answer.content == Joined(s.output.pendingFragments + [response.content])
      && |answer.calls| == |response.calls|
      && forall i | 0 <= i < |answer.calls| ::
           answer.calls[i].name == response.calls[i].name && answer.calls[i].args == response.calls[i].args
  {
    var whole := Consolidated(s, response);
    OnlyIdsChange(whole.calls, |whole.calls|, cfg.digest(s.turn));
  }

  lemma AnswerAccounted(cfg: Config, s: QueryLoopState, o: ModelOutcome)
    requires Calling(cfg, s) && IsAnswer(o)
    ensures AfterAnswer(cfg, s, o.response).Ok? && Accounted(cfg, s, CallModel(o), AfterAnswer(cfg, s, o.response).value)
  {
    AnswerHolds(cfg, s, o.response);
    var kept, t := Unmarked(s.messages), AfterAnswer(cfg, s, o.response).value;
    assert t.messages == kept + [Answered(cfg, s, o.response)];
  }

  // the other steps

  lemma ModelAccounted(cfg: Config, w: World, outcome: ModelOutcome)
    requires Sound(cfg, w) && w.proc.Up? && StepCallModel(cfg, w, outcome).proc.Up?
    ensures var s, t := w.proc.state, StepCallModel(cfg, w, outcome).proc.state;
      t == s || Accounted(cfg, s, CallModel(outcome), t)
  {
    var s := w.proc.state;
    if AtTop(w, CallingModel) && (outcome.Responded? ==> outcome.response.AI?) {
      assert Calling(cfg, s);
      match outcome
      case Unfit => EndingAccounted(cfg, s, CallModel(outcome), PromptTooLong);
      case Interrupted(cause) => EndingAccounted(cfg, s, CallModel(outcome), InterruptionReason(cause));
      case Failed(_, _, _, _, _) => FailureAccounted(cfg, s, outcome);
      case Responded(_, _) =>
        if IsAnswer(outcome) { AnswerAccounted(cfg, s, outcome); } else { TruncationAccounted(cfg, s, outcome); }
    }
  }

  predicate Running(cfg: Config, w: World) {
    && w.proc.Up? && w.proc.state.candidate < |cfg.candidates|
    && (w.proc.state.terminal.Some? <==> w.proc.state.phase == Terminal)
    && (w.proc.state.phase == ExecutingTools <==> w.proc.state.pendingBatch.Some?)
    && PcInv(w.proc.state, w.proc.pc)
  }

  lemma GovernanceAccounted(cfg: Config, w: World, action: StopAction, stopMessages: seq<Message>)
    requires Running(cfg, w) && StepGovernStop(w, action, stopMessages).proc.Up?
    ensures var s, t := w.proc.state, StepGovernStop(w, action, stopMessages).proc.state;
      t == s || Accounted(cfg, s, GovernStop(action, stopMessages), t)
  {
  }

  lemma HooksAccounted(cfg: Config, w: World, hook: Option<HookResult>)
    requires Running(cfg, w) && StepBeforeTurn(cfg, w, hook).proc.Up?
    ensures var s, t := w.proc.state, StepBeforeTurn(cfg, w, hook).proc.state;
      t == s || Accounted(cfg, s, BeforeTurn(hook), t)
  {
  }

  lemma HookStopAccounted(cfg: Config, w: World)
    requires Running(cfg, w) && StepStopByHook(w).proc.Up?
    ensures var s, t := w.proc.state, StepStopByHook(w).proc.state; t == s || Accounted(cfg, s, StopByHook, t)
  {
    if w.proc.pc.HookStop? {
      EndingAccounted(cfg, w.proc.state, StopByHook, if w.proc.pc.cancelled then TerminalReason.Cancelled else HookStopped);
    }
  }

  lemma BeginTurnAccounted(cfg: Config, w: World, delta: nat)
    requires Running(cfg, w) && StepBeginTurn(cfg, w, delta).proc.Up?
    ensures var s, t := w.proc.state, StepBeginTurn(cfg, w, delta).proc.state;
      t == s || Accounted(cfg, s, BeginTurn(delta), t)
  {
  }

  lemma MaxTurnsAccounted(cfg: Config, w: World)
    requires Running(cfg, w) && StepReachMaxTurns(cfg, w).proc.Up?
    ensures var s, t := w.proc.state, StepReachMaxTurns(cfg, w).proc.state;
      t == s || Accounted(cfg, s, ReachMaxTurns, t)
  {
    if AtTop(w, Preparing) {
      EndingAccounted(cfg, w.proc.state, ReachMaxTurns, MaxTurns);
    }
  }

  lemma EnteringAccounted(cfg: Config, w: World)
    requires Running(cfg, w) && StepEnterTools(cfg, w).proc.Up?
    ensures var s, t := w.proc.state, StepEnterTools(cfg, w).proc.state; t == s || Accounted(cfg, s, EnterTools, t)
  {
  }

  lemma ToolsAccounted(cfg: Config, w: World, index: nat, admitted: bool, content: string, ref: Option<string>)
    requires Running(cfg, w)
    ensures StepStartTool(cfg, w, index, admitted).proc.Up? && StepStartTool(cfg, w, index, admitted).proc.state == w.proc.state
    ensures var s, after := w.proc.state, StepCommitTool(w, index, content, ref);
      after.proc.Up? && (after.proc.state == s || Accounted(cfg, s, CommitTool(index, content, ref), after.proc.state))
  {
  }

  lemma DeliveryAccounted(cfg: Config, w: World)
    requires Running(cfg, w)
    ensures StepPersist(w).proc.Up? && StepPersist(w).proc.state == w.proc.state
    ensures StepDeliver(w).proc.Up? && StepDeliver(w).proc.state == w.proc.state
    ensures StepComplete(w).proc.Up? && StepComplete(w).proc.state == w.proc.state
    ensures var s, after := w.proc.state, StepClearOutbox(w);
      after.proc.Up? ==> after.proc.state == s || Accounted(cfg, s, ClearOutbox, after.proc.state)
  {
  }

  lemma SettledAccounted(
      cfg: Config, s: QueryLoopState, r: BatchReport, results: seq<Message>, extra: seq<Message>, event: PendingQueryEvent,
      quality: QualityRecoveryState, goesOn: bool, reason: TerminalReason)
    requires s.phase == ExecutingTools && s.terminal.None? && s.candidate < |cfg.candidates|
    requires event.turn == s.turn && event.eventId.eventType == ToolResultEvent && event.shouldContinue == Some(goesOn)
    requires event.messages == results && event.additional == extra && s.messages != []
    requires QualityMoves(s, r, s.(quality := quality))
    ensures var t := BatchSettled(s, s.messages + results + extra, event, quality, goesOn, reason);
      t.Ok? && Accounted(cfg, s, FinishBatch(r), t.value)
  {
  }

  lemma FinishAccounted(cfg: Config, w: World, r: BatchReport)
    requires Sound(cfg, w) && Admissible(cfg, w, FinishBatch(r)) && w.proc.Up? && StepFinishBatch(cfg, w, r).proc.Up?
    ensures var s, t := w.proc.state, StepFinishBatch(cfg, w, r).proc.state;
      t == s || Accounted(cfg, s, FinishBatch(r), t)
  {
    FinishAdopts(cfg, w, r);
    if StepFinishBatch(cfg, w, r) != w {
      var s := w.proc.state;
      var b := s.pendingBatch.value;
      SettledAccounted(cfg, s, r, BatchResults(cfg, b, r), BatchExtra(r), BatchEvent(cfg, s, b, r), BatchQuality(s, r),
                       GoesOn(cfg, b, r), BatchReason(cfg, b, r));
    }
  }

  /** Whatever step is taken, it leaves the state of the loop alone or changes it as written out above, field by field. */
  lemma EveryStepIsAccounted(cfg: Config, w: World, l: Label)
    requires Sound(cfg, w) && w.proc.Up? && !l.Boot? && Step(cfg, w, l).proc.Up?
    ensures var s, t := w.proc.state, Step(cfg, w, l).proc.state; t == s || Accounted(cfg, s, l, t)
  {
    if Admissible(cfg, w, l) {
      assert Running(cfg, w);
      match l
      case Crash =>
      case Persist => DeliveryAccounted(cfg, w);
      case Deliver => DeliveryAccounted(cfg, w);
      case ClearOutbox => DeliveryAccounted(cfg, w);
      case Complete => DeliveryAccounted(cfg, w);
      case ReachMaxTurns => MaxTurnsAccounted(cfg, w);
      case BeforeTurn(hook) => HooksAccounted(cfg, w, hook);
      case StopByHook => HookStopAccounted(cfg, w);
      case BeginTurn(delta) => BeginTurnAccounted(cfg, w, delta);
      case CallModel(outcome) => ModelAccounted(cfg, w, outcome);
      case GovernStop(action, stopMessages) => GovernanceAccounted(cfg, w, action, stopMessages);
      case EnterTools => EnteringAccounted(cfg, w);
      case StartTool(index, admitted) => ToolsAccounted(cfg, w, index, admitted, "", None);
      case CommitTool(index, content, ref) => ToolsAccounted(cfg, w, index, false, content, ref);
      case FinishBatch(r) => FinishAccounted(cfg, w, r);
    }
  }

  // ------------------------------------------------------------------ when a step may be taken

  /** The hook of a turn that runs next: the first one when a turn may begin, or the one after the last that ran. */
  predicate AtHook(cfg: Config, w: World, k: nat) {
    && w.proc.Up?
    && if w.proc.pc.InHooks? then k == w.proc.pc.cursor
       else
         && k == 0 && w.proc.pc == Top && w.proc.state.phase == Preparing && w.proc.state.pendingEvent.None?
         && (cfg.maxTurns.Some? ==> w.proc.state.turn < cfg.maxTurns.value)
  }

  predicate Clear(w: World, phase: Phase) {
    w.proc.Up? && w.proc.pc == Top && w.proc.state.phase == phase && w.proc.state.pendingEvent == None
  }

  /** Where the process stands after the step, if the step is due; `None` is a step that is not. */
  function Goes(cfg: Config, w: World, l: Label): Option<Pc>
    requires w.proc.Up? && w.proc.state.candidate < |cfg.candidates|
  {
    var s, pc := w.proc.state, w.proc.pc;
    match l
    case Deliver => if pc == Top && s.pendingEvent.Some? then Some(Delivered) else None
    case ClearOutbox =>
      if pc == Delivered && s.pendingEvent.Some? then
        Some(Saving(if s.pendingEvent.value.eventId.eventType == CompletedEvent then Done else Top))
      else None
    case Complete => if Clear(w, Terminal) then Some(Done) else None
    case ReachMaxTurns =>
      if Clear(w, Preparing) && cfg.maxTurns.Some? && s.turn >= cfg.maxTurns.value then Some(Saving(Top)) else None
    case BeforeTurn(hook) =>
      if cfg.beforeHooks > 0 && AtHook(cfg, w, 0) then Some(HookGoes(hook, 0))
      else if pc.InHooks? && pc.cursor < cfg.beforeHooks then Some(HookGoes(hook, pc.cursor))
      else None
    case StopByHook => if pc.HookStop? then Some(Saving(Done)) else None
    case BeginTurn(_) =>
      if (cfg.beforeHooks == 0 && AtHook(cfg, w, 0)) || (pc.InHooks? && pc.cursor >= cfg.beforeHooks) then Some(Saving(Top))
      else None
    case CallModel(outcome) =>
      if Clear(w, CallingModel) && (outcome.Responded? ==> outcome.response.AI?) then
        Some(Saving(if outcome == Interrupted(CancelledCall) then Done else Top))
      else None
    case GovernStop(_, _) => if Clear(w, StopGovernance) then Some(Saving(Top)) else None
    case CommitTool(index, _, _) =>
      if && pc == InTools && s.pendingBatch.Some? && index < |s.pendingBatch.value.toolCalls|
         && s.pendingBatch.value.toolCalls[index].id in w.proc.started
         && s.pendingBatch.value.toolCalls[index].id !in s.pendingBatch.value.committedIds
      then Some(Saving(InTools)) else None
    case FinishBatch(r) => if Finishes(cfg, w, r) then Some(Saving(if r.cancelled then Done else Top)) else None
    case _ => None
  }

  function HookGoes(hook: Option<HookResult>, k: nat): Pc {
    if hook.None? then InHooks(k + 1)
    else if hook.value.shouldStop then Saving(HookStop(hook.value.cancelled))
    else Saving(InHooks(k + 1))
  }

  /** Steps of the machine itself rather than of the loop, and those with theorems of their own. */
  predicate Elsewhere(l: Label) {
    l.Boot? || l.Crash? || l.Persist? || l.EnterTools? || l.StartTool?
  }

  /** The step went where it should: nowhere if it is not due, and otherwise to its place, with a new revision to save. */
  predicate Went(cfg: Config, w: World, l: Label, after: World)
    requires w.proc.Up? && w.proc.state.candidate < |cfg.candidates|
  {
    var to := Goes(cfg, w, l);
    if to.None? then after == w
    else
      && after.proc.Up? && after.proc.pc == to.value
      && after.proc.state.revision == w.proc.state.revision + (if to.value.Saving? then 1 else 0)
      && (!to.value.Saving? ==> after.proc.state == w.proc.state)
  }

  lemma ModelGoes(cfg: Config, w: World, outcome: ModelOutcome)
    requires WellConfigured(cfg) && Sound(cfg, w) && w.proc.Up? && Admissible(cfg, w, CallModel(outcome))
    ensures Went(cfg, w, CallModel(outcome), StepCallModel(cfg, w, outcome))
  {
    CallModelKeeps(cfg, w, outcome);
  }

  lemma DeliveryGoes(cfg: Config, w: World)
    requires Sound(cfg, w) && w.proc.Up?
    ensures Went(cfg, w, Deliver, StepDeliver(w)) && Went(cfg, w, ClearOutbox, StepClearOutbox(w))
    ensures Went(cfg, w, Complete, StepComplete(w))
  {
    OutboxKeeps(cfg, w);
  }

  lemma MaxTurnsGoes(cfg: Config, w: World)
    requires Sound(cfg, w) && w.proc.Up?
    ensures Went(cfg, w, ReachMaxTurns, StepReachMaxTurns(cfg, w))
  {
    MaxTurnsKeeps(cfg, w);
  }

  lemma HooksGo(cfg: Config, w: World, hook: Option<HookResult>)
    requires Sound(cfg, w) && w.proc.Up? && Admissible(cfg, w, BeforeTurn(hook))
    ensures Went(cfg, w, BeforeTurn(hook), StepBeforeTurn(cfg, w, hook))
  {
    HooksKeep(cfg, w, hook);
  }

  lemma HookStopGoes(cfg: Config, w: World)
    requires Sound(cfg, w) && w.proc.Up?
    ensures Went(cfg, w, StopByHook, StepStopByHook(w))
  {
    HookStopKeeps(cfg, w);
  }

  lemma BeginTurnGoes(cfg: Config, w: World, delta: nat)
    requires Sound(cfg, w) && w.proc.Up?
    ensures Went(cfg, w, BeginTurn(delta), StepBeginTurn(cfg, w, delta))
  {
    BeginTurnKeeps(cfg, w, delta);
  }

  lemma GovernanceGoes(cfg: Config, w: World, action: StopAction, stopMessages: seq<Message>)
    requires Sound(cfg, w) && w.proc.Up? && AllPlain(stopMessages)
    ensures Went(cfg, w, GovernStop(action, stopMessages), StepGovernStop(w, action, stopMessages))
  {
    GovernStopKeeps(cfg, w, action, stopMessages);
  }

  lemma CommitGoes(cfg: Config, w: World, index: nat, content: string, ref: Option<string>)
    requires Sound(cfg, w) && w.proc.Up?
    ensures Went(cfg, w, CommitTool(index, content, ref), StepCommitTool(w, index, content, ref))
  {
    CommitToolKeeps(cfg, w, index, content, ref);
  }

  lemma FinishGoes(cfg: Config, w: World, r: BatchReport)
    requires Sound(cfg, w) && w.proc.Up? && Admissible(cfg, w, FinishBatch(r))
    ensures Went(cfg, w, FinishBatch(r), StepFinishBatch(cfg, w, r))
  {
    if Finishes(cfg, w, r) {
      var s := w.proc.state;
      ClosingKeepsClean(cfg, s, r);
      BatchLeaves(cfg, s, s.pendingBatch.value, r);
    }
  }

  /** A step of the loop is taken exactly when it is due, and leads where it should. */
  lemma StepIsTakenIffDue(cfg: Config, w: World, l: Label)
    requires WellConfigured(cfg) && Sound(cfg, w) && w.proc.Up? && Admissible(cfg, w, l) && !Elsewhere(l)
    ensures Went(cfg, w, l, Step(cfg, w, l))
  {
    match l
    case Deliver => DeliveryGoes(cfg, w);
    case ClearOutbox => DeliveryGoes(cfg, w);
    case Complete => DeliveryGoes(cfg, w);
    case ReachMaxTurns => MaxTurnsGoes(cfg, w);
    case BeforeTurn(hook) => HooksGo(cfg, w, hook);
    case StopByHook => HookStopGoes(cfg, w);
    case BeginTurn(delta) => BeginTurnGoes(cfg, w, delta);
    case CallModel(outcome) => ModelGoes(cfg, w, outcome);
    case GovernStop(action, stopMessages) => GovernanceGoes(cfg, w, action, stopMessages);
    case CommitTool(index, content, ref) => CommitGoes(cfg, w, index, content, ref);
    case FinishBatch(r) => FinishGoes(cfg, w, r);
  }

  /** A tool begins exactly when its call is among those the batch may run and was neither committed at entry nor begun before. */
  lemma ToolStarts(cfg: Config, w: World, index: nat, admitted: bool)
    requires Sound(cfg, w) && w.proc.Up? && w.proc.state.pendingBatch.Some?
    ensures var b, after := w.proc.state.pendingBatch.value, StepStartTool(cfg, w, index, admitted);
      if && Settled(w.proc.pc) == InTools
         && index < |b.toolCalls| && (cfg.maxBatch.Some? ==> index < cfg.maxBatch.value)
         && b.toolCalls[index].id !in w.proc.entry && b.toolCalls[index].id !in w.proc.started
      then after == w.(proc := w.proc.(started := w.proc.started + {b.toolCalls[index].id}),
                       executed := w.executed + if admitted then [Execution(b.batchId, b.toolCalls[index])] else [])
      else after == w
  {
  }

  /** A persist makes the state in memory the durable one; an event counts as published when it first becomes durable. */
  lemma PersistSaves(w: World)
    requires w.proc.Up? && w.proc.pc.Saving?
    ensures var after, event := StepPersist(w), w.proc.state.pendingEvent;
      && after.durable == Some(w.proc.state)
      && after.proc == w.proc.(pc := w.proc.pc.next) && after.applied == w.applied && after.executed == w.executed
      && after.published == w.published
           + if event.None? || (w.durable.Some? && w.durable.value.pendingEvent == event) then [] else [event.value]
  {
  }

  /** A process starts from the durable state, or afresh; a batch counts as resumed if the durable state was executing tools. */
  lemma BootStarts(cfg: Config, w: World, candidate: nat)
    requires WellConfigured(cfg) && Sound(cfg, w) && w.proc.Down? && Admissible(cfg, w, Boot(candidate))
    ensures var after := StepBoot(cfg, w, candidate);
      && after == w.(proc := after.proc) && after.proc.Up?
      && after.proc.pc == Saving(Top) && after.proc.started == {} && after.proc.entry == {}
      && (forall e :: e in after.proc.acked <==> exists i :: 0 <= i < |w.applied| && w.applied[i].eventId == e)
      && (after.proc.resumedBatch <==> w.durable.Some? && w.durable.value.phase == ExecutingTools)
      && after.proc.state.candidate == candidate
      && match w.durable
         case Some(s) => after.proc.state == s.(candidate := candidate)
         case None =>
           && after.proc.state.phase == Preparing && after.proc.state.revision == 0 && after.proc.state.reason == Start
           && after.proc.state.messages == cfg.initialMessages && after.proc.state.turn == cfg.initialTurn
           && after.proc.state.context == ContextRecoveryState(0, false, 0, 1.0)
           && after.proc.state.output == OutputRecoveryState(0, false, None, [])
           && after.proc.state.pendingBatch == None && after.proc.state.pendingEvent == None
           && !after.proc.state.stopHookActive
  {
    BootKeeps(cfg, w, candidate);
    forall e
      ensures e in AckedIds(w.applied) <==> exists i :: 0 <= i < |w.applied| && w.applied[i].eventId == e
    {
      if e in AckedIds(w.applied) {
        var event :| event in w.applied && event.eventId == e;
        var i :| 0 <= i < |w.applied| && w.applied[i] == event;
      }
    }
  }

  // ------------------------------------------------------------- prompts that stay too long

  /** The state after failures that all report a prompt too long, as long as they are retried. */
  function AfterRetries(cfg: Config, s: QueryLoopState, failures: seq<ModelOutcome>): Result<QueryLoopState, AdvanceError>
    requires forall o | o in failures :: o.Failed?
  {
    if failures == [] then Ok(s)
    else
      var last := |failures| - 1;
      var before := AfterRetries(cfg, s, failures[..last]);
      if before.Err? then before else AfterFailure(cfg, before.value, failures[last])
  }

  /** What is left of the whole after `n` cuts of a fifth, at least a twentieth. */
  function Share(n: nat): real {
    if n == 0 then 1.0 else if Share(n - 1) * 0.8 < 0.05 then 0.05 else Share(n - 1) * 0.8
  }

  /**
   * However often a turn's prompt proves too long: each retry asks for a smaller share, the second
   * one alone compacts, and the transcript is the original until then and the compacted one after.
   */
  lemma {:induction false} PromptsTooLong(cfg: Config, s: QueryLoopState, failures: seq<ModelOutcome>)
    requires s.phase == CallingModel && s.terminal.None? && s.context == FRESH_CONTEXT
    requires forall o | o in failures :: o.Failed? && o.kind == PromptTooLongError
    requires |failures| <= cfg.contextLimit
    ensures var n, t := |failures|, AfterRetries(cfg, s, failures);
      && t.Ok? && t.value.phase == CallingModel && t.value.revision == s.revision + n && t.value.terminal.None?
      && t.value.context == ContextRecoveryState(n, n >= 2, if n >= 2 then 1 else 0, Share(n))
      && t.value.messages == if n >= 2 then failures[1].recovered else s.messages
    decreases |failures|
  {
    if failures != [] {
      var last := |failures| - 1;
      assert failures[last] in failures;
      PromptsTooLong(cfg, s, failures[..last]);
    }
  }

  /** One more than the limit ends the loop. */
  lemma TooLongForGood(cfg: Config, s: QueryLoopState, failures: seq<ModelOutcome>)
    requires s.phase == CallingModel && s.terminal.None? && s.context == FRESH_CONTEXT
    requires forall o | o in failures :: o.Failed? && o.kind == PromptTooLongError
    requires |failures| == cfg.contextLimit + 1
    ensures var t := AfterRetries(cfg, s, failures);
      t.Ok? && t.value.phase == Terminal && t.value.terminal == Some(QueryTerminal(PromptTooLong, NoDetail))
  {
    var last := |failures| - 1;
    assert failures[last] in failures;
    PromptsTooLong(cfg, s, failures[..last]);
  }

  // -------------------------------------------------------------------- what is never let pass

  /**
   * In whatever state a loop is, sound or not: no step that starts a process, calls the model, ends the
   * loop or closes a batch goes on with a transcript that is broken.
   */
  lemma BrokenTranscriptsRaise(cfg: Config, w: World, action: StopAction, stopMessages: seq<Message>, outcome: ModelOutcome, r: BatchReport)
    requires w.proc.Up?
    ensures var s, raised := w.proc.state, w.(proc := Raised(BadTranscript));
      && (Clear(w, Preparing) && cfg.maxTurns.Some? && s.turn >= cfg.maxTurns.value && !Closed(s.messages) ==>
            StepReachMaxTurns(cfg, w) == raised)
      && (w.proc.pc.HookStop? && !Closed(s.messages) ==> StepStopByHook(w) == raised)
      && (Clear(w, CallingModel) && s.candidate < |cfg.candidates| && (outcome.Responded? ==> outcome.response.AI?)
          && !Closed(s.messages) && !OpenTail(s.messages) ==>
            StepCallModel(cfg, w, outcome) == raised)
      && (Clear(w, StopGovernance) && action != ContinueLoop && !Closed(s.messages + stopMessages) ==>
            StepGovernStop(w, action, stopMessages) == raised)
      && (Finishes(cfg, w, r) && !Closed(ClosedMessages(cfg, s, s.pendingBatch.value, r)) ==>
            StepFinishBatch(cfg, w, r) == raised)
  {
  }

  /** Nor does a process start on one, or with a candidate that does not exist; a batch without calls to run is not entered. */
  lemma BadStatesRaise(cfg: Config, w: World, candidate: nat, outcome: ModelOutcome)
    ensures w.proc.Down? && w.durable.Some? && !Closed(w.durable.value.messages) && !OpenTail(w.durable.value.messages) ==>
              StepBoot(cfg, w, candidate) == w.(proc := Raised(BadTranscript))
    ensures w.proc.Down? && w.durable.Some? && Closed(w.durable.value.messages) && w.durable.value.candidate >= |cfg.candidates| ==>
              StepBoot(cfg, w, candidate) == w.(proc := Raised(NoCandidate))
    ensures w.proc.Up? && Clear(w, CallingModel) && w.proc.state.candidate >= |cfg.candidates|
            && (outcome.Responded? ==> outcome.response.AI?) ==>
              StepCallModel(cfg, w, outcome) == w.(proc := Raised(NoCandidate))
    ensures w.proc.Up? && Clear(w, ExecutingTools) && w.proc.state.pendingBatch.None? ==>
              StepEnterTools(cfg, w) == w.(proc := Raised(NoPendingBatch))
  {
  }
}
