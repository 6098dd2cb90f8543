/** Every reachable state of the loop has a well-formed transcript, and nothing ever raises. */
module QueryGrammar {
  import opened Wrappers
  import opened Transcript
  import opened ToolCallIds
  import opened ToolBatch
  import opened QueryState
  import opened QueryLoop

  /** The committed ids, the committed results and the batch's calls tell one story. */
  ghost predicate BatchInv(b: PendingToolBatch) {
    && |b.committedResults| == |b.committedIds|
    && (forall i | 0 <= i < |b.committedIds| ::
          b.committedResults[i].Tool? && b.committedResults[i].callId == b.committedIds[i])
    && (forall i, j | 0 <= i < j < |b.committedIds| :: b.committedIds[i] != b.committedIds[j])
    && (forall id | id in b.committedIds :: id in IdSet(b.toolCalls))
  }

  ghost predicate TailCarries(ms: seq<Message>, b: PendingToolBatch) {
    OpenTail(ms) && ms[|ms| - 1].calls == b.toolCalls
  }

  /** The transcript shape each phase promises. */
  ghost predicate Shape(s: QueryLoopState) {
    match s.phase
    case ExecutingTools => s.pendingBatch.Some? && TailCarries(s.messages, s.pendingBatch.value)
    case Terminal =>
      && s.pendingBatch.None?
      && s.terminal.Some?
      && (if s.terminal.value.detail.UnsafeReplay? then s.terminal.value.reason == HookStopped && OpenTail(s.messages)
          else Closed(s.messages))
    case _ => s.pendingBatch.None? && Closed(s.messages)
  }

  ghost predicate StateInv(cfg: Config, s: QueryLoopState) {
    && Shape(s)
    && MarkedArePlain(s.messages)
    && s.stateKey == cfg.stateKey
    && s.candidate < |cfg.candidates|
    && (s.phase == Terminal <==> s.terminal.Some?)
    && (s.pendingBatch.Some? ==> BatchInv(s.pendingBatch.value))
    && (s.pendingEvent.Some? ==> s.phase == Preparing || s.phase == Terminal)
  }

  function Settled(pc: Pc): Pc {
    if pc.Saving? then pc.next else pc
  }

  predicate PcInv(s: QueryLoopState, pc: Pc) {
    match Settled(pc)
    case Top => true
    case Delivered => !pc.Saving? && s.pendingEvent.Some?
    case InHooks(_) => s.phase == Preparing && s.pendingEvent.None?
    case HookStop(_) => s.phase == Preparing && s.pendingEvent.None?
    case InTools => s.phase == ExecutingTools
    case Done => true
    case Saving(_) => false
  }

  ghost predicate Sound(cfg: Config, w: World) {
    && (w.durable.Some? ==> StateInv(cfg, w.durable.value))
    && !w.proc.Raised?
    && (w.proc.Up? ==> StateInv(cfg, w.proc.state) && PcInv(w.proc.state, w.proc.pc))
  }

  lemma AdoptKeeps(cfg: Config, w: World, advanced: Result<QueryLoopState, AdvanceError>, next: Pc)
    requires Sound(cfg, w) && w.proc.Up?
    requires advanced.Ok? && StateInv(cfg, advanced.value)
    requires PcInv(advanced.value, Saving(next))
    ensures Sound(cfg, Adopt(w, advanced, next))
  {
  }

  /** Ending the loop with a closed transcript. */
  lemma ConcludeKeeps(cfg: Config, s: QueryLoopState, base: QueryLoopState, messages: seq<Message>, reason: TerminalReason)
    requires StateInv(cfg, s) && CleanTranscript(messages) && (messages == [] ==> CleanTranscript(s.messages))
    requires base.stateKey == s.stateKey && base.candidate == s.candidate && base.messages == s.messages
    requires LegalTransition(s.phase, Terminal)
    ensures var ended := Advance(s, Terminal, Reason.Ended(reason), Concluded(base, messages, reason, NoDetail));
            ended.Ok? && StateInv(cfg, ended.value)
  {
  }

  lemma EndingKeeps(cfg: Config, s: QueryLoopState, reason: TerminalReason)
    requires StateInv(cfg, s) && Closed(s.messages)
    requires s.phase == Preparing || s.phase == CallingModel
    ensures Ending(s, reason).Ok? && StateInv(cfg, Ending(s, reason).value)
  {
    ConcludeKeeps(cfg, s, QuietQuality(s), s.messages, reason);
  }

  lemma BootKeeps(cfg: Config, w: World, candidate: nat)
    requires WellConfigured(cfg) && Sound(cfg, w) && Admissible(cfg, w, Boot(candidate))
    ensures Sound(cfg, StepBoot(cfg, w, candidate))
  {
  }

  lemma PersistKeeps(cfg: Config, w: World)
    requires Sound(cfg, w)
    ensures Sound(cfg, StepPersist(w))
  {
  }

  lemma OutboxKeeps(cfg: Config, w: World)
    requires Sound(cfg, w)
    ensures Sound(cfg, StepDeliver(w)) && Sound(cfg, StepClearOutbox(w)) && Sound(cfg, StepComplete(w))
  {
  }

  lemma MaxTurnsKeeps(cfg: Config, w: World)
    requires Sound(cfg, w)
    ensures Sound(cfg, StepReachMaxTurns(cfg, w))
  {
    if AtTop(w, Preparing) {
      EndingKeeps(cfg, w.proc.state, MaxTurns);
    }
  }

  lemma HookedKeeps(cfg: Config, s: QueryLoopState, messages: seq<Message>)
    requires StateInv(cfg, s) && s.phase == Preparing && s.pendingEvent.None? && CleanTranscript(messages)
    ensures var hooked := Advance(s, Preparing, HookUpdate, s.(messages := messages));
            hooked.Ok? && StateInv(cfg, hooked.value) && hooked.value.phase == Preparing && hooked.value.pendingEvent.None?
  {
  }

  lemma HooksKeep(cfg: Config, w: World, hook: Option<HookResult>)
    requires Sound(cfg, w) && Admissible(cfg, w, BeforeTurn(hook))
    ensures Sound(cfg, StepBeforeTurn(cfg, w, hook))
  {
    var cursor := HookCursor(cfg, w);
    if cursor.Some? && cursor.value < cfg.beforeHooks && hook.Some? {
      var s, h := w.proc.state, hook.value;
      var messages := if h.replacement.Some? then h.replacement.value else s.messages + h.messages;
      if h.replacement.None? {
        ClosedPlusPlain(s.messages, h.messages);
      }
      HookedKeeps(cfg, s, messages);
      AdoptKeeps(cfg, w, Advance(s, Preparing, HookUpdate, s.(messages := messages)),
                 if h.shouldStop then HookStop(h.cancelled) else InHooks(cursor.value + 1));
    }
  }

  lemma HookStopKeeps(cfg: Config, w: World)
    requires Sound(cfg, w)
    ensures Sound(cfg, StepStopByHook(w))
  {
    if w.proc.Up? && w.proc.pc.HookStop? {
      EndingKeeps(cfg, w.proc.state, if w.proc.pc.cancelled then TerminalReason.Cancelled else HookStopped);
    }
  }

  lemma BeginTurnKeeps(cfg: Config, w: World, delta: nat)
    requires Sound(cfg, w)
    ensures Sound(cfg, StepBeginTurn(cfg, w, delta))
  {
  }

  /** The answer, appended to the transcript without recovery messages, opens a tail or leaves it closed. */
  lemma AnswerExtends(cfg: Config, s: QueryLoopState, response: Message)
    requires WellConfigured(cfg) && CleanTranscript(s.messages)
    requires response.AI? && response.marker == Ordinary
    ensures var answer := Answered(cfg, s, response);
            var messages := Unmarked(s.messages) + [answer];
            && MarkedArePlain(messages)
            && (if answer.Calling() then OpenTail(messages) && messages[|messages| - 1] == answer else Closed(messages))
  {
    UnmarkedKeepsClosed(s.messages);
    var whole := Consolidated(s, response);
    var answer := Answered(cfg, s, response);
    var kept := Unmarked(s.messages);
    assert answer.marker == Ordinary;
    if whole.Calling() {
      CanonicalIdsAreGood(whole.calls, |whole.calls|, cfg.digest(s.turn));
      assert (kept + [answer])[..|kept|] == kept;
    } else {
      ClosedPlusPlain(kept, [answer]);
    }
  }

  lemma AnswerKeeps(cfg: Config, s: QueryLoopState, response: Message)
    requires WellConfigured(cfg) && StateInv(cfg, s) && s.phase == CallingModel && s.pendingEvent.None?
    requires response.AI? && response.marker == Ordinary
    ensures AfterAnswer(cfg, s, response).Ok? && StateInv(cfg, AfterAnswer(cfg, s, response).value)
  {
    AnswerExtends(cfg, s, response);
  }

  lemma TruncationKeeps(cfg: Config, s: QueryLoopState, response: Message)
    requires StateInv(cfg, s) && s.phase == CallingModel && response.AI? && response.calls == []
    ensures AfterTruncation(cfg, s, response).Ok? && StateInv(cfg, AfterTruncation(cfg, s, response).value)
  {
    EndingKeeps(cfg, s, OutputRecoveryExhausted);
    var added := [AI(response.content, response.calls, OutputFragment), CONTINUATION_REQUEST];
    ClosedPlusPlain(s.messages, added);
    assert Continued(s, response).messages == s.messages + added;
    assert MarkedArePlain(s.messages + added);
  }

  lemma FailureKeeps(cfg: Config, s: QueryLoopState, o: ModelOutcome)
    requires StateInv(cfg, s) && s.phase == CallingModel && o.Failed?
    requires CleanTranscript(o.recovered) && CleanTranscript(o.sanitized) && o.nextCandidate < |cfg.candidates|
    ensures AfterFailure(cfg, s, o).Ok? && StateInv(cfg, AfterFailure(cfg, s, o).value)
  {
    EndingKeeps(cfg, s, if o.kind == PromptTooLongError then PromptTooLong
                        else if o.timeout then ModelTimeout else ModelError);
  }

  lemma CallModelKeeps(cfg: Config, w: World, outcome: ModelOutcome)
    requires WellConfigured(cfg) && Sound(cfg, w) && Admissible(cfg, w, CallModel(outcome))
    ensures Sound(cfg, StepCallModel(cfg, w, outcome))
  {
    if AtTop(w, CallingModel) {
      var s := w.proc.state;
      match outcome {
        case Unfit => EndingKeeps(cfg, s, PromptTooLong);
        case Interrupted(cause) => EndingKeeps(cfg, s, InterruptionReason(cause));
        case Failed(_, _, _, _, _) => FailureKeeps(cfg, s, outcome);
        case Responded(response, truncated) =>
          if truncated && response.calls == [] {
            TruncationKeeps(cfg, s, response);
          } else {
            AnswerKeeps(cfg, s, response);
          }
      }
      AdoptKeeps(cfg, w, AfterModel(cfg, s, outcome), if outcome == Interrupted(CancelledCall) then Done else Top);
    }
  }

  lemma GovernanceKeeps(cfg: Config, s: QueryLoopState, action: StopAction, stopMessages: seq<Message>)
    requires StateInv(cfg, s) && s.phase == StopGovernance && AllPlain(stopMessages)
    ensures Closed(s.messages + stopMessages)
    ensures AfterGovernance(s, action, stopMessages).Ok? && StateInv(cfg, AfterGovernance(s, action, stopMessages).value)
  {
    ClosedPlusPlain(s.messages, stopMessages);
    var messages := s.messages + stopMessages;
    assert MarkedArePlain(messages);
    var event := PendingQueryEvent(EventId(s.stateKey, s.revision + 1, CompletedEvent), s.turn, messages, [], None, []);
    ConcludeKeeps(cfg, s, QuietQuality(s).(pendingEvent := Some(event)), messages,
                  if action == HaltLoop then HookStopped else Completed);
  }

  lemma GovernStopKeeps(cfg: Config, w: World, action: StopAction, stopMessages: seq<Message>)
    requires Sound(cfg, w) && AllPlain(stopMessages)
    ensures Sound(cfg, StepGovernStop(w, action, stopMessages))
  {
    if AtTop(w, StopGovernance) {
      GovernanceKeeps(cfg, w.proc.state, action, stopMessages);
      AdoptKeeps(cfg, w, AfterGovernance(w.proc.state, action, stopMessages), Top);
    }
  }

  lemma EnterToolsKeeps(cfg: Config, w: World)
    requires Sound(cfg, w)
    ensures Sound(cfg, StepEnterTools(cfg, w))
  {
  }

  lemma CommitToolKeeps(cfg: Config, w: World, index: nat, content: string, ref: Option<string>)
    requires Sound(cfg, w)
    ensures Sound(cfg, StepCommitTool(w, index, content, ref))
  {
    if RunningTools(w) && w.proc.pc == InTools {
      var b := w.proc.state.pendingBatch.value;
      if index < |b.toolCalls| {
        assert b.toolCalls[index] in b.toolCalls;
      }
    }
  }

  /** Whatever a hook returned, closing the batch closes the transcript. */
  lemma ClosingKeepsClean(cfg: Config, s: QueryLoopState, r: BatchReport)
    requires StateInv(cfg, s) && s.phase == ExecutingTools
    requires forall m | m in r.additional :: m.Tool? || m.Plain()
    ensures CleanTranscript(ClosedMessages(cfg, s, s.pendingBatch.value, r))
  {
    var b := s.pendingBatch.value;
    var results, extra := BatchResults(cfg, b, r), BatchExtra(r);
    ClosedResultsAnswer(b.toolCalls, Candidates(cfg, b, r), MissingType(cfg, b, r));
    assert AllPlain(extra);
    CloseTail(s.messages, results, extra);
    forall m | m in results ensures m.Tool? {
      var i :| 0 <= i < |results| && results[i] == m;
      assert results[i].Tool?;
    }
  }

  lemma SettledBatchKeeps(
      cfg: Config, s: QueryLoopState, messages: seq<Message>, event: PendingQueryEvent, quality: QualityRecoveryState,
      goesOn: bool, reason: TerminalReason)
    requires StateInv(cfg, s) && s.phase == ExecutingTools && CleanTranscript(messages) && messages != []
    ensures BatchSettled(s, messages, event, quality, goesOn, reason).Ok?
    ensures StateInv(cfg, BatchSettled(s, messages, event, quality, goesOn, reason).value)
  {
  }

  lemma BatchKeeps(cfg: Config, s: QueryLoopState, r: BatchReport)
    requires StateInv(cfg, s) && s.phase == ExecutingTools
    requires CleanTranscript(ClosedMessages(cfg, s, s.pendingBatch.value, r)) && s.messages != []
    ensures AfterBatch(cfg, s, s.pendingBatch.value, r).Ok?
    ensures StateInv(cfg, AfterBatch(cfg, s, s.pendingBatch.value, r).value)
  {
    var b := s.pendingBatch.value;
    SettledBatchKeeps(cfg, s, ClosedMessages(cfg, s, b, r), BatchEvent(cfg, s, b, r), BatchQuality(s, r),
                      GoesOn(cfg, b, r), BatchReason(cfg, b, r));
  }

  /** What settling a batch does to the control state. */
  lemma BatchLeaves(cfg: Config, s: QueryLoopState, b: PendingToolBatch, r: BatchReport)
    requires s.phase == ExecutingTools && s.terminal.None?
    ensures AfterBatch(cfg, s, b, r).Ok?
    ensures var t := AfterBatch(cfg, s, b, r).value;
      && t.pendingBatch.None? && t.pendingEvent == Some(BatchEvent(cfg, s, b, r))
      && t.turn == s.turn && t.revision == s.revision + 1 && (t.phase == Preparing || t.phase == Terminal)
  {
    SettledLeaves(s, ClosedMessages(cfg, s, b, r), BatchEvent(cfg, s, b, r), BatchQuality(s, r), GoesOn(cfg, b, r),
                  BatchReason(cfg, b, r));
  }

  lemma SettledLeaves(
      s: QueryLoopState, messages: seq<Message>, event: PendingQueryEvent, quality: QualityRecoveryState, goesOn: bool,
      reason: TerminalReason)
    requires s.phase == ExecutingTools && s.terminal.None?
    ensures var settled := BatchSettled(s, messages, event, quality, goesOn, reason);
      && settled.Ok? && settled.value.pendingBatch.None? && settled.value.pendingEvent == Some(event)
      && settled.value.turn == s.turn && settled.value.revision == s.revision + 1
      && (settled.value.phase == Preparing || settled.value.phase == Terminal)
  {
  }

  function Calm(w: World): World
    requires w.proc.Up?
  {
    w.(proc := w.proc.(resumedBatch := false))
  }

  /** Finishing a batch does nothing, or adopts its settled state. */
  lemma FinishAdopts(cfg: Config, w: World, r: BatchReport)
    requires Sound(cfg, w) && Admissible(cfg, w, FinishBatch(r))
    ensures StepFinishBatch(cfg, w, r) == w
         || (RunningTools(w) && w.proc.pc == InTools && w.proc.state.phase == ExecutingTools && w.proc.state.terminal.None?
             && StepFinishBatch(cfg, w, r)
                == Adopt(Calm(w), AfterBatch(cfg, w.proc.state, w.proc.state.pendingBatch.value, r),
                         if r.cancelled then Done else Top))
  {
    if RunningTools(w) && w.proc.pc == InTools {
      ClosingKeepsClean(cfg, w.proc.state, r);
    }
  }

  lemma FinishBatchKeeps(cfg: Config, w: World, r: BatchReport)
    requires Sound(cfg, w) && Admissible(cfg, w, FinishBatch(r))
    ensures Sound(cfg, StepFinishBatch(cfg, w, r))
  {
    FinishAdopts(cfg, w, r);
    if StepFinishBatch(cfg, w, r) != w {
      var s := w.proc.state;
      ClosingKeepsClean(cfg, s, r);
      BatchKeeps(cfg, s, r);
      AdoptKeeps(cfg, Calm(w), AfterBatch(cfg, s, s.pendingBatch.value, r), if r.cancelled then Done else Top);
    }
  }

  lemma StepKeepsSound(cfg: Config, w: World, l: Label)
    requires WellConfigured(cfg) && Sound(cfg, w)
    ensures Sound(cfg, Step(cfg, w, l))
  {
    if Admissible(cfg, w, l) {
      match l
      case Boot(candidate) => BootKeeps(cfg, w, candidate);
      case Crash =>
      case Persist => PersistKeeps(cfg, w);
      case Deliver => OutboxKeeps(cfg, w);
      case ClearOutbox => OutboxKeeps(cfg, w);
      case Complete => OutboxKeeps(cfg, w);
      case ReachMaxTurns => MaxTurnsKeeps(cfg, w);
      case BeforeTurn(hook) => HooksKeep(cfg, w, hook);
      case StopByHook => HookStopKeeps(cfg, w);
      case BeginTurn(delta) => BeginTurnKeeps(cfg, w, delta);
      case CallModel(outcome) => CallModelKeeps(cfg, w, outcome);
      case GovernStop(action, stopMessages) => GovernStopKeeps(cfg, w, action, stopMessages);
      case EnterTools => EnterToolsKeeps(cfg, w);
      case StartTool(index, admitted) =>
      case CommitTool(index, content, ref) => CommitToolKeeps(cfg, w, index, content, ref);
      case FinishBatch(report) => FinishBatchKeeps(cfg, w, report);
    }
  }

  /** Over every run, with any crashes and any hook, model or tool output. */
  lemma {:induction false} EveryRunIsSound(cfg: Config, labels: seq<Label>)
    requires WellConfigured(cfg)
    ensures Sound(cfg, Run(cfg, FIRST_WORLD, labels))
    decreases |labels|
  {
    if labels != [] {
      var last := |labels| - 1;
      EveryRunIsSound(cfg, labels[..last]);
      StepKeepsSound(cfg, Run(cfg, FIRST_WORLD, labels[..last]), labels[last]);
    }
  }

  /** No validation, phase check or lookup of the loop ever fails. */
  lemma NothingRaises(cfg: Config, labels: seq<Label>)
    requires WellConfigured(cfg)
    ensures !Run(cfg, FIRST_WORLD, labels).proc.Raised?
  {
    EveryRunIsSound(cfg, labels);
  }

  /** A finished loop leaves a closed transcript unless it refused to replay an unsafe tool. */
  lemma OpenEndingIsUnsafeReplay(cfg: Config, labels: seq<Label>)
    requires WellConfigured(cfg)
    ensures var w := Run(cfg, FIRST_WORLD, labels);
            w.durable.Some? && w.durable.value.phase == Terminal ==>
              w.durable.value.terminal.Some? &&
              (!Closed(w.durable.value.messages) <==> w.durable.value.terminal.value.detail.UnsafeReplay?)
  {
    EveryRunIsSound(cfg, labels);
    var w := Run(cfg, FIRST_WORLD, labels);
    if w.durable.Some? && OpenTail(w.durable.value.messages) {
      OpenTailNotClosed(w.durable.value.messages);
    }
  }
}
