/** A process that is left alone finishes: the retry and turn budgets form a lexicographic measure. */
module QueryTermination {
  import opened Wrappers
  import opened Transcript
  import opened Counting
  import opened ToolCallIds
  import opened QueryState
  import opened QueryLoop
  import opened QueryGrammar
  import opened QueryExecution

  datatype Rank = Rank(
    turns: nat, phase: nat, candidates: nat, context: nat, escalation: nat, continuations: nat,
    event: nat, tools: nat, pc: nat)

  predicate Below(a: Rank, b: Rank) {
    || a.turns < b.turns
    || (a.turns == b.turns && (
      || a.phase < b.phase
      || (a.phase == b.phase && (
        || a.candidates < b.candidates
        || (a.candidates == b.candidates && (
          || a.context < b.context
          || (a.context == b.context && (
            || a.escalation < b.escalation
            || (a.escalation == b.escalation && (
              || a.continuations < b.continuations
              || (a.continuations == b.continuations && (
                || a.event < b.event
                || (a.event == b.event && (
                  || a.tools < b.tools
                  || (a.tools == b.tools && a.pc < b.pc)))))))))))))))
  }

  function Minus(a: nat, b: nat): nat { if a > b then a - b else 0 }

  function PhaseRank(p: Phase): nat {
    match p
    case CallingModel => 4
    case ExecutingTools => 3
    case StopGovernance => 3
    case Preparing => 2
    case Terminal => 1
  }

  /** A pending persist counts one more than the place it leads to. */
  function PcRank(cfg: Config, pc: Pc): nat {
    (match Settled(pc)
     case Top => 2 * cfg.beforeHooks + 5
     case Delivered => 1
     case InHooks(cursor) => 2 * Minus(cfg.beforeHooks, cursor) + 2
     case _ => 0)
    + if pc.Saving? then 1 else 0
  }

  /** Calls not yet begun plus calls not yet committed. */
  function ToolWork(b: PendingToolBatch, entry: set<string>, started: set<string>): nat {
    |IdSet(b.toolCalls) - entry - started| + Minus(|b.toolCalls|, |b.committedIds|)
  }

  function ToolRank(s: QueryLoopState, pc: Pc, entry: set<string>, started: set<string>): nat {
    if s.phase != ExecutingTools || s.pendingBatch.None? then 0
    else if Settled(pc) == InTools then ToolWork(s.pendingBatch.value, entry, started)
    else 2 * |s.pendingBatch.value.toolCalls| + 1
  }

  function RankOf(cfg: Config, w: World): Rank
    requires w.proc.Up? && cfg.maxTurns.Some?
  {
    var s := w.proc.state;
    Rank(Minus(cfg.maxTurns.value, s.turn), PhaseRank(s.phase), Minus(|cfg.candidates|, s.candidate),
         Minus(cfg.contextLimit, s.context.attempts), if s.output.escalationAttempted then 0 else 1,
         Minus(cfg.continuationLimit, s.output.continuationCount),
         if s.pendingEvent.Some? then 1 else 0,
         ToolRank(s, w.proc.pc, w.proc.entry, w.proc.started), PcRank(cfg, w.proc.pc))
  }

  /** While hooks run, the turn budget was checked and not used up. */
  ghost predicate HooksWithinBudget(cfg: Config, w: World) {
    w.proc.Up? && Settled(w.proc.pc).InHooks? ==>
      !TurnsUsedUp(cfg, w.proc.state) && Settled(w.proc.pc).cursor <= cfg.beforeHooks
  }

  /** Steps of a process left alone; a turn advances the counter by at least one. */
  predicate Undisturbed(l: Label) {
    !l.Boot? && !l.Crash? && (l.BeginTurn? ==> l.delta >= 1)
  }

  predicate Descends(cfg: Config, w: World, w': World)
    requires w.proc.Up? && cfg.maxTurns.Some?
  {
    w' == w || (w'.proc.Up? && Below(RankOf(cfg, w'), RankOf(cfg, w)))
  }

  lemma ProcessDescends(cfg: Config, w: World)
    requires Sound(cfg, w) && w.proc.Up? && cfg.maxTurns.Some?
    ensures Descends(cfg, w, StepPersist(w)) && Descends(cfg, w, StepDeliver(w))
    ensures Descends(cfg, w, StepClearOutbox(w)) && Descends(cfg, w, StepComplete(w))
  {
  }

  lemma PhaseDropDescends(cfg: Config, w: World, advanced: Result<QueryLoopState, AdvanceError>, next: Pc)
    requires w.proc.Up? && cfg.maxTurns.Some? && advanced.Ok? && advanced.value.turn == w.proc.state.turn
    requires PhaseRank(advanced.value.phase) < PhaseRank(w.proc.state.phase)
    ensures Adopt(w, advanced, next).proc.Up? && Below(RankOf(cfg, Adopt(w, advanced, next)), RankOf(cfg, w))
  {
  }

  lemma EndingDescends(cfg: Config, w: World, reason: TerminalReason, next: Pc)
    requires w.proc.Up? && cfg.maxTurns.Some? && Ending(w.proc.state, reason).Ok?
    requires w.proc.state.phase != Terminal
    ensures Descends(cfg, w, Adopt(w, Ending(w.proc.state, reason), next))
  {
  }

  lemma HooksDescend(cfg: Config, w: World, hook: Option<HookResult>)
    requires Sound(cfg, w) && HooksWithinBudget(cfg, w) && w.proc.Up? && cfg.maxTurns.Some?
    ensures Descends(cfg, w, StepBeforeTurn(cfg, w, hook))
  {
  }

  lemma BeginTurnDescends(cfg: Config, w: World, delta: nat)
    requires Sound(cfg, w) && HooksWithinBudget(cfg, w) && w.proc.Up? && cfg.maxTurns.Some? && delta >= 1
    ensures Descends(cfg, w, StepBeginTurn(cfg, w, delta))
  {
  }

  lemma FailureDescends(cfg: Config, w: World, o: ModelOutcome)
    requires Sound(cfg, w) && AtTop(w, CallingModel) && cfg.maxTurns.Some? && o.Failed?
    requires Admissible(cfg, w, CallModel(o)) && AfterFailure(cfg, w.proc.state, o).Ok?
    ensures Descends(cfg, w, Adopt(w, AfterFailure(cfg, w.proc.state, o), Top))
  {
  }

  lemma TruncationDescends(cfg: Config, w: World, response: Message)
    requires Sound(cfg, w) && AtTop(w, CallingModel) && cfg.maxTurns.Some?
    requires response.AI? && AfterTruncation(cfg, w.proc.state, response).Ok?
    ensures Descends(cfg, w, Adopt(w, AfterTruncation(cfg, w.proc.state, response), Top))
  {
  }

  lemma AnswerLowersPhase(cfg: Config, s: QueryLoopState, response: Message)
    requires response.AI? && s.phase == CallingModel && AfterAnswer(cfg, s, response).Ok?
    ensures var t := AfterAnswer(cfg, s, response).value;
            t.turn == s.turn && (t.phase == ExecutingTools || t.phase == StopGovernance)
  {
  }

  lemma ModelDescends(cfg: Config, w: World, outcome: ModelOutcome)
    requires WellConfigured(cfg) && Sound(cfg, w) && w.proc.Up? && cfg.maxTurns.Some?
    requires Admissible(cfg, w, CallModel(outcome))
    ensures Descends(cfg, w, StepCallModel(cfg, w, outcome))
  {
    if AtTop(w, CallingModel) {
      CallModelKeeps(cfg, w, outcome);
      var s := w.proc.state;
      if AfterModel(cfg, s, outcome).Ok? {
        match outcome
        case Unfit => EndingDescends(cfg, w, PromptTooLong, Top);
        case Interrupted(cause) => EndingDescends(cfg, w, InterruptionReason(cause), if cause == CancelledCall then Done else Top);
        case Failed(_, _, _, _, _) => FailureDescends(cfg, w, outcome);
        case Responded(response, truncated) =>
          if truncated && response.calls == [] {
            TruncationDescends(cfg, w, response);
          } else {
            AnswerLowersPhase(cfg, s, response);
          }
      }
    }
  }

  lemma GovernDescends(cfg: Config, w: World, action: StopAction, stopMessages: seq<Message>)
    requires Sound(cfg, w) && w.proc.Up? && cfg.maxTurns.Some? && AllPlain(stopMessages)
    ensures Descends(cfg, w, StepGovernStop(w, action, stopMessages))
  {
    if AtTop(w, StopGovernance) {
      GovernanceKeeps(cfg, w.proc.state, action, stopMessages);
    }
  }

  lemma ToolWorkBound(b: PendingToolBatch, entry: set<string>, started: set<string>)
    ensures ToolWork(b, entry, started) <= 2 * |b.toolCalls|
  {
    IdSetNoLarger(b.toolCalls);
    SubsetSize(IdSet(b.toolCalls) - entry - started, IdSet(b.toolCalls));
  }

  lemma EnterToolsDescends(cfg: Config, w: World)
    requires Sound(cfg, w) && w.proc.Up? && cfg.maxTurns.Some?
    ensures Descends(cfg, w, StepEnterTools(cfg, w))
  {
    if AtTop(w, ExecutingTools) {
      var s, b := w.proc.state, w.proc.state.pendingBatch.value;
      var unsafe := if w.proc.resumedBatch then UnsafeUncommitted(cfg, b.toolCalls, b.committedIds) else [];
      if unsafe != [] {
        PhaseDropDescends(cfg, w, AfterRefusal(s, unsafe), Top);
      } else {
        ToolWorkBound(b, SkippedIds(b), {});
      }
    }
  }

  lemma IdSetNoLarger(calls: seq<ToolCall>)
    ensures |IdSet(calls)| <= |calls|
    decreases |calls|
  {
    if calls != [] {
      var last := |calls| - 1;
      IdSetNoLarger(calls[..last]);
      assert calls == calls[..last] + [calls[last]];
      assert IdSet(calls) == IdSet(calls[..last]) + {calls[last].id};
    }
  }

  lemma StartDescends(cfg: Config, w: World, index: nat, admitted: bool)
    requires Sound(cfg, w) && w.proc.Up? && cfg.maxTurns.Some?
    ensures Descends(cfg, w, StepStartTool(cfg, w, index, admitted))
  {
    if RunningTools(w) && index < |w.proc.state.pendingBatch.value.toolCalls| {
      var call := w.proc.state.pendingBatch.value.toolCalls[index];
      var ids := IdSet(w.proc.state.pendingBatch.value.toolCalls);
      assert call in w.proc.state.pendingBatch.value.toolCalls && call.id in ids;
      var left := ids - w.proc.entry - w.proc.started;
      assert ids - w.proc.entry - (w.proc.started + {call.id}) == left - {call.id};
    }
  }

  /** Distinct committed ids among the batch's calls are never more than the calls. */
  lemma CommitsFit(b: PendingToolBatch)
    requires BatchInv(b)
    ensures |b.committedIds| <= |b.toolCalls|
  {
    DistinctCount(b.committedIds);
    SubsetSize((set id | id in b.committedIds), IdSet(b.toolCalls));
    IdSetNoLarger(b.toolCalls);
  }

  /** A commit leaves less work in the batch. */
  lemma CommitLowersWork(b: PendingToolBatch, after: PendingToolBatch, id: string, entry: set<string>, started: set<string>)
    requires BatchInv(after) && after.toolCalls == b.toolCalls && after.committedIds == b.committedIds + [id]
    ensures ToolWork(after, entry, started) < ToolWork(b, entry, started)
  {
    CommitsFit(after);
  }

  /** Committing does nothing, or adopts the batch with one more commit. */
  lemma CommitAdopts(cfg: Config, w: World, index: nat, content: string, ref: Option<string>)
    requires Sound(cfg, w)
    ensures StepCommitTool(w, index, content, ref) == w
         || (RunningTools(w) && w.proc.pc == InTools
             && var w' := StepCommitTool(w, index, content, ref);
               && w'.proc.Up? && w'.proc.pc == Saving(InTools)
               && w'.proc.entry == w.proc.entry && w'.proc.started == w.proc.started
               && w'.proc.state.pendingBatch.Some?
               && var b, b' := w.proc.state.pendingBatch.value, w'.proc.state.pendingBatch.value;
                 && b'.toolCalls == b.toolCalls && |b'.committedIds| == |b.committedIds| + 1
                 && b'.committedIds == b.committedIds + [b'.committedIds[|b.committedIds|]]
                 && w'.proc.state == w.proc.state.(
                      pendingBatch := Some(b'), revision := w.proc.state.revision + 1, reason := ToolResultCommitted))
  {
  }

  lemma CommitDescends(cfg: Config, w: World, index: nat, content: string, ref: Option<string>)
    requires Sound(cfg, w) && w.proc.Up? && cfg.maxTurns.Some?
    ensures Descends(cfg, w, StepCommitTool(w, index, content, ref))
  {
    var w' := StepCommitTool(w, index, content, ref);
    CommitAdopts(cfg, w, index, content, ref);
    if w' != w {
      CommitToolKeeps(cfg, w, index, content, ref);
      var b, b' := w.proc.state.pendingBatch.value, w'.proc.state.pendingBatch.value;
      CommitLowersWork(b, b', b'.committedIds[|b.committedIds|], w.proc.entry, w.proc.started);
    }
  }

  lemma SettlingDescends(cfg: Config, w: World, w': World, settled: Result<QueryLoopState, AdvanceError>, next: Pc)
    requires w.proc.Up? && cfg.maxTurns.Some? && settled.Ok? && settled.value.turn == w.proc.state.turn
    requires PhaseRank(settled.value.phase) < PhaseRank(w.proc.state.phase)
    requires w' == Adopt(Calm(w), settled, next)
    ensures Descends(cfg, w, w')
  {
    PhaseDropDescends(cfg, Calm(w), settled, next);
  }

  lemma LeavingToolsLowersPhase(from: Phase, to: Phase)
    requires from == ExecutingTools && (to == Preparing || to == Terminal)
    ensures PhaseRank(to) < PhaseRank(from)
  {
  }

  lemma BatchLowersPhase(cfg: Config, s: QueryLoopState, b: PendingToolBatch, r: BatchReport)
    requires s.phase == ExecutingTools && s.terminal.None?
    ensures var settled := AfterBatch(cfg, s, b, r);
      settled.Ok? && settled.value.turn == s.turn && PhaseRank(settled.value.phase) < PhaseRank(s.phase)
  {
    BatchLeaves(cfg, s, b, r);
    LeavingToolsLowersPhase(s.phase, AfterBatch(cfg, s, b, r).value.phase);
  }

  /** Finishing a batch does nothing, or adopts a state of the same turn and a lower phase. */
  lemma FinishSettles(cfg: Config, w: World, r: BatchReport)
    returns (settled: Result<QueryLoopState, AdvanceError>, next: Pc)
    requires Sound(cfg, w) && w.proc.Up? && Admissible(cfg, w, FinishBatch(r))
    ensures StepFinishBatch(cfg, w, r) == w
         || (settled.Ok? && settled.value.turn == w.proc.state.turn
             && PhaseRank(settled.value.phase) < PhaseRank(w.proc.state.phase)
             && StepFinishBatch(cfg, w, r) == Adopt(Calm(w), settled, next))
  {
    FinishAdopts(cfg, w, r);
    settled, next := Err(IllegalPhaseTransition), if r.cancelled then Done else Top;
    if StepFinishBatch(cfg, w, r) != w {
      BatchLowersPhase(cfg, w.proc.state, w.proc.state.pendingBatch.value, r);
      settled := AfterBatch(cfg, w.proc.state, w.proc.state.pendingBatch.value, r);
    }
  }

  lemma FinishDescends(cfg: Config, w: World, r: BatchReport)
    requires Sound(cfg, w) && w.proc.Up? && cfg.maxTurns.Some? && Admissible(cfg, w, FinishBatch(r))
    ensures Descends(cfg, w, StepFinishBatch(cfg, w, r))
  {
    var settled, next := FinishSettles(cfg, w, r);
    if StepFinishBatch(cfg, w, r) != w {
      SettlingDescends(cfg, w, StepFinishBatch(cfg, w, r), settled, next);
    }
  }

  lemma StepDescends(cfg: Config, w: World, l: Label)
    requires WellConfigured(cfg) && LoopInv(cfg, w) && HooksWithinBudget(cfg, w)
    requires w.proc.Up? && cfg.maxTurns.Some? && Undisturbed(l)
    ensures Descends(cfg, w, Step(cfg, w, l))
  {
    if Admissible(cfg, w, l) {
      match l
      case Persist => ProcessDescends(cfg, w);
      case Deliver => ProcessDescends(cfg, w);
      case ClearOutbox => ProcessDescends(cfg, w);
      case Complete => ProcessDescends(cfg, w);
      case ReachMaxTurns => MaxTurnsKeeps(cfg, w);
      case BeforeTurn(hook) => HooksDescend(cfg, w, hook);
      case StopByHook => HookStopKeeps(cfg, w);
      case BeginTurn(delta) => BeginTurnDescends(cfg, w, delta);
      case CallModel(outcome) => ModelDescends(cfg, w, outcome);
      case GovernStop(action, stopMessages) => GovernDescends(cfg, w, action, stopMessages);
      case EnterTools => EnterToolsDescends(cfg, w);
      case StartTool(index, admitted) => StartDescends(cfg, w, index, admitted);
      case CommitTool(index, content, ref) => CommitDescends(cfg, w, index, content, ref);
      case FinishBatch(report) => FinishDescends(cfg, w, report);
      case _ =>
    }
  }

  lemma HooksKeepBudget(cfg: Config, w: World, hook: Option<HookResult>)
    requires HooksWithinBudget(cfg, w)
    ensures HooksWithinBudget(cfg, StepBeforeTurn(cfg, w, hook))
  {
  }

  lemma ControlKeepsBudget(cfg: Config, w: World, l: Label)
    requires Sound(cfg, w) && HooksWithinBudget(cfg, w)
    requires l.Boot? || l.Crash? || l.Persist? || l.Deliver? || l.ClearOutbox? || l.Complete? || l.StartTool?
    ensures HooksWithinBudget(cfg, Step(cfg, w, l))
  {
  }

  /** Outside the hooks themselves a step that moves on leaves them. */
  lemma ModelLeavesHooks(cfg: Config, w: World, outcome: ModelOutcome)
    requires HooksWithinBudget(cfg, w)
    ensures HooksWithinBudget(cfg, StepCallModel(cfg, w, outcome))
  {
    if AtTop(w, CallingModel) && (outcome.Responded? ==> outcome.response.AI?) && w.proc.state.candidate < |cfg.candidates| {
      var next := if outcome == Interrupted(CancelledCall) then Done else Top;
      AdoptLeavesHooks(cfg, w, AfterModel(cfg, w.proc.state, outcome), next);
    }
  }

  lemma AdoptLeavesHooks(cfg: Config, w: World, advanced: Result<QueryLoopState, AdvanceError>, next: Pc)
    requires w.proc.Up? && !Settled(Saving(next)).InHooks?
    ensures HooksWithinBudget(cfg, Adopt(w, advanced, next))
  {
  }

  lemma ToolsLeaveHooks(cfg: Config, w: World, l: Label)
    requires HooksWithinBudget(cfg, w)
    ensures HooksWithinBudget(cfg, StepEnterTools(cfg, w))
    ensures l.CommitTool? ==> HooksWithinBudget(cfg, StepCommitTool(w, l.index, l.content, l.ref))
  {
  }

  lemma BatchLeavesHooks(cfg: Config, w: World, r: BatchReport)
    requires Sound(cfg, w) && HooksWithinBudget(cfg, w) && Admissible(cfg, w, FinishBatch(r))
    ensures HooksWithinBudget(cfg, StepFinishBatch(cfg, w, r))
  {
    FinishAdopts(cfg, w, r);
    if StepFinishBatch(cfg, w, r) != w {
      var s := w.proc.state;
      AdoptLeavesHooks(cfg, Calm(w), AfterBatch(cfg, s, s.pendingBatch.value, r), if r.cancelled then Done else Top);
    }
  }

  lemma StepKeepsHookBudget(cfg: Config, w: World, l: Label)
    requires Sound(cfg, w) && HooksWithinBudget(cfg, w)
    ensures HooksWithinBudget(cfg, Step(cfg, w, l))
  {
    if Admissible(cfg, w, l) {
      match l
      case BeforeTurn(hook) => HooksKeepBudget(cfg, w, hook);
      case ReachMaxTurns =>
      case StopByHook =>
      case BeginTurn(_) =>
      case CallModel(outcome) => ModelLeavesHooks(cfg, w, outcome);
      case GovernStop(_, _) =>
      case EnterTools => ToolsLeaveHooks(cfg, w, l);
      case CommitTool(_, _, _) => ToolsLeaveHooks(cfg, w, l);
      case FinishBatch(r) => BatchLeavesHooks(cfg, w, r);
      case _ => ControlKeepsBudget(cfg, w, l);
    }
  }

  /** A label that moves this process on, whatever its environment would rather do. */
  function DefaultLabel(cfg: Config, w: World): Label
    requires w.proc.Up?
  {
    match w.proc.pc
    case Saving(_) => Persist
    case Delivered => ClearOutbox
    case HookStop(_) => StopByHook
    case InTools => FinishBatch(BatchReport(true, false, true, false, None, [], true, None))
    case InHooks(cursor) => if cursor < cfg.beforeHooks then BeforeTurn(None) else BeginTurn(1)
    case Done => Persist
    case Top =>
      if w.proc.state.pendingEvent.Some? then Deliver
      else match w.proc.state.phase
        case Terminal => Complete
        case CallingModel => CallModel(Unfit)
        case StopGovernance => GovernStop(CompleteLoop, [])
        case ExecutingTools => EnterTools
        case Preparing =>
          if TurnsUsedUp(cfg, w.proc.state) then ReachMaxTurns
          else if 0 < cfg.beforeHooks then BeforeTurn(None) else BeginTurn(1)
  }

  predicate Running(w: World) {
    w.proc.Up? && w.proc.pc != Done
  }

  lemma TopIsNotStuck(cfg: Config, w: World)
    requires WellConfigured(cfg) && Sound(cfg, w) && w.proc.Up? && w.proc.pc == Top
    ensures Step(cfg, w, DefaultLabel(cfg, w)) != w
  {
    if w.proc.state.pendingEvent.None? && w.proc.state.phase == StopGovernance {
      GovernanceIsNotStuck(cfg, w);
    } else {
      var next := Step(cfg, w, DefaultLabel(cfg, w));
      assert !next.proc.Up? || next.proc.pc != Top;
    }
  }

  lemma GovernanceIsNotStuck(cfg: Config, w: World)
    requires Sound(cfg, w) && AtTop(w, StopGovernance)
    ensures StepGovernStop(w, CompleteLoop, []) != w
  {
    GovernanceKeeps(cfg, w.proc.state, CompleteLoop, []);
    var next := StepGovernStop(w, CompleteLoop, []);
    assert !next.proc.Up? || next.proc.pc != Top;
  }

  lemma InToolsIsNotStuck(cfg: Config, w: World)
    requires WellConfigured(cfg) && Sound(cfg, w) && w.proc.Up? && w.proc.pc == InTools
    ensures Step(cfg, w, DefaultLabel(cfg, w)) != w
  {
    var next := Step(cfg, w, DefaultLabel(cfg, w));
    assert !next.proc.Up? || next.proc.pc != InTools;
  }

  /** The loop is never stuck: some undisturbed step is always possible. */
  lemma LoopIsNeverStuck(cfg: Config, w: World)
    requires WellConfigured(cfg) && LoopInv(cfg, w) && Running(w)
    ensures Undisturbed(DefaultLabel(cfg, w)) && Admissible(cfg, w, DefaultLabel(cfg, w))
    ensures Step(cfg, w, DefaultLabel(cfg, w)) != w
  {
    if w.proc.pc == Top {
      TopIsNotStuck(cfg, w);
    } else if w.proc.pc == InTools {
      InToolsIsNotStuck(cfg, w);
    } else {
      var next := Step(cfg, w, DefaultLabel(cfg, w));
      assert !next.proc.Up? || next.proc.pc != w.proc.pc;
    }
  }

  /** An environment that answers every running process with an undisturbed, effective step. */
  ghost predicate Responsive(cfg: Config, env: World -> Label) {
    forall w | LoopInv(cfg, w) && Running(w) :: Undisturbed(env(w)) && Step(cfg, w, env(w)) != w
  }

  /**
   * The phase loop. With a finite turn limit, turns that advance and an environment
   * that answers, it ends, and the invariants hold when it does.
   */
  method Query(cfg: Config, start: World, env: World -> Label) returns (w: World)
    requires WellConfigured(cfg) && cfg.maxTurns.Some? && Responsive(cfg, env)
    requires LoopInv(cfg, start) && HooksWithinBudget(cfg, start) && start.proc.Up?
    ensures LoopInv(cfg, w) && w.proc.Up? && w.proc.pc == Done
    ensures w.durable == Some(w.proc.state)
  {
    w := start;
    while w.proc.pc != Done
      invariant LoopInv(cfg, w) && HooksWithinBudget(cfg, w) && w.proc.Up?
      decreases RankOf(cfg, w).turns, RankOf(cfg, w).phase, RankOf(cfg, w).candidates, RankOf(cfg, w).context,
                RankOf(cfg, w).escalation, RankOf(cfg, w).continuations, RankOf(cfg, w).event,
                RankOf(cfg, w).tools, RankOf(cfg, w).pc
    {
      var l := env(w);
      StepDescends(cfg, w, l);
      StepKeepsLoopInv(cfg, w, l);
      StepKeepsHookBudget(cfg, w, l);
      w := Step(cfg, w, l);
    }
  }
}
