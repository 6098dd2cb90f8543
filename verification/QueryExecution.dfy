/** Tool executions across crashes: unsafe tools run at most once, committed calls never again. */
module QueryExecution {
  import opened Wrappers
  import opened Transcript
  import opened Counting
  import opened ToolCallIds
  import opened QueryState
  import opened QueryLoop
  import opened QueryGrammar
  import opened QueryOutbox

  /** The tool that runs this call, if it is known, is read-only or supports repetition. */
  predicate Repeatable(cfg: Config, call: ToolCall) {
    call.name in cfg.tools ==> cfg.tools[call.name].readOnly || cfg.tools[call.name].idempotent
  }

  ghost predicate AtMostOnce(cfg: Config, executed: seq<Execution>) {
    forall i, j | 0 <= i < j < |executed| ::
      executed[i].batch == executed[j].batch && executed[i].call.id == executed[j].call.id ==>
        Repeatable(cfg, executed[i].call) && Repeatable(cfg, executed[j].call)
  }

  /** What has run under a batch's id are calls of that batch. */
  ghost predicate Accounts(w: World, b: PendingToolBatch) {
    forall e | e in w.executed && e.batch == b.batchId :: e.call in b.toolCalls
  }

  ghost predicate NotBegun(w: World, b: PendingToolBatch) {
    forall e | e in w.executed :: e.batch != b.batchId
  }

  ghost predicate ToolsInv(cfg: Config, w: World, b: PendingToolBatch)
    requires w.proc.Up?
  {
    && w.proc.entry <= SkippedIds(b) <= w.proc.entry + w.proc.started
    && (forall e | e in w.executed && e.batch == b.batchId && UnsafeCall(cfg, e.call) ::
          e.call.id in w.proc.entry + w.proc.started)
    && w.durable.Some? && w.durable.value.pendingBatch.Some?
    && w.durable.value.pendingBatch.value.batchId == b.batchId
    && w.durable.value.pendingBatch.value.toolCalls == b.toolCalls
  }

  /** Within one batch, commits are only added. */
  ghost predicate CommitsGrow(s: QueryLoopState, t: QueryLoopState) {
    s.pendingBatch.Some? && t.pendingBatch.Some? && s.pendingBatch.value.batchId == t.pendingBatch.value.batchId ==>
      forall id | id in s.pendingBatch.value.committedIds :: id in t.pendingBatch.value.committedIds
  }

  ghost predicate ProcessInv(cfg: Config, w: World)
    requires w.proc.Up?
  {
    var s := w.proc.state;
    && (w.proc.resumedBatch ==> s.phase == ExecutingTools || s.phase == Terminal)
    && (w.durable.Some? ==> CommitsGrow(w.durable.value, s))
    && (s.pendingBatch.Some? ==>
          var b := s.pendingBatch.value;
          && b.batchId.revision <= s.revision
          && Accounts(w, b)
          && (if Settled(w.proc.pc) == InTools then ToolsInv(cfg, w, b)
              else w.proc.resumedBatch || NotBegun(w, b)))
  }

  ghost predicate Executions(cfg: Config, w: World) {
    && AtMostOnce(cfg, w.executed)
    && (forall e | e in w.executed :: w.durable.Some? && e.batch.revision <= w.durable.value.revision)
    && (w.durable.Some? && w.durable.value.pendingBatch.Some? ==>
          && w.durable.value.pendingBatch.value.batchId.revision <= w.durable.value.revision
          && Accounts(w, w.durable.value.pendingBatch.value))
    && (w.proc.Up? ==> ProcessInv(cfg, w))
  }

  ghost predicate LoopInv(cfg: Config, w: World) {
    Sound(cfg, w) && Outbox(w) && Executions(cfg, w)
  }

  lemma SkippedAreCommitted(b: PendingToolBatch)
    requires BatchInv(b)
    ensures SkippedIds(b) == set id | id in b.committedIds
  {
    forall id | id in b.committedIds ensures id in SkippedIds(b) {
      var i :| 0 <= i < |b.committedIds| && b.committedIds[i] == id;
      assert b.committedResults[i] in b.committedResults;
    }
  }

  /** An advance that drops the batch, or leaves the phase outside tool execution. */
  lemma AdoptWithoutBatch(cfg: Config, w: World, advanced: Result<QueryLoopState, AdvanceError>, next: Pc)
    requires Executions(cfg, w) && w.proc.Up? && advanced.Ok?
    requires advanced.value.pendingBatch.None?
    requires w.proc.resumedBatch ==> advanced.value.phase == Terminal
    ensures Executions(cfg, Adopt(w, advanced, next))
  {
  }

  lemma BootKeepsExecutions(cfg: Config, w: World, candidate: nat)
    requires Sound(cfg, w) && Executions(cfg, w)
    ensures Executions(cfg, StepBoot(cfg, w, candidate))
  {
  }

  lemma PersistKeepsExecutions(cfg: Config, w: World)
    requires LoopInv(cfg, w)
    ensures Executions(cfg, StepPersist(w))
  {
  }

  lemma ModelLeavesBatch(cfg: Config, s: QueryLoopState, outcome: ModelOutcome)
    requires s.candidate < |cfg.candidates| && (outcome.Responded? ==> outcome.response.AI?)
    requires s.pendingBatch.None? && AfterModel(cfg, s, outcome).Ok?
    ensures var b := AfterModel(cfg, s, outcome).value.pendingBatch;
            b.Some? ==> b.value.batchId.revision == s.revision + 1 && b.value.committedIds == []
  {
  }

  lemma CallModelKeepsExecutions(cfg: Config, w: World, outcome: ModelOutcome)
    requires WellConfigured(cfg) && LoopInv(cfg, w) && Admissible(cfg, w, CallModel(outcome))
    ensures Executions(cfg, StepCallModel(cfg, w, outcome))
  {
    if AtTop(w, CallingModel) {
      CallModelKeeps(cfg, w, outcome);
      if AfterModel(cfg, w.proc.state, outcome).Ok? {
        ModelLeavesBatch(cfg, w.proc.state, outcome);
      }
    }
  }

  /** Outside tool execution and after it the process has no batch and no resumed one. */
  lemma NoBatchInHand(cfg: Config, w: World)
    requires LoopInv(cfg, w) && w.proc.Up? && (w.proc.state.phase == Preparing || w.proc.state.phase == CallingModel)
    ensures w.proc.state.pendingBatch.None? && !w.proc.resumedBatch
  {
  }

  lemma HooksKeepExecutions(cfg: Config, w: World, hook: Option<HookResult>)
    requires LoopInv(cfg, w)
    ensures Executions(cfg, StepBeforeTurn(cfg, w, hook))
  {
    if HookCursor(cfg, w).Some? {
      NoBatchInHand(cfg, w);
    }
  }

  lemma BeginTurnKeepsExecutions(cfg: Config, w: World, delta: nat)
    requires LoopInv(cfg, w)
    ensures Executions(cfg, StepBeginTurn(cfg, w, delta))
  {
    if HookCursor(cfg, w).Some? {
      NoBatchInHand(cfg, w);
    }
  }

  lemma EndingKeepsExecutions(cfg: Config, w: World)
    requires LoopInv(cfg, w)
    ensures Executions(cfg, StepReachMaxTurns(cfg, w)) && Executions(cfg, StepStopByHook(w))
  {
    if w.proc.Up? {
      var reason := if w.proc.pc.HookStop? && w.proc.pc.cancelled then TerminalReason.Cancelled
                    else if w.proc.pc.HookStop? then HookStopped else MaxTurns;
      if w.proc.state.phase == Preparing {
        EndingKeeps(cfg, w.proc.state, reason);
        AdoptWithoutBatch(cfg, w, Ending(w.proc.state, reason), if w.proc.pc.HookStop? then Done else Top);
      }
    }
  }

  lemma ClearKeepsExecutions(cfg: Config, w: World)
    requires LoopInv(cfg, w)
    ensures Executions(cfg, StepClearOutbox(w))
  {
  }

  lemma GovernKeepsExecutions(cfg: Config, w: World, action: StopAction, stopMessages: seq<Message>)
    requires LoopInv(cfg, w) && AllPlain(stopMessages)
    ensures Executions(cfg, StepGovernStop(w, action, stopMessages))
  {
    if AtTop(w, StopGovernance) {
      GovernanceKeeps(cfg, w.proc.state, action, stopMessages);
      AdoptWithoutBatch(cfg, w, AfterGovernance(w.proc.state, action, stopMessages), Top);
    }
  }

  /** A resumed batch goes on only when no unsafe call is left uncommitted. */
  lemma EnterToolsKeepsExecutions(cfg: Config, w: World)
    requires LoopInv(cfg, w)
    ensures Executions(cfg, StepEnterTools(cfg, w))
  {
    if AtTop(w, ExecutingTools) {
      SkippedAreCommitted(w.proc.state.pendingBatch.value);
    }
  }

  lemma SameIdSameCall(calls: seq<ToolCall>, a: ToolCall, b: ToolCall)
    requires GoodIds(calls) && a in calls && b in calls && a.id == b.id
    ensures a == b
  {
  }

  lemma StartKeepsExecutions(cfg: Config, w: World, index: nat, admitted: bool)
    requires LoopInv(cfg, w)
    ensures Executions(cfg, StepStartTool(cfg, w, index, admitted))
  {
    var w' := StepStartTool(cfg, w, index, admitted);
    if w'.executed != w.executed {
      var b := w.proc.state.pendingBatch.value;
      var call := b.toolCalls[index];
      forall e | e in w.executed && e.batch == b.batchId && e.call.id == call.id
        ensures !UnsafeCall(cfg, e.call) && e.call == call
      {
        SameIdSameCall(b.toolCalls, e.call, call);
      }
    }
  }

  lemma CommitKeepsExecutions(cfg: Config, w: World, index: nat, content: string, ref: Option<string>)
    requires LoopInv(cfg, w)
    ensures Executions(cfg, StepCommitTool(w, index, content, ref))
  {
    if RunningTools(w) && w.proc.pc == InTools {
      var b := w.proc.state.pendingBatch.value;
      if index < |b.toolCalls| && b.toolCalls[index].id in w.proc.started && b.toolCalls[index].id !in b.committedIds {
        CommitToolKeeps(cfg, w, index, content, ref);
        var b' := StepCommitTool(w, index, content, ref).proc.state.pendingBatch.value;
        SkippedAreCommitted(b);
        SkippedAreCommitted(b');
      }
    }
  }

  lemma CalmKeepsExecutions(cfg: Config, w: World)
    requires Executions(cfg, w) && w.proc.Up? && w.proc.pc == InTools
    ensures Executions(cfg, Calm(w))
  {
  }

  lemma FinishKeepsExecutions(cfg: Config, w: World, r: BatchReport)
    requires LoopInv(cfg, w) && Admissible(cfg, w, FinishBatch(r))
    ensures Executions(cfg, StepFinishBatch(cfg, w, r))
  {
    FinishAdopts(cfg, w, r);
    if StepFinishBatch(cfg, w, r) != w {
      var s := w.proc.state;
      BatchLeaves(cfg, s, s.pendingBatch.value, r);
      CalmKeepsExecutions(cfg, w);
      AdoptWithoutBatch(cfg, Calm(w), AfterBatch(cfg, s, s.pendingBatch.value, r), if r.cancelled then Done else Top);
    }
  }

  lemma StepKeepsExecutions(cfg: Config, w: World, l: Label)
    requires WellConfigured(cfg) && LoopInv(cfg, w)
    ensures Executions(cfg, Step(cfg, w, l))
  {
    if Admissible(cfg, w, l) {
      match l
      case Boot(candidate) => BootKeepsExecutions(cfg, w, candidate);
      case Persist => PersistKeepsExecutions(cfg, w);
      case ClearOutbox => ClearKeepsExecutions(cfg, w);
      case ReachMaxTurns => EndingKeepsExecutions(cfg, w);
      case BeforeTurn(hook) => HooksKeepExecutions(cfg, w, hook);
      case StopByHook => EndingKeepsExecutions(cfg, w);
      case BeginTurn(delta) => BeginTurnKeepsExecutions(cfg, w, delta);
      case CallModel(outcome) => CallModelKeepsExecutions(cfg, w, outcome);
      case GovernStop(action, stopMessages) => GovernKeepsExecutions(cfg, w, action, stopMessages);
      case EnterTools => EnterToolsKeepsExecutions(cfg, w);
      case StartTool(index, admitted) => StartKeepsExecutions(cfg, w, index, admitted);
      case CommitTool(index, content, ref) => CommitKeepsExecutions(cfg, w, index, content, ref);
      case FinishBatch(report) => FinishKeepsExecutions(cfg, w, report);
      case _ =>
    }
  }

  lemma StepKeepsLoopInv(cfg: Config, w: World, l: Label)
    requires WellConfigured(cfg) && LoopInv(cfg, w)
    ensures LoopInv(cfg, Step(cfg, w, l))
  {
    StepKeepsSound(cfg, w, l);
    StepKeepsOutbox(cfg, w, l);
    StepKeepsExecutions(cfg, w, l);
  }

  lemma {:induction false} EveryRunKeepsLoopInv(cfg: Config, labels: seq<Label>)
    requires WellConfigured(cfg)
    ensures LoopInv(cfg, Run(cfg, FIRST_WORLD, labels))
    decreases |labels|
  {
    EveryRunIsSound(cfg, labels);
    EveryRunKeepsOutbox(cfg, labels);
    if labels != [] {
      var last := |labels| - 1;
      EveryRunKeepsLoopInv(cfg, labels[..last]);
      StepKeepsExecutions(cfg, Run(cfg, FIRST_WORLD, labels[..last]), labels[last]);
    }
  }

  /** Over every run, a call of a known tool that is neither read-only nor idempotent begins at most once. */
  lemma UnsafeToolsRunAtMostOnce(cfg: Config, labels: seq<Label>, i: nat, j: nat)
    requires WellConfigured(cfg)
    requires var executed := Run(cfg, FIRST_WORLD, labels).executed;
      && i < |executed| && j < |executed|
      && executed[i].batch == executed[j].batch && executed[i].call.id == executed[j].call.id
      && executed[i].call.name in cfg.tools
      && !cfg.tools[executed[i].call.name].readOnly && !cfg.tools[executed[i].call.name].idempotent
    ensures i == j
  {
    EveryRunKeepsLoopInv(cfg, labels);
  }

  // ------------------------------------------------------------------- the resume guard

  /** Positions of a batch's calls, in call order. */
  ghost predicate Ascending(at: seq<nat>) {
    forall k, l | 0 <= k < l < |at| :: at[k] < at[l]
  }

  /** A call that may not be repeated and has no committed result. */
  predicate BlocksReplay(cfg: Config, call: ToolCall, committed: seq<string>) {
    && call.id !in committed
    && call.name in cfg.tools && !cfg.tools[call.name].readOnly && !cfg.tools[call.name].idempotent
  }

  /** The positions from `i` on of the calls that block a replay. */
  function Blockers(cfg: Config, calls: seq<ToolCall>, committed: seq<string>, i: nat): (at: seq<nat>)
    requires i <= |calls|
    ensures forall k | 0 <= k < |at| :: i <= at[k] < |calls|
    decreases |calls| - i
  {
    if i == |calls| then []
    else
      var rest := Blockers(cfg, calls, committed, i + 1);
      if BlocksReplay(cfg, calls[i], committed) then [i] + rest else rest
  }

  lemma {:induction false} BlockersAre(cfg: Config, calls: seq<ToolCall>, committed: seq<string>, i: nat)
    requires i <= |calls|
    ensures Ascending(Blockers(cfg, calls, committed, i))
    ensures forall j: nat :: j in Blockers(cfg, calls, committed, i) <==>
              i <= j < |calls| && BlocksReplay(cfg, calls[j], committed)
    decreases |calls| - i
  {
    if i < |calls| {
      BlockersAre(cfg, calls, committed, i + 1);
    }
  }

  function IdsOf(calls: seq<ToolCall>, at: seq<nat>): seq<string>
    requires forall k | 0 <= k < |at| :: at[k] < |calls|
  {
    if at == [] then [] else [calls[at[0]].id] + IdsOf(calls, at[1..])
  }

  lemma IdsOfFirst(calls: seq<ToolCall>, i: nat, rest: seq<nat>)
    requires i < |calls| && forall k | 0 <= k < |rest| :: rest[k] < |calls|
    ensures IdsOf(calls, [i] + rest) == [calls[i].id] + IdsOf(calls, rest)
  {
    assert ([i] + rest)[1..] == rest;
  }

  /** The guard lists the ids of exactly the calls that block a replay, in call order. */
  lemma {:induction false} GuardListsBlockers(cfg: Config, calls: seq<ToolCall>, committed: seq<string>, i: nat)
    requires i <= |calls|
    ensures UnsafeUncommitted(cfg, calls[i..], committed) == IdsOf(calls, Blockers(cfg, calls, committed, i))
    decreases |calls| - i
  {
    if i < |calls| {
      var rest := Blockers(cfg, calls, committed, i + 1);
      GuardListsBlockers(cfg, calls, committed, i + 1);
      IdsOfFirst(calls, i, rest);
      assert calls[i..][0] == calls[i] && calls[i..][1..] == calls[i + 1..];
    }
  }

  lemma FindBlockers(cfg: Config, calls: seq<ToolCall>, committed: seq<string>) returns (at: seq<nat>)
    ensures Ascending(at) && (forall k | 0 <= k < |at| :: at[k] < |calls|)
    ensures forall i: nat :: i in at <==> i < |calls| && BlocksReplay(cfg, calls[i], committed)
    ensures UnsafeUncommitted(cfg, calls, committed) == IdsOf(calls, at)
    ensures at == [] <==> IdsOf(calls, at) == []
  {
    at := Blockers(cfg, calls, committed, 0);
    BlockersAre(cfg, calls, committed, 0);
    GuardListsBlockers(cfg, calls, committed, 0);
    assert calls[0..] == calls;
  }

  lemma EntersOrRefuses(cfg: Config, w: World)
    requires AtTop(w, ExecutingTools) && w.proc.resumedBatch
    requires w.proc.state.pendingBatch.Some? && w.proc.state.terminal.None?
    ensures var b, w' := w.proc.state.pendingBatch.value, StepEnterTools(cfg, w);
      var unsafe := UnsafeUncommitted(cfg, b.toolCalls, b.committedIds);
      && w'.proc.Up?
      && if unsafe == [] then w'.proc.pc == InTools && w'.proc.state == w.proc.state
         else
           && w'.proc.state.phase == Terminal && w'.proc.state.pendingBatch.None?
           && w'.proc.state.messages == w.proc.state.messages
           && w'.proc.state.terminal == Some(QueryTerminal(HookStopped, UnsafeReplay(unsafe)))
  {
  }

  /**
   * A resumed batch is refused if and only if some call without a committed result has a
   * known tool that is neither read-only nor idempotent. The refusal names exactly the calls
   * of that kind, in call order; otherwise the batch is entered.
   */
  lemma ResumeGuard(cfg: Config, w: World) returns (at: seq<nat>)
    requires AtTop(w, ExecutingTools) && w.proc.resumedBatch
    requires w.proc.state.pendingBatch.Some? && w.proc.state.terminal.None?
    ensures var b, w' := w.proc.state.pendingBatch.value, StepEnterTools(cfg, w);
      && Ascending(at) && (forall i: nat :: i in at <==> i < |b.toolCalls| && BlocksReplay(cfg, b.toolCalls[i], b.committedIds))
      && (forall k | 0 <= k < |at| :: at[k] < |b.toolCalls|)
      && w'.proc.Up?
      && if at == [] then w'.proc.pc == InTools && w'.proc.state == w.proc.state
         else
           && w'.proc.state.phase == Terminal && w'.proc.state.pendingBatch.None?
           && w'.proc.state.messages == w.proc.state.messages
           && w'.proc.state.terminal == Some(QueryTerminal(HookStopped, UnsafeReplay(IdsOf(b.toolCalls, at))))
  {
    var b := w.proc.state.pendingBatch.value;
    at := FindBlockers(cfg, b.toolCalls, b.committedIds);
    EntersOrRefuses(cfg, w);
  }

  ghost predicate HasResult(b: PendingToolBatch, id: string) {
    exists k :: 0 <= k < |b.committedResults| && b.committedResults[k].Tool? && b.committedResults[k].callId == id
  }

  /** A batch of this process's own turn is entered whatever its calls are. */
  lemma FreshBatchIsEntered(cfg: Config, w: World)
    requires AtTop(w, ExecutingTools) && !w.proc.resumedBatch && w.proc.state.pendingBatch.Some?
    ensures var b, w' := w.proc.state.pendingBatch.value, StepEnterTools(cfg, w);
      && w'.proc.Up? && w'.proc.pc == InTools && w'.proc.state == w.proc.state && w'.proc.started == {}
      && forall id :: id in w'.proc.entry <==> HasResult(b, id)
  {
    var b, w' := w.proc.state.pendingBatch.value, StepEnterTools(cfg, w);
    forall id | id in w'.proc.entry ensures HasResult(b, id) {
      var m :| m in b.committedResults && m.Tool? && m.callId == id;
      var k :| 0 <= k < |b.committedResults| && b.committedResults[k] == m;
    }
  }

  /** The committed ids, the committed results and the calls a resumed batch skips are one set. */
  lemma CommittedNamesAgree(cfg: Config, labels: seq<Label>)
    requires WellConfigured(cfg)
    ensures var w := Run(cfg, FIRST_WORLD, labels);
            w.durable.Some? && w.durable.value.pendingBatch.Some? ==>
              var b := w.durable.value.pendingBatch.value;
              && SkippedIds(b) == (set id | id in b.committedIds) <= IdSet(b.toolCalls)
              && |b.committedIds| == |b.committedResults| == |SkippedIds(b)|
  {
    EveryRunIsSound(cfg, labels);
    var w := Run(cfg, FIRST_WORLD, labels);
    if w.durable.Some? && w.durable.value.pendingBatch.Some? {
      var b := w.durable.value.pendingBatch.value;
      SkippedAreCommitted(b);
      DistinctCount(b.committedIds);
    }
  }

  /** Call `id` of batch `batch` is committed, or the batch is already behind the durable state. */
  ghost predicate Frozen(w: World, batch: BatchId, id: string) {
    && w.durable.Some? && batch.revision <= w.durable.value.revision
    && HoldsCommit(w.durable.value, batch, id)
    && (w.proc.Up? ==> HoldsCommit(w.proc.state, batch, id))
  }

  ghost predicate HoldsCommit(s: QueryLoopState, batch: BatchId, id: string) {
    s.pendingBatch.Some? && s.pendingBatch.value.batchId == batch ==> id in s.pendingBatch.value.committedIds
  }

  lemma AdoptKeepsFrozen(w: World, advanced: Result<QueryLoopState, AdvanceError>, next: Pc, batch: BatchId, id: string)
    requires Frozen(w, batch, id) && w.proc.Up? && advanced.Ok? && HoldsCommit(advanced.value, batch, id)
    ensures Frozen(Adopt(w, advanced, next), batch, id)
  {
  }

  lemma FinishKeepsFrozen(cfg: Config, w: World, r: BatchReport, batch: BatchId, id: string)
    requires LoopInv(cfg, w) && Frozen(w, batch, id) && Admissible(cfg, w, FinishBatch(r))
    ensures Frozen(StepFinishBatch(cfg, w, r), batch, id)
  {
    FinishAdopts(cfg, w, r);
    if StepFinishBatch(cfg, w, r) != w {
      var s := w.proc.state;
      BatchLeaves(cfg, s, s.pendingBatch.value, r);
      AdoptKeepsFrozen(
        Calm(w), AfterBatch(cfg, s, s.pendingBatch.value, r), if r.cancelled then Done else Top, batch, id);
    }
  }

  lemma ModelKeepsFrozen(cfg: Config, w: World, outcome: ModelOutcome, batch: BatchId, id: string)
    requires WellConfigured(cfg) && LoopInv(cfg, w) && Frozen(w, batch, id) && Admissible(cfg, w, CallModel(outcome))
    ensures Frozen(StepCallModel(cfg, w, outcome), batch, id)
  {
    if AtTop(w, CallingModel) && AfterModel(cfg, w.proc.state, outcome).Ok? {
      ModelLeavesBatch(cfg, w.proc.state, outcome);
      AdoptKeepsFrozen(w, AfterModel(cfg, w.proc.state, outcome),
                       if outcome == Interrupted(CancelledCall) then Done else Top, batch, id);
    }
  }

  lemma GovernKeepsFrozen(cfg: Config, w: World, action: StopAction, stopMessages: seq<Message>, batch: BatchId, id: string)
    requires LoopInv(cfg, w) && Frozen(w, batch, id) && AllPlain(stopMessages)
    ensures Frozen(StepGovernStop(w, action, stopMessages), batch, id)
  {
    if AtTop(w, StopGovernance) {
      GovernanceKeeps(cfg, w.proc.state, action, stopMessages);
      AdoptKeepsFrozen(w, AfterGovernance(w.proc.state, action, stopMessages), Top, batch, id);
    }
  }

  lemma ToolsKeepFrozen(cfg: Config, w: World, index: nat, content: string, ref: Option<string>, batch: BatchId, id: string)
    requires Frozen(w, batch, id)
    ensures Frozen(StepEnterTools(cfg, w), batch, id) && Frozen(StepCommitTool(w, index, content, ref), batch, id)
  {
  }

  lemma ControlKeepsFrozen(cfg: Config, w: World, l: Label, batch: BatchId, id: string)
    requires LoopInv(cfg, w) && Frozen(w, batch, id)
    requires l.Boot? || l.Crash? || l.Persist? || l.Deliver? || l.ClearOutbox? || l.Complete? || l.StartTool?
    ensures Frozen(Step(cfg, w, l), batch, id)
  {
  }

  lemma PreparingKeepsFrozen(cfg: Config, w: World, l: Label, batch: BatchId, id: string)
    requires Frozen(w, batch, id)
    requires l.ReachMaxTurns? || l.BeforeTurn? || l.StopByHook? || l.BeginTurn?
    ensures Frozen(Step(cfg, w, l), batch, id)
  {
  }

  lemma StepKeepsFrozen(cfg: Config, w: World, l: Label, batch: BatchId, id: string)
    requires WellConfigured(cfg) && LoopInv(cfg, w) && Frozen(w, batch, id)
    ensures Frozen(Step(cfg, w, l), batch, id)
  {
    if Admissible(cfg, w, l) {
      match l
      case CallModel(outcome) => ModelKeepsFrozen(cfg, w, outcome, batch, id);
      case GovernStop(action, stopMessages) => GovernKeepsFrozen(cfg, w, action, stopMessages, batch, id);
      case FinishBatch(r) => FinishKeepsFrozen(cfg, w, r, batch, id);
      case EnterTools => ToolsKeepFrozen(cfg, w, 0, "", None, batch, id);
      case CommitTool(index, content, ref) => ToolsKeepFrozen(cfg, w, index, content, ref, batch, id);
      case ReachMaxTurns => PreparingKeepsFrozen(cfg, w, l, batch, id);
      case BeforeTurn(_) => PreparingKeepsFrozen(cfg, w, l, batch, id);
      case StopByHook => PreparingKeepsFrozen(cfg, w, l, batch, id);
      case BeginTurn(_) => PreparingKeepsFrozen(cfg, w, l, batch, id);
      case _ => ControlKeepsFrozen(cfg, w, l, batch, id);
    }
  }

  ghost predicate Spares(w: World, w': World, batch: BatchId, id: string) {
    && w.executed <= w'.executed
    && forall k | |w.executed| <= k < |w'.executed| ::
         w'.executed[k].batch != batch || w'.executed[k].call.id != id
  }

  /** A frozen call of the batch in hand was committed before or during this process. */
  lemma FrozenIsSkipped(cfg: Config, w: World, batch: BatchId, id: string)
    requires LoopInv(cfg, w) && Frozen(w, batch, id) && RunningTools(w)
    requires w.proc.state.pendingBatch.value.batchId == batch
    ensures id in w.proc.entry + w.proc.started
  {
    SkippedAreCommitted(w.proc.state.pendingBatch.value);
  }

  lemma StartSparesFrozen(cfg: Config, w: World, index: nat, admitted: bool, batch: BatchId, id: string)
    requires LoopInv(cfg, w) && Frozen(w, batch, id)
    ensures Spares(w, StepStartTool(cfg, w, index, admitted), batch, id)
  {
    if RunningTools(w) && w.proc.state.pendingBatch.value.batchId == batch {
      FrozenIsSkipped(cfg, w, batch, id);
    }
  }

  /** Only starting a tool adds an execution. */
  lemma OthersDoNotExecute(cfg: Config, w: World, l: Label)
    requires !l.StartTool?
    ensures Step(cfg, w, l).executed == w.executed
  {
  }

  lemma StepSparesFrozen(cfg: Config, w: World, l: Label, batch: BatchId, id: string)
    requires WellConfigured(cfg) && LoopInv(cfg, w) && Frozen(w, batch, id)
    ensures LoopInv(cfg, Step(cfg, w, l)) && Frozen(Step(cfg, w, l), batch, id)
    ensures Spares(w, Step(cfg, w, l), batch, id)
  {
    StepKeepsLoopInv(cfg, w, l);
    StepKeepsFrozen(cfg, w, l, batch, id);
    if l.StartTool? {
      StartSparesFrozen(cfg, w, l.index, l.admitted, batch, id);
    } else {
      OthersDoNotExecute(cfg, w, l);
    }
  }

  /**
   * Once a call's result is durable, no later step of any continuation, crashing and
   * resuming as it may, runs that call of that batch again.
   */
  lemma {:induction false} CommittedNeverRunsAgain(cfg: Config, w: World, after: seq<Label>, batch: BatchId, id: string)
    requires WellConfigured(cfg) && LoopInv(cfg, w) && Frozen(w, batch, id)
    ensures LoopInv(cfg, Run(cfg, w, after)) && Frozen(Run(cfg, w, after), batch, id)
    ensures Spares(w, Run(cfg, w, after), batch, id)
    decreases |after|
  {
    if after != [] {
      var last := |after| - 1;
      CommittedNeverRunsAgain(cfg, w, after[..last], batch, id);
      StepSparesFrozen(cfg, Run(cfg, w, after[..last]), after[last], batch, id);
      SparesTransitive(w, Run(cfg, w, after[..last]), Run(cfg, w, after), batch, id);
    }
  }

  lemma SparesTransitive(a: World, b: World, c: World, batch: BatchId, id: string)
    requires Spares(a, b, batch, id) && Spares(b, c, batch, id)
    ensures Spares(a, c, batch, id)
  {
    forall k | |a.executed| <= k < |c.executed|
      ensures c.executed[k].batch != batch || c.executed[k].call.id != id
    {
      if k < |b.executed| {
        assert c.executed[k] == b.executed[k];
      }
    }
  }

  /** A durable commit is frozen from the moment it is durable. */
  lemma DurableCommitIsFrozen(cfg: Config, w: World, id: string)
    requires LoopInv(cfg, w) && w.durable.Some? && w.durable.value.pendingBatch.Some?
    requires id in w.durable.value.pendingBatch.value.committedIds
    ensures Frozen(w, w.durable.value.pendingBatch.value.batchId, id)
  {
  }
}
