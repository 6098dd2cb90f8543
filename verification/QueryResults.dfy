/** What a tool batch gives the transcript, over whole runs: committed outcomes, or one error for each call. */
module QueryResults {
  import opened Wrappers
  import opened Transcript
  import opened ToolCallIds
  import opened ToolBatch
  import opened QueryState
  import opened QueryLoop
  import opened QueryGrammar

  // ------------------------------------------------------- where a batch comes from

  ghost predicate InHand(w: World, b: PendingToolBatch) {
    w.proc.Up? && w.proc.state.pendingBatch == Some(b)
  }

  ghost predicate Stored(w: World, b: PendingToolBatch) {
    w.durable.Some? && w.durable.value.pendingBatch == Some(b)
  }

  ghost predicate Untouched(b: PendingToolBatch) {
    b.committedIds == [] && b.committedResults == []
  }

  /** `l` commits call `call` of the batch in hand. */
  ghost predicate Commits(w: World, l: Label, call: ToolCall) {
    && l.CommitTool? && RunningTools(w) && w.proc.pc == InTools
    && var b := w.proc.state.pendingBatch.value;
      && l.index < |b.toolCalls| && b.toolCalls[l.index] == call
      && call.id in w.proc.started && call.id !in b.committedIds
  }

  ghost predicate CommittedBy(w: World, l: Label, b: PendingToolBatch) {
    exists call ::
      && Commits(w, l, call)
      && var old_ := w.proc.state.pendingBatch.value;
        && b.batchId == old_.batchId && b.toolCalls == old_.toolCalls
        && b.committedIds == old_.committedIds + [call.id]
        && b.committedResults == old_.committedResults + [Tool(call.id, call.name, l.content)]
  }

  /** A batch present after a step was there before, is new, or has one more commit. */
  ghost predicate Descended(w: World, l: Label, w': World) {
    forall b | InHand(w', b) || Stored(w', b) :: InHand(w, b) || Stored(w, b) || Untouched(b) || CommittedBy(w, l, b)
  }

  lemma AdoptDescends(w: World, l: Label, advanced: Result<QueryLoopState, AdvanceError>, next: Pc)
    requires w.proc.Up?
    requires advanced.Ok? ==>
               || advanced.value.pendingBatch.None? || advanced.value.pendingBatch == w.proc.state.pendingBatch
               || Untouched(advanced.value.pendingBatch.value)
    ensures Descended(w, l, Adopt(w, advanced, next))
  {
  }

  lemma ControlDescends(cfg: Config, w: World, l: Label)
    requires l.Boot? || l.Crash? || l.Persist? || l.Deliver? || l.ClearOutbox? || l.Complete? || l.StartTool?
    ensures Descended(w, l, Step(cfg, w, l))
  {
  }

  lemma PreparingDescends(cfg: Config, w: World, l: Label)
    requires l.ReachMaxTurns? || l.BeforeTurn? || l.StopByHook? || l.BeginTurn?
    ensures Descended(w, l, Step(cfg, w, l))
  {
  }

  lemma ModelBatch(cfg: Config, s: QueryLoopState, outcome: ModelOutcome)
    requires s.candidate < |cfg.candidates| && (outcome.Responded? ==> outcome.response.AI?)
    requires AfterModel(cfg, s, outcome).Ok?
    ensures var b := AfterModel(cfg, s, outcome).value.pendingBatch;
            b.None? || b == s.pendingBatch || Untouched(b.value)
  {
  }

  lemma ModelDescends(cfg: Config, w: World, outcome: ModelOutcome)
    ensures Descended(w, CallModel(outcome), StepCallModel(cfg, w, outcome))
  {
    if AtTop(w, CallingModel) && w.proc.state.candidate < |cfg.candidates| && (outcome.Responded? ==> outcome.response.AI?) {
      if AfterModel(cfg, w.proc.state, outcome).Ok? {
        ModelBatch(cfg, w.proc.state, outcome);
      }
      AdoptDescends(w, CallModel(outcome), AfterModel(cfg, w.proc.state, outcome),
                    if outcome == Interrupted(CancelledCall) then Done else Top);
    }
  }

  lemma GovernDescends(w: World, action: StopAction, stopMessages: seq<Message>)
    ensures Descended(w, GovernStop(action, stopMessages), StepGovernStop(w, action, stopMessages))
  {
  }

  lemma EnterToolsDescends(cfg: Config, w: World)
    ensures Descended(w, EnterTools, StepEnterTools(cfg, w))
  {
  }

  lemma CommitDescends(w: World, index: nat, content: string, ref: Option<string>)
    ensures Descended(w, CommitTool(index, content, ref), StepCommitTool(w, index, content, ref))
  {
    if RunningTools(w) && w.proc.pc == InTools && index < |w.proc.state.pendingBatch.value.toolCalls| {
      var call := w.proc.state.pendingBatch.value.toolCalls[index];
      if call.id in w.proc.started && call.id !in w.proc.state.pendingBatch.value.committedIds {
        assert Commits(w, CommitTool(index, content, ref), call);
      }
    }
  }

  lemma FinishDescends(cfg: Config, w: World, r: BatchReport)
    ensures Descended(w, FinishBatch(r), StepFinishBatch(cfg, w, r))
  {
    if w.proc.Up? && w.proc.state.pendingBatch.Some? {
      var s, b := w.proc.state, w.proc.state.pendingBatch.value;
      var calm := w.(proc := w.proc.(resumedBatch := false));
      SettledHasNoBatch(s, ClosedMessages(cfg, s, b, r), BatchEvent(cfg, s, b, r), BatchQuality(s, r), GoesOn(cfg, b, r),
                        BatchReason(cfg, b, r));
      AdoptDescends(calm, FinishBatch(r), AfterBatch(cfg, s, b, r), if r.cancelled then Done else Top);
    }
  }

  lemma SettledHasNoBatch(
      s: QueryLoopState, messages: seq<Message>, event: PendingQueryEvent, quality: QualityRecoveryState, goesOn: bool,
      reason: TerminalReason)
    ensures var r := BatchSettled(s, messages, event, quality, goesOn, reason);
            r.Ok? ==> r.value.pendingBatch.None?
  {
  }

  lemma StepDescends(cfg: Config, w: World, l: Label)
    ensures Descended(w, l, Step(cfg, w, l))
  {
    if Admissible(cfg, w, l) {
      match l
      case CallModel(outcome) => ModelDescends(cfg, w, outcome);
      case GovernStop(action, stopMessages) => GovernDescends(w, action, stopMessages);
      case FinishBatch(r) => FinishDescends(cfg, w, r);
      case EnterTools => EnterToolsDescends(cfg, w);
      case CommitTool(index, content, ref) => CommitDescends(w, index, content, ref);
      case ReachMaxTurns => PreparingDescends(cfg, w, l);
      case BeforeTurn(_) => PreparingDescends(cfg, w, l);
      case StopByHook => PreparingDescends(cfg, w, l);
      case BeginTurn(_) => PreparingDescends(cfg, w, l);
      case _ => ControlDescends(cfg, w, l);
    }
  }

  // ------------------------------------------------------------------ over whole runs

  /** At label `k` of the run, `content` was committed as the outcome of call `id` of `batch`. */
  ghost predicate CommittedAt(cfg: Config, labels: seq<Label>, k: nat, batch: BatchId, id: string, content: string) {
    && k < |labels|
    && var w := Run(cfg, FIRST_WORLD, labels[..k]);
      exists call ::
        Commits(w, labels[k], call) && call.id == id
        && w.proc.state.pendingBatch.value.batchId == batch && labels[k].content == content
  }

  ghost predicate CommittedInRun(cfg: Config, labels: seq<Label>, batch: BatchId, id: string, content: string) {
    exists k: nat :: CommittedAt(cfg, labels, k, batch, id, content)
  }

  /** Every committed result of `b` was committed at some label of the run. */
  ghost predicate Traced(cfg: Config, labels: seq<Label>, b: PendingToolBatch) {
    && |b.committedIds| == |b.committedResults|
    && forall j | 0 <= j < |b.committedIds| ::
         CommittedInRun(cfg, labels, b.batchId, b.committedIds[j], b.committedResults[j].content)
  }

  lemma CommittedLonger(cfg: Config, labels: seq<Label>, l: Label, batch: BatchId, id: string, content: string)
    requires CommittedInRun(cfg, labels, batch, id, content)
    ensures CommittedInRun(cfg, labels + [l], batch, id, content)
  {
    var k: nat :| CommittedAt(cfg, labels, k, batch, id, content);
    assert (labels + [l])[..k] == labels[..k];
    assert CommittedAt(cfg, labels + [l], k, batch, id, content);
  }

  lemma TracedLonger(cfg: Config, labels: seq<Label>, l: Label, b: PendingToolBatch)
    requires Traced(cfg, labels, b)
    ensures Traced(cfg, labels + [l], b)
  {
    forall j | 0 <= j < |b.committedIds|
      ensures CommittedInRun(cfg, labels + [l], b.batchId, b.committedIds[j], b.committedResults[j].content)
    {
      CommittedLonger(cfg, labels, l, b.batchId, b.committedIds[j], b.committedResults[j].content);
    }
  }

  lemma CommitIsTraced(cfg: Config, labels: seq<Label>, l: Label, b: PendingToolBatch)
    requires CommittedBy(Run(cfg, FIRST_WORLD, labels), l, b)
    requires Traced(cfg, labels, Run(cfg, FIRST_WORLD, labels).proc.state.pendingBatch.value)
    ensures Traced(cfg, labels + [l], b)
  {
    var old_ := Run(cfg, FIRST_WORLD, labels).proc.state.pendingBatch.value;
    TracedLonger(cfg, labels, l, old_);
    assert (labels + [l])[..|labels|] == labels;
    var n := |old_.committedIds|;
    assert CommittedAt(cfg, labels + [l], |labels|, b.batchId, b.committedIds[n], b.committedResults[n].content);
    forall j | 0 <= j < |b.committedIds|
      ensures CommittedInRun(cfg, labels + [l], b.batchId, b.committedIds[j], b.committedResults[j].content)
    {
      if j < n {
        assert b.committedIds[j] == old_.committedIds[j] && b.committedResults[j] == old_.committedResults[j];
      }
    }
  }

  /** Over every run, crashing and resuming as it may, a batch holds only outcomes that were committed for it. */
  lemma {:induction false} EveryCommitIsTraced(cfg: Config, labels: seq<Label>)
    ensures var w := Run(cfg, FIRST_WORLD, labels);
            forall b | InHand(w, b) || Stored(w, b) :: Traced(cfg, labels, b)
    decreases |labels|
  {
    if labels != [] {
      var before, l := labels[..|labels| - 1], labels[|labels| - 1];
      var w := Run(cfg, FIRST_WORLD, before);
      EveryCommitIsTraced(cfg, before);
      StepDescends(cfg, w, l);
      assert before + [l] == labels;
      forall b | InHand(Step(cfg, w, l), b) || Stored(Step(cfg, w, l), b) ensures Traced(cfg, labels, b) {
        if InHand(w, b) || Stored(w, b) {
          TracedLonger(cfg, before, l, b);
        } else if CommittedBy(w, l, b) {
          assert InHand(w, w.proc.state.pendingBatch.value);
          CommitIsTraced(cfg, before, l, b);
        }
      }
    }
  }

  // -------------------------------------------------------------- one batch is finished

  lemma {:induction false} ResultFound(results: seq<Message>, id: string)
    requires exists m :: m in results && m.Tool? && m.callId == id
    ensures |ResultFor(results, id)| == 1 && ResultFor(results, id)[0] in results
    ensures ResultFor(results, id)[0].Tool? && ResultFor(results, id)[0].callId == id
    decreases |results|
  {
    if !(results[0].Tool? && results[0].callId == id) {
      var m :| m in results && m.Tool? && m.callId == id;
      assert m in results[1..];
      ResultFound(results[1..], id);
    }
  }

  lemma {:induction false} OutcomesFollowCalls(b: PendingToolBatch, calls: seq<ToolCall>)
    requires BatchInv(b) && forall c | c in calls :: c.id in b.committedIds
    ensures var out := DefaultOutcomes(calls, b.committedResults);
            && |out| == |calls|
            && forall i | 0 <= i < |calls| ::
                 out[i].Tool? && out[i].callId == calls[i].id && out[i] in b.committedResults
    decreases |calls|
  {
    if calls != [] {
      assert calls[0] in calls;
      var k :| 0 <= k < |b.committedIds| && b.committedIds[k] == calls[0].id;
      assert b.committedResults[k] in b.committedResults;
      ResultFound(b.committedResults, calls[0].id);
      OutcomesFollowCalls(b, calls[1..]);
    }
  }

  /** The calls whose outcomes the default path hands over. */
  function Returned(cfg: Config, b: PendingToolBatch, r: BatchReport): (n: nat)
    ensures n <= |b.toolCalls|
  {
    if r.lost then 0 else Runnable(cfg, b)
  }

  lemma MatchOrNone(candidates: seq<Message>, id: string)
    ensures Matches(candidates, id) == [] || exists m :: m in candidates && m.Tool? && m.callId == id
  {
    MatchesAreTools(candidates, id);
    if m :| m in Matches(candidates, id) {
      assert m in candidates;
    }
  }

  /** Among outcomes of the first `n` calls, in order, a call finds its own if it is one of those, else nothing. */
  lemma SettledAt(calls: seq<ToolCall>, n: nat, out: seq<Message>, missing: ToolErrorType, i: nat)
    requires GoodIds(calls) && n <= |calls| && Answers(calls[..n], out) && i < |calls|
    ensures ClosedResults(calls, out, missing)[i]
         == Tool(calls[i].id, calls[i].name, if i < n then out[i].content else ErrorText(missing))
  {
    if i < n {
      OrderedResultsPass(calls[..n], out, missing);
      assert ClosedResults(calls[..n], out, missing)[i] == ClosedResults(calls, out, missing)[i];
    } else {
      MatchOrNone(out, calls[i].id);
      assert forall j | 0 <= j < n :: out[j].callId == calls[..n][j].id == calls[j].id;
    }
  }

  /** The outcomes handed over are committed ones, one for each call that may run, in call order. */
  lemma CandidatesAreCommits(cfg: Config, b: PendingToolBatch, r: BatchReport)
    requires BatchInv(b) && MayFinish(cfg, b, r) && !r.custom && r.messages.None?
    ensures var n, out := Returned(cfg, b, r), Candidates(cfg, b, r);
      && Answers(b.toolCalls[..n], out)
      && forall i | 0 <= i < n :: out[i] in b.committedResults
  {
    if !r.lost {
      OutcomesFollowCalls(b, b.toolCalls[..Runnable(cfg, b)]);
    }
  }

  /** How many calls of a batch may run. */
  function Limited(cfg: Config, b: PendingToolBatch): nat {
    match cfg.maxBatch
    case Some(most) => if most < |b.toolCalls| then most else |b.toolCalls|
    case None => |b.toolCalls|
  }

  /** What a batch closes with: the hook's messages if it gave any, else the committed results of the calls that may run, in call order. */
  lemma HandedOver(cfg: Config, b: PendingToolBatch, r: BatchReport)
    requires BatchInv(b) && MayFinish(cfg, b, r)
    ensures var out := Candidates(cfg, b, r);
      match r.messages
      case Some(messages) => out == messages
      case None =>
        if r.custom || r.lost then out == []
        else
          && |out| == Limited(cfg, b)
          && forall i | 0 <= i < |out| :: out[i].Tool? && out[i].callId == b.toolCalls[i].id && out[i] in b.committedResults
  {
    if !r.custom && !r.lost {
      OutcomesFollowCalls(b, b.toolCalls[..Runnable(cfg, b)]);
    }
  }

  /** Which error a call without a result gets. */
  lemma MissingTypeIs(cfg: Config, b: PendingToolBatch, r: BatchReport)
    requires BatchInv(b) && MayFinish(cfg, b, r) && b.toolCalls != []
    ensures MissingType(cfg, b, r)
         == if r.cancelled then ToolErrorType.Cancelled
            else if r.hookFailed then RuntimeHookError
            else if cfg.maxBatch.Some? && (r.custom || cfg.maxBatch.value < |b.toolCalls|) then TaskCapacityExceeded
            else RuntimeMissingResult
  {
    if !r.custom && !r.lost {
      OutcomesFollowCalls(b, b.toolCalls[..Runnable(cfg, b)]);
    }
  }

  /** What is reported of a batch before its results are looked at: the calls beyond the limit, and how it broke off. */
  lemma InitialReports(cfg: Config, b: PendingToolBatch, r: BatchReport, d: Diagnostic)
    ensures d in InitialDefects(cfg, b, r) <==>
            match d.code
            case ToolBatchCapacityExceeded =>
              !r.custom && !r.lost && exists i :: Limited(cfg, b) <= i < |b.toolCalls| && d.callId == Some(b.toolCalls[i].id)
            case ToolBatchCancelled => r.cancelled && d.callId == None
            case ToolBatchHookError => !r.cancelled && r.hookFailed && d.callId == None
            case _ => false
  {
    var rest := b.toolCalls[Limited(cfg, b)..];
    assert forall i | Limited(cfg, b) <= i < |b.toolCalls| :: b.toolCalls[i] == rest[i - Limited(cfg, b)];
    assert forall k | 0 <= k < |rest| :: Overflow(rest)[k] == Diagnostic(ToolBatchCapacityExceeded, Some(rest[k].id));
  }

  /** Of the extra messages all but tool results pass, unless the batch broke off. */
  lemma ExtrasPass(r: BatchReport, m: Message)
    ensures m in BatchExtra(r) <==> !r.cancelled && !r.hookFailed && m in r.additional && !m.Tool?
  {
    AdditionalKeeps(r.additional, m);
  }

  lemma {:induction false} AdditionalKeeps(extra: seq<Message>, m: Message)
    ensures m in Additional(extra) <==> m in extra && !m.Tool?
    decreases |extra|
  {
    if extra != [] {
      var last := |extra| - 1;
      AdditionalKeeps(extra[..last], m);
      assert extra == extra[..last] + [extra[last]];
    }
  }

  lemma CommittedResultAt(b: PendingToolBatch, result: Message) returns (j: nat)
    requires BatchInv(b) && result in b.committedResults
    ensures j < |b.committedIds| && b.committedResults[j] == result && b.committedIds[j] == result.callId
  {
    j :| 0 <= j < |b.committedResults| && b.committedResults[j] == result;
  }

  /** Result `i` of the batch is what some label of the run committed for that call. */
  ghost predicate GivenByRun(cfg: Config, labels: seq<Label>, b: PendingToolBatch, i: nat, m: Message)
    requires i < |b.toolCalls|
  {
    && m.Tool? && m.callId == b.toolCalls[i].id && m.name == b.toolCalls[i].name
    && CommittedInRun(cfg, labels, b.batchId, b.toolCalls[i].id, m.content)
  }

  lemma TracedResult(cfg: Config, labels: seq<Label>, b: PendingToolBatch, i: nat, result: Message)
    requires BatchInv(b) && Traced(cfg, labels, b) && i < |b.toolCalls|
    requires result in b.committedResults && result.Tool? && result.callId == b.toolCalls[i].id
    ensures GivenByRun(cfg, labels, b, i, Tool(b.toolCalls[i].id, b.toolCalls[i].name, result.content))
  {
    var j := CommittedResultAt(b, result);
    assert CommittedInRun(cfg, labels, b.batchId, b.committedIds[j], b.committedResults[j].content);
  }

  lemma ResultAt(cfg: Config, labels: seq<Label>, b: PendingToolBatch, r: BatchReport, i: nat)
    requires BatchInv(b) && GoodIds(b.toolCalls) && Traced(cfg, labels, b) && i < |b.toolCalls|
    requires MayFinish(cfg, b, r) && !r.custom && r.messages.None?
    ensures var m := BatchResults(cfg, b, r)[i];
      if i < Returned(cfg, b, r) then GivenByRun(cfg, labels, b, i, m)
      else m == Tool(b.toolCalls[i].id, b.toolCalls[i].name, ErrorText(MissingType(cfg, b, r)))
  {
    var n, out := Returned(cfg, b, r), Candidates(cfg, b, r);
    CandidatesAreCommits(cfg, b, r);
    SettledAt(b.toolCalls, n, out, MissingType(cfg, b, r), i);
    if i < n {
      assert out[i].callId == b.toolCalls[..n][i].id;
      TracedResult(cfg, labels, b, i, out[i]);
    }
  }

  /** A result for each call: committed in the run where outcomes were returned, the error for missing ones elsewhere. */
  ghost predicate ResultsGiven(cfg: Config, labels: seq<Label>, b: PendingToolBatch, r: BatchReport) {
    var results, out := BatchResults(cfg, b, r), Candidates(cfg, b, r);
    && (forall i | 0 <= i < Returned(cfg, b, r) :: GivenByRun(cfg, labels, b, i, results[i]))
    && (forall i | Returned(cfg, b, r) <= i < |b.toolCalls| ::
          results[i] == Tool(b.toolCalls[i].id, b.toolCalls[i].name, ErrorText(MissingType(cfg, b, r))))
    && (Returned(cfg, b, r) == |b.toolCalls| ==> CandidateDefects(b.toolCalls, out) + CallDefects(b.toolCalls, out) == [])
  }

  lemma ResultsAreGiven(cfg: Config, labels: seq<Label>, b: PendingToolBatch, r: BatchReport)
    requires BatchInv(b) && GoodIds(b.toolCalls) && Traced(cfg, labels, b)
    requires MayFinish(cfg, b, r) && !r.custom && r.messages.None?
    ensures ResultsGiven(cfg, labels, b, r)
  {
    forall i | 0 <= i < |b.toolCalls|
      ensures if i < Returned(cfg, b, r) then GivenByRun(cfg, labels, b, i, BatchResults(cfg, b, r)[i])
              else BatchResults(cfg, b, r)[i]
                   == Tool(b.toolCalls[i].id, b.toolCalls[i].name, ErrorText(MissingType(cfg, b, r)))
    {
      ResultAt(cfg, labels, b, r, i);
    }
    if Returned(cfg, b, r) == |b.toolCalls| {
      assert b.toolCalls[..|b.toolCalls|] == b.toolCalls;
      CandidatesAreCommits(cfg, b, r);
      OrderedResultsPass(b.toolCalls, Candidates(cfg, b, r), MissingType(cfg, b, r));
    }
  }

  lemma SettledTranscript(cfg: Config, s: QueryLoopState, b: PendingToolBatch, r: BatchReport)
    requires s.phase == ExecutingTools && s.terminal.None? && s.messages != []
    ensures AfterBatch(cfg, s, b, r).Ok? && AfterBatch(cfg, s, b, r).value.messages == ClosedMessages(cfg, s, b, r)
  {
    assert ClosedMessages(cfg, s, b, r) != [];
  }

  /** Finishing a batch in hand adds its results and extra messages to the transcript. */
  lemma FinishedTranscript(cfg: Config, w: World, r: BatchReport)
    requires Sound(cfg, w) && RunningTools(w) && w.proc.pc == InTools && Admissible(cfg, w, FinishBatch(r))
    requires MayFinish(cfg, w.proc.state.pendingBatch.value, r)
    ensures var s, b, w' := w.proc.state, w.proc.state.pendingBatch.value, StepFinishBatch(cfg, w, r);
      && BatchInv(b) && GoodIds(b.toolCalls)
      && w'.proc.Up? && w'.proc.state.messages == ClosedMessages(cfg, s, b, r)
  {
    var s, b := w.proc.state, w.proc.state.pendingBatch.value;
    ClosingKeepsClean(cfg, s, r);
    SettledTranscript(cfg, s, b, r);
  }

  /**
   * Whenever a batch of any run finishes on the default path without a results hook, the
   * transcript gets for each call that may run exactly what some step of the run, in this
   * process or before a crash, committed for that call of that batch. Calls over the batch
   * limit get the error for missing results, and so does every call when the outcomes are
   * lost to a cancellation or a hook failure, even those that had been committed.
   */
  lemma CommittedOutcomesReachTranscript(cfg: Config, labels: seq<Label>, r: BatchReport)
    requires WellConfigured(cfg)
    requires var w := Run(cfg, FIRST_WORLD, labels);
      && RunningTools(w) && w.proc.pc == InTools
      && MayFinish(cfg, w.proc.state.pendingBatch.value, r) && Admissible(cfg, w, FinishBatch(r))
    requires !r.custom && r.messages.None?
    ensures var w, w' := Run(cfg, FIRST_WORLD, labels), Run(cfg, FIRST_WORLD, labels + [FinishBatch(r)]);
            var b := w.proc.state.pendingBatch.value;
            var results := BatchResults(cfg, b, r);
            && w'.proc.Up? && w'.proc.state.messages == w.proc.state.messages + results + BatchExtra(r)
            && ResultsGiven(cfg, labels, b, r)
  {
    var w := Run(cfg, FIRST_WORLD, labels);
    EveryRunIsSound(cfg, labels);
    EveryCommitIsTraced(cfg, labels);
    assert InHand(w, w.proc.state.pendingBatch.value);
    FinishedTranscript(cfg, w, r);
    assert (labels + [FinishBatch(r)])[..|labels|] == labels;
    ResultsAreGiven(cfg, labels, w.proc.state.pendingBatch.value, r);
  }
}
