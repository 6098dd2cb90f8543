/** The transactional outbox: every event is applied once, in order, whatever crashes. */
module QueryOutbox {
  import opened Wrappers
  import opened Transcript
  import opened QueryState
  import opened QueryLoop
  import opened QueryGrammar

  /** The consumer has everything except possibly the event the durable state still holds. */
  ghost predicate UpToDate(w: World) {
    || w.applied == w.published
    || (&& w.durable.Some? && w.durable.value.pendingEvent.Some?
        && w.published != [] && w.applied == w.published[..|w.published| - 1])
  }

  ghost predicate History(w: World) {
    && (forall i, j | 0 <= i < j < |w.published| :: w.published[i].eventId.revision < w.published[j].eventId.revision)
    && (forall e | e in w.published :: w.durable.Some? && e.eventId.revision <= w.durable.value.revision)
    && (w.durable.Some? && w.durable.value.pendingEvent.Some? ==>
          w.published != [] && w.published[|w.published| - 1] == w.durable.value.pendingEvent.value)
    && UpToDate(w)
  }

  /** Acknowledgement and application agree on the entry in hand. */
  ghost predicate AckMatches(w: World, s: QueryLoopState) {
    w.proc.Up? && s.pendingEvent.Some? ==>
      (s.pendingEvent.value.eventId in w.proc.acked <==> w.applied == w.published)
  }

  /** How the state being persisted relates to the durable one. */
  ghost predicate SaveInv(w: World)
    requires w.proc.Up?
  {
    var s := w.proc.state;
    if w.durable.None? then s.pendingEvent.None?
    else if s.revision == w.durable.value.revision then
      s.pendingEvent == w.durable.value.pendingEvent && AckMatches(w, s)
    else
      && s.revision == w.durable.value.revision + 1
      && w.applied == w.published
      && (s.pendingEvent.Some? ==>
            w.durable.value.pendingEvent.None? && s.pendingEvent.value.eventId.revision == s.revision)
  }

  ghost predicate Outbox(w: World) {
    && History(w)
    && (w.proc.Up? ==>
          && w.proc.acked <= AckedIds(w.applied)
          && (w.proc.pc.Saving? ==> SaveInv(w))
          && (!w.proc.pc.Saving? ==> w.durable == Some(w.proc.state))
          && (w.proc.pc == Delivered ==> w.applied == w.published)
          && (w.proc.pc == Top ==> AckMatches(w, w.proc.state)))
  }

  lemma AdoptKeepsOutbox(w: World, advanced: Result<QueryLoopState, AdvanceError>, next: Pc)
    requires Outbox(w) && w.proc.Up? && !w.proc.pc.Saving? && w.applied == w.published
    requires advanced.Ok? && advanced.value.revision == w.proc.state.revision + 1
    requires advanced.value.pendingEvent.Some? ==>
               w.proc.state.pendingEvent.None? && advanced.value.pendingEvent.value.eventId.revision == advanced.value.revision
    ensures Outbox(Adopt(w, advanced, next))
  {
  }

  /** With no entry in hand there is nothing left to apply. */
  lemma IdleIsApplied(w: World)
    requires Outbox(w) && w.proc.Up? && !w.proc.pc.Saving? && w.proc.state.pendingEvent.None?
    ensures w.applied == w.published
  {
  }

  /** What is acknowledged is what was applied, so the entry in hand is acknowledged only when nothing is missing. */
  lemma EntryInHand(w: World)
    requires History(w) && w.durable.Some? && w.durable.value.pendingEvent.Some?
    ensures w.durable.value.pendingEvent.value.eventId in AckedIds(w.applied) <==> w.applied == w.published
  {
    var last := w.published[|w.published| - 1];
    assert last == w.durable.value.pendingEvent.value;
    if w.applied == w.published {
      assert last in w.applied;
    } else {
      forall e | e in w.applied ensures e.eventId != last.eventId {
        var i :| 0 <= i < |w.applied| && w.applied[i] == e;
        assert w.published[i] == e;
      }
    }
  }

  lemma SameHistory(w: World, w': World)
    requires History(w) && w'.durable == w.durable && w'.published == w.published && w'.applied == w.applied
    ensures History(w')
  {
  }

  lemma BootKeepsOutbox(cfg: Config, w: World, candidate: nat)
    requires Outbox(w)
    ensures Outbox(StepBoot(cfg, w, candidate))
  {
    SameHistory(w, StepBoot(cfg, w, candidate));
    if w.durable.Some? && w.durable.value.pendingEvent.Some? {
      EntryInHand(w);
    }
  }

  predicate Publishes(w: World) {
    && w.proc.Up? && w.proc.pc.Saving? && w.proc.state.pendingEvent.Some?
    && (w.durable.None? || w.durable.value.pendingEvent != w.proc.state.pendingEvent)
  }

  lemma PublishKeepsOutbox(w: World)
    requires Outbox(w) && Publishes(w) && Settled(w.proc.pc) != Delivered
    ensures Outbox(StepPersist(w))
  {
    var e := w.proc.state.pendingEvent.value;
    assert w.durable.Some? && e.eventId.revision == w.durable.value.revision + 1;
    assert (w.published + [e])[..|w.published|] == w.published;
    forall a | a in w.applied ensures a.eventId != e.eventId {
      assert a in w.published;
    }
    assert e.eventId !in w.proc.acked;
  }

  lemma PersistKeepsOutbox(cfg: Config, w: World)
    requires Sound(cfg, w) && Outbox(w)
    ensures Outbox(StepPersist(w))
  {
    if Publishes(w) {
      PublishKeepsOutbox(w);
    }
  }

  lemma DeliverKeepsOutbox(w: World)
    requires Outbox(w)
    ensures Outbox(StepDeliver(w))
  {
    if w.proc.Up? && w.proc.pc == Top && w.proc.state.pendingEvent.Some? {
      var e := w.proc.state.pendingEvent.value;
      if e.eventId !in w.proc.acked {
        var n := |w.published| - 1;
        assert w.published == w.published[..n] + [w.published[n]];
      }
    }
  }

  lemma ModelKeepsOutbox(cfg: Config, w: World, outcome: ModelOutcome)
    requires WellConfigured(cfg) && Sound(cfg, w) && Outbox(w) && Admissible(cfg, w, CallModel(outcome))
    ensures Outbox(StepCallModel(cfg, w, outcome))
  {
    if AtTop(w, CallingModel) {
      CallModelKeeps(cfg, w, outcome);
      IdleIsApplied(w);
      var s := w.proc.state;
      if AfterModel(cfg, s, outcome).Ok? {
        ModelLeavesOutbox(cfg, s, outcome);
        AdoptKeepsOutbox(w, AfterModel(cfg, s, outcome), if outcome == Interrupted(CancelledCall) then Done else Top);
      }
    }
  }

  lemma ModelLeavesOutbox(cfg: Config, s: QueryLoopState, outcome: ModelOutcome)
    requires s.candidate < |cfg.candidates| && (outcome.Responded? ==> outcome.response.AI?)
    requires AfterModel(cfg, s, outcome).Ok?
    ensures AfterModel(cfg, s, outcome).value.pendingEvent == s.pendingEvent
  {
  }

  lemma ClearKeepsOutbox(cfg: Config, w: World)
    requires Sound(cfg, w) && Outbox(w)
    ensures Outbox(StepClearOutbox(w))
  {
    if w.proc.Up? && w.proc.pc == Delivered && w.proc.state.pendingEvent.Some? {
      var s := w.proc.state;
      var last := s.pendingEvent.value.eventId.eventType == CompletedEvent;
      AdoptKeepsOutbox(w, Advance(s, s.phase, DomainEventDelivered, s.(pendingEvent := None)), if last then Done else Top);
    }
  }

  lemma MaxTurnsKeepsOutbox(cfg: Config, w: World)
    requires Sound(cfg, w) && Outbox(w)
    ensures Outbox(StepReachMaxTurns(cfg, w))
  {
    if AtTop(w, Preparing) {
      IdleIsApplied(w);
      EndingKeeps(cfg, w.proc.state, MaxTurns);
      AdoptKeepsOutbox(w, Ending(w.proc.state, MaxTurns), Top);
    }
  }

  lemma HookStopKeepsOutbox(cfg: Config, w: World)
    requires Sound(cfg, w) && Outbox(w)
    ensures Outbox(StepStopByHook(w))
  {
    if w.proc.Up? && w.proc.pc.HookStop? {
      IdleIsApplied(w);
      var reason := if w.proc.pc.cancelled then TerminalReason.Cancelled else HookStopped;
      EndingKeeps(cfg, w.proc.state, reason);
      AdoptKeepsOutbox(w, Ending(w.proc.state, reason), Done);
    }
  }

  lemma HooksKeepOutbox(cfg: Config, w: World, hook: Option<HookResult>)
    requires Sound(cfg, w) && Outbox(w)
    ensures Outbox(StepBeforeTurn(cfg, w, hook))
  {
    if HookCursor(cfg, w).Some? {
      IdleIsApplied(w);
    }
  }

  lemma BeginTurnKeepsOutbox(cfg: Config, w: World, delta: nat)
    requires Sound(cfg, w) && Outbox(w)
    ensures Outbox(StepBeginTurn(cfg, w, delta))
  {
    if HookCursor(cfg, w).Some? {
      IdleIsApplied(w);
    }
  }

  lemma GovernKeepsOutbox(cfg: Config, w: World, action: StopAction, stopMessages: seq<Message>)
    requires Sound(cfg, w) && Outbox(w) && AllPlain(stopMessages)
    ensures Outbox(StepGovernStop(w, action, stopMessages))
  {
    if AtTop(w, StopGovernance) {
      IdleIsApplied(w);
      GovernanceKeeps(cfg, w.proc.state, action, stopMessages);
      AdoptKeepsOutbox(w, AfterGovernance(w.proc.state, action, stopMessages), Top);
    }
  }

  lemma EnterToolsKeepsOutbox(cfg: Config, w: World)
    requires Sound(cfg, w) && Outbox(w)
    ensures Outbox(StepEnterTools(cfg, w))
  {
    if AtTop(w, ExecutingTools) {
      IdleIsApplied(w);
    }
  }

  lemma CommitKeepsOutbox(cfg: Config, w: World, index: nat, content: string, ref: Option<string>)
    requires Sound(cfg, w) && Outbox(w)
    ensures Outbox(StepCommitTool(w, index, content, ref))
  {
    if RunningTools(w) && w.proc.pc == InTools {
      IdleIsApplied(w);
    }
  }

  lemma FinishKeepsOutbox(cfg: Config, w: World, r: BatchReport)
    requires Sound(cfg, w) && Outbox(w) && Admissible(cfg, w, FinishBatch(r))
    ensures Outbox(StepFinishBatch(cfg, w, r))
  {
    FinishAdopts(cfg, w, r);
    if StepFinishBatch(cfg, w, r) != w {
      var s := w.proc.state;
      IdleIsApplied(w);
      BatchLeaves(cfg, s, s.pendingBatch.value, r);
      AdoptKeepsOutbox(Calm(w), AfterBatch(cfg, s, s.pendingBatch.value, r), if r.cancelled then Done else Top);
    }
  }

  lemma CrashKeepsOutbox(w: World)
    requires Outbox(w)
    ensures Outbox(w.(proc := Down))
  {
    SameHistory(w, w.(proc := Down));
  }

  lemma CompleteKeepsOutbox(w: World)
    requires Outbox(w)
    ensures Outbox(StepComplete(w))
  {
    SameHistory(w, StepComplete(w));
  }

  lemma StartKeepsOutbox(cfg: Config, w: World, index: nat, admitted: bool)
    requires Outbox(w)
    ensures Outbox(StepStartTool(cfg, w, index, admitted))
  {
    SameHistory(w, StepStartTool(cfg, w, index, admitted));
  }

  lemma ProcessKeepsOutbox(cfg: Config, w: World, l: Label)
    requires Sound(cfg, w) && Outbox(w)
    requires l.Boot? || l.Crash? || l.Persist? || l.Deliver? || l.ClearOutbox? || l.Complete? || l.StartTool?
    ensures Outbox(Step(cfg, w, l))
  {
    match l
    case Boot(candidate) => BootKeepsOutbox(cfg, w, candidate);
    case Persist => PersistKeepsOutbox(cfg, w);
    case Deliver => DeliverKeepsOutbox(w);
    case ClearOutbox => ClearKeepsOutbox(cfg, w);
    case Crash => CrashKeepsOutbox(w);
    case Complete => CompleteKeepsOutbox(w);
    case StartTool(index, admitted) => StartKeepsOutbox(cfg, w, index, admitted);
  }

  lemma StepKeepsOutbox(cfg: Config, w: World, l: Label)
    requires WellConfigured(cfg) && Sound(cfg, w) && Outbox(w)
    ensures Outbox(Step(cfg, w, l))
  {
    if Admissible(cfg, w, l) {
      match l
      case ReachMaxTurns => MaxTurnsKeepsOutbox(cfg, w);
      case BeforeTurn(hook) => HooksKeepOutbox(cfg, w, hook);
      case StopByHook => HookStopKeepsOutbox(cfg, w);
      case BeginTurn(delta) => BeginTurnKeepsOutbox(cfg, w, delta);
      case CallModel(outcome) => ModelKeepsOutbox(cfg, w, outcome);
      case GovernStop(action, stopMessages) => GovernKeepsOutbox(cfg, w, action, stopMessages);
      case EnterTools => EnterToolsKeepsOutbox(cfg, w);
      case CommitTool(index, content, ref) => CommitKeepsOutbox(cfg, w, index, content, ref);
      case FinishBatch(report) => FinishKeepsOutbox(cfg, w, report);
      case _ => ProcessKeepsOutbox(cfg, w, l);
    }
  }

  lemma {:induction false} EveryRunKeepsOutbox(cfg: Config, labels: seq<Label>)
    requires WellConfigured(cfg)
    ensures Outbox(Run(cfg, FIRST_WORLD, labels))
    decreases |labels|
  {
    if labels != [] {
      var last := |labels| - 1;
      EveryRunKeepsOutbox(cfg, labels[..last]);
      EveryRunIsSound(cfg, labels[..last]);
      StepKeepsOutbox(cfg, Run(cfg, FIRST_WORLD, labels[..last]), labels[last]);
    }
  }

  lemma HistoryIsAppliedOnce(w: World)
    requires History(w)
    ensures w.applied == w.published
         || (w.durable.Some? && w.durable.value.pendingEvent.Some?
             && w.published == w.applied + [w.durable.value.pendingEvent.value])
    ensures forall i, j | 0 <= i < j < |w.published| :: w.published[i].eventId != w.published[j].eventId
  {
    if w.applied != w.published {
      var n := |w.published| - 1;
      assert w.published == w.published[..n] + [w.published[n]];
    }
  }

  /**
   * A consumer that records what it applied and acknowledges it on restart has, at
   * every point of every run, applied each published event exactly once and in
   * order, short only of the one the durable state still carries.
   */
  lemma EventsApplyExactlyOnce(cfg: Config, labels: seq<Label>)
    requires WellConfigured(cfg)
    ensures var w := Run(cfg, FIRST_WORLD, labels);
            && (w.applied == w.published
                || (w.durable.Some? && w.durable.value.pendingEvent.Some?
                    && w.published == w.applied + [w.durable.value.pendingEvent.value]))
            && (forall i, j | 0 <= i < j < |w.published| :: w.published[i].eventId != w.published[j].eventId)
  {
    EveryRunKeepsOutbox(cfg, labels);
    HistoryIsAppliedOnce(Run(cfg, FIRST_WORLD, labels));
  }

  /** Handing an event over happens only while the durable state holds it. */
  lemma YieldedIsDurable(cfg: Config, labels: seq<Label>)
    requires WellConfigured(cfg)
    ensures var w := Run(cfg, FIRST_WORLD, labels);
            var w' := Step(cfg, w, Deliver);
            w'.applied != w.applied ==>
              w.durable.Some? && w.durable.value.pendingEvent == Some(w'.applied[|w'.applied| - 1])
  {
    EveryRunKeepsOutbox(cfg, labels);
  }
}
