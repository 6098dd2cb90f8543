/**
 * The scheduler inside the loop: an orderly schedule of a batch, replayed as the start and
 * commit steps of the loop, takes effect at every event.
 */
module ScheduleReplay {
  import opened Wrappers
  import opened Transcript
  import opened QueryState
  import opened QueryLoop
  import opened QueryGrammar
  import opened QueryExecution
  import Schedule = ToolScheduling

  type Trace = seq<Schedule.Event>

  /** What an event of the schedule is in the loop; `content` and `ref` are what the tools return. */
  function LabelsOf(e: Schedule.Event, admitted: nat -> bool, content: nat -> string, ref: nat -> Option<string>): seq<Label> {
    match e
    case Start(i) => [StartTool(i, admitted(i))]
    case Finish(_, _) => []
    case Commit(i) => [CommitTool(i, content(i), ref(i)), Persist]
  }

  function Replayed(trace: Trace, admitted: nat -> bool, content: nat -> string, ref: nat -> Option<string>): seq<Label> {
    if trace == [] then []
    else
      Replayed(trace[..|trace| - 1], admitted, content, ref)
      + LabelsOf(trace[|trace| - 1], admitted, content, ref)
  }

  function IdSetOf(ids: seq<string>): set<string> {
    set id | id in ids
  }

  /** The loop has just entered the batch, and `kinds` describes its runnable calls. */
  ghost predicate Entered(cfg: Config, w: World, kinds: seq<Schedule.Kind>) {
    && RunningTools(w) && w.proc.pc == InTools && w.proc.started == {}
    && w.proc.state.phase == ExecutingTools && w.proc.state.terminal.None?
    && var b := w.proc.state.pendingBatch.value;
      && w.proc.entry == IdSetOf(b.committedIds)
      && GoodIds(b.toolCalls) && |kinds| == Runnable(cfg, b) <= |b.toolCalls|
      && forall i | 0 <= i < |kinds| :: kinds[i] == Schedule.AlreadyCommitted <==> b.toolCalls[i].id in w.proc.entry
  }

  /** Entering a batch, with the outcomes committed so far as the scheduler's dictionary. */
  lemma EnteringFits(cfg: Config, w: World, committed: map<string, string>, safe: set<string>)
    requires Sound(cfg, w) && AtTop(w, ExecutingTools)
    requires var w1 := StepEnterTools(cfg, w);
      w1.proc.Up? && w1.proc.pc == InTools && committed.Keys == w1.proc.entry
    ensures var w1 := StepEnterTools(cfg, w);
            var b := w1.proc.state.pendingBatch.value;
            Entered(cfg, w1, Schedule.Kinds(b.toolCalls[..Runnable(cfg, b)], committed, safe))
  {
    SkippedAreCommitted(w.proc.state.pendingBatch.value);
  }

  ghost function IdsAt(calls: seq<ToolCall>, indexes: set<nat>): set<string> {
    set i | i in indexes && i < |calls| :: calls[i].id
  }

  lemma IdAt(calls: seq<ToolCall>, indexes: set<nat>, i: nat)
    requires GoodIds(calls) && i < |calls|
    ensures calls[i].id in IdsAt(calls, indexes) <==> i in indexes
    ensures IdsAt(calls, indexes + {i}) == IdsAt(calls, indexes) + {calls[i].id}
  {
  }

  /** The loop is where the schedule is: it has started and committed the same calls. */
  ghost predicate Mirrors(w0: World, w: World, trace: Trace)
    requires RunningTools(w0)
  {
    var b0 := w0.proc.state.pendingBatch.value;
    && RunningTools(w) && w.proc.pc == InTools && w.proc.entry == w0.proc.entry
    && w.proc.state.phase == ExecutingTools && w.proc.state.terminal.None?
    && var b := w.proc.state.pendingBatch.value;
      && b.batchId == b0.batchId && b.toolCalls == b0.toolCalls
      && w.proc.started == IdsAt(b.toolCalls, Schedule.Started(trace))
      && IdSetOf(b.committedIds) == w.proc.entry + IdsAt(b.toolCalls, Schedule.CommittedIn(trace))
  }

  /** A call the schedule starts is started: it is runnable, not skipped and not started before. */
  lemma StartTakesEffect(
      cfg: Config, w0: World, w: World, kinds: seq<Schedule.Kind>, limit: nat, trace: Trace, i: nat, admitted: bool)
    requires Entered(cfg, w0, kinds) && Mirrors(w0, w, trace) && Schedule.MayStart(kinds, limit, trace, i)
    ensures var b := w.proc.state.pendingBatch.value;
            var w' := StepStartTool(cfg, w, i, admitted);
      && i < |b.toolCalls|
      && w' == w.(proc := w.proc.(started := w.proc.started + {b.toolCalls[i].id}),
                  executed := if admitted then w.executed + [Execution(b.batchId, b.toolCalls[i])] else w.executed)
      && b.toolCalls[i].id !in w.proc.entry + w.proc.started
      && Mirrors(w0, w', trace + [Schedule.Start(i)])
  {
    var b := w.proc.state.pendingBatch.value;
    IdAt(b.toolCalls, Schedule.Started(trace), i);
    Schedule.OneMoreEvent(trace, Schedule.Start(i));
  }

  /** A commit of a started call that has none yet, made durable. */
  lemma CommitIsStored(w: World, i: nat, content: string, ref: Option<string>)
    requires RunningTools(w) && w.proc.pc == InTools
    requires w.proc.state.phase == ExecutingTools && w.proc.state.terminal.None?
    requires var b := w.proc.state.pendingBatch.value;
      i < |b.toolCalls| && b.toolCalls[i].id in w.proc.started && b.toolCalls[i].id !in b.committedIds
    ensures var b, between := w.proc.state.pendingBatch.value, StepCommitTool(w, i, content, ref);
            var w' := StepPersist(between);
      && between.proc.Up? && RunningTools(w') && w'.proc.pc == InTools && w'.proc.entry == w.proc.entry
      && w'.proc.started == w.proc.started
      && w'.proc.state.phase == ExecutingTools && w'.proc.state.terminal.None?
      && between.proc.state.pendingBatch == w'.proc.state.pendingBatch
      && var b' := w'.proc.state.pendingBatch.value;
        && b'.batchId == b.batchId && b'.toolCalls == b.toolCalls
        && b'.committedIds == b.committedIds + [b.toolCalls[i].id]
        && b'.committedResults == b.committedResults + [Tool(b.toolCalls[i].id, b.toolCalls[i].name, content)]
  {
  }

  /** What has started may run and was not skipped; only what has started finishes. */
  ghost predicate Live(kinds: seq<Schedule.Kind>, trace: Trace) {
    && (forall i | i in Schedule.Finished(trace) :: i in Schedule.Started(trace))
    && (forall i | i in Schedule.Started(trace) :: i < |kinds| && kinds[i] != Schedule.AlreadyCommitted)
  }

  lemma OrderlyIsLive(kinds: seq<Schedule.Kind>, limit: nat, trace: Trace)
    requires Schedule.Orderly(kinds, limit, trace)
    ensures Live(kinds, trace)
  {
    Schedule.OrderlyIsDisjoint(kinds, limit, trace);
  }

  /** What the schedule may hand over is started in the loop and not committed yet. */
  lemma MayCommit(cfg: Config, w0: World, w: World, kinds: seq<Schedule.Kind>, trace: Trace, i: nat)
    requires Entered(cfg, w0, kinds) && Mirrors(w0, w, trace) && Live(kinds, trace)
    requires i in Schedule.Finished(trace) && i !in Schedule.CommittedIn(trace)
    ensures var b := w.proc.state.pendingBatch.value;
      i < |b.toolCalls| && b.toolCalls[i].id in w.proc.started && b.toolCalls[i].id !in b.committedIds
  {
    var b := w.proc.state.pendingBatch.value;
    assert i in Schedule.Started(trace) && i < |kinds| && kinds[i] != Schedule.AlreadyCommitted;
    IdAt(b.toolCalls, Schedule.Started(trace), i);
    IdAt(b.toolCalls, Schedule.CommittedIn(trace), i);
    assert b.toolCalls[i].id !in IdSetOf(b.committedIds);
  }

  lemma CommittedSet(ids: seq<string>, id: string)
    ensures IdSetOf(ids + [id]) == IdSetOf(ids) + {id}
  {
  }

  /** An outcome the schedule hands over is committed. */
  lemma CommitTakesEffect(
      cfg: Config, w0: World, w: World, kinds: seq<Schedule.Kind>, trace: Trace, i: nat,
      content: string, ref: Option<string>)
    requires Entered(cfg, w0, kinds) && Mirrors(w0, w, trace) && Live(kinds, trace)
    requires i in Schedule.Finished(trace) && i !in Schedule.CommittedIn(trace)
    ensures Mirrors(w0, StepPersist(StepCommitTool(w, i, content, ref)), trace + [Schedule.Commit(i)])
  {
    var b := w.proc.state.pendingBatch.value;
    MayCommit(cfg, w0, w, kinds, trace, i);
    CommitIsStored(w, i, content, ref);
    IdAt(b.toolCalls, Schedule.CommittedIn(trace), i);
    Schedule.OneMoreEvent(trace, Schedule.Commit(i));
    CommittedSet(b.committedIds, b.toolCalls[i].id);
  }

  lemma FinishIsSilent(w0: World, w: World, trace: Trace, e: Schedule.Event)
    requires RunningTools(w0) && Mirrors(w0, w, trace) && e.Finish?
    ensures Mirrors(w0, w, trace + [e])
  {
    Schedule.OneMoreEvent(trace, e);
  }

  lemma RunTwo(cfg: Config, w: World, l: Label, m: Label)
    ensures Run(cfg, w, [l]) == Step(cfg, w, l)
    ensures Run(cfg, w, [l, m]) == Step(cfg, Step(cfg, w, l), m)
  {
    assert [l, m][..1] == [l] && [l][..0] == [];
    assert Run(cfg, w, [l]) == Step(cfg, Run(cfg, w, []), l);
  }

  lemma {:induction false} RunConcat(cfg: Config, w: World, a: seq<Label>, b: seq<Label>)
    ensures Run(cfg, w, a + b) == Run(cfg, Run(cfg, w, a), b)
    decreases |b|
  {
    if b == [] {
      assert a + b == a;
    } else {
      var n := |b| - 1;
      assert (a + b)[..|a + b| - 1] == a + b[..n];
      RunConcat(cfg, w, a, b[..n]);
    }
  }

  /** One event of the schedule, replayed. */
  function AfterEvent(
      cfg: Config, w: World, e: Schedule.Event, admitted: nat -> bool, content: nat -> string, ref: nat -> Option<string>): World
  {
    match e
    case Start(i) => StepStartTool(cfg, w, i, admitted(i))
    case Finish(_, _) => w
    case Commit(i) => StepPersist(StepCommitTool(w, i, content(i), ref(i)))
  }

  lemma LabelsRun(
      cfg: Config, w: World, e: Schedule.Event, admitted: nat -> bool, content: nat -> string, ref: nat -> Option<string>)
    ensures Run(cfg, w, LabelsOf(e, admitted, content, ref)) == AfterEvent(cfg, w, e, admitted, content, ref)
  {
    match e
    case Start(i) => RunTwo(cfg, w, StartTool(i, admitted(i)), Persist);
    case Finish(_, _) =>
    case Commit(i) => RunTwo(cfg, w, CommitTool(i, content(i), ref(i)), Persist);
  }

  lemma EventMirrors(
      cfg: Config, w0: World, w: World, kinds: seq<Schedule.Kind>, limit: nat, trace: Trace, e: Schedule.Event,
      admitted: nat -> bool, content: nat -> string, ref: nat -> Option<string>)
    requires Entered(cfg, w0, kinds) && Mirrors(w0, w, trace)
    requires Live(kinds, trace) && Schedule.MayHappen(kinds, limit, trace, e)
    ensures Mirrors(w0, AfterEvent(cfg, w, e, admitted, content, ref), trace + [e])
  {
    match e
    case Start(i) => StartTakesEffect(cfg, w0, w, kinds, limit, trace, i, admitted(i));
    case Finish(_, _) => FinishIsSilent(w0, w, trace, e);
    case Commit(i) => CommitTakesEffect(cfg, w0, w, kinds, trace, i, content(i), ref(i));
  }

  lemma NothingReplayed(w0: World)
    requires RunningTools(w0) && w0.proc.pc == InTools && w0.proc.started == {}
    requires w0.proc.state.phase == ExecutingTools && w0.proc.state.terminal.None?
    requires w0.proc.entry == IdSetOf(w0.proc.state.pendingBatch.value.committedIds)
    ensures Mirrors(w0, w0, [])
  {
    assert IdsAt(w0.proc.state.pendingBatch.value.toolCalls, {}) == {};
  }

  /** The loop after a whole schedule. */
  ghost function Replay(
      cfg: Config, w0: World, trace: Trace, admitted: nat -> bool, content: nat -> string, ref: nat -> Option<string>): World
    decreases |trace|
  {
    if trace == [] then w0
    else
      var n := |trace| - 1;
      AfterEvent(cfg, Replay(cfg, w0, trace[..n], admitted, content, ref), trace[n], admitted, content, ref)
  }

  lemma {:induction false} ReplayIsRun(
      cfg: Config, w0: World, trace: Trace, admitted: nat -> bool, content: nat -> string, ref: nat -> Option<string>)
    ensures Run(cfg, w0, Replayed(trace, admitted, content, ref)) == Replay(cfg, w0, trace, admitted, content, ref)
    decreases |trace|
  {
    if trace != [] {
      var n := |trace| - 1;
      var before := Replayed(trace[..n], admitted, content, ref);
      ReplayIsRun(cfg, w0, trace[..n], admitted, content, ref);
      RunConcat(cfg, w0, before, LabelsOf(trace[n], admitted, content, ref));
      LabelsRun(cfg, Run(cfg, w0, before), trace[n], admitted, content, ref);
    }
  }

  lemma EventAt(kinds: seq<Schedule.Kind>, limit: nat, trace: Trace, p: nat)
    requires Schedule.Orderly(kinds, limit, trace) && p < |trace|
    ensures Live(kinds, trace[..p]) && Schedule.MayHappen(kinds, limit, trace[..p], trace[p])
  {
    Schedule.OrderlyPrefix(kinds, limit, trace, p + 1);
    assert trace[..p + 1][..p] == trace[..p] && trace[..p + 1][p] == trace[p];
    OrderlyIsLive(kinds, limit, trace[..p]);
  }

  /** At every moment of an orderly schedule the loop that replays it is where the schedule is. */
  lemma {:induction false} ReplayMirrors(
      cfg: Config, w0: World, kinds: seq<Schedule.Kind>, limit: nat, trace: Trace, p: nat,
      admitted: nat -> bool, content: nat -> string, ref: nat -> Option<string>)
    requires Entered(cfg, w0, kinds) && Schedule.Orderly(kinds, limit, trace) && p <= |trace|
    ensures Mirrors(w0, Replay(cfg, w0, trace[..p], admitted, content, ref), trace[..p])
    decreases p
  {
    if p == 0 {
      assert trace[..p] == [];
      NothingReplayed(w0);
    } else {
      ReplayMirrors(cfg, w0, kinds, limit, trace, p - 1, admitted, content, ref);
      ReplayNext(cfg, w0, kinds, limit, trace, p, admitted, content, ref);
    }
  }

  lemma PrefixGrows(trace: Trace, p: nat)
    requires 0 < p <= |trace|
    ensures trace[..p] == trace[..p - 1] + [trace[p - 1]]
  {
  }

  lemma ReplayNext(
      cfg: Config, w0: World, kinds: seq<Schedule.Kind>, limit: nat, trace: Trace, p: nat,
      admitted: nat -> bool, content: nat -> string, ref: nat -> Option<string>)
    requires Entered(cfg, w0, kinds) && Schedule.Orderly(kinds, limit, trace) && 0 < p <= |trace|
    requires Mirrors(w0, Replay(cfg, w0, trace[..p - 1], admitted, content, ref), trace[..p - 1])
    ensures Mirrors(w0, Replay(cfg, w0, trace[..p], admitted, content, ref), trace[..p])
  {
    PrefixGrows(trace, p);
    EventAt(kinds, limit, trace, p - 1);
    ReplayOneMore(cfg, w0, kinds, limit, trace[..p - 1], trace[p - 1], admitted, content, ref);
  }

  lemma ReplayOneMore(
      cfg: Config, w0: World, kinds: seq<Schedule.Kind>, limit: nat, trace: Trace, e: Schedule.Event,
      admitted: nat -> bool, content: nat -> string, ref: nat -> Option<string>)
    requires Entered(cfg, w0, kinds) && Live(kinds, trace) && Schedule.MayHappen(kinds, limit, trace, e)
    requires Mirrors(w0, Replay(cfg, w0, trace, admitted, content, ref), trace)
    ensures Mirrors(w0, Replay(cfg, w0, trace + [e], admitted, content, ref), trace + [e])
  {
    var w := Replay(cfg, w0, trace, admitted, content, ref);
    assert Replay(cfg, w0, trace + [e], admitted, content, ref) == AfterEvent(cfg, w, e, admitted, content, ref) by {
      assert (trace + [e])[..|trace|] == trace;
    }
    EventMirrors(cfg, w0, w, kinds, limit, trace, e, admitted, content, ref);
  }

  ghost predicate TakesEffect(
      cfg: Config, w: World, e: Schedule.Event, admitted: nat -> bool, content: nat -> string, ref: nat -> Option<string>)
    requires RunningTools(w)
  {
    var b := w.proc.state.pendingBatch.value;
    match e
    case Start(i) =>
      && i < |b.toolCalls| && b.toolCalls[i].id !in w.proc.entry + w.proc.started
      && StepStartTool(cfg, w, i, admitted(i))
         == w.(proc := w.proc.(started := w.proc.started + {b.toolCalls[i].id}),
               executed := if admitted(i) then w.executed + [Execution(b.batchId, b.toolCalls[i])] else w.executed)
    case Finish(_, _) => true
    case Commit(i) =>
      && i < |b.toolCalls| && b.toolCalls[i].id !in b.committedIds
      && var w' := StepCommitTool(w, i, content(i), ref(i));
        && w'.proc.Up? && w'.proc.state.pendingBatch.Some?
        && w'.proc.state.pendingBatch.value.committedIds == b.committedIds + [b.toolCalls[i].id]
        && w'.proc.state.pendingBatch.value.committedResults
           == b.committedResults + [Tool(b.toolCalls[i].id, b.toolCalls[i].name, content(i))]
  }

  /**
   * No guard of the loop ever stands in the way of its scheduler: each start of an orderly
   * schedule begins a call that is neither skipped nor started yet, and each hand-over is committed.
   */
  lemma EveryEventTakesEffect(
      cfg: Config, w0: World, kinds: seq<Schedule.Kind>, limit: nat, trace: Trace, p: nat,
      admitted: nat -> bool, content: nat -> string, ref: nat -> Option<string>)
    requires Entered(cfg, w0, kinds) && Schedule.Orderly(kinds, limit, trace) && p < |trace|
    ensures var w := Run(cfg, w0, Replayed(trace[..p], admitted, content, ref));
            RunningTools(w) && TakesEffect(cfg, w, trace[p], admitted, content, ref)
  {
    var w, init := Replay(cfg, w0, trace[..p], admitted, content, ref), trace[..p];
    ReplayIsRun(cfg, w0, init, admitted, content, ref);
    ReplayMirrors(cfg, w0, kinds, limit, trace, p, admitted, content, ref);
    EventAt(kinds, limit, trace, p);
    match trace[p]
    case Start(i) =>
      StartTakesEffect(cfg, w0, w, kinds, limit, init, i, admitted(i));
    case Finish(_, _) =>
    case Commit(i) =>
      MayCommit(cfg, w0, w, kinds, init, i);
      CommitIsStored(w, i, content(i), ref(i));
  }
}
