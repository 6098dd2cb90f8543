/**
 * The loop's durable state is what its journal replays (agents/query.py, run_context.py
 * `save_query_state` and `replay`): a restart finds the state that was persisted last.
 */
module QueryJournal {
  import opened Wrappers
  import opened QueryState
  import opened QueryLoop
  import opened QueryGrammar
  import opened QueryOutbox
  import Runtime = RuntimeState

  type Record = Runtime.QueryRecord

  /** A step of this loop, or a snapshot some other loop of the run appends to the same journal. */
  datatype Event = Loop(l: Label) | Other(record: Record)

  function LoopLabels(events: seq<Event>): seq<Label> {
    if events == [] then []
    else
      LoopLabels(events[..|events| - 1])
      + var e := events[|events| - 1]; if e.Loop? then [e.l] else []
  }

  function WorldAfter(cfg: Config, events: seq<Event>): World {
    Run(cfg, FIRST_WORLD, LoopLabels(events))
  }

  function RecordOf(snapshot: QueryLoopState -> string, s: QueryLoopState): Record {
    Runtime.QueryRecord(s.stateKey, s.revision, snapshot(s))
  }

  /** What one event appends: a persist of this loop its state, another loop its record. */
  function Appended(snapshot: QueryLoopState -> string, w: World, e: Event): seq<Record> {
    match e
    case Loop(l) => if l == Persist && w.proc.Up? && w.proc.pc.Saving? then [RecordOf(snapshot, w.proc.state)] else []
    case Other(record) => [record]
  }

  /** The loop-state records of the journal, in order. */
  function JournalAfter(cfg: Config, snapshot: QueryLoopState -> string, events: seq<Event>): seq<Record>
    decreases |events|
  {
    if events == [] then []
    else
      var before := events[..|events| - 1];
      JournalAfter(cfg, snapshot, before) + Appended(snapshot, WorldAfter(cfg, before), events[|events| - 1])
  }

  /** Other loops have other keys. */
  ghost predicate OthersDiffer(cfg: Config, events: seq<Event>) {
    forall e | e in events && e.Other? :: e.record.key != cfg.stateKey
  }

  /** Replay's choice for this loop's key is its durable state, or there is none of either. */
  ghost predicate JournalHolds(cfg: Config, snapshot: QueryLoopState -> string, w: World, records: seq<Record>) {
    match Runtime.Latest(records, |records|, cfg.stateKey)
    case None => w.durable.None?
    case Some(i) => w.durable.Some? && records[i] == RecordOf(snapshot, w.durable.value)
  }

  lemma {:induction false} LatestOfPrefix(records: seq<Record>, more: seq<Record>, n: nat, key: string)
    requires n <= |records|
    ensures Runtime.Latest(records + more, n, key) == Runtime.Latest(records, n, key)
  {
    if n > 0 {
      LatestOfPrefix(records, more, n - 1, key);
      assert (records + more)[n - 1] == records[n - 1];
      var before := Runtime.Latest(records, n - 1, key);
      assert before.Some? ==> (records + more)[before.value] == records[before.value];
    }
  }

  /** A record of the same key and no older revision is the one replay keeps; one of another key changes nothing. */
  lemma LatestOneMore(records: seq<Record>, record: Record, key: string)
    ensures var before, after := Runtime.Latest(records, |records|, key), Runtime.Latest(records + [record], |records| + 1, key);
      && (record.key != key ==> after == before)
      && (record.key == key && (before.Some? ==> records[before.value].revision <= record.revision) ==> after == Some(|records|))
  {
    LatestOfPrefix(records, [record], |records|, key);
    assert (records + [record])[|records|] == record;
    var before := Runtime.Latest(records, |records|, key);
    assert before.Some? ==> (records + [record])[before.value] == records[before.value];
  }

  /** A persist writes a state of this loop that is not older than the durable one. */
  lemma PersistIsNotOlder(cfg: Config, w: World)
    requires Sound(cfg, w) && Outbox(w) && w.proc.Up? && w.proc.pc.Saving?
    ensures w.proc.state.stateKey == cfg.stateKey
    ensures w.durable.Some? ==> w.durable.value.revision <= w.proc.state.revision
  {
  }

  /** Only a persist changes the durable state. */
  lemma OthersKeepDurable(cfg: Config, w: World, l: Label)
    requires l != Persist || !w.proc.Up? || !w.proc.pc.Saving?
    ensures Step(cfg, w, l).durable == w.durable
  {
  }

  lemma PersistKeepsJournal(cfg: Config, snapshot: QueryLoopState -> string, w: World, records: seq<Record>)
    requires Sound(cfg, w) && Outbox(w) && w.proc.Up? && w.proc.pc.Saving? && JournalHolds(cfg, snapshot, w, records)
    ensures JournalHolds(cfg, snapshot, StepPersist(w), records + [RecordOf(snapshot, w.proc.state)])
  {
    PersistIsNotOlder(cfg, w);
    LatestOneMore(records, RecordOf(snapshot, w.proc.state), cfg.stateKey);
  }

  lemma LoopStep(cfg: Config, before: seq<Event>, e: Event)
    ensures e.Loop? ==> WorldAfter(cfg, before + [e]) == Step(cfg, WorldAfter(cfg, before), e.l)
    ensures e.Other? ==> WorldAfter(cfg, before + [e]) == WorldAfter(cfg, before)
  {
    assert (before + [e])[..|before|] == before;
    if e.Loop? {
      assert (LoopLabels(before) + [e.l])[..|LoopLabels(before)|] == LoopLabels(before);
    } else {
      assert LoopLabels(before) + [] == LoopLabels(before);
    }
  }

  lemma EventKeepsJournal(cfg: Config, snapshot: QueryLoopState -> string, w: World, records: seq<Record>, e: Event)
    requires Sound(cfg, w) && Outbox(w) && JournalHolds(cfg, snapshot, w, records)
    requires e.Other? ==> e.record.key != cfg.stateKey
    ensures JournalHolds(
              cfg, snapshot, if e.Loop? then Step(cfg, w, e.l) else w, records + Appended(snapshot, w, e))
  {
    match e
    case Other(record) => LatestOneMore(records, record, cfg.stateKey);
    case Loop(l) =>
      if l == Persist && w.proc.Up? && w.proc.pc.Saving? {
        PersistKeepsJournal(cfg, snapshot, w, records);
      } else {
        OthersKeepDurable(cfg, w, l);
        assert records + [] == records;
      }
  }

  lemma JournalStep(cfg: Config, snapshot: QueryLoopState -> string, before: seq<Event>, e: Event)
    requires WellConfigured(cfg) && (e.Other? ==> e.record.key != cfg.stateKey)
    requires JournalHolds(cfg, snapshot, WorldAfter(cfg, before), JournalAfter(cfg, snapshot, before))
    ensures JournalHolds(cfg, snapshot, WorldAfter(cfg, before + [e]), JournalAfter(cfg, snapshot, before + [e]))
  {
    var w, records := WorldAfter(cfg, before), JournalAfter(cfg, snapshot, before);
    EveryRunIsSound(cfg, LoopLabels(before));
    EveryRunKeepsOutbox(cfg, LoopLabels(before));
    EventKeepsJournal(cfg, snapshot, w, records, e);
    LoopStep(cfg, before, e);
    assert JournalAfter(cfg, snapshot, before + [e]) == records + Appended(snapshot, w, e) by {
      assert (before + [e])[..|before|] == before;
    }
  }

  lemma LastEvent(events: seq<Event>)
    requires events != []
    ensures events == events[..|events| - 1] + [events[|events| - 1]] && events[|events| - 1] in events
  {
  }

  lemma NothingJournalled(cfg: Config, snapshot: QueryLoopState -> string)
    ensures JournalHolds(cfg, snapshot, WorldAfter(cfg, []), JournalAfter(cfg, snapshot, []))
  {
  }

  /**
   * Over every run, crashing and resuming as it may, and whatever other loops write in
   * between: what replay keeps for this loop is its durable state.
   */
  lemma {:induction false} JournalHoldsDurableState(cfg: Config, snapshot: QueryLoopState -> string, events: seq<Event>)
    requires WellConfigured(cfg) && OthersDiffer(cfg, events)
    ensures JournalHolds(cfg, snapshot, WorldAfter(cfg, events), JournalAfter(cfg, snapshot, events))
    decreases |events|
  {
    if events == [] {
      NothingJournalled(cfg, snapshot);
    } else {
      var before, e := events[..|events| - 1], events[|events| - 1];
      LastEvent(events);
      JournalHoldsDurableState(cfg, snapshot, before);
      JournalStep(cfg, snapshot, before, e);
    }
  }

  /** A restart that decodes what replay kept resumes from the state that was durable. */
  method Resume(cfg: Config, ghost snapshot: QueryLoopState -> string, decode: string -> Option<QueryLoopState>,
                ghost events: seq<Event>, records: seq<Record>)
    returns (state: Option<QueryLoopState>)
    requires WellConfigured(cfg) && OthersDiffer(cfg, events) && cfg.stateKey != ""
    requires records == JournalAfter(cfg, snapshot, events)
    requires forall s :: decode(snapshot(s)) == Some(s)
    ensures state == WorldAfter(cfg, events).durable
  {
    JournalHoldsDurableState(cfg, snapshot, events);
    var states := Runtime.ReplayQueryStates(records);
    assert Runtime.Kept(records, |records|, cfg.stateKey, states);
    if cfg.stateKey in states {
      return decode(states[cfg.stateKey].snapshot);
    }
    return None;
  }
}
