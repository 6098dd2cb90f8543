/** The task-activity timeline: live events and pages of history merged into one list (frontend/src/lib/task-activity-reducer.ts). */
module TaskTimeline {

  datatype Event = Event(id: string, sequence: int, body: string)

  datatype Timeline = Timeline(events: seq<Event>, cursor: int, eventIds: set<string>)

  const EMPTY := Timeline([], 0, {})

  function IdsOf(events: seq<Event>): set<string> {
    set e | e in events :: e.id
  }

  function SetOf(events: seq<Event>): set<Event> {
    set e | e in events
  }

  predicate Sorted(events: seq<Event>) {
    forall i, j | 0 <= i < j < |events| :: events[i].sequence <= events[j].sequence
  }

  predicate StrictlySorted(events: seq<Event>) {
    forall i, j | 0 <= i < j < |events| :: events[i].sequence < events[j].sequence
  }

  /** Equal ids mean equal events, and so do equal sequence numbers. */
  ghost predicate Consistent(events: set<Event>) {
    forall a, b | a in events && b in events :: a.id == b.id || a.sequence == b.sequence ==> a == b
  }

  // --------------------------------------------------------------------------- sorting

  /** Puts an event behind those with the same or a smaller sequence number. */
  function Insert(sorted: seq<Event>, e: Event): seq<Event> {
    if sorted == [] then [e]
    else
      var n := |sorted| - 1;
      if sorted[n].sequence <= e.sequence then sorted + [e] else Insert(sorted[..n], e) + [sorted[n]]
  }

  /** The stable sort of the array library. */
  function Sort(events: seq<Event>): seq<Event> {
    if events == [] then [] else Insert(Sort(events[..|events| - 1]), events[|events| - 1])
  }

  predicate DistinctIds(events: seq<Event>) {
    forall i, j | 0 <= i < j < |events| :: events[i].id != events[j].id
  }

  lemma LastAndRest(events: seq<Event>)
    requires events != []
    ensures forall e :: e in events <==> e in events[..|events| - 1] || e == events[|events| - 1]
  {
    assert events == events[..|events| - 1] + [events[|events| - 1]];
  }

  lemma {:induction false} InsertKeepsEvents(sorted: seq<Event>, x: Event)
    ensures forall e :: e in Insert(sorted, x) <==> e in sorted || e == x
  {
    if sorted != [] {
      LastAndRest(sorted);
      InsertKeepsEvents(sorted[..|sorted| - 1], x);
    }
  }

  lemma {:induction false} InsertSorts(sorted: seq<Event>, x: Event)
    requires Sorted(sorted)
    ensures Sorted(Insert(sorted, x))
  {
    if sorted != [] {
      var n := |sorted| - 1;
      if sorted[n].sequence > x.sequence {
        InsertSorts(sorted[..n], x);
        InsertKeepsEvents(sorted[..n], x);
        var front := Insert(sorted[..n], x);
        forall i | 0 <= i < |front| ensures front[i].sequence <= sorted[n].sequence {
          assert front[i] in front;
        }
      }
    }
  }

  lemma {:induction false} InsertKeepsDistinct(sorted: seq<Event>, x: Event)
    requires DistinctIds(sorted) && forall e | e in sorted :: e.id != x.id
    ensures DistinctIds(Insert(sorted, x))
  {
    if sorted != [] {
      var n := |sorted| - 1;
      if sorted[n].sequence > x.sequence {
        InsertKeepsDistinct(sorted[..n], x);
        InsertKeepsEvents(sorted[..n], x);
        var front := Insert(sorted[..n], x);
        forall i | 0 <= i < |front| ensures front[i].id != sorted[n].id {
          assert front[i] in front;
        }
      }
    }
  }

  lemma {:induction false} SortSorts(events: seq<Event>)
    ensures Sorted(Sort(events))
    ensures forall e :: e in Sort(events) <==> e in events
    ensures DistinctIds(events) ==> DistinctIds(Sort(events))
  {
    if events != [] {
      var n := |events| - 1;
      SortSorts(events[..n]);
      LastAndRest(events);
      InsertSorts(Sort(events[..n]), events[n]);
      InsertKeepsEvents(Sort(events[..n]), events[n]);
      if DistinctIds(events) {
        InsertKeepsDistinct(Sort(events[..n]), events[n]);
      }
    }
  }

  /** A set of events with distinct sequence numbers has one sorted listing. */
  lemma {:induction false} SortedListingIsUnique(a: seq<Event>, b: seq<Event>)
    requires StrictlySorted(a) && StrictlySorted(b) && SetOf(a) == SetOf(b)
    ensures a == b
  {
    EmptyListing(a);
    EmptyListing(b);
    if a != [] && b != [] {
      var m, n := |a| - 1, |b| - 1;
      assert a[m] in SetOf(b) && b[n] in SetOf(a);
      assert a[m] == b[n];
      forall e ensures e in a[..m] <==> e in b[..n] {
        WithoutLast(a, e);
        WithoutLast(b, e);
      }
      SortedListingIsUnique(a[..m], b[..n]);
    }
  }

  lemma EmptyListing(a: seq<Event>)
    ensures a == [] <==> SetOf(a) == {}
  {
    assert a != [] ==> a[0] in SetOf(a);
  }

  lemma WithoutLast(a: seq<Event>, e: Event)
    requires StrictlySorted(a) && a != []
    ensures e in a[..|a| - 1] <==> e in SetOf(a) && e != a[|a| - 1]
  {
    if e in a && e != a[|a| - 1] {
      var i :| 0 <= i < |a| && a[i] == e;
      assert a[..|a| - 1][i] == e;
    }
  }

  // ------------------------------------------------------------------------ live events

  /** Live events are taken in order of their sequence, unless one is behind the cursor or already there. */
  function Taken(state: Timeline, sorted: seq<Event>): Timeline
    decreases |sorted|
  {
    if sorted == [] then state
    else
      var before := Taken(state, sorted[..|sorted| - 1]);
      var e := sorted[|sorted| - 1];
      if e.sequence <= before.cursor || e.id in before.eventIds then before
      else Timeline(before.events + [e], e.sequence, before.eventIds + {e.id})
  }

  method ReduceTaskActivity(state: Timeline, incoming: seq<Event>) returns (next: Timeline)
    ensures next == Taken(state, Sort(incoming))
  {
    var eventIds, events, cursor := state.eventIds, state.events, state.cursor;
    var candidates := Sort(incoming);
    for i := 0 to |candidates|
      invariant Timeline(events, cursor, eventIds) == Taken(state, candidates[..i])
    {
      var event := candidates[i];
      assert candidates[..i + 1][..i] == candidates[..i];
      if event.sequence <= cursor || event.id in eventIds {
        continue;
      }
      events := events + [event];
      eventIds := eventIds + {event.id};
      cursor := event.sequence;
    }
    assert candidates[..|candidates|] == candidates;
    return Timeline(events, cursor, eventIds);
  }

  // ---------------------------------------------------------------------- history pages

  /** The values of a map filled in order: the place of an id is its first, its event the last. */
  function ByIds(all: seq<Event>): seq<Event> {
    if all == [] then []
    else
      var before := ByIds(all[..|all| - 1]);
      var last := all[|all| - 1];
      var at := Place(before, last.id);
      if at < |before| then before[at := last] else before + [last]
  }

  /** No id twice, none lost, and nothing invented. */
  lemma {:induction false} ByIdsHoldsEachIdOnce(all: seq<Event>)
    ensures DistinctIds(ByIds(all))
    ensures forall e | e in all :: HasId(ByIds(all), e.id)
    ensures forall e | e in ByIds(all) :: e in all
  {
    if all != [] {
      var n := |all| - 1;
      var before := ByIds(all[..n]);
      LastAndRest(all);
      ByIdsHoldsEachIdOnce(all[..n]);
      PutKeepsIds(before, all[n]);
      forall e | e in all ensures HasId(ByIds(all), e.id) {
        if e != all[n] {
          IdStays(before, ByIds(all), e.id);
        }
      }
    }
  }

  lemma IdStays(before: seq<Event>, after: seq<Event>, id: string)
    requires HasId(before, id) && forall e | e in before :: HasId(after, e.id)
    ensures HasId(after, id)
  {
    var e :| e in before && e.id == id;
    assert HasId(after, e.id);
  }

  predicate HasId(events: seq<Event>, id: string) {
    exists e | e in events :: e.id == id
  }

  lemma PutKeepsIds(before: seq<Event>, last: Event)
    requires DistinctIds(before)
    ensures var at := Place(before, last.id);
      var after := if at < |before| then before[at := last] else before + [last];
      && DistinctIds(after) && HasId(after, last.id)
      && (forall e | e in before :: HasId(after, e.id))
      && forall e | e in after :: e in before || e == last
  {
    var at := Place(before, last.id);
    var after := if at < |before| then before[at := last] else before + [last];
    assert after[at] == last;
    forall e | e in before ensures HasId(after, e.id) {
      var k :| 0 <= k < |before| && before[k] == e;
      assert after[k] in after && after[k].id == e.id;
    }
    forall e | e in before ensures at < |before| || e.id != last.id {
    }
  }

  function Place(values: seq<Event>, id: string): (at: nat)
    ensures at <= |values|
    ensures at < |values| ==> values[at].id == id
    ensures at == |values| ==> id !in IdsOf(values)
  {
    if values == [] then 0
    else if values[0].id == id then 0
    else 1 + Place(values[1..], id)
  }

  function MaxCursor(cursor: int, events: seq<Event>): (m: int)
    ensures m >= cursor && forall e | e in events :: e.sequence <= m
    ensures m == cursor || exists e :: e in events && e.sequence == m
  {
    if events == [] then cursor
    else
      var m := MaxCursor(cursor, events[..|events| - 1]);
      var last := events[|events| - 1];
      if last.sequence > m then last.sequence else m
  }

  /** `Math.max(state.cursor, ...sequences, 0)`. */
  function MergedWith(state: Timeline, history: seq<Event>): Timeline {
    var events := Sort(ByIds(history + state.events));
    Timeline(events, MaxCursor(if state.cursor > 0 then state.cursor else 0, events), IdsOf(events))
  }

  method MergeTaskActivityHistory(state: Timeline, history: seq<Event>) returns (next: Timeline)
    ensures next == MergedWith(state, history)
  {
    var values: seq<Event> := [];
    var all := history + state.events;
    for i := 0 to |all|
      invariant values == ByIds(all[..i])
    {
      assert all[..i + 1][..i] == all[..i];
      var at := Place(values, all[i].id);
      if at < |values| {
        values := values[at := all[i]];
      } else {
        values := values + [all[i]];
      }
    }
    assert all[..|all|] == all;
    var events := Sort(values);
    var cursor := MaxCursor(if state.cursor > 0 then state.cursor else 0, events);
    return Timeline(events, cursor, IdsOf(events));
  }

  // -------------------------------------------------------------------------- invariants

  /** Strictly sorted, at or below the cursor, and with exactly the listed ids. */
  ghost predicate WellFormed(state: Timeline) {
    && StrictlySorted(state.events)
    && (forall e | e in state.events :: e.sequence <= state.cursor)
    && state.eventIds == IdsOf(state.events)
    && state.cursor >= 0
  }

  lemma TakeOne(before: Timeline, e: Event)
    requires WellFormed(before) && e.sequence > before.cursor
    ensures WellFormed(Timeline(before.events + [e], e.sequence, before.eventIds + {e.id}))
  {
    var events := before.events + [e];
    LastAndRest(events);
    assert events[..|events| - 1] == before.events;
  }

  lemma {:induction false} TakenIsWellFormed(state: Timeline, sorted: seq<Event>)
    requires WellFormed(state)
    ensures var next := Taken(state, sorted);
      && WellFormed(next) && next.cursor >= state.cursor && state.events <= next.events
      && forall e | e in next.events :: e in state.events || e in sorted
  {
    if sorted != [] {
      var n := |sorted| - 1;
      TakenIsWellFormed(state, sorted[..n]);
      LastAndRest(sorted);
      var before := Taken(state, sorted[..n]);
      if sorted[n].sequence > before.cursor {
        TakeOne(before, sorted[n]);
        assert forall e :: e in before.events + [sorted[n]] <==> e in before.events || e == sorted[n];
      }
    }
  }

  /** Exactly the events beyond the cursor were added, and the cursor stands on the last of them. */
  ghost predicate AddsTheNew(state: Timeline, sorted: seq<Event>, next: Timeline) {
    && (forall e :: e in next.events <==> e in state.events || (e in sorted && e.sequence > state.cursor))
    && next.cursor == MaxCursor(state.cursor, sorted)
  }

  lemma LateChangesNothing(state: Timeline, sorted: seq<Event>, before: Timeline)
    requires WellFormed(state) && sorted != [] && Sorted(sorted) && Consistent(SetOf(state.events) + SetOf(sorted))
    requires AddsTheNew(state, sorted[..|sorted| - 1], before)
    requires sorted[|sorted| - 1].sequence <= before.cursor
    ensures AddsTheNew(state, sorted, before)
  {
    LastAndRest(sorted);
    KnownOrOld(state, sorted, before);
  }

  lemma AheadIsAdded(state: Timeline, sorted: seq<Event>, before: Timeline)
    requires sorted != [] && before.cursor >= state.cursor
    requires AddsTheNew(state, sorted[..|sorted| - 1], before)
    requires sorted[|sorted| - 1].sequence > before.cursor
    ensures var last := sorted[|sorted| - 1];
      AddsTheNew(state, sorted, Timeline(before.events + [last], last.sequence, before.eventIds + {last.id}))
  {
    var last := sorted[|sorted| - 1];
    LastAndRest(sorted);
    forall e ensures e in before.events + [last] <==> e in state.events || (e in sorted && e.sequence > state.cursor) {
      assert e in before.events + [last] <==> e in before.events || e == last;
    }
  }

  lemma OneMoreTaken(state: Timeline, sorted: seq<Event>, before: Timeline)
    requires WellFormed(state) && sorted != [] && Sorted(sorted) && Consistent(SetOf(state.events) + SetOf(sorted))
    requires WellFormed(before) && before.cursor >= state.cursor && AddsTheNew(state, sorted[..|sorted| - 1], before)
    ensures var last := sorted[|sorted| - 1];
      if last.sequence <= before.cursor then AddsTheNew(state, sorted, before)
      else last.id !in before.eventIds
           && AddsTheNew(state, sorted, Timeline(before.events + [last], last.sequence, before.eventIds + {last.id}))
  {
    if sorted[|sorted| - 1].sequence <= before.cursor {
      LateChangesNothing(state, sorted, before);
    } else {
      LastAndRest(sorted);
      AheadIsNew(state, sorted, before, sorted[|sorted| - 1]);
      AheadIsAdded(state, sorted, before);
    }
  }

  /** In a consistent world a live batch adds exactly the events beyond the cursor. */
  lemma {:induction false} TakenAddsTheNew(state: Timeline, sorted: seq<Event>)
    requires WellFormed(state) && Sorted(sorted) && Consistent(SetOf(state.events) + SetOf(sorted))
    ensures AddsTheNew(state, sorted, Taken(state, sorted))
  {
    if sorted != [] {
      var init := sorted[..|sorted| - 1];
      ConsistentPart(SetOf(state.events) + SetOf(init), SetOf(state.events) + SetOf(sorted));
      TakenAddsTheNew(state, init);
      TakenIsWellFormed(state, init);
      OneMoreTaken(state, sorted, Taken(state, init));
    }
  }

  lemma ConsistentPart(part: set<Event>, world: set<Event>)
    requires part <= world && Consistent(world)
    ensures Consistent(part)
  {
  }

  /** An event ahead of everything taken so far does not share an id with any of it. */
  lemma AheadIsNew(state: Timeline, sorted: seq<Event>, before: Timeline, last: Event)
    requires WellFormed(before) && Consistent(SetOf(state.events) + SetOf(sorted))
    requires last in sorted && forall e | e in before.events :: e in state.events || e in sorted
    requires last.sequence > before.cursor
    ensures last.id !in before.eventIds
  {
    var all := SetOf(state.events) + SetOf(sorted);
    assert last in all;
    forall e | e in before.events ensures e.id != last.id {
      assert e in all;
    }
  }

  /** A candidate at or behind the cursor is either old or the event the cursor stands on. */
  lemma KnownOrOld(state: Timeline, sorted: seq<Event>, before: Timeline)
    requires WellFormed(state) && sorted != [] && Sorted(sorted) && Consistent(SetOf(state.events) + SetOf(sorted))
    requires before.cursor == MaxCursor(state.cursor, sorted[..|sorted| - 1])
    requires sorted[|sorted| - 1].sequence <= before.cursor
    requires forall e :: e in before.events <==>
        e in state.events || (e in sorted[..|sorted| - 1] && e.sequence > state.cursor)
    ensures var last := sorted[|sorted| - 1]; last.sequence > state.cursor ==> last in before.events
  {
    var n := |sorted| - 1;
    var last := sorted[n];
    if last.sequence > state.cursor {
      var e :| e in sorted[..n] && e.sequence == before.cursor;
      var i :| 0 <= i < n && sorted[i] == e;
      assert e in SetOf(state.events) + SetOf(sorted) && last in SetOf(state.events) + SetOf(sorted);
      assert e.sequence == last.sequence;
    }
  }

  lemma ByIdsKeepsAll(all: seq<Event>)
    requires Consistent(SetOf(all))
    ensures forall e :: e in ByIds(all) <==> e in all
  {
    ByIdsHoldsEachIdOnce(all);
    var values := ByIds(all);
    forall e | e in all ensures e in values {
      assert HasId(values, e.id);
      var v :| v in values && v.id == e.id;
      assert v in SetOf(all) && e in SetOf(all);
    }
  }

  /** Sorted events with distinct ids of a consistent world are strictly sorted. */
  lemma DistinctIsStrict(events: seq<Event>, world: set<Event>)
    requires Sorted(events) && DistinctIds(events) && Consistent(world) && forall e | e in events :: e in world
    ensures StrictlySorted(events)
  {
    forall i, j | 0 <= i < j < |events| ensures events[i].sequence < events[j].sequence {
      assert events[i] in world && events[j] in world;
    }
  }

  /** Merging a page gives the sorted union, its ids, and the largest cursor. */
  lemma MergeIsSortedUnion(state: Timeline, history: seq<Event>)
    requires Consistent(SetOf(state.events) + SetOf(history)) && state.cursor >= 0
    ensures var next := MergedWith(state, history);
      && WellFormed(next)
      && SetOf(next.events) == SetOf(state.events) + SetOf(history)
      && next.cursor >= state.cursor
      && (next.cursor == state.cursor || exists e :: e in next.events && e.sequence == next.cursor)
  {
    var all := history + state.events;
    assert SetOf(all) == SetOf(state.events) + SetOf(history);
    SortedValues(all);
    assert SetOf(Sort(ByIds(all))) == SetOf(all);
  }

  /** The event is the last one in the list with its id. */
  ghost predicate LastWithId(all: seq<Event>, e: Event) {
    exists k :: 0 <= k < |all| && all[k] == e && forall j | k < j < |all| :: all[j].id != e.id
  }

  lemma LastAfterOneMore(all: seq<Event>, last: Event, e: Event)
    ensures LastWithId(all + [last], e) <==> e == last || (e.id != last.id && LastWithId(all, e))
  {
    var more := all + [last];
    assert more[|all|] == last;
    if LastWithId(all, e) && e.id != last.id {
      var k :| 0 <= k < |all| && all[k] == e && forall j | k < j < |all| :: all[j].id != e.id;
      assert more[k] == e && forall j | k < j < |more| :: more[j].id != e.id;
    }
    if LastWithId(more, e) && e != last {
      var k :| 0 <= k < |more| && more[k] == e && forall j | k < j < |more| :: more[j].id != e.id;
      assert all[k] == e && forall j | k < j < |all| :: more[j] == all[j];
    }
  }

  lemma PutReplaces(before: seq<Event>, last: Event, e: Event)
    requires DistinctIds(before)
    ensures var at := Place(before, last.id);
      e in (if at < |before| then before[at := last] else before + [last])
      <==> e == last || (e.id != last.id && e in before)
  {
    var at := Place(before, last.id);
    if at < |before| {
      assert before[at := last][at] == last;
      if e in before && e.id != last.id {
        var k :| 0 <= k < |before| && before[k] == e;
        assert before[at := last][k] == e;
      }
    }
  }

  lemma ByIdsOneMore(all: seq<Event>, last: Event, e: Event)
    ensures e in ByIds(all + [last]) <==> e == last || (e.id != last.id && e in ByIds(all))
  {
    assert (all + [last])[..|all|] == all;
    ByIdsHoldsEachIdOnce(all);
    PutReplaces(ByIds(all), last, e);
  }

  lemma {:induction false} ByIdsKeepsLast(all: seq<Event>, e: Event)
    ensures e in ByIds(all) <==> LastWithId(all, e)
  {
    if all != [] {
      var before, last := all[..|all| - 1], all[|all| - 1];
      assert all == before + [last];
      ByIdsKeepsLast(before, e);
      ByIdsOneMore(before, last, e);
      LastAfterOneMore(before, last, e);
    }
  }

  /**
   * Even where a page and the timeline disagree about an event: the merge holds each id once, sorted,
   * with the timeline's version if it has one and the page's last version otherwise.
   */
  lemma MergeKeepsLatestVersions(state: Timeline, history: seq<Event>, e: Event)
    ensures var next := MergedWith(state, history);
      && Sorted(next.events) && DistinctIds(next.events)
      && (e in next.events <==> LastWithId(history + state.events, e))
      && next.cursor >= 0 && next.cursor >= state.cursor
      && (e in next.events ==> e.sequence <= next.cursor && e.id in next.eventIds)
      && (next.cursor == 0 || next.cursor == state.cursor || exists x :: x in next.events && x.sequence == next.cursor)
  {
    var all := history + state.events;
    ByIdsKeepsLast(all, e);
    ByIdsHoldsEachIdOnce(all);
    SortSorts(ByIds(all));
  }

  lemma SortedValues(all: seq<Event>)
    requires Consistent(SetOf(all))
    ensures StrictlySorted(Sort(ByIds(all))) && forall e :: e in Sort(ByIds(all)) <==> e in all
  {
    ByIdsKeepsAll(all);
    ByIdsHoldsEachIdOnce(all);
    SortSorts(ByIds(all));
    DistinctIsStrict(Sort(ByIds(all)), SetOf(all));
  }

  // -------------------------------------------------------------------------- convergence

  function MergeAll(state: Timeline, pages: seq<seq<Event>>): Timeline {
    if pages == [] then state else MergedWith(MergeAll(state, pages[..|pages| - 1]), pages[|pages| - 1])
  }

  function UnionOf(pages: seq<seq<Event>>): set<Event> {
    if pages == [] then {} else UnionOf(pages[..|pages| - 1]) + SetOf(pages[|pages| - 1])
  }

  lemma {:induction false} MergeAllIsSortedUnion(state: Timeline, pages: seq<seq<Event>>)
    requires WellFormed(state) && Consistent(SetOf(state.events) + UnionOf(pages))
    ensures var last := MergeAll(state, pages);
      && WellFormed(last) && SetOf(last.events) == SetOf(state.events) + UnionOf(pages)
      && last.cursor >= state.cursor
      && (last.cursor == state.cursor || exists e :: e in last.events && e.sequence == last.cursor)
  {
    if pages != [] {
      var n := |pages| - 1;
      MergeAllIsSortedUnion(state, pages[..n]);
      var before := MergeAll(state, pages[..n]);
      MergeIsSortedUnion(before, pages[n]);
      var last := MergeAll(state, pages);
      if last.cursor == before.cursor != state.cursor {
        var e :| e in before.events && e.sequence == before.cursor;
        assert e in SetOf(last.events);
      }
    }
  }

  /** Any pages with the same events, in any order and with any repetition, end in the same timeline. */
  lemma HistoriesConverge(state: Timeline, pages: seq<seq<Event>>, others: seq<seq<Event>>)
    requires WellFormed(state) && UnionOf(pages) == UnionOf(others)
    requires Consistent(SetOf(state.events) + UnionOf(pages))
    ensures MergeAll(state, pages) == MergeAll(state, others)
  {
    MergeAllIsSortedUnion(state, pages);
    MergeAllIsSortedUnion(state, others);
    var a, b := MergeAll(state, pages), MergeAll(state, others);
    SortedListingIsUnique(a.events, b.events);
  }

  datatype Op = Live(events: seq<Event>) | Page(history: seq<Event>)

  function Apply(state: Timeline, op: Op): Timeline {
    match op
    case Live(events) => Taken(state, Sort(events))
    case Page(history) => MergedWith(state, history)
  }

  function ApplyAll(state: Timeline, ops: seq<Op>): Timeline {
    if ops == [] then state else Apply(ApplyAll(state, ops[..|ops| - 1]), ops[|ops| - 1])
  }

  /** An empty timeline takes an event exactly when its number is positive. */
  lemma FirstEventIsTaken(event: Event)
    ensures Apply(EMPTY, Live([event])).events == if event.sequence > 0 then [event] else []
  {
    assert [event][..0] == [] && Sort([]) == [] && Sort([event]) == [event];
    assert Taken(EMPTY, []) == EMPTY;
  }

  function EventsIn(ops: seq<Op>): set<Event> {
    if ops == [] then {}
    else
      var op := ops[|ops| - 1];
      EventsIn(ops[..|ops| - 1]) + if op.Live? then SetOf(op.events) else SetOf(op.history)
  }

  /** Live events and pages in any interleaving keep the timeline strictly sorted, unique and at or below the cursor. */
  lemma {:induction false} EveryInterleavingIsWellFormed(ops: seq<Op>)
    requires Consistent(EventsIn(ops))
    ensures WellFormed(ApplyAll(EMPTY, ops)) && SetOf(ApplyAll(EMPTY, ops).events) <= EventsIn(ops)
  {
    if ops != [] {
      var n := |ops| - 1;
      ConsistentPart(EventsIn(ops[..n]), EventsIn(ops));
      EveryInterleavingIsWellFormed(ops[..n]);
      var before := ApplyAll(EMPTY, ops[..n]);
      match ops[n] {
        case Live(events) =>
          TakenIsWellFormed(before, Sort(events));
          SortSorts(events);
        case Page(history) =>
          ConsistentPart(SetOf(before.events) + SetOf(history), EventsIn(ops));
          MergeIsSortedUnion(before, history);
      }
    }
  }

  /** After any interleaving, merging a full history leaves exactly its sorted listing. */
  lemma FullHistoryWins(ops: seq<Op>, history: seq<Event>, listing: seq<Event>)
    requires Consistent(EventsIn(ops) + SetOf(history)) && EventsIn(ops) <= SetOf(history)
    requires StrictlySorted(listing) && SetOf(listing) == SetOf(history)
    ensures MergedWith(ApplyAll(EMPTY, ops), history).events == listing
  {
    EveryInterleavingIsWellFormed(ops);
    var before := ApplyAll(EMPTY, ops);
    assert SetOf(before.events) + SetOf(history) == SetOf(history);
    MergeIsSortedUnion(before, history);
    SortedListingIsUnique(MergedWith(before, history).events, listing);
  }
}
