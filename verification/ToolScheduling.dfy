/**
 * Scheduling of one tool batch (agents/query.py, `_execute_default_tool_calls`): calls marked
 * safe run together between barriers, every other call runs alone. Which task moves next,
 * what it returns and whether a commit fails are left open.
 */
module ToolScheduling {
  import opened Wrappers
  import opened Transcript
  import opened Counting

  datatype Kind = AlreadyCommitted | Safe | Barrier

  /** `Start` is a call getting its slot, `Finish` its outcome, `Commit` the hand-over of that outcome. */
  datatype Event = Start(index: nat) | Finish(index: nat, outcome: string) | Commit(index: nat)

  function KindOf(call: ToolCall, committed: map<string, string>, safe: set<string>): Kind {
    if call.id in committed then AlreadyCommitted else if call.name in safe then Safe else Barrier
  }

  function Kinds(calls: seq<ToolCall>, committed: map<string, string>, safe: set<string>): (kinds: seq<Kind>)
    ensures |kinds| == |calls|
    ensures forall i | 0 <= i < |calls| :: kinds[i] == KindOf(calls[i], committed, safe)
  {
    seq(|calls|, i requires 0 <= i < |calls| => KindOf(calls[i], committed, safe))
  }

  // ----------------------------------------------------------------- what a trace says

  ghost function Started(trace: seq<Event>): set<nat> {
    if trace == [] then {}
    else
      var e := trace[|trace| - 1];
      Started(trace[..|trace| - 1]) + if e.Start? then {e.index} else {}
  }

  ghost function Finished(trace: seq<Event>): set<nat> {
    if trace == [] then {}
    else
      var e := trace[|trace| - 1];
      Finished(trace[..|trace| - 1]) + if e.Finish? then {e.index} else {}
  }

  ghost function CommittedIn(trace: seq<Event>): set<nat> {
    if trace == [] then {}
    else
      var e := trace[|trace| - 1];
      CommittedIn(trace[..|trace| - 1]) + if e.Commit? then {e.index} else {}
  }

  ghost function Running(trace: seq<Event>): set<nat> {
    Started(trace) - Finished(trace)
  }

  lemma OneMoreEvent(trace: seq<Event>, e: Event)
    ensures Started(trace + [e]) == Started(trace) + if e.Start? then {e.index} else {}
    ensures Finished(trace + [e]) == Finished(trace) + if e.Finish? then {e.index} else {}
    ensures CommittedIn(trace + [e]) == CommittedIn(trace) + if e.Commit? then {e.index} else {}
  {
    assert (trace + [e])[..|trace|] == trace;
  }

  ghost predicate NoBarrierBetween(kinds: seq<Kind>, i: nat, j: nat) {
    forall k | i < k < j && k < |kinds| :: kinds[k] != Barrier
  }

  ghost predicate MayStart(kinds: seq<Kind>, limit: nat, trace: seq<Event>, i: nat) {
    && i < |kinds| && kinds[i] != AlreadyCommitted && i !in Started(trace)
    && |Running(trace)| < limit
    && (kinds[i] == Barrier ==>
          && (forall j | 0 <= j < i && kinds[j] != AlreadyCommitted :: j in Finished(trace))
          && (forall j | j in Started(trace) :: j < i))
    && (kinds[i] == Safe ==>
          && (forall j | 0 <= j < i && kinds[j] == Barrier :: j in Finished(trace))
          && (forall j | j in Started(trace) && j > i :: j < |kinds| && kinds[j] == Safe && NoBarrierBetween(kinds, i, j)))
  }

  ghost predicate MayHappen(kinds: seq<Kind>, limit: nat, trace: seq<Event>, e: Event) {
    match e
    case Start(i) => MayStart(kinds, limit, trace, i)
    case Finish(i, _) => i in Running(trace)
    case Commit(i) => i in Finished(trace) && i !in CommittedIn(trace)
  }

  /** Every event was possible when it happened. */
  ghost predicate Orderly(kinds: seq<Kind>, limit: nat, trace: seq<Event>)
    decreases |trace|
  {
    trace == []
    || (var init := trace[..|trace| - 1];
        Orderly(kinds, limit, init) && MayHappen(kinds, limit, init, trace[|trace| - 1]))
  }

  lemma OrderlyOneMore(kinds: seq<Kind>, limit: nat, trace: seq<Event>, e: Event)
    requires Orderly(kinds, limit, trace) && MayHappen(kinds, limit, trace, e)
    ensures Orderly(kinds, limit, trace + [e])
  {
    assert (trace + [e])[..|trace|] == trace;
  }

  // ------------------------------------------------------------------- overlap theorems

  /** Calls in flight are safe and of one group. */
  ghost predicate Together(kinds: seq<Kind>, running: set<nat>) {
    && (forall i, j | i in running && j in running && i < j ::
          j < |kinds| && kinds[i] == Safe && kinds[j] == Safe && NoBarrierBetween(kinds, i, j))
  }

  /** Everything before a barrier ended before it began. */
  ghost predicate BarriersHeld(kinds: seq<Kind>, started: set<nat>, finished: set<nat>) {
    forall k, j | k in started && k < |kinds| && kinds[k] == Barrier && 0 <= j < k && kinds[j] != AlreadyCommitted ::
      j in finished
  }

  /** What holds of the calls in flight after any orderly trace. */
  ghost predicate Disjoint(kinds: seq<Kind>, limit: nat, trace: seq<Event>) {
    && Finished(trace) <= Started(trace)
    && (forall i | i in Started(trace) :: i < |kinds| && kinds[i] != AlreadyCommitted)
    && |Running(trace)| <= limit
    && Together(kinds, Running(trace))
    && BarriersHeld(kinds, Started(trace), Finished(trace))
  }

  /** A barrier starts only when nothing runs. */
  lemma BarrierStartsAlone(kinds: seq<Kind>, limit: nat, trace: seq<Event>, i: nat)
    requires Disjoint(kinds, limit, trace) && MayStart(kinds, limit, trace, i) && kinds[i] == Barrier
    ensures Running(trace) == {}
  {
    forall j | j in Started(trace) ensures j in Finished(trace) {
      assert j < i && kinds[j] != AlreadyCommitted;
    }
  }

  /** A safe call starts only beside safe calls of its own group. */
  lemma SafeStartsInGroup(kinds: seq<Kind>, limit: nat, trace: seq<Event>, i: nat, j: nat)
    requires Disjoint(kinds, limit, trace) && MayStart(kinds, limit, trace, i) && kinds[i] == Safe && j in Running(trace)
    ensures j < |kinds| && kinds[j] == Safe && j != i
    ensures if j < i then NoBarrierBetween(kinds, j, i) else NoBarrierBetween(kinds, i, j)
  {
    assert j in Started(trace) && j !in Finished(trace);
    assert forall k | j < k < i && k < |kinds| && kinds[k] == Barrier :: k in Started(trace) by {
      assert forall k | 0 <= k < i && kinds[k] == Barrier :: k in Finished(trace);
    }
  }

  lemma BarrierKeepsDisjoint(kinds: seq<Kind>, limit: nat, trace: seq<Event>, i: nat)
    requires Disjoint(kinds, limit, trace) && MayStart(kinds, limit, trace, i) && kinds[i] == Barrier
    ensures Disjoint(kinds, limit, trace + [Start(i)])
  {
    OneMoreEvent(trace, Start(i));
    BarrierStartsAlone(kinds, limit, trace, i);
    assert Running(trace + [Start(i)]) == {i};
  }

  lemma SafeJoinsGroup(kinds: seq<Kind>, limit: nat, trace: seq<Event>, i: nat)
    requires Disjoint(kinds, limit, trace) && MayStart(kinds, limit, trace, i) && kinds[i] == Safe
    ensures Together(kinds, Running(trace) + {i})
  {
    forall j | j in Running(trace)
      ensures j < |kinds| && kinds[j] == Safe && j != i
      ensures if j < i then NoBarrierBetween(kinds, j, i) else NoBarrierBetween(kinds, i, j)
    {
      SafeStartsInGroup(kinds, limit, trace, i, j);
    }
  }

  lemma SafeKeepsDisjoint(kinds: seq<Kind>, limit: nat, trace: seq<Event>, i: nat)
    requires Disjoint(kinds, limit, trace) && MayStart(kinds, limit, trace, i) && kinds[i] == Safe
    ensures Disjoint(kinds, limit, trace + [Start(i)])
  {
    OneMoreEvent(trace, Start(i));
    assert Running(trace + [Start(i)]) == Running(trace) + {i};
    SafeJoinsGroup(kinds, limit, trace, i);
  }

  lemma FinishKeepsDisjoint(kinds: seq<Kind>, limit: nat, trace: seq<Event>, e: Event)
    requires Disjoint(kinds, limit, trace) && MayHappen(kinds, limit, trace, e) && !e.Start?
    ensures Disjoint(kinds, limit, trace + [e])
  {
    OneMoreEvent(trace, e);
    var next := trace + [e];
    assert Started(next) == Started(trace) && Finished(trace) <= Finished(next) <= Started(next);
    FewerTogether(kinds, Running(next), Running(trace));
    SubsetSize(Running(next), Running(trace));
  }

  lemma FewerTogether(kinds: seq<Kind>, fewer: set<nat>, running: set<nat>)
    requires fewer <= running && Together(kinds, running)
    ensures Together(kinds, fewer)
  {
  }

  lemma EventKeepsDisjoint(kinds: seq<Kind>, limit: nat, trace: seq<Event>, e: Event)
    requires Disjoint(kinds, limit, trace) && MayHappen(kinds, limit, trace, e)
    ensures Disjoint(kinds, limit, trace + [e])
  {
    if e.Start? {
      if kinds[e.index] == Barrier {
        BarrierKeepsDisjoint(kinds, limit, trace, e.index);
      } else {
        SafeKeepsDisjoint(kinds, limit, trace, e.index);
      }
    } else {
      FinishKeepsDisjoint(kinds, limit, trace, e);
    }
  }

  lemma {:induction false} OrderlyIsDisjoint(kinds: seq<Kind>, limit: nat, trace: seq<Event>)
    requires Orderly(kinds, limit, trace)
    ensures Disjoint(kinds, limit, trace)
    decreases |trace|
  {
    if trace != [] {
      var init, e := trace[..|trace| - 1], trace[|trace| - 1];
      OrderlyIsDisjoint(kinds, limit, init);
      assert trace == init + [e];
      EventKeepsDisjoint(kinds, limit, init, e);
    }
  }

  lemma {:induction false} OrderlyPrefix(kinds: seq<Kind>, limit: nat, trace: seq<Event>, p: nat)
    requires Orderly(kinds, limit, trace) && p <= |trace|
    ensures Orderly(kinds, limit, trace[..p])
    decreases |trace|
  {
    if p == |trace| {
      assert trace[..p] == trace;
    } else {
      OrderlyPrefix(kinds, limit, trace[..|trace| - 1], p);
      assert trace[..|trace| - 1][..p] == trace[..p];
    }
  }

  /**
   * At every moment of an orderly run a call that is not safe runs alone, calls that run
   * together are safe with no barrier between them, and no more run than the limit allows.
   */
  lemma CallsNeverOverlapWrongly(kinds: seq<Kind>, limit: nat, trace: seq<Event>, p: nat)
    requires Orderly(kinds, limit, trace) && p <= |trace|
    ensures Disjoint(kinds, limit, trace[..p])
  {
    OrderlyPrefix(kinds, limit, trace, p);
    OrderlyIsDisjoint(kinds, limit, trace[..p]);
  }

  ghost function Starts(trace: seq<Event>, i: nat): nat {
    if trace == [] then 0
    else Starts(trace[..|trace| - 1], i) + if trace[|trace| - 1] == Start(i) then 1 else 0
  }

  /** A call starts once if it starts at all. */
  lemma {:induction false} StartsAtMostOnce(kinds: seq<Kind>, limit: nat, trace: seq<Event>, i: nat)
    requires Orderly(kinds, limit, trace)
    ensures Starts(trace, i) == if i in Started(trace) then 1 else 0
    decreases |trace|
  {
    if trace != [] {
      var n := |trace| - 1;
      StartsAtMostOnce(kinds, limit, trace[..n], i);
    }
  }

  // ------------------------------------------------------------------ said of the calls alone

  /** A call that has to run alone: nothing was committed for it, and its tool is not marked safe. */
  predicate RunsAlone(call: ToolCall, committed: map<string, string>, safe: set<string>) {
    call.id !in committed && call.name !in safe
  }

  predicate AllSafeBetween(calls: seq<ToolCall>, committed: map<string, string>, safe: set<string>, i: nat, j: nat) {
    j < |calls| && calls[j].name in safe && forall k | i < k < j :: !RunsAlone(calls[k], committed, safe)
  }

  lemma BetweenByCalls(calls: seq<ToolCall>, committed: map<string, string>, safe: set<string>, i: nat, j: nat)
    requires i < j < |calls| && calls[j].id !in committed
    ensures var kinds := Kinds(calls, committed, safe);
      AllSafeBetween(calls, committed, safe, i, j) <==> kinds[j] == Safe && NoBarrierBetween(kinds, i, j)
  {
    var kinds := Kinds(calls, committed, safe);
    if NoBarrierBetween(kinds, i, j) {
      forall k | i < k < j ensures !RunsAlone(calls[k], committed, safe) {
        assert kinds[k] != Barrier;
      }
    }
  }

  lemma DisjointByCalls(
      calls: seq<ToolCall>, committed: map<string, string>, safe: set<string>,
      running: set<nat>, started: set<nat>, finished: set<nat>, i: nat, j: nat)
    requires var kinds := Kinds(calls, committed, safe); Together(kinds, running) && BarriersHeld(kinds, started, finished)
    requires running <= started && forall k | k in started :: k < |calls| && Kinds(calls, committed, safe)[k] != AlreadyCommitted
    ensures i in started ==> i < |calls| && calls[i].id !in committed
    ensures i in running && j in running && i < j ==> calls[i].name in safe && AllSafeBetween(calls, committed, safe, i, j)
    ensures j in started && i < j < |calls| && RunsAlone(calls[j], committed, safe) && calls[i].id !in committed ==> i in finished
  {
    if i in running && j in running && i < j {
      BetweenByCalls(calls, committed, safe, i, j);
    }
  }

  /**
   * At every moment of every schedule: no more calls run than the limit allows and none that was committed
   * before; two run together only if both their tools are safe and no call between them has to run alone;
   * and a call that has to run alone begins after every uncommitted call before it has ended.
   */
  lemma OnlySafeCallsOverlap(
      calls: seq<ToolCall>, committed: map<string, string>, safe: set<string>, limit: nat, trace: seq<Event>, p: nat,
      i: nat, j: nat)
    requires Orderly(Kinds(calls, committed, safe), limit, trace) && p <= |trace|
    ensures var running, started, finished := Running(trace[..p]), Started(trace[..p]), Finished(trace[..p]);
      && |running| <= limit
      && (i in started ==> i < |calls| && calls[i].id !in committed)
      && (i in running && j in running && i < j ==> calls[i].name in safe && AllSafeBetween(calls, committed, safe, i, j))
      && (j in started && i < j < |calls| && RunsAlone(calls[j], committed, safe) && calls[i].id !in committed ==> i in finished)
  {
    CallsNeverOverlapWrongly(Kinds(calls, committed, safe), limit, trace, p);
    DisjointByCalls(
      calls, committed, safe, Running(trace[..p]), Started(trace[..p]), Finished(trace[..p]), i, j);
  }

  ghost predicate NothingInTheWay(
      calls: seq<ToolCall>, committed: map<string, string>, safe: set<string>, started: set<nat>, finished: set<nat>, i: nat)
    requires i < |calls|
  {
    if calls[i].name !in safe then
      && (forall j | 0 <= j < i && calls[j].id !in committed :: j in finished)
      && (forall j | j in started :: j < i)
    else
      && (forall j | 0 <= j < i && RunsAlone(calls[j], committed, safe) :: j in finished)
      && (forall j | j in started && j > i :: AllSafeBetween(calls, committed, safe, i, j))
  }

  lemma LaterOnesByCalls(calls: seq<ToolCall>, committed: map<string, string>, safe: set<string>, started: set<nat>, i: nat)
    requires i < |calls| && forall k | k in started :: k < |calls| && calls[k].id !in committed
    ensures var kinds := Kinds(calls, committed, safe);
      (forall j | j in started && j > i :: AllSafeBetween(calls, committed, safe, i, j))
      <==> (forall j | j in started && j > i :: j < |kinds| && kinds[j] == Safe && NoBarrierBetween(kinds, i, j))
  {
    forall j | j in started && j > i
      ensures AllSafeBetween(calls, committed, safe, i, j) <==>
              Kinds(calls, committed, safe)[j] == Safe && NoBarrierBetween(Kinds(calls, committed, safe), i, j)
    {
      BetweenByCalls(calls, committed, safe, i, j);
    }
  }

  lemma InTheWayByCalls(
      calls: seq<ToolCall>, committed: map<string, string>, safe: set<string>, started: set<nat>, finished: set<nat>, i: nat)
    requires i < |calls| && calls[i].id !in committed
    requires forall k | k in started :: k < |calls| && calls[k].id !in committed
    ensures var kinds := Kinds(calls, committed, safe);
      NothingInTheWay(calls, committed, safe, started, finished, i) <==>
      && (kinds[i] == Barrier ==>
            && (forall j | 0 <= j < i && kinds[j] != AlreadyCommitted :: j in finished)
            && (forall j | j in started :: j < i))
      && (kinds[i] == Safe ==>
            && (forall j | 0 <= j < i && kinds[j] == Barrier :: j in finished)
            && (forall j | j in started && j > i :: j < |kinds| && kinds[j] == Safe && NoBarrierBetween(kinds, i, j)))
  {
    LaterOnesByCalls(calls, committed, safe, started, i);
    var kinds := Kinds(calls, committed, safe);
    assert forall j | 0 <= j < i :: kinds[j] == Barrier <==> RunsAlone(calls[j], committed, safe);
    assert forall j | 0 <= j < i :: kinds[j] != AlreadyCommitted <==> calls[j].id !in committed;
  }

  lemma StartByCalls(
      calls: seq<ToolCall>, committed: map<string, string>, safe: set<string>, limit: nat, trace: seq<Event>, i: nat)
    requires forall k | k in Started(trace) :: k < |calls| && calls[k].id !in committed
    ensures MayStart(Kinds(calls, committed, safe), limit, trace, i) <==>
            && i < |calls| && calls[i].id !in committed && i !in Started(trace) && |Running(trace)| < limit
            && NothingInTheWay(calls, committed, safe, Started(trace), Finished(trace), i)
  {
    if i < |calls| && calls[i].id !in committed {
      InTheWayByCalls(calls, committed, safe, Started(trace), Finished(trace), i);
    }
  }

  /** A call may begin exactly when a slot is free and nothing that has to run alone stands in its way. */
  lemma CallMayStartIff(
      calls: seq<ToolCall>, committed: map<string, string>, safe: set<string>, limit: nat, trace: seq<Event>, i: nat)
    requires Orderly(Kinds(calls, committed, safe), limit, trace)
    ensures MayHappen(Kinds(calls, committed, safe), limit, trace, Start(i)) <==>
            && i < |calls| && calls[i].id !in committed && i !in Started(trace) && |Running(trace)| < limit
            && NothingInTheWay(calls, committed, safe, Started(trace), Finished(trace), i)
  {
    forall k | k in Started(trace) ensures k < |calls| && calls[k].id !in committed {
      OnlySafeCallsOverlap(calls, committed, safe, limit, trace, |trace|, k, k);
      assert trace[..|trace|] == trace;
    }
    StartByCalls(calls, committed, safe, limit, trace, i);
  }

  // ------------------------------------------------------------------------ the scheduler

  /** The last outcome a trace gives for a call. */
  function OutcomeOf(trace: seq<Event>, i: nat): Option<string> {
    if trace == [] then None
    else
      var e := trace[|trace| - 1];
      if e.Finish? && e.index == i then Some(e.outcome) else OutcomeOf(trace[..|trace| - 1], i)
  }

  lemma OutcomeOneMore(trace: seq<Event>, e: Event, i: nat)
    ensures OutcomeOf(trace + [e], i) == if e.Finish? && e.index == i then Some(e.outcome) else OutcomeOf(trace, i)
  {
    assert (trace + [e])[..|trace|] == trace;
  }

  /** The results handed over so far are the outcomes of their calls, beside those committed before. */
  ghost predicate ResultsHeld(
    calls: seq<ToolCall>, committed: map<string, string>, byId: map<string, string>, trace: seq<Event>)
  {
    && (forall i | i in CommittedIn(trace) ::
          i < |calls| && calls[i].id in byId && OutcomeOf(trace, i) == Some(byId[calls[i].id]))
    && (forall id | id in committed :: id in byId && byId[id] == committed[id])
  }

  /** Events other than a commit of their own leave the results as they are. */
  lemma ResultsStay(
      calls: seq<ToolCall>, committed: map<string, string>, byId: map<string, string>, trace: seq<Event>, e: Event)
    requires ResultsHeld(calls, committed, byId, trace) && !e.Commit? && e.index !in CommittedIn(trace)
    ensures ResultsHeld(calls, committed, byId, trace + [e])
  {
    OneMoreEvent(trace, e);
    forall i | i in CommittedIn(trace + [e])
      ensures i < |calls| && calls[i].id in byId && OutcomeOf(trace + [e], i) == Some(byId[calls[i].id])
    {
      OutcomeOneMore(trace, e, i);
    }
  }

  lemma ResultsGrow(
      calls: seq<ToolCall>, committed: map<string, string>, byId: map<string, string>, trace: seq<Event>, k: nat)
    requires ResultsHeld(calls, committed, byId, trace) && GoodIds(calls)
    requires k < |calls| && calls[k].id !in committed && OutcomeOf(trace, k).Some?
    ensures ResultsHeld(calls, committed, byId[calls[k].id := OutcomeOf(trace, k).value], trace + [Commit(k)])
  {
    OneMoreEvent(trace, Commit(k));
    var after := byId[calls[k].id := OutcomeOf(trace, k).value];
    forall i | i in CommittedIn(trace + [Commit(k)])
      ensures i < |calls| && calls[i].id in after && OutcomeOf(trace + [Commit(k)], i) == Some(after[calls[i].id])
    {
      OutcomeOneMore(trace, Commit(k), i);
      assert i == k || calls[i].id != calls[k].id;
    }
  }

  /** Exactly the uncommitted calls before `n` outside the waiting group have run, and all of them ended. */
  ghost predicate AllRun(
    kinds: seq<Kind>, group: set<nat>, started: set<nat>, finished: set<nat>, handed: set<nat>, n: nat)
  {
    && n <= |kinds|
    && (forall i | i in group :: i < n && kinds[i] == Safe && NoBarrierBetween(kinds, i, n))
    && (forall i: nat :: i in started <==> i < n && i < |kinds| && kinds[i] != AlreadyCommitted && i !in group)
    && (forall i: nat :: i in finished <==> i in started)
    && (forall i: nat :: i in handed <==> i in started)
  }

  lemma PassCommitted(kinds: seq<Kind>, group: set<nat>, started: set<nat>, finished: set<nat>, handed: set<nat>, n: nat)
    requires AllRun(kinds, group, started, finished, handed, n) && n < |kinds| && kinds[n] == AlreadyCommitted
    ensures AllRun(kinds, group, started, finished, handed, n + 1)
  {
    forall i | i in group ensures NoBarrierBetween(kinds, i, n + 1) {
      assert NoBarrierBetween(kinds, i, n);
    }
  }

  lemma HoldSafe(kinds: seq<Kind>, group: set<nat>, started: set<nat>, finished: set<nat>, handed: set<nat>, n: nat)
    requires AllRun(kinds, group, started, finished, handed, n) && n < |kinds| && kinds[n] == Safe
    ensures AllRun(kinds, group + {n}, started, finished, handed, n + 1)
  {
    forall i | i in group + {n} ensures NoBarrierBetween(kinds, i, n + 1) {
      assert i in group ==> NoBarrierBetween(kinds, i, n);
    }
  }

  lemma RunBarrier(
      kinds: seq<Kind>, started: set<nat>, finished: set<nat>, handed: set<nat>,
      started': set<nat>, finished': set<nat>, handed': set<nat>, n: nat)
    requires AllRun(kinds, {}, started, finished, handed, n) && n < |kinds| && kinds[n] == Barrier
    requires started' == started + {n} && finished' == finished + {n} && handed' == handed + {n}
    ensures AllRun(kinds, {}, started', finished', handed', n + 1)
  {
  }

  lemma BarrierMayStart(kinds: seq<Kind>, limit: nat, trace: seq<Event>, handed: set<nat>, n: nat)
    requires AllRun(kinds, {}, Started(trace), Finished(trace), handed, n) && n < |kinds| && kinds[n] == Barrier && limit > 0
    ensures MayStart(kinds, limit, trace, n)
  {
    assert Running(trace) == {};
  }

  class Batch {
    const calls: seq<ToolCall>
    const committed: map<string, string>
    const kinds: seq<Kind>
    const limit: nat
    var byId: map<string, string>
    var safeGroup: set<nat>
    var trace: seq<Event>

    constructor (calls: seq<ToolCall>, committed: map<string, string>, safe: set<string>, limit: nat)
      requires limit > 0
      ensures this.calls == calls && this.committed == committed && this.limit == limit
      ensures kinds == Kinds(calls, committed, safe)
      ensures byId == committed && safeGroup == {} && trace == []
    {
      this.calls, this.committed, this.limit := calls, committed, limit;
      this.kinds := Kinds(calls, committed, safe);
      byId, safeGroup, trace := committed, {}, [];
    }

    ghost predicate Valid()
      reads this
    {
      && limit > 0 && |kinds| == |calls| && GoodIds(calls)
      && (forall i | 0 <= i < |calls| :: kinds[i] == AlreadyCommitted <==> calls[i].id in committed)
      && Orderly(kinds, limit, trace)
      && ResultsHeld(calls, committed, byId, trace)
    }

    ghost predicate DoneUpTo(n: nat)
      reads this
    {
      AllRun(kinds, safeGroup, Started(trace), Finished(trace), CommittedIn(trace), n)
    }

    method StartCall(i: nat)
      requires Valid() && MayStart(kinds, limit, trace, i) && i !in CommittedIn(trace)
      modifies this`trace
      ensures Valid()
      ensures Started(trace) == old(Started(trace)) + {i} && Finished(trace) == old(Finished(trace))
      ensures CommittedIn(trace) == old(CommittedIn(trace))
    {
      OneMoreEvent(trace, Start(i));
      OrderlyOneMore(kinds, limit, trace, Start(i));
      ResultsStay(calls, committed, byId, trace, Start(i));
      trace := trace + [Start(i)];
    }

    method FinishCall(i: nat)
      requires Valid() && i in Running(trace) && i !in CommittedIn(trace)
      modifies this`trace
      ensures Valid()
      ensures Started(trace) == old(Started(trace)) && Finished(trace) == old(Finished(trace)) + {i}
      ensures CommittedIn(trace) == old(CommittedIn(trace))
    {
      var outcome: string := *;
      OneMoreEvent(trace, Finish(i, outcome));
      OrderlyOneMore(kinds, limit, trace, Finish(i, outcome));
      ResultsStay(calls, committed, byId, trace, Finish(i, outcome));
      trace := trace + [Finish(i, outcome)];
    }

    /** Handing a result over may fail, which ends the whole batch. */
    method CommitCall(i: nat) returns (ok: bool)
      requires Valid() && i < |calls| && i in Finished(trace) && i !in CommittedIn(trace)
      requires kinds[i] != AlreadyCommitted
      modifies this`trace, this`byId
      ensures Valid()
      ensures Started(trace) == old(Started(trace)) && Finished(trace) == old(Finished(trace))
      ensures CommittedIn(trace) == old(CommittedIn(trace)) + {i}
    {
      FinishedHasOutcome(trace, i);
      OneMoreEvent(trace, Commit(i));
      OrderlyOneMore(kinds, limit, trace, Commit(i));
      ResultsGrow(calls, committed, byId, trace, i);
      byId := byId[calls[i].id := OutcomeOf(trace, i).value];
      trace := trace + [Commit(i)];
      ok := *;
    }

    /** A call that is not safe runs from start to commit with nothing beside it. */
    method ExecuteOne(i: nat) returns (ok: bool)
      requires Valid() && MayStart(kinds, limit, trace, i)
      requires i !in Finished(trace) && i !in CommittedIn(trace)
      modifies this`trace, this`byId
      ensures Valid()
      ensures Started(trace) == old(Started(trace)) + {i} && Finished(trace) == old(Finished(trace)) + {i}
      ensures CommittedIn(trace) == old(CommittedIn(trace)) + {i}
    {
      StartCall(i);
      FinishCall(i);
      ok := CommitCall(i);
    }

    /** Where the waiting group stands: not started, in flight, ended, or handed over. */
    ghost predicate GroupStands(group: set<nat>, before: set<nat>, waiting: set<nat>, running: set<nat>, ended: set<nat>)
      reads this
    {
      && waiting !! running && waiting !! ended && running !! ended
      && (forall i: nat :: i in waiting || i in running || i in ended ==> i in group)
      && (forall i: nat :: i in group ==> i !in before)
      && (forall i: nat :: i in Started(trace) <==> i in before || (i in group && i !in waiting))
      && (forall i: nat :: i in Finished(trace) <==> i in before || (i in group && i !in waiting && i !in running))
      && (forall i: nat :: i in CommittedIn(trace) <==>
            i in before || (i in group && i !in waiting && i !in running && i !in ended))
    }

    method StartWaiting(ghost group: set<nat>, ghost before: set<nat>, ghost n: nat,
        waiting: set<nat>, running: set<nat>, ended: set<nat>) returns (stillWaiting: set<nat>, nowRunning: set<nat>)
      requires Valid() && n <= |kinds| && waiting != {} && |running| < limit
      requires GroupStands(group, before, waiting, running, ended) && GroupIsDue(group, before, n)
      modifies this`trace
      ensures Valid() && GroupStands(group, before, stillWaiting, nowRunning, ended)
      ensures |stillWaiting| == |waiting| - 1 && |nowRunning| == |running| + 1
    {
      var i :| i in waiting;
      SafeMayStart(group, before, n, waiting, running, ended, i);
      StartCall(i);
      stillWaiting, nowRunning := waiting - {i}, running + {i};
    }

    method FinishRunning(ghost group: set<nat>, ghost before: set<nat>,
        ghost waiting: set<nat>, running: set<nat>, ended: set<nat>) returns (stillRunning: set<nat>, nowEnded: set<nat>)
      requires Valid() && running != {} && GroupStands(group, before, waiting, running, ended)
      modifies this`trace
      ensures Valid() && GroupStands(group, before, waiting, stillRunning, nowEnded)
      ensures |stillRunning| == |running| - 1 && |nowEnded| == |ended| + 1
    {
      var i :| i in running;
      FinishCall(i);
      stillRunning, nowEnded := running - {i}, ended + {i};
    }

    method CommitEnded(ghost group: set<nat>, ghost before: set<nat>, ghost n: nat,
        ghost waiting: set<nat>, ghost running: set<nat>, ended: set<nat>) returns (stillEnded: set<nat>, ok: bool)
      requires Valid() && n <= |kinds| && ended != {}
      requires GroupStands(group, before, waiting, running, ended) && GroupIsDue(group, before, n)
      modifies this`trace, this`byId
      ensures Valid() && GroupStands(group, before, waiting, running, stillEnded)
      ensures |stillEnded| == |ended| - 1
    {
      var i :| i in ended;
      ok := CommitCall(i);
      stillEnded := ended - {i};
    }

    /**
     * The waiting group's tasks run together. Any waiting task may take a free slot, any
     * running one may end, and any ended one may be handed over, in every order.
     */
    method FlushSafeGroup(ghost n: nat) returns (ok: bool)
      requires Valid() && DoneUpTo(n)
      modifies this
      ensures Valid()
      ensures ok ==> DoneUpTo(n) && safeGroup == {}
    {
      var group := safeGroup;
      ghost var before := Started(trace);
      safeGroup := {};
      var waiting: set<nat>, running: set<nat>, ended: set<nat> := group, {}, {};
      while waiting != {} || running != {} || ended != {}
        invariant Valid() && safeGroup == {} && n <= |kinds| && GroupIsDue(group, before, n)
        invariant GroupStands(group, before, waiting, running, ended)
        decreases 3 * |waiting| + 2 * |running| + |ended|
      {
        var wake: bool := *;
        var finish: bool := *;
        if waiting != {} && |running| < limit && (wake || (running == {} && ended == {})) {
          waiting, running := StartWaiting(group, before, n, waiting, running, ended);
        } else if running != {} && (finish || ended == {}) {
          running, ended := FinishRunning(group, before, waiting, running, ended);
        } else {
          ended, ok := CommitEnded(group, before, n, waiting, running, ended);
          if !ok {
            return;
          }
        }
      }
      return true;
    }

    /** The group's calls are safe and in one stretch up to `n`, and everything else before `n` has run. */
    ghost predicate GroupIsDue(group: set<nat>, before: set<nat>, n: nat) {
      && (forall j: nat :: j in before <==> j < n && j < |kinds| && kinds[j] != AlreadyCommitted && j !in group)
      && (forall j | j in group :: j < n && j < |kinds| && kinds[j] == Safe && NoBarrierBetween(kinds, j, n))
    }

    /** A waiting safe call with a free slot may start: no barrier before it is open, none after it has started. */
    lemma SafeMayStart(
        group: set<nat>, before: set<nat>, n: nat, waiting: set<nat>, running: set<nat>, ended: set<nat>, i: nat)
      requires n <= |kinds| && GroupIsDue(group, before, n)
      requires GroupStands(group, before, waiting, running, ended) && i in waiting && |running| < limit
      ensures MayStart(kinds, limit, trace, i)
    {
      assert Running(trace) == running;
      forall j | j in Started(trace) && j > i
        ensures j < |kinds| && kinds[j] == Safe && NoBarrierBetween(kinds, i, j)
      {
        assert j in before || j in group;
        assert j < n && NoBarrierBetween(kinds, i, n);
      }
    }

    /** The loop over the runnable calls. */
    method Run() returns (ok: bool)
      requires Valid() && safeGroup == {} && trace == []
      modifies this
      ensures Valid()
      ensures ok ==> DoneUpTo(|calls|) && safeGroup == {}
    {
      for n := 0 to |calls|
        invariant Valid() && DoneUpTo(n)
      {
        ok := Take(n);
        if !ok {
          return;
        }
      }
      ok := FlushSafeGroup(|calls|);
    }

    /** One call: passed over, held for its group, or run alone after the group before it. */
    method Take(n: nat) returns (ok: bool)
      requires Valid() && n < |calls| && DoneUpTo(n)
      modifies this
      ensures Valid()
      ensures ok ==> DoneUpTo(n + 1)
    {
      if calls[n].id in committed {
        PassCommitted(kinds, safeGroup, Started(trace), Finished(trace), CommittedIn(trace), n);
        return true;
      }
      if kinds[n] == Safe {
        HoldSafe(kinds, safeGroup, Started(trace), Finished(trace), CommittedIn(trace), n);
        safeGroup := safeGroup + {n};
        return true;
      }
      ok := FlushSafeGroup(n);
      if ok {
        ghost var started, finished, handed := Started(trace), Finished(trace), CommittedIn(trace);
        BarrierMayStart(kinds, limit, trace, handed, n);
        ok := ExecuteOne(n);
        RunBarrier(kinds, started, finished, handed, Started(trace), Finished(trace), CommittedIn(trace), n);
      }
    }

    /** After a whole batch every result is there. */
    lemma AllResults(i: nat)
      requires Valid() && DoneUpTo(|calls|) && safeGroup == {} && i < |calls|
      ensures calls[i].id in byId && IsResult(calls, committed, trace, i, byId[calls[i].id])
      ensures Starts(trace, i) == if kinds[i] == AlreadyCommitted then 0 else 1
    {
      StartsAtMostOnce(kinds, limit, trace, i);
      if calls[i].id !in committed {
        assert i in CommittedIn(trace);
      }
    }

    /** The results in call order, by the ids of the calls. */
    method InCallOrder() returns (ordered: seq<string>)
      requires Valid() && DoneUpTo(|calls|) && safeGroup == {}
      ensures |ordered| == |calls|
      ensures forall i | 0 <= i < |calls| ::
                IsResult(calls, committed, trace, i, ordered[i])
                && Starts(trace, i) == if kinds[i] == AlreadyCommitted then 0 else 1
    {
      ordered := [];
      for i := 0 to |calls|
        invariant |ordered| == i
        invariant forall k | 0 <= k < i ::
                    IsResult(calls, committed, trace, k, ordered[k])
                    && Starts(trace, k) == if kinds[k] == AlreadyCommitted then 0 else 1
      {
        AllResults(i);
        ordered := ordered + [byId[calls[i].id]];
      }
    }
  }

  /** A batch limit of zero means no limit. */
  function Runnable(calls: seq<ToolCall>, maxBatch: nat): seq<ToolCall> {
    if maxBatch == 0 || maxBatch >= |calls| then calls else calls[..maxBatch]
  }

  function SlotLimit(maxConcurrent: nat, calls: seq<ToolCall>): (limit: nat)
    ensures limit > 0
  {
    if maxConcurrent > 0 then maxConcurrent else if calls != [] then |calls| else 1
  }

  /** The outcome of every runnable call: the committed one, or the one its only execution gave. */
  ghost predicate IsResult(calls: seq<ToolCall>, committed: map<string, string>, trace: seq<Event>, i: nat, result: string)
    requires i < |calls|
  {
    if calls[i].id in committed then result == committed[calls[i].id] else OutcomeOf(trace, i) == Some(result)
  }

  /** An orderly run; unless it broke off, every call has its result and was started exactly once if it was due. */
  ghost predicate BatchRan(
    runnable: seq<ToolCall>, committed: map<string, string>, safe: set<string>, limit: nat, trace: seq<Event>,
    results: Option<seq<string>>)
  {
    && Orderly(Kinds(runnable, committed, safe), limit, trace)
    && (results.Some? ==>
          && |results.value| == |runnable|
          && forall i | 0 <= i < |runnable| ::
            IsResult(runnable, committed, trace, i, results.value[i])
            && Starts(trace, i) == if runnable[i].id in committed then 0 else 1)
  }

  /**
   * Results come back in call order whatever the order of completion; every uncommitted
   * runnable call started exactly once, no committed one did, and `overflow` are the calls
   * beyond the batch limit.
   */
  method ExecuteDefaultToolCalls(
      calls: seq<ToolCall>, committed: map<string, string>, safe: set<string>, maxConcurrent: nat, maxBatch: nat)
    returns (results: Option<seq<string>>, trace: seq<Event>, overflow: seq<ToolCall>)
    requires GoodIds(calls)
    ensures overflow == if maxBatch == 0 || maxBatch >= |calls| then [] else calls[maxBatch..]
    ensures Runnable(calls, maxBatch) + overflow == calls
    ensures BatchRan(
              Runnable(calls, maxBatch), committed, safe,
              if maxConcurrent > 0 then maxConcurrent else if |calls| > 0 then |calls| else 1, trace, results)
  {
    var runnable := Runnable(calls, maxBatch);
    overflow := calls[|runnable|..];
    results, trace := RunBatch(runnable, committed, safe, SlotLimit(maxConcurrent, calls));
  }

  method RunBatch(runnable: seq<ToolCall>, committed: map<string, string>, safe: set<string>, limit: nat)
    returns (results: Option<seq<string>>, trace: seq<Event>)
    requires GoodIds(runnable) && limit > 0
    ensures BatchRan(runnable, committed, safe, limit, trace, results)
  {
    var batch := new Batch(runnable, committed, safe, limit);
    var ok := batch.Run();
    if !ok {
      return None, batch.trace;
    }
    var ordered := batch.InCallOrder();
    return Some(ordered), batch.trace;
  }

  lemma {:induction false} FinishedHasOutcome(trace: seq<Event>, i: nat)
    requires i in Finished(trace)
    ensures OutcomeOf(trace, i).Some?
  {
    var e := trace[|trace| - 1];
    if !(e.Finish? && e.index == i) {
      FinishedHasOutcome(trace[..|trace| - 1], i);
    }
  }
}
