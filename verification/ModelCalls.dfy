/**
 * One budgeted model call among other workers (budgets.py, `reserve_model_call`): every
 * reserve and every release takes the ledger's lock on its own, so anything may happen
 * between them.
 */
module ModelCalls {
  import opened Wrappers
  import opened Budgets

  function InputKey(opKey: string): string { opKey + ":input" }

  function OutputKey(opKey: string): string { opKey + ":output" }

  function CostKey(opKey: string): string { opKey + ":cost" }

  function KeysOf(opKey: string): set<string> {
    {opKey, InputKey(opKey), OutputKey(opKey), CostKey(opKey)}
  }

  /** Nothing of this call is in the ledger yet. */
  predicate FreshCall(ledger: Ledger, opKey: string) {
    forall key | key in KeysOf(opKey) :: key !in ledger.reservations
  }

  function AtLeastOne(tokens: int): (n: int)
    ensures n >= 1
  {
    if tokens > 1 then tokens else 1
  }

  // ------------------------------------------------------------------ what a call asks for

  /** `Unpriced` is the cost estimate that raises. */
  datatype Request = Ask(key: string, dimension: Dimension, amount: int) | Unpriced(error: BudgetError)

  function CostPlan(policy: Policy, opKey: string, cost: Result<int, BudgetError>): seq<Request> {
    if policy.costMicroUsd.None? then []
    else if cost.Err? then [Unpriced(cost.error)]
    else if cost.value > 0 then [Ask(CostKey(opKey), CostMicroUsd, cost.value)] else []
  }

  function OutputPlan(policy: Policy, opKey: string, outputTokens: int): seq<Request> {
    if policy.outputTokens.Some? then [Ask(OutputKey(opKey), OutputTokens, AtLeastOne(outputTokens))] else []
  }

  function InputPlan(policy: Policy, opKey: string, inputTokens: int): seq<Request> {
    if policy.inputTokens.Some? then [Ask(InputKey(opKey), InputTokens, AtLeastOne(inputTokens))] else []
  }

  /** The call itself, then the estimates the policy caps. */
  function CallPlan(
      policy: Policy, opKey: string, inputTokens: int, outputTokens: int, cost: Result<int, BudgetError>): seq<Request>
  {
    [Ask(opKey, ModelCalls, 1)] + InputPlan(policy, opKey, inputTokens) + OutputPlan(policy, opKey, outputTokens)
    + CostPlan(policy, opKey, cost)
  }

  /** All a call asks for: itself, first, and of each capped dimension its estimate, at least one token, and a cost only if there is one. */
  lemma PlanAsks(
      policy: Policy, opKey: string, inputTokens: int, outputTokens: int, cost: Result<int, BudgetError>, r: Request)
    ensures CallPlan(policy, opKey, inputTokens, outputTokens, cost)[0] == Ask(opKey, ModelCalls, 1)
    ensures r in CallPlan(policy, opKey, inputTokens, outputTokens, cost) <==>
            || r == Ask(opKey, ModelCalls, 1)
            || (policy.inputTokens.Some? && r == Ask(opKey + ":input", InputTokens, if inputTokens < 1 then 1 else inputTokens))
            || (policy.outputTokens.Some? && r == Ask(opKey + ":output", OutputTokens, if outputTokens < 1 then 1 else outputTokens))
            || (policy.costMicroUsd.Some? && cost.Ok? && cost.value >= 1 && r == Ask(opKey + ":cost", CostMicroUsd, cost.value))
            || (policy.costMicroUsd.Some? && cost.Err? && r == Unpriced(cost.error))
  {
  }

  ghost predicate IsPlan(plan: seq<Request>, opKey: string) {
    && (forall i | 0 <= i < |plan| && plan[i].Ask? :: plan[i].key in KeysOf(opKey))
    && (forall i, j | 0 <= i < j < |plan| && plan[i].Ask? && plan[j].Ask? :: plan[i].key != plan[j].key)
  }

  lemma KeysDiffer(opKey: string)
    ensures |opKey| < |CostKey(opKey)| < |InputKey(opKey)| < |OutputKey(opKey)|
  {
  }

  lemma CallPlanIsPlan(
      policy: Policy, opKey: string, inputTokens: int, outputTokens: int, cost: Result<int, BudgetError>)
    ensures IsPlan(CallPlan(policy, opKey, inputTokens, outputTokens, cost), opKey)
  {
    KeysDiffer(opKey);
  }

  // ------------------------------------------------------------------------- its progress

  /** `granted` requests were granted; after an error those are released in the same order. */
  datatype Call = Call(granted: nat, error: Option<BudgetError>, released: nat)

  const NEW_CALL := Call(0, None, 0)

  predicate Finished(plan: seq<Request>, c: Call) {
    if c.error.None? then c.granted == |plan| else c.released == c.granted
  }

  /** The next separately locked operation of the call. */
  ghost function CallStep(policy: Policy, plan: seq<Request>, ledger: Ledger, c: Call): (Ledger, Call) {
    if c.error.None? && c.granted < |plan| then
      match plan[c.granted]
      case Unpriced(error) => (ledger, c.(error := Some(error)))
      case Ask(key, dimension, amount) =>
        var outcome := Reserve(policy, ledger, key, dimension, amount);
        (outcome.ledger,
         if outcome.result.Ok? then c.(granted := c.granted + 1) else c.(error := Some(outcome.result.error)))
    else if c.error.Some? && c.released < c.granted && c.released < |plan| && plan[c.released].Ask? then
      (Release(ledger, plan[c.released].key).ledger, c.(released := c.released + 1))
    else (ledger, c)
  }

  datatype Event = Mine | Theirs(op: Op)

  ghost function EventStep(policy: Policy, plan: seq<Request>, ledger: Ledger, c: Call, e: Event): (Ledger, Call) {
    match e
    case Mine => CallStep(policy, plan, ledger, c)
    case Theirs(op) => (After(policy, ledger, op), c)
  }

  /** The ledger and the call after its own operations and those of other workers, in any order. */
  ghost function Interleaved(policy: Policy, plan: seq<Request>, start: Ledger, events: seq<Event>): (Ledger, Call)
    decreases |events|
  {
    if events == [] then (start, NEW_CALL)
    else
      var (ledger, c) := Interleaved(policy, plan, start, events[..|events| - 1]);
      EventStep(policy, plan, ledger, c, events[|events| - 1])
  }

  lemma OneMore(policy: Policy, plan: seq<Request>, start: Ledger, events: seq<Event>, e: Event)
    ensures var (ledger, c) := Interleaved(policy, plan, start, events);
            Interleaved(policy, plan, start, events + [e]) == EventStep(policy, plan, ledger, c, e)
  {
    assert (events + [e])[..|events|] == events;
  }

  // -------------------------------------------------------------------------- what it owns

  function EntryOf(request: Request, given: bool): Reservation
    requires request.Ask?
  {
    if given then Reservation(request.dimension, request.amount, Some(0), Released)
    else Reservation(request.dimension, request.amount, None, Reserved)
  }

  /** What was granted is in the ledger as it was asked for or given back, and the rest is not in it. */
  ghost predicate Owns(plan: seq<Request>, ledger: Ledger, c: Call) {
    && c.released <= c.granted <= |plan| && (c.error.None? ==> c.released == 0)
    && (forall j | 0 <= j < c.granted :: plan[j].Ask?)
    && (forall j | 0 <= j < |plan| && plan[j].Ask? ::
          if j < c.granted
          then plan[j].key in ledger.reservations && ledger.reservations[plan[j].key] == EntryOf(plan[j], j < c.released)
          else plan[j].key !in ledger.reservations)
  }

  lemma MineKeepsOwns(policy: Policy, plan: seq<Request>, opKey: string, ledger: Ledger, c: Call)
    requires IsPlan(plan, opKey) && Owns(plan, ledger, c)
    ensures var (after, d) := CallStep(policy, plan, ledger, c); Owns(plan, after, d)
  {
  }

  lemma TheirsKeepsOwns(policy: Policy, plan: seq<Request>, opKey: string, ledger: Ledger, c: Call, op: Op)
    requires IsPlan(plan, opKey) && Owns(plan, ledger, c) && op.key !in KeysOf(opKey)
    ensures Owns(plan, After(policy, ledger, op), c)
  {
  }

  /** The other workers leave the keys of this call alone. */
  ghost predicate OthersKeepAway(events: seq<Event>, opKey: string) {
    forall e | e in events && e.Theirs? :: e.op.key !in KeysOf(opKey)
  }

  lemma {:induction false} CallOwns(policy: Policy, plan: seq<Request>, opKey: string, start: Ledger, events: seq<Event>)
    requires IsPlan(plan, opKey) && FreshCall(start, opKey) && OthersKeepAway(events, opKey)
    ensures var (after, c) := Interleaved(policy, plan, start, events); Owns(plan, after, c)
    decreases |events|
  {
    if events != [] {
      var init, e := events[..|events| - 1], events[|events| - 1];
      var (ledger, c) := Interleaved(policy, plan, start, init);
      CallOwns(policy, plan, opKey, start, init);
      match e
      case Mine => MineKeepsOwns(policy, plan, opKey, ledger, c);
      case Theirs(op) => TheirsKeepsOwns(policy, plan, opKey, ledger, c, op);
    }
  }

  ghost predicate Planned(plan: seq<Request>, key: string) {
    exists j :: 0 <= j < |plan| && plan[j].Ask? && plan[j].key == key
  }

  /** A key the call does not plan for changes only by the operations of others on it. */
  lemma {:induction false} UnplannedKeyStays(
      policy: Policy, plan: seq<Request>, start: Ledger, events: seq<Event>, key: string)
    requires !Planned(plan, key) && forall e | e in events && e.Theirs? :: e.op.key != key
    ensures var after := Interleaved(policy, plan, start, events).0.reservations;
      (key in after <==> key in start.reservations) && (key in after ==> after[key] == start.reservations[key])
    decreases |events|
  {
    if events != [] {
      UnplannedKeyStays(policy, plan, start, events[..|events| - 1], key);
    }
  }

  // ----------------------------------------------------------------------------- theorems

  /** Reservations of a fresh call that are all given back leave every dimension's usage as it was. */
  lemma {:induction false} GivenBackKeepsUsage(before: Reservations, after: Reservations, keys: set<string>, dimension: Dimension)
    requires forall key | key in keys :: key !in before
    requires forall key | key !in keys :: (key in after <==> key in before) && (key in after ==> after[key] == before[key])
    requires forall key | key in keys && key in after :: after[key].status == Released
    ensures Used(after, dimension) == Used(before, dimension)
    decreases keys
  {
    if key :| key in keys && key in after {
      TotalWithout(after, r => UsedBy(r, dimension), key);
      GivenBackKeepsUsage(before, after - {key}, keys - {key}, dimension);
    } else {
      assert after == before;
    }
  }

  /** Once a failed call has rolled back, what is left of it is released. */
  lemma FailedCallIsGivenBack(
      policy: Policy, plan: seq<Request>, opKey: string, start: Ledger, events: seq<Event>, key: string)
    requires IsPlan(plan, opKey) && FreshCall(start, opKey) && OthersKeepAway(events, opKey) && key in KeysOf(opKey)
    requires var c := Interleaved(policy, plan, start, events).1; c.error.Some? && Finished(plan, c)
    ensures var after := Interleaved(policy, plan, start, events).0.reservations;
      key in after ==> after[key].status == Released
  {
    if Planned(plan, key) {
      CallOwns(policy, plan, opKey, start, events);
    } else {
      UnplannedKeyStays(policy, plan, start, events, key);
    }
  }

  /**
   * A fresh model call that fails among any operations of other workers adds nothing to the
   * usage of any dimension: usage is that of the other entries alone.
   */
  lemma FailedCallLeavesNothing(
      policy: Policy, opKey: string, inputTokens: int, outputTokens: int, cost: Result<int, BudgetError>,
      start: Ledger, events: seq<Event>, dimension: Dimension)
    requires FreshCall(start, opKey) && OthersKeepAway(events, opKey)
    requires var plan := CallPlan(policy, opKey, inputTokens, outputTokens, cost);
      var c := Interleaved(policy, plan, start, events).1; c.error.Some? && Finished(plan, c)
    ensures var plan := CallPlan(policy, opKey, inputTokens, outputTokens, cost);
      var after := Interleaved(policy, plan, start, events).0.reservations;
      Used(after, dimension) == Used(after - KeysOf(opKey), dimension)
  {
    var plan := CallPlan(policy, opKey, inputTokens, outputTokens, cost);
    var after := Interleaved(policy, plan, start, events).0.reservations;
    CallPlanIsPlan(policy, opKey, inputTokens, outputTokens, cost);
    forall key | key in KeysOf(opKey) && key in after ensures after[key].status == Released {
      FailedCallIsGivenBack(policy, plan, opKey, start, events, key);
    }
    GivenBackKeepsUsage(after - KeysOf(opKey), after, KeysOf(opKey), dimension);
  }

  /** A fresh model call that succeeds among any operations of other workers holds exactly what it planned. */
  lemma SucceededCallHoldsItsPlan(
      policy: Policy, opKey: string, inputTokens: int, outputTokens: int, cost: Result<int, BudgetError>,
      start: Ledger, events: seq<Event>, key: string)
    requires FreshCall(start, opKey) && OthersKeepAway(events, opKey) && key in KeysOf(opKey)
    requires var plan := CallPlan(policy, opKey, inputTokens, outputTokens, cost);
      var c := Interleaved(policy, plan, start, events).1; c.error.None? && Finished(plan, c)
    ensures var plan := CallPlan(policy, opKey, inputTokens, outputTokens, cost);
      var after := Interleaved(policy, plan, start, events).0.reservations;
      && (key in after <==> Planned(plan, key))
      && (forall j | 0 <= j < |plan| && plan[j].Ask? && plan[j].key == key :: after[key] == EntryOf(plan[j], false))
  {
    var plan := CallPlan(policy, opKey, inputTokens, outputTokens, cost);
    CallPlanIsPlan(policy, opKey, inputTokens, outputTokens, cost);
    CallOwns(policy, plan, opKey, start, events);
    if !Planned(plan, key) {
      UnplannedKeyStays(policy, plan, start, events, key);
    }
  }

  /** Every operation of an unfinished call brings it nearer to its end, whatever the others did. */
  function ToGo(plan: seq<Request>, c: Call): int {
    if c.error.None? then 2 * |plan| + 1 - c.granted else c.granted - c.released
  }

  lemma CallStepsOn(policy: Policy, plan: seq<Request>, ledger: Ledger, c: Call)
    requires Owns(plan, ledger, c) && !Finished(plan, c)
    ensures 0 <= ToGo(plan, CallStep(policy, plan, ledger, c).1) < ToGo(plan, c)
  {
  }

  function Mines(events: seq<Event>): nat {
    if events == [] then 0 else Mines(events[..|events| - 1]) + if events[|events| - 1].Mine? then 1 else 0
  }

  /** A call that gets enough turns is finished, granted or rolled back. */
  lemma {:induction false} EnoughTurnsFinish(
      policy: Policy, plan: seq<Request>, opKey: string, start: Ledger, events: seq<Event>)
    requires IsPlan(plan, opKey) && FreshCall(start, opKey) && OthersKeepAway(events, opKey)
    ensures var c := Interleaved(policy, plan, start, events).1;
      Finished(plan, c) || Mines(events) + ToGo(plan, c) <= 2 * |plan| + 1
    decreases |events|
  {
    if events != [] {
      var init := events[..|events| - 1];
      var (ledger, c) := Interleaved(policy, plan, start, init);
      EnoughTurnsFinish(policy, plan, opKey, start, init);
      CallOwns(policy, plan, opKey, start, init);
      if !Finished(plan, c) {
        CallStepsOn(policy, plan, ledger, c);
      }
    }
  }

  // ----------------------------------------------------------------- with no one in between

  /** What a fresh call that succeeds alone makes of the reservations. */
  function CallReserved(
      m: Reservations, policy: Policy, opKey: string, inputTokens: int, outputTokens: int, cost: Result<int, BudgetError>): Reservations
  {
    WithPlan(m, CallPlan(policy, opKey, inputTokens, outputTokens, cost))
  }

  function WithPlan(m: Reservations, plan: seq<Request>): Reservations {
    if plan == [] then m
    else
      var last := plan[|plan| - 1];
      var before := WithPlan(m, plan[..|plan| - 1]);
      if last.Ask? then before[last.key := EntryOf(last, false)] else before
  }

  ghost predicate AllMine(events: seq<Event>) {
    forall e | e in events :: e.Mine?
  }

  lemma {:induction false} AloneSucceeds(policy: Policy, plan: seq<Request>, opKey: string, start: Ledger, events: seq<Event>)
    requires IsPlan(plan, opKey) && FreshCall(start, opKey) && AllMine(events)
    ensures var (after, c) := Interleaved(policy, plan, start, events);
      c.granted <= |plan| && (c.error.None? ==> after.reservations == WithPlan(start.reservations, plan[..c.granted]))
    decreases |events|
  {
    CallOwns(policy, plan, opKey, start, events);
    if events != [] {
      var init := events[..|events| - 1];
      var (ledger, c) := Interleaved(policy, plan, start, init);
      AloneSucceeds(policy, plan, opKey, start, init);
      CallOwns(policy, plan, opKey, start, init);
      assert events[|events| - 1] in events;
      if c.error.None? && c.granted < |plan| {
        assert plan[..c.granted + 1][..c.granted] == plan[..c.granted];
      }
    }
  }

  /** From one ledger to another only given keys changed, and those are absent or released now. */
  ghost predicate GivenBack(before: Ledger, after: Ledger, keys: set<string>) {
    && (forall key | key !in keys ::
          (key in after.reservations <==> key in before.reservations)
          && (key in after.reservations ==> after.reservations[key] == before.reservations[key]))
    && (forall key | key in keys && key in after.reservations ::
          after.reservations[key].status == Released)
  }

  /** Alone, a failed call leaves every other entry and the usage of every dimension as they were. */
  lemma AloneFails(policy: Policy, plan: seq<Request>, opKey: string, start: Ledger, events: seq<Event>)
    requires IsPlan(plan, opKey) && FreshCall(start, opKey) && AllMine(events)
    requires var c := Interleaved(policy, plan, start, events).1; c.error.Some? && Finished(plan, c)
    ensures var after := Interleaved(policy, plan, start, events).0;
      && GivenBack(start, after, KeysOf(opKey))
      && forall dimension :: Used(after.reservations, dimension) == Used(start.reservations, dimension)
  {
    var after := Interleaved(policy, plan, start, events).0;
    forall key | key in KeysOf(opKey) && key in after.reservations ensures after.reservations[key].status == Released {
      FailedCallIsGivenBack(policy, plan, opKey, start, events, key);
    }
    forall key | key !in KeysOf(opKey)
      ensures (key in after.reservations <==> key in start.reservations)
      ensures key in after.reservations ==> after.reservations[key] == start.reservations[key]
    {
      UnplannedKeyStays(policy, plan, start, events, key);
    }
    forall dimension ensures Used(after.reservations, dimension) == Used(start.reservations, dimension) {
      GivenBackKeepsUsage(start.reservations, after.reservations, KeysOf(opKey), dimension);
    }
  }
}
