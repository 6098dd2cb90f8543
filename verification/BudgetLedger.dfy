/** The shared ledger file and the gate in front of model calls (budgets.py). */
module BudgetLedger {
  import opened Wrappers
  import opened Budgets
  import opened ModelCalls

  /** The ledger of one run; `data` is the content of its file, which every method replaces under the file lock. */
  class RunBudgetLedger {
    const policy: Policy
    var data: Ledger

    constructor (policy: Policy)
      ensures this.policy == policy && data == EMPTY
    {
      this.policy, data := policy, EMPTY;
    }

    static method UsedIn(m: Reservations, dimension: Dimension) returns (used: int)
      ensures used == Used(m, dimension)
    {
      used := 0;
      var rest := m;
      while rest != map[]
        invariant used + Used(rest, dimension) == Used(m, dimension)
        decreases |rest|
      {
        var key :| key in rest;
        TotalWithout(rest, r => UsedBy(r, dimension), key);
        var item := rest[key];
        if item.dimension == dimension && item.status in {Reserved, Settled, Uncertain} {
          used := used + item.Amount();
        }
        rest := rest - {key};
      }
    }

    method OutstandingByDimension(dimension: Dimension) returns (outstanding: int)
      ensures outstanding == Outstanding(data.reservations, dimension)
    {
      outstanding := 0;
      var rest := data.reservations;
      while rest != map[]
        invariant outstanding + Outstanding(rest, dimension) == Outstanding(data.reservations, dimension)
        decreases |rest|
      {
        var key :| key in rest;
        TotalWithout(rest, r => OutstandingIn(r, dimension), key);
        var item := rest[key];
        if item.dimension == dimension && item.status in {Reserved, Uncertain} {
          outstanding := outstanding + item.Amount();
        }
        rest := rest - {key};
      }
    }

    method Reserve(key: string, dimension: Dimension, amount: int) returns (result: Result<Option<Reservation>, BudgetError>)
      modifies this
      ensures Outcome(data, result) == Budgets.Reserve(policy, old(data), key, dimension, amount)
    {
      if amount <= 0 {
        return Err(NotPositive);
      }
      if key in data.reservations {
        var existing := data.reservations[key];
        if existing.dimension != dimension || existing.reserved != amount {
          return Err(Mismatch);
        }
        return Ok(Some(existing));
      }
      var limit := policy.LimitFor(dimension);
      var reservation := Reservation(dimension, amount, None, Reserved);
      UsedUpdated(data.reservations, key, reservation, dimension);
      if limit.Some? {
        var used := UsedIn(data.reservations, dimension);
        if used + amount > limit.value {
          data := data.(exhausted := Some(dimension));
          return Err(BudgetExhausted(dimension));
        }
      }
      data := data.(reservations := data.reservations[key := reservation]);
      return Ok(Some(reservation));
    }

    method Settle(key: string, actual: int) returns (result: Result<Option<Reservation>, BudgetError>)
      modifies this
      ensures Outcome(data, result) == Budgets.Settle(policy, old(data), key, actual)
    {
      if actual < 0 {
        return Err(NegativeUsage);
      }
      if key !in data.reservations {
        return Err(UnknownKey);
      }
      var reservation := data.reservations[key];
      if reservation.status == Settled {
        if reservation.actual != Some(actual) {
          return Err(SettledDifferently);
        }
        return Ok(Some(reservation));
      }
      reservation := reservation.(actual := Some(actual), status := Settled);
      data := data.(reservations := data.reservations[key := reservation]);
      var limit := policy.LimitFor(reservation.dimension);
      if limit.Some? {
        var used := UsedIn(data.reservations, reservation.dimension);
        if used > limit.value {
          data := data.(exhausted := Some(reservation.dimension));
        }
      }
      return Ok(Some(reservation));
    }

    method Release(key: string) returns (result: Option<Reservation>)
      modifies this
      ensures Outcome(data, Ok(result)) == Budgets.Release(old(data), key)
    {
      if key !in data.reservations {
        return None;
      }
      var reservation := data.reservations[key];
      if reservation.status == Settled {
        return Some(reservation);
      }
      reservation := reservation.(actual := Some(0), status := Released);
      data := data.(reservations := data.reservations[key := reservation]);
      return Some(reservation);
    }

    method MarkUncertain(key: string) returns (result: Option<Reservation>)
      modifies this
      ensures Outcome(data, Ok(result)) == Budgets.MarkUncertain(old(data), key)
    {
      if key !in data.reservations {
        return None;
      }
      var reservation := data.reservations[key];
      if reservation.status != Settled && reservation.status != Released {
        reservation := reservation.(status := Uncertain);
        data := data.(reservations := data.reservations[key := reservation]);
      }
      return Some(reservation);
    }
  }

  // ------------------------------------------------------------------------- the gate

  class BudgetGate {
    const ledger: RunBudgetLedger
    const deadlineAt: Option<real>

    constructor (ledger: RunBudgetLedger, deadlineAt: Option<real>)
      ensures this.ledger == ledger && this.deadlineAt == deadlineAt
    {
      this.ledger, this.deadlineAt := ledger, deadlineAt;
    }

    /** One more reservation of the call, unless an earlier one failed; `keys` are those to roll back. */
    method ReserveNext(
        key: string, dimension: Dimension, amount: int, keys: seq<string>, before: Option<BudgetError>,
        ghost run: CallRun, ghost rest: seq<Request>)
      returns (reserved: seq<string>, error: Option<BudgetError>, ghost after: CallRun)
      requires run.policy == ledger.policy && run.Reaches(ledger.data, keys, before)
      requires before.None? ==> run.Left([Ask(key, dimension, amount)] + rest)
      modifies ledger
      ensures after.SameCall(run) && after.Reaches(ledger.data, reserved, error)
      ensures error.None? ==> after.Left(rest)
    {
      reserved, error, after := keys, before, run;
      if before.None? {
        var result := ledger.Reserve(key, dimension, amount);
        if result.Err? {
          error := Some(result.error);
        } else {
          reserved := keys + [key];
        }
        after := NextIsMine(run, old(ledger.data), keys, Ask(key, dimension, amount), rest);
      }
    }

    method RollBack(keys: seq<string>)
      modifies ledger
      ensures ledger.data == ClosedUpTo(old(ledger.data), keys, |keys|, false)
      ensures forall key | key in keys && key in old(ledger.data).reservations ::
                key in ledger.data.reservations
                && ledger.data.reservations[key]
                   == (var r := old(ledger.data).reservations[key];
                       if r.status == Settled then r else r.(actual := Some(0), status := Released))
      ensures forall key | key !in keys || key !in old(ledger.data).reservations ::
                (key in ledger.data.reservations <==> key in old(ledger.data).reservations)
                && (key in ledger.data.reservations ==> ledger.data.reservations[key] == old(ledger.data).reservations[key])
    {
      for i := 0 to |keys|
        invariant ledger.data == ClosedUpTo(old(ledger.data), keys, i, false)
        invariant forall key | key in keys[..i] && key in old(ledger.data).reservations ::
                    key in ledger.data.reservations
                    && ledger.data.reservations[key]
                       == (var r := old(ledger.data).reservations[key];
                           if r.status == Settled then r else r.(actual := Some(0), status := Released))
        invariant forall key | key !in keys[..i] || key !in old(ledger.data).reservations ::
                    (key in ledger.data.reservations <==> key in old(ledger.data).reservations)
                    && (key in ledger.data.reservations ==>
                          ledger.data.reservations[key] == old(ledger.data).reservations[key])
      {
        var _ := ledger.Release(keys[i]);
        assert keys[..i + 1] == keys[..i] + [keys[i]];
      }
    }

    /** The estimated cost, if the policy caps it and there is any; without a price the call fails. */
    method ReserveCost(
        opKey: string, cost: Result<int, BudgetError>, keys: seq<string>, before: Option<BudgetError>, ghost run: CallRun)
      returns (reserved: seq<string>, error: Option<BudgetError>, ghost after: CallRun)
      requires run.policy == ledger.policy && run.Reaches(ledger.data, keys, before)
      requires before.None? ==> run.Left(CostPlan(ledger.policy, opKey, cost))
      modifies ledger
      ensures after.SameCall(run) && after.Reaches(ledger.data, reserved, error)
      ensures error.None? ==> after.Left([])
    {
      reserved, error, after := keys, before, run;
      if ledger.policy.costMicroUsd.Some? && error.None? {
        if cost.Err? {
          error := Some(cost.error);
          after := NextIsMine(run, ledger.data, keys, Unpriced(cost.error), []);
        } else if cost.value > 0 {
          reserved, error, after := ReserveNext(CostKey(opKey), CostMicroUsd, cost.value, keys, error, run, []);
        }
      }
    }

    /** Reserves what the policy asks for, one key after the other, up to the first that fails. */
    method ReserveKeys(opKey: string, inputTokens: int, outputTokens: int, cost: Result<int, BudgetError>)
      returns (keys: seq<string>, error: Option<BudgetError>, ghost run: CallRun)
      modifies ledger
      ensures run.policy == ledger.policy && run.start == old(ledger.data)
      ensures run.plan == CallPlan(ledger.policy, opKey, inputTokens, outputTokens, cost)
      ensures run.Reaches(ledger.data, keys, error) && (error.None? ==> run.Left([]))
    {
      ghost var output, price := OutputPlan(ledger.policy, opKey, outputTokens), CostPlan(ledger.policy, opKey, cost);
      run := FirstRun(ledger.policy, opKey, inputTokens, outputTokens, cost, ledger.data);
      keys, error, run := ReserveNext(
        opKey, ModelCalls, 1, [], None, run, InputPlan(ledger.policy, opKey, inputTokens) + (output + price));
      if ledger.policy.inputTokens.Some? {
        keys, error, run := ReserveNext(
          InputKey(opKey), InputTokens, AtLeastOne(inputTokens), keys, error, run, output + price);
      } else {
        assert [] + (output + price) == output + price;
      }
      if ledger.policy.outputTokens.Some? {
        keys, error, run := ReserveNext(
          OutputKey(opKey), OutputTokens, AtLeastOne(outputTokens), keys, error, run, price);
      } else {
        assert [] + price == price;
      }
      keys, error, run := ReserveCost(opKey, cost, keys, error, run);
    }

    /**
     * One model call and its estimated tokens and cost. What it does to the ledger are the
     * operations of its plan; a fresh call that fails after its deadline check gives back
     * everything it reserved.
     */
    method ReserveModelCall(
        opKey: string, now: real, inputTokens: int, outputTokens: int, cost: Result<int, BudgetError>)
      returns (error: Option<BudgetError>, ghost events: seq<Event>)
      modifies ledger
      ensures deadlineAt.Some? && now >= deadlineAt.value ==>
                error == Some(DeadlineExceeded) && ledger.data == old(ledger.data)
      ensures !(deadlineAt.Some? && now >= deadlineAt.value) ==>
                var plan := CallPlan(ledger.policy, opKey, inputTokens, outputTokens, cost);
                var (after, c) := Interleaved(ledger.policy, plan, old(ledger.data), events);
                AllMine(events) && after == ledger.data && c.error == error && Finished(plan, c)
      ensures error.Some? && FreshCall(old(ledger.data), opKey) ==>
                GivenBack(old(ledger.data), ledger.data, KeysOf(opKey))
                && forall dimension :: Used(ledger.data.reservations, dimension) == Used(old(ledger.data).reservations, dimension)
      ensures error.None? && FreshCall(old(ledger.data), opKey) ==>
                ledger.data.reservations
                == CallReserved(old(ledger.data).reservations, ledger.policy, opKey, inputTokens, outputTokens, cost)
    {
      events := [];
      if deadlineAt.Some? && now >= deadlineAt.value {
        GivenBackEverywhere(ledger.data, opKey);
        return Some(DeadlineExceeded), [];
      }
      ghost var plan := CallPlan(ledger.policy, opKey, inputTokens, outputTokens, cost);
      var keys;
      ghost var run;
      keys, error, run := ReserveKeys(opKey, inputTokens, outputTokens, cost);
      events := run.events;
      if error.Some? {
        events := RolledBack(ledger.policy, plan, old(ledger.data), events, keys);
        RollBack(keys);
      }
      CallPlanIsPlan(ledger.policy, opKey, inputTokens, outputTokens, cost);
      if FreshCall(old(ledger.data), opKey) {
        AloneResult(ledger.policy, plan, opKey, old(ledger.data), events);
      }
    }

    /**
     * The end of a failed attempt: the call itself is counted, its estimates are either kept
     * as uncertain or given back. Only an already settled call with another usage is an error.
     */
    method FailModelCall(opKey: string, uncertain: bool) returns (error: Option<BudgetError>)
      modifies ledger
      ensures var settled := Budgets.Settle(ledger.policy, old(ledger.data), opKey, 1);
        if settled.result == Err(SettledDifferently) then error == Some(SettledDifferently) && ledger.data == old(ledger.data)
        else error.None? && ledger.data == AttemptClosed(settled.ledger, opKey, uncertain)
    {
      var result := ledger.Settle(opKey, 1);
      if result.Err? && result.error != UnknownKey {
        return Some(result.error);
      }
      var suffixes := [InputKey(opKey), OutputKey(opKey), CostKey(opKey)];
      ghost var settled := ledger.data;
      for i := 0 to |suffixes|
        invariant ledger.data == ClosedUpTo(settled, suffixes, i, uncertain)
      {
        if uncertain {
          var _ := ledger.MarkUncertain(suffixes[i]);
        } else {
          var _ := ledger.Release(suffixes[i]);
        }
      }
      return None;
    }
  }

  function Closing(ledger: Ledger, key: string, uncertain: bool): Ledger {
    if uncertain then Budgets.MarkUncertain(ledger, key).ledger else Budgets.Release(ledger, key).ledger
  }

  function ClosedUpTo(ledger: Ledger, keys: seq<string>, i: nat, uncertain: bool): Ledger
    requires i <= |keys|
  {
    if i == 0 then ledger else Closing(ClosedUpTo(ledger, keys, i - 1, uncertain), keys[i - 1], uncertain)
  }

  function AttemptClosed(ledger: Ledger, opKey: string, uncertain: bool): Ledger {
    ClosedUpTo(ledger, [InputKey(opKey), OutputKey(opKey), CostKey(opKey)], 3, uncertain)
  }

  /** What closing one estimate does to its entry and to the usage. */
  lemma ClosingOne(ledger: Ledger, key: string, uncertain: bool, dimension: Dimension)
    requires WellKept(ledger)
    ensures var after := Closing(ledger, key, uncertain);
      && WellKept(after)
      && (uncertain ==> Used(after.reservations, dimension) == Used(ledger.reservations, dimension))
      && Used(after.reservations, dimension) <= Used(ledger.reservations, dimension)
  {
    var policy := Policy(None, None, None, None, None, None);
    var op := if uncertain then DoMarkUncertain(key) else DoRelease(key);
    OpUsage(policy, ledger, op, dimension);
    OpKeepsWellKept(policy, ledger, op);
  }

  /** Marking estimates uncertain changes no usage; giving them back never raises it. */
  lemma {:induction false} ClosingUsage(ledger: Ledger, keys: seq<string>, i: nat, uncertain: bool, dimension: Dimension)
    requires i <= |keys| && WellKept(ledger)
    ensures var after := ClosedUpTo(ledger, keys, i, uncertain);
      && WellKept(after)
      && (uncertain ==> Used(after.reservations, dimension) == Used(ledger.reservations, dimension))
      && Used(after.reservations, dimension) <= Used(ledger.reservations, dimension)
  {
    if i > 0 {
      ClosingUsage(ledger, keys, i - 1, uncertain, dimension);
      ClosingOne(ClosedUpTo(ledger, keys, i - 1, uncertain), keys[i - 1], uncertain, dimension);
    }
  }

  /** Closing leaves settled entries and other keys alone, and no estimate of the call merely reserved. */
  lemma {:induction false} ClosingEntries(ledger: Ledger, keys: seq<string>, i: nat, uncertain: bool, key: string)
    requires i <= |keys| && key in ledger.reservations
    ensures var after := ClosedUpTo(ledger, keys, i, uncertain).reservations;
      && key in after
      && if key !in keys[..i] || ledger.reservations[key].status == Settled then after[key] == ledger.reservations[key]
         else if uncertain then after[key].status == Uncertain || after[key].status == Released
         else after[key].status == Released
  {
    if i > 0 {
      ClosingEntries(ledger, keys, i - 1, uncertain, key);
      assert keys[..i] == keys[..i - 1] + [keys[i - 1]];
    }
  }

  /** A failed attempt of unknown outcome leaves the usage of every dimension as it was reserved. */
  lemma UncertainFailureKeepsUsage(policy: Policy, ledger: Ledger, opKey: string, dimension: Dimension)
    requires WellKept(ledger) && opKey in ledger.reservations
    requires ledger.reservations[opKey].reserved == 1 && ledger.reservations[opKey].status in {Reserved, Uncertain}
    ensures var settled := Budgets.Settle(policy, ledger, opKey, 1).ledger;
      Used(AttemptClosed(settled, opKey, true).reservations, dimension) == Used(ledger.reservations, dimension)
  {
    OpUsage(policy, ledger, DoSettle(opKey, 1), dimension);
    OpKeepsWellKept(policy, ledger, DoSettle(opKey, 1));
    ClosingUsage(
      Budgets.Settle(policy, ledger, opKey, 1).ledger, [InputKey(opKey), OutputKey(opKey), CostKey(opKey)], 3, true,
      dimension);
  }

  // ---------------------------------------------------------------- the gate without others

  /** A call so far: its plan, the ledger it began on, and the steps it has taken there. */
  datatype CallRun = CallRun(policy: Policy, plan: seq<Request>, start: Ledger, events: seq<Event>) {
    ghost function Progress(): Call {
      Interleaved(policy, plan, start, events).1
    }

    ghost predicate SameCall(other: CallRun) {
      policy == other.policy && plan == other.plan && start == other.start
    }

    /** The steps lead to this ledger, and `keys` were granted up to `error`. */
    ghost predicate Reaches(ledger: Ledger, keys: seq<string>, error: Option<BudgetError>) {
      && AllMine(events)
      && Interleaved(policy, plan, start, events).0 == ledger
      && Progress().error == error && Progress().released == 0
      && GrantedKeys(plan, Progress().granted, keys)
    }

    /** The requests that are still to come. */
    ghost predicate Left(rest: seq<Request>) {
      Progress().granted <= |plan| && plan[Progress().granted..] == rest
    }
  }

  lemma FirstRun(
      policy: Policy, opKey: string, inputTokens: int, outputTokens: int, cost: Result<int, BudgetError>, start: Ledger)
    returns (run: CallRun)
    ensures run == CallRun(policy, CallPlan(policy, opKey, inputTokens, outputTokens, cost), start, [])
    ensures run.Reaches(start, [], None)
    ensures run.Left(
              [Ask(opKey, ModelCalls, 1)]
              + (InputPlan(policy, opKey, inputTokens) + (OutputPlan(policy, opKey, outputTokens) + CostPlan(policy, opKey, cost))))
  {
    run := CallRun(policy, CallPlan(policy, opKey, inputTokens, outputTokens, cost), start, []);
    assert run.plan[0..]
        == [Ask(opKey, ModelCalls, 1)]
           + (InputPlan(policy, opKey, inputTokens) + (OutputPlan(policy, opKey, outputTokens) + CostPlan(policy, opKey, cost)));
  }

  /** The call's next step takes its next request. */
  lemma NextIsMine(run: CallRun, ledger: Ledger, keys: seq<string>, request: Request, rest: seq<Request>)
    returns (after: CallRun)
    requires run.Reaches(ledger, keys, None) && run.Left([request] + rest)
    ensures after == run.(events := run.events + [Mine])
    ensures var (next, c) := CallStep(run.policy, run.plan, ledger, run.Progress());
      && after.Progress() == c
      && after.Reaches(next, if c.error.None? then keys + [request.key] else keys, c.error)
      && (c.error.None? ==> request.Ask? && after.Left(rest))
    ensures CallStep(run.policy, run.plan, ledger, run.Progress())
         == match request
            case Unpriced(error) => (ledger, run.Progress().(error := Some(error)))
            case Ask(key, dimension, amount) =>
              var outcome := Budgets.Reserve(run.policy, ledger, key, dimension, amount);
              (outcome.ledger,
               if outcome.result.Ok? then run.Progress().(granted := run.Progress().granted + 1)
               else run.Progress().(error := Some(outcome.result.error)))
  {
    after := run.(events := run.events + [Mine]);
    OneMore(run.policy, run.plan, run.start, run.events, Mine);
    var g := run.Progress().granted;
    assert run.plan[g] == run.plan[g..][0] == request;
    assert run.plan[g + 1..] == run.plan[g..][1..] == rest;
  }

  ghost predicate GrantedKeys(plan: seq<Request>, granted: nat, keys: seq<string>) {
    && |keys| == granted <= |plan|
    && forall j | 0 <= j < granted :: plan[j].Ask? && keys[j] == plan[j].key
  }

  lemma GivenBackEverywhere(ledger: Ledger, opKey: string)
    ensures FreshCall(ledger, opKey) ==> GivenBack(ledger, ledger, KeysOf(opKey))
  {
  }

  /** Releasing the granted keys in order is what a failed call does in its next steps. */
  lemma {:induction false} ReleasesAreMine(
      policy: Policy, plan: seq<Request>, start: Ledger, events: seq<Event>, keys: seq<string>, i: nat)
    returns (more: seq<Event>)
    requires AllMine(events) && i <= |keys|
    requires var c := Interleaved(policy, plan, start, events).1;
      c.error.Some? && c.released == 0 && GrantedKeys(plan, c.granted, keys)
    ensures var (before, c) := Interleaved(policy, plan, start, events);
      && AllMine(more)
      && Interleaved(policy, plan, start, more) == (ClosedUpTo(before, keys, i, false), c.(released := i))
  {
    if i == 0 {
      more := events;
    } else {
      var some := ReleasesAreMine(policy, plan, start, events, keys, i - 1);
      OneMore(policy, plan, start, some, Mine);
      more := some + [Mine];
    }
  }

  lemma RolledBack(policy: Policy, plan: seq<Request>, start: Ledger, events: seq<Event>, keys: seq<string>)
    returns (more: seq<Event>)
    requires AllMine(events)
    requires var c := Interleaved(policy, plan, start, events).1;
      c.error.Some? && c.released == 0 && GrantedKeys(plan, c.granted, keys)
    ensures var (before, c) := Interleaved(policy, plan, start, events);
      && AllMine(more)
      && Interleaved(policy, plan, start, more) == (ClosedUpTo(before, keys, |keys|, false), c.(released := c.granted))
  {
    more := ReleasesAreMine(policy, plan, start, events, keys, |keys|);
  }

  /** What a fresh call comes to when no one acts in between. */
  lemma AloneResult(policy: Policy, plan: seq<Request>, opKey: string, start: Ledger, events: seq<Event>)
    requires IsPlan(plan, opKey) && FreshCall(start, opKey) && AllMine(events)
    requires Finished(plan, Interleaved(policy, plan, start, events).1)
    ensures var (after, c) := Interleaved(policy, plan, start, events);
      if c.error.None? then after.reservations == WithPlan(start.reservations, plan)
      else
        && GivenBack(start, after, KeysOf(opKey))
        && forall dimension :: Used(after.reservations, dimension) == Used(start.reservations, dimension)
  {
    var c := Interleaved(policy, plan, start, events).1;
    if c.error.None? {
      AloneSucceeds(policy, plan, opKey, start, events);
      assert plan[..|plan|] == plan;
    } else {
      AloneFails(policy, plan, opKey, start, events);
    }
  }
}
