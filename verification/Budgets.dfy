/** The run's budget ledger as a value: idempotent reservations and what each operation makes of them (budgets.py). */
module Budgets {
  import opened Wrappers

  datatype Dimension = ModelCalls | ToolCalls | InputTokens | OutputTokens | CostMicroUsd | FetchCalls

  datatype Policy = Policy(
    modelCalls: Option<nat>, toolCalls: Option<nat>, inputTokens: Option<nat>,
    outputTokens: Option<nat>, costMicroUsd: Option<nat>, fetchCalls: Option<nat>)
  {
    function LimitFor(dimension: Dimension): Option<nat> {
      match dimension
      case ModelCalls => modelCalls
      case ToolCalls => toolCalls
      case InputTokens => inputTokens
      case OutputTokens => outputTokens
      case CostMicroUsd => costMicroUsd
      case FetchCalls => fetchCalls
    }
  }

  datatype Status = Reserved | Settled | Released | Uncertain

  datatype Reservation = Reservation(dimension: Dimension, reserved: int, actual: Option<int>, status: Status) {
    function Amount(): int { if actual.Some? then actual.value else reserved }
  }

  type Reservations = map<string, Reservation>

  datatype Ledger = Ledger(reservations: Reservations, exhausted: Option<Dimension>)

  datatype BudgetError =
    | NotPositive | NegativeUsage | Mismatch | SettledDifferently | UnknownKey
    | BudgetExhausted(dimension: Dimension) | DeadlineExceeded | PriceNotConfigured

  // ---------------------------------------------------------------------------- totals

  ghost function Total(m: Reservations, use: Reservation -> int): int {
    if m == map[] then 0
    else
      var key :| key in m;
      use(m[key]) + Total(m - {key}, use)
  }

  lemma {:induction false} TotalWithout(m: Reservations, use: Reservation -> int, key: string)
    requires key in m
    ensures Total(m, use) == use(m[key]) + Total(m - {key}, use)
  {
    var first :| first in m && Total(m, use) == use(m[first]) + Total(m - {first}, use);
    if first != key {
      TotalWithout(m - {first}, use, key);
      TotalWithout(m - {key}, use, first);
      assert m - {first} - {key} == m - {key} - {first};
    }
  }

  lemma TotalUpdated(m: Reservations, use: Reservation -> int, key: string, r: Reservation)
    ensures Total(m[key := r], use) == Total(m, use) - (if key in m then use(m[key]) else 0) + use(r)
  {
    TotalWithout(m[key := r], use, key);
    if key in m {
      TotalWithout(m, use, key);
      assert m[key := r] - {key} == m - {key};
    } else {
      assert m[key := r] - {key} == m;
    }
  }

  lemma {:induction false} TotalSplits(m: Reservations, use: Reservation -> int, a: Reservation -> int, b: Reservation -> int)
    requires forall r :: use(r) == a(r) + b(r)
    ensures Total(m, use) == Total(m, a) + Total(m, b)
  {
    if m != map[] {
      var key :| key in m;
      TotalWithout(m, use, key);
      TotalWithout(m, a, key);
      TotalWithout(m, b, key);
      TotalSplits(m - {key}, use, a, b);
    }
  }

  function UsedBy(r: Reservation, dimension: Dimension): int {
    if r.dimension == dimension && r.status != Released then r.Amount() else 0
  }

  function OutstandingIn(r: Reservation, dimension: Dimension): int {
    if r.dimension == dimension && (r.status == Reserved || r.status == Uncertain) then r.Amount() else 0
  }

  function SettledIn(r: Reservation, dimension: Dimension): int {
    if r.dimension == dimension && r.status == Settled then r.Amount() else 0
  }

  ghost function Used(m: Reservations, dimension: Dimension): int {
    Total(m, r => UsedBy(r, dimension))
  }

  ghost function Outstanding(m: Reservations, dimension: Dimension): int {
    Total(m, r => OutstandingIn(r, dimension))
  }

  ghost function SettledUse(m: Reservations, dimension: Dimension): int {
    Total(m, r => SettledIn(r, dimension))
  }

  /** What is used is what was settled and what is still outstanding; a release gives everything back. */
  lemma UsedIsSettledPlusOutstanding(m: Reservations, dimension: Dimension)
    ensures Used(m, dimension) == SettledUse(m, dimension) + Outstanding(m, dimension)
  {
    TotalSplits(
      m, r => UsedBy(r, dimension), r => SettledIn(r, dimension), r => OutstandingIn(r, dimension));
  }

  /** One entry's change is the whole change of a dimension's usage. */
  lemma UsedUpdated(m: Reservations, key: string, r: Reservation, dimension: Dimension)
    ensures Used(m[key := r], dimension)
         == Used(m, dimension) - (if key in m then UsedBy(m[key], dimension) else 0) + UsedBy(r, dimension)
  {
    TotalUpdated(m, x => UsedBy(x, dimension), key, r);
  }

  // ------------------------------------------------------------------------ operations

  datatype Outcome = Outcome(ledger: Ledger, result: Result<Option<Reservation>, BudgetError>)

  ghost predicate Over(policy: Policy, m: Reservations, dimension: Dimension) {
    policy.LimitFor(dimension).Some? && Used(m, dimension) > policy.LimitFor(dimension).value
  }

  ghost function Reserve(policy: Policy, ledger: Ledger, key: string, dimension: Dimension, amount: int): Outcome {
    if amount <= 0 then Outcome(ledger, Err(NotPositive))
    else if key in ledger.reservations then
      var existing := ledger.reservations[key];
      Outcome(
        ledger,
        if existing.dimension != dimension || existing.reserved != amount then Err(Mismatch) else Ok(Some(existing)))
    else
      var fresh_ := Reservation(dimension, amount, None, Reserved);
      if Over(policy, ledger.reservations[key := fresh_], dimension)
      then Outcome(ledger.(exhausted := Some(dimension)), Err(BudgetExhausted(dimension)))
      else Outcome(ledger.(reservations := ledger.reservations[key := fresh_]), Ok(Some(fresh_)))
  }

  ghost function Settle(policy: Policy, ledger: Ledger, key: string, actual: int): Outcome {
    if actual < 0 then Outcome(ledger, Err(NegativeUsage))
    else if key !in ledger.reservations then Outcome(ledger, Err(UnknownKey))
    else
      var r := ledger.reservations[key];
      if r.status == Settled then
        Outcome(ledger, if r.actual != Some(actual) then Err(SettledDifferently) else Ok(Some(r)))
      else
        var settled := r.(actual := Some(actual), status := Settled);
        var after := ledger.reservations[key := settled];
        Outcome(
          Ledger(after, if Over(policy, after, r.dimension) then Some(r.dimension) else ledger.exhausted),
          Ok(Some(settled)))
  }

  function Release(ledger: Ledger, key: string): Outcome {
    if key !in ledger.reservations then Outcome(ledger, Ok(None))
    else
      var r := ledger.reservations[key];
      if r.status == Settled then Outcome(ledger, Ok(Some(r)))
      else
        var released := r.(actual := Some(0), status := Released);
        Outcome(ledger.(reservations := ledger.reservations[key := released]), Ok(Some(released)))
  }

  function MarkUncertain(ledger: Ledger, key: string): Outcome {
    if key !in ledger.reservations then Outcome(ledger, Ok(None))
    else
      var r := ledger.reservations[key];
      if r.status == Settled || r.status == Released then Outcome(ledger, Ok(Some(r)))
      else
        var marked := r.(status := Uncertain);
        Outcome(ledger.(reservations := ledger.reservations[key := marked]), Ok(Some(marked)))
  }

  // -------------------------------------------------------------------------- whole runs

  /** What any worker may do to the shared ledger; the file lock makes each one atomic. */
  datatype Op =
    | DoReserve(key: string, dimension: Dimension, amount: int)
    | DoSettle(key: string, actual: int)
    | DoRelease(key: string)
    | DoMarkUncertain(key: string)

  ghost function After(policy: Policy, ledger: Ledger, op: Op): Ledger {
    match op
    case DoReserve(key, dimension, amount) => Reserve(policy, ledger, key, dimension, amount).ledger
    case DoSettle(key, actual) => Settle(policy, ledger, key, actual).ledger
    case DoRelease(key) => Release(ledger, key).ledger
    case DoMarkUncertain(key) => MarkUncertain(ledger, key).ledger
  }

  ghost function AfterAll(policy: Policy, ledger: Ledger, ops: seq<Op>): Ledger
    decreases |ops|
  {
    if ops == [] then ledger else AfterAll(policy, After(policy, ledger, ops[0]), ops[1..])
  }

  const EMPTY := Ledger(map[], None)

  /** Amounts are as the operations leave them. */
  ghost predicate WellKept(ledger: Ledger) {
    forall key | key in ledger.reservations ::
      var r := ledger.reservations[key];
      && r.reserved > 0
      && match r.status
         case Reserved => r.actual.None?
         case Uncertain => r.actual.None?
         case Settled => r.actual.Some? && r.actual.value >= 0
         case Released => r.actual == Some(0)
  }

  /** A capped dimension over its limit is never unnoticed. */
  ghost predicate Noticed(policy: Policy, ledger: Ledger) {
    forall dimension :: Over(policy, ledger.reservations, dimension) ==> ledger.exhausted.Some?
  }

  ghost predicate WithinCaps(policy: Policy, ledger: Ledger) {
    forall dimension :: !Over(policy, ledger.reservations, dimension)
  }

  lemma OpKeepsWellKept(policy: Policy, ledger: Ledger, op: Op)
    requires WellKept(ledger)
    ensures WellKept(After(policy, ledger, op))
  {
  }

  /** An operation changes at most the entry of its key, and only a settle or a reserve can raise usage. */
  lemma OpUsage(policy: Policy, ledger: Ledger, op: Op, dimension: Dimension)
    requires WellKept(ledger)
    ensures var before, after := ledger.reservations, After(policy, ledger, op).reservations;
      && Used(after, dimension)
         == Used(before, dimension) + (if op.key in after then UsedBy(after[op.key], dimension) else 0)
            - (if op.key in before then UsedBy(before[op.key], dimension) else 0)
      && forall key | key != op.key :: (key in after <==> key in before) && (key in after ==> after[key] == before[key])
  {
    var before, after := ledger.reservations, After(policy, ledger, op).reservations;
    if after != before {
      assert op.key in after && after == before[op.key := after[op.key]];
      UsedUpdated(before, op.key, after[op.key], dimension);
    }
  }

  lemma OpKeepsNoticed(policy: Policy, ledger: Ledger, op: Op)
    requires WellKept(ledger) && Noticed(policy, ledger)
    ensures Noticed(policy, After(policy, ledger, op))
    ensures ledger.exhausted.Some? ==> After(policy, ledger, op).exhausted.Some?
  {
    forall dimension ensures
        Over(policy, After(policy, ledger, op).reservations, dimension) ==> After(policy, ledger, op).exhausted.Some?
    {
      assert Over(policy, ledger.reservations, dimension) ==> ledger.exhausted.Some?;
      OpUsage(policy, ledger, op, dimension);
    }
  }

  // --------------------------------------------------------- what each operation amounts to

  ghost predicate Unlimited(policy: Policy, dimension: Dimension) {
    policy.LimitFor(dimension) == None
  }

  /** A new key is granted exactly when the amount fits beside what is used, and then used by that amount. */
  lemma ReserveGrants(policy: Policy, ledger: Ledger, key: string, dimension: Dimension, amount: int)
    requires key !in ledger.reservations && amount > 0
    ensures var out, used := Reserve(policy, ledger, key, dimension, amount), Used(ledger.reservations, dimension);
      && (out.result.Ok? <==> Unlimited(policy, dimension) || used + amount <= policy.LimitFor(dimension).value)
      && (out.result.Ok? ==>
           && Used(out.ledger.reservations, dimension) == used + amount
           && out.ledger.exhausted == ledger.exhausted)
      && (out.result.Err? ==>
           out.result.error == BudgetExhausted(dimension) && out.ledger == ledger.(exhausted := Some(dimension)))
  {
    UsedUpdated(ledger.reservations, key, Reservation(dimension, amount, None, Reserved), dimension);
  }

  /** What a settle takes the place of: the amount reserved, or nothing after a release. */
  function Held(r: Reservation): int {
    match r.status
    case Reserved => r.reserved
    case Uncertain => r.reserved
    case Settled => 0
    case Released => 0
  }

  /** A first settle counts what it reports in place of what was held, and marks a limit it passes. */
  lemma SettleCounts(policy: Policy, ledger: Ledger, key: string, actual: int)
    requires WellKept(ledger) && key in ledger.reservations && ledger.reservations[key].status != Settled && actual >= 0
    ensures var r, out := ledger.reservations[key], Settle(policy, ledger, key, actual);
      var used := Used(ledger.reservations, r.dimension) - Held(r) + actual;
      && out.result == Ok(Some(Reservation(r.dimension, r.reserved, Some(actual), Settled)))
      && Used(out.ledger.reservations, r.dimension) == used
      && out.ledger.exhausted == (if Unlimited(policy, r.dimension) || used <= policy.LimitFor(r.dimension).value
                                  then ledger.exhausted else Some(r.dimension))
  {
    var r := ledger.reservations[key];
    UsedUpdated(ledger.reservations, key, r.(actual := Some(actual), status := Settled), r.dimension);
  }

  /** A release gives back what was held, whatever else the ledger holds; a settled entry gives back nothing. */
  lemma ReleaseGivesBack(ledger: Ledger, key: string, dimension: Dimension)
    requires WellKept(ledger) && key in ledger.reservations
    ensures var r, out := ledger.reservations[key], Release(ledger, key);
      && Used(out.ledger.reservations, dimension)
         == Used(ledger.reservations, dimension) - (if dimension == r.dimension then Held(r) else 0)
      && out.ledger.exhausted == ledger.exhausted
      && out.result.Ok? && out.result.value.Some?
      && Held(out.result.value.value) == 0
      && (out.result.value.value.status == Settled <==> r.status == Settled)
  {
    var r := ledger.reservations[key];
    UsedUpdated(ledger.reservations, key, r.(actual := Some(0), status := Released), dimension);
  }

  /** An uncertain entry stays in use, and only an unresolved one becomes uncertain. */
  lemma UncertainKeepsUsage(ledger: Ledger, key: string, dimension: Dimension)
    requires WellKept(ledger) && key in ledger.reservations
    ensures var r, out := ledger.reservations[key], MarkUncertain(ledger, key);
      && Used(out.ledger.reservations, dimension) == Used(ledger.reservations, dimension)
      && out.ledger.exhausted == ledger.exhausted
      && out.result.Ok? && out.result.value.Some?
      && Held(out.result.value.value) == Held(r)
      && (out.result.value.value.status == Uncertain <==> Held(r) > 0)
  {
    var r := ledger.reservations[key];
    UsedUpdated(ledger.reservations, key, r.(status := Uncertain), dimension);
  }

  /** What an entry is for never changes. */
  lemma {:induction false} EntryKeepsItsTerms(policy: Policy, ledger: Ledger, ops: seq<Op>, key: string)
    requires key in ledger.reservations
    ensures var after := AfterAll(policy, ledger, ops).reservations;
      && key in after
      && after[key].dimension == ledger.reservations[key].dimension
      && after[key].reserved == ledger.reservations[key].reserved
    decreases |ops|
  {
    if ops != [] {
      EntryKeepsItsTerms(policy, After(policy, ledger, ops[0]), ops[1..], key);
    }
  }

  /**
   * Reserving a key again, whatever was done to the ledger in between, changes nothing: it
   * succeeds with the entry there is if it asks for the same, and is an error if it asks for anything else.
   */
  lemma ReserveIsIdempotent(
      policy: Policy, ledger: Ledger, key: string, dimension: Dimension, amount: int, ops: seq<Op>,
      otherDimension: Dimension, otherAmount: int)
    requires key !in ledger.reservations && otherAmount > 0
    requires Reserve(policy, ledger, key, dimension, amount).result.Ok?
    ensures var later := AfterAll(policy, Reserve(policy, ledger, key, dimension, amount).ledger, ops);
      var again := Reserve(policy, later, key, otherDimension, otherAmount);
      && again.ledger == later && key in later.reservations
      && again.result == if otherDimension == dimension && otherAmount == amount
                         then Ok(Some(later.reservations[key])) else Err(Mismatch)
  {
    EntryKeepsItsTerms(policy, Reserve(policy, ledger, key, dimension, amount).ledger, ops, key);
  }

  /** Settling a key again, likewise: the same usage succeeds, any other is an error, and nothing changes. */
  lemma SettleIsIdempotent(
      policy: Policy, ledger: Ledger, key: string, actual: int, ops: seq<Op>, other: int)
    requires key in ledger.reservations && ledger.reservations[key].status != Settled && other >= 0
    requires Settle(policy, ledger, key, actual).result.Ok?
    ensures var later := AfterAll(policy, Settle(policy, ledger, key, actual).ledger, ops);
      var again := Settle(policy, later, key, other);
      && again.ledger == later && key in later.reservations
      && again.result == if other == actual then Ok(Some(later.reservations[key])) else Err(SettledDifferently)
  {
    SettledIsForever(policy, Settle(policy, ledger, key, actual).ledger, ops, key);
  }

  /** What is refused outright, and what asks for a key the ledger does not have. */
  lemma OddRequests(policy: Policy, ledger: Ledger, key: string, dimension: Dimension, amount: int)
    ensures amount <= 0 ==> Reserve(policy, ledger, key, dimension, amount) == Outcome(ledger, Err(NotPositive))
    ensures amount < 0 ==> Settle(policy, ledger, key, amount) == Outcome(ledger, Err(NegativeUsage))
    ensures key !in ledger.reservations ==>
      && Release(ledger, key) == Outcome(ledger, Ok(None)) && MarkUncertain(ledger, key) == Outcome(ledger, Ok(None))
      && (amount >= 0 ==> Settle(policy, ledger, key, amount) == Outcome(ledger, Err(UnknownKey)))
  {
  }

  /** A settled entry is never changed again. */
  lemma OpKeepsSettled(policy: Policy, ledger: Ledger, op: Op, key: string)
    requires key in ledger.reservations && ledger.reservations[key].status == Settled
    ensures var after := After(policy, ledger, op).reservations;
      key in after && after[key] == ledger.reservations[key]
  {
  }

  lemma {:induction false} RunKeepsNoticed(policy: Policy, ledger: Ledger, ops: seq<Op>)
    requires WellKept(ledger) && Noticed(policy, ledger)
    ensures var after := AfterAll(policy, ledger, ops);
      && WellKept(after) && Noticed(policy, after)
      && (ledger.exhausted.Some? ==> after.exhausted.Some?)
    decreases |ops|
  {
    if ops != [] {
      OpKeepsWellKept(policy, ledger, ops[0]);
      OpKeepsNoticed(policy, ledger, ops[0]);
      RunKeepsNoticed(policy, After(policy, ledger, ops[0]), ops[1..]);
    }
  }

  lemma {:induction false} AfterAllConcat(policy: Policy, ledger: Ledger, before: seq<Op>, ops: seq<Op>)
    ensures AfterAll(policy, ledger, before + ops) == AfterAll(policy, AfterAll(policy, ledger, before), ops)
    decreases |before|
  {
    if before == [] {
      assert before + ops == ops;
    } else {
      assert (before + ops)[1..] == before[1..] + ops;
      AfterAllConcat(policy, After(policy, ledger, before[0]), before[1..], ops);
    }
  }

  /** The ledger after the first `n` operations of a run. */
  ghost function At(policy: Policy, start: Ledger, ops: seq<Op>, n: nat): Ledger
    requires n <= |ops|
  {
    AfterAll(policy, start, ops[..n])
  }

  lemma NextOp(policy: Policy, start: Ledger, ops: seq<Op>, n: nat)
    requires n < |ops|
    ensures At(policy, start, ops, n + 1) == After(policy, At(policy, start, ops, n), ops[n])
  {
    var now := At(policy, start, ops, n);
    assert ops[..n + 1] == ops[..n] + [ops[n]];
    AfterAllConcat(policy, start, ops[..n], [ops[n]]);
    assert AfterAll(policy, now, [ops[n]]) == After(policy, now, ops[n]);
  }

  lemma EmptyLedger(policy: Policy)
    ensures WellKept(EMPTY) && Noticed(policy, EMPTY) && WithinCaps(policy, EMPTY)
  {
  }

  /**
   * Over any interleaving: at every moment a capped dimension above its limit has left the
   * ledger marked exhausted, and from then on it stays marked.
   */
  lemma ExhaustionIsNoticed(policy: Policy, start: Ledger, ops: seq<Op>, n: nat, later: nat)
    requires WellKept(start) && Noticed(policy, start) && n <= later <= |ops|
    ensures var now, afterwards := At(policy, start, ops, n), At(policy, start, ops, later);
      && WellKept(now) && Noticed(policy, now)
      && (now.exhausted.Some? ==> afterwards.exhausted.Some?)
  {
    RunKeepsNoticed(policy, start, ops[..n]);
    assert ops[..later] == ops[..n] + ops[n..later];
    AfterAllConcat(policy, start, ops[..n], ops[n..later]);
    RunKeepsNoticed(policy, At(policy, start, ops, n), ops[n..later]);
  }

  lemma {:induction false} SettledIsForever(policy: Policy, ledger: Ledger, ops: seq<Op>, key: string)
    requires key in ledger.reservations && ledger.reservations[key].status == Settled
    ensures var after := AfterAll(policy, ledger, ops).reservations;
      key in after && after[key] == ledger.reservations[key]
    decreases |ops|
  {
    if ops != [] {
      OpKeepsSettled(policy, ledger, ops[0], key);
      SettledIsForever(policy, After(policy, ledger, ops[0]), ops[1..], key);
    }
  }

  // -------------------------------------------------------------------- when a cap breaks

  /**
   * A settle that takes its dimension over the cap: what the others use and what it
   * reports exceed the limit. The program checks this only after it has stored the entry.
   */
  ghost predicate Overshoots(policy: Policy, ledger: Ledger, op: Op) {
    && op.DoSettle? && op.actual >= 0 && op.key in ledger.reservations
    && var r := ledger.reservations[op.key];
      && r.status != Settled && policy.LimitFor(r.dimension).Some?
      && Used(ledger.reservations, r.dimension) - UsedBy(r, r.dimension) + op.actual > policy.LimitFor(r.dimension).value
  }

  /** From within the caps, an operation leaves them if and only if it is a settle that overshoots. */
  lemma OpBreaksCapIffOvershoots(policy: Policy, ledger: Ledger, op: Op)
    requires WellKept(ledger) && WithinCaps(policy, ledger)
    ensures WithinCaps(policy, After(policy, ledger, op)) <==> !Overshoots(policy, ledger, op)
  {
    var after := After(policy, ledger, op);
    forall dimension
      ensures Over(policy, after.reservations, dimension)
         <==> Overshoots(policy, ledger, op) && dimension == ledger.reservations[op.key].dimension
    {
      assert !Over(policy, ledger.reservations, dimension);
      OpUsage(policy, ledger, op, dimension);
    }
  }

  /** Over any interleaving the caps hold at every moment if and only if no settle overshoots at its time. */
  lemma CapsHoldIffNothingOvershoots(policy: Policy, start: Ledger, ops: seq<Op>)
    requires WellKept(start) && WithinCaps(policy, start)
    ensures (forall n | 0 <= n <= |ops| :: WithinCaps(policy, At(policy, start, ops, n)))
       <==> (forall n | 0 <= n < |ops| :: !Overshoots(policy, At(policy, start, ops, n), ops[n]))
  {
    if forall n | 0 <= n <= |ops| :: WithinCaps(policy, At(policy, start, ops, n)) {
      forall n | 0 <= n < |ops| ensures !Overshoots(policy, At(policy, start, ops, n), ops[n]) {
        OneOpOn(policy, start, ops, n);
      }
    } else if forall n | 0 <= n < |ops| :: !Overshoots(policy, At(policy, start, ops, n), ops[n]) {
      forall n | 0 <= n <= |ops| ensures WithinCaps(policy, At(policy, start, ops, n)) {
        WithoutOvershootCapsHold(policy, start, ops, n);
      }
    }
  }

  lemma OneOpOn(policy: Policy, start: Ledger, ops: seq<Op>, n: nat)
    requires WellKept(start) && n < |ops| && WithinCaps(policy, start) && WithinCaps(policy, At(policy, start, ops, n))
    ensures WellKept(At(policy, start, ops, n))
    ensures WithinCaps(policy, At(policy, start, ops, n + 1)) <==> !Overshoots(policy, At(policy, start, ops, n), ops[n])
  {
    RunKeepsNoticed(policy, start, ops[..n]);
    NextOp(policy, start, ops, n);
    OpBreaksCapIffOvershoots(policy, At(policy, start, ops, n), ops[n]);
  }

  lemma {:induction false} WithoutOvershootCapsHold(policy: Policy, start: Ledger, ops: seq<Op>, n: nat)
    requires WellKept(start) && WithinCaps(policy, start)
    requires n <= |ops| && forall k | 0 <= k < n :: !Overshoots(policy, At(policy, start, ops, k), ops[k])
    ensures WithinCaps(policy, At(policy, start, ops, n))
  {
    if n > 0 {
      WithoutOvershootCapsHold(policy, start, ops, n - 1);
      OneOpOn(policy, start, ops, n - 1);
    }
  }

  /** A settle that reports at most what was reserved, of a reservation that was not given back. */
  predicate Disciplined(ledger: Ledger, op: Op) {
    op.DoSettle? && op.key in ledger.reservations ==>
      op.actual <= ledger.reservations[op.key].reserved && ledger.reservations[op.key].status != Released
  }

  /** Only a settle after a release, or one that reports more than was reserved, can overshoot. */
  lemma DisciplinedNeverOvershoots(policy: Policy, ledger: Ledger, op: Op)
    requires WellKept(ledger) && WithinCaps(policy, ledger) && Disciplined(ledger, op)
    ensures !Overshoots(policy, ledger, op)
  {
    if op.DoSettle? && op.key in ledger.reservations {
      assert !Over(policy, ledger.reservations, ledger.reservations[op.key].dimension);
    }
  }

  /** Over any interleaving of disciplined operations no dimension ever exceeds its cap. */
  lemma {:induction false} DisciplinedUsageStaysWithinCaps(policy: Policy, start: Ledger, ops: seq<Op>, n: nat)
    requires WellKept(start) && WithinCaps(policy, start)
    requires n <= |ops| && forall k | 0 <= k < n :: Disciplined(At(policy, start, ops, k), ops[k])
    ensures WithinCaps(policy, At(policy, start, ops, n))
  {
    if n > 0 {
      DisciplinedUsageStaysWithinCaps(policy, start, ops, n - 1);
      OneOpOn(policy, start, ops, n - 1);
      DisciplinedNeverOvershoots(policy, At(policy, start, ops, n - 1), ops[n - 1]);
    }
  }

  /**
   * Every run of a ledger, from the empty one: no excess goes unnoticed, a mark of
   * exhaustion stays, and the caps hold throughout exactly when nothing overshoots.
   */
  lemma EveryRunOfALedger(policy: Policy, ops: seq<Op>)
    ensures forall n | 0 <= n <= |ops| :: Noticed(policy, At(policy, EMPTY, ops, n))
    ensures forall n, later | 0 <= n <= later <= |ops| ::
              At(policy, EMPTY, ops, n).exhausted.Some? ==> At(policy, EMPTY, ops, later).exhausted.Some?
    ensures (forall n | 0 <= n <= |ops| :: WithinCaps(policy, At(policy, EMPTY, ops, n)))
       <==> (forall n | 0 <= n < |ops| :: !Overshoots(policy, At(policy, EMPTY, ops, n), ops[n]))
  {
    EmptyLedger(policy);
    CapsHoldIffNothingOvershoots(policy, EMPTY, ops);
    forall n, later | 0 <= n <= later <= |ops|
      ensures Noticed(policy, At(policy, EMPTY, ops, n))
      ensures At(policy, EMPTY, ops, n).exhausted.Some? ==> At(policy, EMPTY, ops, later).exhausted.Some?
    {
      ExhaustionIsNoticed(policy, EMPTY, ops, n, later);
    }
    forall n | 0 <= n <= |ops| ensures Noticed(policy, At(policy, EMPTY, ops, n)) {
      ExhaustionIsNoticed(policy, EMPTY, ops, n, n);
    }
  }

  /** The two ways to overshoot: settling what was given back, and reporting more than was reserved. */
  lemma CapsCanBreak(policy: Policy, key: string, other: string)
    requires policy.toolCalls == Some(1) && key != other
    ensures var ops := [
        DoReserve(key, ToolCalls, 1), DoRelease(key), DoReserve(other, ToolCalls, 1), DoSettle(key, 1)];
      Overshoots(policy, At(policy, EMPTY, ops, 3), ops[3])
    ensures var ops := [DoReserve(key, ToolCalls, 1), DoSettle(key, 2)];
      Overshoots(policy, At(policy, EMPTY, ops, 1), ops[1])
  {
    var fresh_ := Reservation(ToolCalls, 1, None, Reserved);
    var released := fresh_.(actual := Some(0), status := Released);
    var a, b := map[key := fresh_], map[key := released];
    UsedUpdated(map[], key, fresh_, ToolCalls);
    UsedUpdated(a, key, released, ToolCalls);
    UsedUpdated(b, other, fresh_, ToolCalls);
    assert a[key := released] == b;
    var ops := [DoReserve(key, ToolCalls, 1), DoRelease(key), DoReserve(other, ToolCalls, 1), DoSettle(key, 1)];
    NextOp(policy, EMPTY, ops, 0);
    NextOp(policy, EMPTY, ops, 1);
    NextOp(policy, EMPTY, ops, 2);
    NextOp(policy, EMPTY, [DoReserve(key, ToolCalls, 1), DoSettle(key, 2)], 0);
  }
}
