/** Assigning the coverage requirements of a research contract to tool calls (agents/deep_researcher.py). */
module Coverage {
  import opened Wrappers

  /** `Odd` is anything that is neither missing nor a list: whether it is true, and what iterating it gives, if it can be. */
  datatype Ids = Absent | IdList(ids: seq<string>) | Odd(truthy: bool, elements: Option<seq<string>>)

  datatype Args = NotADict | Dict(requirementIds: Ids, rest: string)

  datatype Name = ConductResearch | StartResearchTask | OtherTool(name: string)

  datatype Call = Call(id: string, name: Name, args: Args) {
    predicate Research() { name == ConductResearch || name == StartResearchTask }

    /** A research call whose arguments bring no requirement. */
    predicate Empty() {
      Research() && args.Dict?
      && match args.requirementIds
         case Absent => true
         case IdList(ids) => ids == []
         case Odd(truthy, _) => !truthy
    }

    /** What iterating the call's requirements gives, `None` when they cannot be iterated; a false value has no elements. */
    function Claims(): Option<seq<string>> {
      if !Research() || args.NotADict? then Some([])
      else
        match args.requirementIds
        case Absent => Some([])
        case IdList(ids) => Some(ids)
        case Odd(truthy, elements) => if elements.Some? && !truthy then Some([]) else elements
    }
  }

  datatype CoverageError = NotIterable

  predicate Distinct(ids: seq<string>) {
    forall i, j | 0 <= i < j < |ids| :: ids[i] != ids[j]
  }

  // ---------------------------------------------------------------- canonical identifiers

  /** The part before the last dash, if there is one. */
  function Ordinal(id: string): Option<string> {
    if id == "" then None
    else if id[|id| - 1] == '-' then Some(id[..|id| - 1])
    else Ordinal(id[..|id| - 1])
  }

  predicate Digits(s: string) {
    s != "" && forall i | 0 <= i < |s| :: '0' <= s[i] <= '9'
  }

  predicate CovOrdinal(ordinal: string) {
    |ordinal| >= 4 && ordinal[..4] == ['C', 'O', 'V', '-'] && Digits(ordinal[4..])
  }

  /** The contract ids with a given ordinal. */
  function Candidates(allowed: seq<string>, ordinal: string): (found: seq<string>)
    ensures forall id | id in found :: id in allowed
  {
    if allowed == [] then []
    else
      var last := allowed[|allowed| - 1];
      Candidates(allowed[..|allowed| - 1], ordinal)
      + if Ordinal(last) == Some(ordinal) && CovOrdinal(ordinal) then [last] else []
  }

  /** A contract id stays; any other is repaired only when its ordinal names exactly one contract id. */
  function Resolved(allowed: seq<string>, id: string): (r: string)
    ensures r in allowed || r == id
  {
    if id in allowed then id
    else
      var ordinal := Ordinal(id);
      if ordinal.None? then id
      else
        var found := Candidates(allowed, ordinal.value);
        if |found| == 1 then found[0] else id
  }

  /** The ids resolved in order, each kept the first time. */
  function Canonical(allowed: seq<string>, ids: seq<string>): (out: seq<string>)
    ensures forall id | id in ids :: Resolved(allowed, id) in out
    ensures Distinct(out)
    ensures forall id | id in out :: Resolved(allowed, id) == id
    ensures ids != [] ==> out != []
  {
    if ids == [] then []
    else
      var before := Canonical(allowed, ids[..|ids| - 1]);
      var r := Resolved(allowed, ids[|ids| - 1]);
      if r in before then before else before + [r]
  }

  lemma {:induction false} CanonicalIsStable(allowed: seq<string>, ids: seq<string>)
    requires Distinct(ids) && forall id | id in ids :: Resolved(allowed, id) == id
    ensures Canonical(allowed, ids) == ids
  {
    if ids != [] {
      CanonicalIsStable(allowed, ids[..|ids| - 1]);
    }
  }

  // ------------------------------------------------------ what a repaired identifier is

  /** The ordinal stands before the last dash. */
  predicate Before(id: string, ordinal: string) {
    && |ordinal| < |id| && id[..|ordinal|] == ordinal && id[|ordinal|] == '-'
    && forall k | |ordinal| < k < |id| :: id[k] != '-'
  }

  lemma {:induction false} OrdinalIs(id: string, ordinal: string)
    ensures Ordinal(id) == Some(ordinal) <==> Before(id, ordinal)
  {
    if id != "" && id[|id| - 1] != '-' {
      var init := id[..|id| - 1];
      OrdinalIs(init, ordinal);
      assert |ordinal| <= |init| ==> init[..|ordinal|] == id[..|ordinal|];
    }
  }

  lemma {:induction false} NoCandidates(allowed: seq<string>, ordinal: string)
    requires CovOrdinal(ordinal) ==> forall i | 0 <= i < |allowed| :: !Before(allowed[i], ordinal)
    ensures Candidates(allowed, ordinal) == []
  {
    if allowed != [] {
      OrdinalIs(allowed[|allowed| - 1], ordinal);
      NoCandidates(allowed[..|allowed| - 1], ordinal);
    }
  }

  lemma {:induction false} SingleCandidate(allowed: seq<string>, ordinal: string, k: nat)
    requires CovOrdinal(ordinal) && k < |allowed| && Before(allowed[k], ordinal)
    requires forall i | 0 <= i < |allowed| && i != k :: !Before(allowed[i], ordinal)
    ensures Candidates(allowed, ordinal) == [allowed[k]]
  {
    var last := |allowed| - 1;
    OrdinalIs(allowed[last], ordinal);
    if k < last {
      SingleCandidate(allowed[..last], ordinal, k);
    } else {
      NoCandidates(allowed[..last], ordinal);
    }
  }

  lemma {:induction false} HasCandidate(allowed: seq<string>, ordinal: string, j: nat)
    requires CovOrdinal(ordinal) && j < |allowed| && Before(allowed[j], ordinal)
    ensures |Candidates(allowed, ordinal)| >= 1
  {
    OrdinalIs(allowed[|allowed| - 1], ordinal);
    if j < |allowed| - 1 {
      HasCandidate(allowed[..|allowed| - 1], ordinal, j);
    }
  }

  lemma {:induction false} TwoCandidates(allowed: seq<string>, ordinal: string, j: nat, k: nat)
    requires CovOrdinal(ordinal) && j < k < |allowed| && Before(allowed[j], ordinal) && Before(allowed[k], ordinal)
    ensures |Candidates(allowed, ordinal)| >= 2
  {
    var last := |allowed| - 1;
    OrdinalIs(allowed[last], ordinal);
    if k < last {
      TwoCandidates(allowed[..last], ordinal, j, k);
    } else {
      HasCandidate(allowed[..last], ordinal, j);
    }
  }

  /** An id that is none of the contract's, numbered like exactly one of them, is taken for that one. */
  lemma RepairedToTheOnlyOne(allowed: seq<string>, number: string, suffix: string, k: nat)
    requires number != "" && (forall i | 0 <= i < |number| :: '0' <= number[i] <= '9')
    requires '-' !in suffix && k < |allowed| && "COV-" + number + "-" + suffix !in allowed
    requires Before(allowed[k], "COV-" + number)
    requires forall i | 0 <= i < |allowed| && i != k :: !Before(allowed[i], "COV-" + number)
    ensures Resolved(allowed, "COV-" + number + "-" + suffix) == allowed[k]
  {
    var ordinal := "COV-" + number;
    assert ordinal[..4] == ['C', 'O', 'V', '-'] && ordinal[4..] == number;
    var id := ordinal + "-" + suffix;
    assert id[..|ordinal|] == ordinal;
    OrdinalIs(id, ordinal);
    SingleCandidate(allowed, ordinal, k);
  }

  /** It stays as it is if it has no number, or if none or several of the contract's ids have that number. */
  lemma OthersAreNotRepaired(allowed: seq<string>, id: string, ordinal: string)
    requires Before(id, ordinal)
    requires || |ordinal| < 5 || ordinal[..4] != "COV-" || (exists i :: 4 <= i < |ordinal| && !('0' <= ordinal[i] <= '9'))
             || (forall i | 0 <= i < |allowed| :: !Before(allowed[i], ordinal))
             || (exists j, k :: 0 <= j < k < |allowed| && Before(allowed[j], ordinal) && Before(allowed[k], ordinal))
    ensures Resolved(allowed, id) == id
  {
    OrdinalIs(id, ordinal);
    if CovOrdinal(ordinal) {
      assert forall i | 4 <= i < |ordinal| :: ordinal[i] == ordinal[4..][i - 4];
      if j, k :| 0 <= j < k < |allowed| && Before(allowed[j], ordinal) && Before(allowed[k], ordinal) {
        TwoCandidates(allowed, ordinal, j, k);
      } else {
        NoCandidates(allowed, ordinal);
      }
    } else {
      NoCandidates(allowed, ordinal);
    }
  }

  /** Without a dash there is nothing to repair by. */
  lemma WithoutDash(allowed: seq<string>, id: string)
    requires '-' !in id
    ensures Resolved(allowed, id) == id
  {
    if Ordinal(id).Some? {
      OrdinalIs(id, Ordinal(id).value);
    }
  }

  method CandidatesFor(allowed: seq<string>, ordinal: string) returns (found: seq<string>)
    ensures found == Candidates(allowed, ordinal)
  {
    found := [];
    for i := 0 to |allowed|
      invariant found == Candidates(allowed[..i], ordinal)
    {
      assert allowed[..i + 1][..i] == allowed[..i];
      if Ordinal(allowed[i]) == Some(ordinal) && CovOrdinal(ordinal) {
        found := found + [allowed[i]];
      }
    }
    assert allowed[..|allowed|] == allowed;
  }

  method ResolveId(requirementId: string, allowed: seq<string>) returns (resolved: string)
    ensures resolved == Resolved(allowed, requirementId)
  {
    resolved := requirementId;
    if requirementId !in allowed {
      var ordinal := Ordinal(requirementId);
      if ordinal.Some? {
        var candidates := CandidatesFor(allowed, ordinal.value);
        if |candidates| == 1 {
          resolved := candidates[0];
        }
      }
    }
  }

  method CanonicalizeIds(requirementIds: seq<string>, allowed: seq<string>) returns (normalized: seq<string>)
    ensures normalized == Canonical(allowed, requirementIds)
  {
    normalized := [];
    for i := 0 to |requirementIds|
      invariant normalized == Canonical(allowed, requirementIds[..i])
    {
      var resolved := ResolveId(requirementIds[i], allowed);
      assert requirementIds[..i + 1][..i] == requirementIds[..i];
      if resolved !in normalized {
        normalized := normalized + [resolved];
      }
    }
    assert requirementIds[..|requirementIds|] == requirementIds;
  }

  function Normalized(allowed: seq<string>, call: Call): Call {
    if call.args.Dict? && call.args.requirementIds.IdList?
    then call.(args := call.args.(requirementIds := IdList(Canonical(allowed, call.args.requirementIds.ids))))
    else call
  }

  function NormalizedAll(allowed: seq<string>, calls: seq<Call>): (out: seq<Call>)
    ensures |out| == |calls| && forall i | 0 <= i < |calls| :: out[i] == Normalized(allowed, calls[i])
  {
    seq(|calls|, i requires 0 <= i < |calls| => Normalized(allowed, calls[i]))
  }

  // ------------------------------------------------------------------- round-robin shares

  /** The items whose offset is `j` modulo `m`. */
  function Share(items: seq<string>, m: nat, j: nat): (share: seq<string>)
    requires j < m
    ensures forall id | id in share :: id in items
  {
    if items == [] then []
    else
      var n := |items| - 1;
      Share(items[..n], m, j) + if n % m == j then [items[n]] else []
  }

  lemma Multiples(m: nat, d: int)
    ensures d >= 1 ==> m * d >= m
    ensures d <= -1 ==> m * d <= 0 - m
  {
  }

  lemma DivIs(n: nat, m: nat, q: nat, r: nat)
    requires m > 0 && r < m && n == m * q + r
    ensures n / m == q && n % m == r
  {
    var d := n / m - q;
    Multiples(m, d);
    assert m * (n / m) == m * q + m * d;
  }

  lemma DivStep(n: nat, m: nat)
    requires m > 0
    ensures if n % m == m - 1 then (n + 1) % m == 0 && (n + 1) / m == n / m + 1
            else (n + 1) % m == n % m + 1 && (n + 1) / m == n / m
  {
    var q, r := n / m, n % m;
    if r == m - 1 {
      assert m * (q + 1) == m * q + m;
      DivIs(n + 1, m, q + 1, 0);
    } else {
      DivIs(n + 1, m, q, r + 1);
    }
  }

  /** The shares are as even as they can be. */
  lemma {:induction false} ShareSize(items: seq<string>, m: nat, j: nat)
    requires j < m
    ensures |Share(items, m, j)| == |items| / m + if j < |items| % m then 1 else 0
  {
    if items != [] {
      ShareSize(items[..|items| - 1], m, j);
      DivStep(|items| - 1, m);
    }
  }

  lemma {:induction false} ShareHas(items: seq<string>, m: nat, j: nat, k: nat)
    requires j < m && k < |items| && Distinct(items)
    ensures items[k] in Share(items, m, j) <==> k % m == j
  {
    var n := |items| - 1;
    if k < n {
      ShareHas(items[..n], m, j, k);
      assert items[..n][k] == items[k] && items[n] != items[k];
    } else {
      assert items[n] !in items[..n];
    }
  }

  lemma {:induction false} ShareDistinct(items: seq<string>, m: nat, j: nat)
    requires j < m && Distinct(items)
    ensures Distinct(Share(items, m, j))
  {
    if items != [] {
      var n := |items| - 1;
      ShareDistinct(items[..n], m, j);
      assert items[n] !in items[..n];
    }
  }

  // ------------------------------------------------------------------------- assignment

  /** All the contract ids that some call claims. */
  function ClaimedIn(calls: seq<Call>, allowed: seq<string>): set<string>
    requires forall i | 0 <= i < |calls| :: calls[i].Claims().Some?
  {
    set i, id | 0 <= i < |calls| && id in calls[i].Claims().value && id in allowed :: id
  }

  function Unclaimed(allowed: seq<string>, claimed: set<string>): (ids: seq<string>)
    ensures forall id :: id in ids <==> id in allowed && id !in claimed
    ensures Distinct(allowed) ==> Distinct(ids)
  {
    if allowed == [] then []
    else
      var last := allowed[|allowed| - 1];
      Unclaimed(allowed[..|allowed| - 1], claimed) + if last in claimed then [] else [last]
  }

  function EmptyIndexes(calls: seq<Call>): (indexes: seq<nat>)
    ensures forall j | 0 <= j < |indexes| :: indexes[j] < |calls| && calls[indexes[j]].Empty()
    ensures forall j, k | 0 <= j < k < |indexes| :: indexes[j] < indexes[k]
    ensures forall i: nat :: i in indexes <==> i < |calls| && calls[i].Empty()
  {
    if calls == [] then []
    else
      var n := |calls| - 1;
      EmptyIndexes(calls[..n]) + if calls[n].Empty() then [n] else []
  }

  function WithIds(call: Call, ids: seq<string>): Call {
    if ids == [] || call.args.NotADict? then call else call.(args := call.args.(requirementIds := IdList(ids)))
  }

  predicate AllIterable(calls: seq<Call>) {
    forall i | 0 <= i < |calls| :: calls[i].Claims().Some?
  }

  /** Calls that bring ids are only canonicalised; the empty ones share what nobody claimed. */
  ghost predicate IsAssignment(calls: seq<Call>, allowed: seq<string>, out: seq<Call>)
    requires AllIterable(NormalizedAll(allowed, calls))
  {
    var normalized := NormalizedAll(allowed, calls);
    var missing := EmptyIndexes(normalized);
    var unclaimed := Unclaimed(allowed, ClaimedIn(normalized, allowed));
    && |out| == |calls|
    && (forall i | 0 <= i < |calls| && i !in missing :: out[i] == normalized[i])
    && (forall j | 0 <= j < |missing| ::
          out[missing[j]] == WithIds(normalized[missing[j]], Share(unclaimed, |missing|, j)))
  }

  lemma NormalizedIterable(allowed: seq<string>, calls: seq<Call>)
    ensures AllIterable(NormalizedAll(allowed, calls)) <==> AllIterable(calls)
  {
    forall i | 0 <= i < |calls| ensures Normalized(allowed, calls[i]).Claims().Some? <==> calls[i].Claims().Some? {
    }
  }

  /** Deals the items out to `m` assignments in turn. */
  method DealOut(items: seq<string>, m: nat) returns (assignments: seq<seq<string>>)
    ensures |assignments| == m && forall j | 0 <= j < m :: assignments[j] == Share(items, m, j)
  {
    assignments := seq(m, _ => []);
    if m > 0 {
      for offset := 0 to |items|
        invariant |assignments| == m
        invariant forall j | 0 <= j < m :: assignments[j] == Share(items[..offset], m, j)
      {
        assert items[..offset + 1][..offset] == items[..offset];
        var j := offset % m;
        assignments := assignments[j := assignments[j] + [items[offset]]];
      }
      assert items[..|items|] == items;
    }
  }

  method AssignRequirements(calls: seq<Call>, contract: Option<seq<string>>) returns (out: Result<seq<Call>, CoverageError>)
    ensures contract.None? ==> out == Ok(calls)
    ensures contract.Some? ==> (out.Ok? <==> AllIterable(calls))
    ensures contract.Some? && out.Ok? ==>
              AllIterable(NormalizedAll(contract.value, calls)) && IsAssignment(calls, contract.value, out.value)
  {
    if contract.None? {
      return Ok(calls);
    }
    var allowed := contract.value;
    var normalized := NormalizeCalls(calls, allowed);
    NormalizedIterable(allowed, calls);
    if exists i | 0 <= i < |normalized| :: normalized[i].Claims().None? {
      return Err(NotIterable);
    }
    var claimed := ClaimedIn(normalized, allowed);
    var missing := EmptyIndexes(normalized);
    var assignments := DealOut(Unclaimed(allowed, claimed), |missing|);
    var result := Overwrite(normalized, missing, assignments);
    return Ok(result);
  }

  method NormalizeCalls(calls: seq<Call>, allowed: seq<string>) returns (normalized: seq<Call>)
    ensures normalized == NormalizedAll(allowed, calls)
  {
    normalized := [];
    for i := 0 to |calls|
      invariant |normalized| == i && forall k | 0 <= k < i :: normalized[k] == Normalized(allowed, calls[k])
    {
      var call := calls[i];
      if call.args.Dict? && call.args.requirementIds.IdList? {
        var ids := CanonicalizeIds(call.args.requirementIds.ids, allowed);
        call := call.(args := call.args.(requirementIds := IdList(ids)));
      }
      normalized := normalized + [call];
    }
  }

  /** Writes each non-empty assignment into its call. */
  method Overwrite(normalized: seq<Call>, missing: seq<nat>, assignments: seq<seq<string>>) returns (result: seq<Call>)
    requires |missing| == |assignments|
    requires forall j | 0 <= j < |missing| :: missing[j] < |normalized|
    requires forall j, k | 0 <= j < k < |missing| :: missing[j] < missing[k]
    ensures |result| == |normalized|
    ensures forall i | 0 <= i < |normalized| && i !in missing :: result[i] == normalized[i]
    ensures forall j | 0 <= j < |missing| :: result[missing[j]] == WithIds(normalized[missing[j]], assignments[j])
  {
    result := normalized;
    for j := 0 to |missing|
      invariant |result| == |normalized|
      invariant forall i | 0 <= i < |normalized| && i !in missing[..j] :: result[i] == normalized[i]
      invariant forall k | 0 <= k < j :: result[missing[k]] == WithIds(normalized[missing[k]], assignments[k])
    {
      assert missing[j] !in missing[..j];
      result := result[missing[j] := WithIds(result[missing[j]], assignments[j])];
      assert missing[..j + 1] == missing[..j] + [missing[j]];
    }
    assert missing[..|missing|] == missing;
  }

  // --------------------------------------------------------------------------- theorems

  /** The ids a call owns in the end. */
  function OwnedBy(call: Call): seq<string> {
    if call.Claims().Some? then call.Claims().value else []
  }

  /** An id that was claimed stays with the call that claimed it. */
  lemma ClaimedStays(calls: seq<Call>, allowed: seq<string>, out: seq<Call>, i: nat)
    requires AllIterable(NormalizedAll(allowed, calls)) && IsAssignment(calls, allowed, out)
    requires i < |calls| && NormalizedAll(allowed, calls)[i].Claims().value != []
    ensures out[i] == Normalized(allowed, calls[i])
  {
    assert i !in EmptyIndexes(NormalizedAll(allowed, calls));
  }

  /** An id nobody claimed goes to exactly one of the empty calls. */
  lemma UnclaimedGoesToOne(calls: seq<Call>, allowed: seq<string>, out: seq<Call>, id: string) returns (owner: nat)
    requires AllIterable(NormalizedAll(allowed, calls)) && IsAssignment(calls, allowed, out) && Distinct(allowed)
    requires EmptyIndexes(NormalizedAll(allowed, calls)) != []
    requires id in Unclaimed(allowed, ClaimedIn(NormalizedAll(allowed, calls), allowed))
    ensures owner in EmptyIndexes(NormalizedAll(allowed, calls))
    ensures owner < |out| && id in OwnedBy(out[owner])
    ensures forall i | 0 <= i < |out| && i != owner :: id !in OwnedBy(out[i])
  {
    var normalized := NormalizedAll(allowed, calls);
    var missing := EmptyIndexes(normalized);
    var unclaimed := Unclaimed(allowed, ClaimedIn(normalized, allowed));
    var k :| 0 <= k < |unclaimed| && unclaimed[k] == id;
    var m := |missing|;
    ShareHas(unclaimed, m, k % m, k);
    owner := missing[k % m];
    forall i | 0 <= i < |out| && i != owner ensures id !in OwnedBy(out[i]) {
      NotOwnedElsewhere(calls, allowed, out, k, i);
    }
  }

  /** An empty call owns its own share, and nothing of another's. */
  lemma ShareIsOwn(call: Call, unclaimed: seq<string>, m: nat, j: nat, k: nat)
    requires call.Empty() && Distinct(unclaimed) && j < m && k < |unclaimed| && k % m != j
    ensures unclaimed[k] !in OwnedBy(WithIds(call, Share(unclaimed, m, j)))
  {
    ShareHas(unclaimed, m, j, k);
    EmptyOwnsNothing(call);
  }

  lemma NotOwnedElsewhere(calls: seq<Call>, allowed: seq<string>, out: seq<Call>, k: nat, i: nat)
    requires AllIterable(NormalizedAll(allowed, calls)) && IsAssignment(calls, allowed, out) && Distinct(allowed)
    requires k < |Unclaimed(allowed, ClaimedIn(NormalizedAll(allowed, calls), allowed))|
    requires var missing := EmptyIndexes(NormalizedAll(allowed, calls));
      missing != [] && i < |out| && i != missing[k % |missing|]
    ensures Unclaimed(allowed, ClaimedIn(NormalizedAll(allowed, calls), allowed))[k] !in OwnedBy(out[i])
  {
    var normalized := NormalizedAll(allowed, calls);
    var missing := EmptyIndexes(normalized);
    var unclaimed := Unclaimed(allowed, ClaimedIn(normalized, allowed));
    var id := unclaimed[k];
    assert id in unclaimed;
    if i in missing {
      var j :| 0 <= j < |missing| && missing[j] == i;
      ShareIsOwn(normalized[i], unclaimed, |missing|, j, k);
    } else {
      ClaimedHas(normalized, allowed, i, id);
    }
  }

  lemma ClaimedHas(calls: seq<Call>, allowed: seq<string>, i: nat, id: string)
    requires AllIterable(calls) && i < |calls| && id in allowed
    ensures id in calls[i].Claims().value ==> id in ClaimedIn(calls, allowed)
  {
  }

  lemma EmptyOwnsNothing(call: Call)
    requires call.Empty()
    ensures OwnedBy(call) == []
  {
  }

  /** When some research call arrives empty, every contract id is owned by some call. */
  lemma EveryRequirementIsOwned(calls: seq<Call>, allowed: seq<string>, out: seq<Call>, id: string) returns (i: nat)
    requires AllIterable(NormalizedAll(allowed, calls)) && IsAssignment(calls, allowed, out) && Distinct(allowed)
    requires EmptyIndexes(NormalizedAll(allowed, calls)) != [] && id in allowed
    ensures i < |out| && id in OwnedBy(out[i])
  {
    var normalized := NormalizedAll(allowed, calls);
    if id in ClaimedIn(normalized, allowed) {
      i :| 0 <= i < |normalized| && id in normalized[i].Claims().value;
      ClaimedStays(calls, allowed, out, i);
    } else {
      i := UnclaimedGoesToOne(calls, allowed, out, id);
    }
  }

  /** The empty calls' shares differ by at most one. */
  lemma SharesAreEven(calls: seq<Call>, allowed: seq<string>, out: seq<Call>, j: nat, k: nat)
    requires AllIterable(NormalizedAll(allowed, calls)) && IsAssignment(calls, allowed, out)
    requires var missing := EmptyIndexes(NormalizedAll(allowed, calls)); j < |missing| && k < |missing|
    ensures var missing := EmptyIndexes(NormalizedAll(allowed, calls));
      |OwnedBy(out[missing[j]])| <= |OwnedBy(out[missing[k]])| + 1
  {
    var normalized := NormalizedAll(allowed, calls);
    var missing := EmptyIndexes(normalized);
    var unclaimed := Unclaimed(allowed, ClaimedIn(normalized, allowed));
    ShareSize(unclaimed, |missing|, j);
    ShareSize(unclaimed, |missing|, k);
    EmptyOwnsNothing(normalized[missing[j]]);
    EmptyOwnsNothing(normalized[missing[k]]);
  }

  /** A call that brought ids keeps them, canonical and without repetition; anything but its id list is untouched. */
  lemma CallsWithIdsAreOnlyCanonicalised(calls: seq<Call>, allowed: seq<string>, out: seq<Call>, i: nat)
    requires AllIterable(NormalizedAll(allowed, calls)) && IsAssignment(calls, allowed, out)
    requires i < |calls| && !calls[i].Empty()
    ensures out[i] == Normalized(allowed, calls[i])
    ensures calls[i].args.Dict? && calls[i].args.requirementIds.IdList? ==>
              out[i].args.Dict? && out[i].args.requirementIds.IdList? && Distinct(out[i].args.requirementIds.ids)
              && forall id | id in calls[i].args.requirementIds.ids ::
                Resolved(allowed, id) in out[i].args.requirementIds.ids
  {
    assert i !in EmptyIndexes(NormalizedAll(allowed, calls));
  }

  lemma OutputIsNormal(calls: seq<Call>, allowed: seq<string>, out: seq<Call>, i: nat)
    requires AllIterable(NormalizedAll(allowed, calls)) && IsAssignment(calls, allowed, out) && Distinct(allowed)
    requires i < |out|
    ensures Normalized(allowed, out[i]) == out[i] && out[i].Claims().Some?
    ensures out[i].Empty() ==> NormalizedAll(allowed, calls)[i].Empty()
  {
    var normalized := NormalizedAll(allowed, calls);
    var missing := EmptyIndexes(normalized);
    if i in missing {
      var j :| 0 <= j < |missing| && missing[j] == i;
      var unclaimed := Unclaimed(allowed, ClaimedIn(normalized, allowed));
      var share := Share(unclaimed, |missing|, j);
      ShareDistinct(unclaimed, |missing|, j);
      CanonicalIsStable(allowed, share);
    }
    if calls[i].args.Dict? && calls[i].args.requirementIds.IdList? {
      CanonicalIsStable(allowed, Canonical(allowed, calls[i].args.requirementIds.ids));
    }
  }

  lemma {:induction false} UnclaimedIsEmpty(allowed: seq<string>, claimed: set<string>)
    requires forall id | id in allowed :: id in claimed
    ensures Unclaimed(allowed, claimed) == []
  {
    if allowed != [] {
      UnclaimedIsEmpty(allowed[..|allowed| - 1], claimed);
    }
  }

  /** A second pass finds nothing left to deal out. */
  lemma NothingLeftUnclaimed(calls: seq<Call>, allowed: seq<string>, out: seq<Call>)
    requires AllIterable(NormalizedAll(allowed, calls)) && IsAssignment(calls, allowed, out) && Distinct(allowed)
    requires EmptyIndexes(NormalizedAll(allowed, calls)) != [] && AllIterable(out)
    ensures Unclaimed(allowed, ClaimedIn(out, allowed)) == []
  {
    forall id | id in allowed ensures id in ClaimedIn(out, allowed) {
      var i := EveryRequirementIsOwned(calls, allowed, out, id);
      ClaimedHas(out, allowed, i, id);
    }
    UnclaimedIsEmpty(allowed, ClaimedIn(out, allowed));
  }

  /** Each output call is canonical, can be iterated, and is empty only if it arrived so. */
  lemma OutputIsCanonical(calls: seq<Call>, allowed: seq<string>, out: seq<Call>)
    requires AllIterable(NormalizedAll(allowed, calls)) && IsAssignment(calls, allowed, out) && Distinct(allowed)
    ensures NormalizedAll(allowed, out) == out && AllIterable(out)
    ensures EmptyIndexes(out) != [] ==> EmptyIndexes(NormalizedAll(allowed, calls)) != []
  {
    forall i | 0 <= i < |out|
      ensures Normalized(allowed, out[i]) == out[i] && out[i].Claims().Some?
      ensures out[i].Empty() ==> NormalizedAll(allowed, calls)[i].Empty()
    {
      OutputIsNormal(calls, allowed, out, i);
    }
    if EmptyIndexes(out) != [] {
      assert EmptyIndexes(out)[0] in EmptyIndexes(NormalizedAll(allowed, calls));
    }
  }

  /** A second pass changes nothing. */
  lemma SecondPassChangesNothing(calls: seq<Call>, allowed: seq<string>, out: seq<Call>, again: seq<Call>)
    requires AllIterable(NormalizedAll(allowed, calls)) && IsAssignment(calls, allowed, out) && Distinct(allowed)
    ensures AllIterable(NormalizedAll(allowed, out))
    ensures IsAssignment(out, allowed, again) ==> again == out
  {
    OutputIsCanonical(calls, allowed, out);
    var missing := EmptyIndexes(out);
    if IsAssignment(out, allowed, again) {
      if missing != [] {
        NothingLeftUnclaimed(calls, allowed, out);
      }
      AssignsNothing(out, allowed, again);
    }
  }

  lemma AssignsNothing(calls: seq<Call>, allowed: seq<string>, again: seq<Call>)
    requires NormalizedAll(allowed, calls) == calls && AllIterable(calls) && IsAssignment(calls, allowed, again)
    requires EmptyIndexes(calls) != [] ==> Unclaimed(allowed, ClaimedIn(calls, allowed)) == []
    ensures again == calls
  {
    var missing := EmptyIndexes(calls);
    forall i | 0 <= i < |calls| ensures again[i] == calls[i] {
      if i in missing {
        var j :| 0 <= j < |missing| && missing[j] == i;
        assert again[missing[j]] == WithIds(calls[missing[j]], Share([], |missing|, j));
      }
    }
  }

  // ---------------------------------------------------------------- said of the calls alone

  /** A research call with arguments that brings no requirement. */
  predicate BringsNone(call: Call) {
    && (call.name == ConductResearch || call.name == StartResearchTask) && call.args.Dict?
    && (call.args.requirementIds == Absent || call.args.requirementIds == IdList([])
        || (call.args.requirementIds.Odd? && !call.args.requirementIds.truthy))
  }

  /** The assignment raises exactly when a research call brings something that cannot be iterated, null included. */
  lemma RaisesIffNotIterable(calls: seq<Call>)
    ensures AllIterable(calls) <==>
            forall i | 0 <= i < |calls| && calls[i].name in {ConductResearch, StartResearchTask} && calls[i].args.Dict? ::
              calls[i].args.requirementIds.Odd? ==> calls[i].args.requirementIds.elements.Some?
  {
  }

  /** Every call keeps its id, its name and its other arguments; all but a research call that brings none only get canonical ids. */
  lemma CallsKeepTheRest(calls: seq<Call>, allowed: seq<string>, out: seq<Call>, i: nat)
    requires AllIterable(NormalizedAll(allowed, calls)) && IsAssignment(calls, allowed, out) && i < |calls|
    ensures i < |out| == |calls|
    ensures out[i].id == calls[i].id && out[i].name == calls[i].name && (out[i].args.Dict? <==> calls[i].args.Dict?)
    ensures calls[i].args.Dict? ==> out[i].args.rest == calls[i].args.rest
    ensures !BringsNone(calls[i]) ==>
              if calls[i].args.Dict? && calls[i].args.requirementIds.IdList?
              then out[i].args.requirementIds == IdList(Canonical(allowed, calls[i].args.requirementIds.ids))
              else out[i] == calls[i]
  {
    var normalized := NormalizedAll(allowed, calls);
    var missing := EmptyIndexes(normalized);
    if i in missing {
      var j :| 0 <= j < |missing| && missing[j] == i;
      assert normalized[i].Empty();
      assert out[missing[j]] == WithIds(normalized[i], Share(Unclaimed(allowed, ClaimedIn(normalized, allowed)), |missing|, j));
    }
  }

  /** One research call that brings none is enough for every requirement of the contract to be named by a research call. */
  lemma NoRequirementIsForgotten(calls: seq<Call>, allowed: seq<string>, out: seq<Call>, k: nat, id: string)
    returns (i: nat)
    requires AllIterable(NormalizedAll(allowed, calls)) && IsAssignment(calls, allowed, out) && Distinct(allowed)
    requires k < |calls| && BringsNone(calls[k]) && id in allowed
    ensures i < |out| && out[i].name in {ConductResearch, StartResearchTask} && out[i].args.Dict?
    ensures match out[i].args.requirementIds
            case Absent => false
            case IdList(ids) => id in ids
            case Odd(_, elements) => elements.Some? && id in elements.value
  {
    assert NormalizedAll(allowed, calls)[k].Empty();
    i := EveryRequirementIsOwned(calls, allowed, out, id);
  }
}
