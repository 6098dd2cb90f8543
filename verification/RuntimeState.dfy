/** Reducers that fold updates into state, and the replay built on them (runtime.py, run_context.py `replay`). */
module RuntimeState {
  import opened Wrappers

  /** What a list field holds; `RemoveAll` is the marker that asks for everything before it to go. */
  datatype Item = Item(text: string) | RemoveAll | NullItem

  /** `One` is any value that is not a list, with what `bool` and `list` make of it. */
  datatype Value =
    | Null
    | List(items: seq<Item>)
    | One(item: Item, truthy: bool, elements: Option<seq<Item>>)

  datatype NewValue = Override(value: Value) | Plain(value: Value)

  datatype ReducerError = NotIterable

  datatype Field =
    | Messages | SupervisorMessages | ResearcherMessages
    | RawNotes | Notes | CompletedTaskOutputs | MemoryCandidates | HumanFeedback | HandoffAssessments
    | CandidateRegistry | DocumentRegistry | EvidenceRegistry | WebResearchIterations | PermissionDenials
    | OtherField(name: string)
  {
    predicate MessageKey() { Messages? || SupervisorMessages? || ResearcherMessages? }

    predicate ReducerKey() { !MessageKey() && !OtherField? }
  }

  type State = map<Field, Value>

  type Update = map<Field, NewValue>

  // -------------------------------------------------------------------------- reducers

  /** Python's `list(value or [])`. */
  function AsList(value: Value): Result<seq<Item>, ReducerError> {
    match value
    case Null => Ok([])
    case List(items) => Ok(items)
    case One(_, truthy, elements) =>
      if !truthy then Ok([]) else if elements.Some? then Ok(elements.value) else Err(NotIterable)
  }

  function Values(value: Value): seq<Item> {
    match value
    case Null => [NullItem]
    case List(items) => items
    case One(item, _, _) => [item]
  }

  function WithoutMarkers(items: seq<Item>): (kept: seq<Item>)
    ensures RemoveAll !in kept
  {
    if items == [] then []
    else (if items[0] == RemoveAll then [] else [items[0]]) + WithoutMarkers(items[1..])
  }

  function Normalized(norm: Item -> Item, items: seq<Item>): seq<Item> {
    seq(|items|, i requires 0 <= i < |items| => norm(items[i]))
  }

  function MergeSequence(norm: Item -> Item, current: Value, value: Value): Result<Value, ReducerError> {
    var base := AsList(current);
    if base.Err? then Err(base.error)
    else if RemoveAll in Values(value) then Ok(List(Normalized(norm, WithoutMarkers(Values(value)))))
    else Ok(List(base.value + Normalized(norm, Values(value))))
  }

  function MergeReducerValue(current: Value, new_: NewValue): Result<Value, ReducerError> {
    if new_.Override? then Ok(new_.value)
    else if !current.List? && !new_.value.List? then Ok(new_.value)
    else
      var base, more := AsList(current), AsList(new_.value);
      if base.Err? then Err(base.error) else if more.Err? then Err(more.error) else Ok(List(base.value + more.value))
  }

  /** What one update makes of one field. */
  function Merged(norm: Item -> Item, field: Field, current: Value, new_: NewValue): Result<Value, ReducerError> {
    if field.MessageKey() then
      if new_.Override? then
        var items := AsList(new_.value);
        if items.Err? then Err(items.error) else Ok(List(Normalized(norm, items.value)))
      else MergeSequence(norm, current, new_.value)
    else if field.ReducerKey() then MergeReducerValue(current, new_)
    else Ok(new_.value)
  }

  function Get(state: State, field: Field): Value {
    if field in state then state[field] else Null
  }

  /** The state dictionary that updates are applied to in place. */
  class StateDict {
    var state: State

    constructor ()
      ensures state == map[]
    {
      state := map[];
    }

    /** Every named field is merged once with its old value; an error stops part of the way. */
    method ApplyUpdate(norm: Item -> Item, update: Update) returns (error: Option<ReducerError>)
      modifies this
      ensures state.Keys <= old(state).Keys + update.Keys
      ensures forall f | f in old(state) && f !in update :: f in state && state[f] == old(state)[f]
      ensures error.None? ==> forall f | f in update ::
                f in state && Merged(norm, f, Get(old(state), f), update[f]) == Ok(state[f])
      ensures error.None? ==> forall name | OtherField(name) in update ::
                OtherField(name) in state && state[OtherField(name)] == update[OtherField(name)].value
      ensures error.Some? ==>
                && (exists f | f in update :: Merged(norm, f, Get(old(state), f), update[f]).Err?)
                && forall f | f in state && f in update ::
                  Get(old(state), f) == state[f] || Merged(norm, f, Get(old(state), f), update[f]) == Ok(state[f])
    {
      var left := update.Keys;
      while left != {}
        invariant left <= update.Keys
        invariant state.Keys <= old(state).Keys + update.Keys
        invariant forall f | f in left || f !in update :: Get(state, f) == Get(old(state), f)
        invariant forall f | f in left || f !in update :: f in state <==> f in old(state)
        invariant forall f | f in update && f !in left ::
                    f in state && Merged(norm, f, Get(old(state), f), update[f]) == Ok(state[f])
        decreases left
      {
        var field :| field in left;
        var merged := Merged(norm, field, Get(state, field), update[field]);
        if merged.Err? {
          return Some(merged.error);
        }
        state := state[field := merged.value];
        left := left - {field};
      }
      return None;
    }
  }

  // ------------------------------------------------------------------------ one field

  /** A field after a sequence of updates to it. */
  function FieldAfter(norm: Item -> Item, field: Field, first: Value, updates: seq<NewValue>): Result<Value, ReducerError>
    decreases |updates|
  {
    if updates == [] then Ok(first)
    else
      var before := FieldAfter(norm, field, first, updates[..|updates| - 1]);
      if before.Err? then before else Merged(norm, field, before.value, updates[|updates| - 1])
  }

  /** Whether an update discards what the field held. */
  predicate Resets(field: Field, new_: NewValue) {
    new_.Override? || (field.MessageKey() && RemoveAll in Values(new_.value))
  }

  /** What an update contributes to a list field. */
  function Contribution(norm: Item -> Item, field: Field, new_: NewValue): seq<Item> {
    if field.MessageKey() then
      var items := if new_.Override? then (if new_.value.List? then new_.value.items else []) else Values(new_.value);
      Normalized(norm, if new_.Plain? then WithoutMarkers(items) else items)
    else if new_.value.List? then new_.value.items else []
  }

  /** The contributions from the last resetting update on, after the first items if none resets. */
  function Accumulated(norm: Item -> Item, field: Field, first: seq<Item>, updates: seq<NewValue>): seq<Item>
    decreases |updates|
  {
    if updates == [] then first
    else
      var last := updates[|updates| - 1];
      (if Resets(field, last) then [] else Accumulated(norm, field, first, updates[..|updates| - 1]))
      + Contribution(norm, field, last)
  }

  /** The updates a list field gets: message fields anything but an odd override, reducer fields lists. */
  predicate ListUpdate(field: Field, new_: NewValue) {
    if new_.Override? then new_.value.List? || new_.value.Null?
    else field.MessageKey() || new_.value.List?
  }

  lemma {:induction false} NothingToRemove(items: seq<Item>)
    requires RemoveAll !in items
    ensures WithoutMarkers(items) == items
  {
    if items != [] {
      assert items[0] in items && forall x | x in items[1..] :: x in items;
      NothingToRemove(items[1..]);
    }
  }

  function ItemsOf(value: Value): seq<Item> {
    if value.List? then value.items else []
  }

  predicate ListValue(value: Value) {
    value.Null? || value.List?
  }

  /** One update of a list field appends its contribution, to nothing if it resets. */
  lemma MergedAppends(norm: Item -> Item, field: Field, before: Value, last: NewValue)
    requires !field.OtherField? && ListValue(before) && ListUpdate(field, last)
    ensures var merged := Merged(norm, field, before, last);
      && merged.Ok? && ListValue(merged.value)
      && ItemsOf(merged.value)
         == (if Resets(field, last) then [] else ItemsOf(before)) + Contribution(norm, field, last)
  {
    assert AsList(before) == Ok(ItemsOf(before));
    if field.MessageKey() && last.Plain? && !Resets(field, last) {
      NothingToRemove(Values(last.value));
    }
  }

  /** A list field is the concatenation of its updates from the last resetting one on. */
  lemma {:induction false} FieldIsConcatenation(norm: Item -> Item, field: Field, first: Value, updates: seq<NewValue>)
    requires !field.OtherField? && ListValue(first)
    requires forall i | 0 <= i < |updates| :: ListUpdate(field, updates[i])
    ensures var after := FieldAfter(norm, field, first, updates);
      && after.Ok? && ListValue(after.value)
      && ItemsOf(after.value) == Accumulated(norm, field, ItemsOf(first), updates)
  {
    if updates != [] {
      var n := |updates| - 1;
      FieldIsConcatenation(norm, field, first, updates[..n]);
      MergedAppends(norm, field, FieldAfter(norm, field, first, updates[..n]).value, updates[n]);
    }
  }

  lemma AccumulatedOneMore(norm: Item -> Item, field: Field, first: seq<Item>, updates: seq<NewValue>, last: NewValue)
    ensures Accumulated(norm, field, first, updates + [last])
         == (if Resets(field, last) then [] else Accumulated(norm, field, first, updates))
            + Contribution(norm, field, last)
  {
    assert (updates + [last])[..|updates|] == updates;
  }

  /** From where a reset happens on, everything before it is irrelevant. */
  lemma {:induction false} AccumulatedFromReset(
      norm: Item -> Item, field: Field, first: seq<Item>, before: seq<NewValue>, reset: NewValue, after: seq<NewValue>)
    requires Resets(field, reset)
    ensures Accumulated(norm, field, first, before + [reset] + after)
         == Accumulated(norm, field, Contribution(norm, field, reset), after)
  {
    if after == [] {
      assert before + [reset] + after == before + [reset];
      AccumulatedOneMore(norm, field, first, before, reset);
    } else {
      var init, last := after[..|after| - 1], after[|after| - 1];
      assert after == init + [last];
      assert before + [reset] + after == (before + [reset] + init) + [last];
      AccumulatedOneMore(norm, field, first, before + [reset] + init, last);
      AccumulatedOneMore(norm, field, Contribution(norm, field, reset), init, last);
      AccumulatedFromReset(norm, field, first, before, reset, init);
    }
  }

  // ------------------------------------------------------------- each case, spelled out

  /** The message fields. */
  predicate HoldsMessages(field: Field) {
    field in {Messages, SupervisorMessages, ResearcherMessages}
  }

  /** The fields whose lists are extended. */
  predicate HoldsList(field: Field) {
    field in {RawNotes, Notes, CompletedTaskOutputs, MemoryCandidates, HumanFeedback, HandoffAssessments,
              CandidateRegistry, DocumentRegistry, EvidenceRegistry, WebResearchIterations, PermissionDenials}
  }

  lemma NormalizedIs(norm: Item -> Item, items: seq<Item>)
    ensures |Normalized(norm, items)| == |items|
    ensures forall i | 0 <= i < |items| :: Normalized(norm, items)[i] == norm(items[i])
  {
  }

  lemma MarkerAlone(item: Item)
    ensures WithoutMarkers([item]) == if item == RemoveAll then [] else [item]
  {
    assert [item][1..] == [];
  }

  /** Filtering the markers drops them and keeps everything else in order. */
  lemma {:induction false} MarkersAreDropped(a: seq<Item>, b: seq<Item>)
    ensures WithoutMarkers(a + b) == WithoutMarkers(a) + WithoutMarkers(b)
  {
    if a == [] {
      assert a + b == b;
    } else {
      assert (a + b)[1..] == a[1..] + b;
      MarkersAreDropped(a[1..], b);
    }
  }

  /** A field without a reducer takes the new value, whatever it held. */
  lemma OtherFieldIsReplaced(norm: Item -> Item, name: string, current: Value, value: Value)
    ensures Merged(norm, OtherField(name), current, Plain(value)) == Ok(value)
    ensures Merged(norm, OtherField(name), current, Override(value)) == Ok(value)
  {
  }

  /** A list field takes an override as it is, a value beside which there is no list, and else the longer list. */
  lemma ListFieldCases(norm: Item -> Item, field: Field, current: Value, value: Value)
    requires HoldsList(field)
    ensures Merged(norm, field, current, Override(value)) == Ok(value)
    ensures !current.List? && !value.List? ==> Merged(norm, field, current, Plain(value)) == Ok(value)
    ensures current.List? && value.List? ==>
              Merged(norm, field, current, Plain(value)) == Ok(List(current.items + value.items))
    ensures current.Null? && value.List? ==> Merged(norm, field, current, Plain(value)) == Ok(List(value.items))
    ensures current.List? && value.Null? ==> Merged(norm, field, current, Plain(value)) == Ok(List(current.items))
    ensures current.List? && value.One? ==>
              Merged(norm, field, current, Plain(value))
              == if !value.truthy then Ok(List(current.items))
                 else if value.elements.Some? then Ok(List(current.items + value.elements.value)) else Err(NotIterable)
    ensures current.One? && value.List? ==>
              Merged(norm, field, current, Plain(value))
              == if !current.truthy then Ok(List(value.items))
                 else if current.elements.Some? then Ok(List(current.elements.value + value.items)) else Err(NotIterable)
  {
    if current.List? {
      assert current.items + [] == current.items;
    }
    if value.List? {
      assert [] + value.items == value.items;
    }
  }

  /** What a message field held before an update, as a list. */
  function HeldBefore(current: Value): Result<seq<Item>, ReducerError> {
    match current
    case Null => Ok([])
    case List(items) => Ok(items)
    case One(_, truthy, elements) =>
      if truthy then (if elements.None? then Err(NotIterable) else Ok(elements.value)) else Ok([])
  }

  /** A message field is extended by the normalised new messages; a remove-all marker among them empties it first. */
  lemma MessageFieldCases(norm: Item -> Item, field: Field, current: Value, items: seq<Item>, item: Item, truthy: bool, elements: Option<seq<Item>>)
    requires HoldsMessages(field)
    ensures Merged(norm, field, current, Plain(List(items)))
         == match HeldBefore(current)
            case Err(error) => Err(error)
            case Ok(held) =>
              Ok(List(if RemoveAll in items then Normalized(norm, WithoutMarkers(items)) else held + Normalized(norm, items)))
    ensures HeldBefore(current).Ok? && item != RemoveAll ==>
              Merged(norm, field, current, Plain(One(item, truthy, elements)))
              == Ok(List(HeldBefore(current).value + [norm(item)]))
    ensures HeldBefore(current).Ok? ==> Merged(norm, field, current, Plain(One(RemoveAll, truthy, elements))) == Ok(List([]))
    ensures HeldBefore(current).Ok? ==>
              Merged(norm, field, current, Plain(Null)) == Ok(List(HeldBefore(current).value + [norm(NullItem)]))
    ensures Merged(norm, field, current, Override(List(items))) == Ok(List(Normalized(norm, items)))
    ensures Merged(norm, field, current, Override(Null)) == Ok(List([]))
    ensures Merged(norm, field, current, Override(One(item, truthy, elements)))
         == if !truthy then Ok(List([]))
            else if elements.None? then Err(NotIterable) else Ok(List(Normalized(norm, elements.value)))
  {
    assert AsList(current) == HeldBefore(current);
    assert Normalized(norm, [item]) == [norm(item)] && Normalized(norm, [NullItem]) == [norm(NullItem)];
    assert Normalized(norm, []) == [];
    assert RemoveAll in [RemoveAll] && [RemoveAll][1..] == [] && WithoutMarkers([RemoveAll]) == [];
    assert [] + Normalized(norm, WithoutMarkers(items)) == Normalized(norm, WithoutMarkers(items));
  }

  /** After any updates a field without a reducer holds the value of the last one. */
  lemma OtherFieldHoldsLast(norm: Item -> Item, name: string, first: Value, updates: seq<NewValue>)
    ensures FieldAfter(norm, OtherField(name), first, updates)
         == Ok(if updates == [] then first else updates[|updates| - 1].value)
    decreases |updates|
  {
    if updates != [] {
      OtherFieldHoldsLast(norm, name, first, updates[..|updates| - 1]);
    }
  }

  // --------------------------------------------------------------------- whole replay

  datatype Scope = MainScope | SupervisorScope

  datatype Delta = Delta(scope: Scope, update: Update)

  /** The updates of one scope to one field, in order. */
  function UpdatesTo(deltas: seq<Delta>, scope: Scope, field: Field): seq<NewValue> {
    if deltas == [] then []
    else
      var last := deltas[|deltas| - 1];
      UpdatesTo(deltas[..|deltas| - 1], scope, field)
      + if last.scope == scope && field in last.update then [last.update[field]] else []
  }

  /** A state that holds, for every field of a scope, that field's own updates and nothing more. */
  ghost predicate Replayed(norm: Item -> Item, state: State, deltas: seq<Delta>, scope: Scope) {
    && (forall f :: FieldAfter(norm, f, Null, UpdatesTo(deltas, scope, f)) == Ok(Get(state, f)))
    && (forall f | f in state :: UpdatesTo(deltas, scope, f) != [])
  }

  lemma ReplayedOneMore(norm: Item -> Item, before: State, state: State, deltas: seq<Delta>, i: nat, scope: Scope)
    requires i < |deltas| && Replayed(norm, before, deltas[..i], scope)
    requires deltas[i].scope != scope ==> state == before
    requires deltas[i].scope == scope ==>
      && state.Keys <= before.Keys + deltas[i].update.Keys
      && (forall f | f in before && f !in deltas[i].update :: f in state && state[f] == before[f])
      && (forall f | f in deltas[i].update ::
            f in state && Merged(norm, f, Get(before, f), deltas[i].update[f]) == Ok(state[f]))
    ensures Replayed(norm, state, deltas[..i + 1], scope)
  {
    assert deltas[..i + 1][..i] == deltas[..i];
    forall f ensures FieldAfter(norm, f, Null, UpdatesTo(deltas[..i + 1], scope, f)) == Ok(Get(state, f)) {
      var old_, new_ := UpdatesTo(deltas[..i], scope, f), UpdatesTo(deltas[..i + 1], scope, f);
      if deltas[i].scope == scope && f in deltas[i].update {
        assert new_[..|new_| - 1] == old_;
      } else {
        assert new_ == old_;
        assert Get(state, f) == Get(before, f);
      }
    }
  }

  /** The loop of `replay` over the state records. */
  method ReplayState(norm: Item -> Item, deltas: seq<Delta>)
    returns (main: StateDict, supervisor: StateDict, error: Option<ReducerError>)
    ensures error.None? ==> Replayed(norm, main.state, deltas, MainScope)
    ensures error.None? ==> Replayed(norm, supervisor.state, deltas, SupervisorScope)
  {
    main := new StateDict();
    supervisor := new StateDict();
    for i := 0 to |deltas|
      invariant main != supervisor && fresh(main) && fresh(supervisor)
      invariant Replayed(norm, main.state, deltas[..i], MainScope)
      invariant Replayed(norm, supervisor.state, deltas[..i], SupervisorScope)
    {
      ghost var mainBefore, supervisorBefore := main.state, supervisor.state;
      if deltas[i].scope.SupervisorScope? {
        error := supervisor.ApplyUpdate(norm, deltas[i].update);
      } else {
        error := main.ApplyUpdate(norm, deltas[i].update);
      }
      if error.Some? {
        return;
      }
      ReplayedOneMore(norm, mainBefore, main.state, deltas, i, MainScope);
      ReplayedOneMore(norm, supervisorBefore, supervisor.state, deltas, i, SupervisorScope);
    }
    assert deltas[..|deltas|] == deltas;
    error := None;
  }

  /** Of the updates of one scope to one field the last is that of its last delta that names the field. */
  lemma {:induction false} LastUpdateOf(deltas: seq<Delta>, scope: Scope, field: Field, i: nat)
    requires i < |deltas| && deltas[i].scope == scope && field in deltas[i].update
    requires forall j | i < j < |deltas| :: deltas[j].scope == scope ==> field !in deltas[j].update
    ensures var updates := UpdatesTo(deltas, scope, field);
      updates != [] && updates[|updates| - 1] == deltas[i].update[field]
    decreases |deltas|
  {
    if i < |deltas| - 1 {
      LastUpdateOf(deltas[..|deltas| - 1], scope, field, i);
    }
  }

  lemma {:induction false} NoUpdateOf(deltas: seq<Delta>, scope: Scope, field: Field)
    requires forall j | 0 <= j < |deltas| :: deltas[j].scope == scope ==> field !in deltas[j].update
    ensures UpdatesTo(deltas, scope, field) == []
    decreases |deltas|
  {
    if deltas != [] {
      NoUpdateOf(deltas[..|deltas| - 1], scope, field);
    }
  }

  /** A replayed field without a reducer holds the value of the last delta of its scope that names it, or nothing. */
  lemma ReplayedOtherField(norm: Item -> Item, state: State, deltas: seq<Delta>, scope: Scope, name: string, i: nat)
    requires Replayed(norm, state, deltas, scope)
    ensures (forall j | 0 <= j < |deltas| :: deltas[j].scope == scope ==> OtherField(name) !in deltas[j].update) ==>
              Get(state, OtherField(name)) == Null && OtherField(name) !in state
    ensures && i < |deltas| && deltas[i].scope == scope && OtherField(name) in deltas[i].update
            && (forall j | i < j < |deltas| :: deltas[j].scope == scope ==> OtherField(name) !in deltas[j].update) ==>
              Get(state, OtherField(name)) == deltas[i].update[OtherField(name)].value
  {
    var field := OtherField(name);
    OtherFieldHoldsLast(norm, name, Null, UpdatesTo(deltas, scope, field));
    if forall j | 0 <= j < |deltas| :: deltas[j].scope == scope ==> field !in deltas[j].update {
      NoUpdateOf(deltas, scope, field);
    } else if i < |deltas| && deltas[i].scope == scope && field in deltas[i].update
         && forall j | i < j < |deltas| :: deltas[j].scope == scope ==> field !in deltas[j].update {
      LastUpdateOf(deltas, scope, field, i);
    }
  }

  /** A replayed list field is the concatenation of its scope's updates from the last resetting one on. */
  lemma ReplayedFieldIsConcatenation(norm: Item -> Item, state: State, deltas: seq<Delta>, scope: Scope, field: Field)
    requires Replayed(norm, state, deltas, scope) && !field.OtherField?
    requires forall new_ | new_ in UpdatesTo(deltas, scope, field) :: ListUpdate(field, new_)
    ensures ItemsOf(Get(state, field)) == Accumulated(norm, field, [], UpdatesTo(deltas, scope, field))
  {
    FieldIsConcatenation(norm, field, Null, UpdatesTo(deltas, scope, field));
  }

  // -------------------------------------------------------------- latest query states

  /** A journalled inner-loop state: its key, revision and the snapshot itself. */
  datatype QueryRecord = QueryRecord(key: string, revision: int, snapshot: string)

  /** Which of the first `n` records replay keeps for a key. */
  function Latest(records: seq<QueryRecord>, n: nat, key: string): (at: Option<nat>)
    requires n <= |records|
    ensures at.Some? ==> at.value < n
    decreases n
  {
    if n == 0 then None
    else
      var before := Latest(records, n - 1, key);
      if records[n - 1].key == key && (before.None? || records[n - 1].revision >= records[before.value].revision)
      then Some(n - 1) else before
  }

  /** The newest revision wins, and of equal revisions the later record; only an unused key has none. */
  lemma {:induction false} LatestIsNewest(records: seq<QueryRecord>, n: nat, key: string)
    requires n <= |records|
    ensures var at := Latest(records, n, key);
      && (at.None? <==> forall j | 0 <= j < n :: records[j].key != key)
      && (at.Some? ==>
            && records[at.value].key == key
            && (forall j | 0 <= j < n && records[j].key == key :: records[j].revision <= records[at.value].revision)
            && (forall j | at.value < j < n && records[j].key == key ::
                  records[j].revision < records[at.value].revision))
    decreases n
  {
    if n > 0 {
      LatestIsNewest(records, n - 1, key);
    }
  }

  ghost predicate Kept(records: seq<QueryRecord>, n: nat, key: string, states: map<string, QueryRecord>)
    requires n <= |records|
  {
    match Latest(records, n, key)
    case None => key !in states
    case Some(i) => key in states && states[key] == records[i]
  }

  /** Snapshots with an empty key are dropped; every other key keeps its latest one. */
  method ReplayQueryStates(records: seq<QueryRecord>) returns (states: map<string, QueryRecord>)
    ensures "" !in states
    ensures forall key | key != "" :: Kept(records, |records|, key, states)
  {
    states := map[];
    for i := 0 to |records|
      invariant "" !in states
      invariant forall key | key != "" :: Kept(records, i, key, states)
    {
      var record := records[i];
      ghost var before := states;
      if record.key != "" {
        assert Kept(records, i, record.key, states);
        if record.key !in states || record.revision >= states[record.key].revision {
          states := states[record.key := record];
        }
      }
      ghost var next := i + 1;
      forall key | key != "" ensures Kept(records, next, key, states) {
        assert Kept(records, i, key, before);
      }
    }
  }
}
