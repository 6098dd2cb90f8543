/**
 * The three cutters that keep a recent suffix of a conversation: the query view
 * (agents/query.py), the compaction window (agents/deep_researcher.py) and the journal
 * projection (run_context.py). Each pulls the boundary back to the message that owns a
 * tool result it would otherwise orphan.
 */
module SuffixCutters {
  import opened Wrappers
  import opened Transcript
  import opened ToolCallIds
  import opened ProtocolBlocks
  import opened ResultTrimming

  datatype CutError = IndexError

  function ToolIds(results: seq<Message>): set<string> {
    set m | m in results && m.Tool? :: m.callId
  }

  function ToolRun(ms: seq<Message>, b: nat): (e: nat)
    requires b <= |ms|
    ensures b <= e <= |ms|
    ensures forall k | b <= k < e :: ms[k].Tool?
    ensures e < |ms| ==> !ms[e].Tool?
    decreases |ms| - b
  {
    if b < |ms| && ms[b].Tool? then ToolRun(ms, b + 1) else b
  }

  predicate Owns(message: Message, ids: set<string>) {
    message.AI? && ids * IdSet(message.calls) != {}
  }

  /** `head` is the nearest message before `b` that owns one of `ids`, or `b` when there is none. */
  ghost predicate IsOwner(ms: seq<Message>, b: nat, ids: set<string>, head: nat) {
    && head <= b <= |ms|
    && (forall k | head < k < b :: !Owns(ms[k], ids))
    && (head < b ==> Owns(ms[head], ids))
    && (head == b ==> forall k | 0 <= k < b :: !Owns(ms[k], ids))
  }

  method FindOwner(ms: seq<Message>, b: nat, ids: set<string>) returns (head: nat)
    requires b <= |ms|
    ensures IsOwner(ms, b, ids, head)
  {
    var index := b;
    while index > 0
      invariant 0 <= index <= b
      invariant forall k | index <= k < b :: !Owns(ms[k], ids)
    {
      index := index - 1;
      if !ms[index].AI? {
        continue;
      }
      if ids * IdSet(ms[index].calls) != {} {
        return index;
      }
    }
    return b;
  }

  // --------------------------------------------------------------- what a good cut is

  /** From `r` the batch cut at `b` is whole again, and nothing else was added. */
  ghost predicate ExtendsOnlyBatch(ms: seq<Message>, b: nat, r: nat) {
    && r <= b <= |ms|
    && (r < b ==> b < |ms| && ms[r].Calling() && forall k | r < k <= b :: ms[k].Tool?)
  }

  /** The suffix from `r` is a valid transcript, and `r` extends the cut at `b` only by its own batch. */
  ghost predicate GoodCut(ms: seq<Message>, b: nat, r: nat) {
    ExtendsOnlyBatch(ms, b, r) && ValidTranscript(ms[r..], true) && (Closed(ms) ==> Closed(ms[r..]))
  }

  lemma {:induction false} ClosedSuffix(ms: seq<Message>, r: nat)
    requires Closed(ms) && r <= |ms| && (r < |ms| ==> !ms[r].Tool?)
    ensures Closed(ms[r..])
    decreases |ms|
  {
    if r > 0 {
      var n := if ms[0].Calling() then |ms[0].calls| else 0;
      assert forall k | 1 <= k < n + 1 :: ms[k] == ms[1..n + 1][k - 1];
      assert n + 1 <= r;
      ClosedSuffix(ms[n + 1..], r - n - 1);
      assert ms[n + 1..][r - n - 1..] == ms[r..];
    }
  }

  /** A suffix that does not start with a tool result is as valid as the whole. */
  lemma ValidSuffix(ms: seq<Message>, r: nat)
    requires ValidTranscript(ms, true) && r <= |ms| && (r < |ms| ==> !ms[r].Tool?)
    ensures ValidTranscript(ms[r..], true) && (Closed(ms) ==> Closed(ms[r..]))
  {
    if Closed(ms) {
      ClosedSuffix(ms, r);
    } else {
      OpenSuffix(ms, r);
    }
  }

  lemma OpenSuffix(ms: seq<Message>, r: nat)
    requires OpenTail(ms) && r <= |ms| && (r < |ms| ==> !ms[r].Tool?)
    ensures r < |ms| ==> OpenTail(ms[r..])
  {
    if r < |ms| {
      var init, suffix := ms[..|ms| - 1], ms[r..];
      assert r < |init| ==> init[r] == ms[r];
      ClosedSuffix(init, r);
      assert suffix[..|suffix| - 1] == init[r..] && suffix[|suffix| - 1] == ms[|ms| - 1];
    }
  }

  /** Before any tool result of a closed transcript stands its batch, all tool results but the head. */
  lemma {:induction false} BatchHead(ms: seq<Message>, b: nat) returns (head: nat)
    requires Closed(ms) && b < |ms| && ms[b].Tool?
    ensures head < b && ms[head].Calling() && ms[b].callId in IdSet(ms[head].calls)
    ensures forall k | head < k <= b :: ms[k].Tool?
    decreases |ms|
  {
    var n := if ms[0].Calling() then |ms[0].calls| else 0;
    if b <= n {
      assert ms[b] == ms[1..n + 1][b - 1];
      assert ms[0].calls[b - 1] in ms[0].calls;
      assert forall k | 1 <= k <= b :: ms[k] == ms[1..n + 1][k - 1];
      head := 0;
    } else {
      var h := BatchHead(ms[n + 1..], b - n - 1);
      head := h + n + 1;
      assert forall k | head < k <= b :: ms[k] == ms[n + 1..][k - n - 1];
    }
  }

  /** Pulling the boundary back to the nearest owner makes the cut good. */
  lemma OwnerMakesGoodCut(ms: seq<Message>, b: nat, ids: set<string>, r: nat)
    requires ValidTranscript(ms, true) && b < |ms| && ms[b].Tool?
    requires ms[b].callId in ids && IsOwner(ms, b, ids, r)
    ensures GoodCut(ms, b, r)
  {
    var n := if Closed(ms) then |ms| else |ms| - 1;
    var front := ms[..n];
    assert Closed(ms) ==> front == ms;
    assert Closed(front) && front[b] == ms[b];
    var head := BatchHead(front, b);
    assert ms[head] == front[head] && forall k | head < k <= b :: ms[k] == front[k];
    assert ms[b].callId in ids * IdSet(ms[head].calls);
    assert Owns(ms[head], ids);
    assert r == head;
    ValidSuffix(ms, r);
  }

  lemma UncutIsGood(ms: seq<Message>, b: nat)
    requires ValidTranscript(ms, true) && b <= |ms| && (b < |ms| ==> !ms[b].Tool?)
    ensures GoodCut(ms, b, b)
  {
    ValidSuffix(ms, b);
  }

  // -------------------------------------------------------------------- query view

  method RecentBoundary(ms: seq<Message>, keepLast: Option<int>) returns (cut: Result<nat, CutError>)
    ensures cut.Err? <==> keepLast.Some? && keepLast.value <= 0 && (keepLast.value < 0 || ms != [])
    ensures cut.Ok? ==> cut.value <= |ms|
    ensures cut.Ok? && (keepLast.None? || |ms| <= keepLast.value) ==> cut.value == 0
    ensures cut.Ok? && keepLast.Some? && keepLast.value < |ms| && ValidTranscript(ms, true) ==>
              GoodCut(ms, |ms| - keepLast.value, cut.value)
  {
    if keepLast.None? || |ms| <= keepLast.value {
      return Ok(0);
    }
    var boundary := |ms| - keepLast.value;
    if boundary >= |ms| {
      return Err(IndexError);
    }
    var b: nat := boundary;
    if ms[b].Tool? {
      var cursor := ToolRun(ms, b);
      var pendingIds := ToolIds(ms[b..cursor]);
      var head := FindOwner(ms, b, pendingIds);
      if ValidTranscript(ms, true) {
        assert ms[b] == ms[b..cursor][0];
        OwnerMakesGoodCut(ms, b, pendingIds, head);
      }
      return Ok(head);
    }
    if ValidTranscript(ms, true) {
      UncutIsGood(ms, b);
    }
    return Ok(b);
  }

  const VIEW_NOTE := "\n\n[Tool result trimmed by context policy]"

  /** The request view of the history: a good cut of it, with long results trimmed. */
  method PrepareMessagesForQuery(ms: seq<Message>, keepLast: Option<int>, maxToolResultChars: Option<nat>)
    returns (view: Result<seq<Message>, CutError>, ghost cut: nat)
    ensures view.Err? <==> keepLast.Some? && keepLast.value <= 0 && (keepLast.value < 0 || ms != [])
    ensures view.Ok? ==>
              && cut <= |ms|
              && view.value == (if maxToolResultChars.None? then ms[cut..]
                                else TrimmedAll(ms[cut..], maxToolResultChars.value, VIEW_NOTE))
    ensures view.Ok? && (keepLast.None? || |ms| <= keepLast.value) ==> cut == 0
    ensures view.Ok? && keepLast.Some? && keepLast.value < |ms| && ValidTranscript(ms, true) ==>
              GoodCut(ms, |ms| - keepLast.value, cut)
    ensures view.Ok? && ValidTranscript(ms, true) ==> ValidTranscript(view.value, true)
  {
    var boundary := RecentBoundary(ms, keepLast);
    if boundary.Err? {
      cut := 0;
      return Err(boundary.error), cut;
    }
    cut := boundary.value;
    var projected := ms[boundary.value..];
    assert cut == 0 ==> projected == ms;
    if maxToolResultChars.None? {
      return Ok(projected), cut;
    }
    TrimmedKeepsGrammar(projected, maxToolResultChars.value, VIEW_NOTE);
    var trimmed := TrimToolResults(projected, maxToolResultChars.value, VIEW_NOTE);
    return Ok(trimmed), cut;
  }

  // ------------------------------------------------------------------- token budgets

  ghost predicate Positive(weight: Message -> nat) {
    forall m :: weight(m) > 0
  }

  /** The longest suffix within the budget, but never less than one message. */
  ghost predicate BudgetSuffix(weight: Message -> nat, ms: seq<Message>, budget: int, b: nat) {
    && b <= |ms|
    && (ms != [] ==> b < |ms|)
    && (Cost(weight, ms[b..]) <= budget || b + 1 == |ms| || ms == [])
    && (b > 0 ==> Cost(weight, ms[b - 1..]) > budget)
  }

  method BudgetBoundary(weight: Message -> nat, ms: seq<Message>, budget: int) returns (b: nat)
    requires Positive(weight)
    ensures BudgetSuffix(weight, ms, budget, b)
  {
    var used := 0;
    b := |ms|;
    var index := |ms|;
    while index > 0
      invariant 0 <= index == b <= |ms|
      invariant used == Cost(weight, ms[b..])
      invariant b < |ms| ==> used > 0
      invariant b < |ms| ==> used <= budget || b + 1 == |ms|
    {
      index := index - 1;
      var size := weight(ms[index]);
      assert ms[index..][1..] == ms[index + 1..];
      if used > 0 && used + size > budget {
        break;
      }
      used := used + size;
      b := index;
    }
  }

  /** The compaction window: everything before the boundary is summarised, the rest stays. */
  method RecentMessageWindow(weight: Message -> nat, ms: seq<Message>, budget: int)
    returns (older: seq<Message>, recent: seq<Message>, ghost b: nat)
    requires Positive(weight)
    ensures older + recent == ms && BudgetSuffix(weight, ms, budget, b)
    ensures ValidTranscript(ms, true) ==> GoodCut(ms, b, |older|)
  {
    var boundary := BudgetBoundary(weight, ms, budget);
    b := boundary;
    if boundary < |ms| && ms[boundary].Tool? {
      var cursor := ToolRun(ms, boundary);
      var pendingIds := ToolIds(ms[boundary..cursor]);
      boundary := FindOwner(ms, boundary, pendingIds);
      if ValidTranscript(ms, true) {
        assert ms[b] == ms[b..cursor][0];
        OwnerMakesGoodCut(ms, b, pendingIds, boundary);
      }
    } else if ValidTranscript(ms, true) {
      UncutIsGood(ms, b);
    }
    older, recent := ms[..boundary], ms[boundary..];
  }

  /** The projection of a journal channel looks only for the owner of the first kept result. */
  method ProjectionSuffix(weight: Message -> nat, ms: seq<Message>, budget: int)
    returns (recent: seq<Message>, ghost b: nat)
    requires Positive(weight)
    ensures |recent| <= |ms| && recent == ms[|ms| - |recent|..] && BudgetSuffix(weight, ms, budget, b)
    ensures ValidTranscript(ms, true) ==> GoodCut(ms, b, |ms| - |recent|)
  {
    var boundary := BudgetBoundary(weight, ms, budget);
    b := boundary;
    if boundary < |ms| && ms[boundary].Tool? {
      var wanted := {ms[boundary].callId};
      boundary := FindOwner(ms, boundary, wanted);
      if ValidTranscript(ms, true) {
        OwnerMakesGoodCut(ms, b, wanted, boundary);
      }
    } else if ValidTranscript(ms, true) {
      UncutIsGood(ms, b);
    }
    recent := ms[boundary..];
  }

  lemma CutStartsWithoutTool(ms: seq<Message>, b: nat, r: nat)
    requires GoodCut(ms, b, r)
    ensures r < |ms| ==> !ms[r].Tool?
  {
    StartsWithoutTool(ms[r..]);
    assert r < |ms| ==> ms[r..][0] == ms[r];
  }

  lemma CutIsUnique(ms: seq<Message>, b: nat, r: nat, q: nat)
    requires GoodCut(ms, b, r) && GoodCut(ms, b, q)
    ensures r == q
  {
    CutStartsWithoutTool(ms, b, r);
    CutStartsWithoutTool(ms, b, q);
  }

  lemma {:induction false} BudgetSuffixIsUnique(weight: Message -> nat, ms: seq<Message>, budget: int, b: nat, c: nat)
    requires Positive(weight) && BudgetSuffix(weight, ms, budget, b) && BudgetSuffix(weight, ms, budget, c)
    ensures b == c
  {
    if b < c {
      CostGrows(weight, ms, b, c - 1);
    } else if c < b {
      CostGrows(weight, ms, c, b - 1);
    }
  }

  /** The two budgeted cutters keep the same messages of a valid transcript. */
  lemma BudgetedCuttersAgree(
      weight: Message -> nat, ms: seq<Message>, budget: int, b: nat, older: seq<Message>, c: nat, recent: seq<Message>)
    requires Positive(weight) && |older| <= |ms| && |recent| <= |ms|
    requires BudgetSuffix(weight, ms, budget, b) && GoodCut(ms, b, |older|)
    requires BudgetSuffix(weight, ms, budget, c) && GoodCut(ms, c, |ms| - |recent|)
    ensures |older| + |recent| == |ms|
  {
    BudgetSuffixIsUnique(weight, ms, budget, b, c);
    CutIsUnique(ms, b, |older|, |ms| - |recent|);
  }

  lemma {:induction false} CostGrows(weight: Message -> nat, ms: seq<Message>, i: nat, j: nat)
    requires i <= j <= |ms|
    ensures Cost(weight, ms[j..]) <= Cost(weight, ms[i..])
    decreases j - i
  {
    if i < j {
      assert ms[i..][1..] == ms[i + 1..];
      CostGrows(weight, ms, i + 1, j);
    }
  }
}
