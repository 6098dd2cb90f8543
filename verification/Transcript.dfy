/**
 * Conversation messages and the transcript grammar: every AI message that
 * calls tools is followed by exactly its results, in call order, and no tool
 * result stands anywhere else.
 */
module Transcript {

  datatype ToolCall = ToolCall(id: string, name: string, args: string)

  /** The `query_internal` tag that output recovery puts on its own messages. */
  datatype Marker = Ordinary | OutputFragment | OutputContinuation

  datatype Message =
    | System(content: string)
    | Human(content: string, marker: Marker)
    | AI(content: string, calls: seq<ToolCall>, marker: Marker)
    | Tool(callId: string, name: string, content: string)
  {
    predicate Calling() { AI? && calls != [] }

    predicate Plain() { !Tool? && !Calling() }

    predicate Marked() { (Human? || AI?) && marker != Ordinary }
  }

  function Ids(calls: seq<ToolCall>): seq<string> {
    seq(|calls|, i requires 0 <= i < |calls| => calls[i].id)
  }

  predicate GoodIds(calls: seq<ToolCall>) {
    && (forall i | 0 <= i < |calls| :: calls[i].id != "")
    && (forall i, j | 0 <= i < j < |calls| :: calls[i].id != calls[j].id)
  }

  /** `results` are the answers to `calls`, one each and in order. */
  predicate Answers(calls: seq<ToolCall>, results: seq<Message>) {
    && |results| == |calls|
    && forall i | 0 <= i < |calls| :: results[i].Tool? && results[i].callId == calls[i].id
  }

  predicate Closed(ms: seq<Message>)
    decreases |ms|
  {
    if ms == [] then true
    else if ms[0].Calling() then
      var n := |ms[0].calls|;
      GoodIds(ms[0].calls) && n < |ms| && Answers(ms[0].calls, ms[1..n + 1]) && Closed(ms[n + 1..])
    else !ms[0].Tool? && Closed(ms[1..])
  }

  /** A closed transcript followed by one AI message whose calls are unanswered. */
  predicate OpenTail(ms: seq<Message>) {
    && ms != []
    && ms[|ms| - 1].Calling()
    && GoodIds(ms[|ms| - 1].calls)
    && Closed(ms[..|ms| - 1])
  }

  predicate ValidTranscript(ms: seq<Message>, allowPendingTail: bool) {
    Closed(ms) || (allowPendingTail && OpenTail(ms))
  }

  predicate AllPlain(ms: seq<Message>) {
    forall m | m in ms :: m.Plain()
  }

  /** After a closed prefix, closedness is decided by what follows. */
  lemma {:induction false} ClosedConcat(a: seq<Message>, b: seq<Message>)
    requires Closed(a)
    ensures Closed(a + b) <==> Closed(b)
    decreases |a|
  {
    if a == [] {
      assert a + b == b;
    } else {
      var n := if a[0].Calling() then |a[0].calls| else 0;
      assert (a + b)[1..n + 1] == a[1..n + 1];
      assert (a + b)[n + 1..] == a[n + 1..] + b;
      ClosedConcat(a[n + 1..], b);
    }
  }

  lemma {:induction false} PlainIsClosed(ms: seq<Message>)
    requires AllPlain(ms)
    ensures Closed(ms)
  {
    if ms != [] {
      assert ms[0] in ms;
      PlainIsClosed(ms[1..]);
    }
  }

  lemma BatchIsClosed(ai: Message, results: seq<Message>)
    requires ai.Calling() && GoodIds(ai.calls) && Answers(ai.calls, results)
    ensures Closed([ai] + results)
  {
    var ms := [ai] + results;
    var n := |ai.calls|;
    assert ms[1..n + 1] == results;
    assert ms[n + 1..] == [];
  }

  lemma ClosedPlusPlain(ms: seq<Message>, extra: seq<Message>)
    requires Closed(ms) && AllPlain(extra)
    ensures Closed(ms + extra)
  {
    PlainIsClosed(extra);
    ClosedConcat(ms, extra);
  }

  /** Closing the open tail: its answers, then plain extras. */
  lemma CloseTail(ms: seq<Message>, results: seq<Message>, extra: seq<Message>)
    requires OpenTail(ms) && Answers(ms[|ms| - 1].calls, results) && AllPlain(extra)
    ensures Closed(ms + results + extra)
  {
    var init, last := ms[..|ms| - 1], ms[|ms| - 1];
    BatchIsClosed(last, results);
    ClosedConcat(init, [last] + results);
    assert init + ([last] + results) == ms + results;
    ClosedPlusPlain(ms + results, extra);
  }

  /** An open tail is never closed, so the two shapes exclude each other. */
  lemma OpenTailNotClosed(ms: seq<Message>)
    requires OpenTail(ms)
    ensures !Closed(ms)
  {
    var init, last := ms[..|ms| - 1], ms[|ms| - 1];
    ClosedConcat(init, [last]);
    assert init + [last] == ms;
  }

  function Unmarked(ms: seq<Message>): seq<Message> {
    if ms == [] then []
    else (if ms[0].Marked() then [] else [ms[0]]) + Unmarked(ms[1..])
  }

  predicate MarkedArePlain(ms: seq<Message>) {
    forall m | m in ms :: m.Marked() ==> m.Plain()
  }

  /** What the loop assumes of messages that hooks, compactors and sanitisers hand it. */
  predicate CleanTranscript(ms: seq<Message>) {
    Closed(ms) && MarkedArePlain(ms)
  }

  lemma {:induction false} UnmarkedConcat(a: seq<Message>, b: seq<Message>)
    ensures Unmarked(a + b) == Unmarked(a) + Unmarked(b)
  {
    if a == [] {
      assert a + b == b;
    } else {
      assert (a + b)[1..] == a[1..] + b;
      UnmarkedConcat(a[1..], b);
    }
  }

  lemma UnmarkedOne(m: Message)
    ensures Unmarked([m]) == if (m.Human? || m.AI?) && (m.marker == OutputFragment || m.marker == OutputContinuation) then [] else [m]
  {
    assert [m][1..] == [];
  }

  lemma {:induction false} UnmarkedToolsStay(results: seq<Message>)
    requires forall m | m in results :: m.Tool?
    ensures Unmarked(results) == results
  {
    if results != [] {
      assert results[0] in results;
      UnmarkedToolsStay(results[1..]);
    }
  }

  /** Dropping the recovery messages keeps a closed transcript closed. */
  lemma {:induction false} UnmarkedKeepsClosed(ms: seq<Message>)
    requires Closed(ms) && MarkedArePlain(ms)
    ensures Closed(Unmarked(ms)) && MarkedArePlain(Unmarked(ms))
    ensures forall m | m in Unmarked(ms) :: m in ms && !m.Marked()
    decreases |ms|
  {
    if ms != [] {
      var n := if ms[0].Calling() then |ms[0].calls| else 0;
      var head, rest := ms[..n + 1], ms[n + 1..];
      assert ms == head + rest && ms[0] in ms;
      UnmarkedConcat(head, rest);
      UnmarkedKeepsClosed(rest);
      assert head == [ms[0]] + ms[1..n + 1];
      UnmarkedToolsStay(head[1..]);
      if ms[0].Marked() {
        assert Unmarked(ms) == Unmarked(rest);
      } else {
        assert Unmarked(head) == head;
        if n > 0 {
          BatchIsClosed(ms[0], ms[1..n + 1]);
        }
        assert Closed(head);
        ClosedConcat(head, Unmarked(rest));
      }
    }
  }
}
