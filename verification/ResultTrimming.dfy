/** Trimming long tool results (agents/query.py and agents/context_compiler.py). */
module ResultTrimming {
  import opened Transcript

  function Trimmed(message: Message, limit: nat, note: string): Message {
    if message.Tool? && |message.content| > limit
    then message.(content := message.content[..limit] + note)
    else message
  }

  function TrimmedAll(ms: seq<Message>, limit: nat, note: string): (trimmed: seq<Message>)
    ensures |trimmed| == |ms| && forall i | 0 <= i < |ms| :: trimmed[i] == Trimmed(ms[i], limit, note)
  {
    seq(|ms|, i requires 0 <= i < |ms| => Trimmed(ms[i], limit, note))
  }

  /** Only tool results over the limit change: they keep their first characters, and the note says so. */
  lemma LongResultsAreCut(ms: seq<Message>, limit: nat, note: string, i: nat)
    requires i < |ms|
    ensures var m, t := ms[i], TrimmedAll(ms, limit, note)[i];
      && (t != m ==> m.Tool? && |m.content| > limit)
      && (m.Tool? ==> t.Tool? && t.callId == m.callId && t.name == m.name)
      && (m.Tool? && |m.content| > limit ==>
            |t.content| == limit + |note| && t.content[..limit] == m.content[..limit] && t.content[limit..] == note)
  {
  }

  method TrimToolResults(ms: seq<Message>, limit: nat, note: string) returns (trimmed: seq<Message>)
    ensures trimmed == TrimmedAll(ms, limit, note)
  {
    trimmed := [];
    for i := 0 to |ms|
      invariant |trimmed| == i && forall k | 0 <= k < i :: trimmed[k] == Trimmed(ms[k], limit, note)
    {
      trimmed := trimmed + [Trimmed(ms[i], limit, note)];
    }
  }

  lemma TrimmedSlice(ms: seq<Message>, limit: nat, note: string, i: nat, j: nat)
    requires i <= j <= |ms|
    ensures TrimmedAll(ms, limit, note)[i..j] == TrimmedAll(ms[i..j], limit, note)
  {
  }

  lemma TrimmedAnswers(calls: seq<ToolCall>, results: seq<Message>, limit: nat, note: string)
    ensures Answers(calls, TrimmedAll(results, limit, note)) <==> Answers(calls, results)
  {
    var trimmed := TrimmedAll(results, limit, note);
    assert forall i | 0 <= i < |results| ::
      trimmed[i].Tool? == results[i].Tool? && (results[i].Tool? ==> trimmed[i].callId == results[i].callId);
  }

  lemma {:induction false} TrimmedKeepsClosed(ms: seq<Message>, limit: nat, note: string)
    ensures Closed(TrimmedAll(ms, limit, note)) <==> Closed(ms)
    decreases |ms|
  {
    if ms != [] {
      var trimmed := TrimmedAll(ms, limit, note);
      assert trimmed[0] == Trimmed(ms[0], limit, note);
      var n := if ms[0].Calling() then |ms[0].calls| else 0;
      if n < |ms| {
        TrimmedSlice(ms, limit, note, n + 1, |ms|);
        assert trimmed[n + 1..] == trimmed[n + 1..|ms|] && ms[n + 1..] == ms[n + 1..|ms|];
        TrimmedKeepsClosed(ms[n + 1..], limit, note);
        if n > 0 {
          TrimmedSlice(ms, limit, note, 1, n + 1);
          TrimmedAnswers(ms[0].calls, ms[1..n + 1], limit, note);
        }
      }
    }
  }

  /** Trimming long results touches neither the grammar nor the pending tail. */
  lemma TrimmedKeepsGrammar(ms: seq<Message>, limit: nat, note: string)
    ensures ValidTranscript(TrimmedAll(ms, limit, note), true) <==> ValidTranscript(ms, true)
  {
    TrimmedKeepsClosed(ms, limit, note);
    if ms != [] {
      var init := ms[..|ms| - 1];
      TrimmedKeepsClosed(init, limit, note);
      TrimmedSlice(ms, limit, note, 0, |ms| - 1);
      assert TrimmedAll(ms, limit, note)[|ms| - 1] == Trimmed(ms[|ms| - 1], limit, note);
    }
  }
}
