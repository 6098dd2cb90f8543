/** The scanning transcript validator (agents/tool_protocol.py, validate_tool_transcript). */
module TranscriptCheck {
  import opened Wrappers
  import opened Transcript
  import opened Counting

  datatype TranscriptError = InvalidToolCallIds | ToolBatchNotClosed | ToolResultOrderMismatch | OrphanToolResult

  /** Index of the first message from `i` on that is not a tool result. */
  function RunEnd(ms: seq<Message>, i: nat): (e: nat)
    requires i <= |ms|
    ensures i <= e <= |ms|
    ensures forall k | i <= k < e :: ms[k].Tool?
    ensures e < |ms| ==> !ms[e].Tool?
    decreases |ms| - i
  {
    if i < |ms| && ms[i].Tool? then RunEnd(ms, i + 1) else i
  }

  ghost predicate BatchAnswered(ms: seq<Message>, i: nat, allowPendingTail: bool)
    requires i < |ms| && ms[i].Calling()
  {
    && GoodIds(ms[i].calls)
    && ((allowPendingTail && i == |ms| - 1) || Answers(ms[i].calls, ms[i + 1..RunEnd(ms, i + 1)]))
  }

  /** Tool result `k` stands in the run right after the calling message `i`. */
  ghost predicate Owns(ms: seq<Message>, i: nat, k: nat)
    requires k < |ms|
  {
    i < k && ms[i].Calling() && k < RunEnd(ms, i + 1)
  }

  ghost predicate Owned(ms: seq<Message>, k: nat, from: nat)
    requires k < |ms|
  {
    exists i | from <= i < k :: Owns(ms, i, k)
  }

  ghost predicate LocallyValid(ms: seq<Message>, from: nat, allowPendingTail: bool) {
    && (forall i | from <= i < |ms| && ms[i].Calling() :: BatchAnswered(ms, i, allowPendingTail))
    && (forall k | from <= k < |ms| && ms[k].Tool? :: Owned(ms, k, from))
  }

  /** Closed, or closed but for the last message, peeled by one block. */
  lemma PeelBlock(ms: seq<Message>, i: nat, e: nat, allow: bool)
    requires i < e <= |ms| && Closed(ms[i..e])
    ensures ValidTranscript(ms[i..], allow) <==> ValidTranscript(ms[e..], allow)
  {
    assert ms[i..] == ms[i..e] + ms[e..];
    ClosedConcat(ms[i..e], ms[e..]);
    if e < |ms| {
      var rest := ms[e..];
      assert ms[i..][..|ms| - i - 1] == ms[i..e] + rest[..|rest| - 1];
      ClosedConcat(ms[i..e], rest[..|rest| - 1]);
    } else {
      assert ms[i..e] == ms[i..];
    }
  }

  /** The scanning check and the transcript grammar accept the same messages. */
  lemma {:induction false} LocalIsGrammar(ms: seq<Message>, i: nat, allow: bool)
    requires i <= |ms|
    ensures LocallyValid(ms, i, allow) <==> ValidTranscript(ms[i..], allow)
    decreases |ms| - i
  {
    if i < |ms| && ms[i].Tool? {
      assert !Owned(ms, i, i);
      assert !Closed(ms[i..]);
      OpenTailOfSuffix(ms, i);
    } else if i < |ms| && !ms[i].Calling() {
      LocalIsGrammar(ms, i + 1, allow);
      assert ms[i..i + 1] == [ms[i]];
      PeelBlock(ms, i, i + 1, allow);
      forall k | i < k < |ms| ensures Owned(ms, k, i) <==> Owned(ms, k, i + 1) {}
    } else if i < |ms| {
      var e := RunEnd(ms, i + 1);
      LocalSplit(ms, i, e, allow);
      LocalIsGrammar(ms, e, allow);
      BatchIsGrammar(ms, i, e, allow);
    }
  }

  /** A tool-calling message is answered as it should be, or the rest is not a valid transcript. */
  lemma BatchIsGrammar(ms: seq<Message>, i: nat, e: nat, allow: bool)
    requires i < |ms| && ms[i].Calling() && e == RunEnd(ms, i + 1)
    ensures ValidTranscript(ms[i..], allow) <==> BatchAnswered(ms, i, allow) && ValidTranscript(ms[e..], allow)
  {
    if Answers(ms[i].calls, ms[i + 1..e]) && GoodIds(ms[i].calls) {
      BatchIsClosed(ms[i], ms[i + 1..e]);
      assert ms[i..e] == [ms[i]] + ms[i + 1..e];
      PeelBlock(ms, i, e, allow);
    } else if allow && i == |ms| - 1 {
      assert ms[i..] == [ms[i]] && ms[e..] == [];
    } else {
      UnansweredIsNotClosed(ms, i, |ms|);
      assert ms[i..|ms|] == ms[i..];
      if i < |ms| - 1 {
        UnansweredHasNoOpenTail(ms, i);
      } else {
        OpenTailOfSuffix(ms, i);
      }
    }
  }

  /** Behind a whole run the owners of results are behind it too. */
  lemma OwnedBehind(ms: seq<Message>, i: nat, e: nat, k: nat)
    requires i < e <= k < |ms| && (forall j | i < j < e :: ms[j].Tool?) && RunEnd(ms, i + 1) <= e
    ensures Owned(ms, k, i) <==> Owned(ms, k, e)
  {
    if Owned(ms, k, i) {
      var o :| i <= o < k && Owns(ms, o, k);
      assert o >= e;
    }
  }

  lemma LocalSplit(ms: seq<Message>, i: nat, e: nat, allow: bool)
    requires i < |ms| && ms[i].Calling() && e == RunEnd(ms, i + 1)
    ensures LocallyValid(ms, i, allow) <==> BatchAnswered(ms, i, allow) && LocallyValid(ms, e, allow)
  {
    forall k | e <= k < |ms| ensures Owned(ms, k, i) <==> Owned(ms, k, e) {
      OwnedBehind(ms, i, e, k);
    }
    forall k | i < k < e ensures Owned(ms, k, i) {
      assert Owns(ms, i, k);
    }
  }

  lemma OpenTailOfSuffix(ms: seq<Message>, i: nat)
    requires i < |ms|
    ensures OpenTail(ms[i..]) <==>
            ms[|ms| - 1].Calling() && GoodIds(ms[|ms| - 1].calls) && Closed(ms[i..|ms| - 1])
  {
    var rest := ms[i..];
    assert rest[|rest| - 1] == ms[|ms| - 1];
    assert rest[..|rest| - 1] == ms[i..|ms| - 1];
  }

  lemma UnansweredIsNotClosed(ms: seq<Message>, i: nat, hi: nat)
    requires i < hi <= |ms| && ms[i].Calling() && (hi < |ms| ==> !ms[hi].Tool?)
    requires !(GoodIds(ms[i].calls) && Answers(ms[i].calls, ms[i + 1..RunEnd(ms, i + 1)]))
    ensures !Closed(ms[i..hi])
  {
    if Closed(ms[i..hi]) {
      BlockIsRun(ms, i, hi);
    }
  }

  lemma UnansweredHasNoOpenTail(ms: seq<Message>, i: nat)
    requires i < |ms| - 1 && ms[i].Calling()
    requires !(GoodIds(ms[i].calls) && Answers(ms[i].calls, ms[i + 1..RunEnd(ms, i + 1)]))
    ensures !OpenTail(ms[i..])
  {
    OpenTailOfSuffix(ms, i);
    if ms[|ms| - 1].Calling() {
      UnansweredIsNotClosed(ms, i, |ms| - 1);
    }
  }

  lemma HeadBlock(part: seq<Message>)
    requires part != [] && part[0].Calling() && Closed(part)
    ensures var n := |part[0].calls|;
            && n < |part| && GoodIds(part[0].calls)
            && (forall k | 0 <= k < n :: part[k + 1].Tool? && part[k + 1].callId == part[0].calls[k].id)
            && (n + 1 < |part| ==> !part[n + 1].Tool?)
  {
    var n := |part[0].calls|;
    forall k | 0 <= k < n ensures part[k + 1].Tool? && part[k + 1].callId == part[0].calls[k].id {
      assert part[1..n + 1][k] == part[k + 1];
    }
    if n + 1 < |part| {
      assert part[n + 1..][0] == part[n + 1];
    }
  }

  /** The same, seen from the whole transcript. */
  lemma HeadBlockAt(ms: seq<Message>, i: nat, hi: nat)
    requires i < hi <= |ms| && ms[i].Calling() && Closed(ms[i..hi])
    ensures var n := |ms[i].calls|;
            && i + n < hi && GoodIds(ms[i].calls)
            && (forall k | i < k <= i + n :: ms[k].Tool? && ms[k].callId == ms[i].calls[k - i - 1].id)
            && (i + n + 1 < hi ==> !ms[i + n + 1].Tool?)
  {
    var part, n := ms[i..hi], |ms[i].calls|;
    HeadBlock(part);
    forall k | i < k <= i + n ensures ms[k].Tool? && ms[k].callId == ms[i].calls[k - i - 1].id {
      var j := k - i - 1;
      assert part[j + 1] == ms[k];
    }
    if i + n + 1 < hi {
      assert part[n + 1] == ms[i + n + 1];
    }
  }

  /** In a transcript closed from `i` to `hi`, the answers of `i` are exactly the run after it. */
  lemma BlockIsRun(ms: seq<Message>, i: nat, hi: nat)
    requires i < hi <= |ms| && ms[i].Calling()
    requires Closed(ms[i..hi]) && (hi < |ms| ==> !ms[hi].Tool?)
    ensures GoodIds(ms[i].calls) && Answers(ms[i].calls, ms[i + 1..RunEnd(ms, i + 1)])
  {
    var n := |ms[i].calls|;
    HeadBlockAt(ms, i, hi);
    RunEndIs(ms, i + 1, i + n + 1);
    var results := ms[i + 1..i + n + 1];
    forall k | 0 <= k < n ensures results[k].Tool? && results[k].callId == ms[i].calls[k].id {
      assert results[k] == ms[i + 1 + k];
    }
  }

  lemma RunEndIs(ms: seq<Message>, i: nat, e: nat)
    requires i <= e <= |ms| && (forall k | i <= k < e :: ms[k].Tool?) && (e < |ms| ==> !ms[e].Tool?)
    ensures RunEnd(ms, i) == e
  {
  }

  ghost predicate OwnedBelow(ms: seq<Message>, k: nat, n: nat)
    requires k < |ms| && n <= |ms|
  {
    exists i | 0 <= i < n :: Owns(ms, i, k)
  }

  ghost function Positions(lo: nat, hi: nat): (r: set<nat>)
    ensures forall k: nat :: k in r <==> lo <= k < hi
  {
    if lo >= hi then {} else Positions(lo, hi - 1) + {hi - 1}
  }

  /** The positions the first `n` messages' runs cover. */
  ghost function Covered(ms: seq<Message>, n: nat): set<nat>
    requires n <= |ms|
  {
    set k: nat | k < |ms| && OwnedBelow(ms, k, n)
  }

  lemma CoverOneMore(ms: seq<Message>, n: nat)
    requires n < |ms|
    ensures Covered(ms, n + 1)
         == Covered(ms, n) + if ms[n].Calling() then Positions(n + 1, RunEnd(ms, n + 1)) else {}
  {
    forall k: nat | k < |ms|
      ensures OwnedBelow(ms, k, n + 1) <==> OwnedBelow(ms, k, n) || Owns(ms, n, k)
    {
    }
  }

  /** Gathers the ids of the tool results that directly follow message `index`. */
  method CollectRun(ms: seq<Message>, index: nat, resultIndices: set<nat>)
    returns (resultIds: seq<string>, indices: set<nat>)
    requires index < |ms|
    ensures indices == resultIndices + Positions(index + 1, RunEnd(ms, index + 1))
    ensures |resultIds| == RunEnd(ms, index + 1) - index - 1
    ensures forall k | 0 <= k < |resultIds| ::
              ms[index + 1 + k].Tool? && resultIds[k] == ms[index + 1 + k].callId
  {
    resultIds, indices := [], resultIndices;
    var cursor := index + 1;
    while cursor < |ms| && ms[cursor].Tool?
      invariant index < cursor <= |ms|
      invariant RunEnd(ms, index + 1) == RunEnd(ms, cursor)
      invariant indices == resultIndices + Positions(index + 1, cursor)
      invariant |resultIds| == cursor - index - 1
      invariant forall k | 0 <= k < |resultIds| ::
                  ms[index + 1 + k].Tool? && resultIds[k] == ms[index + 1 + k].callId
    {
      indices := indices + {cursor};
      resultIds := resultIds + [ms[cursor].callId];
      cursor := cursor + 1;
    }
  }

  /** The verdict on one calling message whose following results are `resultIds`. */
  method CheckBatch(ms: seq<Message>, index: nat, resultIds: seq<string>, allowPendingTail: bool)
    returns (error: Option<TranscriptError>)
    requires index < |ms| && ms[index].Calling()
    requires |resultIds| == RunEnd(ms, index + 1) - index - 1
    requires forall k | 0 <= k < |resultIds| ::
               ms[index + 1 + k].Tool? && resultIds[k] == ms[index + 1 + k].callId
    ensures error.None? <==> BatchAnswered(ms, index, allowPendingTail)
    ensures error == Some(InvalidToolCallIds) <==> !GoodIds(ms[index].calls)
    ensures error != Some(OrphanToolResult)
  {
    var ids := Ids(ms[index].calls);
    if "" in ids || |set id | id in ids| != |ids| {
      BadIds(ms[index].calls);
      return Some(InvalidToolCallIds);
    }
    GoodIdsFromSet(ms[index].calls);
    if allowPendingTail && index == |ms| - 1 && |resultIds| == 0 {
      return None;
    }
    RunMatches(ms, index, ids, resultIds);
    if |resultIds| == 0 || |resultIds| != |ids| {
      return Some(ToolBatchNotClosed);
    }
    return if resultIds != ids then Some(ToolResultOrderMismatch) else None;
  }

  /** Scans every message, collects the runs that follow a call, then looks for orphans. */
  method ValidateToolTranscript(ms: seq<Message>, allowPendingTail: bool) returns (error: Option<TranscriptError>)
    ensures error.None? <==> ValidTranscript(ms, allowPendingTail)
    ensures error == Some(OrphanToolResult) ==>
              exists k | 0 <= k < |ms| :: ms[k].Tool? && !Owned(ms, k, 0)
    ensures error == Some(InvalidToolCallIds) ==>
              exists i | 0 <= i < |ms| :: ms[i].Calling() && !GoodIds(ms[i].calls)
  {
    WholeIsGrammar(ms, allowPendingTail);
    var resultIndices: set<nat> := {};
    for index := 0 to |ms|
      invariant forall i | 0 <= i < index && ms[i].Calling() :: BatchAnswered(ms, i, allowPendingTail)
      invariant resultIndices == Covered(ms, index)
    {
      CoverOneMore(ms, index);
      if ms[index].Calling() {
        var resultIds;
        resultIds, resultIndices := CollectRun(ms, index, resultIndices);
        error := CheckBatch(ms, index, resultIds, allowPendingTail);
        if error.Some? {
          return;
        }
      }
    }
    error := FindOrphan(ms, resultIndices);
  }

  lemma WholeIsGrammar(ms: seq<Message>, allowPendingTail: bool)
    ensures ValidTranscript(ms, allowPendingTail) <==> LocallyValid(ms, 0, allowPendingTail)
  {
    LocalIsGrammar(ms, 0, allowPendingTail);
    assert ms[0..] == ms;
  }

  method FindOrphan(ms: seq<Message>, resultIndices: set<nat>) returns (error: Option<TranscriptError>)
    ensures error.None? <==> forall j | 0 <= j < |ms| && ms[j].Tool? :: j in resultIndices
    ensures error.Some? ==> error == Some(OrphanToolResult)
  {
    for k := 0 to |ms|
      invariant forall j | 0 <= j < k && ms[j].Tool? :: j in resultIndices
    {
      if ms[k].Tool? && k !in resultIndices {
        return Some(OrphanToolResult);
      }
    }
    return None;
  }

  lemma RunMatches(ms: seq<Message>, i: nat, ids: seq<string>, resultIds: seq<string>)
    requires i < |ms| && ms[i].Calling() && ids == Ids(ms[i].calls)
    requires |resultIds| == RunEnd(ms, i + 1) - i - 1
    requires forall k | 0 <= k < |resultIds| :: ms[i + 1 + k].Tool? && resultIds[k] == ms[i + 1 + k].callId
    ensures resultIds == ids <==> Answers(ms[i].calls, ms[i + 1..RunEnd(ms, i + 1)])
  {
    var calls, run := ms[i].calls, ms[i + 1..RunEnd(ms, i + 1)];
    if Answers(calls, run) {
      assert forall k | 0 <= k < |calls| :: resultIds[k] == run[k].callId;
    } else if resultIds == ids {
      assert forall k | 0 <= k < |calls| :: run[k].callId == ids[k];
    }
  }

  lemma BadIds(calls: seq<ToolCall>)
    requires "" in Ids(calls) || |set id | id in Ids(calls)| != |Ids(calls)|
    ensures !GoodIds(calls)
  {
    if GoodIds(calls) {
      DistinctCount(Ids(calls));
    }
  }

  lemma GoodIdsFromSet(calls: seq<ToolCall>)
    requires "" !in Ids(calls) && |set id | id in Ids(calls)| == |Ids(calls)|
    ensures GoodIds(calls)
  {
    CountedAreDistinct(Ids(calls));
    forall i | 0 <= i < |calls| ensures calls[i].id != "" {
      assert Ids(calls)[i] == calls[i].id;
    }
    forall i, j | 0 <= i < j < |calls| ensures calls[i].id != calls[j].id {
      assert Ids(calls)[i] != Ids(calls)[j];
    }
  }
}
