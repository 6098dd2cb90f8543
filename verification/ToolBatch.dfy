/** Closing a tool batch around arbitrary hook output (agents/tool_protocol.py, close_tool_batch). */
module ToolBatch {
  import opened Wrappers
  import opened Transcript
  import opened ToolCallIds

  datatype ToolErrorType =
    | Cancelled | RuntimeHookError | TaskCapacityExceeded | RuntimeMissingResult | RuntimeDuplicateResult

  /** The error text itself belongs to the governance module; only its kind is kept. */
  function ErrorText(kind: ToolErrorType): string {
    match kind
    case Cancelled => "cancelled"
    case RuntimeHookError => "runtime_hook_error"
    case TaskCapacityExceeded => "task_capacity_exceeded"
    case RuntimeMissingResult => "runtime_missing_result"
    case RuntimeDuplicateResult => "runtime_duplicate_result"
  }

  function Matches(candidates: seq<Message>, id: string): seq<Message> {
    if candidates == [] then []
    else
      Matches(candidates[..|candidates| - 1], id)
      + var m := candidates[|candidates| - 1]; if m.Tool? && m.callId == id then [m] else []
  }

  function Settle(call: ToolCall, matches: seq<Message>, missing: ToolErrorType): Message {
    if |matches| == 0 then Tool(call.id, call.name, ErrorText(missing))
    else if |matches| > 1 then Tool(call.id, call.name, ErrorText(RuntimeDuplicateResult))
    else Tool(call.id, call.name, matches[0].content)
  }

  function ClosedResults(calls: seq<ToolCall>, candidates: seq<Message>, missing: ToolErrorType): (r: seq<Message>)
    ensures |r| == |calls|
    ensures forall i | 0 <= i < |calls| :: r[i] == Settle(calls[i], Matches(candidates, calls[i].id), missing)
  {
    if calls == [] then []
    else
      var last := |calls| - 1;
      ClosedResults(calls[..last], candidates, missing)
      + [Settle(calls[last], Matches(candidates, calls[last].id), missing)]
  }

  function Additional(extra: seq<Message>): (r: seq<Message>)
    ensures forall m | m in r :: m in extra && !m.Tool?
  {
    if extra == [] then []
    else
      Additional(extra[..|extra| - 1])
      + var m := extra[|extra| - 1]; if m.Tool? then [] else [m]
  }

  function CandidateDefect(calls: seq<ToolCall>, m: Message): seq<Diagnostic> {
    if !m.Tool? then [Diagnostic(NonToolBatchResult, None)]
    else if m.callId !in IdSet(calls) then [Diagnostic(UnknownToolResult, Some(m.callId))]
    else []
  }

  function AdditionalDefect(m: Message): seq<Diagnostic> {
    if m.Tool? then [Diagnostic(ToolMessageInAdditionalMessages, Some(m.callId))] else []
  }

  function CallDefect(id: string, matches: seq<Message>): seq<Diagnostic> {
    if |matches| == 0 then [Diagnostic(MissingToolResult, Some(id))]
    else if |matches| > 1 then [Diagnostic(DuplicateToolResult, Some(id))]
    else []
  }

  function CandidateDefects(calls: seq<ToolCall>, candidates: seq<Message>): seq<Diagnostic> {
    if candidates == [] then []
    else
      CandidateDefects(calls, candidates[..|candidates| - 1])
      + CandidateDefect(calls, candidates[|candidates| - 1])
  }

  function AdditionalDefects(extra: seq<Message>): seq<Diagnostic> {
    if extra == [] then []
    else
      AdditionalDefects(extra[..|extra| - 1]) + AdditionalDefect(extra[|extra| - 1])
  }

  function CallDefects(calls: seq<ToolCall>, candidates: seq<Message>): seq<Diagnostic> {
    if calls == [] then []
    else
      var last := calls[|calls| - 1];
      CallDefects(calls[..|calls| - 1], candidates) + CallDefect(last.id, Matches(candidates, last.id))
  }

  function BatchDefects(calls: seq<ToolCall>, candidates: seq<Message>, extra: seq<Message>): seq<Diagnostic> {
    CandidateDefects(calls, candidates) + AdditionalDefects(extra) + CallDefects(calls, candidates)
  }

  lemma OneMoreCandidate(calls: seq<ToolCall>, candidates: seq<Message>, i: nat)
    requires i < |candidates|
    ensures forall id :: Matches(candidates[..i + 1], id)
              == Matches(candidates[..i], id)
                 + (var m := candidates[i]; if m.Tool? && m.callId == id then [m] else [])
    ensures CandidateDefects(calls, candidates[..i + 1])
         == CandidateDefects(calls, candidates[..i]) + CandidateDefect(calls, candidates[i])
  {
    assert candidates[..i + 1][..i] == candidates[..i];
  }

  lemma OneMoreExtra(extra: seq<Message>, i: nat)
    requires i < |extra|
    ensures Additional(extra[..i + 1]) == Additional(extra[..i]) + if extra[i].Tool? then [] else [extra[i]]
    ensures AdditionalDefects(extra[..i + 1]) == AdditionalDefects(extra[..i]) + AdditionalDefect(extra[i])
  {
    assert extra[..i + 1][..i] == extra[..i];
  }

  lemma OneMoreCall(calls: seq<ToolCall>, candidates: seq<Message>, missing: ToolErrorType, i: nat)
    requires i < |calls|
    ensures ClosedResults(calls[..i + 1], candidates, missing)
         == ClosedResults(calls[..i], candidates, missing)
            + [Settle(calls[i], Matches(candidates, calls[i].id), missing)]
    ensures CallDefects(calls[..i + 1], candidates)
         == CallDefects(calls[..i], candidates) + CallDefect(calls[i].id, Matches(candidates, calls[i].id))
  {
    assert calls[..i + 1][..i] == calls[..i];
  }

  /** The candidates sorted by the call they answer, with a defect for each that answers none. */
  method GroupCandidates(calls: seq<ToolCall>, candidates: seq<Message>)
    returns (grouped: map<string, seq<Message>>, found: seq<Diagnostic>)
    ensures found == CandidateDefects(calls, candidates)
    ensures forall id | id in IdSet(calls) :: Matches(candidates, id) == if id in grouped then grouped[id] else []
  {
    var expected := IdSet(calls);
    grouped := map[];
    found := [];
    for i := 0 to |candidates|
      invariant found == CandidateDefects(calls, candidates[..i])
      invariant forall id | id in expected ::
                  Matches(candidates[..i], id) == if id in grouped then grouped[id] else []
    {
      OneMoreCandidate(calls, candidates, i);
      var m := candidates[i];
      if !m.Tool? {
        found := found + [Diagnostic(NonToolBatchResult, None)];
      } else if m.callId !in expected {
        found := found + [Diagnostic(UnknownToolResult, Some(m.callId))];
      } else {
        grouped := grouped[m.callId := (if m.callId in grouped then grouped[m.callId] else []) + [m]];
      }
    }
    assert candidates[..|candidates|] == candidates;
  }

  /** Extra messages pass, tool results among them do not. */
  method FilterExtra(extra: seq<Message>) returns (additional: seq<Message>, stray: seq<Diagnostic>)
    ensures additional == Additional(extra) && stray == AdditionalDefects(extra)
  {
    additional, stray := [], [];
    for i := 0 to |extra|
      invariant additional == Additional(extra[..i])
      invariant stray == AdditionalDefects(extra[..i])
    {
      OneMoreExtra(extra, i);
      if extra[i].Tool? {
        stray := stray + [Diagnostic(ToolMessageInAdditionalMessages, Some(extra[i].callId))];
      } else {
        additional := additional + [extra[i]];
      }
    }
    assert extra[..|extra|] == extra;
  }

  method CloseToolBatch(
    calls: seq<ToolCall>, candidates: seq<Message>, extra: seq<Message>,
    missing: ToolErrorType, initial: seq<Diagnostic>
  ) returns (messages: seq<Message>, additional: seq<Message>, diagnostics: seq<Diagnostic>)
    ensures messages == ClosedResults(calls, candidates, missing)
    ensures additional == Additional(extra)
    ensures diagnostics == initial + BatchDefects(calls, candidates, extra)
  {
    var grouped, found := GroupCandidates(calls, candidates);
    var stray;
    additional, stray := FilterExtra(extra);
    messages := [];
    var unmet: seq<Diagnostic> := [];
    for i := 0 to |calls|
      invariant messages == ClosedResults(calls[..i], candidates, missing)
      invariant unmet == CallDefects(calls[..i], candidates)
    {
      OneMoreCall(calls, candidates, missing, i);
      var call := calls[i];
      assert call in calls && call.id in IdSet(calls);
      var matches := if call.id in grouped then grouped[call.id] else [];
      if |matches| == 0 {
        unmet := unmet + [Diagnostic(MissingToolResult, Some(call.id))];
        messages := messages + [Tool(call.id, call.name, ErrorText(missing))];
      } else if |matches| > 1 {
        unmet := unmet + [Diagnostic(DuplicateToolResult, Some(call.id))];
        messages := messages + [Tool(call.id, call.name, ErrorText(RuntimeDuplicateResult))];
      } else {
        messages := messages + [Tool(call.id, call.name, matches[0].content)];
      }
    }
    assert calls[..|calls|] == calls;
    diagnostics := initial + (found + stray + unmet);
  }

  /** Whatever the hooks return, the closed batch answers the calls one for one. */
  lemma ClosedResultsAnswer(calls: seq<ToolCall>, candidates: seq<Message>, missing: ToolErrorType)
    ensures Answers(calls, ClosedResults(calls, candidates, missing))
  {
    forall i | 0 <= i < |calls|
      ensures ClosedResults(calls, candidates, missing)[i].Tool?
      ensures ClosedResults(calls, candidates, missing)[i].callId == calls[i].id
    {
      assert ClosedResults(calls, candidates, missing)[i]
          == Settle(calls[i], Matches(candidates, calls[i].id), missing);
    }
  }

  lemma MatchesAreTools(candidates: seq<Message>, id: string)
    ensures forall m | m in Matches(candidates, id) :: m.Tool? && m.callId == id && m in candidates
  {
  }

  lemma {:induction false} MatchesAsMultiset(candidates: seq<Message>, id: string, m: Message)
    ensures multiset(Matches(candidates, id))[m]
         == if m.Tool? && m.callId == id then multiset(candidates)[m] else 0
    decreases |candidates|
  {
    if candidates != [] {
      var last := |candidates| - 1;
      assert candidates == candidates[..last] + [candidates[last]];
      MatchesAsMultiset(candidates[..last], id, m);
    }
  }

  lemma MatchesRespectOrder(a: seq<Message>, b: seq<Message>, id: string)
    requires multiset(a) == multiset(b)
    ensures multiset(Matches(a, id)) == multiset(Matches(b, id))
    ensures |Matches(a, id)| == |Matches(b, id)|
  {
    forall m ensures multiset(Matches(a, id))[m] == multiset(Matches(b, id))[m] {
      MatchesAsMultiset(a, id, m);
      MatchesAsMultiset(b, id, m);
    }
    assert multiset(Matches(a, id)) == multiset(Matches(b, id));
    assert |multiset(Matches(a, id))| == |Matches(a, id)|;
    assert |multiset(Matches(b, id))| == |Matches(b, id)|;
  }

  /** The order in which tools complete does not show in the closed batch. */
  lemma CompletionOrderIsInvisible(calls: seq<ToolCall>, a: seq<Message>, b: seq<Message>, missing: ToolErrorType)
    requires multiset(a) == multiset(b)
    ensures ClosedResults(calls, a, missing) == ClosedResults(calls, b, missing)
  {
    forall i | 0 <= i < |calls|
      ensures ClosedResults(calls, a, missing)[i] == ClosedResults(calls, b, missing)[i]
    {
      var id := calls[i].id;
      MatchesRespectOrder(a, b, id);
      if |Matches(a, id)| == 1 {
        assert Matches(a, id)[0] in multiset(Matches(b, id));
        assert Matches(b, id) == [Matches(b, id)[0]];
      }
    }
  }

  function ResultIds(results: seq<Message>): seq<string>
    requires forall m | m in results :: m.Tool?
  {
    seq(|results|, i requires 0 <= i < |results| => assert results[i] in results; results[i].callId)
  }

  lemma {:induction false} MatchesCountIds(candidates: seq<Message>, id: string)
    requires forall m | m in candidates :: m.Tool?
    ensures |Matches(candidates, id)| == multiset(ResultIds(candidates))[id]
    decreases |candidates|
  {
    if candidates != [] {
      var last := |candidates| - 1;
      var init := candidates[..last];
      assert candidates[last] in candidates;
      forall m | m in init ensures m.Tool? { assert m in candidates; }
      MatchesCountIds(init, id);
      assert ResultIds(candidates) == ResultIds(init) + [candidates[last].callId];
    }
  }

  lemma {:induction false} NoCandidateDefects(calls: seq<ToolCall>, candidates: seq<Message>)
    ensures CandidateDefects(calls, candidates) == [] <==>
            forall m | m in candidates :: m.Tool? && m.callId in IdSet(calls)
    decreases |candidates|
  {
    if candidates != [] {
      var last := |candidates| - 1;
      NoCandidateDefects(calls, candidates[..last]);
      assert candidates == candidates[..last] + [candidates[last]];
    }
  }

  lemma {:induction false} NoAdditionalDefects(extra: seq<Message>)
    ensures AdditionalDefects(extra) == [] <==> forall m | m in extra :: !m.Tool?
    decreases |extra|
  {
    if extra != [] {
      var last := |extra| - 1;
      NoAdditionalDefects(extra[..last]);
      assert extra == extra[..last] + [extra[last]];
    }
  }

  lemma {:induction false} NoCallDefects(calls: seq<ToolCall>, candidates: seq<Message>)
    ensures CallDefects(calls, candidates) == [] <==>
            forall c | c in calls :: |Matches(candidates, c.id)| == 1
    decreases |calls|
  {
    if calls != [] {
      var last := |calls| - 1;
      NoCallDefects(calls[..last], candidates);
      assert calls == calls[..last] + [calls[last]];
    }
  }

  lemma {:induction false} DistinctIdsCountOnce(calls: seq<ToolCall>, id: string)
    requires GoodIds(calls)
    ensures multiset(Ids(calls))[id] == if id in IdSet(calls) then 1 else 0
    decreases |calls|
  {
    if calls != [] {
      var last := |calls| - 1;
      var init := calls[..last];
      DistinctIdsCountOnce(init, id);
      assert calls == init + [calls[last]];
      assert Ids(calls) == Ids(init) + [calls[last].id];
      assert IdSet(calls) == IdSet(init) + {calls[last].id};
    }
  }

  lemma ValidBatchIsRearrangement(calls: seq<ToolCall>, candidates: seq<Message>)
    requires GoodIds(calls)
    requires forall m | m in candidates :: m.Tool? && m.callId in IdSet(calls)
    requires forall c | c in calls :: |Matches(candidates, c.id)| == 1
    ensures multiset(ResultIds(candidates)) == multiset(Ids(calls))
  {
    var got, want := multiset(ResultIds(candidates)), multiset(Ids(calls));
    forall id ensures got[id] == want[id] {
      MatchesCountIds(candidates, id);
      DistinctIdsCountOnce(calls, id);
      assert got[id] > 0 ==> id in ResultIds(candidates);
    }
  }

  lemma RearrangementIsValidBatch(calls: seq<ToolCall>, candidates: seq<Message>)
    requires GoodIds(calls)
    requires forall m | m in candidates :: m.Tool?
    requires multiset(ResultIds(candidates)) == multiset(Ids(calls))
    ensures forall m | m in candidates :: m.callId in IdSet(calls)
    ensures forall c | c in calls :: |Matches(candidates, c.id)| == 1
  {
    forall m | m in candidates ensures m.callId in IdSet(calls) {
      var k :| 0 <= k < |candidates| && candidates[k] == m;
      assert ResultIds(candidates)[k] in multiset(ResultIds(candidates));
      DistinctIdsCountOnce(calls, m.callId);
    }
    forall c | c in calls ensures |Matches(candidates, c.id)| == 1 {
      MatchesCountIds(candidates, c.id);
      DistinctIdsCountOnce(calls, c.id);
    }
  }

  lemma {:induction false} SingleMatch(candidates: seq<Message>, id: string, k: nat)
    requires k < |candidates| && candidates[k].Tool? && candidates[k].callId == id
    requires forall j: nat :: j < |candidates| && j != k ==> !Answer(candidates[j], id)
    ensures Matches(candidates, id) == [candidates[k]]
    decreases |candidates|
  {
    var last := |candidates| - 1;
    if k < last {
      SingleMatch(candidates[..last], id, k);
    } else {
      NoMatch(candidates[..last], id);
    }
  }

  predicate Answer(m: Message, id: string) {
    m.Tool? && m.callId == id
  }

  lemma {:induction false} NoMatch(candidates: seq<Message>, id: string)
    requires forall j: nat :: j < |candidates| ==> !Answer(candidates[j], id)
    ensures Matches(candidates, id) == []
    decreases |candidates|
  {
    if candidates != [] {
      NoMatch(candidates[..|candidates| - 1], id);
    }
  }

  lemma {:induction false} TwoMatches(candidates: seq<Message>, id: string, i: nat, j: nat)
    requires i < j < |candidates| && Answer(candidates[i], id) && Answer(candidates[j], id)
    ensures |Matches(candidates, id)| >= 2
    decreases |candidates|
  {
    var last := |candidates| - 1;
    if j < last {
      TwoMatches(candidates[..last], id, i, j);
    } else {
      OneMatch(candidates[..last], id, i);
    }
  }

  lemma {:induction false} OneMatch(candidates: seq<Message>, id: string, i: nat)
    requires i < |candidates| && Answer(candidates[i], id)
    ensures |Matches(candidates, id)| >= 1
    decreases |candidates|
  {
    if i < |candidates| - 1 {
      OneMatch(candidates[..|candidates| - 1], id, i);
    }
  }

  /** How many candidates answer an id, told by their positions. */
  lemma MatchesByPosition(candidates: seq<Message>, id: string)
    ensures |Matches(candidates, id)| == 0 <==> forall j: nat :: j < |candidates| ==> !Answer(candidates[j], id)
    ensures |Matches(candidates, id)| > 1 <==>
            exists i: nat, j: nat :: i < j < |candidates| && Answer(candidates[i], id) && Answer(candidates[j], id)
    ensures forall k: nat :: k < |candidates| && Answer(candidates[k], id) && |Matches(candidates, id)| == 1 ==>
              Matches(candidates, id) == [candidates[k]]
  {
    if k: nat :| k < |candidates| && Answer(candidates[k], id) {
      OneMatch(candidates, id, k);
      if i: nat, j: nat :| i < j < |candidates| && Answer(candidates[i], id) && Answer(candidates[j], id) {
        TwoMatches(candidates, id, i, j);
      } else {
        forall j: nat | j < |candidates| && j != k ensures !Answer(candidates[j], id) {
          assert j < k || k < j;
        }
        SingleMatch(candidates, id, k);
      }
    } else {
      NoMatch(candidates, id);
    }
  }

  lemma {:induction false} CallDefectsAsIndexed(calls: seq<ToolCall>, candidates: seq<Message>, d: Diagnostic)
    ensures d in CallDefects(calls, candidates) <==>
            exists i: nat :: i < |calls| && d in CallDefect(calls[i].id, Matches(candidates, calls[i].id))
    decreases |calls|
  {
    if calls != [] {
      CallDefectsAsIndexed(calls[..|calls| - 1], candidates, d);
    }
  }

  lemma {:induction false} CandidateDefectsAsIndexed(calls: seq<ToolCall>, candidates: seq<Message>, d: Diagnostic)
    ensures d in CandidateDefects(calls, candidates) <==>
            exists i: nat :: i < |candidates| && d in CandidateDefect(calls, candidates[i])
    decreases |candidates|
  {
    if candidates != [] {
      CandidateDefectsAsIndexed(calls, candidates[..|candidates| - 1], d);
    }
  }

  lemma {:induction false} AdditionalDefectsAsIndexed(extra: seq<Message>, d: Diagnostic)
    ensures d in AdditionalDefects(extra) <==> exists i: nat :: i < |extra| && d in AdditionalDefect(extra[i])
    decreases |extra|
  {
    if extra != [] {
      AdditionalDefectsAsIndexed(extra[..|extra| - 1], d);
    }
  }

  ghost predicate Unanswered(candidates: seq<Message>, id: string) {
    forall j: nat :: j < |candidates| ==> !Answer(candidates[j], id)
  }

  ghost predicate NoCall(calls: seq<ToolCall>, id: string) {
    forall c | c in calls :: c.id != id
  }

  ghost predicate AnsweredTwice(candidates: seq<Message>, id: string) {
    exists i: nat, j: nat :: i < j < |candidates| && Answer(candidates[i], id) && Answer(candidates[j], id)
  }

  lemma CandidateReports(calls: seq<ToolCall>, candidates: seq<Message>, d: Diagnostic)
    ensures d in CandidateDefects(calls, candidates) <==>
            match d.code
            case NonToolBatchResult => d.callId == None && exists m :: m in candidates && !m.Tool?
            case UnknownToolResult => exists m :: m in candidates && m.Tool? && d.callId == Some(m.callId) && NoCall(calls, m.callId)
            case _ => false
  {
    CandidateDefectsAsIndexed(calls, candidates, d);
  }

  lemma ExtraReports(extra: seq<Message>, d: Diagnostic)
    ensures d in AdditionalDefects(extra) <==>
            d.code == ToolMessageInAdditionalMessages && exists m :: m in extra && m.Tool? && d.callId == Some(m.callId)
  {
    AdditionalDefectsAsIndexed(extra, d);
  }

  lemma CallReports(calls: seq<ToolCall>, candidates: seq<Message>, d: Diagnostic)
    ensures d in CallDefects(calls, candidates) <==>
            match d.code
            case MissingToolResult => exists c :: c in calls && d.callId == Some(c.id) && Unanswered(candidates, c.id)
            case DuplicateToolResult => exists c :: c in calls && d.callId == Some(c.id) && AnsweredTwice(candidates, c.id)
            case _ => false
  {
    CallDefectsAsIndexed(calls, candidates, d);
    forall id
      ensures |Matches(candidates, id)| == 0 <==> Unanswered(candidates, id)
      ensures |Matches(candidates, id)| > 1 <==> AnsweredTwice(candidates, id)
    {
      MatchesByPosition(candidates, id);
    }
  }

  /** Everything a batch reports, and for what: nothing else is reported, and none of it is left out. */
  lemma BatchReports(calls: seq<ToolCall>, candidates: seq<Message>, extra: seq<Message>, d: Diagnostic)
    ensures d in BatchDefects(calls, candidates, extra) <==>
            match d.code
            case NonToolBatchResult => d.callId == None && exists m :: m in candidates && !m.Tool?
            case UnknownToolResult => exists m :: m in candidates && m.Tool? && d.callId == Some(m.callId) && NoCall(calls, m.callId)
            case ToolMessageInAdditionalMessages => exists m :: m in extra && m.Tool? && d.callId == Some(m.callId)
            case MissingToolResult => exists c :: c in calls && d.callId == Some(c.id) && Unanswered(candidates, c.id)
            case DuplicateToolResult => exists c :: c in calls && d.callId == Some(c.id) && AnsweredTwice(candidates, c.id)
            case _ => false
  {
    CandidateReports(calls, candidates, d);
    ExtraReports(extra, d);
    CallReports(calls, candidates, d);
  }

  /**
   * What stands for a call in the closed batch: the one result that answers it, the text for missing
   * results if none does, the text for duplicate results if several do; under the call's id and name.
   */
  lemma ClosedResultIs(calls: seq<ToolCall>, candidates: seq<Message>, missing: ToolErrorType, i: nat)
    requires i < |calls|
    ensures var call, r := calls[i], ClosedResults(calls, candidates, missing)[i];
      && r.Tool? && r.callId == call.id && r.name == call.name
      && (Unanswered(candidates, call.id) ==> r.content == ErrorText(missing))
      && (AnsweredTwice(candidates, call.id) ==> r.content == ErrorText(RuntimeDuplicateResult))
      && forall k: nat :: k < |candidates| && Answer(candidates[k], call.id) && !AnsweredTwice(candidates, call.id) ==>
           r.content == candidates[k].content
  {
    MatchesByPosition(candidates, calls[i].id);
  }

  /** A batch is reported valid exactly when its results are a rearrangement of one per call. */
  lemma BatchValidIffRearrangement(calls: seq<ToolCall>, candidates: seq<Message>, extra: seq<Message>)
    requires GoodIds(calls)
    ensures BatchDefects(calls, candidates, extra) == [] <==>
            && (forall m | m in candidates :: m.Tool?)
            && multiset(ResultIds(candidates)) == multiset(Ids(calls))
            && (forall m | m in extra :: !m.Tool?)
  {
    NoCandidateDefects(calls, candidates);
    NoCallDefects(calls, candidates);
    NoAdditionalDefects(extra);
    if (forall m | m in candidates :: m.Tool?) && multiset(ResultIds(candidates)) == multiset(Ids(calls)) {
      RearrangementIsValidBatch(calls, candidates);
    } else if CandidateDefects(calls, candidates) == [] && CallDefects(calls, candidates) == [] {
      ValidBatchIsRearrangement(calls, candidates);
    }
  }

  /** Exactly one result per call, already in call order, passes through under the calls' own names. */
  lemma OrderedResultsPass(calls: seq<ToolCall>, out: seq<Message>, missing: ToolErrorType)
    requires GoodIds(calls) && Answers(calls, out)
    ensures CandidateDefects(calls, out) + CallDefects(calls, out) == []
    ensures forall i | 0 <= i < |calls| ::
              ClosedResults(calls, out, missing)[i] == Tool(calls[i].id, calls[i].name, out[i].content)
  {
    assert forall m | m in out :: m.Tool?;
    assert ResultIds(out) == Ids(calls);
    BatchValidIffRearrangement(calls, out, []);
    RearrangementIsValidBatch(calls, out);
    forall i | 0 <= i < |calls|
      ensures ClosedResults(calls, out, missing)[i] == Tool(calls[i].id, calls[i].name, out[i].content)
    {
      OnlyMatchIsOwn(calls, out, i);
      assert calls[i] in calls;
    }
  }

  lemma OnlyMatchIsOwn(calls: seq<ToolCall>, out: seq<Message>, i: nat)
    requires GoodIds(calls) && Answers(calls, out) && i < |calls|
    requires |Matches(out, calls[i].id)| == 1
    ensures Matches(out, calls[i].id)[0] == out[i]
  {
    var m := Matches(out, calls[i].id)[0];
    MatchesAreTools(out, calls[i].id);
    assert m in Matches(out, calls[i].id);
    var k :| 0 <= k < |out| && out[k] == m;
    assert out[k].callId == calls[k].id;
  }
}
