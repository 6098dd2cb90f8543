/** Canonical tool-call ids (agents/tool_protocol.py, canonicalize_ai_tool_calls). */
module ToolCallIds {
  import opened Wrappers
  import opened Transcript
  import opened Text

  datatype DefectCode =
    | MissingToolCallId | DuplicateToolCallId
    | NonToolBatchResult | UnknownToolResult | ToolMessageInAdditionalMessages
    | MissingToolResult | DuplicateToolResult
    | ToolBatchCapacityExceeded | ToolBatchCancelled | ToolBatchHookError

  datatype Diagnostic = Diagnostic(code: DefectCode, callId: Option<string>)

  /**
   * The generated id `runtime-<hash of run, role, turn, index, name and arguments>`;
   * run, role and turn are fixed while one response is canonicalised.
   */
  type Digest = (nat, string, string) -> string

  ghost predicate SolidId(base: string) {
    base != "" && forall c | c in base :: !Space(c)
  }

  ghost predicate SolidDigest(digest: Digest) {
    forall i: nat, name, args :: SolidId(digest(i, name, args))
  }

  function NumberedId(base: string, suffix: nat): string {
    if suffix == 0 then base else base + "-" + Decimal(suffix)
  }

  lemma NumberedIdInjective(base: string, i: nat, j: nat)
    requires NumberedId(base, i) == NumberedId(base, j)
    ensures i == j
  {
    if i > 0 && j > 0 {
      assert NumberedId(base, i)[|base| + 1..] == Decimal(i);
      assert NumberedId(base, j)[|base| + 1..] == Decimal(j);
      DecimalInjective(i, j);
    }
  }

  /** The used ids that some suffix from `k` on could still produce. */
  ghost function Ahead(base: string, seen: set<string>, k: nat): set<string> {
    set x | x in seen && exists j: nat :: k <= j && x == NumberedId(base, j)
  }

  lemma AheadShrinks(base: string, seen: set<string>, k: nat)
    requires NumberedId(base, k) in seen
    ensures Ahead(base, seen, k + 1) < Ahead(base, seen, k)
  {
    var x := NumberedId(base, k);
    assert x in Ahead(base, seen, k);
    if x in Ahead(base, seen, k + 1) {
      var j: nat :| k + 1 <= j && x == NumberedId(base, j);
      NumberedIdInjective(base, k, j);
    }
  }

  ghost predicate AllTaken(base: string, seen: set<string>, k: nat, j: nat) {
    forall i: nat :: k <= i < j ==> NumberedId(base, i) in seen
  }

  /** The first numbered variant of `base` from suffix `k` on that is unused. */
  function FreeId(base: string, seen: set<string>, k: nat): (id: string)
    ensures id !in seen
    ensures exists j: nat :: k <= j && id == NumberedId(base, j)
    decreases Ahead(base, seen, k)
  {
    var id := NumberedId(base, k);
    if id in seen then AheadShrinks(base, seen, k); FreeId(base, seen, k + 1) else id
  }

  lemma {:induction false} FirstFree(base: string, seen: set<string>, k: nat) returns (n: nat)
    ensures k <= n && FreeId(base, seen, k) == NumberedId(base, n) && AllTaken(base, seen, k, n)
    decreases Ahead(base, seen, k)
  {
    if NumberedId(base, k) in seen {
      AheadShrinks(base, seen, k);
      n := FirstFree(base, seen, k + 1);
    } else {
      n := k;
    }
  }

  function IdSet(calls: seq<ToolCall>): set<string> {
    set c | c in calls :: c.id
  }

  /** A call keeps its stripped id unless that is empty or already taken. */
  predicate KeepsId(call: ToolCall, before: seq<ToolCall>) {
    Strip(call.id) != "" && Strip(call.id) !in IdSet(before)
  }

  function CanonicalId(call: ToolCall, before: seq<ToolCall>, digest: Digest): (id: string)
    ensures id !in IdSet(before)
    ensures KeepsId(call, before) ==> id == Strip(call.id)
  {
    if KeepsId(call, before) then Strip(call.id)
    else FreeId(digest(|before|, call.name, call.args), IdSet(before), 0)
  }

  /** The first `n` calls with canonical ids. */
  function CanonicalPrefix(calls: seq<ToolCall>, n: nat, digest: Digest): (out: seq<ToolCall>)
    requires n <= |calls|
    ensures |out| == n
  {
    if n == 0 then []
    else
      var before := CanonicalPrefix(calls, n - 1, digest);
      before + [calls[n - 1].(id := CanonicalId(calls[n - 1], before, digest))]
  }

  function CanonicalCalls(calls: seq<ToolCall>, digest: Digest): (out: seq<ToolCall>)
    ensures |out| == |calls|
  {
    CanonicalPrefix(calls, |calls|, digest)
  }

  function IdDefects(calls: seq<ToolCall>, n: nat, digest: Digest): seq<Diagnostic>
    requires n <= |calls|
  {
    if n == 0 then []
    else IdDefects(calls, n - 1, digest) + IdDefect(calls[n - 1], CanonicalPrefix(calls, n - 1, digest), digest)
  }

  function IdDefect(call: ToolCall, before: seq<ToolCall>, digest: Digest): seq<Diagnostic> {
    if KeepsId(call, before) then []
    else [Diagnostic(if Strip(call.id) == "" then MissingToolCallId else DuplicateToolCallId,
                     Some(CanonicalId(call, before, digest)))]
  }

  function Canonicalized(message: Message, digest: Digest): Message {
    if message.Calling() then message.(calls := CanonicalCalls(message.calls, digest)) else message
  }

  method FirstFreeId(base: string, seen: set<string>) returns (callId: string)
    ensures callId == FreeId(base, seen, 0)
  {
    callId := base;
    var suffix := 0;
    while callId in seen
      invariant callId == NumberedId(base, suffix)
      invariant FreeId(base, seen, 0) == FreeId(base, seen, suffix)
      decreases Ahead(base, seen, suffix)
    {
      AheadShrinks(base, seen, suffix);
      suffix := suffix + 1;
      callId := base + "-" + Decimal(suffix);
    }
  }

  /** The id of one call, and the defect if it could not keep its own. */
  method CanonicalizeCall(calls: seq<ToolCall>, index: nat, seen: set<string>, ghost before: seq<ToolCall>, digest: Digest)
    returns (callId: string, defect: seq<Diagnostic>)
    requires index < |calls| && |before| == index && seen == IdSet(before)
    ensures callId == CanonicalId(calls[index], before, digest)
    ensures defect == IdDefect(calls[index], before, digest)
  {
    var call := calls[index];
    callId := Strip(call.id);
    defect := [];
    if callId == "" || callId in seen {
      var code := if callId == "" then MissingToolCallId else DuplicateToolCallId;
      callId := FirstFreeId(digest(index, call.name, call.args), seen);
      defect := [Diagnostic(code, Some(callId))];
    }
  }

  lemma OneMoreId(calls: seq<ToolCall>, call: ToolCall)
    ensures IdSet(calls + [call]) == IdSet(calls) + {call.id}
  {
    assert forall c :: c in calls + [call] <==> c in calls || c == call;
  }

  method CanonicalizeAiToolCalls(message: Message, digest: Digest)
    returns (result: Message, diagnostics: seq<Diagnostic>)
    ensures result == Canonicalized(message, digest)
    ensures diagnostics == if message.Calling() then IdDefects(message.calls, |message.calls|, digest) else []
  {
    if !message.Calling() {
      return message, [];
    }
    var calls := message.calls;
    var seen: set<string> := {};
    var canonical: seq<ToolCall> := [];
    diagnostics := [];
    for index := 0 to |calls|
      invariant canonical == CanonicalPrefix(calls, index, digest)
      invariant seen == IdSet(canonical)
      invariant diagnostics == IdDefects(calls, index, digest)
    {
      var callId, defect := CanonicalizeCall(calls, index, seen, canonical, digest);
      var call := calls[index].(id := callId);
      OneMoreId(canonical, call);
      diagnostics := diagnostics + defect;
      seen := seen + {callId};
      canonical := canonical + [call];
    }
    result := message.(calls := canonical);
  }

  /** Every response leaves with usable ids. */
  lemma {:induction false} CanonicalIdsAreGood(calls: seq<ToolCall>, n: nat, digest: Digest)
    requires n <= |calls| && SolidDigest(digest)
    ensures GoodIds(CanonicalPrefix(calls, n, digest))
  {
    if n > 0 {
      assert SolidId(digest(n - 1, calls[n - 1].name, calls[n - 1].args));
      var before := CanonicalPrefix(calls, n - 1, digest);
      CanonicalIdsAreGood(calls, n - 1, digest);
      forall i | 0 <= i < n - 1 ensures before[i].id in IdSet(before) {
        assert before[i] in before;
      }
    }
  }

  /** Names, arguments and order are untouched. */
  lemma {:induction false} OnlyIdsChange(calls: seq<ToolCall>, n: nat, digest: Digest)
    requires n <= |calls|
    ensures forall i | 0 <= i < n ::
              var out := CanonicalPrefix(calls, n, digest)[i]; out.name == calls[i].name && out.args == calls[i].args
  {
    if n > 0 {
      OnlyIdsChange(calls, n - 1, digest);
      var before, out := CanonicalPrefix(calls, n - 1, digest), CanonicalPrefix(calls, n, digest);
      assert forall i | 0 <= i < n - 1 :: out[i] == before[i];
    }
  }

  ghost predicate DefectAt(calls: seq<ToolCall>, i: nat, digest: Digest, d: Diagnostic)
    requires i < |calls|
  {
    d in IdDefect(calls[i], CanonicalPrefix(calls, i, digest), digest)
  }

  lemma DefectsStep(calls: seq<ToolCall>, n: nat, digest: Digest, d: Diagnostic)
    requires 0 < n <= |calls|
    ensures d in IdDefects(calls, n, digest) <==> d in IdDefects(calls, n - 1, digest) || DefectAt(calls, n - 1, digest, d)
  {
    EitherPart(
      IdDefects(calls, n - 1, digest), IdDefect(calls[n - 1], CanonicalPrefix(calls, n - 1, digest), digest), d);
  }

  ghost predicate DefectBefore(calls: seq<ToolCall>, n: nat, digest: Digest, d: Diagnostic)
    requires n <= |calls|
  {
    exists i: nat :: i < n && DefectAt(calls, i, digest, d)
  }

  lemma DefectBeforeStep(calls: seq<ToolCall>, n: nat, digest: Digest, d: Diagnostic)
    requires 0 < n <= |calls|
    ensures DefectBefore(calls, n, digest, d) <==> DefectBefore(calls, n - 1, digest, d) || DefectAt(calls, n - 1, digest, d)
  {
  }

  lemma {:induction false} DefectsAsIndexed(calls: seq<ToolCall>, n: nat, digest: Digest, d: Diagnostic)
    requires n <= |calls|
    ensures d in IdDefects(calls, n, digest) <==> DefectBefore(calls, n, digest, d)
  {
    if n > 0 {
      DefectsAsIndexed(calls, n - 1, digest, d);
      DefectsStep(calls, n, digest, d);
      DefectBeforeStep(calls, n, digest, d);
    }
  }

  lemma EitherPart(a: seq<Diagnostic>, b: seq<Diagnostic>, d: Diagnostic)
    ensures d in a + b <==> d in a || d in b
  {
  }

  /** A call that cannot keep its id gets the first free variant of the digest of its place, name and arguments. */
  lemma GeneratedId(calls: seq<ToolCall>, i: nat, digest: Digest)
    requires i < |calls|
    requires var id := Strip(calls[i].id); id == "" || exists j: nat :: j < i && CanonicalCalls(calls, digest)[j].id == id
    ensures var base, out := digest(i, calls[i].name, calls[i].args), CanonicalCalls(calls, digest);
      exists n: nat :: out[i].id == NumberedId(base, n)
        && (forall j: nat :: j < i ==> out[j].id != NumberedId(base, n))
        && forall m: nat :: m < n ==> exists j: nat :: j < i && out[j].id == NumberedId(base, m)
  {
    var before, base := CanonicalPrefix(calls, i, digest), digest(i, calls[i].name, calls[i].args);
    TakenIds(calls, i, digest, Strip(calls[i].id));
    CanonicalEntry(calls, i, |calls|, digest);
    var n := FirstFree(base, IdSet(before), 0);
    TakenIds(calls, i, digest, NumberedId(base, n));
    forall m: nat | m < n ensures exists j: nat :: j < i && CanonicalCalls(calls, digest)[j].id == NumberedId(base, m) {
      TakenIds(calls, i, digest, NumberedId(base, m));
    }
  }

  /** A call whose stripped id is neither blank nor taken keeps it. */
  lemma KeptId(calls: seq<ToolCall>, i: nat, digest: Digest)
    requires i < |calls| && Strip(calls[i].id) != ""
    requires forall j: nat :: j < i ==> CanonicalCalls(calls, digest)[j].id != Strip(calls[i].id)
    ensures CanonicalCalls(calls, digest)[i].id == Strip(calls[i].id)
  {
    TakenIds(calls, i, digest, Strip(calls[i].id));
    CanonicalEntry(calls, i, |calls|, digest);
  }

  lemma GeneratedIdIsStripped(base: string, k: nat)
    requires SolidId(base)
    ensures Stripped(NumberedId(base, k))
  {
    var id := NumberedId(base, k);
    assert id[0] == base[0] && base[0] in base;
    if k > 0 {
      var d := Decimal(k);
      assert id[|id| - 1] == d[|d| - 1] && d[|d| - 1] in d;
    } else {
      assert id[|id| - 1] in base;
    }
  }

  lemma CanonicalIdIsKept(call: ToolCall, before: seq<ToolCall>, digest: Digest)
    requires SolidDigest(digest)
    ensures var kept := call.(id := CanonicalId(call, before, digest));
      KeepsId(kept, before) && CanonicalId(kept, before, digest) == kept.id && IdDefect(kept, before, digest) == []
  {
    if !KeepsId(call, before) {
      var base := digest(|before|, call.name, call.args);
      assert SolidId(base);
      var k: nat :| CanonicalId(call, before, digest) == NumberedId(base, k);
      GeneratedIdIsStripped(base, k);
    }
  }

  /** One more call: its canonical id behind those before it. */
  lemma CanonicalStep(calls: seq<ToolCall>, m: nat, digest: Digest)
    requires 0 < m <= |calls|
    ensures var before := CanonicalPrefix(calls, m - 1, digest);
      CanonicalPrefix(calls, m, digest)
      == before + [calls[m - 1].(id := CanonicalId(calls[m - 1], before, digest))]
  {
  }

  lemma LastOfTwo(before: seq<ToolCall>, last: ToolCall, i: nat)
    requires i <= |before|
    ensures (before + [last])[i] == if i < |before| then before[i] else last
  {
  }

  /** Later calls leave the canonical id of an earlier one alone. */
  lemma {:induction false} CanonicalEntry(calls: seq<ToolCall>, i: nat, m: nat, digest: Digest)
    requires i < m <= |calls|
    ensures CanonicalPrefix(calls, m, digest)[i]
         == calls[i].(id := CanonicalId(calls[i], CanonicalPrefix(calls, i, digest), digest))
    decreases m
  {
    var before := CanonicalPrefix(calls, m - 1, digest);
    var last := calls[m - 1].(id := CanonicalId(calls[m - 1], before, digest));
    CanonicalStep(calls, m, digest);
    LastOfTwo(before, last, i);
    if i < m - 1 {
      CanonicalEntry(calls, i, m - 1, digest);
    }
  }

  lemma EarlierEntry(calls: seq<ToolCall>, i: nat, j: nat, digest: Digest)
    requires j < i <= |calls|
    ensures CanonicalPrefix(calls, i, digest)[j] == CanonicalCalls(calls, digest)[j]
  {
    CanonicalEntry(calls, j, i, digest);
    CanonicalEntry(calls, j, |calls|, digest);
  }

  lemma IdsByPosition(calls: seq<ToolCall>, id: string)
    ensures id in IdSet(calls) <==> exists j: nat :: j < |calls| && calls[j].id == id
  {
    if j: nat :| j < |calls| && calls[j].id == id {
      assert calls[j] in calls;
    }
  }

  lemma TakenIds(calls: seq<ToolCall>, i: nat, digest: Digest, id: string)
    requires i <= |calls|
    ensures id in IdSet(CanonicalPrefix(calls, i, digest)) <==>
            exists j: nat :: j < i && CanonicalCalls(calls, digest)[j].id == id
  {
    var before, out := CanonicalPrefix(calls, i, digest), CanonicalCalls(calls, digest);
    IdsByPosition(before, id);
    forall j: nat | j < i ensures before[j] == out[j] {
      EarlierEntry(calls, i, j, digest);
    }
  }

  /** Why the call at `i` cannot keep its id, and what is reported: `out` are the canonical calls. */
  ghost predicate ReportedAt(calls: seq<ToolCall>, out: seq<ToolCall>, i: nat, d: Diagnostic)
    requires i < |calls| == |out|
  {
    && d.callId == Some(out[i].id)
    && if Strip(calls[i].id) == "" then d.code == MissingToolCallId
       else d.code == DuplicateToolCallId && exists j: nat :: j < i && out[j].id == Strip(calls[i].id)
  }

  lemma DefectIs(call: ToolCall, before: seq<ToolCall>, digest: Digest, d: Diagnostic)
    ensures d in IdDefect(call, before, digest) <==>
            && d.callId == Some(CanonicalId(call, before, digest))
            && if Strip(call.id) == "" then d.code == MissingToolCallId
               else d.code == DuplicateToolCallId && Strip(call.id) in IdSet(before)
  {
  }

  lemma OneReport(calls: seq<ToolCall>, i: nat, digest: Digest, d: Diagnostic)
    requires i < |calls|
    ensures DefectAt(calls, i, digest, d) <==> ReportedAt(calls, CanonicalCalls(calls, digest), i, d)
  {
    DefectIs(calls[i], CanonicalPrefix(calls, i, digest), digest, d);
    CanonicalEntry(calls, i, |calls|, digest);
    TakenIds(calls, i, digest, Strip(calls[i].id));
  }

  /**
   * What is reported, call by call: an id that is blank is missing, one that an earlier call of the
   * message ended up with is a duplicate; each report names the id given instead.
   */
  lemma IdReports(calls: seq<ToolCall>, digest: Digest, d: Diagnostic)
    ensures d in IdDefects(calls, |calls|, digest) <==>
            exists i: nat :: i < |calls| && ReportedAt(calls, CanonicalCalls(calls, digest), i, d)
  {
    DefectsAsIndexed(calls, |calls|, digest, d);
    forall i: nat | i < |calls|
      ensures DefectAt(calls, i, digest, d) <==> ReportedAt(calls, CanonicalCalls(calls, digest), i, d)
    {
      OneReport(calls, i, digest, d);
    }
  }

  lemma StableStep(calls: seq<ToolCall>, out: seq<ToolCall>, n: nat, before: seq<ToolCall>, digest: Digest)
    requires 0 < n <= |calls| == |out| && SolidDigest(digest)
    requires CanonicalPrefix(out, n - 1, digest) == before == CanonicalPrefix(calls, n - 1, digest)
    requires out[n - 1] == calls[n - 1].(id := CanonicalId(calls[n - 1], before, digest))
    ensures CanonicalPrefix(out, n, digest) == CanonicalPrefix(calls, n, digest)
    ensures IdDefect(out[n - 1], before, digest) == []
  {
    CanonicalIdIsKept(calls[n - 1], before, digest);
    CanonicalStep(calls, n, digest);
    CanonicalStep(out, n, digest);
  }

  ghost predicate IsCanonical(calls: seq<ToolCall>, out: seq<ToolCall>, digest: Digest) {
    && |out| == |calls|
    && forall i | 0 <= i < |calls| ::
      out[i] == calls[i].(id := CanonicalId(calls[i], CanonicalPrefix(calls, i, digest), digest))
  }

  lemma {:induction false} StablePrefix(calls: seq<ToolCall>, out: seq<ToolCall>, n: nat, digest: Digest)
    requires n <= |calls| && SolidDigest(digest) && IsCanonical(calls, out, digest)
    ensures CanonicalPrefix(out, n, digest) == CanonicalPrefix(calls, n, digest)
    ensures IdDefects(out, n, digest) == []
  {
    if n > 0 {
      StablePrefix(calls, out, n - 1, digest);
      StableStep(calls, out, n, CanonicalPrefix(calls, n - 1, digest), digest);
    }
  }

  /** Canonicalising twice is canonicalising once, and the second pass has nothing to report. */
  lemma CanonicalIsStable(calls: seq<ToolCall>, digest: Digest)
    requires SolidDigest(digest)
    ensures CanonicalCalls(CanonicalCalls(calls, digest), digest) == CanonicalCalls(calls, digest)
    ensures IdDefects(CanonicalCalls(calls, digest), |calls|, digest) == []
  {
    var out := CanonicalCalls(calls, digest);
    forall i | 0 <= i < |calls|
      ensures out[i] == calls[i].(id := CanonicalId(calls[i], CanonicalPrefix(calls, i, digest), digest))
    {
      CanonicalEntry(calls, i, |calls|, digest);
    }
    StablePrefix(calls, out, |calls|, digest);
  }
}
