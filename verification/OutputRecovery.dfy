/**
 * Output-truncation recovery: `invoke_with_output_recovery` (agents/model_recovery.py)
 * and the checkpointed recovery inside the query loop give the same text.
 */
module OutputRecovery {
  import opened Wrappers
  import opened Transcript
  import opened QueryState
  import opened QueryLoop

  datatype Reply = Reply(text: string, truncated: bool)

  function Texts(replies: nat -> Reply, lo: nat, hi: nat): (r: seq<string>)
    requires lo <= hi
    ensures |r| == hi - lo
  {
    seq(hi - lo, i requires 0 <= i < hi - lo => replies(lo + i).text)
  }

  lemma JoinedLast(replies: nat -> Reply, lo: nat, n: nat)
    requires lo <= n
    ensures Texts(replies, lo, n + 1) == Texts(replies, lo, n) + [replies(n).text]
    ensures Texts(replies, lo, n) == [] ==> Joined(Texts(replies, lo, n + 1)) == replies(n).text
  {
    if lo == n {
      assert Texts(replies, lo, n + 1)[1..] == [];
    }
  }

  /** The fragments kept so far with the request for the rest after each. */
  function RecoveryMessages(replies: nat -> Reply, lo: nat, hi: nat): seq<Message>
    requires lo <= hi
    decreases hi - lo
  {
    if lo == hi then []
    else RecoveryMessages(replies, lo, hi - 1)
         + [AI(replies(hi - 1).text, [], OutputFragment), CONTINUATION_REQUEST]
  }

  /** One if the first reply is discarded for a larger output budget, else zero. */
  function Escalations(replies: nat -> Reply, mayEscalate: bool): nat {
    if mayEscalate && replies(0).truncated then 1 else 0
  }

  /** Every reply in `[lo, hi)` was cut off. */
  ghost predicate AllTruncated(replies: nat -> Reply, lo: nat, hi: nat) {
    forall i | lo <= i < hi :: replies(i).truncated
  }

  datatype Request = Request(messages: seq<Message>, override: Option<nat>)

  /** `text.None?` is the exhausted error. */
  datatype Recovered = Recovered(text: Option<string>, requests: seq<Request>)

  /** Each request repeats the conversation and every fragment since the escalation. */
  ghost predicate RequestsRepeat(replies: nat -> Reply, messages: seq<Message>, e: nat, requests: seq<Request>, override: Option<nat>) {
    && (forall i | e <= i < |requests| ::
          requests[i] == Request(messages + RecoveryMessages(replies, e, i), override))
    && (e == 1 && requests != [] ==> requests[0] == Request(messages, None))
  }

  function EscalatedBudget(requested: nat, maximum: nat): nat {
    Min(maximum, Max(requested * 2, requested + 4096))
  }

  /**
   * The result of the standalone recovery. At most two calls beside the continuations are
   * made. Only the first reply can be discarded, for a larger budget. Every request repeats
   * what was kept, and the text is every reply that was kept, in order.
   */
  ghost predicate RecoveredFrom(
    replies: nat -> Reply, messages: seq<Message>,
    requested: nat, maximum: nat, escalationEnabled: bool, continuationLimit: nat, r: Recovered)
  {
    var mayEscalate := escalationEnabled && requested > 0 && maximum > requested;
    var e := Escalations(replies, mayEscalate);
    var calls := |r.requests|;
    && e < calls <= e + continuationLimit + 1 <= continuationLimit + 2
    && AllTruncated(replies, e, calls - 1)
    && (if replies(calls - 1).truncated then r.text.None? && calls == e + continuationLimit + 1
        else r.text == Some(Joined(Texts(replies, e, calls))))
    && RequestsRepeat(replies, messages, e, r.requests, if e == 1 then Some(EscalatedBudget(requested, maximum)) else None)
  }

  method InvokeWithOutputRecovery(
    replies: nat -> Reply, messages: seq<Message>,
    requested: nat, maximum: nat, escalationEnabled: bool, continuationLimit: nat
  ) returns (r: Recovered)
    ensures RecoveredFrom(replies, messages, requested, maximum, escalationEnabled, continuationLimit, r)
  {
    var requestMessages := messages;
    var fragments: seq<string> := [];
    var recoveryMessages: seq<Message> := [];
    var escalationAttempted := false;
    var continuationCount := 0;
    var override: Option<nat> := None;
    var requests: seq<Request> := [];
    ghost var mayEscalate := escalationEnabled && requested > 0 && maximum > requested;
    ghost var e := 0;
    while true
      invariant e == if escalationAttempted then 1 else 0
      invariant escalationAttempted ==> mayEscalate && replies(0).truncated
      invariant mayEscalate && !escalationAttempted ==> requests == []
      invariant |requests| == e + continuationCount && continuationCount <= continuationLimit
      invariant Recovering(replies, messages, e, requests, fragments, recoveryMessages, override)
      invariant requestMessages == messages + recoveryMessages
      invariant override == if e == 1 then Some(EscalatedBudget(requested, maximum)) else None
      decreases if escalationAttempted then 0 else 1, continuationLimit - continuationCount
    {
      var reply := replies(|requests|);
      OneMoreRequest(replies, messages, e, requests, fragments, recoveryMessages, override);
      requests := requests + [Request(requestMessages, override)];
      if !reply.truncated {
        return Recovered(Some(if fragments == [] then reply.text else Joined(fragments + [reply.text])), requests);
      }
      if escalationEnabled && !escalationAttempted && requested > 0 && maximum > requested {
        escalationAttempted := true;
        e := 1;
        override := Some(EscalatedBudget(requested, maximum));
        requestMessages := messages;
        recoveryMessages := [];
        assert messages + [] == messages;
        continue;
      }
      if continuationCount >= continuationLimit {
        return Recovered(None, requests);
      }
      continuationCount := continuationCount + 1;
      fragments := fragments + [reply.text];
      recoveryMessages := recoveryMessages + [AI(reply.text, [], OutputFragment), CONTINUATION_REQUEST];
      requestMessages := messages + recoveryMessages;
    }
  }

  /** Between two model calls: every reply since the escalation was cut off and is kept, in order. */
  ghost predicate Recovering(
    replies: nat -> Reply, messages: seq<Message>, e: nat, requests: seq<Request>, fragments: seq<string>,
    recovery: seq<Message>, override: Option<nat>)
  {
    && e <= |requests|
    && AllTruncated(replies, e, |requests|)
    && fragments == Texts(replies, e, |requests|)
    && recovery == RecoveryMessages(replies, e, |requests|)
    && RequestsRepeat(replies, messages, e, requests, override)
  }

  lemma OneMoreRequest(
      replies: nat -> Reply, messages: seq<Message>, e: nat, requests: seq<Request>, fragments: seq<string>,
      recovery: seq<Message>, override: Option<nat>)
    requires Recovering(replies, messages, e, requests, fragments, recovery, override)
    requires e == 1 ==> requests != []
    ensures var n, reply := |requests|, replies(|requests|);
      var more := requests + [Request(messages + recovery, override)];
      && RequestsRepeat(replies, messages, e, more, override)
      && Joined(Texts(replies, e, n + 1)) == (if fragments == [] then reply.text else Joined(fragments + [reply.text]))
      && (reply.truncated ==>
            Recovering(replies, messages, e, more, fragments + [reply.text],
                       recovery + [AI(reply.text, [], OutputFragment), CONTINUATION_REQUEST], override))
  {
    JoinedLast(replies, e, |requests|);
  }

  // ------------------------------------------------- the same in the query loop

  function ReplyMessage(reply: Reply): Message {
    AI(reply.text, [], Ordinary)
  }

  /** The loop's state after the first `n` tool-free replies of a turn. */
  function TurnAfter(cfg: Config, s: QueryLoopState, replies: nat -> Reply, n: nat)
    : (r: Result<QueryLoopState, AdvanceError>)
    requires s.candidate < |cfg.candidates|
    ensures r.Ok? ==> r.value.candidate == s.candidate
  {
    if n == 0 then Ok(s)
    else
      match TurnAfter(cfg, s, replies, n - 1)
      case Err(error) => Err(error)
      case Ok(t) => AfterModel(cfg, t, Responded(ReplyMessage(replies(n - 1)), replies(n - 1).truncated))
  }

  /** A turn about to call the model, with nothing left over from an earlier recovery. */
  ghost predicate FreshTurn(cfg: Config, s: QueryLoopState) {
    s.candidate < |cfg.candidates| && s.phase == CallingModel && s.terminal.None? && s.output == FRESH_OUTPUT
  }

  function OutputAfter(cfg: Config, s: QueryLoopState, replies: nat -> Reply, n: nat): OutputRecoveryState
    requires s.candidate < |cfg.candidates|
  {
    var e := Min(n, Escalations(replies, CanEscalate(cfg, s)));
    OutputRecoveryState(n - e, e == 1, if e == 1 then Escalated(cfg, s).output.maxOutputTokensOverride else None, Texts(replies, e, n))
  }

  /** The budget the standalone recovery would ask for is the one the loop asks for. */
  lemma SameBudget(cfg: Config, s: QueryLoopState)
    requires s.candidate < |cfg.candidates|
    ensures Escalated(cfg, s).output.maxOutputTokensOverride
         == Some(EscalatedBudget(Requested(cfg, s), MaximumOutput(cfg.candidates[s.candidate], Requested(cfg, s))))
  {
  }

  lemma EscalatingReply(cfg: Config, s: QueryLoopState, reply: Reply)
    requires FreshTurn(cfg, s) && CanEscalate(cfg, s) && reply.truncated
    ensures var r := AfterModel(cfg, s, Responded(ReplyMessage(reply), true));
      && r.Ok? && r.value.phase == CallingModel && r.value.terminal.None? && r.value.candidate == s.candidate
      && r.value.messages == s.messages && r.value.output == Escalated(cfg, s).output
  {
  }

  lemma ContinuingReply(cfg: Config, t: QueryLoopState, reply: Reply)
    requires t.candidate < |cfg.candidates| && t.phase == CallingModel && t.terminal.None? && reply.truncated
    requires !CanEscalate(cfg, t) && t.output.continuationCount < cfg.continuationLimit
    ensures var r := AfterModel(cfg, t, Responded(ReplyMessage(reply), true));
      && r.Ok? && r.value.phase == CallingModel && r.value.terminal.None? && r.value.candidate == t.candidate
      && r.value.messages == t.messages + [AI(reply.text, [], OutputFragment), CONTINUATION_REQUEST]
      && r.value.output == t.output.(continuationCount := t.output.continuationCount + 1,
                                     pendingFragments := t.output.pendingFragments + [reply.text])
  {
  }

  lemma GivingUp(cfg: Config, t: QueryLoopState, reply: Reply)
    requires t.candidate < |cfg.candidates| && t.phase == CallingModel && t.terminal.None? && reply.truncated
    requires !CanEscalate(cfg, t) && t.output.continuationCount >= cfg.continuationLimit
    ensures var r := AfterModel(cfg, t, Responded(ReplyMessage(reply), true));
      r.Ok? && r.value.terminal == Some(QueryTerminal(OutputRecoveryExhausted, NoDetail))
  {
  }

  /** The state in the middle of the recovery: what was kept stands in the transcript and in the fragments. */
  ghost predicate InTheMiddle(cfg: Config, s: QueryLoopState, replies: nat -> Reply, n: nat, t: QueryLoopState)
    requires s.candidate < |cfg.candidates|
  {
    var e := Min(n, Escalations(replies, CanEscalate(cfg, s)));
    && t.phase == CallingModel && t.terminal.None? && t.candidate == s.candidate
    && t.output == OutputAfter(cfg, s, replies, n)
    && t.messages == s.messages + RecoveryMessages(replies, e, n)
  }

  lemma OneMoreReply(cfg: Config, s: QueryLoopState, replies: nat -> Reply, n: nat, t: QueryLoopState)
    requires FreshTurn(cfg, s) && replies(n).truncated && (n > 0 ==> replies(0).truncated)
    requires InTheMiddle(cfg, s, replies, n, t) && (n == 0 ==> t == s)
    requires n < Escalations(replies, CanEscalate(cfg, s)) + cfg.continuationLimit
    ensures var r := AfterModel(cfg, t, Responded(ReplyMessage(replies(n)), true));
      r.Ok? && InTheMiddle(cfg, s, replies, n + 1, r.value)
  {
    var e := Escalations(replies, CanEscalate(cfg, s));
    if n == 0 && e == 1 {
      EscalatingReply(cfg, s, replies(0));
      assert s.messages + RecoveryMessages(replies, 1, 1) == s.messages;
    } else {
      assert !CanEscalate(cfg, t);
      ContinuingReply(cfg, t, replies(n));
      JoinedLast(replies, e, n);
      assert s.messages + RecoveryMessages(replies, e, n + 1)
          == t.messages + [AI(replies(n).text, [], OutputFragment), CONTINUATION_REQUEST];
    }
  }

  lemma {:induction false} TruncatedTurn(cfg: Config, s: QueryLoopState, replies: nat -> Reply, n: nat)
    requires FreshTurn(cfg, s) && AllTruncated(replies, 0, n)
    requires n <= Escalations(replies, CanEscalate(cfg, s)) + cfg.continuationLimit
    ensures var r := TurnAfter(cfg, s, replies, n);
      r.Ok? && InTheMiddle(cfg, s, replies, n, r.value)
  {
    if n == 0 {
      assert s.messages + RecoveryMessages(replies, 0, 0) == s.messages;
    } else {
      TruncatedTurn(cfg, s, replies, n - 1);
      OneMoreReply(cfg, s, replies, n - 1, TurnAfter(cfg, s, replies, n - 1).value);
    }
  }

  lemma RecoveryIsMarked(ms: seq<Message>, replies: nat -> Reply, lo: nat, n: nat)
    requires lo <= n
    ensures Unmarked(ms + RecoveryMessages(replies, lo, n)) == Unmarked(ms)
    decreases n - lo
  {
    if lo == n {
      assert ms + RecoveryMessages(replies, lo, n) == ms;
    } else {
      var before := ms + RecoveryMessages(replies, lo, n - 1);
      var pair := [AI(replies(n - 1).text, [], OutputFragment), CONTINUATION_REQUEST];
      RecoveryIsMarked(ms, replies, lo, n - 1);
      assert ms + RecoveryMessages(replies, lo, n) == before + pair;
      UnmarkedConcat(before, pair);
      assert pair[1..] == [CONTINUATION_REQUEST] && Unmarked(pair[1..]) == [];
    }
  }

  /**
   * When the first reply that is not cut off comes in time, the turn ends with the text
   * of every reply since the escalation, in order.
   */
  lemma QueryRecoversSameText(cfg: Config, s: QueryLoopState, replies: nat -> Reply, n: nat)
    requires FreshTurn(cfg, s)
    requires var e := Escalations(replies, CanEscalate(cfg, s));
             e <= n <= e + cfg.continuationLimit && AllTruncated(replies, e, n) && !replies(n).truncated
    ensures var e := Escalations(replies, CanEscalate(cfg, s));
            var r := TurnAfter(cfg, s, replies, n + 1);
            && r.Ok? && r.value.phase == StopGovernance
            && r.value.messages == Unmarked(s.messages) + [AI(Joined(Texts(replies, e, n + 1)), [], Ordinary)]
  {
    var e := Escalations(replies, CanEscalate(cfg, s));
    assert AllTruncated(replies, 0, n);
    TruncatedTurn(cfg, s, replies, n);
    RecoveryIsMarked(s.messages, replies, e, n);
    JoinedLast(replies, e, n);
  }

  /** With every continuation used there is neither an escalation nor a continuation left. */
  lemma NothingLeftToTry(cfg: Config, s: QueryLoopState, replies: nat -> Reply, n: nat)
    requires FreshTurn(cfg, s) && AllTruncated(replies, 0, n + 1)
    requires n == Escalations(replies, CanEscalate(cfg, s)) + cfg.continuationLimit
    ensures var r := TurnAfter(cfg, s, replies, n);
      && r.Ok? && r.value.phase == CallingModel && r.value.terminal.None? && r.value.candidate == s.candidate
      && !CanEscalate(cfg, r.value) && r.value.output.continuationCount >= cfg.continuationLimit
  {
    TruncatedTurn(cfg, s, replies, n);
  }

  /** When the continuations run out the turn ends with output recovery exhausted. */
  lemma QueryExhaustsLikewise(cfg: Config, s: QueryLoopState, replies: nat -> Reply)
    requires FreshTurn(cfg, s)
    requires var e := Escalations(replies, CanEscalate(cfg, s));
             AllTruncated(replies, e, e + cfg.continuationLimit + 1)
    ensures var e := Escalations(replies, CanEscalate(cfg, s));
            var r := TurnAfter(cfg, s, replies, e + cfg.continuationLimit + 1);
            r.Ok? && r.value.terminal == Some(QueryTerminal(OutputRecoveryExhausted, NoDetail))
  {
    var n := Escalations(replies, CanEscalate(cfg, s)) + cfg.continuationLimit;
    assert AllTruncated(replies, 0, n + 1);
    NothingLeftToTry(cfg, s, replies, n);
    GivingUp(cfg, TurnAfter(cfg, s, replies, n).value, replies(n));
  }

  /** The standalone recovery with the settings of the loop. */
  ghost predicate RecoveredAs(cfg: Config, s: QueryLoopState, replies: nat -> Reply, r: Recovered)
    requires s.candidate < |cfg.candidates|
  {
    var requested := Requested(cfg, s);
    RecoveredFrom(replies, s.messages, requested, MaximumOutput(cfg.candidates[s.candidate], requested),
                  cfg.escalation, cfg.continuationLimit, r)
  }

  lemma SameCalls(cfg: Config, s: QueryLoopState, replies: nat -> Reply, r: Recovered)
    requires FreshTurn(cfg, s) && RecoveredAs(cfg, s, replies, r)
    ensures var e := Escalations(replies, CanEscalate(cfg, s));
      && e < |r.requests| <= e + cfg.continuationLimit + 1
      && AllTruncated(replies, 0, |r.requests| - 1)
      && RequestsRepeat(replies, s.messages, e, r.requests,
                        if e == 1 then Escalated(cfg, s).output.maxOutputTokensOverride else None)
  {
    SameBudget(cfg, s);
  }

  /** Before each call the transcript and the output budget are those of the standalone request. */
  lemma SameRequest(cfg: Config, s: QueryLoopState, replies: nat -> Reply, r: Recovered, i: nat)
    requires FreshTurn(cfg, s) && RecoveredAs(cfg, s, replies, r) && i < |r.requests|
    ensures var t := TurnAfter(cfg, s, replies, i);
      && t.Ok? && t.value.phase == CallingModel
      && r.requests[i] == Request(t.value.messages, t.value.output.maxOutputTokensOverride)
  {
    SameCalls(cfg, s, replies, r);
    TruncatedTurn(cfg, s, replies, i);
    assert s.messages + RecoveryMessages(replies, 0, 0) == s.messages;
  }

  /**
   * For one candidate and tool-free replies the checkpointed recovery of the loop and the
   * standalone one make the same requests and come to the same end: the text, or the
   * error that output recovery is exhausted.
   */
  lemma LoopAgreesWithStandalone(cfg: Config, s: QueryLoopState, replies: nat -> Reply, r: Recovered)
    requires FreshTurn(cfg, s) && RecoveredAs(cfg, s, replies, r)
    ensures forall i | 0 <= i < |r.requests| ::
              var t := TurnAfter(cfg, s, replies, i);
              && t.Ok? && t.value.phase == CallingModel
              && r.requests[i] == Request(t.value.messages, t.value.output.maxOutputTokensOverride)
    ensures var end := TurnAfter(cfg, s, replies, |r.requests|);
      && end.Ok?
      && match r.text
         case Some(text) =>
           && end.value.phase == StopGovernance
           && end.value.messages == Unmarked(s.messages) + [AI(text, [], Ordinary)]
         case None => end.value.terminal == Some(QueryTerminal(OutputRecoveryExhausted, NoDetail))
  {
    forall i | 0 <= i < |r.requests|
      ensures var t := TurnAfter(cfg, s, replies, i);
        && t.Ok? && t.value.phase == CallingModel
        && r.requests[i] == Request(t.value.messages, t.value.output.maxOutputTokensOverride)
    {
      SameRequest(cfg, s, replies, r, i);
    }
    SameEnd(cfg, s, replies, r);
  }

  lemma SameEnd(cfg: Config, s: QueryLoopState, replies: nat -> Reply, r: Recovered)
    requires FreshTurn(cfg, s) && RecoveredAs(cfg, s, replies, r)
    ensures var end := TurnAfter(cfg, s, replies, |r.requests|);
      && end.Ok?
      && (r.text.Some? ==>
            && end.value.phase == StopGovernance
            && end.value.messages == Unmarked(s.messages) + [AI(r.text.value, [], Ordinary)])
      && (r.text.None? ==> end.value.terminal == Some(QueryTerminal(OutputRecoveryExhausted, NoDetail)))
  {
    var e := Escalations(replies, CanEscalate(cfg, s));
    if r.text.Some? {
      QueryRecoversSameText(cfg, s, replies, |r.requests| - 1);
    } else {
      assert AllTruncated(replies, e, e + cfg.continuationLimit + 1);
      QueryExhaustsLikewise(cfg, s, replies);
    }
  }

  // ------------------------------------------------------------------ a fallback in between

  lemma {:induction false} JoinedConcat(a: seq<string>, b: seq<string>)
    ensures Joined(a + b) == Joined(a) + Joined(b)
  {
    if a == [] {
      assert a + b == b;
    } else {
      assert (a + b)[1..] == a[1..] + b;
      JoinedConcat(a[1..], b);
    }
  }

  /**
   * A fallback starts a fresh turn on the next candidate, and what was kept before it is no
   * longer in front of the answer. The answer is still the whole text if and only if no
   * characters were kept.
   */
  lemma FallbackForgetsFragments(cfg: Config, s: QueryLoopState, o: ModelOutcome, replies: nat -> Reply, n: nat)
    requires o.Failed? && s.phase == CallingModel && s.terminal.None?
    requires !RetriesContext(cfg, s, o.kind) && FallsBack(cfg, s, o.kind) && o.nextCandidate < |cfg.candidates|
    requires var t := s.(candidate := o.nextCandidate, output := FRESH_OUTPUT);
             var e := Escalations(replies, CanEscalate(cfg, t));
             e <= n <= e + cfg.continuationLimit && AllTruncated(replies, e, n) && !replies(n).truncated
    ensures var fallen := AfterFailure(cfg, s, o);
      && fallen.Ok? && FreshTurn(cfg, fallen.value)
      && var end := TurnAfter(cfg, fallen.value, replies, n + 1);
         var later := Texts(replies, Escalations(replies, CanEscalate(cfg, fallen.value)), n + 1);
         && end.Ok? && end.value.messages == Unmarked(o.sanitized) + [AI(Joined(later), [], Ordinary)]
         && (Joined(later) == Joined(s.output.pendingFragments + later) <==> Joined(s.output.pendingFragments) == "")
  {
    var fallen := AfterFailure(cfg, s, o).value;
    var later := Texts(replies, Escalations(replies, CanEscalate(cfg, fallen)), n + 1);
    QueryRecoversSameText(cfg, fallen, replies, n);
    JoinedConcat(s.output.pendingFragments, later);
  }
}
