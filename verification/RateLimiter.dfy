/** The fixed-window rate limiter and what its windows admit (api_governance.py). */
module RateLimiter {
  import opened Wrappers

  datatype Window = Window(startedAt: real, count: int)

  type Windows = map<string, Window>

  datatype Decision = Decision(allowed: bool, retryAfter: int)

  const ADMITTED := Decision(true, 0)
  const CLEANUP_SIZE := 1000

  predicate Expired(window: Window, seconds: real, now: real) {
    now - window.startedAt >= seconds
  }

  /** The whole seconds the caller is told to wait: the rest of the window, rounded up to a millisecond's grace. */
  function RetryAfter(window: Window, seconds: real, now: real): int {
    var rest := (seconds - (now - window.startedAt) + 0.999).Floor;
    if rest > 1 then rest else 1
  }

  /** One key's window after a call, and the decision. */
  function Decide(window: Option<Window>, limit: int, seconds: real, now: real): (Window, Decision)
    requires window.Some? || limit > 0
  {
    if window.None? || Expired(window.value, seconds, now) then (Window(now, 1), ADMITTED)
    else if window.value.count >= limit then (window.value, Decision(false, RetryAfter(window.value, seconds, now)))
    else (Window(window.value.startedAt, window.value.count + 1), ADMITTED)
  }

  function Lookup(windows: Windows, key: string): Option<Window> {
    if key in windows then Some(windows[key]) else None
  }

  function Swept(windows: Windows, seconds: real, now: real): Windows {
    if |windows| < CLEANUP_SIZE then windows
    else map key | key in windows && windows[key].startedAt >= now - seconds * 2.0 :: windows[key]
  }

  class FixedWindowRateLimiter {
    var windows: Windows

    constructor ()
      ensures windows == map[]
    {
      windows := map[];
    }

    method Allow(key: string, limit: int, seconds: real, now: real) returns (allowed: bool, retryAfter: int)
      modifies this
      ensures (windows, Decision(allowed, retryAfter)) == AllowStep(old(windows), key, limit, seconds, now)
    {
      if limit <= 0 {
        return true, 0;
      }
      var window := Lookup(windows, key);
      if window.None? || now - window.value.startedAt >= seconds {
        windows := windows[key := Window(now, 1)];
        Cleanup(now, seconds);
        return true, 0;
      }
      if window.value.count >= limit {
        var rest := (seconds - (now - window.value.startedAt) + 0.999).Floor;
        assert windows[key := windows[key]] == windows;
        return false, if rest > 1 then rest else 1;
      }
      windows := windows[key := window.value.(count := window.value.count + 1)];
      return true, 0;
    }

    method Cleanup(now: real, seconds: real)
      modifies this
      ensures windows == Swept(old(windows), seconds, now)
    {
      if |windows| < CLEANUP_SIZE {
        return;
      }
      var cutoff := now - seconds * 2.0;
      windows := map key | key in windows && windows[key].startedAt >= cutoff :: windows[key];
    }
  }

  /** One call on the limiter as it is, which sweeps stale windows whenever it opens a new one. */
  function AllowStep(windows: Windows, key: string, limit: int, seconds: real, now: real): (Windows, Decision) {
    if limit <= 0 then (windows, ADMITTED)
    else
      var before := Lookup(windows, key);
      var (after, decision) := Decide(before, limit, seconds, now);
      var updated := windows[key := after];
      (if before.None? || Expired(before.value, seconds, now) then Swept(updated, seconds, now) else updated, decision)
  }

  // ---------------------------------------------------- runs, and a limiter without a sweep

  datatype Request = Request(key: string, limit: int, now: real)

  predicate Ordered(requests: seq<Request>) {
    forall i, j | 0 <= i < j < |requests| :: requests[i].now <= requests[j].now
  }

  /** The decisions the limiter gives to a sequence of requests. */
  function Decisions(windows: Windows, seconds: real, requests: seq<Request>): (ds: seq<Decision>)
    ensures |ds| == |requests|
    decreases |requests|
  {
    if requests == [] then []
    else
      var (after, decision) := AllowStep(windows, requests[0].key, requests[0].limit, seconds, requests[0].now);
      [decision] + Decisions(after, seconds, requests[1..])
  }

  /** The same without ever forgetting a window. */
  function RememberStep(windows: Windows, request: Request, seconds: real): (Windows, Decision) {
    if request.limit <= 0 then (windows, ADMITTED)
    else
      var (after, decision) := Decide(Lookup(windows, request.key), request.limit, seconds, request.now);
      (windows[request.key := after], decision)
  }

  function RememberedDecisions(windows: Windows, seconds: real, requests: seq<Request>): (ds: seq<Decision>)
    ensures |ds| == |requests|
    decreases |requests|
  {
    if requests == [] then []
    else
      var (after, decision) := RememberStep(windows, requests[0], seconds);
      [decision] + RememberedDecisions(after, seconds, requests[1..])
  }

  /** The swept windows are among those remembered, and every other one has run out for good. */
  ghost predicate Forgot(swept: Windows, remembered: Windows, seconds: real, now: real) {
    forall key | key in remembered ::
      (key in swept && swept[key] == remembered[key])
      || (key !in swept && Expired(remembered[key], seconds, now))
  }

  ghost predicate Among(swept: Windows, remembered: Windows) {
    forall key | key in swept :: key in remembered
  }

  lemma StepKeepsForgot(swept: Windows, remembered: Windows, seconds: real, request: Request)
    requires seconds >= 0.0 && Forgot(swept, remembered, seconds, request.now) && Among(swept, remembered)
    ensures var a := AllowStep(swept, request.key, request.limit, seconds, request.now);
      var b := RememberStep(remembered, request, seconds);
      a.1 == b.1 && Forgot(a.0, b.0, seconds, request.now) && Among(a.0, b.0)
  {
  }

  /** Sweeping never changes a decision: the limiter decides as one that never forgets. */
  lemma {:induction false} CleanupNeverChangesADecision(
      swept: Windows, remembered: Windows, seconds: real, now: real, requests: seq<Request>)
    requires seconds >= 0.0 && Forgot(swept, remembered, seconds, now) && Among(swept, remembered)
    requires Ordered(requests) && (requests != [] ==> now <= requests[0].now)
    ensures Decisions(swept, seconds, requests) == RememberedDecisions(remembered, seconds, requests)
    decreases |requests|
  {
    if requests != [] {
      var first := requests[0];
      assert Forgot(swept, remembered, seconds, first.now);
      StepKeepsForgot(swept, remembered, seconds, first);
      var a := AllowStep(swept, first.key, first.limit, seconds, first.now);
      var b := RememberStep(remembered, first, seconds);
      CleanupNeverChangesADecision(a.0, b.0, seconds, first.now, requests[1..]);
    }
  }

  // ------------------------------------------------------------------ what one key is given

  /** The window of one key after its requests, seen alone. */
  function WindowAfter(requests: seq<Request>, key: string, limit: int, seconds: real): Option<Window>
    requires limit > 0
    decreases |requests|
  {
    if requests == [] then None
    else
      var before := WindowAfter(requests[..|requests| - 1], key, limit, seconds);
      var last := requests[|requests| - 1];
      if last.key == key then Some(Decide(before, limit, seconds, last.now).0) else before
  }

  /** Whether the last of the requests was for the key and admitted. */
  predicate LastAdmitted(requests: seq<Request>, key: string, limit: int, seconds: real)
    requires limit > 0 && requests != []
  {
    var last := requests[|requests| - 1];
    last.key == key
    && Decide(WindowAfter(requests[..|requests| - 1], key, limit, seconds), limit, seconds, last.now).1.allowed
  }

  /** How many requests of the key were admitted at or after `from`. */
  function AdmittedSince(requests: seq<Request>, key: string, limit: int, seconds: real, from: real): nat
    requires limit > 0
    decreases |requests|
  {
    if requests == [] then 0
    else
      AdmittedSince(requests[..|requests| - 1], key, limit, seconds, from)
      + if LastAdmitted(requests, key, limit, seconds) && requests[|requests| - 1].now >= from then 1 else 0
  }

  /** How many were admitted in the half-open interval of one window length. */
  function AdmittedWithin(requests: seq<Request>, key: string, limit: int, seconds: real, from: real): nat
    requires limit > 0
    decreases |requests|
  {
    if requests == [] then 0
    else
      AdmittedWithin(requests[..|requests| - 1], key, limit, seconds, from)
      + if LastAdmitted(requests, key, limit, seconds) && from <= requests[|requests| - 1].now < from + seconds then 1
        else 0
  }

  /** Around the current window: it holds what was admitted since it opened, and the one before held at most the limit. */
  ghost predicate WindowBound(requests: seq<Request>, key: string, limit: int, seconds: real, from: real)
    requires limit > 0
  {
    match WindowAfter(requests, key, limit, seconds)
    case None => AdmittedSince(requests, key, limit, seconds, from) == 0
    case Some(window) =>
      && 1 <= window.count <= limit
      && (requests != [] ==> window.startedAt <= requests[|requests| - 1].now)
      && (from >= window.startedAt ==> AdmittedSince(requests, key, limit, seconds, from) <= window.count)
      && (from >= window.startedAt + seconds ==> AdmittedSince(requests, key, limit, seconds, from) == 0)
      && (from > window.startedAt - seconds ==> AdmittedSince(requests, key, limit, seconds, from) <= limit + window.count)
  }

  lemma {:induction false} BoundHolds(requests: seq<Request>, key: string, limit: int, seconds: real, from: real)
    requires limit > 0 && seconds > 0.0 && Ordered(requests)
    ensures WindowBound(requests, key, limit, seconds, from)
    ensures AdmittedWithin(requests, key, limit, seconds, from) <= AdmittedSince(requests, key, limit, seconds, from)
    ensures AdmittedWithin(requests, key, limit, seconds, from) <= 2 * limit
    decreases |requests|
  {
    if requests != [] {
      BoundHolds(requests[..|requests| - 1], key, limit, seconds, from);
    }
  }

  /** The remembered windows are each key's own. */
  ghost predicate OwnWindows(windows: Windows, before: seq<Request>, limit: int, seconds: real)
    requires limit > 0
  {
    forall key :: Lookup(windows, key) == WindowAfter(before, key, limit, seconds)
  }

  lemma RememberOneMore(windows: Windows, before: seq<Request>, limit: int, seconds: real, request: Request)
    requires limit > 0 && request.limit == limit && OwnWindows(windows, before, limit, seconds)
    ensures OwnWindows(RememberStep(windows, request, seconds).0, before + [request], limit, seconds)
    ensures RememberStep(windows, request, seconds).1
         == Decide(WindowAfter(before, request.key, limit, seconds), limit, seconds, request.now).1
  {
    assert (before + [request])[..|before|] == before;
  }

  /** Every decision of the limiter that never forgets depends on its key's window alone. */
  lemma {:induction false} RememberedByKey(
      windows: Windows, before: seq<Request>, after: seq<Request>, limit: int, seconds: real, i: nat)
    requires limit > 0 && OwnWindows(windows, before, limit, seconds) && i < |after|
    requires forall r | r in after :: r.limit == limit
    ensures RememberedDecisions(windows, seconds, after)[i]
         == Decide(WindowAfter(before + after[..i], after[i].key, limit, seconds), limit, seconds, after[i].now).1
    decreases |after|
  {
    RememberOneMore(windows, before, limit, seconds, after[0]);
    if i == 0 {
      assert before + after[..0] == before;
    } else {
      var next := RememberStep(windows, after[0], seconds).0;
      RememberedByKey(next, before + [after[0]], after[1..], limit, seconds, i - 1);
      assert before + [after[0]] + after[1..][..i - 1] == before + after[..i];
    }
  }

  /** Among the first `n` requests, how many of the key were admitted within one window length from `from`. */
  function Admitted(requests: seq<Request>, ds: seq<Decision>, n: nat, key: string, seconds: real, from: real): nat
    requires |ds| == |requests| && n <= |requests|
  {
    if n == 0 then 0
    else
      var r := requests[n - 1];
      Admitted(requests, ds, n - 1, key, seconds, from)
      + if r.key == key && ds[n - 1].allowed && from <= r.now < from + seconds then 1 else 0
  }

  lemma {:induction false} AdmittedIsWithin(requests: seq<Request>, n: nat, key: string, limit: int, seconds: real, from: real)
    requires limit > 0 && n <= |requests| && forall r | r in requests :: r.limit == limit
    ensures Admitted(requests, RememberedDecisions(map[], seconds, requests), n, key, seconds, from)
         == AdmittedWithin(requests[..n], key, limit, seconds, from)
  {
    if n > 0 {
      AdmittedIsWithin(requests, n - 1, key, limit, seconds, from);
      RememberedByKey(map[], [], requests, limit, seconds, n - 1);
      assert [] + requests[..n - 1] == requests[..n - 1];
      assert requests[..n][..n - 1] == requests[..n - 1];
    }
  }

  /** However a fixed limit is used, a key is admitted at most twice the limit in any interval of one window length. */
  lemma AtMostTwiceTheLimit(requests: seq<Request>, key: string, limit: int, seconds: real, from: real)
    requires limit > 0 && seconds > 0.0 && Ordered(requests) && forall r | r in requests :: r.limit == limit
    ensures Admitted(requests, Decisions(map[], seconds, requests), |requests|, key, seconds, from) <= 2 * limit
  {
    if requests != [] {
      CleanupNeverChangesADecision(map[], map[], seconds, requests[0].now, requests);
    }
    AdmittedIsWithin(requests, |requests|, key, limit, seconds, from);
    assert requests[..|requests|] == requests;
    BoundHolds(requests, key, limit, seconds, from);
  }

  // ------------------------------------------------------------- nobody else is rejected

  /** The current window counts what was admitted since it opened. */
  lemma {:induction false} CountIsAdmitted(requests: seq<Request>, key: string, limit: int, seconds: real)
    requires limit > 0 && seconds > 0.0 && Ordered(requests)
    ensures match WindowAfter(requests, key, limit, seconds)
            case None => true
            case Some(window) =>
              && requests != [] && window.startedAt <= requests[|requests| - 1].now
              && AdmittedSince(requests, key, limit, seconds, window.startedAt) == window.count
    decreases |requests|
  {
    if requests != [] {
      var init, last := requests[..|requests| - 1], requests[|requests| - 1];
      CountIsAdmitted(init, key, limit, seconds);
      if last.key == key {
        BoundHolds(init, key, limit, seconds, last.now);
      }
    }
  }

  lemma {:induction false} SinceIsWithin(requests: seq<Request>, key: string, limit: int, seconds: real, from: real)
    requires limit > 0 && forall r | r in requests :: r.now < from + seconds
    ensures AdmittedWithin(requests, key, limit, seconds, from) == AdmittedSince(requests, key, limit, seconds, from)
    decreases |requests|
  {
    if requests != [] {
      SinceIsWithin(requests[..|requests| - 1], key, limit, seconds, from);
    }
  }

  /**
   * A request is rejected only if the limit was already admitted within one window length
   * before it, counted from an earlier moment.
   */
  lemma RejectedOnlyWhenFull(before: seq<Request>, request: Request, limit: int, seconds: real) returns (from: real)
    requires limit > 0 && seconds > 0.0 && Ordered(before + [request])
    requires !Decide(WindowAfter(before, request.key, limit, seconds), limit, seconds, request.now).1.allowed
    ensures from <= request.now < from + seconds
    ensures AdmittedWithin(before, request.key, limit, seconds, from) >= limit
  {
    var window := WindowAfter(before, request.key, limit, seconds).value;
    from := window.startedAt;
    forall r | r in before ensures r.now <= request.now {
      var i :| 0 <= i < |before| && before[i] == r;
      assert (before + [request])[i] == r && (before + [request])[|before|] == request;
    }
    assert Ordered(before) by {
      assert forall i | 0 <= i < |before| :: (before + [request])[i] == before[i];
    }
    CountIsAdmitted(before, request.key, limit, seconds);
    SinceIsWithin(before, request.key, limit, seconds, from);
  }

  lemma OrderedPrefix(requests: seq<Request>, i: nat)
    requires i < |requests| && Ordered(requests)
    ensures Ordered(requests[..i] + [requests[i]])
  {
  }

  lemma RejectedByKey(requests: seq<Request>, limit: int, seconds: real, i: nat)
    requires limit > 0 && seconds > 0.0 && Ordered(requests) && (forall r | r in requests :: r.limit == limit)
    requires i < |requests| && !Decisions(map[], seconds, requests)[i].allowed
    ensures !Decide(WindowAfter(requests[..i], requests[i].key, limit, seconds), limit, seconds, requests[i].now).1.allowed
  {
    CleanupNeverChangesADecision(map[], map[], seconds, requests[0].now, requests);
    RememberedByKey(map[], [], requests, limit, seconds, i);
    assert [] + requests[..i] == requests[..i];
  }

  /** Of the decisions the limiter gives, a rejection comes only when its key was admitted `limit` times within one window length. */
  lemma RejectionsAreDue(requests: seq<Request>, limit: int, seconds: real, i: nat) returns (from: real)
    requires limit > 0 && seconds > 0.0 && Ordered(requests) && (forall r | r in requests :: r.limit == limit)
    requires i < |requests| && !Decisions(map[], seconds, requests)[i].allowed
    ensures from <= requests[i].now < from + seconds
    ensures Admitted(requests, Decisions(map[], seconds, requests), i, requests[i].key, seconds, from) >= limit
  {
    CleanupNeverChangesADecision(map[], map[], seconds, requests[0].now, requests);
    RejectedByKey(requests, limit, seconds, i);
    OrderedPrefix(requests, i);
    from := RejectedOnlyWhenFull(requests[..i], requests[i], limit, seconds);
    AdmittedIsWithin(requests, i, requests[i].key, limit, seconds, from);
  }

  /** Without a positive limit everyone is admitted at once and nothing is counted. */
  lemma NoLimitAdmits(windows: Windows, key: string, limit: int, seconds: real, now: real)
    requires limit <= 0
    ensures AllowStep(windows, key, limit, seconds, now) == (windows, Decision(true, 0))
  {
  }

  /** A sweep of many windows leaves those opened at most two window lengths ago, and no others. */
  lemma SweepForgetsStale(windows: Windows, seconds: real, now: real, key: string)
    ensures var swept := Swept(windows, seconds, now);
      && (key in swept ==> key in windows && swept[key] == windows[key])
      && (key in windows ==>
            (key in swept <==> |windows| < 1000 || now - windows[key].startedAt <= 2.0 * seconds))
  {
  }

  /**
   * What a call leaves behind: its own key has the window that decided, every other key keeps its
   * window unless a sweep came by, and a sweep comes by only when a window is opened.
   */
  lemma WindowsAfterCall(windows: Windows, key: string, limit: int, seconds: real, now: real)
    requires limit > 0 && seconds > 0.0
    ensures var after := AllowStep(windows, key, limit, seconds, now).0;
      var open := key in windows && now - windows[key].startedAt < seconds;
      && key in after
      && after[key] == (if !open then Window(now, 1)
                        else if windows[key].count < limit then Window(windows[key].startedAt, windows[key].count + 1)
                        else windows[key])
      && (forall k | k in after && k != key :: k in windows && after[k] == windows[k])
      && forall k | k in windows && (open || now - windows[k].startedAt <= 2.0 * seconds) :: k in after
  {
  }

  /** A rejected caller is told more than the rest of the window less a millisecond, and is admitted after that wait. */
  lemma RetryAfterIsEnough(window: Window, limit: int, seconds: real, now: real, later: real)
    requires !Decide(Some(window), limit, seconds, now).1.allowed
    ensures var retry := Decide(Some(window), limit, seconds, now).1.retryAfter;
      var rest := seconds - (now - window.startedAt);
      && retry >= 1 && retry as real > rest - 0.001
      && (retry > 1 ==> retry as real <= rest + 0.999)
      && (later >= now + retry as real + 0.001 ==> Decide(Some(window), limit, seconds, later).1.allowed)
  {
    var rest := (seconds - (now - window.startedAt) + 0.999).Floor;
    assert rest as real > seconds - (now - window.startedAt) - 0.001;
  }
}
