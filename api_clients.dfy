/** The decorators and the dispatching client of utilities/api_clients.py:
    a sliding-window rate limiter, retry with exponential backoff, the
    provider registry of `MultiAPIClient` and the image-client factory.
    Times are exact reals; the clock reading and the wrapped function's
    outcome are parameters. */
module RateLimiting {
  import opened Values

  /** The recorded timestamps later than `after`, in order:
      `[call for call in calls if call > after]`. */
  function Recent(calls: seq<real>, after: real): (r: seq<real>)
    ensures |r| <= |calls|
    ensures forall i :: 0 <= i < |r| ==> r[i] > after
  {
    if calls == [] then []
    else (if calls[0] > after then [calls[0]] else []) + Recent(calls[1..], after)
  }

  lemma {:induction false} RecentAppend(calls: seq<real>, t: real, after: real)
    ensures Recent(calls + [t], after) == Recent(calls, after) + (if t > after then [t] else [])
    decreases |calls|
  {
    if calls == [] {
      assert [t][1..] == [];
    } else {
      assert (calls + [t])[1..] == calls[1..] + [t];
      RecentAppend(calls[1..], t, after);
    }
  }

  /** Filtering twice keeps what the stricter filter keeps. */
  lemma {:induction false} RecentRecent(calls: seq<real>, a: real, b: real)
    requires a <= b
    ensures Recent(Recent(calls, a), b) == Recent(calls, b)
    decreases |calls|
  {
    if calls != [] {
      RecentRecent(calls[1..], a, b);
      var head := if calls[0] > a then [calls[0]] else [];
      var rest := Recent(calls[1..], a);
      assert Recent(calls, a) == head + rest;
      RecentConcat(head, rest, b);
    }
  }

  lemma {:induction false} RecentConcat(x: seq<real>, y: seq<real>, after: real)
    ensures Recent(x + y, after) == Recent(x, after) + Recent(y, after)
    decreases |x|
  {
    if x == [] {
      assert x + y == y;
    } else {
      assert (x + y)[0] == x[0];
      assert (x + y)[1..] == x[1..] + y;
      RecentConcat(x[1..], y, after);
    }
  }

  /** A window whose first entry is not after `after` loses at least it. */
  lemma RecentDropsFirst(calls: seq<real>, after: real)
    requires calls != [] && calls[0] <= after
    ensures |Recent(calls, after)| < |calls|
  {
    assert Recent(calls, after) == Recent(calls[1..], after);
  }

  // ---------------------------------------------------------------------------
  // `rate_limit(calls, period)` as written

  /** One pass of the rate-limited wrapper: the window after it and how long
      it slept before invoking the function. */
  datatype Admission = Admission(window: seq<real>, sleep: real)

  /** Python's IndexError for `func.calls[0]` on an empty window, which a
      limit of zero or less reaches. */
  const EMPTY_WINDOW: string := "list index out of range"

  /** The wrapper at clock reading `now`: old entries are dropped; a full
      window makes it sleep until its first entry is a period old and then
      empties it; `now` is recorded either way. */
  function Admit(window: seq<real>, now: real, maxCalls: int, period: real): Result<Admission, string> {
    var recent := Recent(window, now - period);
    if |recent| >= maxCalls then
      if recent == [] then Err(EMPTY_WINDOW)
      else
        var sleep := period - (now - recent[0]);
        if sleep > 0.0 then Ok(Admission([now], sleep)) else Ok(Admission(recent + [now], 0.0))
    else Ok(Admission(recent + [now], 0.0))
  }

  /** After a pass the newest entry is `now` and the others are within the
      period before it; with a limit of at least one the window never
      holds more entries than the limit. Only a limit of zero or less with
      an empty window raises. */
  lemma AdmitSpec(window: seq<real>, now: real, maxCalls: int, period: real)
    ensures Admit(window, now, maxCalls, period).Err? <==> maxCalls <= 0 && Recent(window, now - period) == []
    ensures var r := Admit(window, now, maxCalls, period);
      r.Ok? ==> && r.value.window != [] && r.value.window[|r.value.window| - 1] == now
                && (forall i :: 0 <= i < |r.value.window| - 1 ==> r.value.window[i] > now - period)
                && r.value.sleep >= 0.0
                && (maxCalls >= 1 ==> |r.value.window| <= maxCalls)
  {
  }

  /** The list comprehension that drops old entries. */
  method KeepRecent(calls: seq<real>, after: real) returns (recent: seq<real>)
    ensures recent == Recent(calls, after)
  {
    recent := [];
    for k := 0 to |calls|
      invariant recent == Recent(calls[..k], after)
    {
      RecentAppend(calls[..k], calls[k], after);
      assert calls[..k + 1] == calls[..k] + [calls[k]];
      if calls[k] > after {
        recent := recent + [calls[k]];
      }
    }
    assert calls[..|calls|] == calls;
  }

  /** The wrapper keeps its window in `calls`, the function attribute. */
  class RateLimiter {
    const maxCalls: int
    const period: real
    var calls: seq<real>

    constructor(maxCalls: int, period: real)
      ensures this.maxCalls == maxCalls && this.period == period && calls == []
    {
      this.maxCalls := maxCalls;
      this.period := period;
      calls := [];
    }

    /** One call through the wrapper at clock reading `now`: the time the
        wrapped function is invoked (once), or the exception raised before.
        The old entries are already dropped from `calls` when the exception
        is raised. */
    method Call(now: real) returns (r: Result<real, string>)
      modifies this
      ensures var a := Admit(old(calls), now, maxCalls, period);
        && (a.Err? ==> r == Err(a.error) && calls == Recent(old(calls), now - period) == [])
        && (a.Ok? ==> r == Ok(now + a.value.sleep) && calls == a.value.window)
    {
      calls := KeepRecent(calls, now - period);
      var sleep := 0.0;
      if |calls| >= maxCalls {
        if calls == [] {
          return Err(EMPTY_WINDOW);
        }
        var sleepTime := period - (now - calls[0]);
        if sleepTime > 0.0 {
          sleep := sleepTime;
          calls := [];
        }
      }
      calls := calls + [now];
      return Ok(now + sleep);
    }
  }

  /** The invocation times of a caller that makes one call after another,
      the next one `gaps[k]` after the previous call returned (the first at
      `gaps[0]`), through the wrapper as written. */
  function InvocationsAsWritten(gaps: seq<real>, maxCalls: int, period: real, window: seq<real>, last: real): seq<real>
    decreases |gaps|
  {
    if gaps == [] then []
    else
      var now := last + gaps[0];
      match Admit(window, now, maxCalls, period)
      case Err(_) => []
      case Ok(a) => [now + a.sleep] + InvocationsAsWritten(gaps[1..], maxCalls, period, a.window, now + a.sleep)
  }

  /** How many of the first `k + 1` invocations fall in the period that
      ends with invocation `k`. */
  function InWindow(times: seq<real>, k: nat, period: real): nat
    requires k < |times|
  {
    |Recent(times[..k + 1], times[k] - period)|
  }

  /** With a limit of 2 per period `p` of more than 11 seconds, requests at
      0, p - 10, p - 5 and p + 1 (0, 50, 55 and 61 for a minute): the third
      call sleeps until `p` but records p - 5 and forgets the calls at 0 and
      p - 10, so the fourth goes through at p + 1, the third invocation in
      the period ending there. */
  lemma AsWrittenOverruns(p: real)
    requires p > 11.0
    ensures InvocationsAsWritten([0.0, p - 10.0, 5.0, 1.0], 2, p, [], 0.0) == [0.0, p - 10.0, p, p + 1.0]
    ensures InWindow([0.0, p - 10.0, p, p + 1.0], 3, p) == 3
  {
    var gaps := [0.0, p - 10.0, 5.0, 1.0];
    OverrunFirst(p);
    InvocationStep(gaps, 2, p, [], 0.0, Admission([0.0], 0.0));
    assert gaps[1..] == [p - 10.0, 5.0, 1.0];
    OverrunTail(p);
    assert [0.0] + [p - 10.0, p, p + 1.0] == [0.0, p - 10.0, p, p + 1.0];
    OverrunWindow(p);
  }

  /** One pass of InvocationsAsWritten that does not raise. */
  lemma InvocationStep(gaps: seq<real>, maxCalls: int, period: real, window: seq<real>, last: real, a: Admission)
    requires gaps != [] && Admit(window, last + gaps[0], maxCalls, period) == Ok(a)
    ensures InvocationsAsWritten(gaps, maxCalls, period, window, last) ==
      [last + gaps[0] + a.sleep] + InvocationsAsWritten(gaps[1..], maxCalls, period, a.window, last + gaps[0] + a.sleep)
  {
  }

  lemma OverrunWindow(p: real)
    requires p > 11.0
    ensures InWindow([0.0, p - 10.0, p, p + 1.0], 3, p) == 3
  {
    var times := [0.0, p - 10.0, p, p + 1.0];
    assert times[..4] == times;
    assert times[1..] == [p - 10.0, p, p + 1.0];
    assert Recent(times, 1.0) == Recent([p - 10.0, p, p + 1.0], 1.0);
    RecentAllAfter([p - 10.0, p, p + 1.0], 1.0);
  }

  lemma OverrunTail(p: real)
    requires p > 11.0
    ensures InvocationsAsWritten([p - 10.0, 5.0, 1.0], 2, p, [0.0], 0.0) == [p - 10.0, p, p + 1.0]
  {
    OverrunSecond(p);
    InvocationStep([p - 10.0, 5.0, 1.0], 2, p, [0.0], 0.0, Admission([0.0, p - 10.0], 0.0));
    assert [p - 10.0, 5.0, 1.0][1..] == [5.0, 1.0];
    OverrunThird(p);
    InvocationStep([5.0, 1.0], 2, p, [0.0, p - 10.0], p - 10.0, Admission([p - 5.0], 5.0));
    assert [5.0, 1.0][1..] == [1.0];
    OverrunFourth(p);
    InvocationStep([1.0], 2, p, [p - 5.0], p, Admission([p - 5.0, p + 1.0], 0.0));
    assert [1.0][1..] == [];
    assert [p - 10.0] + ([p] + [p + 1.0]) == [p - 10.0, p, p + 1.0];
  }

  /** The four passes of the run in AsWrittenOverruns. */
  lemma OverrunFirst(p: real)
    requires p > 11.0
    ensures Admit([], 0.0, 2, p) == Ok(Admission([0.0], 0.0))
  {
    assert [] + [0.0] == [0.0];
  }

  lemma OverrunSecond(p: real)
    requires p > 11.0
    ensures Admit([0.0], p - 10.0, 2, p) == Ok(Admission([0.0, p - 10.0], 0.0))
  {
    RecentAllAfter([0.0], -10.0);
    assert [0.0] + [p - 10.0] == [0.0, p - 10.0];
  }

  lemma OverrunThird(p: real)
    requires p > 11.0
    ensures Admit([0.0, p - 10.0], p - 5.0, 2, p) == Ok(Admission([p - 5.0], 5.0))
  {
    RecentAllAfter([0.0, p - 10.0], -5.0);
  }

  lemma OverrunFourth(p: real)
    requires p > 11.0
    ensures Admit([p - 5.0], p + 1.0, 2, p) == Ok(Admission([p - 5.0, p + 1.0], 0.0))
  {
    RecentAllAfter([p - 5.0], 1.0);
    assert [p - 5.0] + [p + 1.0] == [p - 5.0, p + 1.0];
  }

  lemma {:induction false} RecentAllAfter(calls: seq<real>, after: real)
    requires forall i :: 0 <= i < |calls| ==> calls[i] > after
    ensures Recent(calls, after) == calls
    decreases |calls|
  {
    if calls != [] {
      RecentAllAfter(calls[1..], after);
      assert [calls[0]] + calls[1..] == calls;
    }
  }

  // ---------------------------------------------------------------------------
  // The evidently intended limiter

  /** A full window makes the wrapper wait until its first entry is a
      period old; the entries still inside the period ending then are kept
      and the actual invocation time is recorded. */
  datatype Wakeup = Wakeup(window: seq<real>, at: real)

  function AdmitCorrected(window: seq<real>, now: real, maxCalls: int, period: real): (r: Wakeup)
    requires maxCalls >= 1
  {
    var recent := Recent(window, now - period);
    if |recent| >= maxCalls then
      var t := recent[0] + period;
      Wakeup(Recent(recent, t - period) + [t], t)
    else Wakeup(recent + [now], now)
  }

  function InvocationsCorrected(gaps: seq<real>, maxCalls: int, period: real, window: seq<real>, last: real): seq<real>
    requires maxCalls >= 1
    decreases |gaps|
  {
    if gaps == [] then []
    else
      var now := last + gaps[0];
      var a := AdmitCorrected(window, now, maxCalls, period);
      [a.at] + InvocationsCorrected(gaps[1..], maxCalls, period, a.window, a.at)
  }

  /** One corrected pass keeps the window equal to the invocations within
      the period that ends with the newest one, and never longer than the
      limit. */
  lemma {:induction false} AdmitCorrectedStep(hist: seq<real>, window: seq<real>, last: real, now: real, maxCalls: int, period: real)
    requires maxCalls >= 1 && period > 0.0 && now >= last
    requires window == Recent(hist, last - period) && |window| <= maxCalls
    ensures var a := AdmitCorrected(window, now, maxCalls, period); var t := a.at;
      && t >= now
      && a.window == Recent(hist + [t], t - period)
      && |a.window| <= maxCalls
  {
    RecentRecent(hist, last - period, now - period);
    if |Recent(window, now - period)| >= maxCalls {
      FullWindowCase(hist, window, now, maxCalls, period);
    } else {
      RoomyWindowCase(hist, window, now, maxCalls, period);
    }
  }

  lemma FullWindowCase(hist: seq<real>, window: seq<real>, now: real, maxCalls: int, period: real)
    requires maxCalls >= 1 && period > 0.0 && |window| <= maxCalls
    requires Recent(window, now - period) == Recent(hist, now - period)
    requires |Recent(window, now - period)| >= maxCalls
    ensures var a := AdmitCorrected(window, now, maxCalls, period); var t := a.at;
      && t >= now
      && a.window == Recent(hist + [t], t - period)
      && |a.window| <= maxCalls
  {
    AdmitCorrectedFull(window, now, maxCalls, period);
    var a := AdmitCorrected(window, now, maxCalls, period);
    FullWindowStep(hist, Recent(window, now - period), now, maxCalls, period, a.at);
  }

  /** AdmitCorrected on a full window. */
  lemma AdmitCorrectedFull(window: seq<real>, now: real, maxCalls: int, period: real)
    requires maxCalls >= 1 && |Recent(window, now - period)| >= maxCalls
    ensures var a := AdmitCorrected(window, now, maxCalls, period);
      a.at == Recent(window, now - period)[0] + period &&
      a.window == Recent(Recent(window, now - period), a.at - period) + [a.at]
  {
  }

  lemma RoomyWindowCase(hist: seq<real>, window: seq<real>, now: real, maxCalls: int, period: real)
    requires maxCalls >= 1 && period > 0.0
    requires Recent(window, now - period) == Recent(hist, now - period)
    requires |Recent(window, now - period)| < maxCalls
    ensures var a := AdmitCorrected(window, now, maxCalls, period); var t := a.at;
      && t >= now
      && a.window == Recent(hist + [t], t - period)
      && |a.window| <= maxCalls
  {
    RoomyWindowStep(hist, Recent(window, now - period), now, period);
  }

  lemma {:induction false} RoomyWindowStep(hist: seq<real>, recent: seq<real>, now: real, period: real)
    requires period > 0.0 && recent == Recent(hist, now - period)
    ensures recent + [now] == Recent(hist + [now], now - period)
  {
    RecentAppend(hist, now, now - period);
  }

  /** A full window: the wait ends when its first entry is a period old,
      which drops that entry. */
  lemma {:induction false} FullWindowStep(hist: seq<real>, recent: seq<real>, now: real, maxCalls: int, period: real, t: real)
    requires maxCalls >= 1 && period > 0.0
    requires recent == Recent(hist, now - period) && |recent| == maxCalls
    requires t == recent[0] + period
    ensures t > now
    ensures |Recent(recent, t - period) + [t]| <= maxCalls
    ensures Recent(recent, t - period) + [t] == Recent(hist + [t], t - period)
  {
    assert recent[0] > now - period;
    assert t - period == recent[0];
    RecentRecent(hist, now - period, t - period);
    RecentDropsFirst(recent, t - period);
    RecentAppend(hist, t, t - period);
  }

  /** InWindow, for invocations that follow the earlier ones in `prefix`. */
  function InWindowAfter(prefix: seq<real>, times: seq<real>, k: nat, period: real): nat
    requires k < |times|
  {
    |Recent(prefix + times[..k + 1], times[k] - period)|
  }

  predicate WithinLimit(prefix: seq<real>, times: seq<real>, maxCalls: int, period: real) {
    forall k :: 0 <= k < |times| ==> InWindowAfter(prefix, times, k, period) <= maxCalls
  }

  lemma {:induction false} WithinLimitCons(prefix: seq<real>, t: real, rest: seq<real>, maxCalls: int, period: real)
    requires |Recent(prefix + [t], t - period)| <= maxCalls
    requires WithinLimit(prefix + [t], rest, maxCalls, period)
    ensures WithinLimit(prefix, [t] + rest, maxCalls, period)
  {
    var times := [t] + rest;
    forall k | 0 <= k < |times| ensures InWindowAfter(prefix, times, k, period) <= maxCalls {
      if k == 0 {
        assert times[..1] == [t];
      } else {
        var j := k - 1;
        assert InWindowAfter(prefix + [t], rest, j, period) <= maxCalls;
        assert times[k] == rest[j];
        assert prefix + times[..k + 1] == (prefix + [t]) + rest[..j + 1];
      }
    }
  }

  lemma {:induction false} InvocationsCorrectedBound(gaps: seq<real>, maxCalls: int, period: real,
                                                     hist: seq<real>, window: seq<real>, last: real)
    requires maxCalls >= 1 && period > 0.0
    requires forall i :: 0 <= i < |gaps| ==> gaps[i] >= 0.0
    requires window == Recent(hist, last - period) && |window| <= maxCalls
    ensures WithinLimit(hist, InvocationsCorrected(gaps, maxCalls, period, window, last), maxCalls, period)
    decreases |gaps|
  {
    if gaps != [] {
      var now := last + gaps[0];
      var a := AdmitCorrected(window, now, maxCalls, period);
      var t := a.at;
      AdmitCorrectedStep(hist, window, last, now, maxCalls, period);
      InvocationsCorrectedBound(gaps[1..], maxCalls, period, hist + [t], a.window, t);
      WithinLimitCons(hist, t, InvocationsCorrected(gaps[1..], maxCalls, period, a.window, t), maxCalls, period);
    }
  }

  /** With the correction, every invocation is at most the `maxCalls`-th in
      the period that ends with it. */
  lemma CorrectedWithinLimit(gaps: seq<real>, maxCalls: int, period: real)
    requires maxCalls >= 1 && period > 0.0
    requires forall i :: 0 <= i < |gaps| ==> gaps[i] >= 0.0
    ensures var times := InvocationsCorrected(gaps, maxCalls, period, [], 0.0);
      forall k :: 0 <= k < |times| ==> InWindow(times, k, period) <= maxCalls
  {
    InvocationsCorrectedBound(gaps, maxCalls, period, [], [], 0.0);
    var times := InvocationsCorrected(gaps, maxCalls, period, [], 0.0);
    forall k | 0 <= k < |times| ensures InWindow(times, k, period) <= maxCalls {
      assert InWindowAfter([], times, k, period) <= maxCalls;
      assert [] + times[..k + 1] == times[..k + 1];
    }
  }
}

module Retrying {
  import opened Values

  function Pow2(k: nat): (r: nat)
    ensures r >= 1
  {
    if k == 0 then 1 else 2 * Pow2(k - 1)
  }

  /** `delay * (2 ** attempt)`, the wait after failed attempt `attempt`. */
  function Backoff(delay: real, attempt: nat): real {
    delay * Pow2(attempt) as real
  }

  /** Python's TypeError for `raise None`, reached when no attempt was made. */
  const RAISE_NONE: string := "exceptions must derive from BaseException"

  /** The ValueError `time.sleep` raises for a negative wait. It is raised
      inside the `except` block, so it leaves the wrapper at once. */
  const SLEEP_NEGATIVE: string := "sleep length must be non-negative"

  /** What `retry_on_error(max_retries, delay)` does when attempt `k` of the
      function ends as `attempt(k)`: the result, the number of attempts and
      the waits completed between them. */
  datatype Retried = Retried(result: Result<Value, string>, attempts: nat, waits: seq<real>)

  function RetryFrom(k: nat, maxRetries: int, delay: real, attempt: nat -> Result<Value, string>,
                     last: Option<string>): Retried
    decreases if maxRetries > k then maxRetries - k else 0
  {
    if k >= maxRetries then
      Retried(if last.Some? then Err(last.value) else Err(RAISE_NONE), k, [])
    else
      match attempt(k)
      case Ok(v) => Retried(Ok(v), k + 1, [])
      case Err(e) =>
        if k < maxRetries - 1 && Backoff(delay, k) < 0.0 then Retried(Err(SLEEP_NEGATIVE), k + 1, [])
        else
          var rest := RetryFrom(k + 1, maxRetries, delay, attempt, Some(e));
          var wait := if k < maxRetries - 1 then [Backoff(delay, k)] else [];
          Retried(rest.result, rest.attempts, wait + rest.waits)
  }

  function Retry(maxRetries: int, delay: real, attempt: nat -> Result<Value, string>): Retried {
    RetryFrom(0, maxRetries, delay, attempt, None)
  }

  /** The wrapper of `retry_on_error`, looping over the attempts. */
  method RetryLoop(maxRetries: int, delay: real, attempt: nat -> Result<Value, string>)
    returns (result: Result<Value, string>, attempts: nat, waits: seq<real>)
    ensures Retried(result, attempts, waits) == Retry(maxRetries, delay, attempt)
  {
    var last: Option<string> := None;
    waits := [];
    var k: nat := 0;
    while k < maxRetries
      invariant k == 0 || k <= maxRetries
      invariant RetryFrom(0, maxRetries, delay, attempt, None)
             == (var rest := RetryFrom(k, maxRetries, delay, attempt, last);
                 Retried(rest.result, rest.attempts, waits + rest.waits))
      decreases maxRetries - k
    {
      var outcome := attempt(k);
      if outcome.Ok? {
        return outcome, k + 1, waits;
      }
      if k < maxRetries - 1 && Backoff(delay, k) < 0.0 {
        return Err(SLEEP_NEGATIVE), k + 1, waits;
      }
      var rest := RetryFrom(k + 1, maxRetries, delay, attempt, Some(outcome.error));
      var wait := if k < maxRetries - 1 then [Backoff(delay, k)] else [];
      assert waits + (wait + rest.waits) == (waits + wait) + rest.waits;
      last := Some(outcome.error);
      waits := waits + wait;
      k := k + 1;
    }
    result := if last.Some? then Err(last.value) else Err(RAISE_NONE);
    attempts := k;
  }

  /** The wait after a failed attempt is negative exactly when the delay is. */
  lemma BackoffSign(delay: real, attempt: nat)
    ensures Backoff(delay, attempt) < 0.0 <==> delay < 0.0
  {
    var f := Pow2(attempt) as real;
    assert f >= 1.0;
    if delay < 0.0 {
      assert delay * f <= delay * 1.0;
    } else {
      assert delay * f >= 0.0;
    }
  }

  predicate FailedBefore(attempt: nat -> Result<Value, string>, n: int) {
    forall j :: 0 <= j < n ==> attempt(j).Err?
  }

  /** Retrying from attempt `k`: at most `maxRetries` attempts; the first
      success is returned unchanged after the earlier attempts failed; the
      wait after failed attempt `j` is `delay * 2^j`, with none after the
      last attempt; when every attempt fails the last error is raised. A
      negative delay makes the wait after attempt `k`, if one is due, raise
      the sleep error instead, so that attempt is the last. */
  lemma {:induction false} RetryFromSpec(k: nat, maxRetries: int, delay: real, attempt: nat -> Result<Value, string>,
                                         last: Option<string>)
    requires k <= maxRetries || k == 0
    requires last.Some? <==> k > 0
    requires k > 0 ==> attempt(k - 1) == Err(last.value)
    requires FailedBefore(attempt, k)
    ensures var r := RetryFrom(k, maxRetries, delay, attempt, last);
      && k <= r.attempts
      && (r.attempts <= maxRetries || r.attempts == 0)
      && FailedBefore(attempt, r.attempts - 1)
      && (r.result.Ok? ==> r.attempts >= 1 && attempt(r.attempts - 1) == r.result)
      && (delay < 0.0 && k < maxRetries - 1 ==>
            r.attempts == k + 1 && r.waits == [] && (attempt(k).Err? ==> r.result == Err(SLEEP_NEGATIVE)))
      && (r.result.Err? && (delay >= 0.0 || k >= maxRetries - 1) ==>
            r.attempts == (if maxRetries > 0 then maxRetries else 0)
            && (r.attempts > 0 ==> attempt(r.attempts - 1) == r.result)
            && (r.attempts == 0 ==> r.result == Err(RAISE_NONE)))
      && |r.waits| == (if r.result.Ok? then r.attempts - 1 - k else if r.attempts > k then r.attempts - 1 - k else 0)
      && forall j :: 0 <= j < |r.waits| ==> r.waits[j] == Backoff(delay, k + j)
    decreases if maxRetries > k then maxRetries - k else 0
  {
    if k < maxRetries {
      BackoffSign(delay, k);
      match attempt(k)
      case Ok(v) =>
      case Err(e) =>
        if k < maxRetries - 1 && delay < 0.0 {
          return;
        }
        RetryFromSpec(k + 1, maxRetries, delay, attempt, Some(e));
        var rest := RetryFrom(k + 1, maxRetries, delay, attempt, Some(e));
        var wait := if k < maxRetries - 1 then [Backoff(delay, k)] else [];
        var waits := wait + rest.waits;
        if k < maxRetries - 1 {
          forall j | 0 <= j < |waits| ensures waits[j] == Backoff(delay, k + j) {
            if j > 0 {
              assert waits[j] == rest.waits[j - 1];
            }
          }
        }
    }
  }

  /** The whole retry: see RetryFromSpec, from the first attempt. With a
      negative delay and room for a second attempt, the first attempt is the
      only one: its success is returned, its failure raises the sleep error. */
  lemma RetrySpec(maxRetries: int, delay: real, attempt: nat -> Result<Value, string>)
    ensures var r := Retry(maxRetries, delay, attempt);
      && r.attempts <= (if maxRetries > 0 then maxRetries else 0)
      && FailedBefore(attempt, r.attempts - 1)
      && (r.result.Ok? ==> r.attempts >= 1 && attempt(r.attempts - 1) == r.result && |r.waits| == r.attempts - 1)
      && (delay < 0.0 && maxRetries >= 2 ==>
            r.attempts == 1 && r.waits == [] && r.result == (if attempt(0).Ok? then attempt(0) else Err(SLEEP_NEGATIVE)))
      && (r.result.Err? && (delay >= 0.0 || maxRetries < 2) ==>
            r.attempts == (if maxRetries > 0 then maxRetries else 0)
            && (r.attempts > 0 ==> attempt(r.attempts - 1) == r.result && |r.waits| == r.attempts - 1)
            && (r.attempts == 0 ==> r.result == Err(RAISE_NONE) && r.waits == []))
      && forall j :: 0 <= j < |r.waits| ==> r.waits[j] == Backoff(delay, j)
  {
    RetryFromSpec(0, maxRetries, delay, attempt, None);
  }
}

module Clients {
  import opened Values
  import opened Text

  /** `APIProvider` */
  datatype Provider = OpenAI | Gemini | GeminiImage | Pixabay | Unsplash | Pexels | DuckDuckGo | WebScraper

  /** `provider.value` */
  function ProviderValue(p: Provider): string {
    match p
    case OpenAI => "openai"
    case Gemini => "gemini"
    case GeminiImage => "gemini_image"
    case Pixabay => "pixabay"
    case Unsplash => "unsplash"
    case Pexels => "pexels"
    case DuckDuckGo => "duckduckgo"
    case WebScraper => "webscraper"
  }

  /** A client object; `handle` identifies it. */
  datatype Client = Client(handle: nat)

  /** Which client method a dispatch ends in, on which client. */
  datatype Route = Route(client: Client, methodName: string)

  class MultiAPIClient {
    var clients: map<Provider, Client>

    constructor()
      ensures clients == map[]
    {
      clients := map[];
    }

    method AddClient(provider: Provider, client: Client)
      modifies this
      ensures clients == old(clients)[provider := client]
    {
      clients := clients[provider := client];
    }

    method GetClient(provider: Provider) returns (r: Result<Client, string>)
      ensures r == Lookup(clients, provider)
    {
      if provider !in clients {
        return Err("Client for " + ProviderValue(provider) + " not configured");
      }
      return Ok(clients[provider]);
    }

    /** `generate_text`: the client is looked up first, then only OpenAI and
        Gemini are accepted. */
    method GenerateText(provider: Provider) returns (r: Result<Route, string>)
      ensures r == TextRoute(clients, provider)
    {
      var c := GetClient(provider);
      if c.Err? {
        return Err(c.error);
      }
      if provider == OpenAI || provider == Gemini {
        return Ok(Route(c.value, "generate_text"));
      }
      return Err("Text generation not supported for " + ProviderValue(provider));
    }

    /** `search_images`: Pixabay's `search_images`, Unsplash's and Pexels'
        `search_photos`; other providers are refused. */
    method SearchImages(provider: Provider) returns (r: Result<Route, string>)
      ensures r == ImageRoute(clients, provider)
    {
      var c := GetClient(provider);
      if c.Err? {
        return Err(c.error);
      }
      if provider == Pixabay {
        return Ok(Route(c.value, "search_images"));
      } else if provider == Unsplash || provider == Pexels {
        return Ok(Route(c.value, "search_photos"));
      }
      return Err("Image search not supported for " + ProviderValue(provider));
    }
  }

  function Lookup(clients: map<Provider, Client>, provider: Provider): Result<Client, string> {
    if provider in clients then Ok(clients[provider])
    else Err("Client for " + ProviderValue(provider) + " not configured")
  }

  function TextRoute(clients: map<Provider, Client>, provider: Provider): Result<Route, string> {
    match Lookup(clients, provider)
    case Err(e) => Err(e)
    case Ok(c) =>
      if provider == OpenAI || provider == Gemini then Ok(Route(c, "generate_text"))
      else Err("Text generation not supported for " + ProviderValue(provider))
  }

  function ImageRoute(clients: map<Provider, Client>, provider: Provider): Result<Route, string> {
    match Lookup(clients, provider)
    case Err(e) => Err(e)
    case Ok(c) =>
      if provider == Pixabay then Ok(Route(c, "search_images"))
      else if provider == Unsplash || provider == Pexels then Ok(Route(c, "search_photos"))
      else Err("Image search not supported for " + ProviderValue(provider))
  }

  /** A stored client is what a lookup returns, until replaced; a provider
      never added is reported as not configured. */
  lemma LookupAfterAdd(clients: map<Provider, Client>, provider: Provider, client: Client, other: Provider)
    ensures Lookup(clients[provider := client], provider) == Ok(client)
    ensures other != provider ==> Lookup(clients[provider := client], other) == Lookup(clients, other)
    ensures Lookup(map[], other) == Err("Client for " + ProviderValue(other) + " not configured")
  {
  }

  /** Text generation succeeds exactly for a configured OpenAI or Gemini
      client and goes to that client; image search exactly for a configured
      Pixabay, Unsplash or Pexels client. An unconfigured provider is
      reported as such before the provider kind is checked. */
  lemma RoutesSpec(clients: map<Provider, Client>, provider: Provider)
    ensures TextRoute(clients, provider).Ok? <==> provider in clients && provider in {OpenAI, Gemini}
    ensures ImageRoute(clients, provider).Ok? <==> provider in clients && provider in {Pixabay, Unsplash, Pexels}
    ensures TextRoute(clients, provider).Ok? ==> TextRoute(clients, provider).value.client == clients[provider]
    ensures ImageRoute(clients, provider).Ok? ==> ImageRoute(clients, provider).value.client == clients[provider]
    ensures provider !in clients ==> TextRoute(clients, provider) == ImageRoute(clients, provider)
                                     == Err("Client for " + ProviderValue(provider) + " not configured")
  {
  }

  /** The image clients `create_image_client` can build. */
  datatype ImageClientKind = PixabayClient | UnsplashClient | PexelsClient

  /** `create_image_client(provider, api_key)`: the client kind, with the key
      passed on, or ValueError for an unknown name. */
  function CreateImageClient(provider: string, apiKey: Option<string>): (r: Result<(ImageClientKind, Option<string>), string>)
    ensures r.Ok? <==> Lower(provider) in {"pixabay", "unsplash", "pexels"}
    ensures r.Ok? ==> r.value.1 == apiKey
    ensures r.Ok? ==> ProviderName(r.value.0) == Lower(provider)
    ensures r.Err? ==> r.error == "Unknown image provider: " + provider
  {
    var name := Lower(provider);
    if name == "pixabay" then Ok((PixabayClient, apiKey))
    else if name == "unsplash" then Ok((UnsplashClient, apiKey))
    else if name == "pexels" then Ok((PexelsClient, apiKey))
    else Err("Unknown image provider: " + provider)
  }

  function ProviderName(k: ImageClientKind): string {
    match k
    case PixabayClient => "pixabay"
    case UnsplashClient => "unsplash"
    case PexelsClient => "pexels"
  }

  /** Names differing only in ASCII letter case build the same client. */
  lemma CreateImageClientIgnoresCase(a: string, b: string, key: Option<string>)
    requires Lower(a) == Lower(b)
    ensures CreateImageClient(a, key).Ok? <==> CreateImageClient(b, key).Ok?
    ensures CreateImageClient(a, key).Ok? ==> CreateImageClient(a, key) == CreateImageClient(b, key)
  {
  }
}
