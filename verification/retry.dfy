/**
 * Bounded retry with exponential backoff around one POST.
 *
 * The server is an oracle giving the outcome of each attempt in turn; the
 * waits between attempts are recorded instead of slept.
 */
module Retry {
  import opened Http
  import opened Errors

  /** What one POST produces once its status has been checked. */
  datatype Outcome =
      /** A 2xx response. */
      Answered(response: RawResponse)
      /** A status outside 2xx, raised as an HTTP status error. */
    | StatusError(response: RawResponse)
      /** Any other exception from the transport. */
    | Failed

  /** The outcome of attempt 0, 1, 2, ... */
  type Server = nat -> Outcome

  /** A 5xx status error: the only outcome that is retried. */
  predicate IsRetryable(o: Outcome)
  {
    o.StatusError? && IsServerError(o.response)
  }

  /** What a single POST with its status check returns or raises. */
  function PostOnce(o: Outcome): (r: Result<RawResponse>)
    ensures r.Ok? <==> o.Answered?
    ensures o.StatusError? ==> r == Err(HttpStatusError(o.response))
    ensures o.Failed? ==> r == Err(UnexpectedError)
  {
    match o
    case Answered(resp) => Ok(resp)
    case StatusError(resp) => Err(HttpStatusError(resp))
    case Failed => Err(UnexpectedError)
  }

  /** What is raised when the last permitted attempt is also a 5xx. */
  datatype Exhaustion =
      /** The current route as intended: a dedicated error carrying the last response. */
      RaiseMaxRetries
      /**
       * The current route as written: the dedicated error is built with a
       * `response` keyword its class does not accept, so a TypeError is
       * raised in its place and the response is lost.
       */
    | ResponseKeywordRefused
      /** The older route re-raises the HTTP status error itself. */
    | Reraise

  function ExhaustedError(policy: Exhaustion, resp: RawResponse): (e: Error)
    ensures policy.RaiseMaxRetries? <==> e.MaxRetriesExceeded?
    ensures policy.ResponseKeywordRefused? <==> e == TypeErrorRaised
    ensures policy.Reraise? <==> e.HttpStatusError?
    ensures !policy.ResponseKeywordRefused? ==> e.response == resp
  {
    match policy
    case RaiseMaxRetries => MaxRetriesExceeded(resp)
    case ResponseKeywordRefused => TypeErrorRaised
    case Reraise => HttpStatusError(resp)
  }

  /** The whole run: final result, attempts made, and the waits in order. */
  datatype RetryOutcome = RetryOutcome(result: Result<RawResponse>, attempts: nat, sleeps: seq<real>)

  function SleepThen(wait: real, rest: RetryOutcome): RetryOutcome
  {
    RetryOutcome(rest.result, rest.attempts, [wait] + rest.sleeps)
  }

  /** `rest`, preceded by the waits already made. */
  function AfterSleeps(sleeps: seq<real>, rest: RetryOutcome): RetryOutcome
  {
    RetryOutcome(rest.result, rest.attempts, sleeps + rest.sleeps)
  }

  /**
   * The retry loop from the point where `done` attempts have been made, each
   * a 5xx followed by a sleep, and the next sleep would last `wait`.
   */
  function Attempts(server: Server, done: nat, max: int, wait: real, scale: real, policy: Exhaustion): RetryOutcome
    decreases if done < max then max - done else 0
  {
    if done >= max then RetryOutcome(Err(UnreachableCode), done, [])
    else
      var count: nat := done + 1;
      match server(done)
      case Answered(resp) => RetryOutcome(Ok(resp), count, [])
      case StatusError(resp) =>
        if !IsServerError(resp) then RetryOutcome(Err(HttpStatusError(resp)), count, [])
        else if count >= max then RetryOutcome(Err(ExhaustedError(policy, resp)), count, [])
        else SleepThen(wait, Attempts(server, count, max, wait * scale, scale, policy))
      case Failed =>
        // re-raised when `count > -max`, which always holds here since `count` is positive
        RetryOutcome(Err(UnexpectedError), count, [])
  }

  /** The retry loop from its start. */
  function RetryRun(server: Server, max: int, wait: real, scale: real, policy: Exhaustion): RetryOutcome
  {
    Attempts(server, 0, max, wait, scale, policy)
  }

  function Pow(x: real, k: nat): real
  {
    if k == 0 then 1.0 else x * Pow(x, k - 1)
  }

  /** `n` waits, starting at `wait` and multiplied by `scale` each time. */
  function Schedule(wait: real, scale: real, n: nat): (s: seq<real>)
    ensures |s| == n
    decreases n
  {
    if n == 0 then [] else [wait] + Schedule(wait * scale, scale, n - 1)
  }

  /** The wait before attempt i + 2 is `wait * scale^i`. */
  lemma {:induction false} ScheduleAt(wait: real, scale: real, n: nat, i: nat)
    requires i < n
    ensures Schedule(wait, scale, n)[i] == wait * Pow(scale, i)
    decreases n
  {
    if i > 0 {
      ScheduleAt(wait * scale, scale, n - 1, i - 1);
      assert wait * scale * Pow(scale, i - 1) == wait * (scale * Pow(scale, i - 1));
    }
  }

  /** A shorter schedule is a prefix of a longer one. */
  lemma {:induction false} SchedulePrefix(wait: real, scale: real, n: nat, m: nat)
    requires n <= m
    ensures Schedule(wait, scale, n) == Schedule(wait, scale, m)[..n]
    decreases n
  {
    if n > 0 {
      SchedulePrefix(wait * scale, scale, n - 1, m - 1);
    }
  }

  function Sum(s: seq<real>): real
  {
    if |s| == 0 then 0.0 else s[0] + Sum(s[1..])
  }

  /** 1 + x + ... + x^(n-1). */
  function GeomSum(x: real, n: nat): real
  {
    if n == 0 then 0.0 else 1.0 + x * GeomSum(x, n - 1)
  }

  /** The total wait of a schedule is `wait` times the geometric sum of the scale. */
  lemma {:induction false} ScheduleTotal(wait: real, scale: real, n: nat)
    ensures Sum(Schedule(wait, scale, n)) == wait * GeomSum(scale, n)
    decreases n
  {
    if n > 0 {
      var s := Schedule(wait, scale, n);
      assert s[1..] == Schedule(wait * scale, scale, n - 1);
      ScheduleTotal(wait * scale, scale, n - 1);
      assert wait * scale * GeomSum(scale, n - 1) == wait * (scale * GeomSum(scale, n - 1));
    }
  }

  /** The closed form (x - 1)(1 + ... + x^(n-1)) = x^n - 1. */
  lemma {:induction false} GeomClosedForm(x: real, n: nat)
    ensures (x - 1.0) * GeomSum(x, n) == Pow(x, n) - 1.0
  {
    if n > 0 {
      GeomClosedForm(x, n - 1);
      calc {
        (x - 1.0) * GeomSum(x, n);
        (x - 1.0) + x * ((x - 1.0) * GeomSum(x, n - 1));
        (x - 1.0) + x * (Pow(x, n - 1) - 1.0);
        Pow(x, n) - 1.0;
      }
    }
  }

  /** Bounds on the attempts made from any point of the loop. */
  lemma {:induction false} AttemptsBound(server: Server, done: nat, max: int, wait: real, scale: real, policy: Exhaustion)
    ensures var r := Attempts(server, done, max, wait, scale, policy);
      (done >= max ==> r.attempts == done && r.sleeps == []) &&
      (done < max ==> done + 1 <= r.attempts <= max && r.sleeps == Schedule(wait, scale, r.attempts - done - 1))
    ensures done < max ==> Attempts(server, done, max, wait, scale, policy).result != Err(UnreachableCode)
    decreases if done < max then max - done else 0
  {
    if done < max && done + 1 < max {
      AttemptsBound(server, done + 1, max, wait * scale, scale, policy);
    }
  }

  /**
   * At most `max` attempts are made; the waits are exactly the schedule,
   * with no wait after the last attempt; the unreachable error is raised
   * exactly when `max <= 0`, without any attempt.
   */
  lemma RetryBound(server: Server, max: int, wait: real, scale: real, policy: Exhaustion)
    ensures var r := RetryRun(server, max, wait, scale, policy);
      (max <= 0 ==> r == RetryOutcome(Err(UnreachableCode), 0, [])) &&
      (max >= 1 ==> 1 <= r.attempts <= max && r.sleeps == Schedule(wait, scale, r.attempts - 1)) &&
      (r.result == Err(UnreachableCode) <==> max <= 0)
  {
    AttemptsBound(server, 0, max, wait, scale, policy);
  }

  /** Attempts from `done` up to `k` are all 5xx; attempt `k` is not: it ends the run. */
  lemma {:induction false} AttemptsStopAt(server: Server, done: nat, k: nat, max: int, wait: real, scale: real, policy: Exhaustion)
    requires done <= k < max
    requires forall j :: done <= j < k ==> IsRetryable(server(j))
    requires !IsRetryable(server(k))
    ensures Attempts(server, done, max, wait, scale, policy) == RetryOutcome(PostOnce(server(k)), k + 1, Schedule(wait, scale, k - done))
    decreases k - done
  {
    if done < k {
      AttemptsStopAt(server, done + 1, k, max, wait * scale, scale, policy);
    }
  }

  /**
   * The first attempt that is not a 5xx decides the run: its response is
   * returned, or its error propagates, with no wait after it.
   */
  lemma RetryStopsAtFirstNonRetryable(server: Server, max: int, wait: real, scale: real, policy: Exhaustion, k: nat)
    requires k < max
    requires forall j :: 0 <= j < k ==> IsRetryable(server(j))
    requires !IsRetryable(server(k))
    ensures RetryRun(server, max, wait, scale, policy) == RetryOutcome(PostOnce(server(k)), k + 1, Schedule(wait, scale, k))
  {
    AttemptsStopAt(server, 0, k, max, wait, scale, policy);
  }

  lemma {:induction false} AttemptsExhaust(server: Server, done: nat, max: int, wait: real, scale: real, policy: Exhaustion)
    requires done < max
    requires forall j :: done <= j < max ==> IsRetryable(server(j))
    ensures var last := server(max - 1);
      last.StatusError? &&
      Attempts(server, done, max, wait, scale, policy)
        == RetryOutcome(Err(ExhaustedError(policy, last.response)), max, Schedule(wait, scale, max - 1 - done))
    decreases max - done
  {
    if done + 1 < max {
      AttemptsExhaust(server, done + 1, max, wait * scale, scale, policy);
    }
  }

  /**
   * When every permitted attempt is a 5xx, exactly `max` attempts are made,
   * `max - 1` waits separate them, and the exhaustion error carries the
   * last response.
   */
  lemma RetryExhausts(server: Server, max: int, wait: real, scale: real, policy: Exhaustion)
    requires max >= 1
    requires forall j :: 0 <= j < max ==> IsRetryable(server(j))
    ensures var last := server(max - 1);
      last.StatusError? &&
      RetryRun(server, max, wait, scale, policy)
        == RetryOutcome(Err(ExhaustedError(policy, last.response)), max, Schedule(wait, scale, max - 1))
  {
    AttemptsExhaust(server, 0, max, wait, scale, policy);
  }

  /**
   * With the defaults (5 attempts, 5 s, factor 2) the waits are a prefix of
   * 5, 10, 20, 40 seconds: an 80 s wait never happens.
   */
  lemma DefaultWaits(server: Server, policy: Exhaustion)
    ensures var r := RetryRun(server, 5, 5.0, 2.0, policy);
      r.sleeps == [5.0, 10.0, 20.0, 40.0][..|r.sleeps|] && 80.0 !in r.sleeps
  {
    var r := RetryRun(server, 5, 5.0, 2.0, policy);
    RetryBound(server, 5, 5.0, 2.0, policy);
    SchedulePrefix(5.0, 2.0, r.attempts - 1, 4);
    assert Schedule(5.0, 2.0, 4) == [5.0, 10.0, 20.0, 40.0];
  }
}
