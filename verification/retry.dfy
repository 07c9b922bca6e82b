/**
 * The `with_retry` decorator: the wrapped function is invoked up to `max_retries`
 * times; rate-limit, timeout and connection errors, and status errors outside the
 * 4xx range, are retried after an exponentially growing sleep; everything else ends
 * the call at once.
 *
 * The wrapped function is given as `call`, where `call(i)` is the outcome of the i-th
 * invocation (0-based) that this request observes (invocations made for other
 * concurrent requests are not counted); a decorated call that starts after `start`
 * such invocations makes invocations `start`, `start + 1`, and so on.
 * Each `asyncio.sleep` is recorded as a natural-number delay in seconds.
 */
module Retries {
  import opened Wrappers
  import opened Errors

  const MAX_RETRIES: nat := 3
  const INITIAL_BACKOFF: nat := 1
  const BACKOFF_MULTIPLIER: nat := 2

  /** What `raise last_exception` raises when no attempt was made: Python refuses to
      raise `None` with a TypeError. */
  const RAISE_NONE := Other("TypeError")

  /**
   * Whether the decorator catches this outcome and tries again: the three transient
   * error classes, and a status error whose code is outside [400, 500). The
   * rate-limit clause comes first, so a rate limit never reaches the 4xx check.
   */
  predicate Retryable<T>(o: Outcome<T>): (retried: bool)
    ensures retried ==> o.Failure?
    ensures o.Failure? && (o.error.RateLimit? || o.error.Timeout? || o.error.Connection?) ==> retried
    ensures o.Failure? && o.error.Status? ==> (retried <==> o.error.code < 400 || 500 <= o.error.code)
    ensures o.Failure? && (o.error.ValueError? || o.error.Other?) ==> !retried
  {
    match o
    case Success(_) => false
    case Failure(e) =>
      match e
      case RateLimit => true
      case Timeout => true
      case Connection => true
      case Status(code) => !(400 <= code < 500)
      case ValueError(_) => false
      case Other(_) => false
  }

  function Pow(base: nat, exp: nat): nat {
    if exp == 0 then 1 else base * Pow(base, exp - 1)
  }

  /** The sleep taken after a retryable failure on (0-based) attempt `k`. */
  function Backoff(k: nat): nat {
    INITIAL_BACKOFF * Pow(BACKOFF_MULTIPLIER, k)
  }

  /** The sleeps taken after the first `n` failed attempts, in order. */
  function Delays(n: nat): (d: seq<nat>)
    ensures |d| == n
    ensures forall i :: 0 <= i < n ==> d[i] == INITIAL_BACKOFF * Pow(BACKOFF_MULTIPLIER, i)
  {
    if n == 0 then [] else Delays(n - 1) + [Backoff(n - 1)]
  }

  /**
   * One invocation of a decorated function: the value it returned or the exception
   * it raised, how many times the wrapped function was invoked, and how many sleeps
   * were taken (their durations are `Delays(sleeps)`).
   */
  datatype Run<T> = Run(result: Outcome<T>, calls: nat, sleeps: nat)

  /**
   * The closed form of a run from invocation `start`: the wrapped function is invoked
   * `calls` times (at least once, at most `maxRetries`), every invocation but the last
   * was retried, the run stops early only on an outcome that is not retried, what the
   * decorated function returns or raises is the outcome of the last invocation (for
   * an exhausted run: the last caught exception), and one sleep follows each retried
   * failure, the last one included.
   */
  predicate IsRunOf<T(==)>(maxRetries: nat, call: nat -> Outcome<T>, start: nat, run: Run<T>) {
    && 1 <= run.calls <= maxRetries
    && run.result == call(start + run.calls - 1)
    && (forall i :: start <= i < start + run.calls - 1 ==> Retryable(call(i)))
    && (run.calls < maxRetries ==> !Retryable(run.result))
    && run.sleeps == (if Retryable(run.result) then run.calls else run.calls - 1)
  }

  /** How many times the decorator's loop invokes the wrapped function once it has
      reached (0-based) attempt `attempt`: up to the first outcome it does not retry,
      and no further than the last attempt. */
  function CallsFrom<T>(maxRetries: nat, call: nat -> Outcome<T>, start: nat, attempt: nat): (n: nat)
    requires attempt < maxRetries
    ensures attempt < n <= maxRetries
    ensures n < maxRetries ==> !Retryable(call(start + n - 1))
    decreases maxRetries - attempt
  {
    if !Retryable(call(start + attempt)) || attempt + 1 == maxRetries then attempt + 1
    else CallsFrom(maxRetries, call, start, attempt + 1)
  }

  /** Every invocation before the last one `CallsFrom` counts was retried. */
  lemma {:induction false} CallsFromRetried<T>(maxRetries: nat, call: nat -> Outcome<T>, start: nat, attempt: nat)
    requires attempt < maxRetries
    ensures forall i :: start + attempt <= i < start + CallsFrom(maxRetries, call, start, attempt) - 1 ==> Retryable(call(i))
    decreases maxRetries - attempt
  {
    if Retryable(call(start + attempt)) && attempt + 1 < maxRetries {
      CallsFromRetried(maxRetries, call, start, attempt + 1);
    }
  }

  /** What a function decorated with `with_retry(maxRetries)` does when called after
      `start` invocations of the wrapped function, as a value. */
  function Retry<T(==)>(maxRetries: nat, call: nat -> Outcome<T>, start: nat): (run: Run<T>)
    requires maxRetries >= 1
    ensures IsRunOf(maxRetries, call, start, run)
  {
    var n := CallsFrom(maxRetries, call, start, 0);
    CallsFromRetried(maxRetries, call, start, 0);
    var last := call(start + n - 1);
    Run(last, n, if Retryable(last) then n else n - 1)
  }

  /** The closed form pins the run down: `Retry` is the only run of that shape. */
  lemma {:induction false} RunOfUnique<T>(maxRetries: nat, call: nat -> Outcome<T>, start: nat, run: Run<T>)
    requires IsRunOf(maxRetries, call, start, run)
    ensures run == Retry(maxRetries, call, start)
  {
    var r := Retry(maxRetries, call, start);
    if run.calls < r.calls {
      assert false;
    } else if r.calls < run.calls {
      assert false;
    }
  }

  /**
   * The decorator's loop as the source writes it: one invocation per attempt, the
   * caught exception kept as `lastException`, a sleep of `backoff * 2^attempt` after
   * each retried failure, and `raise lastException` once the attempts are used up.
   */
  method WithRetry<T(==)>(maxRetries: nat, call: nat -> Outcome<T>, start: nat)
    returns (r: Outcome<T>, calls: nat, sleeps: seq<nat>)
    ensures maxRetries >= 1 ==> Run(r, calls, |sleeps|) == Retry(maxRetries, call, start)
    ensures maxRetries == 0 ==> r == Failure(RAISE_NONE) && calls == 0 && sleeps == []
    ensures sleeps == Delays(|sleeps|)
  {
    var lastException: Option<Error> := None;
    var backoff := INITIAL_BACKOFF;
    calls, sleeps := 0, [];
    for attempt := 0 to maxRetries
      invariant calls == attempt
      invariant sleeps == Delays(attempt)
      invariant forall i :: start <= i < start + attempt ==> Retryable(call(i))
      invariant lastException == if attempt == 0 then None else Some(call(start + attempt - 1).error)
    {
      var o := call(start + attempt);
      calls := calls + 1;
      match o {
        case Success(_) =>
          RunOfUnique(maxRetries, call, start, Run(o, calls, |sleeps|));
          return o, calls, sleeps;
        case Failure(RateLimit) =>
          lastException := Some(o.error);
        case Failure(Timeout) =>
          lastException := Some(o.error);
        case Failure(Connection) =>
          lastException := Some(o.error);
        case Failure(Status(code)) =>
          if 400 <= code < 500 {
            RunOfUnique(maxRetries, call, start, Run(o, calls, |sleeps|));
            return o, calls, sleeps;
          }
          lastException := Some(o.error);
        case Failure(_) =>
          RunOfUnique(maxRetries, call, start, Run(o, calls, |sleeps|));
          return o, calls, sleeps;
      }
      var waitTime := backoff * Pow(BACKOFF_MULTIPLIER, attempt);
      sleeps := sleeps + [waitTime];
    }
    match lastException {
      case None =>
        r := Failure(RAISE_NONE);
      case Some(e) =>
        r := Failure(e);
        RunOfUnique(maxRetries, call, start, Run(r, calls, |sleeps|));
    }
  }

  /** Every attempt fails retryably: exactly `maxRetries` invocations, a sleep after
      each of them, and the last caught exception is raised. */
  lemma ExhaustedRaisesLast<T>(maxRetries: nat, call: nat -> Outcome<T>, start: nat)
    requires maxRetries >= 1
    requires forall i :: start <= i < start + maxRetries ==> Retryable(call(i))
    ensures Retry(maxRetries, call, start) == Run(call(start + maxRetries - 1), maxRetries, maxRetries)
  {
    var run := Retry(maxRetries, call, start);
    if run.calls < maxRetries {
      assert false;
    }
  }

  /** The first success is returned at once: no further invocation and no sleep after it. */
  lemma FirstSuccessReturned<T>(maxRetries: nat, call: nat -> Outcome<T>, start: nat, k: nat)
    requires k < maxRetries
    requires forall i :: start <= i < start + k ==> Retryable(call(i))
    requires call(start + k).Success?
    ensures Retry(maxRetries, call, start) == Run(call(start + k), k + 1, k)
  {
    var run := Retry(maxRetries, call, start);
    if run.calls < k + 1 {
      assert false;
    } else if run.calls > k + 1 {
      assert false;
    }
  }

  /** A status error in [400, 500) on the first attempt is raised after that one
      invocation, with no sleep. */
  lemma ClientErrorRaisedAtOnce<T>(maxRetries: nat, call: nat -> Outcome<T>, start: nat)
    requires maxRetries >= 1
    requires call(start).Failure? && call(start).error.Status? && 400 <= call(start).error.code < 500
    ensures Retry(maxRetries, call, start) == Run(call(start), 1, 0)
  {
  }

  /** An exception outside the four caught classes (a ValueError among them)
      propagates from the first attempt, with no retry and no sleep. */
  lemma UncaughtPropagates<T>(maxRetries: nat, call: nat -> Outcome<T>, start: nat)
    requires maxRetries >= 1
    requires call(start).Failure? && (call(start).error.ValueError? || call(start).error.Other?)
    ensures Retry(maxRetries, call, start) == Run(call(start), 1, 0)
  {
  }

  /** A rate limit (HTTP 429) is retried, while a plain status error with the same code
      would be raised at once: the rate-limit clause is checked first. */
  lemma RateLimitRetried<T>(maxRetries: nat, call: nat -> Outcome<T>, start: nat)
    requires maxRetries >= 2
    requires call(start) == Failure(RateLimit)
    ensures Retry(maxRetries, call, start).calls >= 2
    ensures Retry(maxRetries, call, start).sleeps >= 1 && Delays(Retry(maxRetries, call, start).sleeps)[0] == INITIAL_BACKOFF
    ensures !Retryable(Outcome<T>.Failure(Status(429)))
  {
  }

  /** A status error outside [400, 500) is recorded and retried after a sleep. */
  lemma ServerErrorRetried<T>(maxRetries: nat, call: nat -> Outcome<T>, start: nat)
    requires maxRetries >= 2
    requires call(start).Failure? && call(start).error.Status? && !(400 <= call(start).error.code < 500)
    ensures Retry(maxRetries, call, start).calls >= 2
    ensures Retry(maxRetries, call, start).sleeps >= 1 && Delays(Retry(maxRetries, call, start).sleeps)[0] == INITIAL_BACKOFF
  {
  }

  /** Each delay is twice the one before: no jitter, and no cap. */
  lemma {:induction false} BackoffDoubles(k: nat)
    ensures Backoff(k + 1) == BACKOFF_MULTIPLIER * Backoff(k)
  {
  }

  /** The delays strictly increase. */
  lemma {:induction false} DelaysIncrease(n: nat, i: nat, j: nat)
    requires i < j < n
    ensures Delays(n)[i] < Delays(n)[j]
  {
    if i + 1 < j {
      DelaysIncrease(n, i, j - 1);
    }
    assert Pow(BACKOFF_MULTIPLIER, j - 1) >= 1 by { PowPositive(BACKOFF_MULTIPLIER, j - 1); }
  }

  lemma {:induction false} PowPositive(base: nat, exp: nat)
    requires base >= 1
    ensures Pow(base, exp) >= 1
  {
    if exp > 0 {
      PowPositive(base, exp - 1);
    }
  }

  /** There is no ceiling: the delay after attempt `k` exceeds `k` seconds, so no bound
      holds for every number of attempts. */
  lemma {:induction false} BackoffUnbounded(k: nat)
    ensures Backoff(k) > k
  {
    if k > 0 {
      BackoffUnbounded(k - 1);
      PowPositive(BACKOFF_MULTIPLIER, k - 1);
    }
  }

  function Sum(s: seq<nat>): nat {
    if s == [] then 0 else Sum(s[..|s| - 1]) + s[|s| - 1]
  }

  /** `n` exhausted attempts sleep 1 + 2 + ... + 2^(n-1) = 2^n - 1 seconds in all. */
  lemma {:induction false} DelaysTotal(n: nat)
    ensures Sum(Delays(n)) == Pow(BACKOFF_MULTIPLIER, n) - 1
  {
    if n > 0 {
      var d := Delays(n);
      assert d[..n - 1] == Delays(n - 1);
      assert Sum(d) == Sum(Delays(n - 1)) + Pow(BACKOFF_MULTIPLIER, n - 1);
      DelaysTotal(n - 1);
    }
  }

  /** With the default of three attempts, an exhausted run sleeps 1, 2 and 4 seconds,
      seven in all, the last sleep coming before the raise. */
  lemma DefaultExhaustedSleeps<T>(call: nat -> Outcome<T>, start: nat)
    requires forall i :: start <= i < start + MAX_RETRIES ==> Retryable(call(i))
    ensures Retry(MAX_RETRIES, call, start).calls == 3
    ensures Delays(Retry(MAX_RETRIES, call, start).sleeps) == [1, 2, 4]
    ensures Sum(Delays(Retry(MAX_RETRIES, call, start).sleeps)) == 7
  {
    ExhaustedRaisesLast(MAX_RETRIES, call, start);
    DelaysTotal(3);
  }
}
