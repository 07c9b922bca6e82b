/**
 * A function decorated with `with_retry()` whose body calls another function decorated
 * with `with_retry()`, both with the default of three attempts: the outer decorator's
 * j-th attempt runs the inner decorated call once more, and every inner run continues
 * where the previous one left off in the sequence of invocations of the innermost
 * function `f` (`f(i)` is the outcome of the i-th invocation this call observes;
 * invocations made for other concurrent requests are not counted).
 */
module NestedRetries {
  import opened Errors
  import opened Retries

  /** How many invocations of `f` have been made before outer attempt `j` starts: each
      earlier outer attempt ran one whole inner decorated call. */
  function Cursor<T(==)>(f: nat -> Outcome<T>, start: nat, j: nat): (c: nat)
    ensures start + j <= c <= start + 3 * j
  {
    if j == 0 then start
    else
      var c := Cursor(f, start, j - 1);
      c + Retry(MAX_RETRIES, f, c).calls
  }

  /** The outer wrapped function: its j-th invocation runs the inner decorated call from
      `Cursor(f, start, j)` and passes what that returns or raises through `post`. */
  function Outer<T(==), U>(f: nat -> Outcome<T>, post: Outcome<T> -> Outcome<U>, start: nat): nat -> Outcome<U> {
    (j: nat) => post(Retry(MAX_RETRIES, f, Cursor(f, start, j)).result)
  }

  /** How many sleeps the inner decorated calls of the first `j` outer attempts took
      together: at most one per invocation of `f` they made. */
  function InnerSleeps<T(==)>(f: nat -> Outcome<T>, start: nat, j: nat): (s: nat)
    ensures s <= Cursor(f, start, j) - start
  {
    if j == 0 then 0
    else InnerSleeps(f, start, j - 1) + Retry(MAX_RETRIES, f, Cursor(f, start, j - 1)).sleeps
  }

  /** How many seconds the inner decorated calls of the first `j` outer attempts slept
      in all: each inner run sleeps `Delays` of its own sleep count. */
  function InnerSleepSeconds<T(==)>(f: nat -> Outcome<T>, start: nat, j: nat): nat {
    if j == 0 then 0
    else InnerSleepSeconds(f, start, j - 1) + Sum(Delays(Retry(MAX_RETRIES, f, Cursor(f, start, j - 1)).sleeps))
  }

  /** The outer decorated call, how many invocations of `f` it made in all, and how
      many sleeps its inner decorated calls took in all (the outer sleeps are those of
      `run`). */
  datatype NestedRun<U> = NestedRun(run: Run<U>, calls: nat, innerSleeps: nat)

  /** Both decorators, started after `start` invocations of `f`: the outer decorator
      retries `Outer` as it would any wrapped function, and each outer attempt makes one
      to three inner invocations of `f`. */
  function Nested<T(==), U(==)>(f: nat -> Outcome<T>, post: Outcome<T> -> Outcome<U>, start: nat): (r: NestedRun<U>)
    ensures IsRunOf(MAX_RETRIES, Outer(f, post, start), 0, r.run)
    ensures 1 <= r.run.calls <= MAX_RETRIES
    ensures r.run.calls <= r.calls <= 3 * r.run.calls
    ensures r.innerSleeps <= r.calls
  {
    var run := Retry(MAX_RETRIES, Outer(f, post, start), 0);
    NestedRun(run, Cursor(f, start, run.calls) - start, InnerSleeps(f, start, run.calls))
  }

  /** `post` lets an exception of the inner call through unchanged. */
  ghost predicate PassesErrors<T, U>(post: Outcome<T> -> Outcome<U>) {
    forall e :: post(Failure(e)) == Failure(e)
  }

  /** Every one of the nine invocations of `f` after `start` fails with a retried error. */
  predicate AllRetryable<T>(f: nat -> Outcome<T>, start: nat) {
    forall i :: start <= i < start + 9 ==> Retryable(f(i))
  }

  /** With every invocation of `f` retried, the outer attempt that starts at `c` runs an
      inner call that exhausts its three attempts. */
  lemma InnerExhausted<T>(f: nat -> Outcome<T>, start: nat, c: nat)
    requires AllRetryable(f, start)
    requires start <= c <= start + 6
    ensures Retry(MAX_RETRIES, f, c) == Run(f(c + 2), 3, 3)
  {
    ExhaustedRaisesLast(MAX_RETRIES, f, c);
  }

  /** With every invocation of `f` retried, outer attempt `j` starts after three
      invocations per earlier outer attempt, whose inner calls slept three times each. */
  lemma {:induction false} CursorExhausted<T>(f: nat -> Outcome<T>, start: nat, j: nat)
    requires AllRetryable(f, start)
    requires j <= MAX_RETRIES
    ensures Cursor(f, start, j) == start + 3 * j
    ensures InnerSleeps(f, start, j) == 3 * j
  {
    if j > 0 {
      var c := Cursor(f, start, j - 1);
      CursorExhausted(f, start, j - 1);
      InnerExhausted(f, start, c);
      assert Cursor(f, start, j) == c + Retry(MAX_RETRIES, f, c).calls;
      assert InnerSleeps(f, start, j) == InnerSleeps(f, start, j - 1) + Retry(MAX_RETRIES, f, c).sleeps;
    }
  }

  /** With every invocation of `f` retried, outer attempt `j` raises the error of the
      last of its three inner invocations. */
  lemma OuterAttemptExhausted<T, U>(f: nat -> Outcome<T>, post: Outcome<T> -> Outcome<U>, start: nat, j: nat)
    requires AllRetryable(f, start) && PassesErrors(post)
    requires j < MAX_RETRIES
    ensures var last := f(start + 3 * j + 2);
            last.Failure? && Outer(f, post, start)(j) == Failure(last.error)
  {
    CursorExhausted(f, start, j);
    InnerExhausted(f, start, start + 3 * j);
  }

  /**
   * When every invocation of `f` fails with a retried error, both decorators exhaust
   * their attempts: nine invocations of `f` in all, three outer attempts with the outer
   * backoff sleeps, three sleeps inside each of them (nine inner sleeps), and the ninth
   * invocation's error raised.
   */
  lemma NestedExhausted<T, U>(f: nat -> Outcome<T>, post: Outcome<T> -> Outcome<U>, start: nat)
    requires AllRetryable(f, start) && PassesErrors(post)
    ensures var last := f(start + 8);
            last.Failure? && Nested(f, post, start) == NestedRun(Run(Failure(last.error), 3, 3), 9, 9)
  {
    var g := Outer(f, post, start);
    forall j | 0 <= j < MAX_RETRIES
      ensures Retryable(g(j))
    {
      OuterAttemptExhausted(f, post, start, j);
    }
    ExhaustedRaisesLast(MAX_RETRIES, g, 0);
    OuterAttemptExhausted(f, post, start, 2);
    CursorExhausted(f, start, 3);
  }

  /** With every invocation of `f` retried, the inner calls of the first `j` outer
      attempts sleep 1, 2 and 4 seconds each. */
  lemma {:induction false} InnerSleepSecondsExhausted<T>(f: nat -> Outcome<T>, start: nat, j: nat)
    requires AllRetryable(f, start)
    requires j <= MAX_RETRIES
    ensures InnerSleepSeconds(f, start, j) == 7 * j
  {
    if j > 0 {
      InnerSleepSecondsExhausted(f, start, j - 1);
      assert Sum(Delays(Retry(MAX_RETRIES, f, Cursor(f, start, j - 1)).sleeps)) == 7 by {
        CursorExhausted(f, start, j - 1);
        InnerExhausted(f, start, Cursor(f, start, j - 1));
        DelaysTotal(3);
      }
    }
  }

  /**
   * When every invocation of `f` fails with a retried error, the nested call sleeps
   * 21 seconds inside its three exhausted inner calls (1 + 2 + 4 each) and 7 seconds
   * between its outer attempts (1 + 2 + 4): 28 seconds in all.
   */
  lemma NestedExhaustedSeconds<T, U>(f: nat -> Outcome<T>, post: Outcome<T> -> Outcome<U>, start: nat)
    requires AllRetryable(f, start) && PassesErrors(post)
    ensures InnerSleepSeconds(f, start, Nested(f, post, start).run.calls) == 21
    ensures Sum(Delays(Nested(f, post, start).run.sleeps)) == 7
  {
    NestedExhausted(f, post, start);
    InnerSleepSecondsExhausted(f, start, 3);
    DelaysTotal(3);
  }

  /** The first outer attempt runs the inner decorated call from `start`. */
  lemma FirstOuterAttempt<T, U>(f: nat -> Outcome<T>, post: Outcome<T> -> Outcome<U>, start: nat)
    ensures Outer(f, post, start)(0) == post(Retry(MAX_RETRIES, f, start).result)
  {
    assert Cursor(f, start, 0) == start;
  }

  /**
   * When the first outer attempt ends in something the outer decorator does not retry
   * (a value, or an exception it does not catch), that is the result: one outer
   * attempt, no outer sleep, and only the invocations and sleeps of the first inner run.
   */
  lemma FirstOuterStops<T, U>(f: nat -> Outcome<T>, post: Outcome<T> -> Outcome<U>, start: nat)
    requires !Retryable(post(Retry(MAX_RETRIES, f, start).result))
    ensures var inner := Retry(MAX_RETRIES, f, start);
            Nested(f, post, start) == NestedRun(Run(post(inner.result), 1, 0), inner.calls, inner.sleeps)
  {
    var g := Outer(f, post, start);
    FirstOuterAttempt(f, post, start);
    if Retry(MAX_RETRIES, g, 0).calls > 1 {
      assert false;
    }
    assert Cursor(f, start, 1) == start + Retry(MAX_RETRIES, f, start).calls;
    assert InnerSleeps(f, start, 1) == Retry(MAX_RETRIES, f, start).sleeps;
  }

  /**
   * When the outer attempts before `j` were all retried and outer attempt `j` ends in
   * something the outer decorator does not retry, that is the result: `j + 1` outer
   * attempts, `j` outer sleeps, and the invocations and sleeps of their `j + 1` inner
   * runs.
   */
  lemma OuterStopsAt<T, U>(f: nat -> Outcome<T>, post: Outcome<T> -> Outcome<U>, start: nat, j: nat)
    requires j < MAX_RETRIES
    requires forall k :: 0 <= k < j ==> Retryable(Outer(f, post, start)(k))
    requires !Retryable(Outer(f, post, start)(j))
    ensures Nested(f, post, start)
            == NestedRun(Run(Outer(f, post, start)(j), j + 1, j), Cursor(f, start, j + 1) - start, InnerSleeps(f, start, j + 1))
  {
    var g := Outer(f, post, start);
    RunOfUnique(MAX_RETRIES, g, 0, Run(g(j), j + 1, j));
  }
}
