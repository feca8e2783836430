/**
 * The retry driver: `exp_backoff` runs a fallible operation under the `backoff` crate's
 * exponential schedule with a budget of `max_elapsed_time` seconds, and collapses both kinds
 * of `backoff::Error` into the bare error.
 *
 * The schedule itself belongs to the crate. It is modelled on an integer clock in milliseconds:
 * `Clock.attemptTime(k)` is how long the k-th call of the operation takes and `Clock.interval(k)`
 * the (jittered, positive) delay slept after the k-th call failed transiently. The k-th call of
 * the operation returns `op(k)`. After a transient failure the run stops when the time elapsed
 * since the first call exceeds the budget, and otherwise sleeps and calls again.
 */
module Backoff {
  import opened Wrappers
  import opened Http

  newtype u64 = x: int | 0 <= x < 0x1_0000_0000_0000_0000

  /** The default budget (in seconds) of every retrying request of the library. */
  const FirestoreRequestRetryMaxElapsedTime: u64 := 30

  /** `backoff::Error`: whether the failure may go away on a later call. */
  datatype BackoffError<+E> = Permanent(err: E) | Transient(err: E)

  /** A duration of at least one millisecond. */
  type Pos = x: int | x > 0 witness 1

  datatype Clock = Clock(attemptTime: nat -> nat, interval: nat -> Pos)

  /** The end of a run: what the crate's retry returns, how many calls it made, the time it took. */
  datatype Run<+T, +E> = Run(result: Result<T, BackoffError<E>>, calls: nat, elapsed: nat)

  /** HTTP statuses worth retrying: request timeout, conflict, too many requests, every 5xx. */
  function RetryableHttpStatus(status: u16): (r: bool)
    ensures r ==> 400 <= status < 600
    ensures 500 <= status < 600 ==> r
    ensures 400 <= status < 500 ==> (r <==> status == 408 || status == 409 || status == 429)
  {
    status == 408 || status == 409 || status == 429 || (status >= 500 && status < 600)
  }

  /** `Duration::from_secs(max_elapsed_time)`, in milliseconds. */
  function BudgetMillis(maxElapsedTime: u64): nat
  {
    maxElapsedTime as nat * 1000
  }

  /** The crate's retry loop from the k-th call on, `start` milliseconds after the first call began. */
  function RetryFrom<T, E>(op: nat -> Result<T, BackoffError<E>>, clock: Clock, budget: nat, k: nat, start: nat): (run: Run<T, E>)
    ensures k < run.calls
    ensures start + clock.attemptTime(k) <= run.elapsed
    decreases budget + 1 - start
  {
    var elapsed := start + clock.attemptTime(k);
    match op(k)
    case Ok(v) => Run(Ok(v), k + 1, elapsed)
    case Err(Permanent(e)) => Run(Err(Permanent(e)), k + 1, elapsed)
    case Err(Transient(e)) =>
      if elapsed > budget then Run(Err(Transient(e)), k + 1, elapsed)
      else RetryFrom(op, clock, budget, k + 1, elapsed + clock.interval(k))
  }

  /** `Operation::retry` with a backoff whose elapsed-time budget is `budget` milliseconds. */
  function Retry<T, E>(op: nat -> Result<T, BackoffError<E>>, clock: Clock, budget: nat): (run: Run<T, E>)
    ensures 1 <= run.calls
    ensures clock.attemptTime(0) <= run.elapsed
  {
    RetryFrom(op, clock, budget, 0, 0)
  }

  /** The `map_err` of `exp_backoff`: a permanent and a transient error both become the bare error. */
  function Collapse<T, E>(r: Result<T, BackoffError<E>>): (c: Result<T, E>)
    ensures r.Ok? <==> c.Ok?
    ensures r.Ok? ==> c.value == r.value
    ensures r.Err? ==> c.error == r.error.err
  {
    match r
    case Ok(v) => Ok(v)
    case Err(Permanent(e)) => Err(e)
    case Err(Transient(e)) => Err(e)
  }

  /** What `exp_backoff(op, maxElapsedTime)` returns. */
  function ExpBackoffResult<T, E>(op: nat -> Result<T, BackoffError<E>>, clock: Clock, maxElapsedTime: u64): Result<T, E>
  {
    Collapse(Retry(op, clock, BudgetMillis(maxElapsedTime)).result)
  }

  /** The call at which a run ends, and how its outcome became the run's result. */
  ghost predicate Settled<T, E>(last: Result<T, BackoffError<E>>, run: Run<T, E>, budget: nat)
  {
    match last
    case Ok(v) => run.result == Ok(v)
    case Err(Permanent(e)) => run.result == Err(Permanent(e))
    case Err(Transient(e)) => run.result == Err(Transient(e)) && run.elapsed > budget
  }

  predicate IsTransient<T, E>(a: Result<T, BackoffError<E>>)
  {
    a.Err? && a.error.Transient?
  }

  /**
   * Every call before the last one failed transiently, and the last call decides the result:
   * a success is returned as it is, a permanent failure at once, a transient failure only once
   * the budget is spent.
   */
  lemma {:induction false} RetryFromSettles<T, E>(op: nat -> Result<T, BackoffError<E>>, clock: Clock, budget: nat, k: nat, start: nat)
    ensures k < RetryFrom(op, clock, budget, k, start).calls
    ensures forall j | k <= j < RetryFrom(op, clock, budget, k, start).calls - 1 :: IsTransient(op(j))
    ensures Settled(op(RetryFrom(op, clock, budget, k, start).calls - 1), RetryFrom(op, clock, budget, k, start), budget)
    decreases budget + 1 - start
  {
    var elapsed := start + clock.attemptTime(k);
    if IsTransient(op(k)) && elapsed <= budget {
      RetryFromSettles(op, clock, budget, k + 1, elapsed + clock.interval(k));
    }
  }

  lemma RetrySettles<T, E>(op: nat -> Result<T, BackoffError<E>>, clock: Clock, budget: nat)
    ensures 1 <= Retry(op, clock, budget).calls
    ensures forall j | 0 <= j < Retry(op, clock, budget).calls - 1 :: IsTransient(op(j))
    ensures Settled(op(Retry(op, clock, budget).calls - 1), Retry(op, clock, budget), budget)
  {
    RetryFromSettles(op, clock, budget, 0, 0);
  }

  /** However the operation behaves, the run makes at most budget + 2 calls. */
  lemma {:induction false} RetryFromBounded<T, E>(op: nat -> Result<T, BackoffError<E>>, clock: Clock, budget: nat, k: nat, start: nat)
    requires k <= start
    requires k == 0 || k <= budget + 1
    ensures RetryFrom(op, clock, budget, k, start).calls <= budget + 2
    decreases budget + 1 - start
  {
    var elapsed := start + clock.attemptTime(k);
    if IsTransient(op(k)) && elapsed <= budget {
      RetryFromBounded(op, clock, budget, k + 1, elapsed + clock.interval(k));
    }
  }

  lemma RetryBounded<T, E>(op: nat -> Result<T, BackoffError<E>>, clock: Clock, budget: nat)
    ensures Retry(op, clock, budget).calls <= budget + 2
  {
    RetryFromBounded(op, clock, budget, 0, 0);
  }

  /**
   * The run ends within one backoff interval and one call of the budget: the last sleep began
   * within the budget.
   */
  lemma {:induction false} RetryFromOvershoot<T, E>(op: nat -> Result<T, BackoffError<E>>, clock: Clock, budget: nat, k: nat, start: nat)
    ensures var run := RetryFrom(op, clock, budget, k, start);
      && (run.calls == k + 1 ==> run.elapsed == start + clock.attemptTime(k))
      && (run.calls >= k + 2 ==> run.elapsed <= budget + clock.interval(run.calls - 2) + clock.attemptTime(run.calls - 1))
    decreases budget + 1 - start
  {
    var elapsed := start + clock.attemptTime(k);
    if IsTransient(op(k)) && elapsed <= budget {
      RetryFromSettles(op, clock, budget, k + 1, elapsed + clock.interval(k));
      RetryFromOvershoot(op, clock, budget, k + 1, elapsed + clock.interval(k));
    }
  }

  /** An operation that never stops failing transiently is given up on, with its last error, past the budget. */
  lemma AlwaysTransientGivesUp<T, E>(op: nat -> Result<T, BackoffError<E>>, clock: Clock, budget: nat)
    requires forall j: nat :: IsTransient(op(j))
    ensures var run := Retry(op, clock, budget);
      && 1 <= run.calls
      && run.result == op(run.calls - 1)
      && budget < run.elapsed
      && run.calls <= budget + 2
      && (run.calls >= 2 ==> run.elapsed <= budget + clock.interval(run.calls - 2) + clock.attemptTime(run.calls - 1))
  {
    RetrySettles(op, clock, budget);
    RetryBounded(op, clock, budget);
    RetryFromOvershoot(op, clock, budget, 0, 0);
  }

  /** The calls after the last one the run made have no influence on it: no further call is made. */
  lemma {:induction false} RetryFromIgnoresLaterCalls<T, E>(op: nat -> Result<T, BackoffError<E>>, op': nat -> Result<T, BackoffError<E>>, clock: Clock, budget: nat, k: nat, start: nat)
    requires forall j | k <= j < RetryFrom(op, clock, budget, k, start).calls :: op'(j) == op(j)
    ensures RetryFrom(op', clock, budget, k, start) == RetryFrom(op, clock, budget, k, start)
    decreases budget + 1 - start
  {
    RetryFromSettles(op, clock, budget, k, start);
    assert op'(k) == op(k);
    var elapsed := start + clock.attemptTime(k);
    if IsTransient(op(k)) && elapsed <= budget {
      RetryFromIgnoresLaterCalls(op, op', clock, budget, k + 1, elapsed + clock.interval(k));
    }
  }

  lemma RetryIgnoresLaterCalls<T, E>(op: nat -> Result<T, BackoffError<E>>, op': nat -> Result<T, BackoffError<E>>, clock: Clock, budget: nat)
    requires forall j | 0 <= j < Retry(op, clock, budget).calls :: op'(j) == op(j)
    ensures Retry(op', clock, budget) == Retry(op, clock, budget)
  {
    RetryFromIgnoresLaterCalls(op, op', clock, budget, 0, 0);
  }

  /** A first call that succeeds, or fails permanently, is the only call, and its outcome is passed on. */
  lemma FirstCallDecisive<T, E>(op: nat -> Result<T, BackoffError<E>>, clock: Clock, maxElapsedTime: u64)
    requires !IsTransient(op(0))
    ensures Retry(op, clock, BudgetMillis(maxElapsedTime)).calls == 1
    ensures ExpBackoffResult(op, clock, maxElapsedTime) == Collapse(op(0))
  {
  }

  /**
   * The caller sees the same bare error whether the operation failed permanently or ran out of
   * budget failing transiently: only the error value reaches it.
   */
  lemma ErrorKindInvisible<T, E>(op: nat -> Result<T, BackoffError<E>>, op': nat -> Result<T, BackoffError<E>>, clock: Clock, maxElapsedTime: u64, e: E)
    requires op(0) == Err(Permanent(e))
    requires forall j: nat :: op'(j) == Err(Transient(e))
    ensures ExpBackoffResult(op, clock, maxElapsedTime) == ExpBackoffResult(op', clock, maxElapsedTime) == Err(e)
  {
    AlwaysTransientGivesUp(op', clock, BudgetMillis(maxElapsedTime));
  }

  /** The error `exp_backoff` returns is the error of the operation's last call, whatever its kind. */
  lemma ExpBackoffErrorOrigin<T, E>(op: nat -> Result<T, BackoffError<E>>, clock: Clock, maxElapsedTime: u64)
    ensures var n := Retry(op, clock, BudgetMillis(maxElapsedTime)).calls;
      1 <= n && ExpBackoffResult(op, clock, maxElapsedTime) == Collapse(op(n - 1))
  {
    RetrySettles(op, clock, BudgetMillis(maxElapsedTime));
  }

  /** `exp_backoff`: the retry loop, then the collapse of the error kinds. */
  method ExpBackoff<T, E>(op: nat -> Result<T, BackoffError<E>>, clock: Clock, maxElapsedTime: u64) returns (r: Result<T, E>, calls: nat)
    ensures calls == Retry(op, clock, BudgetMillis(maxElapsedTime)).calls
    ensures r == ExpBackoffResult(op, clock, maxElapsedTime)
  {
    var budget := BudgetMillis(maxElapsedTime);
    var k: nat, start: nat := 0, 0;
    while true
      invariant RetryFrom(op, clock, budget, k, start) == Retry(op, clock, budget)
      decreases budget + 1 - start
    {
      var elapsed := start + clock.attemptTime(k);
      match op(k)
      case Ok(v) =>
        return Ok(v), k + 1;
      case Err(Permanent(e)) =>
        return Err(e), k + 1;
      case Err(Transient(e)) =>
        if elapsed > budget {
          return Err(e), k + 1;
        }
        k, start := k + 1, elapsed + clock.interval(k);
    }
  }
}
