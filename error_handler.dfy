// error_handler.py: the `RetryConfig` backoff counter and the `with_retry`
// decorator. The decorated coroutine is an oracle: `calls(k)` is what its
// k-th invocation (counting from 0) does.

module ErrorHandler {
  import opened Common

  /** What one invocation of the wrapped function does. */
  datatype Outcome<T> = Return(value: T) | Fail(kind: string, message: string)

  /** What `with_retry`'s wrapper does in the end. `Exhausted(None)` is
      `raise None`, a `TypeError`, reached only when `max_retries <= 0`. */
  datatype RetryResult<T> =
    | Returned(value: T, invocations: nat)
    | Propagated(kind: string, message: string, invocations: nat)
    | Exhausted(lastError: Option<string>)

  function Pow(x: real, n: nat): real
  {
    if n == 0 then 1.0 else x * Pow(x, n - 1)
  }

  function MinReal(a: real, b: real): real
  {
    if a <= b then a else b
  }

  /** The delay `get_next_delay` returns when it raises the counter to `k`. */
  function BackoffDelay(baseDelay: real, backoffFactor: real, maxDelay: real, k: nat): (d: real)
    requires k >= 1
    ensures d <= maxDelay
    ensures d == maxDelay || d == baseDelay * Pow(backoffFactor, k - 1)
  {
    MinReal(baseDelay * Pow(backoffFactor, k - 1), maxDelay)
  }

  class RetryConfig {
    const maxRetries: int
    const baseDelay: real
    const maxDelay: real
    const backoffFactor: real
    /** `retry_on`; `None` is the default `(Exception,)`, which catches every
        error. An empty tuple is falsy, so `retry_on or (Exception,)` turns it
        into the default as well. */
    const retryOn: Option<set<string>>
    var attemptCount: nat
    var lastAttempt: Option<int>

    constructor (maxRetries: int, baseDelay: real, maxDelay: real, backoffFactor: real, retryOn: Option<set<string>>)
      ensures this.maxRetries == maxRetries && this.baseDelay == baseDelay
      ensures this.maxDelay == maxDelay && this.backoffFactor == backoffFactor
      ensures retryOn.Some? && retryOn.value != {} ==> this.retryOn == retryOn
      ensures retryOn.None? || retryOn.value == {} ==> this.retryOn.None?
      ensures forall kind :: retryOn.None? || retryOn.value == {} ==> Catches(kind)
      ensures attemptCount == 0 && lastAttempt == None
    {
      this.maxRetries := maxRetries;
      this.baseDelay := baseDelay;
      this.maxDelay := maxDelay;
      this.backoffFactor := backoffFactor;
      this.retryOn := if retryOn == Some({}) then None else retryOn;
      attemptCount := 0;
      lastAttempt := None;
    }

    /** Whether the `except config.retry_on` clause catches an error of this kind. */
    predicate Catches(kind: string)
    {
      retryOn.None? || kind in retryOn.value
    }

    /** `reset()`. */
    method Reset()
      modifies this
      ensures attemptCount == 0 && lastAttempt == None
    {
      attemptCount := 0;
      lastAttempt := None;
    }

    /** `get_next_delay()`: counts the attempt and returns the capped
        exponential delay for it. */
    method GetNextDelay(now: int) returns (delay: real)
      modifies this
      ensures attemptCount == old(attemptCount) + 1
      ensures lastAttempt == Some(now)
      ensures delay == BackoffDelay(baseDelay, backoffFactor, maxDelay, attemptCount)
      ensures delay <= maxDelay
    {
      attemptCount := attemptCount + 1;
      delay := MinReal(baseDelay * Pow(backoffFactor, attemptCount - 1), maxDelay);
      lastAttempt := Some(now);
    }
  }

  /** The wrapper from loop index `attempt` on, `lastError` being the message
      of the last caught error. */
  function RetryFrom<T>(calls: nat -> Outcome<T>, maxRetries: int, catches: string -> bool,
                        attempt: nat, lastError: Option<string>): RetryResult<T>
    decreases maxRetries - attempt
  {
    if attempt >= maxRetries then Exhausted(lastError)
    else match calls(attempt)
      case Return(v) => Returned(v, attempt + 1)
      case Fail(kind, msg) =>
        if catches(kind) then RetryFrom(calls, maxRetries, catches, attempt + 1, Some(msg))
        else Propagated(kind, msg, attempt + 1)
  }

  function WithRetrySpec<T>(calls: nat -> Outcome<T>, maxRetries: int, catches: string -> bool): RetryResult<T>
  {
    RetryFrom(calls, maxRetries, catches, 0, None)
  }

  /** Every invocation before index `k` failed with a caught error. */
  predicate CaughtBefore<T>(calls: nat -> Outcome<T>, catches: string -> bool, k: nat)
  {
    forall j: nat :: j < k ==> calls(j).Fail? && catches(calls(j).kind)
  }

  lemma {:induction false} RetryFromShape<T>(calls: nat -> Outcome<T>, maxRetries: int, catches: string -> bool,
                                             attempt: nat, lastError: Option<string>)
    requires CaughtBefore(calls, catches, attempt)
    ensures var r := RetryFrom(calls, maxRetries, catches, attempt, lastError);
      && (r.Returned? ==> attempt < r.invocations <= maxRetries
                          && CaughtBefore(calls, catches, r.invocations - 1)
                          && calls(r.invocations - 1) == Return(r.value))
      && (r.Propagated? ==> attempt < r.invocations <= maxRetries
                            && CaughtBefore(calls, catches, r.invocations - 1)
                            && calls(r.invocations - 1) == Fail(r.kind, r.message)
                            && !catches(r.kind))
      && (r.Exhausted? ==> CaughtBefore(calls, catches, if maxRetries < 0 then 0 else maxRetries)
                           && (attempt < maxRetries ==> r.lastError == Some(calls(maxRetries - 1).message))
                           && (attempt >= maxRetries ==> r.lastError == lastError))
    decreases maxRetries - attempt
  {
    if attempt < maxRetries {
      match calls(attempt)
      case Return(v) =>
      case Fail(kind, msg) =>
        if catches(kind) {
          assert CaughtBefore(calls, catches, attempt + 1) by {
            forall j: nat | j < attempt + 1
              ensures calls(j).Fail? && catches(calls(j).kind)
            {
              if j < attempt {
                assert calls(j).Fail? && catches(calls(j).kind);
              }
            }
          }
          RetryFromShape(calls, maxRetries, catches, attempt + 1, Some(msg));
        }
    } else {
      assert CaughtBefore(calls, catches, if maxRetries < 0 then 0 else maxRetries) by {
        forall j: nat | j < (if maxRetries < 0 then 0 else maxRetries)
          ensures calls(j).Fail? && catches(calls(j).kind)
        {
          assert j < attempt;
        }
      }
    }
  }

  /** `with_retry` returns the first successful result, propagates the first
      error outside `retry_on`, and otherwise, after exactly `max_retries`
      caught failures, re-raises the last one; it never invokes the function
      more than `max_retries` times. */
  lemma WithRetryCharacterised<T>(calls: nat -> Outcome<T>, maxRetries: int, catches: string -> bool)
    ensures var r := WithRetrySpec(calls, maxRetries, catches);
      && (r.Returned? ==> 0 < r.invocations <= maxRetries
                          && CaughtBefore(calls, catches, r.invocations - 1)
                          && calls(r.invocations - 1) == Return(r.value))
      && (r.Propagated? ==> 0 < r.invocations <= maxRetries
                            && CaughtBefore(calls, catches, r.invocations - 1)
                            && !catches(r.kind))
      && (r.Exhausted? && maxRetries > 0 ==> CaughtBefore(calls, catches, maxRetries)
                                             && r.lastError == Some(calls(maxRetries - 1).message))
      && (r.Exhausted? && maxRetries <= 0 ==> r.lastError == None)
  {
    RetryFromShape(calls, maxRetries, catches, 0, None);
  }

  /** The default `retry_on=(Exception,)`: every error is caught. */
  predicate CatchAll(kind: string)
  {
    true
  }

  /** The wrapper depends on `retry_on` only through which kinds it catches. */
  lemma {:induction false} RetryFromSameCatches<T>(calls: nat -> Outcome<T>, maxRetries: int,
                                                   c1: string -> bool, c2: string -> bool,
                                                   attempt: nat, lastError: Option<string>)
    requires forall kind :: c1(kind) == c2(kind)
    ensures RetryFrom(calls, maxRetries, c1, attempt, lastError)
         == RetryFrom(calls, maxRetries, c2, attempt, lastError)
    decreases maxRetries - attempt
  {
    if attempt < maxRetries && calls(attempt).Fail? && c1(calls(attempt).kind) {
      RetryFromSameCatches(calls, maxRetries, c1, c2, attempt + 1, Some(calls(attempt).message));
    }
  }

  /** A configuration without `retry_on` retries exactly as a catch-all does. */
  lemma DefaultCatchesAll<T>(config: RetryConfig, calls: nat -> Outcome<T>)
    requires config.retryOn.None?
    ensures WithRetrySpec(calls, config.maxRetries, config.Catches)
         == WithRetrySpec(calls, config.maxRetries, CatchAll)
  {
    RetryFromSameCatches(calls, config.maxRetries, config.Catches, CatchAll, 0, None);
  }

  /** With no retries configured the wrapper never calls the function and
      executes `raise None`. */
  lemma NoRetriesRaisesNone<T>(calls: nat -> Outcome<T>, catches: string -> bool)
    ensures WithRetrySpec(calls, 0, catches) == Exhausted(None)
  {
  }

  function InvocationsOf<T>(r: RetryResult<T>, maxRetries: int): nat
  {
    match r
    case Returned(_, n) => n
    case Propagated(_, _, n) => n
    case Exhausted(_) => if maxRetries < 0 then 0 else maxRetries
  }

  /** The wrapper produced by `with_retry(config)` applied to the function
      whose invocations are `calls`. `delays` are the sleeps, in order: one
      before every invocation but the first. */
  method WithRetry<T>(config: RetryConfig, calls: nat -> Outcome<T>, now: int)
    returns (r: RetryResult<T>, delays: seq<real>)
    modifies config
    ensures r == WithRetrySpec(calls, config.maxRetries, config.Catches)
    ensures InvocationsOf(r, config.maxRetries) > 0 ==> |delays| == InvocationsOf(r, config.maxRetries) - 1
    ensures InvocationsOf(r, config.maxRetries) == 0 ==> delays == []
    ensures forall i :: 0 <= i < |delays| ==>
      delays[i] == BackoffDelay(config.baseDelay, config.backoffFactor, config.maxDelay, i + 1)
    ensures config.attemptCount == |delays|
  {
    config.Reset();
    var lastError: Option<string> := None;
    var attempt: nat := 0;
    delays := [];
    while attempt < config.maxRetries
      invariant RetryFrom(calls, config.maxRetries, config.Catches, attempt, lastError)
             == WithRetrySpec(calls, config.maxRetries, config.Catches)
      invariant |delays| == if attempt == 0 then 0 else attempt - 1
      invariant config.attemptCount == |delays|
      invariant forall i :: 0 <= i < |delays| ==>
        delays[i] == BackoffDelay(config.baseDelay, config.backoffFactor, config.maxDelay, i + 1)
      invariant attempt > 0 ==> attempt <= config.maxRetries
      decreases config.maxRetries - attempt
    {
      if attempt > 0 {
        var d := config.GetNextDelay(now);
        delays := delays + [d];
      }
      match calls(attempt)
      case Return(v) =>
        return Returned(v, attempt + 1), delays;
      case Fail(kind, msg) =>
        if !config.Catches(kind) {
          return Propagated(kind, msg, attempt + 1), delays;
        }
        lastError := Some(msg);
      attempt := attempt + 1;
    }
    r := Exhausted(lastError);
  }

  /** A factor of at least 1 raised to a higher power is no smaller. */
  lemma {:induction false} PowMonotone(x: real, i: nat, j: nat)
    requires x >= 1.0 && i <= j
    ensures 1.0 <= Pow(x, i) <= Pow(x, j)
    decreases j
  {
    if j > i {
      PowMonotone(x, i, j - 1);
      assert Pow(x, j) == x * Pow(x, j - 1);
      assert Pow(x, j - 1) <= x * Pow(x, j - 1);
    } else if i > 0 {
      PowMonotone(x, i - 1, i - 1);
      assert Pow(x, i) == x * Pow(x, i - 1);
    }
  }

  /** For a non-negative base delay and a factor of at least 1, the delays
      never shrink from one retry to the next, never exceed the cap, and
      the first is the base delay when that is under the cap. */
  lemma BackoffGrows(baseDelay: real, backoffFactor: real, maxDelay: real, j: nat, k: nat)
    requires baseDelay >= 0.0 && backoffFactor >= 1.0 && 1 <= j <= k
    ensures BackoffDelay(baseDelay, backoffFactor, maxDelay, j) <= BackoffDelay(baseDelay, backoffFactor, maxDelay, k) <= maxDelay
    ensures BackoffDelay(baseDelay, backoffFactor, maxDelay, 1) == MinReal(baseDelay, maxDelay)
  {
    PowMonotone(backoffFactor, j - 1, k - 1);
    assert baseDelay * Pow(backoffFactor, j - 1) <= baseDelay * Pow(backoffFactor, k - 1);
    assert Pow(backoffFactor, 0) == 1.0;
  }
}
