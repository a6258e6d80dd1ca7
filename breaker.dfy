// The circuit breaker that guards every oracle stage (alpha filter, content
// filter, news filter, tweet scorer). The same class appears verbatim in six
// files; it is modelled once here. Clock readings are whole seconds and are
// passed in by the caller.

module Breaker {
  import opened Common

  const MAX_FAILURES: nat := 5
  const RESET_TIMEOUT: nat := 60
  const SECONDS_PER_DAY: nat := 86400

  /** The breaker's two fields as a value. */
  datatype BreakerState = BreakerState(failureCount: nat, lastFailureTime: Option<int>)

  const Closed := BreakerState(0, None)

  /** Every reachable state: a failure time is recorded exactly when some
      failure has been counted. */
  predicate WellFormed(s: BreakerState)
  {
    (s.failureCount == 0) == s.lastFailureTime.None?
  }

  /** `(now - last_failure_time).seconds` as written: `timedelta.seconds` is
      only the seconds-within-the-day component, so whole days are dropped. */
  function TimedeltaSeconds(elapsed: int): (r: nat)
    ensures r < SECONDS_PER_DAY
    ensures (elapsed - r) % SECONDS_PER_DAY == 0
  {
    elapsed % SECONDS_PER_DAY
  }

  /** `check()` as written raises "Circuit breaker open" in this state. */
  predicate RefusesAsWritten(s: BreakerState, now: int)
  {
    s.failureCount >= MAX_FAILURES && s.lastFailureTime.Some?
    && TimedeltaSeconds(now - s.lastFailureTime.value) < RESET_TIMEOUT
  }

  /** `check()` with the evidently intended elapsed-time test: it refuses
      while the last failure is less than `RESET_TIMEOUT` seconds old. */
  predicate Refuses(s: BreakerState, now: int)
  {
    s.failureCount >= MAX_FAILURES && s.lastFailureTime.Some?
    && now - s.lastFailureTime.value < RESET_TIMEOUT
  }

  /** State after a `check()` that did not refuse. */
  function AfterCheck(s: BreakerState, now: int): (r: BreakerState)
    requires !Refuses(s, now)
    ensures s.failureCount >= MAX_FAILURES ==> r == Closed
    ensures s.failureCount < MAX_FAILURES ==> r == s
  {
    if s.failureCount >= MAX_FAILURES then Closed else s
  }

  /** State after `record_failure()`. */
  function AfterFailure(s: BreakerState, now: int): (r: BreakerState)
    ensures r.failureCount == s.failureCount + 1
    ensures r.lastFailureTime == Some(now)
    ensures WellFormed(r)
  {
    BreakerState(s.failureCount + 1, Some(now))
  }

  /** `n` failures recorded at time `now` starting from `s`. */
  function FailuresAt(s: BreakerState, n: nat, now: int): (r: BreakerState)
  {
    if n == 0 then s else AfterFailure(FailuresAt(s, n - 1, now), now)
  }

  lemma {:induction false} FailuresAtCount(s: BreakerState, n: nat, now: int)
    ensures FailuresAt(s, n, now).failureCount == s.failureCount + n
    ensures n > 0 ==> FailuresAt(s, n, now).lastFailureTime == Some(now)
  {
    if n > 0 {
      FailuresAtCount(s, n - 1, now);
    }
  }

  /** Five failures trip a closed breaker, and it refuses for the next
      `RESET_TIMEOUT` seconds. */
  lemma FiveFailuresTrip(now: int, later: int)
    requires now <= later < now + RESET_TIMEOUT
    ensures Refuses(FailuresAt(Closed, MAX_FAILURES, now), later)
  {
    FailuresAtCount(Closed, MAX_FAILURES, now);
  }

  /** Fewer than five failures never trip the breaker. */
  lemma FewFailuresNeverRefuse(n: nat, now: int, later: int)
    requires n < MAX_FAILURES
    ensures !Refuses(FailuresAt(Closed, n, now), later)
  {
    FailuresAtCount(Closed, n, now);
  }

  /** With the intended test, once the timeout has passed the breaker never
      refuses again until a new failure is recorded, and the first check after
      the timeout closes it. */
  lemma RefusalWindowIsContiguous(s: BreakerState, now: int, later: int)
    requires WellFormed(s)
    requires !Refuses(s, now) && now <= later
    requires s.failureCount >= MAX_FAILURES
    ensures !Refuses(s, later)
    ensures AfterCheck(s, now) == Closed
  {
  }

  /** As written, a breaker that tripped at time 0 refuses again one day
      later, although the timeout passed long before. */
  lemma AsWrittenReopensAfterADay()
    ensures !RefusesAsWritten(FailuresAt(Closed, MAX_FAILURES, 0), 100)
    ensures RefusesAsWritten(FailuresAt(Closed, MAX_FAILURES, 0), SECONDS_PER_DAY + 30)
    ensures !Refuses(FailuresAt(Closed, MAX_FAILURES, 0), SECONDS_PER_DAY + 30)
  {
    FailuresAtCount(Closed, MAX_FAILURES, 0);
    var s := FailuresAt(Closed, MAX_FAILURES, 0);
    assert s == BreakerState(MAX_FAILURES, Some(0));
    assert TimedeltaSeconds(100) == 100;
    assert TimedeltaSeconds(SECONDS_PER_DAY + 30) == 30;
  }

  /** The breaker object: `failure_count` and `last_failure_time` are updated
      in place by `check`, `record_failure` and `reset`. */
  class CircuitBreaker {
    var failureCount: nat
    var lastFailureTime: Option<int>

    function State(): BreakerState
      reads this
    {
      BreakerState(failureCount, lastFailureTime)
    }

    ghost predicate Valid()
      reads this
    {
      WellFormed(State())
    }

    constructor ()
      ensures Valid() && State() == Closed
    {
      failureCount := 0;
      lastFailureTime := None;
    }

    /** `check()`: true when it raises "Circuit breaker open"; otherwise a
        tripped breaker is reset. */
    method Check(now: int) returns (refused: bool)
      requires Valid()
      modifies this
      ensures Valid()
      ensures refused == Refuses(old(State()), now)
      ensures refused ==> State() == old(State())
      ensures !refused ==> State() == AfterCheck(old(State()), now)
    {
      if failureCount >= MAX_FAILURES {
        if now - lastFailureTime.value < RESET_TIMEOUT {
          return true;
        } else {
          Reset();
        }
      }
      return false;
    }

    /** `record_failure()`. */
    method RecordFailure(now: int)
      requires Valid()
      modifies this
      ensures Valid()
      ensures State() == AfterFailure(old(State()), now)
    {
      failureCount := failureCount + 1;
      lastFailureTime := Some(now);
    }

    /** `reset()`. */
    method Reset()
      modifies this
      ensures Valid() && State() == Closed
    {
      failureCount := 0;
      lastFailureTime := None;
    }
  }
}
