// The language-model calls every filter stage makes, as input traces: each
// attempt yields what the primary model (deepseek) and the fallback model
// (openai) answered, or nothing when a request failed or timed out. A reply
// carries its raw text and what `json.loads` makes of it. The retry loop
// shared by the alpha filters and the tweet scorer is modelled here once:
// at most three attempts, sleeping 2 s and then 4 s between them.

module Oracle {
  import opened Common

  /** One model answer: its text and its decoding (`None`: `JSONDecodeError`). */
  datatype Reply = Reply(text: string, json: Option<Json>)

  /** One attempt: the primary model's answer, then the fallback's. */
  datatype Attempt = Attempt(primary: Option<Reply>, fallback: Option<Reply>)

  /** The attempt a trace records at index `k`; attempts past the end of the
      trace got no answer from either model. */
  function AttemptAt(trace: seq<Attempt>, k: nat): (a: Attempt)
    ensures k >= |trace| ==> a == Attempt(None, None)
    ensures k < |trace| ==> a == trace[k]
  {
    if k < |trace| then trace[k] else Attempt(None, None)
  }

  /** The attempts of the `i`-th model call of a run: one trace per call,
      and no answer at all for calls past the end. */
  function TraceFor(oracle: seq<seq<Attempt>>, i: nat): (t: seq<Attempt>)
    ensures i >= |oracle| ==> t == []
  {
    if i < |oracle| then oracle[i] else []
  }

  /** `response_text`: the primary answer, else the fallback's. */
  function Response(a: Attempt): (r: Option<Reply>)
    ensures a.primary.Some? ==> r == a.primary
    ensures a.primary.None? ==> r == a.fallback
  {
    if a.primary.Some? then a.primary else a.fallback
  }

  /** `response_text.strip().endswith('}')`. */
  predicate LooksComplete(text: string)
  {
    EndsWith(Strip(text), "}")
  }

  /** What one attempt decides: return this result now (possibly `None`), or
      count the attempt as failed and retry. */
  datatype Step<T> = Done(result: Option<T>) | Retry

  const MAX_ATTEMPTS: nat := 3
  const BASE_DELAY: nat := 2

  function Pow2(k: nat): (p: nat)
    ensures p >= 1
  {
    if k == 0 then 1 else 2 * Pow2(k - 1)
  }

  /** `base_delay * (2 ** attempt)`: the sleep after failed attempt `k`. */
  function Backoff(k: nat): (d: nat)
    ensures d >= BASE_DELAY
  {
    BASE_DELAY * Pow2(k)
  }

  /** The judged attempt at index `k`; missing judgements are failures. */
  function StepAt<T>(steps: seq<Step<T>>, k: nat): Step<T>
  {
    if k < |steps| then steps[k] else Retry
  }

  /** How a retry loop ended: its result, the sleeps it took and how many
      attempts it made. */
  datatype RetryRun<T> = RetryRun(result: Option<T>, delays: seq<nat>, attempts: nat)

  /** The loop from attempt `k` on: a decided attempt returns, a failed one
      sleeps unless it was the last. */
  function RetryFrom<T>(steps: seq<Step<T>>, k: nat): RetryRun<T>
    requires k < MAX_ATTEMPTS
    decreases MAX_ATTEMPTS - k
  {
    match StepAt(steps, k)
    case Done(r) => RetryRun(r, [], k + 1)
    case Retry =>
      if k == MAX_ATTEMPTS - 1 then RetryRun(None, [], MAX_ATTEMPTS)
      else
        var rest := RetryFrom(steps, k + 1);
        RetryRun(rest.result, [Backoff(k)] + rest.delays, rest.attempts)
  }

  function RetrySpec<T>(steps: seq<Step<T>>): RetryRun<T>
  {
    RetryFrom(steps, 0)
  }

  lemma {:induction false} RetryFromShape<T>(steps: seq<Step<T>>, k: nat)
    requires k < MAX_ATTEMPTS
    ensures var run := RetryFrom(steps, k);
      && k < run.attempts <= MAX_ATTEMPTS
      && |run.delays| == run.attempts - 1 - k
      && (forall j :: 0 <= j < |run.delays| ==> run.delays[j] == Backoff(k + j))
      && (forall j :: k <= j < run.attempts - 1 ==> StepAt(steps, j).Retry?)
      && (StepAt(steps, run.attempts - 1).Done? ==> run.result == StepAt(steps, run.attempts - 1).result)
      && (StepAt(steps, run.attempts - 1).Retry? ==> run.attempts == MAX_ATTEMPTS && run.result.None?)
    decreases MAX_ATTEMPTS - k
  {
    if StepAt(steps, k).Retry? && k < MAX_ATTEMPTS - 1 {
      RetryFromShape(steps, k + 1);
    }
  }

  /** The retry loop makes at least one and at most three attempts, stops at
      the first decided one and returns its result, sleeps only between
      attempts (2 s, then 4 s), and yields `None` when every attempt failed. */
  lemma RetrySpecShape<T>(steps: seq<Step<T>>)
    ensures var run := RetrySpec(steps);
      && 1 <= run.attempts <= MAX_ATTEMPTS
      && run.delays == [2, 4][..run.attempts - 1]
      && (forall j :: 0 <= j < run.attempts - 1 ==> StepAt(steps, j).Retry?)
      && (StepAt(steps, run.attempts - 1).Done? ==> run.result == StepAt(steps, run.attempts - 1).result)
      && (StepAt(steps, run.attempts - 1).Retry? ==> run.attempts == MAX_ATTEMPTS && run.result.None?)
  {
    RetryFromShape(steps, 0);
    var run := RetrySpec(steps);
    assert Backoff(0) == 2 && Backoff(1) == 4;
    assert run.delays == [2, 4][..run.attempts - 1];
  }

  /** A result the retry loop returns is the result of one of its attempts. */
  lemma RetryResultIsAStep<T>(steps: seq<Step<T>>) returns (k: nat)
    requires RetrySpec(steps).result.Some?
    ensures k < MAX_ATTEMPTS && StepAt(steps, k) == Done(RetrySpec(steps).result)
  {
    RetrySpecShape(steps);
    k := RetrySpec(steps).attempts - 1;
  }

  /** The attempt loop `for attempt in range(max_retries)` with its sleeps. */
  method RetryLoop<T>(steps: seq<Step<T>>) returns (run: RetryRun<T>)
    ensures run == RetrySpec(steps)
  {
    var delays: seq<nat> := [];
    var attempt := 0;
    while attempt < MAX_ATTEMPTS
      invariant 0 <= attempt <= MAX_ATTEMPTS
      invariant attempt < MAX_ATTEMPTS ==>
        RetrySpec(steps) == RetryRun(RetryFrom(steps, attempt).result,
                                     delays + RetryFrom(steps, attempt).delays,
                                     RetryFrom(steps, attempt).attempts)
      invariant attempt == MAX_ATTEMPTS ==> RetrySpec(steps) == RetryRun(None, delays, MAX_ATTEMPTS)
    {
      var step := StepAt(steps, attempt);
      if step.Done? {
        return RetryRun(step.result, delays, attempt + 1);
      }
      if attempt < MAX_ATTEMPTS - 1 {
        delays := delays + [Backoff(attempt)];
      }
      attempt := attempt + 1;
    }
    return RetryRun(None, delays, MAX_ATTEMPTS);
  }
}
