// tweet_scorer.py: each tweet of a column is scored against its category by
// the deepseek model. One scoring call checks the breaker, builds the prompt
// and makes at most three attempts; an answer counts only when it is a
// complete JSON object carrying the four scores. A column's tweets become one
// scoring task each, built chunk by chunk.

module TweetScorer {
  import opened Common
  import opened Oracle
  import opened Breaker

  const SCORE_FIELDS: seq<string> := ["relevance", "significance", "impact", "ecosystem_relevance"]
  const CHUNK_SIZE: nat := 5
  const CHUNK_PAUSE: nat := 2

  /** `_validate_score_response`: the decoded answer when `json.loads`
      succeeded and each score field is `in` it; `None` where it raises. */
  function ValidateScoreResponse(decoded: Option<Json>): (r: Option<Json>)
    ensures decoded.None? ==> r.None?
    ensures r.Some? ==> r == decoded && (r.value.JObj? || r.value.JList? || r.value.JStr?)
    ensures decoded.Some? && decoded.value.JObj? ==>
      (r.Some? <==> forall i :: 0 <= i < |SCORE_FIELDS| ==> HasKey(decoded.value.entries, SCORE_FIELDS[i]))
  {
    if decoded.Some? && decoded.value.JObj? then
      assert forall i :: 0 <= i < |SCORE_FIELDS| ==>
        PyIn(SCORE_FIELDS[i], decoded.value) == Some(HasKey(decoded.value.entries, SCORE_FIELDS[i]));
      if AllIn(SCORE_FIELDS, decoded.value) then decoded else None
    else if decoded.Some? && AllIn(SCORE_FIELDS, decoded.value) then
      assert PyIn(SCORE_FIELDS[0], decoded.value).Some?;
      decoded
    else None
  }

  /** A value `sum` can add and `:.2f` can format: a Python int, float or
      bool, as a real. */
  function Number(j: Json): (r: Option<real>)
    ensures r.Some? <==> j.JInt? || j.JReal? || j.JBool?
  {
    match j
    case JInt(i) => Some(i as real)
    case JReal(x) => Some(x)
    case JBool(b) => Some(if b then 1.0 else 0.0)
    case _ => None
  }

  /** A score as `result.get(field, 0)` reads it. */
  function Score(r: Record, field: string): Option<real>
  {
    Number(GetOr(r, field, JInt(0)))
  }

  /** `sum(scores) / len(scores)` over the four scores; `None` where `sum`
      raises on a value that is not a number. */
  function Mean(r: Record): Option<real>
  {
    match SumOf(r, SCORE_FIELDS)
    case None => None
    case Some(total) => Some(total / (|SCORE_FIELDS| as real))
  }

  /** `sum` over the scores of `fields`, in order. */
  function SumOf(r: Record, fields: seq<string>): Option<real>
    decreases |fields|
  {
    if fields == [] then Some(0.0)
    else
      match SumOf(r, fields[..|fields| - 1])
      case None => None
      case Some(total) =>
        match Score(r, fields[|fields| - 1])
        case None => None
        case Some(x) => Some(total + x)
  }

  /** The averaging step together with the `:.2f` of the success log line;
      `None` where either step raises. */
  function WithAverage(r: Record): Option<Record>
  {
    if HasKey(r, "average_score") then
      if Number(Field(r, "average_score")).Some? then Some(r) else None
    else
      match Mean(r)
      case None => None
      case Some(m) => Some(Set(r, "average_score", JReal(m)))
  }

  /** The mean exists exactly when each of the four scores, read with a
      default of 0, is a number; it is then their sum divided by four. */
  lemma MeanOfScores(r: Record)
    ensures Mean(r).Some? <==> forall i :: 0 <= i < |SCORE_FIELDS| ==> Score(r, SCORE_FIELDS[i]).Some?
    ensures Mean(r).Some? ==>
      && Score(r, "relevance").Some? && Score(r, "significance").Some?
      && Score(r, "impact").Some? && Score(r, "ecosystem_relevance").Some?
      && Mean(r).value == (Score(r, "relevance").value + Score(r, "significance").value
                        + Score(r, "impact").value + Score(r, "ecosystem_relevance").value) / 4.0
  {
    var f3: seq<string> := ["relevance", "significance", "impact"];
    var f2: seq<string> := ["relevance", "significance"];
    var f1: seq<string> := ["relevance"];
    assert SCORE_FIELDS[..3] == f3 && f3[..2] == f2 && f2[..1] == f1 && f1[..0] == [];
    assert SumOf(r, f1) == if Score(r, "relevance").Some? then Some(0.0 + Score(r, "relevance").value) else None;
    assert SCORE_FIELDS[0] == "relevance" && SCORE_FIELDS[1] == "significance";
    assert SCORE_FIELDS[2] == "impact" && SCORE_FIELDS[3] == "ecosystem_relevance";
  }

  /** An answer without `average_score` gets the mean of its four scores,
      an answer with a numeric one keeps it, and either way the answer's
      keys survive and the average is a number; the step raises exactly when
      the average it would print is missing or not a number. */
  lemma WithAverageShape(r: Record)
    ensures WithAverage(r).Some? ==> Number(Field(WithAverage(r).value, "average_score")).Some?
    ensures WithAverage(r).Some? ==> forall k :: HasKey(r, k) ==> HasKey(WithAverage(r).value, k)
    ensures HasKey(r, "average_score") ==>
      (WithAverage(r).Some? <==> Number(Field(r, "average_score")).Some?) && (WithAverage(r).Some? ==> WithAverage(r) == Some(r))
    ensures !HasKey(r, "average_score") ==>
      (WithAverage(r).Some? <==> Mean(r).Some?) &&
      (WithAverage(r).Some? ==> Get(WithAverage(r).value, "average_score") == Some(JReal(Mean(r).value)))
  {
    if !HasKey(r, "average_score") && Mean(r).Some? {
      var out := Set(r, "average_score", JReal(Mean(r).value));
      GetSetSame(r, "average_score", JReal(Mean(r).value));
      forall k | HasKey(r, k) ensures HasKey(out, k) {
        SetHasKey(r, "average_score", JReal(Mean(r).value), k);
      }
    }
  }

  /** `result['tweet_id'] = tweet['id']; result['category'] = category`. */
  function Scored(r: Record, id: Json, category: Json): Record
  {
    SetAll(r, [("tweet_id", id), ("category", category)])
  }

  /** What a returned score carries: the tweet's id, the category, the four
      scores and a numeric average. */
  predicate Tagged(r: Record, id: Json, category: Json)
  {
    && Get(r, "tweet_id") == Some(id) && Get(r, "category") == Some(category)
    && (forall i :: 0 <= i < |SCORE_FIELDS| ==> HasKey(r, SCORE_FIELDS[i]))
    && Number(Field(r, "average_score")).Some?
  }

  /** One attempt of the retry loop on the deepseek answer: no answer, an
      answer not ending in '}', one that does not decode, lacks a score, is
      not an object or has a non-numeric score or average is a failed
      attempt; anything else returns the tagged score. */
  function ScoreStep(a: Attempt, id: Json, category: Json): (s: Step<Record>)
    ensures a.primary.None? ==> s.Retry?
    ensures a.primary.Some? && !LooksComplete(a.primary.value.text) ==> s.Retry?
    ensures s.Done? ==> s.result.Some?
  {
    match a.primary
    case None => Retry
    case Some(reply) =>
      if !LooksComplete(reply.text) then Retry
      else
        match ValidateScoreResponse(reply.json)
        case None => Retry
        case Some(j) =>
          if !j.JObj? then Retry
          else
            match WithAverage(j.entries)
            case None => Retry
            case Some(r) => Done(Some(Scored(r, id, category)))
  }

  /** A score an attempt returns comes from a complete answer that decoded
      to an object with the four scores, and carries the tweet's id, the
      category, the four scores and a numeric average. */
  lemma ScoreStepDone(a: Attempt, id: Json, category: Json)
    requires ScoreStep(a, id, category).Done?
    ensures a.primary.Some? && LooksComplete(a.primary.value.text)
    ensures a.primary.value.json.Some? && a.primary.value.json.value.JObj?
    ensures forall i :: 0 <= i < |SCORE_FIELDS| ==> HasKey(a.primary.value.json.value.entries, SCORE_FIELDS[i])
    ensures Tagged(ScoreStep(a, id, category).result.value, id, category)
  {
    var answer := a.primary.value.json.value.entries;
    WithAverageShape(answer);
    var r := WithAverage(answer).value;
    assert forall i :: 0 <= i < |SCORE_FIELDS| ==> HasKey(r, SCORE_FIELDS[i]);
    ScoredIsTagged(r, id, category);
  }

  lemma ScoredIsTagged(r: Record, id: Json, category: Json)
    requires forall i :: 0 <= i < |SCORE_FIELDS| ==> HasKey(r, SCORE_FIELDS[i])
    requires Number(Field(r, "average_score")).Some?
    ensures Tagged(Scored(r, id, category), id, category)
  {
    var kvs := [("tweet_id", id), ("category", category)];
    var out := SetAll(r, kvs);
    assert DistinctKeys(kvs);
    SetAllGetDistinct(r, kvs);
    assert kvs[0].0 == "tweet_id" && kvs[1].0 == "category";
    SetAllOther(r, kvs, "average_score");
    assert Field(out, "average_score") == Field(r, "average_score");
    forall i | 0 <= i < |SCORE_FIELDS| ensures HasKey(out, SCORE_FIELDS[i]) {
      SetAllHasKey(r, kvs, SCORE_FIELDS[i]);
    }
  }

  /** The three attempts of the retry loop, each judged by `ScoreStep`. */
  function ScoreSteps(trace: seq<Attempt>, id: Json, category: Json): seq<Step<Record>>
  {
    seq(MAX_ATTEMPTS, k requires 0 <= k < MAX_ATTEMPTS => ScoreStep(AttemptAt(trace, k), id, category))
  }

  /** The attempt at index `k` is judged by `ScoreStep`. */
  lemma ScoreStepsAt(trace: seq<Attempt>, id: Json, category: Json, k: nat)
    requires k < MAX_ATTEMPTS
    ensures StepAt(ScoreSteps(trace, id, category), k) == ScoreStep(AttemptAt(trace, k), id, category)
  {
  }

  /** `tweet.get(key)` is falsy, or `tweet[key]['text']` is a string that
      `"Quoted content: " + ...` can append. */
  predicate NestedTextReady(t: Record, key: string)
  {
    var v := Field(t, key);
    !Truthy(v) || (v.JObj? && Get(v.entries, "text").Some? && Get(v.entries, "text").value.JStr?)
  }

  /** `_prepare_scoring_prompt` returns instead of raising: the tweet has a
      text and an author, and its quoted and reposted contents are readable. */
  predicate ScorePromptReady(t: Record)
  {
    HasKey(t, "text") && HasKey(t, "authorHandle")
    && NestedTextReady(t, "quotedContent") && NestedTextReady(t, "repostedContent")
  }

  /** `tweet['id']` does not raise. */
  predicate HasId(tweet: Json)
  {
    tweet.JObj? && HasKey(tweet.entries, "id")
  }

  /** How one `score_tweet` call ends: its result, whether an exception
      escaped it, the breaker after it, the sleeps of its retry loop and the
      number of model requests it made. */
  datatype ScoreRun = ScoreRun(result: Option<Record>, raised: bool, breaker: BreakerState,
                               delays: seq<nat>, requests: nat)

  /** `score_tweet`. An open breaker and a prompt that cannot be built both
      land in the outer handler, which records a failure. Every log line
      names `tweet['id']`, so a tweet without an id raises out of whichever
      handler runs first: the outer one, or the inner one of the first
      attempt, which then raises out of the outer one as well. */
  function ScoreSpec(b: BreakerState, tweet: Json, category: Json, trace: seq<Attempt>, now: int): ScoreRun
  {
    if Refuses(b, now) then ScoreRun(None, !HasId(tweet), AfterFailure(b, now), [], 0)
    else
      var checked := AfterCheck(b, now);
      if !tweet.JObj? || !ScorePromptReady(tweet.entries) then
        ScoreRun(None, !HasId(tweet), AfterFailure(checked, now), [], 0)
      else if !HasId(tweet) then ScoreRun(None, true, AfterFailure(checked, now), [], 1)
      else
        var run := RetrySpec(ScoreSteps(trace, Field(tweet.entries, "id"), category));
        ScoreRun(run.result, false, checked, run.delays, run.attempts)
  }

  /** A score `score_tweet` returns is the tweet's: it carries the tweet's
      id, the category, the four scores and a numeric average; and nothing
      escaped the call, whose breaker is the one its check left. */
  lemma ScoreTweetTagged(b: BreakerState, tweet: Json, category: Json, trace: seq<Attempt>, now: int)
    requires ScoreSpec(b, tweet, category, trace, now).result.Some?
    ensures HasId(tweet) && !Refuses(b, now)
    ensures var run := ScoreSpec(b, tweet, category, trace, now);
      && Tagged(run.result.value, Field(tweet.entries, "id"), category)
      && !run.raised && run.breaker == AfterCheck(b, now)
  {
    var id := Field(tweet.entries, "id");
    var steps := ScoreSteps(trace, id, category);
    assert Tagged(RetrySpec(steps).result.value, id, category) by {
      var k := RetryResultIsAStep(steps);
      ScoreStepsAt(trace, id, category, k);
      ScoreStepDone(AttemptAt(trace, k), id, category);
    }
  }

  /** The attempts of `score_tweet`: a tweet that reaches the model gets
      one to three requests, sleeping 2 s and then 4 s between them, and
      `None` when none of them answered with a valid score; an open breaker
      or an unbuildable prompt makes no request. */
  lemma ScoreTweetAttempts(b: BreakerState, tweet: Json, category: Json, trace: seq<Attempt>, now: int)
    ensures var run := ScoreSpec(b, tweet, category, trace, now);
      && run.requests <= MAX_ATTEMPTS
      && run.delays == [2, 4][..|run.delays|]
      && (run.requests == 0 <==> Refuses(b, now) || !tweet.JObj? || !ScorePromptReady(tweet.entries))
      && (HasId(tweet) && run.requests > 0 ==> |run.delays| == run.requests - 1)
      && (HasId(tweet) && (forall k :: 0 <= k < MAX_ATTEMPTS ==> ScoreStep(AttemptAt(trace, k), Field(tweet.entries, "id"), category).Retry?) ==>
            run.result.None? && (run.requests > 0 ==> run.requests == MAX_ATTEMPTS))
  {
    if !Refuses(b, now) && tweet.JObj? && ScorePromptReady(tweet.entries) && HasId(tweet) {
      var steps := ScoreSteps(trace, Field(tweet.entries, "id"), category);
      RetrySpecShape(steps);
      var run := RetrySpec(steps);
      ScoreStepsAt(trace, Field(tweet.entries, "id"), category, run.attempts - 1);
    }
  }

  /** What `score_tweet` does to the breaker: a refusal and an unbuildable
      prompt each record a failure; attempts that fail do not, so a tweet
      that reaches the model leaves the breaker as its check left it. */
  lemma ScoreTweetBreaker(b: BreakerState, tweet: Json, category: Json, trace: seq<Attempt>, now: int)
    ensures var run := ScoreSpec(b, tweet, category, trace, now);
      && (Refuses(b, now) ==> run.breaker == AfterFailure(b, now))
      && (!Refuses(b, now) && (!tweet.JObj? || !ScorePromptReady(tweet.entries) || !HasId(tweet)) ==>
            run.breaker == AfterFailure(AfterCheck(b, now), now))
      && (!Refuses(b, now) && HasId(tweet) && ScorePromptReady(tweet.entries) ==> run.breaker == AfterCheck(b, now))
      && (run.raised <==> !HasId(tweet))
  {
  }

  /** What one call contributes to a column: it raises exactly when the
      tweet has no id, makes at most three requests, and keeps a closed
      breaker for a tweet with an id and a buildable prompt. */
  lemma ScoreCallSummary(b: BreakerState, tweet: Json, category: Json, trace: seq<Attempt>, now: int)
    ensures var run := ScoreSpec(b, tweet, category, trace, now);
      && (run.raised <==> !HasId(tweet))
      && run.requests <= MAX_ATTEMPTS
      && (b.failureCount < MAX_FAILURES && HasId(tweet) && ScorePromptReady(tweet.entries) ==> run.breaker == b)
  {
    ScoreTweetAttempts(b, tweet, category, trace, now);
  }

  // ---------------------------------------------------------------
  // `_process_column`
  // ---------------------------------------------------------------

  /** The 2 s sleeps of the chunk loop: one after every chunk of five but
      the last. */
  function ChunkPauses(n: nat): (p: nat)
    ensures p == if n == 0 then 0 else CeilDiv(n, CHUNK_SIZE) - 1
  {
    if n <= CHUNK_SIZE then 0 else 1 + ChunkPauses(n - CHUNK_SIZE)
  }

  /** The clock reading at which the `k`-th task of a column checks the
      breaker: the tasks run concurrently, so each has its own reading;
      readings past the end of `clock` repeat the last one. */
  function ClockAt(clock: seq<int>, k: nat): (t: int)
    ensures k < |clock| ==> t == clock[k]
  {
    if k < |clock| then clock[k] else if clock == [] then 0 else clock[|clock| - 1]
  }

  /** How a column's scoring tasks end when run in task order: their
      results, whether one raised, the breaker after them and the requests
      they made. */
  datatype TasksRun = TasksRun(results: seq<Option<Record>>, raised: bool, breaker: BreakerState, requests: nat)

  /** The scoring tasks of `tweets`, one after the other; the `k`-th task
      sees the `k`-th trace of the oracle. */
  function ScoreTasks(b: BreakerState, tweets: seq<Json>, category: Json, oracle: seq<seq<Attempt>>, clock: seq<int>): TasksRun
    decreases |tweets|
  {
    if tweets == [] then TasksRun([], false, b, 0)
    else
      var k := |tweets| - 1;
      var prev := ScoreTasks(b, tweets[..k], category, oracle, clock);
      var run := ScoreSpec(prev.breaker, tweets[k], category, TraceFor(oracle, k), ClockAt(clock, k));
      TasksRun(prev.results + [run.result], prev.raised || run.raised, run.breaker, prev.requests + run.requests)
  }

  /** How `_process_column` ends: the gathered results, the breaker and the
      sleeps between chunks. */
  datatype ColumnRun = ColumnRun(results: seq<Option<Record>>, breaker: BreakerState, pauses: nat)

  /** `_process_column`: `gather` returns every task's result in task
      order, or the column yields `[]` when a task raised. */
  function ProcessColumnSpec(b: BreakerState, tweets: seq<Json>, category: Json, oracle: seq<seq<Attempt>>, clock: seq<int>): ColumnRun
  {
    var run := ScoreTasks(b, tweets, category, oracle, clock);
    ColumnRun(if run.raised then [] else run.results, run.breaker, ChunkPauses(|tweets|))
  }

  /** One result per tweet, and at most three requests per tweet. */
  lemma {:induction false} ScoreTasksCount(b: BreakerState, tweets: seq<Json>, category: Json, oracle: seq<seq<Attempt>>, clock: seq<int>)
    ensures var run := ScoreTasks(b, tweets, category, oracle, clock);
      |run.results| == |tweets| && run.requests <= MAX_ATTEMPTS * |tweets|
    decreases |tweets|
  {
    if tweets != [] {
      var k := |tweets| - 1;
      ScoreTasksCount(b, tweets[..k], category, oracle, clock);
      var prev := ScoreTasks(b, tweets[..k], category, oracle, clock);
      ScoreCallSummary(prev.breaker, tweets[k], category, TraceFor(oracle, k), ClockAt(clock, k));
    }
  }

  /** A task raised exactly when some tweet has no id. */
  lemma {:induction false} ScoreTasksRaised(b: BreakerState, tweets: seq<Json>, category: Json, oracle: seq<seq<Attempt>>, clock: seq<int>)
    ensures ScoreTasks(b, tweets, category, oracle, clock).raised <==> exists k :: 0 <= k < |tweets| && !HasId(tweets[k])
    decreases |tweets|
  {
    if tweets != [] {
      var k := |tweets| - 1;
      var prefix := tweets[..k];
      var prev := ScoreTasks(b, prefix, category, oracle, clock);
      var run := ScoreSpec(prev.breaker, tweets[k], category, TraceFor(oracle, k), ClockAt(clock, k));
      assert ScoreTasks(b, tweets, category, oracle, clock).raised == (prev.raised || run.raised);
      assert run.raised == !HasId(tweets[k]) by {
        ScoreCallSummary(prev.breaker, tweets[k], category, TraceFor(oracle, k), ClockAt(clock, k));
      }
      assert prev.raised <==> exists j :: 0 <= j < k && !HasId(tweets[j]) by {
        ScoreTasksRaised(b, prefix, category, oracle, clock);
        if prev.raised {
          var j :| 0 <= j < k && !HasId(prefix[j]);
          assert prefix[j] == tweets[j];
        }
        if j :| 0 <= j < k && !HasId(tweets[j]) {
          assert prefix[j] == tweets[j];
        }
      }
      if j :| 0 <= j < |tweets| && !HasId(tweets[j]) {
        assert j < k || j == k;
      }
    }
  }

  /** Every score among `results` belongs to the tweet at its position:
      that tweet has an id, and the score carries it and the category. */
  predicate ScoresBelong(results: seq<Option<Record>>, tweets: seq<Json>, category: Json)
  {
    forall k :: 0 <= k < |results| && k < |tweets| && results[k].Some? ==>
      HasId(tweets[k]) && Tagged(results[k].value, Field(tweets[k].entries, "id"), category)
  }

  /** One more task whose score, if any, belongs to its tweet. */
  lemma ScoresBelongSnoc(results: seq<Option<Record>>, tweets: seq<Json>, r: Option<Record>, category: Json)
    requires |tweets| > 0 && |results| == |tweets| - 1
    requires ScoresBelong(results, tweets[..|results|], category)
    requires r.Some? ==> HasId(tweets[|results|]) && Tagged(r.value, Field(tweets[|results|].entries, "id"), category)
    ensures ScoresBelong(results + [r], tweets, category)
  {
    forall k | 0 <= k < |results| + 1 && (results + [r])[k].Some?
      ensures HasId(tweets[k]) && Tagged((results + [r])[k].value, Field(tweets[k].entries, "id"), category)
    {
      if k < |results| {
        assert (results + [r])[k] == results[k] && tweets[..|results|][k] == tweets[k];
      }
    }
  }

  /** Every score among the tasks' results belongs to its own tweet. */
  lemma {:induction false} ScoreTasksTagged(b: BreakerState, tweets: seq<Json>, category: Json, oracle: seq<seq<Attempt>>, clock: seq<int>)
    ensures ScoresBelong(ScoreTasks(b, tweets, category, oracle, clock).results, tweets, category)
    decreases |tweets|
  {
    if tweets != [] {
      var k := |tweets| - 1;
      var prefix := tweets[..k];
      ScoreTasksCount(b, prefix, category, oracle, clock);
      ScoreTasksTagged(b, prefix, category, oracle, clock);
      var prev := ScoreTasks(b, prefix, category, oracle, clock);
      var run := ScoreSpec(prev.breaker, tweets[k], category, TraceFor(oracle, k), ClockAt(clock, k));
      if run.result.Some? {
        ScoreTweetTagged(prev.breaker, tweets[k], category, TraceFor(oracle, k), ClockAt(clock, k));
      }
      ScoresBelongSnoc(prev.results, tweets, run.result, category);
    }
  }

  /** `_process_column`'s outcome: no results exactly when the column is
      empty or some tweet has no id; otherwise one result per tweet, in
      order, each score tagged with its own tweet's id and the category. */
  lemma ProcessColumnOutcome(b: BreakerState, tweets: seq<Json>, category: Json, oracle: seq<seq<Attempt>>, clock: seq<int>)
    ensures var c := ProcessColumnSpec(b, tweets, category, oracle, clock);
      && (c.results == [] <==> tweets == [] || exists k :: 0 <= k < |tweets| && !HasId(tweets[k]))
      && (c.results != [] ==> |c.results| == |tweets|)
      && (forall k :: 0 <= k < |c.results| && c.results[k].Some? ==>
            HasId(tweets[k]) && Tagged(c.results[k].value, Field(tweets[k].entries, "id"), category))
      && c.pauses == if tweets == [] then 0 else CeilDiv(|tweets|, CHUNK_SIZE) - 1
  {
    ScoreTasksCount(b, tweets, category, oracle, clock);
    ScoreTasksRaised(b, tweets, category, oracle, clock);
    ScoreTasksTagged(b, tweets, category, oracle, clock);
  }

  /** Failed attempts never trip the breaker: a column whose tweets all
      have an id and a buildable prompt leaves a closed breaker as it was,
      however the model answers. */
  lemma {:induction false} WellFormedTweetsKeepBreaker(b: BreakerState, tweets: seq<Json>, category: Json,
                                                       oracle: seq<seq<Attempt>>, clock: seq<int>)
    requires b.failureCount < MAX_FAILURES
    requires forall k :: 0 <= k < |tweets| ==> HasId(tweets[k]) && ScorePromptReady(tweets[k].entries)
    ensures ScoreTasks(b, tweets, category, oracle, clock).breaker == b
    decreases |tweets|
  {
    if tweets != [] {
      var k := |tweets| - 1;
      var prefix := tweets[..k];
      forall j | 0 <= j < |prefix| ensures HasId(prefix[j]) && ScorePromptReady(prefix[j].entries) {
        assert prefix[j] == tweets[j];
      }
      WellFormedTweetsKeepBreaker(b, prefix, category, oracle, clock);
      ScoreCallSummary(b, tweets[k], category, TraceFor(oracle, k), ClockAt(clock, k));
      assert ScoreTasks(b, prefix, category, oracle, clock).breaker == b;
    }
  }

  /** A step of `ScoreTasks` as the column loop takes it. */
  lemma ScoreTasksSnoc(b: BreakerState, tweets: seq<Json>, j: nat, category: Json, oracle: seq<seq<Attempt>>, clock: seq<int>)
    requires j < |tweets|
    ensures var prev := ScoreTasks(b, tweets[..j], category, oracle, clock);
      var run := ScoreSpec(prev.breaker, tweets[j], category, TraceFor(oracle, j), ClockAt(clock, j));
      ScoreTasks(b, tweets[..j + 1], category, oracle, clock)
        == TasksRun(prev.results + [run.result], prev.raised || run.raised, run.breaker, prev.requests + run.requests)
  {
    assert tweets[..j + 1][..j] == tweets[..j];
  }

  /** The scorer object: the breaker its calls share. */
  class TweetScorer {
    var breaker: CircuitBreaker

    ghost predicate Valid()
      reads this, breaker
    {
      breaker.Valid()
    }

    constructor ()
      ensures Valid() && fresh(breaker) && breaker.State() == Closed
    {
      breaker := new CircuitBreaker();
    }

    /** `score_tweet`. */
    method ScoreTweet(tweet: Json, category: Json, trace: seq<Attempt>, now: int)
      returns (result: Option<Record>, raised: bool, delays: seq<nat>, requests: nat)
      requires Valid()
      modifies breaker
      ensures Valid()
      ensures ScoreRun(result, raised, breaker.State(), delays, requests) == ScoreSpec(old(breaker.State()), tweet, category, trace, now)
    {
      var refused := breaker.Check(now);
      if refused {
        breaker.RecordFailure(now);
        return None, !HasId(tweet), [], 0;
      }
      if !tweet.JObj? || !ScorePromptReady(tweet.entries) {
        breaker.RecordFailure(now);
        return None, !HasId(tweet), [], 0;
      }
      if !HasId(tweet) {
        breaker.RecordFailure(now);
        return None, true, [], 1;
      }
      var run := RetryLoop(ScoreSteps(trace, Field(tweet.entries, "id"), category));
      return run.result, false, run.delays, run.attempts;
    }

    /** One task of the column: the `score_tweet` call on its tweet, as the
        next step of the run over the tasks before it. */
    method ScoreTask(ghost start: BreakerState, tasks: seq<Json>, j: nat, category: Json, oracle: seq<seq<Attempt>>, clock: seq<int>)
      returns (result: Option<Record>, failed: bool, made: nat)
      requires Valid() && j < |tasks|
      requires breaker.State() == ScoreTasks(start, tasks[..j], category, oracle, clock).breaker
      modifies breaker
      ensures Valid()
      ensures var prev := ScoreTasks(start, tasks[..j], category, oracle, clock);
        ScoreTasks(start, tasks[..j + 1], category, oracle, clock)
          == TasksRun(prev.results + [result], prev.raised || failed, breaker.State(), prev.requests + made)
    {
      var delays;
      result, failed, delays, made := ScoreTweet(tasks[j], category, TraceFor(oracle, j), ClockAt(clock, j));
      ScoreTasksSnoc(start, tasks, j, category, oracle, clock);
    }

    /** The chunk loop of `_process_column`: the tweets each task scores,
        in task order, and the sleeps between chunks. */
    static method BuildTasks(tweets: seq<Json>) returns (tasks: seq<Json>, pauses: nat)
      ensures tasks == tweets
      ensures pauses == ChunkPauses(|tweets|)
    {
      tasks, pauses := [], 0;
      var i := 0;
      while i < |tweets|
        invariant tasks == tweets[..if i < |tweets| then i else |tweets|]
        invariant pauses + (if i < |tweets| then ChunkPauses(|tweets| - i) else 0) == ChunkPauses(|tweets|)
        decreases |tweets| - i
      {
        var end := if i + CHUNK_SIZE < |tweets| then i + CHUNK_SIZE else |tweets|;
        tasks := tasks + tweets[i..end];
        if i + CHUNK_SIZE < |tweets| {
          pauses := pauses + 1;
        }
        i := i + CHUNK_SIZE;
      }
    }

    /** The tasks of a column awaited in task order: each task's result,
        whether any of them raised, and the requests they made. */
    method RunTasks(tasks: seq<Json>, category: Json, oracle: seq<seq<Attempt>>, clock: seq<int>)
      returns (gathered: seq<Option<Record>>, raised: bool, requests: nat)
      requires Valid()
      modifies breaker
      ensures Valid()
      ensures TasksRun(gathered, raised, breaker.State(), requests) == ScoreTasks(old(breaker.State()), tasks, category, oracle, clock)
    {
      ghost var start := breaker.State();
      gathered, raised, requests := [], false, 0;
      var j := 0;
      while j < |tasks|
        invariant 0 <= j <= |tasks| && Valid()
        invariant TasksRun(gathered, raised, breaker.State(), requests) == ScoreTasks(start, tasks[..j], category, oracle, clock)
      {
        var result, failed, made := ScoreTask(start, tasks, j, category, oracle, clock);
        gathered, raised, requests, j := gathered + [result], raised || failed, requests + made, j + 1;
      }
      assert tasks[..j] == tasks;
    }

    /** `_process_column`, with the tasks run one after the other. */
    method ProcessColumn(tweets: seq<Json>, category: Json, oracle: seq<seq<Attempt>>, clock: seq<int>)
      returns (results: seq<Option<Record>>, pauses: nat)
      requires Valid()
      modifies breaker
      ensures Valid()
      ensures ColumnRun(results, breaker.State(), pauses) == ProcessColumnSpec(old(breaker.State()), tweets, category, oracle, clock)
    {
      var tasks;
      tasks, pauses := BuildTasks(tweets);
      var gathered, raised, requests := RunTasks(tasks, category, oracle, clock);
      results := if raised then [] else gathered;
    }
  }
}
