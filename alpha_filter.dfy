// alpha_filter.py and src/processors/alpha_filter.py: the alpha filter
// stage. Each tweet of the day's processed file is sent to the language
// model (primary model, then fallback) with up to three attempts; accepted
// tweets are copied into a fixed output shape and appended, chunk of five by
// chunk of five, to the combined output file, while a state file records the
// last chunk done so that an interrupted run resumes where it stopped.
//
// The two copies share everything but where the input comes from, the
// category a tweet is scored against, the early return on an empty input and
// the Slack bypass of the src copy; those differences are a `Variant`. The
// breaker is the shared `Breaker.CircuitBreaker`.

module AlphaFilter {
  import opened Common
  import opened Breaker
  import opened Oracle

  const CHUNK_SIZE: nat := 5
  const FILTERED_DIR := "data/filtered/alpha_filtered"
  const STATE_FILE := FILTERED_DIR + "/state.json"
  const OUTPUT_FILE := FILTERED_DIR + "/combined_filtered.json"

  /** Which copy of the stage: alpha_filter.py or src/processors/alpha_filter.py. */
  datatype Variant = RootCopy | SrcCopy

  /** A clock reading: whole seconds for the breaker, ISO text for stamps. */
  datatype Time = Time(seconds: int, iso: string)

  // ---------------------------------------------------------------
  // One tweet: filter_content
  // ---------------------------------------------------------------

  const RESPONSE_FIELDS: seq<string> := ["tweet", "author", "url", "tweet_id"]

  /** What `_validate_filter_response` does with a decoded reply: the empty
      object means "criteria not met"; a reply lacking a required field, or
      one that does not decode, raises. */
  datatype Verdict = NotMet | Accepted | Invalid

  function ValidateFilterResponse(decoded: Option<Json>): (v: Verdict)
    ensures v == NotMet <==> decoded.Some? && !Truthy(decoded.value)
    ensures v == Accepted <==> decoded.Some? && Truthy(decoded.value) && AllIn(RESPONSE_FIELDS, decoded.value)
  {
    match decoded
    case None => Invalid
    case Some(j) =>
      if !Truthy(j) then NotMet
      else if AllIn(RESPONSE_FIELDS, j) then Accepted
      else Invalid
  }

  /** `tweet.get(key, {}).get('text', '') if tweet.get(key) else ''`;
      `None` when it raises because the nested value is not a dict. */
  function NestedText(t: Record, key: string): (r: Option<Json>)
    ensures !Truthy(Field(t, key)) ==> r == Some(JStr(""))
    ensures r.None? <==> Truthy(Field(t, key)) && !Field(t, key).JObj?
  {
    var v := Field(t, key);
    if !Truthy(v) then Some(JStr(""))
    else if v.JObj? then Some(GetOr(v.entries, "text", JStr("")))
    else None
  }

  /** `_prepare_filtering_prompt` builds a prompt instead of returning None:
      text and author are non-empty and the nested contents are dicts. */
  predicate PromptReady(t: Record)
  {
    && NestedText(t, "quotedContent").Some? && NestedText(t, "repostedContent").Some?
    && Truthy(GetOr(t, "text", JStr(""))) && Truthy(GetOr(t, "authorHandle", JStr("")))
  }

  /** The output record of an accepted tweet. */
  function FilteredTweet(t: Record, category: Json, stamp: string): Record
    requires PromptReady(t)
  {
    OutputRecord(t, NestedText(t, "quotedContent").value, NestedText(t, "repostedContent").value, category, stamp)
  }

  /** The keys of an output record, in the order the source writes them. */
  const OUTPUT_KEYS: seq<string> :=
    ["tweet", "author", "url", "tweet_id", "quoted_content", "reposted_content",
     "category", "processed_at", "original_date", "column"]

  /** A record pairing each output key with its value. */
  function Labelled(vals: seq<Json>): (r: Record)
    requires |vals| == |OUTPUT_KEYS|
    ensures |r| == |OUTPUT_KEYS| && forall i :: 0 <= i < |r| ==> r[i] == (OUTPUT_KEYS[i], vals[i])
  {
    seq(|OUTPUT_KEYS|, i requires 0 <= i < |OUTPUT_KEYS| => (OUTPUT_KEYS[i], vals[i]))
  }

  /** The keys are distinct, so each reads back its own value. */
  lemma LabelledField(vals: seq<Json>, i: nat)
    requires |vals| == |OUTPUT_KEYS| && i < |OUTPUT_KEYS|
    ensures Field(Labelled(vals), OUTPUT_KEYS[i]) == vals[i]
  {
    var r := Labelled(vals);
    forall j | 0 <= j < i ensures r[j].0 != r[i].0 {
      assert OUTPUT_KEYS[j] != OUTPUT_KEYS[i];
    }
    GetAt(r, i);
  }

  /** The ten output fields, given the nested texts already read. */
  function OutputRecord(t: Record, quoted: Json, reposted: Json, category: Json, stamp: string): Record
  {
    Labelled(OutputValues(t, quoted, reposted, category, stamp))
  }

  /** The values of the ten output fields, in key order. */
  function OutputValues(t: Record, quoted: Json, reposted: Json, category: Json, stamp: string): (vals: seq<Json>)
    ensures |vals| == |OUTPUT_KEYS|
    ensures vals[0] == GetOr(t, "text", JStr("")) && vals[1] == GetOr(t, "authorHandle", JStr(""))
    ensures vals[2] == GetOr(t, "url", JStr("")) && vals[3] == GetOr(t, "id", JStr("")) && vals[6] == category
  {
    [GetOr(t, "text", JStr("")), GetOr(t, "authorHandle", JStr("")), GetOr(t, "url", JStr("")),
     GetOr(t, "id", JStr("")), quoted, reposted, category, JStr(stamp),
     GetOr(t, "created_at", JStr("")), GetOr(t, "column", JStr(""))]
  }

  /** The copied fields of an output record, and the five fields
      `_validate_output_file` asks of every tweet. */
  lemma OutputRecordFields(t: Record, quoted: Json, reposted: Json, category: Json, stamp: string)
    ensures var r := OutputRecord(t, quoted, reposted, category, stamp);
      && Field(r, "tweet") == GetOr(t, "text", JStr("")) && Field(r, "author") == GetOr(t, "authorHandle", JStr(""))
      && Field(r, "url") == GetOr(t, "url", JStr("")) && Field(r, "tweet_id") == GetOr(t, "id", JStr(""))
      && Field(r, "category") == category
      && AllIn(OUTPUT_TWEET_FIELDS, JObj(r))
  {
    var vals := OutputValues(t, quoted, reposted, category, stamp);
    LabelledCopies(vals);
    LabelledHasOutputFields(vals);
  }

  /** The fields an output record copies from the tweet, and its category. */
  lemma LabelledCopies(vals: seq<Json>)
    requires |vals| == |OUTPUT_KEYS|
    ensures var r := Labelled(vals);
      && Field(r, "tweet") == vals[0] && Field(r, "author") == vals[1]
      && Field(r, "url") == vals[2] && Field(r, "tweet_id") == vals[3]
      && Field(r, "category") == vals[6]
  {
    LabelledField(vals, 0);
    LabelledField(vals, 1);
    LabelledField(vals, 2);
    LabelledField(vals, 3);
    LabelledField(vals, 6);
  }

  /** Every labelled record carries the five fields `_validate_output_file`
      asks of a tweet. */
  lemma LabelledHasOutputFields(vals: seq<Json>)
    requires |vals| == |OUTPUT_KEYS|
    ensures AllIn(OUTPUT_TWEET_FIELDS, JObj(Labelled(vals)))
  {
    var r := Labelled(vals);
    forall i | 0 <= i < |OUTPUT_TWEET_FIELDS| ensures PyIn(OUTPUT_TWEET_FIELDS[i], JObj(r)) == Some(true) {
      var k := if i < 4 then i else 6;
      assert r[k].0 == OUTPUT_TWEET_FIELDS[i];
    }
  }

  /** One attempt of the retry loop: no answer from either model, a reply
      that does not end in '}', one that does not decode or one that lacks a
      required field is a failed attempt; an empty object returns `None` at
      once; anything else returns the output record. */
  function AttemptStep(a: Attempt, t: Record, category: Json, stamp: string): (s: Step<Record>)
    requires PromptReady(t)
    ensures s.Done? && s.result.None? <==>
      Response(a).Some? && LooksComplete(Response(a).value.text) &&
      Response(a).value.json.Some? && !Truthy(Response(a).value.json.value)
    ensures s.Done? && s.result.Some? <==>
      Response(a).Some? && LooksComplete(Response(a).value.text) &&
      Response(a).value.json.Some? && Truthy(Response(a).value.json.value) &&
      AllIn(RESPONSE_FIELDS, Response(a).value.json.value)
    ensures s.Done? && s.result.Some? ==> s.result.value == FilteredTweet(t, category, stamp)
  {
    match Response(a)
    case None => Retry
    case Some(reply) =>
      if !LooksComplete(reply.text) then Retry
      else
        match ValidateFilterResponse(reply.json)
        case Invalid => Retry
        case NotMet => Done(None)
        case Accepted => Done(Some(FilteredTweet(t, category, stamp)))
  }

  function Steps(trace: seq<Attempt>, t: Record, category: Json, stamp: string): seq<Step<Record>>
    requires PromptReady(t)
  {
    seq(MAX_ATTEMPTS, k requires 0 <= k < MAX_ATTEMPTS => AttemptStep(AttemptAt(trace, k), t, category, stamp))
  }

  const SLACK_SCORE: real := 10.0
  const SLACK_SIGNAL := "Slack source (bypassed filtering)"

  /** `tweet.copy()` with the placeholder score, signal and category. */
  function SlackCopy(t: Record, category: Json): Record
  {
    SetAll(t, [("alpha_score", JReal(SLACK_SCORE)), ("alpha_signal", JStr(SLACK_SIGNAL)), ("category", category)])
  }

  /** How one `filter_content` call ends: its result, whether it raised,
      the breaker after it, and the sleeps of its retry loop. */
  datatype FilterRun = FilterRun(result: Option<Record>, raised: bool, breaker: BreakerState, delays: seq<nat>)

  /** `filter_content`. An open breaker skips a dict tweet. A tweet that is
      not a dict raises whatever the breaker says: every path for it ends in
      a log line calling `tweet.get`, inside the exception handler itself;
      when the breaker let it through, the handler first records a breaker
      failure. */
  function FilterSpec(b: BreakerState, tweet: Json, category: Json, trace: seq<Attempt>,
                      now: Time, variant: Variant): FilterRun
  {
    if Refuses(b, now.seconds) then FilterRun(None, !tweet.JObj?, b, [])
    else
      var b1 := AfterCheck(b, now.seconds);
      if !tweet.JObj? then FilterRun(None, true, AfterFailure(b1, now.seconds), [])
      else if variant == SrcCopy && Truthy(GetOr(tweet.entries, "from_slack", JBool(false))) then
        FilterRun(Some(SlackCopy(tweet.entries, category)), false, b1, [])
      else if !PromptReady(tweet.entries) then FilterRun(None, false, b1, [])
      else
        var run := RetrySpec(Steps(trace, tweet.entries, category, now.iso));
        FilterRun(run.result, false, b1, run.delays)
  }

  /** What `filter_content` does with the breaker and before any model
      request. It raises exactly for a tweet that is not a dict. An open
      breaker refuses every tweet, Slack ones included, and changes nothing.
      A tweet that is not a dict and gets past the breaker records a failure.
      Any dict leaves the breaker as its check left it, and the src copy
      returns a Slack tweet's copy with no sleep. */
  lemma FilterContentBreaker(b: BreakerState, tweet: Json, category: Json, trace: seq<Attempt>,
                             now: Time, variant: Variant)
    ensures var run := FilterSpec(b, tweet, category, trace, now, variant);
      && (run.raised <==> !tweet.JObj?)
      && (Refuses(b, now.seconds) ==> run == FilterRun(None, !tweet.JObj?, b, []))
      && (!Refuses(b, now.seconds) && !tweet.JObj? ==> run == FilterRun(None, true, AfterFailure(AfterCheck(b, now.seconds), now.seconds), []))
      && (!Refuses(b, now.seconds) && tweet.JObj? ==> run.breaker == AfterCheck(b, now.seconds))
      && (!Refuses(b, now.seconds) && tweet.JObj? && variant == SrcCopy && Truthy(GetOr(tweet.entries, "from_slack", JBool(false))) ==>
            run == FilterRun(Some(SlackCopy(tweet.entries, category)), false, AfterCheck(b, now.seconds), []))
  {
  }

  /** The sleeps of `filter_content`: none for a dict without text or
      author, and otherwise only between attempts, 2 s and then 4 s. */
  lemma FilterContentDelays(b: BreakerState, tweet: Json, category: Json, trace: seq<Attempt>,
                            now: Time, variant: Variant)
    ensures var run := FilterSpec(b, tweet, category, trace, now, variant);
      && (tweet.JObj? && (variant == RootCopy || !Truthy(GetOr(tweet.entries, "from_slack", JBool(false)))) &&
          (!Truthy(GetOr(tweet.entries, "text", JStr(""))) || !Truthy(GetOr(tweet.entries, "authorHandle", JStr("")))) ==>
            run.result.None? && run.delays == [])
      && |run.delays| <= MAX_ATTEMPTS - 1 && run.delays == [2, 4][..|run.delays|]
  {
    if !Refuses(b, now.seconds) && tweet.JObj? && !(variant == SrcCopy && Truthy(GetOr(tweet.entries, "from_slack", JBool(false))))
       && PromptReady(tweet.entries) {
      RetrySpecShape(Steps(trace, tweet.entries, category, now.iso));
    }
  }

  /** A record `filter_content` returns for a tweet it sent to the model is
      that tweet's output record: it copies the input's text, author, url
      and id and carries the given category. */
  lemma FilterContentAccepted(b: BreakerState, tweet: Json, category: Json, trace: seq<Attempt>,
                              now: Time, variant: Variant)
    requires FilterSpec(b, tweet, category, trace, now, variant).result.Some?
    requires variant == RootCopy || !tweet.JObj? || !Truthy(GetOr(tweet.entries, "from_slack", JBool(false)))
    ensures tweet.JObj? && PromptReady(tweet.entries)
    ensures var r := FilterSpec(b, tweet, category, trace, now, variant).result.value;
      && r == FilteredTweet(tweet.entries, category, now.iso)
      && Field(r, "tweet") == GetOr(tweet.entries, "text", JStr(""))
      && Field(r, "author") == GetOr(tweet.entries, "authorHandle", JStr(""))
      && Field(r, "url") == GetOr(tweet.entries, "url", JStr(""))
      && Field(r, "tweet_id") == GetOr(tweet.entries, "id", JStr(""))
      && Field(r, "category") == category
      && AllIn(OUTPUT_TWEET_FIELDS, JObj(r))
  {
    var steps := Steps(trace, tweet.entries, category, now.iso);
    RetrySpecShape(steps);
    var run := RetrySpec(steps);
    assert StepAt(steps, run.attempts - 1) == steps[run.attempts - 1];
    OutputRecordFields(tweet.entries, NestedText(tweet.entries, "quotedContent").value,
                       NestedText(tweet.entries, "repostedContent").value, category, now.iso);
  }

  /** The Slack copy keeps every field of the tweet except the three it
      sets: score 10.0, the bypass signal and the category. */
  lemma SlackCopyFields(t: Record, category: Json, k: string)
    ensures var r := SlackCopy(t, category);
      && Get(r, "alpha_score") == Some(JReal(SLACK_SCORE))
      && Get(r, "alpha_signal") == Some(JStr(SLACK_SIGNAL))
      && Get(r, "category") == Some(category)
      && (k != "alpha_score" && k != "alpha_signal" && k != "category" ==> Get(r, k) == Get(t, k))
  {
    var kvs := [("alpha_score", JReal(SLACK_SCORE)), ("alpha_signal", JStr(SLACK_SIGNAL)), ("category", category)];
    assert DistinctKeys(kvs);
    SetAllGetDistinct(t, kvs);
    assert kvs[0].0 == "alpha_score" && kvs[1].0 == "alpha_signal" && kvs[2].0 == "category";
    if k != "alpha_score" && k != "alpha_signal" && k != "category" {
      SetAllOther(t, kvs, k);
    }
  }

  // ---------------------------------------------------------------
  // The state file
  // ---------------------------------------------------------------

  /** `_validate_state`: a dict with the four fields, non-negative integer
      chunk counters (Python booleans are integers too) and, when a date is
      recorded, a YYYYMMDD string. Anything else raises or fails a test. */
  predicate ValidState(j: Json)
  {
    && j.JObj?
    && HasKey(j.entries, "last_processed_date") && HasKey(j.entries, "last_chunk")
    && HasKey(j.entries, "total_chunks") && HasKey(j.entries, "completed")
    && IsPyInt(Field(j.entries, "last_chunk")) && PyIntValue(Field(j.entries, "last_chunk")) >= 0
    && IsPyInt(Field(j.entries, "total_chunks")) && PyIntValue(Field(j.entries, "total_chunks")) >= 0
    && (Truthy(Field(j.entries, "last_processed_date")) ==>
          Field(j.entries, "last_processed_date").JStr? && IsYmd(Field(j.entries, "last_processed_date").s))
  }

  const DEFAULT_STATE: Record :=
    [("last_processed_date", JNull), ("columns_state", JObj([])), ("last_chunk", JInt(0)),
     ("total_chunks", JInt(0)), ("completed", JBool(false))]

  lemma DefaultStateNotCompleted()
    ensures !Completed(DEFAULT_STATE)
  {
    assert DEFAULT_STATE[4].0 == "completed";
    assert Get(DEFAULT_STATE, "completed") == Some(JBool(false));
  }

  /** `_load_state`: the stored state when it validates, else the default. */
  function LoadState(c: Option<Content>): (s: Record)
    ensures ValidState(JObj(s))
    ensures s == DEFAULT_STATE || (c == Some(Parsed(JObj(s))))
  {
    assert DEFAULT_STATE[0].0 == "last_processed_date" && DEFAULT_STATE[2].0 == "last_chunk";
    assert DEFAULT_STATE[3].0 == "total_chunks" && DEFAULT_STATE[4].0 == "completed";
    match c
    case Some(Parsed(j)) => if ValidState(j) then j.entries else DEFAULT_STATE
    case _ => DEFAULT_STATE
  }

  /** `state['completed']` as `process_content` tests it. */
  predicate Completed(s: Record)
  {
    Truthy(GetOr(s, "completed", JBool(false)))
  }

  /** `state['last_chunk']`, the chunk to resume at. */
  function LastChunk(s: Record): nat
    requires ValidState(JObj(s))
  {
    PyIntValue(Field(s, "last_chunk"))
  }

  /** `_update_processing_state`: reload the state and overwrite its fields. */
  function UpdatedState(s: Record, date: string, chunk: nat, total: nat, completed: bool): Record
  {
    SetAll(s, [("last_processed_date", JStr(date)), ("last_chunk", JInt(chunk)), ("total_chunks", JInt(total)),
               ("completed", JBool(completed)), ("columns_state", JObj([]))])
  }

  function SaveState(files: map<string, Content>, date: string, chunk: nat, total: nat, completed: bool): map<string, Content>
  {
    files[STATE_FILE := Parsed(JObj(UpdatedState(LoadState(FileAt(files, STATE_FILE)), date, chunk, total, completed)))]
  }

  /** `_update_processing_state` writes the four fields it is given and
      keeps every other key. */
  lemma UpdatedStateFields(s: Record, date: string, chunk: nat, total: nat, completed: bool)
    ensures var u := UpdatedState(s, date, chunk, total, completed);
      && Get(u, "last_processed_date") == Some(JStr(date)) && Get(u, "last_chunk") == Some(JInt(chunk))
      && Get(u, "total_chunks") == Some(JInt(total)) && Get(u, "completed") == Some(JBool(completed))
  {
    StateWrites(s, JStr(date), JInt(chunk), JInt(total), JBool(completed));
  }

  lemma StateWrites(s: Record, d: Json, c: Json, t: Json, done: Json)
    ensures var u := SetAll(s, [("last_processed_date", d), ("last_chunk", c), ("total_chunks", t),
                                ("completed", done), ("columns_state", JObj([]))]);
      && Get(u, "last_processed_date") == Some(d) && Get(u, "last_chunk") == Some(c)
      && Get(u, "total_chunks") == Some(t) && Get(u, "completed") == Some(done)
  {
    var kvs := [("last_processed_date", d), ("last_chunk", c), ("total_chunks", t),
                ("completed", done), ("columns_state", JObj([]))];
    assert DistinctKeys(kvs);
    SetAllGetDistinct(s, kvs);
    assert kvs[0] == ("last_processed_date", d) && kvs[1] == ("last_chunk", c);
    assert kvs[2] == ("total_chunks", t) && kvs[3] == ("completed", done);
  }

  /** A state carrying these four fields, with a YYYYMMDD date, passes
      `_validate_state` and reads back as written. */
  lemma StateReadsBack(u: Record, date: string, chunk: nat, total: nat, completed: bool)
    requires Get(u, "last_processed_date") == Some(JStr(date)) && Get(u, "last_chunk") == Some(JInt(chunk))
    requires Get(u, "total_chunks") == Some(JInt(total)) && Get(u, "completed") == Some(JBool(completed))
    requires IsYmd(date)
    ensures var s := LoadState(Some(Parsed(JObj(u))));
      s == u && Completed(s) == completed && LastChunk(s) == chunk
  {
    WrittenStateValid(u, date, chunk, total, completed);
  }

  lemma WrittenStateValid(u: Record, date: string, chunk: nat, total: nat, completed: bool)
    requires Get(u, "last_processed_date") == Some(JStr(date)) && Get(u, "last_chunk") == Some(JInt(chunk))
    requires Get(u, "total_chunks") == Some(JInt(total)) && Get(u, "completed") == Some(JBool(completed))
    requires IsYmd(date)
    ensures ValidState(JObj(u))
  {
    assert HasKey(u, "last_processed_date") && HasKey(u, "last_chunk");
    assert HasKey(u, "total_chunks") && HasKey(u, "completed");
  }

  /** A state saved with `completed` false never reads back as completed:
      either it validates and reads back as written, or it reads back as
      the default. */
  lemma StateNotCompletedReadsBack(u: Record)
    requires Get(u, "completed") == Some(JBool(false))
    ensures !Completed(LoadState(Some(Parsed(JObj(u)))))
  {
    if LoadState(Some(Parsed(JObj(u)))) == DEFAULT_STATE {
      DefaultStateNotCompleted();
    }
  }

  /** The same, for the state file a save leaves in the store. */
  lemma SavedStateReadsBack(files: map<string, Content>, date: string, chunk: nat, total: nat, completed: bool)
    requires IsYmd(date)
    ensures var s := LoadState(FileAt(SaveState(files, date, chunk, total, completed), STATE_FILE));
      Completed(s) == completed && LastChunk(s) == chunk && Get(s, "last_processed_date") == Some(JStr(date))
  {
    var u := UpdatedState(LoadState(FileAt(files, STATE_FILE)), date, chunk, total, completed);
    UpdatedStateFields(LoadState(FileAt(files, STATE_FILE)), date, chunk, total, completed);
    StateReadsBack(u, date, chunk, total, completed);
  }

  /** A state file saved with `completed` false never reads back as
      completed, whatever the date. */
  lemma SavedStateNotCompleted(files: map<string, Content>, date: string, chunk: nat, total: nat)
    ensures !Completed(LoadState(FileAt(SaveState(files, date, chunk, total, false), STATE_FILE)))
  {
    var u := UpdatedState(LoadState(FileAt(files, STATE_FILE)), date, chunk, total, false);
    UpdatedStateFields(LoadState(FileAt(files, STATE_FILE)), date, chunk, total, false);
    StateNotCompletedReadsBack(u);
  }

  // ---------------------------------------------------------------
  // The output file
  // ---------------------------------------------------------------

  const METADATA_FIELDS: seq<string> := ["processed_date", "total_tweets", "last_update"]
  const OUTPUT_TWEET_FIELDS: seq<string> := ["tweet", "author", "url", "tweet_id", "category"]

  /** `_validate_output_file` on a decoded file: a dict with `tweets` and
      `metadata`, the metadata fields present, `tweets` a list and every
      tweet carrying the five output fields. */
  predicate ValidOutput(j: Json)
  {
    && j.JObj?
    && HasKey(j.entries, "tweets") && HasKey(j.entries, "metadata")
    && AllIn(METADATA_FIELDS, Field(j.entries, "metadata"))
    && Field(j.entries, "tweets").JList?
    && forall k :: 0 <= k < |Field(j.entries, "tweets").items| ==>
         AllIn(OUTPUT_TWEET_FIELDS, Field(j.entries, "tweets").items[k])
  }

  /** `_validate_output_file`: false for a missing or undecodable file. */
  function ValidateOutputFile(c: Option<Content>): (ok: bool)
    ensures ok ==> c.Some? && c.value.Parsed? && c.value.json.JObj?
    ensures c.Some? && c.value.Parsed? ==> (ok <==> ValidOutput(c.value.json))
  {
    c.Some? && c.value.Parsed? && ValidOutput(c.value.json)
  }

  /** The fresh output structure `process_content` starts from. */
  function DefaultOutput(date: string, stamp: string): Json
  {
    JObj([("tweets", JList([])),
          ("metadata", JObj([("processed_date", JStr(date)), ("total_tweets", JInt(0)), ("last_update", JStr(stamp))]))])
  }

  /** The existing output, or the fresh structure when it is missing or does
      not decode. */
  function LoadOutput(c: Option<Content>, date: string, stamp: string): Json
  {
    match c
    case Some(Parsed(j)) => j
    case _ => DefaultOutput(date, stamp)
  }

  lemma StateFileIsNotOutputFile()
    ensures STATE_FILE != OUTPUT_FILE
  {
    assert STATE_FILE[|FILTERED_DIR| + 1] == 's' && OUTPUT_FILE[|FILTERED_DIR| + 1] == 'c';
  }

  /** The tweets list of an output structure, when it has one. */
  function TweetItems(out: Json): seq<Json>
  {
    if out.JObj? && Field(out.entries, "tweets").JList? then Field(out.entries, "tweets").items else []
  }

  /** `output['metadata']['total_tweets']`. */
  function TotalTweets(out: Json): Json
  {
    if out.JObj? && Field(out.entries, "metadata").JObj? then Field(Field(out.entries, "metadata").entries, "total_tweets")
    else JNull
  }

  /** The metadata after an extension: the new count and update stamp. */
  function UpdatedMetadata(md: Record, n: nat, stamp: string): Record
  {
    SetAll(md, [("total_tweets", JInt(n)), ("last_update", JStr(stamp))])
  }

  lemma UpdatedMetadataTotal(md: Record, n: nat, stamp: string)
    ensures Get(UpdatedMetadata(md, n, stamp), "total_tweets") == Some(JInt(n))
  {
    SetAllGet(md, [("total_tweets", JInt(n)), ("last_update", JStr(stamp))], 0);
  }

  lemma UpdatedMetadataFields(md: Record, n: nat, stamp: string)
    ensures Get(UpdatedMetadata(md, n, stamp), "total_tweets") == Some(JInt(n))
    ensures forall k :: HasKey(md, k) ==> HasKey(UpdatedMetadata(md, n, stamp), k)
  {
    UpdatedMetadataTotal(md, n, stamp);
    forall k | HasKey(md, k) ensures HasKey(UpdatedMetadata(md, n, stamp), k) {
      SetAllHasKey(md, [("total_tweets", JInt(n)), ("last_update", JStr(stamp))], k);
    }
  }

  /** The output dict with its `tweets` and `metadata` replaced. */
  function WithParts(e: Record, items: seq<Json>, md: Record): Record
  {
    SetAll(e, [("tweets", JList(items)), ("metadata", JObj(md))])
  }

  lemma WithPartsFields(e: Record, items: seq<Json>, md: Record)
    ensures Get(WithParts(e, items, md), "tweets") == Some(JList(items))
    ensures Get(WithParts(e, items, md), "metadata") == Some(JObj(md))
  {
    SetAllGet(e, [("tweets", JList(items)), ("metadata", JObj(md))], 0);
    SetAllGet(e, [("tweets", JList(items)), ("metadata", JObj(md))], 1);
  }

  /** `output['tweets'].extend(new_tweets)` and the metadata update; `None`
      when the loaded output does not have that shape and the code raises. */
  function ExtendOutput(out: Json, added: seq<Record>, stamp: string): Option<Json>
  {
    if !out.JObj? then None
    else
      var e := out.entries;
      var tw := Field(e, "tweets");
      var md := Field(e, "metadata");
      if !HasKey(e, "tweets") || !tw.JList? || !HasKey(e, "metadata") || !md.JObj? then None
      else
        var items := tw.items + AsJson(added);
        Some(JObj(WithParts(e, items, UpdatedMetadata(md.entries, |items|, stamp))))
  }

  /** An extension appends the new records, in order, to the tweets already
      in the output, and fails only when the output lacks a `tweets` list or
      a `metadata` dict. */
  lemma ExtendAppends(out: Json, added: seq<Record>, stamp: string)
    ensures var r := ExtendOutput(out, added, stamp);
      r.Some? <==> out.JObj? && HasKey(out.entries, "tweets") && Field(out.entries, "tweets").JList?
                   && HasKey(out.entries, "metadata") && Field(out.entries, "metadata").JObj?
    ensures var r := ExtendOutput(out, added, stamp);
      r.Some? ==> TweetItems(r.value) == TweetItems(out) + AsJson(added)
  {
    if ExtendOutput(out, added, stamp).Some? {
      var e := out.entries;
      var items := Field(e, "tweets").items + AsJson(added);
      WithPartsFields(e, items, UpdatedMetadata(Field(e, "metadata").entries, |items|, stamp));
    }
  }

  /** After an extension `total_tweets` counts the tweets now in the output. */
  lemma ExtendCounts(out: Json, added: seq<Record>, stamp: string)
    requires ExtendOutput(out, added, stamp).Some?
    ensures var r := ExtendOutput(out, added, stamp).value;
      TotalTweets(r) == JInt(|TweetItems(r)|)
  {
    var e := out.entries;
    var items := Field(e, "tweets").items + AsJson(added);
    var md := Field(e, "metadata").entries;
    assert ExtendOutput(out, added, stamp) == Some(JObj(WithParts(e, items, UpdatedMetadata(md, |items|, stamp))));
    WithPartsCounts(e, items, md, stamp);
  }

  lemma WithPartsCounts(e: Record, items: seq<Json>, md: Record, stamp: string)
    ensures var w := JObj(WithParts(e, items, UpdatedMetadata(md, |items|, stamp)));
      TweetItems(w) == items && TotalTweets(w) == JInt(|items|)
  {
    var md' := UpdatedMetadata(md, |items|, stamp);
    var w := WithParts(e, items, md');
    WithPartsFields(e, items, md');
    UpdatedMetadataTotal(md, |items|, stamp);
    FieldOfGet(w, "tweets", JList(items));
    FieldOfGet(w, "metadata", JObj(md'));
    FieldOfGet(md', "total_tweets", JInt(|items|));
  }

  /** Extending a valid output with records that carry the five output
      fields keeps it valid. */
  lemma ExtendKeepsValid(out: Json, added: seq<Record>, stamp: string)
    requires ValidOutput(out) && ExtendOutput(out, added, stamp).Some?
    requires forall i :: 0 <= i < |added| ==> AllIn(OUTPUT_TWEET_FIELDS, JObj(added[i]))
    ensures ValidOutput(ExtendOutput(out, added, stamp).value)
  {
    var e := out.entries;
    var md := Field(e, "metadata");
    var items := Field(e, "tweets").items + AsJson(added);
    var md' := UpdatedMetadata(md.entries, |items|, stamp);
    WithPartsFields(e, items, md');
    UpdatedMetadataFields(md.entries, |items|, stamp);
    var r := WithParts(e, items, md');
    assert ExtendOutput(out, added, stamp) == Some(JObj(r));
    forall i | 0 <= i < |METADATA_FIELDS| ensures PyIn(METADATA_FIELDS[i], JObj(md')) == Some(true) {
      assert PyIn(METADATA_FIELDS[i], md) == Some(true);
    }
    forall k | 0 <= k < |items| ensures AllIn(OUTPUT_TWEET_FIELDS, items[k]) {
      if k >= |Field(e, "tweets").items| {
        assert items[k] == JObj(added[k - |Field(e, "tweets").items|]);
      }
    }
    assert Field(r, "tweets") == JList(items);
  }

  /** The default structure passes `_validate_output_file`. */
  lemma DefaultOutputValid(date: string, stamp: string)
    ensures ValidOutput(DefaultOutput(date, stamp))
  {
    var md: Record := [("processed_date", JStr(date)), ("total_tweets", JInt(0)), ("last_update", JStr(stamp))];
    var e := DefaultOutput(date, stamp).entries;
    assert e[0].0 == "tweets" && e[1].0 == "metadata";
    assert Field(e, "metadata") == JObj(md);
    forall i | 0 <= i < |METADATA_FIELDS| ensures PyIn(METADATA_FIELDS[i], JObj(md)) == Some(true) {
      assert md[i].0 == METADATA_FIELDS[i];
    }
  }

  // ---------------------------------------------------------------
  // process_content
  // ---------------------------------------------------------------

  /** The inputs of one `process_content` run. `oracle[i]` is the model
      trace of the i-th input tweet; `shutdownAt` is the chunk iteration (of
      this run) at which the shutdown flag is first seen set, if ever.
      `tweets` has the length `len(tweets)` gives; `sliceable` is false when
      they are a dict's keys, so that `tweets[i:i+chunk_size]` raises. */
  datatype Env = Env(date: string, tweets: seq<Json>, category: string, oracle: seq<seq<Attempt>>,
                     now: Time, shutdownAt: Option<nat>, variant: Variant, sliceable: bool)

  /** The category a tweet is scored against: the root copy always uses
      `CATEGORY`; the src copy uses the category the tweet was tagged with. */
  function CategoryFor(env: Env, tweet: Json): Json
  {
    if env.variant == SrcCopy && tweet.JObj? then GetOr(tweet.entries, "category", JStr(env.category))
    else JStr(env.category)
  }

  function TotalChunks(env: Env): nat
  {
    CeilDiv(|env.tweets|, CHUNK_SIZE)
  }

  /** One chunk, tweet by tweet in order (see README on `asyncio.gather`):
      the results that are not `None`, whether a task raised, and the
      breaker afterwards. The first task that raises ends the chunk: `gather`
      hands its exception on. */
  datatype ChunkRun = ChunkRun(kept: seq<Record>, raised: bool, breaker: BreakerState)

  function FilterChunk(env: Env, b: BreakerState, base: nat, chunk: seq<Json>): ChunkRun
  {
    if chunk == [] then ChunkRun([], false, b)
    else
      var prev := FilterChunk(env, b, base, chunk[..|chunk| - 1]);
      if prev.raised then prev
      else
        var t := chunk[|chunk| - 1];
        var run := FilterSpec(prev.breaker, t, CategoryFor(env, t), TraceFor(env.oracle, base + |chunk| - 1),
                              env.now, env.variant);
        ChunkRun(prev.kept + (if run.result.Some? then [run.result.value] else []), run.raised, run.breaker)
  }

  /** Filtering one more tweet of a chunk that has not raised extends the
      run by that tweet's `filter_content`. */
  lemma FilterChunkSnoc(env: Env, b: BreakerState, base: nat, chunk: seq<Json>, j: nat, run: FilterRun)
    requires j < |chunk| && !FilterChunk(env, b, base, chunk[..j]).raised
    requires run == FilterSpec(FilterChunk(env, b, base, chunk[..j]).breaker, chunk[j], CategoryFor(env, chunk[j]),
                               TraceFor(env.oracle, base + j), env.now, env.variant)
    ensures FilterChunk(env, b, base, chunk[..j + 1])
         == ChunkRun(FilterChunk(env, b, base, chunk[..j]).kept + (if run.result.Some? then [run.result.value] else []),
                     run.raised, run.breaker)
  {
    var c := chunk[..j + 1];
    assert |c| - 1 == j;
    assert c[..|c| - 1] == chunk[..j];
    assert c[|c| - 1] == chunk[j];
  }

  /** Once a task of the chunk has raised, the tasks after it change
      nothing. */
  lemma {:induction false} FilterChunkRaisedStays(env: Env, b: BreakerState, base: nat, chunk: seq<Json>, j: nat)
    requires j <= |chunk| && FilterChunk(env, b, base, chunk[..j]).raised
    ensures FilterChunk(env, b, base, chunk) == FilterChunk(env, b, base, chunk[..j])
    decreases |chunk| - j
  {
    if j < |chunk| {
      var c := chunk[..j + 1];
      assert c[..|c| - 1] == chunk[..j];
      FilterChunkRaisedStays(env, b, base, chunk, j + 1);
    } else {
      assert chunk[..j] == chunk;
    }
  }

  /** A chunk raises exactly when one of its tweets is not a dict. */
  lemma {:induction false} ChunkRaisesIffNonDict(env: Env, b: BreakerState, base: nat, chunk: seq<Json>)
    ensures FilterChunk(env, b, base, chunk).raised <==> exists i :: 0 <= i < |chunk| && !chunk[i].JObj?
  {
    if chunk != [] {
      var init := chunk[..|chunk| - 1];
      var t := chunk[|chunk| - 1];
      ChunkRaisesIffNonDict(env, b, base, init);
      var prev := FilterChunk(env, b, base, init);
      if !prev.raised {
        FilterContentBreaker(prev.breaker, t, CategoryFor(env, t), TraceFor(env.oracle, base + |chunk| - 1),
                             env.now, env.variant);
      }
      if exists i :: 0 <= i < |chunk| && !chunk[i].JObj? {
        var i :| 0 <= i < |chunk| && !chunk[i].JObj?;
        if i < |init| {
          assert !init[i].JObj?;
        }
      } else {
        assert forall i :: 0 <= i < |init| ==> init[i] == chunk[i];
      }
    }
  }

  /** The store, the breaker and the in-memory output during the chunk loop. */
  datatype World = World(files: map<string, Content>, breaker: BreakerState, output: Json)

  /** How the chunk loop ends: normally (or at a shutdown break), or by an
      exception, raised by a tweet's task or while extending the output,
      that `process_content` turns into `None`. */
  datatype LoopEnd = Finished(world: World) | Aborted(world: World)

  function ChunkEnd(n: nat, i: nat): (e: nat)
    requires i < n
    ensures i < e <= n && e <= i + CHUNK_SIZE
  {
    if i + CHUNK_SIZE <= n then i + CHUNK_SIZE else n
  }

  /** One pass of the loop body on the chunk starting at tweet `i`: filter
      it, append what was kept to the output (saving the output file), then
      save the state with the next chunk number. `Aborted` when extending
      the output raises. */
  function ChunkStep(env: Env, i: nat, w: World): LoopEnd
    requires i < |env.tweets|
  {
    var c := FilterChunk(env, w.breaker, i, env.tweets[i..ChunkEnd(|env.tweets|, i)]);
    ApplyChunk(env, i, w, c, ExtendOutput(w.output, c.kept, env.now.iso))
  }

  /** The rest of the loop body once the chunk's tasks have run and `ext`
      is what extending the output with the kept records gives. */
  function ApplyChunk(env: Env, i: nat, w: World, c: ChunkRun, ext: Option<Json>): LoopEnd
  {
    if c.raised then Aborted(w.(breaker := c.breaker))
    else SaveChunk(env, i, w, c, ext)
  }

  /** The loop body after a chunk whose tasks all returned. */
  function SaveChunk(env: Env, i: nat, w: World, c: ChunkRun, ext: Option<Json>): LoopEnd
  {
    if c.kept == [] then
      Finished(World(SaveState(w.files, env.date, i / CHUNK_SIZE + 1, TotalChunks(env), false), c.breaker, w.output))
    else
      match ext
      case None => Aborted(w.(breaker := c.breaker))
      case Some(out) =>
        Finished(World(SaveState(w.files[OUTPUT_FILE := Parsed(out)], env.date, i / CHUNK_SIZE + 1, TotalChunks(env), false),
                       c.breaker, out))
  }

  /** The chunk loop from tweet index `i`, iteration `it` of this run. */
  function LoopFrom(env: Env, i: nat, it: nat, w: World): LoopEnd
    decreases |env.tweets| - i
  {
    if i >= |env.tweets| then Finished(w)
    else if env.shutdownAt == Some(it) then
      Finished(w.(files := SaveState(w.files, env.date, i / CHUNK_SIZE, TotalChunks(env), false)))
    else if !env.sliceable then Aborted(w)
    else
      match ChunkStep(env, i, w)
      case Aborted(w') => Aborted(w')
      case Finished(w') => LoopFrom(env, i + CHUNK_SIZE, it + 1, w')
  }

  /** What a `process_content` call returns and leaves behind. */
  datatype Outcome = Outcome(result: Option<Json>, files: map<string, Content>, breaker: BreakerState)

  /** The loop from the resume chunk, then the completion mark unless a
      shutdown was requested. */
  function RunFrom(env: Env, start: nat, w: World): (o: Outcome)
  {
    match LoopFrom(env, start * CHUNK_SIZE, 0, w)
    case Aborted(w') => Outcome(None, w'.files, w'.breaker)
    case Finished(w') =>
      var files' := if env.shutdownAt.None? then SaveState(w'.files, env.date, TotalChunks(env), TotalChunks(env), true)
                    else w'.files;
      Outcome(Some(w'.output), files', w'.breaker)
  }

  /** `processed/<date>/combined_tweets.json`, the root copy's input. */
  function InputFile(date: string): string
  {
    "data/processed/" + date + "/combined_tweets.json"
  }

  /** The tweets of the root copy's input as the loop sees them: what
      `len` counts, and whether slicing them works. */
  datatype RootInput = RootInput(tweets: seq<Json>, sliceable: bool)

  /** `data.get('tweets', [])` as the root copy measures and slices it: a
      list, or a string (whose characters become the tweets), or a dict,
      whose keys `len` counts but which raises when sliced; `None` when
      `get` or `len` raises. */
  function RootTweets(data: Json): (r: Option<RootInput>)
    ensures !data.JObj? ==> r.None?
    ensures data.JObj? ==>
      var t := GetOr(data.entries, "tweets", JList([]));
      && (r.Some? <==> PyLen(t).Some?)
      && (r.Some? ==> |r.value.tweets| == PyLen(t).value && (r.value.sliceable <==> !t.JObj?))
      && (t.JList? ==> r == Some(RootInput(t.items, true)))
  {
    if !data.JObj? then None
    else
      match GetOr(data.entries, "tweets", JList([]))
      case JList(items) => Some(RootInput(items, true))
      case JStr(chars) => Some(RootInput(seq(|chars|, i requires 0 <= i < |chars| => JStr([chars[i]])), true))
      case JObj(entries) => Some(RootInput(seq(|entries|, i requires 0 <= i < |entries| => JStr(entries[i].0)), false))
      case _ => None
  }

  /** `process_content` of the root copy. */
  function ProcessContentSpec(files: map<string, Content>, b: BreakerState, date0: string, today: string,
                              category: string, oracle: seq<seq<Attempt>>, now: Time, shutdownAt: Option<nat>): (o: Outcome)
    ensures Completed(LoadState(FileAt(files, STATE_FILE))) ==> o == Outcome(None, files, b)
    ensures FileAt(files, InputFile(if date0 == "" then today else date0)).None? ==> o == Outcome(None, files, b)
  {
    var date := if date0 == "" then today else date0;
    var st := LoadState(FileAt(files, STATE_FILE));
    if Completed(st) then Outcome(None, files, b)
    else
      match FileAt(files, InputFile(date))
      case None => Outcome(None, files, b)
      case Some(Corrupt) => Outcome(None, files, b)
      case Some(Parsed(data)) =>
        match RootTweets(data)
        case None => Outcome(None, files, b)
        case Some(input) =>
          var env := Env(date, input.tweets, category, oracle, now, shutdownAt, RootCopy, input.sliceable);
          RunFrom(env, LastChunk(st), World(files, b, LoadOutput(FileAt(files, OUTPUT_FILE), date, now.iso)))
  }

  // ---------------------------------------------------------------
  // Properties of the chunk loop
  // ---------------------------------------------------------------

  /** The root copy only ever keeps records in the output shape. */
  lemma {:induction false} RootChunkKeepsShape(env: Env, b: BreakerState, base: nat, chunk: seq<Json>)
    requires env.variant == RootCopy
    ensures forall i :: 0 <= i < |FilterChunk(env, b, base, chunk).kept| ==>
      AllIn(OUTPUT_TWEET_FIELDS, JObj(FilterChunk(env, b, base, chunk).kept[i]))
  {
    if chunk != [] {
      var prev := FilterChunk(env, b, base, chunk[..|chunk| - 1]);
      RootChunkKeepsShape(env, b, base, chunk[..|chunk| - 1]);
      if prev.raised {
        return;
      }
      var t := chunk[|chunk| - 1];
      var run := FilterSpec(prev.breaker, t, CategoryFor(env, t), TraceFor(env.oracle, base + |chunk| - 1), env.now, env.variant);
      var added := if run.result.Some? then [run.result.value] else [];
      assert FilterChunk(env, b, base, chunk).kept == prev.kept + added;
      if run.result.Some? {
        FilterContentAccepted(prev.breaker, t, CategoryFor(env, t), TraceFor(env.oracle, base + |chunk| - 1), env.now, env.variant);
      }
      ShapedAppend(prev.kept, added);
    }
  }

  /** Appending output-shaped records to output-shaped records. */
  lemma ShapedAppend(xs: seq<Record>, ys: seq<Record>)
    requires forall i :: 0 <= i < |xs| ==> AllIn(OUTPUT_TWEET_FIELDS, JObj(xs[i]))
    requires forall i :: 0 <= i < |ys| ==> AllIn(OUTPUT_TWEET_FIELDS, JObj(ys[i]))
    ensures forall i :: 0 <= i < |xs + ys| ==> AllIn(OUTPUT_TWEET_FIELDS, JObj((xs + ys)[i]))
  {
    forall i | 0 <= i < |xs + ys| ensures AllIn(OUTPUT_TWEET_FIELDS, JObj((xs + ys)[i])) {
      if i < |xs| {
        assert (xs + ys)[i] == xs[i];
      } else {
        assert (xs + ys)[i] == ys[i - |xs|];
      }
    }
  }

  /** How the output evolves from world `w` to world `w'`: its tweets only
      grow by appending; when it changed, it gained tweets, `total_tweets`
      counts them and the output file holds it; when it did not change,
      neither did the output file. */
  predicate OutputFollows(w: World, w': World)
  {
    && TweetItems(w.output) <= TweetItems(w'.output)
    && (w'.output != w.output ==>
          && |TweetItems(w.output)| < |TweetItems(w'.output)|
          && TotalTweets(w'.output) == JInt(|TweetItems(w'.output)|)
          && FileAt(w'.files, OUTPUT_FILE) == Some(Parsed(w'.output)))
    && (w'.output == w.output ==> FileAt(w'.files, OUTPUT_FILE) == FileAt(w.files, OUTPUT_FILE))
  }

  lemma OutputFollowsTrans(a: World, b: World, c: World)
    requires OutputFollows(a, b) && OutputFollows(b, c)
    ensures OutputFollows(a, c)
  {
    if c.output == a.output {
      assert |TweetItems(b.output)| == |TweetItems(a.output)|;
    }
  }

  /** A save of the state file leaves the output file alone. */
  lemma SaveStateKeepsOutputFile(files: map<string, Content>, date: string, chunk: nat, total: nat, completed: bool)
    ensures FileAt(SaveState(files, date, chunk, total, completed), OUTPUT_FILE) == FileAt(files, OUTPUT_FILE)
  {
    StateFileIsNotOutputFile();
  }

  /** One chunk: the output follows, and a valid output stays valid when
      the kept records carry the output fields. */
  lemma ApplyChunkOutput(env: Env, i: nat, w: World, c: ChunkRun)
    ensures var r := ApplyChunk(env, i, w, c, ExtendOutput(w.output, c.kept, env.now.iso)).world;
      && OutputFollows(w, r)
      && (ValidOutput(w.output) && (forall k :: 0 <= k < |c.kept| ==> AllIn(OUTPUT_TWEET_FIELDS, JObj(c.kept[k]))) ==>
            ValidOutput(r.output))
  {
    if c.kept == [] {
      SaveStateKeepsOutputFile(w.files, env.date, i / CHUNK_SIZE + 1, TotalChunks(env), false);
    } else if !c.raised && ExtendOutput(w.output, c.kept, env.now.iso).Some? {
      var out := ExtendOutput(w.output, c.kept, env.now.iso).value;
      ExtendAppends(w.output, c.kept, env.now.iso);
      ExtendCounts(w.output, c.kept, env.now.iso);
      SaveStateKeepsOutputFile(w.files[OUTPUT_FILE := Parsed(out)], env.date, i / CHUNK_SIZE + 1, TotalChunks(env), false);
      if ValidOutput(w.output) && (forall k :: 0 <= k < |c.kept| ==> AllIn(OUTPUT_TWEET_FIELDS, JObj(c.kept[k]))) {
        ExtendKeepsValid(w.output, c.kept, env.now.iso);
      }
    }
  }

  /** The loop body never saves a completed state. */
  lemma ApplyChunkNotCompleted(env: Env, i: nat, w: World, c: ChunkRun, ext: Option<Json>)
    ensures ApplyChunk(env, i, w, c, ext).Finished? ==>
      !Completed(LoadState(FileAt(ApplyChunk(env, i, w, c, ext).world.files, STATE_FILE)))
    ensures ApplyChunk(env, i, w, c, ext).Aborted? ==> ApplyChunk(env, i, w, c, ext).world.files == w.files
  {
    if !c.raised {
      SaveChunkNotCompleted(env, i, w, c, ext);
    }
  }

  lemma SaveChunkNotCompleted(env: Env, i: nat, w: World, c: ChunkRun, ext: Option<Json>)
    ensures SaveChunk(env, i, w, c, ext).Finished? ==>
      !Completed(LoadState(FileAt(SaveChunk(env, i, w, c, ext).world.files, STATE_FILE)))
    ensures SaveChunk(env, i, w, c, ext).Aborted? ==> SaveChunk(env, i, w, c, ext).world.files == w.files
  {
    if c.kept == [] {
      SavedStateNotCompleted(w.files, env.date, i / CHUNK_SIZE + 1, TotalChunks(env));
    } else if ext.Some? {
      SavedStateNotCompleted(w.files[OUTPUT_FILE := Parsed(ext.value)], env.date, i / CHUNK_SIZE + 1, TotalChunks(env));
    }
  }

  /** Output only grows by appending over the whole loop: the tweets the loop
      ends with extend the tweets it started with, `total_tweets` counts the
      output once anything was appended and the output file holds it; in the
      root copy a valid output stays valid. */
  lemma {:induction false} LoopOutputGrows(env: Env, i: nat, it: nat, w: World)
    ensures OutputFollows(w, LoopFrom(env, i, it, w).world)
    ensures env.variant == RootCopy && ValidOutput(w.output) ==> ValidOutput(LoopFrom(env, i, it, w).world.output)
    decreases |env.tweets| - i
  {
    if i < |env.tweets| {
      if env.shutdownAt == Some(it) {
        SaveStateKeepsOutputFile(w.files, env.date, i / CHUNK_SIZE, TotalChunks(env), false);
      } else if env.sliceable {
        var c := FilterChunk(env, w.breaker, i, env.tweets[i..ChunkEnd(|env.tweets|, i)]);
        ApplyChunkOutput(env, i, w, c);
        if env.variant == RootCopy {
          RootChunkKeepsShape(env, w.breaker, i, env.tweets[i..ChunkEnd(|env.tweets|, i)]);
        }
        match ChunkStep(env, i, w)
        case Aborted(_) =>
        case Finished(w') =>
          LoopOutputGrows(env, i + CHUNK_SIZE, it + 1, w');
          OutputFollowsTrans(w, w', LoopFrom(env, i + CHUNK_SIZE, it + 1, w').world);
      }
    }
  }

  /** The loop itself never marks the state completed: every state it saves
      has `completed` false. */
  lemma {:induction false} LoopNeverCompletes(env: Env, i: nat, it: nat, w: World)
    requires !Completed(LoadState(FileAt(w.files, STATE_FILE)))
    ensures !Completed(LoadState(FileAt(LoopFrom(env, i, it, w).world.files, STATE_FILE)))
    decreases |env.tweets| - i
  {
    if i >= |env.tweets| {
    } else if env.shutdownAt == Some(it) {
      SavedStateNotCompleted(w.files, env.date, i / CHUNK_SIZE, TotalChunks(env));
    } else if env.sliceable {
      var step := ChunkStep(env, i, w);
      ChunkStepNotCompleted(env, i, w);
      if step.Finished? {
        assert LoopFrom(env, i, it, w) == LoopFrom(env, i + CHUNK_SIZE, it + 1, step.world);
        LoopNeverCompletes(env, i + CHUNK_SIZE, it + 1, step.world);
      } else {
        assert LoopFrom(env, i, it, w) == step;
      }
    }
  }

  lemma ChunkStepNotCompleted(env: Env, i: nat, w: World)
    requires i < |env.tweets|
    ensures ChunkStep(env, i, w).Finished? ==>
      !Completed(LoadState(FileAt(ChunkStep(env, i, w).world.files, STATE_FILE)))
    ensures ChunkStep(env, i, w).Aborted? ==> ChunkStep(env, i, w).world.files == w.files
  {
    var c := FilterChunk(env, w.breaker, i, env.tweets[i..ChunkEnd(|env.tweets|, i)]);
    ApplyChunkNotCompleted(env, i, w, c, ExtendOutput(w.output, c.kept, env.now.iso));
  }

  /** A run marks the date completed (with `last_chunk == total_chunks`)
      exactly when no shutdown was requested; a run that saw the shutdown
      flag leaves the state not completed, so the next run resumes. */
  lemma CompletionOnlyWithoutShutdown(env: Env, start: nat, w: World)
    requires !Completed(LoadState(FileAt(w.files, STATE_FILE)))
    requires IsYmd(env.date)
    ensures var o := RunFrom(env, start, w);
      o.result.Some? ==>
        var s := LoadState(FileAt(o.files, STATE_FILE));
        && (Completed(s) <==> env.shutdownAt.None?)
        && (env.shutdownAt.None? ==> LastChunk(s) == TotalChunks(env))
  {
    LoopNeverCompletes(env, start * CHUNK_SIZE, 0, w);
    var end := LoopFrom(env, start * CHUNK_SIZE, 0, w);
    if end.Finished? && env.shutdownAt.None? {
      SavedStateReadsBack(end.world.files, env.date, TotalChunks(env), TotalChunks(env), true);
    }
  }

  /** A tweet that is not a dict in the first chunk the run filters makes
      `gather` raise: `process_content` returns `None`, and the store is as
      the run found it. */
  lemma NonDictTweetAbortsRun(env: Env, start: nat, w: World, k: nat)
    requires start * CHUNK_SIZE <= k < |env.tweets| && k < ChunkEnd(|env.tweets|, start * CHUNK_SIZE)
    requires !env.tweets[k].JObj? && env.shutdownAt != Some(0) && env.sliceable
    ensures RunFrom(env, start, w).result.None? && RunFrom(env, start, w).files == w.files
  {
    var i := start * CHUNK_SIZE;
    var chunk := env.tweets[i..ChunkEnd(|env.tweets|, i)];
    assert chunk[k - i] == env.tweets[k];
    ChunkRaisesIffNonDict(env, w.breaker, i, chunk);
    assert ChunkStep(env, i, w) == Aborted(w.(breaker := FilterChunk(env, w.breaker, i, chunk).breaker));
  }

  /** A run past the state gate, on an input that decodes and whose tweets
      can be sliced, is the chunk loop from the resume chunk. */
  lemma ProcessContentRuns(files: map<string, Content>, b: BreakerState, date: string, today: string,
                           category: string, oracle: seq<seq<Attempt>>, now: Time, shutdownAt: Option<nat>,
                           data: Json, input: RootInput)
    requires date != "" && !Completed(LoadState(FileAt(files, STATE_FILE)))
    requires FileAt(files, InputFile(date)) == Some(Parsed(data)) && RootTweets(data) == Some(input)
    ensures ProcessContentSpec(files, b, date, today, category, oracle, now, shutdownAt)
         == RunFrom(Env(date, input.tweets, category, oracle, now, shutdownAt, RootCopy, input.sliceable),
                    LastChunk(LoadState(FileAt(files, STATE_FILE))),
                    World(files, b, LoadOutput(FileAt(files, OUTPUT_FILE), date, now.iso)))
  {
  }

  /** Tweets that `len` can count but that cannot be sliced (a dict's keys)
      raise only at the first slice: a run with no chunk left to take, or
      one that sees the shutdown flag before its first chunk, returns the
      output as it found it; any other run returns `None` and leaves the
      store and the breaker as they were. */
  lemma UnsliceableRaisesAtFirstSlice(env: Env, start: nat, w: World)
    requires !env.sliceable
    ensures start * CHUNK_SIZE >= |env.tweets| ==>
      RunFrom(env, start, w).result == Some(w.output)
      && RunFrom(env, start, w).files
           == (if env.shutdownAt.None? then SaveState(w.files, env.date, TotalChunks(env), TotalChunks(env), true) else w.files)
    ensures start * CHUNK_SIZE < |env.tweets| && env.shutdownAt == Some(0) ==>
      RunFrom(env, start, w) == Outcome(Some(w.output), SaveState(w.files, env.date, start, TotalChunks(env), false), w.breaker)
    ensures start * CHUNK_SIZE < |env.tweets| && env.shutdownAt != Some(0) ==>
      RunFrom(env, start, w) == Outcome(None, w.files, w.breaker)
  {
    assert start * CHUNK_SIZE / CHUNK_SIZE == start;
  }

  /** `len` counts the one key of `{"a": 1}`, which cannot be sliced. */
  lemma OneKeyDictTweets()
    ensures var r := RootTweets(JObj([("tweets", JObj([("a", JInt(1))]))]));
      r.Some? && |r.value.tweets| == 1 && !r.value.sliceable
  {
    var data := JObj([("tweets", JObj([("a", JInt(1))]))]);
    assert GetOr(data.entries, "tweets", JList([])) == JObj([("a", JInt(1))]);
  }

  /** The input `{"tweets": {"a": 1}}`: one tweet by `len`, so a run resuming
      at chunk 1 or later has no chunk to take and returns the output, as
      does a run that sees the shutdown flag first; a run from chunk 0
      otherwise raises at the slice and returns `None`, writing nothing. */
  lemma DictTweetsInput(files: map<string, Content>, b: BreakerState, date: string, today: string,
                        category: string, oracle: seq<seq<Attempt>>, now: Time, shutdownAt: Option<nat>)
    requires date != ""
    requires !Completed(LoadState(FileAt(files, STATE_FILE)))
    requires FileAt(files, InputFile(date)) == Some(Parsed(JObj([("tweets", JObj([("a", JInt(1))]))])))
    ensures var o := ProcessContentSpec(files, b, date, today, category, oracle, now, shutdownAt);
      var start := LastChunk(LoadState(FileAt(files, STATE_FILE)));
      && (start >= 1 || shutdownAt == Some(0) ==> o.result.Some?)
      && (start == 0 && shutdownAt != Some(0) ==> o == Outcome(None, files, b))
  {
    var data := JObj([("tweets", JObj([("a", JInt(1))]))]);
    OneKeyDictTweets();
    var input := RootTweets(data).value;
    ProcessContentRuns(files, b, date, today, category, oracle, now, shutdownAt, data, input);
    var st := LoadState(FileAt(files, STATE_FILE));
    var env := Env(date, input.tweets, category, oracle, now, shutdownAt, RootCopy, false);
    var w := World(files, b, LoadOutput(FileAt(files, OUTPUT_FILE), date, now.iso));
    UnsliceableRaisesAtFirstSlice(env, LastChunk(st), w);
  }

  /** The input `{"tweets": [1]}`, read by a run that starts from chunk 0:
      `process_content` returns `None` and writes nothing. */
  lemma NonDictInputAborts(files: map<string, Content>, b: BreakerState, date: string, today: string,
                           category: string, oracle: seq<seq<Attempt>>, now: Time)
    requires date != ""
    requires var st := LoadState(FileAt(files, STATE_FILE)); !Completed(st) && LastChunk(st) == 0
    requires FileAt(files, InputFile(date)) == Some(Parsed(JObj([("tweets", JList([JInt(1)]))])))
    ensures var o := ProcessContentSpec(files, b, date, today, category, oracle, now, None);
      o.result.None? && o.files == files
  {
    var data := JObj([("tweets", JList([JInt(1)]))]);
    assert RootTweets(data) == Some(RootInput([JInt(1)], true)) by {
      assert GetOr(data.entries, "tweets", JList([])) == JList([JInt(1)]);
    }
    ProcessContentRuns(files, b, date, today, category, oracle, now, None, data, RootInput([JInt(1)], true));
    var env := Env(date, [JInt(1)], category, oracle, now, None, RootCopy, true);
    var w := World(files, b, LoadOutput(FileAt(files, OUTPUT_FILE), date, now.iso));
    NonDictTweetAbortsRun(env, 0, w, 0);
  }

  /** Once a run has completed, the state gate skips every later call, for
      the same date and for any other date alike: the state file is not keyed
      by date. */
  lemma CompletionBlocksEveryDate(files: map<string, Content>, b: BreakerState, date: string, today: string,
                                  category: string, oracle: seq<seq<Attempt>>, now: Time,
                                  files': map<string, Content>, b': BreakerState, other: string,
                                  oracle': seq<seq<Attempt>>, now': Time, shutdownAt': Option<nat>)
    requires IsYmd(date)
    requires var o := ProcessContentSpec(files, b, date, today, category, oracle, now, None);
      o.result.Some? && o.files == files'
    ensures ProcessContentSpec(files', b', other, today, category, oracle', now', shutdownAt') == Outcome(None, files', b')
  {
    var st := LoadState(FileAt(files, STATE_FILE));
    var data := FileAt(files, InputFile(date)).value.json;
    var input := RootTweets(data).value;
    var env := Env(date, input.tweets, category, oracle, now, None, RootCopy, input.sliceable);
    var w := World(files, b, LoadOutput(FileAt(files, OUTPUT_FILE), date, now.iso));
    CompletionOnlyWithoutShutdown(env, LastChunk(st), w);
  }

  // ---------------------------------------------------------------
  // _get_unprocessed_dates and recover_state
  // ---------------------------------------------------------------

  /** A directory name `_get_unprocessed_dates` considers: eight digits. */
  predicate IsDateDirName(name: string)
  {
    IsDigits(name) && |name| == 8
  }

  /** The date a completed state marks as processed. */
  function DoneDate(stateFile: Option<Content>): Option<Json>
  {
    var st := LoadState(stateFile);
    if stateFile.Some? && Completed(st) && Truthy(Field(st, "last_processed_date")) then
      Some(Field(st, "last_processed_date"))
    else None
  }

  function DateDirs(dirs: seq<string>, done: Option<Json>): (r: seq<string>)
    ensures forall d :: d in r <==> d in dirs && IsDateDirName(d) && done != Some(JStr(d))
  {
    if dirs == [] then []
    else
      var d := dirs[|dirs| - 1];
      assert dirs == dirs[..|dirs| - 1] + [d];
      DateDirs(dirs[..|dirs| - 1], done) + (if IsDateDirName(d) && done != Some(JStr(d)) then [d] else [])
  }

  /** `_get_unprocessed_dates` over the names of the directories under
      `data/processed`. */
  function UnprocessedDates(stateFile: Option<Content>, dirs: seq<string>): seq<string>
  {
    SortedSet(DateDirs(dirs, DoneDate(stateFile)))
  }

  /** The result is sorted, repeats no name, and holds exactly the eight-digit
      directory names other than the date of a completed state. */
  lemma UnprocessedDatesCharacterised(stateFile: Option<Content>, dirs: seq<string>)
    ensures var r := UnprocessedDates(stateFile, dirs);
      && SortedStrings(r)
      && (forall i, j :: 0 <= i < j < |r| ==> r[i] != r[j])
      && (forall d :: d in r <==> d in dirs && IsDateDirName(d) && DoneDate(stateFile) != Some(JStr(d)))
  {
    SortedSetCharacterised(DateDirs(dirs, DoneDate(stateFile)));
  }

  /** `recover_state` of the root copy: from a valid output file, rebuild a
      state for its date that restarts at chunk 0 with the input's chunk
      count. Returns whether it did. */
  function RecoverStateSpec(files: map<string, Content>): (r: (bool, map<string, Content>))
    ensures !r.0 ==> r.1 == files
    ensures r.0 ==> ValidateOutputFile(FileAt(files, OUTPUT_FILE)) && r.1.Keys == files.Keys + {STATE_FILE}
  {
    if !ValidateOutputFile(FileAt(files, OUTPUT_FILE)) then (false, files)
    else
      var md := Field(files[OUTPUT_FILE].json.entries, "metadata");
      if !md.JObj? || !Field(md.entries, "processed_date").JStr? then (false, files)
      else
        var date := Field(md.entries, "processed_date").s;
        match FileAt(files, InputFile(date))
        case Some(Parsed(JObj(input))) =>
          (match PyLen(GetOr(input, "tweets", JList([])))
           case Some(n) => (true, files[STATE_FILE := Parsed(JObj(RecoveredState(date, CeilDiv(n, CHUNK_SIZE))))])
           case None => (false, files))
        case _ => (false, files)
  }

  function RecoveredState(date: string, total: nat): Record
  {
    [("last_processed_date", JStr(date)), ("last_chunk", JInt(0)), ("total_chunks", JInt(total)),
     ("completed", JBool(false)), ("columns_state", JObj([]))]
  }

  /** A recovered state restarts from chunk 0, not completed, with
      `total_chunks == ceil(input tweets / 5)`, and it validates whenever the
      recorded date is a YYYYMMDD date. */
  lemma RecoveredStateResumesFromStart(date: string, total: nat)
    requires IsYmd(date)
    ensures var s := LoadState(Some(Parsed(JObj(RecoveredState(date, total)))));
      s == RecoveredState(date, total) && !Completed(s) && LastChunk(s) == 0
  {
    var s := RecoveredState(date, total);
    GetAt(s, 0);
    GetAt(s, 1);
    GetAt(s, 2);
    GetAt(s, 3);
    StateReadsBack(s, date, 0, total, false);
  }

  // ---------------------------------------------------------------
  // The filter object
  // ---------------------------------------------------------------

  /** The stage object: the JSON store it reads and writes, and its breaker. */
  class AlphaFilter {
    var files: map<string, Content>
    const breaker: CircuitBreaker

    ghost predicate Valid()
      reads this, breaker
    {
      breaker.Valid()
    }

    constructor (files: map<string, Content>)
      ensures Valid() && this.files == files && breaker.State() == Closed
    {
      this.files := files;
      breaker := new CircuitBreaker();
    }

    /** `filter_content`: the breaker check, the early exits and the retry
        loop over the model trace. */
    method FilterContent(tweet: Json, category: Json, trace: seq<Attempt>, now: Time, variant: Variant)
      returns (r: Option<Record>, raised: bool, delays: seq<nat>)
      requires Valid()
      modifies breaker
      ensures Valid()
      ensures FilterRun(r, raised, breaker.State(), delays)
           == FilterSpec(old(breaker.State()), tweet, category, trace, now, variant)
    {
      var refused := breaker.Check(now.seconds);
      if refused {
        return None, !tweet.JObj?, [];
      }
      if !tweet.JObj? {
        breaker.RecordFailure(now.seconds);
        return None, true, [];
      }
      if variant == SrcCopy && Truthy(GetOr(tweet.entries, "from_slack", JBool(false))) {
        return Some(SlackCopy(tweet.entries, category)), false, [];
      }
      if !PromptReady(tweet.entries) {
        return None, false, [];
      }
      var run := RetryLoop(Steps(trace, tweet.entries, category, now.iso));
      return run.result, false, run.delays;
    }

    /** The tasks of one chunk, in order, keeping the results that are not
        `None` and stopping at the first task that raises. */
    method FilterChunkLoop(env: Env, base: nat, chunk: seq<Json>) returns (kept: seq<Record>, raised: bool)
      requires Valid()
      modifies breaker
      ensures Valid()
      ensures ChunkRun(kept, raised, breaker.State()) == FilterChunk(env, old(breaker.State()), base, chunk)
    {
      kept, raised := [], false;
      var j := 0;
      while j < |chunk| && !raised
        invariant 0 <= j <= |chunk| && Valid()
        invariant ChunkRun(kept, raised, breaker.State()) == FilterChunk(env, old(breaker.State()), base, chunk[..j])
      {
        var t := chunk[j];
        var r, failed, delays := FilterContent(t, CategoryFor(env, t), TraceFor(env.oracle, base + j), env.now, env.variant);
        FilterChunkSnoc(env, old(breaker.State()), base, chunk, j, FilterRun(r, failed, breaker.State(), delays));
        if r.Some? {
          kept := kept + [r.value];
        }
        raised := failed;
        j := j + 1;
      }
      if raised {
        FilterChunkRaisedStays(env, old(breaker.State()), base, chunk, j);
      } else {
        assert chunk[..j] == chunk;
      }
    }

    /** One pass of the chunk loop body: filter the chunk, extend and write
        the output when something was kept, save the state; `None` when a
        task of the chunk raises or the loaded output cannot be extended. */
    method ChunkIteration(env: Env, i: nat, output: Json) returns (next: Option<Json>)
      requires Valid() && i < |env.tweets|
      modifies this, breaker
      ensures Valid()
      ensures ChunkStep(env, i, World(old(files), old(breaker.State()), output))
           == match next
              case None => Aborted(World(files, breaker.State(), output))
              case Some(out) => Finished(World(files, breaker.State(), out))
    {
      ghost var w := World(files, breaker.State(), output);
      var kept, raised := FilterChunkLoop(env, i, env.tweets[i..ChunkEnd(|env.tweets|, i)]);
      var extended := ExtendOutput(output, kept, env.now.iso);
      ghost var c := ChunkRun(kept, raised, breaker.State());
      assert ChunkStep(env, i, w) == ApplyChunk(env, i, w, c, extended);
      if raised {
        return None;
      }
      assert ChunkStep(env, i, w) == SaveChunk(env, i, w, c, extended);
      next := Some(output);
      if kept != [] {
        if extended.None? {
          return None;
        }
        next := extended;
        files := files[OUTPUT_FILE := Parsed(extended.value)];
      }
      files := SaveState(files, env.date, i / CHUNK_SIZE + 1, TotalChunks(env), false);
      assert SaveChunk(env, i, w, c, extended) == Finished(World(files, c.breaker, next.value));
    }

    /** The chunk loop of `process_content` and the completion mark. */
    method RunChunks(env: Env, start: nat, output0: Json) returns (result: Option<Json>)
      requires Valid()
      modifies this, breaker
      ensures Valid()
      ensures Outcome(result, files, breaker.State())
           == RunFrom(env, start, World(old(files), old(breaker.State()), output0))
    {
      var output := output0;
      var i := start * CHUNK_SIZE;
      var it := 0;
      ghost var w0 := World(files, breaker.State(), output0);
      while i < |env.tweets|
        invariant Valid()
        invariant LoopFrom(env, start * CHUNK_SIZE, 0, w0) == LoopFrom(env, i, it, World(files, breaker.State(), output))
        decreases |env.tweets| - i
      {
        if env.shutdownAt == Some(it) {
          files := SaveState(files, env.date, i / CHUNK_SIZE, TotalChunks(env), false);
          return Some(output);
        }
        if !env.sliceable {
          return None;
        }
        var next := ChunkIteration(env, i, output);
        if next.None? {
          return None;
        }
        output := next.value;
        i := i + CHUNK_SIZE;
        it := it + 1;
      }
      if env.shutdownAt.None? {
        files := SaveState(files, env.date, TotalChunks(env), TotalChunks(env), true);
      }
      return Some(output);
    }

    /** `process_content` of the root copy. */
    method ProcessContent(date0: string, today: string, category: string, oracle: seq<seq<Attempt>>,
                          now: Time, shutdownAt: Option<nat>) returns (result: Option<Json>)
      requires Valid()
      modifies this, breaker
      ensures Valid()
      ensures Outcome(result, files, breaker.State())
           == ProcessContentSpec(old(files), old(breaker.State()), date0, today, category, oracle, now, shutdownAt)
    {
      var date := if date0 == "" then today else date0;
      var st := LoadState(FileAt(files, STATE_FILE));
      if Completed(st) {
        return None;
      }
      var input := FileAt(files, InputFile(date));
      if input.None? || input.value.Corrupt? {
        return None;
      }
      var tweets := RootTweets(input.value.json);
      if tweets.None? {
        return None;
      }
      var env := Env(date, tweets.value.tweets, category, oracle, now, shutdownAt, RootCopy, tweets.value.sliceable);
      result := RunChunks(env, LastChunk(st), LoadOutput(FileAt(files, OUTPUT_FILE), date, now.iso));
    }

    /** `recover_state` of the root copy. */
    method RecoverState() returns (ok: bool)
      modifies this
      ensures (ok, files) == RecoverStateSpec(old(files))
    {
      var r := RecoverStateSpec(files);
      ok := r.0;
      files := r.1;
    }
  }
}
