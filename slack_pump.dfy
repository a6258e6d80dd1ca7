// src/slack_pump.py: the Slack listener that turns a message linking tweets
// into summarised entries of the content filter's combined output. The
// summariser `_extract_summary` is an oracle: `answers[k]` is what it returns
// for the k-th scraped tweet, `None` when the call raises.

module SlackPump {
  import opened Common
  import opened ErrorHandler
  import opened Pump

  /** `Path('data/filtered/content_filtered/combined_filtered.json')`. */
  const OUTPUT_FILE: string := "data/filtered/content_filtered/combined_filtered.json"

  /** The keys of a transformed tweet, in the order the source writes them. */
  const SUMMARY_KEYS: seq<string> := ["attribution", "content", "url", "original_date", "from_slack"]

  function AnswerAt(answers: seq<Option<Json>>, k: nat): Option<Json>
  {
    if k < |answers| then answers[k] else None
  }

  /** The entry `_transform_to_alpha_format` appends for a tweet whose
      summary is `result`. */
  function SummaryEntry(tweet: Record, result: Record): Record
  {
    Zip(SUMMARY_KEYS, [Field(result, "attribution"), Field(result, "content"), Field(tweet, "url"),
                       GetOr(tweet, "created_at", JStr("")), JBool(true)])
  }

  /** What the transform loop does with one tweet: `tweet['text']`,
      `['author']` and `['url']` must exist and the nested tweets be dicts
      before the summariser is called; a falsy summary is skipped, and a
      truthy one that is not a dict with `attribution` and `content` raises. */
  function SummaryPick(tweet: Record, answer: Option<Json>): Pick<Record>
  {
    if !HasKey(tweet, "text") || !HasKey(tweet, "author") || !HasKey(tweet, "url") then Raise
    else if NestedText(tweet, "quoted_tweet").None? || NestedText(tweet, "retweeted_tweet").None? then Raise
    else match answer
      case None => Raise
      case Some(result) =>
        if !Truthy(result) then Skip
        else if !result.JObj? || !HasKey(result.entries, "attribution") || !HasKey(result.entries, "content") then Raise
        else Keep(SummaryEntry(tweet, result.entries))
  }

  function SummaryPicks(tweets: seq<Record>, answers: seq<Option<Json>>): (ps: seq<Pick<Record>>)
    ensures |ps| == |tweets|
  {
    seq(|tweets|, k requires 0 <= k < |tweets| => SummaryPick(tweets[k], AnswerAt(answers, k)))
  }

  /** `await self._transform_to_alpha_format(tweets)`; `None` when it raises. */
  function Transform(tweets: seq<Record>, answers: seq<Option<Json>>): Option<seq<Record>>
  {
    Picked(SummaryPicks(tweets, answers))
  }

  lemma SummaryKeysDistinct()
    ensures DistinctStrings(SUMMARY_KEYS)
  {
  }

  /** An entry carries the summary's attribution and content, the tweet's
      link, and the `from_slack` mark. */
  lemma SummaryEntryFields(tweet: Record, result: Record)
    ensures var r := SummaryEntry(tweet, result);
      && Keys(r) == SUMMARY_KEYS
      && Field(r, "attribution") == Field(result, "attribution")
      && Field(r, "content") == Field(result, "content")
      && Field(r, "url") == Field(tweet, "url")
      && Field(r, "from_slack") == JBool(true)
  {
    var vals := [Field(result, "attribution"), Field(result, "content"), Field(tweet, "url"),
                 GetOr(tweet, "created_at", JStr("")), JBool(true)];
    SummaryKeysDistinct();
    ZipKeys(SUMMARY_KEYS, vals);
    ZipField(SUMMARY_KEYS, vals, 0);
    ZipField(SUMMARY_KEYS, vals, 1);
    ZipField(SUMMARY_KEYS, vals, 2);
    ZipField(SUMMARY_KEYS, vals, 4);
  }

  /** The transform raises exactly when some tweet does; otherwise every
      entry comes from one tweet's well-formed summary, in tweet order,
      and every tweet with a truthy summary gives one. */
  lemma TransformCharacterised(tweets: seq<Record>, answers: seq<Option<Json>>)
    ensures Transform(tweets, answers).None? <==>
      exists k :: 0 <= k < |tweets| && SummaryPick(tweets[k], AnswerAt(answers, k)).Raise?
    ensures Transform(tweets, answers).Some? ==>
      var out := Transform(tweets, answers).value;
      && |out| <= |tweets|
      && out == FilterMap(SummaryPicks(tweets, answers), KeptOf)
      && (forall m :: 0 <= m < |out| ==>
            exists k :: 0 <= k < |tweets| && SummaryPick(tweets[k], AnswerAt(answers, k)) == Keep(out[m]))
  {
    var ps := SummaryPicks(tweets, answers);
    PickedCharacterised(ps);
    if k :| 0 <= k < |tweets| && SummaryPick(tweets[k], AnswerAt(answers, k)).Raise? {
      assert ps[k].Raise?;
    }
    if Transform(tweets, answers).Some? {
      var out := Transform(tweets, answers).value;
      FilterMapSound(ps, KeptOf);
      forall m | 0 <= m < |out|
        ensures exists k :: 0 <= k < |tweets| && SummaryPick(tweets[k], AnswerAt(answers, k)) == Keep(out[m])
      {
        KeptFromTweet(tweets, answers, out[m]);
      }
    }
  }

  lemma KeptFromTweet(tweets: seq<Record>, answers: seq<Option<Json>>, x: Record)
    requires IsImage(SummaryPicks(tweets, answers), KeptOf, x)
    ensures exists k :: 0 <= k < |tweets| && SummaryPick(tweets[k], AnswerAt(answers, k)) == Keep(x)
  {
    var ps := SummaryPicks(tweets, answers);
    var k :| 0 <= k < |ps| && KeptOf(ps[k]) == Some(x);
    assert ps[k] == SummaryPick(tweets[k], AnswerAt(answers, k));
  }

  /** A kept entry is the summary of its tweet, marked as coming from Slack. */
  lemma SummaryPickKeeps(tweet: Record, answer: Option<Json>)
    requires SummaryPick(tweet, answer).Keep?
    ensures var r := SummaryPick(tweet, answer).value;
      && answer.Some? && answer.value.JObj? && Truthy(answer.value)
      && Field(r, "attribution") == Field(answer.value.entries, "attribution")
      && Field(r, "content") == Field(answer.value.entries, "content")
      && Field(r, "url") == Field(tweet, "url")
      && Field(r, "from_slack") == JBool(true)
  {
    SummaryEntryFields(tweet, answer.value.entries);
  }

  // ---------------------------------------------------------------
  // _add_to_alpha_output
  // ---------------------------------------------------------------

  /** What `existing_data` starts as: the stored file, or
      `{CATEGORY: {'tweets': []}}` when there is none. */
  function ExistingOutput(files: map<string, Content>): Content
  {
    if OUTPUT_FILE in files then files[OUTPUT_FILE]
    else Parsed(JObj([(CATEGORY, JObj([("tweets", JList([]))]))]))
  }

  /** `existing_data[CATEGORY]['tweets']`, when loading, both lookups and
      `.extend` all succeed. */
  function CategoryTweets(c: Content): Option<seq<Json>>
  {
    match c
    case Corrupt => None
    case Parsed(doc) =>
      if !doc.JObj? || !HasKey(doc.entries, CATEGORY) then None
      else
        var cat := Field(doc.entries, CATEGORY);
        if !cat.JObj? || !HasKey(cat.entries, "tweets") then None
        else
          var ts := Field(cat.entries, "tweets");
          if ts.JList? then Some(ts.items) else None
  }

  /** The document with `existing_data[CATEGORY]['tweets']` replaced by `ts`. */
  function WithCategoryTweets(doc: Record, ts: seq<Json>): Record
  {
    var cat := Field(doc, CATEGORY);
    Set(doc, CATEGORY, JObj(InnerWith(cat, ts)))
  }

  /** `_add_to_alpha_output(new_tweets)`: `None` when it raises, which it
      does whenever the store cannot be extended, because its handler then
      reads a temporary path that was never bound. */
  function AddSpec(files: map<string, Content>, newTweets: seq<Record>): Option<map<string, Content>>
  {
    if newTweets == [] then Some(files)
    else
      var c := ExistingOutput(files);
      match CategoryTweets(c)
      case None => None
      case Some(ts) => Some(files[OUTPUT_FILE := Parsed(JObj(WithCategoryTweets(c.json.entries, ts + AsJson(newTweets))))])
  }

  /** Adding nothing changes nothing; otherwise the add fails exactly when
      the store is unreadable or lacks a `CATEGORY` tweet list, and then
      leaves it alone; when it succeeds the store's `CATEGORY` tweets are
      the old ones followed by the new, the document keeps its keys, and no
      other file changes. */
  lemma AddCharacterised(files: map<string, Content>, newTweets: seq<Record>)
    ensures newTweets == [] ==> AddSpec(files, newTweets) == Some(files)
    ensures newTweets != [] ==>
      (AddSpec(files, newTweets).None? <==> CategoryTweets(ExistingOutput(files)).None?)
    ensures newTweets != [] && AddSpec(files, newTweets).Some? ==>
      var files' := AddSpec(files, newTweets).value;
      && OUTPUT_FILE in files'
      && CategoryTweets(files'[OUTPUT_FILE]) == Some(CategoryTweets(ExistingOutput(files)).value + AsJson(newTweets))
      && Keys(files'[OUTPUT_FILE].json.entries) == Keys(ExistingOutput(files).json.entries)
      && forall p :: p != OUTPUT_FILE ==> (p in files' <==> p in files) && (p in files ==> files'[p] == files[p])
  {
    if newTweets != [] && CategoryTweets(ExistingOutput(files)).Some? {
      var doc := ExistingOutput(files).json.entries;
      WithCategoryTweetsReads(doc, CategoryTweets(ExistingOutput(files)).value + AsJson(newTweets));
    }
  }

  /** Writing the tweet list reads back. */
  lemma WithCategoryTweetsReads(doc: Record, ts: seq<Json>)
    requires HasKey(doc, CATEGORY)
    ensures CategoryTweets(Parsed(JObj(WithCategoryTweets(doc, ts)))) == Some(ts)
    ensures Keys(WithCategoryTweets(doc, ts)) == Keys(doc)
  {
    var inner := InnerWith(Field(doc, CATEGORY), ts);
    GetSetSame(doc, CATEGORY, JObj(inner));
    SetHasKey(doc, CATEGORY, JObj(inner), CATEGORY);
    CategoryTweetsOf(Set(doc, CATEGORY, JObj(inner)), inner, ts);
  }

  lemma CategoryTweetsOf(doc: Record, inner: Record, ts: seq<Json>)
    requires HasKey(doc, CATEGORY) && Get(doc, CATEGORY) == Some(JObj(inner))
    requires HasKey(inner, "tweets") && Field(inner, "tweets") == JList(ts)
    ensures CategoryTweets(Parsed(JObj(doc))) == Some(ts)
  {
  }

  /** The category object with its `tweets` set to `ts`. */
  function InnerWith(cat: Json, ts: seq<Json>): (r: Record)
    ensures HasKey(r, "tweets") && Field(r, "tweets") == JList(ts)
  {
    var entries := if cat.JObj? then cat.entries else [];
    GetSetSame(entries, "tweets", JList(ts));
    SetHasKey(entries, "tweets", JList(ts), "tweets");
    Set(entries, "tweets", JList(ts))
  }

  // ---------------------------------------------------------------
  // handle_message
  // ---------------------------------------------------------------

  /** `handle_message` together with the outer event handler. */
  function HandleSpec(files: map<string, Content>, message: Record, keywords: seq<string>,
                      runs: seq<ApifyRun>, answers: seq<Option<Json>>): Handled
  {
    match GateMessage(message, keywords)
    case TextError => Handled([MessageFailed], files)
    case Ignored => Handled([], files)
    case Links(urls) =>
      var found := [Found(|urls|)];
      match ScrapeTweetsSpec(urls, runs)
      case Returned(tweets, _) =>
        if tweets == [] then Handled(found + [NothingRetrieved], files)
        else
          (match Transform(tweets, answers)
           case None => Handled(found + [ProcessingFailed], files)
           case Some(out) =>
             (match AddSpec(files, out)
              case None => Handled(found + [ProcessingFailed], files)
              case Some(files') => Handled(found + [Processed(out)], files')))
      case Propagated(_, _, _) => Handled(found + [ProcessingFailed], files)
      case Exhausted(_) => Handled(found + [ProcessingFailed], files)
  }

  /** A message that is ignored or fails before the scrape leaves no trace
      but its reply; one that links tweets gets "Found n tweets" and then
      exactly one more reply, never "no tweets could be retrieved" (the
      scrape raises rather than return no tweets); the store changes only
      when that reply reports the transformed tweets, and then as
      `AddSpec` appends them (see `AddCharacterised`). */
  lemma HandleOutcome(files: map<string, Content>, message: Record, keywords: seq<string>,
                      runs: seq<ApifyRun>, answers: seq<Option<Json>>)
    ensures var h := HandleSpec(files, message, keywords, runs, answers);
      match GateMessage(message, keywords)
      case TextError => h == Handled([MessageFailed], files)
      case Ignored => h == Handled([], files)
      case Links(urls) =>
        && |h.replies| == 2 && h.replies[0] == Found(|urls|)
        && !h.replies[1].NothingRetrieved? && !h.replies[1].MessageFailed?
        && (!h.replies[1].Processed? ==> h.files == files)
        && (h.replies[1].Processed? ==>
              && ScrapeTweetsSpec(urls, runs).Returned?
              && Transform(ScrapeTweetsSpec(urls, runs).value, answers) == Some(h.replies[1].tweets)
              && AddSpec(files, h.replies[1].tweets) == Some(h.files))
  {
    match GateMessage(message, keywords)
    case TextError =>
    case Ignored =>
    case Links(urls) =>
      ScrapeTweetsOutcome(urls, runs);
  }

  /** The listener: the JSON store it writes to and the retry state of the
      `_scrape_tweets` decorator. */
  class SlackPump {
    var files: map<string, Content>
    const retry: RetryConfig

    predicate Valid()
    {
      ScrapeRetry(retry)
    }

    constructor (files: map<string, Content>)
      ensures this.files == files && Valid() && fresh(retry)
    {
      this.files := files;
      retry := new RetryConfig(3, 2.0, 30.0, 2.0, None);
    }

    /** `SLACKPump(config)`: `None` where `__init__` raises `ValueError` because
        a required configuration key is missing. */
    static method Create(config: set<string>, files: map<string, Content>) returns (p: Option<SlackPump>)
      ensures p.None? <==> !HasRequiredKeys(config)
      ensures p.Some? ==> fresh(p.value) && fresh(p.value.retry) && p.value.files == files && p.value.Valid()
    {
      if !HasRequiredKeys(config) {
        return None;
      }
      var pump := new SlackPump(files);
      p := Some(pump);
    }

    /** `_add_to_alpha_output`; `false` when it raises. */
    method AddToAlphaOutput(newTweets: seq<Record>) returns (ok: bool)
      modifies this
      ensures ok == AddSpec(old(files), newTweets).Some?
      ensures files == if ok then AddSpec(old(files), newTweets).value else old(files)
    {
      if newTweets == [] {
        return true;
      }
      var existing := ExistingOutput(files);
      var ts := CategoryTweets(existing);
      if ts.None? {
        return false;
      }
      files := files[OUTPUT_FILE := Parsed(JObj(WithCategoryTweets(existing.json.entries, ts.value + AsJson(newTweets))))];
      ok := true;
    }

    /** One message event: the replies posted, in order. */
    method HandleMessage(message: Record, keywords: seq<string>, runs: seq<ApifyRun>,
                         answers: seq<Option<Json>>, now: int) returns (replies: seq<Reply>)
      requires Valid()
      modifies this, retry
      ensures Handled(replies, files) == HandleSpec(old(files), message, keywords, runs, answers)
    {
      var gate := GateMessage(message, keywords);
      if gate.TextError? {
        return [MessageFailed];
      }
      if gate.Ignored? {
        return [];
      }
      replies := [Found(|gate.urls|)];
      var scraped, _ := ScrapeTweets(retry, gate.urls, runs, now);
      if !scraped.Returned? {
        return replies + [ProcessingFailed];
      }
      if scraped.value == [] {
        return replies + [NothingRetrieved];
      }
      var out := PickAll(SummaryPicks(scraped.value, answers));
      if out.None? {
        return replies + [ProcessingFailed];
      }
      var ok := AddToAlphaOutput(out.value);
      if !ok {
        return replies + [ProcessingFailed];
      }
      replies := replies + [Processed(out.value)];
    }
  }
}
