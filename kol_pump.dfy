// kol_pump.py: the Slack listener for key-opinion-leader links. It shares
// the message gate and the Apify scrape with the content pump, copies every
// scraped tweet one to one into the alpha filter's output shape, and appends
// them to the alpha filter's combined output, keeping that file's metadata
// count in step. The clock is read as one instant per message: `today`
// (`%Y%m%d`) and `nowIso` (ISO 8601).

module KolPump {
  import opened Common
  import opened ErrorHandler
  import opened Pump
  import AlphaFilter

  /** The record `_transform_to_alpha_format` builds from one scraped tweet,
      given the texts of its quoted and retweeted tweets. */
  function KolRecord(tweet: Record, quoted: Json, reposted: Json, nowIso: string): Record
  {
    AlphaFilter.Labelled(KolValues(tweet, quoted, reposted, nowIso))
  }

  /** Its values, in the order of the alpha filter's output keys. */
  function KolValues(tweet: Record, quoted: Json, reposted: Json, nowIso: string): (vals: seq<Json>)
    ensures |vals| == |AlphaFilter.OUTPUT_KEYS|
  {
    [Field(tweet, "text"), Field(tweet, "author"), Field(tweet, "url"), Field(tweet, "id"),
     quoted, reposted, JStr(CATEGORY), JStr(nowIso), GetOr(tweet, "created_at", JStr("")), JStr("0")]
  }

  /** One tweet of the transform: `tweet['text']`, `['author']`, `['url']`
      and `['id']` must exist and the nested tweets be dicts; it never
      skips. */
  function KolPick(tweet: Record, nowIso: string): (p: Pick<Record>)
    ensures !p.Skip?
  {
    if !HasKey(tweet, "text") || !HasKey(tweet, "author") || !HasKey(tweet, "url") || !HasKey(tweet, "id") then Raise
    else
      var quoted := NestedText(tweet, "quoted_tweet");
      var reposted := NestedText(tweet, "retweeted_tweet");
      if quoted.None? || reposted.None? then Raise
      else Keep(KolRecord(tweet, quoted.value, reposted.value, nowIso))
  }

  function KolPicks(tweets: seq<Record>, nowIso: string): (ps: seq<Pick<Record>>)
    ensures |ps| == |tweets|
  {
    seq(|tweets|, k requires 0 <= k < |tweets| => KolPick(tweets[k], nowIso))
  }

  /** `self._transform_to_alpha_format(tweets)`; `None` when it raises. */
  function Transform(tweets: seq<Record>, nowIso: string): Option<seq<Record>>
  {
    Picked(KolPicks(tweets, nowIso))
  }

  /** The transform raises exactly when some tweet lacks a field or has a
      nested tweet that is not a dict; otherwise it maps the tweets one to
      one, in order. */
  lemma TransformCharacterised(tweets: seq<Record>, nowIso: string)
    ensures Transform(tweets, nowIso).None? <==> exists k :: 0 <= k < |tweets| && KolPick(tweets[k], nowIso).Raise?
    ensures Transform(tweets, nowIso).Some? ==>
      && |Transform(tweets, nowIso).value| == |tweets|
      && forall k :: 0 <= k < |tweets| ==> Keep(Transform(tweets, nowIso).value[k]) == KolPick(tweets[k], nowIso)
  {
    var ps := KolPicks(tweets, nowIso);
    PickedCharacterised(ps);
    if k :| 0 <= k < |tweets| && KolPick(tweets[k], nowIso).Raise? {
      assert ps[k].Raise?;
    }
    if Transform(tweets, nowIso).Some? {
      forall k | 0 <= k < |ps| ensures ps[k].Keep? {
        assert !ps[k].Raise?;
      }
      PickedAllKept(ps);
    }
  }

  /** A transformed tweet copies the tweet's text, author, link and id,
      carries the pump's category and the `column` "0", and has every field
      the alpha filter asks of its output. */
  lemma KolPickKeeps(tweet: Record, nowIso: string)
    requires KolPick(tweet, nowIso).Keep?
    ensures var r := KolPick(tweet, nowIso).value;
      && HasKey(tweet, "text") && HasKey(tweet, "author") && HasKey(tweet, "url") && HasKey(tweet, "id")
      && Field(r, "tweet") == Field(tweet, "text") && Field(r, "author") == Field(tweet, "author")
      && Field(r, "url") == Field(tweet, "url") && Field(r, "tweet_id") == Field(tweet, "id")
      && Field(r, "category") == JStr(CATEGORY) && Field(r, "column") == JStr("0")
      && Keys(r) == AlphaFilter.OUTPUT_KEYS
      && AllIn(AlphaFilter.OUTPUT_TWEET_FIELDS, JObj(r))
  {
    KolRecordFields(tweet, NestedText(tweet, "quoted_tweet").value, NestedText(tweet, "retweeted_tweet").value, nowIso);
  }

  lemma KolRecordFields(tweet: Record, quoted: Json, reposted: Json, nowIso: string)
    ensures var r := KolRecord(tweet, quoted, reposted, nowIso);
      && Field(r, "tweet") == Field(tweet, "text") && Field(r, "author") == Field(tweet, "author")
      && Field(r, "url") == Field(tweet, "url") && Field(r, "tweet_id") == Field(tweet, "id")
      && Field(r, "category") == JStr(CATEGORY) && Field(r, "column") == JStr("0")
      && Keys(r) == AlphaFilter.OUTPUT_KEYS
      && AllIn(AlphaFilter.OUTPUT_TWEET_FIELDS, JObj(r))
  {
    var vals := KolValues(tweet, quoted, reposted, nowIso);
    LabelledParts(vals);
    assert vals[0] == Field(tweet, "text") && vals[1] == Field(tweet, "author");
    assert vals[2] == Field(tweet, "url") && vals[3] == Field(tweet, "id");
  }

  /** The labelled record's fields, keys and validity, from its values. */
  lemma LabelledParts(vals: seq<Json>)
    requires |vals| == |AlphaFilter.OUTPUT_KEYS|
    ensures var r := AlphaFilter.Labelled(vals);
      && Field(r, "tweet") == vals[0] && Field(r, "author") == vals[1]
      && Field(r, "url") == vals[2] && Field(r, "tweet_id") == vals[3]
      && Field(r, "category") == vals[6] && Field(r, "column") == vals[9]
      && Keys(r) == AlphaFilter.OUTPUT_KEYS
      && AllIn(AlphaFilter.OUTPUT_TWEET_FIELDS, JObj(r))
  {
    AlphaFilter.LabelledCopies(vals);
    AlphaFilter.LabelledField(vals, 9);
    AlphaFilter.LabelledHasOutputFields(vals);
    LabelledKeys(vals);
  }

  lemma LabelledKeys(vals: seq<Json>)
    requires |vals| == |AlphaFilter.OUTPUT_KEYS|
    ensures Keys(AlphaFilter.Labelled(vals)) == AlphaFilter.OUTPUT_KEYS
  {
  }

  // ---------------------------------------------------------------
  // _add_to_alpha_output
  // ---------------------------------------------------------------

  /** What `existing_data` starts as: the stored file, or an empty tweet
      list with fresh metadata when there is none. */
  function ExistingOutput(files: map<string, Content>, today: string, nowIso: string): Content
  {
    if AlphaFilter.OUTPUT_FILE in files then files[AlphaFilter.OUTPUT_FILE]
    else Parsed(JObj([("tweets", JList([])),
                      ("metadata", JObj([("processed_date", JStr(today)), ("total_tweets", JInt(0)),
                                         ("last_update", JStr(nowIso))]))]))
  }

  /** The stored document, when it is a dict whose `tweets` is a list and
      whose `metadata` is a dict: the shape the add needs. */
  predicate Extensible(c: Content)
  {
    && c.Parsed? && c.json.JObj?
    && HasKey(c.json.entries, "tweets") && Field(c.json.entries, "tweets").JList?
    && HasKey(c.json.entries, "metadata") && Field(c.json.entries, "metadata").JObj?
  }

  /** `metadata` after the add: the new count and update time. */
  function UpdatedMetadata(meta: Record, count: nat, nowIso: string): Record
  {
    Set(Set(meta, "total_tweets", JInt(count)), "last_update", JStr(nowIso))
  }

  /** The document after the add. */
  function Extended(doc: Record, newTweets: seq<Record>, nowIso: string): Record
    requires HasKey(doc, "tweets") && Field(doc, "tweets").JList?
    requires HasKey(doc, "metadata") && Field(doc, "metadata").JObj?
  {
    var ts := Field(doc, "tweets").items + AsJson(newTweets);
    Set(Set(doc, "tweets", JList(ts)), "metadata", JObj(UpdatedMetadata(Field(doc, "metadata").entries, |ts|, nowIso)))
  }

  /** `_add_to_alpha_output(new_tweets)`: `None` when it raises, which it
      does whenever the store does not have the needed shape, because its
      handler then reads a temporary path that was never bound. */
  function AddSpec(files: map<string, Content>, newTweets: seq<Record>, today: string, nowIso: string)
    : Option<map<string, Content>>
  {
    if newTweets == [] then Some(files)
    else
      var c := ExistingOutput(files, today, nowIso);
      if !Extensible(c) then None
      else Some(files[AlphaFilter.OUTPUT_FILE := Parsed(JObj(Extended(c.json.entries, newTweets, nowIso)))])
  }

  /** An absent file starts in the needed shape. */
  lemma FreshOutputExtensible(files: map<string, Content>, today: string, nowIso: string)
    requires AlphaFilter.OUTPUT_FILE !in files
    ensures Extensible(ExistingOutput(files, today, nowIso))
  {
    var doc := ExistingOutput(files, today, nowIso).json.entries;
    GetAt(doc, 0);
    GetAt(doc, 1);
  }

  /** After the add the tweet list is the old one followed by the new
      tweets, `metadata.total_tweets` counts that list, `last_update` is the
      time of the add, and the document keeps its shape. */
  lemma ExtendedReads(doc: Record, newTweets: seq<Record>, nowIso: string)
    requires HasKey(doc, "tweets") && Field(doc, "tweets").JList?
    requires HasKey(doc, "metadata") && Field(doc, "metadata").JObj?
    ensures var doc' := Extended(doc, newTweets, nowIso);
      && Keys(doc') == Keys(doc)
      && Field(doc', "tweets") == JList(Field(doc, "tweets").items + AsJson(newTweets))
      && Field(doc', "metadata").JObj?
      && Field(Field(doc', "metadata").entries, "total_tweets") == JInt(|Field(doc, "tweets").items| + |newTweets|)
      && Field(Field(doc', "metadata").entries, "last_update") == JStr(nowIso)
      && Extensible(Parsed(JObj(doc')))
  {
    var ts := Field(doc, "tweets").items + AsJson(newTweets);
    var meta := Field(doc, "metadata").entries;
    SetTwice(doc, "tweets", JList(ts), "metadata", JObj(UpdatedMetadata(meta, |ts|, nowIso)));
    SetTwice(meta, "total_tweets", JInt(|ts|), "last_update", JStr(nowIso));
    var meta' := UpdatedMetadata(meta, |ts|, nowIso);
    assert Field(Extended(doc, newTweets, nowIso), "metadata") == JObj(meta');
    assert Field(meta', "total_tweets") == JInt(|ts|);
    assert |ts| == |Field(doc, "tweets").items| + |newTweets|;
  }

  /** Two updates of distinct keys both read back; when both keys were
      there already, the keys stay as they were. */
  lemma SetTwice<V>(entries: seq<(string, V)>, k1: string, v1: V, k2: string, v2: V)
    requires k1 != k2
    ensures var r := Set(Set(entries, k1, v1), k2, v2);
      && HasKey(r, k1) && Get(r, k1) == Some(v1)
      && HasKey(r, k2) && Get(r, k2) == Some(v2)
      && (HasKey(entries, k1) && HasKey(entries, k2) ==> Keys(r) == Keys(entries))
  {
    var e1 := Set(entries, k1, v1);
    GetSetSame(entries, k1, v1);
    GetSetOther(e1, k2, v2, k1);
    GetSetSame(e1, k2, v2);
    SetHasKey(entries, k1, v1, k1);
    SetHasKey(entries, k1, v1, k2);
    SetHasKey(e1, k2, v2, k1);
    SetHasKey(e1, k2, v2, k2);
  }

  /** Adding nothing changes nothing; otherwise the add fails exactly when
      the store lacks the needed shape (never when there is no file yet),
      and a successful add rewrites only the alpha filter's output, after
      which that file has the needed shape again. */
  lemma AddCharacterised(files: map<string, Content>, newTweets: seq<Record>, today: string, nowIso: string)
    ensures newTweets == [] ==> AddSpec(files, newTweets, today, nowIso) == Some(files)
    ensures newTweets != [] ==>
      (AddSpec(files, newTweets, today, nowIso).None? <==> !Extensible(ExistingOutput(files, today, nowIso)))
    ensures newTweets != [] && AlphaFilter.OUTPUT_FILE !in files ==> AddSpec(files, newTweets, today, nowIso).Some?
    ensures AddSpec(files, newTweets, today, nowIso).Some? ==>
      var files' := AddSpec(files, newTweets, today, nowIso).value;
      && (newTweets != [] ==> AlphaFilter.OUTPUT_FILE in files' && Extensible(files'[AlphaFilter.OUTPUT_FILE]))
      && forall p :: p != AlphaFilter.OUTPUT_FILE ==> (p in files' <==> p in files) && (p in files ==> files'[p] == files[p])
  {
    if newTweets != [] {
      if AlphaFilter.OUTPUT_FILE !in files {
        FreshOutputExtensible(files, today, nowIso);
      }
      var c := ExistingOutput(files, today, nowIso);
      if Extensible(c) {
        ExtendedReads(c.json.entries, newTweets, nowIso);
      }
    }
  }

  // ---------------------------------------------------------------
  // handle_message
  // ---------------------------------------------------------------

  /** `handle_message` together with the outer event handler. */
  function HandleSpec(files: map<string, Content>, message: Record, keywords: seq<string>,
                      runs: seq<ApifyRun>, today: string, nowIso: string): Handled
  {
    match GateMessage(message, keywords)
    case TextError => Handled([MessageFailed], files)
    case Ignored => Handled([], files)
    case Links(urls) =>
      var found := [Found(|urls|)];
      match ScrapeTweetsSpec(urls, runs)
      case Returned(tweets, _) =>
        if tweets == [] then Handled(found + [NothingRetrieved], files)
        else
          (match Transform(tweets, nowIso)
           case None => Handled(found + [ProcessingFailed], files)
           case Some(out) =>
             (match AddSpec(files, out, today, nowIso)
              case None => Handled(found + [ProcessingFailed], files)
              case Some(files') => Handled(found + [Processed(out)], files')))
      case Propagated(_, _, _) => Handled(found + [ProcessingFailed], files)
      case Exhausted(_) => Handled(found + [ProcessingFailed], files)
  }

  /** As for the content pump, a message linking tweets gets "Found n" and
      exactly one more reply, never "no tweets could be retrieved"; here a
      success reports one transformed tweet per scraped tweet, and the
      store changes exactly on success, as `AddSpec` says. */
  lemma HandleOutcome(files: map<string, Content>, message: Record, keywords: seq<string>,
                      runs: seq<ApifyRun>, today: string, nowIso: string)
    ensures var h := HandleSpec(files, message, keywords, runs, today, nowIso);
      match GateMessage(message, keywords)
      case TextError => h == Handled([MessageFailed], files)
      case Ignored => h == Handled([], files)
      case Links(urls) =>
        && |h.replies| == 2 && h.replies[0] == Found(|urls|)
        && !h.replies[1].NothingRetrieved? && !h.replies[1].MessageFailed?
        && (!h.replies[1].Processed? ==> h.files == files)
        && (h.replies[1].Processed? ==>
              && ScrapeTweetsSpec(urls, runs).Returned?
              && |h.replies[1].tweets| == |ScrapeTweetsSpec(urls, runs).value| > 0
              && Transform(ScrapeTweetsSpec(urls, runs).value, nowIso) == Some(h.replies[1].tweets)
              && AddSpec(files, h.replies[1].tweets, today, nowIso) == Some(h.files))
  {
    match GateMessage(message, keywords)
    case TextError =>
    case Ignored =>
    case Links(urls) =>
      ScrapeTweetsOutcome(urls, runs);
      var r := ScrapeTweetsSpec(urls, runs);
      if r.Returned? {
        TransformCharacterised(r.value, nowIso);
      }
  }

  /** The listener: the JSON store it writes to and the retry state of the
      `_scrape_tweets` decorator. */
  class KolPump {
    var files: map<string, Content>
    const retry: RetryConfig

    predicate Valid()
    {
      ScrapeRetry(retry)
    }

    constructor (files: map<string, Content>)
      ensures this.files == files && Valid() && fresh(retry)
    {
      this.files := files;
      retry := new RetryConfig(3, 2.0, 30.0, 2.0, None);
    }

    /** `KOLPump(config)`: `None` where `__init__` raises `ValueError` because
        a required configuration key is missing. */
    static method Create(config: set<string>, files: map<string, Content>) returns (p: Option<KolPump>)
      ensures p.None? <==> !HasRequiredKeys(config)
      ensures p.Some? ==> fresh(p.value) && fresh(p.value.retry) && p.value.files == files && p.value.Valid()
    {
      if !HasRequiredKeys(config) {
        return None;
      }
      var pump := new KolPump(files);
      p := Some(pump);
    }

    /** `_add_to_alpha_output`; `false` when it raises. */
    method AddToAlphaOutput(newTweets: seq<Record>, today: string, nowIso: string) returns (ok: bool)
      modifies this
      ensures ok == AddSpec(old(files), newTweets, today, nowIso).Some?
      ensures files == if ok then AddSpec(old(files), newTweets, today, nowIso).value else old(files)
    {
      if newTweets == [] {
        return true;
      }
      var existing := ExistingOutput(files, today, nowIso);
      if !Extensible(existing) {
        return false;
      }
      var files' := files[AlphaFilter.OUTPUT_FILE := Parsed(JObj(Extended(existing.json.entries, newTweets, nowIso)))];
      assert AddSpec(files, newTweets, today, nowIso) == Some(files');
      files := files';
      ok := true;
    }

    /** `_transform_to_alpha_format`: one record per tweet; `None` when it
        raises. */
    method TransformTweets(tweets: seq<Record>, nowIso: string) returns (out: Option<seq<Record>>)
      ensures out == Transform(tweets, nowIso)
    {
      var kept: seq<Record> := [];
      var ps := KolPicks(tweets, nowIso);
      for j := 0 to |tweets|
        invariant Picked(ps[..j]) == Some(kept)
      {
        PickedSnoc(ps, j, kept);
        var quoted := NestedText(tweets[j], "quoted_tweet");
        var reposted := NestedText(tweets[j], "retweeted_tweet");
        if !HasKey(tweets[j], "text") || !HasKey(tweets[j], "author") || !HasKey(tweets[j], "url")
           || !HasKey(tweets[j], "id") || quoted.None? || reposted.None? {
          assert ps[j].Raise?;
          PickedCharacterised(ps);
          return None;
        }
        kept := kept + [KolRecord(tweets[j], quoted.value, reposted.value, nowIso)];
      }
      assert ps[..|tweets|] == ps;
      out := Some(kept);
    }

    /** One message event: the replies posted, in order. */
    method HandleMessage(message: Record, keywords: seq<string>, runs: seq<ApifyRun>,
                         today: string, nowIso: string, now: int) returns (replies: seq<Reply>)
      requires Valid()
      modifies this, retry
      ensures Handled(replies, files) == HandleSpec(old(files), message, keywords, runs, today, nowIso)
    {
      var gate := GateMessage(message, keywords);
      if gate.TextError? {
        return [MessageFailed];
      }
      if gate.Ignored? {
        return [];
      }
      replies := [Found(|gate.urls|)];
      var scraped, _ := ScrapeTweets(retry, gate.urls, runs, now);
      if !scraped.Returned? {
        return replies + [ProcessingFailed];
      }
      if scraped.value == [] {
        return replies + [NothingRetrieved];
      }
      var out := TransformTweets(scraped.value, nowIso);
      if out.None? {
        return replies + [ProcessingFailed];
      }
      var ok := AddToAlphaOutput(out.value, today, nowIso);
      if !ok {
        return replies + [ProcessingFailed];
      }
      replies := replies + [Processed(out.value)];
    }
  }
}
