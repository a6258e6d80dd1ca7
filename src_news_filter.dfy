// src/processors/news_filter.py: the news filter of the src tree. It reads
// the combined content-filtered file, keeps the tweets carrying attribution,
// content and url, drops repeated URLs, asks the model to drop tweets that
// repeat one another and to keep the newsworthy ones (in chunks of fifteen
// when there are more than fifteen), asks it to sort what is left into
// subcategories, removes the empty subcategories and writes one summary file
// per day. Model answers are input traces (see Oracle and NewsCommon).

module SrcNewsFilter {
  import opened Common
  import opened Oracle
  import opened Breaker
  import opened Dedup
  import opened NewsCommon

  const INPUT_FILE := "data/filtered/content_filtered/combined_filtered.json"
  const OUTPUT_DIR := "data/filtered/news_filtered"
  const WORTHINESS_CHUNK: nat := 15

  // ---------------------------------------------------------------
  // _get_output_file
  // ---------------------------------------------------------------

  /** `<category lower>_summary_<YYYYMMDD>.json` in the output directory,
      for today's UTC date. */
  function OutputFile(category: string, date: string): (p: string)
    ensures EndsWith(p, "_summary_" + date + ".json")
    ensures StartsWith(p, OUTPUT_DIR + "/" + Lower(category))
  {
    var p := OUTPUT_DIR + "/" + Lower(category) + "_summary_" + date + ".json";
    assert p[|p| - |"_summary_" + date + ".json"|..] == "_summary_" + date + ".json";
    assert p[..|OUTPUT_DIR + "/" + Lower(category)|] == OUTPUT_DIR + "/" + Lower(category);
    p
  }

  /** One summary file per category and day: two dates give two files. */
  lemma OutputFilePerDay(category: string, d1: string, d2: string)
    requires |d1| == |d2| && d1 != d2
    ensures OutputFile(category, d1) != OutputFile(category, d2)
  {
    var head := OUTPUT_DIR + "/" + Lower(category) + "_summary_";
    var p1 := OutputFile(category, d1);
    var p2 := OutputFile(category, d2);
    assert p1 == head + d1 + ".json";
    assert p2 == head + d2 + ".json";
    assert p1[|head|..|head| + |d1|] == d1;
    assert p2[|head|..|head| + |d2|] == d2;
  }

  // ---------------------------------------------------------------
  // _content_based_dedup
  // ---------------------------------------------------------------

  /** One request about `tweets`, whose answer's tweet list goes through the
      validation step; the request is skipped for an empty list.
      `_content_based_dedup` is exactly this, and so is
      `_filter_news_worthiness` on at most fifteen tweets. */
  function AskAndScreen(tweets: seq<Json>, w: Session, answers: seq<Attempt>, now: int): (r: (seq<Json>, Session))
    requires WellFormed(w.breaker)
    ensures WellFormed(r.1.breaker)
    ensures tweets == [] ==> r == ([], w)
    ensures tweets != [] ==> r.1.made == w.made + 1
    ensures r.0 == tweets || forall t :: t in r.0 ==> HasFields(TWEET_FIELDS, t) == Some(true)
  {
    if tweets == [] then ([], w)
    else
      var (reply, w1) := Ask(w, answers, now);
      (Screened(TweetsField(Decoded(reply)), tweets), w1)
  }

  function ContentDedup(tweets: seq<Json>, w: Session, answers: seq<Attempt>, now: int): (r: (seq<Json>, Session))
    requires WellFormed(w.breaker)
  {
    AskAndScreen(tweets, w, answers, now)
  }

  /** With no usable answer (no reply, an empty one, one that does not
      decode, or no `tweets` list in it) the tweets come back unchanged. */
  lemma ContentDedupFallsBack(tweets: seq<Json>, w: Session, answers: seq<Attempt>, now: int)
    requires WellFormed(w.breaker) && tweets != []
    requires TweetsField(Decoded(Ask(w, answers, now).0)).None?
    ensures ContentDedup(tweets, w, answers, now).0 == tweets
  {
  }

  /** With an answer listing tweets that can all be tested, the result is
      exactly the answer's complete tweets: whatever the model dropped stays
      dropped and nothing else is added. */
  lemma ContentDedupTakesAnswer(tweets: seq<Json>, w: Session, answers: seq<Attempt>, now: int, listed: seq<Json>)
    requires WellFormed(w.breaker) && tweets != []
    requires TweetsField(Decoded(Ask(w, answers, now).0)) == Some(JList(listed))
    requires forall i :: 0 <= i < |listed| ==> HasFields(TWEET_FIELDS, listed[i]).Some?
    ensures forall t :: t in ContentDedup(tweets, w, answers, now).0
                    <==> t in listed && HasFields(TWEET_FIELDS, t) == Some(true)
  {
    KeepValidRaises(listed, TWEET_FIELDS, false);
    KeepValidMembers(listed, TWEET_FIELDS, false);
  }

  /** The validation step with its loop. */
  method Screen(listed: Option<Json>, fallback: seq<Json>) returns (r: seq<Json>)
    ensures r == Screened(listed, fallback)
  {
    if listed.None? {
      return fallback;
    }
    var es := Elements(listed.value);
    if es.None? {
      return fallback;
    }
    var kept := KeepValidLoop(es.value, TWEET_FIELDS, false);
    if kept.None? {
      return fallback;
    }
    return kept.value;
  }

  // ---------------------------------------------------------------
  // _filter_news_worthiness
  // ---------------------------------------------------------------

  /** What one chunk adds to `filtered_chunks`: the answer's tweet list, or
      the chunk itself when there is no answer, it does not decode, it has
      no `tweets` list, or that value cannot be iterated. */
  function ChunkResult(chunk: seq<Json>, reply: Option<Reply>): (r: seq<Json>)
    ensures TweetsField(Decoded(reply)).None? ==> r == chunk
    ensures TweetsField(Decoded(reply)).Some? && TweetsField(Decoded(reply)).value.JList?
            ==> r == TweetsField(Decoded(reply)).value.items
  {
    var listed := TweetsField(Decoded(reply));
    if listed.Some? && Elements(listed.value).Some? then Elements(listed.value).value else chunk
  }

  function ChunkEnd(n: nat, i: nat): (e: nat)
    requires i <= n
    ensures i <= e <= n && e - i <= WORTHINESS_CHUNK
  {
    if i + WORTHINESS_CHUNK <= n then i + WORTHINESS_CHUNK else n
  }

  /** The chunk loop from position `i` on: one request per chunk of fifteen. */
  function ChunksFrom(tweets: seq<Json>, i: nat, w: Session, answers: seq<Attempt>, now: int): (r: (seq<Json>, Session))
    requires WellFormed(w.breaker)
    ensures WellFormed(r.1.breaker)
    decreases |tweets| - i
  {
    if i >= |tweets| then ([], w)
    else
      var (reply, w1) := Ask(w, answers, now);
      var rest := ChunksFrom(tweets, i + WORTHINESS_CHUNK, w1, answers, now);
      (ChunkResult(tweets[i..ChunkEnd(|tweets|, i)], reply) + rest.0, rest.1)
  }

  /** One chunk of the loop: its request, what it adds, and the rest. */
  lemma ChunksFromStep(tweets: seq<Json>, i: nat, w: Session, answers: seq<Attempt>, now: int)
    requires WellFormed(w.breaker) && i < |tweets|
    ensures var (reply, w1) := Ask(w, answers, now);
      var rest := ChunksFrom(tweets, i + WORTHINESS_CHUNK, w1, answers, now);
      ChunksFrom(tweets, i, w, answers, now) == (ChunkResult(tweets[i..ChunkEnd(|tweets|, i)], reply) + rest.0, rest.1)
  {
  }

  /** `_filter_news_worthiness`: one request for at most fifteen tweets;
      otherwise one per chunk of fifteen, then a final request over the
      collected tweets only when more than fifteen came back. */
  function Worthiness(tweets: seq<Json>, w: Session, answers: seq<Attempt>, now: int): (r: (seq<Json>, Session))
    requires WellFormed(w.breaker)
    ensures WellFormed(r.1.breaker)
    ensures r.0 == tweets || forall t :: t in r.0 ==> HasFields(TWEET_FIELDS, t) == Some(true)
  {
    if |tweets| <= WORTHINESS_CHUNK then AskAndScreen(tweets, w, answers, now)
    else
      var (chunked, w1) := ChunksFrom(tweets, 0, w, answers, now);
      if |chunked| <= WORTHINESS_CHUNK then (Screened(Some(JList(chunked)), tweets), w1)
      else
        var (reply, w2) := Ask(w1, answers, now);
        var listed := TweetsField(Decoded(reply));
        (Screened(if listed.Some? then listed else Some(JList(chunked)), tweets), w2)
  }

  /** The chunk loop makes one request per chunk: the number of chunks of
      fifteen that cover the rest of the list. */
  lemma {:induction false} ChunksFromRequests(tweets: seq<Json>, i: nat, w: Session, answers: seq<Attempt>, now: int)
    requires WellFormed(w.breaker) && i <= |tweets|
    ensures ChunksFrom(tweets, i, w, answers, now).1.made == w.made + CeilDiv(|tweets| - i, WORTHINESS_CHUNK)
    decreases |tweets| - i
  {
    if i < |tweets| {
      var w1 := Ask(w, answers, now).1;
      if i + WORTHINESS_CHUNK <= |tweets| {
        ChunksFromRequests(tweets, i + WORTHINESS_CHUNK, w1, answers, now);
        assert CeilDiv(|tweets| - i, WORTHINESS_CHUNK) == CeilDiv(|tweets| - (i + WORTHINESS_CHUNK), WORTHINESS_CHUNK) + 1;
      } else {
        assert CeilDiv(|tweets| - i, WORTHINESS_CHUNK) == 1;
      }
    }
  }

  /** How many requests the news-worthiness stage makes: none for no
      tweets, one for at most fifteen, and otherwise one per chunk plus a
      final one exactly when the chunks returned more than fifteen tweets. */
  lemma WorthinessRequests(tweets: seq<Json>, w: Session, answers: seq<Attempt>, now: int)
    requires WellFormed(w.breaker)
    ensures tweets == [] ==> Worthiness(tweets, w, answers, now).1 == w
    ensures 0 < |tweets| <= WORTHINESS_CHUNK ==> Worthiness(tweets, w, answers, now).1.made == w.made + 1
    ensures |tweets| > WORTHINESS_CHUNK ==>
      var chunked := ChunksFrom(tweets, 0, w, answers, now).0;
      Worthiness(tweets, w, answers, now).1.made
        == w.made + CeilDiv(|tweets|, WORTHINESS_CHUNK) + (if |chunked| > WORTHINESS_CHUNK then 1 else 0)
  {
    ChunksFromRequests(tweets, 0, w, answers, now);
  }

  /** When neither model answers anything, every chunk keeps its own
      tweets: the loop gives back the rest of the list. */
  lemma {:induction false} ChunksWithoutAnswers(tweets: seq<Json>, i: nat, w: Session, now: int)
    requires WellFormed(w.breaker) && i <= |tweets|
    ensures ChunksFrom(tweets, i, w, [], now).0 == tweets[i..]
    decreases |tweets| - i
  {
    if i < |tweets| {
      var w1 := Ask(w, [], now).1;
      assert Ask(w, [], now).0.None?;
      var e := ChunkEnd(|tweets|, i);
      ChunksWithoutAnswers(tweets, e, w1, now);
      if e < |tweets| {
        assert ChunksFrom(tweets, i + WORTHINESS_CHUNK, w1, [], now).0 == tweets[e..];
      }
      assert tweets[i..e] + tweets[e..] == tweets[i..];
    }
  }

  /** When neither model answers anything, complete tweets all come through
      the news-worthiness stage, in order. */
  lemma WorthinessWithoutAnswers(tweets: seq<Json>, w: Session, now: int)
    requires WellFormed(w.breaker)
    requires forall i :: 0 <= i < |tweets| ==> HasFields(TWEET_FIELDS, tweets[i]) == Some(true)
    ensures Worthiness(tweets, w, [], now).0 == tweets
  {
    if |tweets| <= WORTHINESS_CHUNK {
      if tweets != [] {
        assert Ask(w, [], now).0.None?;
      }
    } else {
      ChunksWithoutAnswers(tweets, 0, w, now);
      assert tweets[0..] == tweets;
      var w1 := ChunksFrom(tweets, 0, w, [], now).1;
      assert Ask(w1, [], now).0.None?;
      ScreenedCompleteList(tweets, tweets);
    }
  }

  /** Keeping Slack-shared tweets is asked of the model only in the prompt:
      a complete tweet, even one with an x.com URL, is dropped when the model
      answers with an empty list. */
  lemma WorthinessMayDropAnyTweet(t: Json, now: int)
    requires HasFields(TWEET_FIELDS, t) == Some(true)
    ensures var empty := JObj([("tweets", JList([]))]);
      var answers := [Attempt(Some(Reply("{\"tweets\": []}", Some(empty))), None)];
      Worthiness([t], Session(Closed, 0), answers, now).0 == []
  {
    var empty := JObj([("tweets", JList([]))]);
    assert Get(empty.entries, "tweets") == Some(JList([]));
  }

  // ---------------------------------------------------------------
  // Subcategories
  // ---------------------------------------------------------------

  predicate NonEmptyList(j: Json)
  {
    j.JList? && |j.items| > 0
  }

  /** The subcategories the cleaning loop keeps, in order. */
  function NonEmptyLists(entries: seq<(string, Json)>): (r: seq<(string, Json)>)
    ensures |r| <= |entries|
  {
    if entries == [] then []
    else
      var last := entries[|entries| - 1];
      NonEmptyLists(entries[..|entries| - 1]) + (if NonEmptyList(last.1) then [last] else [])
  }

  /** A subcategory survives cleaning exactly when its value is a non-empty
      list; nothing is renamed or changed. */
  lemma {:induction false} NonEmptyListsCharacterised(entries: seq<(string, Json)>)
    ensures forall e :: e in NonEmptyLists(entries) <==> e in entries && NonEmptyList(e.1)
    ensures NonEmptyLists(entries) == [] <==> forall e :: e in entries ==> !NonEmptyList(e.1)
  {
    if NonEmptyLists(entries) != [] {
      assert NonEmptyLists(entries)[0] in NonEmptyLists(entries);
    }
    if entries != [] {
      NonEmptyListsCharacterised(entries[..|entries| - 1]);
      assert entries == entries[..|entries| - 1] + [entries[|entries| - 1]];
    }
  }

  /** `for subcat, tweets in subcategories.items(): if list and non-empty:
      non_empty[subcat] = tweets` (the keys of a decoded dict are distinct,
      so each assignment adds an entry at the end). */
  method CleanSubcategories(entries: seq<(string, Json)>) returns (kept: seq<(string, Json)>)
    ensures kept == NonEmptyLists(entries)
  {
    kept := [];
    var i := 0;
    while i < |entries|
      invariant 0 <= i <= |entries|
      invariant kept == NonEmptyLists(entries[..i])
    {
      assert entries[..i + 1][..i] == entries[..i];
      if NonEmptyList(entries[i].1) {
        kept := kept + [entries[i]];
      }
      i := i + 1;
    }
    assert entries[..i] == entries;
  }

  /** The document `process_content` writes for the categorising answer:
      the answer with its category's value replaced by the non-empty
      subcategories; `None` when the answer is rejected. */
  function Categorised(reply: Option<Reply>, category: string): (r: Option<Json>)
    ensures r.Some? ==> r.value.JObj? && Decoded(reply).Some? && Decoded(reply).value.JObj?
  {
    var d := Decoded(reply);
    if d.None? || !d.value.JObj? then None
    else
      match Get(d.value.entries, category)
      case None => None
      case Some(subs) =>
        if !subs.JObj? || subs.entries == [] then None
        else
          var kept := NonEmptyLists(subs.entries);
          if kept == [] then None
          else Some(JObj(Set(d.value.entries, category, JObj(kept))))
  }

  /** An accepted answer is written with its category holding only the
      subcategories whose value is a non-empty list, at least one of them;
      an answer with none is rejected. */
  lemma CategorisedShape(reply: Option<Reply>, category: string)
    ensures var r := Categorised(reply, category);
      r.Some? ==>
        exists kept :: Get(r.value.entries, category) == Some(JObj(kept)) && kept != []
                    && forall e :: e in kept ==> NonEmptyList(e.1)
    ensures var d := Decoded(reply);
      (d.Some? && d.value.JObj? && Get(d.value.entries, category).Some?
       && Get(d.value.entries, category).value.JObj?
       && forall e :: e in Get(d.value.entries, category).value.entries ==> !NonEmptyList(e.1))
      ==> Categorised(reply, category).None?
  {
    var d := Decoded(reply);
    if d.Some? && d.value.JObj? && Get(d.value.entries, category).Some? {
      var subs := Get(d.value.entries, category).value;
      if subs.JObj? {
        var kept := NonEmptyLists(subs.entries);
        NonEmptyListsCharacterised(subs.entries);
        GetSetSame(d.value.entries, category, JObj(kept));
      }
    }
  }

  // ---------------------------------------------------------------
  // _validate_summary_file
  // ---------------------------------------------------------------

  /** What `_validate_summary_file` accepts: an existing file that decodes
      to a dict whose category value is a dict of lists of tweets, each
      carrying attribution, content and url. */
  predicate SummaryValid(c: Option<Content>, category: string)
  {
    && c.Some? && c.value.Parsed? && c.value.json.JObj?
    && Get(c.value.json.entries, category).Some?
    && Get(c.value.json.entries, category).value.JObj?
    && ListsOfTweets(Get(c.value.json.entries, category).value.entries, TWEET_FIELDS)
  }

  /** `process_content` does not check the tweets of the answer it writes,
      so it can write a summary its own validator rejects. */
  lemma WrittenSummaryMayFailValidation(category: string)
    ensures var doc := JObj([(category, JObj([("News", JList([JInt(1)]))]))]);
      var reply := Some(Reply("{}", Some(doc)));
      Categorised(reply, category).Some?
      && !SummaryValid(Some(Parsed(Categorised(reply, category).value)), category)
  {
    var subs := JObj([("News", JList([JInt(1)]))]);
    var doc := JObj([(category, subs)]);
    assert Get(doc.entries, category) == Some(subs);
    assert NonEmptyLists(subs.entries) == subs.entries by {
      assert subs.entries[..0] == [];
    }
    assert Decoded(Some(Reply("{}", Some(doc)))) == Some(doc);
    assert Set(doc.entries, category, JObj(subs.entries)) == [(category, subs)];
    var written := Categorised(Some(Reply("{}", Some(doc))), category).value;
    assert written == JObj([(category, subs)]);
    assert Get(written.entries, category) == Some(subs);
    assert HasFields(TWEET_FIELDS, [JInt(1)][0]).None?;
    assert !TweetsComplete([JInt(1)], TWEET_FIELDS);
    assert !ListsOfTweets(subs.entries, TWEET_FIELDS);
  }

  // ---------------------------------------------------------------
  // process_content
  // ---------------------------------------------------------------

  /** `data.get(CATEGORY, {}).get('tweets', [])`; `None` when a `.get` is
      called on something that is not a dict. */
  function InputTweets(data: Json, category: string): (r: Option<Json>)
    ensures r.Some? ==> data.JObj?
    ensures data.JObj? && !HasKey(data.entries, category) ==> r == Some(JList([]))
  {
    if !data.JObj? then None
    else
      var c := GetOr(data.entries, category, JObj([]));
      if !c.JObj? then None else Some(GetOr(c.entries, "tweets", JList([])))
  }

  /** The dicts of a list; `None` when one is not a dict and `tweet.get`
      raises. */
  function AsRecords(xs: seq<Json>): (r: Option<seq<Record>>)
    ensures r.Some? <==> forall i :: 0 <= i < |xs| ==> xs[i].JObj?
    ensures r.Some? ==> |r.value| == |xs| && forall i :: 0 <= i < |xs| ==> xs[i] == JObj(r.value[i])
  {
    if xs == [] then Some([])
    else
      var p := AsRecords(xs[..|xs| - 1]);
      var x := xs[|xs| - 1];
      if p.None? || !x.JObj? then
        assert forall i :: 0 <= i < |xs| - 1 ==> xs[..|xs| - 1][i] == xs[i];
        None
      else Some(p.value + [x.entries])
  }

  /** What `process_content` goes on with after reading its input: the
      field-valid tweets as dicts, or `None` when it returns `False` before
      any request (no file, a corrupt file, no tweets, no valid tweet, or a
      value on which the reads raise). */
  function ReadInput(files: map<string, Content>, category: string): (r: Option<seq<Record>>)
    ensures r.Some? ==> r.value != []
    ensures r.Some? ==> forall i :: 0 <= i < |r.value| ==> HasFields(TWEET_FIELDS, JObj(r.value[i])) == Some(true)
  {
    var c := FileAt(files, INPUT_FILE);
    if c.None? || c.value.Corrupt? then None
    else
      var t := InputTweets(c.value.json, category);
      if t.None? || !Truthy(t.value) then None
      else
        var xs := Elements(t.value);
        if xs.None? then None
        else
          var valid := KeepValid(xs.value, TWEET_FIELDS, true);
          if valid.None? || valid.value == [] then None
          else
            var recs := AsRecords(valid.value);
            if recs.None? then None
            else
              KeepValidMembers(xs.value, TWEET_FIELDS, true);
              assert forall i :: 0 <= i < |recs.value| ==> JObj(recs.value[i]) in valid.value;
              recs
  }

  /** The URL pass: the first tweet of each truthy URL, in input order. */
  function UrlPass(recs: seq<Record>): seq<Record>
  {
    KeepFirst(recs, "url", true, {})
  }

  /** The URL pass keeps only tweets with a truthy URL, no two with the
      same URL, each of them an input tweet, and every truthy URL of the
      input survives. */
  lemma UrlPassCharacterised(recs: seq<Record>)
    ensures var r := UrlPass(recs);
      && KeysDistinct(r, "url")
      && (forall i :: 0 <= i < |r| ==> r[i] in recs && Truthy(Field(r[i], "url")))
      && (forall j :: 0 <= j < |recs| && Truthy(Field(recs[j], "url")) ==>
            exists i :: 0 <= i < |r| && Field(r[i], "url") == Field(recs[j], "url"))
  {
    KeepFirstDistinct(recs, "url", true, {});
    KeepFirstSound(recs, "url", true, {});
    forall j | 0 <= j < |recs| && Truthy(Field(recs[j], "url"))
      ensures exists i :: 0 <= i < |UrlPass(recs)| && Field(UrlPass(recs)[i], "url") == Field(recs[j], "url")
    {
      assert KeyOf(recs[j], "url") == Field(recs[j], "url");
      assert Admissible(KeyOf(recs[j], "url"), true);
      KeepFirstComplete(recs, "url", true, {}, j);
      var r := KeepFirst(recs, "url", true, {});
      var i :| 0 <= i < |r| && KeyOf(r[i], "url") == KeyOf(recs[j], "url");
      assert Field(UrlPass(recs)[i], "url") == Field(recs[j], "url");
    }
  }

  /** The three model stages and the categorising request. */
  function Stages(recs: seq<Record>, w: Session, category: string, answers: seq<Attempt>, now: int): (r: (Option<Json>, Session))
    requires WellFormed(w.breaker)
    ensures WellFormed(r.1.breaker)
  {
    var (deduped, w1) := ContentDedup(AsJson(UrlPass(recs)), w, answers, now);
    var (worthy, w2) := Worthiness(deduped, w1, answers, now);
    var (reply, w3) := Ask(w2, answers, now);
    (Categorised(reply, category), w3)
  }

  /** How a run ends: its result, the store and the request side. */
  datatype Run = Run(ok: bool, files: map<string, Content>, session: Session)

  /** `process_content`. */
  function ProcessContentSpec(files: map<string, Content>, w: Session, category: string, today: string,
                              answers: seq<Attempt>, now: int): (r: Run)
    requires WellFormed(w.breaker)
    ensures WellFormed(r.session.breaker)
  {
    match ReadInput(files, category)
    case None => Run(false, files, w)
    case Some(recs) =>
      var (doc, w1) := Stages(recs, w, category, answers, now);
      if doc.None? then Run(false, files, w1)
      else Run(true, files[OutputFile(category, today) := Parsed(doc.value)], w1)
  }

  /** A run that returns `False` writes nothing; one that returns `True`
      writes exactly today's summary file, whose category holds non-empty
      lists only. Without usable input no request is made. */
  lemma ProcessContentWrites(files: map<string, Content>, w: Session, category: string, today: string,
                             answers: seq<Attempt>, now: int)
    requires WellFormed(w.breaker)
    ensures var r := ProcessContentSpec(files, w, category, today, answers, now);
      && (!r.ok ==> r.files == files)
      && (r.ok ==> exists doc: Json ::
            && r.files == files[OutputFile(category, today) := Parsed(doc)]
            && doc.JObj?
            && exists kept :: Get(doc.entries, category) == Some(JObj(kept)) && kept != []
                              && forall e :: e in kept ==> NonEmptyList(e.1))
      && (ReadInput(files, category).None? ==> !r.ok && r.session == w)
  {
    var r := ProcessContentSpec(files, w, category, today, answers, now);
    if r.ok {
      var recs := ReadInput(files, category).value;
      var (deduped, w1) := ContentDedup(AsJson(UrlPass(recs)), w, answers, now);
      var (worthy, w2) := Worthiness(deduped, w1, answers, now);
      var (reply, w3) := Ask(w2, answers, now);
      CategorisedShape(reply, category);
    }
  }

  // ---------------------------------------------------------------
  // The filter object
  // ---------------------------------------------------------------

  /** The stage object: the JSON store it reads and writes, and its breaker. */
  class NewsFilter {
    var files: map<string, Content>
    const breaker: CircuitBreaker

    ghost predicate Valid()
      reads this, breaker
    {
      breaker.Valid()
    }

    constructor (files: map<string, Content>)
      ensures Valid() && this.files == files && breaker.State() == Closed
    {
      this.files := files;
      breaker := new CircuitBreaker();
    }

    /** The request numbered `made` of the run. */
    method Request(answers: seq<Attempt>, made: nat, now: int) returns (reply: Option<Reply>)
      requires Valid()
      modifies breaker
      ensures Valid()
      ensures (reply, Session(breaker.State(), made + 1)) == Ask(Session(old(breaker.State()), made), answers, now)
    {
      reply := GuardedRequest(breaker, AttemptAt(answers, made), now);
    }

    /** `_content_based_dedup`, and `_filter_news_worthiness` on at most
        fifteen tweets. */
    method AskAndScreenTweets(tweets: seq<Json>, answers: seq<Attempt>, made: nat, now: int)
      returns (r: seq<Json>, made': nat)
      requires Valid()
      modifies breaker
      ensures Valid()
      ensures (r, Session(breaker.State(), made')) == AskAndScreen(tweets, Session(old(breaker.State()), made), answers, now)
    {
      if tweets == [] {
        return [], made;
      }
      var reply := Request(answers, made, now);
      r := Screen(TweetsField(Decoded(reply)), tweets);
      made' := made + 1;
    }

    /** The chunk loop of `_filter_news_worthiness`. */
    method WorthinessChunks(tweets: seq<Json>, answers: seq<Attempt>, made: nat, now: int)
      returns (chunked: seq<Json>, made': nat)
      requires Valid()
      modifies breaker
      ensures Valid()
      ensures (chunked, Session(breaker.State(), made')) == ChunksFrom(tweets, 0, Session(old(breaker.State()), made), answers, now)
    {
      ghost var whole := ChunksFrom(tweets, 0, Session(breaker.State(), made), answers, now);
      chunked := [];
      made' := made;
      var i := 0;
      while i < |tweets|
        invariant Valid()
        invariant whole.1 == ChunksFrom(tweets, i, Session(breaker.State(), made'), answers, now).1
        invariant whole.0 == chunked + ChunksFrom(tweets, i, Session(breaker.State(), made'), answers, now).0
        decreases |tweets| - i
      {
        ChunksFromStep(tweets, i, Session(breaker.State(), made'), answers, now);
        var chunk := tweets[i..ChunkEnd(|tweets|, i)];
        var reply := Request(answers, made', now);
        made' := made' + 1;
        var part := ChunkResult(chunk, reply);
        ConcatAssoc(chunked, part, ChunksFrom(tweets, i + WORTHINESS_CHUNK, Session(breaker.State(), made'), answers, now).0);
        chunked := chunked + part;
        i := i + WORTHINESS_CHUNK;
      }
      assert ChunksFrom(tweets, i, Session(breaker.State(), made'), answers, now) == ([], Session(breaker.State(), made'));
      assert chunked + [] == chunked;
    }

    /** `_filter_news_worthiness`. */
    method FilterNewsWorthiness(tweets: seq<Json>, answers: seq<Attempt>, made: nat, now: int)
      returns (r: seq<Json>, made': nat)
      requires Valid()
      modifies breaker
      ensures Valid()
      ensures (r, Session(breaker.State(), made')) == Worthiness(tweets, Session(old(breaker.State()), made), answers, now)
    {
      if |tweets| <= WORTHINESS_CHUNK {
        r, made' := AskAndScreenTweets(tweets, answers, made, now);
        return;
      }
      var chunked;
      chunked, made' := WorthinessChunks(tweets, answers, made, now);
      var filtered := JList(chunked);
      if |chunked| > WORTHINESS_CHUNK {
        var reply := Request(answers, made', now);
        made' := made' + 1;
        var listed := TweetsField(Decoded(reply));
        if listed.Some? {
          filtered := listed.value;
        }
      }
      r := Screen(Some(filtered), tweets);
    }

    /** Reading and field-checking the input of `process_content`. */
    method LoadInput(category: string) returns (recs: Option<seq<Record>>)
      ensures recs == ReadInput(files, category)
    {
      var c := FileAt(files, INPUT_FILE);
      if c.None? || c.value.Corrupt? {
        return None;
      }
      var t := InputTweets(c.value.json, category);
      if t.None? || !Truthy(t.value) {
        return None;
      }
      var xs := Elements(t.value);
      if xs.None? {
        return None;
      }
      var valid := KeepValidLoop(xs.value, TWEET_FIELDS, true);
      if valid.None? || valid.value == [] {
        return None;
      }
      recs := AsRecords(valid.value);
    }

    /** `process_content`: the run's requests are answered by `answers`, in
        order; `today` is the UTC date `YYYYMMDD`. */
    method ProcessContent(category: string, today: string, answers: seq<Attempt>, now: int) returns (ok: bool)
      requires Valid()
      modifies this, breaker
      ensures Valid()
      ensures var run := ProcessContentSpec(old(files), Session(old(breaker.State()), 0), category, today, answers, now);
        ok == run.ok && files == run.files && breaker.State() == run.session.breaker
    {
      var recs := LoadInput(category);
      if recs.None? {
        return false;
      }
      var unique, _ := KeepFirstLoop(recs.value, "url", true, {});
      var deduped, made := AskAndScreenTweets(AsJson(unique), answers, 0, now);
      var worthy;
      worthy, made := FilterNewsWorthiness(deduped, answers, made, now);
      var reply := Request(answers, made, now);
      var doc := Categorised(reply, category);
      if doc.None? {
        return false;
      }
      files := files[OutputFile(category, today) := Parsed(doc.value)];
      return true;
    }

    /** `process_all`. */
    method ProcessAll(category: string, today: string, answers: seq<Attempt>, now: int) returns (ok: bool)
      requires Valid()
      modifies this, breaker
      ensures Valid()
      ensures var run := ProcessContentSpec(old(files), Session(old(breaker.State()), 0), category, today, answers, now);
        ok == run.ok && files == run.files && breaker.State() == run.session.breaker
    {
      ok := ProcessContent(category, today, answers, now);
    }

    /** `_validate_summary_file`. */
    method ValidateSummaryFile(path: string, category: string) returns (ok: bool)
      ensures ok == SummaryValid(FileAt(files, path), category)
    {
      var c := FileAt(files, path);
      if c.None? || c.value.Corrupt? || !c.value.json.JObj? {
        return false;
      }
      var data := Get(c.value.json.entries, category);
      if data.None? || !data.value.JObj? {
        return false;
      }
      ok := CheckSubcategories(data.value.entries, TWEET_FIELDS);
    }
  }
}
