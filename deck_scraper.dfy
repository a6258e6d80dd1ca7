// src/core/deck_scraper.py: reading tweets out of the TweetDeck columns.
// The browser page is a value: each rendered column is whether its timeline
// showed up and the tweet articles it holds, and each article is what the
// selectors and page scripts read from it (the social-context line, the
// tweet texts, the author handles, the first status link). The scraper
// object keeps the identified columns, the latest tweet id seen per column
// and the files it writes.

module DeckScraper {
  import opened Common

  const STATUS_SEP: string := "/status/"
  const STATUS_URL: string := "https://twitter.com/i/status/"
  /** The tweet url the scraper rebuilds from a status id. */
  function StatusUrl(id: string): string
  {
    STATUS_URL + id
  }

  const LATEST_TWEETS_FILE: string := "data/latest_tweets.json"
  const RAW_DIR: string := "data/raw"

  /** One tweet article as the page shows it. */
  datatype TweetElement = TweetElement(
    social: Option<string>,   // the `socialContext` text, if any
    texts: seq<string>,       // the `tweetText` elements' inner texts
    users: seq<string>,       // the handle each `User-Name` element yields
    href: Option<string>)     // the first `/status/` link's href, if any

  /** One rendered column: whether its timeline cell appeared, and its
      tweet articles. */
  datatype RenderedColumn = RenderedColumn(timeline: bool, tweets: seq<TweetElement>)

  /** `self.columns[column_id]`. */
  datatype ColumnInfo = ColumnInfo(title: string, file: string)

  /** `today_dir / f"column_{column_id}.json"`. */
  function ColumnFile(today: string, id: string): string
  {
    RAW_DIR + "/" + today + "/column_" + id + ".json"
  }

  // ---------------------------------------------------------------
  // get_tweet_data
  // ---------------------------------------------------------------

  /** The social-context line is non-empty and mentions "reposted". */
  predicate IsRepost(el: TweetElement)
  {
    el.social.Some? && el.social.value != "" && Contains(Lower(el.social.value), "reposted")
  }

  /** `social_context.split(' reposted')[0].strip()` for a repost. */
  function OriginalAuthor(el: TweetElement): string
  {
    if !IsRepost(el) then ""
    else match Partition(el.social.value, " reposted")
      case None => Strip(el.social.value)
      case Some((before, _)) => Strip(before)
  }

  predicate IsQuoteRetweet(el: TweetElement)
  {
    !IsRepost(el) && |el.texts| == 2 && |el.users| == 2
  }

  const TWEET_DATA_KEYS: seq<string> :=
    ["id", "text", "authorHandle", "url", "isRepost", "isQuoteRetweet", "originalAuthor",
     "quotedContent", "repostedContent"]

  function Embedded(text: string, handle: string): Json
  {
    JObj([("text", JStr(text)), ("authorHandle", JStr(handle))])
  }

  /** The values of `tweet_data`, in key order: the id and the url built
      from it, the flags, and the embedded contents, each present exactly
      when its flag is set. */
  function TweetValues(el: TweetElement, id: string, repost: bool, quote: bool): (vals: seq<Json>)
    requires repost ==> el.users != []
    requires quote ==> |el.texts| == 2 && |el.users| == 2
    ensures |vals| == |TWEET_DATA_KEYS|
    ensures vals[0] == JStr(id) && vals[3] == JStr(StatusUrl(id))
    ensures vals[5] == JBool(quote)
    ensures (vals[7] != JNull <==> quote) && (vals[8] != JNull <==> repost)
  {
    var text := if el.texts != [] then el.texts[0] else "";
    [JStr(id), JStr(text), JStr(if el.users != [] then el.users[0] else ""), JStr(StatusUrl(id))] + Flags(el, text, repost, quote)
  }

  /** The flag and content values of `tweet_data`: each content is filled
      in exactly when its flag is set. */
  function Flags(el: TweetElement, text: string, repost: bool, quote: bool): (vals: seq<Json>)
    requires repost ==> el.users != []
    requires quote ==> |el.texts| == 2 && |el.users| == 2
    ensures |vals| == 5 && vals[0] == JBool(repost) && vals[1] == JBool(quote)
    ensures (vals[3] != JNull <==> quote) && (vals[4] != JNull <==> repost)
  {
    [JBool(repost), JBool(quote), JStr(OriginalAuthor(el)), QuotedContent(el, quote), RepostedContent(el, text, repost)]
  }

  function QuotedContent(el: TweetElement, quote: bool): (j: Json)
    requires quote ==> |el.texts| == 2 && |el.users| == 2
    ensures j != JNull <==> quote
  {
    if quote then Embedded(el.texts[1], el.users[1]) else JNull
  }

  function RepostedContent(el: TweetElement, text: string, repost: bool): (j: Json)
    requires repost ==> el.users != []
    ensures j != JNull <==> repost
  {
    if repost then Embedded(text, el.users[0]) else JNull
  }

  /** `get_tweet_data`: `None` when the article has no status link, or
      when it is a repost without an author element (`user_elements[0]`
      raises and the handler returns `None`). */
  function TweetData(el: TweetElement): Option<Record>
  {
    if IsRepost(el) && el.users == [] then None
    else if el.href.None? then None
    else Some(Zip(TWEET_DATA_KEYS, TweetValues(el, AfterLast(el.href.value, STATUS_SEP), IsRepost(el), IsQuoteRetweet(el))))
  }

  /** The fields of a record built from the keys and some values. */
  lemma TweetRecordFields(vals: seq<Json>)
    requires |vals| == |TWEET_DATA_KEYS|
    ensures var t := Zip(TWEET_DATA_KEYS, vals);
      && Keys(t) == TWEET_DATA_KEYS
      && Field(t, "id") == vals[0] && Field(t, "url") == vals[3] && Field(t, "isQuoteRetweet") == vals[5]
      && Field(t, "quotedContent") == vals[7] && Field(t, "repostedContent") == vals[8]
  {
    assert DistinctStrings(TWEET_DATA_KEYS);
    ZipKeys(TWEET_DATA_KEYS, vals);
    ZipField(TWEET_DATA_KEYS, vals, 0);
    ZipField(TWEET_DATA_KEYS, vals, 3);
    ZipField(TWEET_DATA_KEYS, vals, 5);
    ZipField(TWEET_DATA_KEYS, vals, 7);
    ZipField(TWEET_DATA_KEYS, vals, 8);
  }

  /** An article yields data exactly when it has a status link and is not
      an authorless repost; the id is what follows the last "/status/", the
      url is rebuilt from it, and the quote-retweet flag holds exactly for a
      non-repost with two texts and two authors, which is exactly when the
      quoted content is filled in. */
  lemma TweetDataCharacterised(el: TweetElement)
    ensures TweetData(el).None? <==> el.href.None? || (IsRepost(el) && el.users == [])
    ensures TweetData(el).Some? ==>
      var t := TweetData(el).value;
      var id := AfterLast(el.href.value, STATUS_SEP);
      && Keys(t) == TWEET_DATA_KEYS
      && Field(t, "id") == JStr(id)
      && Field(t, "url") == JStr(StatusUrl(id))
      && Field(t, "isQuoteRetweet") == JBool(!IsRepost(el) && |el.texts| == 2 && |el.users| == 2)
      && (Field(t, "quotedContent") != JNull <==> IsQuoteRetweet(el))
      && (Field(t, "repostedContent") != JNull <==> IsRepost(el))
  {
    if TweetData(el).Some? {
      TweetRecordFields(TweetValues(el, AfterLast(el.href.value, STATUS_SEP), IsRepost(el), IsQuoteRetweet(el)));
    }
  }

  lemma EndsWithConcat(a: string, b: string)
    ensures EndsWith(a + b, b)
  {
    assert (a + b)[|a + b| - |b|..] == b;
  }

  lemma EndsWithTrans(s: string, t: string, u: string)
    requires EndsWith(s, t) && EndsWith(t, u)
    ensures EndsWith(s, u)
  {
    assert s[|s| - |u|..] == t[|t| - |u|..];
  }

  /** Splitting at the first "/status/": what follows it ends the link and
      has the same last segment. */
  lemma StatusSplit(href: string)
    requires Contains(href, STATUS_SEP)
    ensures var rest := Partition(href, STATUS_SEP).value.1;
      && |rest| < |href|
      && AfterLast(href, STATUS_SEP) == AfterLast(rest, STATUS_SEP)
      && EndsWith(href, rest) && EndsWith(href, STATUS_SEP + rest)
  {
    var (before, rest) := Partition(href, STATUS_SEP).value;
    assert href == (before + STATUS_SEP) + rest;
    EndsWithConcat(before + STATUS_SEP, rest);
    assert href == before + (STATUS_SEP + rest);
    EndsWithConcat(before, STATUS_SEP + rest);
  }

  /** `href.split('/status/')[-1]` of a status link is the text after a
      "/status/" that runs to the end of the link. */
  lemma {:induction false} StatusIdOfHref(href: string)
    requires Contains(href, STATUS_SEP)
    ensures EndsWith(href, STATUS_SEP + AfterLast(href, STATUS_SEP))
    decreases |href|
  {
    var rest := Partition(href, STATUS_SEP).value.1;
    StatusSplit(href);
    if Contains(rest, STATUS_SEP) {
      StatusIdOfHref(rest);
      EndsWithTrans(href, rest, STATUS_SEP + AfterLast(rest, STATUS_SEP));
    } else {
      assert AfterLast(rest, STATUS_SEP) == rest;
    }
  }


  // ---------------------------------------------------------------
  // get_column_tweets
  // ---------------------------------------------------------------

  /** The article's data with `column` set to the column's title. */
  function Tagged(el: TweetElement, title: string): Option<Record>
  {
    match TweetData(el)
    case None => None
    case Some(t) => Some(Set(t, "column", JStr(title)))
  }

  /** The processing loop: the data of every article that yields some,
      tagged with the column title, in order. */
  function Process(els: seq<TweetElement>, title: string): seq<Record>
  {
    FilterMap(els, el => Tagged(el, title))
  }


  /** `int(column_id)` for the ids the scraper gives its columns. */
  function ColumnIndex(id: string): Option<nat>
  {
    if IsDigits(id) then Some(DigitsValue(id)) else None
  }

  /** The articles the wait loop ends with: those of the column's timeline,
      or none when the timeline never appeared. */
  function Articles(page: seq<RenderedColumn>, index: nat): seq<TweetElement>
    requires index < |page|
  {
    if page[index].timeline then page[index].tweets else []
  }

  /** `get_column_tweets(column_id, is_monitoring)`: `None` when it raises
      `ScrapingError`. */
  function ColumnTweets(columns: seq<(string, ColumnInfo)>, latest: Json, page: seq<RenderedColumn>,
                        id: string, monitoring: bool): Option<seq<Record>>
  {
    match Get(columns, id)
    case None => Some([])
    case Some(col) =>
      match ColumnIndex(id)
      case None => None
      case Some(index) =>
        if index >= |page| then None
        else ArticlesTweets(Articles(page, index), col.title, latest, id, monitoring)
  }

  /** The second half of `get_column_tweets`, once the column's articles
      are known. */
  function ArticlesTweets(els: seq<TweetElement>, title: string, latest: Json, id: string, monitoring: bool)
    : Option<seq<Record>>
  {
    if els == [] then Some([])
    else if !monitoring then Some(Process(els, title))
    else if !latest.JObj? then None
    else
      var lid := GetOr(latest.entries, id, JNull);
      if !Truthy(lid) then Some(Process(els, title))
      else if els[0].href.None? then None
      else if JStr(AfterLast(els[0].href.value, STATUS_SEP)) == lid then Some([])
      else Some(Process([els[0]], title))
  }


  /** An unknown column gives no tweets; a column past the rendered ones
      raises. */
  lemma ColumnTweetsGuards(columns: seq<(string, ColumnInfo)>, latest: Json, page: seq<RenderedColumn>,
                           id: string, monitoring: bool)
    ensures !HasKey(columns, id) ==> ColumnTweets(columns, latest, page, id, monitoring) == Some([])
    ensures HasKey(columns, id) && IsDigits(id) && DigitsValue(id) >= |page| ==>
      ColumnTweets(columns, latest, page, id, monitoring).None?
  {
  }

  /** Every tweet a column returns carries the column's title and comes
      from one of its articles. */
  lemma ProcessTagged(els: seq<TweetElement>, title: string)
    ensures |Process(els, title)| <= |els|
    ensures forall k :: 0 <= k < |Process(els, title)| ==>
      Field(Process(els, title)[k], "column") == JStr(title) &&
      exists j :: 0 <= j < |els| && Tagged(els[j], title) == Some(Process(els, title)[k])
    ensures forall j :: 0 <= j < |els| && Tagged(els[j], title).Some? ==> Tagged(els[j], title).value in Process(els, title)
  {
    var f := el => Tagged(el, title);
    var r := Process(els, title);
    FilterMapSound(els, f);
    forall k | 0 <= k < |r|
      ensures Field(r[k], "column") == JStr(title)
      ensures exists j :: 0 <= j < |els| && Tagged(els[j], title) == Some(r[k])
    {
      assert IsImage(els, f, r[k]);
      var j :| 0 <= j < |els| && f(els[j]) == Some(r[k]);
      TaggedTitle(TweetData(els[j]).value, title);
    }
    forall j | 0 <= j < |els| && Tagged(els[j], title).Some? ensures Tagged(els[j], title).value in r {
      FilterMapComplete(els, f, j);
    }
  }


  lemma TaggedTitle(t: Record, title: string)
    ensures Field(Set(t, "column", JStr(title)), "column") == JStr(title)
  {
    GetSetSame(t, "column", JStr(title));
    SetHasKey(t, "column", JStr(title), "column");
  }

  /** Monitoring a column whose latest id is known looks at the first
      article only: it raises when that article has no status link, returns
      nothing when its id is the stored one, and otherwise returns at most
      that article's tweet. */
  lemma MonitoringRule(columns: seq<(string, ColumnInfo)>, latest: Json, page: seq<RenderedColumn>, id: string)
    requires HasKey(columns, id) && IsDigits(id) && DigitsValue(id) < |page|
    requires Articles(page, DigitsValue(id)) != []
    requires latest.JObj? && Truthy(GetOr(latest.entries, id, JNull))
    ensures var first := Articles(page, DigitsValue(id))[0];
      var r := ColumnTweets(columns, latest, page, id, true);
      && (r.None? <==> first.href.None?)
      && (r.Some? && JStr(AfterLast(first.href.value, STATUS_SEP)) == GetOr(latest.entries, id, JNull) ==> r.value == [])
      && (r.Some? ==> |r.value| <= 1 && (r.value != [] ==> Some(r.value[0]) == Tagged(first, Get(columns, id).value.title)))
  {
    var first := Articles(page, DigitsValue(id))[0];
    FilterMapSingle(first, el => Tagged(el, Get(columns, id).value.title));
  }

  // ---------------------------------------------------------------
  // scrape_all_columns
  // ---------------------------------------------------------------

  /** The scraper's state as the awaiting loop goes: the latest ids, the
      files, the `(column, count)` results, and whether it has raised. */
  datatype Scrape = Scrape(latest: Json, files: map<string, Content>, results: seq<(string, nat)>, failed: bool)

  /** What is written to a column's file: the new tweets, followed in
      monitoring mode by the file's old list; `None` when that file cannot be
      read as a list. */
  function Saved(files: map<string, Content>, file: string, ts: seq<Record>, monitoring: bool): Option<seq<Json>>
  {
    if !monitoring || file !in files then Some(AsJson(ts))
    else match files[file]
      case Corrupt => None
      case Parsed(j) => if j.JList? then Some(AsJson(ts) + j.items) else None
  }

  /** One column of the loop, given what its task returned. */
  function ScrapeStep(st: Scrape, c: (string, ColumnInfo), tweets: Option<seq<Record>>, monitoring: bool): Scrape
  {
    if st.failed then st
    else match tweets
      case None => st.(failed := true)
      case Some(ts) =>
        if ts == [] then st
        else if !st.latest.JObj? then st.(failed := true)
        else
          var latest := JObj(Set(st.latest.entries, c.0, Field(ts[0], "id")));
          match Saved(st.files, c.1.file, ts, monitoring)
          case None => st.(latest := latest, failed := true)
          case Some(content) =>
            Scrape(latest, st.files[c.1.file := Parsed(JList(content))], st.results + [(c.0, |ts|)], false)
  }

  /** The answers of the tasks for the first `n` columns: every task reads the latest ids
      as they were when the scrape began (only its own column's entry,
      which no other column writes). */
  function Tasks(columns: seq<(string, ColumnInfo)>, latest0: Json, page: seq<RenderedColumn>, monitoring: bool, n: nat)
    : (tasks: seq<Option<seq<Record>>>)
    requires n <= |columns|
    ensures |tasks| == n
  {
    if n == 0 then []
    else Tasks(columns, latest0, page, monitoring, n - 1) + [ColumnTweets(columns, latest0, page, columns[n - 1].0, monitoring)]
  }

  type Answers = seq<Option<seq<Record>>>

  /** The awaiting loop over the first `n` columns. */
  function ScrapeColumns(columns: seq<(string, ColumnInfo)>, tasks: Answers, latest0: Json, files0: map<string, Content>,
                         monitoring: bool, n: nat): Scrape
    requires n <= |columns| == |tasks|
  {
    if n == 0 then Scrape(latest0, files0, [], false)
    else ScrapeStep(ScrapeColumns(columns, tasks, latest0, files0, monitoring, n - 1), columns[n - 1], tasks[n - 1], monitoring)
  }

  /** `scrape_all_columns`: the loop, then the latest ids saved when some
      column returned tweets. */
  function ScrapeAll(columns: seq<(string, ColumnInfo)>, latest0: Json, files0: map<string, Content>,
                     page: seq<RenderedColumn>, monitoring: bool): Scrape
  {
    var st := ScrapeColumns(columns, Tasks(columns, latest0, page, monitoring, |columns|), latest0, files0, monitoring, |columns|);
    if !st.failed && st.results != [] then st.(files := st.files[LATEST_TWEETS_FILE := Parsed(st.latest)])
    else st
  }

  /** What one turn of the loop can do: raise (when the task raised, when
      the ids are not a dict, or when the column's file cannot be extended),
      and otherwise record the column's first id, rewrite its file and note
      its count; a column with no tweets changes nothing. */
  lemma StepShape(st: Scrape, c: (string, ColumnInfo), t: Option<seq<Record>>, monitoring: bool)
    ensures var s2 := ScrapeStep(st, c, t, monitoring);
      && (s2.failed <==>
            (st.failed || t.None? || (t.value != [] && (!st.latest.JObj? || Saved(st.files, c.1.file, t.value, monitoring).None?))))
      && (s2.latest == st.latest ||
            (!st.failed && t.Some? && t.value != [] && st.latest.JObj? &&
             s2.latest == JObj(Set(st.latest.entries, c.0, Field(t.value[0], "id")))))
      && (s2.files == st.files ||
            (!s2.failed && s2.files == st.files[c.1.file := Parsed(JList(Saved(st.files, c.1.file, t.value, monitoring).value))]))
      && (!s2.failed && t.value == [] ==> s2 == st)
      && (!s2.failed && t.value != [] ==>
            && s2.latest == JObj(Set(st.latest.entries, c.0, Field(t.value[0], "id")))
            && s2.files == st.files[c.1.file := Parsed(JList(Saved(st.files, c.1.file, t.value, monitoring).value))]
            && s2.results == st.results + [(c.0, |t.value|)])
  {
  }

  /** Once raised, the loop stays raised and changes nothing more. */
  lemma {:induction false} ScrapeColumnsSticky(columns: seq<(string, ColumnInfo)>, tasks: Answers, latest0: Json,
      files0: map<string, Content>, monitoring: bool, m: nat, n: nat)
    requires m <= n <= |columns| == |tasks|
    requires ScrapeColumns(columns, tasks, latest0, files0, monitoring, m).failed
    ensures ScrapeColumns(columns, tasks, latest0, files0, monitoring, n)
      == ScrapeColumns(columns, tasks, latest0, files0, monitoring, m)
    decreases n
  {
    if n > m {
      ScrapeColumnsSticky(columns, tasks, latest0, files0, monitoring, m, n - 1);
    }
  }

  /** Any column whose task raised aborts the scrape. */
  lemma {:induction false} ScrapeColumnsAbort(columns: seq<(string, ColumnInfo)>, tasks: Answers, latest0: Json,
      files0: map<string, Content>, monitoring: bool, n: nat, i: nat)
    requires i < n <= |columns| == |tasks|
    requires tasks[i].None?
    ensures ScrapeColumns(columns, tasks, latest0, files0, monitoring, n).failed
    decreases n
  {
    if i < n - 1 {
      ScrapeColumnsAbort(columns, tasks, latest0, files0, monitoring, n - 1, i);
    }
  }

  /** A successful loop heard from every task, and has a result exactly for
      the columns that returned tweets. */
  lemma {:induction false} ScrapeColumnsResults(columns: seq<(string, ColumnInfo)>, tasks: Answers, latest0: Json,
      files0: map<string, Content>, monitoring: bool, n: nat)
    requires n <= |columns| == |tasks|
    requires !ScrapeColumns(columns, tasks, latest0, files0, monitoring, n).failed
    ensures forall i :: 0 <= i < n ==> tasks[i].Some?
    ensures ScrapeColumns(columns, tasks, latest0, files0, monitoring, n).results != [] <==>
      exists i :: 0 <= i < n && tasks[i] != Some([])
    decreases n
  {
    if n > 0 {
      var prev := ScrapeColumns(columns, tasks, latest0, files0, monitoring, n - 1);
      assert !prev.failed;
      ScrapeColumnsResults(columns, tasks, latest0, files0, monitoring, n - 1);
    }
  }

  /** Keys of columns that returned nothing, and keys of no column, keep
      their latest ids. */
  lemma {:induction false} ScrapeColumnsOtherKeys(columns: seq<(string, ColumnInfo)>, tasks: Answers, latest0: Json,
      files0: map<string, Content>, monitoring: bool, n: nat, k: string)
    requires n <= |columns| == |tasks| && latest0.JObj?
    requires forall j :: 0 <= j < n && columns[j].0 == k ==> tasks[j] == Some([])
    ensures ScrapeColumns(columns, tasks, latest0, files0, monitoring, n).latest.JObj?
    ensures Get(ScrapeColumns(columns, tasks, latest0, files0, monitoring, n).latest.entries, k) == Get(latest0.entries, k)
    decreases n
  {
    if n > 0 {
      ScrapeColumnsOtherKeys(columns, tasks, latest0, files0, monitoring, n - 1, k);
      var prev := ScrapeColumns(columns, tasks, latest0, files0, monitoring, n - 1);
      var t := tasks[n - 1];
      StepShape(prev, columns[n - 1], t, monitoring);
      if !prev.failed && t.Some? && t.value != [] && prev.latest.JObj? {
        GetSetOther(prev.latest.entries, columns[n - 1].0, Field(t.value[0], "id"), k);
      }
    }
  }

  /** A column that returned tweets has its first tweet's id as its latest
      id once the loop has gone past it without raising. */
  lemma {:induction false} ScrapeColumnsLatest(columns: seq<(string, ColumnInfo)>, tasks: Answers, latest0: Json,
      files0: map<string, Content>, monitoring: bool, n: nat, i: nat)
    requires i < n <= |columns| == |tasks| && DistinctKeys(columns)
    requires !ScrapeColumns(columns, tasks, latest0, files0, monitoring, n).failed
    requires tasks[i].Some? && tasks[i].value != []
    ensures ScrapeColumns(columns, tasks, latest0, files0, monitoring, n).latest.JObj?
    ensures Get(ScrapeColumns(columns, tasks, latest0, files0, monitoring, n).latest.entries, columns[i].0)
      == Some(Field(tasks[i].value[0], "id"))
    decreases n
  {
    var prev := ScrapeColumns(columns, tasks, latest0, files0, monitoring, n - 1);
    var t := tasks[n - 1];
    var cur := ScrapeStep(prev, columns[n - 1], t, monitoring);
    assert ScrapeColumns(columns, tasks, latest0, files0, monitoring, n) == cur;
    StepShape(prev, columns[n - 1], t, monitoring);
    assert !prev.failed && t.Some?;
    if i == n - 1 {
      GetSetSame(prev.latest.entries, columns[i].0, Field(t.value[0], "id"));
    } else {
      ScrapeColumnsLatest(columns, tasks, latest0, files0, monitoring, n - 1, i);
      if t.value != [] {
        assert columns[n - 1].0 != columns[i].0;
        GetSetOther(prev.latest.entries, columns[n - 1].0, Field(t.value[0], "id"), columns[i].0);
      } else {
        assert cur == prev;
      }
    }
  }

  /** Files of no column in the loop are left alone. */
  lemma {:induction false} ScrapeColumnsOtherFiles(columns: seq<(string, ColumnInfo)>, tasks: Answers, latest0: Json,
      files0: map<string, Content>, monitoring: bool, n: nat, f: string)
    requires n <= |columns| == |tasks|
    requires forall j :: 0 <= j < n ==> columns[j].1.file != f
    ensures FileAt(ScrapeColumns(columns, tasks, latest0, files0, monitoring, n).files, f) == FileAt(files0, f)
    decreases n
  {
    if n > 0 {
      ScrapeColumnsOtherFiles(columns, tasks, latest0, files0, monitoring, n - 1, f);
      var prev := ScrapeColumns(columns, tasks, latest0, files0, monitoring, n - 1);
      var cur := ScrapeStep(prev, columns[n - 1], tasks[n - 1], monitoring);
      assert ScrapeColumns(columns, tasks, latest0, files0, monitoring, n) == cur;
      StepShape(prev, columns[n - 1], tasks[n - 1], monitoring);
      assert f != columns[n - 1].1.file;
      assert FileAt(cur.files, f) == FileAt(prev.files, f);
    }
  }

  /** A column that returned tweets has its file rewritten: in monitoring
      mode with the new tweets before the file's old list, otherwise with
      the new tweets alone. */
  lemma {:induction false} ScrapeColumnsFile(columns: seq<(string, ColumnInfo)>, tasks: Answers, latest0: Json,
      files0: map<string, Content>, monitoring: bool, n: nat, i: nat)
    requires i < n <= |columns| == |tasks|
    requires forall j :: 0 <= j < n && j != i ==> columns[j].1.file != columns[i].1.file
    requires !ScrapeColumns(columns, tasks, latest0, files0, monitoring, n).failed
    requires tasks[i].Some? && tasks[i].value != []
    ensures Saved(files0, columns[i].1.file, tasks[i].value, monitoring).Some?
    ensures columns[i].1.file in ScrapeColumns(columns, tasks, latest0, files0, monitoring, n).files
    ensures ScrapeColumns(columns, tasks, latest0, files0, monitoring, n).files[columns[i].1.file]
      == Parsed(JList(Saved(files0, columns[i].1.file, tasks[i].value, monitoring).value))
    decreases n
  {
    var prev := ScrapeColumns(columns, tasks, latest0, files0, monitoring, n - 1);
    StepShape(prev, columns[n - 1], tasks[n - 1], monitoring);
    if i == n - 1 {
      ScrapeColumnsOtherFiles(columns, tasks, latest0, files0, monitoring, n - 1, columns[i].1.file);
      assert Saved(prev.files, columns[i].1.file, tasks[i].value, monitoring)
        == Saved(files0, columns[i].1.file, tasks[i].value, monitoring);
    } else {
      ScrapeColumnsFile(columns, tasks, latest0, files0, monitoring, n - 1, i);
    }
  }

  /** The latest-ids file is written exactly when the scrape succeeds with
      some results, and then holds the updated ids. */
  lemma ScrapeAllPersists(columns: seq<(string, ColumnInfo)>, latest0: Json, files0: map<string, Content>,
                          page: seq<RenderedColumn>, monitoring: bool)
    requires forall j :: 0 <= j < |columns| ==> columns[j].1.file != LATEST_TWEETS_FILE
    ensures var st := ScrapeAll(columns, latest0, files0, page, monitoring);
      if !st.failed && st.results != [] then st.files[LATEST_TWEETS_FILE] == Parsed(st.latest)
      else FileAt(st.files, LATEST_TWEETS_FILE) == FileAt(files0, LATEST_TWEETS_FILE)
  {
    ScrapeColumnsOtherFiles(columns, Tasks(columns, latest0, page, monitoring, |columns|), latest0, files0, monitoring,
                            |columns|, LATEST_TWEETS_FILE);
  }

  // ---------------------------------------------------------------
  // identify_columns (the part that does not drive the browser)
  // ---------------------------------------------------------------

  /** What reading a column's header gave: its text, no header element
      (the column is then called by its index), or an error (the column is
      skipped). */
  datatype Header = Heading(text: string) | NoHeading | Unreadable

  /** The title stored for column `i`, if any. */
  function ColumnTitle(h: Header, i: nat): (t: Option<string>)
    ensures t.None? <==> h.Unreadable?
    ensures h.Heading? ==> t == Some(h.text)
  {
    match h
    case Heading(text) => Some(text)
    case NoHeading => Some("Column " + NatToString(i))
    case Unreadable => None
  }

  function Titles(headers: seq<Header>): (titles: seq<Option<string>>)
    ensures |titles| == |headers|
    ensures forall i :: 0 <= i < |headers| ==> titles[i] == ColumnTitle(headers[i], i)
  {
    seq(|headers|, i requires 0 <= i < |headers| => ColumnTitle(headers[i], i))
  }

  /** The columns after `identify_columns` stored column `i` under `str(i)`
      for every column whose title it could read. */
  function Identified(columns: seq<(string, ColumnInfo)>, titles: seq<Option<string>>, today: string)
    : seq<(string, ColumnInfo)>
    decreases |titles|
  {
    if titles == [] then columns
    else
      var i := |titles| - 1;
      var prev := Identified(columns, titles[..i], today);
      match titles[i]
      case None => prev
      case Some(t) => Set(prev, NatToString(i), ColumnInfo(t, ColumnFile(today, NatToString(i))))
  }

  /** Distinct numbers have distinct decimal names. */
  lemma {:induction false} NatToStringInjective(a: nat, b: nat)
    requires NatToString(a) == NatToString(b)
    ensures a == b
    decreases a
  {
    if a >= 10 && b >= 10 {
      var sa := NatToString(a / 10);
      var sb := NatToString(b / 10);
      assert NatToString(a) == sa + [DigitChar(a % 10)];
      assert NatToString(b) == sb + [DigitChar(b % 10)];
      assert sa == NatToString(a)[..|NatToString(a)| - 1];
      assert sb == NatToString(b)[..|NatToString(b)| - 1];
      NatToStringInjective(a / 10, b / 10);
      assert DigitChar(a % 10) == DigitChar(b % 10);
    }
  }

  /** The columns the scraper keeps: distinct digit ids, each with its
      file in the day's raw directory. */
  predicate WellFormed(columns: seq<(string, ColumnInfo)>, today: string)
  {
    && DistinctKeys(columns)
    && forall i :: 0 <= i < |columns| ==> IsDigits(columns[i].0) && columns[i].1.file == ColumnFile(today, columns[i].0)
  }

  /** `d[k] = v` keeps the keys distinct, and every entry is an old entry
      or the new one. */
  lemma SetDistinct<V>(entries: seq<(string, V)>, k: string, v: V)
    requires DistinctKeys(entries)
    ensures DistinctKeys(Set(entries, k, v))
  {
    var r := Set(entries, k, v);
    HasKeyInKeys(entries, k);
    forall i, j | 0 <= i < j < |r| ensures r[i].0 != r[j].0 {
      assert Keys(r)[i] == r[i].0 && Keys(r)[j] == r[j].0;
    }
  }

  lemma {:induction false} SetEntries<V>(entries: seq<(string, V)>, k: string, v: V)
    ensures forall i :: 0 <= i < |Set(entries, k, v)| ==> Set(entries, k, v)[i] in entries || Set(entries, k, v)[i] == (k, v)
    decreases |entries|
  {
    var r := Set(entries, k, v);
    if entries != [] && entries[0].0 != k {
      SetEntries(entries[1..], k, v);
      assert r == [entries[0]] + Set(entries[1..], k, v);
      forall i | 0 <= i < |r| ensures r[i] in entries || r[i] == (k, v) {
        if i > 0 {
          assert r[i] == Set(entries[1..], k, v)[i - 1];
        }
      }
    } else if entries != [] {
      assert r == [(k, v)] + entries[1..];
      forall i | 1 <= i < |r| ensures r[i] in entries {
        assert r[i] == entries[i];
      }
    }
  }


  /** Identification keeps the columns well formed. */
  lemma {:induction false} IdentifiedWellFormed(columns: seq<(string, ColumnInfo)>, titles: seq<Option<string>>, today: string)
    requires WellFormed(columns, today)
    ensures WellFormed(Identified(columns, titles, today), today)
    decreases |titles|
  {
    if titles != [] {
      var i := |titles| - 1;
      var prev := Identified(columns, titles[..i], today);
      IdentifiedWellFormed(columns, titles[..i], today);
      if titles[i].Some? {
        var k := NatToString(i);
        var v := ColumnInfo(titles[i].value, ColumnFile(today, k));
        SetDistinct(prev, k, v);
        SetEntries(prev, k, v);
        var r := Set(prev, k, v);
        forall j | 0 <= j < |r| ensures IsDigits(r[j].0) && r[j].1.file == ColumnFile(today, r[j].0) {
          if r[j] != (k, v) {
            var q :| 0 <= q < |prev| && prev[q] == r[j];
          }
        }
      }
    }
  }

  /** Every column whose title was read is stored under its index. */
  lemma {:induction false} IdentifiedReads(columns: seq<(string, ColumnInfo)>, titles: seq<Option<string>>,
                                           today: string, i: nat)
    requires i < |titles| && titles[i].Some?
    ensures Get(Identified(columns, titles, today), NatToString(i))
      == Some(ColumnInfo(titles[i].value, ColumnFile(today, NatToString(i))))
    decreases |titles|
  {
    var n := |titles| - 1;
    var prev := Identified(columns, titles[..n], today);
    if i == n {
      GetSetSame(prev, NatToString(i), ColumnInfo(titles[i].value, ColumnFile(today, NatToString(i))));
    } else {
      IdentifiedReads(columns, titles[..n], today, i);
      assert titles[..n][i] == titles[i];
      if titles[n].Some? {
        if NatToString(n) == NatToString(i) {
          NatToStringInjective(n, i);
        }
        GetSetOther(prev, NatToString(n), ColumnInfo(titles[n].value, ColumnFile(today, NatToString(n))), NatToString(i));
      }
    }
  }

  /** The headers `identify_columns` reads as written: `Locator.first` is a
      property, so calling it raises `TypeError`, both lookups are swallowed
      by their `except`, and every one of the `n` columns has no header. */
  function AsWrittenHeaders(n: nat): (hs: seq<Header>)
    ensures |hs| == n
    ensures forall i :: 0 <= i < n ==> hs[i].NoHeading?
  {
    seq(n, i => NoHeading)
  }

  /** As written, column `i` is stored under its index with the title
      `Column i`, whatever heading the page shows: a heading with any other
      text is stored differently from how the intended reading stores it;
      and the loop succeeds exactly when there is a column. */
  lemma AsWrittenTitlesAreIndices(columns: seq<(string, ColumnInfo)>, page: seq<Header>, today: string, i: nat)
    requires i < |page|
    ensures var id := NatToString(i);
      Get(Identified(columns, Titles(AsWrittenHeaders(|page|)), today), id)
        == Some(ColumnInfo("Column " + id, ColumnFile(today, id)))
    ensures page[i].Heading? && page[i].text != "Column " + NatToString(i) ==>
      Get(Identified(columns, Titles(AsWrittenHeaders(|page|)), today), NatToString(i))
        != Get(Identified(columns, Titles(page), today), NatToString(i))
    ensures (exists j :: 0 <= j < |page| && !AsWrittenHeaders(|page|)[j].Unreadable?)
  {
    var asWritten := Titles(AsWrittenHeaders(|page|));
    IdentifiedReads(columns, asWritten, today, i);
    if page[i].Heading? {
      IdentifiedReads(columns, Titles(page), today, i);
    }
    assert !AsWrittenHeaders(|page|)[i].Unreadable?;
  }

  /** Each column has its own file. */
  lemma ColumnFileInjective(today: string, a: string, b: string)
    requires ColumnFile(today, a) == ColumnFile(today, b)
    ensures a == b
  {
    var p := RAW_DIR + "/" + today + "/column_";
    assert ColumnFile(today, a) == p + a + ".json";
    assert ColumnFile(today, b) == p + b + ".json";
    assert |a| == |b|;
    assert a == ColumnFile(today, a)[|p|..|p| + |a|];
    assert b == ColumnFile(today, b)[|p|..|p| + |b|];
  }

  /** Well-formed columns write distinct files, none of them the
      latest-ids file. */
  lemma WellFormedFiles(columns: seq<(string, ColumnInfo)>, today: string)
    requires WellFormed(columns, today)
    ensures forall i, j :: 0 <= i < |columns| && 0 <= j < |columns| && i != j ==> columns[i].1.file != columns[j].1.file
    ensures forall i :: 0 <= i < |columns| ==> columns[i].1.file != LATEST_TWEETS_FILE
  {
    forall i, j | 0 <= i < |columns| && 0 <= j < |columns| && i != j
      ensures columns[i].1.file != columns[j].1.file
    {
      if columns[i].1.file == columns[j].1.file {
        ColumnFileInjective(today, columns[i].0, columns[j].0);
      }
    }
    forall i | 0 <= i < |columns| ensures columns[i].1.file != LATEST_TWEETS_FILE {
      assert columns[i].1.file[5] == 'r';
    }
  }

  /** The scraper: the page it reads, its columns, the latest id per
      column, and the files it writes. */
  class DeckScraper {
    var columns: seq<(string, ColumnInfo)>
    var latestTweets: Json
    var files: map<string, Content>
    const today: string

    predicate Valid()
      reads this
    {
      WellFormed(columns, today)
    }

    /** `__init__` and `load_latest_tweets`: a stored file that does not
        decode leaves the ids empty; a decoded one is taken whatever it is. */
    constructor (files: map<string, Content>, today: string)
      ensures Valid() && this.files == files && this.today == today && columns == []
      ensures latestTweets == if LATEST_TWEETS_FILE in files && files[LATEST_TWEETS_FILE].Parsed?
                              then files[LATEST_TWEETS_FILE].json else JObj([])
    {
      this.files := files;
      this.today := today;
      columns := [];
      if LATEST_TWEETS_FILE in files && files[LATEST_TWEETS_FILE].Parsed? {
        latestTweets := files[LATEST_TWEETS_FILE].json;
      } else {
        latestTweets := JObj([]);
      }
    }

    /** The storing loop of `identify_columns`, given what reading each
        column's header gave: it succeeds exactly when some column was
        stored, so never when no column was found. */
    method IdentifyColumns(headers: seq<Header>) returns (ok: bool)
      requires Valid()
      modifies this
      ensures Valid()
      ensures columns == Identified(old(columns), Titles(headers), today)
      ensures latestTweets == old(latestTweets) && files == old(files)
      ensures ok <==> exists i :: 0 <= i < |headers| && !headers[i].Unreadable?
    {
      var titles := Titles(headers);
      var stored := 0;
      for i := 0 to |titles|
        invariant latestTweets == old(latestTweets) && files == old(files)
        invariant columns == Identified(old(columns), titles[..i], today)
        invariant WellFormed(columns, today)
        invariant (stored > 0) <==> exists j :: 0 <= j < i && titles[j].Some?
      {
        assert titles[..i + 1][..i] == titles[..i];
        IdentifiedWellFormed(old(columns), titles[..i + 1], today);
        match ColumnTitle(headers[i], i)
        case None =>
        case Some(t) =>
          var id := NatToString(i);
          columns := Set(columns, id, ColumnInfo(t, ColumnFile(today, id)));
          stored := stored + 1;
      }
      assert titles[..|titles|] == titles;
      ok := stored > 0;
    }

    /** `get_column_tweets`. */
    method GetColumnTweets(page: seq<RenderedColumn>, id: string, monitoring: bool) returns (r: Option<seq<Record>>)
      ensures r == ColumnTweets(columns, latestTweets, page, id, monitoring)
    {
      var column := Get(columns, id);
      if column.None? {
        return Some([]);
      }
      if !IsDigits(id) {
        return None;
      }
      var index := DigitsValue(id);
      if index >= |page| {
        return None;
      }
      var els := Articles(page, index);
      if els == [] {
        return Some([]);
      }
      if monitoring {
        if !latestTweets.JObj? {
          return None;
        }
        var lid := GetOr(latestTweets.entries, id, JNull);
        if Truthy(lid) {
          if els[0].href.None? {
            return None;
          }
          if JStr(AfterLast(els[0].href.value, STATUS_SEP)) == lid {
            return Some([]);
          }
          els := [els[0]];
        }
      }
      var list := ProcessArticles(els, column.value.title);
      r := Some(list);
    }

    /** The processing loop of `get_column_tweets`. */
    static method ProcessArticles(els: seq<TweetElement>, title: string) returns (list: seq<Record>)
      ensures list == Process(els, title)
    {
      list := [];
      for j := 0 to |els|
        invariant list == Process(els[..j], title)
      {
        FilterMapSnoc(els, j, el => Tagged(el, title));
        var data := TweetData(els[j]);
        if data.Some? {
          list := list + [Set(data.value, "column", JStr(title))];
        }
      }
      assert els[..|els|] == els;
    }

    /** `scrape_all_columns`: `None` when it raises, in which case the ids
        and files changed so far stay changed. */
    method ScrapeAllColumns(page: seq<RenderedColumn>, monitoring: bool) returns (r: Option<seq<(string, nat)>>)
      requires Valid()
      modifies this
      ensures Valid() && columns == old(columns)
      ensures var st := ScrapeAll(columns, old(latestTweets), old(files), page, monitoring);
        && latestTweets == st.latest && files == st.files
        && r == if st.failed then None else Some(st.results)
    {
      var tasks := StartTasks(page, monitoring);
      var failed, results := AwaitTasks(tasks, monitoring);
      if failed {
        return None;
      }
      if results != [] {
        files := files[LATEST_TWEETS_FILE := Parsed(latestTweets)];
      }
      r := Some(results);
    }

    /** The tasks of `scrape_all_columns`, one per column, started before
        any is awaited. */
    method StartTasks(page: seq<RenderedColumn>, monitoring: bool) returns (tasks: Answers)
      ensures tasks == Tasks(columns, latestTweets, page, monitoring, |columns|)
    {
      tasks := [];
      for i := 0 to |columns|
        invariant tasks == Tasks(columns, latestTweets, page, monitoring, i)
      {
        var t := GetColumnTweets(page, columns[i].0, monitoring);
        tasks := tasks + [t];
      }
    }

    /** The awaiting loop of `scrape_all_columns`: it stops at the first
        column that raises. */
    method AwaitTasks(tasks: Answers, monitoring: bool) returns (failed: bool, results: seq<(string, nat)>)
      requires |tasks| == |columns|
      modifies this
      ensures columns == old(columns)
      ensures var st := ScrapeColumns(columns, tasks, old(latestTweets), old(files), monitoring, |columns|);
        && latestTweets == st.latest && files == st.files && failed == st.failed
        && (!failed ==> results == st.results)
    {
      results := [];
      for i := 0 to |columns|
        invariant columns == old(columns)
        invariant ScrapeColumns(columns, tasks, old(latestTweets), old(files), monitoring, i)
          == Scrape(latestTweets, files, results, false)
      {
        failed := AwaitColumn(columns[i], tasks[i], monitoring, results);
        if failed {
          ScrapeColumnsSticky(columns, tasks, old(latestTweets), old(files), monitoring, i + 1, |columns|);
          return;
        }
        results := results + if tasks[i].value == [] then [] else [(columns[i].0, |tasks[i].value|)];
      }
      failed := false;
    }

    /** One turn of the awaiting loop; `true` when it raises. */
    method AwaitColumn(c: (string, ColumnInfo), tweets: Option<seq<Record>>, monitoring: bool,
                       results: seq<(string, nat)>) returns (failed: bool)
      modifies this
      ensures columns == old(columns)
      ensures var st := ScrapeStep(Scrape(old(latestTweets), old(files), results, false), c, tweets, monitoring);
        && latestTweets == st.latest && files == st.files && failed == st.failed
        && (!failed ==> st.results == results + if tweets.value == [] then [] else [(c.0, |tweets.value|)])
    {
      if tweets.None? {
        return true;
      }
      var ts := tweets.value;
      if ts == [] {
        return false;
      }
      if !latestTweets.JObj? {
        return true;
      }
      latestTweets := JObj(Set(latestTweets.entries, c.0, Field(ts[0], "id")));
      var content := Saved(files, c.1.file, ts, monitoring);
      if content.None? {
        return true;
      }
      files := files[c.1.file := Parsed(JList(content.value))];
      failed := false;
    }
  }
}
