// src/core/list_scraper.py: turning the tweets of Twitter lists into the
// collector's records. The API's answers come from the client's pagination
// loop; a worker's outcome is its list of records or a failure.

module ListScraper {
  import opened Common
  import opened Pump
  import ApiClient

  // ---------------------------------------------------------------
  // _extract_list_id
  // ---------------------------------------------------------------

  const LIST_URL_MARK: string := "twitter.com/i/lists/"

  /** `s.split(c)[-1]`: the text after the last `c`. */
  function LastSegment(s: string, c: char): (r: string)
    ensures c !in r
    decreases |s|
  {
    if c in s then LastSegment(s[FirstIndex(s, c) + 1..], c) else s
  }

  /** `s.split(c)[0]`: the text before the first `c`. */
  function FirstSegment(s: string, c: char): (r: string)
    ensures c !in r && |r| <= |s| && r == s[..|r|]
  {
    if c in s then s[..FirstIndex(s, c)] else s
  }

  /** `_extract_list_id`. */
  function ExtractListId(s: string): (r: string)
  {
    if IsDigits(Strip(s)) then Strip(s)
    else if Contains(s, LIST_URL_MARK) then Strip(FirstSegment(LastSegment(s, '/'), '?'))
    else Strip(s)
  }

  lemma {:induction false} LastSegmentAfter(p: string, c: char, x: string)
    requires c !in x
    ensures LastSegment(p + [c] + x, c) == x
    decreases |p|
  {
    var s := p + [c] + x;
    assert s[..|p|] == p;
    if c in p {
      var i := FirstIndex(p, c);
      assert s[..i] == p[..i];
      FirstIndexAt(s, c, i);
      assert p[i + 1..] + [c] + x == s[i + 1..];
      LastSegmentAfter(p[i + 1..], c, x);
    } else {
      FirstIndexAt(s, c, |p|);
      assert s[|p| + 1..] == x;
    }
  }

  lemma {:induction false} StripIdempotent(s: string)
    ensures Strip(Strip(s)) == Strip(s)
  {
    var r := Strip(s);
    if r != [] {
      ApiClient.StripPadded([], r, []);
      assert [] + r + [] == r;
    }
  }

  /** A text holding the list-link mark does not strip to a digit string:
      the mark's 'w' survives stripping. */
  lemma StripDigitsNoMark(u: string, at: nat)
    requires OccursAt(u, LIST_URL_MARK, at)
    ensures !IsDigits(Strip(u))
  {
    var k := at + 1;
    assert u[k] == u[at..at + |LIST_URL_MARK|][1] == 'w';
    StripKeeps(u, k);
  }

  /** A text holding the list-link mark is cut at its last '/' and first
      '?' after it. */
  lemma ExtractMarked(u: string, at: nat)
    requires OccursAt(u, LIST_URL_MARK, at)
    ensures ExtractListId(u) == Strip(FirstSegment(LastSegment(u, '/'), '?'))
  {
    StripDigitsNoMark(u, at);
  }

  lemma SplitAt<T>(a: seq<T>, mark: seq<T>, head: seq<T>, x: T, t: seq<T>)
    requires mark == head + [x]
    ensures a + mark + t == (a + head) + [x] + t
  {
  }

  /** Whatever follows the mark, up to a '/', is cut at its first '?'. */
  lemma ExtractMarkedTail(prefix: string, t: string)
    requires '/' !in t
    ensures ExtractListId(prefix + LIST_URL_MARK + t) == Strip(FirstSegment(t, '?'))
  {
    var u := prefix + LIST_URL_MARK + t;
    assert u[|prefix|..|prefix| + |LIST_URL_MARK|] == LIST_URL_MARK;
    ExtractMarked(u, |prefix|);
    var head := "twitter.com/i/lists";
    assert LIST_URL_MARK == head + ['/'];
    SplitAt(prefix, LIST_URL_MARK, head, '/', t);
    LastSegmentAfter(prefix + head, '/', t);
  }

  lemma Assoc4<T>(a: seq<T>, b: seq<T>, c: seq<T>, d: seq<T>)
    ensures a + b + c + d == a + (b + c + d)
  {
  }

  /** The text before the first '?' of `id?query`. */
  lemma QueryTail(id: string, query: string)
    requires '/' !in id + query && '?' !in id
    ensures '/' !in id + "?" + query
    ensures FirstSegment(id + "?" + query, '?') == id
  {
    var t := id + "?" + query;
    assert t == (id + query)[..|id|] + ['?'] + (id + query)[|id|..];
    assert t[..|id|] == id;
    FirstIndexAt(t, '?', |id|);
  }

  /** A list link gives back the list's id, whatever its query string. */
  lemma ExtractFromUrlQuery(prefix: string, id: string, query: string)
    requires IsDigits(id) && '/' !in id + query && '?' !in id
    ensures ExtractListId(prefix + LIST_URL_MARK + id + "?" + query) == id
  {
    QueryTail(id, query);
    ExtractMarkedTail(prefix, id + "?" + query);
    Assoc4(prefix + LIST_URL_MARK, id, "?", query);
    IdStrips(id);
  }

  lemma ExtractFromUrl(prefix: string, id: string)
    requires IsDigits(id) && '/' !in id && '?' !in id
    ensures ExtractListId(prefix + LIST_URL_MARK + id) == id
  {
    ExtractMarkedTail(prefix, id);
    IdStrips(id);
  }

  lemma IdStrips(id: string)
    requires IsDigits(id)
    ensures Strip(id) == id
  {
    assert IsAsciiDigit(id[0]) && IsAsciiDigit(id[|id| - 1]);
    ApiClient.StripPadded([], id, []);
    assert [] + id + [] == id;
  }

  /** Without a '/' there is no list-link mark. */
  lemma NoSlashNoMark(r: string)
    requires '/' !in r
    ensures !Contains(r, LIST_URL_MARK)
  {
    forall i: nat | i <= |r| ensures !OccursAt(r, LIST_URL_MARK, i) {
      if i + |LIST_URL_MARK| <= |r| {
        assert r[i + 11] in r;
        assert r[i..i + |LIST_URL_MARK|][11] == r[i + 11];
      }
    }
  }

  /** A slice of a text without `sub` has no `sub` either. */
  lemma SliceNoOccurrence(s: string, off: nat, r: string, sub: string)
    requires off + |r| <= |s| && r == s[off..off + |r|] && !Contains(s, sub)
    ensures !Contains(r, sub)
  {
    forall i: nat | i <= |r| ensures !OccursAt(r, sub, i) {
      if i + |sub| <= |r| {
        var a, b := r[i..i + |sub|], s[off + i..off + i + |sub|];
        forall k | 0 <= k < |sub| ensures a[k] == b[k] {
          assert r[i + k] == s[off + i + k];
        }
        assert a == b;
        assert !OccursAt(s, sub, off + i);
      }
    }
  }

  /** Stripping does not create the list-link mark. */
  lemma StripNoMark(s: string)
    requires !Contains(s, LIST_URL_MARK)
    ensures !Contains(Strip(s), LIST_URL_MARK)
  {
    var l := LStrip(s);
    var r := Strip(s);
    LStripSuffix(s);
    RStripPrefix(l);
    var off := |s| - |l|;
    assert r == RStrip(l) == l[..|r|];
    assert r == s[off..off + |r|];
    SliceNoOccurrence(s, off, r, LIST_URL_MARK);
  }

  /** An extracted id is extracted unchanged: `_extract_list_id` is
      idempotent. */
  lemma ExtractListIdIdempotent(s: string)
    ensures ExtractListId(ExtractListId(s)) == ExtractListId(s)
  {
    var r := ExtractListId(s);
    if IsDigits(Strip(s)) {
      StripIdempotent(s);
    } else if Contains(s, LIST_URL_MARK) {
      var l := LastSegment(s, '/');
      var m := FirstSegment(l, '?');
      assert '/' !in m by {
        assert m == l[..|m|];
        forall i | 0 <= i < |m| ensures m[i] != '/' {
          assert m[i] == l[i] && l[i] in l;
        }
      }
      StripIn(m);
      assert '/' !in r by {
        forall i | 0 <= i < |r| ensures r[i] != '/' {
          assert r[i] in m;
        }
      }
      NoSlashNoMark(r);
      StripIdempotent(m);
    } else {
      StripNoMark(s);
      StripIdempotent(s);
    }
  }

  // ---------------------------------------------------------------
  // scrape_list
  // ---------------------------------------------------------------

  /** `bool(tweet.get("in_reply_to_status_id")) or
      bool(tweet.get("in_reply_to_user_id"))`, or text starting with '@'. */
  predicate IsReply(e: Record, text: string)
  {
    || Truthy(GetOr(e, "in_reply_to_status_id", JNull))
    || Truthy(GetOr(e, "in_reply_to_user_id", JNull))
    || (text != "" && StartsWith(text, "@"))
  }

  /** `x.get("author", {}).get("userName", "")`; `None` when the author is
      not a dict. */
  function UserName(e: Record): Option<Json>
  {
    var a := GetOr(e, "author", JObj([]));
    if a.JObj? then Some(GetOr(a.entries, "userName", JStr(""))) else None
  }

  const EMBEDDED_KEYS: seq<string> := ["id", "text", "author_handle", "url"]

  /** The `reposted_content` or `quoted_content` dict made of a truthy
      embedded tweet; `None` when it raises. */
  function Embedded(j: Json): Option<Json>
  {
    if !j.JObj? then None
    else match UserName(j.entries)
      case None => None
      case Some(name) =>
        Some(JObj(Zip(EMBEDDED_KEYS, [GetOr(j.entries, "id", JStr("")), GetOr(j.entries, "text", JStr("")),
                                      name, GetOr(j.entries, "url", JStr(""))])))
  }

  const RECORD_KEYS: seq<string> := ["id", "text", "author_handle", "url", "is_repost", "is_quote_tweet"]

  /** The six fields every record has. */
  function BaseValues(e: Record, text: string, name: Json): (vals: seq<Json>)
    ensures |vals| == |RECORD_KEYS|
  {
    [GetOr(e, "id", JStr("")), JStr(text), name, GetOr(e, "url", JStr("")),
     JBool(Truthy(GetOr(e, "retweeted_tweet", JNull))), JBool(Truthy(GetOr(e, "quoted_tweet", JNull)))]
  }

  /** The optional embedded field `key` made from the tweet's `source`
      field, when that is truthy. */
  function WithEmbedded(r: Option<Record>, e: Record, source: string, key: string): Option<Record>
  {
    if r.None? then None
    else
      var v := GetOr(e, source, JNull);
      if !Truthy(v) then r
      else match Embedded(v)
        case None => None
        case Some(c) => Some(r.value + [(key, c)])
  }

  /** The record made of a non-reply tweet: the six base fields, then
      `reposted_content` and `quoted_content` when their sources are truthy;
      `None` when building an embedded dict raises. */
  function Processed(e: Record, text: string, name: Json): Option<Record>
  {
    WithEmbedded(WithEmbedded(Some(Zip(RECORD_KEYS, BaseValues(e, text, name))), e, "retweeted_tweet", "reposted_content"),
                 e, "quoted_tweet", "quoted_content")
  }

  /** What the loop of `scrape_list` does with one tweet: a non-dict, a
      non-string text or a non-dict author raises; a reply is skipped;
      otherwise the record is kept. */
  function TweetPick(t: Json): Pick<Record>
  {
    if !t.JObj? then Raise
    else
      var e := t.entries;
      var raw := GetOr(e, "text", JStr(""));
      if !raw.JStr? then Raise
      else
        var text := Strip(raw.s);
        if IsReply(e, text) then Skip
        else match UserName(e)
          case None => Raise
          case Some(name) =>
            var r := Processed(e, text, name);
            if r.None? then Raise else Keep(r.value)
  }

  function TweetPicks(tweets: seq<Json>): (ps: seq<Pick<Record>>)
    ensures |ps| == |tweets|
    ensures forall k :: 0 <= k < |tweets| ==> ps[k] == TweetPick(tweets[k])
  {
    seq(|tweets|, k requires 0 <= k < |tweets| => TweetPick(tweets[k]))
  }

  /** `scrape_list` after the API call: the records, or `None` when the
      loop raises. */
  function ProcessTweets(tweets: seq<Json>): Option<seq<Record>>
  {
    Picked(TweetPicks(tweets))
  }

  /** A tweet is skipped exactly when it is a dict with a string text and
      is a reply: a truthy `in_reply_to_status_id` or `in_reply_to_user_id`,
      or a stripped text starting with '@'. */
  lemma TweetPickSkips(t: Json)
    ensures TweetPick(t).Skip? <==>
      t.JObj? && GetOr(t.entries, "text", JStr("")).JStr?
      && IsReply(t.entries, Strip(GetOr(t.entries, "text", JStr("")).s))
  {
  }

  /** The optional field's key is added exactly when its source is truthy,
      holding the embedded dict. */
  lemma EmbeddedKeys(e: Record, r: Option<Record>, source: string, key: string)
    requires WithEmbedded(r, e, source, key).Some?
    ensures r.Some?
    ensures var w := WithEmbedded(r, e, source, key).value;
      var v := GetOr(e, source, JNull);
      && (Truthy(v) ==> Embedded(v).Some? && w == r.value + [(key, Embedded(v).value)])
      && (!Truthy(v) ==> w == r.value)
  {
  }

  /** The keys of a built record, in order, and the values of its base
      fields. */
  lemma ProcessedFields(e: Record, text: string, name: Json)
    requires Processed(e, text, name).Some?
    ensures var r := Processed(e, text, name).value;
      && Keys(r) == RECORD_KEYS
                    + (if Truthy(GetOr(e, "retweeted_tweet", JNull)) then ["reposted_content"] else [])
                    + (if Truthy(GetOr(e, "quoted_tweet", JNull)) then ["quoted_content"] else [])
      && Field(r, "id") == GetOr(e, "id", JStr(""))
      && Field(r, "text") == JStr(text)
      && Field(r, "author_handle") == name
      && Field(r, "url") == GetOr(e, "url", JStr(""))
      && Field(r, "is_repost") == JBool(Truthy(GetOr(e, "retweeted_tweet", JNull)))
      && Field(r, "is_quote_tweet") == JBool(Truthy(GetOr(e, "quoted_tweet", JNull)))
  {
    var vals := BaseValues(e, text, name);
    var base := Zip(RECORD_KEYS, vals);
    var r := Processed(e, text, name).value;
    ProcessedExtendsBase(e, text, name);
    ProcessedKeys(e, text, name);
    BaseFields(r, base, vals);
  }

  /** The built record is the base record followed by the embedded
      fields. */
  lemma ProcessedExtendsBase(e: Record, text: string, name: Json)
    requires Processed(e, text, name).Some?
    ensures var r := Processed(e, text, name).value;
      |r| >= 6 && r[..6] == Zip(RECORD_KEYS, BaseValues(e, text, name))
  {
    var base := Zip(RECORD_KEYS, BaseValues(e, text, name));
    var w1 := WithEmbedded(Some(base), e, "retweeted_tweet", "reposted_content");
    EmbeddedKeys(e, w1, "quoted_tweet", "quoted_content");
    EmbeddedKeys(e, Some(base), "retweeted_tweet", "reposted_content");
  }

  /** The keys of a built record, in order. */
  lemma ProcessedKeys(e: Record, text: string, name: Json)
    requires Processed(e, text, name).Some?
    ensures Keys(Processed(e, text, name).value) == RECORD_KEYS
                    + (if Truthy(GetOr(e, "retweeted_tweet", JNull)) then ["reposted_content"] else [])
                    + (if Truthy(GetOr(e, "quoted_tweet", JNull)) then ["quoted_content"] else [])
  {
    var vals := BaseValues(e, text, name);
    var base := Zip(RECORD_KEYS, vals);
    ZipKeys(RECORD_KEYS, vals);
    var w1 := WithEmbedded(Some(base), e, "retweeted_tweet", "reposted_content");
    EmbeddedKeys(e, w1, "quoted_tweet", "quoted_content");
    EmbeddedKeys(e, Some(base), "retweeted_tweet", "reposted_content");
    var r := Processed(e, text, name).value;
    ProcessedExtendsBase(e, text, name);
    KeysAppend(base, r[6..]);
    assert base + r[6..] == r;
  }

  /** A record that starts with the six base fields holds their values. */
  lemma BaseFields(r: Record, base: Record, vals: seq<Json>)
    requires |vals| == 6 && base == Zip(RECORD_KEYS, vals)
    requires |r| >= 6 && r[..6] == base
    ensures Field(r, "id") == vals[0] && Field(r, "text") == vals[1]
    ensures Field(r, "author_handle") == vals[2] && Field(r, "url") == vals[3]
    ensures Field(r, "is_repost") == vals[4] && Field(r, "is_quote_tweet") == vals[5]
  {
    assert DistinctStrings(RECORD_KEYS);
    ZipKeys(RECORD_KEYS, vals);
    forall i | 0 <= i < 6 ensures Field(r, RECORD_KEYS[i]) == vals[i] {
      ZipField(RECORD_KEYS, vals, i);
      GetPrefix(r, base, RECORD_KEYS[i]);
    }
    assert Field(r, RECORD_KEYS[0]) == vals[0];
    assert Field(r, RECORD_KEYS[1]) == vals[1];
    assert Field(r, RECORD_KEYS[2]) == vals[2];
    assert Field(r, RECORD_KEYS[3]) == vals[3];
    assert Field(r, RECORD_KEYS[4]) == vals[4];
    assert Field(r, RECORD_KEYS[5]) == vals[5];
  }

  /** A kept tweet is a dict with a string text that is not a reply and
      whose author is a dict; its record is built from its stripped text and
      the author's `userName`. */
  lemma TweetPickKeeps(t: Json)
    requires TweetPick(t).Keep?
    ensures t.JObj? && GetOr(t.entries, "text", JStr("")).JStr? && UserName(t.entries).Some?
    ensures var e := t.entries;
      var text := Strip(GetOr(e, "text", JStr("")).s);
      && !IsReply(e, text)
      && Processed(e, text, UserName(e).value) == Some(TweetPick(t).value)
  {
  }

  /** Looking a key of the prefix up in the extended record finds the
      prefix's value. */
  lemma {:induction false} GetPrefix(r: Record, base: Record, k: string)
    requires |base| <= |r| && r[..|base|] == base && HasKey(base, k)
    ensures Get(r, k) == Get(base, k)
    decreases |base|
  {
    if base[0].0 != k {
      assert r[1..][..|base| - 1] == base[1..];
      GetPrefix(r[1..], base[1..], k);
    }
  }

  /** `scrape_list`'s loop raises exactly when some tweet raises; otherwise
      it keeps the non-replies in input order, one record each. */
  lemma ProcessTweetsCharacterised(tweets: seq<Json>)
    ensures ProcessTweets(tweets).None? <==> exists k :: 0 <= k < |tweets| && TweetPick(tweets[k]).Raise?
    ensures ProcessTweets(tweets).Some? ==> ProcessTweets(tweets).value == FilterMap(TweetPicks(tweets), KeptOf)
  {
    var ps := TweetPicks(tweets);
    PickedCharacterised(ps);
    if exists k :: 0 <= k < |tweets| && TweetPick(tweets[k]).Raise? {
      var k :| 0 <= k < |tweets| && TweetPick(tweets[k]).Raise?;
      assert ps[k].Raise?;
    }
  }

  /** The loop of `scrape_list`: the records and the number of replies
      filtered out; `None` when it raises. */
  method ScrapeListLoop(tweets: seq<Json>) returns (r: Option<seq<Record>>, filtered: nat)
    ensures r == ProcessTweets(tweets)
    ensures r.Some? ==> |r.value| + filtered == |tweets|
    ensures r.Some? ==> filtered == |tweets| - |FilterMap(TweetPicks(tweets), KeptOf)|
  {
    var ps := TweetPicks(tweets);
    var kept: seq<Record> := [];
    filtered := 0;
    for j := 0 to |tweets|
      invariant Picked(ps[..j]) == Some(kept)
      invariant |kept| + filtered == j
    {
      PickedSnoc(ps, j, kept);
      match TweetPick(tweets[j])
      case Raise =>
        PickedCharacterised(ps);
        assert ps[j].Raise?;
        return None, filtered;
      case Skip =>
        filtered := filtered + 1;
      case Keep(x) =>
        kept := kept + [x];
    }
    assert ps[..|ps|] == ps;
    r := Some(kept);
    PickedCharacterised(ps);
  }

  // ---------------------------------------------------------------
  // scrape_category_lists
  // ---------------------------------------------------------------

  /** The records of the lists whose worker succeeded, in the order the
      workers completed. */
  function CategoryTweets(outcomes: seq<Option<seq<Record>>>): (ts: seq<Record>)
  {
    if outcomes == [] then []
    else
      var prev := CategoryTweets(outcomes[..|outcomes| - 1]);
      match outcomes[|outcomes| - 1]
      case None => prev
      case Some(ts) => prev + ts
  }

  /** Only successful workers contribute, and each contributes all of its
      records, in completion order. */
  lemma {:induction false} CategoryTweetsCharacterised(outcomes: seq<Option<seq<Record>>>)
    ensures CategoryTweets(outcomes) == Flatten(seq(|outcomes|, i requires 0 <= i < |outcomes| =>
                                                  if outcomes[i].Some? then outcomes[i].value else []))
    decreases |outcomes|
  {
    if outcomes != [] {
      var n := |outcomes| - 1;
      var init := outcomes[..n];
      CategoryTweetsCharacterised(init);
      var f := seq(|outcomes|, i requires 0 <= i < |outcomes| => if outcomes[i].Some? then outcomes[i].value else []);
      var g := seq(n, i requires 0 <= i < n => if init[i].Some? then init[i].value else []);
      assert f == g + [f[n]];
      FlattenAppend(g, [f[n]]);
      assert Flatten([f[n]]) == f[n] + Flatten([]);
    }
  }

  /** The collecting loop of `scrape_category_lists`. */
  method ScrapeCategoryLists(outcomes: seq<Option<seq<Record>>>) returns (all: seq<Record>)
    ensures all == CategoryTweets(outcomes)
  {
    all := [];
    for i := 0 to |outcomes|
      invariant all == CategoryTweets(outcomes[..i])
    {
      assert outcomes[..i + 1][..i] == outcomes[..i];
      match outcomes[i]
      case None =>
      case Some(ts) => all := all + ts;
    }
    assert outcomes[..|outcomes|] == outcomes;
  }

  /** `_scrape_list_worker` for one list: a client is made from the
      environment, the id is extracted and the list's pages are fetched and
      processed; `None` is a failed worker (no API key, or the loop raised).
      The list id only enters the requests, which the response trace `rs`
      stands for; a pagination loop that outlasts its trace is taken to have
      stopped there. */
  method ScrapeListWorker(env: map<string, string>, rs: seq<ApiClient.Response>)
    returns (r: Option<seq<Record>>)
    ensures "TWITTER_API_KEY" !in env || env["TWITTER_API_KEY"] == "" ==> r.None?
    ensures "TWITTER_API_KEY" in env && env["TWITTER_API_KEY"] != "" ==>
      r == ProcessTweets(ApiClient.Paginate(rs, ApiClient.Fetch([], None, 0, []),
                                            ApiClient.EnvInt(env, "MAX_RETRY_ATTEMPTS", 5)).f.tweets)
  {
    var client := ApiClient.TwitterApiClient.Create(env);
    if client.None? {
      return None;
    }
    var tweets, sent, done := client.value.GetListTweets(rs);
    var filtered;
    r, filtered := ScrapeListLoop(tweets);
  }
}
