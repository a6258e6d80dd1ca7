// What slack_pump.py and kol_pump.py share line for line: finding tweet links
// in a Slack message (`_extract_twitter_urls`), the keyword gate at the head of
// `handle_message`, and `_scrape_tweets`, which asks Apify for the linked
// tweets behind `with_retry(RetryConfig(max_retries=3, base_delay=2.0))`.
// Apify is an oracle: `runs[k]` is what the k-th invocation gets back.

module Pump {
  import opened Common
  import opened ErrorHandler

  /** The configuration keys both pumps' `__init__` insist on. */
  const REQUIRED_CONFIG_KEYS: seq<string> := ["slack_bot_token", "slack_app_token", "apify_api_token"]

  /** `all(key in config for key in [...])`: a pump can be built exactly
      when the configuration has the three keys; otherwise `__init__`
      raises `ValueError`. */
  predicate HasRequiredKeys(config: set<string>)
  {
    forall k :: k in REQUIRED_CONFIG_KEYS ==> k in config
  }

  // ---------------------------------------------------------------
  // re.findall(r'https?://(?:www\.)?(?:twitter\.com|x\.com)/\S+', text)
  // ---------------------------------------------------------------

  const SCHEMES: set<string> := {"http://", "https://"}
  const WWW: set<string> := {"", "www."}
  const HOSTS: set<string> := {"twitter.com/", "x.com/"}

  /** The eight literal texts `https?://(?:www\.)?(?:twitter\.com|x\.com)/`
      can match. */
  const LINK_OPENINGS: set<string> :=
    set scheme, www, host | scheme in SCHEMES && www in WWW && host in HOSTS :: scheme + www + host

  /** The end of `https?://` at `i`. */
  function SchemeEnd(s: string, i: nat): Option<nat>
  {
    if OccursAt(s, "https://", i) then Some(i + 8)
    else if OccursAt(s, "http://", i) then Some(i + 7)
    else None
  }

  /** The end of `(?:www\.)?(?:twitter\.com|x\.com)/` at `j`. Backtracking
      out of "www." never helps: the host would then start with 'w'. */
  function HostEnd(s: string, j: nat): Option<nat>
  {
    var k := if OccursAt(s, "www.", j) then j + 4 else j;
    if OccursAt(s, "twitter.com/", k) then Some(k + 12)
    else if OccursAt(s, "x.com/", k) then Some(k + 6)
    else None
  }

  /** The end of the longest run of `inRun` characters from `p`. */
  function RunEnd(s: string, p: nat, inRun: char -> bool): (e: nat)
    requires p <= |s|
    ensures p <= e <= |s|
    ensures forall q :: p <= q < e ==> inRun(s[q])
    ensures e == |s| || !inRun(s[e])
    decreases |s| - p
  {
    if p == |s| || !inRun(s[p]) then p else RunEnd(s, p + 1, inRun)
  }

  /** `\S`. */
  predicate NotSpace(c: char)
  {
    !IsSpace(c)
  }

  /** The end of the match that starts at `i`, if one does. */
  function UrlMatchAt(s: string, i: nat): (e: Option<nat>)
    ensures e.Some? ==> i < e.value <= |s|
  {
    match SchemeEnd(s, i)
    case None => None
    case Some(j) =>
      match HostEnd(s, j)
      case None => None
      case Some(p) => if p < |s| && NotSpace(s[p]) then Some(RunEnd(s, p, NotSpace)) else None
  }

  /** `s[i..]` starts with `a + b` exactly when it starts with `a` and `b` follows. */
  lemma OccursAtConcat(s: string, a: string, b: string, i: nat)
    ensures OccursAt(s, a + b, i) <==> OccursAt(s, a, i) && OccursAt(s, b, i + |a|)
  {
    if OccursAt(s, a, i) && OccursAt(s, b, i + |a|) {
      assert s[i..i + |a + b|] == s[i..i + |a|] + s[i + |a|..i + |a| + |b|];
    }
    if OccursAt(s, a + b, i) {
      assert s[i..i + |a|] == (a + b)[..|a|];
      assert s[i + |a|..i + |a| + |b|] == (a + b)[|a|..];
    }
  }

  /** The opening the pattern matches at `i`: scheme, optional "www.", host. */
  lemma OpeningOfMatch(s: string, i: nat) returns (o: string)
    requires UrlMatchAt(s, i).Some?
    ensures o in LINK_OPENINGS && OccursAt(s, o, i)
    ensures i + |o| < UrlMatchAt(s, i).value && !IsSpace(s[i + |o|])
  {
    var scheme := SchemeAt(s, i);
    var j := i + |scheme|;
    var www, host := HostAt(s, j);
    OccursAtConcat(s, scheme, www, i);
    OccursAtConcat(s, scheme + www, host, i);
    o := scheme + www + host;
    InOpenings(scheme, www, host);
  }

  /** The scheme `https?://` matched at `i`. */
  lemma SchemeAt(s: string, i: nat) returns (scheme: string)
    requires SchemeEnd(s, i).Some?
    ensures scheme in SCHEMES && OccursAt(s, scheme, i) && SchemeEnd(s, i) == Some(i + |scheme|)
  {
    scheme := if OccursAt(s, "https://", i) then "https://" else "http://";
  }

  /** The optional "www." and the host matched at `j`. */
  lemma HostAt(s: string, j: nat) returns (www: string, host: string)
    requires HostEnd(s, j).Some?
    ensures www in WWW && host in HOSTS && OccursAt(s, www, j) && OccursAt(s, host, j + |www|)
    ensures HostEnd(s, j) == Some(j + |www| + |host|)
  {
    www := if OccursAt(s, "www.", j) then "www." else "";
    var k := j + |www|;
    host := if OccursAt(s, "twitter.com/", k) then "twitter.com/" else "x.com/";
    assert www == "" ==> OccursAt(s, www, j) by {
      if www == "" {
        assert s[j..j + 0] == [];
      }
    }
  }

  lemma InOpenings(scheme: string, www: string, host: string)
    requires scheme in SCHEMES && www in WWW && host in HOSTS
    ensures scheme + www + host in LINK_OPENINGS
  {
  }

  /** A match starts at `i` exactly when one of the eight openings occurs
      there followed by a non-blank character. */
  lemma {:induction false} UrlMatchAtCharacterised(s: string, i: nat)
    ensures UrlMatchAt(s, i).Some? <==>
      exists o :: o in LINK_OPENINGS && OccursAt(s, o, i) && i + |o| < |s| && !IsSpace(s[i + |o|])
    ensures UrlMatchAt(s, i).Some? ==>
      var e := UrlMatchAt(s, i).value; e == |s| || IsSpace(s[e])
  {
    if UrlMatchAt(s, i).Some? {
      var o := OpeningOfMatch(s, i);
      assert i + |o| < |s| && !IsSpace(s[i + |o|]);
    }
    if o :| o in LINK_OPENINGS && OccursAt(s, o, i) && i + |o| < |s| && !IsSpace(s[i + |o|]) {
      OpeningMatches(s, i, o);
    }
  }

  /** Each of the eight openings, followed by a non-blank, starts a match. */
  lemma OpeningMatches(s: string, i: nat, o: string)
    requires o in LINK_OPENINGS && OccursAt(s, o, i) && i + |o| < |s| && !IsSpace(s[i + |o|])
    ensures UrlMatchAt(s, i).Some?
  {
    var scheme, www, host :| scheme in SCHEMES && www in WWW && host in HOSTS && o == scheme + www + host;
    PartsMatch(s, i, scheme, www, host);
  }

  lemma PartsMatch(s: string, i: nat, scheme: string, www: string, host: string)
    requires scheme in SCHEMES && www in WWW && host in HOSTS
    requires OccursAt(s, scheme + www + host, i)
    requires i + |scheme + www + host| < |s| && !IsSpace(s[i + |scheme + www + host|])
    ensures UrlMatchAt(s, i).Some?
  {
    OccursAtConcat(s, scheme + www, host, i);
    OccursAtConcat(s, scheme, www, i);
    SchemeEndOf(s, i, scheme);
    HostEndOf(s, i + |scheme|, www, host);
  }

  lemma SchemeEndOf(s: string, i: nat, scheme: string)
    requires scheme in SCHEMES && OccursAt(s, scheme, i)
    ensures SchemeEnd(s, i) == Some(i + |scheme|)
  {
    if scheme == "http://" {
      assert s[i + 4] == s[i..i + 7][4];
    }
  }

  lemma HostEndOf(s: string, j: nat, www: string, host: string)
    requires www in WWW && host in HOSTS
    requires OccursAt(s, www, j) && OccursAt(s, host, j + |www|)
    ensures HostEnd(s, j) == Some(j + |www| + |host|)
  {
    var k := j + |www|;
    assert s[k] == s[k..k + |host|][0];
    if www == "" {
      assert s[j] != 'w';
    }
  }

  /** The spans `re.findall` reports from `from` on: the scan takes a match
      where one starts and resumes at its end. */
  function Spans(s: string, from: nat): (r: seq<(nat, nat)>)
    requires from <= |s|
    ensures forall k :: 0 <= k < |r| ==> from <= r[k].0 && UrlMatchAt(s, r[k].0) == Some(r[k].1)
    ensures forall k :: 0 < k < |r| ==> r[k - 1].1 <= r[k].0
    decreases |s| - from
  {
    if from == |s| then []
    else match UrlMatchAt(s, from)
      case Some(e) => [(from, e)] + Spans(s, e)
      case None => Spans(s, from + 1)
  }

  /** Position `q` lies in one of the spans. */
  predicate Covered(spans: seq<(nat, nat)>, q: nat)
  {
    exists k :: 0 <= k < |spans| && spans[k].0 <= q < spans[k].1
  }

  lemma CoveredCons(x: (nat, nat), spans: seq<(nat, nat)>, q: nat)
    requires x.0 <= q < x.1 || Covered(spans, q)
    ensures Covered([x] + spans, q)
  {
    if x.0 <= q < x.1 {
      assert ([x] + spans)[0] == x;
    } else {
      var k :| 0 <= k < |spans| && spans[k].0 <= q < spans[k].1;
      assert ([x] + spans)[k + 1] == spans[k];
    }
  }

  /** The scan is leftmost: every position where a match could start is
      the start of a reported span or lies inside one. */
  lemma {:induction false} SpansLeftmost(s: string, from: nat, q: nat)
    requires from <= q < |s| && UrlMatchAt(s, q).Some?
    ensures Covered(Spans(s, from), q)
    decreases |s| - from
  {
    var m := UrlMatchAt(s, from);
    if m.Some? {
      var e := m.value;
      assert Spans(s, from) == [(from, e)] + Spans(s, e);
      if e <= q {
        SpansLeftmost(s, e, q);
      }
      CoveredCons((from, e), Spans(s, e), q);
    } else {
      assert from != q;
      SpansLeftmost(s, from + 1, q);
    }
  }

  /** `re.findall(pattern, text)`. */
  function FoundUrls(text: string): (r: seq<string>)
  {
    var sp := Spans(text, 0);
    seq(|sp|, k requires 0 <= k < |sp| => text[sp[k].0..sp[k].1])
  }

  /** The characters `strip('<>')` removes. */
  const ANGLES: set<char> := {'<', '>'}

  /** `[url.strip('<>') for url in urls]`. */
  function CleanUrls(urls: seq<string>): (r: seq<string>)
    ensures |r| == |urls|
  {
    seq(|urls|, k requires 0 <= k < |urls| => StripChars(urls[k], ANGLES))
  }

  /** `_extract_twitter_urls`. */
  function ExtractTwitterUrls(text: string): seq<string>
  {
    if text == [] then [] else CleanUrls(FoundUrls(text))
  }

  /** `u` is the match spanning `sp` in `text` less some trailing
      characters: it keeps a whole opening, and `strip('<>')` leaves it as it is. */
  predicate LinkOfSpan(text: string, sp: (nat, nat), u: string)
  {
    && sp.0 + |u| <= sp.1 <= |text|
    && u == text[sp.0..sp.0 + |u|]
    && (exists o :: o in LINK_OPENINGS && StartsWith(u, o))
    && StripChars(u, ANGLES) == u
  }

  /** The link `strip('<>')` makes of the match from `i` to `e`. */
  lemma ExtractedLink(text: string, i: nat, e: nat)
    requires UrlMatchAt(text, i) == Some(e)
    ensures LinkOfSpan(text, (i, e), StripChars(text[i..e], ANGLES))
  {
    var m := text[i..e];
    var o := OpeningOfMatch(text, i);
    assert m[..|o|] == o;
    StrippedLink(m, o);
    SliceOfSlice(text, i, e, |StripChars(m, ANGLES)|);
  }

  lemma SliceOfSlice(s: string, i: nat, e: nat, n: nat)
    requires i <= e <= |s| && n <= e - i
    ensures s[i..e][..n] == s[i..i + n]
  {
  }

  /** Stripping a match that starts with opening `o` keeps `o`, and leaves
      a string stripping does not change. */
  lemma StrippedLink(m: string, o: string)
    requires o in LINK_OPENINGS && |o| <= |m| && m[..|o|] == o
    ensures var u := StripChars(m, ANGLES);
      && |o| <= |u| && u == m[..|u|] && StartsWith(u, o) && StripChars(u, ANGLES) == u
  {
    OpeningEnds(o);
    assert m[0] == o[0] && m[|o| - 1] == o[|o| - 1];
    StripCharsKeepsPrefix(m, ANGLES, |o|);
    var u := StripChars(m, ANGLES);
    assert u[..|o|] == o;
    assert u[0] == o[0];
    StripCharsFixed(u, ANGLES);
  }

  /** The k-th extracted link. */
  lemma ExtractedUrlShape(text: string, k: nat)
    requires k < |Spans(text, 0)|
    ensures k < |ExtractTwitterUrls(text)|
    ensures LinkOfSpan(text, Spans(text, 0)[k], ExtractTwitterUrls(text)[k])
  {
    var sp := Spans(text, 0);
    assert text != [];
    assert ExtractTwitterUrls(text)[k] == StripChars(text[sp[k].0..sp[k].1], ANGLES);
    ExtractedLink(text, sp[k].0, sp[k].1);
  }

  /** A string that neither starts nor ends with a stripped character is
      left as it is. */
  lemma StripCharsFixed(s: string, cs: set<char>)
    requires s != [] && s[0] !in cs && s[|s| - 1] !in cs
    ensures StripChars(s, cs) == s
  {
  }

  /** Stripping a string that does not start with a stripped character
      only shortens it from the right, and never past a kept character. */
  lemma {:induction false} StripCharsKeepsPrefix(u: string, cs: set<char>, n: nat)
    requires 0 < n <= |u| && u[0] !in cs && u[n - 1] !in cs
    ensures n <= |StripChars(u, cs)|
    ensures StripChars(u, cs) == u[..|StripChars(u, cs)|]
    decreases |u|
  {
    if u[|u| - 1] in cs {
      StripCharsKeepsPrefix(u[..|u| - 1], cs, n);
    }
  }

  /** Every opening starts with 'h' and ends with '/', which `strip('<>')` keeps. */
  lemma OpeningEnds(o: string)
    requires o in LINK_OPENINGS
    ensures |o| > 0 && o[0] == 'h' && o[|o| - 1] == '/'
  {
    var scheme, www, host :| scheme in SCHEMES && www in WWW && host in HOSTS && o == scheme + www + host;
    assert o[0] == scheme[0];
    assert o[|o| - 1] == host[|host| - 1];
  }

  /** Each extracted link is its match with trailing angle brackets (from
      Slack's `<url>` formatting) removed: it keeps the whole opening, and
      stripping it again, as `_scrape_tweets` does, changes nothing. */
  lemma ExtractedUrlsShape(text: string)
    ensures |ExtractTwitterUrls(text)| == |Spans(text, 0)|
    ensures forall k :: 0 <= k < |ExtractTwitterUrls(text)| ==>
      LinkOfSpan(text, Spans(text, 0)[k], ExtractTwitterUrls(text)[k])
    ensures CleanUrls(ExtractTwitterUrls(text)) == ExtractTwitterUrls(text)
  {
    var r := ExtractTwitterUrls(text);
    forall k | 0 <= k < |r|
      ensures LinkOfSpan(text, Spans(text, 0)[k], r[k])
    {
      ExtractedUrlShape(text, k);
    }
  }

  // ---------------------------------------------------------------
  // re.search(r'/status/(\d+)', url).group(1)
  // ---------------------------------------------------------------

  /** "/status/" followed by a digit at `i`. */
  predicate IdAt(u: string, i: nat)
  {
    OccursAt(u, "/status/", i) && i + 8 < |u| && IsAsciiDigit(u[i + 8])
  }

  function StatusIdFrom(u: string, i: nat): Option<string>
    requires i <= |u|
    decreases |u| - i
  {
    if i == |u| then None
    else if IdAt(u, i) then Some(u[i + 8..RunEnd(u, i + 8, IsAsciiDigit)])
    else StatusIdFrom(u, i + 1)
  }

  /** The tweet id in a link, if any. */
  function StatusId(u: string): Option<string>
  {
    StatusIdFrom(u, 0)
  }

  /** Where the search from `i` finds its id. */
  lemma {:induction false} StatusIdFromAt(u: string, i: nat) returns (j: nat)
    requires i <= |u| && StatusIdFrom(u, i).Some?
    ensures i <= j && IdAt(u, j) && (forall j' :: i <= j' < j ==> !IdAt(u, j'))
    ensures StatusIdFrom(u, i).value == u[j + 8..RunEnd(u, j + 8, IsAsciiDigit)]
    decreases |u| - i
  {
    if IdAt(u, i) {
      j := i;
    } else {
      j := StatusIdFromAt(u, i + 1);
    }
  }

  /** A search from `i` that finds nothing passed no id. */
  lemma {:induction false} StatusIdFromNone(u: string, i: nat)
    requires i <= |u| && StatusIdFrom(u, i).None?
    ensures forall j :: i <= j ==> !IdAt(u, j)
    decreases |u| - i
  {
    if i < |u| {
      StatusIdFromNone(u, i + 1);
    }
  }

  /** `re.search` finds the first "/status/" followed by a digit, and the
      group is the whole run of digits after it. */
  lemma StatusIdCharacterised(u: string)
    ensures StatusId(u).None? <==> forall j :: !IdAt(u, j)
    ensures StatusId(u).Some? ==>
      exists j: nat :: IdAt(u, j) && (forall j': nat :: j' < j ==> !IdAt(u, j'))
                && StatusId(u).value == u[j + 8..RunEnd(u, j + 8, IsAsciiDigit)]
    ensures StatusId(u).Some? ==> IsDigits(StatusId(u).value)
  {
    if StatusId(u).None? {
      StatusIdFromNone(u, 0);
    } else {
      var j := StatusIdFromAt(u, 0);
      var e := RunEnd(u, j + 8, IsAsciiDigit);
      var d := u[j + 8..e];
      assert IsDigits(d) by {
        forall q | 0 <= q < |d| ensures IsAsciiDigit(d[q]) {
          assert d[q] == u[j + 8 + q];
        }
      }
    }
  }

  /** The id loop of `_scrape_tweets`: the ids of the cleaned links, in order. */
  method TweetIds(urls: seq<string>) returns (ids: seq<string>)
    ensures ids == FilterMap(CleanUrls(urls), StatusId)
  {
    var clean := CleanUrls(urls);
    ids := [];
    for j := 0 to |clean|
      invariant ids == FilterMap(clean[..j], StatusId)
    {
      FilterMapSnoc(clean, j, StatusId);
      match StatusId(clean[j])
      case Some(id) =>
        ids := ids + [id];
      case None =>
    }
    assert clean[..|clean|] == clean;
  }

  /** Every id handed to Apify is a run of digits. */
  lemma TweetIdsAreDigits(urls: seq<string>)
    ensures forall k :: 0 <= k < |FilterMap(CleanUrls(urls), StatusId)| ==>
      IsDigits(FilterMap(CleanUrls(urls), StatusId)[k])
  {
    var clean := CleanUrls(urls);
    FilterMapSound(clean, StatusId);
    forall k | 0 <= k < |FilterMap(clean, StatusId)|
      ensures IsDigits(FilterMap(clean, StatusId)[k])
    {
      var y := FilterMap(clean, StatusId)[k];
      assert IsImage(clean, StatusId, y);
      var j :| 0 <= j < |clean| && StatusId(clean[j]) == Some(y);
      StatusIdCharacterised(clean[j]);
    }
  }

  // ---------------------------------------------------------------
  // Loops that keep, skip, or raise on each element
  // ---------------------------------------------------------------

  /** What a loop does with one element: leaves it out, appends a value,
      or raises and abandons the whole loop. */
  datatype Pick<T> = Skip | Keep(value: T) | Raise

  /** The list such a loop builds, or `None` when it raises. */
  function Picked<T>(ps: seq<Pick<T>>): Option<seq<T>>
    decreases |ps|
  {
    if ps == [] then Some([])
    else match Picked(ps[..|ps| - 1])
      case None => None
      case Some(kept) =>
        match ps[|ps| - 1]
        case Raise => None
        case Skip => Some(kept)
        case Keep(x) => Some(kept + [x])
  }

  function KeptOf<T>(p: Pick<T>): Option<T>
  {
    if p.Keep? then Some(p.value) else None
  }

  /** One more element visited by such a loop, when it has not raised. */
  lemma PickedSnoc<T>(ps: seq<Pick<T>>, j: nat, kept: seq<T>)
    requires j < |ps| && Picked(ps[..j]) == Some(kept)
    ensures Picked(ps[..j + 1]) == match ps[j]
      case Raise => None
      case Skip => Some(kept)
      case Keep(x) => Some(kept + [x])
  {
    assert ps[..j + 1][..j] == ps[..j];
  }

  /** The loop raises exactly when some element raises, and otherwise keeps
      every kept value, in order. */
  lemma {:induction false} PickedCharacterised<T>(ps: seq<Pick<T>>)
    ensures Picked(ps).None? <==> exists k :: 0 <= k < |ps| && ps[k].Raise?
    ensures Picked(ps).Some? ==> Picked(ps).value == FilterMap(ps, KeptOf)
    decreases |ps|
  {
    if ps != [] {
      var init := ps[..|ps| - 1];
      PickedCharacterised(init);
      if k :| 0 <= k < |init| && init[k].Raise? {
        assert ps[k].Raise?;
      }
      if k :| 0 <= k < |ps| && ps[k].Raise? {
        if k < |init| {
          assert init[k].Raise?;
        }
      }
    }
  }

  /** A loop that never skips nor raises keeps one value per element. */
  lemma {:induction false} PickedAllKept<T>(ps: seq<Pick<T>>)
    requires forall k :: 0 <= k < |ps| ==> ps[k].Keep?
    ensures Picked(ps).Some? && |Picked(ps).value| == |ps|
    ensures forall k :: 0 <= k < |ps| ==> Picked(ps).value[k] == ps[k].value
    decreases |ps|
  {
    if ps != [] {
      var init := ps[..|ps| - 1];
      PickedAllKept(init);
    }
  }

  /** The loop over a whole sequence, raising as soon as an element does. */
  method PickAll<T>(ps: seq<Pick<T>>) returns (r: Option<seq<T>>)
    ensures r == Picked(ps)
  {
    var kept: seq<T> := [];
    for j := 0 to |ps|
      invariant Picked(ps[..j]) == Some(kept)
    {
      PickedSnoc(ps, j, kept);
      match ps[j]
      case Raise =>
        PickedCharacterised(ps);
        return None;
      case Skip =>
      case Keep(x) =>
        kept := kept + [x];
    }
    assert ps[..|ps|] == ps;
    r := Some(kept);
  }

  // ---------------------------------------------------------------
  // _scrape_tweets
  // ---------------------------------------------------------------

  /** The keys of the `tweet_data` dict built for each dataset item. */
  const TWEET_KEYS: seq<string> := ["text", "id", "url", "author", "created_at", "quoted_tweet", "retweeted_tweet"]

  /** `item.get('author', {}).get('userName', '') if item.get('author') else ''`
      for an author that is falsy or a dict. */
  function AuthorName(e: Record): Json
  {
    var author := Field(e, "author");
    if Truthy(author) && author.JObj? then GetOr(author.entries, "userName", JStr("")) else JStr("")
  }

  /** The values of `tweet_data`, in key order. */
  function TweetValues(e: Record): (vals: seq<Json>)
    ensures |vals| == |TWEET_KEYS|
  {
    [GetOr(e, "text", JStr("")), GetOr(e, "id", JStr("")), GetOr(e, "url", JStr("")), AuthorName(e),
     GetOr(e, "createdAt", JStr("")), GetOr(e, "quoted_tweet", JObj([])), GetOr(e, "retweeted_tweet", JObj([]))]
  }

  /** `tweet_data` for a dict item; `None` when `.get('userName', '')` is
      called on a truthy author that is not a dict and raises. */
  function TweetData(e: Record): Option<Record>
  {
    var author := Field(e, "author");
    if Truthy(author) && !author.JObj? then None else Some(TweetRecord(e))
  }

  /** The dict `tweet_data` when building it does not raise. */
  function TweetRecord(e: Record): Record
  {
    Zip(TWEET_KEYS, TweetValues(e))
  }

  /** What the item loop does with one dataset item. The check reads
      `tweet_data['text']`, `['author']` and `['id']`, the first, fourth and
      second of its values. */
  function ItemPick(item: Json): Pick<Record>
  {
    if !item.JObj? then Skip
    else match TweetData(item.entries)
      case None => Raise
      case Some(t) =>
        var vals := TweetValues(item.entries);
        if Truthy(vals[0]) && Truthy(vals[3]) && Truthy(vals[1]) then Keep(t) else Skip
  }

  /** A non-dict item is skipped; a dict item raises exactly when its author
      is truthy but not a dict, and is otherwise kept exactly when its text,
      its author's `userName` and its id are all truthy. */
  lemma ItemPickCharacterised(item: Json)
    ensures !item.JObj? ==> ItemPick(item) == Skip
    ensures ItemPick(item).Raise? <==>
      item.JObj? && Truthy(Field(item.entries, "author")) && !Field(item.entries, "author").JObj?
    ensures ItemPick(item).Keep? <==>
      && item.JObj? && !ItemPick(item).Raise?
      && Truthy(GetOr(item.entries, "text", JStr(""))) && Truthy(AuthorName(item.entries))
      && Truthy(GetOr(item.entries, "id", JStr("")))
  {
    if item.JObj? {
      var vals := TweetValues(item.entries);
      assert vals[0] == GetOr(item.entries, "text", JStr("")) && vals[1] == GetOr(item.entries, "id", JStr(""));
      assert vals[3] == AuthorName(item.entries);
    }
  }

  /** A kept `tweet_data` carries the item's own values under the seven keys. */
  lemma ItemPickKeeps(item: Json)
    requires ItemPick(item).Keep?
    ensures var t := ItemPick(item).value;
      && Keys(t) == TWEET_KEYS
      && Field(t, "text") == GetOr(item.entries, "text", JStr(""))
      && Field(t, "id") == GetOr(item.entries, "id", JStr(""))
      && Field(t, "url") == GetOr(item.entries, "url", JStr(""))
      && Field(t, "author") == AuthorName(item.entries)
      && Truthy(Field(t, "text")) && Truthy(Field(t, "author")) && Truthy(Field(t, "id"))
  {
    ItemPickKept(item);
    TweetDataFields(item.entries);
  }

  lemma ItemPickKept(item: Json)
    requires ItemPick(item).Keep?
    ensures item.JObj? && ItemPick(item).value == TweetRecord(item.entries)
    ensures Truthy(GetOr(item.entries, "text", JStr(""))) && Truthy(AuthorName(item.entries))
      && Truthy(GetOr(item.entries, "id", JStr("")))
  {
    var vals := TweetValues(item.entries);
    assert vals[0] == GetOr(item.entries, "text", JStr("")) && vals[1] == GetOr(item.entries, "id", JStr(""));
    assert vals[3] == AuthorName(item.entries);
  }

  lemma TweetKeysDistinct()
    ensures DistinctStrings(TWEET_KEYS)
  {
  }

  lemma TweetDataFields(e: Record)
    ensures var t := TweetRecord(e);
      && Keys(t) == TWEET_KEYS
      && Field(t, "text") == GetOr(e, "text", JStr(""))
      && Field(t, "id") == GetOr(e, "id", JStr(""))
      && Field(t, "url") == GetOr(e, "url", JStr(""))
      && Field(t, "author") == AuthorName(e)
  {
    var vals := TweetValues(e);
    TweetKeysDistinct();
    ZipKeys(TWEET_KEYS, vals);
    ZipField(TWEET_KEYS, vals, 0);
    ZipField(TWEET_KEYS, vals, 1);
    ZipField(TWEET_KEYS, vals, 2);
    ZipField(TWEET_KEYS, vals, 3);
  }

  function ItemPicks(items: seq<Json>): (ps: seq<Pick<Record>>)
    ensures |ps| == |items|
  {
    seq(|items|, k requires 0 <= k < |items| => ItemPick(items[k]))
  }

  /** What one invocation gets from Apify: no usable run (a falsy result,
      one without `defaultDatasetId`, or a call that raised), or the items
      of the run's dataset. */
  datatype ApifyRun = NoRun | Dataset(items: seq<Json>)

  function RunAt(runs: seq<ApifyRun>, k: nat): ApifyRun
  {
    if k < |runs| then runs[k] else NoRun
  }

  const API_ERROR: string := "APIError"
  const NO_IDS: string := "No valid tweet IDs found in URLs"
  const NO_RUN: string := "Failed to start Apify run or get dataset ID"
  const NO_TWEETS: string := "No valid tweets found in the dataset"
  const BAD_AUTHOR: string := "an item's author is not an object"

  /** Every error inside `_scrape_tweets` is re-raised as an `APIError`. */
  function ScrapeFailure(reason: string): Outcome<seq<Record>>
  {
    Fail(API_ERROR, "Failed to scrape tweets: " + reason)
  }

  /** One invocation of `_scrape_tweets`. */
  function ScrapeOnce(urls: seq<string>, run: ApifyRun): Outcome<seq<Record>>
  {
    if FilterMap(CleanUrls(urls), StatusId) == [] then ScrapeFailure(NO_IDS)
    else match run
      case NoRun => ScrapeFailure(NO_RUN)
      case Dataset(items) =>
        match Picked(ItemPicks(items))
        case None => ScrapeFailure(BAD_AUTHOR)
        case Some(kept) => if kept == [] then ScrapeFailure(NO_TWEETS) else Return(kept)
  }

  /** One invocation succeeds exactly when some link carries an id, Apify
      returned a dataset, no item raised and some item was kept; it then
      returns the kept items in dataset order. Every failure is an `APIError`. */
  lemma ScrapeOnceCharacterised(urls: seq<string>, run: ApifyRun)
    ensures ScrapeOnce(urls, run).Fail? ==> ScrapeOnce(urls, run).kind == API_ERROR
    ensures ScrapeOnce(urls, run).Return? <==>
      && FilterMap(CleanUrls(urls), StatusId) != []
      && run.Dataset?
      && (forall k :: 0 <= k < |run.items| ==> !ItemPick(run.items[k]).Raise?)
      && FilterMap(ItemPicks(run.items), KeptOf) != []
    ensures ScrapeOnce(urls, run).Return? ==>
      ScrapeOnce(urls, run).value == FilterMap(ItemPicks(run.items), KeptOf)
  {
    if run.Dataset? {
      var ps := ItemPicks(run.items);
      PickedCharacterised(ps);
      if k :| 0 <= k < |run.items| && ItemPick(run.items[k]).Raise? {
        assert ps[k].Raise?;
      }
    }
  }

  /** Every tweet a successful invocation returns passed validation. */
  lemma ScrapedTweetsValid(urls: seq<string>, run: ApifyRun)
    requires ScrapeOnce(urls, run).Return?
    ensures forall k :: 0 <= k < |ScrapeOnce(urls, run).value| ==>
      var t := ScrapeOnce(urls, run).value[k];
      Keys(t) == TWEET_KEYS && Truthy(Field(t, "text")) && Truthy(Field(t, "author")) && Truthy(Field(t, "id"))
  {
    ScrapeOnceCharacterised(urls, run);
    var ps := ItemPicks(run.items);
    var kept := FilterMap(ps, KeptOf);
    FilterMapSound(ps, KeptOf);
    forall k | 0 <= k < |kept|
      ensures Keys(kept[k]) == TWEET_KEYS && Truthy(Field(kept[k], "text"))
      ensures Truthy(Field(kept[k], "author")) && Truthy(Field(kept[k], "id"))
    {
      assert IsImage(ps, KeptOf, kept[k]);
      var j :| 0 <= j < |ps| && KeptOf(ps[j]) == Some(kept[k]);
      assert ps[j] == ItemPick(run.items[j]);
      ItemPickKeeps(run.items[j]);
    }
  }

  /** The body of `_scrape_tweets`, with its two loops. */
  method ScrapeAttempt(urls: seq<string>, run: ApifyRun) returns (o: Outcome<seq<Record>>)
    ensures o == ScrapeOnce(urls, run)
  {
    var ids := TweetIds(urls);
    if ids == [] {
      return ScrapeFailure(NO_IDS);
    }
    match run
    case NoRun =>
      o := ScrapeFailure(NO_RUN);
    case Dataset(items) =>
      var kept := PickAll(ItemPicks(items));
      if kept.None? {
        o := ScrapeFailure(BAD_AUTHOR);
      } else if kept.value == [] {
        o := ScrapeFailure(NO_TWEETS);
      } else {
        o := Return(kept.value);
      }
  }

  /** The invocations `with_retry` makes of `_scrape_tweets`. */
  function ScrapeCalls(urls: seq<string>, runs: seq<ApifyRun>): nat -> Outcome<seq<Record>>
  {
    (k: nat) => ScrapeOnce(urls, RunAt(runs, k))
  }

  /** `_scrape_tweets` as the pumps call it: at most three invocations,
      every error caught. */
  function ScrapeTweetsSpec(urls: seq<string>, runs: seq<ApifyRun>): RetryResult<seq<Record>>
  {
    WithRetrySpec(ScrapeCalls(urls, runs), 3, CatchAll)
  }

  /** Links without a tweet id fail all three invocations, whatever Apify
      would have answered. */
  lemma ScrapeWithoutIds(urls: seq<string>, runs: seq<ApifyRun>)
    requires FilterMap(CleanUrls(urls), StatusId) == []
    ensures ScrapeTweetsSpec(urls, runs) == Exhausted(Some("Failed to scrape tweets: " + NO_IDS))
  {
  }

  /** The scrape never lets an error through unretried; when it succeeds it
      returns, from the first run that produced one, a non-empty list of
      validated tweets, every earlier invocation having failed. */
  lemma ScrapeTweetsOutcome(urls: seq<string>, runs: seq<ApifyRun>)
    ensures !ScrapeTweetsSpec(urls, runs).Propagated?
    ensures ScrapeTweetsSpec(urls, runs).Returned? ==>
      var r := ScrapeTweetsSpec(urls, runs);
      && 1 <= r.invocations <= 3
      && r.value != []
      && r.value == ScrapeOnce(urls, RunAt(runs, r.invocations - 1)).value
      && (forall j: nat :: j < r.invocations - 1 ==> ScrapeOnce(urls, RunAt(runs, j)).Fail?)
      && forall k :: 0 <= k < |r.value| ==> Truthy(Field(r.value[k], "text")) && Truthy(Field(r.value[k], "id"))
  {
    var calls := ScrapeCalls(urls, runs);
    WithRetryCharacterised(calls, 3, CatchAll);
    var r := ScrapeTweetsSpec(urls, runs);
    if r.Returned? {
      var run := RunAt(runs, r.invocations - 1);
      assert calls(r.invocations - 1) == ScrapeOnce(urls, run);
      ScrapedTweetsValid(urls, run);
      forall j: nat | j < r.invocations - 1 ensures ScrapeOnce(urls, RunAt(runs, j)).Fail? {
        assert calls(j).Fail?;
      }
    }
  }

  /** The decorator's configuration, `RetryConfig(max_retries=3, base_delay=2.0)`. */
  predicate ScrapeRetry(retry: RetryConfig)
  {
    && retry.maxRetries == 3 && retry.baseDelay == 2.0 && retry.maxDelay == 30.0
    && retry.backoffFactor == 2.0 && retry.retryOn.None?
  }

  /** `self._scrape_tweets(urls)` through its `with_retry` wrapper; `delays`
      are the sleeps between invocations: 2 s, then 4 s. */
  method ScrapeTweets(retry: RetryConfig, urls: seq<string>, runs: seq<ApifyRun>, now: int)
    returns (r: RetryResult<seq<Record>>, delays: seq<real>)
    requires ScrapeRetry(retry)
    modifies retry
    ensures r == ScrapeTweetsSpec(urls, runs)
    ensures |delays| == InvocationsOf(r, 3) - 1
    ensures forall i :: 0 <= i < |delays| ==> delays[i] == BackoffDelay(2.0, 2.0, 30.0, i + 1)
  {
    ScrapeTweetsOutcome(urls, runs);
    r, delays := WithRetry(retry, ScrapeCalls(urls, runs), now);
    DefaultCatchesAll(retry, ScrapeCalls(urls, runs));
  }

  /** `tweet.get(key, {}).get('text', '')`; `None` when the value is not a
      dict and `.get` raises. */
  function NestedText(tweet: Record, key: string): (r: Option<Json>)
    ensures r.Some? <==> GetOr(tweet, key, JObj([])).JObj?
  {
    var nested := GetOr(tweet, key, JObj([]));
    if nested.JObj? then Some(GetOr(nested.entries, "text", JStr(""))) else None
  }

  // ---------------------------------------------------------------
  // handle_message
  // ---------------------------------------------------------------

  /** `any(keyword.lower() in text for keyword in CATEGORY_KEYWORDS)`. */
  predicate MentionsKeyword(text: string, keywords: seq<string>)
  {
    exists k :: 0 <= k < |keywords| && Contains(text, Lower(keywords[k]))
  }

  /** The head of `handle_message`: a `text` that is not a string makes
      `.lower()` raise; a message naming no keyword, or linking no tweet,
      is ignored. */
  datatype Gate = TextError | Ignored | Links(urls: seq<string>)

  function GateMessage(message: Record, keywords: seq<string>): (g: Gate)
    ensures g.Links? ==> g.urls != []
  {
    var text := GetOr(message, "text", JStr(""));
    if !text.JStr? then TextError
    else
      var lowered := Lower(text.s);
      if !MentionsKeyword(lowered, keywords) then Ignored
      else
        var urls := ExtractTwitterUrls(lowered);
        if urls == [] then Ignored else Links(urls)
  }

  /** A message goes on to the scrape exactly when its text is a string that
      names a keyword once lower-cased and holds a tweet link; the links
      are those of the lower-cased text. */
  lemma GateCharacterised(message: Record, keywords: seq<string>)
    ensures GateMessage(message, keywords).TextError? <==> !GetOr(message, "text", JStr("")).JStr?
    ensures GateMessage(message, keywords).Links? <==>
      var text := GetOr(message, "text", JStr(""));
      text.JStr? && MentionsKeyword(Lower(text.s), keywords) && Spans(Lower(text.s), 0) != []
    ensures GateMessage(message, keywords).Links? ==>
      GateMessage(message, keywords).urls == ExtractTwitterUrls(Lower(GetOr(message, "text", JStr("")).s))
  {
    var text := GetOr(message, "text", JStr(""));
    if text.JStr? {
      ExtractedUrlsShape(Lower(text.s));
      if Lower(text.s) == [] {
        assert Spans(Lower(text.s), 0) == [];
      }
    }
  }

  /** The replies `say` posts: the opening "Found n tweets", then one of
      "no tweets could be retrieved", the success summary of the stored
      tweets, the "Error processing tweets" reply, or the outer handler's
      "Error processing message". */
  datatype Reply = Found(links: nat) | NothingRetrieved | Processed(tweets: seq<Record>) | ProcessingFailed | MessageFailed

  /** What handling one message leaves: the replies and the JSON store. */
  datatype Handled = Handled(replies: seq<Reply>, files: map<string, Content>)
}
