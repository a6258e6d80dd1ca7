// src/core/api_client.py: the twitterapi.io client. The environment is a
// map from variable name to text; every HTTP exchange of the pagination
// loop is one element of a trace of responses. The jitter of the rate-limit
// wait and the sleeps are left out: the base wait is returned instead.

module ApiClient {
  import opened Common

  // ---------------------------------------------------------------
  // _safe_get_env_int
  // ---------------------------------------------------------------

  /** `value.split('#')[0]`: the text before the first '#'. */
  function BeforeHash(s: string): (r: string)
    ensures '#' !in r
    ensures |r| <= |s| && r == s[..|r|]
    ensures '#' !in s ==> r == s
  {
    if '#' in s then s[..FirstIndex(s, '#')] else s
  }

  /** `int(text)` for a stripped text: an optional sign and a run of ASCII
      digits; `None` when it raises `ValueError`. */
  function ParseInt(s: string): (r: Option<int>)
    ensures IsDigits(s) ==> r == Some(DigitsValue(s))
    ensures r.Some? ==> exists i :: 0 <= i < |s| && IsAsciiDigit(s[i])
  {
    if IsDigits(s) then Some(DigitsValue(s))
    else if |s| > 1 && (s[0] == '-' || s[0] == '+') && IsDigits(s[1..]) then
      assert IsAsciiDigit(s[1..][0]);
      var v: int := DigitsValue(s[1..]);
      Some(if s[0] == '-' then -v else v)
    else None
  }

  /** `_safe_get_env_int(env_var, default_value)` given the variable's text,
      if set. The same method appears word for word in
      src/core/list_scraper.py. */
  function SafeGetEnvInt(value: Option<string>, default: int): (r: int)
    ensures value.None? ==> r == default
  {
    match value
    case None => default
    case Some(v) =>
      match ParseInt(Strip(BeforeHash(v)))
      case None => default
      case Some(n) => n
  }

  /** The variable looked up in the environment. */
  function EnvInt(env: map<string, string>, name: string, default: int): int
  {
    SafeGetEnvInt(if name in env then Some(env[name]) else None, default)
  }

  lemma {:induction false} DigitsValueOfNat(n: nat)
    ensures DigitsValue(NatToString(n)) == n
    decreases n
  {
    if n >= 10 {
      var p := NatToString(n / 10);
      DigitsValueOfNat(n / 10);
      assert NatToString(n) == p + [DigitChar(n % 10)];
      assert (p + [DigitChar(n % 10)])[..|p|] == p;
    }
  }

  predicate AllSpace(s: string)
  {
    forall i :: 0 <= i < |s| ==> IsSpace(s[i])
  }

  lemma {:induction false} LStripSpaces(ws: string, x: string)
    requires AllSpace(ws) && x != [] && !IsSpace(x[0])
    ensures LStrip(ws + x) == x
    decreases |ws|
  {
    if ws != [] {
      assert (ws + x)[1..] == ws[1..] + x;
      LStripSpaces(ws[1..], x);
    }
  }

  lemma {:induction false} RStripSpaces(x: string, ws: string)
    requires AllSpace(ws) && x != [] && !IsSpace(x[|x| - 1])
    ensures RStrip(x + ws) == x
    decreases |ws|
  {
    if ws != [] {
      var w := ws[..|ws| - 1];
      assert (x + ws)[..|x + ws| - 1] == x + w;
      RStripSpaces(x, w);
    } else {
      assert x + ws == x;
    }
  }

  /** Blanks around a text with non-blank ends are exactly what `strip`
      removes. */
  lemma StripPadded(ws1: string, x: string, ws2: string)
    requires AllSpace(ws1) && AllSpace(ws2) && x != [] && !IsSpace(x[0]) && !IsSpace(x[|x| - 1])
    ensures Strip(ws1 + x + ws2) == x
  {
    assert ws1 + x + ws2 == ws1 + (x + ws2);
    LStripSpaces(ws1, x + ws2);
    RStripSpaces(x, ws2);
  }

  /** A number written in the variable, with blanks around it and an
      optional trailing comment, is read back exactly. */
  lemma SafeGetEnvIntReadsNumber(n: nat, ws1: string, ws2: string, comment: string, default: int)
    requires AllSpace(ws1) && AllSpace(ws2) && '#' !in ws1 + NatToString(n) + ws2
    ensures SafeGetEnvInt(Some(ws1 + NatToString(n) + ws2), default) == n
    ensures SafeGetEnvInt(Some(ws1 + NatToString(n) + ws2 + "#" + comment), default) == n
  {
    var d := NatToString(n);
    var body := ws1 + d + ws2;
    assert d[0] == NatToString(n)[0] && IsAsciiDigit(d[0]) && IsAsciiDigit(d[|d| - 1]);
    StripPadded(ws1, d, ws2);
    DigitsValueOfNat(n);
    var full := body + "#" + comment;
    assert full[..|body|] == body;
    FirstIndexAt(full, '#', |body|);
  }

  /** A variable with no digit before its comment gives the default. */
  lemma SafeGetEnvIntDefault(v: string, default: int)
    requires forall i :: 0 <= i < |v| && '#' !in v[..i] ==> !IsAsciiDigit(v[i])
    ensures SafeGetEnvInt(Some(v), default) == default
  {
    var b := BeforeHash(v);
    StripIn(b);
    var s := Strip(b);
    forall i | 0 <= i < |s| ensures !IsAsciiDigit(s[i]) {
      assert s[i] in b;
      var j :| 0 <= j < |b| && b[j] == s[i];
      assert b[j] == v[j] && v[..j] == b[..j];
    }
  }

  // ---------------------------------------------------------------
  // _handle_rate_limit
  // ---------------------------------------------------------------

  const RATE_LIMITED: int := 429
  const OK: int := 200

  /** `2 ** k`. */
  function Pow2(k: nat): (r: nat)
    ensures r >= 1
  {
    if k == 0 then 1 else 2 * Pow2(k - 1)
  }

  /** The attempt counter after one response, and whether the request is
      retried. */
  function RateLimitStep(attempts: nat, maxAttempts: int, status: int): (nat, bool)
  {
    if status != RATE_LIMITED then (0, false)
    else (attempts + 1, attempts + 1 <= maxAttempts)
  }

  /** The wait before jitter for the `attempts`-th retry. */
  function BaseWait(rateLimitWait: int, attempts: nat): int
    requires attempts >= 1
  {
    rateLimitWait * Pow2(attempts - 1)
  }

  /** Each retry waits twice as long as the one before it, before jitter. */
  lemma BaseWaitDoubles(rateLimitWait: int, attempts: nat)
    requires attempts >= 1
    ensures BaseWait(rateLimitWait, attempts + 1) == 2 * BaseWait(rateLimitWait, attempts)
  {
  }

  /** `n` rate-limited answers in a row, from `attempts`: how many of them
      were retried before the counter gave up. */
  function RetriedRun(attempts: nat, maxAttempts: int, n: nat): (nat, nat)
    decreases n
  {
    if n == 0 then (attempts, 0)
    else
      var (a, retry) := RateLimitStep(attempts, maxAttempts, RATE_LIMITED);
      if !retry then (a, 0)
      else
        var (a2, k) := RetriedRun(a, maxAttempts, n - 1);
        (a2, k + 1)
  }

  /** From a fresh counter, a run of rate-limited answers is retried
      `max_retry_attempts` times and no more. */
  lemma {:induction false} RetriedRunCount(attempts: nat, maxAttempts: int, n: nat)
    requires attempts <= maxAttempts
    ensures RetriedRun(attempts, maxAttempts, n).1 == if attempts + n <= maxAttempts then n else maxAttempts - attempts
    decreases n
  {
    if n > 0 && attempts + 1 <= maxAttempts {
      RetriedRunCount(attempts + 1, maxAttempts, n - 1);
    }
  }

  // ---------------------------------------------------------------
  // get_list_tweets
  // ---------------------------------------------------------------

  /** What one request of the pagination loop met. */
  datatype Response =
    | TimedOut                                 // requests.exceptions.Timeout
    | ConnectionFailed                         // requests.exceptions.ConnectionError
    | Failed                                   // any other exception while requesting
    | Answered(status: int, body: Option<Json>) // `None`: `response.json()` raises

  /** The loop's variables: the tweets so far, the cursor, the rate-limit
      counter, and the cursor each request carried (`None`: no cursor). */
  datatype Fetch = Fetch(tweets: seq<Json>, cursor: Option<Json>, attempts: nat, sent: seq<Option<Json>>)

  datatype Step = Next(f: Fetch) | Stop(f: Fetch)

  /** The tweets a successful page adds: the elements of its truthy
      `tweets` value, as `list.extend` iterates it; none when that raises. */
  function PageTweets(r: Response): seq<Json>
  {
    if r.Answered? && r.status == OK && r.body.Some? && r.body.value.JObj? then
      var page := GetOr(r.body.value.entries, "tweets", JList([]));
      if Truthy(page) then
        match Elements(page)
        case None => []
        case Some(es) => es
      else []
    else []
  }

  /** The answer gives a next page: a dict with truthy `has_next_page` and
      `next_cursor`. */
  predicate HasNextPage(data: Json)
  {
    data.JObj? && Truthy(GetOr(data.entries, "has_next_page", JNull))
    && Truthy(GetOr(data.entries, "next_cursor", JNull))
  }

  /** One turn of the `while True` loop. */
  function PageStep(f: Fetch, r: Response, maxAttempts: int): Step
  {
    var g := f.(sent := f.sent + [f.cursor]);
    match r
    case TimedOut => Next(g)
    case ConnectionFailed => Next(g)
    case Failed => Stop(g)
    case Answered(status, body) =>
      if status == RATE_LIMITED && f.attempts + 1 <= maxAttempts then Next(g.(attempts := f.attempts + 1))
      else
        var g := if status == RATE_LIMITED then g.(attempts := f.attempts + 1) else g;
        if status != OK || body.None? || !body.value.JObj? then Stop(g)
        else
          var page := GetOr(body.value.entries, "tweets", JList([]));
          if !Truthy(page) || Elements(page).None? then Stop(g)
          else
            var h := g.(tweets := g.tweets + PageTweets(r));
            if HasNextPage(body.value) then Next(h.(cursor := Some(GetOr(body.value.entries, "next_cursor", JNull))))
            else Stop(h)
  }

  /** Where the loop ends over a trace: the final variables, how many
      responses it used, and whether it stopped (`false`: the trace ran out
      while the loop would still be requesting). */
  datatype Run = Run(f: Fetch, used: nat, done: bool)

  function Paginate(rs: seq<Response>, f: Fetch, maxAttempts: int): Run
    decreases |rs|
  {
    if rs == [] then Run(f, 0, false)
    else match PageStep(f, rs[0], maxAttempts)
      case Stop(g) => Run(g, 1, true)
      case Next(g) =>
        var run := Paginate(rs[1..], g, maxAttempts);
        run.(used := run.used + 1)
  }

  /** The tweets the responses add, page after page. */
  function PagesTweets(rs: seq<Response>): (ts: seq<Json>)
  {
    if rs == [] then [] else PageTweets(rs[0]) + PagesTweets(rs[1..])
  }

  /** Every turn sends one request with the current cursor, adds the
      page's tweets and counts a rate limit. */
  lemma PageStepShape(f: Fetch, r: Response, maxAttempts: int)
    ensures var s := PageStep(f, r, maxAttempts);
      && s.f.sent == f.sent + [f.cursor]
      && s.f.tweets == f.tweets + PageTweets(r)
      && s.f.attempts == (if r.Answered? && r.status == RATE_LIMITED then f.attempts + 1 else f.attempts)
  {
  }

  /** When one turn stops the loop: another exception, a status that is
      not 200 (a rate-limited one only once the counter is exhausted), an
      answer that is not a JSON dict, an empty or non-iterable page, or no
      next page. Otherwise the loop goes on with the page's cursor, or with
      the same cursor after a transient error or a rate limit. */
  lemma PageStepStops(f: Fetch, r: Response, maxAttempts: int)
    ensures var s := PageStep(f, r, maxAttempts);
      && (s.Stop? <==>
            || r.Failed?
            || (r.Answered? && r.status == RATE_LIMITED && f.attempts + 1 > maxAttempts)
            || (r.Answered? && r.status != RATE_LIMITED && r.status != OK)
            || (r.Answered? && r.status == OK &&
                  (r.body.None? || !r.body.value.JObj?
                   || !Truthy(GetOr(r.body.value.entries, "tweets", JList([])))
                   || Elements(GetOr(r.body.value.entries, "tweets", JList([]))).None?
                   || !HasNextPage(r.body.value))))
      && (s.Next? && r.Answered? && r.status == OK ==>
            s.f.cursor == Some(GetOr(r.body.value.entries, "next_cursor", JNull)))
      && (s.Next? && !(r.Answered? && r.status == OK) ==> s.f.cursor == f.cursor)
  {
  }

  /** One more response of the trace. */
  lemma PaginateCons(rs: seq<Response>, f: Fetch, maxAttempts: int)
    requires rs != []
    ensures PageStep(f, rs[0], maxAttempts).Stop? ==>
      Paginate(rs, f, maxAttempts) == Run(PageStep(f, rs[0], maxAttempts).f, 1, true)
    ensures PageStep(f, rs[0], maxAttempts).Next? ==>
      var run := Paginate(rs[1..], PageStep(f, rs[0], maxAttempts).f, maxAttempts);
      Paginate(rs, f, maxAttempts) == run.(used := run.used + 1)
  {
  }

  /** The loop appends the pages it received, in order, and only they: the
      tweets are the old ones followed by the pages of the responses used,
      one request per response. */
  lemma {:induction false} PaginateTweets(rs: seq<Response>, f: Fetch, maxAttempts: int)
    ensures var run := Paginate(rs, f, maxAttempts);
      && run.used <= |rs| && run.f.tweets == f.tweets + PagesTweets(rs[..run.used])
      && |run.f.sent| == |f.sent| + run.used
    decreases |rs|
  {
    if rs != [] {
      var s := PageStep(f, rs[0], maxAttempts);
      PageStepShape(f, rs[0], maxAttempts);
      PaginateCons(rs, f, maxAttempts);
      if s.Stop? {
        PagesTweetsCons(rs, 0);
      } else {
        PaginateTweets(rs[1..], s.f, maxAttempts);
        var n := Paginate(rs[1..], s.f, maxAttempts).used;
        PagesTweetsCons(rs, n);
        ConcatAssoc(f.tweets, PageTweets(rs[0]), PagesTweets(rs[1..][..n]));
      }
    }
  }

  lemma PagesTweetsCons(rs: seq<Response>, n: nat)
    requires n < |rs|
    ensures PagesTweets(rs[..n + 1]) == PageTweets(rs[0]) + PagesTweets(rs[1..][..n])
  {
    assert rs[..n + 1] == [rs[0]] + rs[1..][..n];
    assert rs[..n + 1][1..] == rs[1..][..n];
  }

  /** Timeouts and connection errors retry the same page with no limit:
      any number of them in front of a trace changes nothing but the
      requests sent, each of which carries the same cursor. */
  lemma {:induction false} TransientErrorsRetry(transient: seq<Response>, rs: seq<Response>, f: Fetch, maxAttempts: int)
    requires forall i :: 0 <= i < |transient| ==> transient[i].TimedOut? || transient[i].ConnectionFailed?
    ensures var run := Paginate(transient + rs, f, maxAttempts);
      var run' := Paginate(rs, f.(sent := f.sent + seq(|transient|, _ => f.cursor)), maxAttempts);
      run.f == run'.f && run.used == run'.used + |transient| && run.done == run'.done
    decreases |transient|
  {
    if transient == [] {
      assert transient + rs == rs;
      assert f.(sent := f.sent + seq(0, _ => f.cursor)) == f;
    } else {
      var f1 := f.(sent := f.sent + [f.cursor]);
      assert (transient + rs)[1..] == transient[1..] + rs;
      assert PageStep(f, (transient + rs)[0], maxAttempts) == Next(f1);
      PaginateCons(transient + rs, f, maxAttempts);
      TransientErrorsRetry(transient[1..], rs, f1, maxAttempts);
      assert f1.sent + seq(|transient| - 1, _ => f1.cursor) == f.sent + seq(|transient|, _ => f.cursor);
    }
  }

  /** The rate-limit counter is never reset by the pagination loop: only
      `_handle_rate_limit` with a status other than 429 resets it, and the
      loop calls it only for a 429. So the counter grows over all the pages
      of a list rather than per request. */
  lemma {:induction false} PaginateNeverResets(rs: seq<Response>, f: Fetch, maxAttempts: int)
    ensures Paginate(rs, f, maxAttempts).f.attempts >= f.attempts
    decreases |rs|
  {
    if rs != [] {
      PageStepShape(f, rs[0], maxAttempts);
      PaginateCons(rs, f, maxAttempts);
      var s := PageStep(f, rs[0], maxAttempts);
      if s.Next? {
        PaginateNeverResets(rs[1..], s.f, maxAttempts);
      }
    }
  }

  /** A 429 that follows a successful page, with a counter already at the
      maximum, ends the loop even though the request before it succeeded. */
  lemma RateLimitSpansPages(f: Fetch, data: Json, maxAttempts: int)
    requires f.attempts == maxAttempts && HasNextPage(data)
    requires var page := GetOr(data.entries, "tweets", JList([])); page.JList? && page.items != []
    ensures var run := Paginate([Answered(OK, Some(data)), Answered(RATE_LIMITED, None)], f, maxAttempts);
      run.done && run.used == 2 && run.f.attempts == maxAttempts + 1
  {
    var rs := [Answered(OK, Some(data)), Answered(RATE_LIMITED, None)];
    PaginateCons(rs, f, maxAttempts);
    var g := PageStep(f, rs[0], maxAttempts).f;
    assert rs[1..] == [Answered(RATE_LIMITED, None)];
    PaginateCons(rs[1..], g, maxAttempts);
  }

  /** The client: its rate-limit counter and the environment it reads. */
  class TwitterApiClient {
    var rateLimitAttempts: nat
    const maxRetryAttempts: int
    const env: map<string, string>

    /** `__init__` once the API key is known to be set. */
    constructor (env: map<string, string>)
      requires "TWITTER_API_KEY" in env && env["TWITTER_API_KEY"] != ""
      ensures rateLimitAttempts == 0 && this.env == env
      ensures maxRetryAttempts == EnvInt(env, "MAX_RETRY_ATTEMPTS", 5)
    {
      this.env := env;
      rateLimitAttempts := 0;
      maxRetryAttempts := EnvInt(env, "MAX_RETRY_ATTEMPTS", 5);
    }

    /** `TwitterAPIClient()`: raises `ValueError` (here `None`) when the
        API key is unset or empty. */
    static method Create(env: map<string, string>) returns (c: Option<TwitterApiClient>)
      ensures c.None? <==> "TWITTER_API_KEY" !in env || env["TWITTER_API_KEY"] == ""
      ensures c.Some? ==>
                fresh(c.value) && c.value.rateLimitAttempts == 0 && c.value.env == env
                && c.value.maxRetryAttempts == EnvInt(env, "MAX_RETRY_ATTEMPTS", 5)
    {
      if "TWITTER_API_KEY" !in env || env["TWITTER_API_KEY"] == "" {
        return None;
      }
      var client := new TwitterApiClient(env);
      c := Some(client);
    }

    /** `_handle_rate_limit`: whether to retry, and the wait before jitter
        (0 when not retrying). */
    method HandleRateLimit(status: int) returns (retry: bool, wait: int)
      modifies this
      ensures status != RATE_LIMITED ==> rateLimitAttempts == 0 && !retry && wait == 0
      ensures status == RATE_LIMITED ==> rateLimitAttempts == old(rateLimitAttempts) + 1
      ensures retry <==> status == RATE_LIMITED && rateLimitAttempts <= maxRetryAttempts
      ensures retry ==> wait == BaseWait(EnvInt(env, "RATE_LIMIT_WAIT", 60), rateLimitAttempts)
    {
      if status != RATE_LIMITED {
        rateLimitAttempts := 0;
        return false, 0;
      }
      var rateLimitWait := EnvInt(env, "RATE_LIMIT_WAIT", 60);
      rateLimitAttempts := rateLimitAttempts + 1;
      if rateLimitAttempts > maxRetryAttempts {
        return false, 0;
      }
      wait := rateLimitWait * Pow2(rateLimitAttempts - 1);
      retry := true;
    }

    /** `get_list_tweets` over a trace of responses: the tweets, the cursor
        each request carried, and whether the loop stopped before the trace
        ran out. */
    method GetListTweets(rs: seq<Response>) returns (tweets: seq<Json>, sent: seq<Option<Json>>, done: bool)
      modifies this
      ensures var run := Paginate(rs, Fetch([], None, old(rateLimitAttempts), []), maxRetryAttempts);
        tweets == run.f.tweets && sent == run.f.sent && done == run.done && rateLimitAttempts == run.f.attempts
    {
      ghost var f0 := Fetch([], None, rateLimitAttempts, []);
      var cursor: Option<Json> := None;
      tweets, sent := [], [];
      var i := 0;
      while i < |rs|
        invariant 0 <= i <= |rs|
        invariant var run0 := Paginate(rs, f0, maxRetryAttempts);
          var run := Paginate(rs[i..], Fetch(tweets, cursor, rateLimitAttempts, sent), maxRetryAttempts);
          run0.f == run.f && run0.done == run.done
        decreases |rs| - i
      {
        ghost var f := Fetch(tweets, cursor, rateLimitAttempts, sent);
        PaginateCons(rs[i..], f, maxRetryAttempts);
        assert rs[i..][1..] == rs[i + 1..];
        sent := sent + [cursor];
        match rs[i] {
          case TimedOut =>
          case ConnectionFailed =>
          case Failed =>
            return tweets, sent, true;
          case Answered(status, body) =>
            if status == RATE_LIMITED {
              var retry, _ := HandleRateLimit(status);
              if retry {
                i := i + 1;
                continue;
              }
            }
            if status != OK || body.None? || !body.value.JObj? {
              return tweets, sent, true;
            }
            var page := GetOr(body.value.entries, "tweets", JList([]));
            if !Truthy(page) || Elements(page).None? {
              return tweets, sent, true;
            }
            tweets := tweets + Elements(page).value;
            if !HasNextPage(body.value) {
              return tweets, sent, true;
            }
            cursor := Some(GetOr(body.value.entries, "next_cursor", JNull));
        }
        i := i + 1;
      }
      assert rs[i..] == [];
      done := false;
    }
  }
}
