// tweet_collector.py: the TweetDeck collection process. The browser and
// the scraper are reduced to what the process asks of them (did the
// browser start, did the login succeed, how many columns were identified,
// which URL the page shows, what a scrape produced); the signal handler
// that clears `is_running` is the end of the cycle trace.

module Collector {
  import opened Common

  /** `self.max_errors`. */
  const MAX_ERRORS: nat := 3

  /** The configuration keys and the environment variables they are read
      from; each must be set and non-empty. */
  const CONFIG_VARS: seq<(string, string)> := [
    ("twitter_username", "TWITTER_USERNAME"),
    ("twitter_password", "TWITTER_PASSWORD"),
    ("twitter_2fa", "TWITTER_VERIFICATION_CODE"),
    ("tweetdeck_url", "TWEETDECK_URL")
  ]

  predicate IsSet(env: map<string, string>, name: string)
  {
    name in env && env[name] != ""
  }

  /** `_validate_config`: the configuration keys whose variable is unset
      or empty, in declaration order. */
  function MissingVars(vars: seq<(string, string)>, env: map<string, string>): (r: seq<string>)
    ensures |r| <= |vars|
    ensures forall n :: n in r ==> exists i :: 0 <= i < |vars| && vars[i].0 == n && !IsSet(env, vars[i].1)
    ensures forall i :: 0 <= i < |vars| && !IsSet(env, vars[i].1) ==> vars[i].0 in r
  {
    if vars == [] then []
    else (if IsSet(env, vars[0].1) then [] else [vars[0].0]) + MissingVars(vars[1..], env)
  }

  lemma NoneMissing(vars: seq<(string, string)>, env: map<string, string>)
    requires forall i :: 0 <= i < |vars| ==> IsSet(env, vars[i].1)
    ensures MissingVars(vars, env) == []
  {
  }

  /** `_validate_config` passes exactly when all four variables are set.
      Nothing in the process calls it: construction never checks the
      configuration. */
  lemma MissingConfig(env: map<string, string>)
    ensures MissingVars(CONFIG_VARS, env) == [] <==>
      IsSet(env, "TWITTER_USERNAME") && IsSet(env, "TWITTER_PASSWORD")
      && IsSet(env, "TWITTER_VERIFICATION_CODE") && IsSet(env, "TWEETDECK_URL")
  {
    var vs := CONFIG_VARS;
    assert vs[0].1 == "TWITTER_USERNAME" && vs[1].1 == "TWITTER_PASSWORD";
    assert vs[2].1 == "TWITTER_VERIFICATION_CODE" && vs[3].1 == "TWEETDECK_URL";
    if IsSet(env, vs[0].1) && IsSet(env, vs[1].1) && IsSet(env, vs[2].1) && IsSet(env, vs[3].1) {
      NoneMissing(vs, env);
    }
  }

  /** What the process holds: whether a browser object was made, the
      scraper's identified column count (`None`: no scraper), and the
      configured deck URL (`None` when `TWEETDECK_URL` is unset). */
  datatype Session = Session(hasBrowser: bool, columns: Option<nat>, deckUrl: Option<string>)

  /** `validate_tweetdeck` on a page showing `url`: a missing browser or
      scraper, an unset deck URL (the `in` test raises `TypeError`), a page
      elsewhere, or no identified columns all make it false. */
  predicate Valid(s: Session, url: string)
  {
    s.hasBrowser && s.columns.Some? && s.deckUrl.Some? && Contains(url, s.deckUrl.value) && s.columns.value > 0
  }

  /** What a monitoring scrape did. */
  datatype Scrape = Found(columns: nat) | ScrapingFailed | OtherFailure

  /** One turn of the loop: the page's URL when it is validated, and what
      the scrape then does. */
  datatype Cycle = Cycle(url: string, scrape: Scrape)

  /** The error count after a turn, the seconds slept at its end, and
      whether the count reached the maximum (the process then exits). */
  datatype Turn = Turn(errors: nat, sleep: nat, critical: bool)

  function CycleStep(errors: nat, valid: bool, scrape: Scrape): Turn
  {
    if !valid then Turn(errors + 1, 1, errors + 1 >= MAX_ERRORS)
    else match scrape
      case Found(_) => Turn(errors, 1, false)
      case ScrapingFailed => Turn(errors + 1, 0, errors + 1 >= MAX_ERRORS)
      case OtherFailure => Turn(errors + 1, 1, errors + 1 >= MAX_ERRORS)
  }

  predicate Fails(s: Session, c: Cycle)
  {
    !Valid(s, c.url) || !c.scrape.Found?
  }

  /** The number of failing turns among `cycles`. */
  function Failures(s: Session, cycles: seq<Cycle>): nat
  {
    if cycles == [] then 0 else (if Fails(s, cycles[0]) then 1 else 0) + Failures(s, cycles[1..])
  }

  /** Where `collect_tweets` ends over a trace: the error count, the turns
      run, the sleeps of the turns that did not exit, and whether the
      process exited. */
  datatype Outcome = Outcome(errors: nat, ran: nat, sleeps: seq<nat>, exited: bool)

  function Collect(errors: nat, cycles: seq<Cycle>, s: Session): Outcome
    decreases |cycles|
  {
    if cycles == [] then Outcome(errors, 0, [], false)
    else
      var t := CycleStep(errors, Valid(s, cycles[0].url), cycles[0].scrape);
      if t.critical then Outcome(t.errors, 1, [], true)
      else
        var o := Collect(t.errors, cycles[1..], s);
        o.(ran := o.ran + 1, sleeps := [t.sleep] + o.sleeps)
  }

  /** Every failing turn adds exactly one to the count and nothing resets
      it: after the turns run, the count is the old one plus their
      failures. The process exits exactly when the count reaches the
      maximum, at that turn; otherwise every turn runs. */
  lemma {:induction false} CollectCounts(errors: nat, cycles: seq<Cycle>, s: Session)
    requires errors < MAX_ERRORS
    ensures var o := Collect(errors, cycles, s);
      && o.ran <= |cycles|
      && o.errors == errors + Failures(s, cycles[..o.ran])
      && (o.exited <==> errors + Failures(s, cycles) >= MAX_ERRORS)
      && (o.exited ==> o.errors == MAX_ERRORS && o.ran >= 1 && Fails(s, cycles[o.ran - 1]))
      && (!o.exited ==> o.ran == |cycles| && |o.sleeps| == |cycles|)
    decreases |cycles|
  {
    if cycles != [] {
      var t := CycleStep(errors, Valid(s, cycles[0].url), cycles[0].scrape);
      assert cycles[..1] == [cycles[0]];
      if !t.critical {
        CollectCounts(t.errors, cycles[1..], s);
        var o := Collect(t.errors, cycles[1..], s);
        assert Collect(errors, cycles, s) == o.(ran := o.ran + 1, sleeps := [t.sleep] + o.sleeps);
        assert t.errors == errors + (if Fails(s, cycles[0]) then 1 else 0);
        assert cycles[..o.ran + 1][1..] == cycles[1..][..o.ran];
        assert Failures(s, cycles) == (if Fails(s, cycles[0]) then 1 else 0) + Failures(s, cycles[1..]);
        if o.exited {
          assert cycles[o.ran] == cycles[1..][o.ran - 1];
        }
      } else {
        FailuresBound(s, cycles[1..]);
      }
    }
  }

  lemma FailuresBound(s: Session, cycles: seq<Cycle>)
    ensures Failures(s, cycles) <= |cycles|
  {
  }

  /** Only a scraping error skips the one-second pause: every other turn
      that does not exit sleeps one second. */
  lemma {:induction false} CollectSleeps(errors: nat, cycles: seq<Cycle>, s: Session, k: nat)
    requires k < |Collect(errors, cycles, s).sleeps|
    ensures k < |cycles|
    ensures Collect(errors, cycles, s).sleeps[k] == (if Valid(s, cycles[k].url) && cycles[k].scrape.ScrapingFailed? then 0 else 1)
    decreases k
  {
    var t := CycleStep(errors, Valid(s, cycles[0].url), cycles[0].scrape);
    if k > 0 {
      CollectSleeps(t.errors, cycles[1..], s, k - 1);
    }
  }

  /** After a successful initialisation a turn validates exactly when a
      deck URL is configured and the page is on it. */
  lemma ValidAfterInit(columns: nat, deckUrl: Option<string>, url: string)
    requires columns > 0
    ensures Valid(Session(true, Some(columns), deckUrl), url) <==> deckUrl.Some? && Contains(url, deckUrl.value)
  {
  }

  /** The browser as the process sees it. */
  datatype Browser = NoBrowser | Open | Closed

  class TweetCollector {
    var browser: Browser
    var columns: Option<nat>
    const deckUrl: Option<string>
    var isRunning: bool
    var errorCount: nat
    /** Set once `os._exit(1)` has ended the process. */
    var exited: bool

    function SessionOf(): Session
      reads this
    {
      Session(browser != NoBrowser, columns, deckUrl)
    }

    /** `__init__`: no browser, no scraper, running, no errors, and the
        deck URL as `os.getenv` reads it. The configuration is not
        validated. */
    constructor (env: map<string, string>)
      ensures browser == NoBrowser && columns == None && isRunning && errorCount == 0 && !exited
      ensures deckUrl == (if "TWEETDECK_URL" in env then Some(env["TWEETDECK_URL"]) else None)
    {
      browser := NoBrowser;
      columns := None;
      deckUrl := if "TWEETDECK_URL" in env then Some(env["TWEETDECK_URL"]) else None;
      isRunning := true;
      errorCount := 0;
      exited := false;
    }

    /** `initialize_browser`: start the browser, log in, identify the
        columns; any failure closes the browser and returns false. The
        scraper, once made, stays even when it found no columns. */
    method InitializeBrowser(initOk: bool, loginOk: bool, identified: nat) returns (ok: bool)
      modifies this
      ensures ok <==> initOk && loginOk && identified > 0
      ensures browser == (if ok then Open else Closed)
      ensures columns == (if initOk && loginOk then Some(identified) else old(columns))
      ensures isRunning == old(isRunning) && errorCount == old(errorCount) && exited == old(exited)
    {
      browser := Open;
      if !initOk || !loginOk {
        browser := Closed;
        return false;
      }
      columns := Some(identified);
      if identified == 0 {
        browser := Closed;
        return false;
      }
      return true;
    }

    /** `validate_tweetdeck` on a page showing `url`. */
    method ValidateTweetdeck(url: string) returns (valid: bool)
      ensures valid == Valid(SessionOf(), url)
    {
      if browser == NoBrowser || columns.None? {
        return false;
      }
      if deckUrl.None? || !Contains(url, deckUrl.value) {
        return false;
      }
      valid := columns.value > 0;
    }

    /** `shutdown`: stop the loop and close any browser. */
    method Shutdown()
      modifies this
      ensures !isRunning && browser == (if old(browser) == NoBrowser then NoBrowser else Closed)
      ensures columns == old(columns) && errorCount == old(errorCount) && exited == old(exited)
    {
      isRunning := false;
      if browser != NoBrowser {
        browser := Closed;
      }
    }

    /** `handle_critical_error`: close the browser, shut down when there
        is a scraper, and exit. */
    method HandleCriticalError()
      modifies this
      ensures exited && browser == (if old(browser) == NoBrowser then NoBrowser else Closed)
      ensures isRunning == (old(isRunning) && old(columns).None?)
      ensures columns == old(columns) && errorCount == old(errorCount)
    {
      if browser != NoBrowser {
        browser := Closed;
      }
      if columns.Some? {
        Shutdown();
      }
      exited := true;
    }

    /** `collect_tweets` over the turns seen before the process is told to
        stop: the error count, the exit and the pauses are those `Collect`
        gives. */
    method CollectTweets(cycles: seq<Cycle>) returns (ran: nat, sleeps: seq<nat>)
      requires !exited
      modifies this
      ensures var o := Collect(old(errorCount), cycles, old(SessionOf()));
        && errorCount == o.errors && ran == o.ran && sleeps == o.sleeps && exited == o.exited
      ensures columns == old(columns)
      ensures !exited ==> browser == old(browser) && isRunning == old(isRunning)
      ensures exited ==> browser == (if old(browser) == NoBrowser then NoBrowser else Closed)
    {
      ghost var s0 := SessionOf();
      ghost var e0 := errorCount;
      ran, sleeps := 0, [];
      var i := 0;
      while i < |cycles|
        invariant 0 <= i <= |cycles| && ran == i
        invariant !exited && SessionOf() == s0 && columns == old(columns) && browser == old(browser)
        invariant isRunning == old(isRunning)
        invariant var o0 := Collect(e0, cycles, s0);
          var o := Collect(errorCount, cycles[i..], s0);
          o0.errors == o.errors && o0.exited == o.exited && o0.sleeps == sleeps + o.sleeps && o0.ran == i + o.ran
      {
        assert cycles[i..][1..] == cycles[i + 1..];
        var valid := ValidateTweetdeck(cycles[i].url);
        ghost var t := CycleStep(errorCount, valid, cycles[i].scrape);
        var sleep := 1;
        if !valid {
          errorCount := errorCount + 1;
        } else {
          match cycles[i].scrape {
            case Found(_) =>
            case ScrapingFailed =>
              errorCount := errorCount + 1;
              sleep := 0;
            case OtherFailure =>
              errorCount := errorCount + 1;
          }
        }
        assert errorCount == t.errors && sleep == t.sleep;
        ran := ran + 1;
        if (!valid || !cycles[i].scrape.Found?) && errorCount >= MAX_ERRORS {
          HandleCriticalError();
          return;
        }
        ConcatAssoc(sleeps, [sleep], Collect(errorCount, cycles[i + 1..], s0).sleeps);
        sleeps := sleeps + [sleep];
        i := i + 1;
      }
    }

    /** `run`: initialise, then collect; `shutdown` runs in the `finally`
        unless the process has exited. Either way the browser ends closed. */
    method Run(initOk: bool, loginOk: bool, identified: nat, cycles: seq<Cycle>)
      requires !exited && errorCount < MAX_ERRORS
      modifies this
      ensures browser == Closed
      ensures exited <==>
        && initOk && loginOk && identified > 0
        && old(errorCount) + Failures(Session(true, Some(identified), deckUrl), cycles) >= MAX_ERRORS
      ensures !exited ==> !isRunning
    {
      var ok := InitializeBrowser(initOk, loginOk, identified);
      if ok {
        CollectCounts(errorCount, cycles, SessionOf());
        var ran, sleeps := CollectTweets(cycles);
        if exited {
          return;
        }
      }
      Shutdown();
    }
  }
}
