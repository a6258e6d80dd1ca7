// tweet_collection.py: the older TweetDeck collection process, whose error
// counter is reset by every productive scrape. The `TweetScraper` it
// drives (tweet_scraper.py) is not part of this model: what a scrape or a
// column identification does is a trace or an oracle.

module Collection {
  import opened Common

  /** `self.max_errors`. */
  const MAX_ERRORS: nat := 2

  /** What one call of `scrape_all_columns` did: returned results (empty
      or not), or raised an exception with the given message. */
  datatype Attempt = Scraped(nonEmpty: bool) | Raised(message: string)

  /** The pause after a failed scrape: longer for timeouts. */
  function RetryWait(message: string): (w: nat)
    ensures w == 5 <==> Contains(message, "Timeout")
    ensures w == 2 <==> !Contains(message, "Timeout")
  {
    if Contains(message, "Timeout") then 5 else 2
  }

  /** The error count after one attempt. */
  function Counted(errors: nat, a: Attempt): nat
  {
    match a
    case Scraped(nonEmpty) => if nonEmpty then 0 else errors
    case Raised(_) => errors + 1
  }

  /** Reference definition, read from the end of the trace: the errors
      raised since the last productive scrape, on top of `errors` when
      there was none. */
  function SinceReset(errors: nat, attempts: seq<Attempt>): nat
  {
    if attempts == [] then errors
    else
      var last := attempts[|attempts| - 1];
      var before := SinceReset(errors, attempts[..|attempts| - 1]);
      match last
      case Scraped(nonEmpty) => if nonEmpty then 0 else before
      case Raised(_) => before + 1
  }

  lemma {:induction false} SinceResetCons(errors: nat, a: Attempt, rest: seq<Attempt>)
    ensures SinceReset(errors, [a] + rest) == SinceReset(Counted(errors, a), rest)
    decreases |rest|
  {
    if rest != [] {
      var n := |rest| - 1;
      assert ([a] + rest)[..|rest|] == [a] + rest[..n];
      SinceResetCons(errors, a, rest[..n]);
    } else {
      assert [a] + rest == [a];
      assert [a][..0] == [];
    }
  }

  /** Where `collect_tweets` ends over a trace of attempts: the error
      count, the attempts made, the pauses after the failures that did not
      end the process, and whether it exited. */
  datatype Outcome = Outcome(errors: nat, ran: nat, waits: seq<nat>, exited: bool)

  function Collect(errors: nat, attempts: seq<Attempt>): Outcome
    decreases |attempts|
  {
    if attempts == [] then Outcome(errors, 0, [], false)
    else
      var e := Counted(errors, attempts[0]);
      if attempts[0].Raised? && e >= MAX_ERRORS then Outcome(e, 1, [], true)
      else
        var o := Collect(e, attempts[1..]);
        var w := if attempts[0].Raised? then [RetryWait(attempts[0].message)] else [];
        o.(ran := o.ran + 1, waits := w + o.waits)
  }

  /** A productive scrape resets the count, an empty one keeps it, and
      every exception adds one: the count is always the errors since the
      last productive scrape. The process exits exactly at the failure
      that brings that count to the maximum. */
  lemma {:induction false} CollectCounts(errors: nat, attempts: seq<Attempt>)
    requires errors < MAX_ERRORS
    ensures var o := Collect(errors, attempts);
      && o.ran <= |attempts|
      && o.errors == SinceReset(errors, attempts[..o.ran])
      && (o.exited ==> o.errors == MAX_ERRORS && o.ran >= 1 && attempts[o.ran - 1].Raised?)
      && (!o.exited ==> o.ran == |attempts| && o.errors < MAX_ERRORS)
    decreases |attempts|
  {
    if attempts != [] {
      var e := Counted(errors, attempts[0]);
      var o := Collect(e, attempts[1..]);
      assert attempts[..1] == [attempts[0]] + [];
      assert SinceReset(errors, []) == errors;
      SinceResetCons(errors, attempts[0], []);
      if !(attempts[0].Raised? && e >= MAX_ERRORS) {
        CollectCounts(e, attempts[1..]);
        assert attempts[..o.ran + 1] == [attempts[0]] + attempts[1..][..o.ran];
        SinceResetCons(errors, attempts[0], attempts[1..][..o.ran]);
        if o.exited {
          assert attempts[o.ran] == attempts[1..][o.ran - 1];
        }
      }
    }
  }

  /** Every pause follows an exception: five seconds for a timeout, two
      otherwise, and as many pauses as non-fatal exceptions. */
  lemma {:induction false} CollectWaits(errors: nat, attempts: seq<Attempt>)
    ensures var o := Collect(errors, attempts);
      forall k :: 0 <= k < |o.waits| ==> o.waits[k] == 5 || o.waits[k] == 2
    ensures Collect(errors, attempts).ran <= |attempts|
    ensures var o := Collect(errors, attempts);
      |o.waits| == Raises(attempts[..o.ran]) - (if o.exited then 1 else 0)
    decreases |attempts|
  {
    if attempts != [] {
      var e := Counted(errors, attempts[0]);
      assert attempts[..1] == [attempts[0]];
      assert attempts[..1][1..] == [];
      if !(attempts[0].Raised? && e >= MAX_ERRORS) {
        CollectWaits(e, attempts[1..]);
        var o := Collect(e, attempts[1..]);
        assert attempts[..o.ran + 1][1..] == attempts[1..][..o.ran];
      }
    }
  }

  /** The number of exceptions in a trace. */
  function Raises(attempts: seq<Attempt>): nat
  {
    if attempts == [] then 0 else (if attempts[0].Raised? then 1 else 0) + Raises(attempts[1..])
  }

  /** Delays of `validate_tweetdeck`: `initial_delay * 2 ** attempt`. */
  function Delay(initial: nat, attempt: nat): (d: nat)
    ensures d >= initial
  {
    if attempt == 0 then initial else 2 * Delay(initial, attempt - 1)
  }

  /** The URL checks of `validate_tweetdeck`, from check `k` on: whether
      the page reached the deck URL, and the pauses taken between checks. */
  function UrlChecks(urlAt: nat -> string, deck: string, k: nat): (r: (bool, seq<nat>))
    requires k < 3
    decreases 3 - k
  {
    if Contains(urlAt(k), deck) then (true, [])
    else if k < 2 then
      var rest := UrlChecks(urlAt, deck, k + 1);
      (rest.0, [Delay(1, k)] + rest.1)
    else (false, [])
  }

  /** The URL is accepted exactly when one of the three checks sees it,
      after one pause of 1 and 2 seconds per check that missed it. */
  lemma UrlChecksFound(urlAt: nat -> string, deck: string)
    ensures UrlChecks(urlAt, deck, 0).0 <==> exists k :: 0 <= k < 3 && Contains(urlAt(k), deck)
    ensures var r := UrlChecks(urlAt, deck, 0);
      r.1 == (if Contains(urlAt(0), deck) then []
              else if Contains(urlAt(1), deck) then [1]
              else [1, 2])
  {
    assert Delay(1, 1) == 2;
    if !Contains(urlAt(0), deck) && !Contains(urlAt(1), deck) && !Contains(urlAt(2), deck) {
      forall k | 0 <= k < 3
        ensures !Contains(urlAt(k), deck)
      {
        if k == 1 {} else if k == 2 {}
      }
    }
  }

  /** The column checks of `validate_tweetdeck`, from check `k` on with
      `columns` identified: ready, not ready after three checks, or an
      identification that raised. Between checks the columns are
      identified again (`identify(k)`, `None` when it raises). */
  datatype ColumnResult = Ready(columns: nat, sleeps: seq<nat>) | NotReady(columns: nat, sleeps: seq<nat>) | Broke(sleeps: seq<nat>)

  function ColumnChecks(columns: nat, identify: nat -> Option<nat>, k: nat): (r: ColumnResult)
    requires k < 3
    decreases 3 - k
  {
    if columns > 0 then Ready(columns, [])
    else if k < 2 then
      match identify(k)
      case None => Broke([])
      case Some(n) => Slept([Delay(2, k)], ColumnChecks(n, identify, k + 1))
    else NotReady(columns, [])
  }

  /** `r` after the pauses `d`. */
  function Slept(d: seq<nat>, r: ColumnResult): (r': ColumnResult)
    ensures r'.sleeps == d + r.sleeps
  {
    r.(sleeps := d + r.sleeps)
  }

  /** With no columns at first, the columns are ready exactly when one of
      the two re-identifications finds some, each preceded by the ones
      that found none. */
  lemma ColumnChecksReady(identify: nat -> Option<nat>)
    ensures ColumnChecks(0, identify, 0).Ready? <==>
      (identify(0).Some? && identify(0).value > 0)
      || (identify(0) == Some(0) && identify(1).Some? && identify(1).value > 0)
    ensures ColumnChecks(0, identify, 0).Broke? <==>
      identify(0).None? || (identify(0) == Some(0) && identify(1).None?)
  {
  }

  /** The browser as the process sees it. */
  datatype Browser = NoBrowser | Open | Closed

  class TweetCollector {
    var browser: Browser
    /** The scraper's identified column count (`None`: no scraper). */
    var columns: Option<nat>
    /** The configured `TWEETDECK_URL` (`None`: unset). */
    const deckUrl: Option<string>
    var isRunning: bool
    var errorCount: nat
    /** Set once `os._exit(1)` has ended the process. */
    var exited: bool

    /** `__init__`: no browser, no scraper, running, no errors. */
    constructor (env: map<string, string>)
      ensures browser == NoBrowser && columns == None && isRunning && errorCount == 0 && !exited
      ensures deckUrl == (if "TWEETDECK_URL" in env then Some(env["TWEETDECK_URL"]) else None)
    {
      browser := NoBrowser;
      columns := None;
      deckUrl := if "TWEETDECK_URL" in env then Some(env["TWEETDECK_URL"]) else None;
      isRunning := true;
      errorCount := 0;
      exited := false;
    }

    /** `initialize_browser`: start the browser, log in, identify the
        columns; any failure closes the browser and raises `BrowserError`
        (here `ok` false). */
    method InitializeBrowser(initOk: bool, loginOk: bool, identified: nat) returns (ok: bool)
      modifies this
      ensures ok <==> initOk && loginOk && identified > 0
      ensures browser == (if ok then Open else Closed)
      ensures columns == (if initOk && loginOk then Some(identified) else old(columns))
      ensures isRunning == old(isRunning) && errorCount == old(errorCount) && exited == old(exited)
    {
      browser := Open;
      if !initOk || !loginOk {
        browser := Closed;
        return false;
      }
      columns := Some(identified);
      if identified == 0 {
        browser := Closed;
        return false;
      }
      return true;
    }

    /** The URL checks of `validate_tweetdeck`: up to three, pausing 1
        then 2 seconds between them. */
    static method CheckUrl(urlAt: nat -> string, deck: string) returns (found: bool, slept: seq<nat>)
      ensures (found, slept) == UrlChecks(urlAt, deck, 0)
    {
      slept := [];
      var attempt := 0;
      while attempt < 3
        invariant 0 <= attempt < 3
        invariant UrlChecks(urlAt, deck, 0).0 == UrlChecks(urlAt, deck, attempt).0
        invariant UrlChecks(urlAt, deck, 0).1 == slept + UrlChecks(urlAt, deck, attempt).1
      {
        if Contains(urlAt(attempt), deck) {
          break;
        }
        var delay := Delay(1, attempt);
        if attempt < 2 {
          ghost var rest := UrlChecks(urlAt, deck, attempt + 1).1;
          ConcatAssoc(slept, [delay], rest);
          slept := slept + [delay];
        } else {
          assert slept + [] == slept;
          return false, slept;
        }
        attempt := attempt + 1;
      }
      assert UrlChecks(urlAt, deck, attempt) == (true, []);
      assert slept + [] == slept;
      found := true;
    }

    /** The column checks of `validate_tweetdeck`: up to three,
        identifying the columns again and pausing 2 then 4 seconds between
        them. */
    method CheckColumns(identify: nat -> Option<nat>) returns (r: ColumnResult)
      requires columns.Some?
      modifies this
      ensures r == ColumnChecks(old(columns).value, identify, 0)
      ensures columns == (if r.Broke? then columns else Some(r.columns))
      ensures browser == old(browser) && isRunning == old(isRunning) && exited == old(exited)
      ensures errorCount == old(errorCount)
    {
      var slept := [];
      var attempt := 0;
      while attempt < 3
        invariant 0 <= attempt < 3 && columns.Some?
        invariant browser == old(browser) && isRunning == old(isRunning) && exited == old(exited)
        invariant errorCount == old(errorCount)
        invariant ColumnChecks(old(columns).value, identify, 0) == Slept(slept, ColumnChecks(columns.value, identify, attempt))
      {
        if columns.value > 0 {
          break;
        }
        var delay := Delay(2, attempt);
        if attempt < 2 {
          var found := identify(attempt);
          if found.None? {
            // The exception is caught at the end of `validate_tweetdeck`.
            assert slept + [] == slept;
            return Broke(slept);
          }
          ghost var next := ColumnChecks(found.value, identify, attempt + 1);
          ConcatAssoc(slept, [delay], next.sleeps);
          assert Slept(slept, Slept([delay], next)) == Slept(slept + [delay], next);
          columns := found;
          slept := slept + [delay];
        } else {
          assert slept + [] == slept;
          return NotReady(columns.value, slept);
        }
        attempt := attempt + 1;
      }
      assert slept + [] == slept;
      r := Ready(columns.value, slept);
    }

    /** `validate_tweetdeck`, the page showing `urlAt(k)` at the `k`-th URL
        check: every path that fails counts exactly one error and returns
        false; the pauses are those of the URL checks then of the column
        checks. */
    method ValidateTweetdeck(urlAt: nat -> string, identify: nat -> Option<nat>) returns (valid: bool, slept: seq<nat>)
      modifies this
      ensures errorCount == old(errorCount) + (if valid then 0 else 1)
      ensures browser == old(browser) && isRunning == old(isRunning) && exited == old(exited)
      ensures old(browser) == NoBrowser || old(columns).None? || deckUrl.None? ==> !valid && slept == [] && columns == old(columns)
      ensures old(browser) != NoBrowser && old(columns).Some? && deckUrl.Some? ==>
        var u := UrlChecks(urlAt, deckUrl.value, 0);
        if !u.0 then !valid && slept == u.1 && columns == old(columns)
        else
          var c := ColumnChecks(old(columns).value, identify, 0);
          (valid <==> c.Ready?) && slept == u.1 + c.sleeps
          && columns == (if c.Broke? then columns else Some(c.columns))
    {
      if browser == NoBrowser || columns.None? {
        errorCount := errorCount + 1;
        return false, [];
      }
      if deckUrl.None? {
        // `None in current_url` raises `TypeError`.
        errorCount := errorCount + 1;
        return false, [];
      }
      var found;
      found, slept := CheckUrl(urlAt, deckUrl.value);
      if !found {
        errorCount := errorCount + 1;
        return false, slept;
      }
      var c := CheckColumns(identify);
      slept := slept + c.sleeps;
      valid := c.Ready?;
      if !valid {
        errorCount := errorCount + 1;
      }
    }

    /** `shutdown`: stop the loop and close any browser. */
    method Shutdown()
      modifies this
      ensures !isRunning && browser == (if old(browser) == NoBrowser then NoBrowser else Closed)
      ensures columns == old(columns) && errorCount == old(errorCount) && exited == old(exited)
    {
      isRunning := false;
      if browser != NoBrowser {
        browser := Closed;
      }
    }

    /** `collect_tweets` over the attempts made before the process is told
        to stop: the count, the exit and the pauses are those `Collect`
        gives, and an exit first shuts down. */
    method CollectTweets(attempts: seq<Attempt>) returns (ran: nat, waits: seq<nat>)
      requires !exited
      modifies this
      ensures var o := Collect(old(errorCount), attempts);
        && errorCount == o.errors && ran == o.ran && waits == o.waits && exited == o.exited
      ensures columns == old(columns)
      ensures !exited ==> browser == old(browser) && isRunning == old(isRunning)
      ensures exited ==> !isRunning && browser == (if old(browser) == NoBrowser then NoBrowser else Closed)
    {
      ghost var e0 := errorCount;
      ran, waits := 0, [];
      var i := 0;
      while i < |attempts|
        invariant 0 <= i <= |attempts| && ran == i
        invariant !exited && columns == old(columns) && browser == old(browser) && isRunning == old(isRunning)
        invariant var o0 := Collect(e0, attempts);
          var o := Collect(errorCount, attempts[i..]);
          o0.errors == o.errors && o0.exited == o.exited && o0.waits == waits + o.waits && o0.ran == i + o.ran
      {
        assert attempts[i..][1..] == attempts[i + 1..];
        ghost var e := Counted(errorCount, attempts[i]);
        ghost var rest := Collect(e, attempts[i + 1..]);
        ghost var before := Collect(errorCount, attempts[i..]);
        ran := ran + 1;
        match attempts[i] {
          case Scraped(nonEmpty) =>
            assert before.waits == [] + rest.waits == rest.waits;
            if nonEmpty {
              errorCount := 0;
            }
          case Raised(message) =>
            errorCount := errorCount + 1;
            if errorCount >= MAX_ERRORS {
              Shutdown();
              exited := true;
              return;
            }
            assert before.waits == [RetryWait(message)] + rest.waits;
            ConcatAssoc(waits, [RetryWait(message)], rest.waits);
            waits := waits + [RetryWait(message)];
        }
        i := i + 1;
      }
    }

    /** `run`: initialise, then collect. A failed initialisation shuts
        down and exits with code 1, as does the error threshold inside the
        loop; otherwise the `finally` shuts down. The browser ends closed
        and the loop stopped either way. */
    method Run(initOk: bool, loginOk: bool, identified: nat, attempts: seq<Attempt>) returns (exitCode: Option<nat>)
      requires !exited && errorCount < MAX_ERRORS
      modifies this
      ensures browser == Closed && !isRunning
      ensures exitCode == Some(1) <==> !(initOk && loginOk && identified > 0) || Collect(old(errorCount), attempts).exited
      ensures exitCode == None || exitCode == Some(1)
    {
      var ok := InitializeBrowser(initOk, loginOk, identified);
      if !ok {
        Shutdown();
        return Some(1);
      }
      var ran, waits := CollectTweets(attempts);
      if exited {
        return Some(1);
      }
      Shutdown();
      return None;
    }
  }
}
