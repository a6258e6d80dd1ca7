// scraper_process.py: the standalone scraping process. It scrapes every
// column once, then polls them, counting checks, tweets found and errors
// in `monitor_stats`. The `TweetScraper` it drives (tweet_scraper.py) is
// not part of this model: a scrape is a value of `Scan`, and a column
// table is the set of its column ids.

module ScraperProcess {
  import opened Common

  /** `max_consecutive_errors` in `continuous_scraping`. */
  const MAX_CONSECUTIVE: nat := 3

  /** The longest error backoff, in seconds. */
  const MAX_BACKOFF: nat := 60

  /** What `scrape_all_columns` did: the `(column_id, count)` pairs it
      returned, or an exception. */
  datatype Scan = Results(pairs: seq<(string, nat)>) | ScanRaised

  /** The counts of a result list. */
  function Counts(pairs: seq<(string, nat)>): (cs: seq<nat>)
    ensures |cs| == |pairs| && forall i :: 0 <= i < |pairs| ==> cs[i] == pairs[i].1
  {
    if pairs == [] then [] else [pairs[0].1] + Counts(pairs[1..])
  }

  /** `sum(count for _, count in results)`. */
  function Total(pairs: seq<(string, nat)>): nat
  {
    Sum(Counts(pairs))
  }

  lemma {:induction false} TotalPositive(pairs: seq<(string, nat)>, i: nat)
    requires i < |pairs| && pairs[i].1 > 0
    ensures Total(pairs) > 0
    decreases i
  {
    if i > 0 {
      assert pairs[1..][i - 1] == pairs[i];
      TotalPositive(pairs[1..], i - 1);
      assert Counts(pairs) == [pairs[0].1] + Counts(pairs[1..]);
    }
  }

  /** Some column with new tweets is missing from the column table, so
      looking up its title raises `KeyError`. */
  predicate UnknownCounted(pairs: seq<(string, nat)>, columns: set<string>)
  {
    exists i :: 0 <= i < |pairs| && pairs[i].1 > 0 && pairs[i].0 !in columns
  }

  /** `monitor_tweets`: the results when there are any, `None` when the
      scrape raised or found nothing, or when logging a column with new
      tweets raised. */
  function Monitor(scan: Scan, columns: set<string>): Option<seq<(string, nat)>>
  {
    match scan
    case ScanRaised => None
    case Results(pairs) =>
      if pairs == [] then None
      else if Total(pairs) > 0 && UnknownCounted(pairs, columns) then None
      else Some(pairs)
  }

  /** A column with new tweets but no entry in the column table always
      turns the check into `None`, though the scrape succeeded; results
      that are all zero are returned whatever their column ids. */
  lemma MonitorUnknownColumn(pairs: seq<(string, nat)>, columns: set<string>, i: nat)
    requires i < |pairs| && pairs[i].1 > 0 && pairs[i].0 !in columns
    ensures Monitor(Results(pairs), columns) == None
  {
    TotalPositive(pairs, i);
  }

  lemma MonitorReturnsZeroCounts(pairs: seq<(string, nat)>, columns: set<string>)
    requires pairs != [] && forall i :: 0 <= i < |pairs| ==> pairs[i].1 == 0
    ensures Monitor(Results(pairs), columns) == Some(pairs)
  {
  }

  /** The tweets a check adds to `total_tweets_found`. */
  function Found(scan: Scan, columns: set<string>): nat
  {
    match Monitor(scan, columns)
    case None => 0
    case Some(pairs) => Total(pairs)
  }

  /** `min(60, 2 ** consecutive_errors)`. */
  function Backoff(consecutive: nat): (s: nat)
  {
    if consecutive == 0 then 1
    else var half := Backoff(consecutive - 1); if 2 * half > MAX_BACKOFF then MAX_BACKOFF else 2 * half
  }

  /** The backoff doubles with every consecutive error, from one second,
      until it is capped at sixty. */
  lemma {:induction false} BackoffBounds(consecutive: nat)
    ensures 1 <= Backoff(consecutive) <= MAX_BACKOFF
    ensures consecutive <= 5 ==> Backoff(consecutive) == Pow2(consecutive)
    ensures consecutive >= 6 ==> Backoff(consecutive) == MAX_BACKOFF
  {
    if consecutive > 0 {
      BackoffBounds(consecutive - 1);
    }
  }

  function Pow2(n: nat): nat
  {
    if n == 0 then 1 else 2 * Pow2(n - 1)
  }

  /** One pass of the polling loop: a check (`monitor_tweets` swallows
      every failure of the scrape), or an exception that escaped the body,
      after which the browser is reinitialised if the errors have run up
      (`reinitOk`: whether that worked). */
  datatype Event = Checked(scan: Scan) | Failed(reinitOk: bool)

  /** A pause at the end of a pass: the monitor interval after a check,
      or an error backoff in seconds. */
  datatype Pause = Interval | BackoffFor(seconds: nat)

  /** `monitor_stats` without its start time. */
  datatype Stats = Stats(checks: nat, found: nat, errors: nat)

  /** Where `continuous_scraping` ends over a trace of passes: the stats,
      the consecutive-error counter and the pauses taken. */
  datatype Polled = Polled(stats: Stats, consecutive: nat, pauses: seq<Pause>)

  function Poll(st: Stats, consecutive: nat, events: seq<Event>, columns: set<string>): Polled
    decreases |events|
  {
    if events == [] then Polled(st, consecutive, [])
    else
      var checked := st.(checks := st.checks + 1);
      match events[0]
      case Checked(scan) =>
        var r := Poll(checked.(found := checked.found + Found(scan, columns)), 0, events[1..], columns);
        r.(pauses := [Interval] + r.pauses)
      case Failed(reinitOk) =>
        var c := if consecutive + 1 >= MAX_CONSECUTIVE && reinitOk then 0 else consecutive + 1;
        var r := Poll(checked.(errors := checked.errors + 1), c, events[1..], columns);
        r.(pauses := [BackoffFor(Backoff(c))] + r.pauses)
  }

  /** One pass of `continuous_scraping`: the stats and counter after it
      and the pause that ends it. */
  function Advance(st: Stats, consecutive: nat, e: Event, columns: set<string>): Polled
  {
    var checked := st.(checks := st.checks + 1);
    match e
    case Checked(scan) => Polled(checked.(found := checked.found + Found(scan, columns)), 0, [Interval])
    case Failed(reinitOk) =>
      var c := if consecutive + 1 >= MAX_CONSECUTIVE && reinitOk then 0 else consecutive + 1;
      Polled(checked.(errors := checked.errors + 1), c, [BackoffFor(Backoff(c))])
  }

  /** A trace is its first pass followed by the rest. */
  lemma PollUnfold(st: Stats, consecutive: nat, events: seq<Event>, columns: set<string>)
    requires events != []
    ensures var a := Advance(st, consecutive, events[0], columns);
      var r := Poll(a.stats, a.consecutive, events[1..], columns);
      Poll(st, consecutive, events, columns) == r.(pauses := a.pauses + r.pauses)
  {
  }

  /** The number of passes that raised. */
  function Failures(events: seq<Event>): nat
  {
    if events == [] then 0 else (if events[0].Failed? then 1 else 0) + Failures(events[1..])
  }

  /** The tweets the checks of a trace found. */
  function FoundIn(events: seq<Event>, columns: set<string>): nat
  {
    if events == [] then 0
    else (if events[0].Checked? then Found(events[0].scan, columns) else 0) + FoundIn(events[1..], columns)
  }

  /** Every pass counts one check; the errors grow by the passes that
      raised and the tweets found by what the checks returned; one pause
      per pass. */
  lemma {:induction false} PollCounts(st: Stats, consecutive: nat, events: seq<Event>, columns: set<string>)
    ensures var r := Poll(st, consecutive, events, columns);
      && r.stats.checks == st.checks + |events|
      && r.stats.errors == st.errors + Failures(events)
      && r.stats.found == st.found + FoundIn(events, columns)
      && |r.pauses| == |events|
    decreases |events|
  {
    if events != [] {
      var checked := st.(checks := st.checks + 1);
      match events[0]
      case Checked(scan) =>
        PollCounts(checked.(found := checked.found + Found(scan, columns)), 0, events[1..], columns);
      case Failed(reinitOk) =>
        var c := if consecutive + 1 >= MAX_CONSECUTIVE && reinitOk then 0 else consecutive + 1;
        PollCounts(checked.(errors := checked.errors + 1), c, events[1..], columns);
    }
  }

  /** Failed scrapes never reach the error path: a trace of checks leaves
      the errors alone, keeps the counter at zero and never backs off. */
  lemma {:induction false} ScanFailuresHarmless(st: Stats, consecutive: nat, events: seq<Event>, columns: set<string>)
    requires events != [] && forall i :: 0 <= i < |events| ==> events[i].Checked?
    ensures var r := Poll(st, consecutive, events, columns);
      r.stats.errors == st.errors && r.consecutive == 0 && forall k :: 0 <= k < |r.pauses| ==> r.pauses[k] == Interval
    decreases |events|
  {
    var next := st.(checks := st.checks + 1, found := st.found + Found(events[0].scan, columns));
    if |events| > 1 {
      ScanFailuresHarmless(next, 0, events[1..], columns);
    }
  }

  /** Every error backoff lies between one and sixty seconds. */
  lemma {:induction false} BackoffCapped(st: Stats, consecutive: nat, events: seq<Event>, columns: set<string>)
    ensures var r := Poll(st, consecutive, events, columns);
      forall k :: 0 <= k < |r.pauses| && r.pauses[k].BackoffFor? ==> 1 <= r.pauses[k].seconds <= MAX_BACKOFF
    decreases |events|
  {
    if events != [] {
      var checked := st.(checks := st.checks + 1);
      match events[0]
      case Checked(scan) =>
        var next := checked.(found := checked.found + Found(scan, columns));
        BackoffCapped(next, 0, events[1..], columns);
        assert Poll(st, consecutive, events, columns).pauses == [Interval] + Poll(next, 0, events[1..], columns).pauses;
      case Failed(reinitOk) =>
        var c := if consecutive + 1 >= MAX_CONSECUTIVE && reinitOk then 0 else consecutive + 1;
        var next := checked.(errors := checked.errors + 1);
        BackoffBounds(c);
        BackoffCapped(next, c, events[1..], columns);
        assert Poll(st, consecutive, events, columns).pauses == [BackoffFor(Backoff(c))] + Poll(next, c, events[1..], columns).pauses;
    }
  }

  /** The counter is reset only by a check or by a reinitialisation that
      worked: while every reinitialisation works it stays below three,
      and while every one fails it counts the errors. */
  lemma {:induction false} ReinitResets(st: Stats, consecutive: nat, events: seq<Event>, columns: set<string>)
    requires consecutive < MAX_CONSECUTIVE
    requires forall i :: 0 <= i < |events| && events[i].Failed? ==> events[i].reinitOk
    ensures Poll(st, consecutive, events, columns).consecutive < MAX_CONSECUTIVE
    decreases |events|
  {
    if events != [] {
      var checked := st.(checks := st.checks + 1);
      match events[0]
      case Checked(scan) =>
        ReinitResets(checked.(found := checked.found + Found(scan, columns)), 0, events[1..], columns);
      case Failed(reinitOk) =>
        var c := if consecutive + 1 >= MAX_CONSECUTIVE && reinitOk then 0 else consecutive + 1;
        ReinitResets(checked.(errors := checked.errors + 1), c, events[1..], columns);
    }
  }

  lemma {:induction false} ReinitFails(st: Stats, consecutive: nat, events: seq<Event>, columns: set<string>)
    requires forall i :: 0 <= i < |events| ==> events[i] == Failed(false)
    ensures Poll(st, consecutive, events, columns).consecutive == consecutive + |events|
    decreases |events|
  {
    if events != [] {
      ReinitFails(st.(checks := st.checks + 1, errors := st.errors + 1), consecutive + 1, events[1..], columns);
    }
  }

  class TweetScraperProcess {
    /** `monitor_stats['total_checks']`. */
    var totalChecks: nat
    /** `monitor_stats['total_tweets_found']`. */
    var totalTweetsFound: nat
    /** `monitor_stats['errors']`. */
    var errors: nat
    var isRunning: bool

    function StatsOf(): Stats
      reads this
    {
      Stats(totalChecks, totalTweetsFound, errors)
    }

    /** `__init__`: the counters start at zero. */
    constructor ()
      ensures StatsOf() == Stats(0, 0, 0) && isRunning
    {
      totalChecks, totalTweetsFound, errors := 0, 0, 0;
      isRunning := true;
    }

    /** `monitor_tweets`: looks up every column with new tweets to log its
        title; never raises. */
    static method MonitorTweets(scan: Scan, columns: set<string>) returns (r: Option<seq<(string, nat)>>)
      ensures r == Monitor(scan, columns)
    {
      if scan.ScanRaised? || scan.pairs == [] {
        return None;
      }
      var pairs := scan.pairs;
      var total := Total(pairs);
      if total > 0 {
        var i := 0;
        while i < |pairs|
          invariant 0 <= i <= |pairs|
          invariant forall j :: 0 <= j < i ==> pairs[j].1 == 0 || pairs[j].0 in columns
        {
          if pairs[i].1 > 0 && pairs[i].0 !in columns {
            // The title lookup raises `KeyError`, caught below.
            return None;
          }
          i := i + 1;
        }
      }
      return Some(pairs);
    }

    /** `continuous_scraping` over the passes made before the process is
        told to stop: the stats, the consecutive-error counter and the
        pauses are those `Poll` gives. */
    method ContinuousScraping(events: seq<Event>, columns: set<string>) returns (consecutive: nat, pauses: seq<Pause>)
      modifies this
      ensures var r := Poll(old(StatsOf()), 0, events, columns);
        StatsOf() == r.stats && consecutive == r.consecutive && pauses == r.pauses
      ensures isRunning == old(isRunning)
    {
      ghost var st0 := StatsOf();
      consecutive, pauses := 0, [];
      var i := 0;
      while i < |events|
        invariant 0 <= i <= |events| && isRunning == old(isRunning)
        invariant var r0 := Poll(st0, 0, events, columns);
          var r := Poll(StatsOf(), consecutive, events[i..], columns);
          r0.stats == r.stats && r0.consecutive == r.consecutive && r0.pauses == pauses + r.pauses
      {
        assert events[i..][1..] == events[i + 1..];
        ghost var a := Advance(StatsOf(), consecutive, events[i], columns);
        PollUnfold(StatsOf(), consecutive, events[i..], columns);
        ghost var rest := Poll(a.stats, a.consecutive, events[i + 1..], columns);
        totalChecks := totalChecks + 1;
        var pause;
        match events[i] {
          case Checked(scan) =>
            var results := MonitorTweets(scan, columns);
            if results.Some? {
              totalTweetsFound := totalTweetsFound + Total(results.value);
            }
            consecutive := 0;
            pause := Interval;
          case Failed(reinitOk) =>
            errors := errors + 1;
            consecutive := consecutive + 1;
            if consecutive >= MAX_CONSECUTIVE && reinitOk {
              consecutive := 0;
            }
            var backoff := Backoff(consecutive);
            pause := BackoffFor(backoff);
        }
        assert StatsOf() == a.stats && consecutive == a.consecutive && [pause] == a.pauses;
        ConcatAssoc(pauses, [pause], rest.pauses);
        pauses := pauses + [pause];
        i := i + 1;
      }
    }

    /** `initial_scrape`: the total of the scraped counts, once the title
        of every scraped column has been looked up; `None` when one is
        missing (`KeyError`, which ends the run). */
    static method InitialScrape(results: seq<(string, nat)>, columns: set<string>) returns (total: Option<nat>)
      ensures total.Some? <==> forall i :: 0 <= i < |results| ==> results[i].0 in columns
      ensures total.Some? ==> total.value == Sum(Counts(results))
    {
      var sum := Total(results);
      var i := 0;
      while i < |results|
        invariant 0 <= i <= |results|
        invariant forall j :: 0 <= j < i ==> results[j].0 in columns
      {
        if results[i].0 !in columns {
          return None;
        }
        i := i + 1;
      }
      return Some(sum);
    }

    /** `shutdown`. */
    method Shutdown()
      modifies this
      ensures !isRunning && StatsOf() == old(StatsOf())
    {
      isRunning := false;
    }
  }
}
