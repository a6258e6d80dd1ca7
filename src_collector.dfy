// src/tweet_collector.py: the scheduled collector that scrapes each
// category's Twitter lists once a day and saves them. The scheduler, the
// thread pool and the wall clock are parameters here: `Now` gives the two
// dates the collector reads, a category's scrape-and-save is a
// `CategoryRun` (modelled on its own in ListScraper and FileHandler), and
// the thread pool's completion order is a permutation of the categories.

module SrcCollector {
  import opened Common
  import ApiClient

  /** `self.max_errors`. */
  const MAX_ERRORS: nat := 3

  /** The dates the collector reads off the clock, as `YYYYMMDD`: the
      local date, and the UTC date one day ago. */
  datatype Now = Now(today: string, yesterday: string)

  /** `data/session/current_date.txt`: absent, unreadable (reading it, or
      creating its directory, raises), or holding a text. */
  datatype DateFile = Missing | Unreadable | Text(text: string)

  /** `int(text)`: surrounding whitespace, an optional sign and ASCII
      digits; `None` when it raises `ValueError`. */
  function PyInt(text: string): Option<int>
  {
    ApiClient.ParseInt(Strip(text))
  }

  /** The saved date is usable: it parses as `%Y%m%d` and is not after
      today (midnight of a later day is in the future, of today or before
      it is not). */
  predicate UsableDate(saved: string, now: Now)
  {
    IsYmd(saved) && (IsDigits(now.today) ==> DigitsValue(saved) <= DigitsValue(now.today))
  }

  /** `_load_or_initialize_date`: the date adopted, and whether it is
      written back to the file. */
  function LoadedDate(file: DateFile, now: Now): DateChoice
  {
    match file
    case Missing => DateChoice(now.yesterday, true)
    case Unreadable => DateChoice(now.yesterday, false)
    case Text(text) =>
      var saved := Strip(text);
      if UsableDate(saved, now) then DateChoice(saved, false) else DateChoice(now.yesterday, true)
  }

  datatype DateChoice = DateChoice(date: string, save: bool)

  /** A saved date is adopted exactly when it is a valid date not in the
      future; in every other case the collector falls back to yesterday,
      and saves it unless the file could not be read. */
  lemma LoadedDateChoice(file: DateFile, now: Now)
    ensures var r := LoadedDate(file, now);
      && (file.Text? && UsableDate(Strip(file.text), now) ==> r.date == Strip(file.text) && !r.save)
      && (!(file.Text? && UsableDate(Strip(file.text), now)) ==> r.date == now.yesterday && r.save == !file.Unreadable?)
  {
  }

  lemma {:induction false} DigitsStrip(s: string)
    requires IsDigits(s)
    ensures LStrip(s) == s && RStrip(s) == s && Strip(s) == s
  {
    assert !IsSpace(s[0]) && !IsSpace(s[|s| - 1]);
  }

  /** Whatever the file held, a date the collector saved is adopted as it
      is on the next start, provided yesterday is a valid date not after
      today. */
  lemma ReloadKeepsDate(file: DateFile, now: Now)
    requires IsYmd(now.yesterday) && IsDigits(now.today) && DigitsValue(now.yesterday) <= DigitsValue(now.today)
    ensures var r := LoadedDate(file, now);
      r.save ==> LoadedDate(Text(r.date), now) == DateChoice(r.date, false)
  {
    DigitsStrip(now.yesterday);
  }

  /** What one category's scrape and save did: the tweets collected and
      the file written, or the message of the exception raised. */
  datatype CategoryRun = Ran(tweets: seq<Record>, outputFile: string) | RunFailed(message: string)

  /** The stats `process_category` returns. */
  datatype CategoryStats =
    | Success(category: string, tweetCount: nat, listCount: nat, outputFile: string)
    | Failure(category: string, error: string)

  /** `process_category`: `None` when `len(list_urls)`, taken for a log
      line before the `try`, raises. */
  function ProcessCategory(category: string, listUrls: Json, run: CategoryRun): (r: Option<CategoryStats>)
  {
    match PyLen(listUrls)
    case None => None
    case Some(n) =>
      match run
      case Ran(tweets, file) => Some(Success(category, |tweets|, n, file))
      case RunFailed(message) => Some(Failure(category, message))
  }

  /** A category's stats name it, and succeed exactly when its run did,
      counting the run's tweets and the category's lists. */
  lemma ProcessCategoryStats(category: string, listUrls: Json, run: CategoryRun)
    ensures var r := ProcessCategory(category, listUrls, run);
      && (r.None? <==> !(listUrls.JStr? || listUrls.JList? || listUrls.JObj?))
      && (r.Some? ==> r.value.category == category && (r.value.Success? <==> run.Ran?))
      && (r.Some? && run.Ran? ==> r.value.tweetCount == |run.tweets| && Some(r.value.listCount) == PyLen(listUrls))
  {
  }

  /** The category's stats, with an exception turned into an error entry
      as the parallel path's `future.result()` handler does. */
  function StatsOrError(category: string, listUrls: Json, run: CategoryRun): CategoryStats
  {
    match ProcessCategory(category, listUrls, run)
    case None => Failure(category, "object has no len()")
    case Some(s) => s
  }

  /** The summary: successful categories, failed categories, and tweets
      (`tweet_count`, 0 for a failure). */
  datatype Summary = Summary(succeeded: nat, failed: nat, tweets: nat)

  function Tally(results: seq<CategoryStats>): (s: Summary)
    ensures s.succeeded + s.failed == |results|
  {
    if results == [] then Summary(0, 0, 0)
    else
      var rest := Tally(results[1..]);
      match results[0]
      case Success(_, n, _, _) => Summary(rest.succeeded + 1, rest.failed, rest.tweets + n)
      case Failure(_, _) => Summary(rest.succeeded, rest.failed + 1, rest.tweets)
  }

  function Add(a: Summary, b: Summary): Summary
  {
    Summary(a.succeeded + b.succeeded, a.failed + b.failed, a.tweets + b.tweets)
  }

  lemma {:induction false} TallyAppend(a: seq<CategoryStats>, b: seq<CategoryStats>)
    ensures Tally(a + b) == Add(Tally(a), Tally(b))
    decreases |a|
  {
    if a == [] {
      assert a + b == b;
    } else {
      var ab := a + b;
      assert ab[0] == a[0] && ab[1..] == a[1..] + b;
      TallyAppend(a[1..], b);
      var rest := Tally(ab[1..]);
      assert Tally(ab) == match a[0]
        case Success(_, n, _, _) => Summary(rest.succeeded + 1, rest.failed, rest.tweets + n)
        case Failure(_, _) => Summary(rest.succeeded, rest.failed + 1, rest.tweets);
    }
  }

  /** Where the first element of `a` sits in its permutation `b`, and
      the permutation that remains without it. */
  lemma RemoveFirst<T>(a: seq<T>, b: seq<T>) returns (j: nat)
    requires a != [] && multiset(a) == multiset(b)
    ensures j < |b| && b[j] == a[0]
    ensures b == b[..j] + [b[j]] + b[j + 1..]
    ensures multiset(a[1..]) == multiset(b[..j] + b[j + 1..])
  {
    assert a[0] in multiset(b);
    j :| 0 <= j < |b| && b[j] == a[0];
    assert b == b[..j] + [b[j]] + b[j + 1..];
    assert a == [a[0]] + a[1..];
    assert multiset(b) == multiset(b[..j]) + multiset{b[j]} + multiset(b[j + 1..]);
    assert multiset(a) == multiset{a[0]} + multiset(a[1..]);
    assert multiset(b[..j] + b[j + 1..]) == multiset(b[..j]) + multiset(b[j + 1..]);
    assert multiset(a[1..]) == multiset(a) - multiset{a[0]};
  }

  /** The summary does not depend on the order the results arrive in. */
  lemma {:induction false} TallyPermutation(a: seq<CategoryStats>, b: seq<CategoryStats>)
    requires multiset(a) == multiset(b)
    ensures Tally(a) == Tally(b)
    decreases |a|
  {
    if a != [] {
      var j := RemoveFirst(a, b);
      var pre, mid, post := b[..j], [b[j]], b[j + 1..];
      TallyPermutation(a[1..], pre + post);
      assert a == mid + a[1..];
      TallyAppend(mid, a[1..]);
      TallyAppend(pre + mid, post);
      TallyAppend(pre, mid);
      TallyAppend(pre, post);
    }
  }

  /** `xs` read in the order `order` (an index outside `xs` reads as an
      error entry, which a permutation never produces). */
  function Reorder(xs: seq<CategoryStats>, order: seq<nat>): (r: seq<CategoryStats>)
    ensures |r| == |order|
    ensures forall k :: 0 <= k < |order| && order[k] < |xs| ==> r[k] == xs[order[k]]
  {
    if order == [] then []
    else [if order[0] < |xs| then xs[order[0]] else Failure("", "")] + Reorder(xs, order[1..])
  }

  /** `0, 1, ..., n - 1`. */
  function Range(n: nat): (r: seq<nat>)
    ensures |r| == n && forall i :: 0 <= i < n ==> r[i] == i
  {
    if n == 0 then [] else Range(n - 1) + [n - 1]
  }

  /** The order in which `as_completed` yields `n` futures: each once. */
  predicate IsPermutation(order: seq<nat>, n: nat)
  {
    multiset(order) == multiset(Range(n))
  }

  lemma {:induction false} ReorderMultiset(xs: seq<CategoryStats>, a: seq<nat>, b: seq<nat>)
    requires multiset(a) == multiset(b)
    ensures multiset(Reorder(xs, a)) == multiset(Reorder(xs, b))
    decreases |a|
  {
    if a != [] {
      var j := RemoveFirst(a, b);
      var pre, mid, post := b[..j], [b[j]], b[j + 1..];
      ReorderMultiset(xs, a[1..], pre + post);
      assert a == mid + a[1..];
      ReorderAppend(xs, mid, a[1..]);
      ReorderAppend(xs, pre + mid, post);
      ReorderAppend(xs, pre, mid);
      ReorderAppend(xs, pre, post);
      MoveToFront(Reorder(xs, a[1..]), Reorder(xs, pre), Reorder(xs, mid), Reorder(xs, post));
    }
  }

  /** Moving a middle part to the front keeps the multiset, whatever the
      rest was rearranged into. */
  lemma MoveToFront<T>(tail: seq<T>, pre: seq<T>, mid: seq<T>, post: seq<T>)
    requires multiset(tail) == multiset(pre + post)
    ensures multiset(mid + tail) == multiset(pre + mid + post)
  {
    assert multiset(mid + tail) == multiset(mid) + multiset(pre) + multiset(post);
  }

  lemma {:induction false} ReorderAppend(xs: seq<CategoryStats>, a: seq<nat>, b: seq<nat>)
    ensures Reorder(xs, a + b) == Reorder(xs, a) + Reorder(xs, b)
    decreases |a|
  {
    if a != [] {
      assert (a + b)[1..] == a[1..] + b;
      ReorderAppend(xs, a[1..], b);
    } else {
      assert a + b == b;
    }
  }

  lemma ReorderSnoc(xs: seq<CategoryStats>, order: seq<nat>, k: nat)
    requires k < |order|
    ensures Reorder(xs, order[..k + 1]) == Reorder(xs, order[..k]) + Reorder(xs, [order[k]])
  {
    assert order[..k + 1] == order[..k] + [order[k]];
    ReorderAppend(xs, order[..k], [order[k]]);
  }

  lemma ReorderOne(xs: seq<CategoryStats>, i: nat)
    ensures Reorder(xs, [i]) == [if i < |xs| then xs[i] else Failure("", "")]
  {
    assert [i][1..] == [];
  }

  /** Results collected in completion order summarise exactly as the same
      results in submission order. */
  lemma CompletionOrderSummary(xs: seq<CategoryStats>, order: seq<nat>)
    requires IsPermutation(order, |xs|)
    ensures multiset(Reorder(xs, order)) == multiset(xs)
    ensures Tally(Reorder(xs, order)) == Tally(xs)
  {
    ReorderMultiset(xs, order, Range(|xs|));
    ReorderRange(xs);
    TallyPermutation(Reorder(xs, order), xs);
  }

  /** Read in submission order, the results are unchanged. */
  lemma ReorderRange(xs: seq<CategoryStats>)
    ensures Reorder(xs, Range(|xs|)) == xs
  {
  }

  /** The parallel path's stats, in submission order. */
  function AllStats(entries: seq<(string, Json)>, runs: nat -> CategoryRun): (r: seq<CategoryStats>)
    ensures |r| == |entries|
    ensures forall i :: 0 <= i < |entries| ==> r[i] == StatsOrError(entries[i].0, entries[i].1, runs(i))
  {
    seq(|entries|, i requires 0 <= i < |entries| => StatsOrError(entries[i].0, entries[i].1, runs(i)))
  }

  /** The sequential path: the stats of every category, or `None` when one
      of them raises (which ends `collect_tweets` in its handler). */
  function SequentialStats(entries: seq<(string, Json)>, runs: nat -> CategoryRun, from: nat): (r: Option<seq<CategoryStats>>)
    requires from <= |entries|
    decreases |entries| - from
  {
    if from == |entries| then Some([])
    else
      match ProcessCategory(entries[from].0, entries[from].1, runs(from))
      case None => None
      case Some(s) =>
        match SequentialStats(entries, runs, from + 1)
        case None => None
        case Some(rest) => Some([s] + rest)
  }

  lemma SliceCons<T>(s: seq<T>, i: nat)
    requires i < |s|
    ensures s[i..] == [s[i]] + s[i + 1..]
  {
  }

  /** When no category raises, the sequential path gives the same stats
      as the parallel path, in submission order. */
  lemma {:induction false} SequentialMatchesParallel(entries: seq<(string, Json)>, runs: nat -> CategoryRun, from: nat)
    requires from <= |entries|
    ensures var r := SequentialStats(entries, runs, from);
      r.Some? <==> forall i :: from <= i < |entries| ==> PyLen(entries[i].1).Some?
    ensures var r := SequentialStats(entries, runs, from);
      r.Some? ==> r.value == AllStats(entries, runs)[from..]
    decreases |entries| - from
  {
    if from < |entries| {
      SequentialMatchesParallel(entries, runs, from + 1);
      var head := ProcessCategory(entries[from].0, entries[from].1, runs(from));
      assert head.None? <==> PyLen(entries[from].1).None?;
      var all := AllStats(entries, runs);
      assert head.Some? ==> head.value == all[from];
      SliceCons(all, from);
    }
  }

  /** The error count after a run of `collect_tweets` that failed (or
      not): one more, back to zero when it reaches the maximum. */
  function NextErrors(errors: nat, failed: bool): (e: nat)
  {
    if !failed then errors
    else if errors + 1 >= MAX_ERRORS then 0
    else errors + 1
  }

  /** The count stays below the maximum, and a failing run either adds
      one or resets it. */
  lemma NextErrorsBounded(errors: nat, failed: bool)
    requires errors < MAX_ERRORS
    ensures NextErrors(errors, failed) < MAX_ERRORS
    ensures failed ==> NextErrors(errors, failed) == (errors + 1) % MAX_ERRORS
    ensures !failed ==> NextErrors(errors, failed) == errors
  {
  }

  class TweetCollector {
    var currentDate: string
    var dateFile: DateFile
    /** Directories created with `mkdir(parents=True, exist_ok=True)`. */
    var createdDirs: set<string>
    var errorCount: nat
    var isRunning: bool
    const outputDir: string
    const categoryWorkers: int

    /** `__init__` once the configuration has parsed and validated: the
        date is loaded and the error count starts at zero. */
    constructor (outputDir: string, categoryWorkers: int, now: Now, file: DateFile)
      ensures this.outputDir == outputDir && this.categoryWorkers == categoryWorkers
      ensures currentDate == LoadedDate(file, now).date
      ensures dateFile == (if LoadedDate(file, now).save then Text(currentDate) else file)
      ensures errorCount == 0 && isRunning && createdDirs == {}
    {
      this.outputDir := outputDir;
      this.categoryWorkers := categoryWorkers;
      currentDate := now.yesterday;
      dateFile := file;
      createdDirs := {};
      errorCount := 0;
      isRunning := true;
      new;
      LoadOrInitializeDate(now);
    }

    /** `TweetCollector()`: raises (here `None`) when a worker count is not
        an integer, or `_validate_config` finds no API key. */
    static method Create(env: map<string, string>, now: Now, file: DateFile) returns (c: Option<TweetCollector>)
      ensures c.None? <==>
        || ("MAX_SCRAPER_WORKERS" in env && PyInt(env["MAX_SCRAPER_WORKERS"]).None?)
        || ("DAYS_TO_SCRAPE" in env && PyInt(env["DAYS_TO_SCRAPE"]).None?)
        || ("CATEGORY_WORKERS" in env && PyInt(env["CATEGORY_WORKERS"]).None?)
        || "TWITTER_API_KEY" !in env || env["TWITTER_API_KEY"] == ""
      ensures c.Some? ==>
        && fresh(c.value)
        && c.value.outputDir == (if "OUTPUT_DIR" in env then env["OUTPUT_DIR"] else "data/raw")
        && c.value.categoryWorkers == (if "CATEGORY_WORKERS" in env then PyInt(env["CATEGORY_WORKERS"]).value else 1)
        && c.value.currentDate == LoadedDate(file, now).date
        && c.value.errorCount == 0
    {
      var outputDir := if "OUTPUT_DIR" in env then env["OUTPUT_DIR"] else "data/raw";
      if "MAX_SCRAPER_WORKERS" in env && PyInt(env["MAX_SCRAPER_WORKERS"]).None? {
        return None;
      }
      if "DAYS_TO_SCRAPE" in env && PyInt(env["DAYS_TO_SCRAPE"]).None? {
        return None;
      }
      var workers := 1;
      if "CATEGORY_WORKERS" in env {
        var parsed := PyInt(env["CATEGORY_WORKERS"]);
        if parsed.None? {
          return None;
        }
        workers := parsed.value;
      }
      if "TWITTER_API_KEY" !in env || env["TWITTER_API_KEY"] == "" {
        return None;
      }
      var collector := new TweetCollector(outputDir, workers, now, file);
      c := Some(collector);
    }

    /** `_load_or_initialize_date`. */
    method LoadOrInitializeDate(now: Now)
      modifies this
      ensures currentDate == LoadedDate(old(dateFile), now).date
      ensures dateFile == (if LoadedDate(old(dateFile), now).save then Text(currentDate) else old(dateFile))
      ensures errorCount == old(errorCount) && isRunning == old(isRunning) && createdDirs == old(createdDirs)
    {
      match dateFile {
        case Missing =>
          currentDate := now.yesterday;
          SaveCurrentDate();
        case Unreadable =>
          currentDate := now.yesterday;
        case Text(text) =>
          var saved := Strip(text);
          if UsableDate(saved, now) {
            currentDate := saved;
          } else {
            currentDate := now.yesterday;
            SaveCurrentDate();
          }
      }
    }

    /** `_save_current_date`. */
    method SaveCurrentDate()
      modifies this
      ensures dateFile == Text(currentDate)
      ensures currentDate == old(currentDate) && errorCount == old(errorCount)
      ensures isRunning == old(isRunning) && createdDirs == old(createdDirs)
    {
      dateFile := Text(currentDate);
    }

    /** `_check_and_update_date`: move to yesterday's date, saving it and
        creating its output folder, only when it differs. */
    method CheckAndUpdateDate(now: Now)
      modifies this
      ensures currentDate == now.yesterday
      ensures old(currentDate) == now.yesterday ==>
        dateFile == old(dateFile) && createdDirs == old(createdDirs)
      ensures old(currentDate) != now.yesterday ==>
        dateFile == Text(now.yesterday) && createdDirs == old(createdDirs) + {outputDir + "/" + now.yesterday}
      ensures errorCount == old(errorCount) && isRunning == old(isRunning)
    {
      if now.yesterday != currentDate {
        currentDate := now.yesterday;
        SaveCurrentDate();
        createdDirs := createdDirs + {outputDir + "/" + currentDate};
      }
    }

    /** `handle_critical_error`: log, and reset the count so the collector
        keeps running. */
    method HandleCriticalError()
      modifies this
      ensures errorCount == 0
      ensures currentDate == old(currentDate) && dateFile == old(dateFile)
      ensures createdDirs == old(createdDirs) && isRunning == old(isRunning)
    {
      errorCount := 0;
    }

    /** Count a failed run, handing a third one in a row to
        `handle_critical_error`. */
    method CountFailure()
      modifies this
      ensures errorCount == NextErrors(old(errorCount), true)
      ensures currentDate == old(currentDate) && dateFile == old(dateFile)
      ensures createdDirs == old(createdDirs) && isRunning == old(isRunning)
    {
      errorCount := errorCount + 1;
      if errorCount >= MAX_ERRORS {
        HandleCriticalError();
      }
    }

    /** The sequential loop of `collect_tweets`; `None` when a category
        raises. */
    static method ProcessSequentially(entries: seq<(string, Json)>, runs: nat -> CategoryRun) returns (r: Option<seq<CategoryStats>>)
      ensures r == SequentialStats(entries, runs, 0)
    {
      var results := [];
      var i := 0;
      ghost var all := SequentialStats(entries, runs, 0);
      if all.Some? {
        assert results + all.value == all.value;
      }
      while i < |entries|
        invariant 0 <= i <= |entries|
        invariant SequentialStats(entries, runs, 0) ==
          match SequentialStats(entries, runs, i)
          case None => None
          case Some(rest) => Some(results + rest)
      {
        var stats := ProcessCategory(entries[i].0, entries[i].1, runs(i));
        if stats.None? {
          return None;
        }
        ghost var rest := SequentialStats(entries, runs, i + 1);
        if rest.Some? {
          ConcatAssoc(results, [stats.value], rest.value);
        }
        results := results + [stats.value];
        i := i + 1;
      }
      assert results + [] == results;
      return Some(results);
    }

    /** The parallel loop of `collect_tweets`: results appended as the
        futures complete, an exception becoming an error entry. */
    static method ProcessInParallel(entries: seq<(string, Json)>, runs: nat -> CategoryRun, order: seq<nat>) returns (results: seq<CategoryStats>)
      ensures results == Reorder(AllStats(entries, runs), order)
    {
      var all := AllStats(entries, runs);
      results := [];
      var k := 0;
      while k < |order|
        invariant 0 <= k <= |order|
        invariant results == Reorder(all, order[..k])
      {
        var i := order[k];
        var stats := if i < |entries| then StatsOrError(entries[i].0, entries[i].1, runs(i)) else Failure("", "");
        ReorderSnoc(all, order, k);
        ReorderOne(all, i);
        results := results + [stats];
        k := k + 1;
      }
      assert order[..|order|] == order;
    }

    /** `collect_tweets`. `loaded` is the category configuration, or
        `None` when updating the date or loading it raised; `runs(i)` is
        what scraping and saving the `i`-th category did; `order` is the
        completion order of the thread pool. A falsy configuration returns
        before any processing (`None`); otherwise the summary is that of
        every category's stats, and a run with a failed category, or one
        that raised, counts one error. */
    method CollectTweets(now: Now, loaded: Option<Json>, runs: nat -> CategoryRun, order: seq<nat>) returns (summary: Option<Summary>)
      requires errorCount < MAX_ERRORS
      requires loaded.Some? && loaded.value.JObj? ==> IsPermutation(order, |loaded.value.entries|)
      modifies this
      ensures currentDate == now.yesterday && isRunning == old(isRunning)
      ensures errorCount < MAX_ERRORS
      ensures loaded.Some? && !Truthy(loaded.value) ==> summary.None? && errorCount == old(errorCount)
      ensures loaded.None? || (Truthy(loaded.value) && !loaded.value.JObj?) ==>
        summary == Some(Summary(0, 1, 0)) && errorCount == NextErrors(old(errorCount), true)
      ensures loaded.Some? && loaded.value.JObj? && Truthy(loaded.value) ==>
        var entries := loaded.value.entries;
        var all := AllStats(entries, runs);
        if categoryWorkers > 1 && |entries| > 1 then
          summary == Some(Tally(all)) && errorCount == NextErrors(old(errorCount), Tally(all).failed > 0)
        else if SequentialStats(entries, runs, 0).None? then
          summary == Some(Summary(0, 1, 0)) && errorCount == NextErrors(old(errorCount), true)
        else
          summary == Some(Tally(all)) && errorCount == NextErrors(old(errorCount), Tally(all).failed > 0)
    {
      CheckAndUpdateDate(now);
      if loaded.None? {
        CountFailure();
        return Some(Summary(0, 1, 0));
      }
      var categories := loaded.value;
      if !Truthy(categories) {
        return None;
      }
      if !categories.JObj? {
        // `categories.items()` raises `AttributeError`.
        CountFailure();
        return Some(Summary(0, 1, 0));
      }
      var entries := categories.entries;
      var results: seq<CategoryStats>;
      if categoryWorkers > 1 && |entries| > 1 {
        results := ProcessInParallel(entries, runs, order);
        CompletionOrderSummary(AllStats(entries, runs), order);
      } else {
        var sequential := ProcessSequentially(entries, runs);
        if sequential.None? {
          CountFailure();
          return Some(Summary(0, 1, 0));
        }
        SequentialMatchesParallel(entries, runs, 0);
        assert AllStats(entries, runs)[0..] == AllStats(entries, runs);
        results := sequential.value;
      }
      var tally := Tally(results);
      if tally.failed > 0 {
        CountFailure();
      }
      summary := Some(tally);
    }

    /** `shutdown`. */
    method Shutdown()
      modifies this
      ensures !isRunning && errorCount == old(errorCount) && currentDate == old(currentDate)
    {
      isRunning := false;
    }
  }
}
