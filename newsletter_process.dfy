// newsletter_process.py: the newsletter supervisor. The monitoring loop
// counts the tweets in the column files of the alpha- and content-filtered
// directories and starts the content filter or, failing that, the news
// filter. A directory is a map from file stem (the name without `.json`)
// to the file's contents; the filters and senders are given as outcomes.

module NewsletterProcess {
  import opened Common
  import opened Supervisor

  /** The monitoring thresholds (newsletter_process.py:65-74). */
  const CONTENT_ANY: nat := 20
  const CONTENT_ALL: nat := 10
  const NEWS_ANY: nat := 15
  const NEWS_ALL: nat := 10

  /** The stems the glob `column_*.json` matches. */
  predicate IsColumn(stem: string)
  {
    StartsWith(stem, "column_")
  }

  /** `_count_tweets_in_files`: every readable column file's stem mapped to
      its tweet count; unreadable files are skipped. */
  function Counts(dir: map<string, Content>): (counts: map<string, nat>)
    ensures forall s :: s in counts <==> s in dir && IsColumn(s) && ReadCount(dir, s).Some?
    ensures forall s :: s in counts ==> Some(counts[s]) == ReadCount(dir, s)
  {
    map s | s in dir && IsColumn(s) && ReadCount(dir, s).Some? :: ReadCount(dir, s).value
  }

  /** The counts of the files among `done`. */
  function CountsOf(dir: map<string, Content>, done: set<string>): map<string, nat>
  {
    map s | s in done && s in dir && IsColumn(s) && ReadCount(dir, s).Some? :: ReadCount(dir, s).value
  }

  /** Counting one more file adds its count when it is a readable column
      file and changes nothing otherwise. */
  lemma CountsOfAdd(dir: map<string, Content>, done: set<string>, s: string)
    requires s in dir && s !in done
    ensures CountsOf(dir, done + {s})
         == if IsColumn(s) && ReadCount(dir, s).Some? then CountsOf(dir, done)[s := ReadCount(dir, s).value]
            else CountsOf(dir, done)
  {
  }

  lemma CountsOfAll(dir: map<string, Content>)
    ensures CountsOf(dir, dir.Keys - {}) == Counts(dir)
  {
    assert dir.Keys - {} == dir.Keys;
  }

  /** `_should_run_content_filter` and `_should_run_news_filter` with their
      two thresholds: never on no counts, otherwise when one column reaches
      `any` or every column reaches `all`. */
  predicate ShouldRun(counts: map<string, nat>, any: nat, all: nat)
  {
    |counts| > 0 && ((exists s :: s in counts && counts[s] >= any) || (forall s :: s in counts ==> counts[s] >= all))
  }

  /** Whenever the content filter is due, so is the news filter on the same
      counts: its thresholds are no higher. */
  lemma ContentGateImpliesNewsGate(counts: map<string, nat>)
    requires ShouldRun(counts, CONTENT_ANY, CONTENT_ALL)
    ensures ShouldRun(counts, NEWS_ANY, NEWS_ALL)
  {
  }

  /** With one column the gate is a plain threshold on that column. */
  lemma SingleColumnGate(counts: map<string, nat>, stem: string, any: nat, all: nat)
    requires counts.Keys == {stem}
    ensures ShouldRun(counts, any, all) <==> counts[stem] >= any || counts[stem] >= all
  {
    assert |counts| == |counts.Keys| == 1;
  }

  /** More tweets in the same columns never close an open gate. */
  lemma ShouldRunMonotone(counts: map<string, nat>, more: map<string, nat>, any: nat, all: nat)
    requires ShouldRun(counts, any, all)
    requires more.Keys == counts.Keys
    requires forall s :: s in counts ==> more[s] >= counts[s]
    ensures ShouldRun(more, any, all)
  {
    assert |more| == |more.Keys| == |counts.Keys| == |counts|;
    if exists s :: s in counts && counts[s] >= any {
      var s :| s in counts && counts[s] >= any;
      assert more[s] >= any;
    }
  }

  /** The directory after `_clear_input_files`: every column file removed. */
  function WithoutColumns(dir: map<string, Content>): (r: map<string, Content>)
    ensures forall s :: s in r <==> s in dir && !IsColumn(s)
    ensures forall s :: s in r ==> r[s] == dir[s]
  {
    map s | s in dir && !IsColumn(s) :: dir[s]
  }

  // ---------------------------------------------------------------
  // The monitoring loop
  // ---------------------------------------------------------------

  /** What the components do in one iteration: the content filter's
      directory afterwards (`None` when it raises), and whether the news
      filter and the Telegram sends completed without raising. */
  datatype Tick = Tick(content: Option<map<string, Content>>, newsCompleted: bool)

  datatype Action = Skipped | Idle | ContentRun(completed: bool) | NewsRun(completed: bool)

  datatype Dirs = Dirs(processing: bool, alpha: map<string, Content>, content: map<string, Content>)

  datatype Monitored = Monitored(actions: seq<Action>, dirs: Dirs)

  /** One iteration of `continuous_monitoring`. */
  function MonitorStep(d: Dirs, t: Tick): (r: (Action, Dirs))
  {
    if d.processing then (Skipped, d)
    else if ShouldRun(Counts(d.alpha), CONTENT_ANY, CONTENT_ALL) then
      match t.content
      case None => (ContentRun(false), d)
      case Some(out) => (ContentRun(true), Dirs(false, WithoutColumns(d.alpha), out))
    else if ShouldRun(Counts(d.content), NEWS_ANY, NEWS_ALL) then
      if t.newsCompleted then (NewsRun(true), d.(content := WithoutColumns(d.content)))
      else (NewsRun(false), d)
    else (Idle, d)
  }

  function Monitor(d: Dirs, ticks: seq<Tick>): (r: Monitored)
    decreases |ticks|
  {
    if ticks == [] then Monitored([], d)
    else
      var step := MonitorStep(d, ticks[0]);
      var rest := Monitor(step.1, ticks[1..]);
      Monitored([step.0] + rest.actions, rest.dirs)
  }

  /** The content filter takes precedence: the news filter runs only when
      the content gate is closed and the news gate open; each filter runs
      only on its gate, and a completed run clears its input's column
      files. */
  lemma MonitorStepPrecedence(d: Dirs, t: Tick)
    ensures var r := MonitorStep(d, t);
      && (r.0.NewsRun? <==> !d.processing && !ShouldRun(Counts(d.alpha), CONTENT_ANY, CONTENT_ALL)
                            && ShouldRun(Counts(d.content), NEWS_ANY, NEWS_ALL))
      && (r.0.ContentRun? <==> !d.processing && ShouldRun(Counts(d.alpha), CONTENT_ANY, CONTENT_ALL))
      && (r.0 == ContentRun(true) ==> Counts(r.1.alpha) == map[])
      && (r.0 == NewsRun(true) ==> Counts(r.1.content) == map[] && r.1.alpha == d.alpha)
      && (r.0 == Skipped <==> d.processing)
      && r.1.processing == d.processing
  {
    var r := MonitorStep(d, t);
    if r.0 == ContentRun(true) {
      assert forall s :: s !in Counts(r.1.alpha);
    }
    if r.0 == NewsRun(true) {
      assert forall s :: s !in Counts(r.1.content);
    }
  }

  /** Every iteration leaves `is_processing` as it found it, so the loop
      runs a filter in some iteration only if it entered free. */
  lemma {:induction false} MonitorKeepsFlag(d: Dirs, ticks: seq<Tick>)
    ensures Monitor(d, ticks).dirs.processing == d.processing
    ensures |Monitor(d, ticks).actions| == |ticks|
    ensures d.processing ==> forall i :: 0 <= i < |ticks| ==> Monitor(d, ticks).actions[i] == Skipped
    decreases |ticks|
  {
    if ticks != [] {
      MonitorStepPrecedence(d, ticks[0]);
      MonitorKeepsFlag(MonitorStep(d, ticks[0]).1, ticks[1..]);
    }
  }

  // ---------------------------------------------------------------
  // daily_processing
  // ---------------------------------------------------------------

  datatype Daily = DailySkipped | DailyRaised | NoTweets | AlphaFiltered

  /** `daily_processing`: the data processor's count (`None` when it
      raises), then the alpha filter's directory afterwards (`None` when it
      raises), which it runs only on a positive count. */
  function DailyStep(d: Dirs, processed: Option<nat>, alpha: Option<map<string, Content>>): (r: (Daily, Dirs))
  {
    if d.processing then (DailySkipped, d)
    else match processed
      case None => (DailyRaised, d)
      case Some(n) =>
        if n == 0 then (NoTweets, d)
        else match alpha
          case None => (DailyRaised, d)
          case Some(out) => (AlphaFiltered, d.(alpha := out))
  }

  lemma DailyStepGate(d: Dirs, processed: Option<nat>, alpha: Option<map<string, Content>>)
    ensures var r := DailyStep(d, processed, alpha);
      && (r.0 == AlphaFiltered <==> !d.processing && processed.Some? && processed.value > 0 && alpha.Some?)
      && (r.0 != AlphaFiltered ==> r.1 == d)
      && r.1.processing == d.processing
  {
  }

  class NewsletterProcess {
    var alphaDir: map<string, Content>
    var contentDir: map<string, Content>
    var isRunning: bool
    var isProcessing: bool

    constructor(alphaDir: map<string, Content>, contentDir: map<string, Content>)
      ensures this.alphaDir == alphaDir && this.contentDir == contentDir
      ensures isRunning && !isProcessing
    {
      this.alphaDir := alphaDir;
      this.contentDir := contentDir;
      isRunning := true;
      isProcessing := false;
    }

    function DirsOf(): Dirs
      reads this
    {
      Dirs(isProcessing, alphaDir, contentDir)
    }

    /** `_count_tweets_in_files`, visiting the files in any order. */
    static method CountTweetsInFiles(dir: map<string, Content>) returns (counts: map<string, nat>)
      ensures counts == Counts(dir)
    {
      counts := map[];
      var todo := dir.Keys;
      while todo != {}
        invariant todo <= dir.Keys
        invariant counts == CountsOf(dir, dir.Keys - todo)
        decreases |todo|
      {
        var s :| s in todo;
        CountsOfAdd(dir, dir.Keys - todo, s);
        if IsColumn(s) && dir[s].Parsed? {
          var n := TweetsLen(dir[s].json);
          if n.Some? {
            counts := counts[s := n.value];
          }
        }
        assert dir.Keys - (todo - {s}) == (dir.Keys - todo) + {s};
        todo := todo - {s};
      }
      CountsOfAll(dir);
    }

    method ShouldRunContentFilter() returns (r: bool)
      ensures r == ShouldRun(Counts(alphaDir), CONTENT_ANY, CONTENT_ALL)
    {
      var counts := CountTweetsInFiles(alphaDir);
      r := ShouldRun(counts, CONTENT_ANY, CONTENT_ALL);
    }

    method ShouldRunNewsFilter() returns (r: bool)
      ensures r == ShouldRun(Counts(contentDir), NEWS_ANY, NEWS_ALL)
    {
      var counts := CountTweetsInFiles(contentDir);
      r := ShouldRun(counts, NEWS_ANY, NEWS_ALL);
    }

    method DailyProcessing(processed: Option<nat>, alpha: Option<map<string, Content>>) returns (r: Daily)
      modifies this
      ensures (r, DirsOf()) == DailyStep(old(DirsOf()), processed, alpha)
      ensures isRunning == old(isRunning)
    {
      if isProcessing {
        return DailySkipped;
      }
      isProcessing := true;
      if processed.None? {
        r := DailyRaised;
      } else if processed.value == 0 {
        r := NoTweets;
      } else if alpha.None? {
        r := DailyRaised;
      } else {
        alphaDir := alpha.value;
        r := AlphaFiltered;
      }
      isProcessing := false;
    }

    /** One iteration of the monitoring loop. */
    method MonitorOnce(t: Tick) returns (a: Action)
      modifies this
      ensures (a, DirsOf()) == MonitorStep(old(DirsOf()), t)
      ensures isRunning == old(isRunning)
    {
      if isProcessing {
        return Skipped;
      }
      var contentDue := ShouldRunContentFilter();
      if contentDue {
        isProcessing := true;
        if t.content.None? {
          a := ContentRun(false);
        } else {
          contentDir := t.content.value;
          alphaDir := WithoutColumns(alphaDir);
          a := ContentRun(true);
        }
        isProcessing := false;
      } else {
        var newsDue := ShouldRunNewsFilter();
        if newsDue {
          isProcessing := true;
          if t.newsCompleted {
            contentDir := WithoutColumns(contentDir);
            a := NewsRun(true);
          } else {
            a := NewsRun(false);
          }
          isProcessing := false;
        } else {
          a := Idle;
        }
      }
    }

    /** `continuous_monitoring` over the iterations run before `is_running`
        is seen cleared. */
    method ContinuousMonitoring(ticks: seq<Tick>) returns (actions: seq<Action>)
      modifies this
      ensures Monitored(actions, DirsOf()) == Monitor(old(DirsOf()), ticks)
      ensures isRunning == old(isRunning)
    {
      actions := [];
      var i := 0;
      while i < |ticks|
        invariant 0 <= i <= |ticks|
        invariant Monitor(old(DirsOf()), ticks) == Monitored(actions + Monitor(DirsOf(), ticks[i..]).actions,
                                                             Monitor(DirsOf(), ticks[i..]).dirs)
        invariant isRunning == old(isRunning)
        decreases |ticks| - i
      {
        ghost var before := Monitor(DirsOf(), ticks[i..]);
        var a := MonitorOnce(ticks[i]);
        assert ticks[i..][1..] == ticks[i + 1..];
        ghost var rest := Monitor(DirsOf(), ticks[i + 1..]);
        assert before.actions == [a] + rest.actions;
        assert before.dirs == rest.dirs;
        ConcatAssoc(actions, [a], rest.actions);
        actions := actions + [a];
        i := i + 1;
      }
      assert ticks[i..] == [];
    }

    /** The signal handler. */
    method Shutdown()
      modifies this`isRunning
      ensures !isRunning
    {
      isRunning := false;
    }
  }
}
