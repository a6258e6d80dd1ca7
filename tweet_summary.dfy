// tweet_summary.py: the summary supervisor. A midnight job runs the alpha
// filter; the monitoring loop runs the content filter when the alpha output
// holds enough tweets, then the news filter and the Telegram send when the
// content output does. The filters and the sender are given as outcomes.

module TweetSummary {
  import opened Common
  import opened Supervisor

  /** The monitoring thresholds (tweet_summary.py:71-74). */
  const CONTENT_THRESHOLD: nat := 20
  const NEWS_THRESHOLD: nat := 10

  /** What happened to one stage in an iteration: not due, failed by raising, ran and
      kept its input, or ran and cleared its input. */
  datatype Phase = NotDue | Failed | Kept | Cleared

  datatype Iteration = Busy | Checked(content: Phase, news: Phase)

  /** What the components do in one iteration: the content filter, the
      news filter, and the Telegram send (`None` when it raises). */
  datatype Tick = Tick(content: Run<bool>, news: Run<bool>, telegram: Option<bool>)

  datatype State = State(processing: bool, alphaRunning: bool, files: map<string, Content>)

  /** The content-filter half of an iteration: the phase and the store. */
  function ContentPhase(st: State, content: Run<bool>): (r: (Phase, map<string, Content>))
  {
    if st.alphaRunning || CountOrZero(st.files, ALPHA_FILE) < CONTENT_THRESHOLD then (NotDue, st.files)
    else match content
      case Raised => (Failed, st.files)
      case Done(ok, s) => if ok then (Cleared, s - {ALPHA_FILE}) else (Kept, s)
  }

  /** The news-filter half, on the store the first half left. */
  function NewsPhase(files: map<string, Content>, news: Run<bool>, telegram: Option<bool>): (r: (Phase, map<string, Content>))
  {
    if CountOrZero(files, CONTENT_FILE) < NEWS_THRESHOLD then (NotDue, files)
    else match news
      case Raised => (Failed, files)
      case Done(ok, s) =>
        if !ok then (Kept, s)
        else match telegram
          case None => (Failed, s)
          case Some(sent) => if sent then (Cleared, s - {CONTENT_FILE}) else (Kept, s)
  }

  /** One iteration of `continuous_monitoring`; an exception in the content
      half ends the iteration. */
  function MonitorStep(st: State, t: Tick): (r: (Iteration, State))
  {
    if st.processing then (Busy, st)
    else
      var c := ContentPhase(st, t.content);
      if c.0 == Failed then (Checked(Failed, NotDue), st)
      else
        var n := NewsPhase(c.1, t.news, t.telegram);
        (Checked(c.0, n.0), st.(files := n.1))
  }

  /** The content filter runs only when the stage is free, the alpha
      filter is not running and the alpha output holds at least 20 tweets;
      the alpha output is cleared exactly when it answers truthy. The news
      filter runs on at least 10 tweets of content output, and the content
      output is cleared only when both the news filter and the Telegram
      send succeed. */
  lemma MonitorStepGates(st: State, t: Tick)
    ensures var r := MonitorStep(st, t);
      && r.1.processing == st.processing && r.1.alphaRunning == st.alphaRunning
      && (r.0 == Busy <==> st.processing)
      && (r.0.Checked? && r.0.content != NotDue <==>
            !st.processing && !st.alphaRunning && CountOrZero(st.files, ALPHA_FILE) >= CONTENT_THRESHOLD)
      && (r.0.Checked? && r.0.content == Cleared <==>
            !st.processing && !st.alphaRunning && CountOrZero(st.files, ALPHA_FILE) >= CONTENT_THRESHOLD
            && t.content.Done? && t.content.value)
      && (r.0.Checked? && r.0.content == Kept ==> t.content.Done? && !t.content.value)
      && (r.0.Checked? && r.0.news == Cleared ==>
            t.news.Done? && t.news.value && t.telegram == Some(true) && CONTENT_FILE !in r.1.files)
      && (r.0.Checked? && r.0.news != NotDue ==>
            r.0.content != Failed && CountOrZero(ContentPhase(st, t.content).1, CONTENT_FILE) >= NEWS_THRESHOLD)
  {
  }

  datatype Monitored = Monitored(iterations: seq<Iteration>, state: State)

  function Monitor(st: State, ticks: seq<Tick>): Monitored
    decreases |ticks|
  {
    if ticks == [] then Monitored([], st)
    else
      var step := MonitorStep(st, ticks[0]);
      var rest := Monitor(step.1, ticks[1..]);
      Monitored([step.0] + rest.iterations, rest.state)
  }

  /** Over any run of the loop the flags end as they started, and a loop
      that starts with the flag set never runs a filter. */
  lemma {:induction false} MonitorKeepsFlags(st: State, ticks: seq<Tick>)
    ensures Monitor(st, ticks).state.processing == st.processing
    ensures Monitor(st, ticks).state.alphaRunning == st.alphaRunning
    ensures |Monitor(st, ticks).iterations| == |ticks|
    ensures st.processing ==> forall i :: 0 <= i < |ticks| ==> Monitor(st, ticks).iterations[i] == Busy
    decreases |ticks|
  {
    if ticks != [] {
      MonitorStepGates(st, ticks[0]);
      MonitorKeepsFlags(MonitorStep(st, ticks[0]).1, ticks[1..]);
    }
  }

  /** The outcomes the components imported at tweet_summary.py:15-18 can
      produce as written: `filter_content` and `process_all` end in a bare
      `return`, so they answer `None` or raise, and `process_news_summary()`
      is called without its required file argument, so it raises. */
  predicate AsWrittenTick(t: Tick)
  {
    && (t.content.Raised? || !t.content.value)
    && (t.news.Raised? || !t.news.value)
    && t.telegram.None?
  }

  /** The entry a store holds at `path`, if any. */
  function Entry(files: map<string, Content>, path: string): (e: Option<Content>)
    ensures e.Some? <==> path in files
    ensures e.Some? ==> e.value == files[path]
  {
    if path in files then Some(files[path]) else None
  }

  /** The components leave the alpha output entry as `alpha`. */
  predicate KeepsAlpha(t: Tick, alpha: Option<Content>)
  {
    && (t.content.Done? ==> Entry(t.content.store, ALPHA_FILE) == alpha)
    && (t.news.Done? ==> Entry(t.news.store, ALPHA_FILE) == alpha)
  }

  /** The monitoring loop is free and the alpha output is due for the
      content filter. */
  predicate ContentDue(st: State)
  {
    !st.processing && !st.alphaRunning && CountOrZero(st.files, ALPHA_FILE) >= CONTENT_THRESHOLD
  }

  lemma SameEntryCount(a: map<string, Content>, b: map<string, Content>, path: string)
    requires Entry(a, path) == Entry(b, path)
    ensures CountOrZero(a, path) == CountOrZero(b, path)
  {
  }

  /** One iteration with the components as written clears neither input
      file; if they leave the alpha output alone, it stays as it was, and
      when it was due the content filter ran and it is due again. */
  lemma AsWrittenStepNeverClears(st: State, t: Tick)
    requires AsWrittenTick(t)
    ensures var r := MonitorStep(st, t);
      && (r.0.Checked? ==> r.0.content != Cleared && r.0.news != Cleared)
      && (KeepsAlpha(t, Entry(st.files, ALPHA_FILE)) ==> Entry(r.1.files, ALPHA_FILE) == Entry(st.files, ALPHA_FILE))
      && (KeepsAlpha(t, Entry(st.files, ALPHA_FILE)) && ContentDue(st) ==>
            ContentDue(r.1) && r.0.Checked? && r.0.content != NotDue)
  {
    var r := MonitorStep(st, t);
    MonitorStepGates(st, t);
    if KeepsAlpha(t, Entry(st.files, ALPHA_FILE)) {
      assert Entry(r.1.files, ALPHA_FILE) == Entry(st.files, ALPHA_FILE);
      SameEntryCount(r.1.files, st.files, ALPHA_FILE);
    }
  }

  /** No iteration cleared an input file. */
  predicate NoneCleared(its: seq<Iteration>)
  {
    forall i :: 0 <= i < |its| && its[i].Checked? ==> its[i].content != Cleared && its[i].news != Cleared
  }

  /** Every iteration ran the content filter. */
  predicate ContentRanEach(its: seq<Iteration>)
  {
    forall i :: 0 <= i < |its| ==> its[i].Checked? && its[i].content != NotDue
  }

  /** Over any run with the components as written no iteration clears an
      input file, and while they leave a due alpha output alone every
      iteration runs the content filter again. */
  lemma {:induction false} AsWrittenNeverClears(st: State, ticks: seq<Tick>)
    requires forall i :: 0 <= i < |ticks| ==> AsWrittenTick(ticks[i])
    ensures NoneCleared(Monitor(st, ticks).iterations)
    ensures (forall i :: 0 <= i < |ticks| ==> KeepsAlpha(ticks[i], Entry(st.files, ALPHA_FILE))) && ContentDue(st)
            ==> ContentRanEach(Monitor(st, ticks).iterations)
    decreases |ticks|
  {
    if ticks != [] {
      var step := MonitorStep(st, ticks[0]);
      var rest := Monitor(step.1, ticks[1..]).iterations;
      assert Monitor(st, ticks).iterations == [step.0] + rest;
      AsWrittenStepNeverClears(st, ticks[0]);
      AsWrittenNeverClears(step.1, ticks[1..]);
      assert NoneCleared([step.0] + rest) by {
        assert forall i :: 1 <= i < |rest| + 1 ==> ([step.0] + rest)[i] == rest[i - 1];
      }
      if (forall i :: 0 <= i < |ticks| ==> KeepsAlpha(ticks[i], Entry(st.files, ALPHA_FILE))) && ContentDue(st) {
        assert forall i :: 0 <= i < |ticks| - 1 ==> ticks[1..][i] == ticks[i + 1];
        assert ContentRanEach([step.0] + rest) by {
          assert forall i :: 1 <= i < |rest| + 1 ==> ([step.0] + rest)[i] == rest[i - 1];
        }
      }
    }
  }

  datatype Midnight = MidnightSkipped | MidnightRaised | MidnightDone

  class TweetSummary {
    var files: map<string, Content>
    var isRunning: bool
    var isProcessing: bool
    var alphaFilterRunning: bool

    constructor(files: map<string, Content>)
      ensures this.files == files && isRunning && !isProcessing && !alphaFilterRunning
    {
      this.files := files;
      isRunning := true;
      isProcessing := false;
      alphaFilterRunning := false;
    }

    function StateOf(): State
      reads this
    {
      State(isProcessing, alphaFilterRunning, files)
    }

    /** `midnight_processing`: skipped while processing; otherwise the alpha
        filter's store afterwards (`None` when it raises), and both flags
        cleared by the `finally`. */
    method MidnightProcessing(alpha: Option<map<string, Content>>) returns (r: Midnight)
      modifies this
      ensures old(isProcessing) ==> r == MidnightSkipped && StateOf() == old(StateOf())
      ensures !old(isProcessing) ==> !isProcessing && !alphaFilterRunning
      ensures !old(isProcessing) && alpha.None? ==> r == MidnightRaised && files == old(files)
      ensures !old(isProcessing) && alpha.Some? ==> r == MidnightDone && files == alpha.value
      ensures isRunning == old(isRunning)
    {
      if isProcessing {
        return MidnightSkipped;
      }
      isProcessing := true;
      alphaFilterRunning := true;
      if alpha.None? {
        r := MidnightRaised;
      } else {
        files := alpha.value;
        r := MidnightDone;
      }
      isProcessing := false;
      alphaFilterRunning := false;
    }

    /** `_count_tweets_in_file`. */
    method CountTweetsInFile(path: string) returns (n: nat)
      ensures n == CountOrZero(files, path)
    {
      if path !in files || files[path].Corrupt? {
        return 0;
      }
      var count := TweetsLen(files[path].json);
      n := if count.Some? then count.value else 0;
    }

    method MonitorOnce(t: Tick) returns (it: Iteration)
      modifies this
      ensures (it, StateOf()) == MonitorStep(old(StateOf()), t)
      ensures isRunning == old(isRunning)
    {
      if isProcessing {
        return Busy;
      }
      ghost var st := StateOf();
      var content := NotDue;
      if !alphaFilterRunning {
        var alphaCount := CountTweetsInFile(ALPHA_FILE);
        if alphaCount >= CONTENT_THRESHOLD {
          isProcessing := true;
          if t.content.Raised? {
            isProcessing := false;
            return Checked(Failed, NotDue);
          }
          files := t.content.store;
          if t.content.value {
            files := files - {ALPHA_FILE};
            content := Cleared;
          } else {
            content := Kept;
          }
          isProcessing := false;
        }
      }
      assert (content, files) == ContentPhase(st, t.content);
      ghost var mid := files;
      var news := NotDue;
      var contentCount := CountTweetsInFile(CONTENT_FILE);
      if contentCount >= NEWS_THRESHOLD {
        isProcessing := true;
        if t.news.Raised? {
          news := Failed;
        } else {
          files := t.news.store;
          if !t.news.value {
            news := Kept;
          } else if t.telegram.None? {
            news := Failed;
          } else if t.telegram.value {
            files := files - {CONTENT_FILE};
            news := Cleared;
          } else {
            news := Kept;
          }
        }
        isProcessing := false;
      }
      assert (news, files) == NewsPhase(mid, t.news, t.telegram);
      it := Checked(content, news);
    }

    /** `continuous_monitoring` over the iterations run before `is_running`
        is seen cleared. */
    method ContinuousMonitoring(ticks: seq<Tick>) returns (its: seq<Iteration>)
      modifies this
      ensures Monitored(its, StateOf()) == Monitor(old(StateOf()), ticks)
      ensures isRunning == old(isRunning)
    {
      its := [];
      var i := 0;
      while i < |ticks|
        invariant 0 <= i <= |ticks|
        invariant Monitor(old(StateOf()), ticks) == Monitored(its + Monitor(StateOf(), ticks[i..]).iterations,
                                                              Monitor(StateOf(), ticks[i..]).state)
        invariant isRunning == old(isRunning)
        decreases |ticks| - i
      {
        ghost var before := Monitor(StateOf(), ticks[i..]);
        var it := MonitorOnce(ticks[i]);
        assert ticks[i..][1..] == ticks[i + 1..];
        ghost var rest := Monitor(StateOf(), ticks[i + 1..]);
        assert before.iterations == [it] + rest.iterations;
        assert before.state == rest.state;
        ConcatAssoc(its, [it], rest.iterations);
        its := its + [it];
        i := i + 1;
      }
      assert ticks[i..] == [];
    }

    /** The signal handler. */
    method Shutdown()
      modifies this`isRunning
      ensures !isRunning
    {
      isRunning := false;
    }
  }
}
