// src/legacy/newsletter_generator.py: the older newsletter supervisor.
// A scheduled job resets the alpha filter and runs the data processor and
// the alpha filter; the hourly monitoring loop runs the content filter on
// enough alpha output, then the news filter on enough content output, and
// sends only when the news filter rewrote its output. Each stored file
// carries a modification stamp, an opaque version number that changes
// whenever the file is written.

module NewsletterGenerator {
  import opened Common
  import Supervisor
  import NewsGenerator
  import SrcDataProcessor

  datatype Stamped = Stamped(content: Content, mtime: nat)

  type Store = map<string, Stamped>

  /** What awaiting a component yields: it raised, or it returned `value`
      and left the store as `store`. */
  datatype Run<T> = Raised | Done(value: T, store: Store)

  /** The monitoring thresholds (src/legacy/newsletter_generator.py:95-98). */
  const CONTENT_THRESHOLD: nat := 5
  const NEWS_THRESHOLD: nat := 10

  /** `_count_tweets_in_file`: 0 for a missing or unreadable file; the
      length of the top-level `tweets` when there is one; otherwise the
      length of the category's `tweets`; otherwise 0. Anything that raises
      on the way counts 0. */
  function LegacyCount(files: Store, path: string, category: string): (n: nat)
    ensures path !in files || files[path].content.Corrupt? ==> n == 0
    ensures path in files && files[path].content.Parsed? ==>
      var d := files[path].content.json;
      && (!d.JObj? ==> n == 0)
      && (d.JObj? && HasKey(d.entries, "tweets") ==>
            n == (match PyLen(Get(d.entries, "tweets").value) case Some(k) => k case None => 0))
      && (d.JObj? && !HasKey(d.entries, "tweets") && HasKey(d.entries, category) ==>
            n == (match Supervisor.TweetsLen(Get(d.entries, category).value) case Some(k) => k case None => 0))
      && (d.JObj? && !HasKey(d.entries, "tweets") && !HasKey(d.entries, category) ==> n == 0)
  {
    if path !in files || files[path].content.Corrupt? then 0
    else
      var d := files[path].content.json;
      match PyIn("tweets", d)
      case None => 0
      case Some(hasTweets) =>
        if hasTweets then
          (match Supervisor.TweetsLen(d) case Some(k) => k case None => 0)
        else if PyIn(category, d) == Some(true) && d.JObj? then
          (match Supervisor.TweetsLen(Get(d.entries, category).value) case Some(k) => k case None => 0)
        else 0
  }

  /** The modification stamp of a file, `None` when it does not exist. */
  function MTime(files: Store, path: string): Option<nat>
  {
    if path in files then Some(files[path].mtime) else None
  }

  // ---------------------------------------------------------------
  // scheduled_processing
  // ---------------------------------------------------------------

  datatype State = State(processing: bool, alphaRunning: bool, files: Store, alphaResets: nat, contentResets: nat)

  datatype Scheduled = ScheduledSkipped | ScheduledRaised | NoTweets | AlphaFiltered

  /** `scheduled_processing`, with the processed file it clears given as
      `processed`: the alpha filter is reset first, the alpha filter runs
      only on a positive count, and both flags are cleared by the
      `finally`. */
  function ScheduledStep(st: State, data: Run<nat>, alpha: Option<Store>, processed: string): (r: (Scheduled, State))
    ensures !st.processing ==> !r.1.processing && !r.1.alphaRunning
  {
    if st.processing then (ScheduledSkipped, st)
    else
      var reset := st.(alphaRunning := false, alphaResets := st.alphaResets + 1);
      match data
      case Raised => (ScheduledRaised, reset)
      case Done(n, s) =>
        if n == 0 then (NoTweets, reset.(files := s))
        else match alpha
          case None => (ScheduledRaised, reset.(files := s))
          case Some(s2) => (AlphaFiltered, reset.(files := s2 - {processed}))
  }

  /** As written, the file the data processor wrote is never cleared: the
      stage removes `<date>_processed.json`, not `<date>.json`. */
  lemma AsWrittenKeepsProcessedFile(st: State, date: string, n: nat, s: Store, s2: Store)
    requires !st.processing && n > 0
    requires SrcDataProcessor.ProcessedFile(date) in s2
    ensures var r := ScheduledStep(st, Done(n, s), Some(s2), NewsGenerator.CheckedProcessedFile(date));
      r.0 == AlphaFiltered && SrcDataProcessor.ProcessedFile(date) in r.1.files
  {
    assert |NewsGenerator.CheckedProcessedFile(date)| != |SrcDataProcessor.ProcessedFile(date)|;
  }

  /** Clearing the file the data processor does write, a filtered date
      leaves no processed input behind, and nothing else is removed. */
  lemma CorrectedClearsProcessedFile(st: State, date: string, n: nat, s: Store, s2: Store)
    requires !st.processing && n > 0
    ensures var r := ScheduledStep(st, Done(n, s), Some(s2), SrcDataProcessor.ProcessedFile(date));
      && r.0 == AlphaFiltered && SrcDataProcessor.ProcessedFile(date) !in r.1.files
      && forall p :: p in s2 && p != SrcDataProcessor.ProcessedFile(date) ==> p in r.1.files
  {
  }

  // ---------------------------------------------------------------
  // continuous_monitoring
  // ---------------------------------------------------------------

  /** What happened to one stage in an iteration. `Cleared` is a run that
      cleared its input after success (for the news stage: after the
      sends), `SendFailed` a news run whose sends did not all succeed, and
      `Unchanged` a news run that left its output's stamp as it was, which
      clears the content input without sending. */
  datatype Phase = NotDue | Failed | Kept | Cleared | SendFailed | Unchanged

  datatype Iteration = Busy | Checked(content: Phase, news: Phase)

  /** One iteration's inputs: today's date (naming the news output), the
      content and news filters, and the two senders (`None` when one
      raises). */
  datatype Tick = Tick(today: string, content: Run<bool>, news: Run<bool>, telegram: Option<bool>, discord: Option<bool>)

  function ContentPhase(st: State, category: string, content: Run<bool>): (r: (Phase, State))
  {
    if st.alphaRunning || LegacyCount(st.files, Supervisor.ALPHA_FILE, category) < CONTENT_THRESHOLD then (NotDue, st)
    else match content
      case Raised => (Failed, st)
      case Done(ok, s) =>
        if ok then (Cleared, st.(files := s - {Supervisor.ALPHA_FILE}, alphaResets := st.alphaResets + 1))
        else (Kept, st.(files := s))
  }

  function NewsPhase(st: State, category: string, discordOn: bool, t: Tick): (r: (Phase, State))
  {
    if LegacyCount(st.files, Supervisor.CONTENT_FILE, category) < NEWS_THRESHOLD then (NotDue, st)
    else
      var output := NewsGenerator.NewsFile(category, t.today);
      match t.news
      case Raised => (Failed, st)
      case Done(ok, s) =>
        var ran := st.(files := s);
        var cleared := ran.(files := s - {Supervisor.CONTENT_FILE}, contentResets := st.contentResets + 1);
        if !ok then (Kept, ran)
        else if MTime(s, output) == MTime(st.files, output) then (Unchanged, cleared)
        else if t.telegram.None? then (Failed, ran)
        else if discordOn && t.discord.None? then (Failed, ran)
        else if t.telegram.value && (!discordOn || t.discord.value) then (Cleared, cleared)
        else (SendFailed, ran)
  }

  /** One iteration of `continuous_monitoring`; an exception in the content
      half ends the iteration. */
  function MonitorStep(st: State, category: string, discordOn: bool, t: Tick): (r: (Iteration, State))
  {
    if st.processing then (Busy, st)
    else
      var c := ContentPhase(st, category, t.content);
      if c.0 == Failed then (Checked(Failed, NotDue), st)
      else
        var n := NewsPhase(c.1, category, discordOn, t);
        (Checked(c.0, n.0), n.1)
  }

  /** The content filter runs only when the alpha filter is not running
      and the alpha output holds at least 5 tweets; the alpha output is
      cleared, and the alpha filter reset, exactly after a truthy result. */
  lemma ContentPhaseGates(st: State, category: string, content: Run<bool>)
    ensures var r := ContentPhase(st, category, content);
      && r.1.processing == st.processing && r.1.alphaRunning == st.alphaRunning
      && r.1.contentResets == st.contentResets
      && (r.0 != NotDue <==>
            !st.alphaRunning && LegacyCount(st.files, Supervisor.ALPHA_FILE, category) >= CONTENT_THRESHOLD)
      && (r.0 == Cleared <==> r.0 != NotDue && content.Done? && content.value)
      && (r.0 == Cleared ==> Supervisor.ALPHA_FILE !in r.1.files && r.1.alphaResets == st.alphaResets + 1)
      && (r.0 != Cleared ==> r.1.alphaResets == st.alphaResets)
      && r.0 in {NotDue, Failed, Kept, Cleared}
  {
  }

  /** The senders are asked only when the news filter changed its output's
      stamp; the content input is cleared after sends that all succeed, or
      without sending when the stamp did not change, and kept otherwise. */
  lemma NewsPhaseGates(st: State, category: string, discordOn: bool, t: Tick)
    ensures var r := NewsPhase(st, category, discordOn, t);
      var output := NewsGenerator.NewsFile(category, t.today);
      && r.1.processing == st.processing && r.1.alphaRunning == st.alphaRunning
      && r.1.alphaResets == st.alphaResets
      && (r.0 != NotDue <==> LegacyCount(st.files, Supervisor.CONTENT_FILE, category) >= NEWS_THRESHOLD)
      && (r.0 == Cleared || r.0 == SendFailed ==>
            t.news.Done? && t.news.value && MTime(t.news.store, output) != MTime(st.files, output))
      && (r.0 == Cleared ==>
            t.telegram == Some(true) && (discordOn ==> t.discord == Some(true))
            && Supervisor.CONTENT_FILE !in r.1.files && r.1.contentResets == st.contentResets + 1)
      && (r.0 == SendFailed ==>
            (t.telegram == Some(false) || (discordOn && t.discord == Some(false))) && r.1.files == t.news.store)
      && (r.0 == Unchanged ==>
            t.news.Done? && t.news.value && MTime(t.news.store, output) == MTime(st.files, output)
            && Supervisor.CONTENT_FILE !in r.1.files && r.1.contentResets == st.contentResets + 1)
      && (r.0 != Cleared && r.0 != Unchanged ==> r.1.contentResets == st.contentResets)
  {
    if LegacyCount(st.files, Supervisor.CONTENT_FILE, category) >= NEWS_THRESHOLD && t.news.Done? {
      var output := NewsGenerator.NewsFile(category, t.today);
      var s := t.news.store;
      if t.news.value && MTime(s, output) != MTime(st.files, output) && t.telegram.Some?
         && !(discordOn && t.discord.None?) {
        var sent := t.telegram.value && (!discordOn || t.discord.value);
        assert NewsPhase(st, category, discordOn, t).0 == if sent then Cleared else SendFailed;
      }
    }
  }

  /** An iteration runs the content half only when the stage is free, and
      the news half on the store the content half left, unless that half
      raised. */
  lemma MonitorStepGates(st: State, category: string, discordOn: bool, t: Tick)
    ensures var r := MonitorStep(st, category, discordOn, t);
      var c := ContentPhase(st, category, t.content);
      && r.1.processing == st.processing && r.1.alphaRunning == st.alphaRunning
      && r.1.alphaResets >= st.alphaResets && r.1.contentResets >= st.contentResets
      && (r.0 == Busy <==> st.processing)
      && (r.0.Checked? ==> r.0.content == c.0)
      && (r.0.Checked? && r.0.content != Failed ==> (r.0.news, r.1) == NewsPhase(c.1, category, discordOn, t))
      && (r.0.Checked? && r.0.content == Failed ==> r.0.news == NotDue && r.1 == st)
  {
    ContentPhaseGates(st, category, t.content);
    NewsPhaseGates(ContentPhase(st, category, t.content).1, category, discordOn, t);
  }

  datatype Monitored = Monitored(iterations: seq<Iteration>, state: State)

  function Monitor(st: State, category: string, discordOn: bool, ticks: seq<Tick>): Monitored
    decreases |ticks|
  {
    if ticks == [] then Monitored([], st)
    else
      var step := MonitorStep(st, category, discordOn, ticks[0]);
      var rest := Monitor(step.1, category, discordOn, ticks[1..]);
      Monitored([step.0] + rest.iterations, rest.state)
  }

  /** Over any run of the loop the flags end as they started and the reset
      counts never decrease. */
  lemma {:induction false} MonitorKeepsFlags(st: State, category: string, discordOn: bool, ticks: seq<Tick>)
    ensures var m := Monitor(st, category, discordOn, ticks);
      && m.state.processing == st.processing && m.state.alphaRunning == st.alphaRunning
      && m.state.alphaResets >= st.alphaResets && m.state.contentResets >= st.contentResets
      && |m.iterations| == |ticks|
    decreases |ticks|
  {
    if ticks != [] {
      MonitorStepGates(st, category, discordOn, ticks[0]);
      MonitorKeepsFlags(MonitorStep(st, category, discordOn, ticks[0]).1, category, discordOn, ticks[1..]);
    }
  }

  class NewsletterGenerator {
    var files: Store
    var isRunning: bool
    var isProcessing: bool
    var alphaFilterRunning: bool
    /** Calls of the alpha filter's and the content filter's `reset_state`. */
    var alphaResets: nat
    var contentResets: nat
    const category: string
    /** Whether a Discord sender was created. */
    const discordOn: bool

    /** A Discord sender is created iff some configured webhook is
        non-empty. */
    constructor(category: string, webhooks: seq<string>, files: Store)
      ensures this.category == category && this.files == files
      ensures discordOn <==> exists w :: w in webhooks && w != ""
      ensures isRunning && !isProcessing && !alphaFilterRunning && alphaResets == 0 && contentResets == 0
    {
      this.category := category;
      this.files := files;
      discordOn := exists w :: w in webhooks && w != "";
      isRunning := true;
      isProcessing := false;
      alphaFilterRunning := false;
      alphaResets := 0;
      contentResets := 0;
    }

    function StateOf(): State
      reads this
    {
      State(isProcessing, alphaFilterRunning, files, alphaResets, contentResets)
    }

    method ScheduledProcessing(date: string, data: Run<nat>, alpha: Option<Store>) returns (r: Scheduled)
      modifies this
      ensures (r, StateOf()) == ScheduledStep(old(StateOf()), data, alpha, NewsGenerator.CheckedProcessedFile(date))
      ensures isRunning == old(isRunning)
    {
      if isProcessing {
        return ScheduledSkipped;
      }
      isProcessing := true;
      alphaFilterRunning := true;
      alphaResets := alphaResets + 1;
      if data.Raised? {
        r := ScheduledRaised;
      } else {
        files := data.store;
        if data.value == 0 {
          r := NoTweets;
        } else if alpha.None? {
          r := ScheduledRaised;
        } else {
          files := alpha.value;
          var processedFile := NewsGenerator.CheckedProcessedFile(date);
          files := files - {processedFile};
          r := AlphaFiltered;
        }
      }
      isProcessing := false;
      alphaFilterRunning := false;
    }

    /** `_count_tweets_in_file`. */
    method CountTweetsInFile(path: string) returns (n: nat)
      ensures n == LegacyCount(files, path, category)
    {
      if path !in files || files[path].content.Corrupt? {
        return 0;
      }
      var data := files[path].content.json;
      var hasTweets := PyIn("tweets", data);
      if hasTweets.None? {
        return 0;
      }
      var count: Option<nat> := None;
      if hasTweets.value {
        count := Supervisor.TweetsLen(data);
      } else if PyIn(category, data) == Some(true) && data.JObj? {
        count := Supervisor.TweetsLen(Get(data.entries, category).value);
      }
      n := if count.Some? then count.value else 0;
    }

    /** The news half of an iteration. */
    method NewsOnce(t: Tick) returns (p: Phase)
      requires !isProcessing
      modifies this`files, this`contentResets, this`isProcessing
      ensures (p, StateOf()) == NewsPhase(old(StateOf()), category, discordOn, t)
    {
      var contentCount := CountTweetsInFile(Supervisor.CONTENT_FILE);
      if contentCount < NEWS_THRESHOLD {
        return NotDue;
      }
      isProcessing := true;
      var output := NewsGenerator.NewsFile(category, t.today);
      var initial := MTime(files, output);
      if t.news.Raised? {
        isProcessing := false;
        return Failed;
      }
      files := t.news.store;
      if !t.news.value {
        p := Kept;
      } else if MTime(files, output) != initial {
        if t.telegram.None? || (discordOn && t.discord.None?) {
          isProcessing := false;
          return Failed;
        }
        var discordResult := true;
        if discordOn {
          discordResult := t.discord.value;
        }
        if t.telegram.value && discordResult {
          files := files - {Supervisor.CONTENT_FILE};
          contentResets := contentResets + 1;
          p := Cleared;
        } else {
          p := SendFailed;
        }
      } else {
        files := files - {Supervisor.CONTENT_FILE};
        contentResets := contentResets + 1;
        p := Unchanged;
      }
      isProcessing := false;
    }

    method MonitorOnce(t: Tick) returns (it: Iteration)
      modifies this
      ensures (it, StateOf()) == MonitorStep(old(StateOf()), category, discordOn, t)
      ensures isRunning == old(isRunning)
    {
      if isProcessing {
        return Busy;
      }
      var content := NotDue;
      if !alphaFilterRunning {
        var alphaCount := CountTweetsInFile(Supervisor.ALPHA_FILE);
        if alphaCount >= CONTENT_THRESHOLD {
          isProcessing := true;
          if t.content.Raised? {
            isProcessing := false;
            return Checked(Failed, NotDue);
          }
          files := t.content.store;
          if t.content.value {
            files := files - {Supervisor.ALPHA_FILE};
            alphaResets := alphaResets + 1;
            content := Cleared;
          } else {
            content := Kept;
          }
          isProcessing := false;
        }
      }
      var news := NewsOnce(t);
      it := Checked(content, news);
    }

    /** `continuous_monitoring` over the iterations run before `is_running`
        is seen cleared. */
    method ContinuousMonitoring(ticks: seq<Tick>) returns (its: seq<Iteration>)
      modifies this
      ensures Monitored(its, StateOf()) == Monitor(old(StateOf()), category, discordOn, ticks)
      ensures isRunning == old(isRunning)
    {
      its := [];
      var i := 0;
      while i < |ticks|
        invariant 0 <= i <= |ticks|
        invariant Monitor(old(StateOf()), category, discordOn, ticks)
                  == Monitored(its + Monitor(StateOf(), category, discordOn, ticks[i..]).iterations,
                               Monitor(StateOf(), category, discordOn, ticks[i..]).state)
        invariant isRunning == old(isRunning)
        decreases |ticks| - i
      {
        ghost var before := Monitor(StateOf(), category, discordOn, ticks[i..]);
        var it := MonitorOnce(ticks[i]);
        assert ticks[i..][1..] == ticks[i + 1..];
        ghost var rest := Monitor(StateOf(), category, discordOn, ticks[i + 1..]);
        assert before.iterations == [it] + rest.iterations;
        assert before.state == rest.state;
        ConcatAssoc(its, [it], rest.iterations);
        its := its + [it];
        i := i + 1;
      }
      assert ticks[i..] == [];
    }

    /** The signal handler. */
    method Shutdown()
      modifies this`isRunning
      ensures !isRunning
    {
      isRunning := false;
    }
  }
}
