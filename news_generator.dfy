// src/news_generator.py: the scheduled stages of the news generator. Each
// stage holds the `is_processing` flag while it awaits the pipeline
// components (data processor, alpha, content and news filters, senders),
// which are given as their outcomes; the JSON store is the generator's
// view of the data directory, with paths relative to it.

module NewsGenerator {
  import opened Common
  import opened Supervisor
  import SrcDataProcessor

  /** The file the alpha stage looks for after the data processor ran. */
  function CheckedProcessedFile(date: string): string
  {
    SrcDataProcessor.PROCESSED_DIR + "/" + date + "_processed.json"
  }

  function SummaryName(category: string, date: string): string
  {
    Lower(category) + "_summary_" + date + ".json"
  }

  function NewsFile(category: string, date: string): string
  {
    "data/filtered/news_filtered/" + SummaryName(category, date)
  }

  function HistoryFile(category: string, date: string): string
  {
    "data/news_history/" + SummaryName(category, date)
  }

  lemma NewsAndHistoryDiffer(category: string, date: string)
    ensures NewsFile(category, date) != HistoryFile(category, date)
    ensures NewsFile(category, date) != CONTENT_FILE && HistoryFile(category, date) != CONTENT_FILE
  {
    var s := SummaryName(category, date);
    assert NewsFile(category, date)[5] == 'f';
    assert HistoryFile(category, date)[5] == 'n';
    assert CONTENT_FILE[5] == 'f';
    assert NewsFile(category, date)[14] == 'n';
    assert CONTENT_FILE[14] == 'c';
  }

  // ---------------------------------------------------------------
  // _check_content_overlap
  // ---------------------------------------------------------------

  /** How an f-string shows a value: a string as itself, anything else
      through Python's `str`, which `show` stands for. */
  function Text(v: Json, show: Json -> string): string
  {
    if v.JStr? then v.s else show(v)
  }

  /** `f"{t['url']}:{t['content']}"`; `None` when `t` is not a dict with
      both keys (`TypeError` or `KeyError`). */
  function TweetId(t: Json, show: Json -> string): (id: Option<string>)
    ensures id.Some? <==> t.JObj? && HasKey(t.entries, "url") && HasKey(t.entries, "content")
    ensures id.Some? ==>
      id.value == Text(Get(t.entries, "url").value, show) + ":" + Text(Get(t.entries, "content").value, show)
  {
    if t.JObj? && HasKey(t.entries, "url") && HasKey(t.entries, "content") then
      Some(Text(Get(t.entries, "url").value, show) + ":" + Text(Get(t.entries, "content").value, show))
    else None
  }

  /** The set comprehension of identifiers over whatever iterating
      `tweets` yields; `None` when iterating or any identifier raises. */
  function TweetIds(tweets: Json, show: Json -> string): (ids: Option<set<string>>)
    ensures ids.Some? <==> Elements(tweets).Some? && forall t :: t in Elements(tweets).value ==> TweetId(t, show).Some?
    ensures ids.Some? ==> forall id :: id in ids.value <==>
      exists t :: t in Elements(tweets).value && TweetId(t, show) == Some(id)
  {
    match Elements(tweets)
    case None => None
    case Some(ts) =>
      if forall t :: t in ts ==> TweetId(t, show).Some? then
        Some(set t | t in ts :: TweetId(t, show).value)
      else None
  }

  /** `doc.get(CATEGORY, {}).get('tweets', [])`. */
  function CategoryTweets(doc: Json, category: string): (r: Option<Json>)
    ensures r.Some? ==> doc.JObj?
  {
    match DictGet(doc, category, JObj([]))
    case None => None
    case Some(v) => DictGet(v, "tweets", JList([]))
  }

  /** The identifiers of the category's tweets in the stored document at
      `path`, when it exists and they can be computed. */
  function DocIds(files: map<string, Content>, path: string, category: string, show: Json -> string): Option<set<string>>
  {
    if path in files && files[path].Parsed? then
      match CategoryTweets(files[path].json, category)
      case None => None
      case Some(ts) => TweetIds(ts, show)
    else None
  }

  predicate Holds(files: map<string, Content>, path: string, id: string, category: string, show: Json -> string)
  {
    DocIds(files, path, category, show).Some? && id in DocIds(files, path, category, show).value
  }

  datatype Check = Overlaps | Disjoint | Failed

  /** One pass of the loop over the previous summaries: a missing file or
      one without tweets is skipped; an unreadable one or a malformed tweet
      raises. */
  function CheckFile(newTweets: Json, prev: Option<Content>, category: string, show: Json -> string): (r: Check)
    ensures r == Overlaps ==>
      prev.Some? && prev.value.Parsed? && CategoryTweets(prev.value.json, category).Some?
      && var prevIds := TweetIds(CategoryTweets(prev.value.json, category).value, show);
         var newIds := TweetIds(newTweets, show);
         prevIds.Some? && newIds.Some? && prevIds.value * newIds.value != {}
  {
    match prev
    case None => Disjoint
    case Some(Corrupt) => Failed
    case Some(Parsed(doc)) =>
      match CategoryTweets(doc, category)
      case None => Failed
      case Some(pt) =>
        if !Truthy(pt) then Disjoint else Compare(TweetIds(pt, show), TweetIds(newTweets, show))
  }

  /** `previous_ids.intersection(new_ids)`, once both sets are computed. */
  function Compare(prevIds: Option<set<string>>, newIds: Option<set<string>>): (r: Check)
    ensures r == Overlaps <==> prevIds.Some? && newIds.Some? && prevIds.value * newIds.value != {}
    ensures r == Failed <==> prevIds.None? || newIds.None?
  {
    if prevIds.None? || newIds.None? then Failed
    else if prevIds.value * newIds.value != {} then Overlaps
    else Disjoint
  }

  /** `_check_content_overlap`: true only when some identifier of the new
      tweets is also in yesterday's news file or its archived copy. */
  function ContentOverlap(files: map<string, Content>, contentPath: string, category: string,
                          date: string, show: Json -> string): (r: bool)
    ensures r ==> exists id :: Holds(files, contentPath, id, category, show)
                               && (Holds(files, NewsFile(category, date), id, category, show)
                                   || Holds(files, HistoryFile(category, date), id, category, show))
  {
    if contentPath !in files || files[contentPath].Corrupt? then false
    else
      match CategoryTweets(files[contentPath].json, category)
      case None => false
      case Some(nt) =>
        if !Truthy(nt) then false
        else
          var newsCheck := CheckFile(nt, FileAt(files, NewsFile(category, date)), category, show);
          if newsCheck == Overlaps then
            OverlapWitness(files, contentPath, NewsFile(category, date), nt, category, show);
            true
          else if newsCheck == Failed then false
          else
            var historyCheck := CheckFile(nt, FileAt(files, HistoryFile(category, date)), category, show);
            if historyCheck == Overlaps then
              OverlapWitness(files, contentPath, HistoryFile(category, date), nt, category, show);
              true
            else false
  }

  lemma OverlapWitness(files: map<string, Content>, contentPath: string, prevPath: string, nt: Json,
                       category: string, show: Json -> string)
    requires contentPath in files && files[contentPath].Parsed?
    requires CategoryTweets(files[contentPath].json, category) == Some(nt)
    requires CheckFile(nt, FileAt(files, prevPath), category, show) == Overlaps
    ensures exists id :: Holds(files, contentPath, id, category, show) && Holds(files, prevPath, id, category, show)
  {
    var prev := FileAt(files, prevPath).value;
    var prevIds := TweetIds(CategoryTweets(prev.json, category).value, show).value;
    var newIds := TweetIds(nt, show).value;
    assert DocIds(files, prevPath, category, show) == Some(prevIds);
    assert DocIds(files, contentPath, category, show) == Some(newIds);
    var id :| id in prevIds * newIds;
    assert Holds(files, contentPath, id, category, show) && Holds(files, prevPath, id, category, show);
  }

  /** A previous summary that can be read through: missing, or with
      computable identifiers. */
  predicate Readable(files: map<string, Content>, path: string, category: string, show: Json -> string)
  {
    path !in files || DocIds(files, path, category, show).Some?
  }

  /** Where nothing raises, a shared identifier is always reported. */
  lemma OverlapComplete(files: map<string, Content>, contentPath: string, category: string,
                        date: string, show: Json -> string, id: string)
    requires Readable(files, NewsFile(category, date), category, show)
    requires Readable(files, HistoryFile(category, date), category, show)
    requires Holds(files, contentPath, id, category, show)
    requires Holds(files, NewsFile(category, date), id, category, show)
             || Holds(files, HistoryFile(category, date), id, category, show)
    ensures ContentOverlap(files, contentPath, category, date, show)
  {
    var nt := CategoryTweets(files[contentPath].json, category).value;
    var ts := Elements(nt).value;
    var t :| t in ts && TweetId(t, show) == Some(id);
    assert |ts| > 0;
    assert Truthy(nt);
    var newsPath := NewsFile(category, date);
    var historyPath := HistoryFile(category, date);
    if Holds(files, newsPath, id, category, show) {
      PriorOverlaps(files, newsPath, nt, category, show, id);
    } else {
      PriorNotFailed(files, newsPath, nt, category, show);
      PriorOverlaps(files, historyPath, nt, category, show, id);
    }
  }

  lemma PriorNotFailed(files: map<string, Content>, path: string, nt: Json, category: string, show: Json -> string)
    requires Readable(files, path, category, show)
    requires TweetIds(nt, show).Some?
    ensures CheckFile(nt, FileAt(files, path), category, show) != Failed
  {
  }

  lemma PriorOverlaps(files: map<string, Content>, path: string, nt: Json, category: string,
                      show: Json -> string, id: string)
    requires Holds(files, path, id, category, show)
    requires TweetIds(nt, show).Some? && id in TweetIds(nt, show).value
    ensures CheckFile(nt, FileAt(files, path), category, show) == Overlaps
  {
    var doc := files[path].json;
    assert FileAt(files, path) == Some(Parsed(doc));
    var pt := CategoryTweets(doc, category).value;
    var prevIds := TweetIds(pt, show).value;
    var newIds := TweetIds(nt, show).value;
    var t :| t in Elements(pt).value && TweetId(t, show) == Some(id);
    assert |Elements(pt).value| > 0;
    assert Truthy(pt);
    assert id in prevIds * newIds;
    assert Compare(Some(prevIds), Some(newIds)) == Overlaps;
  }

  // ---------------------------------------------------------------
  // The stages
  // ---------------------------------------------------------------

  datatype DataStage = DataBusy | DataRaised | DataProcessed(count: nat)

  /** `process_data`: the data processor's count, or nothing while another
      stage holds the flag. */
  function DataStep(busy: bool, files: map<string, Content>, data: Run<nat>): (r: Step<DataStage>)
    ensures busy ==> r == Step(DataBusy, files)
    ensures !busy && data.Done? ==> r == Step(DataProcessed(data.value), data.store)
    ensures !busy && data.Raised? ==> r == Step(DataRaised, files)
  {
    if busy then Step(DataBusy, files)
    else match data
      case Raised => Step(DataRaised, files)
      case Done(n, s) => Step(DataProcessed(n), s)
  }

  datatype AlphaStage = AlphaBusy | AlphaRaised | NoNewTweets | NoProcessedFile | AlphaFiltered(cleared: bool)

  /** `process_alpha_filter`, with the processed file it checks and clears
      given as `checked`. */
  function AlphaStep(busy: bool, files: map<string, Content>, data: Run<nat>, alpha: Run<bool>,
                     checked: string): Step<AlphaStage>
  {
    if busy then Step(AlphaBusy, files)
    else match data
      case Raised => Step(AlphaRaised, files)
      case Done(n, s) =>
        if n == 0 then Step(NoNewTweets, s)
        else if checked !in s then Step(NoProcessedFile, s)
        else match alpha
          case Raised => Step(AlphaRaised, s)
          case Done(ok, s2) =>
            if ok then Step(AlphaFiltered(true), s2 - {checked})
            else Step(AlphaFiltered(false), s2)
  }

  /** The alpha filter runs iff the stage is free, the data processor
      reported new tweets and the checked file exists; the checked file is
      removed only after a truthy result, and nothing else is touched. */
  lemma AlphaStepGate(busy: bool, files: map<string, Content>, data: Run<nat>, alpha: Run<bool>, checked: string)
    ensures var r := AlphaStep(busy, files, data, alpha, checked);
      && (r.stage.AlphaFiltered? <==> !busy && data.Done? && data.value > 0 && checked in data.store && alpha.Done?)
      && (r.stage == AlphaFiltered(true) ==> alpha.value && r.store == alpha.store - {checked})
      && (r.stage == AlphaFiltered(false) ==> !alpha.value && r.store == alpha.store)
      && (!r.stage.AlphaFiltered? && data.Done? && !busy ==> r.store == data.store)
      && (busy || data.Raised? ==> r.store == files)
  {
  }

  /** As written, fresh output of the data processor never reaches the
      alpha filter: the data processor writes `<date>.json`, while the stage
      looks for `<date>_processed.json`. */
  lemma AsWrittenSkipsFreshOutput(files: map<string, Content>, date: string, n: nat, out: Content, alpha: Run<bool>)
    requires n > 0
    requires CheckedProcessedFile(date) !in files
    ensures var written := files[SrcDataProcessor.ProcessedFile(date) := out];
      AlphaStep(false, files, Done(n, written), alpha, CheckedProcessedFile(date)).stage == NoProcessedFile
  {
    assert |CheckedProcessedFile(date)| != |SrcDataProcessor.ProcessedFile(date)|;
  }

  /** Checking the file the data processor does write, fresh output is
      filtered, and the processed file is cleared exactly on success. */
  lemma CorrectedFiltersFreshOutput(files: map<string, Content>, date: string, n: nat, out: Content, alpha: Run<bool>)
    requires n > 0 && alpha.Done?
    ensures var written := files[SrcDataProcessor.ProcessedFile(date) := out];
      var r := AlphaStep(false, files, Done(n, written), alpha, SrcDataProcessor.ProcessedFile(date));
      r.stage == AlphaFiltered(alpha.value)
      && (SrcDataProcessor.ProcessedFile(date) in r.store <==> !alpha.value && SrcDataProcessor.ProcessedFile(date) in alpha.store)
  {
  }

  datatype ContentStage =
    | ContentBusy | NoAlphaOutput | InvalidAlphaOutput | EmptyAlphaOutput | ContentRaised
    | ContentFiltered(cleared: bool)

  /** `process_content_filter`. */
  function ContentStep(busy: bool, files: map<string, Content>, content: Run<bool>): Step<ContentStage>
  {
    if busy then Step(ContentBusy, files)
    else if ALPHA_FILE !in files then Step(NoAlphaOutput, files)
    else match files[ALPHA_FILE]
      case Corrupt => Step(InvalidAlphaOutput, files)
      case Parsed(doc) =>
        match DictGet(doc, "tweets", JList([]))
        case None => Step(ContentRaised, files)
        case Some(tweets) =>
          if !Truthy(tweets) then Step(EmptyAlphaOutput, files)
          else match content
            case Raised => Step(ContentRaised, files)
            case Done(ok, s) =>
              if ok then Step(ContentFiltered(true), s - {ALPHA_FILE})
              else Step(ContentFiltered(false), s)
  }

  /** The content filter runs only on a non-empty alpha output, and the
      alpha output is cleared only after a truthy result. */
  lemma ContentStepGate(busy: bool, files: map<string, Content>, content: Run<bool>)
    ensures var r := ContentStep(busy, files, content);
      && (r.stage.ContentFiltered? <==>
            !busy && ALPHA_FILE in files && files[ALPHA_FILE].Parsed? && files[ALPHA_FILE].json.JObj?
            && Truthy(GetOr(files[ALPHA_FILE].json.entries, "tweets", JList([]))) && content.Done?)
      && (r.stage == ContentFiltered(true) ==> content.value && r.store == content.store - {ALPHA_FILE})
      && (r.stage == ContentFiltered(false) ==> !content.value && r.store == content.store)
      && (!r.stage.ContentFiltered? ==> r.store == files)
  {
  }

  datatype NewsStage =
    | NewsBusy | NoContentOutput | InvalidContentOutput | EmptyContentOutput | NewsRaised
    | OverlapFound | NewsFailed | NoNewsFile | SendFailed | InvalidNewsFile | Archived

  /** The configured senders all answered true: a sender that is not
      configured is not asked. */
  predicate AllSent(telegramOn: bool, discordOn: bool, telegram: Option<bool>, discord: Option<bool>)
  {
    (telegramOn ==> telegram == Some(true)) && (discordOn ==> discord == Some(true))
  }

  /** After a successful send: the news file moves to the history
      directory and the content input is removed. */
  function ArchiveStore(s: map<string, Content>, category: string, date: string): map<string, Content>
    requires NewsFile(category, date) in s
  {
    (s - {NewsFile(category, date)})[HistoryFile(category, date) := s[NewsFile(category, date)]] - {CONTENT_FILE}
  }

  /** `process_news_filter`; a sender that raises (`None`) ends the stage,
      and the second sender is then not asked. */
  function NewsStep(busy: bool, files: map<string, Content>, category: string, date: string,
                    telegramOn: bool, discordOn: bool, news: Run<bool>,
                    telegram: Option<bool>, discord: Option<bool>, show: Json -> string): Step<NewsStage>
  {
    if busy then Step(NewsBusy, files)
    else if CONTENT_FILE !in files then Step(NoContentOutput, files)
    else match files[CONTENT_FILE]
      case Corrupt => Step(InvalidContentOutput, files)
      case Parsed(doc) =>
        match CategoryTweets(doc, category)
        case None => Step(NewsRaised, files)
        case Some(tweets) =>
          if !Truthy(tweets) then Step(EmptyContentOutput, files)
          else if ContentOverlap(files, CONTENT_FILE, category, date, show) then Step(OverlapFound, files)
          else match news
            case Raised => Step(NewsRaised, files)
            case Done(ok, s) =>
              if !ok then Step(NewsFailed, s)
              else if NewsFile(category, date) !in s then Step(NoNewsFile, s)
              else if telegramOn && telegram.None? then Step(NewsRaised, s)
              else if discordOn && discord.None? then Step(NewsRaised, s)
              else if !AllSent(telegramOn, discordOn, telegram, discord) then Step(SendFailed, s)
              else if s[NewsFile(category, date)].Corrupt? then Step(InvalidNewsFile, s)
              else Step(Archived, ArchiveStore(s, category, date))
  }

  /** The news stage archives only when there is no overlap with yesterday
      and every configured sender succeeded; archiving moves the news file
      unchanged into the history and removes the content input. */
  lemma NewsStepArchives(busy: bool, files: map<string, Content>, category: string, date: string,
                         telegramOn: bool, discordOn: bool, news: Run<bool>,
                         telegram: Option<bool>, discord: Option<bool>, show: Json -> string)
    ensures var r := NewsStep(busy, files, category, date, telegramOn, discordOn, news, telegram, discord, show);
      r.stage == Archived ==>
        && !busy && !ContentOverlap(files, CONTENT_FILE, category, date, show)
        && news.Done? && news.value && AllSent(telegramOn, discordOn, telegram, discord)
        && NewsFile(category, date) in news.store && news.store[NewsFile(category, date)].Parsed?
        && HistoryFile(category, date) in r.store
        && r.store[HistoryFile(category, date)] == news.store[NewsFile(category, date)]
        && NewsFile(category, date) !in r.store && CONTENT_FILE !in r.store
  {
    NewsAndHistoryDiffer(category, date);
  }

  /** When the content overlaps with yesterday's summary nothing runs and
      nothing changes. */
  lemma NewsStepSkipsOverlap(files: map<string, Content>, category: string, date: string,
                             telegramOn: bool, discordOn: bool, news: Run<bool>,
                             telegram: Option<bool>, discord: Option<bool>, show: Json -> string)
    requires ContentOverlap(files, CONTENT_FILE, category, date, show)
    ensures NewsStep(false, files, category, date, telegramOn, discordOn, news, telegram, discord, show)
            == Step(OverlapFound, files)
  {
  }

  /** A configured sender that fails leaves the content input and the news
      file where the news filter left them. */
  lemma NewsStepKeepsInputOnSendFailure(files: map<string, Content>, category: string, date: string,
                                        telegramOn: bool, discordOn: bool, news: Run<bool>,
                                        telegram: Option<bool>, discord: Option<bool>, show: Json -> string)
    requires news.Done?
    requires (telegramOn && telegram == Some(false)) || (discordOn && discord == Some(false))
    ensures var r := NewsStep(false, files, category, date, telegramOn, discordOn, news, telegram, discord, show);
      r.stage != Archived && (r.store == files || r.store == news.store)
  {
    NewsStepArchives(false, files, category, date, telegramOn, discordOn, news, telegram, discord, show);
    NewsStepStores(false, files, category, date, telegramOn, discordOn, news, telegram, discord, show);
  }

  /** A news stage that does not archive leaves either the store it was
      given or the one the news filter left. */
  lemma NewsStepStores(busy: bool, files: map<string, Content>, category: string, date: string,
                       telegramOn: bool, discordOn: bool, news: Run<bool>,
                       telegram: Option<bool>, discord: Option<bool>, show: Json -> string)
    ensures var r := NewsStep(busy, files, category, date, telegramOn, discordOn, news, telegram, discord, show);
      r.stage != Archived ==> r.store == files || (news.Done? && r.store == news.store)
  {
    var r := NewsStep(busy, files, category, date, telegramOn, discordOn, news, telegram, discord, show);
    if busy || CONTENT_FILE !in files || files[CONTENT_FILE].Corrupt? {
      assert r.store == files;
    } else {
      var tweets := CategoryTweets(files[CONTENT_FILE].json, category);
      if tweets.None? || !Truthy(tweets.value) || ContentOverlap(files, CONTENT_FILE, category, date, show) || news.Raised? {
        assert r.store == files;
      }
    }
  }

  // ---------------------------------------------------------------
  // The generator
  // ---------------------------------------------------------------

  class NewsGenerator {
    var files: map<string, Content>
    var isRunning: bool
    var isProcessing: bool
    /** Calls of the alpha filter's and the content filter's `reset_state`. */
    var alphaResets: nat
    var contentResets: nat
    const category: string
    /** Whether a Telegram and a Discord sender were created. */
    const telegramOn: bool
    const discordOn: bool

    /** A sender is created iff some configured channel (webhook) is
        non-empty. */
    constructor(category: string, channels: seq<string>, webhooks: seq<string>, files: map<string, Content>)
      ensures this.category == category && this.files == files
      ensures telegramOn <==> exists c :: c in channels && c != ""
      ensures discordOn <==> exists w :: w in webhooks && w != ""
      ensures isRunning && !isProcessing && alphaResets == 0 && contentResets == 0
    {
      this.category := category;
      this.files := files;
      telegramOn := exists c :: c in channels && c != "";
      discordOn := exists w :: w in webhooks && w != "";
      isRunning := true;
      isProcessing := false;
      alphaResets := 0;
      contentResets := 0;
    }

    method ProcessData(data: Run<nat>) returns (stage: DataStage)
      modifies this
      ensures Step(stage, files) == DataStep(old(isProcessing), old(files), data)
      ensures isProcessing == old(isProcessing)
      ensures alphaResets == old(alphaResets) && contentResets == old(contentResets)
      ensures isRunning == old(isRunning)
    {
      if isProcessing {
        return DataBusy;
      }
      isProcessing := true;
      match data {
        case Raised =>
          stage := DataRaised;
        case Done(n, s) =>
          files := s;
          stage := DataProcessed(n);
      }
      isProcessing := false;
    }

    method ProcessAlphaFilter(date: string, data: Run<nat>, alpha: Run<bool>) returns (stage: AlphaStage)
      modifies this
      ensures Step(stage, files) == AlphaStep(old(isProcessing), old(files), data, alpha, CheckedProcessedFile(date))
      ensures isProcessing == old(isProcessing)
      ensures alphaResets == old(alphaResets) && contentResets == old(contentResets)
      ensures isRunning == old(isRunning)
    {
      if isProcessing {
        return AlphaBusy;
      }
      isProcessing := true;
      if data.Raised? {
        stage := AlphaRaised;
      } else {
        files := data.store;
        var dataFile := CheckedProcessedFile(date);
        if data.value == 0 {
          stage := NoNewTweets;
        } else if dataFile !in files {
          stage := NoProcessedFile;
        } else if alpha.Raised? {
          stage := AlphaRaised;
        } else {
          files := alpha.store;
          if alpha.value {
            files := files - {dataFile};
          }
          stage := AlphaFiltered(alpha.value);
        }
      }
      isProcessing := false;
    }

    method ProcessContentFilter(content: Run<bool>) returns (stage: ContentStage)
      modifies this
      ensures Step(stage, files) == ContentStep(old(isProcessing), old(files), content)
      ensures alphaResets == old(alphaResets) + (if stage == ContentFiltered(true) then 1 else 0)
      ensures isProcessing == old(isProcessing)
      ensures contentResets == old(contentResets) && isRunning == old(isRunning)
    {
      if isProcessing {
        return ContentBusy;
      }
      isProcessing := true;
      if ALPHA_FILE !in files {
        stage := NoAlphaOutput;
      } else if files[ALPHA_FILE].Corrupt? {
        stage := InvalidAlphaOutput;
      } else {
        var tweets := DictGet(files[ALPHA_FILE].json, "tweets", JList([]));
        if tweets.None? {
          stage := ContentRaised;
        } else if !Truthy(tweets.value) {
          stage := EmptyAlphaOutput;
        } else if content.Raised? {
          stage := ContentRaised;
        } else {
          files := content.store;
          if content.value {
            files := files - {ALPHA_FILE};
            alphaResets := alphaResets + 1;
          }
          stage := ContentFiltered(content.value);
        }
      }
      isProcessing := false;
    }

    method ProcessNewsFilter(date: string, news: Run<bool>, telegram: Option<bool>, discord: Option<bool>,
                             show: Json -> string) returns (stage: NewsStage)
      modifies this
      ensures Step(stage, files) ==
        NewsStep(old(isProcessing), old(files), category, date, telegramOn, discordOn, news, telegram, discord, show)
      ensures contentResets == old(contentResets) + (if stage == Archived then 1 else 0)
      ensures isProcessing == old(isProcessing)
      ensures alphaResets == old(alphaResets) && isRunning == old(isRunning)
    {
      if isProcessing {
        return NewsBusy;
      }
      isProcessing := true;
      stage := NewsInner(date, news, telegram, discord, show);
      isProcessing := false;
    }

    /** The body of `process_news_filter` inside its `try`. */
    method NewsInner(date: string, news: Run<bool>, telegram: Option<bool>, discord: Option<bool>,
                     show: Json -> string) returns (stage: NewsStage)
      modifies this`files, this`contentResets
      ensures Step(stage, files) ==
        NewsStep(false, old(files), category, date, telegramOn, discordOn, news, telegram, discord, show)
      ensures contentResets == old(contentResets) + (if stage == Archived then 1 else 0)
    {
      if CONTENT_FILE !in files {
        return NoContentOutput;
      }
      if files[CONTENT_FILE].Corrupt? {
        return InvalidContentOutput;
      }
      var tweets := CategoryTweets(files[CONTENT_FILE].json, category);
      if tweets.None? {
        return NewsRaised;
      }
      if !Truthy(tweets.value) {
        return EmptyContentOutput;
      }
      if ContentOverlap(files, CONTENT_FILE, category, date, show) {
        return OverlapFound;
      }
      if news.Raised? {
        return NewsRaised;
      }
      files := news.store;
      if !news.value {
        return NewsFailed;
      }
      var newsFile := NewsFile(category, date);
      if newsFile !in files {
        return NoNewsFile;
      }
      var sendSuccess := true;
      if telegramOn {
        if telegram.None? {
          return NewsRaised;
        }
        if !telegram.value {
          sendSuccess := false;
        }
      }
      if discordOn {
        if discord.None? {
          return NewsRaised;
        }
        if !discord.value {
          sendSuccess := false;
        }
      }
      if !sendSuccess {
        return SendFailed;
      }
      if files[newsFile].Corrupt? {
        return InvalidNewsFile;
      }
      var historyFile := HistoryFile(category, date);
      files := (files - {newsFile})[historyFile := files[newsFile]];
      files := files - {CONTENT_FILE};
      contentResets := contentResets + 1;
      stage := Archived;
    }
  }
}
