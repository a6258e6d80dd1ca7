# A Dafny model of the tweet-to-newsletter pipeline

This project models the core of a Python system. The system collects tweets
from TweetDeck columns, Twitter lists and Slack/Telegram "pumps". It cleans and
deduplicates them (the data processors). Then it passes them through
language-model filter stages: the alpha filter, the content filter, the news
filter and the tweet scorer, each behind a circuit breaker and a retry loop.
It builds a daily summary and sends it to Telegram and Discord. Process
supervisors decide when each stage runs.

Everything is stated over values: JSON documents are the `Json` datatype (objects are
ordered association lists, so Python's insertion order is kept), the file
system is a map from path to `Content` (a decoded document, or `Corrupt` when
`json.load` would raise), the language models are input traces (what each
attempt answered, if anything), clocks are integer seconds passed in by the
caller, and the asynchronous shutdown flag is the loop iteration at which it
is first seen set. Stateful objects (the circuit breaker, the retry
configuration, the alpha filter's file store) are classes whose methods are
proved against specification functions; loops in the source are `while` loops
proved against those functions.

Modules, one per core file (shared pieces once):

- `Common`: the JSON model, Python dictionary, string and sort helpers.
- `Dedup`: the first-occurrence-by-id scan used by every deduplication.
- `DataProcessor` / `SrcDataProcessor`: data_processor.py and
  src/processors/data_processor.py. The functions the two files share
  word for word are modelled once, in `DataProcessor`; the src
  `structure_output` names its keys `categories_processed` and
  `categories` and is modelled in `SrcDataProcessor` (nothing in that
  file calls it).
- `ErrorHandler`: error_handler.py (`RetryConfig`, `with_retry`).
- `Breaker`: the `CircuitBreaker` class, identical in alpha_filter.py,
  src/processors/alpha_filter.py, content_filter.py, news_filter.py,
  src/processors/news_filter.py and tweet_scorer.py.
- `Oracle`: model replies and the three-attempt retry loop with 2 s / 4 s
  back-off shared by the alpha filters and the tweet scorer.
- `AlphaFilter` / `SrcAlphaFilter`: alpha_filter.py and
  src/processors/alpha_filter.py.
- `ContentFilter`: content_filter.py (chunk sizing, passage extraction,
  duplicate selection, column processing, category names, the run gate).
- `NewsCommon`: what both news filters share (`_api_request` behind the
  breaker, reading an answer, the required-field test, the subcategory
  checks).
- `NewsFilter` / `SrcNewsFilter`: news_filter.py and
  src/processors/news_filter.py.
- `TweetScorer`: tweet_scorer.py (`score_tweet`, `_validate_score_response`,
  the averaging, `_process_column`).
- `Pump`: what the two Slack pumps share, word for word in src/slack_pump.py
  and kol_pump.py: the link pattern and `re.findall`, `strip('<>')`, the
  `/status/(\d+)` id search, `_scrape_tweets` under its `with_retry`
  decorator (Apify's answers are a trace of runs), and the message gate.
- `SlackPump`: src/slack_pump.py (summarised entries appended under
  `CATEGORY` in the content filter's combined output).
- `KolPump`: kol_pump.py (one alpha-filter record per tweet, appended to the
  alpha filter's combined output with its metadata count).
- `DeckScraper`: src/core/deck_scraper.py (tweet data from an article,
  the monitoring rule, `scrape_all_columns` with its `latest_tweets` map
  and column files, the storing part of `identify_columns`).
- `ApiClient`: src/core/api_client.py (`_safe_get_env_int`, which
  src/core/list_scraper.py repeats word for word, `_handle_rate_limit` in
  the `TwitterApiClient` class, and the pagination loop of
  `get_list_tweets` over a trace of responses).
- `ListScraper`: src/core/list_scraper.py (`_extract_list_id`, the record
  built from each non-reply tweet, the worker and the collecting loop of
  `scrape_category_lists`).
- `FileHandler`: src/core/file_handler.py (the date folder, path and
  streamed text of `save_category_tweets`, `_estimate_size`, the cached
  `load_category_configuration` and `_validate_config`).
- `Collector`: tweet_collector.py (the TweetDeck process whose error count
  is never reset: `validate_tweetdeck`, `initialize_browser`, the
  `collect_tweets` loop over a trace of turns, `handle_critical_error`,
  `shutdown`, `run`).
- `Collection`: tweet_collection.py (the older TweetDeck process whose count
  is reset by a productive scrape, and whose `validate_tweetdeck` retries
  its URL and column checks; its loop does not call `validate_tweetdeck`).
- `ScraperProcess`: scraper_process.py (`monitor_tweets`, the
  `continuous_scraping` loop with its consecutive-error counter and
  backoff, `initial_scrape`).
- `SrcCollector`: src/tweet_collector.py (the saved collection date,
  `process_category`, the summary of `collect_tweets` in sequential and
  parallel mode, the error count that `handle_critical_error` resets).

- `Supervisor`: the file counting `tweet_summary.py` and its siblings share
  (`d.get`, `len` of the tweets, a count of 0 when reading fails).
- `NewsGenerator`: src/news_generator.py (the data, alpha, content and news
  stages, the overlap check against yesterday's summary, the archive).
- `NewsletterProcess`: newsletter_process.py (tweet counts of the column
  files, the content and news gates, the monitoring loop, daily processing).
- `SchedulerProcess`: scheduler_process.py (the collect run and the
  15-tweet readiness scan of the column files).
- `TweetSummary`: tweet_summary.py (midnight processing and the monitoring
  loop with its 20-tweet gate).
- `NewsletterGenerator`: src/legacy/newsletter_generator.py (scheduled
  processing, the tweet count, the content and news phases of the loop).
- `Emoji`: `_get_emoji_for_subcategory`, shared by the three senders.
- `Senders`: what the senders share (`html.escape`, the category key
  search, grouping tweets by author, the summary files and their
  validation, the date format, the line loop of `format_text`).
- `DiscordSender`: src/senders/discord_sender.py (`format_text`,
  `_split_message`, `format_category_summary`, `send_message`,
  `process_news_summary`).
- `SrcTelegramSender`: src/senders/telegram_sender.py (the same operations
  for Telegram, with one summary per eligible channel).
- `TelegramSender`: telegram_sender.py (the older sender: tweet lines with
  their links, consolidated author lines, one test channel).

## Model

| member | source | states |
|---|---|---|
| DataProcessor.NormalizeText | data_processor.py:33-57 | empty text stays empty; every character of the result is printable, is not an ellipsis or en/em dash, and is a plain space if it is whitespace at all; the result has no leading or trailing whitespace |
| DataProcessor.NormalizeKeepsNormal | data_processor.py:33-57 | text already in normal form (clean characters, single spaces, no URL, no whitespace at the ends) comes back unchanged, so the result is pinned down and not only bounded |
| DataProcessor.CollapseWhitespace | data_processor.py:39 | every whitespace run becomes one space: no two adjacent spaces, and every other character comes from the input |
| DataProcessor.IsValidTweet | data_processor.py:59-72 | raises exactly when `text` is truthy but not a string; valid exactly when `text` is a truthy string whose normalised form has at least two words, invalid in every other case |
| DataProcessor.HasEnoughWords | data_processor.py:332-335 | `_is_valid` raises exactly when `text` is present and not a string; true exactly when `text` is a string of at least two whitespace-separated words, false when it is missing or has fewer |
| DataProcessor.NormalizeRecord | data_processor.py:337-342 | only `text` changes, to its normalised form; keys and every other field are kept |
| DataProcessor.DeduplicateCharacterised | data_processor.py:151-170 | columns come out in sorted key order, as a permutation of the input keys, and their concatenation is the first-occurrence-by-truthy-id scan of the concatenated sorted columns |
| DataProcessor.DedupColumnsIsGlobal | data_processor.py:157-166 | the `seen_ids` set shared across columns makes the per-column scan equal the scan of all columns together |
| DataProcessor.Deduplicate | data_processor.py:151-170 | the loop computes the deduplication specification |
| DataProcessor.RemoveDuplicates | data_processor.py:172-191 | keeps the first tweet of each truthy id, in order: a subsequence with distinct ids, idless tweets dropped |
| DataProcessor.JudgedCharacterised | data_processor.py:315-330 | a clean pass raises exactly when some tweet's verdict raises; otherwise it keeps exactly the kept tweets, in order |
| DataProcessor.CleanColumnCharacterised | data_processor.py:319-326 | one column's cleaning raises exactly when a tweet has a non-string `text`; otherwise it keeps the normalised tweets with enough words |
| DataProcessor.CleanTweetsCharacterised | data_processor.py:315-330 | `clean_tweets` raises exactly when some column raises, and otherwise cleans every column, keeping the column keys |
| DataProcessor.CleanedCharacterised | data_processor.py:319-326 | cleaning never grows a column, every kept tweet is the normalised form of an input tweet, and every tweet with enough words is kept |
| DataProcessor.CleanColumn | data_processor.py:319-326 | the loop computes the column's cleaning specification |
| DataProcessor.CleanTweets | data_processor.py:315-330 | the loop over columns computes `clean_tweets` |
| DataProcessor.StructureOutput | data_processor.py:344-354 | `total_tweets` is the number of tweets across all columns; `columns_processed` is the number of columns |
| DataProcessor.TotalIsFlattenLength | data_processor.py:346 | the sum of the column lengths is the length of their concatenation |
| DataProcessor.ProcessColumns | data_processor.py:300-313 | the pipeline is deduplicate, then clean, then structure |
| DataProcessor.CleanedColumnsFlatten | data_processor.py:315-330 | cleaning column by column equals cleaning the concatenation |
| DataProcessor.CleanedKeepsIdsDistinct | data_processor.py:337-342 | cleaning keeps ids distinct, because normalising never touches `id` |
| DataProcessor.ProcessColumnsIdsDistinct | data_processor.py:300-313 | the processed output has sorted column keys and no two tweets with the same id |
| DataProcessor.SaveProcessedTweets | data_processor.py:269-298 | the combined file holds every column's tweets in order, with `total_tweets` their count |
| DataProcessor.CombinedIsCleanedDedup | data_processor.py:269-313 | the combined file is the cleaning of the deduplicated tweets of all columns, in sorted column order |
| DataProcessor.ProcessRawColumn | data_processor.py:225-243 | the per-column loop of `_process_raw_tweets` computes its specification: dedup by raw id (a missing id counts once), then validity and normalisation |
| DataProcessor.OneIdlessTweetPasses | data_processor.py:229-233 | in `_process_raw_tweets` a first idless tweet is kept and a second dropped, whereas `deduplicate` drops both |
| Dedup.SeenAfterMembers | data_processor.py:160-163 | the seen set after a scan is the initial set plus every admissible id met |
| Dedup.NotSeenIsFirst | data_processor.py:162 | an id is not yet seen exactly when this is its first admissible occurrence |
| Dedup.KeepFirstLoop | data_processor.py:176-186 | the scan loop computes the kept tweets and the seen set of the specification |
| Dedup.KeepFirstAppend | data_processor.py:157-166 | scanning a concatenation is scanning the first part, then the second part with the seen set carried over |
| Dedup.SeenAfterAppend | data_processor.py:157-166 | the seen set after a concatenation is the second part's seen set started from the first's |
| Dedup.KeepFirstSound | data_processor.py:176-186 | the kept tweets are input tweets with admissible, previously unseen ids |
| Dedup.KeepFirstDistinct | data_processor.py:176-186 | the kept tweets have pairwise distinct ids |
| Dedup.KeepFirstComplete | data_processor.py:176-186 | every admissible, initially unseen id of the input appears among the kept tweets |
| SrcDataProcessor.CategoryOf | src/processors/data_processor.py:132 | the category is the file stem up to the first underscore, or the whole stem when it has none |
| SrcDataProcessor.TweetsOfFile | src/processors/data_processor.py:135-149 | a file yields its list, or the `tweets` list of a dict, and nothing otherwise |
| SrcDataProcessor.LoadSpecIsLastLoaded | src/processors/data_processor.py:129-157 | each category holds the tweets of the last file with that category that loaded |
| SrcDataProcessor.LoadSpecDistinct | src/processors/data_processor.py:151 | the loaded categories are distinct keys |
| SrcDataProcessor.LoadRawTweets | src/processors/data_processor.py:110-164 | the file loop computes the loading specification |
| SrcDataProcessor.AuthorHandle | src/processors/data_processor.py:213 | `author_handle` wins over `authorHandle`, defaulting to the empty string |
| SrcDataProcessor.NormalizeTweet | src/processors/data_processor.py:208-239 | the seven normalised keys, plus `quotedContent` when quoted content is truthy; id and author copied; text normalised; `None` exactly when it raises |
| SrcDataProcessor.ProcessCategorySnoc | src/processors/data_processor.py:257-276 | one more raw tweet extends the category by its normalised form exactly when it is a dict with a new truthy id and it validates |
| SrcDataProcessor.ProcessCategoryLoop | src/processors/data_processor.py:257-276 | the per-category loop computes its specification |
| SrcDataProcessor.SeenBeforeValidation | src/processors/data_processor.py:270-276 | an id is marked seen before validation, so an invalid first tweet hides a valid duplicate |
| SrcDataProcessor.ProcessCategorySound | src/processors/data_processor.py:257-276 | every kept tweet comes from the first-occurrence scan of the dicts, and ids stay distinct |
| SrcDataProcessor.NormalizeKeepsIdField | src/processors/data_processor.py:211 | normalisation copies the id |
| SrcDataProcessor.ProcessRawTweets | src/processors/data_processor.py:241-292 | the category loop computes its specification |
| SrcDataProcessor.StructureOutput | src/processors/data_processor.py:407-417 | the categories under `categories`, `categories_processed` their number and `total_tweets` the number of tweets across them |
| SrcDataProcessor.ProcessedIsStructured | src/processors/data_processor.py:276-286 | for a dict of categories, the record `_process_raw_tweets` builds by counting as it goes is the one `structure_output` builds from the kept categories |
| SrcDataProcessor.ProcessRawTweetsCharacterised | src/processors/data_processor.py:276-286 | `total_tweets` counts the kept tweets, `categories_processed` counts the non-empty categories kept, and every kept category came from the input |
| SrcDataProcessor.CategoriesFromRaw | src/processors/data_processor.py:253-280 | every output category is a key of the input |
| SrcDataProcessor.CategoriesCounted | src/processors/data_processor.py:276-286 | with distinct input keys, `total_tweets` is the number of tweets output and no output category is empty |
| SrcDataProcessor.RawSnoc | src/processors/data_processor.py:276-280 | one more category adds its surviving tweets to the counter and, when any survive, its entry |
| SrcDataProcessor.ProcessTweetsCount | src/processors/data_processor.py:74-108 | a missing raw directory gives 0; otherwise the count is the number of processed tweets |
| ErrorHandler.BackoffDelay | error_handler.py:38-46 | the delay is `base_delay * backoff_factor ** (attempt - 1)`, capped at `max_delay` |
| ErrorHandler.RetryConfig.constructor | error_handler.py:17-31 | the configuration is stored and the attempt counter starts at zero; a missing or empty `retry_on` becomes the default, so the configuration catches every error |
| ErrorHandler.RetryConfig.Reset | error_handler.py:33-36 | the attempt counter and the last attempt are cleared |
| ErrorHandler.RetryConfig.GetNextDelay | error_handler.py:38-46 | counts one more attempt, records its time, returns the capped back-off delay |
| ErrorHandler.WithRetryCharacterised | error_handler.py:74-109 | a call that returns does so within `max_retries` invocations after only caught failures; an uncaught failure propagates at once; exhaustion re-raises the last error |
| ErrorHandler.NoRetriesRaisesNone | error_handler.py:84-109 | with `max_retries = 0` the wrapper never calls and raises `None` |
| ErrorHandler.WithRetry | error_handler.py:74-109 | the wrapper loop computes its specification and sleeps the back-off delays between invocations |
| ErrorHandler.PowMonotone | error_handler.py:41-44 | `backoff_factor ** n` is at least 1 and grows with `n` when the factor is at least 1 |
| ErrorHandler.BackoffGrows | error_handler.py:38-46 | with a non-negative base and a factor of at least 1, successive delays never shrink and never pass `max_delay`, and the first is `min(base_delay, max_delay)` |
| Breaker.AfterCheck | alpha_filter.py:25-31 | a check that does not refuse resets a tripped breaker and leaves any other unchanged |
| Breaker.AfterFailure | alpha_filter.py:32-34 | a failure adds one to the count and records its time |
| Breaker.FiveFailuresTrip | alpha_filter.py:25-34 | five failures make the breaker refuse for the next 60 seconds |
| Breaker.FewFailuresNeverRefuse | alpha_filter.py:25-28 | fewer than five failures never make it refuse |
| Breaker.RefusalWindowIsContiguous | alpha_filter.py:25-31 | with the intended elapsed-time test, once the timeout has passed it does not refuse again, and the check closes it |
| Breaker.AsWrittenReopensAfterADay | alpha_filter.py:27 | as written, a breaker tripped a day and 30 s ago refuses again |
| Breaker.CircuitBreaker.Check | alpha_filter.py:25-31 | refuses exactly when the specification does; otherwise updates the state as the specification says |
| Breaker.CircuitBreaker.RecordFailure | alpha_filter.py:32-34 | the state after a failure |
| Breaker.CircuitBreaker.Reset | alpha_filter.py:36-38 | the state is closed |
| Oracle.Response | alpha_filter.py:128-133 | the primary model's answer, else the fallback's |
| Oracle.RetrySpecShape | alpha_filter.py:125-181 | one to three attempts; the loop stops at the first decided attempt with its result, sleeps 2 s then 4 s only between attempts, and gives `None` when all three fail |
| Oracle.RetryFromShape | alpha_filter.py:125-181 | the same shape from any attempt on |
| Oracle.RetryLoop | alpha_filter.py:125-181 | the attempt loop computes the retry specification |
| AlphaFilter.ValidateFilterResponse | alpha_filter.py:256-277 | an answer that does not decode, or a truthy one missing a required field, is invalid; a falsy one means "criteria not met"; the rest is accepted |
| AlphaFilter.NestedText | alpha_filter.py:198-199 | a falsy nested field gives the empty string; the read raises exactly when it is truthy and not a dict |
| AlphaFilter.OutputRecordFields | alpha_filter.py:153-164 | the output record copies text, author, url and id and carries the category, so it has the five fields the output check requires |
| AlphaFilter.AttemptStep | alpha_filter.py:127-160 | an attempt returns `None` exactly when the reply is complete and decodes to a falsy value, and returns the output record exactly when it decodes to a truthy value with the required fields; everything else is a retry |
| AlphaFilter.FilterContentBreaker | alpha_filter.py:110-190 | the call raises exactly for a tweet that is not a dict (its log lines call `tweet.get`, the last ones inside the handler); an open breaker skips a dict without changing; a non-dict tweet that passed the breaker records a failure before raising; a dict leaves the breaker as the check left it; the src copy returns a Slack tweet's copy unfiltered |
| AlphaFilter.FilterContentDelays | alpha_filter.py:110-190 | a tweet without text or author gives `None` without sleeping; otherwise the sleeps are 2 s then 4 s, only between attempts |
| AlphaFilter.FilterContentAccepted | alpha_filter.py:139-164 | a record returned after a model request is the tweet's output record: text, author, url, id copied, category set, the five output fields present |
| AlphaFilter.SlackCopyFields | src/processors/alpha_filter.py:115-124 | the Slack copy has the placeholder score and signal and the category, and keeps every other field |
| AlphaFilter.LoadState | alpha_filter.py:67-88 | the loaded state always validates, and is the stored one when that validates, else the default |
| AlphaFilter.UpdatedStateFields | alpha_filter.py:349-364 | the update writes date, chunk, total and completion |
| AlphaFilter.StateReadsBack | alpha_filter.py:349-364 | a state written with a YYYYMMDD date loads back unchanged, with its chunk and completion |
| AlphaFilter.SavedStateReadsBack | alpha_filter.py:349-364 | saving and reloading gives back the saved chunk and completion |
| AlphaFilter.SavedStateNotCompleted | alpha_filter.py:349-364 | an intermediate save is not completed |
| AlphaFilter.ValidateOutputFile | alpha_filter.py:586-628 | the file is valid exactly when it decodes to a dict with `tweets` and `metadata`, the metadata fields, a tweets list and the five fields in every tweet |
| AlphaFilter.ExtendAppends | alpha_filter.py:499-505 | extending succeeds exactly when the output has a `tweets` list and a `metadata` dict, and appends the new records in order |
| AlphaFilter.ExtendCounts | alpha_filter.py:503-504 | after extending, `total_tweets` is the length of the tweets list |
| AlphaFilter.ExtendKeepsValid | alpha_filter.py:499-505 | extending a valid output with well-formed records keeps it valid |
| AlphaFilter.DefaultOutputValid | alpha_filter.py:449-458 | the fresh output structure passes the output check |
| AlphaFilter.FilterChunkSnoc | alpha_filter.py:485-494 | one more task of a chunk that has not raised appends that tweet's result when it is not `None` and carries its exception |
| AlphaFilter.FilterChunkRaisedStays | alpha_filter.py:485-486 | once a task has raised, `gather` hands the exception on and the rest of the chunk changes nothing |
| AlphaFilter.ChunkRaisesIffNonDict | alpha_filter.py:485-486 | a chunk raises exactly when one of its tweets is not a dict |
| AlphaFilter.NonDictTweetAbortsRun | alpha_filter.py:476-537 | a non-dict tweet in the first chunk filtered makes `process_content` return `None` with the store as it was |
| AlphaFilter.NonDictInputAborts | alpha_filter.py:413-537 | the input `{"tweets": [1]}` read from chunk 0 returns `None` and writes nothing |
| AlphaFilter.RootTweets | alpha_filter.py:468-476 | a non-dict input raises; `len` counts a tweets list, a string or a dict's keys, and any other value raises; only a list or a string can be sliced, a list as it is |
| AlphaFilter.UnsliceableRaisesAtFirstSlice | alpha_filter.py:476-537 | tweets that cannot be sliced raise only at the first chunk read: with no chunk left the run saves the completed state and returns its output, a shutdown before the first chunk saves the state and returns the output, and otherwise `None` comes back with the store as it was |
| AlphaFilter.DictTweetsInput | alpha_filter.py:413-537 | with the input `{"tweets": {"a": 1}}` a run resumed at chunk 1 or later, or shut down before its first chunk, returns an output without slicing; any other run from chunk 0 raises, returning `None` with the store unchanged |
| AlphaFilter.ProcessContentSpec | alpha_filter.py:413-537 | a completed state or a missing input file returns `None` and changes nothing |
| AlphaFilter.RootChunkKeepsShape | alpha_filter.py:150-164 | every record the root copy keeps has the five output fields |
| AlphaFilter.ApplyChunkOutput | alpha_filter.py:496-522 | one chunk only appends to the output, and the file holds the in-memory output whenever it changed |
| AlphaFilter.ApplyChunkNotCompleted | alpha_filter.py:522 | a chunk's state save is never a completion; a chunk that raised saves nothing |
| AlphaFilter.LoopOutputGrows | alpha_filter.py:476-527 | the chunk loop only ever appends to the output, and the output file holds the in-memory output once it has changed |
| AlphaFilter.LoopNeverCompletes | alpha_filter.py:476-527 | nothing inside the chunk loop marks the state completed |
| AlphaFilter.CompletionOnlyWithoutShutdown | alpha_filter.py:529-531 | the state is completed after a run exactly when no shutdown was requested and the run did not abort |
| AlphaFilter.CompletionBlocksEveryDate | alpha_filter.py:340-347 | the state is not keyed by date: once completed, every later call returns `None` whatever its date |
| AlphaFilter.UnprocessedDatesCharacterised | alpha_filter.py:366-384 | the result is sorted, has no repeats, and holds exactly the eight-digit directories other than a completed state's date |
| AlphaFilter.RecoverStateSpec | alpha_filter.py:630-671 | recovery touches only the state file, and only from a valid output file |
| AlphaFilter.RecoveredStateResumesFromStart | alpha_filter.py:648-660 | the recovered state loads back, is not completed and resumes from chunk 0 |
| AlphaFilter.AlphaFilter.constructor | alpha_filter.py:41-65 | starts with the given files and a closed breaker |
| AlphaFilter.AlphaFilter.FilterContent | alpha_filter.py:110-190 | the method computes `filter_content`'s result, whether it raised, the breaker and the sleeps |
| AlphaFilter.AlphaFilter.FilterChunkLoop | alpha_filter.py:485-494 | running a chunk's tasks in order, stopping at the first that raises, computes the chunk specification |
| AlphaFilter.AlphaFilter.ChunkIteration | alpha_filter.py:482-521 | one pass of the loop body (filter the chunk, extend and write the output when something was kept, save the state) is one step of the loop specification, aborting when a task raised or the output cannot be extended |
| AlphaFilter.AlphaFilter.RunChunks | alpha_filter.py:476-531 | the chunk loop and completion mark compute the run specification |
| AlphaFilter.AlphaFilter.ProcessContent | alpha_filter.py:413-537 | the method computes `process_content`'s result, files and breaker |
| AlphaFilter.AlphaFilter.RecoverState | alpha_filter.py:630-671 | the method computes `recover_state` |
| ContentFilter.SumItemLengths | content_filter.py:43-48 | the loop yields the total length of every item's text, quoted text and reposted text, or raises as soon as an item is not a dict or one of those values has no length |
| ContentFilter.AddItemLength | content_filter.py:44-48 | one pass adds the item's three lengths to the running total, and raises when the item does |
| ContentFilter.CalculateChunkSize | content_filter.py:37-62 | the method computes the chunk size specification |
| ContentFilter.ChunkSizeCharacterised | content_filter.py:37-62 | the size is always between 2 and 5; at most two items give 2; otherwise it is 5 exactly when the items average at most 8192/5 characters and 2 exactly when they average more than 8192/3; it raises only when an item does |
| ContentFilter.OptimalSizeThresholds | content_filter.py:50-59 | `int(2048 / max(1, avg/4))` is at least 5 exactly when 5·total ≤ 8192·n, and at most 2 exactly when 3·total > 8192·n |
| ContentFilter.Clamp | content_filter.py:62 | the clamp lies in [2, 5] and hits 5 (2) exactly when its argument is at least 5 (at most 2) |
| ContentFilter.Validated | content_filter.py:157-167 | a reply is passed on only when its text decodes to JSON in which all four duplicate-check fields are found, and then unchanged |
| ContentFilter.Usable | content_filter.py:214-218 | the answer used is a non-empty, validated reply from one of the two models |
| ContentFilter.RawAnswer | content_filter.py:214-218 | without the validator, the answer is the non-empty text of the primary reply, else of the fallback |
| ContentFilter.Prefix100 | content_filter.py:227 | the fallback is a prefix of the tweet of at most 100 characters |
| ContentFilter.SummaryFrom | content_filter.py:216-231 | no answer gives the tweet's first 100 characters; otherwise the result is either that prefix or a text found, ignoring case, in the joined sources |
| ContentFilter.ExtractSummaryAsWritten | content_filter.py:201-235 | as written, a summary other than the fallback only ever comes from an answer that decodes to JSON naming the four duplicate-check fields |
| ContentFilter.ExtractSummary | content_filter.py:201-235 | no answer gives the tweet's first 100 characters; any other summary occurs, ignoring case, in the joined sources |
| ContentFilter.PlainAnswerRejected | content_filter.py:140-169 | a plain-text answer quoting the tweet is discarded as written, giving the fallback, and is the summary in the intended version |
| ContentFilter.ExtractTakesVerifiedAnswer | content_filter.py:219-229 | an answer whose cleaned text occurs in the sources is returned as the summary |
| ContentFilter.SourcesStartWithTweet | content_filter.py:222-223 | a non-empty tweet opens the space-joined sources |
| ContentFilter.SummaryIsPassage | content_filter.py:219-235 | whatever the models answer, the summary of a non-empty tweet is a passage of its sources, ignoring case |
| ContentFilter.IntPick | content_filter.py:275 | an integer index at or above the length is filtered out, one below it selects a position (negative ones from the end), one below minus the length raises |
| ContentFilter.PickIndex | content_filter.py:275 | any index that selects lies within the items; booleans act as 0 and 1, floats below the length and non-numbers raise |
| ContentFilter.Selection | content_filter.py:275 | a selection that does not raise has at most one item per listed index, each taken from the items |
| ContentFilter.CheckDuplicateContent | content_filter.py:237-286 | at most one item, or no usable answer, gives the items unchanged; the result only holds items of the input, and is empty exactly when the input is |
| ContentFilter.SelectionInRange | content_filter.py:275 | in-range integer indices select exactly the listed items, in listed order |
| ContentFilter.DuplicateCheckKeepsListed | content_filter.py:270-278 | a valid answer listing in-range indices yields exactly those items, in listed order |
| ContentFilter.SelectOne | content_filter.py:275 | a one-index list selects that item, nothing, or raises, as the index does |
| ContentFilter.NegativeIndexSelectsLast | content_filter.py:275 | index -1 passes the guard and selects the last item; an index equal to the length is skipped |
| ContentFilter.FilterItem | content_filter.py:303-320 | a kept item always has a non-empty summary text |
| ContentFilter.ColumnChunkEnd | content_filter.py:297-298 | each chunk is non-empty and ends within the items |
| ContentFilter.FilterChunkStep | content_filter.py:302-320 | one more item of a chunk appends its record exactly when it is kept |
| ContentFilter.FilterChunk | content_filter.py:300-320 | the inner loop collects the kept records of the chunk, in order |
| ContentFilter.ColumnLoopStep | content_filter.py:297-327 | one chunk appends its deduplicated records, or nothing when it has none |
| ContentFilter.ProcessColumn | content_filter.py:288-348 | the method computes the column specification |
| ContentFilter.ProcessColumnEmptyIff | content_filter.py:336-342 | a column returns `[]` exactly when every item is skipped, whatever the duplicate checks answer |
| ContentFilter.ProcessColumnFromItems | content_filter.py:303-334 | every tweet a column returns is the filtered record of one of its items |
| ContentFilter.ProcessColumnWithoutAnswers | content_filter.py:296-344 | with no duplicate-check answers, a column returns every kept record in input order |
| ContentFilter.KeptEmpty | content_filter.py:321-324 | a chunk has no records exactly when all its items are skipped |
| ContentFilter.KeptAppend | content_filter.py:296-327 | the records of consecutive ranges concatenate |
| ContentFilter.CategoryNameInjective | content_filter.py:350-360 | distinct column ids get distinct category names |
| ContentFilter.AsWrittenNeverReruns | content_filter.py:113-130 | as written, a recorded last run date makes the gate return False for good, even when the intended test would run |
| ContentFilter.ShouldRunStaysDue | content_filter.py:113-130 | the intended gate agrees with the written one when no run is recorded, and once due it stays due on every later day |
| SrcAlphaFilter.Tag | src/processors/alpha_filter.py:481 | the tagged tweet has the category and every other field unchanged |
| SrcAlphaFilter.TagList | src/processors/alpha_filter.py:479-482 | a list of dicts is tagged element by element; every tagged tweet is a dict carrying the category |
| SrcAlphaFilter.TagAllCharacterised | src/processors/alpha_filter.py:477-482 | every flattened tweet is a dict whose category is one of the keys; a dict of lists of dicts always flattens, to as many tweets as the lists hold |
| SrcAlphaFilter.ProcessContentSpec | src/processors/alpha_filter.py:426-564 | a completed state or a missing input file returns `None` and changes nothing |
| SrcAlphaFilter.FilterDictKeepsClosed | src/processors/alpha_filter.py:110-201 | filtering a dict never records a breaker failure |
| SrcAlphaFilter.ChunkOfDictsKeepsClosed | src/processors/alpha_filter.py:512-514 | a chunk of dicts leaves a closed breaker closed |
| SrcAlphaFilter.SrcChunksKeepBreakerClosed | src/processors/alpha_filter.py:477-514 | every chunk of the flattened tweets leaves a closed breaker closed, so the src breaker never trips |
| SrcAlphaFilter.RecoverStateSpec | src/processors/alpha_filter.py:657-708 | recovery touches only the state file |
| SrcAlphaFilter.RecoveredRecordRestarts | src/processors/alpha_filter.py:687-693 | the recovered state resumes from chunk 0, not completed; a non-integer `total_tweets` makes it fail validation, so the default state is used |
| SrcAlphaFilter.ProcessContent | src/processors/alpha_filter.py:426-564 | the method computes the src `process_content` |
| SrcAlphaFilter.RecoverState | src/processors/alpha_filter.py:657-708 | the method computes the src `recover_state` |
| NewsCommon.ApiRequest | src/processors/news_filter.py:119-140 | no answer exactly when the breaker refuses or neither model answers; an answer is the primary model's when it gave one, else the fallback's; no answer records a failure at the current time, an answer records none |
| NewsCommon.RefusalRenewsWindow | src/processors/news_filter.py:121-140 | a refused request records a failure too, so the breaker stays open for another 60 s after it |
| NewsCommon.FiveFailedRequestsTrip | news_filter.py:110-131 | five unanswered requests from a closed breaker make every request of the next 60 s fail without asking a model |
| NewsCommon.GuardedRequest | news_filter.py:110-131 | the method on the breaker object computes `_api_request`'s answer and breaker state |
| NewsCommon.Decoded | src/processors/news_filter.py:246-253 | a parsed answer comes only from a non-empty reply that decodes |
| NewsCommon.TweetsField | src/processors/news_filter.py:255-259 | the tweet list exists exactly when the answer is a dict with a `tweets` key, and is that key's value |
| NewsCommon.HasFields | src/processors/news_filter.py:142-149 | no verdict exactly for a value `in` cannot test; a verdict is whether every field is in the value, for a dict whether every field is a key |
| NewsCommon.TweetFieldsOfDict | src/processors/news_filter.py:142-149 | a dict passes exactly when it has attribution, content and url |
| NewsCommon.KeepValidRaises | src/processors/news_filter.py:262-265 | the validation loop raises exactly when some value cannot be tested, or, where a rejected tweet is read for the warning, a rejected value is not a dict |
| NewsCommon.KeepValidMembers | src/processors/news_filter.py:262-265 | when it does not raise it keeps exactly the input values that carry every field |
| NewsCommon.KeepValidLoop | src/processors/news_filter.py:428-433 | the loop computes the validation |
| NewsCommon.Screened | src/processors/news_filter.py:389-403 | the result is the fallback or a list of tweets carrying attribution, content and url |
| NewsCommon.ScreenedCompleteList | src/processors/news_filter.py:389-393 | a list of complete tweets passes unchanged |
| NewsCommon.CheckTweets | news_filter.py:252-257 | true exactly when every tweet carries the fields |
| NewsCommon.CheckSubcategories | news_filter.py:248-257 | true exactly when every subcategory value is a list of complete tweets |
| SrcNewsFilter.OutputFile | src/processors/news_filter.py:62-66 | the path starts with the output directory and the lower-cased category and ends with `_summary_<date>.json` |
| SrcNewsFilter.OutputFilePerDay | src/processors/news_filter.py:62-66 | two different dates give two different files for one category |
| SrcNewsFilter.AskAndScreen | src/processors/news_filter.py:236-274 | no request for no tweets and one otherwise; the result is the input or complete tweets only |
| SrcNewsFilter.ContentDedupFallsBack | src/processors/news_filter.py:246-257 | without a usable answer the tweets come back unchanged |
| SrcNewsFilter.ContentDedupTakesAnswer | src/processors/news_filter.py:259-270 | with an answer listing testable tweets, the result holds exactly the answer's complete tweets |
| SrcNewsFilter.Screen | src/processors/news_filter.py:389-403 | the method computes the validation step |
| SrcNewsFilter.ChunkResult | src/processors/news_filter.py:353-371 | a chunk without a usable answer contributes its own tweets; an answer's list is taken as it is |
| SrcNewsFilter.ChunksFromRequests | src/processors/news_filter.py:349-360 | one request per chunk of fifteen |
| SrcNewsFilter.Worthiness | src/processors/news_filter.py:322-403 | the result is the input or complete tweets only |
| SrcNewsFilter.WorthinessRequests | src/processors/news_filter.py:325-387 | no request for no tweets, one for at most fifteen, otherwise one per chunk plus a final one exactly when the chunks returned more than fifteen tweets |
| SrcNewsFilter.ChunksWithoutAnswers | src/processors/news_filter.py:353-373 | with no answers every chunk keeps its tweets, so the chunks give back the list |
| SrcNewsFilter.WorthinessWithoutAnswers | src/processors/news_filter.py:322-403 | with no answers, complete tweets all come through, in order |
| SrcNewsFilter.WorthinessMayDropAnyTweet | src/processors/news_filter.py:285-286 | keeping Slack-shared tweets is only asked in the prompt: an empty answer drops any tweet, x.com URL or not |
| SrcNewsFilter.NonEmptyListsCharacterised | src/processors/news_filter.py:482-489 | a subcategory survives exactly when its value is a non-empty list; none survives exactly when no value is one |
| SrcNewsFilter.CleanSubcategories | src/processors/news_filter.py:482-489 | the loop computes the cleaning |
| SrcNewsFilter.Categorised | src/processors/news_filter.py:462-496 | a written document is an object that came from a decoded answer |
| SrcNewsFilter.CategorisedShape | src/processors/news_filter.py:466-496 | the written category holds only non-empty lists, at least one; an answer whose subcategories are all empty or not lists is rejected |
| SrcNewsFilter.WrittenSummaryMayFailValidation | src/processors/news_filter.py:472-496 | the answer's tweets are not checked before saving, so a summary `_validate_summary_file` rejects can be written |
| SrcNewsFilter.InputTweets | src/processors/news_filter.py:422 | a value comes only from a dict, and a missing category reads as no tweets |
| SrcNewsFilter.AsRecords | src/processors/news_filter.py:442-443 | defined exactly when every tweet is a dict, which it then is |
| SrcNewsFilter.ReadInput | src/processors/news_filter.py:408-437 | the run goes on only with a non-empty list of dicts carrying attribution, content and url |
| SrcNewsFilter.UrlPassCharacterised | src/processors/news_filter.py:439-446 | the URL pass keeps input tweets with truthy URLs, no two with one URL, and every truthy URL survives |
| SrcNewsFilter.ProcessContentWrites | src/processors/news_filter.py:405-530 | a False run writes nothing; a True run writes only today's summary, whose category holds non-empty lists; without usable input no request is made |
| SrcNewsFilter.NewsFilter.constructor | src/processors/news_filter.py:37-56 | starts with the given store and a closed breaker |
| SrcNewsFilter.NewsFilter.Request | src/processors/news_filter.py:119-140 | the method computes `_api_request` on the run's next answer |
| SrcNewsFilter.NewsFilter.AskAndScreenTweets | src/processors/news_filter.py:236-274 | the method computes `_content_based_dedup` |
| SrcNewsFilter.NewsFilter.WorthinessChunks | src/processors/news_filter.py:349-373 | the loop computes the chunk pass and its requests |
| SrcNewsFilter.NewsFilter.FilterNewsWorthiness | src/processors/news_filter.py:322-403 | the method computes `_filter_news_worthiness` |
| SrcNewsFilter.NewsFilter.LoadInput | src/processors/news_filter.py:408-437 | the method computes the input reading |
| SrcNewsFilter.NewsFilter.ProcessContent | src/processors/news_filter.py:405-530 | the method computes `process_content`'s result, store and breaker |
| SrcNewsFilter.NewsFilter.ProcessAll | src/processors/news_filter.py:532-539 | the same as `process_content` |
| SrcNewsFilter.NewsFilter.ValidateSummaryFile | src/processors/news_filter.py:541-587 | true exactly when the file decodes to a dict whose category value is a dict of lists of tweets carrying attribution, content and url |
| NewsFilter.SummaryFile | news_filter.py:259 | the path is in the output directory and ends with `_summary.json` |
| NewsFilter.SummaryFileIgnoresCase | news_filter.py:259 | categories that differ only in letter case share one file |
| NewsFilter.ColumnInput | news_filter.py:198-202 | input exists only for a decoded dict with keys, and its category is the first key |
| NewsFilter.ProcessColumnSpec | news_filter.py:193-286 | a column makes at most one request |
| NewsFilter.ProcessColumnOutcome | news_filter.py:193-286 | True exactly when the column has tweets and the answer passes every check; then only the category's summary file is written, with the whole answer; False writes nothing; a column without tweets, or whose tweets have no `len` (line 208 raises), makes no request, and any other column makes exactly one |
| NewsFilter.CategoryIsFirstKey | news_filter.py:201-202 | the first key of the file is the category |
| NewsFilter.RejectsEmptyOrIncomplete | news_filter.py:229-257 | an empty subcategory dict, or a tweet missing a field, is rejected |
| NewsFilter.ProcessColumns | news_filter.py:288-315 | one result per column |
| NewsFilter.ProcessColumnsContinue | news_filter.py:297-312 | at most one request per column; when every column fails the store is unchanged |
| NewsFilter.Pauses | news_filter.py:306-308 | only five-second pauses, at most one per column |
| NewsFilter.PausesBetweenColumns | news_filter.py:306-308 | distinct column files give one pause between each two and none after the last |
| NewsFilter.NewsFilter.constructor | news_filter.py:39-57 | starts with the given store and a closed breaker |
| NewsFilter.NewsFilter.CheckAnswer | news_filter.py:219-257 | true exactly when the answer passes every check |
| NewsFilter.NewsFilter.ProcessColumn | news_filter.py:193-286 | the method computes `process_column`'s result, store and breaker |
| NewsFilter.NewsFilter.ProcessAll | news_filter.py:288-315 | the loop processes every column in turn and computes the pauses |
| TweetScorer.ValidateScoreResponse | tweet_scorer.py:286-297 | a failed decode raises; a decoded object passes exactly when it has all four score fields, and what passes is the decoded answer itself |
| TweetScorer.Number | tweet_scorer.py:84-90 | `sum` accepts a score exactly when it is an int, a float or a bool |
| TweetScorer.MeanOfScores | tweet_scorer.py:83-90 | the mean exists exactly when each of the four scores, read with a default of 0, is a number, and it is their sum divided by four |
| TweetScorer.WithAverageShape | tweet_scorer.py:83-97 | an answer without `average_score` gets the mean, one with it keeps it; the step fails exactly when the average is missing or not a number; the answer's keys survive |
| TweetScorer.ScoreStep | tweet_scorer.py:65-105 | no answer and an answer not ending in '}' are failed attempts; a finished attempt always has a score |
| TweetScorer.ScoreStepDone | tweet_scorer.py:74-98 | a score an attempt returns comes from a complete answer that decoded to an object with the four scores, and is tagged with the id, the category and a numeric average |
| TweetScorer.ScoredIsTagged | tweet_scorer.py:93-94 | tagging sets `tweet_id` and `category` and keeps the four scores and the average |
| TweetScorer.ScoreTweetTagged | tweet_scorer.py:53-98 | a returned score belongs to a tweet with an id whose check passed; it carries that id, the category, the four scores and a numeric average; nothing raised, and the breaker is as the check left it |
| TweetScorer.ScoreTweetAttempts | tweet_scorer.py:56-114 | at most three requests, sleeping 2 s then 4 s between them; no request exactly when the breaker refuses or the prompt cannot be built; `None` after three failed attempts |
| TweetScorer.ScoreTweetBreaker | tweet_scorer.py:18-119 | a refusal and an unbuildable prompt each record a failure; failed attempts do not; the call raises exactly when the tweet has no id |
| TweetScorer.ScoreCallSummary | tweet_scorer.py:53-119 | a call raises exactly when the tweet has no id, makes at most three requests and leaves a breaker below five failures unchanged for a tweet with an id and a buildable prompt |
| TweetScorer.ChunkPauses | tweet_scorer.py:308-315 | one 2 s sleep after each chunk of five but the last: ceil(n / 5) - 1 for n tweets |
| TweetScorer.ScoreTasksCount | tweet_scorer.py:305-323 | one result per tweet and at most three requests per tweet |
| TweetScorer.ScoreTasksRaised | tweet_scorer.py:318-323 | a task raises exactly when some tweet has no id |
| TweetScorer.ScoreTasksTagged | tweet_scorer.py:305-323 | every score among the results belongs to the tweet at its position |
| TweetScorer.ProcessColumnOutcome | tweet_scorer.py:299-327 | the column yields `[]` exactly when it is empty or some tweet has no id, otherwise one result per tweet in order, each score its tweet's; and ceil(n / 5) - 1 pauses |
| TweetScorer.WellFormedTweetsKeepBreaker | tweet_scorer.py:18-119 | a column whose tweets all have an id and a buildable prompt never changes a breaker below five failures, however the model answers |
| TweetScorer.TweetScorer.constructor | tweet_scorer.py:51 | the scorer starts with a fresh, closed breaker |
| TweetScorer.TweetScorer.ScoreTweet | tweet_scorer.py:53-119 | the method returns the result, the escape, the sleeps and the requests of `score_tweet` and leaves the breaker it specifies |
| TweetScorer.TweetScorer.ScoreTask | tweet_scorer.py:310-323 | one awaited task extends the run over the tasks before it |
| TweetScorer.TweetScorer.BuildTasks | tweet_scorer.py:305-315 | the chunk loop yields one task per tweet in order and sleeps between chunks as `ChunkPauses` counts |
| TweetScorer.TweetScorer.RunTasks | tweet_scorer.py:318-323 | the tasks awaited in order, each checking the breaker at its own clock reading, give the results, escape and breaker of the run over them |
| TweetScorer.TweetScorer.ProcessColumn | tweet_scorer.py:299-327 | the method computes `_process_column`'s results, breaker and pauses, each task reading its own clock |
| ErrorHandler.DefaultCatchesAll | error_handler.py:23-95 | with no `retry_on` given, or an empty one, every error is caught: the wrapper behaves as with a catch-all |
| Pump.UrlMatchAtCharacterised | src/slack_pump.py:65-66 | a match starts at a position exactly when one of the twelve openings (`http://` or `https://`, optional `www.`, `twitter.com/` or `x.com/`) occurs there followed by a non-blank character; the match then runs to the first blank or the end of the text |
| Pump.Spans | src/slack_pump.py:66 | every span `findall` reports is a match starting at or after the scan start, and the spans come in order without overlapping |
| Pump.SpansLeftmost | src/slack_pump.py:66 | no match is missed: every position where a match could start begins a reported span or lies inside one |
| Pump.ExtractedUrlsShape | src/slack_pump.py:59-74 | one link per match; each is its match less trailing angle brackets, keeps its whole opening, and stripping it again changes nothing |
| Pump.StatusIdCharacterised | src/slack_pump.py:141-143 | a link has no id exactly when `/status/` followed by a digit occurs nowhere in it; otherwise the id is the whole digit run after the leftmost such occurrence |
| Pump.TweetIds | src/slack_pump.py:137-143 | the loop collects exactly the ids of the cleaned links that have one, in link order |
| Pump.TweetIdsAreDigits | src/slack_pump.py:141-143 | every id handed to Apify is a non-empty run of digits |
| Pump.PickedCharacterised | src/slack_pump.py:180-198 | a loop that skips, keeps or raises per element raises exactly when some element raises, and otherwise returns the kept values in order |
| Pump.PickedAllKept | kol_pump.py:205-220 | a loop that keeps every element returns one value per element, in order |
| Pump.PickAll | src/slack_pump.py:180-198 | the loop, which stops at the first raise, computes that result |
| Pump.ItemPickCharacterised | src/slack_pump.py:180-198 | a non-dict item is skipped; a dict item raises exactly when its author is truthy but not a dict, and is kept exactly when its text, author `userName` and id are all truthy |
| Pump.ItemPickKeeps | src/slack_pump.py:184-198 | a kept `tweet_data` has the seven keys and the item's text, id, url and author name, with text, author and id truthy |
| Pump.TweetDataFields | src/slack_pump.py:184-193 | `tweet_data` has the seven keys in order and copies the item's text, id, url and author name |
| Pump.ScrapeOnceCharacterised | src/slack_pump.py:134-209 | every failure is an `APIError`; an invocation returns exactly when some link has an id, Apify gave a dataset, no item raised and some item was kept, and it then returns the kept items in dataset order |
| Pump.ScrapedTweetsValid | src/slack_pump.py:197-205 | every tweet a successful invocation returns has the seven keys and truthy text, author and id |
| Pump.ScrapeAttempt | src/slack_pump.py:134-209 | the body with its two loops computes one invocation's outcome |
| Pump.ScrapeWithoutIds | src/slack_pump.py:133-209 | links without a tweet id fail all three invocations and re-raise "Failed to scrape tweets: No valid tweet IDs found in URLs", whatever Apify would answer |
| Pump.ScrapeTweetsOutcome | src/slack_pump.py:133-209 | the scrape never lets an error through unretried; a success comes within three invocations, every earlier one having failed, and is a non-empty list of tweets with truthy text and id |
| Pump.ScrapeTweets | src/slack_pump.py:133-134 | the decorated call computes the scrape specification and sleeps 2 s, then 4 s, between invocations |
| Pump.NestedText | src/slack_pump.py:218-219 | reading the nested tweet's text succeeds exactly when the nested value is absent or a dict |
| Pump.GateMessage | src/slack_pump.py:76-87 | a message that passes the gate always carries at least one link |
| Pump.GateCharacterised | src/slack_pump.py:76-87 | a message fails exactly when its `text` is not a string; it passes exactly when its lowered text contains a keyword and a link, and the links are those extracted from the lowered text |
| SlackPump.SummaryEntryFields | src/slack_pump.py:232-238 | an entry has the five keys and carries the summary's attribution and content, the tweet's url and `from_slack` true |
| SlackPump.SummaryPickKeeps | src/slack_pump.py:213-240 | a tweet yields an entry only for a truthy dict summary, and the entry carries that summary's attribution and content and the tweet's url |
| SlackPump.TransformCharacterised | src/slack_pump.py:211-242 | the transform raises exactly when some tweet does; otherwise it returns at most one entry per tweet, each the entry of some tweet with a truthy summary, in tweet order |
| SlackPump.WithCategoryTweetsReads | src/slack_pump.py:264 | after the write, `CATEGORY`'s tweet list reads back as the list written, and the document keeps its keys |
| SlackPump.AddCharacterised | src/slack_pump.py:244-277 | adding nothing changes nothing; otherwise the add fails exactly when the store lacks a `CATEGORY` tweet list, and on success that list is the old one followed by the new tweets and no other file changes |
| SlackPump.HandleOutcome | src/slack_pump.py:47-131 | an ignored message leaves no trace and one with a non-string text gets one error reply; a message with links gets "Found n" and exactly one more reply, never "no tweets could be retrieved"; the store changes only on success, as the add specifies |
| SlackPump.SlackPump.constructor | src/slack_pump.py:31-133 | the pump starts with the given store and the decorator's retry configuration |
| SlackPump.SlackPump.Create | src/slack_pump.py:31-42 | building the pump fails (the `ValueError`) exactly when `slack_bot_token`, `slack_app_token` or `apify_api_token` is missing from the configuration; otherwise it is the constructor's pump |
| SlackPump.SlackPump.AddToAlphaOutput | src/slack_pump.py:244-277 | the method reports failure exactly when the add raises, and leaves the store the add specifies |
| SlackPump.SlackPump.HandleMessage | src/slack_pump.py:47-131 | the replies and the new store are those `handle_message` specifies |
| KolPump.TransformCharacterised | kol_pump.py:202-220 | the transform raises exactly when some tweet lacks `text`, `author`, `url` or `id` or has a nested tweet that is not a dict; otherwise it maps the tweets one to one, in order |
| KolPump.KolPickKeeps | kol_pump.py:205-218 | a record copies the tweet's text, author, url and id, carries the pump's category and column "0", has exactly the alpha filter's output keys and every field the alpha filter's output check asks for |
| KolPump.FreshOutputExtensible | kol_pump.py:232-241 | a missing output file starts as an empty tweet list with metadata, which the add can extend |
| KolPump.ExtendedReads | kol_pump.py:244-249 | after the add the tweet list is the old one followed by the new tweets, `total_tweets` counts that list, `last_update` is the time of the add, and the document keeps its keys and shape |
| KolPump.AddCharacterised | kol_pump.py:222-262 | adding nothing changes nothing; otherwise the add fails exactly when the store is not a dict with a `tweets` list and a `metadata` dict, never when the file is missing; on success only the output file changes and keeps that shape |
| KolPump.HandleOutcome | kol_pump.py:47-122 | as for the content pump, and a success reports exactly one record per scraped tweet |
| KolPump.KolPump.constructor | kol_pump.py:31-124 | the pump starts with the given store and the decorator's retry configuration |
| KolPump.KolPump.Create | kol_pump.py:31-40 | building the pump fails (the `ValueError`) exactly when `slack_bot_token`, `slack_app_token` or `apify_api_token` is missing from the configuration; otherwise it is the constructor's pump |
| KolPump.KolPump.AddToAlphaOutput | kol_pump.py:222-262 | the method reports failure exactly when the add raises, and leaves the store the add specifies |
| KolPump.KolPump.TransformTweets | kol_pump.py:202-220 | the loop computes the transform, raising at the first bad tweet |
| KolPump.KolPump.HandleMessage | kol_pump.py:47-122 | the replies and the new store are those `handle_message` specifies |
| DeckScraper.TweetDataCharacterised | src/core/deck_scraper.py:167-251 | an article yields data exactly when it has a status link and is not a repost without an author element; the id is the text after the last `/status/`, the url is `https://twitter.com/i/status/<id>`, the quote flag holds exactly for a non-repost with two texts and two authors, and each embedded content is filled in exactly when its flag is set |
| DeckScraper.StatusIdOfHref | src/core/deck_scraper.py:216-217 | the id taken from a status link is a tail of the link that directly follows a `/status/` |
| DeckScraper.ColumnTweetsGuards | src/core/deck_scraper.py:256-265 | an unknown column id gives no tweets; a column index at or past the number of rendered columns raises `ScrapingError` |
| DeckScraper.ProcessTagged | src/core/deck_scraper.py:303-311 | the column returns at most one tweet per article, each carrying the column's title and coming from one of its articles, and every article that yields data is returned |
| DeckScraper.MonitoringRule | src/core/deck_scraper.py:286-301 | with a stored latest id, monitoring raises when the first article has no link, returns nothing when its id is the stored one, and otherwise returns at most the first article's tweet |
| DeckScraper.StepShape | src/core/deck_scraper.py:329-351 | one awaited column raises when its task raised, when the ids are not a dict or when its file cannot be extended; a column with no tweets changes nothing; otherwise it stores the first tweet's id, rewrites its file and records its count |
| DeckScraper.ScrapeColumnsAbort | src/core/deck_scraper.py:349-351 | any column whose task raised aborts the whole scrape |
| DeckScraper.ScrapeColumnsResults | src/core/deck_scraper.py:329-348 | a scrape that did not raise heard from every column, and has results exactly when some column returned tweets |
| DeckScraper.ScrapeColumnsOtherKeys | src/core/deck_scraper.py:332-333 | the latest id of a column that returned nothing, or of no column at all, is left as it was |
| DeckScraper.ScrapeColumnsLatest | src/core/deck_scraper.py:332-333 | a column that returned tweets has its first tweet's id as its latest id |
| DeckScraper.ScrapeColumnsOtherFiles | src/core/deck_scraper.py:336-346 | files of no column are left alone |
| DeckScraper.ScrapeColumnsFile | src/core/deck_scraper.py:336-346 | a column that returned tweets has its file rewritten with the new tweets followed, when monitoring, by the file's old list, and with the new tweets alone otherwise |
| DeckScraper.ScrapeAllPersists | src/core/deck_scraper.py:353-354 | the latest-ids file is written exactly when the scrape succeeds with some results, and then holds the updated ids |
| DeckScraper.IdentifiedWellFormed | src/core/deck_scraper.py:111-153 | identifying columns keeps their ids distinct digit strings, each with its own file in the day's raw directory |
| DeckScraper.IdentifiedReads | src/core/deck_scraper.py:113-145 | every column whose header could be read is stored under its index with its title and file |
| DeckScraper.WellFormedFiles | src/core/deck_scraper.py:144 | well-formed columns write pairwise distinct files, none of them the latest-ids file |
| DeckScraper.DeckScraper.constructor | src/core/deck_scraper.py:18-54 | the scraper starts with no columns and with the stored latest ids when that file decodes, else with none |
| DeckScraper.AsWrittenTitlesAreIndices | src/core/deck_scraper.py:116-145 | as written, every column is stored under its index as `Column i` whatever heading the page shows, so a heading with other text is stored differently from the intended reading, and the loop succeeds whenever there is a column |
| DeckScraper.DeckScraper.IdentifyColumns | src/core/deck_scraper.py:111-161 | the storing loop keeps the columns well formed and succeeds exactly when some column's header was readable |
| DeckScraper.DeckScraper.GetColumnTweets | src/core/deck_scraper.py:253-317 | the method computes `get_column_tweets` as specified |
| DeckScraper.DeckScraper.ProcessArticles | src/core/deck_scraper.py:303-311 | the loop returns the tagged data of every article that yields some, in order |
| DeckScraper.DeckScraper.ScrapeAllColumns | src/core/deck_scraper.py:319-362 | the ids, the files and the results (or the raise) are those `scrape_all_columns` specifies |
| DeckScraper.DeckScraper.StartTasks | src/core/deck_scraper.py:321-325 | one task per column, each reading the ids as they were when the scrape began |
| DeckScraper.DeckScraper.AwaitTasks | src/core/deck_scraper.py:327-351 | the awaiting loop stops at the first column that raises and otherwise leaves the state the specification gives |
| DeckScraper.DeckScraper.AwaitColumn | src/core/deck_scraper.py:329-351 | one awaited column changes the ids, the files and the results as the step specifies |
| ApiClient.ParseInt | src/core/api_client.py:64 | a string of ASCII digits reads as its value, and nothing without a digit reads as a number |
| ApiClient.SafeGetEnvInt | src/core/api_client.py:57-59 | an unset variable gives the default |
| ApiClient.SafeGetEnvIntReadsNumber | src/core/api_client.py:53-67 | a number written in the variable, with blanks around it and optionally followed by a `#` comment, is read back exactly |
| ApiClient.SafeGetEnvIntDefault | src/core/api_client.py:63-67 | a variable with no digit before its first `#` gives the default |
| ApiClient.BaseWaitDoubles | src/core/api_client.py:90-91 | each retry waits twice as long as the one before, before jitter |
| ApiClient.RetriedRunCount | src/core/api_client.py:82-88 | starting from a counter within the maximum, a run of `n` rate-limited answers is retried `n` times, or only until the counter passes `max_retry_attempts` |
| ApiClient.TwitterApiClient.constructor | src/core/api_client.py:34-36 | a new client has a zero rate-limit counter and reads `MAX_RETRY_ATTEMPTS` (default 5) |
| ApiClient.TwitterApiClient.Create | src/core/api_client.py:16-36 | making a client fails exactly when `TWITTER_API_KEY` is unset or empty |
| ApiClient.TwitterApiClient.HandleRateLimit | src/core/api_client.py:69-98 | a status other than 429 resets the counter and is not retried; a 429 increments the counter and is retried exactly while the counter is at most the maximum, after `RATE_LIMIT_WAIT` times 2 to the power of (counter − 1) seconds before jitter |
| ApiClient.PageStepShape | src/core/api_client.py:131-176 | every turn of the loop sends one request with the current cursor, adds exactly the page's tweets and counts a 429 |
| ApiClient.PageStepStops | src/core/api_client.py:146-187 | a turn stops the loop exactly on an unexpected exception, a 429 past the maximum, another status that is not 200, an answer that is not a JSON dict, an empty or non-iterable page, or a page without a next cursor; otherwise the next request carries the page's `next_cursor`, or the same cursor after a timeout, a connection error or a retried 429 |
| ApiClient.PaginateTweets | src/core/api_client.py:126-190 | the returned tweets are the pages of the responses used, concatenated in order, one request per response |
| ApiClient.TransientErrorsRetry | src/core/api_client.py:178-184 | timeouts and connection errors are retried without limit: any number of them before a trace only adds requests with the same cursor |
| ApiClient.PaginateNeverResets | src/core/api_client.py:146-147 | the loop never lowers the rate-limit counter, because it calls `_handle_rate_limit` only for a 429 |
| ApiClient.RateLimitSpansPages | src/core/api_client.py:83-88 | with the counter at the maximum, a 429 right after a successful page ends the loop |
| ApiClient.TwitterApiClient.GetListTweets | src/core/api_client.py:100-190 | the loop returns the tweets, sends the requests and leaves the counter exactly as the pagination specification gives |
| ListScraper.ExtractFromUrlQuery | src/core/list_scraper.py:112-123 | a list link followed by a query string gives back exactly the list's digits |
| ListScraper.ExtractFromUrl | src/core/list_scraper.py:119-120 | a list link ending with the id gives back exactly the id |
| ListScraper.ExtractListIdIdempotent | src/core/list_scraper.py:112-123 | extracting from an extracted id gives that id again |
| ListScraper.TweetPickSkips | src/core/list_scraper.py:55-67 | a tweet is filtered out exactly when it is a dict with a string text and is a reply: a truthy `in_reply_to_status_id` or `in_reply_to_user_id`, or a stripped text starting with `@` |
| ListScraper.TweetPickKeeps | src/core/list_scraper.py:54-105 | a kept tweet is a non-reply dict with a string text and a dict author, and its record is built from its stripped text and the author's `userName` |
| ListScraper.EmbeddedKeys | src/core/list_scraper.py:85-103 | `reposted_content` (`quoted_content`) is added, holding the embedded tweet's four fields, exactly when `retweeted_tweet` (`quoted_tweet`) is truthy |
| ListScraper.ProcessedFields | src/core/list_scraper.py:76-103 | a record's keys are the six base keys followed by the optional contents in that order, and its fields hold the tweet's id and url, the stripped text, the author's handle and the repost and quote flags |
| ListScraper.ProcessTweetsCharacterised | src/core/list_scraper.py:54-110 | processing raises exactly when some tweet raises, and otherwise keeps one record per kept tweet, in order |
| ListScraper.ScrapeListLoop | src/core/list_scraper.py:51-110 | the loop returns the specified records, and the kept and filtered counts add up to the number of tweets |
| ListScraper.ScrapeListWorker | src/core/list_scraper.py:125-150 | a worker fails when the API key is missing; otherwise its result is the processed tweets of the pages its client fetched |
| ListScraper.CategoryTweetsCharacterised | src/core/list_scraper.py:152-181 | the category's tweets are the records of the successful workers, each worker's in full, in completion order |
| ListScraper.ScrapeCategoryLists | src/core/list_scraper.py:166-176 | the collecting loop computes exactly those tweets |
| FileHandler.PathJoin | src/core/file_handler.py:63 | joining a relative name to a directory that does not end with `/` puts one `/` between them |
| FileHandler.DateFolderChoice | src/core/file_handler.py:42-60 | the date folder is `TARGET_DATE` when that is a valid YYYYMMDD date and yesterday otherwise, so it is always a valid date |
| FileHandler.Dashed | src/core/file_handler.py:50 | the metadata date is the folder's year, month and day separated by dashes |
| FileHandler.TweetsPathShape | src/core/file_handler.py:63-71 | under a plain output directory the file is `<output_dir>/<date folder>/<category>_Tweets.json` |
| FileHandler.MetadataFields | src/core/file_handler.py:77-83 | the metadata names the category, counts the tweets and carries the dashed date |
| FileHandler.LinesAreJoined | src/core/file_handler.py:100-105 | after each tweet the lines written are the indented dumps so far joined by `,\n`, followed by `,\n` unless the last tweet has been written, and then by `\n` |
| FileHandler.SavedTextJoined | src/core/file_handler.py:94-108 | the file is the metadata line followed by the `tweets` list holding every tweet in order, separated by commas |
| FileHandler.FileHandler.constructor | src/core/file_handler.py:16-30 | the output directory is `OUTPUT_DIR` when set, else the configured default, and the cache starts empty |
| FileHandler.FileHandler.SaveCategoryTweets | src/core/file_handler.py:32-118 | an empty list returns `""` and writes nothing; otherwise the file at the specified path gets exactly the specified text, and the returned path is that path |
| FileHandler.EstimateUniform | src/core/file_handler.py:120-133 | when every tweet has the same byte size the estimate is exactly that size times the number of tweets |
| FileHandler.EstimateSmallIsTotal | src/core/file_handler.py:123-133 | with ten tweets or fewer, all are sampled and the estimate is their total byte size |
| FileHandler.EstimateSize | src/core/file_handler.py:120-133 | the loop computes the specified estimate: 0 with no tweets, else the mean UTF-8 size of the first `min(10, n)` tweets times `n`, truncated |
| FileHandler.ValidateConfigCharacterised | src/core/file_handler.py:166-182 | a configuration is valid exactly when it is a dict whose every value is a list of strings |
| FileHandler.LoadCaches | src/core/file_handler.py:135-164 | a configuration read once is cached, and every later call returns it whatever the file then holds; a missing or undecodable file gives `{}`, caches nothing and touches no other entry |
| FileHandler.LoadKeepsInvalid | src/core/file_handler.py:150-158 | a decoded configuration is cached and returned even when it fails validation, with a warning |
| FileHandler.FileHandler.LoadCategoryConfiguration | src/core/file_handler.py:135-164 | the method returns the configuration, leaves the cache and warns as specified |
| Collector.MissingVars | tweet_collector.py:64-75 | the missing keys are exactly those whose variable is unset or empty, in declaration order |
| Collector.MissingConfig | tweet_collector.py:64-75 | `_validate_config` passes exactly when `TWITTER_USERNAME`, `TWITTER_PASSWORD`, `TWITTER_VERIFICATION_CODE` and `TWEETDECK_URL` are all set and non-empty (nothing in the process calls it) |
| Collector.CollectCounts | tweet_collector.py:57-169 | every failing turn adds one to the error count and nothing resets it; the process exits exactly when the count reaches 3, at the failing turn, and otherwise runs every turn |
| Collector.CollectSleeps | tweet_collector.py:144-169 | a turn that does not exit sleeps one second unless it was a scraping error on a valid page, which skips the sleep |
| Collector.ValidAfterInit | tweet_collector.py:113-132 | after a successful initialisation a turn validates exactly when a deck URL is configured and the page URL contains it (an unset URL makes the `in` test raise, which gives False) |
| Collector.TweetCollector.constructor | tweet_collector.py:40-62 | for any environment: no browser, no scraper, running, no errors, and the deck URL as `os.getenv('TWEETDECK_URL')` reads it, absent when unset |
| Collector.TweetCollector.InitializeBrowser | tweet_collector.py:83-111 | initialisation succeeds exactly when the browser starts, the login works and some column is identified; any failure closes the browser |
| Collector.TweetCollector.ValidateTweetdeck | tweet_collector.py:113-132 | validation is false exactly when the browser or scraper is missing, the deck URL is unset, the page is not on it, or no column is identified |
| Collector.TweetCollector.Shutdown | tweet_collector.py:200-214 | the loop flag is cleared and any browser is closed |
| Collector.TweetCollector.HandleCriticalError | tweet_collector.py:171-198 | the browser is closed, `shutdown` runs when there is a scraper, and the process exits |
| Collector.TweetCollector.CollectTweets | tweet_collector.py:134-169 | the loop ends with the error count, exit and sleeps that `Collect` specifies |
| Collector.TweetCollector.Run | tweet_collector.py:216-232 | the browser always ends closed; the process exits exactly when initialisation succeeds and the failures reach 3 |
| Collection.RetryWait | tweet_collection.py:171 | the retry wait is 5 s exactly when the message contains `Timeout`, else 2 s |
| Collection.CollectCounts | tweet_collection.py:139-167 | the error count is always the errors since the last productive scrape; the process exits exactly at the failure that brings it to 2 |
| Collection.CollectWaits | tweet_collection.py:150-173 | every wait follows an exception and is 5 or 2 s, one per exception that does not end the process |
| Collection.UrlChecksFound | tweet_collection.py:95-111 | the URL is accepted exactly when one of three checks sees it, after waits of 1 s and 2 s for the checks that missed |
| Collection.ColumnChecksReady | tweet_collection.py:113-130 | starting with no columns, they become ready exactly when one of the two re-identifications finds some; a raising one stops the checks |
| Collection.TweetCollector.constructor | tweet_collection.py:28-51 | no browser, no scraper, running, no errors |
| Collection.TweetCollector.InitializeBrowser | tweet_collection.py:59-85 | initialisation succeeds exactly when the browser starts, the login works and some column is identified; any failure closes the browser |
| Collection.TweetCollector.CheckUrl | tweet_collection.py:95-111 | the URL loop computes the specified checks and waits |
| Collection.TweetCollector.CheckColumns | tweet_collection.py:113-130 | the column loop computes the specified checks, waits and identified columns |
| Collection.TweetCollector.ValidateTweetdeck | tweet_collection.py:87-137 | every failing path adds exactly one error and returns false; a valid result adds none; the waits are those of the URL checks then the column checks |
| Collection.TweetCollector.Shutdown | tweet_collection.py:175-184 | the loop flag is cleared and any browser is closed |
| Collection.TweetCollector.CollectTweets | tweet_collection.py:139-173 | the loop ends with the error count, exit and waits that `Collect` specifies, and an exit first shuts down |
| Collection.TweetCollector.Run | tweet_collection.py:186-201 | the browser always ends closed; the exit code is 1 exactly when initialisation fails or the collection loop reaches the error threshold |
| ScraperProcess.MonitorUnknownColumn | scraper_process.py:119-132 | a column with new tweets that is missing from the column table turns a successful scrape into `None` |
| ScraperProcess.MonitorReturnsZeroCounts | scraper_process.py:119-128 | non-empty results that are all zero are returned whatever their column ids |
| ScraperProcess.BackoffBounds | scraper_process.py:169 | the backoff is `2 ** n` up to five consecutive errors and 60 s from six on, always between 1 and 60 s |
| ScraperProcess.PollCounts | scraper_process.py:139-169 | every pass adds one check; the errors grow by the passes that raised, the tweets found by what the checks returned |
| ScraperProcess.ScanFailuresHarmless | scraper_process.py:112-153 | scrape failures never reach the error path: checks leave the errors alone, keep the counter at 0 and never back off |
| ScraperProcess.BackoffCapped | scraper_process.py:168-169 | every error backoff lies between 1 and 60 s |
| ScraperProcess.ReinitResets | scraper_process.py:155-166 | while every reinitialisation works the consecutive count stays below 3 |
| ScraperProcess.ReinitFails | scraper_process.py:155-166 | while every reinitialisation fails the consecutive count grows by one per error |
| ScraperProcess.TweetScraperProcess.constructor | scraper_process.py:47-52 | the checks, tweets found and errors start at zero |
| ScraperProcess.TweetScraperProcess.MonitorTweets | scraper_process.py:112-132 | the method returns what `Monitor` specifies and never raises |
| ScraperProcess.TweetScraperProcess.ContinuousScraping | scraper_process.py:134-169 | the loop ends with the stats, counter and pauses that `Poll` specifies |
| ScraperProcess.TweetScraperProcess.InitialScrape | scraper_process.py:94-110 | the total is the sum of the per-column counts; it is reached exactly when every scraped column is in the column table |
| ScraperProcess.TweetScraperProcess.Shutdown | scraper_process.py:171-180 | the loop flag is cleared and the stats are kept |
| SrcCollector.LoadedDateChoice | src/tweet_collector.py:125-166 | a saved date is adopted exactly when it is a valid date not in the future; otherwise yesterday is used, and saved unless the file could not be read |
| SrcCollector.ReloadKeepsDate | src/tweet_collector.py:125-166 | a date the collector saved is adopted unchanged on the next start |
| SrcCollector.ProcessCategoryStats | src/tweet_collector.py:217-251 | the stats name the category and succeed exactly when its scrape and save did, with its tweet and list counts; `len` of a list value that has none raises |
| SrcCollector.Tally | src/tweet_collector.py:306-308 | successes and failures add up to the number of results |
| SrcCollector.TallyPermutation | src/tweet_collector.py:286-308 | the summary does not depend on the order the results arrive in |
| SrcCollector.CompletionOrderSummary | src/tweet_collector.py:274-297 | results collected in completion order are a permutation of the submitted ones and give the same summary |
| SrcCollector.SequentialMatchesParallel | src/tweet_collector.py:274-302 | the sequential path succeeds exactly when no category's list value lacks a length, and then gives the parallel path's stats in submission order |
| SrcCollector.NextErrorsBounded | src/tweet_collector.py:315-334 | the error count stays below 3: a failing run adds one or resets it to 0 |
| SrcCollector.TweetCollector.constructor | src/tweet_collector.py:85-123 | the loaded date, the output directory and worker count, and no errors |
| SrcCollector.TweetCollector.Create | src/tweet_collector.py:85-202 | construction fails exactly when a worker count is not an integer or the API key is missing or empty |
| SrcCollector.TweetCollector.LoadOrInitializeDate | src/tweet_collector.py:125-166 | the method adopts and saves the date `LoadedDate` specifies |
| SrcCollector.TweetCollector.SaveCurrentDate | src/tweet_collector.py:168-174 | the date file holds the current date |
| SrcCollector.TweetCollector.CheckAndUpdateDate | src/tweet_collector.py:176-188 | the date becomes yesterday; only when it changed is it saved and its output folder created |
| SrcCollector.TweetCollector.HandleCriticalError | src/tweet_collector.py:329-334 | the error count is reset to 0 and the collector keeps running |
| SrcCollector.TweetCollector.CountFailure | src/tweet_collector.py:315-326 | a failed run adds one error, reset to 0 when it reaches 3 |
| SrcCollector.TweetCollector.ProcessSequentially | src/tweet_collector.py:298-302 | the sequential loop computes the specified stats, stopping at a category that raises |
| SrcCollector.TweetCollector.ProcessInParallel | src/tweet_collector.py:274-297 | the parallel loop collects every category's stats in completion order, an exception becoming an error entry |
| SrcCollector.TweetCollector.CollectTweets | src/tweet_collector.py:253-327 | an empty configuration returns before processing; an exception gives (0, 1, 0); otherwise the summary is that of every category's stats in either mode, a failed category counts one error, and the count stays below 3 |
| SrcCollector.TweetCollector.Shutdown | src/tweet_collector.py:358-369 | the loop flag is cleared |
| Supervisor.DictGet | tweet_summary.py:154 | `d.get(k, default)` is the stored value when the key is present and the default otherwise, and raises exactly when `d` is not a dict |
| Supervisor.TweetsLen | tweet_summary.py:154 | `len(data.get('tweets', []))`: 0 without a `tweets` key, the length of the stored value otherwise, raising on a non-dict |
| Supervisor.ReadCount | tweet_summary.py:146-157 | a count exists exactly when the file exists, decodes and its tweets can be counted, and is then that count |
| Supervisor.CountOrZero | tweet_summary.py:146-157 | `_count_tweets_in_file`: the count of a readable file, 0 whenever opening, decoding or counting fails |
| NewsGenerator.NewsAndHistoryDiffer | src/news_generator.py:177-179 | yesterday's news file, its archived copy and the content output are three different paths |
| NewsGenerator.TweetId | src/news_generator.py:203-204 | a tweet's identifier is `url:content`, and exists exactly when the tweet is a dict with both keys |
| NewsGenerator.TweetIds | src/news_generator.py:203-204 | the identifier set is computed exactly when every tweet has one, and holds exactly the identifiers of the tweets |
| NewsGenerator.CategoryTweets | src/news_generator.py:191 | `doc.get(CATEGORY, {}).get('tweets', [])` succeeds only on a dict |
| NewsGenerator.CheckFile | src/news_generator.py:195-213 | a previous summary reports an overlap only when it decodes, has the category's tweets and shares an identifier with the new ones |
| NewsGenerator.Compare | src/news_generator.py:203-208 | an overlap exactly when both identifier sets were computed and intersect; a failure exactly when either raised |
| NewsGenerator.ContentOverlap | src/news_generator.py:175-222 | `_check_content_overlap` answers true only when some identifier of the new tweets is in yesterday's news file or its archived copy |
| NewsGenerator.OverlapWitness | src/news_generator.py:203-213 | a reported overlap with a previous file names an identifier held by both files |
| NewsGenerator.OverlapComplete | src/news_generator.py:175-222 | when the previous files can be read, an identifier shared with either of them is always reported |
| NewsGenerator.PriorNotFailed | src/news_generator.py:195-213 | a readable previous file never makes the check raise |
| NewsGenerator.PriorOverlaps | src/news_generator.py:195-213 | a previous file holding one of the new identifiers is reported as overlapping |
| NewsGenerator.DataStep | src/news_generator.py:224-245 | `process_data` skips while busy, takes the data processor's store when it returns, and leaves the store alone when it raises |
| NewsGenerator.AlphaStepGate | src/news_generator.py:247-281 | the alpha filter runs exactly when the stage is free, the data processor counted new tweets and the checked file exists; the checked file is removed only after a truthy answer, and nothing else changes |
| NewsGenerator.AsWrittenSkipsFreshOutput | src/news_generator.py:264 | as written, a file just written by the data processor is never found, so the alpha filter does not run |
| NewsGenerator.CorrectedFiltersFreshOutput | src/news_generator.py:264 | checking the file the data processor writes, new tweets are filtered and that file is cleared exactly on success |
| NewsGenerator.ContentStepGate | src/news_generator.py:283-322 | the content filter runs exactly on a decodable, non-empty alpha output; that output is cleared only after a truthy answer; every other outcome leaves the store alone |
| NewsGenerator.NewsStepArchives | src/news_generator.py:324-423 | the news stage archives only without overlap and after every configured sender succeeded; the news file then moves unchanged into the history and the content input is removed |
| NewsGenerator.NewsStepSkipsOverlap | src/news_generator.py:352-356 | content that overlaps with yesterday's summary runs nothing and changes nothing |
| NewsGenerator.NewsStepKeepsInputOnSendFailure | src/news_generator.py:367-390 | a configured sender that fails leaves the content input and the news file in place |
| NewsGenerator.NewsGenerator.constructor | src/news_generator.py:67-120 | a sender is created exactly when some configured channel or webhook is non-empty; the generator starts running and idle |
| NewsGenerator.NewsGenerator.ProcessData | src/news_generator.py:224-245 | the stage and store that `DataStep` specifies; the flag is restored by the `finally` |
| NewsGenerator.NewsGenerator.ProcessAlphaFilter | src/news_generator.py:247-281 | the stage and store that `AlphaStep` specifies, checking `<date>_processed.json` as written |
| NewsGenerator.NewsGenerator.ProcessContentFilter | src/news_generator.py:283-322 | the stage and store that `ContentStep` specifies; the alpha filter is reset exactly after a truthy answer |
| NewsGenerator.NewsGenerator.ProcessNewsFilter | src/news_generator.py:324-423 | the stage and store that `NewsStep` specifies; the content filter is reset exactly when the summary is archived |
| NewsGenerator.NewsGenerator.NewsInner | src/news_generator.py:330-419 | the body inside the `try` computes the `NewsStep` outcome with the reset count |
| NewsletterProcess.Counts | newsletter_process.py:149-166 | every readable `column_*.json` file is mapped to its tweet count, and no other file appears |
| NewsletterProcess.ContentGateImpliesNewsGate | newsletter_process.py:168-202 | whenever the content gate is open on some counts, the news gate is open on them too |
| NewsletterProcess.SingleColumnGate | newsletter_process.py:168-184 | with one column the gate opens exactly when that column reaches either threshold |
| NewsletterProcess.ShouldRunMonotone | newsletter_process.py:168-202 | more tweets in the same columns never close an open gate |
| NewsletterProcess.WithoutColumns | newsletter_process.py:204-211 | `_clear_input_files` removes exactly the column files and keeps every other file unchanged |
| NewsletterProcess.MonitorStepPrecedence | newsletter_process.py:213-256 | the content filter runs exactly when its gate is open and the loop is free; the news filter exactly when the content gate is closed and its own open; a completed run clears its input's column files |
| NewsletterProcess.MonitorKeepsFlag | newsletter_process.py:213-256 | the loop leaves the processing flag as it found it, records one action per iteration, and runs nothing while the flag is set |
| NewsletterProcess.DailyStepGate | newsletter_process.py:124-147 | the alpha filter runs exactly on a positive count when the stage is free and nothing raised; otherwise nothing changes |
| NewsletterProcess.NewsletterProcess.constructor | newsletter_process.py:36-77 | the directories as given, running and idle |
| NewsletterProcess.NewsletterProcess.CountTweetsInFiles | newsletter_process.py:149-166 | the loop over the files computes `Counts` in any order |
| NewsletterProcess.NewsletterProcess.ShouldRunContentFilter | newsletter_process.py:168-184 | the content gate on the alpha directory's counts |
| NewsletterProcess.NewsletterProcess.ShouldRunNewsFilter | newsletter_process.py:186-202 | the news gate on the content directory's counts |
| NewsletterProcess.NewsletterProcess.DailyProcessing | newsletter_process.py:124-147 | the outcome and directories that `DailyStep` specifies |
| NewsletterProcess.NewsletterProcess.MonitorOnce | newsletter_process.py:220-252 | one iteration as `MonitorStep` specifies |
| NewsletterProcess.NewsletterProcess.ContinuousMonitoring | newsletter_process.py:213-256 | the loop's actions and final directories are those `Monitor` specifies |
| NewsletterProcess.NewsletterProcess.Shutdown | newsletter_process.py:287-292 | the loop flag is cleared |
| SchedulerProcess.CheckAndRunSummary | scheduler_process.py:48-82 | the summary runs exactly when the directory exists and every column file reads and holds at least 15 tweets; the scan stops at the first file that does not |
| SchedulerProcess.RunCollectProcess | scheduler_process.py:38-46 | the scan happens exactly after a successful collection |
| SchedulerProcess.ReadyOrderFree | scheduler_process.py:57-72 | the verdict does not depend on the order the glob yields the files |
| TweetSummary.MonitorStepGates | tweet_summary.py:168-226 | the content filter runs exactly when the loop is free, the alpha filter is not running and its output holds at least 20 tweets, and clears it exactly after a truthy answer; the content output is cleared only after the news filter and the Telegram send both succeed (the intended behaviour: the components as written never answer truthy, see Findings) |
| TweetSummary.AsWrittenStepNeverClears | tweet_summary.py:183-213 | with the content filter answering `None` or raising, the news filter answering `None` and the Telegram call raising, an iteration clears neither input file; an alpha output the components leave alone stays as it was and, once due, stays due after the content filter ran |
| TweetSummary.AsWrittenNeverClears | tweet_summary.py:171-226 | over any run with the components as written no iteration clears an input file, and while they leave a due alpha output alone every iteration runs the content filter again |
| TweetSummary.MonitorKeepsFlags | tweet_summary.py:168-226 | the loop ends with both flags as they started, one iteration per tick, and runs nothing while the processing flag is set |
| TweetSummary.TweetSummary.constructor | tweet_summary.py:32-79 | the store as given, running, idle and with the alpha filter stopped |
| TweetSummary.TweetSummary.MidnightProcessing | tweet_summary.py:124-144 | skipped while busy; otherwise the alpha filter's store when it returns, the old store when it raises, and both flags cleared |
| TweetSummary.TweetSummary.CountTweetsInFile | tweet_summary.py:146-157 | the count `CountOrZero` specifies |
| TweetSummary.TweetSummary.MonitorOnce | tweet_summary.py:170-222 | one iteration as `MonitorStep` specifies |
| TweetSummary.TweetSummary.ContinuousMonitoring | tweet_summary.py:168-226 | the loop's iterations and final state are those `Monitor` specifies |
| TweetSummary.TweetSummary.Shutdown | tweet_summary.py:254-258 | the loop flag is cleared |
| NewsletterGenerator.LegacyCount | src/legacy/newsletter_generator.py:196-218 | 0 for a missing or unreadable file; otherwise the top-level tweet count, else the category's, else 0 |
| NewsletterGenerator.ScheduledStep | src/legacy/newsletter_generator.py:149-194 | after the stage runs, both flags are cleared by the `finally` |
| NewsletterGenerator.AsWrittenKeepsProcessedFile | src/legacy/newsletter_generator.py:182-185 | as written, the file the data processor wrote stays after a successful alpha run |
| NewsletterGenerator.CorrectedClearsProcessedFile | src/legacy/newsletter_generator.py:182-185 | clearing the file the data processor writes, nothing processed is left behind and no other file is removed |
| NewsletterGenerator.ContentPhaseGates | src/legacy/newsletter_generator.py:273-288 | the content filter runs exactly when the alpha filter is idle and its output holds at least 5 tweets; the alpha output is cleared, and the alpha filter reset, exactly after a truthy answer |
| NewsletterGenerator.NewsPhaseGates | src/legacy/newsletter_generator.py:290-333 | the senders are asked only when the news output's stamp changed; the content input is cleared after sends that all succeed, or without sending when the stamp did not change, and is kept otherwise |
| NewsletterGenerator.MonitorStepGates | src/legacy/newsletter_generator.py:264-340 | an iteration runs only when free; the news half runs on the store the content half left, unless that half raised |
| NewsletterGenerator.MonitorKeepsFlags | src/legacy/newsletter_generator.py:264-340 | the loop ends with the flags as they started, the reset counts never decrease, one iteration per tick |
| NewsletterGenerator.NewsletterGenerator.constructor | src/legacy/newsletter_generator.py:46-104 | a Discord sender exists exactly when some webhook is non-empty; running, idle, no resets |
| NewsletterGenerator.NewsletterGenerator.ScheduledProcessing | src/legacy/newsletter_generator.py:149-194 | the outcome and state `ScheduledStep` specifies, clearing `<date>_processed.json` as written |
| NewsletterGenerator.NewsletterGenerator.CountTweetsInFile | src/legacy/newsletter_generator.py:196-218 | the count `LegacyCount` specifies |
| NewsletterGenerator.NewsletterGenerator.NewsOnce | src/legacy/newsletter_generator.py:295-333 | the news half as `NewsPhase` specifies |
| NewsletterGenerator.NewsletterGenerator.MonitorOnce | src/legacy/newsletter_generator.py:268-335 | one iteration as `MonitorStep` specifies |
| NewsletterGenerator.NewsletterGenerator.ContinuousMonitoring | src/legacy/newsletter_generator.py:264-340 | the loop's iterations and final state are those `Monitor` specifies |
| NewsletterGenerator.NewsletterGenerator.Shutdown | src/legacy/newsletter_generator.py:368-372 | the loop flag is cleared |
| Emoji.FirstUnused | src/senders/telegram_sender.py:217-221 | the first fallback not yet used, and none exactly when every fallback is used |
| Emoji.Allocate | src/senders/telegram_sender.py:197-228 | `_get_emoji_for_subcategory`: an unused emoji a word of the subcategory maps to, else the first unused fallback, else the last fallback; what it returns is marked used |
| Emoji.AllocationFresh | src/senders/telegram_sender.py:209-224 | the returned emoji was already handed out exactly when every mapped emoji and every fallback was used, and it is then the last fallback |
| Emoji.DefaultsDistinct | telegram_sender.py:210 | the eight fallbacks are pairwise different |
| Emoji.MisencodedDistinct | src/senders/telegram_sender.py:217 | the misencoded fallbacks are still eight different strings |
| Emoji.NotAllUsed | src/senders/telegram_sender.py:217-224 | fewer used emojis than fallbacks always leave a fallback free |
| Emoji.RunDistinct | src/senders/telegram_sender.py:260-267 | a summary with at most eight subcategories gets pairwise distinct emojis, none used before the summary started |
| Emoji.AllocatedRunSnoc | src/senders/telegram_sender.py:260-267 | one more subcategory extends the run of allocations by its emoji |
| Senders.EscapeNoMarkup | src/senders/telegram_sender.py:292 | `html.escape` leaves no character that opens or closes markup |
| Senders.EscapeRoundTrip | src/senders/telegram_sender.py:292 | unescaping escaped text gives the text back |
| Senders.FirstKey | src/senders/telegram_sender.py:237-241 | the index of the first key equal to the category up to case; none exactly when no key matches |
| Senders.FindCategoryKey | src/senders/telegram_sender.py:237-241 | the search loop stops at the first key equal to the category up to case |
| Senders.FirstKeyAt | src/senders/telegram_sender.py:238-241 | a matching key with no match before it is the one the search returns |
| Senders.Add | src/senders/telegram_sender.py:283-286 | adding a tweet opens a group only for an author not seen before, at the end |
| Senders.LookupAdd | src/senders/telegram_sender.py:283-286 | the tweet is appended to its own author's group and no other group changes |
| Senders.GroupTweets | src/senders/telegram_sender.py:277-286 | the grouping loop raises on tweets that cannot be iterated and otherwise computes the grouping of the tweets |
| Senders.GroupList | src/senders/telegram_sender.py:278-286 | the loop over the tweets computes their grouping |
| Senders.GroupAllStops | src/senders/telegram_sender.py:278-286 | once reading a tweet raises, the whole grouping raises |
| Senders.GroupAllCharacterised | src/senders/telegram_sender.py:277-286 | the groups are the distinct authors of the complete tweets in first-seen order, each holding that author's text and link pairs in input order |
| Senders.GroupAllPermutes | src/senders/telegram_sender.py:277-293 | the tweets written group by group are a permutation of the complete tweets: none lost, none added |
| Senders.GroupAuthorsDistinct | src/senders/telegram_sender.py:283-286 | no author has two groups |
| Senders.MaxIndexIsFirstMax | src/senders/telegram_sender.py:325 | `max` picks a greatest date key, the first one of them |
| Senders.SummaryFiles | src/senders/telegram_sender.py:317-318 | every file listed matches `<category>_summary_*.json` |
| Senders.LatestSummaryFile | src/senders/telegram_sender.py:314-331 | none exactly when no file matches; otherwise one of the matching files |
| Senders.LatestIsLatest | src/senders/telegram_sender.py:324-325 | no matching file has a later date key than the one returned |
| Senders.InputFile | src/senders/telegram_sender.py:333-341 | without a date the latest summary; with one, that date's summary exactly when it exists |
| Senders.ValidateSummaryFile | src/senders/telegram_sender.py:410-457 | true exactly when the file parses to a dict whose category entry is a dict of lists of tweets that each hold the three fields |
| Senders.FormatDate | src/senders/telegram_sender.py:82-83 | a date parses exactly when its stripped text is `%Y%m%d`, and the result ends with its day |
| Senders.FormatFromReference | src/senders/telegram_sender.py:68-123 | the line loop drops blank lines and writes every other line formatted on its own, with an empty line before a subcategory that has lines above it |
| Senders.FormatFirstLine | src/senders/telegram_sender.py:68-123 | the first line written is the first non-blank line, formatted |
| Senders.FormatFromExtends | src/senders/telegram_sender.py:72-121 | lines already written are never changed |
| Senders.FormatFromEmits | src/senders/telegram_sender.py:72-121 | every non-blank line is written, formatted |
| Senders.CategoryData | src/senders/telegram_sender.py:236-254 | a key is used only when it is non-empty, equals the category up to case and maps to a dict; no such key gives nothing |
| Senders.Loaded | src/senders/telegram_sender.py:346-363 | the summary that gets formatted has exactly one category, `CATEGORY`, whose value is a dict |
| Senders.LoadedFormats | src/senders/telegram_sender.py:236-254 | such a summary always finds its category key and data |
| DiscordSender.FormatLine | src/senders/discord_sender.py:70-114 | headers and subcategories are written bold and underlined, every other line as it is |
| DiscordSender.FormatTextLoop | src/senders/discord_sender.py:54-118 | `format_text` computes the line formatting of the text |
| DiscordSender.FormatTextReference | src/senders/discord_sender.py:61-114 | the text is its non-blank lines, each formatted on its own, joined with newlines |
| DiscordSender.SplitMessage | src/senders/discord_sender.py:158-193 | `_split_message` computes the chunks of the text |
| DiscordSender.SplitJoin | src/senders/discord_sender.py:158-193 | the chunks joined with newlines give the text back: nothing lost, nothing added |
| DiscordSender.SplitShape | src/senders/discord_sender.py:160-193 | a short text is one chunk; a long one starts with its first line alone, and every chunk after the second opens with a subcategory line |
| DiscordSender.ChunksStartAtHeaders | src/senders/discord_sender.py:174-191 | every chunk after the one in progress opens with a subcategory line |
| DiscordSender.SubcategoryShowsEveryTweet | src/senders/discord_sender.py:270-285 | a subcategory's tweet lines are its complete tweets, grouped by author |
| DiscordSender.SummaryStartsWithHeader | src/senders/discord_sender.py:228-297 | the summary opens with its header line |
| DiscordSender.AppendTweets | src/senders/discord_sender.py:283-285 | the nested loops write one line per tweet, group by group |
| DiscordSender.AppendSubcategory | src/senders/discord_sender.py:255-288 | one subcategory adds its separator, its line and its tweets |
| DiscordSender.OutgoingText | src/senders/discord_sender.py:123-130 | the text that is posted, formatted unless it already carries Discord markup |
| DiscordSender.DiscordSender.constructor | src/senders/discord_sender.py:34-48 | the map and webhooks as given and no emoji used |
| DiscordSender.DiscordSender.FormatCategorySummary | src/senders/discord_sender.py:228-297 | "" and no emojis without a matching dict category; otherwise the header and every subcategory with the emoji its allocation gave, in order |
| DiscordSender.DiscordSender.FormatSubcategories | src/senders/discord_sender.py:249-290 | the subcategory loop allocates one emoji per subcategory and writes their lines |
| DiscordSender.DiscordSender.SendMessage | src/senders/discord_sender.py:120-156 | true exactly when text and webhook are set and every chunk was accepted with status 200 or 204; a failed post ends the send |
| DiscordSender.DiscordSender.ProcessNewsSummary | src/senders/discord_sender.py:328-376 | false without a loadable single-category summary; otherwise its formatted summary is sent, and true exactly when it was delivered to every configured webhook |
| DiscordSender.DiscordSender.Deliver | src/senders/discord_sender.py:348-374 | true exactly when every webhook with an address was delivered to without an exception |
| DiscordSender.AsWrittenRewrapsHeader | src/senders/discord_sender.py:126-127 | as written, the summary's header is wrapped in `__**` a second time in the first post |
| DiscordSender.CorrectedPostsSummary | src/senders/discord_sender.py:126-127 | posting a formatted summary unchanged, the chunks join back to exactly that summary |
| SrcTelegramSender.FormatLine | src/senders/telegram_sender.py:78-121 | headers start underlined bold italic, subcategories are escaped and underlined bold, tweet lines are only escaped |
| SrcTelegramSender.FormatTextLoop | src/senders/telegram_sender.py:57-127 | `format_text` computes the formatting of the text |
| SrcTelegramSender.PlainLineEscaped | src/senders/telegram_sender.py:101-111 | a tweet line is written with no markup character and unescapes to itself |
| SrcTelegramSender.UnderlinedUnchanged | src/senders/telegram_sender.py:63-65 | a text holding `<u>` is returned unchanged |
| SrcTelegramSender.FormatTextIdempotent | src/senders/telegram_sender.py:57-127 | formatting a text with a header or subcategory line twice changes nothing |
| SrcTelegramSender.RenderedCharacterised | src/senders/telegram_sender.py:289-297 | the tweet lines written are the longest run of tweets that can be escaped, each in the source's format |
| SrcTelegramSender.AppendGroup | src/senders/telegram_sender.py:290-293 | one author's tweets are written until one cannot be escaped, which is reported |
| SrcTelegramSender.AppendTweets | src/senders/telegram_sender.py:289-297 | the nested loops write the tweets group by group up to the first that raises |
| SrcTelegramSender.AppendSubcategory | src/senders/telegram_sender.py:261-297 | one subcategory adds its separator, its line and its tweet lines |
| SrcTelegramSender.Footer | src/senders/telegram_sender.py:299-303 | the footer names the channel when its username is known, and is the fixed text otherwise |
| SrcTelegramSender.SummaryPassesUnchanged | src/senders/telegram_sender.py:139-143 | a summary is non-empty, opens with its header and passes `format_text` unchanged |
| SrcTelegramSender.EligibleIndices | src/senders/telegram_sender.py:368-378 | only channels with an id that is digits once '-' is removed are sent to |
| SrcTelegramSender.TelegramSender.constructor | src/senders/telegram_sender.py:34-51 | the map and channels as given and no emoji used |
| SrcTelegramSender.TelegramSender.FormatCategorySummary | src/senders/telegram_sender.py:230-312 | "" and no emojis without a matching dict category; otherwise the header, every subcategory with its emoji, and the footer for the channel |
| SrcTelegramSender.TelegramSender.FormatSubcategories | src/senders/telegram_sender.py:260-297 | the subcategory loop allocates one misencoded-fallback emoji per subcategory and writes their lines |
| SrcTelegramSender.TelegramSender.SendMessage | src/senders/telegram_sender.py:129-165 | false without text or channel or when formatting gives nothing; otherwise sent, unless the Bot API raised on every attempt |
| SrcTelegramSender.TelegramSender.ProcessNewsSummary | src/senders/telegram_sender.py:343-408 | false without a loadable summary; otherwise each eligible channel is sent the summary with its own footer, and true exactly when no send raised; without a loadable summary the used-emoji set is left as it was |
| SrcTelegramSender.TelegramSender.Broadcast | src/senders/telegram_sender.py:366-404 | the channel loop sends only to eligible channels, each its own summary, and reaches every one when nothing raises |
| SrcTelegramSender.TelegramSender.PostSummary | src/senders/telegram_sender.py:380-402 | one channel gets the summary with its footer, sent unless the send raised |
| TelegramSender.TweetParts | telegram_sender.py:88 | `split(':', 1)`: the author has no ':' and author, ':' and text give the line back |
| TelegramSender.HeaderKeepsRest | telegram_sender.py:63-75 | a header keeps the rest of its line after the date, escaped |
| TelegramSender.LineOutBold | telegram_sender.py:63-98 | every header, subcategory and tweet line is written with `<b>` |
| TelegramSender.Step | telegram_sender.py:56-114 | one turn of the loop always moves forward |
| TelegramSender.FormatTextLoop | telegram_sender.py:41-120 | `format_text` computes the formatting of the text |
| TelegramSender.Turn | telegram_sender.py:57-114 | the loop body computes one step |
| TelegramSender.WalkEmits | telegram_sender.py:56-114 | every line that is neither blank nor a link is written, formatted |
| TelegramSender.BoldUnchanged | telegram_sender.py:47-49 | a text holding `<b>` is returned unchanged |
| TelegramSender.FormattedHolds | telegram_sender.py:51-116 | every plain line of an unformatted text appears formatted in the result |
| TelegramSender.FormatTextIdempotent | telegram_sender.py:41-120 | formatting a text that has a plain line twice changes nothing |
| TelegramSender.LinkBecomesHref | telegram_sender.py:86-98 | a tweet line followed by a link is written with its text as a link to that URL |
| TelegramSender.Cut | telegram_sender.py:281 | the short text holds no '.' and no ';' |
| TelegramSender.Short | telegram_sender.py:281-283 | at most 50 characters: the cut text when it fits, else its first 47 and "..." |
| TelegramSender.ShortKeepsClause | telegram_sender.py:281-283 | a short stripped clause is kept whole |
| TelegramSender.AuthorLine | telegram_sender.py:272-286 | an author's line opens with the author in bold and exists exactly when every text is a string |
| TelegramSender.AuthorLines | telegram_sender.py:271-286 | one line per author, in order, exactly when no text raises |
| TelegramSender.BodyStartsWithHeader | telegram_sender.py:245-290 | the summary opens with its `Rollup` header |
| TelegramSender.SummaryPassesUnchanged | telegram_sender.py:318-324 | a formatted summary passes `format_text` unchanged |
| TelegramSender.CategoryOf | telegram_sender.py:306 | the category from a file name has no '_' and no lower-case letter |
| TelegramSender.CategoryOfName | telegram_sender.py:306 | `sei_summary` gives `SEI` |
| TelegramSender.TelegramSender.constructor | telegram_sender.py:31-35 | the map as given and no emoji used |
| TelegramSender.TelegramSender.FormatCategorySummary | telegram_sender.py:223-294 | "" without a dict category matching in upper case; otherwise the subcategories in order with their emojis, and "" once one raises |
| TelegramSender.TelegramSender.FormatSubcategories | telegram_sender.py:248-288 | the subcategory loop allocates an emoji per subcategory it reaches and stops at the first that raises |
| TelegramSender.TelegramSender.AuthorLinesLoop | telegram_sender.py:271-286 | the author loop computes the authors' lines |
| TelegramSender.TelegramSender.AuthorLineOf | telegram_sender.py:272-286 | one author's line, single or consolidated |
| TelegramSender.TelegramSender.ConsolidateLinks | telegram_sender.py:278-284 | one link per tweet exactly when every text is a string |
| TelegramSender.TelegramSender.SendMessage | telegram_sender.py:122-158 | false without text or channel or when formatting gives nothing; otherwise sent, unless the Bot API raised on every attempt |
| TelegramSender.TelegramSender.ProcessNewsSummary | telegram_sender.py:296-337 | true exactly when the file loads to a truthy value, its name gives a category, the test channel is set, the summary formats and the send did not raise; a file that cannot be sent leaves the used-emoji set as it was |
| TelegramSender.SummarisedPasses | telegram_sender.py:318-324 | a non-empty summary passes `format_text` unchanged |

## Left out

- Logging, sleeps (their durations are returned instead), prompts' wording, HTTP clients and model calls (replaced by traces).
- `asyncio.gather` over a chunk runs its tasks concurrently; they share only the breaker, and none awaits between its breaker check and its failure record, so the model runs them in order. When a task raises, `gather` hands the exception on at once; the model stops the chunk there, while in the source the later tasks of that chunk go on in the background, and their effect on the breaker is not modelled.
- Breaker.CircuitBreaker.Check: models the evidently intended test, refusing while the last failure is under 60 s old (`Refuses`); the source's `.seconds` test (`RefusesAsWritten`, see Findings) also refuses in the first minute of every later day.
- AlphaFilter.FilterContentBreaker: uses the corrected breaker test of Breaker.CircuitBreaker.Check, not the `.seconds` test as written.
- AlphaFilter.ProcessContentSpec: every breaker check in the run is the corrected test of Breaker.CircuitBreaker.Check.
- AlphaFilter.ProcessContentSpec: one clock reading `now` serves the whole run (every breaker check and failure record, `processed_at` and `last_update`); the source reads `datetime.now()` afresh at each (alpha_filter.py:27, 34, 158, 454, 463, 505), in UTC for `processed_at` and in naive local time for `last_update`.
- AlphaFilter.AlphaFilter.FilterContent: calls Breaker.CircuitBreaker.Check, so it models the corrected breaker test.
- AlphaFilter.AlphaFilter.FilterChunkLoop: its tasks use the corrected breaker test of Breaker.CircuitBreaker.Check.
- AlphaFilter.AlphaFilter.ChunkIteration: its tasks use the corrected breaker test of Breaker.CircuitBreaker.Check.
- AlphaFilter.AlphaFilter.RunChunks: its tasks use the corrected breaker test of Breaker.CircuitBreaker.Check.
- AlphaFilter.AlphaFilter.ProcessContent: its tasks use the corrected breaker test of Breaker.CircuitBreaker.Check.
- NewsCommon.ApiRequest: refuses by the corrected breaker test of Breaker.CircuitBreaker.Check, not the `.seconds` test as written.
- NewsCommon.GuardedRequest: calls Breaker.CircuitBreaker.Check, so it models the corrected breaker test.
- NewsFilter.NewsFilter.ProcessColumn: its request goes through NewsCommon.GuardedRequest and the corrected breaker test.
- SrcNewsFilter.NewsFilter.Request: its request goes through NewsCommon.GuardedRequest and the corrected breaker test.
- TweetScorer.TweetScorer.ScoreTweet: calls Breaker.CircuitBreaker.Check, so it models the corrected breaker test.
- TweetScorer.ScoreSpec: refuses by the corrected breaker test of Breaker.CircuitBreaker.Check.
- ContentFilter.FilterItem: uses the corrected `ExtractSummary`, which takes a plain-text answer that passes the passage check; as written the answer goes through the duplicate-check helpers and is always rejected (see Findings, ContentFilter.PlainAnswerRejected).
- ContentFilter.ProcessColumn: builds on ContentFilter.FilterItem, so it uses the corrected `ExtractSummary`.
- The supervisors (src/news_generator.py, newsletter_process.py, scheduler_process.py, tweet_summary.py, src/legacy/newsletter_generator.py): the pipeline components they await (data processor, filters, senders, the collect and summary subprocesses) are given as outcomes; `_initialize_directories`, `_get_config`, `setup_jobs`, the APScheduler cron triggers, `run`, `main`, the sleeps between iterations and the signal handlers are left out. A file that cannot be unlinked is taken to be removed. `TweetSummary.MonitorStep` lets a component answer truthy, which the components tweet_summary.py imports never do; `TweetSummary.AsWrittenTick` narrows the outcomes to those they can produce (see Findings).
- The supervisors' data directory (`Path(__file__).parent / 'data'`, e.g. tweet_summary.py:46 and src/legacy/newsletter_generator.py:56-60) and the components' working-directory `Path('data')` are modelled as one store. This assumes the process runs from the directory that holds the supervisor script; for src/legacy/newsletter_generator.py that directory is src/legacy, so its data lives in src/legacy/data.
- NewsGenerator.NewsGenerator.ProcessAlphaFilter: models the code as written, checking `<date>_processed.json`; the corrected check is NewsGenerator.CorrectedFiltersFreshOutput (see Findings).
- NewsletterGenerator.NewsletterGenerator.ScheduledProcessing: models the code as written, clearing `<date>_processed.json`; the corrected clearing is NewsletterGenerator.CorrectedClearsProcessedFile (see Findings).
- src/legacy/newsletter_generator.py `_get_summary_identifier` and `_should_process_file` (229-262) are never called and are not modelled; a file's modification time is an opaque stamp that changes on every write.
- Emoji.Allocate: the words of a subcategory are visited in the order of a Python `set`, which is not modelled; any unused mapped emoji may be the one returned.
- The senders: the Bot API, `get_chat`, the Discord webhooks, `_validate_channel`, both `process_category` methods, the `load_json_file` retries, the sleeps between sends and the `__main__` blocks are left out. What each channel or webhook answered is an oracle, and `with_retry` on a send is folded into it: a send that raised on every attempt is one that raised.
- DiscordSender.DiscordSender.SendMessage: posts the corrected `Outgoing` text, which leaves a text that already carries `__**` as it is; as written `format_text` wraps the header a second time (see Findings, DiscordSender.AsWrittenRewrapsHeader).
- DiscordSender.DiscordSender.ProcessNewsSummary: sends through DiscordSender.DiscordSender.SendMessage, so it posts the corrected `Outgoing` text.
- DiscordSender.DiscordSender.Deliver: sends through DiscordSender.DiscordSender.SendMessage, so it posts the corrected `Outgoing` text.
- src/senders/discord_sender.py:144-147: the rate-limit branch for status 429 cannot be reached, because 429 is already refused at line 139; the model refuses it there.
- Senders.FormatDate: `strptime('%Y%m%d')` also accepts dates written without zero padding; the model accepts only eight-digit dates.
- SrcTelegramSender.TelegramSender.constructor: the `ValueError` for a missing bot token and the `Bot` itself are not modelled; the class holds no token.
- TelegramSender.TelegramSender.ProcessNewsSummary: the summary file is the caller's `Option<Content>`; its name gives the category, and `TELEGRAM_TEST_CHANNEL_ID` is a parameter.
- JSON objects with a repeated key: Python keeps the last value, the model's `Get` the first; documents written by the pipeline never repeat a key.
- Exceptions while saving a file (disk full, permissions): every save is modelled as succeeding.
- AlphaFilter.ValidState: `datetime.strptime(..., '%Y%m%d')` also accepts dates written without zero padding; the model accepts only eight-digit dates.
- SrcAlphaFilter.Format: `f"{processed_date}"` of a float, list or dict is not modelled; recovery is taken to fail.
- `str.isdigit` and `str.isprintable` are approximated by their ASCII behaviour.
- An empty date argument is replaced by today's date, passed in by the caller.
- `CATEGORY` from category_mapping.py is configuration; the model keeps it as a named constant (`Common.CATEGORY`).
- ContentFilter.OptimalSize: computed in exact arithmetic; the floating-point rounding of `total / n`, `avg / 4` and `2048 / tokens` is not modelled.
- ContentFilter.FilterItem: an item whose `tweet`, `reposted_content` or `quoted_content` is not a string is modelled as skipped; the source would build a prompt from it and might fall back to a slice of it.
- ContentFilter.CheckDuplicateContent: the prompt reads `item['text']` and `item['url']`; the records `process_column` builds always have both, so the `KeyError` path is not modelled.
- `filter_content` (content_filter.py:362-430): globbing the column files, reading them and writing one output file per column is file orchestration around `process_column` and is not modelled.
- `_save_state` and the shutdown signal handlers of content_filter.py are I/O and are not modelled.
- Python's hash equality (`1 == 1.0 == True`) and the `TypeError` of an unhashable truthy URL in a `seen` set are not modelled; keys compare as JSON values.
- The news filters read the clock once per run: every breaker check of a run sees the same time.
- news_filter.py `process_all`: the `glob('column_*.json')` listing, in its order, is the `columns` parameter.
- Writing to a temporary file and renaming it is modelled as one write of the final file.
- SrcNewsFilter.CleanSubcategories: each kept subcategory is appended; `non_empty[subcat] = tweets` does the same because the keys of a decoded dict are distinct.
- tweet_scorer.py `process_tweets` (121-227) loads the column files, runs `_process_column` over batches of three columns under a 300 s timeout and then saves the unscored data it loaded; the scores are discarded, so it is file orchestration and is not modelled.
- tweet_scorer.py: the semaphore and `asyncio.gather` of `_process_column` run the tasks concurrently; the model runs them in task order, which is the order of the returned list.
- tweet_scorer.py: only the deepseek answer of an attempt is used (the scorer has no fallback model); a request that raises is an attempt without an answer.
- TweetScorer.MeanOfScores: the mean is computed in exact arithmetic; floating-point rounding is not modelled.
- TweetScorer.ScoreSpec: `tweets` is a list, and the wording of the scoring prompt is not modelled; only the reads that can raise (`text`, `authorHandle`, and `text` of a truthy quoted or reposted content) are.
- The `__main__` blocks (configuration from the environment, logging setup) are not modelled.
- The Slack pumps: the Slack app, `start`, `stop`, `_get_bot_user_id`, the `__main__` blocks and the wording of every reply are left out; a reply is its kind (found, nothing retrieved, processed, processing failed, message failed), and a failure of `say` itself is not modelled.
- The Apify call is a trace: what each invocation of `_scrape_tweets` got (no usable run, or the dataset's items); a failure while listing the dataset counts as no usable run, and the `run_input` sent is not modelled.
- src/slack_pump.py imports `with_retry` from utils/error_handler.py and the summariser from processors/content_filter.py; neither is part of this model. The decorator is modelled by the root error_handler.py, which kol_pump.py uses, and `_extract_summary` is an oracle: its answer per tweet, or a raise.
- The pumps' `CATEGORY_KEYWORDS` are a parameter; `\S` is modelled by the ASCII blanks and `\d` by the ASCII digits.
- Every `str.lower()` and `str.upper()` in the modelled files is modelled by ASCII case mapping (`Common.Lower`, `Common.Upper`): other letters keep their case. This includes the pumps' keyword match, `NewsFilter.SummaryFile`, `SrcNewsFilter.OutputFile`, `ContentFilter.ExtractSummary`, the senders' case-insensitive category keys, and `TelegramSender`'s `k.upper() == category` and `CategoryOf`.
- kol_pump.py:112 nests single quotes inside a single-quoted f-string, which parses only from Python 3.12; the model assumes 3.12.
- Each pump message reads the clock once: `datetime.now()` in a transform or an add is one instant per message.
- The sleeps of `with_retry` are returned as delays; `asyncio` scheduling of the Slack handlers is not modelled.
- src/core/deck_scraper.py: the page is a value (per rendered column, whether its timeline appeared and the articles it holds; per article, what the selectors and `evaluate` scripts read). The waits of `identify_columns` and `get_column_tweets`, the column-count retries and the header locators are left out; a header is readable, missing or unreadable.
- src/core/deck_scraper.py: `asyncio.create_task` runs the column tasks concurrently; each reads only its own column's latest id, which no other column writes, so the model computes every task from the ids as they were when the scrape began.
- ApiClient: the base URL, the headers, the session and its connection pool, `__del__`, the `sinceTime` parameter (the clock and `DAYS_TO_SCRAPE`) and the list id are only sent with each request; the response trace stands for them.
- ApiClient.TwitterApiClient.HandleRateLimit: the jitter factor drawn from `random.uniform(0.5, 1.5)` and the sleeps are not modelled; the wait is returned before jitter.
- ApiClient.ParseInt: `int()` also accepts underscores between digits and non-ASCII digits; the model accepts an optional sign and ASCII digits only.
- ApiClient.TwitterApiClient.GetListTweets: `while True` over a finite trace; when the trace runs out while the loop would still request, `done` is false and the result so far is returned.
- src/core/list_scraper.py: the thread pool (`max_workers`, read from `MAX_SCRAPER_WORKERS`) is not modelled; the workers' outcomes arrive as a sequence in completion order.
- src/core/file_handler.py: `json.dumps` is a parameter (one for the compact metadata line, one for the indented tweets), and the clock (`datetime.now()`, `time.time()`, yesterday's date) is a `Clock` value read once per save. Creating directories, the size and timing printouts and a failing write (which returns `""`) are not modelled.
- FileHandler.EstimateSize: computed in exact arithmetic; the floating-point rounding of `total_size / sample_size * n` is not modelled, nor is `encode('utf-8')` raising on a lone surrogate.
- FileHandler.DateFolderChoice: like `strptime` elsewhere, `TARGET_DATE` is accepted only as a zero-padded eight-digit date.
- FileHandler.FileHandler.LoadCategoryConfiguration: the cache hands out the same dict object on every call, so a caller that mutates it changes the cache; the model copies values. An error other than a decode error while reading (a directory, a permission error) also gives `{}` in the source and is not modelled.
- tweet_collector.py: the configuration comes from the environment map (`load_dotenv` is not modelled), and `setup_directories` and logging are left out. The browser and the scraper are reduced to their outcomes: whether the browser started, whether the login worked, how many columns were identified, the page URL at each turn, and what each scrape did. Closing the browser always completes (the `wait_for` timeouts are not modelled), and `os._exit` is the `exited` flag. The signal handler that clears `is_running` is the end of the turn trace.
- tweet_collection.py: tweet_scraper.py is not part of this model. The page URL at each check and the result of each re-identification are oracles, and an exception inside `validate_tweetdeck` other than a failing re-identification is not modelled. `sys.exit(1)` from `run` is the exit code, and `handle_interrupt` and `main` are left out.
- Collection.TweetCollector.Run: the `finally` calls `shutdown` a second time after the handler's, which changes nothing more.
- scraper_process.py: tweet_scraper.py is not part of this model. `initialize_browser` under its `with_retry` decorator (modelled in `ErrorHandler`) is the `reinitOk` outcome of a reinitialisation, `load_latest_tweets` and `start_time` are left out, and the monitor interval is the `Interval` pause. A `Failed` pass stands for an exception escaping the loop body, which no scrape failure can cause.
- ScraperProcess.TweetScraperProcess.InitialScrape: an exception from `scrape_all_columns` itself propagates to `run` and is not modelled; the method takes the returned pairs.
- src/tweet_collector.py: the `.env` search and the manual reading of `TWITTER_API_KEY` (lines 47-79) are not modelled; the environment is a map. `setup_directories`, `setup_schedules`, the scheduler, the `run` loop and the signal handler are left out. The `os.environ` writes of `_validate_config` and `TARGET_DATE` pass the current date to the file handler, whose saving is modelled in `FileHandler`.
- SrcCollector.ProcessCategory: `processing_time` (the clock) is not part of the stats, and the exception message of a failed category is the run's.
- SrcCollector.LoadedDate: like `strptime` elsewhere, only zero-padded eight-digit dates are accepted; `saved_dt > datetime.now()` is compared by date, a saved date counting as future only when it is after today. A failing `_save_current_date` (logged and ignored) is not modelled.
- SrcCollector.TweetCollector.CollectTweets: the thread pool is an oracle giving the completion order, which is taken to be a permutation of the submitted categories; `future.result()` raises only what `process_category` raises.
- DeckScraper.IdentifiedReads: models the corrected header lookup, in which a column's heading text can be read; as written every column is titled `Column i` (see Findings).
- DeckScraper.DeckScraper.IdentifyColumns: takes any header outcome, including a readable heading and an unreadable column; as written every column has no header, so all are stored as `Column i` and the loop succeeds whenever there is a column (see Findings).

## Findings

| source | as written | input that shows it | evidently intended | confidence | as-written member | corrected member |
|---|---|---|---|---|---|---|
| alpha_filter.py:27 | `(now - last_failure_time).seconds < reset_timeout`: `.seconds` drops whole days | five failures at time 0, a check at 86430 s | refuse only while the last failure is under 60 s old | high, not executed | Breaker.AsWrittenReopensAfterADay | Breaker.RefusalWindowIsContiguous |
| content_filter.py:122-124 | the aware current time minus the naive `strptime` result raises `TypeError`, which the handler turns into False | a state file with `last_run_date` "20240101", checked on 20240110 | run again once three days have passed | high, not executed | ContentFilter.AsWrittenNeverReruns | ContentFilter.ShouldRunStaysDue |
| content_filter.py:214-216 | `_extract_summary` asks for plain text but sends it through the duplicate-check helpers, which return `None` unless the answer is JSON naming `are_duplicates`, `keep_item_ids`, `reason` and `confidence` | the answer `BTC hits 100k` for the tweet `BTC hits 100k today` | the quoted passage becomes the summary | high, not executed | ContentFilter.PlainAnswerRejected | ContentFilter.ExtractTakesVerifiedAnswer |
| src/news_generator.py:264 | the alpha stage checks for `<date>_processed.json`, but the data processor writes `<date>.json` (src/processors/data_processor.py:326) | a day with new tweets, so `processed_count` is 3 | check the file the data processor writes, and filter the new tweets | high, not executed | NewsGenerator.AsWrittenSkipsFreshOutput | NewsGenerator.CorrectedFiltersFreshOutput |
| src/legacy/newsletter_generator.py:182-185 | after the alpha filter, the stage clears `<date>_processed.json`, a file the data processor never writes | a day with new tweets whose processed file `<date>.json` exists | clear the processed file the data processor wrote | high, not executed | NewsletterGenerator.AsWrittenKeepsProcessedFile | NewsletterGenerator.CorrectedClearsProcessedFile |
| tweet_summary.py:185-212 | the clearing branches test the results of `filter_content()` and `process_all()`, which end in a bare `return` (content_filter.py:362-430, news_filter.py:288-315), and call `process_news_summary()` without its required file argument (telegram_sender.py:296), so no branch that clears an input file can run | an alpha output of 20 tweets that the content filter processes and answers `None` for | clear the alpha output after a successful content filter, and the content output after a successful news filter and Telegram send | high, not executed | TweetSummary.AsWrittenNeverClears | TweetSummary.MonitorStepGates |
| src/core/deck_scraper.py:121-133 | `await header_locator.first()` and `await header_area.first()` call `Locator.first`, which is a property, so each raises `TypeError`; the `except Exception: pass` swallows it and the title falls back to `Column {index}` | a column whose header reads `Crypto News` | read the title from the first matching header element | high, not executed | DeckScraper.AsWrittenTitlesAreIndices | DeckScraper.IdentifiedReads |
| src/senders/discord_sender.py:126-127 | `send_message` runs `format_text` on the summary `format_category_summary` already formatted, which reads its header as a subcategory and wraps it in `__**` again | the category key `SEI`: the first post opens with `__**__**SEI News Drop**__ ~**__` | post the formatted summary as it is | medium, not executed | DiscordSender.AsWrittenRewrapsHeader | DiscordSender.CorrectedPostsSummary |
