// The src copy of the alpha filter (src/processors/alpha_filter.py). Its
// `filter_content`, response check, state file and chunk loop are those of
// the root copy with the `SrcCopy` variant (the Slack bypass and per-tweet
// categories); what differs is where the input comes from (the src data
// processor's `<date>.json` with its `categories` dict), the flattening
// that tags each tweet with its category, the early `None` on an empty
// input, and `recover_state`, which trusts the output file without
// validating it.

module SrcAlphaFilter {
  import opened Common
  import opened Breaker
  import opened Oracle
  import opened AlphaFilter
  import SrcDataProcessor

  /** `tweet['category'] = category` on one dict. */
  function Tag(t: Record, category: string): (r: Record)
    ensures Field(r, "category") == JStr(category)
    ensures forall k :: k != "category" ==> Get(r, k) == Get(t, k)
  {
    GetSetSame(t, "category", JStr(category));
    forall k | k != "category" ensures Get(Set(t, "category", JStr(category)), k) == Get(t, k) {
      GetSetOther(t, "category", JStr(category), k);
    }
    Set(t, "category", JStr(category))
  }

  /** `tweet['category'] = category` for every tweet of one category's list,
      or `None` when the loop raises: an element that is not a dict, or a
      value that is neither a list nor something iterating to nothing (an
      empty string or an empty dict). */
  function TagList(category: string, v: Json): (r: Option<seq<Json>>)
    ensures IsListOfDicts(v) ==> r.Some? && |r.value| == |v.items|
    ensures r.Some? ==> forall i :: 0 <= i < |r.value| ==>
      r.value[i].JObj? && Field(r.value[i].entries, "category") == JStr(category)
  {
    match v
    case JList(items) =>
      if forall i :: 0 <= i < |items| ==> items[i].JObj? then
        Some(seq(|items|, i requires 0 <= i < |items| => JObj(Tag(items[i].entries, category))))
      else None
    case JStr(s) => if s == [] then Some([]) else None
    case JObj(entries) => if entries == [] then Some([]) else None
    case _ => None
  }

  /** The flattening loop over `data.get('categories', {}).items()`. */
  function TagAll(cats: Record): (r: Option<seq<Json>>)
  {
    if cats == [] then Some([])
    else
      match TagAll(cats[..|cats| - 1])
      case None => None
      case Some(prev) =>
        match TagList(cats[|cats| - 1].0, cats[|cats| - 1].1)
        case None => None
        case Some(more) => Some(prev + more)
  }

  /** The tweets `process_content` filters, or `None` when flattening
      raises (the input or its `categories` is not a dict, or a category
      holds something other than a list of dicts). */
  function TagCategories(data: Json): (r: Option<seq<Json>>)
    ensures !data.JObj? ==> r.None?
  {
    if !data.JObj? then None
    else
      match GetOr(data.entries, "categories", JObj([]))
      case JObj(cats) => TagAll(cats)
      case _ => None
  }

  /** Each tagged tweet is a dict carrying as its category the key of the
      list it came from, and a `categories` dict of lists of dicts always
      flattens, to as many tweets as the lists hold together. */
  lemma {:induction false} TagAllCharacterised(cats: Record)
    ensures var r := TagAll(cats);
      r.Some? ==> forall i :: 0 <= i < |r.value| ==>
        r.value[i].JObj? && exists k :: 0 <= k < |cats| && Field(r.value[i].entries, "category") == JStr(cats[k].0)
    ensures ListsOfDicts(cats) ==> TagAll(cats).Some? && |TagAll(cats).value| == ListsLength(cats)
  {
    if cats != [] {
      var init := cats[..|cats| - 1];
      var last := cats[|cats| - 1];
      TagAllCharacterised(init);
      var r := TagAll(cats);
      if r.Some? {
        var prev := TagAll(init).value;
        var more := TagList(last.0, last.1).value;
        assert r.value == prev + more;
        forall i | 0 <= i < |r.value|
          ensures r.value[i].JObj? && exists k :: 0 <= k < |cats| && Field(r.value[i].entries, "category") == JStr(cats[k].0)
        {
          if i < |prev| {
            assert r.value[i] == prev[i];
            var k :| 0 <= k < |init| && Field(prev[i].entries, "category") == JStr(init[k].0);
            assert cats[k] == init[k];
          } else {
            assert r.value[i] == more[i - |prev|];
            assert cats[|cats| - 1] == last;
          }
        }
      }
      if ListsOfDicts(cats) {
        assert forall k :: 0 <= k < |init| ==> init[k] == cats[k];
        assert last == cats[|cats| - 1];
      }
    }
  }

  /** Every category holds a list of dicts. */
  predicate ListsOfDicts(cats: Record)
  {
    forall k :: 0 <= k < |cats| ==> IsListOfDicts(cats[k].1)
  }

  predicate IsListOfDicts(v: Json)
  {
    v.JList? && forall i :: 0 <= i < |v.items| ==> v.items[i].JObj?
  }

  /** How many tweets the lists of a `categories` dict hold together. */
  function ListsLength(cats: Record): nat
  {
    if cats == [] then 0
    else ListsLength(cats[..|cats| - 1]) + (if cats[|cats| - 1].1.JList? then |cats[|cats| - 1].1.items| else 0)
  }

  /** The src copy reads the data processor's per-date file. */
  function InputFile(date: string): string
  {
    SrcDataProcessor.ProcessedFile(date)
  }

  /** `process_content` of the src copy. */
  function ProcessContentSpec(files: map<string, Content>, b: BreakerState, date0: string, today: string,
                              oracle: seq<seq<Attempt>>, now: Time, shutdownAt: Option<nat>): (o: Outcome)
    ensures Completed(LoadState(FileAt(files, STATE_FILE))) ==> o == Outcome(None, files, b)
    ensures FileAt(files, InputFile(if date0 == "" then today else date0)).None? ==> o == Outcome(None, files, b)
  {
    var date := if date0 == "" then today else date0;
    var st := LoadState(FileAt(files, STATE_FILE));
    if Completed(st) then Outcome(None, files, b)
    else
      match FileAt(files, InputFile(date))
      case None => Outcome(None, files, b)
      case Some(Corrupt) => Outcome(None, files, b)
      case Some(Parsed(data)) =>
        match TagCategories(data)
        case None => Outcome(None, files, b)
        case Some(tweets) =>
          if tweets == [] then Outcome(None, files, b)
          else
            var env := Env(date, tweets, CATEGORY, oracle, now, shutdownAt, SrcCopy, true);
            RunFrom(env, LastChunk(st), World(files, b, LoadOutput(FileAt(files, OUTPUT_FILE), date, now.iso)))
  }

  // ---------------------------------------------------------------
  // The breaker of the src copy never trips
  // ---------------------------------------------------------------

  /** Filtering a dict never records a breaker failure: a closed breaker
      stays closed. */
  lemma FilterDictKeepsClosed(tweet: Json, category: Json, trace: seq<Attempt>, now: Time)
    requires tweet.JObj?
    ensures FilterSpec(Closed, tweet, category, trace, now, SrcCopy).breaker == Closed
  {
    FilterContentBreaker(Closed, tweet, category, trace, now, SrcCopy);
  }

  /** A chunk of dicts leaves a closed breaker closed. */
  lemma {:induction false} ChunkOfDictsKeepsClosed(env: Env, base: nat, chunk: seq<Json>)
    requires env.variant == SrcCopy
    requires forall i :: 0 <= i < |chunk| ==> chunk[i].JObj?
    ensures FilterChunk(env, Closed, base, chunk).breaker == Closed
  {
    if chunk != [] {
      var init := chunk[..|chunk| - 1];
      assert forall i :: 0 <= i < |init| ==> init[i] == chunk[i];
      ChunkOfDictsKeepsClosed(env, base, init);
      var t := chunk[|chunk| - 1];
      FilterDictKeepsClosed(t, CategoryFor(env, t), TraceFor(env.oracle, base + |chunk| - 1), env.now);
    }
  }

  /** Every tweet the src copy filters is a dict it has tagged, so starting
      from a closed breaker no chunk ever records a failure and the breaker
      never opens. */
  lemma SrcChunksKeepBreakerClosed(data: Json, env: Env, base: nat, lo: nat, hi: nat)
    requires TagCategories(data).Some? && env.tweets == TagCategories(data).value && env.variant == SrcCopy
    requires lo <= hi <= |env.tweets|
    ensures FilterChunk(env, Closed, base, env.tweets[lo..hi]).breaker == Closed
  {
    var cats := GetOr(data.entries, "categories", JObj([])).entries;
    TagAllCharacterised(cats);
    ChunkOfDictsKeepsClosed(env, base, env.tweets[lo..hi]);
  }

  // ---------------------------------------------------------------
  // recover_state
  // ---------------------------------------------------------------

  /** `f"{processed_date}"` for the values the model formats: strings as
      they are, integers in decimal, booleans as `True`/`False`. */
  function Format(j: Json): Option<string>
  {
    match j
    case JStr(s) => Some(s)
    case JInt(i) => Some(if i < 0 then "-" + NatToString(-i) else NatToString(i))
    case JBool(b) => Some(if b then "True" else "False")
    case _ => None
  }

  /** `recover_state` of the src copy: the output file is read without
      validation; its metadata's `processed_date` names the input file, and
      when that decodes, a state for that date restarting at chunk 0 is
      saved, whose `total_chunks` is the metadata's `total_tweets` as it is. */
  function RecoverStateSpec(files: map<string, Content>): (r: (bool, map<string, Content>))
    ensures !r.0 ==> r.1 == files
    ensures r.0 ==> r.1.Keys == files.Keys + {STATE_FILE} && FileAt(r.1, STATE_FILE).Some?
  {
    match FileAt(files, OUTPUT_FILE)
    case Some(Parsed(JObj(out))) =>
      var md := GetOr(out, "metadata", JObj([]));
      if !md.JObj? || !Truthy(Field(md.entries, "processed_date")) then (false, files)
      else
        (match Format(Field(md.entries, "processed_date"))
         case None => (false, files)
         case Some(date) =>
           if FileAt(files, InputFile(date)).Some? && FileAt(files, InputFile(date)).value.Parsed?
              && HasKey(md.entries, "total_tweets") then
             (true, files[STATE_FILE := Parsed(JObj(RecoveredRecord(Field(md.entries, "processed_date"),
                                                                    Field(md.entries, "total_tweets"))))])
           else (false, files))
    case _ => (false, files)
  }

  /** The reconstructed state, holding the metadata values as they are. */
  function RecoveredRecord(date: Json, total: Json): Record
  {
    [("last_processed_date", date), ("last_chunk", JInt(0)), ("total_chunks", total),
     ("completed", JBool(false)), ("columns_state", JObj([]))]
  }

  /** A recovered state restarts from chunk 0 and is not completed whenever
      it loads back; when `total_tweets` is not a non-negative integer it
      fails validation and the next run starts from the default state,
      which also restarts from chunk 0. */
  lemma RecoveredRecordRestarts(date: Json, total: Json)
    ensures var s := LoadState(Some(Parsed(JObj(RecoveredRecord(date, total)))));
      !Completed(s) && LastChunk(s) == 0
    ensures !IsPyInt(total) ==> LoadState(Some(Parsed(JObj(RecoveredRecord(date, total))))) == DEFAULT_STATE
  {
    RecoveredRecordFields(date, total);
    var s := LoadState(Some(Parsed(JObj(RecoveredRecord(date, total)))));
    if s == DEFAULT_STATE {
      DefaultStateNotCompleted();
      assert DEFAULT_STATE[2].0 == "last_chunk";
      assert Get(DEFAULT_STATE, "last_chunk") == Some(JInt(0));
    }
  }

  lemma RecoveredRecordFields(date: Json, total: Json)
    ensures var r := RecoveredRecord(date, total);
      Get(r, "last_chunk") == Some(JInt(0)) && Get(r, "total_chunks") == Some(total)
      && Get(r, "completed") == Some(JBool(false))
  {
    var r := RecoveredRecord(date, total);
    assert r[0].0 == "last_processed_date" && r[1].0 == "last_chunk" && r[2].0 == "total_chunks";
    assert r[3].0 == "completed";
    GetAt(r, 1);
    GetAt(r, 2);
    GetAt(r, 3);
  }

  // ---------------------------------------------------------------
  // The stage methods of the src copy
  // ---------------------------------------------------------------

  /** `process_content` of the src copy. */
  method ProcessContent(f: AlphaFilter, date0: string, today: string, oracle: seq<seq<Attempt>>,
                        now: Time, shutdownAt: Option<nat>) returns (result: Option<Json>)
    requires f.Valid()
    modifies f, f.breaker
    ensures f.Valid()
    ensures Outcome(result, f.files, f.breaker.State())
         == ProcessContentSpec(old(f.files), old(f.breaker.State()), date0, today, oracle, now, shutdownAt)
  {
    var date := if date0 == "" then today else date0;
    var st := LoadState(FileAt(f.files, STATE_FILE));
    if Completed(st) {
      return None;
    }
    var input := FileAt(f.files, InputFile(date));
    if input.None? || input.value.Corrupt? {
      return None;
    }
    var tweets := TagCategories(input.value.json);
    if tweets.None? || tweets.value == [] {
      return None;
    }
    var env := Env(date, tweets.value, CATEGORY, oracle, now, shutdownAt, SrcCopy, true);
    result := f.RunChunks(env, LastChunk(st), LoadOutput(FileAt(f.files, OUTPUT_FILE), date, now.iso));
  }

  /** `recover_state` of the src copy. */
  method RecoverState(f: AlphaFilter) returns (ok: bool)
    modifies f
    ensures (ok, f.files) == RecoverStateSpec(old(f.files))
  {
    var r := RecoverStateSpec(f.files);
    ok := r.0;
    f.files := r.1;
  }
}
