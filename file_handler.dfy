// src/core/file_handler.py: where the collector writes a category's tweets,
// the streamed text of that file, the size estimate, and the cached
// category configuration.
//
// `json.dumps` is a parameter (one function per call shape: the compact
// metadata line and the indented tweet); the clock is a `Clock` value; the
// files read are a map from path to `Content`, and the files written are
// the handler's `written` map from path to text.

module FileHandler {
  import opened Common

  // ---------------------------------------------------------------
  // Paths and dates
  // ---------------------------------------------------------------

  /** `os.path.join(a, b)` on POSIX: an absolute `b` replaces `a`, and a
      separator is added only when `a` is non-empty and does not end with
      one. */
  function PathJoin(a: string, b: string): (r: string)
    ensures b != [] && b[0] != '/' && a != [] && a[|a| - 1] != '/' ==> r == a + "/" + b
  {
    if b != [] && b[0] == '/' then b
    else if a == [] || a[|a| - 1] == '/' then a + b
    else a + "/" + b
  }

  /** What the handler reads from the clock when it saves: the current
      time in seconds, its ISO text, and yesterday as YYYYMMDD. */
  datatype Clock = Clock(seconds: real, iso: string, yesterday: string)

  /** The date folder: `TARGET_DATE` when it is set, non-empty and a valid
      YYYYMMDD date, yesterday otherwise. */
  function DateFolder(target: Option<string>, yesterday: string): string
  {
    if target.Some? && target.value != "" && IsYmd(target.value) then target.value else yesterday
  }

  /** `strftime("%Y-%m-%d")` of a YYYYMMDD date. */
  function Dashed(d: string): (r: string)
    requires |d| == 8
    ensures |r| == 10 && r[4] == '-' && r[7] == '-'
    ensures r[..4] == d[..4] && r[5..7] == d[4..6] && r[8..] == d[6..]
  {
    d[..4] + "-" + d[4..6] + "-" + d[6..]
  }

  /** `output_dir/<date folder>/<category>_Tweets.json`. */
  function TweetsPath(outputDir: string, folder: string, category: string): string
  {
    PathJoin(PathJoin(outputDir, folder), category + "_Tweets.json")
  }

  /** The folder is always a valid date: the target when that is one,
      yesterday otherwise. */
  lemma DateFolderChoice(target: Option<string>, yesterday: string)
    requires IsYmd(yesterday)
    ensures IsYmd(DateFolder(target, yesterday))
    ensures target.Some? && IsYmd(target.value) ==> DateFolder(target, yesterday) == target.value
    ensures (target.None? || !IsYmd(target.value)) ==> DateFolder(target, yesterday) == yesterday
  {
  }

  /** Under a plain output directory the file sits in the date folder and
      is named after the category. */
  lemma TweetsPathShape(outputDir: string, folder: string, category: string)
    requires outputDir != [] && outputDir[|outputDir| - 1] != '/'
    requires IsYmd(folder)
    requires category == [] || category[0] != '/'
    ensures TweetsPath(outputDir, folder, category) == outputDir + "/" + folder + "/" + category + "_Tweets.json"
  {
    assert IsAsciiDigit(folder[0]);
    var dir := outputDir + "/" + folder;
    assert dir[|dir| - 1] == folder[7];
    assert IsAsciiDigit(folder[7]);
    var name := category + "_Tweets.json";
    assert name[0] != '/' by {
      if category == [] {
        assert name[0] == '_';
      } else {
        assert name[0] == category[0];
      }
    }
  }

  // ---------------------------------------------------------------
  // save_category_tweets
  // ---------------------------------------------------------------

  const METADATA_KEYS: seq<string> := ["category", "tweet_count", "date", "timestamp", "processing_time_seconds"]

  /** The `metadata` dict written at the head of the file. */
  function Metadata(category: string, count: nat, date: string, clock: Clock, startTime: real): (m: Json)
    ensures m.JObj? && Keys(m.entries) == METADATA_KEYS
  {
    var vals := [JStr(category), JInt(count), JStr(date), JStr(clock.iso), JReal(clock.seconds - startTime)];
    ZipKeys(METADATA_KEYS, vals);
    JObj(Zip(METADATA_KEYS, vals))
  }

  /** The metadata names the category, counts the tweets and carries the
      date it was given (the folder's date with dashes). */
  lemma MetadataFields(category: string, count: nat, date: string, clock: Clock, startTime: real)
    ensures var m := Metadata(category, count, date, clock, startTime);
      && Field(m.entries, "category") == JStr(category)
      && Field(m.entries, "tweet_count") == JInt(count)
      && Field(m.entries, "date") == JStr(date)
  {
    var vals := [JStr(category), JInt(count), JStr(date), JStr(clock.iso), JReal(clock.seconds - startTime)];
    assert DistinctStrings(METADATA_KEYS);
    ZipField(METADATA_KEYS, vals, 0);
    ZipField(METADATA_KEYS, vals, 1);
    ZipField(METADATA_KEYS, vals, 2);
  }

  /** The line written for the `i`-th tweet: indented, and followed by a
      comma unless it is the last. */
  function Line(dumps: seq<string>, i: nat): string
    requires i < |dumps|
  {
    "    " + dumps[i] + (if i < |dumps| - 1 then ",\n" else "\n")
  }

  /** What the loop has written after the first `j` tweets. */
  function LinesUpTo(dumps: seq<string>, j: nat): string
    requires j <= |dumps|
  {
    if j == 0 then "" else LinesUpTo(dumps, j - 1) + Line(dumps, j - 1)
  }

  function Indented(dumps: seq<string>): (r: seq<string>)
    ensures |r| == |dumps| && forall i :: 0 <= i < |r| ==> r[i] == "    " + dumps[i]
  {
    seq(|dumps|, i requires 0 <= i < |dumps| => "    " + dumps[i])
  }

  /** The whole file: the metadata line, then the tweets' lines inside the
      `tweets` list. */
  function Envelope(metadataText: string, lines: string): string
  {
    "{\n" + "  \"metadata\": " + metadataText + ",\n" + "  \"tweets\": [\n" + lines + "  ]\n}"
  }

  function SavedText(metadataText: string, dumps: seq<string>): string
  {
    Envelope(metadataText, LinesUpTo(dumps, |dumps|))
  }

  lemma JoinSnoc(ps: seq<string>, p: string, sep: string)
    requires ps != []
    ensures Join(ps + [p], sep) == Join(ps, sep) + sep + p
    decreases |ps|
  {
    if |ps| == 1 {
      assert (ps + [p])[1..] == [p];
    } else {
      assert (ps + [p])[1..] == ps[1..] + [p];
      JoinSnoc(ps[1..], p, sep);
    }
  }

  /** The tweets are written in order, separated by ",\n", with one
      newline after the last: the text between the brackets is the
      indented dumps joined by commas. */
  lemma {:induction false} LinesAreJoined(dumps: seq<string>, j: nat)
    requires 1 <= j <= |dumps|
    ensures LinesUpTo(dumps, j) == Join(Indented(dumps)[..j], ",\n") + (if j < |dumps| then ",\n" else "\n")
    decreases j
  {
    var ind := Indented(dumps);
    if j == 1 {
      assert ind[..1] == [ind[0]];
    } else {
      LinesAreJoined(dumps, j - 1);
      assert ind[..j] == ind[..j - 1] + [ind[j - 1]];
      JoinSnoc(ind[..j - 1], ind[j - 1], ",\n");
    }
  }

  lemma SavedTextJoined(metadataText: string, dumps: seq<string>)
    requires dumps != []
    ensures SavedText(metadataText, dumps) == Envelope(metadataText, Join(Indented(dumps), ",\n") + "\n")
  {
    LinesAreJoined(dumps, |dumps|);
    assert Indented(dumps)[..|dumps|] == Indented(dumps);
  }

  function Dumps(tweets: seq<Json>, dump: Json -> string): (ds: seq<string>)
    ensures |ds| == |tweets| && forall i :: 0 <= i < |ds| ==> ds[i] == dump(tweets[i])
  {
    seq(|tweets|, i requires 0 <= i < |tweets| => dump(tweets[i]))
  }

  // ---------------------------------------------------------------
  // _estimate_size
  // ---------------------------------------------------------------

  /** The number of bytes `c` takes in UTF-8. */
  function Utf8CharLen(c: char): (n: nat)
    ensures 1 <= n <= 4
  {
    if c as int < 0x80 then 1
    else if c as int < 0x800 then 2
    else if c as int < 0x10000 then 3
    else 4
  }

  /** `len(s.encode('utf-8'))`. */
  function Utf8Len(s: string): (n: nat)
    ensures n >= |s|
  {
    if s == [] then 0 else Utf8Len(s[..|s| - 1]) + Utf8CharLen(s[|s| - 1])
  }

  /** The bytes of the first `k` tweets' compact dumps. */
  function SampleBytes(tweets: seq<Json>, dump: Json -> string, k: nat): nat
    requires k <= |tweets|
  {
    if k == 0 then 0 else SampleBytes(tweets, dump, k - 1) + Utf8Len(dump(tweets[k - 1]))
  }

  function Min(a: nat, b: nat): nat
  {
    if a <= b then a else b
  }

  /** The estimate: the mean size of the first (up to) ten tweets times the
      number of tweets, truncated. */
  function EstimatedSize(tweets: seq<Json>, dump: Json -> string): nat
  {
    var sample := Min(10, |tweets|);
    if sample == 0 then 0 else (SampleBytes(tweets, dump, sample) * |tweets|) / sample
  }

  lemma {:induction false} SampleBytesUniform(tweets: seq<Json>, dump: Json -> string, k: nat, b: nat)
    requires k <= |tweets|
    requires forall i :: 0 <= i < |tweets| ==> Utf8Len(dump(tweets[i])) == b
    ensures SampleBytes(tweets, dump, k) == k * b
    decreases k
  {
    if k > 0 {
      SampleBytesUniform(tweets, dump, k - 1, b);
      assert Utf8Len(dump(tweets[k - 1])) == b;
      MulSucc(k - 1, b);
    }
  }

  lemma MulSucc(k: nat, b: nat)
    ensures k * b + b == (k + 1) * b
  {
  }

  /** When every tweet has the same size the estimate is exact. */
  lemma EstimateUniform(tweets: seq<Json>, dump: Json -> string, b: nat)
    requires forall i :: 0 <= i < |tweets| ==> Utf8Len(dump(tweets[i])) == b
    ensures EstimatedSize(tweets, dump) == |tweets| * b
  {
    var sample := Min(10, |tweets|);
    if sample > 0 {
      SampleBytesUniform(tweets, dump, sample, b);
      var x := |tweets| * b;
      assert SampleBytes(tweets, dump, sample) * |tweets| == sample * x by {
        assert SampleBytes(tweets, dump, sample) == sample * b;
        MulRearrange(sample, b, |tweets|);
      }
      CancelFactor(sample, x);
    }
  }

  lemma MulRearrange(a: nat, b: nat, c: nat)
    ensures (a * b) * c == a * (c * b)
  {
  }

  lemma MulMonotone(a: nat, d: int)
    requires a > 0
    ensures d >= 1 ==> a * d >= a
    ensures d <= -1 ==> a * d + a <= 0
  {
    if d >= 1 {
      assert a * d == a * (d - 1) + a;
    } else if d <= -1 {
      assert a * d == a * (d + 1) - a;
    }
  }

  lemma CancelFactor(a: nat, x: nat)
    requires a > 0
    ensures (a * x) / a == x
  {
    var q := (a * x) / a;
    var r := (a * x) % a;
    assert a * x == a * q + r && 0 <= r < a;
    assert a * (x - q) == r by {
      assert a * (x - q) == a * x - a * q;
    }
    MulMonotone(a, x - q);
  }

  /** Up to ten tweets are all sampled, so the estimate is their total
      size. */
  lemma EstimateSmallIsTotal(tweets: seq<Json>, dump: Json -> string)
    requires |tweets| <= 10
    ensures EstimatedSize(tweets, dump) == SampleBytes(tweets, dump, |tweets|)
  {
    if |tweets| > 0 {
      var n, t := |tweets|, SampleBytes(tweets, dump, |tweets|);
      assert Min(10, n) == n;
      assert t * n == n * t;
      CancelFactor(n, t);
    }
  }

  /** `_estimate_size`. */
  method EstimateSize(tweets: seq<Json>, dump: Json -> string) returns (size: nat)
    ensures size == EstimatedSize(tweets, dump)
  {
    var sampleSize := Min(10, |tweets|);
    if sampleSize == 0 {
      return 0;
    }
    var totalSize := 0;
    for i := 0 to sampleSize
      invariant totalSize == SampleBytes(tweets, dump, i)
    {
      totalSize := totalSize + Utf8Len(dump(tweets[i]));
    }
    assert sampleSize == Min(10, |tweets|) && totalSize == SampleBytes(tweets, dump, sampleSize);
    size := (totalSize * |tweets|) / sampleSize;
  }

  // ---------------------------------------------------------------
  // _validate_config and load_category_configuration
  // ---------------------------------------------------------------

  function AllStrings(items: seq<Json>): bool
  {
    items == [] || (items[0].JStr? && AllStrings(items[1..]))
  }

  function ValidEntries(entries: Record): bool
  {
    entries == [] || (entries[0].1.JList? && AllStrings(entries[0].1.items) && ValidEntries(entries[1..]))
  }

  /** `_validate_config`: the loop returns False at the first category
      whose value is not a list, or the first id that is not a string. */
  function ValidateConfig(config: Json): bool
  {
    config.JObj? && ValidEntries(config.entries)
  }

  lemma {:induction false} AllStringsCharacterised(items: seq<Json>)
    ensures AllStrings(items) <==> forall k :: 0 <= k < |items| ==> items[k].JStr?
    decreases |items|
  {
    if items != [] {
      AllStringsCharacterised(items[1..]);
      assert forall k :: 1 <= k < |items| ==> items[k] == items[1..][k - 1];
    }
  }

  lemma {:induction false} ValidEntriesCharacterised(entries: Record)
    ensures ValidEntries(entries) <==>
      forall i :: 0 <= i < |entries| ==> entries[i].1.JList? && forall k :: 0 <= k < |entries[i].1.items| ==> entries[i].1.items[k].JStr?
    decreases |entries|
  {
    if entries != [] {
      ValidEntriesCharacterised(entries[1..]);
      if entries[0].1.JList? {
        AllStringsCharacterised(entries[0].1.items);
      }
      assert forall i :: 1 <= i < |entries| ==> entries[i] == entries[1..][i - 1];
    }
  }

  /** A configuration is valid exactly when it is a dict whose every value
      is a list of strings. */
  lemma ValidateConfigCharacterised(config: Json)
    ensures ValidateConfig(config) <==>
      config.JObj? && forall i :: 0 <= i < |config.entries| ==>
        config.entries[i].1.JList? && forall k :: 0 <= k < |config.entries[i].1.items| ==> config.entries[i].1.items[k].JStr?
  {
    if config.JObj? {
      ValidEntriesCharacterised(config.entries);
    }
  }

  /** What one call of `load_category_configuration` returns, the cache it
      leaves, and whether it warned that the format may be invalid. */
  datatype Loaded = Loaded(config: Json, cache: map<string, Json>, warned: bool)

  function LoadSpec(cache: map<string, Json>, file: string, fs: map<string, Content>): Loaded
  {
    if file in cache then Loaded(cache[file], cache, false)
    else match FileAt(fs, file)
      case None => Loaded(JObj([]), cache, false)
      case Some(Corrupt) => Loaded(JObj([]), cache, false)
      case Some(Parsed(j)) => Loaded(j, cache[file := j], !ValidateConfig(j))
  }

  /** A configuration is cached once it has been read: every later call
      returns it unchanged, whatever the file holds by then. A missing or
      undecodable file gives `{}` and caches nothing, so it is read again
      next time. */
  lemma LoadCaches(cache: map<string, Json>, file: string, fs: map<string, Content>, fs': map<string, Content>)
    ensures var l := LoadSpec(cache, file, fs);
      && (file in l.cache <==> file in cache || (file in fs && fs[file].Parsed?))
      && (file in l.cache ==> LoadSpec(l.cache, file, fs') == Loaded(l.config, l.cache, false))
      && (file !in l.cache ==> l.config == JObj([]) && l.cache == cache)
      && (forall f :: f != file ==> (f in l.cache <==> f in cache))
  {
  }

  /** A decoded configuration is returned and cached even when it fails
      validation; the only sign is the warning. */
  lemma LoadKeepsInvalid(cache: map<string, Json>, file: string, fs: map<string, Content>, j: Json)
    requires file !in cache && file in fs && fs[file] == Parsed(j)
    ensures LoadSpec(cache, file, fs) == Loaded(j, cache[file := j], !ValidateConfig(j))
  {
  }

  // ---------------------------------------------------------------
  // The handler
  // ---------------------------------------------------------------

  class FileHandler {
    const outputDir: string
    const startTime: real
    var configCache: map<string, Json>
    /** The text of every tweets file this handler wrote. */
    var written: map<string, string>

    /** `__init__`: `OUTPUT_DIR` from the environment, else the configured
        default; an empty cache. */
    constructor (env: map<string, string>, defaultOutputDir: string, startTime: real)
      ensures outputDir == (if "OUTPUT_DIR" in env then env["OUTPUT_DIR"] else defaultOutputDir)
      ensures this.startTime == startTime && configCache == map[] && written == map[]
    {
      outputDir := if "OUTPUT_DIR" in env then env["OUTPUT_DIR"] else defaultOutputDir;
      this.startTime := startTime;
      configCache := map[];
      written := map[];
    }

    /** `save_category_tweets`: nothing for an empty list; otherwise the
        file at the date folder's path, written line by line. */
    method SaveCategoryTweets(category: string, tweets: seq<Json>, env: map<string, string>, clock: Clock,
                              dumpMetadata: Json -> string, dumpTweet: Json -> string) returns (path: string)
      requires IsYmd(clock.yesterday)
      modifies this
      ensures configCache == old(configCache)
      ensures tweets == [] ==> path == "" && written == old(written)
      ensures tweets != [] ==>
                var folder := DateFolder(if "TARGET_DATE" in env then Some(env["TARGET_DATE"]) else None, clock.yesterday);
                var metadata := Metadata(category, |tweets|, Dashed(folder), clock, startTime);
                && path == TweetsPath(outputDir, folder, category)
                && written == old(written)[path := SavedText(dumpMetadata(metadata), Dumps(tweets, dumpTweet))]
    {
      if tweets == [] {
        return "";
      }
      var target := if "TARGET_DATE" in env then Some(env["TARGET_DATE"]) else None;
      var folder := clock.yesterday;
      if target.Some? && target.value != "" && IsYmd(target.value) {
        folder := target.value;
      }
      assert folder == DateFolder(target, clock.yesterday);
      var dateString := Dashed(folder);
      path := PathJoin(PathJoin(outputDir, folder), category + "_Tweets.json");
      var metadata := Metadata(category, |tweets|, dateString, clock, startTime);
      var lines := TweetLines(tweets, dumpTweet);
      written := written[path := Envelope(dumpMetadata(metadata), lines)];
    }

    /** The loop of `save_category_tweets` that writes one indented line
        per tweet, with a comma after all but the last. */
    static method TweetLines(tweets: seq<Json>, dumpTweet: Json -> string) returns (lines: string)
      ensures lines == LinesUpTo(Dumps(tweets, dumpTweet), |tweets|)
    {
      ghost var dumps := Dumps(tweets, dumpTweet);
      lines := "";
      for i := 0 to |tweets|
        invariant lines == LinesUpTo(dumps, i)
      {
        var tweetJson := dumpTweet(tweets[i]);
        if i < |tweets| - 1 {
          lines := lines + ("    " + tweetJson + ",\n");
        } else {
          lines := lines + ("    " + tweetJson + "\n");
        }
      }
    }

    /** `load_category_configuration` over the files `fs`. */
    method LoadCategoryConfiguration(file: string, fs: map<string, Content>) returns (config: Json, warned: bool)
      modifies this
      ensures Loaded(config, configCache, warned) == LoadSpec(old(configCache), file, fs)
      ensures written == old(written)
    {
      if file in configCache {
        return configCache[file], false;
      }
      if file !in fs {
        return JObj([]), false;
      }
      match fs[file]
      case Corrupt =>
        return JObj([]), false;
      case Parsed(j) =>
        configCache := configCache[file := j];
        var valid := ValidateConfig(j);
        return j, !valid;
    }
  }
}
