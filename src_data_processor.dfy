// src/processors/data_processor.py: the category pipeline. Raw files are
// named after their category, each category is deduplicated on its own
// (non-dict entries and id-less tweets are skipped, an id is marked seen
// before the tweet is validated), valid tweets are rebuilt into a fixed
// shape, and only categories with surviving tweets are written out.
// `normalize_text`, `is_valid_tweet`, `deduplicate`, `_remove_duplicates`
// and `clean_tweets` are the same code as in the root data_processor.py and
// are modelled once, in DataProcessor. `structure_output` differs from the
// root one in its key names (`categories_processed`, `categories`) and is
// modelled here.

module SrcDataProcessor {
  import opened Common
  import opened Dedup
  import opened DataProcessor

  /** Raw tweets of each category, in dict order: any JSON values. */
  type RawCategories = seq<(string, seq<Json>)>

  // ---------------------------------------------------------------
  // Loading the raw files
  // ---------------------------------------------------------------

  /** The category of a raw file: the stem before its first '_', or the
      whole stem when it has none. */
  function CategoryOf(stem: string): (r: string)
    ensures '_' !in r
    ensures '_' !in stem ==> r == stem
    ensures '_' in stem ==> StartsWith(stem, r + "_")
  {
    if '_' in stem then
      var p := FirstIndex(stem, '_');
      assert SplitOn(stem, '_')[0] == stem[..p];
      assert stem[..p + 1] == stem[..p] + "_";
      SplitOn(stem, '_')[0]
    else stem
  }

  /** The tweets a raw file contributes: the `tweets` list of an object, or
      the file itself when it is a list. Anything else, and a file that
      does not decode, is skipped. */
  function TweetsOfFile(c: Content): (r: Option<seq<Json>>)
    ensures r.Some? ==> c.Parsed?
    ensures c.Parsed? && c.json.JList? ==> r == Some(c.json.items)
    ensures r.Some? && !c.json.JList? ==>
      c.json.JObj? && Get(c.json.entries, "tweets") == Some(JList(r.value))
  {
    match c
    case Corrupt => None
    case Parsed(j) =>
      if j.JObj? && HasKey(j.entries, "tweets") && Field(j.entries, "tweets").JList? then
        Some(Field(j.entries, "tweets").items)
      else if j.JList? then Some(j.items)
      else None
  }

  /** `_load_raw_tweets` over the date directory's `.json` files, given as
      (stem, contents) in listing order: a later file of the same category
      replaces the earlier one's tweets in place. */
  function LoadSpec(files: seq<(string, Content)>): RawCategories
  {
    if files == [] then []
    else
      var prefix := LoadSpec(files[..|files| - 1]);
      var f := files[|files| - 1];
      match TweetsOfFile(f.1)
      case None => prefix
      case Some(ts) => Set(prefix, CategoryOf(f.0), ts)
  }

  /** Reference definition, category by category: the tweets of the last
      loadable file of that category. */
  function LastLoaded(files: seq<(string, Content)>, category: string): Option<seq<Json>>
  {
    if files == [] then None
    else
      var f := files[|files| - 1];
      if CategoryOf(f.0) == category && TweetsOfFile(f.1).Some? then TweetsOfFile(f.1)
      else LastLoaded(files[..|files| - 1], category)
  }

  /** Each category of the loaded dict holds the tweets of its last loadable
      file, and categories with no loadable file are absent. */
  lemma {:induction false} LoadSpecIsLastLoaded(files: seq<(string, Content)>, category: string)
    ensures Get(LoadSpec(files), category) == LastLoaded(files, category)
  {
    if files != [] {
      var p := files[..|files| - 1];
      var f := files[|files| - 1];
      LoadSpecIsLastLoaded(p, category);
      match TweetsOfFile(f.1)
      case None =>
      case Some(ts) =>
        if CategoryOf(f.0) == category {
          GetSetSame(LoadSpec(p), category, ts);
        } else {
          GetSetOther(LoadSpec(p), CategoryOf(f.0), ts, category);
        }
    }
  }

  /** The loaded dict never repeats a category. */
  lemma {:induction false} LoadSpecDistinct(files: seq<(string, Content)>)
    ensures DistinctKeys(LoadSpec(files))
  {
    if files != [] {
      var p := files[..|files| - 1];
      var f := files[|files| - 1];
      LoadSpecDistinct(p);
      match TweetsOfFile(f.1)
      case None =>
      case Some(ts) =>
        SetKeepsDistinct(LoadSpec(p), CategoryOf(f.0), ts);
    }
  }

  lemma SetKeepsDistinct<V>(entries: seq<(string, V)>, k: string, v: V)
    requires DistinctKeys(entries)
    ensures DistinctKeys(Set(entries, k, v))
  {
    var r := Set(entries, k, v);
    if HasKey(entries, k) {
      SameKeysDistinct(entries, r);
    } else {
      assert r == entries + [(k, v)];
    }
  }

  /** The loop of `_load_raw_tweets`. */
  method LoadRawTweets(files: seq<(string, Content)>) returns (columns: RawCategories)
    ensures columns == LoadSpec(files)
  {
    columns := [];
    var i := 0;
    while i < |files|
      invariant 0 <= i <= |files|
      invariant columns == LoadSpec(files[..i])
    {
      assert files[..i + 1][..i] == files[..i];
      assert files[..i + 1][i] == files[i];
      var tweets := TweetsOfFile(files[i].1);
      if tweets.Some? {
        columns := Set(columns, CategoryOf(files[i].0), tweets.value);
      }
      i := i + 1;
    }
    assert files[..|files|] == files;
  }

  // ---------------------------------------------------------------
  // _is_valid_tweet and _normalize_tweet
  // ---------------------------------------------------------------

  const RETWEET_PREFIX := "RT @"

  /** `_is_valid_tweet` on a dict: both `id` and `text` keys present, a
      string text of at least two words, and no "RT @" prefix unless the
      tweet is flagged as a repost. A text without `split` (not a string)
      raises inside the `try` and yields False. */
  predicate IsValidSrcTweet(t: Record)
  {
    && HasKey(t, "id") && HasKey(t, "text")
    && Field(t, "text").JStr?
    && |Words(Field(t, "text").s)| >= MIN_WORDS
    && !(StartsWith(Field(t, "text").s, RETWEET_PREFIX) && !Truthy(GetOr(t, "is_repost", JBool(false))))
  }

  /** The author handle `_normalize_tweet` keeps: `author_handle`, falling
      back to `authorHandle`, falling back to "". */
  function AuthorHandle(t: Record): (r: Json)
    ensures HasKey(t, "author_handle") ==> Get(t, "author_handle") == Some(r)
    ensures !HasKey(t, "author_handle") && HasKey(t, "authorHandle") ==> Get(t, "authorHandle") == Some(r)
    ensures !HasKey(t, "author_handle") && !HasKey(t, "authorHandle") ==> r == JStr("")
  {
    GetOr(t, "author_handle", GetOr(t, "authorHandle", JStr("")))
  }

  /** The `quotedContent` object built from a quoted tweet. */
  function QuotedShape(q: Record): Record
  {
    [("id", GetOr(q, "id", JStr(""))), ("text", GetOr(q, "text", JStr(""))),
     ("authorHandle", AuthorHandle(q)), ("url", GetOr(q, "url", JStr("")))]
  }

  const NORMALIZED_KEYS: seq<string> :=
    ["id", "text", "authorHandle", "url", "processed_at", "is_repost", "is_quote_tweet"]

  /** The seven fixed fields of a normalised tweet, in `_normalize_tweet`'s
      key order. */
  function BaseShape(t: Record, text: Json, now: string): (r: Record)
    ensures |r| == 7 && Keys(r) == NORMALIZED_KEYS
    ensures r[0].1 == GetOr(t, "id", JStr("")) && r[1].1 == text
    ensures r[2].1 == AuthorHandle(t) && r[4].1 == JStr(now)
  {
    [("id", GetOr(t, "id", JStr(""))), ("text", text), ("authorHandle", AuthorHandle(t)),
     ("url", GetOr(t, "url", JStr(""))), ("processed_at", JStr(now)),
     ("is_repost", GetOr(t, "is_repost", JBool(false))),
     ("is_quote_tweet", GetOr(t, "is_quote_tweet", JBool(false)))]
  }

  /** Whether `_normalize_tweet` raises: a truthy quoted value that is not a
      dict, or a truthy text that is not a string. */
  predicate NormalizeRaises(t: Record)
  {
    || (Truthy(Field(t, "quoted_content")) && !Field(t, "quoted_content").JObj?)
    || (Truthy(GetOr(t, "text", JStr(""))) && !GetOr(t, "text", JStr("")).JStr?)
  }

  /** `_normalize_tweet`: the fixed shape, with `quotedContent` when the
      quoted tweet is truthy; `None` when it raises. */
  function NormalizeTweet(t: Record, now: string): (r: Option<Record>)
    ensures r.None? <==> NormalizeRaises(t)
    ensures r.Some? ==>
      Keys(r.value) == NORMALIZED_KEYS + (if Truthy(Field(t, "quoted_content")) then ["quotedContent"] else [])
    ensures r.Some? ==> r.value[0].1 == GetOr(t, "id", JStr(""))
    ensures r.Some? ==> r.value[2].1 == AuthorHandle(t) && r.value[4].1 == JStr(now)
    ensures r.Some? && HasKey(t, "text") && Field(t, "text").JStr? && Field(t, "text").s != [] ==>
      r.value[1].1 == JStr(NormalizeText(Field(t, "text").s))
  {
    var text := GetOr(t, "text", JStr(""));
    var quoted := Field(t, "quoted_content");
    if Truthy(quoted) && !quoted.JObj? then None
    else if Truthy(text) && !text.JStr? then None
    else
      var base := BaseShape(t, if Truthy(text) then JStr(NormalizeText(text.s)) else text, now);
      if Truthy(quoted) then
        var full := base + [("quotedContent", JObj(QuotedShape(quoted.entries)))];
        KeysAppend(base, [("quotedContent", JObj(QuotedShape(quoted.entries)))]);
        Some(full)
      else Some(base)
  }

  /** What the category loop makes of a first-seen dict tweet. */
  function SrcStep(t: Record, now: string): Option<Record>
  {
    if IsValidSrcTweet(t) then NormalizeTweet(t, now) else None
  }

  function StepAt(now: string): Record -> Option<Record>
  {
    t => SrcStep(t, now)
  }

  // ---------------------------------------------------------------
  // _process_raw_tweets
  // ---------------------------------------------------------------

  /** The dict entries of a raw list, in order; other values are skipped. */
  function Dicts(ts: seq<Json>): (r: seq<Record>)
    ensures |r| <= |ts|
  {
    if ts == [] then []
    else Dicts(ts[..|ts| - 1]) + (if ts[|ts| - 1].JObj? then [ts[|ts| - 1].entries] else [])
  }

  /** One category: skip non-dicts and falsy ids, keep the first dict with
      each id, and of those the valid ones that normalise. */
  function ProcessCategory(ts: seq<Json>, now: string): seq<Record>
  {
    FilterMap(KeepFirst(Dicts(ts), "id", true, {}), StepAt(now))
  }

  /** One step of the category loop: a dict with a truthy id not seen so
      far is marked seen and, when valid and normalisable, kept. */
  lemma ProcessCategorySnoc(ts: seq<Json>, i: nat, now: string)
    requires i < |ts|
    ensures var seen := SeenAfter(Dicts(ts[..i]), "id", true, {});
      var isNew := ts[i].JObj? && Truthy(KeyOf(ts[i].entries, "id")) && KeyOf(ts[i].entries, "id") !in seen;
      && SeenAfter(Dicts(ts[..i + 1]), "id", true, {})
         == (if isNew then seen + {KeyOf(ts[i].entries, "id")} else seen)
      && ProcessCategory(ts[..i + 1], now) == ProcessCategory(ts[..i], now)
         + (if isNew && SrcStep(ts[i].entries, now).Some? then [SrcStep(ts[i].entries, now).value] else [])
  {
    DictsSnoc(ts, i);
    var d := Dicts(ts[..i]);
    if ts[i].JObj? {
      var t := ts[i].entries;
      assert Dicts(ts[..i + 1]) == d + [t];
      SeenStep(d, t);
      KeptStep(d, t, now);
    } else {
      assert Dicts(ts[..i + 1]) == d;
    }
  }

  lemma DictsSnoc(ts: seq<Json>, i: nat)
    requires i < |ts|
    ensures Dicts(ts[..i + 1]) == Dicts(ts[..i]) + (if ts[i].JObj? then [ts[i].entries] else [])
  {
    assert ts[..i + 1][..i] == ts[..i];
    assert ts[..i + 1][i] == ts[i];
  }

  /** Appending one dict marks its id seen when it is truthy. */
  lemma SeenStep(d: seq<Record>, t: Record)
    ensures var seen := SeenAfter(d, "id", true, {});
      SeenAfter(d + [t], "id", true, {})
      == (if Truthy(KeyOf(t, "id")) && KeyOf(t, "id") !in seen then seen + {KeyOf(t, "id")} else seen)
  {
    assert (d + [t])[..|d|] == d;
  }

  /** Appending one dict keeps it, normalised, exactly when its id is truthy
      and new and the dict is valid and normalises. */
  lemma KeptStep(d: seq<Record>, t: Record, now: string)
    ensures var seen := SeenAfter(d, "id", true, {});
      var isNew := Truthy(KeyOf(t, "id")) && KeyOf(t, "id") !in seen;
      FilterMap(KeepFirst(d + [t], "id", true, {}), StepAt(now)) == FilterMap(KeepFirst(d, "id", true, {}), StepAt(now))
         + (if isNew && SrcStep(t, now).Some? then [SrcStep(t, now).value] else [])
  {
    var seen := SeenAfter(d, "id", true, {});
    KeepFirstAppend(d, [t], "id", true, {});
    var k := KeepFirst([t], "id", true, seen);
    FilterMapAppend(KeepFirst(d, "id", true, {}), k, StepAt(now));
    KeepFirstSingle(t, seen);
    FilterMapSingle(t, StepAt(now));
  }

  /** A lone dict is kept exactly when its id is truthy and not yet seen. */
  lemma KeepFirstSingle(t: Record, seen: set<Json>)
    ensures KeepFirst([t], "id", true, seen)
         == if Truthy(KeyOf(t, "id")) && KeyOf(t, "id") !in seen then [t] else []
  {
    assert [t][..0] == [];
    if Truthy(KeyOf(t, "id")) && KeyOf(t, "id") !in seen {
      assert FirstOccurrence([t], "id", true, seen, 0);
    } else {
      assert !FirstOccurrence([t], "id", true, seen, 0);
    }
  }

  /** The inner loop of `_process_raw_tweets`, over one category. */
  method ProcessCategoryLoop(ts: seq<Json>, now: string) returns (unique: seq<Record>)
    ensures unique == ProcessCategory(ts, now)
  {
    var seen: set<Json> := {};
    unique := [];
    var i := 0;
    while i < |ts|
      invariant 0 <= i <= |ts|
      invariant seen == SeenAfter(Dicts(ts[..i]), "id", true, {})
      invariant unique == ProcessCategory(ts[..i], now)
    {
      ProcessCategorySnoc(ts, i, now);
      if ts[i].JObj? {
        var t := ts[i].entries;
        var id := KeyOf(t, "id");
        if Truthy(id) && id !in seen {
          seen := seen + {id};
          if IsValidSrcTweet(t) {
            var n := NormalizeTweet(t, now);
            if n.Some? {
              unique := unique + [n.value];
            }
          }
        }
      }
      i := i + 1;
    }
    assert ts[..|ts|] == ts;
  }

  /** The id is marked seen before the tweet is validated: when the first
      copy of an id is invalid, a later valid copy is dropped too. */
  lemma SeenBeforeValidation(a: Record, b: Record, now: string)
    requires Truthy(KeyOf(a, "id")) && KeyOf(a, "id") == KeyOf(b, "id")
    requires !IsValidSrcTweet(a)
    ensures ProcessCategory([JObj(a), JObj(b)], now) == []
  {
    var ts := [JObj(a), JObj(b)];
    assert ts[..1] == [JObj(a)] && [JObj(a)][..0] == [];
    assert Dicts(ts) == [a, b];
    SameKeyPairKeepsFirst(a, b, "id");
    assert StepAt(now)(a).None?;
    assert [a][..0] == [];
  }

  /** Everything a category keeps is a normalised valid dict tweet with a
      truthy id, no two share an id field, and the category never grows. */
  lemma ProcessCategorySound(ts: seq<Json>, now: string)
    ensures |ProcessCategory(ts, now)| <= |ts|
    ensures forall i :: 0 <= i < |ProcessCategory(ts, now)| ==>
      IsImage(KeepFirst(Dicts(ts), "id", true, {}), StepAt(now), ProcessCategory(ts, now)[i])
    ensures KeysDistinct(ProcessCategory(ts, now), "id")
  {
    var u := KeepFirst(Dicts(ts), "id", true, {});
    KeepFirstSound(Dicts(ts), "id", true, {});
    FilterMapSound(u, StepAt(now));
    KeepFirstDistinct(Dicts(ts), "id", true, {});
    var key := (t: Record) => KeyOf(t, "id");
    forall t | StepAt(now)(t).Some?
      ensures key(StepAt(now)(t).value) == key(t)
    {
      NormalizeKeepsIdField(t, now);
    }
    FilterMapKeepsDistinct(u, StepAt(now), key, key);
  }

  /** `_normalize_tweet` copies the id field. */
  lemma NormalizeKeepsIdField(t: Record, now: string)
    requires HasKey(t, "id") && NormalizeTweet(t, now).Some?
    ensures KeyOf(NormalizeTweet(t, now).value, "id") == KeyOf(t, "id")
  {
    var r := NormalizeTweet(t, now).value;
    assert r[0].0 == "id";
    assert Get(r, "id") == Some(r[0].1);
    assert GetOr(t, "id", JStr("")) == Get(t, "id").value;
  }

  /** The record `_process_raw_tweets` returns (metadata and body). */
  datatype SrcProcessed = SrcProcessed(processedAt: string, categoriesProcessed: nat,
                                       totalTweets: nat, categories: Columns)

  /** Categories with surviving tweets, assigned in dict order. */
  function CategoriesSpec(raw: RawCategories, now: string): Columns
  {
    if raw == [] then []
    else
      var prefix := CategoriesSpec(raw[..|raw| - 1], now);
      var c := raw[|raw| - 1];
      var kept := ProcessCategory(c.1, now);
      if kept == [] then prefix else Set(prefix, c.0, kept)
  }

  /** The running `total_tweets` counter. */
  function TotalSpec(raw: RawCategories, now: string): nat
  {
    if raw == [] then 0
    else TotalSpec(raw[..|raw| - 1], now) + |ProcessCategory(raw[|raw| - 1].1, now)|
  }

  function ProcessRawTweetsSpec(raw: RawCategories, now: string): SrcProcessed
  {
    var cats := CategoriesSpec(raw, now);
    SrcProcessed(now, |cats|, TotalSpec(raw, now), cats)
  }

  /** `structure_output`: the categories under `categories`, their number
      as `categories_processed` and their tweet count as `total_tweets`. */
  function StructureOutput(categories: Columns, now: string): (r: SrcProcessed)
    ensures r.categories == categories && r.processedAt == now
    ensures r.categoriesProcessed == |categories|
    ensures r.totalTweets == |Flatten(Values(categories))|
  {
    TotalIsFlattenLength(categories);
    SrcProcessed(now, |categories|, Sum(ColumnLengths(categories)), categories)
  }

  /** For a dict of categories, the record `_process_raw_tweets` builds by
      counting as it goes is the one `structure_output` builds from its
      categories. */
  lemma ProcessedIsStructured(raw: RawCategories, now: string)
    requires DistinctKeys(raw)
    ensures ProcessRawTweetsSpec(raw, now) == StructureOutput(CategoriesSpec(raw, now), now)
  {
    ProcessRawTweetsCharacterised(raw, now);
  }

  /** One step of the outer loop: a category adds its surviving tweets to
      the counter and, when there are any, its entry. */
  lemma RawSnoc(raw: RawCategories, i: nat, now: string, cats: Columns, total: nat, kept: seq<Record>)
    requires i < |raw|
    requires cats == CategoriesSpec(raw[..i], now) && total == TotalSpec(raw[..i], now)
    requires kept == ProcessCategory(raw[i].1, now)
    ensures CategoriesSpec(raw[..i + 1], now) == (if kept == [] then cats else Set(cats, raw[i].0, kept))
    ensures TotalSpec(raw[..i + 1], now) == total + |kept|
  {
    assert raw[..i + 1][..i] == raw[..i];
    assert raw[..i + 1][i] == raw[i];
  }

  /** The outer loop of `_process_raw_tweets`, with the final metadata. */
  method ProcessRawTweets(raw: RawCategories, now: string) returns (r: SrcProcessed)
    ensures r == ProcessRawTweetsSpec(raw, now)
  {
    var cats: Columns := [];
    var total: nat := 0;
    var i := 0;
    while i < |raw|
      invariant 0 <= i <= |raw|
      invariant cats == CategoriesSpec(raw[..i], now)
      invariant total == TotalSpec(raw[..i], now)
    {
      var unique := ProcessCategoryLoop(raw[i].1, now);
      RawSnoc(raw, i, now, cats, total, unique);
      if unique != [] {
        cats := Set(cats, raw[i].0, unique);
        total := total + |unique|;
      }
      i := i + 1;
    }
    assert raw[..|raw|] == raw;
    r := SrcProcessed(now, |cats|, total, cats);
  }

  /** For a dict of categories (no repeated key), only categories with
      surviving tweets are output, in input order, and `total_tweets` is the
      number of tweets output. */
  lemma {:induction false} ProcessRawTweetsCharacterised(raw: RawCategories, now: string)
    requires DistinctKeys(raw)
    ensures var out := ProcessRawTweetsSpec(raw, now);
      && out.totalTweets == |Flatten(Values(out.categories))|
      && out.categoriesProcessed == |out.categories|
      && (forall i :: 0 <= i < |out.categories| ==> out.categories[i].1 != [])
      && (forall k :: HasKey(out.categories, k) ==> HasKey(raw, k))
  {
    CategoriesFromRaw(raw, now);
    CategoriesCounted(raw, now);
  }

  /** Every output category is a key of the input. */
  lemma {:induction false} CategoriesFromRaw(raw: RawCategories, now: string)
    ensures forall k :: HasKey(CategoriesSpec(raw, now), k) ==> HasKey(raw, k)
  {
    if raw != [] {
      var p := raw[..|raw| - 1];
      var c := raw[|raw| - 1];
      CategoriesFromRaw(p, now);
      var prefix := CategoriesSpec(p, now);
      var kept := ProcessCategory(c.1, now);
      forall k | HasKey(CategoriesSpec(raw, now), k) ensures HasKey(raw, k) {
        if kept != [] {
          SetHasKey(prefix, c.0, kept, k);
        }
        if k == c.0 {
          assert raw[|raw| - 1].0 == k;
        } else {
          assert HasKey(p, k);
          var j :| 0 <= j < |p| && p[j].0 == k;
          assert raw[j] == p[j];
        }
      }
    }
  }

  /** With no repeated input key, each surviving category is appended, so
      the counter is the number of tweets output and every output category
      is non-empty. */
  lemma {:induction false} CategoriesCounted(raw: RawCategories, now: string)
    requires DistinctKeys(raw)
    ensures var cats := CategoriesSpec(raw, now);
      && TotalSpec(raw, now) == |Flatten(Values(cats))|
      && (forall i :: 0 <= i < |cats| ==> cats[i].1 != [])
  {
    if raw != [] {
      var p := raw[..|raw| - 1];
      var c := raw[|raw| - 1];
      assert DistinctKeys(p) by {
        forall i, j | 0 <= i < j < |p| ensures p[i].0 != p[j].0 {
          assert p[i] == raw[i] && p[j] == raw[j];
        }
      }
      CategoriesCounted(p, now);
      var kept := ProcessCategory(c.1, now);
      assert !HasKey(CategoriesSpec(p, now), c.0) by {
        assert !HasKey(p, c.0) by {
          forall j | 0 <= j < |p| ensures p[j].0 != c.0 {
            assert p[j] == raw[j];
          }
        }
        CategoriesFromRaw(p, now);
      }
      CountedStep(CategoriesSpec(p, now), TotalSpec(p, now), c.0, kept, CategoriesSpec(raw, now), TotalSpec(raw, now));
    }
  }

  /** The counted invariant survives one more category under a new key. */
  lemma CountedStep(prefix: Columns, total: nat, key: string, kept: seq<Record>, next: Columns, nextTotal: nat)
    requires total == |Flatten(Values(prefix))| && forall i :: 0 <= i < |prefix| ==> prefix[i].1 != []
    requires !HasKey(prefix, key)
    requires next == (if kept == [] then prefix else Set(prefix, key, kept)) && nextTotal == total + |kept|
    ensures nextTotal == |Flatten(Values(next))| && forall i :: 0 <= i < |next| ==> next[i].1 != []
  {
    if kept != [] {
      AppendNewCategory(prefix, key, kept);
      AppendNonEmpty(prefix, key, kept);
    }
  }

  lemma AppendNonEmpty(prefix: Columns, key: string, kept: seq<Record>)
    requires forall i :: 0 <= i < |prefix| ==> prefix[i].1 != []
    requires kept != []
    ensures forall i :: 0 <= i < |prefix + [(key, kept)]| ==> (prefix + [(key, kept)])[i].1 != []
  {
    var next := prefix + [(key, kept)];
    forall i | 0 <= i < |next| ensures next[i].1 != [] {
      if i < |prefix| {
        assert next[i] == prefix[i];
      } else {
        assert next[i] == (key, kept);
      }
    }
  }

  /** Setting a new key appends its entry, and the flattened values grow by
      that entry's tweets. */
  lemma AppendNewCategory(prefix: Columns, key: string, kept: seq<Record>)
    requires !HasKey(prefix, key)
    ensures var cats := Set(prefix, key, kept);
      && cats == prefix + [(key, kept)]
      && |Flatten(Values(cats))| == |Flatten(Values(prefix))| + |kept|
  {
    var cats := Set(prefix, key, kept);
    assert cats == prefix + [(key, kept)];
    assert Values(cats) == Values(prefix) + [kept];
    FlattenAppend(Values(prefix), [kept]);
    assert Flatten([kept]) == kept + Flatten([kept][1..]);
    assert [kept][1..] == [];
  }

  // ---------------------------------------------------------------
  // process_tweets and _save_processed_tweets
  // ---------------------------------------------------------------

  const PROCESSED_DIR := "data/processed"

  /** The combined file `_save_processed_tweets` writes for a date. */
  function ProcessedFile(date: string): string
  {
    PROCESSED_DIR + "/" + date + ".json"
  }

  /** The per-category file written beside it. */
  function CategoryFile(date: string, category: string): string
  {
    PROCESSED_DIR + "/" + date + "_categories/" + category + ".json"
  }

  /** What `process_tweets` returns: 0 when the raw date directory is
      missing or yields no category, otherwise the total after processing. */
  function ProcessTweetsCount(dirExists: bool, files: seq<(string, Content)>, now: string): (n: nat)
    ensures !dirExists ==> n == 0
    ensures dirExists && LoadSpec(files) != [] ==>
      n == |Flatten(Values(ProcessRawTweetsSpec(LoadSpec(files), now).categories))|
  {
    if !dirExists then 0
    else
      var raw := LoadSpec(files);
      if raw == [] then 0
      else
        LoadSpecDistinct(files);
        ProcessRawTweetsCharacterised(raw, now);
        ProcessRawTweetsSpec(raw, now).totalTweets
  }
}
