// data_processor.py (the column pipeline) and the members it shares verbatim
// with src/processors/data_processor.py: text normalisation, the word-count
// validity rules, cross-column deduplication, cleaning and the structured
// output. Raw column files arrive as a directory listing; `now` is the
// `processed_at` timestamp.

module DataProcessor {
  import opened Common
  import opened Dedup

  const MIN_WORDS: nat := 2

  /** A dict from column (or category) name to its tweets, in dict order. */
  type Columns = seq<(string, seq<Record>)>

  // ---------------------------------------------------------------
  // normalize_text
  // ---------------------------------------------------------------

  /** `str.isprintable()` on one character: control characters, the
      separators other than the plain space, and the invisible format
      characters are not printable. */
  predicate IsPrintable(c: char)
  {
    && !(c < ' ')
    && !('\U{7f}' <= c <= '\U{a0}')
    && !(IsSpace(c) && c != ' ')
    && c != '\U{ad}'
    && !('\U{200b}' <= c <= '\U{200f}')
    && !('\U{202a}' <= c <= '\U{202e}')
    && !('\U{2060}' <= c <= '\U{2064}')
    && c != '\U{feff}'
  }

  const ELLIPSIS: char := '\U{2026}'
  const EN_DASH: char := '\U{2013}'
  const EM_DASH: char := '\U{2014}'

  /** A character `normalize_text` may leave in its result. */
  predicate CleanChar(c: char)
  {
    IsPrintable(c) && c != ELLIPSIS && c != EN_DASH && c != EM_DASH && (IsSpace(c) ==> c == ' ')
  }

  /** `re.sub(r'\s+', ' ', s)`. */
  function CollapseWhitespace(s: string): (r: string)
    ensures (r == []) == (s == [])
    ensures r != [] ==> (r[0] == ' ' <==> IsSpace(s[0]))
    ensures forall i :: 0 <= i < |r| ==> r[i] == ' ' || (!IsSpace(r[i]) && r[i] in s)
    ensures forall i :: 0 <= i < |r| - 1 ==> !(r[i] == ' ' && r[i + 1] == ' ')
    decreases |s|
  {
    if s == [] then []
    else if IsSpace(s[0]) then
      var t := LStrip(s);
      SuffixChars(s, t);
      " " + CollapseWhitespace(t)
    else
      [s[0]] + CollapseWhitespace(s[1..])
  }

  /** Stripping leading whitespace off a string that starts with some
      leaves a shorter string made of its characters. */
  lemma SuffixChars(s: string, t: string)
    requires s != [] && IsSpace(s[0]) && t == LStrip(s)
    ensures |t| < |s|
    ensures forall c :: c in t ==> c in s
  {
    assert t == LStrip(s[1..]);
    LStripSuffix(s);
    SuffixIn(s, t);
  }

  lemma SuffixIn(s: string, t: string)
    requires |t| <= |s| && t == s[|s| - |t|..]
    ensures forall c :: c in t ==> c in s
  {
    forall c | c in t ensures c in s {
      var i :| 0 <= i < |t| && t[i] == c;
      assert s[|s| - |t| + i] == c;
    }
  }

  /** `''.join(c for c in s if c.isprintable())`. */
  function DropUnprintable(s: string): (r: string)
    ensures forall i :: 0 <= i < |r| ==> IsPrintable(r[i]) && r[i] in s
  {
    if s == [] then []
    else (if IsPrintable(s[0]) then [s[0]] else []) + DropUnprintable(s[1..])
  }

  /** `s.replace(c, repl)` for a one-character target. */
  function ReplaceChar(s: string, c: char, repl: string): (r: string)
    ensures forall i :: 0 <= i < |r| ==> (r[i] in s && r[i] != c) || r[i] in repl
  {
    if s == [] then []
    else (if s[0] == c then repl else [s[0]]) + ReplaceChar(s[1..], c, repl)
  }

  /** Length of a match of `http[s]?://\S+` at the start of `s`, 0 if none. */
  function UrlMatchLen(s: string): (n: nat)
    ensures n <= |s|
  {
    if StartsWith(s, "https://") && |s| > 8 && !IsSpace(s[8]) then 8 + WordPrefix(s[8..])
    else if StartsWith(s, "http://") && |s| > 7 && !IsSpace(s[7]) then 7 + WordPrefix(s[7..])
    else 0
  }

  /** `re.sub(r'http[s]?://\S+', '', s)`: scanning left to right, every
      match is deleted. */
  function RemoveUrls(s: string): string
    decreases |s|
  {
    if s == [] then []
    else
      var n := UrlMatchLen(s);
      if n > 0 then RemoveUrls(s[n..])
      else [s[0]] + RemoveUrls(s[1..])
  }

  /** Deleting URLs keeps only characters of the input. */
  lemma {:induction false} RemoveUrlsIn(s: string)
    ensures forall i :: 0 <= i < |RemoveUrls(s)| ==> RemoveUrls(s)[i] in s
    decreases |s|
  {
    if s != [] {
      var n := UrlMatchLen(s);
      var r := RemoveUrls(s);
      if n > 0 {
        RemoveUrlsIn(s[n..]);
        assert r == RemoveUrls(s[n..]);
        forall i | 0 <= i < |r| ensures r[i] in s {
          assert r[i] in s[n..];
          var j :| 0 <= j < |s[n..]| && s[n..][j] == r[i];
          assert s[n + j] == r[i];
        }
      } else {
        RemoveUrlsIn(s[1..]);
        assert r == [s[0]] + RemoveUrls(s[1..]);
        forall i | 0 <= i < |r| ensures r[i] in s {
          if i > 0 {
            assert r[i] == RemoveUrls(s[1..])[i - 1];
            var j :| 0 <= j < |s[1..]| && s[1..][j] == r[i];
            assert s[1 + j] == r[i];
          }
        }
      }
    }
  }

  /** `normalize_text`: falsy text is returned as is; otherwise whitespace
      runs collapse, unprintable characters go, the ellipsis and the dashes
      are spelled in ASCII, URLs are deleted and the result is stripped. */
  function NormalizeText(s: string): (r: string)
    ensures s == [] ==> r == []
    ensures forall i :: 0 <= i < |r| ==> CleanChar(r[i])
    ensures r == [] || (!IsSpace(r[0]) && !IsSpace(r[|r| - 1]))
  {
    if s == [] then s
    else
      PipelineClean(s);
      Pipeline(s)
  }

  /** Text `normalize_text` has nothing to do to: clean characters, no
      run of spaces, no URL, and no whitespace at either end. */
  predicate Normal(s: string)
  {
    && (forall i :: 0 <= i < |s| ==> CleanChar(s[i]))
    && (forall i :: 0 <= i < |s| - 1 ==> !(s[i] == ' ' && s[i + 1] == ' '))
    && (forall i :: 0 <= i < |s| ==> UrlMatchLen(s[i..]) == 0)
    && (s == [] || (!IsSpace(s[0]) && !IsSpace(s[|s| - 1])))
  }

  /** Normalising leaves text that is already normal unchanged. */
  lemma NormalizeKeepsNormal(s: string)
    requires Normal(s)
    ensures NormalizeText(s) == s
  {
    if s != [] {
      CollapseKeeps(s);
      DropKeeps(s);
      ReplaceCharKeeps(s, ELLIPSIS, "...");
      ReplaceCharKeeps(s, EN_DASH, "-");
      ReplaceCharKeeps(s, EM_DASH, "-");
      RemoveUrlsKeeps(s);
      assert LStrip(s) == s && RStrip(s) == s;
    }
  }

  /** A lone leading space is kept as it is. */
  lemma CollapseSpaceStep(s: string)
    requires s != [] && IsSpace(s[0])
    requires |s| == 1 || !IsSpace(s[1])
    ensures CollapseWhitespace(s) == " " + CollapseWhitespace(s[1..])
  {
    assert LStrip(s) == LStrip(s[1..]);
    assert LStrip(s[1..]) == s[1..];
  }

  /** Every whitespace character is a plain space and no two are adjacent. */
  predicate SingleSpaced(s: string)
  {
    && (forall i :: 0 <= i < |s| ==> (IsSpace(s[i]) ==> s[i] == ' '))
    && (forall i :: 0 <= i < |s| - 1 ==> !(s[i] == ' ' && s[i + 1] == ' '))
  }

  lemma SingleSpacedTail(s: string)
    requires s != [] && SingleSpaced(s)
    ensures SingleSpaced(s[1..])
    ensures IsSpace(s[0]) ==> |s| == 1 || !IsSpace(s[1])
  {
    var t := s[1..];
    assert forall i :: 0 <= i < |t| ==> t[i] == s[i + 1];
  }

  /** On single-spaced text, collapsing copies the first character and
      goes on with the rest. */
  lemma CollapseStep(s: string)
    requires s != [] && SingleSpaced(s)
    ensures CollapseWhitespace(s) == [s[0]] + CollapseWhitespace(s[1..])
  {
    if IsSpace(s[0]) {
      SingleSpacedTail(s);
      CollapseSpaceStep(s);
    }
  }

  lemma {:induction false} CollapseKeeps(s: string)
    requires SingleSpaced(s)
    ensures CollapseWhitespace(s) == s
    decreases |s|
  {
    if s != [] {
      SingleSpacedTail(s);
      CollapseKeeps(s[1..]);
      CollapseStep(s);
    }
  }

  lemma {:induction false} DropKeeps(s: string)
    requires forall i :: 0 <= i < |s| ==> IsPrintable(s[i])
    ensures DropUnprintable(s) == s
    decreases |s|
  {
    if s != [] {
      DropKeeps(s[1..]);
      assert s == [s[0]] + s[1..];
    }
  }

  lemma {:induction false} ReplaceCharKeeps(s: string, c: char, repl: string)
    requires forall i :: 0 <= i < |s| ==> s[i] != c
    ensures ReplaceChar(s, c, repl) == s
    decreases |s|
  {
    if s != [] {
      ReplaceCharKeeps(s[1..], c, repl);
      assert s == [s[0]] + s[1..];
    }
  }

  lemma {:induction false} RemoveUrlsKeeps(s: string)
    requires forall i :: 0 <= i < |s| ==> UrlMatchLen(s[i..]) == 0
    ensures RemoveUrls(s) == s
    decreases |s|
  {
    if s != [] {
      assert s[0..] == s;
      forall i | 0 <= i < |s[1..]| ensures UrlMatchLen(s[1..][i..]) == 0 {
        assert s[1..][i..] == s[i + 1..];
      }
      RemoveUrlsKeeps(s[1..]);
      assert s == [s[0]] + s[1..];
    }
  }

  /** The five rewriting steps of `normalize_text`, in order. */
  function Pipeline(s: string): (r: string)
    ensures r == [] || (!IsSpace(r[0]) && !IsSpace(r[|r| - 1]))
  {
    Strip(RemoveUrls(SpellAscii(DropUnprintable(CollapseWhitespace(s)))))
  }

  /** The ellipsis and the two dashes spelled in ASCII. */
  function SpellAscii(a: string): string
  {
    ReplaceChar(ReplaceChar(ReplaceChar(a, ELLIPSIS, "..."), EN_DASH, "-"), EM_DASH, "-")
  }

  lemma PipelineClean(s: string)
    ensures forall i :: 0 <= i < |Pipeline(s)| ==> CleanChar(Pipeline(s)[i])
  {
    var a := DropUnprintable(CollapseWhitespace(s));
    CollapsedPrintable(s);
    ReplacedClean(a);
    StrippedClean(SpellAscii(a));
    assert Pipeline(s) == Strip(RemoveUrls(SpellAscii(a)));
  }

  /** After collapsing and dropping, every character is printable and the
      only whitespace left is the plain space. */
  lemma CollapsedPrintable(s: string)
    ensures forall i :: 0 <= i < |DropUnprintable(CollapseWhitespace(s))| ==>
      CleanOrDash(DropUnprintable(CollapseWhitespace(s))[i])
  {
    var w := CollapseWhitespace(s);
    var a := DropUnprintable(w);
    forall i | 0 <= i < |a| ensures CleanOrDash(a[i]) {
      var j :| 0 <= j < |w| && w[j] == a[i];
    }
  }

  /** Spelling the ellipsis and the dashes in ASCII leaves only clean
      characters. */
  lemma ReplacedClean(a: string)
    requires forall i :: 0 <= i < |a| ==> CleanOrDash(a[i])
    ensures forall i :: 0 <= i < |SpellAscii(a)| ==> CleanChar(SpellAscii(a)[i])
  {
    var a1 := ReplaceChar(a, ELLIPSIS, "...");
    var a2 := ReplaceChar(a1, EN_DASH, "-");
    var b := ReplaceChar(a2, EM_DASH, "-");
    assert forall c :: c in "..." ==> c == '.';
    assert forall c :: c in "-" ==> c == '-';
    assert forall i :: 0 <= i < |a1| ==> CleanOrDash(a1[i]) && a1[i] != ELLIPSIS by {
      forall i | 0 <= i < |a1| ensures CleanOrDash(a1[i]) && a1[i] != ELLIPSIS {
        if a1[i] in a && a1[i] != ELLIPSIS {
          var j :| 0 <= j < |a| && a[j] == a1[i];
        }
      }
    }
    assert forall i :: 0 <= i < |a2| ==> CleanOrDash(a2[i]) && a2[i] != ELLIPSIS && a2[i] != EN_DASH by {
      forall i | 0 <= i < |a2| ensures CleanOrDash(a2[i]) && a2[i] != ELLIPSIS && a2[i] != EN_DASH {
        if a2[i] in a1 && a2[i] != EN_DASH {
          var j :| 0 <= j < |a1| && a1[j] == a2[i];
        }
      }
    }
    forall i | 0 <= i < |b| ensures CleanChar(b[i]) {
      if b[i] in a2 && b[i] != EM_DASH {
        var j :| 0 <= j < |a2| && a2[j] == b[i];
      }
    }
  }

  /** Printable, and whitespace only as the plain space. */
  predicate CleanOrDash(c: char)
  {
    IsPrintable(c) && (IsSpace(c) ==> c == ' ')
  }

  /** Deleting URLs and stripping keeps only characters of the input. */
  lemma StrippedClean(b: string)
    requires forall i :: 0 <= i < |b| ==> CleanChar(b[i])
    ensures forall i :: 0 <= i < |Strip(RemoveUrls(b))| ==> CleanChar(Strip(RemoveUrls(b))[i])
  {
    var u := RemoveUrls(b);
    var r := Strip(u);
    RemoveUrlsIn(b);
    StripIn(u);
    forall i | 0 <= i < |r| ensures CleanChar(r[i]) {
      var j :| 0 <= j < |u| && u[j] == r[i];
      var k :| 0 <= k < |b| && b[k] == u[j];
    }
  }

  // ---------------------------------------------------------------
  // Validity rules
  // ---------------------------------------------------------------

  /** `is_valid_tweet`: a truthy text whose normalised form has at least two
      words. `None` is the `TypeError` a truthy non-string text raises. */
  function IsValidTweet(t: Record): (r: Option<bool>)
    ensures r == None <==> (Truthy(Field(t, "text")) && !Field(t, "text").JStr?)
    ensures r == Some(true) <==>
      Truthy(Field(t, "text")) && Field(t, "text").JStr? && |Words(NormalizeText(Field(t, "text").s))| >= MIN_WORDS
    ensures r == Some(false) <==>
      !Truthy(Field(t, "text")) || (Field(t, "text").JStr? && |Words(NormalizeText(Field(t, "text").s))| < MIN_WORDS)
    ensures r == Some(true) ==> NormalizeText(Field(t, "text").s) != []
  {
    var text := Field(t, "text");
    if !Truthy(text) then Some(false)
    else if !text.JStr? then None
    else Some(|Words(NormalizeText(text.s))| >= MIN_WORDS)
  }

  /** `_is_valid`: `len(tweet.get('text', '').split()) >= min_words`, judged
      on the raw text. `None` is the `AttributeError` of a non-string text. */
  function HasEnoughWords(t: Record): (r: Option<bool>)
    ensures r.None? <==> (HasKey(t, "text") && !Field(t, "text").JStr?)
    ensures r == Some(true) <==> HasKey(t, "text") && Field(t, "text").JStr? && |Words(Field(t, "text").s)| >= MIN_WORDS
    ensures r == Some(false) <==> !HasKey(t, "text") || (Field(t, "text").JStr? && |Words(Field(t, "text").s)| < MIN_WORDS)
    ensures r == Some(true) ==> |Field(t, "text").s| >= MIN_WORDS
  {
    if !HasKey(t, "text") then Some(false)
    else
      var text := Field(t, "text");
      if !text.JStr? then None
      else
        var ws := Words(text.s);
        if |ws| >= MIN_WORDS then
          WordsShorter(text.s);
          Some(true)
        else Some(false)
  }

  /** Each word takes at least one character. */
  lemma {:induction false} WordsShorter(s: string)
    ensures |Words(s)| <= |s|
    decreases |s|
  {
    if s != [] {
      if IsSpace(s[0]) {
        WordsShorter(s[1..]);
      } else {
        var n := WordPrefix(s);
        WordsShorter(s[n..]);
      }
    }
  }

  /** `_normalize`: the text is overwritten with its normalised form. */
  function NormalizeRecord(t: Record): (r: Record)
    requires Field(t, "text").JStr?
    ensures Keys(r) == Keys(t)
    ensures Field(r, "text") == JStr(NormalizeText(Field(t, "text").s))
    ensures forall k :: k != "text" ==> Get(r, k) == Get(t, k)
  {
    GetSetSame(t, "text", JStr(NormalizeText(Field(t, "text").s)));
    forall k | k != "text"
      ensures Get(Set(t, "text", JStr(NormalizeText(Field(t, "text").s))), k) == Get(t, k)
    {
      GetSetOther(t, "text", JStr(NormalizeText(Field(t, "text").s)), k);
    }
    Set(t, "text", JStr(NormalizeText(Field(t, "text").s)))
  }

  // ---------------------------------------------------------------
  // deduplicate
  // ---------------------------------------------------------------

  function ColumnOf(columns: Columns, k: string): seq<Record>
  {
    GetOr(columns, k, [])
  }

  /** The columns named by `keys`, in that order. */
  function ColumnsInOrder(keys: seq<string>, columns: Columns): (r: seq<seq<Record>>)
    ensures |r| == |keys|
  {
    if keys == [] then [] else [ColumnOf(columns, keys[0])] + ColumnsInOrder(keys[1..], columns)
  }

  /** Columns `keys` deduplicated one after the other with one shared `seen`. */
  function DedupColumns(keys: seq<string>, columns: Columns, seen: set<Json>): Columns
  {
    if keys == [] then []
    else
      var col := ColumnOf(columns, keys[0]);
      [(keys[0], KeepFirst(col, "id", true, seen))]
      + DedupColumns(keys[1..], columns, SeenAfter(col, "id", true, seen))
  }

  /** The deduplicated columns keep the visiting order's keys. */
  lemma {:induction false} DedupColumnsKeys(keys: seq<string>, columns: Columns, seen: set<Json>)
    ensures Keys(DedupColumns(keys, columns, seen)) == keys
  {
    if keys != [] {
      var col := ColumnOf(columns, keys[0]);
      DedupColumnsKeys(keys[1..], columns, SeenAfter(col, "id", true, seen));
    }
  }

  lemma DedupColumnsStep(keys: seq<string>, i: nat, columns: Columns, seen: set<Json>)
    requires i < |keys|
    ensures var col := ColumnOf(columns, keys[i]);
      DedupColumns(keys[i..], columns, seen)
      == [(keys[i], KeepFirst(col, "id", true, seen))] + DedupColumns(keys[i + 1..], columns, SeenAfter(col, "id", true, seen))
  {
    assert keys[i..][0] == keys[i];
    assert keys[i..][1..] == keys[i + 1..];
  }

  function DeduplicateSpec(columns: Columns): Columns
  {
    DedupColumns(SortStrings(Keys(columns)), columns, {})
  }

  /** Deduplicating the columns one by one with a shared `seen` set is
      deduplicating their concatenation in visiting order. */
  lemma {:induction false} DedupColumnsIsGlobal(keys: seq<string>, columns: Columns, seen: set<Json>)
    ensures Flatten(Values(DedupColumns(keys, columns, seen)))
         == KeepFirst(Flatten(ColumnsInOrder(keys, columns)), "id", true, seen)
  {
    if keys != [] {
      var col := ColumnOf(columns, keys[0]);
      var rest := DedupColumns(keys[1..], columns, SeenAfter(col, "id", true, seen));
      DedupColumnsIsGlobal(keys[1..], columns, SeenAfter(col, "id", true, seen));
      KeepFirstAppend(col, Flatten(ColumnsInOrder(keys[1..], columns)), "id", true, seen);
      SeenAfterAppend(col, Flatten(ColumnsInOrder(keys[1..], columns)), "id", true, seen);
      var d := DedupColumns(keys, columns, seen);
      assert d == [(keys[0], KeepFirst(col, "id", true, seen))] + rest;
      assert Values(d) == [KeepFirst(col, "id", true, seen)] + Values(rest) by {
        assert Values(d)[0] == KeepFirst(col, "id", true, seen);
        assert Values(d)[1..] == Values(rest);
      }
      assert ColumnsInOrder(keys, columns) == [col] + ColumnsInOrder(keys[1..], columns);
      assert Flatten([KeepFirst(col, "id", true, seen)] + Values(rest))
          == KeepFirst(col, "id", true, seen) + Flatten(Values(rest));
      assert Flatten([col] + ColumnsInOrder(keys[1..], columns))
          == col + Flatten(ColumnsInOrder(keys[1..], columns));
    }
  }

  /** `deduplicate`: every column key is kept, in sorted order, and across
      all columns only the first tweet with each truthy id survives. */
  lemma DeduplicateCharacterised(columns: Columns)
    ensures Keys(DeduplicateSpec(columns)) == SortStrings(Keys(columns))
    ensures SortedStrings(Keys(DeduplicateSpec(columns)))
    ensures multiset(Keys(DeduplicateSpec(columns))) == multiset(Keys(columns))
    ensures Flatten(Values(DeduplicateSpec(columns)))
         == KeepFirst(Flatten(ColumnsInOrder(SortStrings(Keys(columns)), columns)), "id", true, {})
  {
    DedupColumnsIsGlobal(SortStrings(Keys(columns)), columns, {});
    DedupColumnsKeys(SortStrings(Keys(columns)), columns, {});
  }

  /** The `deduplicate` loop nest. */
  method Deduplicate(columns: Columns) returns (deduped: Columns)
    ensures deduped == DeduplicateSpec(columns)
  {
    var keys := SortStrings(Keys(columns));
    var seen: set<Json> := {};
    deduped := [];
    var i := 0;
    while i < |keys|
      invariant 0 <= i <= |keys|
      invariant deduped + DedupColumns(keys[i..], columns, seen) == DeduplicateSpec(columns)
    {
      var col := ColumnOf(columns, keys[i]);
      var kept, seen' := KeepFirstLoop(col, "id", true, seen);
      DedupColumnsStep(keys, i, columns, seen);
      deduped := deduped + [(keys[i], kept)];
      seen := seen';
      i := i + 1;
    }
  }

  /** `_remove_duplicates`: order-preserving, first occurrence of each truthy
      id wins, falsy ids are dropped. */
  method RemoveDuplicates(tweets: seq<Record>) returns (unique: seq<Record>)
    ensures unique == KeepFirst(tweets, "id", true, {})
    ensures |unique| <= |tweets|
    ensures forall i :: 0 <= i < |unique| ==> unique[i] in tweets && Truthy(KeyOf(unique[i], "id"))
    ensures forall i, j :: 0 <= i < j < |unique| ==> KeyOf(unique[i], "id") != KeyOf(unique[j], "id")
  {
    var seen;
    unique, seen := KeepFirstLoop(tweets, "id", true, {});
    KeepFirstSound(tweets, "id", true, {});
    KeepFirstDistinct(tweets, "id", true, {});
  }

  // ---------------------------------------------------------------
  // clean_tweets
  // ---------------------------------------------------------------

  /** What `clean_tweets` makes of one tweet of a column in which no text
      raises: its normalised copy when the raw text has enough words. */
  function CleanStep(t: Record): (r: Option<Record>)
    ensures r.Some? <==> HasEnoughWords(t) == Some(true)
  {
    if HasEnoughWords(t) == Some(true) then Some(NormalizeRecord(t)) else None
  }

  /** The tweets of one column that `clean_tweets` keeps, in order. */
  function Cleaned(tweets: seq<Record>): seq<Record>
  {
    FilterMap(tweets, CleanStep)
  }

  /** Some text in the column raises, which aborts the whole run. */
  predicate CleanRaises(tweets: seq<Record>)
  {
    exists i :: 0 <= i < |tweets| && HasEnoughWords(tweets[i]).None?
  }

  function CleanedColumns(columns: Columns): (r: Columns)
    ensures Keys(r) == Keys(columns)
    ensures forall i :: 0 <= i < |columns| ==> r[i].1 == Cleaned(columns[i].1)
  {
    if columns == [] then []
    else [(columns[0].0, Cleaned(columns[0].1))] + CleanedColumns(columns[1..])
  }

  /** What a validity-and-normalise loop does with one tweet. */
  datatype Verdict = Keep(kept: Record) | Drop | Raise

  /** A loop over `tweets` that appends what it keeps and aborts on the
      first tweet whose judgement raises. */
  function Judged(tweets: seq<Record>, f: Record -> Verdict): Option<seq<Record>>
  {
    if tweets == [] then Some([])
    else
      match Judged(tweets[..|tweets| - 1], f)
      case None => None
      case Some(prefix) =>
        match f(tweets[|tweets| - 1])
        case Raise => None
        case Drop => Some(prefix)
        case Keep(y) => Some(prefix + [y])
  }

  function VerdictStep(f: Record -> Verdict): Record -> Option<Record>
  {
    t => if f(t).Keep? then Some(f(t).kept) else None
  }

  /** The loop fails exactly when some judgement raises, and otherwise keeps
      what every `Keep` verdict names, in order. */
  lemma {:induction false} JudgedCharacterised(tweets: seq<Record>, f: Record -> Verdict)
    ensures Judged(tweets, f).None? <==> exists i :: 0 <= i < |tweets| && f(tweets[i]).Raise?
    ensures Judged(tweets, f).Some? ==> Judged(tweets, f).value == FilterMap(tweets, VerdictStep(f))
  {
    if tweets != [] {
      var p := tweets[..|tweets| - 1];
      JudgedCharacterised(p, f);
      if exists i :: 0 <= i < |p| && f(p[i]).Raise? {
        var i :| 0 <= i < |p| && f(p[i]).Raise?;
        assert tweets[i] == p[i];
      }
      if exists i :: 0 <= i < |tweets| && f(tweets[i]).Raise? {
        var i :| 0 <= i < |tweets| && f(tweets[i]).Raise?;
        if i < |p| {
          assert p[i] == tweets[i];
        }
      }
    }
  }

  /** One more tweet visited by the loop. */
  lemma JudgedSnoc(tweets: seq<Record>, j: nat, f: Record -> Verdict)
    requires j < |tweets|
    ensures Judged(tweets[..j + 1], f) == match Judged(tweets[..j], f)
      case None => None
      case Some(prefix) => match f(tweets[j])
        case Raise => None
        case Drop => Some(prefix)
        case Keep(y) => Some(prefix + [y])
  {
    assert tweets[..j + 1][..j] == tweets[..j];
    assert tweets[..j + 1][j] == tweets[j];
  }

  /** A loop that has failed stays failed. */
  lemma {:induction false} JudgedFailStays(tweets: seq<Record>, j: nat, f: Record -> Verdict)
    requires j <= |tweets| && Judged(tweets[..j], f).None?
    ensures Judged(tweets, f).None?
    decreases |tweets| - j
  {
    if j < |tweets| {
      JudgedSnoc(tweets, j, f);
      JudgedFailStays(tweets, j + 1, f);
    } else {
      assert tweets[..j] == tweets;
    }
  }

  /** One column of `clean_tweets`: `None` when some text raises. */
  function CleanColumnSpec(tweets: seq<Record>): Option<seq<Record>>
  {
    Judged(tweets, CleanVerdict)
  }

  function CleanVerdict(t: Record): Verdict
  {
    match HasEnoughWords(t)
    case None => Raise
    case Some(ok) => if ok then Keep(NormalizeRecord(t)) else Drop
  }

  /** A column fails to clean exactly when one of its texts raises, and
      otherwise cleans to `Cleaned`. */
  lemma CleanColumnCharacterised(tweets: seq<Record>)
    ensures CleanColumnSpec(tweets).None? <==> CleanRaises(tweets)
    ensures CleanColumnSpec(tweets).Some? ==> CleanColumnSpec(tweets).value == Cleaned(tweets)
  {
    JudgedCharacterised(tweets, CleanVerdict);
    CleanVerdictSteps();
    FilterMapSameStep(tweets, VerdictStep(CleanVerdict), CleanStep);
    CleanVerdictRaises(tweets);
  }

  lemma CleanVerdictSteps()
    ensures forall t :: VerdictStep(CleanVerdict)(t) == CleanStep(t)
  {
    forall t
      ensures VerdictStep(CleanVerdict)(t) == CleanStep(t)
    {
      var v := CleanVerdict(t);
      assert VerdictStep(CleanVerdict)(t) == if v.Keep? then Some(v.kept) else None;
    }
  }

  lemma CleanVerdictRaises(tweets: seq<Record>)
    ensures CleanRaises(tweets) <==> exists i :: 0 <= i < |tweets| && CleanVerdict(tweets[i]).Raise?
  {
    if CleanRaises(tweets) {
      var i :| 0 <= i < |tweets| && HasEnoughWords(tweets[i]).None?;
      assert CleanVerdict(tweets[i]).Raise?;
    }
  }

  /** `clean_tweets`: `None` when some text of some column raises. */
  function CleanTweetsSpec(columns: Columns): Option<Columns>
  {
    if columns == [] then Some([])
    else
      match (CleanColumnSpec(columns[0].1), CleanTweetsSpec(columns[1..]))
      case (Some(col), Some(rest)) => Some([(columns[0].0, col)] + rest)
      case _ => None
  }

  function PrependColumns(front: Columns, r: Option<Columns>): Option<Columns>
  {
    match r
    case None => None
    case Some(rest) => Some(front + rest)
  }

  /** `clean_tweets` fails exactly when a text raises somewhere; otherwise
      every column is kept under its key with its cleaned tweets. */
  lemma {:induction false} CleanTweetsCharacterised(columns: Columns)
    ensures CleanTweetsSpec(columns).None? <==> exists i :: 0 <= i < |columns| && CleanRaises(columns[i].1)
    ensures CleanTweetsSpec(columns).Some? ==> CleanTweetsSpec(columns).value == CleanedColumns(columns)
  {
    if columns != [] {
      CleanTweetsCharacterised(columns[1..]);
      CleanColumnCharacterised(columns[0].1);
      if exists i :: 0 <= i < |columns[1..]| && CleanRaises(columns[1..][i].1) {
        var i :| 0 <= i < |columns[1..]| && CleanRaises(columns[1..][i].1);
        assert columns[i + 1] == columns[1..][i];
      }
      if exists i :: 0 <= i < |columns| && CleanRaises(columns[i].1) {
        var i :| 0 <= i < |columns| && CleanRaises(columns[i].1);
        if i > 0 {
          assert columns[1..][i - 1] == columns[i];
        }
      }
    }
  }

  /** A cleaned column holds exactly the normalised copies of the tweets
      whose raw text has enough words, and never more tweets than the
      column. */
  lemma CleanedCharacterised(tweets: seq<Record>)
    ensures |Cleaned(tweets)| <= |tweets|
    ensures forall i :: 0 <= i < |Cleaned(tweets)| ==> IsImage(tweets, CleanStep, Cleaned(tweets)[i])
    ensures forall j :: 0 <= j < |tweets| && HasEnoughWords(tweets[j]) == Some(true) ==>
      NormalizeRecord(tweets[j]) in Cleaned(tweets)
  {
    FilterMapSound(tweets, CleanStep);
    forall j | 0 <= j < |tweets| && HasEnoughWords(tweets[j]) == Some(true)
      ensures NormalizeRecord(tweets[j]) in Cleaned(tweets)
    {
      FilterMapComplete(tweets, CleanStep, j);
    }
  }

  /** The inner loop of `clean_tweets`, over one column. */
  method CleanColumn(tweets: seq<Record>) returns (col: Option<seq<Record>>)
    ensures col == CleanColumnSpec(tweets)
  {
    var kept: seq<Record> := [];
    var j := 0;
    assert tweets[..0] == [];
    while j < |tweets|
      invariant 0 <= j <= |tweets|
      invariant Judged(tweets[..j], CleanVerdict) == Some(kept)
    {
      var t := tweets[j];
      var ok := HasEnoughWords(t);
      JudgedSnoc(tweets, j, CleanVerdict);
      if ok.None? {
        JudgedFailStays(tweets, j + 1, CleanVerdict);
        return None;
      }
      if ok.value {
        kept := kept + [NormalizeRecord(t)];
      }
      j := j + 1;
    }
    assert tweets[..|tweets|] == tweets;
    return Some(kept);
  }



  /** The `clean_tweets` loop nest. */
  method CleanTweets(columns: Columns) returns (cleaned: Option<Columns>)
    ensures cleaned == CleanTweetsSpec(columns)
  {
    var out: Columns := [];
    var i := 0;
    assert columns[0..] == columns;
    match CleanTweetsSpec(columns) {
      case None =>
      case Some(r) => assert out + r == r;
    }
    while i < |columns|
      invariant 0 <= i <= |columns|
      invariant CleanTweetsSpec(columns) == PrependColumns(out, CleanTweetsSpec(columns[i..]))
    {
      var col := CleanColumn(columns[i].1);
      var rest := columns[i..];
      assert rest[0] == columns[i] && rest[1..] == columns[i + 1..];
      if col.None? {
        return None;
      }
      match CleanTweetsSpec(columns[i + 1..]) {
        case None =>
        case Some(r) =>
          ConcatAssoc(out, [(columns[i].0, col.value)], r);
      }
      out := out + [(columns[i].0, col.value)];
      i := i + 1;
    }
    assert columns[i..] == [];
    assert out + [] == out;
    return Some(out);
  }

  // ---------------------------------------------------------------
  // structure_output, process_columns and the combined file
  // ---------------------------------------------------------------

  function ColumnLengths(columns: Columns): (r: seq<nat>)
    ensures |r| == |columns|
  {
    if columns == [] then [] else [|columns[0].1|] + ColumnLengths(columns[1..])
  }

  /** The dict `structure_output` returns. */
  datatype Structured = Structured(processedAt: string, columnsProcessed: nat, totalTweets: nat, columns: Columns)

  /** `structure_output`. */
  function StructureOutput(columns: Columns, now: string): (r: Structured)
    ensures r.columns == columns && r.processedAt == now
    ensures r.columnsProcessed == |columns|
    ensures r.totalTweets == |Flatten(Values(columns))|
  {
    TotalIsFlattenLength(columns);
    Structured(now, |columns|, Sum(ColumnLengths(columns)), columns)
  }

  lemma {:induction false} TotalIsFlattenLength(columns: Columns)
    ensures Sum(ColumnLengths(columns)) == |Flatten(Values(columns))|
  {
    if columns != [] {
      TotalIsFlattenLength(columns[1..]);
      assert Values(columns) == [columns[0].1] + Values(columns[1..]);
    }
  }

  /** `process_columns`: `structure_output(clean_tweets(deduplicate(raw)))`. */
  function ProcessColumnsSpec(raw: Columns, now: string): Option<Structured>
  {
    match CleanTweetsSpec(DeduplicateSpec(raw))
    case None => None
    case Some(cleaned) => Some(StructureOutput(cleaned, now))
  }

  method ProcessColumns(raw: Columns, now: string) returns (r: Option<Structured>)
    ensures r == ProcessColumnsSpec(raw, now)
  {
    var deduped := Deduplicate(raw);
    var cleaned := CleanTweets(deduped);
    if cleaned.None? {
      return None;
    }
    return Some(StructureOutput(cleaned.value, now));
  }

  /** Cleaning column by column is cleaning the concatenated columns. */
  lemma {:induction false} CleanedColumnsFlatten(columns: Columns)
    ensures Flatten(Values(CleanedColumns(columns))) == Cleaned(Flatten(Values(columns)))
  {
    if columns != [] {
      var rest := CleanedColumns(columns[1..]);
      CleanedColumnsFlatten(columns[1..]);
      assert Values(columns) == [columns[0].1] + Values(columns[1..]);
      assert Values(CleanedColumns(columns)) == [Cleaned(columns[0].1)] + Values(rest);
      FilterMapAppend(columns[0].1, Flatten(Values(columns[1..])), CleanStep);
    }
  }

  lemma NormalizeKeepsId(t: Record)
    requires Field(t, "text").JStr?
    ensures KeyOf(NormalizeRecord(t), "id") == KeyOf(t, "id")
  {
    assert Get(NormalizeRecord(t), "id") == Get(t, "id");
  }

  /** Cleaning never makes two tweets share an id. */
  lemma CleanedKeepsIdsDistinct(tweets: seq<Record>)
    requires KeysDistinct(tweets, "id")
    ensures KeysDistinct(Cleaned(tweets), "id")
  {
    var key := (t: Record) => KeyOf(t, "id");
    forall t | CleanStep(t).Some?
      ensures key(CleanStep(t).value) == key(t)
    {
      NormalizeKeepsId(t);
    }
    FilterMapKeepsDistinct(tweets, CleanStep, key, key);
  }

  /** After `process_columns`, the column keys are the raw keys in sorted
      order, and no two tweets of the output, in any columns, share an id:
      the combined file holds each id at most once. */
  lemma ProcessColumnsIdsDistinct(raw: Columns, now: string)
    requires ProcessColumnsSpec(raw, now).Some?
    ensures Keys(ProcessColumnsSpec(raw, now).value.columns) == SortStrings(Keys(raw))
    ensures KeysDistinct(Flatten(Values(ProcessColumnsSpec(raw, now).value.columns)), "id")
  {
    var d := DeduplicateSpec(raw);
    DeduplicateCharacterised(raw);
    CleanTweetsCharacterised(d);
    var all := Flatten(ColumnsInOrder(SortStrings(Keys(raw)), raw));
    KeepFirstDistinct(all, "id", true, {});
    CleanedColumnsFlatten(d);
    CleanedKeepsIdsDistinct(Flatten(Values(d)));
  }

  /** The file `_save_processed_tweets` writes: all columns concatenated in
      dict order with their total. */
  datatype Combined = Combined(processedAt: string, totalTweets: nat, tweets: seq<Record>)

  const PROCESSED_DIR := "data/processed"

  function CombinedPath(date: string): string
  {
    PROCESSED_DIR + "/" + date + "/combined_tweets.json"
  }

  /** `_save_processed_tweets`: the `all_tweets.extend` loop and the record
      it writes. */
  method SaveProcessedTweets(data: Structured) returns (combined: Combined)
    ensures combined.tweets == Flatten(Values(data.columns))
    ensures combined.totalTweets == |combined.tweets|
    ensures combined.processedAt == data.processedAt
  {
    var all: seq<Record> := [];
    var i := 0;
    while i < |data.columns|
      invariant 0 <= i <= |data.columns|
      invariant all == Flatten(Values(data.columns[..i]))
    {
      FlattenColumnsSnoc(data.columns, i);
      all := all + data.columns[i].1;
      i := i + 1;
    }
    assert data.columns[..|data.columns|] == data.columns;
    combined := Combined(data.processedAt, |all|, all);
  }

  lemma FlattenColumnsSnoc(columns: Columns, i: nat)
    requires i < |columns|
    ensures Flatten(Values(columns[..i + 1])) == Flatten(Values(columns[..i])) + columns[i].1
  {
    assert Values(columns[..i + 1]) == Values(columns[..i]) + [columns[i].1];
    FlattenAppend(Values(columns[..i]), [columns[i].1]);
    assert Flatten([columns[i].1]) == columns[i].1;
  }

  /** The combined file `process_columns` leads to is the whole pipeline
      applied to all raw columns concatenated in sorted column order: first
      occurrence of each truthy id, then the word-count filter, then
      normalisation; its total is that length. */
  lemma CombinedIsCleanedDedup(raw: Columns, now: string)
    requires ProcessColumnsSpec(raw, now).Some?
    ensures var out := ProcessColumnsSpec(raw, now).value;
      && Flatten(Values(out.columns))
         == Cleaned(KeepFirst(Flatten(ColumnsInOrder(SortStrings(Keys(raw)), raw)), "id", true, {}))
      && out.totalTweets == |Flatten(Values(out.columns))|
  {
    DeduplicateCharacterised(raw);
    CleanTweetsCharacterised(DeduplicateSpec(raw));
    CleanedColumnsFlatten(DeduplicateSpec(raw));
  }

  // ---------------------------------------------------------------
  // _process_raw_tweets (unused by `process_columns`)
  // ---------------------------------------------------------------

  /** What the second loop of `_process_raw_tweets` does with one tweet
      that survived deduplication. */
  function RawVerdict(t: Record): Verdict
  {
    match IsValidTweet(t)
    case None => Raise
    case Some(ok) => if ok then Keep(NormalizeRecord(t)) else Drop
  }

  /** One column of `_process_raw_tweets`: `None` when `is_valid_tweet`
      raises on a surviving tweet. Ids are compared as they are, so a missing
      id (`None`) takes part like any other. */
  function RawColumnSpec(tweets: seq<Record>): Option<seq<Record>>
  {
    var unique := KeepFirst(tweets, "id", false, {});
    Judged(unique, RawVerdict)
  }

  /** The loops of one column of `_process_raw_tweets`. */
  method ProcessRawColumn(tweets: seq<Record>) returns (r: Option<seq<Record>>)
    ensures r == RawColumnSpec(tweets)
  {
    var unique, _ := KeepFirstLoop(tweets, "id", false, {});
    var kept: seq<Record> := [];
    var j := 0;
    assert unique[..0] == [];
    while j < |unique|
      invariant 0 <= j <= |unique|
      invariant Judged(unique[..j], RawVerdict) == Some(kept)
    {
      var t := unique[j];
      var ok := IsValidTweet(t);
      JudgedSnoc(unique, j, RawVerdict);
      if ok.None? {
        JudgedFailStays(unique, j + 1, RawVerdict);
        return None;
      }
      if ok.value {
        kept := kept + [NormalizeRecord(t)];
      }
      j := j + 1;
    }
    assert unique[..|unique|] == unique;
    return Some(kept);
  }

  /** In `_process_raw_tweets` the first tweet without an id is kept, since
      its `None` is not yet in `seen_ids`, and every later one is dropped. */
  lemma OneIdlessTweetPasses(a: Record, b: Record)
    requires !HasKey(a, "id") && !HasKey(b, "id")
    ensures KeepFirst([a, b], "id", false, {}) == [a]
    ensures KeepFirst([a, b], "id", true, {}) == []
  {
    assert Get(a, "id") == None && Get(b, "id") == None;
    IdlessPairKeepsFirst(a, b);
    IdlessPairDropsBoth(a, b);
  }

  lemma IdlessPairKeepsFirst(a: Record, b: Record)
    requires KeyOf(a, "id") == JNull && KeyOf(b, "id") == JNull
    ensures KeepFirst([a, b], "id", false, {}) == [a]
  {
    var ab := [a, b];
    assert ab[..1] == [a] && [a][..0] == [];
    assert FirstOccurrence([a], "id", false, {}, 0);
    assert KeepFirst([a], "id", false, {}) == [a];
    assert !FirstOccurrence(ab, "id", false, {}, 1) by {
      assert KeyOf(ab[0], "id") == KeyOf(ab[1], "id");
    }
  }

  lemma IdlessPairDropsBoth(a: Record, b: Record)
    requires KeyOf(a, "id") == JNull && KeyOf(b, "id") == JNull
    ensures KeepFirst([a, b], "id", true, {}) == []
  {
    var ab := [a, b];
    assert ab[..1] == [a] && [a][..0] == [];
    assert !Truthy(JNull);
    assert !FirstOccurrence([a], "id", true, {}, 0);
    assert KeepFirst([a], "id", true, {}) == [];
    assert !FirstOccurrence(ab, "id", true, {}, 1);
  }

}
