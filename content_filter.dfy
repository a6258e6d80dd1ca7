// The content filter: for every alpha-filtered tweet it keeps the passage
// worth quoting and collapses tweets that report the same news. Model
// answers are input traces (see Oracle); the breaker is the shared Breaker
// module.

module ContentFilter {
  import opened Common
  import opened Oracle

  // ---------------------------------------------------------------
  // _calculate_chunk_size
  // ---------------------------------------------------------------

  /** `len(t.get(k, ''))`; `None` when the stored value has no length. */
  function FieldLen(t: Record, k: string): Option<nat>
  {
    PyLen(GetOr(t, k, JStr("")))
  }

  /** `t.get(k, {}).get('text', '') if t.get(k) else ''`, measured; `None`
      when a truthy value is not a dict or its text has no length. */
  function NestedLen(t: Record, k: string): Option<nat>
  {
    var v := GetOr(t, k, JNull);
    if !Truthy(v) then Some(0)
    else if !v.JObj? then None
    else FieldLen(v.entries, "text")
  }

  /** The length one item adds to `total_length`; `None` when it raises. */
  function ItemLength(item: Json): Option<nat>
  {
    if !item.JObj? then None
    else
      match (FieldLen(item.entries, "text"), NestedLen(item.entries, "quotedContent"),
             NestedLen(item.entries, "repostedContent"))
      case (Some(a), Some(b), Some(c)) => Some(a + b + c)
      case _ => None
  }

  /** The lengths the items add, in order. */
  function ItemLengths(items: seq<Json>): (ls: seq<Option<nat>>)
    ensures |ls| == |items|
  {
    if items == [] then [] else [ItemLength(items[0])] + ItemLengths(items[1..])
  }

  lemma {:induction false} ItemLengthsAt(items: seq<Json>, i: nat)
    requires i < |items|
    ensures ItemLengths(items)[i] == ItemLength(items[i])
  {
    if i > 0 {
      ItemLengthsAt(items[1..], i - 1);
    }
  }

  /** The running sum, or `None` once some length is missing. */
  function SumLengths(ls: seq<Option<nat>>): Option<nat>
  {
    if ls == [] then Some(0)
    else
      match (SumLengths(ls[..|ls| - 1]), ls[|ls| - 1])
      case (Some(t), Some(l)) => Some(t + l)
      case _ => None
  }

  /** `total_length` after the loop, or `None` when some item raises. */
  function TotalLength(items: seq<Json>): Option<nat>
  {
    SumLengths(ItemLengths(items))
  }

  lemma {:induction false} SumLengthsFailStays(ls: seq<Option<nat>>, j: nat)
    requires j <= |ls| && SumLengths(ls[..j]).None?
    ensures SumLengths(ls).None?
    decreases |ls| - j
  {
    if j < |ls| {
      assert ls[..j + 1][..j] == ls[..j];
      SumLengthsFailStays(ls, j + 1);
    } else {
      assert ls[..j] == ls;
    }
  }

  lemma SumLengthsStep(ls: seq<Option<nat>>, i: nat)
    requires i < |ls|
    ensures SumLengths(ls[..i + 1])
         == match (SumLengths(ls[..i]), ls[i])
            case (Some(t), Some(l)) => Some(t + l)
            case _ => None
  {
    assert ls[..i + 1][..i] == ls[..i];
  }

  const MAX_PROMPT_TOKENS: nat := 2048
  const MIN_CHUNK: nat := 2
  const MAX_CHUNK: nat := 5

  /** `int(2048 / max(1, avg_length / 4))` with `avg_length = total / n`, in
      exact arithmetic. */
  function OptimalSize(total: nat, n: nat): int
    requires n > 0
  {
    var avg := total as real / n as real;
    var tokens := if avg / 4.0 > 1.0 then avg / 4.0 else 1.0;
    (MAX_PROMPT_TOKENS as real / tokens).Floor
  }

  /** `max(2, min(5, x))`. */
  function Clamp(x: int): (r: nat)
    ensures MIN_CHUNK <= r <= MAX_CHUNK
    ensures r == MAX_CHUNK <==> x >= MAX_CHUNK
    ensures r == MIN_CHUNK <==> x <= MIN_CHUNK
  {
    if x < MIN_CHUNK then MIN_CHUNK else if x > MAX_CHUNK then MAX_CHUNK else x
  }

  /** `_calculate_chunk_size`: `None` when an item raises. */
  function ChunkSizeSpec(items: seq<Json>): Option<nat>
  {
    if |items| <= 2 then Some(MIN_CHUNK)
    else
      match TotalLength(items)
      case None => None
      case Some(total) => Some(Clamp(OptimalSize(total, |items|)))
  }

  /** The loop that adds up the item lengths; `None` when an item raises. */
  method SumItemLengths(items: seq<Json>) returns (total: Option<nat>)
    ensures total == TotalLength(items)
  {
    ghost var ls := ItemLengths(items);
    var sum := 0;
    var i := 0;
    while i < |items|
      invariant 0 <= i <= |items|
      invariant SumLengths(ls[..i]) == Some(sum)
    {
      var next := AddItemLength(items, i, sum);
      if next.None? {
        SumLengthsFailStays(ls, i + 1);
        return None;
      }
      sum := next.value;
      i := i + 1;
    }
    assert ls[..i] == ls;
    return Some(sum);
  }

  /** One pass of the loop body: `total_length += ...` for item `i`. */
  method AddItemLength(items: seq<Json>, i: nat, sum: nat) returns (next: Option<nat>)
    requires i < |items| && SumLengths(ItemLengths(items)[..i]) == Some(sum)
    ensures next == SumLengths(ItemLengths(items)[..i + 1])
  {
    var l := ItemLength(items[i]);
    ItemLengthsAt(items, i);
    SumLengthsStep(ItemLengths(items), i);
    if l.None? {
      return None;
    }
    return Some(sum + l.value);
  }

  /** `_calculate_chunk_size`. */
  method CalculateChunkSize(items: seq<Json>) returns (r: Option<nat>)
    ensures r == ChunkSizeSpec(items)
  {
    if |items| <= 2 {
      return Some(MIN_CHUNK);
    }
    var total := SumItemLengths(items);
    if total.None? {
      return None;
    }
    r := Some(Clamp(OptimalSize(total.value, |items|)));
  }

  /** The unclamped size is at least five exactly when the items average at
      most 8192/5 characters, and at most two exactly when they average more
      than 8192/3. */
  lemma OptimalSizeThresholds(total: nat, n: nat)
    requires n > 0
    ensures OptimalSize(total, n) >= 5 <==> 5 * total <= 8192 * n
    ensures OptimalSize(total, n) <= 2 <==> 3 * total > 8192 * n
  {
    var N := n as real;
    var T := total as real;
    if T / N / 4.0 > 1.0 {
      var q := 2048.0 / (T / N / 4.0);
      ScaledQuotient(T, N);
      FloorThresholds(q, T, N);
      assert OptimalSize(total, n) == q.Floor;
    } else {
      SmallAverage(T, N);
      assert OptimalSize(total, n) == 2048;
    }
  }

  /** Above one token per item, the size is 8192 items per character. */
  lemma ScaledQuotient(t: real, n: real)
    requires n > 0.0 && t / n / 4.0 > 1.0
    ensures t > 0.0 && (2048.0 / (t / n / 4.0)) * t == 8192.0 * n
  {
    var avg := t / n;
    assert avg * n == t;
    var tokens := avg / 4.0;
    assert tokens * 4.0 == avg;
    var q := 2048.0 / tokens;
    assert q * tokens == 2048.0;
    assert t == tokens * (4.0 * n);
    calc {
      q * t;
      q * (tokens * (4.0 * n));
      (q * tokens) * (4.0 * n);
      8192.0 * n;
    }
  }

  lemma FloorThresholds(q: real, t: real, n: real)
    requires t > 0.0 && q * t == 8192.0 * n
    ensures q.Floor >= 5 <==> 5.0 * t <= 8192.0 * n
    ensures q.Floor <= 2 <==> 3.0 * t > 8192.0 * n
  {
    ScaleCompare(q, t, 5.0);
    ScaleCompare(q, t, 3.0);
    assert q.Floor as real <= q < q.Floor as real + 1.0;
  }

  lemma SmallAverage(t: real, n: real)
    requires n > 0.0 && t / n / 4.0 <= 1.0
    ensures t <= 4.0 * n
  {
    var avg := t / n;
    assert avg * n == t;
    assert avg <= 4.0;
    assert (4.0 - avg) * n >= 0.0;
  }

  lemma ScaleCompare(q: real, t: real, k: real)
    requires t > 0.0
    ensures q >= k <==> k * t <= q * t
  {
    if q >= k {
      assert q * t - k * t == (q - k) * t;
    } else {
      assert k * t - q * t == (k - q) * t;
    }
  }

  /** Chunks are always two to five items; at most two items give two;
      otherwise the size is five exactly when the items average at most
      8192/5 characters and two exactly when they average more than 8192/3. */
  lemma ChunkSizeCharacterised(items: seq<Json>)
    ensures ChunkSizeSpec(items).Some? ==> MIN_CHUNK <= ChunkSizeSpec(items).value <= MAX_CHUNK
    ensures ChunkSizeSpec(items).None? <==> |items| > 2 && TotalLength(items).None?
    ensures |items| <= 2 ==> ChunkSizeSpec(items) == Some(MIN_CHUNK)
    ensures |items| > 2 && TotalLength(items).Some? ==>
      var total := TotalLength(items).value;
      && (ChunkSizeSpec(items) == Some(MAX_CHUNK) <==> 5 * total <= 8192 * |items|)
      && (ChunkSizeSpec(items) == Some(MIN_CHUNK) <==> 3 * total > 8192 * |items|)
  {
    if |items| > 2 && TotalLength(items).Some? {
      OptimalSizeThresholds(TotalLength(items).value, |items|);
    }
  }

  // ---------------------------------------------------------------
  // Model answers
  // ---------------------------------------------------------------

  /** The four fields both request helpers demand of an answer. */
  const RESPONSE_FIELDS: seq<string> := ["are_duplicates", "keep_item_ids", "reason", "confidence"]

  /** `_try_deepseek_request` / `_try_openai_request`: the reply when its
      text decodes to JSON in which every field is found (`field in result`),
      otherwise nothing. */
  function Validated(r: Option<Reply>): (v: Option<Reply>)
    ensures v.Some? ==> v == r && r.value.json.Some? && AllIn(RESPONSE_FIELDS, r.value.json.value)
  {
    if r.Some? && r.value.json.Some? && AllIn(RESPONSE_FIELDS, r.value.json.value) then r else None
  }

  /** `response = deepseek(...)`, `if not response: response = openai(...)`,
      then `if response:`: the answer the caller goes on with, if any. */
  function Usable(a: Attempt): (r: Option<Reply>)
    ensures r.Some? ==> r.value.text != "" && r.value.json.Some? && AllIn(RESPONSE_FIELDS, r.value.json.value)
    ensures r.Some? ==> r == a.primary || r == a.fallback
  {
    var p := Validated(a.primary);
    if p.Some? && p.value.text != "" then p
    else
      var f := Validated(a.fallback);
      if f.Some? && f.value.text != "" then f else None
  }

  // ---------------------------------------------------------------
  // _extract_summary
  // ---------------------------------------------------------------

  /** `tweet_text[:100]`. */
  function Prefix100(s: string): (r: string)
    ensures |r| <= 100 && |r| <= |s| && r == s[..|r|]
  {
    if |s| <= 100 then s else s[..100]
  }

  function NonEmpty(ss: seq<string>): seq<string>
  {
    if ss == [] then [] else (if ss[0] != "" then [ss[0]] else []) + NonEmpty(ss[1..])
  }

  /** `' '.join([t for t in [tweet, reposted, quoted] if t])`. */
  function Sources(tweet: string, reposted: string, quoted: string): string
  {
    Join(NonEmpty([tweet, reposted, quoted]), " ")
  }

  /** `response.strip().strip('"').strip()`. */
  function CleanAnswer(text: string): string
  {
    Strip(StripChars(Strip(text), {'"'}))
  }

  /** The text the extraction request gets back when the request helpers
      return the model's content without checking it for the
      duplicate-check fields: the primary reply when it is not empty, else
      the fallback one. */
  function RawAnswer(a: Attempt): (r: Option<string>)
    ensures r.Some? ==> r.value != ""
    ensures r.Some? ==> (a.primary.Some? && r.value == a.primary.value.text) || (a.fallback.Some? && r.value == a.fallback.value.text)
  {
    if a.primary.Some? && a.primary.value.text != "" then Some(a.primary.value.text)
    else if a.fallback.Some? && a.fallback.value.text != "" then Some(a.fallback.value.text)
    else None
  }

  /** The verification step of `_extract_summary`: the cleaned answer when it
      occurs, ignoring case, in the joined sources; otherwise the first 100
      characters of the tweet. */
  function SummaryFrom(tweet: string, reposted: string, quoted: string, answer: Option<string>): (r: string)
    ensures answer.None? ==> r == Prefix100(tweet)
    ensures r == Prefix100(tweet) || Contains(Lower(Sources(tweet, reposted, quoted)), Lower(r))
  {
    match answer
    case None => Prefix100(tweet)
    case Some(text) =>
      var extracted := CleanAnswer(text);
      if Contains(Lower(Sources(tweet, reposted, quoted)), Lower(extracted)) then extracted
      else Prefix100(tweet)
  }

  /** `_extract_summary` as written: its answer comes from the duplicate-check
      request helpers, which pass on only JSON naming the four duplicate-check
      fields. */
  function ExtractSummaryAsWritten(tweet: string, reposted: string, quoted: string, a: Attempt): (r: string)
    ensures r == Prefix100(tweet) || (Usable(a).Some? && AllIn(RESPONSE_FIELDS, Usable(a).value.json.value))
  {
    SummaryFrom(tweet, reposted, quoted, if Usable(a).Some? then Some(Usable(a).value.text) else None)
  }

  /** `_extract_summary` as intended: the model's answer is the passage it
      extracted, whatever its shape. */
  function ExtractSummary(tweet: string, reposted: string, quoted: string, a: Attempt): (r: string)
    ensures RawAnswer(a).None? ==> r == Prefix100(tweet)
    ensures r == Prefix100(tweet) || Contains(Lower(Sources(tweet, reposted, quoted)), Lower(r))
  {
    SummaryFrom(tweet, reposted, quoted, RawAnswer(a))
  }

  /** A plain-text answer that quotes the tweet is thrown away as written,
      and the summary falls back to the tweet's opening; the intended
      version keeps the passage. */
  lemma PlainAnswerRejected(tweet: string, reposted: string, quoted: string, reply: Reply)
    requires reply.json.None? && reply.text != ""
    requires Contains(Lower(Sources(tweet, reposted, quoted)), Lower(CleanAnswer(reply.text)))
    ensures ExtractSummaryAsWritten(tweet, reposted, quoted, Attempt(Some(reply), None)) == Prefix100(tweet)
    ensures ExtractSummary(tweet, reposted, quoted, Attempt(Some(reply), None)) == CleanAnswer(reply.text)
  {
    var a := Attempt(Some(reply), None);
    PlainAnswerUnusable(reply);
    assert RawAnswer(a) == Some(reply.text);
    SummaryFromVerified(tweet, reposted, quoted, reply.text);
  }

  /** Without JSON a reply never passes the duplicate-check helpers. */
  lemma PlainAnswerUnusable(reply: Reply)
    requires reply.json.None?
    ensures Usable(Attempt(Some(reply), None)).None?
  {
    assert Validated(Some(reply)).None? && Validated(None).None?;
  }

  /** An answer found in the sources is the summary. */
  lemma SummaryFromVerified(tweet: string, reposted: string, quoted: string, text: string)
    requires Contains(Lower(Sources(tweet, reposted, quoted)), Lower(CleanAnswer(text)))
    ensures SummaryFrom(tweet, reposted, quoted, Some(text)) == CleanAnswer(text)
  {
  }

  /** An answer that occurs in the sources is taken as the summary. */
  lemma ExtractTakesVerifiedAnswer(tweet: string, reposted: string, quoted: string, a: Attempt)
    requires RawAnswer(a).Some?
    requires Contains(Lower(Sources(tweet, reposted, quoted)), Lower(CleanAnswer(RawAnswer(a).value)))
    ensures ExtractSummary(tweet, reposted, quoted, a) == CleanAnswer(RawAnswer(a).value)
  {
  }

  /** The tweet opens the joined sources when it is not empty. */
  lemma SourcesStartWithTweet(tweet: string, reposted: string, quoted: string)
    requires tweet != ""
    ensures StartsWith(Sources(tweet, reposted, quoted), tweet)
  {
    var parts := NonEmpty([tweet, reposted, quoted]);
    assert [tweet, reposted, quoted][1..] == [reposted, quoted];
    assert parts == [tweet] + NonEmpty([reposted, quoted]);
    assert parts[0] == tweet;
    if |parts| > 1 {
      assert Sources(tweet, reposted, quoted) == tweet + " " + Join(parts[1..], " ");
    }
  }

  /** Lower-casing commutes with taking a prefix. */
  lemma LowerPrefix(s: string, n: nat)
    requires n <= |s|
    ensures Lower(s[..n]) == Lower(s)[..n]
  {
  }

  /** Whatever the answer, the summary of a non-empty tweet is a passage of
      the sources, ignoring case: the fallback is the tweet's own opening. */
  lemma SummaryIsPassage(tweet: string, reposted: string, quoted: string, a: Attempt)
    requires tweet != ""
    ensures Contains(Lower(Sources(tweet, reposted, quoted)), Lower(ExtractSummary(tweet, reposted, quoted, a)))
  {
    var r := ExtractSummary(tweet, reposted, quoted, a);
    if r == Prefix100(tweet) {
      var s := Sources(tweet, reposted, quoted);
      SourcesStartWithTweet(tweet, reposted, quoted);
      assert r == s[..|r|];
      LowerPrefix(s, |r|);
      assert OccursAt(Lower(s), Lower(r), 0);
    }
  }

  // ---------------------------------------------------------------
  // _check_duplicate_content
  // ---------------------------------------------------------------

  /** How one listed index fares in `[items[idx] for idx in ids if idx <
      len(items)]`: filtered out by the guard, selecting a position, or
      raising. */
  datatype Pick = Skipped | Picked(k: nat) | Raised

  /** An integer index: the guard lets every index below the length through,
      and Python counts negative ones from the end. */
  function IntPick(n: nat, i: int): (p: Pick)
    ensures p.Picked? ==> p.k < n
  {
    if i >= n then Skipped
    else if i >= 0 then Picked(i)
    else if n + i >= 0 then Picked(n + i)
    else Raised
  }

  /** Booleans are integers; a float passes the guard only to fail as an
      index; anything else cannot be compared with an int. */
  function PickIndex(n: nat, id: Json): (p: Pick)
    ensures p.Picked? ==> p.k < n
  {
    match id
    case JInt(i) => IntPick(n, i)
    case JBool(b) => IntPick(n, if b then 1 else 0)
    case JReal(x) => if x >= n as real then Skipped else Raised
    case _ => Raised
  }

  /** The comprehension, or `None` when it raises. */
  function Selection<T>(items: seq<T>, ids: seq<Json>): (r: Option<seq<T>>)
    ensures r.Some? ==> |r.value| <= |ids|
    ensures r.Some? ==> forall x :: x in r.value ==> x in items
  {
    if ids == [] then Some([])
    else
      match (PickIndex(|items|, ids[0]), Selection(items, ids[1..]))
      case (Raised, _) => None
      case (_, None) => None
      case (Skipped, Some(rest)) => Some(rest)
      case (Picked(k), Some(rest)) => Some([items[k]] + rest)
  }

  /** The `keep_item_ids` list of an answer that passes the shape test:
      a dict whose `are_duplicates` is not `None` and whose `keep_item_ids`
      is a list. */
  function KeepIds(j: Json): Option<seq<Json>>
  {
    if j.JObj? && Get(j.entries, "are_duplicates").Some? && Get(j.entries, "are_duplicates").value != JNull
       && Field(j.entries, "keep_item_ids").JList?
    then Some(Field(j.entries, "keep_item_ids").items)
    else None
  }

  /** `_check_duplicate_content`: the selected items when the selection is
      non-empty; otherwise, and for every failure, the items unchanged. */
  function CheckDuplicateContent<T>(items: seq<T>, a: Attempt): (r: seq<T>)
    ensures |items| <= 1 ==> r == items
    ensures Usable(a).None? ==> r == items
    ensures forall x :: x in r ==> x in items
    ensures r == [] <==> items == []
  {
    if |items| <= 1 then items
    else
      match Usable(a)
      case None => items
      case Some(reply) =>
        match KeepIds(reply.json.value)
        case None => items
        case Some(ids) =>
          match Selection(items, ids)
          case Some(kept) => if kept != [] then kept else items
          case None => items
  }

  /** With indices that are all in range, the selection is exactly the
      listed items, in listed order. */
  lemma {:induction false} SelectionInRange<T>(items: seq<T>, ids: seq<Json>)
    requires forall i :: 0 <= i < |ids| ==> ids[i].JInt? && 0 <= ids[i].i < |items|
    ensures Selection(items, ids).Some?
    ensures |Selection(items, ids).value| == |ids|
    ensures forall i :: 0 <= i < |ids| ==> Selection(items, ids).value[i] == items[ids[i].i]
  {
    if ids != [] {
      SelectionInRange(items, ids[1..]);
      assert PickIndex(|items|, ids[0]) == Picked(ids[0].i);
      var rest := Selection(items, ids[1..]).value;
      assert Selection(items, ids).value == [items[ids[0].i]] + rest;
      forall i | 0 <= i < |ids|
        ensures Selection(items, ids).value[i] == items[ids[i].i]
      {
        if i > 0 {
          assert ids[i] == ids[1..][i - 1];
        }
      }
    }
  }

  /** An answer that lists in-range indices keeps exactly those items, in
      listed order. */
  lemma DuplicateCheckKeepsListed<T>(items: seq<T>, a: Attempt, ids: seq<Json>)
    requires |items| >= 2 && Usable(a).Some? && KeepIds(Usable(a).value.json.value) == Some(ids)
    requires ids != [] && forall i :: 0 <= i < |ids| ==> ids[i].JInt? && 0 <= ids[i].i < |items|
    ensures |CheckDuplicateContent(items, a)| == |ids|
    ensures forall i :: 0 <= i < |ids| ==> CheckDuplicateContent(items, a)[i] == items[ids[i].i]
  {
    SelectionInRange(items, ids);
  }

  lemma SelectOne<T>(items: seq<T>, id: Json)
    ensures Selection(items, [id]) == match PickIndex(|items|, id)
      case Raised => None
      case Skipped => Some([])
      case Picked(k) => Some([items[k]])
  {
    assert [id][0] == id && [id][1..] == [];
    assert Selection(items, []) == Some([]);
    var p := PickIndex(|items|, id);
    if p.Picked? {
      assert [items[p.k]] + [] == [items[p.k]];
    }
  }

  /** The guard `idx < len(items)` lets negative indices through: `-1`
      selects the last item. */
  lemma NegativeIndexSelectsLast<T>(x: T, y: T)
    ensures Selection([x, y], [JInt(-1)]) == Some([y])
    ensures Selection([x, y], [JInt(2), JInt(0)]) == Some([x])
  {
    var xy := [x, y];
    assert |xy| == 2 && xy[0] == x && xy[1] == y;
    SelectOne(xy, JInt(-1));
    SelectOne(xy, JInt(0));
    assert [JInt(2), JInt(0)][1..] == [JInt(0)];
    assert PickIndex(2, JInt(2)) == Skipped;
  }

  // ---------------------------------------------------------------
  // process_column
  // ---------------------------------------------------------------

  /** The record `process_column` builds: author, text, url, created_at. */
  datatype Filtered = Filtered(author: Json, text: string, url: Json, createdAt: Json)

  /** `item.get(k, '')` when it is a string. */
  function TextField(item: Record, k: string): Option<string>
  {
    match GetOr(item, k, JStr(""))
    case JStr(s) => Some(s)
    case _ => None
  }

  /** The loop body for one item: its filtered record, or nothing when the
      item is skipped (not a dict, or an empty summary). */
  function FilterItem(item: Json, a: Attempt): (r: Option<Filtered>)
    ensures r.Some? ==> r.value.text != ""
  {
    if !item.JObj? then None
    else
      match (TextField(item.entries, "tweet"), TextField(item.entries, "reposted_content"),
             TextField(item.entries, "quoted_content"))
      case (Some(t), Some(rp), Some(q)) =>
        var e := ExtractSummary(t, rp, q, a);
        if e == "" then None
        else Some(Filtered(GetOr(item.entries, "author", JStr("")), e, GetOr(item.entries, "url", JStr("")),
                           GetOr(item.entries, "created_at", JStr(""))))
      case _ => None
  }

  function OptSeq<T>(o: Option<T>): seq<T>
  {
    if o.Some? then [o.value] else []
  }

  /** What the loop body makes of each item; `extracts[k]` answers the
      extraction request for item `k`. */
  function Outcomes(items: seq<Json>, extracts: seq<Attempt>): (os: seq<Option<Filtered>>)
    ensures |os| == |items|
  {
    seq(|items|, k requires 0 <= k < |items| => FilterItem(items[k], AttemptAt(extracts, k)))
  }

  /** The records kept at positions `lo` to `hi - 1`, in order. */
  function Kept<T>(os: seq<Option<T>>, lo: nat, hi: nat): seq<T>
    requires lo <= hi <= |os|
    decreases hi - lo
  {
    if hi == lo then [] else Kept(os, lo, hi - 1) + OptSeq(os[hi - 1])
  }

  const COLUMN_CHUNK: nat := 10

  function ColumnChunkEnd(n: nat, i: nat): (e: nat)
    requires i < n
    ensures i < e <= n
  {
    if i + COLUMN_CHUNK < n then i + COLUMN_CHUNK else n
  }

  /** The chunk loop from index `i`: each chunk's records after the
      within-chunk duplicate check (`dups[c]` answers it for chunk `c`). */
  function ColumnFrom<T>(os: seq<Option<T>>, dups: seq<Attempt>, i: nat): seq<T>
    decreases |os| - i
  {
    if i >= |os| then []
    else
      CheckDuplicateContent(Kept(os, i, ColumnChunkEnd(|os|, i)), AttemptAt(dups, i / COLUMN_CHUNK))
      + ColumnFrom(os, dups, i + COLUMN_CHUNK)
  }

  /** `process_column` returns `[]` or `{'tweets': ...}`. */
  datatype ColumnResult = NoTweets | Tweets(tweets: seq<Filtered>)

  /** `process_column`: chunks of ten, a duplicate check per chunk and a
      final one over everything when more than one record survives. */
  function ProcessColumnSpec(items: seq<Json>, extracts: seq<Attempt>, dups: seq<Attempt>, final: Attempt): ColumnResult
  {
    var all := ColumnFrom(Outcomes(items, extracts), dups, 0);
    var kept := if |all| > 1 then CheckDuplicateContent(all, final) else all;
    if kept == [] then NoTweets else Tweets(kept)
  }

  lemma KeptSnoc<T>(os: seq<Option<T>>, lo: nat, hi: nat)
    requires lo <= hi < |os|
    ensures Kept(os, lo, hi + 1) == Kept(os, lo, hi) + OptSeq(os[hi])
  {
  }

  lemma FilterChunkStep(items: seq<Json>, extracts: seq<Attempt>, lo: nat, j: nat)
    requires lo <= j < |items|
    ensures Kept(Outcomes(items, extracts), lo, j + 1)
         == Kept(Outcomes(items, extracts), lo, j) + OptSeq(FilterItem(items[j], AttemptAt(extracts, j)))
  {
    KeptSnoc(Outcomes(items, extracts), lo, j);
  }

  /** The inner loop over one chunk. */
  method FilterChunk(items: seq<Json>, extracts: seq<Attempt>, lo: nat, hi: nat) returns (chunk: seq<Filtered>)
    requires lo <= hi <= |items|
    ensures chunk == Kept(Outcomes(items, extracts), lo, hi)
  {
    chunk := [];
    var j := lo;
    while j < hi
      invariant lo <= j <= hi
      invariant chunk == Kept(Outcomes(items, extracts), lo, j)
    {
      var f := FilterItem(items[j], AttemptAt(extracts, j));
      FilterChunkStep(items, extracts, lo, j);
      chunk := chunk + OptSeq(f);
      j := j + 1;
    }
  }

  lemma ColumnFromStep<T>(os: seq<Option<T>>, dups: seq<Attempt>, i: nat)
    requires i < |os|
    ensures ColumnFrom(os, dups, i)
         == CheckDuplicateContent(Kept(os, i, ColumnChunkEnd(|os|, i)), AttemptAt(dups, i / COLUMN_CHUNK))
            + ColumnFrom(os, dups, i + COLUMN_CHUNK)
  {
  }

  lemma ColumnLoopStep<T>(os: seq<Option<T>>, dups: seq<Attempt>, i: nat, filtered: seq<T>, chunk: seq<T>, whole: seq<T>)
    requires i < |os|
    requires filtered + ColumnFrom(os, dups, i) == whole
    requires chunk == Kept(os, i, ColumnChunkEnd(|os|, i))
    ensures chunk == [] ==> filtered + ColumnFrom(os, dups, i + COLUMN_CHUNK) == whole
    ensures chunk != [] ==>
      filtered + CheckDuplicateContent(chunk, AttemptAt(dups, i / COLUMN_CHUNK)) + ColumnFrom(os, dups, i + COLUMN_CHUNK) == whole
  {
    ColumnFromStep(os, dups, i);
    ConcatAssoc(filtered, CheckDuplicateContent(chunk, AttemptAt(dups, i / COLUMN_CHUNK)), ColumnFrom(os, dups, i + COLUMN_CHUNK));
  }

  lemma ColumnDone<T>(os: seq<Option<T>>, dups: seq<Attempt>, i: nat, filtered: seq<T>, whole: seq<T>)
    requires i >= |os| && filtered + ColumnFrom(os, dups, i) == whole
    ensures filtered == whole
  {
    assert ColumnFrom(os, dups, i) == [];
    assert filtered + [] == filtered;
  }

  method ProcessColumn(items: seq<Json>, extracts: seq<Attempt>, dups: seq<Attempt>, final: Attempt)
    returns (r: ColumnResult)
    ensures r == ProcessColumnSpec(items, extracts, dups, final)
  {
    ghost var os := Outcomes(items, extracts);
    var filtered: seq<Filtered> := [];
    var i := 0;
    while i < |items|
      invariant filtered + ColumnFrom(os, dups, i) == ColumnFrom(os, dups, 0)
      decreases |items| - i
    {
      var chunkFiltered := FilterChunk(items, extracts, i, ColumnChunkEnd(|items|, i));
      ColumnLoopStep(os, dups, i, filtered, chunkFiltered, ColumnFrom(os, dups, 0));
      if chunkFiltered != [] {
        chunkFiltered := CheckDuplicateContent(chunkFiltered, AttemptAt(dups, i / COLUMN_CHUNK));
        filtered := filtered + chunkFiltered;
      }
      i := i + COLUMN_CHUNK;
    }
    ColumnDone(os, dups, i, filtered, ColumnFrom(os, dups, 0));
    if |filtered| > 1 {
      filtered := CheckDuplicateContent(filtered, final);
    }
    if filtered == [] {
      return NoTweets;
    }
    return Tweets(filtered);
  }

  /** No record in a range exactly when every item of it is skipped. */
  lemma {:induction false} KeptEmpty<T>(os: seq<Option<T>>, lo: nat, hi: nat)
    requires lo <= hi <= |os|
    ensures Kept(os, lo, hi) == [] <==> forall k :: lo <= k < hi ==> os[k].None?
    decreases hi - lo
  {
    if hi > lo {
      KeptEmpty(os, lo, hi - 1);
    }
  }

  lemma {:induction false} ColumnFromEmpty<T>(os: seq<Option<T>>, dups: seq<Attempt>, i: nat)
    ensures ColumnFrom(os, dups, i) == [] <==> forall k :: i <= k < |os| ==> os[k].None?
    decreases |os| - i
  {
    if i < |os| {
      KeptEmpty(os, i, ColumnChunkEnd(|os|, i));
      ColumnFromEmpty(os, dups, i + COLUMN_CHUNK);
    }
  }

  /** A column yields no tweets exactly when every item is skipped, whatever
      the duplicate checks answer. */
  lemma ProcessColumnEmptyIff(items: seq<Json>, extracts: seq<Attempt>, dups: seq<Attempt>, final: Attempt)
    ensures ProcessColumnSpec(items, extracts, dups, final) == NoTweets
        <==> forall k :: 0 <= k < |items| ==> FilterItem(items[k], AttemptAt(extracts, k)).None?
  {
    var os := Outcomes(items, extracts);
    ColumnFromEmpty(os, dups, 0);
    forall k | 0 <= k < |items|
      ensures os[k] == FilterItem(items[k], AttemptAt(extracts, k))
    {
    }
  }

  lemma {:induction false} KeptFromOutcomes<T>(os: seq<Option<T>>, lo: nat, hi: nat)
    requires lo <= hi <= |os|
    ensures forall x :: x in Kept(os, lo, hi) ==> Some(x) in os
    decreases hi - lo
  {
    if hi > lo {
      KeptFromOutcomes(os, lo, hi - 1);
    }
  }

  lemma {:induction false} ColumnFromFromOutcomes<T>(os: seq<Option<T>>, dups: seq<Attempt>, i: nat)
    ensures forall x :: x in ColumnFrom(os, dups, i) ==> Some(x) in os
    decreases |os| - i
  {
    if i < |os| {
      KeptFromOutcomes(os, i, ColumnChunkEnd(|os|, i));
      ColumnFromFromOutcomes(os, dups, i + COLUMN_CHUNK);
    }
  }

  /** Every tweet a column yields is the filtered record of one of its
      items: the duplicate checks only ever select. */
  lemma ProcessColumnFromItems(items: seq<Json>, extracts: seq<Attempt>, dups: seq<Attempt>, final: Attempt, x: Filtered)
    requires ProcessColumnSpec(items, extracts, dups, final).Tweets?
    requires x in ProcessColumnSpec(items, extracts, dups, final).tweets
    ensures exists k :: 0 <= k < |items| && FilterItem(items[k], AttemptAt(extracts, k)) == Some(x)
  {
    var os := Outcomes(items, extracts);
    ColumnFromFromOutcomes(os, dups, 0);
    var k :| 0 <= k < |os| && os[k] == Some(x);
    assert FilterItem(items[k], AttemptAt(extracts, k)) == Some(x);
  }

  lemma {:induction false} KeptAppend<T>(os: seq<Option<T>>, lo: nat, mid: nat, hi: nat)
    requires lo <= mid <= hi <= |os|
    ensures Kept(os, lo, mid) + Kept(os, mid, hi) == Kept(os, lo, hi)
    decreases hi - mid
  {
    if hi > mid {
      KeptAppend(os, lo, mid, hi - 1);
    }
  }

  lemma {:induction false} ColumnFromWithoutAnswers<T>(os: seq<Option<T>>, i: nat)
    requires i <= |os|
    ensures ColumnFrom(os, [], i) == Kept(os, i, |os|)
    decreases |os| - i
  {
    if i < |os| {
      var end := ColumnChunkEnd(|os|, i);
      if end < |os| {
        ColumnFromWithoutAnswers(os, end);
      } else {
        assert ColumnFrom(os, [], i + COLUMN_CHUNK) == [];
      }
      KeptAppend(os, i, end, |os|);
    }
  }

  /** When no duplicate check gets an answer, a column yields the filtered
      record of every item that is not skipped, in order. */
  lemma ProcessColumnWithoutAnswers(items: seq<Json>, extracts: seq<Attempt>)
    ensures var all := Kept(Outcomes(items, extracts), 0, |items|);
      ProcessColumnSpec(items, extracts, [], Attempt(None, None)) == if all == [] then NoTweets else Tweets(all)
  {
    assert Usable(Attempt(None, None)).None?;
    ColumnFromWithoutAnswers(Outcomes(items, extracts), 0);
  }

  // ---------------------------------------------------------------
  // _get_category_name
  // ---------------------------------------------------------------

  const CATEGORY_NAMES: map<string, string> :=
    map["0" := "$TRUMP", "1" := "Stablecoins", "2" := "SEI", "3" := "SUI", "4" := "Marketing", "5" := "Yappers"]

  /** `category_map.get(column_id, f'Category_{column_id}')`. */
  function CategoryName(id: string): string
  {
    if id in CATEGORY_NAMES then CATEGORY_NAMES[id] else "Category_" + id
  }

  /** Distinct column ids get distinct category names: the six fixed names
      never look like a generated `Category_<id>`. */
  lemma CategoryNameInjective(a: string, b: string)
    requires a != b
    ensures CategoryName(a) != CategoryName(b)
  {
    if a !in CATEGORY_NAMES && b !in CATEGORY_NAMES {
      assert ("Category_" + a)[9..] == a && ("Category_" + b)[9..] == b;
    } else if a in CATEGORY_NAMES && b !in CATEGORY_NAMES {
      GeneratedNameNotFixed(a, b);
    } else if a !in CATEGORY_NAMES && b in CATEGORY_NAMES {
      GeneratedNameNotFixed(b, a);
    }
  }

  lemma GeneratedNameNotFixed(a: string, b: string)
    requires a in CATEGORY_NAMES && b !in CATEGORY_NAMES
    ensures CATEGORY_NAMES[a] != "Category_" + b
  {
    var g := "Category_" + b;
    assert g[0] == 'C' && |g| >= 9;
  }

  // ---------------------------------------------------------------
  // _should_run_content_filter
  // ---------------------------------------------------------------

  /** `_load_state`: the stored JSON, or the default with both dates `None`
      when the file is missing or does not decode. */
  function LoadRunState(file: Option<Content>): Json
  {
    if file.Some? && file.value.Parsed? then file.value.json
    else JObj([("last_run_date", JNull), ("last_processed_date", JNull)])
  }

  /** `_should_run_content_filter` as written. A recorded `last_run_date`
      that parses gives a naive datetime, and subtracting it from the
      timezone-aware current time raises `TypeError`; one that does not parse
      raises in `strptime`. Either way the handler returns False. */
  function ShouldRunAsWritten(file: Option<Content>): bool
  {
    var st := LoadRunState(file);
    st.JObj? && !Truthy(GetOr(st.entries, "last_run_date", JNull))
  }

  function DaysBeforeYear(y: nat): nat
    requires y >= 1
  {
    365 * (y - 1) + (y - 1) / 4 - (y - 1) / 100 + (y - 1) / 400
  }

  function DaysBeforeMonth(y: nat, m: nat): nat
    requires 1 <= m <= 12
  {
    if m == 1 then 0 else DaysBeforeMonth(y, m - 1) + DaysInMonth(y, m - 1)
  }

  /** The day number of a YYYYMMDD date (day 1 is 0001-01-01). */
  function DayNumber(s: string): int
    requires IsYmd(s)
  {
    var y := DigitsValue(s[..4]);
    var m := DigitsValue(s[4..6]);
    var d := DigitsValue(s[6..]);
    DaysBeforeYear(y) + DaysBeforeMonth(y, m) + d
  }

  /** The evidently intended test: run when no run is recorded, or when the
      recorded day is at least three days before `today`. */
  function ShouldRun(file: Option<Content>, today: string): bool
    requires IsYmd(today)
  {
    var st := LoadRunState(file);
    if !st.JObj? then false
    else
      var last := GetOr(st.entries, "last_run_date", JNull);
      if !Truthy(last) then true
      else last.JStr? && IsYmd(last.s) && DayNumber(today) - DayNumber(last.s) >= 3
  }

  /** As written, once any `last_run_date` is recorded the filter never
      runs again; with the intended test it runs whenever that date lies
      three or more days back. */
  lemma AsWrittenNeverReruns(file: Option<Content>, today: string, last: string)
    requires IsYmd(today) && IsYmd(last) && DayNumber(today) - DayNumber(last) >= 3
    requires LoadRunState(file).JObj? && GetOr(LoadRunState(file).entries, "last_run_date", JNull) == JStr(last)
    ensures !ShouldRunAsWritten(file)
    ensures ShouldRun(file, today)
  {
  }

  /** The intended gate agrees with the written one whenever no run is
      recorded, and once it lets a run through it keeps doing so on every
      later day until a new date is recorded. */
  lemma ShouldRunStaysDue(file: Option<Content>, today: string, later: string)
    requires IsYmd(today) && IsYmd(later) && DayNumber(today) <= DayNumber(later)
    ensures !LoadRunState(file).JObj? || !Truthy(GetOr(LoadRunState(file).entries, "last_run_date", JNull))
      ==> ShouldRun(file, today) == ShouldRunAsWritten(file)
    ensures ShouldRun(file, today) ==> ShouldRun(file, later)
  {
  }
}
