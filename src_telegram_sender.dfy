// src/senders/telegram_sender.py: formats the latest news summary as
// Telegram HTML, once per configured channel with a footer naming the
// channel, and sends it through the Bot API. The channels' usernames and
// whether a send raised are given as oracles.

module SrcTelegramSender {
  import opened Common
  import opened Senders
  import Emoji
  import NewsGenerator

  // ---------------------------------------------------------------
  // `format_text`
  // ---------------------------------------------------------------

  /** The markers that make `format_text` leave a text as it is. */
  const TAGS: seq<string> := ["<u>", "<b>", "<i>", "<a href"]

  predicate Formatted(text: string)
  {
    exists j :: 0 <= j < |TAGS| && Contains(text, TAGS[j])
  }

  /** What `format_text` writes for a stripped, non-blank line: headers
      bold, italic and underlined with the date spelt out and "Rollup"
      renamed, subcategories bold and underlined, other text escaped, and
      links with a zero-width space after "https:" so that Telegram does
      not embed them. */
  function FormatLine(line: string): (r: string)
    ensures IsHeader(line) ==> StartsWith(r, "<u><b><i>")
    ensures IsSubcategory(line) ==> r == "<u><b>" + Escape(line) + "</b></u>"
    ensures !IsHeader(line) && !IsSubcategory(line) && !StartsWith(line, "http") ==> r == Escape(line)
  {
    if IsHeader(line) then
      var (date, rest) := Partition(line, " - ").value;
      match FormatDate(date)
      case Some(day) => "<u><b><i>" + Escape(day + " - " + Replace(rest, "Rollup", "News Drop")) + "</i></b></u>"
      case None => "<u><b><i>" + Escape(line) + "</i></b></u>"
    else if IsSubcategory(line) then "<u><b>" + Escape(line) + "</b></u>"
    else if !StartsWith(line, "http") then Escape(line)
    else Replace(line, "https:", "https:\U{200B}")
  }

  function FormatText(text: string): string
  {
    if text == "" then ""
    else if Formatted(text) then text
    else Join(FormatFrom(SplitOn(text, '\n'), [], FormatLine), "\n")
  }

  /** `format_text`. */
  method FormatTextLoop(text: string) returns (r: string)
    ensures r == FormatText(text)
  {
    if text == "" {
      return "";
    }
    for t := 0 to |TAGS|
      invariant forall j :: 0 <= j < t ==> !Contains(text, TAGS[j])
    {
      if Contains(text, TAGS[t]) {
        return text;
      }
    }
    var lines := SplitOn(text, '\n');
    var out: seq<string> := [];
    var i := 0;
    while i < |lines|
      invariant 0 <= i <= |lines|
      invariant FormatFrom(lines, [], FormatLine) == FormatFrom(lines[i..], out, FormatLine)
      decreases |lines| - i
    {
      assert lines[i..][1..] == lines[i + 1..];
      var line := Strip(lines[i]);
      if line != [] {
        out := out + Sep(out, line) + [FormatLine(line)];
      }
      i := i + 1;
    }
    assert lines[i..] == [];
    r := Join(out, "\n");
  }

  /** A tweet line is escaped and nothing else: it holds no character that
      could open a tag, and unescaping gives it back. */
  lemma PlainLineEscaped(line: string)
    requires !IsHeader(line) && !IsSubcategory(line) && !StartsWith(line, "http")
    ensures forall i :: 0 <= i < |FormatLine(line)| ==> !IsMarkup(FormatLine(line)[i])
    ensures Unescape(FormatLine(line)) == line
  {
    EscapeNoMarkup(line);
    EscapeRoundTrip(line);
  }

  /** A text holding `<u>` is left as it is. */
  lemma UnderlinedUnchanged(text: string)
    requires Contains(text, "<u>")
    ensures FormatText(text) == text
  {
    assert Formatted(text) by {
      assert Contains(text, TAGS[0]);
    }
    var k: nat :| k <= |text| && OccursAt(text, "<u>", k);
    assert text != "";
  }

  /** A header or a subcategory line is written starting with `<u>`. */
  lemma UnderlinedLine(line: string)
    requires IsHeader(line) || IsSubcategory(line)
    ensures Contains(FormatLine(line), "<u>")
  {
    var r := FormatLine(line);
    assert StartsWith(r, "<u><b>");
    assert r[..3] == "<u><b>"[..3];
    assert OccursAt(r, "<u>", 0);
  }

  /** Formatting a text with a header or a subcategory line twice changes
      nothing: the first pass writes `<u>`, and the second leaves the text
      alone. */
  lemma FormatTextIdempotent(text: string, i: nat)
    requires text != "" && i < |SplitOn(text, '\n')|
    requires var line := Strip(SplitOn(text, '\n')[i]);
      line != [] && (IsHeader(line) || IsSubcategory(line))
    ensures FormatText(FormatText(text)) == FormatText(text)
  {
    if Formatted(text) {
      assert FormatText(text) == text;
    } else {
      var lines := SplitOn(text, '\n');
      var line := Strip(lines[i]);
      var out := FormatFrom(lines, [], FormatLine);
      var once := Join(out, "\n");
      assert FormatText(text) == once;
      FormatFromEmits(lines, [], FormatLine, i);
      var k :| 0 <= k < |out| && out[k] == FormatLine(line);
      JoinContains(out, "\n", k);
      UnderlinedLine(line);
      ContainsTrans(once, FormatLine(line), "<u>");
      UnderlinedUnchanged(once);
    }
  }

  // ---------------------------------------------------------------
  // `format_category_summary`
  // ---------------------------------------------------------------

  /** `f"<u><b><i>{category_key} News Drop</i></b></u> ~\n"`. */
  function HeaderLine(key: string): string
  {
    "<u><b><i>" + key + " News Drop</i></b></u> ~\n"
  }

  /** `f"<u><b>{subcategory}</b></u>"`, followed by the emoji when there is
      one; the name is not escaped. */
  function SubcategoryLine(sub: string, e: string): string
  {
    "<u><b>" + sub + "</b></u>" + (if e != "" then " " + e else "")
  }

  /** `html.escape` raises on anything but a string. */
  predicate Escapable(t: (Json, Json, Json))
  {
    t.0.JStr? && t.1.JStr?
  }

  /** `f"- <b>{html.escape(attribution)}</b> <a href='{url}'>{html.escape(content)}</a>"`. */
  function TweetLine(t: (Json, Json, Json), show: Json -> string): string
    requires Escapable(t)
  {
    "- <b>" + Escape(t.0.s) + "</b> <a href='" + NewsGenerator.Text(t.2, show) + "'>" + Escape(t.1.s) + "</a>"
  }

  /** The lines written for the tweets `ts` in order: the first one that
      cannot be escaped raises and ends the subcategory. */
  function Rendered(ts: seq<(Json, Json, Json)>, show: Json -> string): (r: seq<string>)
    ensures |r| <= |ts|
  {
    if ts == [] then []
    else if !Escapable(ts[0]) then []
    else [TweetLine(ts[0], show)] + Rendered(ts[1..], show)
  }

  /** The rendered lines are the longest run of escapable tweets, each
      written by `TweetLine`. */
  lemma {:induction false} RenderedCharacterised(ts: seq<(Json, Json, Json)>, show: Json -> string)
    ensures var r := Rendered(ts, show);
      && (forall i :: 0 <= i < |r| ==> Escapable(ts[i]) && r[i] == TweetLine(ts[i], show))
      && (|r| < |ts| ==> !Escapable(ts[|r|]))
    decreases |ts|
  {
    if ts != [] && Escapable(ts[0]) {
      RenderedCharacterised(ts[1..], show);
    }
  }

  lemma {:induction false} RenderedAppend(a: seq<(Json, Json, Json)>, b: seq<(Json, Json, Json)>,
                                          show: Json -> string)
    ensures Rendered(a + b, show)
         == if |Rendered(a, show)| == |a| then Rendered(a, show) + Rendered(b, show) else Rendered(a, show)
    decreases |a|
  {
    if a == [] {
      assert a + b == b;
    } else {
      assert (a + b)[0] == a[0] && (a + b)[1..] == a[1..] + b;
      RenderedAppend(a[1..], b, show);
    }
  }

  /** Rendering one more tweet after `k` escapable ones: its line follows
      theirs, or, when it cannot be escaped, nothing after them is
      rendered. */
  lemma RenderedTripleStep(ts: seq<(Json, Json, Json)>, k: nat, show: Json -> string)
    requires k < |ts| && |Rendered(ts[..k], show)| == k
    ensures Escapable(ts[k]) ==> Rendered(ts[..k + 1], show) == Rendered(ts[..k], show) + [TweetLine(ts[k], show)]
    ensures !Escapable(ts[k]) ==> Rendered(ts, show) == Rendered(ts[..k], show) && |Rendered(ts, show)| < |ts|
  {
    if Escapable(ts[k]) {
      assert ts[..k + 1] == ts[..k] + [ts[k]];
      RenderedAppend(ts[..k], [ts[k]], show);
      assert Rendered([ts[k]], show) == [TweetLine(ts[k], show)] + Rendered([], show);
    } else {
      RenderedAppend(ts[..k], ts[k..], show);
      assert ts[..k] + ts[k..] == ts;
      assert ts[k..][0] == ts[k];
      assert Rendered(ts[k..], show) == [];
    }
  }

  /** One author's tweets; `complete` is false when one of them raised. */
  method AppendGroup(lines: seq<string>, g: Group, show: Json -> string) returns (out: seq<string>, complete: bool)
    ensures out == lines + Rendered(Triples(g), show)
    ensures complete <==> |Rendered(Triples(g), show)| == |g.items|
  {
    out := lines;
    ghost var ts := Triples(g);
    for k := 0 to |g.items|
      invariant out == lines + Rendered(ts[..k], show)
      invariant |Rendered(ts[..k], show)| == k
    {
      var t := (g.author, g.items[k].0, g.items[k].1);
      assert t == ts[k];
      RenderedTripleStep(ts, k, show);
      if !(t.0.JStr? && t.1.JStr?) {
        return out, false;
      }
      out := out + [TweetLine(t, show)];
    }
    assert ts[..|g.items|] == ts;
    complete := true;
  }

  /** The nested loops that write each author's tweets, up to the first
      one that raises. */
  method AppendTweets(lines: seq<string>, gs: seq<Group>, show: Json -> string) returns (out: seq<string>)
    ensures out == lines + Rendered(Flat(gs), show)
  {
    out := lines;
    for g := 0 to |gs|
      invariant out == lines + Rendered(Flat(gs[..g]), show)
      invariant |Rendered(Flat(gs[..g]), show)| == |Flat(gs[..g])|
    {
      ghost var done := Rendered(Flat(gs[..g]), show);
      ghost var more := Rendered(Triples(gs[g]), show);
      var complete;
      out, complete := AppendGroup(out, gs[g], show);
      RenderedGroupStep(gs, g, show);
      ConcatAssoc(lines, done, more);
      if !complete {
        return;
      }
    }
    assert gs[..|gs|] == gs;
  }

  /** Rendering one more group: its lines follow the earlier groups'; when
      one of its tweets raises, nothing after it is rendered. */
  lemma RenderedGroupStep(gs: seq<Group>, g: nat, show: Json -> string)
    requires g < |gs| && |Rendered(Flat(gs[..g]), show)| == |Flat(gs[..g])|
    ensures Rendered(Flat(gs[..g + 1]), show) == Rendered(Flat(gs[..g]), show) + Rendered(Triples(gs[g]), show)
    ensures |Rendered(Triples(gs[g]), show)| == |gs[g].items| ==>
      |Rendered(Flat(gs[..g + 1]), show)| == |Flat(gs[..g + 1])|
    ensures |Rendered(Triples(gs[g]), show)| != |gs[g].items| ==>
      Rendered(Flat(gs), show) == Rendered(Flat(gs[..g + 1]), show)
  {
    FlatSnoc(gs, g);
    RenderedAppend(Flat(gs[..g]), Triples(gs[g]), show);
    assert gs[..g + 1] + gs[g + 1..] == gs;
    FlatAppend(gs[..g + 1], gs[g + 1..]);
    RenderedAppend(Flat(gs[..g + 1]), Flat(gs[g + 1..]), show);
  }

  /** The lines one subcategory adds after `lines`, `e` being its emoji:
      an empty line unless only the header is above; then, unless taking
      the length of its value raises, its own line and its tweets author by
      author, which are dropped when grouping them raises. */
  function SubcategoryLines(lines: seq<string>, sub: string, tweets: Json, e: string,
                            show: Json -> string): seq<string>
  {
    var sep := if |lines| > 1 then [""] else [];
    if PyLen(tweets).None? then sep
    else match Grouped(tweets, NAMES)
      case None => sep + [SubcategoryLine(sub, e)]
      case Some(gs) => sep + [SubcategoryLine(sub, e)] + Rendered(Flat(gs), show)
  }

  /** One pass of the subcategory loop, given the emoji it got. */
  method AppendSubcategory(lines: seq<string>, sub: string, tweets: Json, e: string, show: Json -> string)
    returns (out: seq<string>)
    ensures out == lines + SubcategoryLines(lines, sub, tweets, e, show)
  {
    out := lines;
    if |lines| > 1 {
      out := out + [""];
    }
    ghost var sep := if |lines| > 1 then [""] else [];
    assert out == lines + sep;
    if PyLen(tweets).None? {
      return;
    }
    var line := "<u><b>" + sub + "</b></u>";
    if e != "" {
      line := line + " " + e;
    }
    assert line == SubcategoryLine(sub, e);
    ConcatAssoc(lines, sep, [line]);
    out := out + [line];
    var groups := GroupTweets(tweets, NAMES);
    if groups.Some? {
      out := AppendTweets(out, groups.value, show);
      ConcatAssoc(lines, sep + [line], Rendered(Flat(groups.value), show));
    }
  }

  /** The header and the subcategories' lines, `es` being the emojis the
      subcategories `subs` got. */
  function BodyLines(key: string, subs: seq<(string, Json)>, es: seq<string>, show: Json -> string): seq<string>
    requires |es| == |subs|
    decreases |subs|
  {
    if subs == [] then [HeaderLine(key)]
    else
      var n := |subs| - 1;
      var prev := BodyLines(key, subs[..n], es[..n], show);
      prev + SubcategoryLines(prev, subs[n].0, subs[n].1, es[n], show)
  }

  lemma BodyLinesSnoc(key: string, subs: seq<(string, Json)>, es: seq<string>, e: string, show: Json -> string)
    requires |es| < |subs|
    ensures var prev := BodyLines(key, subs[..|es|], es, show);
      BodyLines(key, subs[..|es| + 1], es + [e], show)
      == prev + SubcategoryLines(prev, subs[|es|].0, subs[|es|].1, e, show)
  {
    var j := |es|;
    assert subs[..j + 1][..j] == subs[..j] && subs[..j + 1][j] == subs[j];
    assert (es + [e])[..j] == es && (es + [e])[j] == e;
  }

  /** The footer names the channel when its username is known. */
  function Footer(username: Option<string>): (r: string)
    ensures username.Some? && username.value != "" ==> Contains(r, username.value)
    ensures !(username.Some? && username.value != "") ==> r == "\nStay tuned for more updates!"
  {
    if username.Some? && username.value != "" then
      var r := "\nFollow @" + username.value + " for more updates";
      assert r[9..9 + |username.value|] == username.value;
      assert OccursAt(r, username.value, 9);
      r
    else "\nStay tuned for more updates!"
  }

  function SummaryText(key: string, subs: seq<(string, Json)>, es: seq<string>, username: Option<string>,
                       show: Json -> string): string
    requires |es| == |subs|
  {
    Join(BodyLines(key, subs, es, show) + [Footer(username)], "\n")
  }

  lemma {:induction false} BodyStartsWithHeader(key: string, subs: seq<(string, Json)>, es: seq<string>,
                                                show: Json -> string)
    requires |es| == |subs|
    ensures BodyLines(key, subs, es, show) != [] && BodyLines(key, subs, es, show)[0] == HeaderLine(key)
    decreases |subs|
  {
    if subs != [] {
      var n := |subs| - 1;
      BodyStartsWithHeader(key, subs[..n], es[..n], show);
    }
  }

  /** A summary passes `send_message`'s `format_text` unchanged: its
      header carries `<u>`. */
  lemma SummaryPassesUnchanged(key: string, subs: seq<(string, Json)>, es: seq<string>,
                               username: Option<string>, show: Json -> string)
    requires |es| == |subs|
    ensures var text := SummaryText(key, subs, es, username, show);
      text != "" && StartsWith(text, HeaderLine(key)) && FormatText(text) == text
  {
    var lines := BodyLines(key, subs, es, show) + [Footer(username)];
    BodyStartsWithHeader(key, subs, es, show);
    JoinStartsWith(lines, "\n");
    HeaderedUnchanged(Join(lines, "\n"), key);
  }

  /** Text that opens with a header line passes `format_text` unchanged. */
  lemma HeaderedUnchanged(text: string, key: string)
    requires StartsWith(text, HeaderLine(key))
    ensures text != "" && FormatText(text) == text
  {
    assert StartsWith(HeaderLine(key), "<u>") by {
      assert HeaderLine(key)[..3] == "<u>";
    }
    StartsWithTrans(text, HeaderLine(key), "<u>");
    assert OccursAt(text, "<u>", 0);
    UnderlinedUnchanged(text);
  }

  // ---------------------------------------------------------------
  // `process_news_summary`
  // ---------------------------------------------------------------

  /** A channel is sent to when its id is set and is all digits once the
      '-' are removed. */
  predicate Eligible(id: string)
  {
    id != "" && IsDigits(Replace(id, "-", ""))
  }

  /** The indices of the channels that are sent to, in order. */
  function EligibleIndices(channels: seq<(string, string)>): (r: seq<nat>)
    ensures forall k :: 0 <= k < |r| ==> r[k] < |channels| && Eligible(channels[r[k]].1)
    decreases |channels|
  {
    if channels == [] then []
    else
      var n := |channels| - 1;
      EligibleIndices(channels[..n]) + (if Eligible(channels[n].1) then [n] else [])
  }

  lemma EligibleIndicesSnoc(channels: seq<(string, string)>, i: nat)
    requires i < |channels|
    ensures EligibleIndices(channels[..i + 1])
         == EligibleIndices(channels[..i]) + (if Eligible(channels[i].1) then [i] else [])
  {
    assert channels[..i + 1][..i] == channels[..i];
  }

  /** `texts[k]` is the summary sent to channel `sent[k]`, `emojis[k]` its
      emojis. */
  predicate PostedSummaries(sent: seq<nat>, texts: seq<string>, emojis: seq<seq<string>>,
                            subs: seq<(string, Json)>, usernames: seq<Option<string>>, show: Json -> string)
  {
    && |texts| == |sent| && |emojis| == |sent|
    && forall k :: 0 <= k < |sent| ==>
         && sent[k] < |usernames| && |emojis[k]| == |subs|
         && texts[k] == SummaryText(CATEGORY, subs, emojis[k], usernames[sent[k]], show)
  }

  lemma PostedSnoc(sent: seq<nat>, texts: seq<string>, emojis: seq<seq<string>>,
                    subs: seq<(string, Json)>, usernames: seq<Option<string>>, show: Json -> string,
                    i: nat, es: seq<string>)
    requires PostedSummaries(sent, texts, emojis, subs, usernames, show)
    requires i < |usernames| && |es| == |subs|
    ensures PostedSummaries(sent + [i], texts + [SummaryText(CATEGORY, subs, es, usernames[i], show)],
                            emojis + [es], subs, usernames, show)
  {
  }

  class TelegramSender {
    /** The emojis handed out for the summary being formatted. */
    var usedEmojis: set<string>
    /** `EMOJI_MAP`. */
    const emojiMap: map<string, string>
    /** `TELEGRAM_CHANNELS` as (name, channel id) pairs, in order. */
    const channels: seq<(string, string)>
    /** Python's `str` on a non-string value. */
    const show: Json -> string

    constructor(emojiMap: map<string, string>, channels: seq<(string, string)>, show: Json -> string)
      ensures this.emojiMap == emojiMap && this.channels == channels && this.show == show
      ensures usedEmojis == {}
    {
      this.emojiMap := emojiMap;
      this.channels := channels;
      this.show := show;
      usedEmojis := {};
    }

    /** `format_category_summary`: `es` are the emojis the subcategories
        got, in order. */
    method FormatCategorySummary(category: string, summary: seq<(string, Json)>, username: Option<string>)
      returns (text: string, ghost es: seq<string>)
      modifies this`usedEmojis
      ensures CategoryData(category, summary).None? ==> text == "" && es == [] && usedEmojis == {}
      ensures CategoryData(category, summary).Some? ==>
        var (key, subs) := CategoryData(category, summary).value;
        && Emoji.AllocatedRun(Keys(subs), emojiMap, Emoji.MISENCODED_DEFAULTS, {}, es, usedEmojis)
        && text == SummaryText(key, subs, es, username, show)
    {
      usedEmojis := {};
      es := [];
      var found := FindCategoryKey(Keys(summary), category);
      if found.None? || summary[found.value].0 == "" {
        return "", es;
      }
      var key := summary[found.value].0;
      assert HasKey(summary, key);
      var data := Get(summary, key).value;
      if !data.JObj? {
        return "", es;
      }
      var lines;
      lines, es := FormatSubcategories(key, data.entries);
      lines := lines + [Footer(username)];
      text := Join(lines, "\n");
    }

    /** The subcategory loop of `format_category_summary`, from the used
        set it is given. */
    method FormatSubcategories(key: string, subs: seq<(string, Json)>)
      returns (lines: seq<string>, ghost es: seq<string>)
      modifies this`usedEmojis
      ensures Emoji.AllocatedRun(Keys(subs), emojiMap, Emoji.MISENCODED_DEFAULTS, old(usedEmojis), es, usedEmojis)
      ensures lines == BodyLines(key, subs, es, show)
    {
      ghost var start := usedEmojis;
      es := [];
      lines := [HeaderLine(key)];
      for j := 0 to |subs|
        invariant |es| == j
        invariant lines == BodyLines(key, subs[..j], es, show)
        invariant Emoji.AllocatedRun(Keys(subs[..j]), emojiMap, Emoji.MISENCODED_DEFAULTS, start, es, usedEmojis)
      {
        var sub := subs[j].0;
        var e, used' := Emoji.Allocate(sub, emojiMap, Emoji.MISENCODED_DEFAULTS, usedEmojis);
        Emoji.AllocatedRunStep(subs, j, emojiMap, Emoji.MISENCODED_DEFAULTS, start, es, usedEmojis, e, used');
        usedEmojis := used';
        lines := AppendSubcategory(lines, sub, subs[j].1, e, show);
        BodyLinesSnoc(key, subs, es, e, show);
        es := es + [e];
      }
      assert subs[..|subs|] == subs;
    }

    /** `send_message`: `None` when the Bot API raised on every attempt
        (`raises`); otherwise whether the text was sent. */
    method SendMessage(channelId: string, text: string, raises: bool) returns (r: Option<bool>)
      ensures text == "" || channelId == "" ==> r == Some(false)
      ensures text != "" && channelId != "" ==>
        r == if FormatText(text) == "" then Some(false) else if raises then None else Some(true)
    {
      if text == "" || channelId == "" {
        return Some(false);
      }
      var formatted := FormatTextLoop(text);
      if formatted == "" {
        return Some(false);
      }
      if raises {
        return None;
      }
      r := Some(true);
    }

    /** `process_news_summary`: `usernames[i]` is what `get_chat` gave for
        the i-th channel (`None` when it raised or had no username),
        `raises[i]` whether sending to it raised. `sent` are the channels
        sent to, `texts` what each was sent and `emojis` the emojis its
        summary used. */
    method ProcessNewsSummary(dir: seq<(string, Content)>, date: string,
                              usernames: seq<Option<string>>, raises: seq<bool>)
      returns (ok: bool, ghost sent: seq<nat>, ghost texts: seq<string>, ghost emojis: seq<seq<string>>)
      requires |usernames| == |channels| && |raises| == |channels|
      modifies this`usedEmojis
      ensures Loaded(dir, date).None? ==> !ok && sent == [] && usedEmojis == old(usedEmojis)
      ensures Loaded(dir, date).Some? ==>
        var subs := Loaded(dir, date).value[0].1.entries;
        && |texts| == |sent| && |emojis| == |sent|
        && (forall k :: 0 <= k < |sent| ==>
              && sent[k] < |channels| && Eligible(channels[sent[k]].1)
              && |emojis[k]| == |subs|
              && texts[k] == SummaryText(CATEGORY, subs, emojis[k], usernames[sent[k]], show))
        && (ok <==> forall i :: 0 <= i < |channels| && Eligible(channels[i].1) ==> !raises[i])
        && (ok ==> sent == EligibleIndices(channels))
    {
      sent, texts, emojis := [], [], [];
      var name := InputFile(dir, CATEGORY, date);
      if name.None? {
        return false, sent, texts, emojis;
      }
      var valid := ValidateSummaryFile(Get(dir, name.value));
      if !valid {
        return false, sent, texts, emojis;
      }
      var data := Get(dir, name.value).value.json.entries;
      if data == [] || |data| != 1 {
        return false, sent, texts, emojis;
      }
      var category := data[0].0;
      assert Loaded(dir, date) == Some(data);
      ok, sent, texts, emojis := Broadcast(category, data, usernames, raises);
    }

    /** The loop over `TELEGRAM_CHANNELS`: an exception from a send ends
        it, and `process_news_summary` returns False. */
    method Broadcast(category: string, data: seq<(string, Json)>, usernames: seq<Option<string>>, raises: seq<bool>)
      returns (ok: bool, ghost sent: seq<nat>, ghost texts: seq<string>, ghost emojis: seq<seq<string>>)
      requires |data| == 1 && data[0].0 == CATEGORY && data[0].1.JObj? && category == CATEGORY
      requires |usernames| == |channels| && |raises| == |channels|
      modifies this`usedEmojis
      ensures forall k :: 0 <= k < |sent| ==> sent[k] < |channels| && Eligible(channels[sent[k]].1)
      ensures PostedSummaries(sent, texts, emojis, data[0].1.entries, usernames, show)
      ensures ok <==> forall i :: 0 <= i < |channels| && Eligible(channels[i].1) ==> !raises[i]
      ensures ok ==> sent == EligibleIndices(channels)
    {
      sent, texts, emojis := [], [], [];
      ghost var subs := data[0].1.entries;
      for i := 0 to |channels|
        invariant sent == EligibleIndices(channels[..i])
        invariant PostedSummaries(sent, texts, emojis, subs, usernames, show)
        invariant forall i' :: 0 <= i' < i && Eligible(channels[i'].1) ==> !raises[i']
      {
        EligibleIndicesSnoc(channels, i);
        var id := channels[i].1;
        if !Eligible(id) {
          continue;
        }
        var r, text, es := PostSummary(id, category, data, usernames[i], raises[i]);
        PostedSnoc(sent, texts, emojis, subs, usernames, show, i, es);
        sent, texts, emojis := sent + [i], texts + [text], emojis + [es];
        if r.None? {
          return false, sent, texts, emojis;
        }
      }
      assert channels[..|channels|] == channels;
      ok := true;
    }

    /** One channel's turn: its summary is formatted with its footer, and
        `send_message` passes it through unchanged and sends it unless the
        Bot API raises. */
    method PostSummary(id: string, category: string, data: seq<(string, Json)>, username: Option<string>,
                       raises: bool)
      returns (r: Option<bool>, ghost text: string, ghost es: seq<string>)
      requires |data| == 1 && data[0].0 == CATEGORY && data[0].1.JObj? && category == CATEGORY
      requires id != ""
      modifies this`usedEmojis
      ensures |es| == |data[0].1.entries|
      ensures text == SummaryText(CATEGORY, data[0].1.entries, es, username, show)
      ensures r == if raises then None else Some(true)
    {
      LoadedFormats(data);
      var formatted;
      formatted, es := FormatCategorySummary(category, data, username);
      text := formatted;
      SummaryPassesUnchanged(CATEGORY, data[0].1.entries, es, username, show);
      if formatted == "" {
        return Some(false), text, es;
      }
      r := SendMessage(id, formatted, raises);
    }
  }
}
