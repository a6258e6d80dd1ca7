// src/senders/discord_sender.py: formats the latest news summary as Discord
// markdown, splits it into messages of at most about 2000 characters at
// subcategory headers, and posts them to every configured webhook. The
// webhooks' HTTP statuses are given as oracles.

module DiscordSender {
  import opened Common
  import opened Senders
  import Emoji
  import NewsGenerator

  // ---------------------------------------------------------------
  // `format_text`
  // ---------------------------------------------------------------

  /** `'__**' + s + '**__'`: bold underlined. */
  function Wrap(s: string): string
  {
    "__**" + s + "**__"
  }

  /** What `format_text` writes for a stripped, non-blank line. */
  function FormatLine(line: string): (r: string)
    ensures IsHeader(line) || IsSubcategory(line) ==> StartsWith(r, "__**")
    ensures !IsHeader(line) && !IsSubcategory(line) ==> r == line
  {
    if IsHeader(line) then
      var (date, rest) := Partition(line, " - ").value;
      match FormatDate(date)
      case Some(day) => Wrap(day + " - " + Replace(rest, "Rollup", "News Drop"))
      case None => Wrap(line)
    else if IsSubcategory(line) then Wrap(line)
    else line
  }

  function FormatText(text: string): string
  {
    if text == "" then "" else Join(FormatFrom(SplitOn(text, '\n'), [], FormatLine), "\n")
  }

  /** `format_text`. */
  method FormatTextLoop(text: string) returns (r: string)
    ensures r == FormatText(text)
  {
    if text == "" {
      return "";
    }
    var lines := SplitOn(text, '\n');
    var out: seq<string> := [];
    var i := 0;
    while i < |lines|
      invariant 0 <= i <= |lines|
      invariant FormatFrom(lines, [], FormatLine) == FormatFrom(lines[i..], out, FormatLine)
      decreases |lines| - i
    {
      assert lines[i..][1..] == lines[i + 1..];
      var line := Strip(lines[i]);
      if line != [] {
        out := out + Sep(out, line) + [FormatLine(line)];
      }
      i := i + 1;
    }
    assert lines[i..] == [];
    r := Join(out, "\n");
  }

  /** Header and subcategory lines come out bold and underlined, every other
      line as it was, blank lines dropped. */
  lemma FormatTextReference(text: string)
    requires text != ""
    ensures FormatText(text) == Join(Reference(NonBlank(SplitOn(text, '\n')), false, FormatLine), "\n")
  {
    var lines := SplitOn(text, '\n');
    FormatFromReference(lines, [], FormatLine);
    assert FormatFrom(lines, [], FormatLine) == Reference(NonBlank(lines), false, FormatLine);
  }

  // ---------------------------------------------------------------
  // `_split_message`
  // ---------------------------------------------------------------

  const LIMIT: nat := 2000

  /** The chunks built from the remaining lines, given the lines of the
      chunk being filled and its length so far. */
  function Chunks(rest: seq<string>, cur: seq<string>, curLen: nat, limit: nat): (r: seq<string>)
    decreases |rest|
  {
    if rest == [] then (if cur != [] then [Join(cur, "\n")] else [])
    else
      var line := rest[0];
      var len := |line| + 1;
      if StartsWith(line, "__**") && cur != [] && curLen + len > limit then
        [Join(cur, "\n")] + Chunks(rest[1..], [line], len, limit)
      else Chunks(rest[1..], cur + [line], curLen + len, limit)
  }

  function Split(text: string, limit: nat): (r: seq<string>)
  {
    if |text| <= limit then [text]
    else
      var lines := SplitOn(text, '\n');
      [lines[0]] + Chunks(lines[1..], [], 0, limit)
  }

  /** `_split_message(text, limit)`. */
  method SplitMessage(text: string, limit: nat) returns (chunks: seq<string>)
    ensures chunks == Split(text, limit)
  {
    if |text| <= limit {
      return [text];
    }
    var lines := SplitOn(text, '\n');
    chunks := [lines[0]];
    var rest := lines[1..];
    var cur: seq<string> := [];
    var curLen: nat := 0;
    var k := 0;
    while k < |rest|
      invariant 0 <= k <= |rest|
      invariant Split(text, limit) == chunks + Chunks(rest[k..], cur, curLen, limit)
      decreases |rest| - k
    {
      assert rest[k..][1..] == rest[k + 1..];
      var line := rest[k];
      var len := |line| + 1;
      if StartsWith(line, "__**") && cur != [] && curLen + len > limit {
        ConcatAssoc(chunks, [Join(cur, "\n")], Chunks(rest[k + 1..], [line], len, limit));
        chunks := chunks + [Join(cur, "\n")];
        cur := [];
        curLen := 0;
        assert cur + [line] == [line];
      }
      cur := cur + [line];
      curLen := curLen + len;
      k := k + 1;
    }
    assert rest[k..] == [];
    if cur != [] {
      chunks := chunks + [Join(cur, "\n")];
    }
  }

  lemma {:induction false} JoinAppend(a: seq<string>, b: seq<string>, sep: string)
    requires a != [] && b != []
    ensures Join(a + b, sep) == Join(a, sep) + sep + Join(b, sep)
    decreases |a|
  {
    if |a| == 1 {
      assert (a + b)[1..] == b;
    } else {
      assert (a + b)[1..] == a[1..] + b;
      JoinAppend(a[1..], b, sep);
    }
  }

  /** Joining the chunks of a non-empty chunk in progress gives back its
      lines and the remaining ones. */
  lemma {:induction false} ChunksJoin(rest: seq<string>, cur: seq<string>, curLen: nat, limit: nat)
    requires cur != []
    ensures Join(Chunks(rest, cur, curLen, limit), "\n") == Join(cur + rest, "\n")
    decreases |rest|
  {
    if rest == [] {
      assert cur + rest == cur;
    } else {
      var line := rest[0];
      var len := |line| + 1;
      assert cur + rest == (cur + [line]) + rest[1..];
      if StartsWith(line, "__**") && curLen + len > limit {
        ChunksJoin(rest[1..], [line], len, limit);
        JoinAppend([Join(cur, "\n")], Chunks(rest[1..], [line], len, limit), "\n");
        JoinAppend(cur, rest, "\n");
        assert [line] + rest[1..] == rest;
      } else {
        ChunksJoin(rest[1..], cur + [line], curLen + len, limit);
      }
    }
  }

  lemma ChunksFromEmpty(rest: seq<string>, limit: nat)
    requires rest != []
    ensures Chunks(rest, [], 0, limit) == Chunks(rest[1..], [rest[0]], |rest[0]| + 1, limit)
  {
    assert [] + [rest[0]] == [rest[0]];
  }

  /** Splitting loses and adds nothing: the chunks joined with newlines are
      the text. */
  lemma SplitJoin(text: string, limit: nat)
    ensures Join(Split(text, limit), "\n") == text
  {
    if |text| > limit {
      var lines := SplitOn(text, '\n');
      JoinSplitOn(text, '\n');
      var rest := lines[1..];
      if rest == [] {
        assert lines == [lines[0]];
      } else {
        var tail := Chunks(rest[1..], [rest[0]], |rest[0]| + 1, limit);
        ChunksFromEmpty(rest, limit);
        ChunksJoin(rest[1..], [rest[0]], |rest[0]| + 1, limit);
        assert [rest[0]] + rest[1..] == rest;
        ChunksFirst(rest[1..], [rest[0]], |rest[0]| + 1, limit);
        JoinAppend([lines[0]], tail, "\n");
        assert lines == [lines[0]] + rest;
      }
    }
  }

  /** Every chunk after the one in progress opens with a subcategory
      header. */
  lemma {:induction false} ChunksStartAtHeaders(rest: seq<string>, cur: seq<string>, curLen: nat, limit: nat)
    requires cur != []
    ensures var cs := Chunks(rest, cur, curLen, limit);
      forall k :: 1 <= k < |cs| ==> StartsWith(cs[k], "__**")
    decreases |rest|
  {
    if rest != [] {
      var line := rest[0];
      var len := |line| + 1;
      if StartsWith(line, "__**") && curLen + len > limit {
        ChunksStartAtHeaders(rest[1..], [line], len, limit);
        var tail := Chunks(rest[1..], [line], len, limit);
        ChunksFirst(rest[1..], [line], len, limit);
        StartsWithOfJoinPrefix(tail[0], line);
        var cs := [Join(cur, "\n")] + tail;
        assert Chunks(rest, cur, curLen, limit) == cs;
        assert StartsWith(tail[0], "__**");
        forall k | 1 <= k < |cs| ensures StartsWith(cs[k], "__**") {
          assert cs[k] == tail[k - 1];
          if k > 1 {
            assert 1 <= k - 1 < |tail|;
          }
        }
      } else {
        ChunksStartAtHeaders(rest[1..], cur + [line], curLen + len, limit);
        assert Chunks(rest, cur, curLen, limit) == Chunks(rest[1..], cur + [line], curLen + len, limit);
      }
    }
  }

  /** The first chunk built from a chunk in progress starts with that chunk's
      first line. */
  lemma {:induction false} ChunksFirst(rest: seq<string>, cur: seq<string>, curLen: nat, limit: nat)
    requires cur != []
    ensures var cs := Chunks(rest, cur, curLen, limit);
      cs != [] && |cs[0]| >= |cur[0]| && cs[0][..|cur[0]|] == cur[0]
    decreases |rest|
  {
    if rest == [] {
      JoinStartsWith(cur, "\n");
    } else {
      var line := rest[0];
      var len := |line| + 1;
      if StartsWith(line, "__**") && curLen + len > limit {
        JoinStartsWith(cur, "\n");
      } else {
        ChunksFirst(rest[1..], cur + [line], curLen + len, limit);
        assert (cur + [line])[0] == cur[0];
      }
    }
  }

  lemma StartsWithOfJoinPrefix(s: string, line: string)
    requires |s| >= |line| && s[..|line|] == line
    requires StartsWith(line, "__**")
    ensures StartsWith(s, "__**")
  {
    assert s[..4] == line[..4];
  }

  /** A short text is one chunk; a long one starts with its first line on
      its own, and every chunk from the third on opens with a subcategory
      header. */
  lemma SplitShape(text: string, limit: nat)
    ensures |text| <= limit ==> Split(text, limit) == [text]
    ensures |text| > limit ==> Split(text, limit)[0] == SplitOn(text, '\n')[0]
    ensures forall k :: 2 <= k < |Split(text, limit)| ==> StartsWith(Split(text, limit)[k], "__**")
  {
    if |text| > limit {
      var lines := SplitOn(text, '\n');
      var rest := lines[1..];
      if rest != [] {
        var tail := Chunks(rest[1..], [rest[0]], |rest[0]| + 1, limit);
        ChunksFromEmpty(rest, limit);
        ChunksStartAtHeaders(rest[1..], [rest[0]], |rest[0]| + 1, limit);
        assert forall k :: 2 <= k < |tail| + 1 ==> Split(text, limit)[k] == tail[k - 1];
      }
    }
  }

  // ---------------------------------------------------------------
  // `format_category_summary`
  // ---------------------------------------------------------------

  /** The header line without its trailing newline. */
  function HeaderText(key: string): string
  {
    "__**" + key + " News Drop**__ ~"
  }

  /** `f"__**{category_key} News Drop**__ ~\n"`. */
  function HeaderLine(key: string): string
  {
    HeaderText(key) + "\n"
  }

  /** `f"__**{subcategory}**__"`, followed by the emoji when there is one. */
  function SubcategoryLine(sub: string, e: string): string
  {
    "__**" + sub + "**__" + (if e != "" then " " + e else "")
  }

  /** `f"- **{attribution}** {content} {url}"`. */
  function TweetLine(t: (Json, Json, Json), show: Json -> string): string
  {
    "- **" + NewsGenerator.Text(t.0, show) + "** " + NewsGenerator.Text(t.1, show) + " " + NewsGenerator.Text(t.2, show)
  }

  /** One line per tweet, in order. */
  function Render(ts: seq<(Json, Json, Json)>, show: Json -> string): (r: seq<string>)
    ensures |r| == |ts|
    ensures forall i :: 0 <= i < |ts| ==> r[i] == TweetLine(ts[i], show)
  {
    seq(|ts|, i requires 0 <= i < |ts| => TweetLine(ts[i], show))
  }

  lemma RenderAppend(a: seq<(Json, Json, Json)>, b: seq<(Json, Json, Json)>, show: Json -> string)
    ensures Render(a + b, show) == Render(a, show) + Render(b, show)
  {
  }

  /** The separator and the line a subcategory opens with. */
  function SubcategoryHead(lines: seq<string>, sub: string, e: string): seq<string>
  {
    (if |lines| > 1 then [""] else []) + [SubcategoryLine(sub, e)]
  }

  /** The lines one subcategory adds after `lines`, `e` being its emoji:
      an empty line unless only the header is above, its own line, and its
      tweets author by author; the tweets are dropped when grouping them
      raises. */
  function SubcategoryLines(lines: seq<string>, sub: string, tweets: Json, e: string,
                            show: Json -> string): seq<string>
  {
    match Grouped(tweets, NAMES)
    case None => SubcategoryHead(lines, sub, e)
    case Some(gs) => SubcategoryHead(lines, sub, e) + Render(Flat(gs), show)
  }

  /** The lines of a summary with category key `key` whose subcategories
      `subs` got the emojis `es`. */
  function BodyLines(key: string, subs: seq<(string, Json)>, es: seq<string>, show: Json -> string): seq<string>
    requires |es| == |subs|
    decreases |subs|
  {
    if subs == [] then [HeaderLine(key)]
    else
      var n := |subs| - 1;
      var prev := BodyLines(key, subs[..n], es[..n], show);
      prev + SubcategoryLines(prev, subs[n].0, subs[n].1, es[n], show)
  }

  function SummaryText(key: string, subs: seq<(string, Json)>, es: seq<string>, show: Json -> string): string
    requires |es| == |subs|
  {
    Join(BodyLines(key, subs, es, show), "\n")
  }

  /** The tweet lines a subcategory gets are its complete tweets, each
      once, regrouped by author. */
  lemma SubcategoryShowsEveryTweet(lines: seq<string>, sub: string, xs: seq<Json>, e: string,
                                   show: Json -> string)
    requires GroupAll(xs, NAMES).Some?
    ensures var ts := Flat(GroupAll(xs, NAMES).value);
      && SubcategoryLines(lines, sub, JList(xs), e, show) == SubcategoryHead(lines, sub, e) + Render(ts, show)
      && multiset(ts) == multiset(FilterMap(xs, Complete(NAMES)))
  {
    GroupAllPermutes(xs, NAMES);
  }

  /** The summary text opens with its header line. */
  lemma {:induction false} BodyStartsWithHeader(key: string, subs: seq<(string, Json)>, es: seq<string>,
                                                show: Json -> string)
    requires |es| == |subs|
    ensures BodyLines(key, subs, es, show) != [] && BodyLines(key, subs, es, show)[0] == HeaderLine(key)
    decreases |subs|
  {
    if subs != [] {
      var n := |subs| - 1;
      BodyStartsWithHeader(key, subs[..n], es[..n], show);
    }
  }

  lemma SummaryStartsWithHeader(key: string, subs: seq<(string, Json)>, es: seq<string>,
                                show: Json -> string)
    requires |es| == |subs|
    ensures StartsWith(SummaryText(key, subs, es, show), HeaderLine(key))
  {
    BodyStartsWithHeader(key, subs, es, show);
    JoinStartsWith(BodyLines(key, subs, es, show), "\n");
  }

  /** The nested loops that write each author's tweets. */
  method AppendTweets(lines: seq<string>, gs: seq<Group>, show: Json -> string) returns (out: seq<string>)
    ensures out == lines + Render(Flat(gs), show)
  {
    out := lines;
    for g := 0 to |gs|
      invariant out == lines + Render(Flat(gs[..g]), show)
    {
      ghost var done := Render(Flat(gs[..g]), show);
      ghost var more := Render(Triples(gs[g]), show);
      out := AppendGroup(out, gs[g], show);
      FlatSnoc(gs, g);
      RenderAppend(Flat(gs[..g]), Triples(gs[g]), show);
      ConcatAssoc(lines, done, more);
    }
    assert gs[..|gs|] == gs;
  }

  /** The inner loop: one author's tweets. */
  method AppendGroup(lines: seq<string>, g: Group, show: Json -> string) returns (out: seq<string>)
    ensures out == lines + Render(Triples(g), show)
  {
    out := lines;
    ghost var ts := Triples(g);
    for k := 0 to |g.items|
      invariant out == lines + Render(ts[..k], show)
    {
      assert ts[..k + 1] == ts[..k] + [ts[k]];
      RenderAppend(ts[..k], [ts[k]], show);
      out := out + [TweetLine((g.author, g.items[k].0, g.items[k].1), show)];
    }
    assert ts[..|g.items|] == ts;
  }

  /** One pass of the subcategory loop, given the emoji it got. */
  method AppendSubcategory(lines: seq<string>, sub: string, tweets: Json, e: string, show: Json -> string)
    returns (out: seq<string>)
    ensures out == lines + SubcategoryLines(lines, sub, tweets, e, show)
  {
    out := lines;
    if |lines| > 1 {
      out := out + [""];
    }
    var line := "__**" + sub + "**__";
    if e != "" {
      line := line + " " + e;
    }
    assert line == SubcategoryLine(sub, e);
    ConcatAssoc(lines, if |lines| > 1 then [""] else [], [line]);
    out := out + [line];
    assert out == lines + SubcategoryHead(lines, sub, e);
    var groups := GroupTweets(tweets, NAMES);
    if groups.Some? {
      out := AppendTweets(out, groups.value, show);
      ConcatAssoc(lines, SubcategoryHead(lines, sub, e), Render(Flat(groups.value), show));
    }
  }

  lemma BodyLinesSnoc(key: string, subs: seq<(string, Json)>, es: seq<string>, e: string, show: Json -> string)
    requires |es| < |subs|
    ensures var prev := BodyLines(key, subs[..|es|], es, show);
      BodyLines(key, subs[..|es| + 1], es + [e], show)
      == prev + SubcategoryLines(prev, subs[|es|].0, subs[|es|].1, e, show)
  {
    var j := |es|;
    assert subs[..j + 1][..j] == subs[..j] && subs[..j + 1][j] == subs[j];
    assert (es + [e])[..j] == es && (es + [e])[j] == e;
  }

  // ---------------------------------------------------------------
  // `send_message`
  // ---------------------------------------------------------------

  /** The statuses a post counts as delivered with. */
  predicate Accepted(status: int)
  {
    status == 200 || status == 204
  }

  /** What is posted for `text`: the text itself when it already carries
      Discord formatting, else its `format_text`. */
  function Outgoing(text: string): string
  {
    if Contains(text, "__**") then text else FormatText(text)
  }

  method OutgoingText(text: string) returns (r: string)
    ensures r == Outgoing(text)
  {
    r := text;
    if !Contains(text, "__**") {
      r := FormatTextLoop(text);
    }
  }

  /** `send_message` returns True when the k-th post is answered with
      `status(k)`: every chunk is posted and accepted. */
  predicate Sent(webhook: string, text: string, status: nat -> int)
  {
    && text != "" && webhook != "" && Outgoing(text) != ""
    && forall k: nat :: k < |Split(Outgoing(text), LIMIT)| ==> Accepted(status(k))
  }

  /** A webhook with no address is skipped; any other must not raise
      (`reply` is `None` when sending raised on every attempt) and must be
      sent to. */
  predicate DeliveredTo(webhook: string, text: string, reply: Option<nat -> int>)
  {
    webhook == "" || (reply.Some? && Sent(webhook, text, reply.value))
  }

  // ---------------------------------------------------------------
  // `process_news_summary`
  // ---------------------------------------------------------------

  class DiscordSender {
    /** The emojis handed out for the summary being formatted. */
    var usedEmojis: set<string>
    /** `EMOJI_MAP`. */
    const emojiMap: map<string, string>
    /** `DISCORD_WEBHOOKS` as (channel, webhook) pairs, in order. */
    const webhooks: seq<(string, string)>
    /** Python's `str` on a non-string value. */
    const show: Json -> string

    constructor(emojiMap: map<string, string>, webhooks: seq<(string, string)>, show: Json -> string)
      ensures this.emojiMap == emojiMap && this.webhooks == webhooks && this.show == show
      ensures usedEmojis == {}
    {
      this.emojiMap := emojiMap;
      this.webhooks := webhooks;
      this.show := show;
      usedEmojis := {};
    }

    /** `format_category_summary`: `es` are the emojis the subcategories
        got, in order. */
    method FormatCategorySummary(category: string, summary: seq<(string, Json)>)
      returns (text: string, ghost es: seq<string>)
      modifies this`usedEmojis
      ensures CategoryData(category, summary).None? ==> text == "" && es == [] && usedEmojis == {}
      ensures CategoryData(category, summary).Some? ==>
        var (key, subs) := CategoryData(category, summary).value;
        && Emoji.AllocatedRun(Keys(subs), emojiMap, Emoji.DEFAULTS, {}, es, usedEmojis)
        && text == SummaryText(key, subs, es, show)
    {
      usedEmojis := {};
      es := [];
      var found := FindCategoryKey(Keys(summary), category);
      if found.None? || summary[found.value].0 == "" {
        return "", es;
      }
      var key := summary[found.value].0;
      assert HasKey(summary, key);
      var data := Get(summary, key).value;
      if !data.JObj? {
        return "", es;
      }
      var lines;
      lines, es := FormatSubcategories(key, data.entries);
      text := Join(lines, "\n");
    }

    /** The subcategory loop of `format_category_summary`, from the used
        set it is given. */
    method FormatSubcategories(key: string, subs: seq<(string, Json)>)
      returns (lines: seq<string>, ghost es: seq<string>)
      modifies this`usedEmojis
      ensures Emoji.AllocatedRun(Keys(subs), emojiMap, Emoji.DEFAULTS, old(usedEmojis), es, usedEmojis)
      ensures lines == BodyLines(key, subs, es, show)
    {
      ghost var start := usedEmojis;
      es := [];
      lines := [HeaderLine(key)];
      for j := 0 to |subs|
        invariant |es| == j
        invariant lines == BodyLines(key, subs[..j], es, show)
        invariant Emoji.AllocatedRun(Keys(subs[..j]), emojiMap, Emoji.DEFAULTS, start, es, usedEmojis)
      {
        var sub := subs[j].0;
        var e, used' := Emoji.Allocate(sub, emojiMap, Emoji.DEFAULTS, usedEmojis);
        Emoji.AllocatedRunStep(subs, j, emojiMap, Emoji.DEFAULTS, start, es, usedEmojis, e, used');
        usedEmojis := used';
        lines := AppendSubcategory(lines, sub, subs[j].1, e, show);
        BodyLinesSnoc(key, subs, es, e, show);
        es := es + [e];
      }
      assert subs[..|subs|] == subs;
    }

    /** `send_message`: `status(k)` is the status the k-th post is answered
        with; `posts` is how many were made. A 429 is not among the accepted
        statuses, so it ends the sending like any other failure. */
    method SendMessage(webhook: string, text: string, status: nat -> int) returns (ok: bool, posts: nat)
      ensures ok == Sent(webhook, text, status)
      ensures ok ==> posts == |Split(Outgoing(text), LIMIT)|
      ensures !ok && posts > 0 ==> !Accepted(status(posts - 1))
      ensures forall k: nat :: k + 1 < posts ==> Accepted(status(k))
    {
      if text == "" || webhook == "" {
        return false, 0;
      }
      var formatted := OutgoingText(text);
      if formatted == "" {
        return false, 0;
      }
      var chunks := SplitMessage(formatted, LIMIT);
      assert chunks == Split(Outgoing(text), LIMIT);
      ok, posts := PostChunks(|chunks|, status);
    }

    /** The posting loop of `send_message` over `count` chunks: it stops at
        the first post that is not accepted. */
    static method PostChunks(count: nat, status: nat -> int) returns (ok: bool, posts: nat)
      ensures ok <==> forall k: nat :: k < count ==> Accepted(status(k))
      ensures ok ==> posts == count
      ensures !ok ==> 0 < posts <= count && !Accepted(status(posts - 1))
      ensures forall k: nat :: k + 1 < posts ==> Accepted(status(k))
    {
      posts := 0;
      while posts < count
        invariant posts <= count
        invariant forall k: nat :: k < posts ==> Accepted(status(k))
        decreases count - posts
      {
        if !Accepted(status(posts)) {
          return false, posts + 1;
        }
        posts := posts + 1;
      }
      ok := true;
    }

    /** `process_news_summary`: `replies[i]` answers the posts to the i-th
        webhook, `None` when sending to it raised. `text` is the summary
        that was sent, `es` its emojis. */
    method ProcessNewsSummary(dir: seq<(string, Content)>, date: string, replies: seq<Option<nat -> int>>)
      returns (ok: bool, ghost text: string, ghost es: seq<string>)
      requires |replies| == |webhooks|
      modifies this`usedEmojis
      ensures Loaded(dir, date).None? ==> !ok
      ensures Loaded(dir, date).Some? ==>
        var data := Loaded(dir, date).value;
        var subs := data[0].1.entries;
        && Emoji.AllocatedRun(Keys(subs), emojiMap, Emoji.DEFAULTS, {}, es, usedEmojis)
        && text == SummaryText(CATEGORY, subs, es, show)
        && (ok <==> forall i :: 0 <= i < |webhooks| ==> DeliveredTo(webhooks[i].1, text, replies[i]))
    {
      text, es := "", [];
      var name := InputFile(dir, CATEGORY, date);
      if name.None? {
        return false, text, es;
      }
      var valid := ValidateSummaryFile(Get(dir, name.value));
      if !valid {
        return false, text, es;
      }
      var data := Get(dir, name.value).value.json.entries;
      if data == [] || |data| != 1 {
        return false, text, es;
      }
      var category := data[0].0;
      assert Loaded(dir, date) == Some(data);
      LoadedFormats(data);
      var formatted;
      formatted, es := FormatCategorySummary(category, data);
      text := formatted;
      SummaryStartsWithHeader(CATEGORY, data[0].1.entries, es, show);
      if formatted == "" {
        return false, text, es;
      }
      ok := Deliver(formatted, replies);
    }

    /** The loop over `DISCORD_WEBHOOKS`; an exception from a send ends
        it with False. */
    method Deliver(text: string, replies: seq<Option<nat -> int>>) returns (ok: bool)
      requires |replies| == |webhooks|
      ensures ok <==> forall i :: 0 <= i < |webhooks| ==> DeliveredTo(webhooks[i].1, text, replies[i])
    {
      var success := true;
      for i := 0 to |webhooks|
        invariant success <==> forall i' :: 0 <= i' < i ==> DeliveredTo(webhooks[i'].1, text, replies[i'])
      {
        var url := webhooks[i].1;
        if url == "" {
          continue;
        }
        if replies[i].None? {
          return false;
        }
        var sent, _ := SendMessage(url, text, replies[i].value);
        success := success && sent;
      }
      ok := success;
    }
  }

  // ---------------------------------------------------------------
  // The summary is formatted twice
  // ---------------------------------------------------------------

  /** `send_message` as written: `format_text` on whatever it is given. */
  function AsWrittenOutgoing(text: string): string
  {
    FormatText(text)
  }

  lemma StripKeepsFramed(s: string)
    requires s != [] && !IsSpace(s[0]) && !IsSpace(s[|s| - 1])
    ensures Strip(s) == s
  {
  }

  /** `sub` is absent when one of its characters is. */
  lemma ContainsNeedsChar(s: string, sub: string, j: nat)
    requires j < |sub| && sub[j] !in s
    ensures !Contains(s, sub)
  {
    forall i: nat | i <= |s| ensures !OccursAt(s, sub, i) {
      if i + |sub| <= |s| {
        assert s[i..i + |sub|][j] == s[i + j];
      }
    }
  }

  /** As written, the header `format_category_summary` wrote is wrapped a
      second time: for a category key with no '-', ':' or newline, the first
      post opens with `__**__**KEY News Drop**__ ~**__`. */
  lemma AsWrittenRewrapsHeader(key: string, text: string)
    requires '-' !in key && ':' !in key && '\n' !in key
    requires StartsWith(text, HeaderLine(key))
    ensures StartsWith(AsWrittenOutgoing(text), Wrap(HeaderText(key)))
    ensures StartsWith(Split(AsWrittenOutgoing(text), LIMIT)[0], Wrap(HeaderText(key)))
  {
    var line := HeaderText(key);
    FormattedStart(key, text);
    HeaderIsFirstLine(key, text);
    WrapNoNewline(line);
    FirstChunkStart(AsWrittenOutgoing(text), Wrap(line));
  }

  lemma WrapNoNewline(line: string)
    requires '\n' !in line
    ensures '\n' !in Wrap(line)
  {
    var w := Wrap(line);
    forall i | 0 <= i < |w| ensures w[i] != '\n' {
      if 4 <= i < 4 + |line| {
        assert w[i] == line[i - 4];
      }
    }
  }

  lemma FormattedStart(key: string, text: string)
    requires '-' !in key && ':' !in key && '\n' !in key
    requires StartsWith(text, HeaderLine(key))
    ensures StartsWith(FormatText(text), Wrap(HeaderText(key)))
  {
    var line := HeaderText(key);
    var lines := SplitOn(text, '\n');
    HeaderIsFirstLine(key, text);
    HeaderReadAsSubcategory(key);
    assert NonBlank(lines) == [line] + NonBlank(lines[1..]);
    FormatFirstLine(lines, FormatLine);
    var out := FormatFrom(lines, [], FormatLine);
    JoinStartsWith(out, "\n");
    assert text != "";
  }

  /** The first chunk opens like the text when the text's opening has no
      newline. */
  lemma FirstChunkStart(text: string, p: string)
    requires StartsWith(text, p) && '\n' !in p
    ensures StartsWith(Split(text, LIMIT)[0], p)
  {
    SplitShape(text, LIMIT);
    if |text| > LIMIT {
      FirstLineOf(text, p);
    }
  }

  /** The header line is the first line of the summary text. */
  lemma HeaderIsFirstLine(key: string, text: string)
    requires '\n' !in key
    requires StartsWith(text, HeaderLine(key))
    ensures SplitOn(text, '\n')[0] == HeaderText(key)
    ensures '\n' !in HeaderText(key)
  {
    var line := HeaderText(key);
    var n := |line|;
    assert '\n' !in line by {
      assert line == "__**" + key + " News Drop**__ ~";
    }
    assert text[..n + 1] == line + "\n";
    assert text[n] == '\n';
    assert text[..n] == line;
    FirstIndexAt(text, '\n', n);
  }

  /** `format_text` reads the header line as a subcategory name. */
  lemma HeaderReadAsSubcategory(key: string)
    requires '-' !in key && ':' !in key
    ensures var line := HeaderText(key);
      Strip(line) == line && line != [] && FormatLine(line) == Wrap(line)
  {
    var line := HeaderText(key);
    var n := |line|;
    assert line[0] == '_' && line[n - 1] == '~';
    StripKeepsFramed(line);
    assert '-' !in line && ':' !in line by {
      assert line == "__**" + key + " News Drop**__ ~";
    }
    ContainsNeedsChar(line, " - ", 1);
    assert !StartsWith(line, "http");
  }

  /** When `s` opens with a newline-free `p`, so does its first line. */
  lemma FirstLineOf(s: string, p: string)
    requires StartsWith(s, p) && '\n' !in p
    ensures StartsWith(SplitOn(s, '\n')[0], p)
  {
    if '\n' in s {
      var i := FirstIndex(s, '\n');
      assert forall k :: 0 <= k < |p| ==> s[k] == p[k];
      assert i >= |p|;
      assert SplitOn(s, '\n')[0] == s[..i];
    }
  }

  lemma HeaderLineFormatted(key: string)
    ensures StartsWith(HeaderLine(key), "__**")
  {
    assert HeaderLine(key) == "__**" + (key + " News Drop**__ ~\n");
  }

  /** The corrected sender posts a summary exactly as it was formatted:
      the chunks join back to it. */
  lemma CorrectedPostsSummary(key: string, subs: seq<(string, Json)>, es: seq<string>, show: Json -> string)
    requires |es| == |subs|
    ensures var text := SummaryText(key, subs, es, show);
      Outgoing(text) == text && Join(Split(Outgoing(text), LIMIT), "\n") == text
  {
    var text := SummaryText(key, subs, es, show);
    SummaryStartsWithHeader(key, subs, es, show);
    HeaderLineFormatted(key);
    StartsWithTrans(text, HeaderLine(key), "__**");
    assert OccursAt(text, "__**", 0);
    SplitJoin(text, LIMIT);
  }
}
