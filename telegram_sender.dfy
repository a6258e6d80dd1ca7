// telegram_sender.py: the earlier Telegram sender. It formats one category
// summary file as Telegram HTML, with one line per author, and sends it to
// the test channel. Whether the Bot API raised is an oracle.

module TelegramSender {
  import opened Common
  import opened Senders
  import Emoji
  import NewsGenerator
  import SrcTelegramSender

  // ---------------------------------------------------------------
  // `format_text`
  // ---------------------------------------------------------------

  /** `line.split(':', 1)`: the author before the first ':' and the text
      after it. */
  function TweetParts(line: string): (r: (string, string))
    requires ':' in line
    ensures ':' !in r.0 && r.0 + ":" + r.1 == line
  {
    var p := FirstIndex(line, ':');
    assert line == line[..p] + ":" + line[p + 1..];
    (line[..p], line[p + 1..])
  }

  /** What a header says: the date spelt out, " - " and the rest of the
      line as it is, or the whole line when the date does not parse. */
  function HeaderInner(line: string): string
    requires IsHeader(line)
  {
    var parts := Partition(line, " - ").value;
    match FormatDate(parts.0)
    case Some(day) => day + " - " + parts.1
    case None => line
  }

  /** A header, escaped, bold, italic and underlined. */
  function HeaderOut(line: string): string
    requires IsHeader(line)
  {
    "<u><b><i>" + Escape(HeaderInner(line)) + "</i></b></u>"
  }

  /** Unlike the src sender's, a header keeps the rest of its line as it
      is, "Rollup" included: unescaping what is between the tags gives the
      spelt-out date, " - " and the rest, or the whole line when the date
      does not parse. */
  lemma HeaderKeepsRest(line: string)
    requires IsHeader(line)
    ensures var r := HeaderOut(line);
      var parts := Partition(line, " - ").value;
      && StartsWith(r, "<u><b><i>") && EndsWith(r, "</i></b></u>")
      && Unescape(r[9..|r| - 12]) == match FormatDate(parts.0)
        case Some(day) => day + " - " + parts.1
        case None => line
  {
    MiddleOf("<u><b><i>", Escape(HeaderInner(line)), "</i></b></u>");
    EscapeRoundTrip(HeaderInner(line));
  }

  function SubcategoryOut(line: string): string
  {
    "<u><b>" + Escape(line) + "</b></u>"
  }

  /** The author of a tweet line, stripped. */
  function Author(line: string): string
    requires ':' in line
  {
    Strip(TweetParts(line).0)
  }

  /** The text of a tweet line, stripped. */
  function Said(line: string): string
    requires ':' in line
  {
    Strip(TweetParts(line).1)
  }

  /** `f"<a href='{url}'>{t}</a>"`. */
  function Anchor(url: string, t: string): string
  {
    "<a href='" + url + "'>" + t + "</a>"
  }

  /** A tweet line: the author bold and the text as a link to `url`, both
      escaped; the link itself is not escaped. */
  function TweetOut(line: string, url: string): string
    requires ':' in line
  {
    "- <b>" + Escape(Author(line)) + "</b>: " + Anchor(url, Escape(Said(line)))
  }

  lemma OccursInPrefix(a: string, b: string, sub: string, k: nat)
    requires OccursAt(a, sub, k)
    ensures OccursAt(a + b, sub, k)
  {
    assert (a + b)[k..k + |sub|] == a[k..k + |sub|];
  }

  lemma OccursAsSuffix(a: string, b: string)
    ensures OccursAt(a + b, b, |a|)
  {
    assert (a + b)[|a|..|a| + |b|] == b;
  }

  /** A link line, with a zero-width space after "https:" so that Telegram
      does not embed it. */
  function LinkOut(line: string): string
  {
    Replace(line, "https:", "https:\U{200B}")
  }

  /** The line after `i` is a link, which the tweet line `i` takes as its
      URL. */
  predicate Linked(lines: seq<string>, i: nat)
  {
    i + 1 < |lines| && StartsWith(Strip(lines[i + 1]), "http")
  }

  /** A line that is written with a `<b>`: a header, a subcategory or a
      tweet line. A header is recognised first, even when it starts with
      "http". */
  predicate Marked(line: string)
  {
    line != [] && (IsHeader(line) || !StartsWith(line, "http"))
  }

  /** What line `i` is written as, when it is marked. */
  function LineOut(lines: seq<string>, i: nat): string
    requires i < |lines| && Marked(Strip(lines[i]))
  {
    var line := Strip(lines[i]);
    if IsHeader(line) then HeaderOut(line)
    else if IsSubcategory(line) then SubcategoryOut(line)
    else TweetOut(line, if Linked(lines, i) then Strip(lines[i + 1]) else "")
  }

  lemma HeaderBold(line: string)
    requires IsHeader(line)
    ensures OccursAt(HeaderOut(line), "<b>", 3)
  {
    assert OccursAt("<u><b><i>", "<b>", 3);
    OccursInPrefix("<u><b><i>", Escape(HeaderInner(line)), "<b>", 3);
    OccursInPrefix("<u><b><i>" + Escape(HeaderInner(line)), "</i></b></u>", "<b>", 3);
  }

  lemma TweetBold(line: string, url: string)
    requires ':' in line
    ensures OccursAt(TweetOut(line, url), "<b>", 2)
  {
    var r1 := "- <b>" + Escape(Author(line));
    assert OccursAt("- <b>", "<b>", 2);
    OccursInPrefix("- <b>", Escape(Author(line)), "<b>", 2);
    OccursInPrefix(r1, "</b>: ", "<b>", 2);
    OccursInPrefix(r1 + "</b>: ", Anchor(url, Escape(Said(line))), "<b>", 2);
  }

  /** Every marked line is written with a `<b>`. */
  lemma LineOutBold(lines: seq<string>, i: nat)
    requires i < |lines| && Marked(Strip(lines[i]))
    ensures Contains(LineOut(lines, i), "<b>")
  {
    var line := Strip(lines[i]);
    if IsHeader(line) {
      HeaderBold(line);
    } else if IsSubcategory(line) {
      assert OccursAt("<u><b>", "<b>", 3);
      OccursInPrefix("<u><b>", Escape(line), "<b>", 3);
      OccursInPrefix("<u><b>" + Escape(line), "</b></u>", "<b>", 3);
    } else {
      TweetBold(line, if Linked(lines, i) then Strip(lines[i + 1]) else "");
    }
  }

  /** Where the loop goes on after line `i`: past the link a tweet line
      took. */
  function Next(lines: seq<string>, i: nat): (n: nat)
    requires i < |lines|
    ensures i < n <= |lines|
  {
    var line := Strip(lines[i]);
    if Marked(line) && !IsHeader(line) && !IsSubcategory(line) && Linked(lines, i) then i + 2 else i + 1
  }

  /** One turn of the `while` loop of `format_text` at line `i`, with the
      lines written so far: where it goes on and what has been written
      then. Blank lines are dropped, and a subcategory gets an empty line
      before it unless it is the first thing written. */
  function Step(lines: seq<string>, i: nat, out: seq<string>): (r: (nat, seq<string>))
    requires i < |lines|
    ensures i < r.0 <= |lines|
  {
    var line := Strip(lines[i]);
    if line == [] then (i + 1, out)
    else if Marked(line) then (Next(lines, i), out + Sep(out, line) + [LineOut(lines, i)])
    else (i + 1, out + [LinkOut(line)])
  }

  /** The `while` loop of `format_text` from line `i`. */
  function Walk(lines: seq<string>, i: nat, out: seq<string>): seq<string>
    requires i <= |lines|
    decreases |lines| - i
  {
    if i == |lines| then out
    else
      var (n, out') := Step(lines, i, out);
      Walk(lines, n, out')
  }

  function FormatText(text: string): string
  {
    if text == "" then ""
    else if SrcTelegramSender.Formatted(text) then text
    else Join(Walk(SplitOn(text, '\n'), 0, []), "\n")
  }

  /** `format_text`. */
  method FormatTextLoop(text: string) returns (r: string)
    ensures r == FormatText(text)
  {
    if text == "" {
      return "";
    }
    for t := 0 to |SrcTelegramSender.TAGS|
      invariant forall j :: 0 <= j < t ==> !Contains(text, SrcTelegramSender.TAGS[j])
    {
      if Contains(text, SrcTelegramSender.TAGS[t]) {
        return text;
      }
    }
    var lines := SplitOn(text, '\n');
    var out: seq<string> := [];
    var i := 0;
    while i < |lines|
      invariant i <= |lines|
      invariant Walk(lines, 0, []) == Walk(lines, i, out)
      decreases |lines| - i
    {
      i, out := Turn(lines, i, out);
    }
    r := Join(out, "\n");
  }

  /** The body of the `while` loop of `format_text`. */
  method Turn(lines: seq<string>, i: nat, out: seq<string>) returns (i': nat, out': seq<string>)
    requires i < |lines|
    ensures (i', out') == Step(lines, i, out)
  {
    var line := Strip(lines[i]);
    if line == [] {
      return i + 1, out;
    }
    if IsHeader(line) {
      StepHeader(lines, i, out);
      return i + 1, out + [HeaderOut(line)];
    }
    if ':' !in line && !StartsWith(line, "http") {
      i', out' := TurnSubcategory(lines, i, out);
    } else {
      i', out' := TurnTweetOrLink(lines, i, out);
    }
  }

  /** The loop body for a subcategory line: a blank separator first unless
      nothing has been written yet. */
  method TurnSubcategory(lines: seq<string>, i: nat, out: seq<string>) returns (i': nat, out': seq<string>)
    requires i < |lines| && Strip(lines[i]) != [] && !IsHeader(Strip(lines[i]))
    requires ':' !in Strip(lines[i]) && !StartsWith(Strip(lines[i]), "http")
    ensures (i', out') == Step(lines, i, out)
  {
    var line := Strip(lines[i]);
    var sep: seq<string> := [];
    if out != [] {
      sep := [""];
    }
    StepSubcategory(lines, i, out);
    return i + 1, out + sep + [SubcategoryOut(line)];
  }

  /** The rest of the loop body, for a line with a ':' or a link. */
  method TurnTweetOrLink(lines: seq<string>, i: nat, out: seq<string>) returns (i': nat, out': seq<string>)
    requires i < |lines| && Strip(lines[i]) != [] && !IsHeader(Strip(lines[i]))
    requires ':' in Strip(lines[i]) || StartsWith(Strip(lines[i]), "http")
    ensures (i', out') == Step(lines, i, out)
  {
    var line := Strip(lines[i]);
    if ':' in line && !StartsWith(line, "http") {
      var url := "";
      if i + 1 < |lines| && StartsWith(Strip(lines[i + 1]), "http") {
        url := Strip(lines[i + 1]);
        i' := i + 2;
      } else {
        i' := i + 1;
      }
      StepTweet(lines, i, out);
      return i', out + [TweetOut(line, url)];
    }
    StepLink(lines, i, out);
    return i + 1, out + [LinkOut(line)];
  }

  lemma StepHeader(lines: seq<string>, i: nat, out: seq<string>)
    requires i < |lines| && Strip(lines[i]) != [] && IsHeader(Strip(lines[i]))
    ensures Step(lines, i, out) == (i + 1, out + [HeaderOut(Strip(lines[i]))])
  {
    var line := Strip(lines[i]);
    assert Marked(line) && Sep(out, line) == [] && out + [] == out;
    assert LineOut(lines, i) == HeaderOut(line) && Next(lines, i) == i + 1;
  }

  lemma StepSubcategory(lines: seq<string>, i: nat, out: seq<string>)
    requires i < |lines| && Strip(lines[i]) != [] && !IsHeader(Strip(lines[i]))
    requires ':' !in Strip(lines[i]) && !StartsWith(Strip(lines[i]), "http")
    ensures Step(lines, i, out)
         == (i + 1, out + (if out != [] then [""] else []) + [SubcategoryOut(Strip(lines[i]))])
  {
    var line := Strip(lines[i]);
    assert Marked(line) && IsSubcategory(line);
    assert LineOut(lines, i) == SubcategoryOut(line) && Next(lines, i) == i + 1;
  }

  lemma StepTweet(lines: seq<string>, i: nat, out: seq<string>)
    requires i < |lines| && Strip(lines[i]) != [] && !IsHeader(Strip(lines[i]))
    requires ':' in Strip(lines[i]) && !StartsWith(Strip(lines[i]), "http")
    ensures Step(lines, i, out)
         == if Linked(lines, i) then (i + 2, out + [TweetOut(Strip(lines[i]), Strip(lines[i + 1]))])
            else (i + 1, out + [TweetOut(Strip(lines[i]), "")])
  {
    var line := Strip(lines[i]);
    assert Marked(line) && !IsSubcategory(line) && Sep(out, line) == [] && out + [] == out;
  }

  lemma StepLink(lines: seq<string>, i: nat, out: seq<string>)
    requires i < |lines| && Strip(lines[i]) != [] && !IsHeader(Strip(lines[i]))
    requires StartsWith(Strip(lines[i]), "http")
    ensures Step(lines, i, out) == (i + 1, out + [LinkOut(Strip(lines[i]))])
  {
  }

  lemma {:induction false} WalkExtends(lines: seq<string>, i: nat, out: seq<string>)
    requires i <= |lines|
    ensures |Walk(lines, i, out)| >= |out| && Walk(lines, i, out)[..|out|] == out
    decreases |lines| - i
  {
    if i < |lines| {
      var line := Strip(lines[i]);
      var (n, out') := Step(lines, i, out);
      WalkExtends(lines, n, out');
      assert out'[..|out|] == out;
    }
  }

  /** A line that is not blank and not a link is never taken as a tweet's
      URL. */
  predicate Plain(line: string)
  {
    line != [] && !StartsWith(line, "http")
  }

  /** A plain line the loop has not yet passed is written: the only lines
      it skips are blank ones and links a tweet line took. */
  lemma {:induction false} WalkEmits(lines: seq<string>, i: nat, out: seq<string>, j: nat)
    requires i <= j < |lines| && Plain(Strip(lines[j]))
    ensures LineOut(lines, j) in Walk(lines, i, out)
    decreases j - i
  {
    var line := Strip(lines[i]);
    if i == j {
      var out' := out + Sep(out, line) + [LineOut(lines, i)];
      WalkExtends(lines, Next(lines, i), out');
      assert Walk(lines, i, out)[..|out'|][|out'| - 1] == LineOut(lines, i);
    } else if line == [] {
      WalkEmits(lines, i + 1, out, j);
    } else if !IsHeader(line) && StartsWith(line, "http") {
      WalkEmits(lines, i + 1, out + [LinkOut(line)], j);
    } else {
      if j == i + 1 {
        assert !Linked(lines, i);
      }
      WalkEmits(lines, Next(lines, i), out + Sep(out, line) + [LineOut(lines, i)], j);
    }
  }

  /** A text holding `<b>` is left as it is. */
  lemma BoldUnchanged(text: string)
    requires Contains(text, "<b>")
    ensures FormatText(text) == text
  {
    assert SrcTelegramSender.Formatted(text) by {
      assert Contains(text, SrcTelegramSender.TAGS[1]);
    }
    var k: nat :| k <= |text| && OccursAt(text, "<b>", k);
    assert text != "";
  }

  /** What line `j` of a text that is not yet formatted becomes is in the
      formatted text. */
  lemma FormattedHolds(text: string, j: nat)
    requires text != "" && !SrcTelegramSender.Formatted(text)
    requires j < |SplitOn(text, '\n')| && Plain(Strip(SplitOn(text, '\n')[j]))
    ensures Contains(FormatText(text), LineOut(SplitOn(text, '\n'), j))
  {
    var lines := SplitOn(text, '\n');
    var out := Walk(lines, 0, []);
    WalkEmits(lines, 0, [], j);
    var k :| 0 <= k < |out| && out[k] == LineOut(lines, j);
    JoinContains(out, "\n", k);
  }

  /** Formatting a text with a line that is not blank and not a link twice
      changes nothing: the first pass writes `<b>`, and the second leaves
      the text alone. */
  lemma FormatTextIdempotent(text: string, j: nat)
    requires text != "" && j < |SplitOn(text, '\n')| && Plain(Strip(SplitOn(text, '\n')[j]))
    ensures FormatText(FormatText(text)) == FormatText(text)
  {
    if SrcTelegramSender.Formatted(text) {
      assert FormatText(text) == text;
    } else {
      var line := LineOut(SplitOn(text, '\n'), j);
      FormattedHolds(text, j);
      LineOutBold(SplitOn(text, '\n'), j);
      ContainsTrans(FormatText(text), line, "<b>");
      BoldUnchanged(FormatText(text));
    }
  }

  /** A tweet line followed by a link line is written with its text as a
      link to that URL: the link line is taken, not written on its own. */
  lemma LinkBecomesHref(text: string, j: nat)
    requires text != "" && !SrcTelegramSender.Formatted(text)
    requires var lines := SplitOn(text, '\n');
      && j < |lines| && Plain(Strip(lines[j])) && ':' in Strip(lines[j]) && !IsHeader(Strip(lines[j]))
      && Linked(lines, j)
    ensures var lines := SplitOn(text, '\n');
      Contains(FormatText(text), Anchor(Strip(lines[j + 1]), Escape(Said(Strip(lines[j])))))
  {
    var lines := SplitOn(text, '\n');
    var line := Strip(lines[j]);
    var a := Anchor(Strip(lines[j + 1]), Escape(Said(line)));
    var head := "- <b>" + Escape(Author(line)) + "</b>: ";
    assert LineOut(lines, j) == head + a;
    OccursAsSuffix(head, a);
    FormattedHolds(text, j);
    ContainsTrans(FormatText(text), head + a, a);
  }

  // ---------------------------------------------------------------
  // `format_category_summary`
  // ---------------------------------------------------------------

  /** `f"<u><b><i>{category} Rollup</i></b></u> ~\n"`: the category as
      given, not the key found. */
  function HeaderLine(category: string): string
  {
    "<u><b><i>" + category + " Rollup</i></b></u> ~\n"
  }

  /** The tweet fields this sender reads. */
  const FIELDS := Names("author", "text", "url")

  /** The characters of `s.split(c)[0]` are characters of `s`. */
  lemma SplitOnFirstIn(s: string, c: char)
    ensures forall k :: 0 <= k < |SplitOn(s, c)[0]| ==> SplitOn(s, c)[0][k] in s
  {
    if c in s {
      var p := FirstIndex(s, c);
      assert SplitOn(s, c)[0] == s[..p];
    }
  }

  /** `text.split('.')[0].split(';')[0].strip()`: the text up to its first
      '.' and then up to its first ';', stripped. */
  function Cut(t: string): (r: string)
    ensures '.' !in r && ';' !in r
  {
    var a := SplitOn(t, '.')[0];
    var b := SplitOn(a, ';')[0];
    SplitOnFirstIn(a, ';');
    StripIn(b);
    Strip(b)
  }

  /** The link text of a consolidated line: the cut text, shortened to its
      first 47 characters and "..." when it is longer than 50. */
  function Short(t: string): (r: string)
    ensures |r| <= 50 && ';' !in r
    ensures |Cut(t)| <= 50 ==> r == Cut(t)
    ensures |Cut(t)| > 50 ==> |r| == 50 && r[..47] == Cut(t)[..47] && r[47..] == "..."
  {
    var c := Cut(t);
    if |c| > 50 then
      var r := c[..47] + "...";
      assert forall k :: 0 <= k < |r| ==> r[k] == (if k < 47 then c[k] else '.');
      r
    else c
  }

  /** A text that is already a short, stripped clause is kept whole. */
  lemma ShortKeepsClause(t: string)
    requires '.' !in t && ';' !in t && Strip(t) == t && |t| <= 50
    ensures Short(t) == t
  {
    assert SplitOn(t, '.')[0] == t;
    assert SplitOn(t, ';')[0] == t;
  }

  /** `f"<a href='{url}'>{html.escape(summary)}</a>"`. */
  function LinkItem(item: (Json, Json), show: Json -> string): string
    requires item.0.JStr?
  {
    "<a href='" + NewsGenerator.Text(item.1, show) + "'>" + Escape(Short(item.0.s)) + "</a>"
  }

  /** Every text is a string: splitting or escaping any other value raises. */
  predicate AllTexts(items: seq<(Json, Json)>)
  {
    forall k :: 0 <= k < |items| ==> items[k].0.JStr?
  }

  function Links(items: seq<(Json, Json)>, show: Json -> string): seq<string>
    requires AllTexts(items)
  {
    seq(|items|, k requires 0 <= k < |items| => LinkItem(items[k], show))
  }

  /** `f"- <b>{author}</b>: "`: the author is not escaped. */
  function Lead(author: Json, show: Json -> string): string
  {
    "- <b>" + NewsGenerator.Text(author, show) + "</b>: "
  }

  /** The one line written for an author: the tweet itself when there is
      one, otherwise a link per tweet joined by " • "; `None` when a text
      is not a string. */
  function AuthorLine(g: Group, show: Json -> string): (r: Option<string>)
    ensures r.Some? ==> StartsWith(r.value, Lead(g.author, show))
    ensures r.Some? <==> AllTexts(g.items)
  {
    var lead := Lead(g.author, show);
    if |g.items| == 1 then
      if g.items[0].0.JStr? then
        var r := lead + ("<a href='" + NewsGenerator.Text(g.items[0].1, show) + "'>" + Escape(g.items[0].0.s) + "</a>");
        assert r[..|lead|] == lead;
        Some(r)
      else None
    else if AllTexts(g.items) then
      var r := lead + Join(Links(g.items, show), " \U{2022} ");
      assert r[..|lead|] == lead;
      Some(r)
    else None
  }

  /** The lines for the authors `gs` in order; `None` when one of them
      raises. Tweets are consolidated: each author gets exactly one line,
      which starts with the author's name. */
  function AuthorLines(gs: seq<Group>, show: Json -> string): (r: Option<seq<string>>)
    ensures r.Some? <==> forall k :: 0 <= k < |gs| ==> AllTexts(gs[k].items)
    ensures r.Some? ==> |r.value| == |gs|
    ensures r.Some? ==> forall k :: 0 <= k < |gs| ==> StartsWith(r.value[k], Lead(gs[k].author, show))
  {
    if forall k :: 0 <= k < |gs| ==> AuthorLine(gs[k], show).Some? then
      Some(seq(|gs|, k requires 0 <= k < |gs| => AuthorLine(gs[k], show).value))
    else None
  }

  /** The lines of one subcategory: its own line, one line per author and
      an empty line; `None` when reading a tweet raises. */
  function SubcategoryLines(sub: string, tweets: Json, e: string, show: Json -> string): Option<seq<string>>
  {
    match Grouped(tweets, FIELDS)
    case None => None
    case Some(gs) =>
      match AuthorLines(gs, show)
      case None => None
      case Some(ls) => Some([SrcTelegramSender.SubcategoryLine(sub, e)] + ls + [""])
  }

  /** The header and the subcategories' lines, `es` being the emojis the
      subcategories `subs` got; `None` once one of them raised. */
  function Body(category: string, subs: seq<(string, Json)>, es: seq<string>, show: Json -> string)
    : Option<seq<string>>
    requires |es| == |subs|
    decreases |subs|
  {
    if subs == [] then Some([HeaderLine(category)])
    else
      var n := |subs| - 1;
      match Body(category, subs[..n], es[..n], show)
      case None => None
      case Some(prev) =>
        match SubcategoryLines(subs[n].0, subs[n].1, es[n], show)
        case None => None
        case Some(ls) => Some(prev + ls)
  }

  lemma BodySnoc(category: string, subs: seq<(string, Json)>, es: seq<string>, e: string, show: Json -> string)
    requires |es| < |subs|
    ensures Body(category, subs[..|es| + 1], es + [e], show)
         == match Body(category, subs[..|es|], es, show)
            case None => None
            case Some(prev) =>
              match SubcategoryLines(subs[|es|].0, subs[|es|].1, e, show)
              case None => None
              case Some(ls) => Some(prev + ls)
  {
    var j := |es|;
    assert subs[..j + 1][..j] == subs[..j] && subs[..j + 1][j] == subs[j];
    assert (es + [e])[..j] == es && (es + [e])[j] == e;
  }

  lemma {:induction false} BodyStartsWithHeader(category: string, subs: seq<(string, Json)>, es: seq<string>,
                                                show: Json -> string)
    requires |es| == |subs| && Body(category, subs, es, show).Some?
    ensures Body(category, subs, es, show).value != []
    ensures Body(category, subs, es, show).value[0] == HeaderLine(category)
    decreases |subs|
  {
    if subs != [] {
      var n := |subs| - 1;
      BodyStartsWithHeader(category, subs[..n], es[..n], show);
    }
  }

  /** The outcome of `format_category_summary` with the emojis `es` handed
      out and `used` the used set after it: "" when the summary is not a
      dict, has no key whose upper case is `category`, or the key's value is
      not a dict; otherwise the subcategories are formatted in order, each
      after getting its emoji, and an exception in one ends the whole call
      with "". */
  ghost predicate Summarised(category: string, summary: Json, emojiMap: map<string, string>, show: Json -> string,
                             es: seq<string>, used: set<string>, text: string)
  {
    var found := if summary.JObj? then FirstKey(Keys(summary.entries), Upper, category) else None;
    if found.None? || summary.entries[found.value].0 == "" || !summary.entries[found.value].1.JObj? then
      text == "" && es == [] && used == {}
    else
      var subs := summary.entries[found.value].1.entries;
      && |es| <= |subs|
      && Emoji.AllocatedRun(Keys(subs[..|es|]), emojiMap, Emoji.DEFAULTS, {}, es, used)
      && match Body(category, subs[..|es|], es, show)
         case None => text == "" && es != []
         case Some(lines) => |es| == |subs| && text == Join(lines, "\n")
  }

  /** A summary always passes `format_text` unchanged: its header carries
      `<b>`. */
  lemma SummaryPassesUnchanged(category: string, subs: seq<(string, Json)>, es: seq<string>, show: Json -> string)
    requires |es| == |subs| && Body(category, subs, es, show).Some?
    ensures var text := Join(Body(category, subs, es, show).value, "\n");
      StartsWith(text, HeaderLine(category)) && FormatText(text) == text
  {
    var lines := Body(category, subs, es, show).value;
    BodyStartsWithHeader(category, subs, es, show);
    JoinStartsWith(lines, "\n");
    var text := Join(lines, "\n");
    assert text[..|HeaderLine(category)|] == HeaderLine(category);
    assert text[3..6] == HeaderLine(category)[3..6] == "<b>";
    assert OccursAt(text, "<b>", 3);
    BoldUnchanged(text);
  }

  /** The category from a summary file's name: the stem up to its first
      '_', upper-cased. */
  function CategoryOf(stem: string): (r: string)
    ensures '_' !in r
    ensures forall k :: 0 <= k < |r| ==> !('a' <= r[k] <= 'z')
  {
    Upper(SplitOn(stem, '_')[0])
  }

  /** `sei_summary` gives `SEI`. */
  lemma CategoryOfName(name: string, rest: string)
    requires '_' !in name
    ensures CategoryOf(name + "_" + rest) == Upper(name)
  {
    var s := name + "_" + rest;
    assert s[|name|] == '_' && s[..|name|] == name;
    FirstIndexAt(s, '_', |name|);
  }

  /** `process_news_summary` gets as far as formatting: the file loads to a
      truthy value, its name gives a category and the test channel is set. */
  predicate Sendable(file: Option<Content>, stem: string, channelId: string)
  {
    file.Some? && file.value.Parsed? && Truthy(file.value.json) && CategoryOf(stem) != "" && channelId != ""
  }

  class TelegramSender {
    /** The emojis handed out for the summary being formatted. */
    var usedEmojis: set<string>
    /** `EMOJI_MAP`. */
    const emojiMap: map<string, string>
    /** Python's `str` on a non-string value. */
    const show: Json -> string

    constructor(emojiMap: map<string, string>, show: Json -> string)
      ensures this.emojiMap == emojiMap && this.show == show
      ensures usedEmojis == {}
    {
      this.emojiMap := emojiMap;
      this.show := show;
      usedEmojis := {};
    }

    /** `format_category_summary`: `es` are the emojis the subcategories
        got, in order. */
    method FormatCategorySummary(category: string, summary: Json) returns (text: string, ghost es: seq<string>)
      modifies this`usedEmojis
      ensures Summarised(category, summary, emojiMap, show, es, usedEmojis, text)
    {
      usedEmojis := {};
      es := [];
      if !summary.JObj? {
        return "", es;
      }
      var found := FirstKey(Keys(summary.entries), Upper, category);
      if found.None? || summary.entries[found.value].0 == "" || !summary.entries[found.value].1.JObj? {
        return "", es;
      }
      var subs := summary.entries[found.value].1.entries;
      var lines;
      lines, es := FormatSubcategories(category, subs);
      if lines.None? {
        return "", es;
      }
      text := Join(lines.value, "\n");
    }

    /** The subcategory loop of `format_category_summary`, from the used
        set it is given; it stops at the first subcategory that raises. */
    method FormatSubcategories(category: string, subs: seq<(string, Json)>)
      returns (lines: Option<seq<string>>, ghost es: seq<string>)
      modifies this`usedEmojis
      ensures |es| <= |subs| && Emoji.AllocatedRun(Keys(subs[..|es|]), emojiMap, Emoji.DEFAULTS, old(usedEmojis), es, usedEmojis)
      ensures lines == Body(category, subs[..|es|], es, show)
      ensures lines.Some? ==> |es| == |subs|
      ensures lines.None? ==> es != []
    {
      ghost var start := usedEmojis;
      es := [];
      var out := [HeaderLine(category)];
      for j := 0 to |subs|
        invariant |es| == j
        invariant Body(category, subs[..j], es, show) == Some(out)
        invariant Emoji.AllocatedRun(Keys(subs[..j]), emojiMap, Emoji.DEFAULTS, start, es, usedEmojis)
      {
        var sub := subs[j].0;
        var e, used' := Emoji.Allocate(sub, emojiMap, Emoji.DEFAULTS, usedEmojis);
        Emoji.AllocatedRunStep(subs, j, emojiMap, Emoji.DEFAULTS, start, es, usedEmojis, e, used');
        usedEmojis := used';
        BodySnoc(category, subs, es, e, show);
        var next := AppendSubcategory(out, sub, subs[j].1, e);
        es := es + [e];
        if next.None? {
          return None, es;
        }
        out := next.value;
      }
      assert subs[..|subs|] == subs;
      lines := Some(out);
    }

    /** One pass of the subcategory loop, given the emoji it got. */
    method AppendSubcategory(lines: seq<string>, sub: string, tweets: Json, e: string)
      returns (out: Option<seq<string>>)
      ensures out == match SubcategoryLines(sub, tweets, e, show)
        case None => None
        case Some(ls) => Some(lines + ls)
    {
      var line := "<u><b>" + sub + "</b></u>";
      if e != "" {
        line := line + " " + e;
      }
      assert line == SrcTelegramSender.SubcategoryLine(sub, e);
      var groups := GroupTweets(tweets, FIELDS);
      if groups.None? {
        return None;
      }
      var authors := AuthorLinesLoop(groups.value);
      if authors.None? {
        return None;
      }
      ConcatAssoc(lines, [line] + authors.value, [""]);
      ConcatAssoc(lines, [line], authors.value);
      out := Some(lines + [line] + authors.value + [""]);
    }

    /** The loop over the authors of one subcategory. */
    method AuthorLinesLoop(gs: seq<Group>) returns (r: Option<seq<string>>)
      ensures r == AuthorLines(gs, show)
    {
      var out: seq<string> := [];
      for k := 0 to |gs|
        invariant |out| == k
        invariant forall m :: 0 <= m < k ==> AuthorLine(gs[m], show).Some? && out[m] == AuthorLine(gs[m], show).value
      {
        var line := AuthorLineOf(gs[k]);
        if line.None? {
          return None;
        }
        out := out + [line.value];
      }
      var expected := seq(|gs|, k requires 0 <= k < |gs| => AuthorLine(gs[k], show).value);
      assert expected == out;
      r := Some(out);
    }

    /** One author's line: the single-tweet form, or the consolidated
        links. */
    method AuthorLineOf(g: Group) returns (r: Option<string>)
      ensures r == AuthorLine(g, show)
    {
      var lead := "- <b>" + NewsGenerator.Text(g.author, show) + "</b>: ";
      if |g.items| == 1 {
        var (text, url) := g.items[0];
        if !text.JStr? {
          return None;
        }
        return Some(lead + ("<a href='" + NewsGenerator.Text(url, show) + "'>" + Escape(text.s) + "</a>"));
      }
      var consolidated := ConsolidateLinks(g.items);
      if consolidated.None? {
        return None;
      }
      r := Some(lead + Join(consolidated.value, " \U{2022} "));
    }

    /** The loop that writes one link per tweet of an author with several. */
    method ConsolidateLinks(items: seq<(Json, Json)>) returns (r: Option<seq<string>>)
      ensures r.Some? <==> AllTexts(items)
      ensures r.Some? ==> r.value == Links(items, show)
    {
      var out: seq<string> := [];
      for k := 0 to |items|
        invariant |out| == k
        invariant forall m :: 0 <= m < k ==> items[m].0.JStr? && out[m] == LinkItem(items[m], show)
      {
        var (text, url) := items[k];
        if !text.JStr? {
          return None;
        }
        var summary := Cut(text.s);
        if |summary| > 50 {
          summary := summary[..47] + "...";
        }
        assert summary == Short(text.s);
        out := out + ["<a href='" + NewsGenerator.Text(url, show) + "'>" + Escape(summary) + "</a>"];
      }
      r := Some(out);
    }

    /** `send_message`: `None` when the Bot API raised on every attempt
        (`raises`); otherwise whether the text was sent. */
    method SendMessage(channelId: string, text: string, raises: bool) returns (r: Option<bool>)
      ensures text == "" || channelId == "" ==> r == Some(false)
      ensures text != "" && channelId != "" ==>
        r == if FormatText(text) == "" then Some(false) else if raises then None else Some(true)
    {
      if text == "" || channelId == "" {
        return Some(false);
      }
      var formatted := FormatTextLoop(text);
      if formatted == "" {
        return Some(false);
      }
      if raises {
        return None;
      }
      r := Some(true);
    }

    /** `process_news_summary` for a summary file named `stem` whose content
        is `file` (`None` when it cannot be read); `channelId` is
        `TELEGRAM_TEST_CHANNEL_ID` and `raises` whether the Bot API raised.
        `text` is the summary formatted and `es` the emojis it used. */
    method ProcessNewsSummary(file: Option<Content>, stem: string, channelId: string, raises: bool)
      returns (ok: bool, ghost text: string, ghost es: seq<string>)
      modifies this`usedEmojis
      ensures ok <==> Sendable(file, stem, channelId) && text != "" && !raises
      ensures Sendable(file, stem, channelId) ==>
        Summarised(CategoryOf(stem), file.value.json, emojiMap, show, es, usedEmojis, text)
      ensures !Sendable(file, stem, channelId) ==> usedEmojis == old(usedEmojis)
    {
      text, es := "", [];
      if file.None? || file.value.Corrupt? || !Truthy(file.value.json) {
        return false, text, es;
      }
      var category := CategoryOf(stem);
      if category == "" || channelId == "" {
        return false, text, es;
      }
      var formatted;
      formatted, es := FormatCategorySummary(category, file.value.json);
      text := formatted;
      if formatted == "" {
        return false, text, es;
      }
      SummarisedPasses(category, file.value.json, emojiMap, show, es, usedEmojis, formatted);
      var html := FormatTextLoop(formatted);
      var sent := SendMessage(channelId, html, raises);
      ok := sent == Some(true);
    }
  }

  /** A non-empty summary passes `format_text` unchanged. */
  lemma SummarisedPasses(category: string, summary: Json, emojiMap: map<string, string>, show: Json -> string,
                         es: seq<string>, used: set<string>, text: string)
    requires Summarised(category, summary, emojiMap, show, es, used, text) && text != ""
    ensures FormatText(text) == text
  {
    var found := FirstKey(Keys(summary.entries), Upper, category);
    var subs := summary.entries[found.value].1.entries;
    SummaryPassesUnchanged(category, subs[..|es|], es, show);
  }
}
