// What the Telegram and Discord senders share: HTML escaping, the
// case-insensitive category lookup, grouping a subcategory's tweets by
// author in first-appearance order, the choice of the latest summary file
// and the validation of a summary file. The news-filtered directory is an
// ordered listing of file names with their contents.

module Senders {
  import opened Common

  // ---------------------------------------------------------------
  // `html.escape` and its inverse
  // ---------------------------------------------------------------

  function EscapeChar(c: char): string
  {
    if c == '&' then "&amp;"
    else if c == '<' then "&lt;"
    else if c == '>' then "&gt;"
    else if c == '"' then "&quot;"
    else if c == '\'' then "&#x27;"
    else [c]
  }

  /** `html.escape(s)`, quotes included. */
  function Escape(s: string): (r: string)
    ensures |r| >= |s|
  {
    if s == [] then [] else EscapeChar(s[0]) + Escape(s[1..])
  }

  /** A character that would open or close markup. */
  predicate IsMarkup(c: char)
  {
    c == '<' || c == '>' || c == '"' || c == '\''
  }

  /** Escaped text holds no character that could open a tag or end an
      attribute. */
  lemma {:induction false} EscapeNoMarkup(s: string)
    ensures forall i :: 0 <= i < |Escape(s)| ==> !IsMarkup(Escape(s)[i])
    decreases |s|
  {
    if s != [] {
      EscapeNoMarkup(s[1..]);
      var h := EscapeChar(s[0]);
      assert forall i :: 0 <= i < |h| ==> !IsMarkup(h[i]);
      assert forall i :: |h| <= i < |Escape(s)| ==> Escape(s)[i] == Escape(s[1..])[i - |h|];
    }
  }

  /** `html.unescape` restricted to the five entities `Escape` writes. */
  function Unescape(t: string): (r: string)
    decreases |t|
  {
    if t == [] then []
    else if StartsWith(t, "&amp;") then "&" + Unescape(t[5..])
    else if StartsWith(t, "&lt;") then "<" + Unescape(t[4..])
    else if StartsWith(t, "&gt;") then ">" + Unescape(t[4..])
    else if StartsWith(t, "&quot;") then "\"" + Unescape(t[6..])
    else if StartsWith(t, "&#x27;") then "'" + Unescape(t[6..])
    else [t[0]] + Unescape(t[1..])
  }

  /** A text that does not start with '&' unescapes one character at a
      time. */
  lemma UnescapePlain(t: string)
    requires t != [] && t[0] != '&'
    ensures Unescape(t) == [t[0]] + Unescape(t[1..])
  {
    assert !StartsWith(t, "&amp;") && !StartsWith(t, "&lt;") && !StartsWith(t, "&gt;")
        && !StartsWith(t, "&quot;") && !StartsWith(t, "&#x27;") by {
      assert "&amp;"[0] == '&' && "&lt;"[0] == '&' && "&gt;"[0] == '&';
      assert "&quot;"[0] == '&' && "&#x27;"[0] == '&';
    }
  }

  lemma UnescapeChar(c: char, rest: string)
    ensures Unescape(EscapeChar(c) + rest) == [c] + Unescape(rest)
  {
    var e := EscapeChar(c);
    var t := e + rest;
    assert t[..|e|] == e && t[|e|..] == rest;
    if c == '&' {
      assert StartsWith(t, "&amp;");
    } else if c == '<' {
      assert t[1] == 'l';
      assert !StartsWith(t, "&amp;");
      assert StartsWith(t, "&lt;");
    } else if c == '>' {
      assert t[1] == 'g';
      assert !StartsWith(t, "&amp;") && !StartsWith(t, "&lt;");
      assert StartsWith(t, "&gt;");
    } else if c == '"' {
      assert t[1] == 'q';
      assert !StartsWith(t, "&amp;") && !StartsWith(t, "&lt;") && !StartsWith(t, "&gt;");
      assert StartsWith(t, "&quot;");
    } else if c == '\'' {
      assert t[1] == '#';
      assert !StartsWith(t, "&amp;") && !StartsWith(t, "&lt;") && !StartsWith(t, "&gt;");
      assert !StartsWith(t, "&quot;");
      assert StartsWith(t, "&#x27;");
    } else {
      assert e == [c];
      UnescapePlain(t);
    }
  }

  /** Escaping loses nothing: unescaping gives the text back. */
  lemma {:induction false} EscapeRoundTrip(s: string)
    ensures Unescape(Escape(s)) == s
    decreases |s|
  {
    if s != [] {
      UnescapeChar(s[0], Escape(s[1..]));
      EscapeRoundTrip(s[1..]);
      assert [s[0]] + s[1..] == s;
    }
  }

  // ---------------------------------------------------------------
  // The category key
  // ---------------------------------------------------------------

  /** Index of the first key whose normal form is `target`. */
  function FirstKey(keys: seq<string>, norm: string -> string, target: string): (r: Option<nat>)
    ensures r.Some? ==> r.value < |keys| && norm(keys[r.value]) == target
    ensures r.Some? ==> forall j :: 0 <= j < r.value ==> norm(keys[j]) != target
    ensures r.None? <==> forall j :: 0 <= j < |keys| ==> norm(keys[j]) != target
  {
    if keys == [] then None
    else if norm(keys[0]) == target then Some(0)
    else match FirstKey(keys[1..], norm, target)
      case None => None
      case Some(k) => Some(k + 1)
  }

  /** The loop of the src senders' `format_category_summary` that finds the
      first key equal to the category up to case. */
  method FindCategoryKey(keys: seq<string>, category: string) returns (k: Option<nat>)
    ensures k == FirstKey(keys, Lower, Lower(category))
  {
    k := FindKey(keys, Lower, Lower(category));
  }

  /** The search loop, for any normal form of the keys. */
  method FindKey(keys: seq<string>, norm: string -> string, target: string) returns (k: Option<nat>)
    ensures k == FirstKey(keys, norm, target)
  {
    var i := 0;
    while i < |keys|
      invariant 0 <= i <= |keys|
      invariant forall j :: 0 <= j < i ==> norm(keys[j]) != target
      decreases |keys| - i
    {
      if norm(keys[i]) == target {
        FirstKeyAt(keys, norm, target, i);
        return Some(i);
      }
      i := i + 1;
    }
    k := None;
  }

  /** The first match is where the search stops. */
  lemma {:induction false} FirstKeyAt(keys: seq<string>, norm: string -> string, target: string, i: nat)
    requires i < |keys| && norm(keys[i]) == target
    requires forall j :: 0 <= j < i ==> norm(keys[j]) != target
    ensures FirstKey(keys, norm, target) == Some(i)
    decreases i
  {
    if i > 0 {
      FirstKeyAt(keys[1..], norm, target, i - 1);
    }
  }

  // ---------------------------------------------------------------
  // Grouping a subcategory's tweets by author
  // ---------------------------------------------------------------

  /** The field names a sender reads: author, text, link. */
  datatype Names = Names(author: string, text: string, link: string)

  /** The tweets of one author, text and link, in the order they came. */
  datatype Group = Group(author: Json, items: seq<(Json, Json)>)

  /** Only values Python can hash can be dict keys. */
  predicate Hashable(j: Json)
  {
    !j.JList? && !j.JObj?
  }

  /** The three fields `tweet.get(name, '')` reads, when all are truthy. */
  function Complete(names: Names): Json -> Option<(Json, Json, Json)>
  {
    (t: Json) =>
      if !t.JObj? then None
      else
        var a := GetOr(t.entries, names.author, JStr(""));
        var c := GetOr(t.entries, names.text, JStr(""));
        var u := GetOr(t.entries, names.link, JStr(""));
        if Truthy(a) && Truthy(c) && Truthy(u) then Some((a, c, u)) else None
  }

  /** Adds one tweet to the group of its author, opening a group at the end
      for an author not seen yet. */
  function Add(gs: seq<Group>, a: Json, item: (Json, Json)): (r: seq<Group>)
    ensures Authors(r) == if a in Authors(gs) then Authors(gs) else Authors(gs) + [a]
  {
    if gs == [] then [Group(a, [item])]
    else if gs[0].author == a then [gs[0].(items := gs[0].items + [item])] + gs[1..]
    else [gs[0]] + Add(gs[1..], a, item)
  }

  function Authors(gs: seq<Group>): (r: seq<Json>)
    ensures |r| == |gs|
    ensures forall i :: 0 <= i < |gs| ==> r[i] == gs[i].author
  {
    if gs == [] then [] else [gs[0].author] + Authors(gs[1..])
  }

  /** The tweets grouped under author `a`. */
  function Lookup(gs: seq<Group>, a: Json): seq<(Json, Json)>
  {
    if gs == [] then [] else if gs[0].author == a then gs[0].items else Lookup(gs[1..], a)
  }

  lemma {:induction false} LookupAdd(gs: seq<Group>, a: Json, item: (Json, Json), b: Json)
    ensures Lookup(Add(gs, a, item), b) == Lookup(gs, b) + (if b == a then [item] else [])
  {
    if gs != [] && gs[0].author != a {
      LookupAdd(gs[1..], a, item, b);
    }
  }

  /** One tweet read by the grouping loop; `None` when reading it raises:
      `.get` on a value that is not a dict, or a complete tweet whose author
      cannot be a dict key. */
  function GroupStep(gs: seq<Group>, t: Json, names: Names): Option<seq<Group>>
  {
    if !t.JObj? then None
    else match Complete(names)(t)
      case None => Some(gs)
      case Some((a, c, u)) => if Hashable(a) then Some(Add(gs, a, (c, u))) else None
  }

  /** The groups built from the tweets `xs`, in order. */
  function GroupAll(xs: seq<Json>, names: Names): Option<seq<Group>>
    decreases |xs|
  {
    if xs == [] then Some([])
    else match GroupAll(xs[..|xs| - 1], names)
      case None => None
      case Some(gs) => GroupStep(gs, xs[|xs| - 1], names)
  }

  lemma GroupAllSnoc(xs: seq<Json>, i: nat, names: Names)
    requires i < |xs|
    ensures GroupAll(xs[..i + 1], names)
         == match GroupAll(xs[..i], names)
            case None => None
            case Some(gs) => GroupStep(gs, xs[i], names)
  {
    assert xs[..i + 1][..i] == xs[..i];
    assert xs[..i + 1][i] == xs[i];
  }

  /** The grouping loop of `format_category_summary` over the value of a
      subcategory; `None` when iterating it or reading a tweet raises. */
  method GroupTweets(tweets: Json, names: Names) returns (r: Option<seq<Group>>)
    ensures Elements(tweets).None? ==> r.None?
    ensures Elements(tweets).Some? ==> r == GroupAll(Elements(tweets).value, names)
  {
    var xs := Elements(tweets);
    if xs.None? {
      return None;
    }
    r := GroupList(xs.value, names);
  }

  method GroupList(xs: seq<Json>, names: Names) returns (r: Option<seq<Group>>)
    ensures r == GroupAll(xs, names)
  {
    var gs: seq<Group> := [];
    for i := 0 to |xs|
      invariant GroupAll(xs[..i], names) == Some(gs)
    {
      GroupAllSnoc(xs, i, names);
      var step := GroupStep(gs, xs[i], names);
      if step.None? {
        GroupAllStops(xs, i + 1, names);
        return None;
      }
      gs := step.value;
    }
    assert xs[..|xs|] == xs;
    r := Some(gs);
  }

  /** An exception ends the grouping for good. */
  lemma {:induction false} GroupAllStops(xs: seq<Json>, i: nat, names: Names)
    requires i <= |xs| && GroupAll(xs[..i], names).None?
    ensures GroupAll(xs, names).None?
    decreases |xs|
  {
    if i == |xs| {
      assert xs[..i] == xs;
    } else {
      assert xs[..|xs| - 1][..i] == xs[..i];
      GroupAllStops(xs[..|xs| - 1], i, names);
    }
  }

  function Author(x: (Json, Json, Json)): Json { x.0 }

  function AuthorsOf(ts: seq<(Json, Json, Json)>): (r: seq<Json>)
    ensures |r| == |ts|
    ensures forall i :: 0 <= i < |ts| ==> r[i] == ts[i].0
  {
    seq(|ts|, i requires 0 <= i < |ts| => ts[i].0)
  }

  /** The text and link of `a`'s tweets among `ts`, in order. */
  function ItemsOf(ts: seq<(Json, Json, Json)>, a: Json): seq<(Json, Json)>
  {
    if ts == [] then []
    else ItemsOf(ts[..|ts| - 1], a) + (if ts[|ts| - 1].0 == a then [(ts[|ts| - 1].1, ts[|ts| - 1].2)] else [])
  }

  lemma UniqueSnoc(xs: seq<Json>, a: Json)
    ensures Unique(xs + [a]) == if a in Unique(xs) then Unique(xs) else Unique(xs) + [a]
  {
    assert (xs + [a])[..|xs|] == xs;
  }

  lemma ItemsOfSnoc(ts: seq<(Json, Json, Json)>, x: (Json, Json, Json), b: Json)
    ensures ItemsOf(ts + [x], b) == ItemsOf(ts, b) + (if x.0 == b then [(x.1, x.2)] else [])
  {
    assert (ts + [x])[..|ts|] == ts;
  }

  /** One complete tweet more: the groups and the reference definitions
      grow alike. */
  lemma GroupAddStep(gs: seq<Group>, ts: seq<(Json, Json, Json)>, x: (Json, Json, Json))
    requires Authors(gs) == Unique(AuthorsOf(ts))
    requires forall b :: Lookup(gs, b) == ItemsOf(ts, b)
    ensures Authors(Add(gs, x.0, (x.1, x.2))) == Unique(AuthorsOf(ts + [x]))
    ensures forall b :: Lookup(Add(gs, x.0, (x.1, x.2)), b) == ItemsOf(ts + [x], b)
  {
    assert AuthorsOf(ts + [x]) == AuthorsOf(ts) + [x.0];
    UniqueSnoc(AuthorsOf(ts), x.0);
    forall b ensures Lookup(Add(gs, x.0, (x.1, x.2)), b) == ItemsOf(ts + [x], b) {
      LookupAdd(gs, x.0, (x.1, x.2), b);
      ItemsOfSnoc(ts, x, b);
    }
  }

  /** When grouping succeeds, the groups are the authors of the complete
      tweets in first-appearance order, each author once, and each group
      holds exactly that author's complete tweets in their order. */
  lemma {:induction false} GroupAllCharacterised(xs: seq<Json>, names: Names)
    requires GroupAll(xs, names).Some?
    ensures Authors(GroupAll(xs, names).value) == Unique(AuthorsOf(FilterMap(xs, Complete(names))))
    ensures forall b :: Lookup(GroupAll(xs, names).value, b) == ItemsOf(FilterMap(xs, Complete(names)), b)
    decreases |xs|
  {
    if xs == [] {
      assert Unique(AuthorsOf([])) == [];
    } else {
      var init := xs[..|xs| - 1];
      var t := xs[|xs| - 1];
      GroupAllCharacterised(init, names);
      var gs := GroupAll(init, names).value;
      var ts := FilterMap(init, Complete(names));
      assert FilterMap(xs, Complete(names)) == ts + (match Complete(names)(t) case Some(y) => [y] case None => []);
      if Complete(names)(t).Some? {
        GroupAddStep(gs, ts, Complete(names)(t).value);
      } else {
        assert ts + [] == ts;
      }
    }
  }

  /** A group's tweets with their author. */
  function Triples(g: Group): (ts: seq<(Json, Json, Json)>)
    ensures |ts| == |g.items|
    ensures forall i :: 0 <= i < |ts| ==> ts[i] == (g.author, g.items[i].0, g.items[i].1)
  {
    seq(|g.items|, i requires 0 <= i < |g.items| => (g.author, g.items[i].0, g.items[i].1))
  }

  /** The tweets in the order the senders write them: group by group. */
  function Flat(gs: seq<Group>): seq<(Json, Json, Json)>
  {
    if gs == [] then [] else Triples(gs[0]) + Flat(gs[1..])
  }

  lemma {:induction false} FlatAppend(a: seq<Group>, b: seq<Group>)
    ensures Flat(a + b) == Flat(a) + Flat(b)
    decreases |a|
  {
    if a != [] {
      assert (a + b)[0] == a[0] && (a + b)[1..] == a[1..] + b;
      FlatAppend(a[1..], b);
    } else {
      assert a + b == b;
    }
  }

  lemma FlatSnoc(gs: seq<Group>, g: nat)
    requires g < |gs|
    ensures Flat(gs[..g + 1]) == Flat(gs[..g]) + Triples(gs[g])
  {
    assert gs[..g + 1] == gs[..g] + [gs[g]];
    FlatAppend(gs[..g], [gs[g]]);
    assert Flat([gs[g]]) == Triples(gs[g]) + Flat([]);
  }

  lemma {:induction false} FlatAdd(gs: seq<Group>, a: Json, item: (Json, Json))
    ensures multiset(Flat(Add(gs, a, item))) == multiset(Flat(gs)) + multiset{(a, item.0, item.1)}
    decreases |gs|
  {
    if gs == [] {
      assert Flat([Group(a, [item])]) == Triples(Group(a, [item])) + Flat([]);
    } else if gs[0].author == a {
      FlatAddHead(gs, a, item);
    } else {
      FlatAdd(gs[1..], a, item);
      FlatAddTail(gs, a, item);
    }
  }

  lemma FlatAddHead(gs: seq<Group>, a: Json, item: (Json, Json))
    requires gs != [] && gs[0].author == a
    ensures Flat(Add(gs, a, item)) == Triples(gs[0]) + [(a, item.0, item.1)] + Flat(gs[1..])
  {
    var g := gs[0].(items := gs[0].items + [item]);
    assert Triples(g) == Triples(gs[0]) + [(a, item.0, item.1)];
    assert ([g] + gs[1..])[1..] == gs[1..];
  }

  lemma FlatAddTail(gs: seq<Group>, a: Json, item: (Json, Json))
    requires gs != [] && gs[0].author != a
    ensures Flat(Add(gs, a, item)) == Triples(gs[0]) + Flat(Add(gs[1..], a, item))
  {
    assert ([gs[0]] + Add(gs[1..], a, item))[1..] == Add(gs[1..], a, item);
  }

  /** Grouping reorders the complete tweets and does nothing else: none is
      lost, none is repeated, and every incomplete one is left out. */
  lemma {:induction false} GroupAllPermutes(xs: seq<Json>, names: Names)
    requires GroupAll(xs, names).Some?
    ensures multiset(Flat(GroupAll(xs, names).value)) == multiset(FilterMap(xs, Complete(names)))
    decreases |xs|
  {
    if xs != [] {
      var init := xs[..|xs| - 1];
      var t := xs[|xs| - 1];
      GroupAllPermutes(init, names);
      var gs := GroupAll(init, names).value;
      assert FilterMap(xs, Complete(names))
          == FilterMap(init, Complete(names)) + (match Complete(names)(t) case Some(y) => [y] case None => []);
      if Complete(names)(t).Some? {
        var x := Complete(names)(t).value;
        FlatAdd(gs, x.0, (x.1, x.2));
      } else {
        assert FilterMap(init, Complete(names)) + [] == FilterMap(init, Complete(names));
      }
    }
  }

  /** The authors of the groups are distinct. */
  lemma GroupAuthorsDistinct(xs: seq<Json>, names: Names)
    requires GroupAll(xs, names).Some?
    ensures var gs := GroupAll(xs, names).value;
      forall i, j :: 0 <= i < j < |gs| ==> gs[i].author != gs[j].author
  {
    GroupAllCharacterised(xs, names);
    var gs := GroupAll(xs, names).value;
    forall i, j | 0 <= i < j < |gs| ensures gs[i].author != gs[j].author {
      assert Authors(gs)[i] == gs[i].author && Authors(gs)[j] == gs[j].author;
    }
  }

  // ---------------------------------------------------------------
  // The summary files
  // ---------------------------------------------------------------

  /** The name a summary file of `category` has for `date`. */
  function SummaryName(category: string, date: string): string
  {
    Lower(category) + "_summary_" + date + ".json"
  }

  /** The glob `<category>_summary_*.json`. */
  predicate MatchesSummary(name: string, category: string)
  {
    var prefix := Lower(category) + "_summary_";
    StartsWith(name, prefix) && EndsWith(name, ".json") && |name| >= |prefix| + 5
  }

  /** What orders summary files: the stem's text after its last '_'. */
  function DateKey(name: string): string
  {
    var stem := if EndsWith(name, ".json") then name[..|name| - 5] else name;
    AfterLast(stem, "_")
  }

  predicate Greater(a: string, b: string)
  {
    !LexLe(a, b)
  }

  /** Index of `max` over the keys `ks`: a later key replaces the one kept
      so far only when it is strictly greater. */
  function MaxIndex(ks: seq<string>): (i: nat)
    requires ks != []
    ensures i < |ks|
    decreases |ks|
  {
    if |ks| == 1 then 0
    else
      var i := MaxIndex(ks[..|ks| - 1]);
      if Greater(ks[|ks| - 1], ks[i]) then |ks| - 1 else i
  }

  /** The chosen key is the greatest, and no earlier key equals it: the
      first of the latest. */
  lemma {:induction false} MaxIndexIsFirstMax(ks: seq<string>)
    requires ks != []
    ensures forall j :: 0 <= j < |ks| ==> LexLe(ks[j], ks[MaxIndex(ks)])
    ensures forall j :: 0 <= j < MaxIndex(ks) ==> ks[j] != ks[MaxIndex(ks)]
    decreases |ks|
  {
    if |ks| == 1 {
      LexLeRefl(ks[0]);
    } else {
      var init := ks[..|ks| - 1];
      MaxIndexIsFirstMax(init);
      var i := MaxIndex(init);
      var m := ks[i];
      var last := ks[|ks| - 1];
      assert forall j :: 0 <= j < |ks| - 1 ==> ks[j] == init[j];
      LexLeTotal(last, m);
      if Greater(last, m) {
        LexLeRefl(last);
        forall j | 0 <= j < |ks| - 1 ensures LexLe(ks[j], last) && ks[j] != last {
          LexLeTrans(ks[j], m, last);
        }
      }
    }
  }

  function DateKeys(fs: seq<string>): (ks: seq<string>)
    ensures |ks| == |fs|
    ensures forall i :: 0 <= i < |fs| ==> ks[i] == DateKey(fs[i])
  {
    seq(|fs|, i requires 0 <= i < |fs| => DateKey(fs[i]))
  }

  lemma {:induction false} LexLeRefl(a: string)
    ensures LexLe(a, a)
    decreases |a|
  {
    if a != [] {
      LexLeRefl(a[1..]);
    }
  }

  /** The summary files in the listing, in listing order. */
  function SummaryFiles(dir: seq<(string, Content)>, category: string): (r: seq<string>)
    ensures forall i :: 0 <= i < |r| ==> MatchesSummary(r[i], category)
  {
    if dir == [] then []
    else
      var name := dir[|dir| - 1].0;
      SummaryFiles(dir[..|dir| - 1], category) + (if MatchesSummary(name, category) then [name] else [])
  }

  /** `_get_latest_summary_file`: `None` when no file matches. */
  function LatestSummaryFile(dir: seq<(string, Content)>, category: string): (r: Option<string>)
    ensures r.None? <==> SummaryFiles(dir, category) == []
    ensures r.Some? ==> r.value in SummaryFiles(dir, category)
  {
    var fs := SummaryFiles(dir, category);
    if fs == [] then None else Some(fs[MaxIndex(DateKeys(fs))])
  }

  /** The latest summary file matches the glob and no matching file has a
      later date key. */
  lemma LatestIsLatest(dir: seq<(string, Content)>, category: string)
    requires LatestSummaryFile(dir, category).Some?
    ensures var f := LatestSummaryFile(dir, category).value;
      MatchesSummary(f, category)
      && forall g :: g in SummaryFiles(dir, category) ==> LexLe(DateKey(g), DateKey(f))
  {
    var fs := SummaryFiles(dir, category);
    MaxIndexIsFirstMax(DateKeys(fs));
  }

  /** `_get_input_file`: the latest summary when no date is given, else the
      summary of that date when it exists. */
  function InputFile(dir: seq<(string, Content)>, category: string, date: string): (r: Option<string>)
    ensures date == "" ==> r == LatestSummaryFile(dir, category)
    ensures date != "" ==> (r.Some? <==> HasKey(dir, SummaryName(category, date)))
    ensures date != "" && r.Some? ==> r.value == SummaryName(category, date)
  {
    if date == "" then LatestSummaryFile(dir, category)
    else if HasKey(dir, SummaryName(category, date)) then Some(SummaryName(category, date))
    else None
  }

  /** `_validate_summary_file`: the file exists and parses to a dict whose
      `CATEGORY` entry is a dict of lists whose every tweet has the three
      fields (a tweet `in` cannot be asked of makes it invalid too). */
  predicate ValidSummary(file: Option<Content>)
  {
    && file.Some? && file.value.Parsed? && file.value.json.JObj?
    && HasKey(file.value.json.entries, CATEGORY)
    && ValidCategory(Get(file.value.json.entries, CATEGORY).value)
  }

  predicate ValidCategory(cat: Json)
  {
    cat.JObj? && forall i :: 0 <= i < |cat.entries| ==> ValidTweets(cat.entries[i].1)
  }

  predicate ValidTweets(tweets: Json)
  {
    tweets.JList? && forall k :: 0 <= k < |tweets.items| ==> HasFields(tweets.items[k])
  }

  /** `all(field in tweet for field in REQUIRED)`, false when `in` raises. */
  predicate HasFields(t: Json)
  {
    PyIn("attribution", t) == Some(true) && PyIn("content", t) == Some(true) && PyIn("url", t) == Some(true)
  }

  /** The loops of `_validate_summary_file`. */
  method ValidateSummaryFile(file: Option<Content>) returns (ok: bool)
    ensures ok == ValidSummary(file)
  {
    if file.None? || file.value.Corrupt? || !file.value.json.JObj? {
      return false;
    }
    var data := file.value.json.entries;
    if !HasKey(data, CATEGORY) {
      return false;
    }
    var cat := Get(data, CATEGORY).value;
    if !cat.JObj? {
      return false;
    }
    for i := 0 to |cat.entries|
      invariant forall i' :: 0 <= i' < i ==> ValidTweets(cat.entries[i'].1)
    {
      var tweets := cat.entries[i].1;
      if !tweets.JList? {
        return false;
      }
      for k := 0 to |tweets.items|
        invariant forall k' :: 0 <= k' < k ==> HasFields(tweets.items[k'])
      {
        if PyIn("attribution", tweets.items[k]) != Some(true)
           || PyIn("content", tweets.items[k]) != Some(true)
           || PyIn("url", tweets.items[k]) != Some(true) {
          return false;
        }
      }
    }
    return true;
  }

  // ---------------------------------------------------------------
  // Dates
  // ---------------------------------------------------------------

  const MONTHS: seq<string> := ["January", "February", "March", "April", "May", "June", "July",
                                "August", "September", "October", "November", "December"]

  /** `datetime.strptime(d.strip(), '%Y%m%d').strftime('%B %d')`; `None`
      when the date does not parse. */
  function FormatDate(d: string): (r: Option<string>)
    ensures r.Some? <==> IsYmd(Strip(d))
    ensures r.Some? ==> EndsWith(r.value, Strip(d)[6..])
  {
    var s := Strip(d);
    if IsYmd(s) then
      var m := DigitsValue(s[4..6]);
      var r := MONTHS[m - 1] + " " + s[6..];
      assert r[|r| - 2..] == s[6..];
      Some(r)
    else None
  }

  // ---------------------------------------------------------------
  // The line loop of the senders' `format_text`
  // ---------------------------------------------------------------

  predicate IsHeader(line: string)
  {
    Contains(line, " - ") && Contains(line, "Rollup")
  }

  /** A line that is neither a header nor a tweet line nor a link. */
  predicate IsSubcategory(line: string)
  {
    !IsHeader(line) && ':' !in line && !StartsWith(line, "http")
  }

  /** The empty line written before a subcategory with lines above it. */
  function Sep(out: seq<string>, line: string): seq<string>
  {
    if IsSubcategory(line) && out != [] then [""] else []
  }

  /** The loop of `format_text` from the line it has reached, with the lines
      written so far; `fmt` is how the sender writes one line. */
  function FormatFrom(lines: seq<string>, out: seq<string>, fmt: string -> string): seq<string>
    decreases |lines|
  {
    if lines == [] then out
    else
      var line := Strip(lines[0]);
      if line == [] then FormatFrom(lines[1..], out, fmt)
      else FormatFrom(lines[1..], out + Sep(out, line) + [fmt(line)], fmt)
  }

  /** The stripped non-blank lines, in order. */
  function NonBlank(lines: seq<string>): (r: seq<string>)
    ensures forall i :: 0 <= i < |r| ==> r[i] != []
  {
    if lines == [] then []
    else
      var line := Strip(lines[0]);
      var rest := NonBlank(lines[1..]);
      if line == [] then rest else [line] + rest
  }

  /** The reference: every non-blank line formatted on its own, with an
      empty line before each subcategory that has something above it. */
  function Reference(ls: seq<string>, started: bool, fmt: string -> string): seq<string>
  {
    if ls == [] then []
    else (if started && IsSubcategory(ls[0]) then [""] else []) + [fmt(ls[0])] + Reference(ls[1..], true, fmt)
  }

  /** The loop agrees with the reference: blank lines are dropped, each
      other line gives one formatted line, and only subcategories get a
      separator, never the first line written. */
  lemma {:induction false} FormatFromReference(lines: seq<string>, out: seq<string>, fmt: string -> string)
    ensures FormatFrom(lines, out, fmt) == out + Reference(NonBlank(lines), out != [], fmt)
    decreases |lines|
  {
    if lines != [] {
      var line := Strip(lines[0]);
      if line == [] {
        FormatFromReference(lines[1..], out, fmt);
      } else {
        var sep := Sep(out, line);
        FormatFromReference(lines[1..], out + sep + [fmt(line)], fmt);
        assert NonBlank(lines) == [line] + NonBlank(lines[1..]);
        assert out + sep + [fmt(line)] == out + (sep + [fmt(line)]);
        ConcatAssoc(out, sep + [fmt(line)], Reference(NonBlank(lines[1..]), true, fmt));
      }
    }
  }

  /** The first line written is the first non-blank line, formatted. */
  lemma FormatFirstLine(lines: seq<string>, fmt: string -> string)
    requires NonBlank(lines) != []
    ensures var out := FormatFrom(lines, [], fmt);
      out != [] && out[0] == fmt(NonBlank(lines)[0])
  {
    FormatFromReference(lines, [], fmt);
  }

  // ---------------------------------------------------------------
  // What the src senders' `format_category_summary` and
  // `process_news_summary` share
  // ---------------------------------------------------------------

  /** The tweet fields the src senders read. */
  const NAMES := Names("attribution", "content", "url")

  /** A subcategory's tweets grouped by author, read under `names`; `None`
      when iterating them or reading one raises. */
  function Grouped(tweets: Json, names: Names): Option<seq<Group>>
  {
    match Elements(tweets)
    case None => None
    case Some(xs) => GroupAll(xs, names)
  }

  /** The category key and its subcategories, when the summary has a
      non-empty key equal to `category` up to case whose value is a dict;
      the first such key is the one used. */
  function CategoryData(category: string, summary: seq<(string, Json)>): (r: Option<(string, seq<(string, Json)>)>)
    ensures r.Some? ==> r.value.0 != "" && Lower(r.value.0) == Lower(category)
                        && Get(summary, r.value.0) == Some(JObj(r.value.1))
    ensures (forall i :: 0 <= i < |summary| ==> Lower(summary[i].0) != Lower(category)) ==> r.None?
  {
    match FirstKey(Keys(summary), Lower, Lower(category))
    case None => None
    case Some(i) =>
      var key := summary[i].0;
      assert HasKey(summary, key);
      var data := Get(summary, key).value;
      if key == "" || !data.JObj? then None else Some((key, data.entries))
  }

  /** The summary `process_news_summary` formats: the input file, valid,
      with exactly one category; `None` when a check fails. */
  function Loaded(dir: seq<(string, Content)>, date: string): (r: Option<seq<(string, Json)>>)
    ensures r.Some? ==> |r.value| == 1 && r.value[0].0 == CATEGORY && r.value[0].1.JObj?
  {
    match InputFile(dir, CATEGORY, date)
    case None => None
    case Some(name) =>
      var file := Get(dir, name);
      if !ValidSummary(file) then None
      else
        var data := file.value.json.entries;
        if |data| != 1 then None
        else
          assert data[0] == (CATEGORY, Get(data, CATEGORY).value);
          Some(data)
  }

  /** A single-category summary always formats to a non-empty text. */
  lemma LoadedFormats(data: seq<(string, Json)>)
    requires |data| == 1 && data[0].0 == CATEGORY && data[0].1.JObj?
    ensures CategoryData(CATEGORY, data) == Some((CATEGORY, data[0].1.entries))
  {
    assert Keys(data) == [CATEGORY];
    assert FirstKey(Keys(data), Lower, Lower(CATEGORY)) == Some(0);
    assert Get(data, CATEGORY) == Some(data[0].1);
  }

  // ---------------------------------------------------------------
  // Joined lines
  // ---------------------------------------------------------------

  /** A join of lines starts with the first line. */
  lemma JoinStartsWith(xs: seq<string>, sep: string)
    requires xs != [] && |sep| > 0
    ensures |Join(xs, sep)| >= |xs[0]| && Join(xs, sep)[..|xs[0]|] == xs[0]
    ensures |xs| > 1 ==> |Join(xs, sep)| > 0
  {
    if |xs| > 1 {
      assert Join(xs, sep) == xs[0] + (sep + Join(xs[1..], sep));
    }
  }

  lemma StartsWithTrans(s: string, t: string, p: string)
    requires StartsWith(s, t) && StartsWith(t, p)
    ensures StartsWith(s, p)
  {
    assert s[..|p|] == t[..|t|][..|p|];
  }

  /** Every part of a join occurs in it. */
  lemma {:induction false} JoinContains(xs: seq<string>, sep: string, k: nat)
    requires k < |xs|
    ensures Contains(Join(xs, sep), xs[k])
    decreases k
  {
    if |xs| == 1 {
      assert OccursAt(Join(xs, sep), xs[k], 0);
    } else if k == 0 {
      assert Join(xs, sep) == xs[0] + (sep + Join(xs[1..], sep));
      assert OccursAt(Join(xs, sep), xs[0], 0);
    } else {
      JoinContains(xs[1..], sep, k - 1);
      var rest := Join(xs[1..], sep);
      var i: nat :| i <= |rest| && OccursAt(rest, xs[k], i);
      var pre := xs[0] + sep;
      assert Join(xs, sep) == pre + rest;
      assert (pre + rest)[|pre| + i..|pre| + i + |xs[k]|] == rest[i..i + |xs[k]|];
      assert OccursAt(Join(xs, sep), xs[k], |pre| + i);
    }
  }

  /** Containment is transitive. */
  lemma ContainsTrans(s: string, t: string, u: string)
    requires Contains(s, t) && Contains(t, u)
    ensures Contains(s, u)
  {
    var i: nat :| i <= |s| && OccursAt(s, t, i);
    var j: nat :| j <= |t| && OccursAt(t, u, j);
    forall k | 0 <= k < |u| ensures s[i + j..i + j + |u|][k] == u[k] {
      assert u[k] == t[j..j + |u|][k] == t[j + k];
      assert t[j + k] == s[i..i + |t|][j + k] == s[i + j + k];
    }
    assert s[i + j..i + j + |u|] == u;
    assert OccursAt(s, u, i + j);
  }

  /** What the loop has written stays at the front. */
  lemma {:induction false} FormatFromExtends(lines: seq<string>, out: seq<string>, fmt: string -> string)
    ensures |FormatFrom(lines, out, fmt)| >= |out| && FormatFrom(lines, out, fmt)[..|out|] == out
    decreases |lines|
  {
    if lines != [] {
      var line := Strip(lines[0]);
      if line == [] {
        FormatFromExtends(lines[1..], out, fmt);
      } else {
        var out' := out + Sep(out, line) + [fmt(line)];
        FormatFromExtends(lines[1..], out', fmt);
        assert out'[..|out|] == out;
      }
    }
  }

  /** Every non-blank line is written, formatted. */
  lemma {:induction false} FormatFromEmits(lines: seq<string>, out: seq<string>, fmt: string -> string, i: nat)
    requires i < |lines| && Strip(lines[i]) != []
    ensures fmt(Strip(lines[i])) in FormatFrom(lines, out, fmt)
    decreases i
  {
    var line := Strip(lines[0]);
    if i == 0 {
      var out' := out + Sep(out, line) + [fmt(line)];
      FormatFromExtends(lines[1..], out', fmt);
      assert out'[|out'| - 1] == fmt(line);
      assert FormatFrom(lines, out, fmt)[..|out'|][|out'| - 1] == fmt(line);
    } else if line == [] {
      FormatFromEmits(lines[1..], out, fmt, i - 1);
    } else {
      FormatFromEmits(lines[1..], out + Sep(out, line) + [fmt(line)], fmt, i - 1);
    }
  }
}
