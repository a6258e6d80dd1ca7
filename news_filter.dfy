// news_filter.py: the root copy of the news filter. Each content-filtered
// column file is sent to the model in one request, which must come back
// with the column's category sorted into subcategories of complete tweets;
// only an answer that passes every check is saved, as the category's
// summary file. `process_all` goes through the column files one at a time,
// pausing five seconds between them, whatever happens to each.

module NewsFilter {
  import opened Common
  import opened Oracle
  import opened Breaker
  import opened NewsCommon

  const OUTPUT_DIR := "data/filtered/news_filtered"
  const PAUSE: nat := 5

  /** The fields every categorised tweet must carry. */
  const COLUMN_FIELDS: seq<string> := ["author", "text", "url"]

  /** `{category.lower()}_summary.json` in the output directory. */
  function SummaryFile(category: string): (p: string)
    ensures StartsWith(p, OUTPUT_DIR + "/") && EndsWith(p, "_summary.json")
  {
    var p := OUTPUT_DIR + "/" + Lower(category) + "_summary.json";
    assert p[..|OUTPUT_DIR + "/"|] == OUTPUT_DIR + "/";
    assert p[|p| - |"_summary.json"|..] == "_summary.json";
    p
  }

  /** Categories that differ only in letter case share one summary file. */
  lemma SummaryFileIgnoresCase()
    ensures SummaryFile("SUI") == SummaryFile("sui")
  {
    assert Lower("SUI") == "sui";
  }

  // ---------------------------------------------------------------
  // process_column
  // ---------------------------------------------------------------

  /** `category = list(data.keys())[0]` and `data[category]['tweets']`;
      `None` when the file is missing or corrupt, or a read raises (not a
      dict, no keys, a category value that is not a dict with `tweets`). */
  function ColumnInput(c: Option<Content>): (r: Option<(string, Json)>)
    ensures r.Some? ==> c.Some? && c.value.Parsed? && c.value.json.JObj? && c.value.json.entries != []
                        && r.value.0 == c.value.json.entries[0].0
  {
    if c.None? || c.value.Corrupt? || !c.value.json.JObj? || c.value.json.entries == [] then None
    else
      var category := c.value.json.entries[0].0;
      var v := c.value.json.entries[0].1;
      if !v.JObj? then None
      else
        match Get(v.entries, "tweets")
        case None => None
        case Some(tweets) => Some((category, tweets))
  }

  /** Every answer check of `process_column`: a dict holding the category,
      whose value is a non-empty dict of lists of tweets carrying author,
      text and url. `len` is also taken of the original tweets, which must
      therefore have a length. */
  predicate Accepted(result: Json, category: string, original: Json)
  {
    && result.JObj?
    && Get(result.entries, category).Some?
    && Get(result.entries, category).value.JObj?
    && Get(result.entries, category).value.entries != []
    && PyLen(original).Some?
    && ListsOfTweets(Get(result.entries, category).value.entries, COLUMN_FIELDS)
  }

  /** How one column ends: its result, the store and the request side. */
  datatype Run = Run(ok: bool, files: map<string, Content>, session: Session)

  /** `process_column`: the one request is made only for a column with
      tweets that have a length (the log line before the request takes
      `len` of them); an accepted answer is saved whole under the category's
      summary file. */
  function ProcessColumnSpec(files: map<string, Content>, w: Session, path: string,
                             answers: seq<Attempt>, now: int): (r: Run)
    requires WellFormed(w.breaker)
    ensures WellFormed(r.session.breaker)
    ensures r.session.made <= w.made + 1
  {
    match ColumnInput(FileAt(files, path))
    case None => Run(false, files, w)
    case Some((category, tweets)) =>
      if !Truthy(tweets) || PyLen(tweets).None? then Run(false, files, w)
      else
        var (reply, w1) := Ask(w, answers, now);
        var d := Decoded(reply);
        if d.Some? && Accepted(d.value, category, tweets)
        then Run(true, files[SummaryFile(category) := Parsed(d.value)], w1)
        else Run(false, files, w1)
  }

  /** A column succeeds exactly when its file names a category with tweets
      and the answer to its request passes every check; then the answer is
      saved under that category's summary file and nothing else changes. A
      failed column changes no file, and a column without tweets, or whose
      tweets have no length, makes no request. */
  lemma ProcessColumnOutcome(files: map<string, Content>, w: Session, path: string,
                             answers: seq<Attempt>, now: int)
    requires WellFormed(w.breaker)
    ensures var r := ProcessColumnSpec(files, w, path, answers, now);
      var input := ColumnInput(FileAt(files, path));
      && (r.ok <==> input.Some? && Truthy(input.value.1)
                    && Decoded(Ask(w, answers, now).0).Some?
                    && Accepted(Decoded(Ask(w, answers, now).0).value, input.value.0, input.value.1))
      && (r.ok ==> r.files == files[SummaryFile(input.value.0) := Parsed(Decoded(Ask(w, answers, now).0).value)])
      && (!r.ok ==> r.files == files)
      && ((input.None? || !Truthy(input.value.1) || PyLen(input.value.1).None?) ==> r.session == w)
      && (input.Some? && Truthy(input.value.1) && PyLen(input.value.1).Some? ==> r.session == Ask(w, answers, now).1)
  {
  }

  /** The category is the first key of the column file, even when the
      category dict lists others after it. */
  lemma CategoryIsFirstKey(category: string, other: string, tweets: Json, rest: Json)
    requires tweets.JList? && |tweets.items| > 0
    ensures var data := JObj([(category, JObj([("tweets", tweets)])), (other, rest)]);
      ColumnInput(Some(Parsed(data))) == Some((category, tweets))
  {
    var inner := [("tweets", tweets)];
    assert Get(inner, "tweets") == Some(tweets);
  }

  /** An answer whose subcategory list is empty, or whose tweets lack a
      field, is rejected: nothing is written. */
  lemma RejectsEmptyOrIncomplete(category: string, original: Json, t: Json)
    requires HasFields(COLUMN_FIELDS, t) != Some(true)
    ensures !Accepted(JObj([(category, JObj([]))]), category, original)
    ensures !Accepted(JObj([(category, JObj([("News", JList([t]))]))]), category, original)
  {
    var subs := JObj([("News", JList([t]))]);
    assert Get([(category, subs)], category) == Some(subs);
    assert [t][0] == t;
    assert !TweetsComplete([t], COLUMN_FIELDS);
    assert subs.entries[0].1.items == [t];
    assert !ListsOfTweets(subs.entries, COLUMN_FIELDS);
  }

  // ---------------------------------------------------------------
  // process_all
  // ---------------------------------------------------------------

  /** The columns so far: their results, the store and the request side. */
  datatype Batch = Batch(results: seq<bool>, files: map<string, Content>, session: Session)

  /** `process_all` over the column files in the order `glob` lists them:
      every column is processed against what the earlier ones left. */
  function ProcessColumns(files: map<string, Content>, w: Session, columns: seq<string>,
                          answers: seq<Attempt>, now: int): (b: Batch)
    requires WellFormed(w.breaker)
    ensures WellFormed(b.session.breaker)
    ensures |b.results| == |columns|
  {
    if columns == [] then Batch([], files, w)
    else
      var b := ProcessColumns(files, w, columns[..|columns| - 1], answers, now);
      var c := ProcessColumnSpec(b.files, b.session, columns[|columns| - 1], answers, now);
      Batch(b.results + [c.ok], c.files, c.session)
  }

  /** Every column is processed, failed or not: a failure neither stops the
      loop nor writes a file, so a run in which every column fails leaves
      the store as it was; at most one request is made per column. */
  lemma {:induction false} ProcessColumnsContinue(files: map<string, Content>, w: Session, columns: seq<string>,
                                                  answers: seq<Attempt>, now: int)
    requires WellFormed(w.breaker)
    ensures var b := ProcessColumns(files, w, columns, answers, now);
      && b.session.made <= w.made + |columns|
      && ((forall i :: 0 <= i < |b.results| ==> !b.results[i]) ==> b.files == files)
  {
    if columns != [] {
      var p := columns[..|columns| - 1];
      var b := ProcessColumns(files, w, p, answers, now);
      ProcessColumnsContinue(files, w, p, answers, now);
      ProcessColumnOutcome(b.files, b.session, columns[|columns| - 1], answers, now);
      var r := ProcessColumns(files, w, columns, answers, now);
      assert r.results == b.results + [r.results[|columns| - 1]];
      if forall i :: 0 <= i < |r.results| ==> !r.results[i] {
        assert forall i :: 0 <= i < |b.results| ==> b.results[i] == r.results[i];
      }
    }
  }

  /** The pauses of `process_all`: five seconds after every column that is
      not the last one listed. */
  function Pauses(columns: seq<string>, last: string): (ps: seq<nat>)
    ensures |ps| <= |columns|
    ensures forall i :: 0 <= i < |ps| ==> ps[i] == PAUSE
  {
    if columns == [] then []
    else Pauses(columns[..|columns| - 1], last) + (if columns[|columns| - 1] != last then [PAUSE] else [])
  }

  /** With distinct column files (as `glob` lists them) there is one pause
      between each two columns and none after the last. */
  lemma {:induction false} PausesBetweenColumns(columns: seq<string>)
    requires columns != []
    requires forall i, j :: 0 <= i < j < |columns| ==> columns[i] != columns[j]
    ensures |Pauses(columns, columns[|columns| - 1])| == |columns| - 1
  {
    PausesBefore(columns, |columns| - 1, columns[|columns| - 1]);
    assert columns[..|columns| - 1] + [columns[|columns| - 1]] == columns;
  }

  lemma {:induction false} PausesBefore(columns: seq<string>, n: nat, last: string)
    requires n <= |columns|
    requires forall i :: 0 <= i < n ==> columns[i] != last
    ensures |Pauses(columns[..n], last)| == n
  {
    if n > 0 {
      assert columns[..n][..n - 1] == columns[..n - 1];
      PausesBefore(columns, n - 1, last);
    }
  }

  // ---------------------------------------------------------------
  // The filter object
  // ---------------------------------------------------------------

  /** The stage object: the JSON store it reads and writes, and its breaker. */
  class NewsFilter {
    var files: map<string, Content>
    const breaker: CircuitBreaker

    ghost predicate Valid()
      reads this, breaker
    {
      breaker.Valid()
    }

    constructor (files: map<string, Content>)
      ensures Valid() && this.files == files && breaker.State() == Closed
    {
      this.files := files;
      breaker := new CircuitBreaker();
    }

    /** The answer checks, the subcategory loop among them. */
    method CheckAnswer(result: Json, category: string, original: Json) returns (ok: bool)
      ensures ok == Accepted(result, category, original)
    {
      if !result.JObj? {
        return false;
      }
      var subs := Get(result.entries, category);
      if subs.None? || !subs.value.JObj? || subs.value.entries == [] {
        return false;
      }
      if PyLen(original).None? {
        return false;
      }
      ok := CheckSubcategories(subs.value.entries, COLUMN_FIELDS);
    }

    /** `process_column`: request number `made` of the run is this column's. */
    method ProcessColumn(path: string, answers: seq<Attempt>, made: nat, now: int) returns (ok: bool, made': nat)
      requires Valid()
      modifies this, breaker
      ensures Valid()
      ensures Run(ok, files, Session(breaker.State(), made'))
           == ProcessColumnSpec(old(files), Session(old(breaker.State()), made), path, answers, now)
    {
      made' := made;
      var input := ColumnInput(FileAt(files, path));
      if input.None? {
        return false, made';
      }
      var (category, tweets) := input.value;
      if !Truthy(tweets) || PyLen(tweets).None? {
        return false, made';
      }
      var reply := GuardedRequest(breaker, AttemptAt(answers, made), now);
      made' := made + 1;
      var d := Decoded(reply);
      if d.None? {
        return false, made';
      }
      ok := CheckAnswer(d.value, category, tweets);
      if ok {
        files := files[SummaryFile(category) := Parsed(d.value)];
      }
    }

    /** `process_all`: every column file in turn, with the pauses between
        them. */
    method ProcessAll(columns: seq<string>, answers: seq<Attempt>, now: int)
      returns (results: seq<bool>, pauses: seq<nat>)
      requires Valid()
      modifies this, breaker
      ensures Valid()
      ensures var b := ProcessColumns(old(files), Session(old(breaker.State()), 0), columns, answers, now);
        results == b.results && files == b.files && breaker.State() == b.session.breaker
      ensures columns != [] ==> pauses == Pauses(columns, columns[|columns| - 1])
    {
      results := [];
      pauses := [];
      if columns == [] {
        return;
      }
      var made := 0;
      ghost var files0 := files;
      ghost var w0 := Session(breaker.State(), 0);
      var i := 0;
      while i < |columns|
        invariant 0 <= i <= |columns| && Valid()
        invariant Batch(results, files, Session(breaker.State(), made)) == ProcessColumns(files0, w0, columns[..i], answers, now)
        invariant pauses == Pauses(columns[..i], columns[|columns| - 1])
      {
        assert columns[..i + 1][..i] == columns[..i];
        var ok;
        ok, made := ProcessColumn(columns[i], answers, made, now);
        results := results + [ok];
        if columns[i] != columns[|columns| - 1] {
          pauses := pauses + [PAUSE];
        }
        i := i + 1;
      }
      assert columns[..i] == columns;
    }
  }
}
