// What the two news filters (news_filter.py and
// src/processors/news_filter.py) share: `_api_request`, the breaker-guarded
// call to the primary model with the fallback model behind it; reading a
// model answer; iterating a JSON value as Python's `for` does; the
// required-field test on a tweet; and the nested loop that checks that every
// subcategory of a categorised answer is a list of complete tweets.

module NewsCommon {
  import opened Common
  import opened Oracle
  import opened Breaker

  // ---------------------------------------------------------------
  // _api_request
  // ---------------------------------------------------------------

  /** `_api_request`: the breaker check, then the primary model, then the
      fallback when the primary gave nothing. A refused check and a request
      that both models failed both raise inside the `try`, so each records a
      breaker failure and yields `None`. */
  function ApiRequest(s: BreakerState, a: Attempt, now: int): (r: (Option<Reply>, BreakerState))
    requires WellFormed(s)
    ensures r.0.None? <==> Refuses(s, now) || (a.primary.None? && a.fallback.None?)
    ensures r.0.Some? ==> r.0 == (if a.primary.Some? then a.primary else a.fallback)
    ensures r.0.None? ==> r.1.failureCount >= 1 && r.1.lastFailureTime == Some(now)
    ensures r.0.Some? ==> r.1.failureCount <= s.failureCount
    ensures WellFormed(r.1)
  {
    if Refuses(s, now) then (None, AfterFailure(s, now))
    else
      var checked := AfterCheck(s, now);
      match Response(a)
      case None => (None, AfterFailure(checked, now))
      case Some(reply) => (Some(reply), checked)
  }

  /** A refused request records a failure too, so every request that arrives
      while the breaker is open keeps it open for another `RESET_TIMEOUT`
      seconds from that request on. */
  lemma RefusalRenewsWindow(s: BreakerState, a: Attempt, now: int, later: int)
    requires WellFormed(s) && Refuses(s, now)
    requires now <= later < now + RESET_TIMEOUT
    ensures ApiRequest(s, a, now).0.None?
    ensures Refuses(ApiRequest(s, a, now).1, later)
  {
  }

  /** Five requests in a row that neither model answers, starting from a
      closed breaker, make the breaker refuse every request of the next
      `RESET_TIMEOUT` seconds, whatever the models would answer. */
  lemma FiveFailedRequestsTrip(now: int, later: int, a: Attempt)
    requires now <= later < now + RESET_TIMEOUT
    ensures var none := Attempt(None, None);
      var s1 := ApiRequest(Closed, none, now).1;
      var s2 := ApiRequest(s1, none, now).1;
      var s3 := ApiRequest(s2, none, now).1;
      var s4 := ApiRequest(s3, none, now).1;
      var s5 := ApiRequest(s4, none, now).1;
      Refuses(s5, later) && ApiRequest(s5, a, later).0.None?
  {
    var none := Attempt(None, None);
    var s1 := ApiRequest(Closed, none, now).1;
    assert s1 == BreakerState(1, Some(now));
    var s2 := ApiRequest(s1, none, now).1;
    assert s2 == BreakerState(2, Some(now));
    var s3 := ApiRequest(s2, none, now).1;
    assert s3 == BreakerState(3, Some(now));
    var s4 := ApiRequest(s3, none, now).1;
    assert s4 == BreakerState(4, Some(now));
    var s5 := ApiRequest(s4, none, now).1;
    assert s5 == BreakerState(5, Some(now));
  }

  /** `_api_request` on the breaker object. */
  method GuardedRequest(b: CircuitBreaker, a: Attempt, now: int) returns (reply: Option<Reply>)
    requires b.Valid()
    modifies b
    ensures b.Valid()
    ensures (reply, b.State()) == ApiRequest(old(b.State()), a, now)
  {
    var refused := b.Check(now);
    if refused {
      b.RecordFailure(now);
      return None;
    }
    reply := Response(a);
    if reply.None? {
      b.RecordFailure(now);
    }
  }

  /** The request side of a run: the breaker's state and how many requests
      have been made. The `k`-th request is answered by the `k`-th attempt of
      the run's answer trace. */
  datatype Session = Session(breaker: BreakerState, made: nat)

  /** One more request of the run. */
  function Ask(w: Session, answers: seq<Attempt>, now: int): (r: (Option<Reply>, Session))
    requires WellFormed(w.breaker)
    ensures r.1.made == w.made + 1 && WellFormed(r.1.breaker)
    ensures (r.0, r.1.breaker) == ApiRequest(w.breaker, AttemptAt(answers, w.made), now)
  {
    var (reply, s) := ApiRequest(w.breaker, AttemptAt(answers, w.made), now);
    (reply, Session(s, w.made + 1))
  }

  // ---------------------------------------------------------------
  // Reading an answer
  // ---------------------------------------------------------------

  /** What a caller parses: the answer when it is truthy and `json.loads`
      accepts it. A missing or empty answer and a `JSONDecodeError` take
      every caller to the same branch, so both are `None`. */
  function Decoded(r: Option<Reply>): (d: Option<Json>)
    ensures d.Some? ==> r.Some? && r.value.text != "" && r.value.json == d
    ensures r.None? ==> d.None?
  {
    if r.Some? && r.value.text != "" then r.value.json else None
  }

  /** `result['tweets']`, when `result` is a dict holding that key. */
  function TweetsField(d: Option<Json>): (t: Option<Json>)
    ensures t.Some? <==> d.Some? && d.value.JObj? && HasKey(d.value.entries, "tweets")
    ensures t.Some? ==> Get(d.value.entries, "tweets") == t
  {
    if d.Some? && d.value.JObj? then Get(d.value.entries, "tweets") else None
  }

  // ---------------------------------------------------------------
  // Required fields
  // ---------------------------------------------------------------

  /** The fields `_validate_tweet_fields` of src/processors/news_filter.py
      requires. */
  const TWEET_FIELDS: seq<string> := ["attribution", "content", "url"]

  /** Whether no field of `fields` is missing from `t`, as `f not in t`
      tests it; `None` when `t` is not a container and `in` raises. */
  function HasFields(fields: seq<string>, t: Json): (r: Option<bool>)
    ensures r.Some? <==> (t.JObj? || t.JList? || t.JStr?)
    ensures r.Some? ==> (r.value <==> AllIn(fields, t))
    ensures t.JObj? ==> r == Some(forall i :: 0 <= i < |fields| ==> HasKey(t.entries, fields[i]))
  {
    if t.JObj? || t.JList? || t.JStr? then Some(AllIn(fields, t)) else None
  }

  /** `_validate_tweet_fields` holds of a dict exactly when it has all three
      keys, and of nothing that is not a container. */
  lemma TweetFieldsOfDict(entries: Record)
    ensures HasFields(TWEET_FIELDS, JObj(entries)) == Some(true)
        <==> HasKey(entries, "attribution") && HasKey(entries, "content") && HasKey(entries, "url")
  {
    var f := TWEET_FIELDS;
    assert f[0] == "attribution" && f[1] == "content" && f[2] == "url";
  }

  /** The loop `for t in xs: if validate(t): out.append(t)`; `None` when it
      raises: `validate` on a value that is not a container, or, with
      `readRejects`, the `t.get(...)` of the warning on a rejected value that
      is not a dict. */
  function KeepValid(xs: seq<Json>, fields: seq<string>, readRejects: bool): (r: Option<seq<Json>>)
    ensures r.Some? ==> |r.value| <= |xs|
  {
    if xs == [] then Some([])
    else
      var p := KeepValid(xs[..|xs| - 1], fields, readRejects);
      var t := xs[|xs| - 1];
      var v := HasFields(fields, t);
      if p.None? || v.None? || (v == Some(false) && readRejects && !t.JObj?) then None
      else if v.value then Some(p.value + [t])
      else p
  }

  /** The value at position `i` decides whether the loop raises there. */
  predicate RaisesAt(xs: seq<Json>, fields: seq<string>, readRejects: bool, i: nat)
    requires i < |xs|
  {
    HasFields(fields, xs[i]).None? || (HasFields(fields, xs[i]) == Some(false) && readRejects && !xs[i].JObj?)
  }

  /** The loop raises exactly when one of the values raises. */
  lemma {:induction false} KeepValidRaises(xs: seq<Json>, fields: seq<string>, readRejects: bool)
    ensures KeepValid(xs, fields, readRejects).None?
        <==> exists i :: 0 <= i < |xs| && RaisesAt(xs, fields, readRejects, i)
  {
    if xs != [] {
      var p := xs[..|xs| - 1];
      var n := |xs| - 1;
      KeepValidRaises(p, fields, readRejects);
      if exists i :: 0 <= i < |xs| && RaisesAt(xs, fields, readRejects, i) {
        var i :| 0 <= i < |xs| && RaisesAt(xs, fields, readRejects, i);
        if i < n {
          assert p[i] == xs[i];
          assert RaisesAt(p, fields, readRejects, i);
        }
      }
      if exists i :: 0 <= i < |p| && RaisesAt(p, fields, readRejects, i) {
        var i :| 0 <= i < |p| && RaisesAt(p, fields, readRejects, i);
        assert p[i] == xs[i];
        assert RaisesAt(xs, fields, readRejects, i);
      }
      if KeepValid(p, fields, readRejects).Some? && KeepValid(xs, fields, readRejects).None? {
        assert RaisesAt(xs, fields, readRejects, n);
      }
    }
  }

  /** When the loop does not raise it keeps exactly the values that carry
      every field, and nothing else. */
  lemma {:induction false} KeepValidMembers(xs: seq<Json>, fields: seq<string>, readRejects: bool)
    requires KeepValid(xs, fields, readRejects).Some?
    ensures forall t :: t in KeepValid(xs, fields, readRejects).value
                    <==> t in xs && HasFields(fields, t) == Some(true)
  {
    if xs != [] {
      var p := xs[..|xs| - 1];
      KeepValidMembers(p, fields, readRejects);
      assert xs == p + [xs[|xs| - 1]];
    }
  }

  /** The validation loop. */
  method KeepValidLoop(xs: seq<Json>, fields: seq<string>, readRejects: bool) returns (r: Option<seq<Json>>)
    ensures r == KeepValid(xs, fields, readRejects)
  {
    var out: seq<Json> := [];
    var i := 0;
    while i < |xs|
      invariant 0 <= i <= |xs|
      invariant KeepValid(xs[..i], fields, readRejects) == Some(out)
    {
      var t := xs[i];
      assert xs[..i + 1][..i] == xs[..i];
      var v := HasFields(fields, t);
      if v.None? || (v == Some(false) && readRejects && !t.JObj?) {
        KeepValidStaysRaised(xs, fields, readRejects, i + 1);
        return None;
      }
      if v.value {
        out := out + [t];
      }
      i := i + 1;
    }
    assert xs[..|xs|] == xs;
    return Some(out);
  }

  /** Once a prefix raises, the whole loop raises. */
  lemma {:induction false} KeepValidStaysRaised(xs: seq<Json>, fields: seq<string>, readRejects: bool, n: nat)
    requires n <= |xs| && KeepValid(xs[..n], fields, readRejects).None?
    ensures KeepValid(xs, fields, readRejects).None?
    decreases |xs| - n
  {
    if n < |xs| {
      assert xs[..n + 1][..n] == xs[..n];
      KeepValidStaysRaised(xs, fields, readRejects, n + 1);
    } else {
      assert xs[..n] == xs;
    }
  }

  /** The validation step every model-answer stage ends with: iterate the
      answer's tweet list and keep the complete tweets; a missing list, a
      value that cannot be iterated or a tweet that cannot be tested raises,
      and the stage falls back to its input. */
  function Screened(listed: Option<Json>, fallback: seq<Json>): (r: seq<Json>)
    ensures r == fallback || forall t :: t in r ==> HasFields(TWEET_FIELDS, t) == Some(true)
  {
    if listed.None? then fallback
    else
      var es := Elements(listed.value);
      if es.None? then fallback
      else
        var kept := KeepValid(es.value, TWEET_FIELDS, false);
        if kept.None? then fallback
        else
          KeepValidMembers(es.value, TWEET_FIELDS, false);
          kept.value
  }

  /** A list of complete tweets passes the validation step unchanged. */
  lemma {:induction false} ScreenedCompleteList(xs: seq<Json>, fallback: seq<Json>)
    requires forall i :: 0 <= i < |xs| ==> HasFields(TWEET_FIELDS, xs[i]) == Some(true)
    ensures Screened(Some(JList(xs)), fallback) == xs
  {
    KeepValidAll(xs);
  }

  lemma {:induction false} KeepValidAll(xs: seq<Json>)
    requires forall i :: 0 <= i < |xs| ==> HasFields(TWEET_FIELDS, xs[i]) == Some(true)
    ensures KeepValid(xs, TWEET_FIELDS, false) == Some(xs)
  {
    if xs != [] {
      var p := xs[..|xs| - 1];
      assert forall i :: 0 <= i < |p| ==> p[i] == xs[i];
      KeepValidAll(p);
      assert p + [xs[|xs| - 1]] == xs;
    }
  }

  // ---------------------------------------------------------------
  // A categorised answer
  // ---------------------------------------------------------------

  /** Every value of the subcategory dict is a list, and every tweet in it
      carries `fields`. */
  predicate ListsOfTweets(entries: seq<(string, Json)>, fields: seq<string>)
  {
    forall i :: 0 <= i < |entries| ==>
      entries[i].1.JList? && TweetsComplete(entries[i].1.items, fields)
  }

  predicate TweetsComplete(items: seq<Json>, fields: seq<string>)
  {
    forall j :: 0 <= j < |items| ==> HasFields(fields, items[j]) == Some(true)
  }

  /** The inner loop: `for tweet in tweets: if a field is missing: return
      False` (a tweet that cannot be tested raises, which is `False` too). */
  method CheckTweets(items: seq<Json>, fields: seq<string>) returns (ok: bool)
    ensures ok == TweetsComplete(items, fields)
  {
    var j := 0;
    while j < |items|
      invariant 0 <= j <= |items|
      invariant TweetsComplete(items[..j], fields)
    {
      if HasFields(fields, items[j]) != Some(true) {
        return false;
      }
      assert items[..j + 1] == items[..j] + [items[j]];
      j := j + 1;
    }
    assert items[..j] == items;
    return true;
  }

  /** The outer loop over `subcategories.items()`: a value that is not a
      list, or an incomplete tweet, returns `False`. */
  method CheckSubcategories(entries: seq<(string, Json)>, fields: seq<string>) returns (ok: bool)
    ensures ok == ListsOfTweets(entries, fields)
  {
    var i := 0;
    while i < |entries|
      invariant 0 <= i <= |entries|
      invariant ListsOfTweets(entries[..i], fields)
    {
      var v := entries[i].1;
      if !v.JList? {
        return false;
      }
      var complete := CheckTweets(v.items, fields);
      if !complete {
        return false;
      }
      assert entries[..i + 1] == entries[..i] + [entries[i]];
      i := i + 1;
    }
    assert entries[..i] == entries;
    return true;
  }
}
