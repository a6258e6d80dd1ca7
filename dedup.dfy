// First-occurrence-wins deduplication of records on one field, the loop that
// `_remove_duplicates`, `deduplicate`, `_process_raw_tweets` (both data
// processors) and the news filter's URL pass all write out with a `seen` set.

module Dedup {
  import opened Common

  /** The value a record is deduplicated on: `record.get(field)`. */
  function KeyOf(t: Record, field: string): Json
  {
    Field(t, field)
  }

  /** Whether a key takes part at all. Most loops skip falsy keys
      (`if not tweet_id: continue`); the root `_process_raw_tweets` does not. */
  predicate Admissible(k: Json, dropFalsy: bool)
  {
    !dropFalsy || Truthy(k)
  }

  /** The `seen` set after the loop has visited `ts`. */
  function SeenAfter(ts: seq<Record>, field: string, dropFalsy: bool, seen0: set<Json>): set<Json>
  {
    if ts == [] then seen0
    else
      var k := KeyOf(ts[|ts| - 1], field);
      var s := SeenAfter(ts[..|ts| - 1], field, dropFalsy, seen0);
      if Admissible(k, dropFalsy) then s + {k} else s
  }

  /** Position `i` holds the first occurrence of an admissible key that was
      not already seen before the loop started. */
  predicate FirstOccurrence(ts: seq<Record>, field: string, dropFalsy: bool, seen0: set<Json>, i: nat)
    requires i < |ts|
  {
    && Admissible(KeyOf(ts[i], field), dropFalsy)
    && KeyOf(ts[i], field) !in seen0
    && forall j :: 0 <= j < i ==> KeyOf(ts[j], field) != KeyOf(ts[i], field)
  }

  /** Reference definition: exactly the first occurrences, in input order. */
  function KeepFirst(ts: seq<Record>, field: string, dropFalsy: bool, seen0: set<Json>): seq<Record>
  {
    if ts == [] then []
    else
      KeepFirst(ts[..|ts| - 1], field, dropFalsy, seen0)
      + (if FirstOccurrence(ts, field, dropFalsy, seen0, |ts| - 1) then [ts[|ts| - 1]] else [])
  }

  /** Of two records sharing one truthy key, only the first is kept. */
  lemma SameKeyPairKeepsFirst(a: Record, b: Record, field: string)
    requires Truthy(KeyOf(a, field)) && KeyOf(a, field) == KeyOf(b, field)
    ensures KeepFirst([a, b], field, true, {}) == [a]
  {
    var ab := [a, b];
    assert ab[..1] == [a] && [a][..0] == [];
    assert FirstOccurrence([a], field, true, {}, 0);
    assert KeepFirst([a], field, true, {}) == [a];
    assert !FirstOccurrence(ab, field, true, {}, 1) by {
      assert KeyOf(ab[0], field) == KeyOf(ab[1], field);
    }
  }

  lemma {:induction false} SeenAfterMembers(ts: seq<Record>, field: string, dropFalsy: bool, seen0: set<Json>, k: Json)
    ensures k in SeenAfter(ts, field, dropFalsy, seen0) <==>
      (k in seen0 || exists j :: 0 <= j < |ts| && Admissible(KeyOf(ts[j], field), dropFalsy) && KeyOf(ts[j], field) == k)
  {
    if ts != [] {
      var p := ts[..|ts| - 1];
      SeenAfterMembers(p, field, dropFalsy, seen0, k);
      if exists j :: 0 <= j < |p| && Admissible(KeyOf(p[j], field), dropFalsy) && KeyOf(p[j], field) == k {
        var j :| 0 <= j < |p| && Admissible(KeyOf(p[j], field), dropFalsy) && KeyOf(p[j], field) == k;
        assert ts[j] == p[j];
      }
      if exists j :: 0 <= j < |ts| && Admissible(KeyOf(ts[j], field), dropFalsy) && KeyOf(ts[j], field) == k {
        var j :| 0 <= j < |ts| && Admissible(KeyOf(ts[j], field), dropFalsy) && KeyOf(ts[j], field) == k;
        if j < |p| {
          assert p[j] == ts[j];
        }
      }
    }
  }

  /** The loop's test `key not in seen` decides first occurrence. */
  lemma NotSeenIsFirst(ts: seq<Record>, field: string, dropFalsy: bool, seen0: set<Json>, i: nat)
    requires i < |ts|
    requires Admissible(KeyOf(ts[i], field), dropFalsy)
    ensures KeyOf(ts[i], field) !in SeenAfter(ts[..i], field, dropFalsy, seen0)
        <==> FirstOccurrence(ts, field, dropFalsy, seen0, i)
  {
    var k := KeyOf(ts[i], field);
    SeenAfterMembers(ts[..i], field, dropFalsy, seen0, k);
    if exists j :: 0 <= j < i && KeyOf(ts[j], field) == k {
      var j :| 0 <= j < i && KeyOf(ts[j], field) == k;
      assert ts[..i][j] == ts[j];
    }
    if exists j :: 0 <= j < |ts[..i]| && Admissible(KeyOf(ts[..i][j], field), dropFalsy) && KeyOf(ts[..i][j], field) == k {
      var j :| 0 <= j < |ts[..i]| && Admissible(KeyOf(ts[..i][j], field), dropFalsy) && KeyOf(ts[..i][j], field) == k;
      assert ts[j] == ts[..i][j];
    }
  }

  /** The loop `for t in ts: k = t.get(field); if admissible and k not in
      seen: seen.add(k); out.append(t)`, run with an initial `seen` set. */
  method KeepFirstLoop(ts: seq<Record>, field: string, dropFalsy: bool, seen0: set<Json>)
    returns (out: seq<Record>, seen: set<Json>)
    ensures out == KeepFirst(ts, field, dropFalsy, seen0)
    ensures seen == SeenAfter(ts, field, dropFalsy, seen0)
  {
    seen := seen0;
    out := [];
    var i := 0;
    while i < |ts|
      invariant 0 <= i <= |ts|
      invariant seen == SeenAfter(ts[..i], field, dropFalsy, seen0)
      invariant out == KeepFirst(ts[..i], field, dropFalsy, seen0)
    {
      var k := KeyOf(ts[i], field);
      assert ts[..i + 1][..i] == ts[..i];
      if Admissible(k, dropFalsy) {
        NotSeenIsFirst(ts, field, dropFalsy, seen0, i);
        FirstOccurrencePrefix(ts, field, dropFalsy, seen0, i, i + 1);
        if k !in seen {
          seen := seen + {k};
          out := out + [ts[i]];
        }
      }
      i := i + 1;
    }
    assert ts[..|ts|] == ts;
  }

  /** First occurrence only looks backwards, so it survives cutting the input. */
  lemma FirstOccurrencePrefix(ts: seq<Record>, field: string, dropFalsy: bool, seen0: set<Json>, i: nat, n: nat)
    requires i < n <= |ts|
    ensures FirstOccurrence(ts[..n], field, dropFalsy, seen0, i) <==> FirstOccurrence(ts, field, dropFalsy, seen0, i)
  {
    assert forall j :: 0 <= j <= i ==> ts[..n][j] == ts[j];
  }

  /** Deduplicating a concatenation is deduplicating the first part, then the
      second part against everything the first part saw. This is what makes a
      shared `seen` set across columns a dedup of all columns together. */
  lemma {:induction false} KeepFirstAppend(a: seq<Record>, b: seq<Record>, field: string, dropFalsy: bool, seen0: set<Json>)
    ensures KeepFirst(a + b, field, dropFalsy, seen0)
         == KeepFirst(a, field, dropFalsy, seen0) + KeepFirst(b, field, dropFalsy, SeenAfter(a, field, dropFalsy, seen0))
  {
    if b == [] {
      assert a + b == a;
    } else {
      var b' := b[..|b| - 1];
      var ab := a + b;
      var sa := SeenAfter(a, field, dropFalsy, seen0);
      assert ab[..|ab| - 1] == a + b';
      KeepFirstAppend(a, b', field, dropFalsy, seen0);
      LastFirstSame(a, b, field, dropFalsy, seen0);
      var last := if FirstOccurrence(b, field, dropFalsy, sa, |b| - 1) then [b[|b| - 1]] else [];
      assert KeepFirst(ab, field, dropFalsy, seen0) == KeepFirst(a + b', field, dropFalsy, seen0) + last;
      assert KeepFirst(b, field, dropFalsy, sa) == KeepFirst(b', field, dropFalsy, sa) + last;
    }
  }

  /** The last element of `a + b` is a first occurrence exactly when it is
      one of `b` run after `a`. */
  lemma LastFirstSame(a: seq<Record>, b: seq<Record>, field: string, dropFalsy: bool, seen0: set<Json>)
    requires b != []
    ensures FirstOccurrence(a + b, field, dropFalsy, seen0, |a + b| - 1)
        == FirstOccurrence(b, field, dropFalsy, SeenAfter(a, field, dropFalsy, seen0), |b| - 1)
  {
    var ab := a + b;
    var b' := b[..|b| - 1];
    var sa := SeenAfter(a, field, dropFalsy, seen0);
    assert ab[..|ab| - 1] == a + b';
    assert ab[|ab| - 1] == b[|b| - 1];
    SeenAfterAppend(a, b', field, dropFalsy, seen0);
    if Admissible(KeyOf(b[|b| - 1], field), dropFalsy) {
      NotSeenIsFirst(ab, field, dropFalsy, seen0, |ab| - 1);
      NotSeenIsFirst(b, field, dropFalsy, sa, |b| - 1);
    }
  }

  lemma {:induction false} SeenAfterAppend(a: seq<Record>, b: seq<Record>, field: string, dropFalsy: bool, seen0: set<Json>)
    ensures SeenAfter(a + b, field, dropFalsy, seen0)
         == SeenAfter(b, field, dropFalsy, SeenAfter(a, field, dropFalsy, seen0))
  {
    if b == [] {
      assert a + b == a;
    } else {
      var ab := a + b;
      assert ab[..|ab| - 1] == a + b[..|b| - 1];
      assert ab[|ab| - 1] == b[|b| - 1];
      SeenAfterAppend(a, b[..|b| - 1], field, dropFalsy, seen0);
    }
  }

  /** Everything kept is an input element with an admissible key that was
      not seen before the loop; nothing is invented. */
  lemma {:induction false} KeepFirstSound(ts: seq<Record>, field: string, dropFalsy: bool, seen0: set<Json>)
    ensures var r := KeepFirst(ts, field, dropFalsy, seen0);
      && |r| <= |ts|
      && (forall i :: 0 <= i < |r| ==> r[i] in ts)
      && (forall i :: 0 <= i < |r| ==> Admissible(KeyOf(r[i], field), dropFalsy) && KeyOf(r[i], field) !in seen0)
  {
    if ts != [] {
      var p := ts[..|ts| - 1];
      var rp := KeepFirst(p, field, dropFalsy, seen0);
      KeepFirstSound(p, field, dropFalsy, seen0);
      forall i | 0 <= i < |rp| ensures rp[i] in ts {
        var j :| 0 <= j < |p| && p[j] == rp[i];
        assert ts[j] == p[j];
      }
    }
  }

  /** No two records share a key. */
  predicate KeysDistinct(ts: seq<Record>, field: string)
  {
    forall i, j :: 0 <= i < j < |ts| ==> KeyOf(ts[i], field) != KeyOf(ts[j], field)
  }

  /** The kept records have pairwise distinct keys. */
  lemma {:induction false} KeepFirstDistinct(ts: seq<Record>, field: string, dropFalsy: bool, seen0: set<Json>)
    ensures KeysDistinct(KeepFirst(ts, field, dropFalsy, seen0), field)
  {
    if ts != [] {
      var p := ts[..|ts| - 1];
      var x := ts[|ts| - 1];
      var rp := KeepFirst(p, field, dropFalsy, seen0);
      var r := KeepFirst(ts, field, dropFalsy, seen0);
      KeepFirstDistinct(p, field, dropFalsy, seen0);
      KeepFirstSound(p, field, dropFalsy, seen0);
      if FirstOccurrence(ts, field, dropFalsy, seen0, |ts| - 1) {
        assert r == rp + [x];
        forall i | 0 <= i < |rp|
          ensures KeyOf(rp[i], field) != KeyOf(x, field)
        {
          var j :| 0 <= j < |p| && p[j] == rp[i];
          assert ts[j] == p[j];
        }
      }
    }
  }

  /** Every admissible key of the input that was not seen before the loop
      survives: some kept record carries it. */
  lemma {:induction false} KeepFirstComplete(ts: seq<Record>, field: string, dropFalsy: bool, seen0: set<Json>, j: nat)
    requires j < |ts|
    requires Admissible(KeyOf(ts[j], field), dropFalsy) && KeyOf(ts[j], field) !in seen0
    ensures exists i :: 0 <= i < |KeepFirst(ts, field, dropFalsy, seen0)|
                        && KeyOf(KeepFirst(ts, field, dropFalsy, seen0)[i], field) == KeyOf(ts[j], field)
  {
    var p := ts[..|ts| - 1];
    var x := ts[|ts| - 1];
    var rp := KeepFirst(p, field, dropFalsy, seen0);
    var r := KeepFirst(ts, field, dropFalsy, seen0);
    assert r[..|rp|] == rp;
    var i: nat;
    if j < |p| {
      assert p[j] == ts[j];
      KeepFirstComplete(p, field, dropFalsy, seen0, j);
      i :| i < |rp| && KeyOf(rp[i], field) == KeyOf(p[j], field);
      assert r[i] == rp[i];
    } else if FirstOccurrence(ts, field, dropFalsy, seen0, |ts| - 1) {
      i := |r| - 1;
      assert r[i] == x && ts[j] == x;
    } else {
      var j' :| 0 <= j' < |ts| - 1 && KeyOf(ts[j'], field) == KeyOf(x, field);
      assert p[j'] == ts[j'];
      KeepFirstComplete(p, field, dropFalsy, seen0, j');
      i :| i < |rp| && KeyOf(rp[i], field) == KeyOf(p[j'], field);
      assert r[i] == rp[i] && ts[j] == x;
    }
    assert i < |r| && KeyOf(r[i], field) == KeyOf(ts[j], field);
  }
}
