// Shared vocabulary of the pipeline model: optional values, JSON documents as
// Python's json module produces them, and the handful of Python `str`
// operations the stages rely on, written out with Python's exact semantics.

module Common {

  datatype Option<T> = None | Some(value: T)

  /** A JSON value as `json.load` returns it. Objects keep their key order,
      as Python dicts do; duplicate keys are not produced by `json.load`. */
  datatype Json =
    | JNull
    | JBool(b: bool)
    | JInt(i: int)
    | JReal(r: real)
    | JStr(s: string)
    | JList(items: seq<Json>)
    | JObj(entries: seq<(string, Json)>)

  /** The contents of a file in the JSON store: either what `json.load`
      decodes, or a file that raises `JSONDecodeError`. */
  datatype Content = Parsed(json: Json) | Corrupt

  /** Python truthiness of a JSON value. */
  predicate Truthy(j: Json)
  {
    match j
    case JNull => false
    case JBool(b) => b
    case JInt(i) => i != 0
    case JReal(r) => r != 0.0
    case JStr(s) => |s| > 0
    case JList(items) => |items| > 0
    case JObj(entries) => |entries| > 0
  }

  /** `isinstance(x, int)`: Python booleans are integers too. */
  predicate IsPyInt(j: Json)
  {
    j.JInt? || j.JBool?
  }

  function PyIntValue(j: Json): int
    requires IsPyInt(j)
  {
    if j.JInt? then j.i else if j.b then 1 else 0
  }

  // ---------------------------------------------------------------
  // Dictionaries (ordered association lists)
  // ---------------------------------------------------------------

  function Keys<V>(entries: seq<(string, V)>): (ks: seq<string>)
    ensures |ks| == |entries|
    ensures forall i :: 0 <= i < |entries| ==> ks[i] == entries[i].0
  {
    if entries == [] then [] else [entries[0].0] + Keys(entries[1..])
  }

  lemma {:induction false} KeysAppend<V>(a: seq<(string, V)>, b: seq<(string, V)>)
    ensures Keys(a + b) == Keys(a) + Keys(b)
    decreases |a|
  {
    if a == [] {
      assert a + b == b;
    } else {
      assert (a + b)[1..] == a[1..] + b;
      KeysAppend(a[1..], b);
    }
  }

  predicate HasKey<V>(entries: seq<(string, V)>, k: string)
  {
    exists i :: 0 <= i < |entries| && entries[i].0 == k
  }

  /** `d.get(k)`: the value of the first entry with key `k`. */
  function Get<V>(entries: seq<(string, V)>, k: string): (r: Option<V>)
    ensures r.Some? <==> HasKey(entries, k)
    ensures r.Some? ==> exists i :: 0 <= i < |entries| && entries[i] == (k, r.value)
  {
    if entries == [] then None
    else if entries[0].0 == k then Some(entries[0].1)
    else
      var r := Get(entries[1..], k);
      assert HasKey(entries, k) ==> entries[0].0 == k || HasKey(entries[1..], k) by {
        if HasKey(entries, k) {
          var i :| 0 <= i < |entries| && entries[i].0 == k;
          if i > 0 { assert entries[1..][i - 1].0 == k; }
        }
      }
      assert r.Some? ==> exists i :: 0 <= i < |entries| && entries[i] == (k, r.value) by {
        if r.Some? {
          var i :| 0 <= i < |entries[1..]| && entries[1..][i] == (k, r.value);
          assert entries[i + 1] == (k, r.value);
        }
      }
      r
  }

  /** The value of a key is the one of its first entry. */
  lemma {:induction false} GetAt<V>(entries: seq<(string, V)>, i: nat)
    requires i < |entries|
    requires forall j :: 0 <= j < i ==> entries[j].0 != entries[i].0
    ensures Get(entries, entries[i].0) == Some(entries[i].1)
  {
    if i > 0 {
      GetAt(entries[1..], i - 1);
    }
  }

  /** `d.get(k, default)`. */
  function GetOr<V>(entries: seq<(string, V)>, k: string, default: V): (r: V)
    ensures HasKey(entries, k) ==> Some(r) == Get(entries, k)
    ensures !HasKey(entries, k) ==> r == default
  {
    match Get(entries, k)
    case Some(v) => v
    case None => default
  }

  /** `d[k] = v`: replaces the value of an existing key in place, or
      appends a new entry at the end. */
  function Set<V>(entries: seq<(string, V)>, k: string, v: V): (r: seq<(string, V)>)
    ensures HasKey(entries, k) ==> |r| == |entries|
    ensures !HasKey(entries, k) ==> r == entries + [(k, v)]
    ensures Keys(r) == if HasKey(entries, k) then Keys(entries) else Keys(entries) + [k]
  {
    if entries == [] then [(k, v)]
    else if entries[0].0 == k then [(k, v)] + entries[1..]
    else
      assert HasKey(entries, k) <==> HasKey(entries[1..], k) by {
        if HasKey(entries, k) {
          var i :| 0 <= i < |entries| && entries[i].0 == k;
          assert entries[1..][i - 1].0 == k;
        }
        if HasKey(entries[1..], k) {
          var i :| 0 <= i < |entries[1..]| && entries[1..][i].0 == k;
          assert entries[i + 1].0 == k;
        }
      }
      var rest := Set(entries[1..], k, v);
      assert Keys([entries[0]] + rest) == [entries[0].0] + Keys(rest);
      assert !HasKey(entries, k) ==> [entries[0]] + (entries[1..] + [(k, v)]) == entries + [(k, v)];
      [entries[0]] + rest
  }

  lemma {:induction false} GetSetSame<V>(entries: seq<(string, V)>, k: string, v: V)
    ensures Get(Set(entries, k, v), k) == Some(v)
  {
    if entries != [] && entries[0].0 != k {
      GetSetSame(entries[1..], k, v);
    }
  }

  lemma {:induction false} GetSetOther<V>(entries: seq<(string, V)>, k: string, v: V, k': string)
    requires k' != k
    ensures Get(Set(entries, k, v), k') == Get(entries, k')
  {
    if entries != [] && entries[0].0 != k && entries[0].0 != k' {
      GetSetOther(entries[1..], k, v, k');
    }
  }

  lemma HasKeyInKeys<V>(entries: seq<(string, V)>, k: string)
    ensures HasKey(entries, k) <==> k in Keys(entries)
  {
    if k in Keys(entries) {
      var i :| 0 <= i < |Keys(entries)| && Keys(entries)[i] == k;
      assert entries[i].0 == k;
    }
  }

  /** After `d[k] = v` the keys are the old keys and `k`. */
  lemma SetHasKey<V>(entries: seq<(string, V)>, k: string, v: V, k': string)
    ensures HasKey(Set(entries, k, v), k') <==> HasKey(entries, k') || k' == k
  {
    HasKeyInKeys(entries, k');
    HasKeyInKeys(entries, k);
    HasKeyInKeys(Set(entries, k, v), k');
  }

  /** `d[k1] = v1; d[k2] = v2; ...` in order. */
  function SetAll<V>(entries: seq<(string, V)>, kvs: seq<(string, V)>): seq<(string, V)>
    decreases |kvs|
  {
    if kvs == [] then entries else SetAll(Set(entries, kvs[0].0, kvs[0].1), kvs[1..])
  }

  /** Assignments to other keys leave a key's value alone. */
  lemma {:induction false} SetAllOther<V>(entries: seq<(string, V)>, kvs: seq<(string, V)>, k: string)
    requires forall j :: 0 <= j < |kvs| ==> kvs[j].0 != k
    ensures Get(SetAll(entries, kvs), k) == Get(entries, k)
    decreases |kvs|
  {
    if kvs != [] {
      GetSetOther(entries, kvs[0].0, kvs[0].1, k);
      SetAllOther(Set(entries, kvs[0].0, kvs[0].1), kvs[1..], k);
    }
  }

  /** A key holds the value of its last assignment. */
  lemma {:induction false} SetAllGet<V>(entries: seq<(string, V)>, kvs: seq<(string, V)>, i: nat)
    requires i < |kvs|
    requires forall j :: i < j < |kvs| ==> kvs[j].0 != kvs[i].0
    ensures Get(SetAll(entries, kvs), kvs[i].0) == Some(kvs[i].1)
    decreases |kvs|
  {
    if i == 0 {
      GetSetSame(entries, kvs[0].0, kvs[0].1);
      SetAllOther(Set(entries, kvs[0].0, kvs[0].1), kvs[1..], kvs[0].0);
    } else {
      SetAllGet(Set(entries, kvs[0].0, kvs[0].1), kvs[1..], i - 1);
    }
  }

  /** With distinct keys, every key holds its assigned value. */
  lemma SetAllGetDistinct<V>(entries: seq<(string, V)>, kvs: seq<(string, V)>)
    requires DistinctKeys(kvs)
    ensures forall i :: 0 <= i < |kvs| ==> Get(SetAll(entries, kvs), kvs[i].0) == Some(kvs[i].1)
  {
    forall i | 0 <= i < |kvs| ensures Get(SetAll(entries, kvs), kvs[i].0) == Some(kvs[i].1) {
      SetAllGet(entries, kvs, i);
    }
  }

  /** Assignments never remove a key. */
  lemma {:induction false} SetAllHasKey<V>(entries: seq<(string, V)>, kvs: seq<(string, V)>, k: string)
    requires HasKey(entries, k)
    ensures HasKey(SetAll(entries, kvs), k)
    decreases |kvs|
  {
    if kvs != [] {
      SetHasKey(entries, kvs[0].0, kvs[0].1, k);
      SetAllHasKey(Set(entries, kvs[0].0, kvs[0].1), kvs[1..], k);
    }
  }

  /** Python dicts never repeat a key. */
  predicate DistinctKeys<V>(entries: seq<(string, V)>)
  {
    forall i, j :: 0 <= i < j < |entries| ==> entries[i].0 != entries[j].0
  }

  /** Entries with the same keys in the same order are distinct together. */
  lemma SameKeysDistinct<V>(a: seq<(string, V)>, b: seq<(string, V)>)
    requires Keys(a) == Keys(b) && DistinctKeys(a)
    ensures DistinctKeys(b)
  {
    forall i, j | 0 <= i < j < |b| ensures b[i].0 != b[j].0 {
      assert b[i].0 == Keys(b)[i] == a[i].0;
      assert b[j].0 == Keys(b)[j] == a[j].0;
    }
  }

  function Values<V>(entries: seq<(string, V)>): (vs: seq<V>)
    ensures |vs| == |entries|
    ensures forall i :: 0 <= i < |entries| ==> vs[i] == entries[i].1
  {
    if entries == [] then [] else [entries[0].1] + Values(entries[1..])
  }

  /** Python's `key in container`: membership of a dict key, equality with a
      list element, or substring of a string. Any other container raises
      `TypeError`, modelled as None. */
  function PyIn(k: string, j: Json): (r: Option<bool>)
    ensures r.Some? <==> (j.JObj? || j.JList? || j.JStr?)
    ensures j.JObj? ==> r == Some(HasKey(j.entries, k))
    ensures j.JList? ==> r == Some(JStr(k) in j.items)
    ensures j.JStr? ==> r == Some(Contains(j.s, k))
  {
    match j
    case JObj(entries) => Some(HasKey(entries, k))
    case JList(items) => Some(JStr(k) in items)
    case JStr(s) => Some(Contains(s, k))
    case _ => None
  }

  /** `all(k in j for k in ks)` when it does not raise. */
  predicate AllIn(ks: seq<string>, j: Json)
  {
    forall i :: 0 <= i < |ks| ==> PyIn(ks[i], j) == Some(true)
  }

  /** The string value of a field, when it is a string. */
  function StrOr(j: Option<Json>, default: string): string
  {
    if j.Some? && j.value.JStr? then j.value.s else default
  }

  // ---------------------------------------------------------------
  // Python `str` operations
  // ---------------------------------------------------------------

  /** `str.isspace()` on one character: the characters `str.split()`,
      `str.strip()` and the regular-expression class `\s` treat as
      whitespace. */
  predicate IsSpace(c: char)
  {
    c == ' ' || ('\t' <= c <= '\r') || ('\U{1c}' <= c <= '\U{1f}')
    || c == '\U{85}' || c == '\U{a0}' || c == '\U{1680}'
    || ('\U{2000}' <= c <= '\U{200a}') || c == '\U{2028}' || c == '\U{2029}'
    || c == '\U{202f}' || c == '\U{205f}' || c == '\U{3000}'
  }

  predicate IsAsciiDigit(c: char)
  {
    '0' <= c <= '9'
  }

  /** `s.isdigit()` restricted to the ASCII digits. */
  predicate IsDigits(s: string)
  {
    |s| > 0 && forall i :: 0 <= i < |s| ==> IsAsciiDigit(s[i])
  }

  function LStrip(s: string): (r: string)
    ensures |r| <= |s|
    ensures r == [] || !IsSpace(r[0])
  {
    if s != [] && IsSpace(s[0]) then LStrip(s[1..]) else s
  }

  function RStrip(s: string): (r: string)
    ensures |r| <= |s|
    ensures r == [] || !IsSpace(r[|r| - 1])
  {
    if s != [] && IsSpace(s[|s| - 1]) then RStrip(s[..|s| - 1]) else s
  }

  /** `s.strip()`. */
  function Strip(s: string): (r: string)
    ensures |r| <= |s|
    ensures r == [] || (!IsSpace(r[0]) && !IsSpace(r[|r| - 1]))
  {
    var l := LStrip(s);
    RStripPrefix(l);
    RStrip(l)
  }

  /** `lstrip` only removes characters from the front. */
  lemma {:induction false} LStripSuffix(s: string)
    ensures LStrip(s) == s[|s| - |LStrip(s)|..]
    decreases |s|
  {
    if s != [] && IsSpace(s[0]) {
      LStripSuffix(s[1..]);
      assert s[1..][|s[1..]| - |LStrip(s)|..] == s[|s| - |LStrip(s)|..];
    }
  }

  /** `rstrip` only removes characters from the back. */
  lemma {:induction false} RStripPrefix(s: string)
    ensures RStrip(s) == s[..|RStrip(s)|]
    decreases |s|
  {
    if s != [] && IsSpace(s[|s| - 1]) {
      RStripPrefix(s[..|s| - 1]);
      assert s[..|s| - 1][..|RStrip(s)|] == s[..|RStrip(s)|];
    }
  }

  /** Stripping keeps only characters of the input. */
  lemma StripIn(s: string)
    ensures forall i :: 0 <= i < |Strip(s)| ==> Strip(s)[i] in s
  {
    LStripSuffix(s);
    RStripPrefix(LStrip(s));
    InnerSliceIn(s, LStrip(s), RStrip(LStrip(s)));
  }

  /** A prefix of a suffix of `s` is made of characters of `s`. */
  lemma InnerSliceIn(s: string, l: string, r: string)
    requires |l| <= |s| && l == s[|s| - |l|..]
    requires |r| <= |l| && r == l[..|r|]
    ensures forall i :: 0 <= i < |r| ==> r[i] in s
  {
    forall i | 0 <= i < |r| ensures r[i] in s {
      assert r[i] == l[i];
      assert l[i] == s[|s| - |l| + i];
    }
  }

  /** `lstrip` keeps every character from the first non-blank one on. */
  lemma {:induction false} LStripKeeps(s: string, k: nat)
    requires k < |s| && !IsSpace(s[k])
    ensures |s| - |LStrip(s)| <= k
    decreases |s|
  {
    if IsSpace(s[0]) {
      LStripKeeps(s[1..], k - 1);
    }
  }

  /** `rstrip` keeps every character up to the last non-blank one. */
  lemma {:induction false} RStripKeeps(s: string, k: nat)
    requires k < |s| && !IsSpace(s[k])
    ensures k < |RStrip(s)|
    decreases |s|
  {
    if IsSpace(s[|s| - 1]) {
      RStripKeeps(s[..|s| - 1], k);
    }
  }

  /** `strip` keeps every non-blank character, in its place relative to the
      start of the stripped text. */
  lemma StripKeeps(s: string, k: nat)
    requires k < |s| && !IsSpace(s[k])
    ensures |s| - |LStrip(s)| <= k < |s| - |LStrip(s)| + |Strip(s)|
    ensures Strip(s)[k - (|s| - |LStrip(s)|)] == s[k]
  {
    var l := LStrip(s);
    LStripSuffix(s);
    RStripPrefix(l);
    LStripKeeps(s, k);
    var off := |s| - |l|;
    assert l[k - off] == s[k];
    RStripKeeps(l, k - off);
  }

  /** `s.strip(chars)`: removes characters of `cs` at both ends. */
  function StripChars(s: string, cs: set<char>): (r: string)
    ensures |r| <= |s|
    ensures r == [] || (r[0] !in cs && r[|r| - 1] !in cs)
    decreases |s|
  {
    if s != [] && s[0] in cs then StripChars(s[1..], cs)
    else if s != [] && s[|s| - 1] in cs then StripChars(s[..|s| - 1], cs)
    else s
  }

  /** `s.startswith(p)`. */
  predicate StartsWith(s: string, p: string)
  {
    |p| <= |s| && s[..|p|] == p
  }

  /** `s.endswith(p)`. */
  predicate EndsWith(s: string, p: string)
  {
    |p| <= |s| && s[|s| - |p|..] == p
  }

  /** `sub` occurs in `s` at position `i`. */
  predicate OccursAt(s: string, sub: string, i: nat)
  {
    i + |sub| <= |s| && s[i..i + |sub|] == sub
  }

  /** `sub in s` for strings. */
  predicate Contains(s: string, sub: string)
  {
    exists i: nat :: i <= |s| && OccursAt(s, sub, i)
  }

  /** Position of the first occurrence of `sub` in `s`. */
  function Find(s: string, sub: string): (r: Option<nat>)
    ensures r.Some? ==> OccursAt(s, sub, r.value)
    ensures r.Some? ==> forall j: nat :: j < r.value ==> !OccursAt(s, sub, j)
    ensures r.Some? <==> Contains(s, sub)
    decreases |s|
  {
    if |s| < |sub| then
      assert !Contains(s, sub);
      None
    else if s[..|sub|] == sub then
      assert OccursAt(s, sub, 0);
      Some(0)
    else
      assert !OccursAt(s, sub, 0);
      match Find(s[1..], sub)
      case None =>
        assert !Contains(s, sub) by {
          forall i: nat | 0 < i <= |s| && i + |sub| <= |s|
            ensures !OccursAt(s, sub, i)
          {
            assert s[1..][i - 1..i - 1 + |sub|] == s[i..i + |sub|];
            assert !OccursAt(s[1..], sub, i - 1);
          }
        }
        None
      case Some(p) =>
        assert s[1..][p..p + |sub|] == s[p + 1..p + 1 + |sub|];
        assert OccursAt(s, sub, p + 1);
        assert forall j: nat :: 1 <= j < p + 1 ==> !OccursAt(s, sub, j) by {
          forall j: nat | 1 <= j < p + 1 && j + |sub| <= |s|
            ensures !OccursAt(s, sub, j)
          {
            assert s[1..][j - 1..j - 1 + |sub|] == s[j..j + |sub|];
            assert !OccursAt(s[1..], sub, j - 1);
          }
        }
        Some(p + 1)
  }

  /** `s.split(sep, 1)` when `sep` occurs: the text before and after its
      first occurrence; None when it does not occur (a one-element list). */
  function Partition(s: string, sep: string): (r: Option<(string, string)>)
    ensures r.Some? <==> Contains(s, sep)
    ensures r.Some? ==> r.value.0 + sep + r.value.1 == s
    ensures r.Some? ==> !Contains(r.value.0, sep) || |sep| == 0
  {
    match Find(s, sep)
    case None => None
    case Some(p) =>
      assert s[..p] + sep + s[p + |sep|..] == s by {
        assert s == s[..p] + s[p..p + |sep|] + s[p + |sep|..];
      }
      assert |sep| > 0 ==> !Contains(s[..p], sep) by {
        if |sep| > 0 {
          forall i: nat | i + |sep| <= p ensures !OccursAt(s[..p], sep, i) {
            assert s[..p][i..i + |sep|] == s[i..i + |sep|];
            assert !OccursAt(s, sep, i);
          }
        }
      }
      Some((s[..p], s[p + |sep|..]))
  }

  /** `s.split(c)` for a single-character separator. */
  function SplitOn(s: string, c: char): (r: seq<string>)
    ensures |r| >= 1
    ensures forall i :: 0 <= i < |r| ==> c !in r[i]
    decreases |s|
  {
    if c !in s then [s]
    else
      var p := FirstIndex(s, c);
      [s[..p]] + SplitOn(s[p + 1..], c)
  }

  function FirstIndex(s: string, c: char): (p: nat)
    requires c in s
    ensures p < |s| && s[p] == c && c !in s[..p]
  {
    if s[0] == c then 0
    else
      var p := FirstIndex(s[1..], c);
      assert s[..p + 1] == [s[0]] + s[1..][..p];
      p + 1
  }

  /** The first `c` is at `i` when `s[i]` is `c` and no `c` comes before. */
  lemma {:induction false} FirstIndexAt(s: string, c: char, i: nat)
    requires i < |s| && s[i] == c && c !in s[..i]
    ensures FirstIndex(s, c) == i
    decreases i
  {
    if i > 0 {
      assert s[0] in s[..i];
      assert s[1..][i - 1] == c && s[1..][..i - 1] == s[..i][1..];
      FirstIndexAt(s[1..], c, i - 1);
    }
  }

  /** `sep.join(parts)`. */
  function Join(parts: seq<string>, sep: string): (r: string)
  {
    if parts == [] then ""
    else if |parts| == 1 then parts[0]
    else parts[0] + sep + Join(parts[1..], sep)
  }

  lemma {:induction false} JoinSplitOn(s: string, c: char)
    ensures Join(SplitOn(s, c), [c]) == s
    decreases |s|
  {
    if c in s {
      var p := FirstIndex(s, c);
      var rest := SplitOn(s[p + 1..], c);
      JoinSplitOn(s[p + 1..], c);
      assert SplitOn(s, c) == [s[..p]] + rest;
      JoinCons(s[..p], rest, [c]);
      SplitAround(s, p);
    }
  }

  lemma JoinCons(x: string, rest: seq<string>, sep: string)
    requires rest != []
    ensures Join([x] + rest, sep) == x + sep + Join(rest, sep)
  {
    assert ([x] + rest)[1..] == rest;
  }

  lemma SplitAround<T>(s: seq<T>, p: nat)
    requires p < |s|
    ensures s == s[..p] + [s[p]] + s[p + 1..]
  {
  }

  /** `s.split(sep)[-1]`: the text after the last occurrence of `sep`. */
  function AfterLast(s: string, sep: string): (r: string)
    requires |sep| > 0
    ensures EndsWith(s, r)
    ensures !Contains(r, sep)
    decreases |s|
  {
    match Partition(s, sep)
    case None => s
    case Some((_, rest)) =>
      var r := AfterLast(rest, sep);
      assert EndsWith(s, r) by {
        assert s == Partition(s, sep).value.0 + sep + rest;
        assert s[|s| - |rest|..] == rest;
        assert rest[|rest| - |r|..] == r;
      }
      r
  }

  /** `s.replace(old, new)`: non-overlapping, left to right. */
  function Replace(s: string, target: string, repl: string): (r: string)
    requires |target| > 0
    ensures !Contains(s, target) ==> r == s
    decreases |s|
  {
    match Partition(s, target)
    case None => s
    case Some((before, after)) => before + repl + Replace(after, target, repl)
  }

  /** `s.split()`: the maximal runs of non-whitespace characters. */
  function Words(s: string): (ws: seq<string>)
    ensures forall i :: 0 <= i < |ws| ==> |ws[i]| > 0
    decreases |s|
  {
    if s == [] then []
    else if IsSpace(s[0]) then Words(s[1..])
    else
      var w := WordPrefix(s);
      [s[..w]] + Words(s[w..])
  }

  /** Length of the run of non-whitespace characters that starts `t`. */
  function WordPrefix(t: string): (n: nat)
    ensures n <= |t|
    ensures forall j :: 0 <= j < n ==> !IsSpace(t[j])
    ensures n == |t| || IsSpace(t[n])
    ensures t != [] && !IsSpace(t[0]) ==> n > 0
  {
    if t == [] || IsSpace(t[0]) then 0 else 1 + WordPrefix(t[1..])
  }

  lemma {:induction false} WordsOfBlank(s: string)
    requires forall i :: 0 <= i < |s| ==> IsSpace(s[i])
    ensures Words(s) == []
    decreases |s|
  {
    if s != [] {
      WordsOfBlank(s[1..]);
    }
  }

  /** ASCII lower-casing (`str.lower()` on ASCII text). */
  function LowerChar(c: char): char
  {
    if 'A' <= c <= 'Z' then (c as int + 32) as char else c
  }

  function Lower(s: string): (r: string)
    ensures |r| == |s|
    ensures forall i :: 0 <= i < |s| ==> r[i] == LowerChar(s[i])
  {
    if s == [] then [] else [LowerChar(s[0])] + Lower(s[1..])
  }

  function UpperChar(c: char): char
  {
    if 'a' <= c <= 'z' then (c as int - 32) as char else c
  }

  function Upper(s: string): (r: string)
    ensures |r| == |s|
    ensures forall i :: 0 <= i < |s| ==> r[i] == UpperChar(s[i])
  {
    if s == [] then [] else [UpperChar(s[0])] + Upper(s[1..])
  }

  /** Decimal rendering of a natural number, as `str(n)`. */
  function NatToString(n: nat): (r: string)
    ensures IsDigits(r)
  {
    if n < 10 then [DigitChar(n)]
    else NatToString(n / 10) + [DigitChar(n % 10)]
  }

  function DigitChar(d: nat): (c: char)
    requires d < 10
    ensures IsAsciiDigit(c)
  {
    ('0' as int + d) as char
  }

  /** Value of an ASCII digit string. */
  function DigitsValue(s: string): nat
    requires forall i :: 0 <= i < |s| ==> IsAsciiDigit(s[i])
  {
    if s == [] then 0
    else
      assert IsAsciiDigit(s[|s| - 1]);
      DigitsValue(s[..|s| - 1]) * 10 + (s[|s| - 1] as int - '0' as int)
  }

  // ---------------------------------------------------------------
  // Sequences
  // ---------------------------------------------------------------

  function Sum(xs: seq<nat>): nat
  {
    if xs == [] then 0 else xs[0] + Sum(xs[1..])
  }

  lemma {:induction false} SumAppend(xs: seq<nat>, ys: seq<nat>)
    ensures Sum(xs + ys) == Sum(xs) + Sum(ys)
  {
    if xs == [] {
      assert xs + ys == ys;
    } else {
      assert (xs + ys)[0] == xs[0];
      assert (xs + ys)[1..] == xs[1..] + ys;
      SumAppend(xs[1..], ys);
    }
  }

  /** Regrouping a concatenation, stated once so that loops extending an
      accumulator need not rediscover it. */
  lemma ConcatAssoc<T>(a: seq<T>, b: seq<T>, c: seq<T>)
    ensures a + (b + c) == a + b + c
    ensures b == [] ==> a + (b + c) == a + c
  {
  }

  /** The middle piece of a three-part concatenation, sliced back out. */
  lemma MiddleOf<T>(a: seq<T>, m: seq<T>, b: seq<T>)
    ensures (a + m + b)[|a|..|a| + |m|] == m
  {
  }

  /** Concatenation of a sequence of sequences. */
  function Flatten<T>(xss: seq<seq<T>>): (r: seq<T>)
  {
    if xss == [] then [] else xss[0] + Flatten(xss[1..])
  }

  lemma {:induction false} FlattenAppend<T>(xss: seq<seq<T>>, yss: seq<seq<T>>)
    ensures Flatten(xss + yss) == Flatten(xss) + Flatten(yss)
  {
    if xss == [] {
      assert xss + yss == yss;
    } else {
      assert (xss + yss)[0] == xss[0];
      assert (xss + yss)[1..] == xss[1..] + yss;
      FlattenAppend(xss[1..], yss);
    }
  }

  /** `(n + k - 1) // k`: the number of chunks of size `k` covering `n`. */
  function CeilDiv(n: nat, k: nat): (r: nat)
    requires k > 0
    ensures r * k >= n && (r == 0 || (r - 1) * k < n)
  {
    (n + k - 1) / k
  }

  // ---------------------------------------------------------------
  // Records and sorting
  // ---------------------------------------------------------------

  /** A JSON object's entries: a tweet or any other Python dict. */
  type Record = seq<(string, Json)>

  /** A JSON list of dicts. */
  function AsJson(ts: seq<Record>): (r: seq<Json>)
    ensures |r| == |ts|
    ensures forall k :: 0 <= k < |ts| ==> r[k] == JObj(ts[k])
  {
    seq(|ts|, k requires 0 <= k < |ts| => JObj(ts[k]))
  }

  /** `CATEGORY` from category_mapping.py: the category the pipeline
      collects for. Its value is configuration, so it is kept symbolic. */
  const CATEGORY: string := "CATEGORY"

  /** `record.get(k)`: `None` (JSON null) when the key is absent. */
  function Field(t: Record, k: string): (r: Json)
    ensures !HasKey(t, k) ==> r == JNull
  {
    GetOr(t, k, JNull)
  }

  lemma FieldOfGet(t: Record, k: string, v: Json)
    requires Get(t, k) == Some(v)
    ensures Field(t, k) == v
  {
  }

  /** A dict literal: `keys[i]` paired with `vals[i]`, in order. */
  function Zip(keys: seq<string>, vals: seq<Json>): (r: Record)
    requires |keys| == |vals|
    ensures |r| == |keys| && forall i :: 0 <= i < |r| ==> r[i] == (keys[i], vals[i])
  {
    seq(|keys|, i requires 0 <= i < |keys| => (keys[i], vals[i]))
  }

  predicate DistinctStrings(ks: seq<string>)
  {
    forall i, j :: 0 <= i < j < |ks| ==> ks[i] != ks[j]
  }

  /** With distinct keys each key of a dict literal reads back its value. */
  lemma ZipField(keys: seq<string>, vals: seq<Json>, i: nat)
    requires |keys| == |vals| && i < |keys| && DistinctStrings(keys)
    ensures Field(Zip(keys, vals), keys[i]) == vals[i]
    ensures HasKey(Zip(keys, vals), keys[i])
  {
    var r := Zip(keys, vals);
    forall j | 0 <= j < i ensures r[j].0 != r[i].0 {
      assert keys[j] != keys[i];
    }
    GetAt(r, i);
  }

  /** The keys of a dict literal are its keys. */
  lemma ZipKeys(keys: seq<string>, vals: seq<Json>)
    requires |keys| == |vals|
    ensures Keys(Zip(keys, vals)) == keys
  {
  }

  /** Python's `<=` on `str`: lexicographic by code point. */
  predicate LexLe(a: string, b: string)
  {
    if a == [] then true
    else if b == [] then false
    else a[0] < b[0] || (a[0] == b[0] && LexLe(a[1..], b[1..]))
  }

  lemma {:induction false} LexLeTotal(a: string, b: string)
    ensures LexLe(a, b) || LexLe(b, a)
  {
    if a != [] && b != [] && a[0] == b[0] {
      LexLeTotal(a[1..], b[1..]);
    }
  }

  lemma {:induction false} LexLeTrans(a: string, b: string, c: string)
    requires LexLe(a, b) && LexLe(b, c)
    ensures LexLe(a, c)
  {
    if a != [] && b != [] && c != [] && a[0] == b[0] && b[0] == c[0] {
      LexLeTrans(a[1..], b[1..], c[1..]);
    }
  }

  predicate SortedStrings(xs: seq<string>)
  {
    forall i, j :: 0 <= i < j < |xs| ==> LexLe(xs[i], xs[j])
  }

  function InsertSorted(x: string, xs: seq<string>): (r: seq<string>)
    requires SortedStrings(xs)
    ensures SortedStrings(r)
    ensures multiset(r) == multiset(xs) + multiset{x}
    ensures |r| == |xs| + 1
  {
    if xs == [] then [x]
    else if LexLe(x, xs[0]) then
      ConsSorted(x, xs);
      [x] + xs
    else
      var rest := InsertSorted(x, xs[1..]);
      LexLeTotal(x, xs[0]);
      assert xs == [xs[0]] + xs[1..];
      ConsBelowAll(xs[0], xs[1..], x, rest);
      [xs[0]] + rest
  }

  /** A string no greater than the head of a sorted list can be put first. */
  lemma ConsSorted(x: string, xs: seq<string>)
    requires SortedStrings(xs) && xs != [] && LexLe(x, xs[0])
    ensures SortedStrings([x] + xs)
  {
    forall i, j | 0 <= i < j < |[x] + xs|
      ensures LexLe(([x] + xs)[i], ([x] + xs)[j])
    {
      if i == 0 && j > 1 {
        LexLeTrans(x, xs[0], xs[j - 1]);
      }
    }
  }

  /** The head of a sorted list stays first when `x`, which it does not
      exceed, is inserted into the tail. */
  lemma ConsBelowAll(y: string, tail: seq<string>, x: string, rest: seq<string>)
    requires SortedStrings([y] + tail) && LexLe(y, x)
    requires SortedStrings(rest) && multiset(rest) == multiset(tail) + multiset{x}
    ensures SortedStrings([y] + rest)
  {
    forall i, j | 0 <= i < j < |[y] + rest|
      ensures LexLe(([y] + rest)[i], ([y] + rest)[j])
    {
      var z := rest[j - 1];
      assert ([y] + rest)[j] == z;
      if i == 0 {
        assert ([y] + rest)[i] == y;
        assert z in multiset(rest);
        assert z == x || z in multiset(tail);
        if z != x {
          var k :| 0 <= k < |tail| && tail[k] == z;
          assert ([y] + tail)[0] == y && ([y] + tail)[k + 1] == z;
        }
      } else {
        assert ([y] + rest)[i] == rest[i - 1];
      }
    }
  }

  /** `sorted(xs)` for strings. */
  function SortStrings(xs: seq<string>): (r: seq<string>)
    ensures SortedStrings(r)
    ensures multiset(r) == multiset(xs)
    ensures |r| == |xs|
  {
    if xs == [] then []
    else
      assert xs == xs[..|xs| - 1] + [xs[|xs| - 1]];
      InsertSorted(xs[|xs| - 1], SortStrings(xs[..|xs| - 1]))
  }

  /** `sorted(set(xs))`. */
  function SortedSet(xs: seq<string>): seq<string>
  {
    SortStrings(Unique(xs))
  }

  /** `sorted(set(xs))` is sorted, repeats nothing and holds exactly the
      elements of `xs`. */
  lemma SortedSetCharacterised(xs: seq<string>)
    ensures var r := SortedSet(xs);
      && SortedStrings(r)
      && (forall i, j :: 0 <= i < j < |r| ==> r[i] != r[j])
      && (forall x :: x in r <==> x in xs)
  {
    var u := Unique(xs);
    var r := SortStrings(u);
    forall x ensures x in r <==> x in u {
      assert x in r <==> x in multiset(r);
      assert x in u <==> x in multiset(u);
    }
    DistinctByMultiset(u, r);
  }

  /** A permutation of a sequence without repeats has none either. */
  lemma DistinctByMultiset<T>(u: seq<T>, r: seq<T>)
    requires forall i, j :: 0 <= i < j < |u| ==> u[i] != u[j]
    requires multiset(r) == multiset(u)
    ensures forall i, j :: 0 <= i < j < |r| ==> r[i] != r[j]
  {
    forall x ensures multiset(r)[x] <= 1 {
      MultisetAtMostOnce(u, x);
    }
    DistinctOfCounts(r);
  }

  /** A sequence in which every element occurs at most once repeats nothing. */
  lemma {:induction false} DistinctOfCounts<T>(r: seq<T>)
    requires forall x :: multiset(r)[x] <= 1
    ensures forall i, j :: 0 <= i < j < |r| ==> r[i] != r[j]
  {
    if r != [] {
      var p := r[..|r| - 1];
      var last := r[|r| - 1];
      assert r == p + [last];
      assert multiset(r) == multiset(p) + multiset{last};
      forall x ensures multiset(p)[x] <= 1 {
        assert multiset(r)[x] == multiset(p)[x] + multiset{last}[x];
      }
      DistinctOfCounts(p);
      assert multiset(r)[last] == multiset(p)[last] + 1;
      assert last !in p;
      forall i, j | 0 <= i < j < |r| ensures r[i] != r[j] {
        if j < |p| {
          assert r[i] == p[i] && r[j] == p[j];
        } else {
          assert r[i] == p[i] && p[i] in p;
        }
      }
    }
  }

  lemma {:induction false} MultisetAtMostOnce<T>(u: seq<T>, x: T)
    requires forall i, j :: 0 <= i < j < |u| ==> u[i] != u[j]
    ensures multiset(u)[x] <= 1
  {
    if u != [] {
      var p := u[..|u| - 1];
      assert u == p + [u[|u| - 1]];
      MultisetAtMostOnce(p, x);
      if x == u[|u| - 1] {
        assert x !in p;
      }
    }
  }

  // ---------------------------------------------------------------
  // A loop that keeps the transformed elements a step function accepts.

  /** `[f(x).value for x in xs if f(x) is not None]`, built by appending. */
  function FilterMap<T, U>(xs: seq<T>, f: T -> Option<U>): (r: seq<U>)
    ensures |r| <= |xs|
  {
    if xs == [] then []
    else
      FilterMap(xs[..|xs| - 1], f)
      + (match f(xs[|xs| - 1]) case Some(y) => [y] case None => [])
  }

  /** One more element visited by a loop that builds `FilterMap`. */
  lemma FilterMapSnoc<T, U>(xs: seq<T>, j: nat, f: T -> Option<U>)
    requires j < |xs|
    ensures FilterMap(xs[..j + 1], f)
         == FilterMap(xs[..j], f) + (match f(xs[j]) case Some(y) => [y] case None => [])
  {
    assert xs[..j + 1][..j] == xs[..j];
    assert xs[..j + 1][j] == xs[j];
  }

  lemma FilterMapSingle<T, U>(x: T, f: T -> Option<U>)
    ensures FilterMap([x], f) == if f(x).Some? then [f(x).value] else []
  {
    assert [x][..0] == [];
  }

  /** Two steps that agree everywhere keep the same elements. */
  lemma {:induction false} FilterMapSameStep<T, U>(xs: seq<T>, f: T -> Option<U>, g: T -> Option<U>)
    requires forall x :: f(x) == g(x)
    ensures FilterMap(xs, f) == FilterMap(xs, g)
  {
    if xs != [] {
      FilterMapSameStep(xs[..|xs| - 1], f, g);
    }
  }

  lemma {:induction false} FilterMapAppend<T, U>(a: seq<T>, b: seq<T>, f: T -> Option<U>)
    ensures FilterMap(a + b, f) == FilterMap(a, f) + FilterMap(b, f)
  {
    if b == [] {
      assert a + b == a;
    } else {
      var b' := b[..|b| - 1];
      assert (a + b)[..|a + b| - 1] == a + b';
      assert (a + b)[|a + b| - 1] == b[|b| - 1];
      FilterMapAppend(a, b', f);
    }
  }

  /** `y` is what the step makes of some element of `xs`. */
  ghost predicate IsImage<T, U>(xs: seq<T>, f: T -> Option<U>, y: U)
  {
    exists j :: 0 <= j < |xs| && f(xs[j]) == Some(y)
  }

  /** Every kept element is the image of some input element. */
  lemma {:induction false} FilterMapSound<T, U>(xs: seq<T>, f: T -> Option<U>)
    ensures forall i :: 0 <= i < |FilterMap(xs, f)| ==> IsImage(xs, f, FilterMap(xs, f)[i])
  {
    if xs != [] {
      var p := xs[..|xs| - 1];
      var rp := FilterMap(p, f);
      var r := FilterMap(xs, f);
      FilterMapSound(p, f);
      forall i | 0 <= i < |r|
        ensures IsImage(xs, f, r[i])
      {
        if i < |rp| {
          assert r[i] == rp[i];
          var j :| 0 <= j < |p| && f(p[j]) == Some(rp[i]);
          assert xs[j] == p[j];
        } else {
          assert f(xs[|xs| - 1]).Some? && r == rp + [f(xs[|xs| - 1]).value];
          assert f(xs[|xs| - 1]) == Some(r[i]);
        }
      }
    }
  }

  /** Every accepted input element's image is kept. */
  lemma {:induction false} FilterMapComplete<T, U>(xs: seq<T>, f: T -> Option<U>, j: nat)
    requires j < |xs| && f(xs[j]).Some?
    ensures f(xs[j]).value in FilterMap(xs, f)
  {
    var p := xs[..|xs| - 1];
    if j < |p| {
      assert p[j] == xs[j];
      FilterMapComplete(p, f, j);
    }
  }

  /** A step that keeps a key never makes two kept elements share it. */
  lemma {:induction false} FilterMapKeepsDistinct<T, U, K>(xs: seq<T>, f: T -> Option<U>, keyIn: T -> K, keyOut: U -> K)
    requires forall i, j :: 0 <= i < j < |xs| ==> keyIn(xs[i]) != keyIn(xs[j])
    requires forall x :: f(x).Some? ==> keyOut(f(x).value) == keyIn(x)
    ensures forall i, j :: 0 <= i < j < |FilterMap(xs, f)| ==>
      keyOut(FilterMap(xs, f)[i]) != keyOut(FilterMap(xs, f)[j])
  {
    if xs != [] {
      var p := xs[..|xs| - 1];
      var x := xs[|xs| - 1];
      assert forall i, j :: 0 <= i < j < |p| ==> keyIn(p[i]) != keyIn(p[j]) by {
        forall i, j | 0 <= i < j < |p| ensures keyIn(p[i]) != keyIn(p[j]) {
          assert p[i] == xs[i] && p[j] == xs[j];
        }
      }
      FilterMapKeepsDistinct(p, f, keyIn, keyOut);
      var rp := FilterMap(p, f);
      if f(x).Some? {
        var y := f(x).value;
        forall i | 0 <= i < |rp| ensures keyOut(rp[i]) != keyOut(y) {
          FilterMapSound(p, f);
          assert IsImage(p, f, rp[i]);
          var j :| 0 <= j < |p| && f(p[j]) == Some(rp[i]);
          assert p[j] == xs[j];
          assert keyOut(rp[i]) == keyIn(xs[j]);
          assert keyOut(y) == keyIn(x);
        }
        assert FilterMap(xs, f) == rp + [y];
        DistinctSnoc(rp, y, keyOut);
      } else {
        assert FilterMap(xs, f) == rp;
      }
    }
  }

  /** Appending an element whose key is new keeps keys distinct. */
  lemma DistinctSnoc<U, K>(rp: seq<U>, y: U, keyOut: U -> K)
    requires forall i, j :: 0 <= i < j < |rp| ==> keyOut(rp[i]) != keyOut(rp[j])
    requires forall i :: 0 <= i < |rp| ==> keyOut(rp[i]) != keyOut(y)
    ensures forall i, j :: 0 <= i < j < |rp + [y]| ==> keyOut((rp + [y])[i]) != keyOut((rp + [y])[j])
  {
    var r := rp + [y];
    forall i, j | 0 <= i < j < |r|
      ensures keyOut(r[i]) != keyOut(r[j])
    {
      assert r[i] == rp[i];
      if j < |rp| {
        assert r[j] == rp[j];
      } else {
        assert r[j] == y;
      }
    }
  }

  // ---------------------------------------------------------------
  // The JSON store, dates and `len`

  /** The contents of the store at `path`: `None` when no such file exists. */
  function FileAt(files: map<string, Content>, path: string): (c: Option<Content>)
    ensures c.Some? <==> path in files
    ensures c.Some? ==> c.value == files[path]
  {
    if path in files then Some(files[path]) else None
  }

  /** What `for x in j` visits: a list's items, a dict's keys, a string's
      characters; any other value raises `TypeError` (`None`). */
  function Elements(j: Json): (xs: Option<seq<Json>>)
    ensures xs.Some? <==> (j.JList? || j.JObj? || j.JStr?)
    ensures j.JList? ==> xs == Some(j.items)
    ensures j.JObj? ==> xs.Some? && |xs.value| == |j.entries|
                        && forall i :: 0 <= i < |j.entries| ==> xs.value[i] == JStr(j.entries[i].0)
    ensures j.JStr? ==> xs.Some? && |xs.value| == |j.s|
                        && forall i :: 0 <= i < |j.s| ==> xs.value[i] == JStr([j.s[i]])
  {
    match j
    case JList(items) => Some(items)
    case JObj(entries) => Some(seq(|entries|, i requires 0 <= i < |entries| => JStr(entries[i].0)))
    case JStr(s) => Some(seq(|s|, i requires 0 <= i < |s| => JStr([s[i]])))
    case _ => None
  }

  /** Python's `len(x)` on a JSON value; `None` when it raises `TypeError`. */
  function PyLen(j: Json): (n: Option<nat>)
    ensures n.Some? <==> (j.JStr? || j.JList? || j.JObj?)
  {
    match j
    case JStr(s) => Some(|s|)
    case JList(items) => Some(|items|)
    case JObj(entries) => Some(|entries|)
    case _ => None
  }

  predicate IsLeapYear(y: nat)
  {
    y % 4 == 0 && (y % 100 != 0 || y % 400 == 0)
  }

  function DaysInMonth(y: nat, m: nat): (d: nat)
    requires 1 <= m <= 12
    ensures 28 <= d <= 31
  {
    if m == 2 then (if IsLeapYear(y) then 29 else 28)
    else if m == 4 || m == 6 || m == 9 || m == 11 then 30
    else 31
  }

  /** A calendar date written YYYYMMDD: what `datetime.strptime(s,
      '%Y%m%d')` accepts in its zero-padded form. */
  predicate IsYmd(s: string)
  {
    && |s| == 8 && IsDigits(s)
    && var y := DigitsValue(s[..4]);
       var m := DigitsValue(s[4..6]);
       var d := DigitsValue(s[6..]);
       1 <= y && 1 <= m <= 12 && 1 <= d <= DaysInMonth(y, m)
  }

  /** The elements of `xs` without repeats, in first-occurrence order: what
      going through a Python `set` keeps. */
  function Unique<T(==,!new)>(xs: seq<T>): (r: seq<T>)
    ensures forall x :: x in r <==> x in xs
    ensures forall i, j :: 0 <= i < j < |r| ==> r[i] != r[j]
  {
    if xs == [] then []
    else
      var p := Unique(xs[..|xs| - 1]);
      var x := xs[|xs| - 1];
      assert xs == xs[..|xs| - 1] + [x];
      if x in p then p else p + [x]
  }
}
