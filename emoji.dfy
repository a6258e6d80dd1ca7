// The emoji allocator the three senders share (`_get_emoji_for_subcategory`
// in src/senders/telegram_sender.py, src/senders/discord_sender.py and
// telegram_sender.py, identical in all three but for how the fallbacks are
// spelt): a subcategory gets an unused emoji one of its words maps to, else
// the first unused fallback, else the last fallback; what it returns is
// marked used. The words are visited in the order of a Python `set`, which
// the model leaves open.

module Emoji {
  import opened Common

  /** The fallback emojis, in the order they are tried (telegram_sender.py
      and src/senders/discord_sender.py). */
  const DEFAULTS: seq<string> := [
    "\U{1F4CC}", "\U{1F4CD}", "\U{1F516}", "\U{1F3F7}\U{FE0F}",
    "\U{1F4A0}", "\U{1F538}", "\U{1F539}", "\U{1F530}"]

  /** The fallbacks as src/senders/telegram_sender.py spells them: the
      UTF-8 bytes of the same eight emojis read as Windows-1252 text, with
      the byte 0x8D, which has no character there, gone. */
  const MISENCODED_DEFAULTS: seq<string> := [
    "\U{F0}\U{178}\U{201C}\U{152}", "\U{F0}\U{178}\U{201C}", "\U{F0}\U{178}\U{201D}\U{2013}",
    "\U{F0}\U{178}\U{B7}\U{EF}\U{B8}", "\U{F0}\U{178}\U{2019}\U{A0}", "\U{F0}\U{178}\U{201D}\U{B8}",
    "\U{F0}\U{178}\U{201D}\U{B9}", "\U{F0}\U{178}\U{201D}\U{B0}"]

  /** A word's emoji when `EMOJI_MAP.get(word)` is truthy. */
  predicate Maps(emojiMap: map<string, string>, w: string)
  {
    w in emojiMap && emojiMap[w] != ""
  }

  /** The emojis the words of `subcategory` map to. */
  function Mapped(subcategory: string, emojiMap: map<string, string>): set<string>
  {
    set w | w in Words(subcategory) && Maps(emojiMap, w) :: emojiMap[w]
  }

  /** Index of the first element of `xs` outside `used`. */
  function FirstUnused(xs: seq<string>, used: set<string>): (r: Option<nat>)
    ensures r.Some? ==> r.value < |xs| && xs[r.value] !in used
    ensures r.Some? ==> forall j :: 0 <= j < r.value ==> xs[j] in used
    ensures r.None? <==> forall j :: 0 <= j < |xs| ==> xs[j] in used
  {
    if xs == [] then None
    else if xs[0] !in used then Some(0)
    else match FirstUnused(xs[1..], used)
      case None => None
      case Some(k) => Some(k + 1)
  }

  /** One allocation: `e` is returned for `subcategory` when `used` holds
      the emojis already given out, and `used'` is the set afterwards. */
  predicate Allocation(subcategory: string, emojiMap: map<string, string>, defaults: seq<string>,
                       used: set<string>, e: string, used': set<string>)
  {
    var unused := Mapped(subcategory, emojiMap) - used;
    if unused != {} then e in unused && used' == used + {e}
    else match FirstUnused(defaults, used)
      case Some(k) => e == defaults[k] && used' == used + {e}
      case None => |defaults| > 0 && e == defaults[|defaults| - 1] && used' == used
  }

  /** `_get_emoji_for_subcategory` on the set of emojis already used. */
  method Allocate(subcategory: string, emojiMap: map<string, string>, defaults: seq<string>, used: set<string>)
    returns (e: string, used': set<string>)
    requires |defaults| > 0
    ensures Allocation(subcategory, emojiMap, defaults, used, e, used')
  {
    var words := set w | w in Words(subcategory);
    ghost var all := words;
    var available: seq<string> := [];
    while words != {}
      invariant words <= all
      invariant forall x :: x in available ==> x in Mapped(subcategory, emojiMap) - used
      invariant forall w :: w in all - words && Maps(emojiMap, w) && emojiMap[w] !in used ==> emojiMap[w] in available
      decreases words
    {
      var w :| w in words;
      if Maps(emojiMap, w) && emojiMap[w] !in used {
        available := available + [emojiMap[w]];
      }
      words := words - {w};
    }
    if available != [] {
      return available[0], used + {available[0]};
    }
    assert Mapped(subcategory, emojiMap) - used == {};
    for k := 0 to |defaults|
      invariant forall j :: 0 <= j < k ==> defaults[j] in used
    {
      if defaults[k] !in used {
        return defaults[k], used + {defaults[k]};
      }
    }
    e, used' := defaults[|defaults| - 1], used;
  }

  /** The allocator returns an emoji not handed out before unless none of
      the subcategory's emojis and none of the fallbacks is left, and the
      used set afterwards is always the old one plus what it returned. */
  lemma AllocationFresh(subcategory: string, emojiMap: map<string, string>, defaults: seq<string>,
                        used: set<string>, e: string, used': set<string>)
    requires |defaults| > 0
    requires Allocation(subcategory, emojiMap, defaults, used, e, used')
    ensures used' == used + {e}
    ensures e in used <==> Mapped(subcategory, emojiMap) <= used && AllUsed(defaults, used)
    ensures e in used ==> e == defaults[|defaults| - 1]
  {
    if Mapped(subcategory, emojiMap) - used == {} && FirstUnused(defaults, used).None? {
      assert defaults[|defaults| - 1] in used;
    }
  }

  /** Every fallback has been handed out. */
  predicate AllUsed(defaults: seq<string>, used: set<string>)
  {
    forall j :: 0 <= j < |defaults| ==> defaults[j] in used
  }

  /** The emojis a run of allocations hands out, one per subcategory in
      order, starting from `used`; `final` is the used set at the end. */
  ghost predicate AllocatedRun(subcategories: seq<string>, emojiMap: map<string, string>, defaults: seq<string>,
                               used: set<string>, es: seq<string>, final: set<string>)
    decreases |subcategories|
  {
    |es| == |subcategories| &&
    if subcategories == [] then final == used
    else
      Allocation(subcategories[0], emojiMap, defaults, used, es[0], used + {es[0]}) &&
      AllocatedRun(subcategories[1..], emojiMap, defaults, used + {es[0]}, es[1..], final)
  }

  predicate Distinct(xs: seq<string>)
  {
    forall i, j :: 0 <= i < j < |xs| ==> xs[i] != xs[j]
  }

  lemma DefaultsDistinct()
    ensures Distinct(DEFAULTS)
  {
    forall i, j | 0 <= i < j < |DEFAULTS| ensures DEFAULTS[i] != DEFAULTS[j] {
      assert DEFAULTS[i][0] != DEFAULTS[j][0] || |DEFAULTS[i]| != |DEFAULTS[j]|;
    }
  }

  /** The misspelt fallbacks are still eight different strings. */
  lemma MisencodedDistinct()
    ensures Distinct(MISENCODED_DEFAULTS)
  {
    var d := MISENCODED_DEFAULTS;
    forall i, j | 0 <= i < j < |d| ensures d[i] != d[j] {
      assert |d[i]| != |d[j]| || d[i][2] != d[j][2] || d[i][3] != d[j][3];
    }
  }

  /** Eight distinct strings do not fit in a set of fewer than eight. */
  lemma {:induction false} FewerThanDefaults(xs: seq<string>, used: set<string>)
    requires forall i, j :: 0 <= i < j < |xs| ==> xs[i] != xs[j]
    requires forall j :: 0 <= j < |xs| ==> xs[j] in used
    ensures |used| >= |xs|
    decreases |xs|
  {
    if xs != [] {
      var last := xs[|xs| - 1];
      FewerThanDefaults(xs[..|xs| - 1], used - {last});
    }
  }

  /** Fewer used emojis than distinct fallbacks leave a fallback free. */
  lemma NotAllUsed(defaults: seq<string>, used: set<string>)
    requires Distinct(defaults)
    requires |used| < |defaults|
    ensures !AllUsed(defaults, used)
  {
    if AllUsed(defaults, used) {
      FewerThanDefaults(defaults, used);
    }
  }

  function Handed(es: seq<string>): set<string>
  {
    set i | 0 <= i < |es| :: es[i]
  }

  lemma HandedCons(es: seq<string>)
    requires es != []
    ensures Handed(es) == {es[0]} + Handed(es[1..])
  {
    assert forall i :: 0 < i < |es| ==> es[i] == es[1..][i - 1];
    forall x | x in Handed(es) ensures x in {es[0]} + Handed(es[1..]) {
      var i :| 0 <= i < |es| && es[i] == x;
      if i > 0 {
        assert es[1..][i - 1] == x;
      }
    }
  }

  /** Prepending an element missing from the rest keeps a sequence free of
      repeats and outside `used`. */
  lemma ConsFresh(es: seq<string>, used: set<string>)
    requires es != [] && es[0] !in used
    requires forall i :: 0 <= i < |es| - 1 ==> es[1..][i] !in used + {es[0]}
    requires forall i, j :: 0 <= i < j < |es| - 1 ==> es[1..][i] != es[1..][j]
    ensures forall i :: 0 <= i < |es| ==> es[i] !in used
    ensures forall i, j :: 0 <= i < j < |es| ==> es[i] != es[j]
  {
    forall i | 0 < i < |es| ensures es[i] !in used + {es[0]} {
      assert es[i] == es[1..][i - 1];
    }
    forall i, j | 0 < i < j < |es| ensures es[i] != es[j] {
      assert es[i] == es[1..][i - 1] && es[j] == es[1..][j - 1];
    }
  }

  /** A summary with at most eight subcategories gets pairwise distinct
      emojis: the last fallback is repeated only after every fallback has
      been handed out. */
  lemma {:induction false} RunDistinct(subcategories: seq<string>, emojiMap: map<string, string>,
                                       defaults: seq<string>, used: set<string>, es: seq<string>, final: set<string>)
    requires Distinct(defaults)
    requires AllocatedRun(subcategories, emojiMap, defaults, used, es, final)
    requires |used| + |subcategories| <= |defaults|
    ensures forall i :: 0 <= i < |es| ==> es[i] !in used
    ensures forall i, j :: 0 <= i < j < |es| ==> es[i] != es[j]
    ensures final == used + Handed(es)
    decreases |subcategories|
  {
    if subcategories != [] {
      var e := es[0];
      RunHeadFresh(subcategories, emojiMap, defaults, used, es, final);
      RunDistinct(subcategories[1..], emojiMap, defaults, used + {e}, es[1..], final);
      HandedUnion(es, used);
      ConsFresh(es, used);
    }
  }

  lemma HandedUnion(es: seq<string>, used: set<string>)
    requires es != []
    ensures (used + {es[0]}) + Handed(es[1..]) == used + Handed(es)
  {
    HandedCons(es);
  }

  /** The first allocation of a run that still has fallbacks to spare is
      fresh, and the rest of the run starts from one more used emoji. */
  lemma RunHeadFresh(subcategories: seq<string>, emojiMap: map<string, string>,
                     defaults: seq<string>, used: set<string>, es: seq<string>, final: set<string>)
    requires Distinct(defaults) && subcategories != []
    requires AllocatedRun(subcategories, emojiMap, defaults, used, es, final)
    requires |used| + |subcategories| <= |defaults|
    ensures es != [] && es[0] !in used && |used + {es[0]}| == |used| + 1
    ensures AllocatedRun(subcategories[1..], emojiMap, defaults, used + {es[0]}, es[1..], final)
  {
    var e := es[0];
    AllocationFresh(subcategories[0], emojiMap, defaults, used, e, used + {e});
    NotAllUsed(defaults, used);
  }

  /** A run extended by one more allocation. */
  lemma {:induction false} AllocatedRunSnoc(subcategories: seq<string>, emojiMap: map<string, string>,
                                            defaults: seq<string>, used: set<string>, es: seq<string>,
                                            final: set<string>, s: string, e: string)
    requires AllocatedRun(subcategories, emojiMap, defaults, used, es, final)
    requires Allocation(s, emojiMap, defaults, final, e, final + {e})
    ensures AllocatedRun(subcategories + [s], emojiMap, defaults, used, es + [e], final + {e})
    decreases |subcategories|
  {
    if subcategories == [] {
      assert AllocatedRun([], emojiMap, defaults, used + {e}, [], final + {e});
      assert [s][1..] == [] && [e][1..] == [];
    } else {
      assert (subcategories + [s])[1..] == subcategories[1..] + [s];
      assert (es + [e])[1..] == es[1..] + [e];
      AllocatedRunSnoc(subcategories[1..], emojiMap, defaults, used + {es[0]}, es[1..], final, s, e);
    }
  }

  /** One step of a sender's subcategory loop: allocating for the j-th
      subcategory extends the run over the first j. */
  lemma AllocatedRunStep(subs: seq<(string, Json)>, j: nat, emojiMap: map<string, string>, defaults: seq<string>,
                         start: set<string>, es: seq<string>, used: set<string>, e: string, used': set<string>)
    requires j < |subs| && |defaults| > 0
    requires AllocatedRun(Keys(subs[..j]), emojiMap, defaults, start, es, used)
    requires Allocation(subs[j].0, emojiMap, defaults, used, e, used')
    ensures AllocatedRun(Keys(subs[..j + 1]), emojiMap, defaults, start, es + [e], used')
  {
    AllocationFresh(subs[j].0, emojiMap, defaults, used, e, used');
    AllocatedRunSnoc(Keys(subs[..j]), emojiMap, defaults, start, es, used, subs[j].0, e);
    KeysAppend(subs[..j], [subs[j]]);
    assert Keys([subs[j]]) == [subs[j].0];
    assert subs[..j + 1] == subs[..j] + [subs[j]];
  }
}
