// What the process supervisors share: Python's `d.get(k, default)` on a
// decoded document, the tweet count of a stage's output file, and the
// outcome of a pipeline component the supervisor awaits.

module Supervisor {
  import opened Common

  /** The combined outputs of the alpha and the content filter, which the
      next stage reads. */
  const ALPHA_FILE := "data/filtered/alpha_filtered/combined_filtered.json"
  const CONTENT_FILE := "data/filtered/content_filtered/combined_filtered.json"

  /** `d.get(k, default)`; `None` when `d` is not a dict (`AttributeError`). */
  function DictGet(d: Json, k: string, default: Json): (r: Option<Json>)
    ensures r.Some? <==> d.JObj?
    ensures d.JObj? && HasKey(d.entries, k) ==> r == Get(d.entries, k)
    ensures d.JObj? && !HasKey(d.entries, k) ==> r == Some(default)
  {
    if d.JObj? then Some(GetOr(d.entries, k, default)) else None
  }

  /** `len(data.get('tweets', []))`; `None` when either call raises. */
  function TweetsLen(data: Json): (n: Option<nat>)
    ensures n.Some? ==> data.JObj?
    ensures data.JObj? && !HasKey(data.entries, "tweets") ==> n == Some(0)
    ensures data.JObj? && HasKey(data.entries, "tweets") ==> n == PyLen(Get(data.entries, "tweets").value)
  {
    match DictGet(data, "tweets", JList([]))
    case None => None
    case Some(v) => PyLen(v)
  }

  /** The tweet count of a readable file: `None` for a missing file, one
      `json.load` rejects, or one whose count raises. */
  function ReadCount(files: map<string, Content>, path: string): (n: Option<nat>)
    ensures n.Some? <==> path in files && files[path].Parsed? && TweetsLen(files[path].json).Some?
    ensures n.Some? ==> n == TweetsLen(files[path].json)
  {
    if path in files && files[path].Parsed? then TweetsLen(files[path].json) else None
  }

  /** `_count_tweets_in_file` of tweet_summary.py: the count, or 0 whenever
      reading or counting fails. */
  function CountOrZero(files: map<string, Content>, path: string): (n: nat)
    ensures ReadCount(files, path).Some? ==> n == ReadCount(files, path).value
    ensures ReadCount(files, path).None? ==> n == 0
  {
    match ReadCount(files, path)
    case Some(k) => k
    case None => 0
  }

  /** What awaiting a component yields: it raised, or it returned `value`
      and left the JSON store as `store`. */
  datatype Run<T> = Raised | Done(value: T, store: map<string, Content>)

  /** A stage's outcome together with the store it leaves. */
  datatype Step<S> = Step(stage: S, store: map<string, Content>)
}
