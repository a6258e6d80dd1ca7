// scheduler_process.py: after a successful daily collection the scheduler
// scans the column files of the alpha-filtered directory and starts the
// summary process only when every one of them holds enough tweets. The
// column files are given in the order the glob yields them; the collect
// and summary processes are given as their outcomes.

module SchedulerProcess {
  import opened Common
  import opened Supervisor

  const MIN_TWEETS_REQUIRED: nat := 15

  /** A column file that reads, counts and reaches the minimum. */
  predicate Ready(c: Content)
  {
    c.Parsed? && TweetsLen(c.json).Some? && TweetsLen(c.json).value >= MIN_TWEETS_REQUIRED
  }

  predicate AllReady(columns: seq<Content>)
  {
    forall i :: 0 <= i < |columns| ==> Ready(columns[i])
  }

  /** The scan of `check_and_run_summary`: whether the summary runs, and how
      many files were opened before the loop ended. */
  datatype Scan = Scan(ready: bool, visited: nat)

  /** `check_and_run_summary`: nothing when the directory is missing;
      otherwise the scan stops at the first column that is short or cannot
      be read, and the summary runs when there is none, vacuously so when
      the directory holds no column files. */
  method CheckAndRunSummary(dirExists: bool, columns: seq<Content>) returns (r: Scan)
    ensures r.ready <==> dirExists && AllReady(columns)
    ensures !dirExists ==> r.visited == 0
    ensures r.visited <= |columns|
    ensures forall i :: 0 <= i < r.visited - 1 ==> Ready(columns[i])
    ensures dirExists && !r.ready ==> r.visited > 0 && !Ready(columns[r.visited - 1])
    ensures r.ready ==> r.visited == |columns|
  {
    if !dirExists {
      return Scan(false, 0);
    }
    var allColumnsReady := true;
    var i := 0;
    while i < |columns|
      invariant 0 <= i <= |columns|
      invariant allColumnsReady
      invariant forall j :: 0 <= j < i ==> Ready(columns[j])
      decreases |columns| - i
    {
      var c := columns[i];
      i := i + 1;
      if c.Corrupt? {
        allColumnsReady := false;
        break;
      }
      var count := TweetsLen(c.json);
      if count.None? || count.value < MIN_TWEETS_REQUIRED {
        allColumnsReady := false;
        break;
      }
    }
    r := Scan(allColumnsReady, i);
  }

  /** `run_collect_process`: the scan happens only when the collect process
      returns a truthy result (`None` when it raises). */
  method RunCollectProcess(collect: Option<bool>, dirExists: bool, columns: seq<Content>)
    returns (scan: Option<Scan>)
    ensures scan.Some? <==> collect == Some(true)
    ensures scan.Some? ==> (scan.value.ready <==> dirExists && AllReady(columns))
  {
    if collect == Some(true) {
      var r := CheckAndRunSummary(dirExists, columns);
      scan := Some(r);
    } else {
      scan := None;
    }
  }

  /** The verdict does not depend on the order the glob yields the files. */
  lemma ReadyOrderFree(columns: seq<Content>, shuffled: seq<Content>)
    requires multiset(columns) == multiset(shuffled)
    ensures AllReady(columns) <==> AllReady(shuffled)
  {
    forall i | 0 <= i < |shuffled|
      ensures shuffled[i] in multiset(columns)
    {
      assert shuffled[i] in multiset(shuffled);
    }
    forall i | 0 <= i < |columns|
      ensures columns[i] in multiset(shuffled)
    {
      assert columns[i] in multiset(columns);
    }
    if AllReady(columns) {
      forall i | 0 <= i < |shuffled| ensures Ready(shuffled[i]) {
        var j :| 0 <= j < |columns| && columns[j] == shuffled[i];
      }
    }
    if AllReady(shuffled) {
      forall i | 0 <= i < |columns| ensures Ready(columns[i]) {
        var j :| 0 <= j < |shuffled| && shuffled[j] == columns[i];
      }
    }
  }
}
