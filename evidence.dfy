/** The evidence of one revision: the list of per-job parsed logs, in which
    a job whose log could not be retrieved appears as `None`, and the merged
    warning counts of the jobs that were. */
module Evidence {
  import opened Wrappers
  import opened Counters
  import opened Cache

  /** `[f for f in files if f]`: the logs that were retrieved, in order. */
  function Kept(files: seq<Option<Log>>): (logs: seq<Log>)
    ensures |logs| <= |files|
  {
    if files == [] then []
    else
      var n := |files| - 1;
      Kept(files[..n]) + (if files[n].Some? then [files[n].value] else [])
  }

  /** The list `store_results` writes: the record of each retrieved log,
      and `null` where a job's log could not be retrieved. */
  function Results(files: seq<Option<Log>>): (records: seq<Option<Record>>)
    ensures |records| == |files|
    ensures forall i :: 0 <= i < |files| ==> (records[i].None? <==> files[i].None?)
  {
    seq(|files|, i requires 0 <= i < |files| => if files[i].Some? then Some(ToJson(files[i].value)) else None)
  }

  /** The records of a front of the list are the front of its records. */
  lemma {:induction false} ResultsFront(files: seq<Option<Log>>, n: nat)
    requires n <= |files|
    ensures Results(files)[..n] == Results(files[..n])
  {
  }

  /** Storing the retrieved list and reading it back gives the retrieved
      logs in order, wherever the nulls of failed jobs fall, since every
      parsed log has a file name. */
  lemma {:induction false} ResultsRoundTrip(files: seq<Option<Log>>)
    requires forall i :: 0 <= i < |files| && files[i].Some? ==> files[i].value.fname != []
    ensures Decoded(Results(files)) == Kept(files)
    decreases |files|
  {
    if files != [] {
      var n := |files| - 1;
      ResultsRoundTrip(files[..n]);
      ResultsFront(files, n);
      if files[n].Some? {
        JsonRoundTrip(files[n].value);
      }
    }
  }

  /** The counter built by `update`-ing an empty counter with the counts of
      each retrieved log, first to last. */
  function Combined(files: seq<Option<Log>>): Counter {
    if files == [] then map[]
    else
      var n := |files| - 1;
      var c := Combined(files[..n]);
      if files[n].Some? then Update(c, files[n].value.warnings) else c
  }

  /** The count of `k` in a log, 0 for a log that was not retrieved. */
  function CountIn(f: Option<Log>, k: string): nat {
    if f.Some? then Get(f.value.warnings, k) else 0
  }

  /** The sum over the list of the count of `k` in each entry. */
  function SumCounts(files: seq<Option<Log>>, k: string): nat {
    if files == [] then 0 else SumCounts(files[..|files| - 1], k) + CountIn(files[|files| - 1], k)
  }

  /** Every entry of the kept list is one of the retrieved logs, and every
      retrieved log is kept, as many times as it occurs. */
  lemma {:induction false} KeptIsRetrieved(files: seq<Option<Log>>)
    ensures forall l :: multiset(Kept(files))[l] == multiset(files)[Some(l)]
    decreases |files|
  {
    if files != [] {
      var n := |files| - 1;
      KeptIsRetrieved(files[..n]);
      assert files == files[..n] + [files[n]];
    }
  }

  /** The merged count of each warning is the sum of its counts over the
      retrieved logs; logs that were not retrieved add nothing. */
  lemma {:induction false} CombinedGet(files: seq<Option<Log>>, k: string)
    ensures Get(Combined(files), k) == SumCounts(files, k)
    decreases |files|
  {
    if files != [] {
      CombinedGet(files[..|files| - 1], k);
    }
  }

  /** A warning is a key of the merged counter exactly when it is a key of
      some retrieved log's counter. */
  lemma {:induction false} CombinedKeys(files: seq<Option<Log>>, k: string)
    ensures k in Combined(files) <==> exists i :: 0 <= i < |files| && files[i].Some? && k in files[i].value.warnings
    decreases |files|
  {
    if files != [] {
      var n := |files| - 1;
      CombinedKeys(files[..n], k);
      if k in Combined(files[..n]) {
        var i :| 0 <= i < n && files[..n][i].Some? && k in files[..n][i].value.warnings;
        assert files[i] == files[..n][i];
      }
      if exists i :: 0 <= i < |files| && files[i].Some? && k in files[i].value.warnings {
        var i :| 0 <= i < |files| && files[i].Some? && k in files[i].value.warnings;
        if i < n {
          assert files[..n][i] == files[i];
        }
      }
    }
  }

  /** Taking one entry out of the list takes its count out of the sum. */
  lemma {:induction false} SumCountsRemove(files: seq<Option<Log>>, j: nat, k: string)
    requires j < |files|
    ensures SumCounts(files, k) == SumCounts(files[..j] + files[j + 1..], k) + CountIn(files[j], k)
    decreases |files|
  {
    var n := |files| - 1;
    if j < n {
      SumCountsRemove(files[..n], j, k);
      assert files[..n][..j] == files[..j];
      assert (files[..j] + files[j + 1..])[..n - 1] == files[..n][..j] + files[..n][j + 1..];
      assert (files[..j] + files[j + 1..])[n - 1] == files[n];
    } else {
      assert files[..j] + files[j + 1..] == files[..n];
    }
  }

  /** The sum over the list does not depend on the order of its entries. */
  lemma {:induction false} SumCountsPermutation(files: seq<Option<Log>>, files': seq<Option<Log>>, k: string)
    requires multiset(files) == multiset(files')
    ensures SumCounts(files, k) == SumCounts(files', k)
    decreases |files|
  {
    if files != [] {
      var n := |files| - 1;
      var x := files[n];
      assert x in multiset(files');
      var j :| 0 <= j < |files'| && files'[j] == x;
      var rest := files'[..j] + files'[j + 1..];
      MultisetRemoveAt(files', j);
      MultisetFront(files);
      SumCountsPermutation(files[..n], rest, k);
      SumCountsRemove(files', j, k);
    } else {
      assert |multiset(files')| == 0;
    }
  }

  /** Taking out the entry at `j` takes one copy of it out of the multiset. */
  lemma {:induction false} MultisetRemoveAt<T>(l: seq<T>, j: nat)
    requires j < |l|
    ensures multiset(l[..j] + l[j + 1..]) == multiset(l) - multiset{l[j]}
  {
    assert l == l[..j] + [l[j]] + l[j + 1..];
  }

  /** The front of a sequence holds all of it but one copy of its last entry. */
  lemma {:induction false} MultisetFront<T>(l: seq<T>)
    requires l != []
    ensures multiset(l[..|l| - 1]) == multiset(l) - multiset{l[|l| - 1]}
  {
    assert l == l[..|l| - 1] + [l[|l| - 1]];
  }

  /** The merged counts do not depend on the order in which the jobs were
      listed. */
  lemma {:induction false} CombinedPermutation(files: seq<Option<Log>>, files': seq<Option<Log>>, k: string)
    requires multiset(files) == multiset(files')
    ensures Get(Combined(files), k) == Get(Combined(files'), k)
  {
    CombinedGet(files, k);
    CombinedGet(files', k);
    SumCountsPermutation(files, files', k);
  }

  /** A warning whose counts sum to nothing appears in none of the kept
      logs. */
  lemma {:induction false} AbsentFromKept(files: seq<Option<Log>>, k: string)
    requires SumCounts(files, k) == 0
    ensures forall i :: 0 <= i < |Kept(files)| ==> Get(Kept(files)[i].warnings, k) == 0
    decreases |files|
  {
    if files != [] {
      var n := |files| - 1;
      AbsentFromKept(files[..n], k);
    }
  }

  /** The merge loop: `combined.update(log.warnings)` for each retrieved log. */
  method Combine(files: seq<Option<Log>>) returns (combined: Counter)
    ensures combined == Combined(files)
    ensures forall k :: Get(combined, k) == SumCounts(files, k)
  {
    combined := map[];
    var i := 0;
    while i < |files|
      invariant i <= |files|
      invariant combined == Combined(files[..i])
    {
      assert files[..i + 1][..i] == files[..i];
      if files[i].Some? {
        combined := Update(combined, files[i].value.warnings);
      }
      i := i + 1;
    }
    assert files[..i] == files;
    forall k ensures Get(combined, k) == SumCounts(files, k) {
      CombinedGet(files, k);
    }
  }
}
