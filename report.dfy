/** The warning report of one revision: the most (or least) common warnings
    with their total, and the details of one warning. */
module Report {
  import opened Wrappers
  import opened Counters
  import opened Cache
  import opened Evidence
  import opened Attribution
  import opened Logs

  /** `InvalidRegexException`, `WarningNotFoundException`, the `IOError` of
      a cache file that cannot be opened, and the `TypeError` of iterating
      over the `None` that `retrieve_test_logs` returns for an unknown
      revision or a revision without jobs. */
  datatype ReportError = InvalidRegex | WarningNotFound | MissingFile(name: string) | NothingRetrieved

  /** `l[:n]` with Python's meaning of a negative bound. */
  function SliceTo<T>(l: seq<T>, n: int): (r: seq<T>)
    ensures r <= l
    ensures n >= 0 ==> |r| == if n < |l| then n else |l|
    ensures n < 0 ==> |r| == if |l| + n < 0 then 0 else |l| + n
  {
    if n >= 0 then (if n < |l| then l[..n] else l)
    else if |l| + n < 0 then [] else l[..|l| + n]
  }

  /** The entries of a sequence, last first. */
  function Reversed<T>(l: seq<T>): (r: seq<T>)
    ensures |r| == |l|
    ensures forall i :: 0 <= i < |l| ==> r[i] == l[|l| - 1 - i]
  {
    if l == [] then [] else [l[|l| - 1]] + Reversed(l[..|l| - 1])
  }

  /** `l[:stop:-1]`: from the last entry backwards, stopping before index
      `stop` (a negative `stop` counts from the end; one past the start is
      -1). */
  function ReverseSliceTo<T>(l: seq<T>, stop: int): (r: seq<T>)
    ensures |r| <= |l|
    ensures forall i :: 0 <= i < |r| ==> r[i] == l[|l| - 1 - i]
    ensures stop >= 0 ==> |r| == if stop >= |l| then 0 else |l| - 1 - stop
    ensures stop < 0 ==> |r| == if stop + |l| < 0 then |l| else -1 - stop
  {
    var s := if stop < 0 then (if stop + |l| < 0 then -1 else stop + |l|)
             else if stop >= |l| then |l| - 1 else stop;
    Reversed(l[s + 1..])
  }

  /** `most_common[:-warning_count:-1]`, the reverse listing as written. */
  function LeastCommonAsWritten<T>(l: seq<T>, k: int): seq<T> {
    ReverseSliceTo(l, -k)
  }

  /** As written, asking for the `k` least common of at least `k` warnings
      lists only `k - 1`; asking for more than there are lists them all, and
      asking for none (`--warning-count 0`) lists all but the most common. */
  lemma {:induction false} LeastCommonAsWrittenShort<T>(l: seq<T>, k: int)
    ensures 1 <= k <= |l| ==> |LeastCommonAsWritten(l, k)| == k - 1
    ensures k > |l| ==> |LeastCommonAsWritten(l, k)| == |l|
    ensures k == 0 && l != [] ==> |LeastCommonAsWritten(l, k)| == |l| - 1
    ensures k < 0 ==> |LeastCommonAsWritten(l, k)| == if -k >= |l| then 0 else |l| + k - 1
  {
  }

  /** The reverse listing as evidently intended: the first `k` entries of the
      reversed listing, `most_common[::-1][:k]`. */
  function LeastCommon<T>(l: seq<T>, k: int): seq<T> {
    SliceTo(Reversed(l), k)
  }

  /** The intended reverse listing holds `k` entries (all of them when there
      are fewer), the last ones of the listing, last first. */
  lemma {:induction false} LeastCommonLast<T>(l: seq<T>, k: nat)
    ensures |LeastCommon(l, k)| == if k < |l| then k else |l|
    ensures LeastCommon(l, k) == Reversed(l[|l| - |LeastCommon(l, k)|..])
  {
    var r := LeastCommon(l, k);
    var t := l[|l| - |r|..];
    assert forall i :: 0 <= i < |r| ==> r[i] == Reversed(t)[i];
  }

  /** Reversing a `most_common()` listing puts the counts in ascending
      order, so the intended reverse listing begins with the least common
      warning. */
  lemma {:induction false} LeastCommonAscending(c: Counter, l: seq<(string, nat)>, k: int)
    requires IsMostCommon(c, l)
    ensures var r := LeastCommon(l, k);
      forall i, j :: 0 <= i < j < |r| ==> r[i].1 <= r[j].1
  {
    var r := LeastCommon(l, k);
    forall i, j | 0 <= i < j < |r| ensures r[i].1 <= r[j].1 {
      assert r[i] == Reversed(l)[i] && r[j] == Reversed(l)[j];
    }
  }

  /** `Warnings`: the logs of one revision and their merged counts. */
  class Warnings {
    var repo: string
    var revision: string
    var platform: string
    var warningRe: string
    var cacheDir: string
    var logs: seq<Log>
    var combined: Counter
    /** What `retrieve_test_logs` returned, one entry per job. */
    ghost var retrieved: seq<Option<Log>>

    ghost predicate Valid()
      reads this
    {
      logs == Kept(retrieved) && combined == Combined(retrieved)
    }

    /** `Warnings(...)`: the cache directory defaults to
        `<repo>-<revision>-<platform>`; `files` are the logs retrieved for
        the revision, `None` for a job whose log could not be. */
    constructor (repo: string, revision: string, platform: string, cacheDir: string,
                 warningRe: string, files: seq<Option<Log>>)
      ensures Valid() && retrieved == files
      ensures this.repo == repo && this.revision == revision && this.platform == platform
      ensures this.warningRe == warningRe
      ensures this.cacheDir == if cacheDir == [] then repo + "-" + revision + "-" + platform else cacheDir
      ensures forall k :: Get(combined, k) == SumCounts(files, k)
    {
      this.repo := repo;
      this.revision := revision;
      this.platform := platform;
      this.warningRe := warningRe;
      this.cacheDir := if cacheDir == [] then repo + "-" + revision + "-" + platform else cacheDir;
      retrieved := files;
      logs := Kept(files);
      var merged := Combine(files);
      combined := merged;
    }

    /** `top`: the `warningCount` most common warnings (with `reverse`, the
        least common ones, least first) and the total of all counts. */
    method Top(warningCount: int, reverse: bool) returns (listing: seq<(string, nat)>, total: nat)
      ensures exists most ::
        IsMostCommon(combined, most)
        && listing == if reverse then LeastCommon(most, warningCount) else SliceTo(most, warningCount)
      ensures total == Total(combined)
    {
      var most := SortedByCount(combined);
      listing := if reverse then LeastCommon(most, warningCount) else SliceTo(most, warningCount);
      total := ListingSum(most);
      ListingSumIsTotal(combined, most);
    }

    /** `details`: the bug report of one warning. The warning must match the
        warning pattern, its cache files must be readable, and it must have
        been seen. The report is `WarningInfo.details` on this revision's
        repository, revision and platform: message, file and line from the
        warning's shape (or the whole warning, `none` and 0), the jobs and
        tests credited by the scan, and the annotation link. `engine` stands for `re.match` (for the default pattern,
        anchored at the start, it agrees with `re.search`), `shape` splits a
        warning into message, file and line, and `files` are the cache files
        by name. */
    method Details(warning: string, testSummaryCount: int, engine: (string, string) -> bool,
                   shape: string -> Option<Shape>, files: map<string, seq<string>>)
      returns (r: Result<BugReport, ReportError>)
      requires Valid()
      ensures !Search(engine, warningRe, warning) ==> r == Failure(InvalidRegex)
      ensures var a := AttributeAll(Attributed(map[], map[]), warning, logs, files);
        Search(engine, warningRe, warning) ==>
          (a.Failure? ==> r == Failure(MissingFile(a.error)))
          && (Get(combined, warning) == 0 ==> r == Failure(WarningNotFound))
          && (a.Success? && Get(combined, warning) != 0 ==>
                r.Success? && r.value.count == Get(combined, warning) && r.value.fullText == warning
                && IsMostCommon(a.value.jobs, r.value.jobs) && r.value.testTotal == |a.value.tests|)
      ensures var a := AttributeAll(Attributed(map[], map[]), warning, logs, files);
        var s := if shape(warning).Some? then shape(warning).value else Shape(warning, "none", 0);
        Search(engine, warningRe, warning) && a.Success? && Get(combined, warning) != 0 ==>
          r.Success?
          && r.value.rounded == RoundHundreds(Get(combined, warning)) && r.value.platform == platform
          && r.value.text == s.text && r.value.file == s.file
          && r.value.link == Link(BranchPath(repo), revision, s.file, s.line)
          && |r.value.topTests| == (if testSummaryCount <= 0 then 0
                                    else if testSummaryCount < |a.value.tests| then testSummaryCount
                                    else |a.value.tests|)
          && exists l :: IsMostCommon(a.value.tests, l) && r.value.topTests <= l
    {
      if !Search(engine, warningRe, warning) {
        return Failure(InvalidRegex);
      }
      var info := new WarningInfo(warning, Get(combined, warning), shape);
      var missing := info.MatchInLogs(logs, files);
      if Get(combined, warning) == 0 {
        CombinedGet(retrieved, warning);
        AbsentFromKept(retrieved, warning);
        AttributeAbsent(Attributed(map[], map[]), warning, logs, files);
      }
      if missing.Some? {
        return Failure(MissingFile(missing.value));
      }
      if info.count == 0 {
        return Failure(WarningNotFound);
      }
      var report := info.Details(repo, revision, platform, testSummaryCount);
      r := Success(report);
    }
  }

  /** Making a `Warnings`: `files` is what `retrieve_test_logs` returns,
      `None` for an unknown revision or one without jobs, on which the list
      comprehension fails. */
  method NewWarnings(repo: string, revision: string, platform: string, cacheDir: string,
                     warningRe: string, files: Option<seq<Option<Log>>>)
    returns (r: Result<Warnings, ReportError>)
    ensures files.None? ==> r == Failure(NothingRetrieved)
    ensures files.Some? ==>
      r.Success? && fresh(r.value) && r.value.Valid() && r.value.retrieved == files.value
      && r.value.logs == Kept(files.value)
      && forall k :: Get(r.value.combined, k) == SumCounts(files.value, k)
  {
    if files.None? {
      return Failure(NothingRetrieved);
    }
    var w := new Warnings(repo, revision, platform, cacheDir, warningRe, files.value);
    r := Success(w);
  }
}
