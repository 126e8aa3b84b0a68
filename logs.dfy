/** The details of one warning: where it comes from, which jobs and tests
    emit it, the text of a bug report about it, and the download of one
    job's log. */
module Logs {
  import opened Wrappers
  import opened Text
  import opened Counters
  import opened Cache
  import opened Attribution

  /** The integration repositories. */
  const IntegrationRepos: set<string> := {"autoland", "b2g-inbound", "fx-team", "mozilla-inbound"}

  /** `BRANCH_MAP`: integration repositories live under `integration/`. */
  const BranchMap: map<string, string> := map r | r in IntegrationRepos :: "integration/" + r

  /** `BRANCH_MAP.get(repo, repo)` */
  function BranchPath(repo: string): string {
    if repo in BranchMap then BranchMap[repo] else repo
  }

  /** The four integration repositories map under `integration/`; every
      other repository name is its own path. */
  lemma {:induction false} BranchPathIntegration(repo: string)
    ensures BranchPath(repo) == "integration/" + repo <==> repo in IntegrationRepos
    ensures repo !in IntegrationRepos ==> BranchPath(repo) == repo
  {
    if repo !in IntegrationRepos {
      assert |"integration/" + repo| != |repo|;
    }
  }

  /** `int(round(count / 100.0)) * 100`: the nearest multiple of a hundred,
      halves rounded up (Python 2 rounds halves away from zero). */
  function RoundHundreds(count: nat): (r: nat)
    ensures r % 100 == 0
    ensures r <= count + 50 && count < r + 50
  {
    (count + 50) / 100 * 100
  }

  /** The groups of `.*WARNING: (.*)[:,] file ([^,]+), line ([0-9]+).*`:
      message, file and line number. */
  datatype Shape = Shape(text: string, file: string, line: nat)

  /** The annotation link of a bug report: repository path, revision, file
      and line. */
  datatype Link = Link(branch: string, revision: string, file: string, line: nat)

  /** What `details` puts in a bug report: the summary (rounded count,
      message, file, platform), the exact count and text, the jobs by
      decreasing count, the number of tests and the most prevalent ones, and
      the annotation link. */
  datatype BugReport = BugReport(
    rounded: nat, text: string, file: string, platform: string,
    count: nat, fullText: string,
    jobs: seq<(string, nat)>,
    testTotal: nat, topTests: seq<(string, nat)>,
    link: Link)

  /** `most_common(n)`: the first `n` entries of the listing, none for
      `n <= 0`. */
  function MostCommonN(l: seq<(string, nat)>, n: int): (r: seq<(string, nat)>)
    ensures |r| == if n <= 0 then 0 else if n < |l| then n else |l|
    ensures r <= l
  {
    if n <= 0 then [] else if n < |l| then l[..n] else l
  }

  /** The details of one warning. */
  class WarningInfo {
    var fullText: string
    var count: nat
    var text: string
    var file: string
    var line: nat
    var jobs: Counter
    var tests: Counter

    /** `WarningInfo(warning_text, warning_count)`: message, file and line
        come from the warning's shape (`shape` stands for the regular
        expression match); a warning without that shape is its own message,
        from file `none`, line 0. No job or test is known yet. */
    constructor (warningText: string, warningCount: nat, shape: string -> Option<Shape>)
      ensures fullText == warningText && count == warningCount
      ensures shape(warningText).Some? ==>
        text == shape(warningText).value.text && file == shape(warningText).value.file
        && line == shape(warningText).value.line
      ensures shape(warningText).None? ==> text == warningText && file == "none" && line == 0
      ensures jobs == map[] && tests == map[]
    {
      fullText := warningText;
      count := warningCount;
      match shape(warningText) {
        case Some(m) =>
          text := m.text;
          file := m.file;
          line := m.line;
        case None =>
          text := warningText;
          file := "none";
          line := 0;
      }
      jobs := map[];
      tests := map[];
    }

    /** `match_in_logs`: credit the warning to jobs and tests, reading the
        cache files `files` (by file name). When a file is missing the name
        is returned, as the `IOError` the source raises, and the job and
        test counts are left as they were: the source has by then credited
        the logs before it, but the error ends the report and the object is
        not used again. */
    method MatchInLogs(logs: seq<Log>, files: map<string, seq<string>>) returns (missing: Option<string>)
      modifies this
      ensures var r := AttributeAll(Attributed(old(jobs), old(tests)), fullText, logs, files);
        (r.Success? ==> missing.None? && jobs == r.value.jobs && tests == r.value.tests)
        && (r.Failure? ==> missing == Some(r.error) && jobs == old(jobs) && tests == old(tests))
      ensures fullText == old(fullText) && count == old(count)
      ensures text == old(text) && file == old(file) && line == old(line)
    {
      var r := Attribution.MatchInLogs(Attributed(jobs, tests), fullText, logs, files);
      match r {
        case Success(a) =>
          jobs := a.jobs;
          tests := a.tests;
          missing := None;
        case Failure(f) =>
          missing := Some(f);
      }
    }

    /** `details`: the bug report for this warning. */
    method Details(repo: string, revision: string, platform: string, testCount: int) returns (r: BugReport)
      ensures r.rounded == RoundHundreds(count)
      ensures r.text == text && r.file == file && r.platform == platform
      ensures r.count == count && r.fullText == fullText
      ensures IsMostCommon(jobs, r.jobs)
      ensures r.testTotal == |tests|
      ensures |r.topTests| == if testCount <= 0 then 0 else if testCount < |tests| then testCount else |tests|
      ensures exists l :: IsMostCommon(tests, l) && r.topTests <= l
      ensures r.link == Link(BranchPath(repo), revision, file, line)
    {
      var jobList := SortedByCount(jobs);
      var testList := SortedByCount(tests);
      assert |testList| == |tests| by {
        MostCommonLength(tests, testList);
      }
      r := BugReport(
        RoundHundreds(count), text, file, platform,
        count, fullText,
        jobList,
        |tests|, MostCommonN(testList, testCount),
        Link(BranchPath(repo), revision, file, line));
    }
  }

  /** A `most_common()` listing has one entry per key. */
  lemma {:induction false} MostCommonLength(c: Counter, l: seq<(string, nat)>)
    requires IsMostCommon(c, l)
    ensures |l| == |c|
  {
    var keys := set i | 0 <= i < |l| :: l[i].0;
    assert keys == c.Keys by {
      forall k | k in c ensures k in keys {
        var i :| 0 <= i < |l| && l[i].0 == k;
      }
    }
    DistinctKeysCount(l);
  }

  /** A listing with distinct keys has as many keys as entries. */
  lemma {:induction false} DistinctKeysCount(l: seq<(string, nat)>)
    requires forall i, j :: 0 <= i < j < |l| ==> l[i].0 != l[j].0
    ensures |set i | 0 <= i < |l| :: l[i].0| == |l|
    decreases |l|
  {
    if l != [] {
      var n := |l| - 1;
      DistinctKeysCount(l[..n]);
      var before := set i | 0 <= i < n :: l[..n][i].0;
      var after := set i | 0 <= i < |l| :: l[i].0;
      assert before == set i | 0 <= i < n :: l[i].0;
      assert after == before + {l[n].0};
      assert l[n].0 !in before;
    }
  }

  /** A job as the job list gives it: id, type name and symbol (empty when
      it is `None` or empty) and, when known, the log's url. */
  datatype Job = Job(id: int, typeName: string, typeSymbol: string, url: Option<string>)

  /** The job name: the type name, followed by the symbol when there is one,
      since several jobs share a type name. */
  function JobName(job: Job): (name: string)
    ensures job.typeName <= name
    ensures job.typeSymbol == [] ==> name == job.typeName
    ensures job.typeSymbol != [] ==>
      |name| == |job.typeName| + 1 + |job.typeSymbol| && name[|job.typeName|] == ' '
      && name[|job.typeName| + 1..] == job.typeSymbol
  {
    if job.typeSymbol != [] then job.typeName + " " + job.typeSymbol else job.typeName
  }

  /** `download_log`: no log without a url, nor when its download fails;
      otherwise a fresh parsed log of the job, counted from the cache file
      `cached` if there is one, else from the attempts `fetch`. */
  method DownloadLog(job: Job, cached: Option<string>, fetch: nat -> Attempt,
                     matches: string -> bool, jsonData: string -> Option<string>)
    returns (r: Option<ParsedLog>)
    ensures job.url.None? ==> r.None?
    ensures job.url.Some? ==>
      (r.Some? <==> cached.Some? || exists i :: 0 <= i < Retries && fetch(i).Fetched?)
    ensures r.Some? ==>
      fresh(r.value) && r.value.Valid()
      && r.value.url == job.url.value && r.value.jobName == JobName(job)
      && r.value.fname == DefaultFileName(JobName(job))
      && (cached.Some? ==> r.value.warnings == Tally(map[], Unstored(cached.value), matches))
      && (cached.None? ==> r.value.warnings == Retry(map[], fetch, 0, None, matches, jsonData).warnings)
  {
    if job.url.None? {
      return None;
    }
    var log := new ParsedLog(job.url.value, JobName(job), None);
    var success, _ := log.Download(cached, fetch, matches, jsonData);
    if cached.None? {
      RetrySucceeds(map[], fetch, 0, None, matches, jsonData);
    }
    if !success {
      return None;
    }
    r := Some(log);
  }
}
