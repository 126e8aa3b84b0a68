/** The older, single-script version of the tool: its own line normaliser
    (in `Normalize`), parsed logs without retries or basenames, a cache
    reader that lets every error through, a warning parser without
    fallback, and a report that rounds down. */
module Legacy {
  import opened Wrappers
  import opened Text
  import opened Counters
  import opened Normalize
  import opened Cache
  import opened Evidence
  import opened Attribution
  import opened Logs

  /** `'WARNING' in line`: a substring test anywhere in the line. */
  predicate HasWarning(line: string) {
    Contains(line, "WARNING")
  }

  /** The file name of a log: the one given, or the job name with spaces
      replaced by `_` and `.log` appended (no basename is taken, so a `/`
      in the job name stays). */
  function LegacyFileName(jobName: string, fileName: Option<string>): (r: string)
    ensures r != []
    ensures fileName.Some? && fileName.value != [] ==> r == fileName.value
    ensures fileName.None? || fileName.value == [] ==>
      && |r| == |jobName| + 4 && r[|jobName|..] == ".log"
      && (forall i :: 0 <= i < |jobName| ==> r[i] == if jobName[i] == ' ' then '_' else jobName[i])
      && (forall i :: 0 <= i < |r| ==> r[i] != ' ')
  {
    if fileName.None? || fileName.value == [] then
      var r := ReplaceChar(jobName, ' ', '_') + ".log";
      assert r[|jobName|..] == ".log";
      r
    else fileName.value
  }

  /** The normalised non-empty lines of a stream, in order. */
  function LegacyNormalized(lines: seq<string>): (r: seq<string>)
    ensures |r| <= |lines|
  {
    if lines == [] then []
    else
      var x := lines[|lines| - 1];
      LegacyNormalized(lines[..|lines| - 1]) + (if x != [] then [LegacyNormalizeLine(x)] else [])
  }

  /** `LegacyNormalized` over one more line of the stream. */
  lemma {:induction false} LegacyNormalizedSnoc(lines: seq<string>, i: nat)
    requires i < |lines|
    ensures LegacyNormalized(lines[..i + 1])
         == LegacyNormalized(lines[..i]) + (if lines[i] != [] then [LegacyNormalizeLine(lines[i])] else [])
  {
    assert lines[..i + 1][..i] == lines[..i];
  }

  /** A parsed log of the older version. */
  class LegacyLog {
    var url: string
    var jobName: string
    var fname: string
    var warnings: Counter

    /** The value `to_json` encodes. */
    function Value(): (l: Log)
      reads this
      ensures l.url == url && l.jobName == jobName && l.fname == fname && l.warnings == warnings
    {
      Log(url, jobName, fname, warnings)
    }

    /** `ParsedLog(url, job_name, file_name)` */
    constructor (url: string, jobName: string, fileName: Option<string>)
      ensures this.url == url && this.jobName == jobName && warnings == map[]
      ensures fname == LegacyFileName(jobName, fileName)
    {
      this.url := url;
      this.jobName := jobName;
      fname := LegacyFileName(jobName, fileName);
      warnings := map[];
    }

    /** `add_warning`: a line containing `WARNING` anywhere counts once
        more; nothing else changes. */
    method AddWarning(line: string)
      modifies this
      ensures warnings == Tally(old(warnings), [line], HasWarning)
      ensures HasWarning(line) ==> warnings == Increment(old(warnings), line)
      ensures !HasWarning(line) ==> warnings == old(warnings)
      ensures url == old(url) && jobName == old(jobName) && fname == old(fname)
    {
      assert [line][..0] == [];
      if HasWarning(line) {
        warnings := Increment(warnings, line);
      }
    }

    /** `download` over the lines of the response: empty lines are skipped,
        the others normalised, counted and written out. */
    method Download(lines: seq<string>) returns (written: string)
      modifies this
      ensures warnings == Tally(old(warnings), LegacyNormalized(lines), HasWarning)
      ensures written == Stored(LegacyNormalized(lines))
      ensures url == old(url) && jobName == old(jobName) && fname == old(fname)
    {
      var kept: seq<string> := [];
      var i := 0;
      while i < |lines|
        invariant i <= |lines|
        invariant kept == LegacyNormalized(lines[..i])
        invariant warnings == Tally(old(warnings), kept, HasWarning)
        invariant url == old(url) && jobName == old(jobName) && fname == old(fname)
      {
        var x := lines[i];
        LegacyNormalizedSnoc(lines, i);
        if x != [] {
          var line := LegacyNormalizeLine(x);
          AddWarning(line);
          TallySnoc(old(warnings), kept, line, HasWarning);
          kept := kept + [line];
        }
        i := i + 1;
      }
      PrefixAll(lines);
      written := Stored(kept);
    }
  }

  /** A freshly downloaded log counts exactly the normalised non-empty lines
      that contain `WARNING`, each as often as it occurs. */
  lemma {:induction false} LegacyDownloadCounts(lines: seq<string>, k: string)
    ensures Get(Tally(map[], LegacyNormalized(lines), HasWarning), k)
         == if HasWarning(k) then Occurrences(LegacyNormalized(lines), k) else 0
  {
    TallyGet(map[], LegacyNormalized(lines), HasWarning, k);
  }

  /** `download_log` of the older version: the job name is the type name
      alone, the log is always downloaded (from `lines`). */
  method LegacyDownloadLog(job: Job, url: string, lines: seq<string>) returns (log: LegacyLog)
    ensures fresh(log)
    ensures log.url == url && log.jobName == job.typeName
    ensures log.fname == LegacyFileName(job.typeName, None)
    ensures log.warnings == Tally(map[], LegacyNormalized(lines), HasWarning)
  {
    log := new LegacyLog(url, job.typeName, None);
    var _ := log.Download(lines);
  }

  // ---------------------------------------------------------------------
  // The cache

  /** The exceptions `read_cached_results` lets through: no results file
      (`IOError`), one that is not JSON (`ValueError`), a null record
      (`TypeError`). */
  datatype LegacyError = NoResultsFile | BadJson | NullRecord

  /** A record read back: the given file name (the default when empty) and
      the counts. */
  function LegacyFromJson(r: Record): (l: Log)
    ensures l.url == r.url && l.jobName == r.jobName
    ensures l.fname == LegacyFileName(r.jobName, Some(r.fname))
    ensures forall k :: Get(l.warnings, k) == Get(r.warnings, k)
  {
    Log(r.url, r.jobName, LegacyFileName(r.jobName, Some(r.fname)), Update(map[], r.warnings))
  }

  /** The logs of a list of records, in order; the first null record is an
      error. */
  function LegacyDecoded(records: seq<Option<Record>>): Result<seq<Log>, LegacyError> {
    if records == [] then Success([])
    else
      var n := |records| - 1;
      match LegacyDecoded(records[..n]) {
        case Failure(e) => Failure(e)
        case Success(logs) =>
          if records[n].None? then Failure(NullRecord) else Success(logs + [LegacyFromJson(records[n].value)])
      }
  }

  /** Any null record makes reading fail. */
  lemma {:induction false} NullRecordFails(records: seq<Option<Record>>, i: nat)
    requires i < |records| && records[i].None?
    ensures LegacyDecoded(records) == Failure(NullRecord)
    decreases |records|
  {
    var n := |records| - 1;
    if i < n {
      assert records[..n][i] == records[i];
      NullRecordFails(records[..n], i);
    } else {
      NoNullSucceedsOrFails(records[..n]);
    }
  }

  /** Decoding fails exactly when some record is null, and then with
      `TypeError`. */
  lemma {:induction false} NoNullSucceedsOrFails(records: seq<Option<Record>>)
    ensures LegacyDecoded(records).Failure? ==> LegacyDecoded(records) == Failure(NullRecord)
    ensures LegacyDecoded(records).Failure? <==> exists i :: 0 <= i < |records| && records[i].None?
    decreases |records|
  {
    if records != [] {
      var n := |records| - 1;
      var front := records[..n];
      NoNullSucceedsOrFails(front);
      if exists i :: 0 <= i < n && front[i].None? {
        var i :| 0 <= i < n && front[i].None?;
        assert records[i].None?;
      }
      if exists i :: 0 <= i < |records| && records[i].None? {
        var i :| 0 <= i < |records| && records[i].None?;
        if i < n {
          assert front[i].None?;
        }
      }
    }
  }

  /** `to_json` and reading back restore every log with a file name, in
      order. */
  lemma {:induction false} LegacyResultsRoundTrip(logs: seq<Log>)
    requires forall i :: 0 <= i < |logs| ==> logs[i].fname != []
    ensures LegacyDecoded(seq(|logs|, i requires 0 <= i < |logs| => Some(ToJson(logs[i])))) == Success(logs)
    decreases |logs|
  {
    var stored := seq(|logs|, i requires 0 <= i < |logs| => Some(ToJson(logs[i])));
    if logs != [] {
      var n := |logs| - 1;
      LegacyResultsRoundTrip(logs[..n]);
      assert stored[..n] == seq(n, i requires 0 <= i < n => Some(ToJson(logs[..n][i])));
      var l := logs[n];
      assert Update(map[], l.warnings) == l.warnings;
      assert LegacyFromJson(ToJson(l)) == l;
      assert logs == logs[..n] + [l];
    }
  }

  /** `read_cached_results` */
  method ReadCachedResults(file: ResultsFile) returns (r: Result<seq<Log>, LegacyError>)
    ensures file.Missing? ==> r == Failure(NoResultsFile)
    ensures file.Corrupt? ==> r == Failure(BadJson)
    ensures file.Parsed? ==> r == LegacyDecoded(file.records)
  {
    match file
    case Missing =>
      r := Failure(NoResultsFile);
    case Corrupt =>
      r := Failure(BadJson);
    case Parsed(records) =>
      var logs: seq<Log> := [];
      var i := 0;
      while i < |records|
        invariant i <= |records|
        invariant LegacyDecoded(records[..i]) == Success(logs)
      {
        assert records[..i + 1][..i] == records[..i];
        var x := records[i];
        if x.None? {
          NullRecordFails(records, i);
          return Failure(NullRecord);
        }
        logs := logs + [LegacyFromJson(x.value)];
        i := i + 1;
      }
      assert records[..i] == records;
      r := Success(logs);
  }

  // ---------------------------------------------------------------------
  // Merging and reporting

  /** The retrieved logs as the list the newer version works on. */
  function Present(logs: seq<Log>): (files: seq<Option<Log>>)
    ensures |files| == |logs|
    ensures forall i :: 0 <= i < |logs| ==> files[i] == Some(logs[i])
  {
    seq(|logs|, i requires 0 <= i < |logs| => Some(logs[i]))
  }

  /** The merge loop of `main`: `combined_warnings.update(log.warnings)`
      for every log. */
  method MergeAll(logs: seq<Log>) returns (combined: Counter)
    ensures combined == Combined(Present(logs))
    ensures forall k :: Get(combined, k) == SumCounts(Present(logs), k)
  {
    combined := map[];
    var i := 0;
    while i < |logs|
      invariant i <= |logs|
      invariant combined == Combined(Present(logs[..i]))
    {
      assert Present(logs[..i + 1])[..i] == Present(logs[..i]);
      combined := Update(combined, logs[i].warnings);
      i := i + 1;
    }
    assert logs[..i] == logs;
    forall k ensures Get(combined, k) == SumCounts(Present(logs), k) {
      CombinedGet(Present(logs), k);
    }
  }

  /** `int(round(count) / 100) * 100`: rounded down to a multiple of a
      hundred. */
  function RoundDownHundreds(count: nat): (r: nat)
    ensures r % 100 == 0
    ensures r <= count < r + 100
  {
    count / 100 * 100
  }

  /** `WarningInfo(warning_text, warning_count)` of the older version: the
      warning must have the `WARNING: <text>, file <file>, line <n>` shape
      (there is no fallback). */
  method StrictWarningInfo(warningText: string, warningCount: nat, shape: string -> Option<Shape>)
    returns (info: WarningInfo)
    requires shape(warningText).Some?
    ensures fresh(info)
    ensures info.fullText == warningText && info.count == warningCount
    ensures info.text == shape(warningText).value.text && info.file == shape(warningText).value.file
    ensures info.line == shape(warningText).value.line
    ensures info.jobs == map[] && info.tests == map[]
  {
    info := new WarningInfo(warningText, warningCount, shape);
  }

  /** `print_details`: the report on `linux64`, with the count rounded
      down and the repository name used as it is in the link. */
  method PrintDetails(info: WarningInfo, repo: string, revision: string, testCount: int) returns (r: BugReport)
    ensures r.rounded == RoundDownHundreds(info.count)
    ensures r.text == info.text && r.file == info.file && r.platform == "linux64"
    ensures r.count == info.count && r.fullText == info.fullText
    ensures IsMostCommon(info.jobs, r.jobs)
    ensures r.testTotal == |info.tests|
    ensures |r.topTests| == if testCount <= 0 then 0 else if testCount < |info.tests| then testCount else |info.tests|
    ensures exists l :: IsMostCommon(info.tests, l) && r.topTests <= l
    ensures r.link == Link(repo, revision, info.file, info.line)
  {
    var jobList := SortedByCount(info.jobs);
    var testList := SortedByCount(info.tests);
    MostCommonLength(info.tests, testList);
    r := BugReport(
      RoundDownHundreds(info.count), info.text, info.file, "linux64",
      info.count, info.fullText,
      jobList,
      |info.tests|, MostCommonN(testList, testCount),
      Link(repo, revision, info.file, info.line));
  }
}
