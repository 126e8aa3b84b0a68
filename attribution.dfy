/** Attribution of a warning to the tests that emit it. A log is read line by
    line; a `TEST-START | <name>` line moves the "current test" cursor, and
    every line holding the warning text is credited to the test under the
    cursor. */
module Attribution {
  import opened Wrappers
  import opened Text
  import opened Counters
  import opened Cache

  const TestStartMarker := "TEST-START | "

  predicate NotNewline(c: char) { c != '\n' }

  /** `re.search('TEST-START \| (.*)', line).group(1)`: what follows the
      first marker, up to the end of the line (`.` stops at a newline);
      `None` when the line has no marker. */
  function TestStart(line: string): (r: Option<string>)
    ensures r.Some? <==> Contains(line, TestStartMarker)
    ensures r.Some? ==> r.value <= line[IndexOf(line, TestStartMarker).value + |TestStartMarker|..]
    ensures r.Some? ==> forall i :: 0 <= i < |r.value| ==> r.value[i] != '\n'
    ensures r.Some? ==>
      var rest := line[IndexOf(line, TestStartMarker).value + |TestStartMarker|..];
      |r.value| == |rest| || rest[|r.value|] == '\n'
  {
    match IndexOf(line, TestStartMarker)
    case None => None
    case Some(i) =>
      var rest := line[i + |TestStartMarker|..];
      Some(rest[..Span(rest, NotNewline)])
  }

  /** The prefix of test names in a job: `[e10s] ` for an e10s job, seven
      spaces otherwise, so the names line up. */
  function TestPrefix(jobName: string): (p: string)
    ensures |p| == 7
    ensures Contains(jobName, "e10s") ==> p == "[e10s] "
    ensures !Contains(jobName, "e10s") ==> forall i :: 0 <= i < 7 ==> p[i] == ' '
  {
    if Contains(jobName, "e10s") then "[e10s] " else "       "
  }

  /** The state of the scan of one log: the current test, if any, and the
      per-test counts. */
  datatype Scan = Scan(cursor: Option<string>, tests: Counter)

  /** One line: the cursor moves first, so a `TEST-START` line holding the
      warning is credited to the test it starts. A test is credited only
      when its name is non-empty (Python's truth test on `curr_test`). */
  function ScanLine(s: Scan, line: string, prefix: string, text: string): Scan {
    var cursor := match TestStart(line) case Some(name) => Some(prefix + name) case None => s.cursor;
    if cursor.Some? && cursor.value != [] && Contains(line, text) then
      Scan(cursor, Increment(s.tests, cursor.value))
    else
      Scan(cursor, s.tests)
  }

  /** The lines of a log, first to last. */
  function ScanLines(s: Scan, lines: seq<string>, prefix: string, text: string): Scan {
    if lines == [] then s
    else ScanLine(ScanLines(s, lines[..|lines| - 1], prefix, text), lines[|lines| - 1], prefix, text)
  }

  /** The number of lines that hold `text`. */
  function Mentions(lines: seq<string>, text: string): nat {
    if lines == [] then 0
    else Mentions(lines[..|lines| - 1], text) + (if Contains(lines[|lines| - 1], text) then 1 else 0)
  }

  /** Nothing is credited before the first `TEST-START` line. */
  lemma {:induction false} NothingBeforeTestStart(c: Counter, lines: seq<string>, prefix: string, text: string)
    requires forall i :: 0 <= i < |lines| ==> TestStart(lines[i]).None?
    ensures ScanLines(Scan(None, c), lines, prefix, text) == Scan(None, c)
    decreases |lines|
  {
    if lines != [] {
      NothingBeforeTestStart(c, lines[..|lines| - 1], prefix, text);
    }
  }

  /** A `TEST-START` line that holds the warning counts for the test it
      starts. */
  lemma {:induction false} TestStartLineCredited(s: Scan, line: string, prefix: string, text: string, name: string)
    requires TestStart(line) == Some(name) && Contains(line, text) && prefix + name != []
    ensures ScanLine(s, line, prefix, text) == Scan(Some(prefix + name), Increment(s.tests, prefix + name))
  {
  }

  /** Each line adds at most one, to one test: the counts grow by no more
      than the number of lines holding the warning. */
  lemma {:induction false} CreditBound(s: Scan, lines: seq<string>, prefix: string, text: string)
    ensures Total(ScanLines(s, lines, prefix, text).tests) <= Total(s.tests) + Mentions(lines, text)
    decreases |lines|
  {
    if lines != [] {
      var n := |lines| - 1;
      CreditBound(s, lines[..n], prefix, text);
      var before := ScanLines(s, lines[..n], prefix, text);
      var after := ScanLine(before, lines[n], prefix, text);
      if after.tests != before.tests {
        TotalIncrement(before.tests, after.cursor.value);
      }
    }
  }

  /** Every credited test name carries the job's prefix. */
  lemma {:induction false} KeysPrefixed(s: Scan, lines: seq<string>, prefix: string, text: string)
    requires forall k :: k in s.tests ==> prefix <= k
    requires s.cursor.Some? ==> prefix <= s.cursor.value
    ensures var r := ScanLines(s, lines, prefix, text);
      (forall k :: k in r.tests ==> prefix <= k) && (r.cursor.Some? ==> prefix <= r.cursor.value)
    decreases |lines|
  {
    if lines != [] {
      KeysPrefixed(s, lines[..|lines| - 1], prefix, text);
    }
  }

  /** The job and per-test counts a warning has gathered. */
  datatype Attributed = Attributed(jobs: Counter, tests: Counter)

  /** One log of `match_in_logs`: a log without the warning is skipped;
      otherwise its count is assigned (not added) to its job name and its
      cache file is scanned. A missing cache file is an error naming it. */
  function AttributeLog(a: Attributed, fullText: string, log: Log, files: map<string, seq<string>>)
    : Result<Attributed, string>
  {
    var count := Get(log.warnings, fullText);
    if count == 0 then Success(a)
    else if log.fname !in files then Failure(log.fname)
    else
      var s := ScanLines(Scan(None, a.tests), files[log.fname], TestPrefix(log.jobName), fullText);
      Success(Attributed(a.jobs[log.jobName := count], s.tests))
  }

  /** `match_in_logs` over all logs, first to last, stopping at the first
      error. */
  function AttributeAll(a: Attributed, fullText: string, logs: seq<Log>, files: map<string, seq<string>>)
    : Result<Attributed, string>
  {
    if logs == [] then Success(a)
    else
      match AttributeAll(a, fullText, logs[..|logs| - 1], files)
      case Failure(e) => Failure(e)
      case Success(b) => AttributeLog(b, fullText, logs[|logs| - 1], files)
  }

  /** Logs without the warning are never opened and change nothing. */
  lemma {:induction false} AttributeAbsent(a: Attributed, fullText: string, logs: seq<Log>, files: map<string, seq<string>>)
    requires forall i :: 0 <= i < |logs| ==> Get(logs[i].warnings, fullText) == 0
    ensures AttributeAll(a, fullText, logs, files) == Success(a)
    decreases |logs|
  {
    if logs != [] {
      AttributeAbsent(a, fullText, logs[..|logs| - 1], files);
    }
  }

  /** The job count of a job name is that of the last log of that name that
      holds the warning: a later log overwrites an earlier one. */
  lemma {:induction false} LastJobWins(a: Attributed, fullText: string, logs: seq<Log>, files: map<string, seq<string>>, i: nat)
    requires i < |logs| && Get(logs[i].warnings, fullText) != 0
    requires forall j :: i < j < |logs| ==> logs[j].jobName == logs[i].jobName ==> Get(logs[j].warnings, fullText) == 0
    requires AttributeAll(a, fullText, logs, files).Success?
    ensures Get(AttributeAll(a, fullText, logs, files).value.jobs, logs[i].jobName) == Get(logs[i].warnings, fullText)
    decreases |logs|
  {
    var n := |logs| - 1;
    if i < n {
      LastJobWins(a, fullText, logs[..n], files, i);
    }
  }

  /** The number of lines holding the warning in the cache files that
      `match_in_logs` scans. */
  function ScannedMentions(fullText: string, logs: seq<Log>, files: map<string, seq<string>>): nat {
    if logs == [] then 0
    else
      var l := logs[|logs| - 1];
      ScannedMentions(fullText, logs[..|logs| - 1], files)
        + (if Get(l.warnings, fullText) != 0 && l.fname in files then Mentions(files[l.fname], fullText) else 0)
  }

  /** The per-test counts grow by no more than the number of lines holding
      the warning in the cache files that were scanned. */
  lemma {:induction false} AttributeBound(a: Attributed, fullText: string, logs: seq<Log>, files: map<string, seq<string>>)
    requires AttributeAll(a, fullText, logs, files).Success?
    ensures Total(AttributeAll(a, fullText, logs, files).value.tests) <= Total(a.tests) + ScannedMentions(fullText, logs, files)
    decreases |logs|
  {
    if logs != [] {
      var n := |logs| - 1;
      AttributeBound(a, fullText, logs[..n], files);
      var b := AttributeAll(a, fullText, logs[..n], files).value;
      var l := logs[n];
      if Get(l.warnings, fullText) != 0 {
        CreditBound(Scan(None, b.tests), files[l.fname], TestPrefix(l.jobName), fullText);
      }
    }
  }

  /** An error ends `match_in_logs`: the logs after it are not read. */
  lemma {:induction false} FailureStops(a: Attributed, fullText: string, logs: seq<Log>, files: map<string, seq<string>>, i: nat)
    requires i <= |logs| && AttributeAll(a, fullText, logs[..i], files).Failure?
    ensures AttributeAll(a, fullText, logs, files) == AttributeAll(a, fullText, logs[..i], files)
    decreases |logs| - i
  {
    if i < |logs| {
      assert logs[..i + 1][..i] == logs[..i];
      FailureStops(a, fullText, logs, files, i + 1);
    } else {
      assert logs[..i] == logs;
    }
  }

  /** The scan of one cache file, as the inner loop of `match_in_logs` runs
      it over `curr_test` and the test counter. */
  method ScanFile(tests: Counter, lines: seq<string>, prefix: string, text: string) returns (s: Scan)
    ensures s == ScanLines(Scan(None, tests), lines, prefix, text)
  {
    var cursor: Option<string> := None;
    var counts := tests;
    var i := 0;
    while i < |lines|
      invariant i <= |lines|
      invariant Scan(cursor, counts) == ScanLines(Scan(None, tests), lines[..i], prefix, text)
    {
      var line := lines[i];
      assert lines[..i + 1][..i] == lines[..i];
      var m := TestStart(line);
      if m.Some? {
        cursor := Some(prefix + m.value);
      }
      if cursor.Some? && cursor.value != [] && Contains(line, text) {
        counts := Increment(counts, cursor.value);
      }
      i := i + 1;
    }
    assert lines[..i] == lines;
    s := Scan(cursor, counts);
  }

  /** `match_in_logs`: the loop over the logs. */
  method MatchInLogs(a: Attributed, fullText: string, logs: seq<Log>, files: map<string, seq<string>>)
    returns (r: Result<Attributed, string>)
    ensures r == AttributeAll(a, fullText, logs, files)
  {
    var jobs: Counter := a.jobs;
    var tests: Counter := a.tests;
    var i := 0;
    while i < |logs|
      invariant i <= |logs|
      invariant AttributeAll(a, fullText, logs[..i], files) == Success(Attributed(jobs, tests))
    {
      var log := logs[i];
      assert logs[..i + 1][..i] == logs[..i];
      var count := Get(log.warnings, fullText);
      if count != 0 {
        jobs := jobs[log.jobName := count];
        if log.fname !in files {
          FailureStops(a, fullText, logs, files, i + 1);
          return Failure(log.fname);
        }
        var s := ScanFile(tests, files[log.fname], TestPrefix(log.jobName), fullText);
        tests := s.tests;
      }
      i := i + 1;
    }
    assert logs[..i] == logs;
    r := Success(Attributed(jobs, tests));
  }

  /** `findTestsWithText`: count, per test, the lines of standard input that
      hold `text`, and list the tests by decreasing count. */
  method FindTestsWithText(text: string, lines: seq<string>) returns (counts: Counter, listing: seq<(string, nat)>)
    ensures counts == ScanLines(Scan(None, map[]), lines, "", text).tests
    ensures IsMostCommon(counts, listing)
  {
    var currTest: Option<string> := None;
    counts := map[];
    var i := 0;
    while i < |lines|
      invariant i <= |lines|
      invariant Scan(currTest, counts) == ScanLines(Scan(None, map[]), lines[..i], "", text)
    {
      var l := lines[i];
      assert lines[..i + 1][..i] == lines[..i];
      var m := TestStart(l);
      if m.Some? {
        assert "" + m.value == m.value;
        currTest := Some(m.value);
      }
      if currTest.Some? && currTest.value != [] && Contains(l, text) {
        counts := Increment(counts, currTest.value);
      }
      i := i + 1;
    }
    assert lines[..i] == lines;
    listing := SortedByCount(counts);
  }
}
