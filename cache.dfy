/** The per-log warning counts: a parsed log downloads and normalises a job
    log, counting the lines its warning pattern accepts, keeps the
    normalised text as a cache file, and the whole run's results are stored
    as, and read back from, a JSON list of records. */
module Cache {
  import opened Wrappers
  import opened Text
  import opened Counters
  import opened Normalize

  /** The default warning pattern. */
  const WarningRe := "^WARNING"

  /** `re.search(pattern, line)` succeeds: the default pattern is a prefix
      test; any other pattern is left to `engine`. */
  function Search(engine: (string, string) -> bool, pattern: string, line: string): (b: bool)
    ensures pattern == WarningRe ==> (b <==> "WARNING" <= line)
  {
    if pattern == WarningRe then "WARNING" <= line else engine(pattern, line)
  }

  /** A parsed log as a value: what `to_json` writes and what the report and
      bisection code read. */
  datatype Log = Log(url: string, jobName: string, fname: string, warnings: Counter)

  /** A record of the results file, as `json.load` gives it back. */
  datatype Record = Record(url: string, jobName: string, fname: string, warnings: map<string, nat>)

  /** The cache file name made from a job name: spaces become `_`, `.log` is
      appended and only the part after the last `/` is kept. */
  function DefaultFileName(jobName: string): string {
    Basename(ReplaceChar(jobName, ' ', '_') + ".log")
  }

  /** `os.path.basename(p + q)` is `basename(p) + q` when `q` has no `/`. */
  lemma {:induction false} BasenameAppend(p: string, q: string)
    requires forall i :: 0 <= i < |q| ==> q[i] != '/'
    ensures Basename(p + q) == Basename(p) + q
    decreases |q|
  {
    if q != [] {
      var n := |q| - 1;
      var q' := q[..n];
      BasenameAppend(p, q');
      BasenameSnoc(p + q', q[n]);
      SnocSplit(p, q);
      SnocSplit(Basename(p), q);
    } else {
      assert p + q == p;
    }
  }

  /** The default file name ends in `.log` and holds no `/` and no space. */
  lemma {:induction false} DefaultFileNameShape(jobName: string)
    ensures var r := DefaultFileName(jobName);
      |r| >= 4 && r[|r| - 4..] == ".log"
      && forall i :: 0 <= i < |r| ==> r[i] != '/' && r[i] != ' '
  {
    var u := ReplaceChar(jobName, ' ', '_');
    BasenameAppend(u, ".log");
    BasenameShape(u);
    var b := Basename(u);
    var r := DefaultFileName(jobName);
    assert r == b + ".log";
    forall i | 0 <= i < |r| ensures r[i] != '/' && r[i] != ' ' {
      if i < |b| {
        assert b[i] == u[|u| - |b| + i];
      }
    }
  }

  /** `if not file_name`: a missing or empty name falls back to the default. */
  function FileNameOrDefault(jobName: string, fileName: Option<string>): (r: string)
    ensures r != []
    ensures fileName.Some? && fileName.value != [] ==> r == fileName.value
    ensures fileName.None? || fileName.value == [] ==> r == DefaultFileName(jobName)
  {
    if fileName.None? || fileName.value == [] then
      DefaultFileNameShape(jobName);
      DefaultFileName(jobName)
    else fileName.value
  }

  /** The outcome of one attempt to stream a log: all of its lines, a
      connection error before any response (nothing written), or one in the
      middle of the stream after the lines `received` were processed. */
  datatype Attempt = Fetched(lines: seq<string>) | Refused | Dropped(received: seq<string>)

  /** The number of attempts `download` makes before giving up. */
  const Retries := 5

  /** The normalised form of the non-empty lines of a stream, in order:
      what is counted and written to the cache file. */
  function Normalized(lines: seq<string>, jsonData: string -> Option<string>): (r: seq<string>)
    ensures |r| <= |lines|
  {
    if lines == [] then []
    else
      var x := lines[|lines| - 1];
      Normalized(lines[..|lines| - 1], jsonData) + (if x != [] then [NormalizeLine(x, jsonData)] else [])
  }

  /** A line break of Python's universal newlines: `\n`, `\r`, and `\r\n`
      read as one. */
  predicate IsBreak(c: char) { c == '\n' || c == '\r' }

  predicate NotBreak(c: char) { !IsBreak(c) }

  /** The line holds no line break. */
  predicate NoBreak(l: string) {
    forall i :: 0 <= i < |l| ==> !IsBreak(l[i])
  }

  /** The text of the cache file: each written line followed by `\n`. */
  function Stored(lines: seq<string>): (text: string)
    ensures lines != [] ==> text != []
    decreases |lines|
  {
    if lines == [] then [] else lines[0] + "\n" + Stored(lines[1..])
  }

  /** The lines `for x in f` yields from a file opened by `io.open` in text
      mode: the text is cut after each line break, and the break is read as
      `\n`; a last line without a break is yielded as it is. */
  function FileLines(text: string): (r: seq<string>)
    ensures |r| <= |text|
    decreases |text|
  {
    var n := Span(text, NotBreak);
    if n == |text| then (if text == [] then [] else [text])
    else
      var skip := if text[n] == '\r' && n + 1 < |text| && text[n + 1] == '\n' then 2 else 1;
      [text[..n] + "\n"] + FileLines(text[n + skip..])
  }

  /** The lines of a cache file as counted on a later run: `x.rstrip()`. */
  function Unstored(text: string): (r: seq<string>)
    ensures |r| == |FileLines(text)|
    ensures forall i :: 0 <= i < |r| ==> r[i] == RStrip(FileLines(text)[i], IsSpace)
  {
    var lines := FileLines(text);
    seq(|lines|, i requires 0 <= i < |lines| => RStrip(lines[i], IsSpace))
  }

  /** The line does not end with whitespace `strip()` removes. */
  predicate EndsClean(l: string) {
    l == [] || !IsSpace(l[|l| - 1])
  }

  /** A line that does not end with whitespace read back from the cache
      file is the line itself: its trailing newline goes and nothing else. */
  lemma {:induction false} CachedLineRoundTrip(l: string)
    requires EndsClean(l)
    ensures RStrip(l + "\n", IsSpace) == l
  {
    var s := l + "\n";
    assert s[..|s| - 1] == l;
  }

  /** No normalised line ends with whitespace. */
  lemma {:induction false} NormalizedEnds(lines: seq<string>, jsonData: string -> Option<string>)
    ensures forall i :: 0 <= i < |Normalized(lines, jsonData)| ==> EndsClean(Normalized(lines, jsonData)[i])
    decreases |lines|
  {
    if lines != [] {
      var n := |lines| - 1;
      NormalizedEnds(lines[..n], jsonData);
      var p := Normalized(lines[..n], jsonData);
      var r := Normalized(lines, jsonData);
      if lines[n] != [] {
        var x := NormalizeLine(lines[n], jsonData);
        assert EndsClean(x);
        assert r == p + [x];
      } else {
        assert r == p;
      }
    }
  }

  /** Each character of `a` passes `p` and `b` starts with one that fails:
      the span of `a + b` is `a`. */
  lemma {:induction false} SpanUpTo(a: string, b: string, p: char -> bool)
    requires forall i :: 0 <= i < |a| ==> p(a[i])
    requires b != [] && !p(b[0])
    ensures Span(a + b, p) == |a|
    decreases |a|
  {
    if a != [] {
      assert (a + b)[1..] == a[1..] + b;
      SpanUpTo(a[1..], b, p);
    }
  }

  /** A line without a line break followed by `\n` is read as one line. */
  lemma {:induction false} FileLinesCons(l: string, rest: string)
    requires NoBreak(l)
    ensures FileLines(l + "\n" + rest) == [l + "\n"] + FileLines(rest)
  {
    var text := l + "\n" + rest;
    assert text == l + ("\n" + rest);
    SpanUpTo(l, "\n" + rest, NotBreak);
    assert text[..|l|] == l && text[|l| + 1..] == rest;
  }

  /** A file written line by line, no line holding a line break, reads back
      as the written lines, each with its `\n`. */
  lemma {:induction false} FileLinesOfStored(lines: seq<string>)
    requires forall i :: 0 <= i < |lines| ==> NoBreak(lines[i])
    ensures |FileLines(Stored(lines))| == |lines|
    ensures forall i :: 0 <= i < |lines| ==> FileLines(Stored(lines))[i] == lines[i] + "\n"
    decreases |lines|
  {
    if lines != [] {
      var tail := lines[1..];
      FileLinesCons(lines[0], Stored(tail));
      assert forall i :: 0 <= i < |tail| ==> tail[i] == lines[i + 1];
      FileLinesOfStored(tail);
      var r := FileLines(Stored(lines));
      forall i | 0 <= i < |lines| ensures r[i] == lines[i] + "\n" {
        if i > 0 {
          assert r[i] == FileLines(Stored(tail))[i - 1];
        }
      }
    }
  }

  /** Lines without a line break and without trailing whitespace, written to
      a cache file and read back with `rstrip()`, are the lines written. */
  lemma {:induction false} UnstoredStored(lines: seq<string>)
    requires forall i :: 0 <= i < |lines| ==> NoBreak(lines[i]) && EndsClean(lines[i])
    ensures Unstored(Stored(lines)) == lines
  {
    FileLinesOfStored(lines);
    forall i | 0 <= i < |lines| ensures Unstored(Stored(lines))[i] == lines[i] {
      CachedLineRoundTrip(lines[i]);
    }
  }

  /** Reading a cache file back yields the lines that were written, when no
      normalised line holds a line break. */
  lemma {:induction false} CacheFileRoundTrip(lines: seq<string>, jsonData: string -> Option<string>)
    requires forall i :: 0 <= i < |Normalized(lines, jsonData)| ==> NoBreak(Normalized(lines, jsonData)[i])
    ensures Unstored(Stored(Normalized(lines, jsonData))) == Normalized(lines, jsonData)
  {
    NormalizedEnds(lines, jsonData);
    UnstoredStored(Normalized(lines, jsonData));
  }

  /** Writing `a\nb` as one line gives the same text as writing `a` and `b`. */
  lemma {:induction false} StoredJoined(a: string, b: string)
    ensures Stored([a + "\n" + b]) == Stored([a, b])
  {
    assert [a + "\n" + b][1..] == [] && [a, b][1..] == [b] && [b][1..] == [];
  }

  /** Neither of two lines equals the longer line they are cut from. */
  lemma {:induction false} NoneIsJoined(a: string, b: string)
    ensures Occurrences([a, b], a + "\n" + b) == 0
  {
    var l := a + "\n" + b;
    assert |l| > |a| && |l| > |b|;
    assert [a, b][..1] == [a] && [a][..0] == [];
    assert Occurrences([a], l) == Occurrences([], l) + 0;
  }

  /** A normalised line holding a line break is written as one line but read
      back as two, so the later run counts two warnings where the download
      counted one. */
  lemma {:induction false} CachedLineSplits(a: string, b: string, matches: string -> bool)
    requires NoBreak(a) && NoBreak(b) && EndsClean(a) && EndsClean(b)
    requires matches(a + "\n" + b)
    ensures Unstored(Stored([a + "\n" + b])) == [a, b]
    ensures Get(Tally(map[], [a + "\n" + b], matches), a + "\n" + b) == 1
    ensures Get(Tally(map[], Unstored(Stored([a + "\n" + b])), matches), a + "\n" + b) == 0
  {
    var l := a + "\n" + b;
    StoredJoined(a, b);
    UnstoredStored([a, b]);
    TallyGet(map[], [l], matches, l);
    TallyGet(map[], [a, b], matches, l);
    NoneIsJoined(a, b);
    assert [l][..0] == [];
  }

  /** The state `download` leaves: whether it succeeded, the counts, and the
      text of the cache file (`None` while there is none). */
  datatype Outcome = Outcome(success: bool, warnings: Counter, file: Option<string>)

  /** The retry loop of `download` from attempt `i` on, starting from the
      counts `c` and the cache file `file`. A successful attempt counts its
      lines and writes them; a failed one clears the counts, and one that
      failed mid-stream leaves the lines it wrote. */
  function Retry(c: Counter, fetch: nat -> Attempt, i: nat, file: Option<string>,
                 matches: string -> bool, jsonData: string -> Option<string>): Outcome
    decreases Retries - i
  {
    if i >= Retries then Outcome(false, c, file)
    else
      match fetch(i)
      case Fetched(lines) =>
        var kept := Normalized(lines, jsonData);
        Outcome(true, Tally(c, kept, matches), Some(Stored(kept)))
      case Refused => Retry(map[], fetch, i + 1, file, matches, jsonData)
      case Dropped(received) =>
        Retry(map[], fetch, i + 1, Some(Stored(Normalized(received, jsonData))), matches, jsonData)
  }

  /** `download` succeeds exactly when one of the attempts left succeeds. */
  lemma {:induction false} RetrySucceeds(c: Counter, fetch: nat -> Attempt, i: nat, file: Option<string>,
                                        matches: string -> bool, jsonData: string -> Option<string>)
    ensures Retry(c, fetch, i, file, matches, jsonData).success
        <==> exists j :: i <= j < Retries && fetch(j).Fetched?
    decreases Retries - i
  {
    if i < Retries && !fetch(i).Fetched? {
      var file' := if fetch(i).Dropped? then Some(Stored(Normalized(fetch(i).received, jsonData))) else file;
      RetrySucceeds(map[], fetch, i + 1, file', matches, jsonData);
    }
  }

  /** When every attempt fails the counts are empty, however many lines the
      failed attempts had counted. */
  lemma {:induction false} RetryFailureClears(c: Counter, fetch: nat -> Attempt, i: nat, file: Option<string>,
                                             matches: string -> bool, jsonData: string -> Option<string>)
    requires i < Retries
    ensures !Retry(c, fetch, i, file, matches, jsonData).success ==>
      Retry(c, fetch, i, file, matches, jsonData).warnings == map[]
    decreases Retries - i
  {
    if i + 1 < Retries && !fetch(i).Fetched? {
      var file' := if fetch(i).Dropped? then Some(Stored(Normalized(fetch(i).received, jsonData))) else file;
      RetryFailureClears(map[], fetch, i + 1, file', matches, jsonData);
    }
  }

  /** Only attempts `i` to 4 are ever made: outcomes past the fifth attempt
      change nothing. */
  lemma {:induction false} RetryBounded(c: Counter, fetch: nat -> Attempt, fetch': nat -> Attempt, i: nat,
                                       file: Option<string>, matches: string -> bool,
                                       jsonData: string -> Option<string>)
    requires forall j :: i <= j < Retries ==> fetch(j) == fetch'(j)
    ensures Retry(c, fetch, i, file, matches, jsonData) == Retry(c, fetch', i, file, matches, jsonData)
    decreases Retries - i
  {
    if i < Retries && !fetch(i).Fetched? {
      var file' := if fetch(i).Dropped? then Some(Stored(Normalized(fetch(i).received, jsonData))) else file;
      RetryBounded(map[], fetch, fetch', i + 1, file', matches, jsonData);
    }
  }

  /** The first successful attempt decides the counts: those of its lines,
      on top of the starting counts only when no attempt failed before it. */
  lemma {:induction false} RetryFirstSuccess(c: Counter, fetch: nat -> Attempt, i: nat, k: nat,
                                            file: Option<string>, matches: string -> bool,
                                            jsonData: string -> Option<string>)
    requires i <= k < Retries && fetch(k).Fetched?
    requires forall j :: i <= j < k ==> !fetch(j).Fetched?
    ensures Retry(c, fetch, i, file, matches, jsonData).warnings
         == Tally(if k == i then c else map[], Normalized(fetch(k).lines, jsonData), matches)
    decreases k - i
  {
    if i < k {
      var file' := if fetch(i).Dropped? then Some(Stored(Normalized(fetch(i).received, jsonData))) else file;
      RetryFirstSuccess(map[], fetch, i + 1, k, file', matches, jsonData);
    }
  }

  /** `Normalized` over one more line of the stream. */
  lemma {:induction false} NormalizedSnoc(lines: seq<string>, i: nat, jsonData: string -> Option<string>)
    requires i < |lines|
    ensures Normalized(lines[..i + 1], jsonData)
         == Normalized(lines[..i], jsonData) + (if lines[i] != [] then [NormalizeLine(lines[i], jsonData)] else [])
  {
    assert lines[..i + 1][..i] == lines[..i];
  }

  /** `Tally` over one more line. */
  lemma {:induction false} TallySnoc(c: Counter, lines: seq<string>, line: string, keep: string -> bool)
    ensures Tally(c, lines + [line], keep) == Tally(Tally(c, lines, keep), [line], keep)
  {
    assert (lines + [line])[..|lines|] == lines;
    assert [line][..0] == [];
  }

  /** `Tally` over the prefix `lines[..i + 1]`. */
  lemma {:induction false} TallyStep(c: Counter, lines: seq<string>, i: nat, keep: string -> bool)
    requires i < |lines|
    ensures Tally(c, lines[..i + 1], keep) == Tally(Tally(c, lines[..i], keep), [lines[i]], keep)
  {
    assert lines[..i + 1] == lines[..i] + [lines[i]];
    TallySnoc(c, lines[..i], lines[i], keep);
  }

  lemma {:induction false} PrefixAll<T>(s: seq<T>)
    ensures s[..|s|] == s
  {
  }

  /** A log of one job, downloaded and normalised, with the counts of its
      warning lines. */
  class ParsedLog {
    var url: string
    var jobName: string
    var fname: string
    var warnings: Counter

    /** A parsed log always has a file name. */
    predicate Valid()
      reads this
    {
      fname != []
    }

    /** The value `to_json` encodes. */
    function Value(): (l: Log)
      reads this
      ensures l.fname == fname && l.warnings == warnings
    {
      Log(url, jobName, fname, warnings)
    }

    /** `ParsedLog(url, job_name, file_name)`: no counts yet; the file name
        is the one given or, when that is missing or empty, the default. */
    constructor (url: string, jobName: string, fileName: Option<string>)
      ensures Valid()
      ensures this.url == url && this.jobName == jobName && warnings == map[]
      ensures fname == FileNameOrDefault(jobName, fileName)
    {
      this.url := url;
      this.jobName := jobName;
      fname := FileNameOrDefault(jobName, fileName);
      warnings := map[];
    }

    /** `add_warning`: a line the pattern accepts counts once more; nothing
        else changes. */
    method AddWarning(line: string, matches: string -> bool)
      modifies this
      ensures warnings == Tally(old(warnings), [line], matches)
      ensures matches(line) ==> warnings == Increment(old(warnings), line)
      ensures !matches(line) ==> warnings == old(warnings)
      ensures url == old(url) && jobName == old(jobName) && fname == old(fname)
    {
      assert [line][..0] == [];
      if matches(line) {
        warnings := Increment(warnings, line);
      }
    }

    /** `_download_file` over the lines of a stream: each non-empty line is
        normalised, counted when the pattern accepts it, and written out. */
    method DownloadFile(lines: seq<string>, matches: string -> bool, jsonData: string -> Option<string>)
      returns (written: string)
      modifies this
      ensures warnings == Tally(old(warnings), Normalized(lines, jsonData), matches)
      ensures written == Stored(Normalized(lines, jsonData))
      ensures url == old(url) && jobName == old(jobName) && fname == old(fname)
    {
      var kept: seq<string> := [];
      var i := 0;
      while i < |lines|
        invariant i <= |lines|
        invariant kept == Normalized(lines[..i], jsonData)
        invariant warnings == Tally(old(warnings), kept, matches)
        invariant url == old(url) && jobName == old(jobName) && fname == old(fname)
      {
        var x := lines[i];
        NormalizedSnoc(lines, i, jsonData);
        if x != [] {
          var line := NormalizeLine(x, jsonData);
          AddWarning(line, matches);
          TallySnoc(old(warnings), kept, line, matches);
          kept := kept + [line];
        }
        i := i + 1;
      }
      PrefixAll(lines);
      written := Stored(kept);
    }

    /** `download`: with a cache file (`cached`), count its lines; otherwise
        make up to five attempts, `fetch(i)` being the outcome of attempt
        `i`, as `Retry` describes. The file left behind is returned. */
    method Download(cached: Option<string>, fetch: nat -> Attempt, matches: string -> bool,
                    jsonData: string -> Option<string>)
      returns (success: bool, file: Option<string>)
      modifies this
      ensures cached.Some? ==>
        (success && file == cached && warnings == Tally(old(warnings), Unstored(cached.value), matches))
      ensures cached.None? ==>
        Outcome(success, warnings, file) == Retry(old(warnings), fetch, 0, None, matches, jsonData)
      ensures url == old(url) && jobName == old(jobName) && fname == old(fname)
    {
      file := cached;
      if cached.Some? {
        var lines := Unstored(cached.value);
        var i := 0;
        while i < |lines|
          invariant i <= |lines|
          invariant warnings == Tally(old(warnings), lines[..i], matches)
          invariant url == old(url) && jobName == old(jobName) && fname == old(fname)
        {
          TallyStep(old(warnings), lines, i, matches);
          AddWarning(lines[i], matches);
          i := i + 1;
        }
        PrefixAll(lines);
        success := true;
      } else {
        success := false;
        var i := 0;
        while i < Retries
          invariant i <= Retries
          invariant Retry(old(warnings), fetch, 0, None, matches, jsonData)
                 == Retry(warnings, fetch, i, file, matches, jsonData)
          decreases Retries - i
          invariant url == old(url) && jobName == old(jobName) && fname == old(fname)
        {
          match fetch(i) {
            case Fetched(lines) =>
              var written := DownloadFile(lines, matches, jsonData);
              file := Some(written);
              success := true;
              return;
            case Refused =>
              warnings := map[];
            case Dropped(received) =>
              var partial := DownloadFile(received, matches, jsonData);
              file := Some(partial);
              warnings := map[];
          }
          i := i + 1;
        }
      }
    }
  }

  /** A successful download leaves a cache file from which a later run
      counts the same warnings, when no normalised line holds a line break
      (`CachedLineSplits` shows what happens otherwise). */
  lemma {:induction false} DownloadThenCached(lines: seq<string>, matches: string -> bool, jsonData: string -> Option<string>)
    requires forall i :: 0 <= i < |Normalized(lines, jsonData)| ==> NoBreak(Normalized(lines, jsonData)[i])
    ensures var kept := Normalized(lines, jsonData);
      Tally(map[], Unstored(Stored(kept)), matches) == Tally(map[], kept, matches)
  {
    CacheFileRoundTrip(lines, jsonData);
  }

  /** `to_json` */
  function ToJson(l: Log): (r: Record)
    ensures r.url == l.url && r.jobName == l.jobName && r.fname == l.fname && r.warnings == l.warnings
  {
    Record(l.url, l.jobName, l.fname, l.warnings)
  }

  /** One record read back: a `ParsedLog` made from its url, job name and
      file name, whose empty counter is updated with the record's counts. */
  function FromJson(r: Record): (l: Log)
    ensures l.url == r.url && l.jobName == r.jobName
    ensures l.fname == FileNameOrDefault(r.jobName, Some(r.fname))
    ensures forall k :: Get(l.warnings, k) == Get(r.warnings, k)
  {
    Log(r.url, r.jobName, FileNameOrDefault(r.jobName, Some(r.fname)), Update(map[], r.warnings))
  }

  /** Writing a log and reading it back gives the same log exactly when it
      has a file name, as every `ParsedLog` does. */
  lemma {:induction false} JsonRoundTrip(l: Log)
    ensures FromJson(ToJson(l)) == l <==> l.fname != []
  {
    assert Update(map[], l.warnings) == l.warnings;
  }

  /** `cache_file_path`: `results.json` for the default pattern, otherwise a
      name made from the pattern's digest. */
  function CacheFilePath(cacheDir: string, warningRe: string, md5: string -> string): string {
    if warningRe != WarningRe then Join(cacheDir, "results." + md5(warningRe) + ".json")
    else Join(cacheDir, "results.json")
  }

  /** Joining a directory with two relative names gives equal paths only for
      equal names. */
  lemma {:induction false} JoinInjective(dir: string, a: string, b: string)
    requires a != [] && a[0] != '/' && b != [] && b[0] != '/'
    ensures Join(dir, a) == Join(dir, b) <==> a == b
  {
    if Join(dir, a) == Join(dir, b) {
      var p := if dir == [] || dir[|dir| - 1] == '/' then dir else dir + "/";
      assert Join(dir, a) == p + a && Join(dir, b) == p + b;
      assert a == (p + a)[|p|..];
    }
  }

  /** The cache of the default pattern and that of any other pattern never
      share a file, whatever the digest. */
  lemma {:induction false} CacheFilePathDefault(cacheDir: string, warningRe: string, md5: string -> string)
    ensures CacheFilePath(cacheDir, warningRe, md5) == Join(cacheDir, "results.json") <==> warningRe == WarningRe
  {
    if warningRe != WarningRe {
      var name := "results." + md5(warningRe) + ".json";
      JoinInjective(cacheDir, name, "results.json");
      assert |name| > |"results.json"|;
    }
  }

  /** The results file as `read_results` finds it. */
  datatype ResultsFile = Missing | Corrupt | Parsed(records: seq<Option<Record>>)

  /** `CacheFileNotFoundException`: no results file, or one that could not be
      parsed. */
  datatype CacheError = CacheFileNotFound

  /** The logs of a list of records, skipping the nulls, in order. */
  function Decoded(records: seq<Option<Record>>): (logs: seq<Log>)
    ensures |logs| <= |records|
  {
    if records == [] then []
    else
      var n := |records| - 1;
      Decoded(records[..n]) + (if records[n].Some? then [FromJson(records[n].value)] else [])
  }

  /** `Cache.read_results`: the logs of the results file, or
      `CacheFileNotFoundException` when it is missing or corrupt; a corrupt
      file is deleted first (`deleted`). */
  method ReadResults(file: ResultsFile) returns (r: Result<seq<Log>, CacheError>, deleted: bool)
    ensures file.Missing? ==> r == Failure(CacheFileNotFound) && !deleted
    ensures file.Corrupt? ==> r == Failure(CacheFileNotFound) && deleted
    ensures file.Parsed? ==> r == Success(Decoded(file.records)) && !deleted
  {
    deleted := false;
    match file
    case Missing =>
      r := Failure(CacheFileNotFound);
    case Corrupt =>
      deleted := true;
      r := Failure(CacheFileNotFound);
    case Parsed(records) =>
      var logs: seq<Log> := [];
      var i := 0;
      while i < |records|
        invariant i <= |records|
        invariant logs == Decoded(records[..i])
      {
        assert records[..i + 1][..i] == records[..i];
        var x := records[i];
        if x.Some? {
          logs := logs + [FromJson(x.value)];
        }
        i := i + 1;
      }
      assert records[..i] == records;
      r := Success(logs);
  }
}
