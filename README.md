# log-spam-hell, modelled in Dafny

log-spam-hell counts the warnings that Firefox debug test jobs print. For
one revision it downloads the log of every job and normalises each line.
It counts the lines that match a warning pattern and caches the normalised
logs and the counts. It can then report the most (or least) common
warnings, or write a bug report for one warning: which jobs and which tests
emit it, and where it comes from. Its bisection mode asks, for each build
the bisector proposes, whether the warning count is over a limit. The
answer is good, bad or skip.

This project models that core:

- `text.dfy` (module `Text`): the string operations of Python the code
  relies on, such as `strip`, `rstrip`, `replace`, `in`,
  `os.path.basename`, `os.path.join` and `re`'s `\s` class.
- `counters.dfy` (module `Counters`): `collections.Counter` as a map from
  keys to counts. It covers `c[k] += 1`, `update`, the sum of the values,
  and `most_common()`. `most_common()` is given as a predicate, together
  with a selection method that builds such a listing.
- `normalize.dfy` (module `Normalize`): both `normalize_line` functions as
  chains of substitutions. `re.sub` is modelled as a left-to-right scan
  over a matcher function.
- `cache.dfy` (module `Cache`): `ParsedLog` as a class, holding its
  constructor, `add_warning`, `_download_file` and the retry loop of
  `download`. The module also holds `to_json`, `cache_file_path` and
  `Cache.read_results`.
- `evidence.dfy` (module `Evidence`): the list of retrieved logs, with
  `None` for a failed job, and the counts merged from it.
- `attribution.dfy` (module `Attribution`): crediting warning lines to the
  test under a `TEST-START | ` cursor. It covers both `match_in_logs`
  functions and `findTestsWithText`.
- `logs.dfy` (module `Logs`): `WarningInfo` as a class, `details`,
  `BRANCH_MAP` and `download_log`.
- `report.py`'s `Warnings` as a class in `report.dfy` (module `Report`):
  the constructor, `top` and `details`.
- `bisect.dfy` (module `Bisect`): `evaluate`, `check_for_move` and
  `run_once`, the platform mapping, and the cascade from nightly to
  changeset bisection.
- `treeherder.dfy` (module `Legacy`): the older single-file tool.

Choices made in the model:

- Regular expressions are modelled where the pattern is fixed. Each
  pattern of the normalisers matches deterministically, so each is a
  function giving the length of its match. A user-supplied `warning_re` is
  an abstract predicate. The default `^WARNING` is modelled concretely as a
  prefix test.
- Downloads, files and JSON are modelled as values passed in:
  - a stream is a sequence of lines;
  - the outcome of each download attempt is an input;
  - a cache file is its sequence of lines;
  - the results file is missing, corrupt, or a list of records with nulls
    in it;
  - `json.loads(line)['data']` and `hashlib.md5` are function parameters.
- Python 2's rounding of `count / 100.0` is computed on integers. Halves
  round away from zero.
- Where the behaviour disagrees with a general description of the tool,
  the model follows the code. Two examples:
  - When the logs were just downloaded, a job whose log could not be
    retrieved still counts towards the 20-job floor of `evaluate`. When
    they are read back from the results file, those jobs are gone
    (`read_results` drops the nulls), so the same build can be judged on
    the first run and skipped on a later one.
  - A failed download attempt clears the counts gathered so far.

## Model

| member | source | states |
|---|---|---|
| Counters.Increment | logspam/cache.py:126 | `c[k] += 1` adds one to `k`'s count; every other count is unchanged; `k` becomes a key |
| Counters.Update | logspam/report.py:34 | `update` adds the counts key by key; the keys are the union of both counters' keys |
| Counters.TallyGet | logspam/cache.py:121-126 | after counting a run of lines, a key's count is its old count plus the number of times it occurs, if the pattern accepts it, and is unchanged otherwise |
| Counters.TallyTotal | logspam/cache.py:121-126 | counting a run of lines adds one to the total per accepted line |
| Counters.TotalUpdate | logspam/report.py:32-34 | `update` adds the totals |
| Counters.ListingSumIsTotal | logspam/report.py:39-49 | the counts of a `most_common()` listing add up to the printed TOTAL, the sum of all counts |
| Counters.SortedByCount | assertion_length.py:21-23 | the listing holds every key once with its count, by non-increasing count |
| Normalize.NormalizeLine | logspam/cache.py:18-60 | the normalised line starts with no ASCII whitespace and ends with no whitespace `strip()` removes |
| Normalize.Finish | logspam/cache.py:56-58 | the strip and the thread-tag removal leave no ASCII whitespace at the start and no whitespace `strip()` removes at the end |
| Normalize.ThreadTag | logspam/cache.py:58 | the thread-tag match takes all whitespace after the tag |
| Normalize.MaskLeavesNoMatch | logspam/cache.py:53 | after masking, `=[a-z0-9]+` matches at no position |
| Normalize.MaskIdempotent | logspam/cache.py:53 | masking twice is masking once |
| Normalize.SubAllNoMatch | logspam/cache.py:44-55 | a substitution whose pattern matches nowhere leaves the line unchanged |
| Normalize.DeleteAbsent | logspam/cache.py:45 | deleting a literal path from a line without it changes nothing |
| Normalize.DeleteFirstLiteral | logspam/cache.py:45-46 | deleting a literal path keeps the text before its first occurrence, drops the occurrence and goes on after it |
| Normalize.InfoTimestampPrefix | logspam/cache.py:39 | a leading `<time> INFO - ` is removed whole, leaving the rest of the line |
| Normalize.ProcessTagPrefix | logspam/cache.py:41 | a leading `PROCESS \| <pid> \| ` is removed whole |
| Normalize.LegacyNormalizeLine | treeherder.py:22-35 | the older normaliser's result has no ASCII whitespace at either end |
| Normalize.LegacyNormalizeDropsPrefixes | treeherder.py:29-33 | a line with both harness prefixes loses both, and the remaining substitutions work on what follows |
| Cache.DefaultFileNameShape | logspam/cache.py:78-79 | the default file name ends in `.log` and holds no `/` and no space |
| Cache.BasenameAppend | logspam/cache.py:79 | the basename of a name with `.log` appended is the name's basename with `.log` appended |
| Cache.FileNameOrDefault | logspam/cache.py:78-81 | a missing or empty file name is replaced by the default; a given one is kept; the result is never empty |
| Cache.ParsedLog.constructor | logspam/cache.py:75-83 | url and job name are kept, the file name is the given one or the default, and there are no counts |
| Cache.ParsedLog.AddWarning | logspam/cache.py:121-126 | a line the pattern accepts counts once more; otherwise nothing changes; the url, job name and file name are unchanged |
| Cache.ParsedLog.DownloadFile | logspam/cache.py:85-92 | every non-empty line is normalised and written with a newline, and the counts grow by the normalised lines the pattern accepts |
| Cache.ParsedLog.Download | logspam/cache.py:94-119 | with a cache file the counts are those of its lines; otherwise the state is the result of the retry loop `Retry` |
| Cache.RetrySucceeds | logspam/cache.py:108-119 | `download` succeeds exactly when one of the five attempts succeeds |
| Cache.RetryFailureClears | logspam/cache.py:114-116 | when every attempt fails the counts are empty |
| Cache.RetryBounded | logspam/cache.py:109 | outcomes after the fifth attempt do not matter |
| Cache.RetryFirstSuccess | logspam/cache.py:109-113 | the counts are those of the first successful attempt's lines, added to the earlier counts only when no attempt failed before it |
| Cache.CachedLineRoundTrip | logspam/cache.py:106 | a line that does not end in whitespace, written with a newline and read back with `rstrip()`, is the line itself |
| Cache.NormalizedEnds | logspam/cache.py:88-92 | every line written to the cache file ends clean |
| Cache.FileLinesOfStored | logspam/cache.py:92-106 | a file written line by line, with no line holding `\n` or `\r`, is read back by `for x in f` as the same lines, each ending in `\n` |
| Cache.CacheFileRoundTrip | logspam/cache.py:92-106 | when no normalised line holds a line break, reading the cache file back with `rstrip()` gives exactly the lines that were written |
| Cache.CachedLineSplits | logspam/cache.py:92-106 | a normalised line `a\nb` is written as one line and read back as the two lines `a` and `b`, so the download counts it once and a later run from the cache not at all |
| Cache.DownloadThenCached | logspam/cache.py:102-106 | when no normalised line holds a line break, counting from the cache file gives the same counts as the download that wrote it |
| Cache.FromJson | logspam/cache.py:183-184 | the log read back has the record's url and job name, its file name (or the default), and its counts |
| Cache.JsonRoundTrip | logspam/cache.py:128-137 | writing a log and reading it back gives the same log exactly when it has a file name |
| Cache.CacheFilePathDefault | logspam/cache.py:139-147 | the path is `<dir>/results.json` exactly for the default pattern, so no other pattern's cache can collide with it |
| Cache.ReadResults | logspam/cache.py:161-187 | a missing file raises `CacheFileNotFoundException`; a corrupt one is deleted and raises it; otherwise the logs of the non-null records, in order |
| Evidence.ResultsRoundTrip | logspam/cache.py:154-187 | storing the retrieved list, with a null wherever a download failed, and reading it back gives the retrieved logs in order, the nulls dropped |
| Evidence.KeptIsRetrieved | logspam/report.py:30 | the kept list holds each retrieved log as often as the list does, and nothing else |
| Evidence.CombinedGet | logspam/report.py:32-34 | a merged count is the sum of that key's counts over the retrieved logs |
| Evidence.CombinedKeys | logspam/report.py:32-34 | a key is merged exactly when some retrieved log has it |
| Evidence.Combine | logspam/report.py:32-34 | the merge loop yields the merged counter, whose counts are the sums over the logs |
| Evidence.SumCountsPermutation | logspam/bisect.py:233-237 | the sum of a key's counts does not depend on the order of the logs |
| Evidence.CombinedPermutation | logspam/bisect.py:233-237 | a merged count does not depend on the order of the logs |
| Evidence.AbsentFromKept | logspam/report.py:58-63 | a warning whose counts sum to 0 is in none of the kept logs |
| Attribution.TestStart | logspam/logs.py:70-72 | a test starts exactly on a line holding `TEST-START \| `; its name is what follows the first marker, up to a newline |
| Attribution.TestPrefix | logspam/logs.py:65 | the prefix is `[e10s] ` for an e10s job and seven spaces otherwise |
| Attribution.NothingBeforeTestStart | assertion_length.py:25-31 | no line is credited before the first `TEST-START` line |
| Attribution.TestStartLineCredited | logspam/logs.py:69-77 | a `TEST-START` line holding the warning is credited to the test it starts |
| Attribution.CreditBound | logspam/logs.py:76-77 | the test counts grow by at most the number of lines holding the warning |
| Attribution.KeysPrefixed | logspam/logs.py:65-72 | every credited test name carries the job's prefix |
| Attribution.AttributeAbsent | logspam/logs.py:58-60 | logs without the warning change nothing and are not opened |
| Attribution.LastJobWins | logspam/logs.py:62 | a job's count is that of the last log of that name holding the warning: it is assigned, not added |
| Attribution.AttributeBound | logspam/logs.py:55-77 | over all logs, the test counts grow by at most the number of scanned lines holding the warning |
| Attribution.FailureStops | logspam/logs.py:67 | a missing cache file ends the scan: later logs are not read |
| Attribution.ScanFile | treeherder.py:66-79 | the inner loop over a cache file computes the cursor and test counts that `ScanLines` specifies |
| Attribution.MatchInLogs | logspam/logs.py:57-77 | the loop over the logs computes `AttributeAll`, including the error for a missing file |
| Attribution.FindTestsWithText | assertion_length.py:17-34 | the per-test counts are those of the cursor scan, listed by non-increasing count |
| Logs.BranchPathIntegration | logspam/logs.py:18-23 | the four integration repositories map to `integration/<name>`; every other name maps to itself |
| Logs.RoundHundreds | logspam/logs.py:96 | the rounded count is a multiple of 100 within 50 of the count |
| Logs.MostCommonN | logspam/logs.py:114 | `most_common(n)` is the first `n` entries of the listing, none for `n <= 0` |
| Logs.MostCommonLength | logspam/logs.py:112 | a `most_common()` listing has one entry per test |
| Logs.WarningInfo.constructor | logspam/logs.py:34-48 | message, file and line come from the warning's shape; a warning without it is its own message, from `none`, line 0; no jobs or tests |
| Logs.WarningInfo.MatchInLogs | logspam/logs.py:50-87 | the job and test counts become those of `AttributeAll`, or the missing file is reported |
| Logs.WarningInfo.Details | logspam/logs.py:89-120 | the report carries the rounded and exact count, the text, the jobs by count, the number of tests and the first `n` of them, and the annotation link through `BRANCH_MAP` |
| Logs.JobName | logspam/logs.py:128-131 | the job name is the type name, followed by a space and the symbol when there is one |
| Logs.DownloadLog | logspam/logs.py:122-146 | no log without a url or when every download attempt fails; otherwise a fresh log named after the job, counted from the cache file or the first successful attempt |
| Report.SliceTo | logspam/report.py:44 | `l[:n]` is a prefix of `n` entries (Python's meaning for negative `n`) |
| Report.ReverseSliceTo | logspam/report.py:42 | `l[:stop:-1]` lists entries from the last one backwards, stopping just before index `stop` (counted from the end when negative), so it holds `n - 1 - stop` entries for a `stop` inside the list |
| Report.LeastCommonAsWrittenShort | logspam/report.py:42 | as written, asking for the `k` least common of `n` warnings lists `k - 1` when `1 <= k <= n`, all `n` when `k > n`, and `n - 1` when `k` is 0 |
| Report.LeastCommonLast | logspam/report.py:41-42 | the intended reverse listing is the last `min(k, n)` entries, last first |
| Report.LeastCommonAscending | logspam/report.py:39-42 | the intended reverse listing is in ascending count order |
| Report.NewWarnings | logspam/report.py:28-30 | when `retrieve_test_logs` returns `None` the list comprehension fails with `TypeError`; otherwise a new `Warnings` over the retrieved list |
| Report.Warnings.constructor | logspam/report.py:17-34 | the cache directory defaults to `<repo>-<revision>-<platform>`; each merged count is the sum over the retrieved logs |
| Report.Warnings.Top | logspam/report.py:36-49 | the listing is the first `n` of a `most_common()` listing (with `reverse`, the intended least common ones), and the total is the sum of all counts |
| Report.Warnings.Details | logspam/report.py:51-67 | a warning not matching the pattern is refused first; a missing cache file is reported; a warning never seen raises `WarningNotFoundException`; otherwise the report on this revision's platform, with the exact and rounded count, the message and file from the warning's shape (or the whole warning and `none`), the jobs by count, the number of tests and the first `n` of a `most_common()` listing of them, and the annotation link through `BRANCH_MAP` |
| Bisect.NewRunner | logspam/bisect.py:178-187 | the runner keeps its settings; a missing required test becomes the empty one |
| Bisect.LineStrippedOf | logspam/bisect.py:242 | a warning ending in `, line N` (and maybe a newline) loses exactly that suffix |
| Bisect.LineStrippedShape | logspam/bisect.py:242 | whatever is accepted is a stem without newlines, `, line `, digits and at most a final newline |
| Bisect.LineMoveSameStem | logspam/bisect.py:241-247 | the same warning on another line has the same stem |
| Bisect.LineMoveKeepsTotal | logspam/bisect.py:244-247 | moving a count to another line number keeps the stem's total |
| Bisect.FoundTestSome | logspam/bisect.py:234-239 | the required test is found exactly when some retrieved job's name contains it |
| Bisect.EmptyRequiredTest | logspam/bisect.py:187 | with no required test any retrieved log will do |
| Bisect.SkipBelowFloor | logspam/bisect.py:228-231 | fewer than 20 jobs, failed ones included: skip, whatever the counts |
| Bisect.SkipWithoutRequiredTest | logspam/bisect.py:253-256 | without the required test: skip, even over the limit |
| Bisect.VerdictThreshold | logspam/bisect.py:258-263 | otherwise bad exactly when the total is over the limit, and good exactly when it is not |
| Bisect.ExactTotal | logspam/bisect.py:250 | without `ignore_lines` the total is the sum of the warning's counts over the logs |
| Bisect.CombinedSame | logspam/bisect.py:233-237 | the merged counter does not depend on the order of the jobs |
| Bisect.FoundTestSame | logspam/bisect.py:234-239 | whether the required test ran does not depend on the order of the jobs |
| Bisect.EvaluationPermutation | logspam/bisect.py:220-263 | the verdict does not depend on the order of the jobs |
| Bisect.SumWithPrefix | logspam/bisect.py:244-247 | the loop sums the counts of exactly the keys starting with the stem |
| Bisect.Evaluate | logspam/bisect.py:220-263 | `evaluate` computes `Evaluation`, including the error for a warning without a line number |
| Bisect.RunOnce | logspam/bisect.py:265-266 | 0 exactly for a good build, 1 for bad or skipped |
| Bisect.AnyAbove | logspam/bisect.py:205-210 | the loop finds a key with the stem over the limit exactly when there is one |
| Bisect.CheckForMove | logspam/bisect.py:189-218 | `check_for_move` computes `MoveCheck`: false with `ignore_lines`, errors for a missing changeset, logs or line number |
| Bisect.MoveCheckFound | logspam/bisect.py:200-210 | a move is reported exactly when some key with the stem has a summed count over the limit |
| Bisect.DigitsGroup | logspam/bisect.py:54 | the digits group starts right after the letters, or after one `-` following them; it is there exactly when a digit stands at that place, and then it is the whole run of digits |
| Bisect.PlatformConfig | logspam/bisect.py:54-66 | no letters first is an error; the word size is 64 exactly when `64` occurs in the name, else 32; the system is `win` or the leading letters |
| Bisect.PlatformQuirkHarmless | logspam/bisect.py:55-63 | comparing the digits group with strings or numbers gives the same mapping |
| Bisect.InboundAsWritten | logspam/bisect.py:113 | changeset bisection as written always fails with a `NameError` |
| Bisect.InboundAsWrittenNeverBisects | logspam/bisect.py:110-114 | as written, even a run ready to hand over fails |
| Bisect.InboundStopsAt | logspam/bisect.py:115-126 | the intended cascade stops at the first round that does not hand over, on the branch handed over to |
| Bisect.InboundExhausted | logspam/bisect.py:119-124 | if every round hands over, the reports run out |
| Bisect.Bisect | logspam/bisect.py:83-94 | `bisect` is the bisection, with the corrected changeset step, followed by the move check at the good revision |
| Bisect.UnfinishedNightly | logspam/bisect.py:96-108 | an unfinished nightly run gives no range, and the move check then fails on `None[:12]` unless lines are ignored |
| Legacy.LegacyFileName | treeherder.py:119-125 | the default file name is the job name with spaces as `_` and `.log` appended, without a basename step |
| Legacy.LegacyLog.constructor | treeherder.py:119-127 | url and job name are kept, the file name is the given one or the default, and there are no counts |
| Legacy.LegacyLog.AddWarning | treeherder.py:142-147 | a line containing `WARNING` anywhere counts once more; nothing else changes |
| Legacy.LegacyLog.Download | treeherder.py:129-140 | empty lines are skipped; the others are normalised, counted and written |
| Legacy.LegacyDownloadCounts | treeherder.py:136-147 | a downloaded log counts each normalised line containing `WARNING` as often as it occurs, and nothing else |
| Legacy.LegacyDownloadLog | treeherder.py:161-177 | the job name is the type name alone, and the log is always downloaded |
| Legacy.LegacyFromJson | treeherder.py:208-209 | the log read back has the record's fields and counts |
| Legacy.NullRecordFails | treeherder.py:207-209 | a null record makes reading fail |
| Legacy.NoNullSucceedsOrFails | treeherder.py:205-210 | reading fails exactly when some record is null, and then with `TypeError` |
| Legacy.LegacyResultsRoundTrip | treeherder.py:199-212 | logs written and read back come back in order |
| Legacy.ReadCachedResults | treeherder.py:199-212 | a missing or unparsable file and a null record are errors; otherwise the logs of the records |
| Legacy.MergeAll | treeherder.py:276-278 | each merged count is the sum over all logs |
| Legacy.RoundDownHundreds | treeherder.py:92 | the printed count is the largest multiple of 100 not above the count |
| Legacy.StrictWarningInfo | treeherder.py:41-50 | message, file and line come from the warning's shape, which must be present |
| Legacy.PrintDetails | treeherder.py:91-112 | the report on `linux64`, rounded down, with the repository name used as it is in the link |

## Left out

- Network access (`requests`, `TreeherderClient`), `retrieve_test_logs` and
  the worker pool are outside the model. The logs of a revision, the lines
  of a stream and the outcome of each download attempt are inputs.
- Directory creation and removal, file reads and writes, `json.load`,
  `json.dump`, `hashlib.md5` and UTF-8 decoding are outside the model.
  A cache file is its text, split into lines at `\n`, `\r` and `\r\n`
  as `io.open` reads it; the cache files that `match_in_logs` reads are
  given as their lines. JSON unwrapping and the digest are function
  parameters.
- The general regular-expression engine is outside the model. A
  user-supplied `warning_re` is an abstract predicate. The shape pattern
  of `WarningInfo` is an abstract function giving the message, file and
  line, or nothing.
- `Attribution.MatchInLogs` does not model the swallowed exception for
  unreadable unicode lines (`logspam/logs.py:78-82`), since strings here
  are sequences of characters.
- `Counters.SortedByCount` fixes one order for warnings of equal count.
  `most_common()` leaves that order to the dictionary, so every other
  contract only asks for a listing satisfying `IsMostCommon`.
- `Bisect.Bisect`: the mozregression search itself (`Bisector`,
  `NightlyHandler`, `IntegrationHandler`, `create_config`, `parse_date`,
  `JsonPushes`) is not part of this model. What each bisector run reports
  is an input.
- `Cache.CacheFileRoundTrip` and `Cache.DownloadThenCached` hold only when
  no normalised line holds a line break. The JSON payload of a log line
  may contain one, and normalisation keeps it; `Cache.CachedLineSplits`
  shows how the counts of a later run then differ.
- `Logs.WarningInfo.MatchInLogs` leaves the job and test counts unchanged
  when a cache file is missing. The source has by then credited the logs
  before it, but the `IOError` ends the report and the object is not used
  again.
- `Report.Warnings.Top` follows the corrected reverse listing
  `Report.LeastCommon`, not the one `logspam/report.py:42` computes (see
  Findings); `Report.LeastCommonAsWritten` is the listing as written.
- `Bisect.Bisect` and `Bisect.Bisection` follow the corrected changeset
  bisection `Bisect.Inbound`. As written, `logspam/bisect.py:113` raises
  `NameError` on every changeset bisection and every nightly bisection
  that finishes (see Findings); `Bisect.InboundAsWritten` is that
  behaviour.
- `Legacy.StrictWarningInfo` requires the warning to have the shape. The
  source raises `AttributeError` on any other warning.
- Printing, the `'{:,}'` formatting and the text of the bug report are
  outside the model. The report is a record of the values it shows.
- The command-line glue is outside the model. That covers `cli.py`,
  `cli_entry.py`, `mach_interface.py`, `bugzilla.py`, `setup.py`, the
  `add_arguments` functions and `main` apart from its merge loop.
- The floating-point arithmetic of `round` is computed exactly on
  integers.

## Findings

| source | as written | input that shows it | evidently intended | confidence | as-written member | corrected member |
|---|---|---|---|---|---|---|
| logspam/report.py:42 | `most_common[:-warning_count:-1]` stops one entry short | 3 warnings, `warning_count` 2: one warning is listed; one warning, `warning_count` 1: none | the `warning_count` least common warnings, least first | high, not executed | Report.LeastCommonAsWrittenShort | Report.LeastCommonLast |
| logspam/bisect.py:113 | `InboundHandler()` names a class that is never imported (line 12 imports `IntegrationHandler`) | any changeset range, or any nightly bisection that finishes | bisect by changeset with the imported `IntegrationHandler` | high, not executed | Bisect.InboundAsWrittenNeverBisects | Bisect.InboundStopsAt |
