/** The bisection oracle: the verdict on one build from the warning counts
    of its jobs, the check for a warning that moved lines, the mapping of a
    platform name to an operating system and word size, and the cascade
    from nightly to changeset bisection. The bisector's own search is
    outside the model: what each of its runs reports is an input. */
module Bisect {
  import opened Wrappers
  import opened Text
  import opened Counters
  import opened Cache
  import opened Evidence

  /** `'g'`, `'b'` and `'s'`. */
  datatype Verdict = Good | Bad | Skip

  /** The exceptions the bisection code runs into:
      - `NoLineNumber`: the warning has no `, line N` suffix, so `.group(1)`
        is called on `None` (`AttributeError`);
      - `NoLogs`: the retrieval returned `None` and it is iterated
        (`TypeError`);
      - `NoChangeset`: `None[:12]` (`TypeError`);
      - `NoPlatformOs`: the platform does not start with a letter, so
        `.groups()` is called on `None` (`AttributeError`);
      - `UndefinedHandler`: `InboundHandler` is not defined (`NameError`);
      - `RoundsExhausted`: the bisector's reports ran out before the
        cascade stopped. */
  datatype BisectError =
    | NoLineNumber
    | NoLogs
    | NoChangeset
    | NoPlatformOs
    | UndefinedHandler
    | RoundsExhausted

  /** The fewest jobs a build must have for a verdict. */
  const MinJobs: nat := 20

  /** `WarningTestRunner`'s settings. */
  datatype Runner = Runner(
    warning: string, platform: string, ignoreLines: bool,
    warningRe: string, warningLimit: int, requiredTest: string)

  /** `WarningTestRunner(...)`: a missing required test is the empty one. */
  function NewRunner(warning: string, platform: string, ignoreLines: bool, warningRe: string,
                     warningLimit: int, requiredTest: Option<string>): (r: Runner)
    ensures r.warning == warning && r.platform == platform && r.ignoreLines == ignoreLines
    ensures r.warningRe == warningRe && r.warningLimit == warningLimit
    ensures r.requiredTest == [] <==> requiredTest.None? || requiredTest.value == []
    ensures requiredTest.Some? ==> r.requiredTest == requiredTest.value
  {
    Runner(warning, platform, ignoreLines, warningRe, warningLimit,
           if requiredTest.Some? then requiredTest.value else "")
  }

  // ---------------------------------------------------------------------
  // Line numbers

  const LineMarker := ", line "

  /** The number of digits at the end of `s`. */
  function TrailingDigits(s: string): (n: nat)
    ensures n <= |s|
    ensures forall i :: |s| - n <= i < |s| ==> IsDigit(s[i])
    ensures n < |s| ==> !IsDigit(s[|s| - n - 1])
  {
    if s == [] || !IsDigit(s[|s| - 1]) then 0 else 1 + TrailingDigits(s[..|s| - 1])
  }

  /** What `.*` can match: no newline. */
  predicate NoNewline(s: string) {
    forall i :: 0 <= i < |s| ==> s[i] != '\n'
  }

  /** `re.match(r'^(.*), line [0-9]+$', warning).group(1)`: the warning
      without its `, line N` suffix. The `$` also matches before a final
      newline, and `.` matches anything but a newline. */
  function LineStripped(w: string): Option<string> {
    var body := if w != [] && w[|w| - 1] == '\n' then w[..|w| - 1] else w;
    var d := TrailingDigits(body);
    var cut := |body| - d - |LineMarker|;
    if d > 0 && cut >= 0 && body[cut..|body| - d] == LineMarker && NoNewline(body[..cut])
    then Some(body[..cut])
    else None
  }

  /** A warning with a line number loses exactly its `, line N` suffix
      (and the final newline, if any). */
  lemma {:induction false} LineStrippedOf(stem: string, digits: string, newline: bool)
    requires NoNewline(stem)
    requires digits != [] && forall i :: 0 <= i < |digits| ==> IsDigit(digits[i])
    ensures LineStripped(stem + LineMarker + digits + (if newline then "\n" else "")) == Some(stem)
  {
    var w := stem + LineMarker + digits + (if newline then "\n" else "");
    var body := stem + LineMarker + digits;
    LineBodyParts(stem, digits, newline);
    TrailingDigitsOf(stem + LineMarker, digits);
    LineStrippedSteps(w, body, |digits|, |stem|);
  }

  /** The pieces of a warning with a line number. */
  lemma {:induction false} LineBodyParts(stem: string, digits: string, newline: bool)
    requires digits != [] && forall i :: 0 <= i < |digits| ==> IsDigit(digits[i])
    ensures var w := stem + LineMarker + digits + (if newline then "\n" else "");
      var body := stem + LineMarker + digits;
      && (if w != [] && w[|w| - 1] == '\n' then w[..|w| - 1] else w) == body
      && body[|stem|..|stem| + |LineMarker|] == LineMarker
      && body[..|stem|] == stem
  {
    var w := stem + LineMarker + digits + (if newline then "\n" else "");
    var body := stem + LineMarker + digits;
    assert body[|stem|..|stem| + |LineMarker|] == LineMarker;
    assert body[..|stem|] == stem;
    if newline {
      assert w[..|w| - 1] == body;
    } else {
      assert w == body;
    }
  }

  /** `LineStripped` on a warning whose pieces are known. */
  lemma {:induction false} LineStrippedSteps(w: string, body: string, d: nat, cut: nat)
    requires body == if w != [] && w[|w| - 1] == '\n' then w[..|w| - 1] else w
    requires d == TrailingDigits(body) && d > 0 && cut + |LineMarker| + d == |body|
    requires body[cut..|body| - d] == LineMarker && NoNewline(body[..cut])
    ensures LineStripped(w) == Some(body[..cut])
  {
  }

  /** Digits after a non-digit are exactly the trailing digits. */
  lemma {:induction false} TrailingDigitsOf(head: string, digits: string)
    requires head != [] && !IsDigit(head[|head| - 1])
    requires forall i :: 0 <= i < |digits| ==> IsDigit(digits[i])
    ensures TrailingDigits(head + digits) == |digits|
    decreases |digits|
  {
    if digits == [] {
      assert head + digits == head;
    } else {
      var n := |digits| - 1;
      assert (head + digits)[..|head + digits| - 1] == head + digits[..n];
      TrailingDigitsOf(head, digits[..n]);
    }
  }

  /** Conversely, whatever `LineStripped` accepts is a stem without
      newlines, `, line `, at least one digit and at most a final newline. */
  lemma {:induction false} LineStrippedShape(w: string)
    requires LineStripped(w).Some?
    ensures var stem := LineStripped(w).value;
      var rest := w[|stem| + |LineMarker|..];
      && stem + LineMarker <= w
      && NoNewline(stem)
      && rest != [] && IsDigit(rest[0])
      && forall i :: 0 <= i < |rest| ==> IsDigit(rest[i]) || (i == |rest| - 1 && rest[i] == '\n')
  {
    var body := if w != [] && w[|w| - 1] == '\n' then w[..|w| - 1] else w;
    var d := TrailingDigits(body);
    var cut := |body| - d - |LineMarker|;
    assert LineStripped(w) == Some(body[..cut]);
    ShapeOfPieces(w, body, d, cut);
  }

  /** The shape of a warning from the pieces `LineStripped` found in it. */
  lemma {:induction false} ShapeOfPieces(w: string, body: string, d: nat, cut: nat)
    requires body == if w != [] && w[|w| - 1] == '\n' then w[..|w| - 1] else w
    requires d <= |body| && d > 0 && cut + |LineMarker| + d == |body|
    requires forall i :: |body| - d <= i < |body| ==> IsDigit(body[i])
    requires body[cut..|body| - d] == LineMarker && NoNewline(body[..cut])
    ensures var rest := w[cut + |LineMarker|..];
      && body[..cut] + LineMarker <= w
      && rest != [] && IsDigit(rest[0])
      && forall i :: 0 <= i < |rest| ==> IsDigit(rest[i]) || (i == |rest| - 1 && rest[i] == '\n')
  {
    var stem := body[..cut];
    assert body <= w;
    assert w[..cut + |LineMarker|] == body[..cut + |LineMarker|] == stem + body[cut..cut + |LineMarker|];
    var rest := w[cut + |LineMarker|..];
    assert forall i :: 0 <= i < d ==> rest[i] == body[|body| - d + i];
    assert |rest| == d || (|rest| == d + 1 && rest[d] == '\n');
  }

  /** The same warning on another line keeps its stem. */
  lemma {:induction false} LineMoveSameStem(stem: string, from: string, to: string)
    requires NoNewline(stem)
    requires from != [] && forall i :: 0 <= i < |from| ==> IsDigit(from[i])
    requires to != [] && forall i :: 0 <= i < |to| ==> IsDigit(to[i])
    ensures LineStripped(stem + LineMarker + from) == LineStripped(stem + LineMarker + to) == Some(stem)
  {
    LineStrippedOf(stem, from, false);
    LineStrippedOf(stem, to, false);
    assert stem + LineMarker + from + "" == stem + LineMarker + from;
    assert stem + LineMarker + to + "" == stem + LineMarker + to;
  }

  /** Moving a warning's count from one line number to another (a key with
      the same stem that was not there) keeps the total over the stem. */
  lemma {:induction false} LineMoveKeepsTotal(c: Counter, stem: string, from: string, to: string)
    requires stem <= from && stem <= to && from in c && to !in c
    ensures PrefixTotal((c - {from})[to := c[from]], stem) == PrefixTotal(c, stem)
  {
    var c' := (c - {from})[to := c[from]];
    var s := set k | k in c && stem <= k;
    var s' := set k | k in c' && stem <= k;
    SumOfRemove(c, s, from);
    SumOfRemove(c', s', to);
    assert s' - {to} == s - {from};
    SumOfExt(c, c', s - {from});
  }

  // ---------------------------------------------------------------------
  // The verdict on one build

  /** `found_test`: some retrieved log's job name contains the required
      test. */
  function FoundTest(files: seq<Option<Log>>, required: string): bool {
    if files == [] then false
    else
      var n := |files| - 1;
      FoundTest(files[..n], required) || (files[n].Some? && Contains(files[n].value.jobName, required))
  }

  /** The required test is found exactly when some retrieved job's name
      contains it. */
  lemma {:induction false} FoundTestSome(files: seq<Option<Log>>, required: string)
    ensures FoundTest(files, required) <==>
      exists i :: 0 <= i < |files| && files[i].Some? && Contains(files[i].value.jobName, required)
    decreases |files|
  {
    if files != [] {
      var n := |files| - 1;
      FoundTestSome(files[..n], required);
      if exists i :: 0 <= i < |files| && files[i].Some? && Contains(files[i].value.jobName, required) {
        var i :| 0 <= i < |files| && files[i].Some? && Contains(files[i].value.jobName, required);
        if i < n {
          assert files[..n][i] == files[i];
        }
      }
      if FoundTest(files[..n], required) {
        var i :| 0 <= i < n && files[..n][i].Some? && Contains(files[..n][i].value.jobName, required);
        assert files[i] == files[..n][i];
      }
    }
  }

  /** With no required test, any retrieved log will do. */
  lemma {:induction false} EmptyRequiredTest(files: seq<Option<Log>>)
    ensures FoundTest(files, "") <==> exists i :: 0 <= i < |files| && files[i].Some?
  {
    FoundTestSome(files, "");
    forall s: string ensures Contains(s, "") {
      assert OccursAt(s, "", 0);
    }
  }

  /** The count the verdict is about: the warning's own count, or with
      `ignore_lines` the counts of all keys starting with its stem. */
  ghost function WarningTotal(r: Runner, c: Counter): Result<nat, BisectError> {
    if !r.ignoreLines then Success(Get(c, r.warning))
    else match LineStripped(r.warning) {
      case None => Failure(NoLineNumber)
      case Some(stem) => Success(PrefixTotal(c, stem))
    }
  }

  /** `evaluate`: skip a build with fewer than `MinJobs` jobs (failed
      downloads count) or none at all, or one in which the required test did
      not run; otherwise bad exactly when the total is over the limit. */
  ghost function Evaluation(r: Runner, files: Option<seq<Option<Log>>>): Result<Verdict, BisectError> {
    if files.None? || |files.value| < MinJobs then Success(Skip)
    else match WarningTotal(r, Combined(files.value)) {
      case Failure(e) => Failure(e)
      case Success(total) =>
        if !FoundTest(files.value, r.requiredTest) then Success(Skip)
        else if total > r.warningLimit then Success(Bad)
        else Success(Good)
    }
  }

  /** Too few jobs: skipped, whatever the counts. */
  lemma {:induction false} SkipBelowFloor(r: Runner, files: seq<Option<Log>>)
    requires |files| < MinJobs
    ensures Evaluation(r, Some(files)) == Success(Skip)
  {
  }

  /** Without the required test the build is skipped, even over the
      limit. */
  lemma {:induction false} SkipWithoutRequiredTest(r: Runner, files: seq<Option<Log>>)
    requires |files| >= MinJobs && WarningTotal(r, Combined(files)).Success?
    requires forall i :: 0 <= i < |files| && files[i].Some? ==> !Contains(files[i].value.jobName, r.requiredTest)
    ensures Evaluation(r, Some(files)) == Success(Skip)
  {
    FoundTestSome(files, r.requiredTest);
  }

  /** Otherwise the build is bad exactly when the total is over the limit,
      and good exactly when it is not. */
  lemma {:induction false} VerdictThreshold(r: Runner, files: seq<Option<Log>>, total: nat)
    requires |files| >= MinJobs && WarningTotal(r, Combined(files)) == Success(total)
    requires exists i :: 0 <= i < |files| && files[i].Some? && Contains(files[i].value.jobName, r.requiredTest)
    ensures Evaluation(r, Some(files)) == Success(Bad) <==> total > r.warningLimit
    ensures Evaluation(r, Some(files)) == Success(Good) <==> total <= r.warningLimit
  {
    FoundTestSome(files, r.requiredTest);
  }

  /** The exact total is the sum of the warning's counts over the retrieved
      logs. */
  lemma {:induction false} ExactTotal(r: Runner, files: seq<Option<Log>>)
    requires !r.ignoreLines
    ensures WarningTotal(r, Combined(files)) == Success(SumCounts(files, r.warning))
  {
    CombinedGet(files, r.warning);
  }

  /** The merged counter does not depend on the order of the jobs. */
  lemma {:induction false} CombinedSame(files: seq<Option<Log>>, files': seq<Option<Log>>)
    requires multiset(files) == multiset(files')
    ensures Combined(files) == Combined(files')
  {
    var a, b := Combined(files), Combined(files');
    forall k ensures k in a <==> k in b {
      CombinedKeys(files, k);
      CombinedKeys(files', k);
      if k in a {
        var i :| 0 <= i < |files| && files[i].Some? && k in files[i].value.warnings;
        assert files[i] in multiset(files');
        var j :| 0 <= j < |files'| && files'[j] == files[i];
      }
      if k in b {
        var j :| 0 <= j < |files'| && files'[j].Some? && k in files'[j].value.warnings;
        assert files'[j] in multiset(files);
        var i :| 0 <= i < |files| && files[i] == files'[j];
      }
    }
    forall k | k in a ensures a[k] == b[k] {
      CombinedPermutation(files, files', k);
    }
  }

  /** Whether the required test ran does not depend on the order of the
      jobs. */
  lemma {:induction false} FoundTestSame(files: seq<Option<Log>>, files': seq<Option<Log>>, required: string)
    requires multiset(files) == multiset(files')
    ensures FoundTest(files, required) == FoundTest(files', required)
  {
    FoundTestSome(files, required);
    FoundTestSome(files', required);
    if FoundTest(files, required) {
      var i :| 0 <= i < |files| && files[i].Some? && Contains(files[i].value.jobName, required);
      assert files[i] in multiset(files');
      var j :| 0 <= j < |files'| && files'[j] == files[i];
    }
    if FoundTest(files', required) {
      var j :| 0 <= j < |files'| && files'[j].Some? && Contains(files'[j].value.jobName, required);
      assert files'[j] in multiset(files);
      var i :| 0 <= i < |files| && files[i] == files'[j];
    }
  }

  /** The verdict does not depend on the order in which the jobs were
      listed. */
  lemma {:induction false} EvaluationPermutation(r: Runner, files: seq<Option<Log>>, files': seq<Option<Log>>)
    requires multiset(files) == multiset(files')
    ensures Evaluation(r, Some(files)) == Evaluation(r, Some(files'))
  {
    assert |files| == |multiset(files)| == |files'|;
    CombinedSame(files, files');
    FoundTestSame(files, files', r.requiredTest);
  }

  /** One step of the sum over the keys with a given stem. */
  lemma {:induction false} PrefixStep(c: Counter, rest: set<string>, stem: string, k: string)
    requires k in rest && rest <= c.Keys
    ensures SumOf(c, set j | j in c.Keys - (rest - {k}) && stem <= j)
         == SumOf(c, set j | j in c.Keys - rest && stem <= j) + (if stem <= k then c[k] else 0)
  {
    var before := set j | j in c.Keys - rest && stem <= j;
    var after := set j | j in c.Keys - (rest - {k}) && stem <= j;
    if stem <= k {
      assert after - {k} == before;
      SumOfRemove(c, after, k);
    } else {
      assert after == before;
    }
  }

  /** `for (k, v) in combined.items(): if k.startswith(stem): total += v` */
  method SumWithPrefix(c: Counter, stem: string) returns (total: nat)
    ensures total == PrefixTotal(c, stem)
  {
    total := 0;
    var rest := c.Keys;
    while rest != {}
      invariant rest <= c.Keys
      invariant total == SumOf(c, set j | j in c.Keys - rest && stem <= j)
      decreases rest
    {
      var k :| k in rest;
      PrefixStep(c, rest, stem, k);
      if stem <= k {
        total := total + c[k];
      }
      rest := rest - {k};
    }
    assert (set j | j in c.Keys - rest && stem <= j) == set j | j in c && stem <= j;
  }

  /** `evaluate` */
  method Evaluate(r: Runner, files: Option<seq<Option<Log>>>) returns (v: Result<Verdict, BisectError>)
    ensures v == Evaluation(r, files)
  {
    if files.None? || |files.value| < MinJobs {
      return Success(Skip);
    }
    var logs := files.value;
    var combined: Counter := map[];
    var found := false;
    var i := 0;
    while i < |logs|
      invariant i <= |logs|
      invariant combined == Combined(logs[..i])
      invariant found == FoundTest(logs[..i], r.requiredTest)
    {
      assert logs[..i + 1][..i] == logs[..i];
      if logs[i].Some? {
        combined := Update(combined, logs[i].value.warnings);
        if !found {
          found := Contains(logs[i].value.jobName, r.requiredTest);
        }
      }
      i := i + 1;
    }
    assert logs[..i] == logs;
    var total: nat;
    if r.ignoreLines {
      var stem := LineStripped(r.warning);
      if stem.None? {
        return Failure(NoLineNumber);
      }
      total := SumWithPrefix(combined, stem.value);
    } else {
      total := Get(combined, r.warning);
    }
    if !found {
      return Success(Skip);
    }
    if total > r.warningLimit {
      return Success(Bad);
    }
    return Success(Good);
  }

  /** `run_once`: 0 for a good build, 1 for a bad or skipped one. */
  method RunOnce(r: Runner, files: Option<seq<Option<Log>>>) returns (code: Result<nat, BisectError>)
    ensures code.Success? <==> Evaluation(r, files).Success?
    ensures code == Success(0) <==> Evaluation(r, files) == Success(Good)
    ensures code.Success? ==> code.value <= 1
  {
    var v := Evaluate(r, files);
    match v {
      case Success(verdict) =>
        code := Success(if verdict == Good then 0 else 1);
      case Failure(e) =>
        code := Failure(e);
    }
  }

  // ---------------------------------------------------------------------
  // Moved warnings

  /** Some key with the warning's stem is over the limit. */
  ghost predicate MoveFound(c: Counter, stem: string, limit: int) {
    exists k :: k in c && stem <= k && c[k] > limit
  }

  /** `check_for_move` on the changeset `changeset` whose logs are
      `files`. */
  ghost function MoveCheck(r: Runner, changeset: Option<string>, files: Option<seq<Option<Log>>>): Result<bool, BisectError> {
    if r.ignoreLines then Success(false)
    else if changeset.None? then Failure(NoChangeset)
    else if files.None? then Failure(NoLogs)
    else match LineStripped(r.warning) {
      case None => Failure(NoLineNumber)
      case Some(stem) => Success(MoveFound(Combined(files.value), stem, r.warningLimit))
    }
  }

  /** The loop over `combined_warnings.items()` that looks for a key with
      the stem over the limit. */
  method AnyAbove(c: Counter, stem: string, limit: int) returns (found: bool)
    ensures found == MoveFound(c, stem, limit)
  {
    found := false;
    var rest := c.Keys;
    while rest != {}
      invariant rest <= c.Keys
      invariant found <==> exists k :: k in c.Keys - rest && stem <= k && c[k] > limit
      decreases rest
    {
      var k :| k in rest;
      if stem <= k && c[k] > limit {
        found := true;
      }
      rest := rest - {k};
    }
  }

  /** `check_for_move` */
  method CheckForMove(r: Runner, changeset: Option<string>, files: Option<seq<Option<Log>>>)
    returns (v: Result<bool, BisectError>)
    ensures v == MoveCheck(r, changeset, files)
  {
    if r.ignoreLines {
      return Success(false);
    }
    if changeset.None? {
      return Failure(NoChangeset);
    }
    if files.None? {
      return Failure(NoLogs);
    }
    var combined := Combine(files.value);
    var stem := LineStripped(r.warning);
    if stem.None? {
      return Failure(NoLineNumber);
    }
    var found := AnyAbove(combined, stem.value, r.warningLimit);
    v := Success(found);
  }

  /** A move is reported exactly when some key with the warning's stem has
      a merged count over the limit. */
  lemma {:induction false} MoveCheckFound(r: Runner, changeset: string, files: seq<Option<Log>>, stem: string)
    requires !r.ignoreLines && LineStripped(r.warning) == Some(stem)
    ensures MoveCheck(r, Some(changeset), Some(files)) == Success(true) <==>
      exists k :: k in Combined(files) && stem <= k && SumCounts(files, k) > r.warningLimit
  {
    var c := Combined(files);
    if MoveFound(c, stem, r.warningLimit) {
      var k :| k in c && stem <= k && c[k] > r.warningLimit;
      CombinedGet(files, k);
    }
    if exists k :: k in c && stem <= k && SumCounts(files, k) > r.warningLimit {
      var k :| k in c && stem <= k && SumCounts(files, k) > r.warningLimit;
      CombinedGet(files, k);
      assert c[k] > r.warningLimit;
    }
  }

  // ---------------------------------------------------------------------
  // Platforms

  /** What `create_config` is given: the operating system and word size. */
  datatype Platform = Platform(os: string, bits: nat)

  /** The optional digits group of `([a-zA-Z]+)-?([0-9]+)?` after the `n`
      leading letters: it starts right after them, or after one `-` that
      follows them, and takes the whole run of digits there; there is none
      when no digit stands at that place. */
  function DigitsGroup(platform: string, n: nat): (g: Option<string>)
    requires n <= |platform|
    ensures g.Some? ==> g.value != [] && forall i :: 0 <= i < |g.value| ==> IsDigit(g.value[i])
    ensures g.Some? ==> exists d :: n <= d && OccursAt(platform, g.value, d)
    ensures var d := if n < |platform| && platform[n] == '-' then n + 1 else n;
      g.Some? <==> d < |platform| && IsDigit(platform[d])
    ensures var d := if n < |platform| && platform[n] == '-' then n + 1 else n;
      g.Some? ==> (OccursAt(platform, g.value, d)
                   && (d + |g.value| == |platform| || !IsDigit(platform[d + |g.value|])))
  {
    var d := if n < |platform| && platform[n] == '-' then n + 1 else n;
    var m := Span(platform[d..], IsDigit);
    if m == 0 then None
    else
      var g := platform[d..d + m];
      assert forall i :: 0 <= i < m ==> g[i] == platform[d..][i];
      assert OccursAt(platform, g, d);
      Some(g)
  }

  /** The platform mapping of `WarningBisector.__init__`: the leading
      letters name the system (`win` for any Windows), and the word size is
      64 exactly when `64` occurs in the platform name. The digits group is
      a string, never one of the integers 32 and 64, so it never decides
      the word size itself. */
  function PlatformConfig(platform: string): (r: Result<Platform, BisectError>)
    ensures r.Failure? <==> platform == [] || !IsLetter(platform[0])
    ensures r.Success? ==> (r.value.bits == 64 <==> Contains(platform, "64"))
    ensures r.Success? ==> r.value.bits == 64 || r.value.bits == 32
    ensures r.Success? && "win" <= platform ==> r.value.os == "win"
    ensures r.Success? && !("win" <= platform) ==>
      && r.value.os != [] && r.value.os <= platform
      && (forall i :: 0 <= i < |r.value.os| ==> IsLetter(r.value.os[i]))
      && (|r.value.os| < |platform| ==> !IsLetter(platform[|r.value.os|]))
  {
    var n := Span(platform, IsLetter);
    if n == 0 then Failure(NoPlatformOs)
    else
      var os := platform[..n];
      var bits := if Contains(platform, "64") then 64 else 32;
      if "win" <= platform then
        assert "win" <= os;
        Success(Platform("win", bits))
      else
        Success(Platform(os, bits))
  }

  /** The mapping with the digits group compared as a number: a group of 32
      or 64 sets the word size before the `64` test. */
  function PlatformConfigNumeric(platform: string): Result<Platform, BisectError> {
    var n := Span(platform, IsLetter);
    if n == 0 then Failure(NoPlatformOs)
    else
      var os := platform[..n];
      var group := DigitsGroup(platform, n);
      var parsed := if group.Some? then DigitsValue(group.value) else 0;
      var bits0 := if parsed == 32 || parsed == 64 then parsed else 32;
      var bits := if Contains(platform, "64") then 64 else bits0;
      Success(Platform(if "win" <= os then "win" else os, bits))
  }

  /** A run of digits worth 64 ends in `64`. */
  lemma {:induction false} DigitsSixtyFour(s: string)
    requires forall i :: 0 <= i < |s| ==> IsDigit(s[i])
    requires DigitsValue(s) == 64
    ensures |s| >= 2 && s[|s| - 2..] == "64"
  {
    var n := |s| - 1;
    var p := s[..n];
    var last := s[n] as int - '0' as int;
    assert 10 * DigitsValue(p) + last == 64;
    assert DigitsValue(p) == 6 && last == 4;
    var q := p[..|p| - 1];
    var lastP := p[|p| - 1] as int - '0' as int;
    assert 10 * DigitsValue(q) + lastP == 6;
    assert lastP == 6;
  }

  /** Comparing the digits group with strings or numbers makes no
      difference: a group worth 64 puts `64` in the name anyway. */
  lemma {:induction false} PlatformQuirkHarmless(platform: string)
    ensures PlatformConfigNumeric(platform) == PlatformConfig(platform)
  {
    var n := Span(platform, IsLetter);
    if n > 0 {
      var group := DigitsGroup(platform, n);
      if group.Some? && DigitsValue(group.value) == 64 {
        GroupSixtyFour(platform, n, group.value);
      }
      WinPrefix(platform, n);
    }
  }

  /** A digits group worth 64 puts `64` in the platform name. */
  lemma {:induction false} GroupSixtyFour(platform: string, n: nat, g: string)
    requires n <= |platform| && DigitsGroup(platform, n) == Some(g)
    requires DigitsValue(g) == 64
    ensures Contains(platform, "64")
  {
    DigitsSixtyFour(g);
    var d :| n <= d && OccursAt(platform, g, d);
    assert platform[d + |g| - 2..d + |g|] == g[|g| - 2..];
    assert OccursAt(platform, "64", d + |g| - 2);
  }

  /** The leading letters begin with `win` exactly when the name does. */
  lemma {:induction false} WinPrefix(platform: string, n: nat)
    requires n == Span(platform, IsLetter)
    ensures "win" <= platform[..n] <==> "win" <= platform
  {
    if "win" <= platform {
      assert IsLetter(platform[0]) && IsLetter(platform[1]) && IsLetter(platform[2]);
    }
  }

  // ---------------------------------------------------------------------
  // The bisection cascade

  /** The repository bisection starts on. */
  const CentralRepo := "mozilla-central"

  /** The integration branch and range that `handle_merge` reports. */
  datatype Merge = Merge(branch: string, good: string, bad: string)

  /** What one run of the bisector with a handler reports: whether it
      finished, the good and bad revisions it narrowed down to, how many
      builds that range holds, and the merge `handle_merge` would report. */
  datatype Round = Round(finished: bool, good: Option<string>, bad: Option<string>, builds: nat, merge: Option<Merge>)

  /** The result of a bisection: the repository it ended on and the good
      and bad revisions. */
  datatype Bisected = Bisected(repo: string, good: Option<string>, bad: Option<string>)

  /** A round that hands over to an integration branch. */
  predicate Continues(h: Round) {
    h.finished && h.builds == 2 && h.merge.Some?
  }

  /** `bisect_inbound` as written: its first statement names
      `InboundHandler`, which is never imported. */
  function InboundAsWritten(repo: string, rounds: seq<Round>): (r: Result<Bisected, BisectError>)
    ensures r == Failure(UndefinedHandler)
  {
    Failure(UndefinedHandler)
  }

  /** Whatever the bisector would report, changeset bisection as written
      fails before it starts, even with a hand-over to a branch ready. */
  lemma {:induction false} InboundAsWrittenNeverBisects()
    ensures InboundAsWritten(CentralRepo, [Round(false, Some("a"), Some("b"), 3, None)]).Failure?
  {
  }

  /** `bisect_inbound` with the `IntegrationHandler` that is imported: each
      round that finishes on a two-build range with a merge moves to that
      branch and bisects again; any other round gives its range. `rounds`
      are the bisector's reports, one per run. */
  function Inbound(repo: string, rounds: seq<Round>): Result<Bisected, BisectError>
    decreases |rounds|
  {
    if rounds == [] then Failure(RoundsExhausted)
    else if Continues(rounds[0]) then Inbound(rounds[0].merge.value.branch, rounds[1..])
    else Success(Bisected(repo, rounds[0].good, rounds[0].bad))
  }

  /** The cascade stops at the first round that does not hand over, on the
      branch the round before it handed over to. */
  lemma {:induction false} InboundStopsAt(repo: string, rounds: seq<Round>, i: nat)
    requires i < |rounds| && !Continues(rounds[i])
    requires forall j :: 0 <= j < i ==> Continues(rounds[j])
    ensures Inbound(repo, rounds) ==
      Success(Bisected(
        if i == 0 then repo else assert Continues(rounds[i - 1]); rounds[i - 1].merge.value.branch,
        rounds[i].good, rounds[i].bad))
    decreases i
  {
    if i > 0 {
      InboundStopsAt(rounds[0].merge.value.branch, rounds[1..], i - 1);
    }
  }

  /** If every round hands over, the reports run out. */
  lemma {:induction false} InboundExhausted(repo: string, rounds: seq<Round>)
    requires forall j :: 0 <= j < |rounds| ==> Continues(rounds[j])
    ensures Inbound(repo, rounds) == Failure(RoundsExhausted)
    decreases |rounds|
  {
    if rounds != [] {
      InboundExhausted(rounds[0].merge.value.branch, rounds[1..]);
    }
  }

  /** `bisect_nightly`: a finished nightly run goes on by changeset on
      `mozilla-central`; any other gives no range. */
  function Nightly(nightly: Round, rounds: seq<Round>): Result<Bisected, BisectError> {
    if nightly.finished then Inbound(CentralRepo, rounds) else Success(Bisected(CentralRepo, None, None))
  }

  /** `bisect` before its check for a moved warning: by date when the range
      is given as dates, by changeset otherwise. */
  function Bisection(useNightly: bool, nightly: Round, rounds: seq<Round>): Result<Bisected, BisectError> {
    if useNightly then Nightly(nightly, rounds) else Inbound(CentralRepo, rounds)
  }

  /** `bisect`: the bisection, then the check for a moved warning at the
      good revision, whose logs are `moveFiles`. */
  ghost function BisectRun(r: Runner, useNightly: bool, nightly: Round, rounds: seq<Round>,
                           moveFiles: Option<seq<Option<Log>>>): Result<Bisected, BisectError> {
    match Bisection(useNightly, nightly, rounds) {
      case Failure(e) => Failure(e)
      case Success(o) =>
        match MoveCheck(r, o.good, moveFiles) {
          case Failure(e) => Failure(e)
          case Success(_) => Success(o)
        }
    }
  }

  /** `bisect` */
  method Bisect(r: Runner, useNightly: bool, nightly: Round, rounds: seq<Round>,
                moveFiles: Option<seq<Option<Log>>>)
    returns (result: Result<Bisected, BisectError>)
    ensures result == BisectRun(r, useNightly, nightly, rounds, moveFiles)
  {
    result := Bisection(useNightly, nightly, rounds);
    if result.Success? {
      var moved := CheckForMove(r, result.value.good, moveFiles);
      if moved.Failure? {
        result := Failure(moved.error);
      }
    }
  }

  /** A nightly run that does not finish gives no good revision, so the
      check for a moved warning slices `None`, unless line numbers are
      ignored. */
  lemma {:induction false} UnfinishedNightly(r: Runner, nightly: Round, rounds: seq<Round>, moveFiles: Option<seq<Option<Log>>>)
    requires !nightly.finished
    ensures BisectRun(r, true, nightly, rounds, moveFiles) ==
      if r.ignoreLines then Success(Bisected(CentralRepo, None, None)) else Failure(NoChangeset)
  {
  }
}
