/** Log line normalisation: the substitution chains that strip timestamps,
    process ids, checkout paths and pointer-like values from a warning line
    so that the same warning from different runs compares equal.

    Every regular expression of the chains is deterministic under Python's
    backtracking (each greedy run is followed by a character its class
    excludes), so each is modelled as a function giving the length of the
    match at the start of a string, 0 when there is none. */
module Normalize {
  import opened Wrappers
  import opened Text

  /** A pattern: the length of the match the engine takes at the start of
      the string, 0 if it does not match there. None of the patterns below
      matches the empty string. */
  type Matcher = string -> nat

  /** `re.sub(pattern, repl, s)`: scan left to right, replace each match and
      continue after it; copy a character where nothing matches. */
  function SubAll(s: string, m: Matcher, repl: string): string
    decreases |s|
  {
    if s == [] then []
    else
      var n := m(s);
      if 0 < n <= |s| then repl + SubAll(s[n..], m, repl)
      else [s[0]] + SubAll(s[1..], m, repl)
  }

  /** `re.sub('^' + pattern, '', s)`: drop one match at the start, if any. */
  function StripStart(s: string, m: Matcher): (r: string)
    ensures |r| <= |s| && r == s[|s| - |r|..]
    ensures m(s) == 0 || m(s) > |s| ==> r == s
  {
    var n := m(s);
    if 0 < n <= |s| then s[n..] else s
  }

  predicate IsDigitOrColon(c: char) { IsDigit(c) || c == ':' }
  predicate NotCloseBracket(c: char) { c != ']' }
  predicate NotSlash(c: char) { c != '/' }
  predicate IsLowerAlnum(c: char) { IsLower(c) || IsDigit(c) }

  /** A literal pattern. */
  function Literal(lit: string): Matcher {
    s => if lit <= s then |lit| else 0
  }

  /** `\[task[^\]]+\]\s` */
  function TaskTag(s: string): (n: nat)
    ensures n <= |s|
  {
    if "[task" <= s then
      var a := Span(s[5..], NotCloseBracket);
      if 0 < a && 6 + a < |s| && IsReSpace(s[6 + a]) then 7 + a else 0
    else 0
  }

  /** The tail `\s+INFO\s+` shared by the two INFO prefixes; with `dash`,
      `\s+INFO\s+-\s+`. */
  function InfoTail(s: string, dash: bool): (n: nat)
    ensures n <= |s|
  {
    var b := Span(s, IsReSpace);
    var t := s[b..];
    if b > 0 && "INFO" <= t then
      var c := Span(t[4..], IsReSpace);
      var u := t[4 + c..];
      if c == 0 then 0
      else if !dash then b + 4 + c
      else if u != [] && u[0] == '-' then
        var d := Span(u[1..], IsReSpace);
        if d > 0 then b + 4 + c + 1 + d else 0
      else 0
    else 0
  }

  /** `[0-9:]+\s+INFO\s+-\s+` */
  function InfoTimestamp(s: string): (n: nat)
    ensures n <= |s|
  {
    var a := Span(s, IsDigitOrColon);
    var t := InfoTail(s[a..], true);
    if a > 0 && t > 0 then a + t else 0
  }

  /** `[0-9]+\s+INFO\s+` */
  function PidInfo(s: string): (n: nat)
    ensures n <= |s|
  {
    var a := Span(s, IsDigit);
    var t := InfoTail(s[a..], false);
    if a > 0 && t > 0 then a + t else 0
  }

  /** `PROCESS \| [0-9]+ \| ` */
  function ProcessTag(s: string): (n: nat)
    ensures n <= |s|
  {
    if "PROCESS | " <= s then
      var d := Span(s[10..], IsDigit);
      if d > 0 && " | " <= s[10 + d..] then 13 + d else 0
    else 0
  }

  /** `PID\s+[0-9]+\s+\|\s+` */
  function PidTag(s: string): (n: nat)
    ensures n <= |s|
  {
    if "PID" <= s then
      var a := Span(s[3..], IsReSpace);
      var b := Span(s[3 + a..], IsDigit);
      var c := Span(s[3 + a + b..], IsReSpace);
      var t := s[3 + a + b + c..];
      if a > 0 && b > 0 && c > 0 && t != [] && t[0] == '|' then
        var d := Span(t[1..], IsReSpace);
        if d > 0 then 3 + a + b + c + 1 + d else 0
      else 0
    else 0
  }

  /** `(Child|Parent|GMP|NPAPI)` at the start of `s`, 0 if absent. */
  function ProcessKind(s: string): (n: nat)
    ensures n <= |s|
  {
    if "Child" <= s then 5
    else if "Parent" <= s then 6
    else if "GMP" <= s then 3
    else if "NPAPI" <= s then 5
    else 0
  }

  /** `\[(Child|Parent|GMP|NPAPI)?\s?[0-9]+\]`. When the optional word is
      present but the rest fails, dropping the word cannot help: a digit or
      a space would then have to follow `[`, and the word starts with a
      letter. */
  function ProcessIdTag(s: string): (n: nat)
    ensures n <= |s|
  {
    if s != [] && s[0] == '[' then
      var w := ProcessKind(s[1..]);
      var t := s[1 + w..];
      var sp := if t != [] && IsReSpace(t[0]) then 1 else 0;
      var d := Span(t[sp..], IsDigit);
      if d > 0 && sp + d < |t| && t[sp + d] == ']' then 1 + w + sp + d + 1 else 0
    else 0
  }

  const WorkerSrc := "/home/worker/workspace/build/src/"
  const GeckoCheckout := "/builds/worker/checkouts/gecko/"

  /** An optional drive letter `([a-z]:)?` in front of a path pattern. */
  function WithDrive(s: string, path: Matcher): (n: nat)
    ensures path(s) <= |s| ==> n <= |s|
  {
    if |s| >= 2 && IsLower(s[0]) && s[1] == ':' && 0 < path(s[2..]) <= |s| - 2 then 2 + path(s[2..])
    else path(s)
  }

  /** `/builds/[^/]+/[^/]+/build/src/` */
  function BuildbotTail(s: string): (n: nat)
    ensures n <= |s|
  {
    if "/builds/" <= s then
      var a := Span(s[8..], NotSlash);
      var t := s[8 + a..];
      if a > 0 && t != [] then
        var b := Span(t[1..], NotSlash);
        if b > 0 && "/build/src/" <= t[1 + b..] then 8 + a + 1 + b + 11 else 0
      else 0
    else 0
  }

  /** `([a-z]:)?/builds/[^/]+/[^/]+/build/src/` */
  function BuildbotPath(s: string): (n: nat)
    ensures n <= |s|
  {
    WithDrive(s, BuildbotTail)
  }

  /** Length of `(build/)+` taken greedily; backing off a repetition leaves
      `build/` where `src/` is required, so greedy is the only match. */
  function BuildRepeats(s: string): (n: nat)
    ensures n <= |s|
    decreases |s|
  {
    if "build/" <= s then 6 + BuildRepeats(s[6..]) else 0
  }

  /** `/(build/)+src/` */
  function BuildTail(s: string): (n: nat)
    ensures n <= |s|
  {
    if s != [] && s[0] == '/' then
      var k := BuildRepeats(s[1..]);
      if k > 0 && "src/" <= s[1 + k..] then 1 + k + 4 else 0
    else 0
  }

  /** `([a-z]:)?/(build/)+src/` */
  function BuildPath(s: string): (n: nat)
    ensures n <= |s|
  {
    WithDrive(s, BuildTail)
  }

  /** `=[a-z0-9]+` */
  function MaskMatch(s: string): (n: nat)
    ensures n <= |s|
  {
    if s != [] && s[0] == '=' then
      var n := Span(s[1..], IsLowerAlnum);
      if n > 0 then 1 + n else 0
    else 0
  }

  const Placeholder := "=NNNNNN"

  /** `re.sub(r'=[a-z0-9]+', '=NNNNNN', s)`: hide values that look like
      pointers or hashes. */
  function Mask(s: string): string {
    SubAll(s, MaskMatch, Placeholder)
  }

  /** `GECKO\([0-9]+\) \|` */
  function GeckoTag(s: string): (n: nat)
    ensures n <= |s|
  {
    if "GECKO(" <= s then
      var d := Span(s[6..], IsDigit);
      if d > 0 && ") |" <= s[6 + d..] then 6 + d + 3 else 0
    else 0
  }

  /** `\[[^\]]+\]\s+`, a thread tag such as `[1355, Main Thread] `. The
      match always ends before a character `\s` does not accept. */
  function ThreadTag(s: string): (n: nat)
    ensures n <= |s|
    ensures 0 < n < |s| ==> !IsReSpace(s[n])
  {
    if s != [] && s[0] == '[' then
      var a := Span(s[1..], NotCloseBracket);
      if a > 0 && 1 + a < |s| then
        var b := Span(s[2 + a..], IsReSpace);
        if b > 0 then 2 + a + b else 0
      else 0
    else 0
  }

  /** The line as read from the raw log: the `data` member when the line is a
      JSON object holding one, the line itself otherwise. `jsonData` stands
      for `json.loads(line)['data']`, `None` where that raises. */
  function Payload(line: string, jsonData: string -> Option<string>): string {
    match jsonData(line)
    case Some(d) => d
    case None => line
  }

  /** One `re.sub` of a chain: a pattern anchored with `^` (removed once at
      the start) or one applied everywhere. */
  datatype Step = Anchored(m: Matcher) | Everywhere(m: Matcher, repl: string)

  function Apply(step: Step, s: string): string {
    match step
    case Anchored(m) => StripStart(s, m)
    case Everywhere(m, repl) => SubAll(s, m, repl)
  }

  /** The substitutions of a chain, first to last. */
  function Run(steps: seq<Step>, s: string): string
    decreases |steps|
  {
    if steps == [] then s else Run(steps[1..], Apply(steps[0], s))
  }

  /** The substitutions of the cache module's `normalize_line`, between the
      JSON unwrapping and the final strip. */
  const CacheSteps: seq<Step> := [
    Anchored(TaskTag),
    Anchored(InfoTimestamp),
    Anchored(PidInfo),
    Anchored(ProcessTag),
    Anchored(PidTag),
    Everywhere(ProcessIdTag, ""),
    Everywhere(Literal(WorkerSrc), ""),
    Everywhere(Literal(GeckoCheckout), ""),
    Everywhere(BuildbotPath, ""),
    Everywhere(BuildPath, ""),
    Everywhere(MaskMatch, Placeholder),
    Everywhere(GeckoTag, "")
  ]

  /** The substitutions of the older tool's `normalize_line`, before its strip. */
  const LegacySteps: seq<Step> := [
    Anchored(InfoTimestamp),
    Anchored(ProcessTag),
    Everywhere(ProcessIdTag, ""),
    Everywhere(Literal(WorkerSrc), "")
  ]

  /** `normalize_line` of the cache module. The result never starts with
      ASCII whitespace and never ends with any whitespace `strip()` removes,
      so it survives the `rstrip()` of a later read of the cache file. */
  function NormalizeLine(raw: string, jsonData: string -> Option<string>): (r: string)
    ensures r != [] ==> !IsReSpace(r[0]) && !IsSpace(r[|r| - 1])
  {
    Finish(Run(CacheSteps, Payload(raw, jsonData)))
  }

  /** The last two steps: `strip()` and the thread tag. */
  function Finish(line: string): (r: string)
    ensures r != [] ==> !IsReSpace(r[0]) && !IsSpace(r[|r| - 1])
  {
    var line := Strip(line, IsSpace);
    ThreadTagKeepsEnds(line);
    StripStart(line, ThreadTag)
  }

  /** Dropping a thread tag from a stripped line leaves a line that starts
      after the tag's trailing whitespace and still ends where it did. */
  lemma {:induction false} ThreadTagKeepsEnds(line: string)
    requires line != [] ==> !IsSpace(line[|line| - 1])
    ensures var r := StripStart(line, ThreadTag);
      r != [] ==> (line == r || !IsReSpace(r[0])) && !IsSpace(r[|r| - 1])
  {
  }

  /** `normalize_line` of the older single-file tool, which works on byte
      strings: its `strip()` removes ASCII whitespace only. */
  function LegacyNormalizeLine(line: string): (r: string)
    ensures r == Strip(r, IsAsciiSpace)
  {
    Strip(Run(LegacySteps, line), IsAsciiSpace)
  }

  // ---------------------------------------------------------------------
  // Properties

  /** A substitution copies the characters at which the pattern does not
      match, up to the first place where it may. */
  lemma {:induction false} SubAllSkip(s: string, m: Matcher, repl: string, i: nat)
    requires i <= |s|
    requires forall k :: 0 <= k < i ==> m(s[k..]) == 0
    ensures SubAll(s, m, repl) == s[..i] + SubAll(s[i..], m, repl)
    decreases i
  {
    if i > 0 {
      assert m(s[0..]) == 0;
      assert s[0..] == s;
      forall k | 0 <= k < i - 1 ensures m(s[1..][k..]) == 0 {
        assert s[1..][k..] == s[k + 1..];
      }
      SubAllSkip(s[1..], m, repl, i - 1);
      TailSlices(s, i - 1, i);
    }
  }

  /** A substitution leaves a string unchanged when the pattern matches
      nowhere in it. */
  lemma {:induction false} SubAllNoMatch(s: string, m: Matcher, repl: string)
    requires forall i :: 0 <= i < |s| ==> m(s[i..]) == 0
    ensures SubAll(s, m, repl) == s
  {
    SubAllSkip(s, m, repl, |s|);
    assert s[..|s|] == s;
  }

  /** Masking keeps the first character of a non-empty string. */
  lemma {:induction false} MaskHead(s: string)
    requires s != []
    ensures Mask(s) != [] && Mask(s)[0] == s[0]
  {
  }

  /** After masking, `=[a-z0-9]+` matches nowhere: every `=` is followed by
      the placeholder's capital `N` or by a character outside the class. */
  lemma {:induction false} MaskLeavesNoMatch(s: string)
    ensures forall i :: 0 <= i < |Mask(s)| ==> MaskMatch(Mask(s)[i..]) == 0
    decreases |s|
  {
    if s != [] {
      var n := MaskMatch(s);
      if 0 < n {
        var rest := Mask(s[n..]);
        MaskLeavesNoMatch(s[n..]);
        assert Mask(s) == Placeholder + rest;
        forall i | 0 <= i < |Mask(s)| ensures MaskMatch(Mask(s)[i..]) == 0 {
          if i >= |Placeholder| {
            assert Mask(s)[i..] == rest[i - |Placeholder|..];
          } else {
            assert Mask(s)[i..] == Placeholder[i..] + rest;
            if i == 0 {
              assert Span(Mask(s)[1..], IsLowerAlnum) == 0 by {
                assert Mask(s)[1] == 'N';
              }
            }
          }
        }
      } else {
        var rest := Mask(s[1..]);
        MaskLeavesNoMatch(s[1..]);
        assert Mask(s) == [s[0]] + rest;
        forall i | 0 <= i < |Mask(s)| ensures MaskMatch(Mask(s)[i..]) == 0 {
          if i >= 1 {
            assert Mask(s)[i..] == rest[i - 1..];
          } else if s[0] == '=' {
            assert Mask(s)[1..] == rest;
            if s[1..] != [] {
              MaskHead(s[1..]);
            }
          }
        }
      }
    }
  }

  /** Masking is idempotent: a normalised line normalises to itself under
      the mask step. */
  lemma {:induction false} MaskIdempotent(s: string)
    ensures Mask(Mask(s)) == Mask(s)
  {
    MaskLeavesNoMatch(s);
    SubAllNoMatch(Mask(s), MaskMatch, Placeholder);
  }

  /** Deleting a literal path leaves a line without the path as it is. */
  lemma {:induction false} DeleteAbsent(s: string, lit: string)
    requires !Contains(s, lit)
    ensures SubAll(s, Literal(lit), "") == s
  {
    LiteralAbsentBefore(s, lit, |s|);
    SubAllNoMatch(s, Literal(lit), "");
  }

  /** Deleting a literal path from a line where it first occurs at `i`: the
      text before it is kept, the occurrence is dropped, and the deletion
      goes on after it. */
  lemma {:induction false} DeleteFirstLiteral(s: string, lit: string, i: nat)
    requires lit != [] && OccursAt(s, lit, i)
    requires forall j: nat :: j < i ==> !OccursAt(s, lit, j)
    ensures SubAll(s, Literal(lit), "") == s[..i] + SubAll(s[i + |lit|..], Literal(lit), "")
  {
    LiteralAbsentBefore(s, lit, i);
    LiteralMatches(s, lit, i);
    SubAllDelete(s, Literal(lit), i, |lit|);
  }

  /** Where the literal occurs, it matches its own length. */
  lemma {:induction false} LiteralMatches(s: string, lit: string, i: nat)
    requires OccursAt(s, lit, i)
    ensures Literal(lit)(s[i..]) == |lit|
  {
    assert s[i..][..|lit|] == s[i..i + |lit|];
  }

  /** A deletion copies the text before the first match, drops the match of
      length `n`, and goes on after it. */
  lemma {:induction false} SubAllDelete(s: string, m: Matcher, i: nat, n: nat)
    requires i < |s| && m(s[i..]) == n && 0 < n <= |s| - i
    requires forall k :: 0 <= k < i ==> m(s[k..]) == 0
    ensures SubAll(s, m, "") == s[..i] + SubAll(s[i + n..], m, "")
  {
    SubAllSkip(s, m, "", i);
    SubAllAt(s[i..], m, n);
    DropDrop(s, i, n);
  }

  /** A deletion drops a match at the start. */
  lemma {:induction false} SubAllAt(t: string, m: Matcher, n: nat)
    requires m(t) == n && 0 < n <= |t|
    ensures SubAll(t, m, "") == SubAll(t[n..], m, "")
  {
  }

  /** Two drops are one. */
  lemma {:induction false} DropDrop<T>(s: seq<T>, i: nat, n: nat)
    requires i + n <= |s|
    ensures s[i..][n..] == s[i + n..]
  {
  }

  /** No match of the literal begins before its leftmost occurrence. */
  lemma {:induction false} LiteralAbsentBefore(s: string, lit: string, i: nat)
    requires i <= |s|
    requires forall j: nat :: j < i ==> !OccursAt(s, lit, j)
    ensures forall k :: 0 <= k < i ==> Literal(lit)(s[k..]) == 0
  {
    forall k | 0 <= k < i ensures Literal(lit)(s[k..]) == 0 {
      LiteralAt(s, lit, k);
    }
  }

  /** The literal matches at position `k` exactly where it occurs there. */
  lemma {:induction false} LiteralAt(s: string, lit: string, k: nat)
    requires k <= |s|
    ensures Literal(lit)(s[k..]) == if OccursAt(s, lit, k) then |lit| else 0
  {
    if k + |lit| <= |s| {
      assert s[k..][..|lit|] == s[k..k + |lit|];
    }
  }

  /** Slicing the tail of a string is slicing the string one further. */
  lemma {:induction false} TailSlices(s: string, j: nat, k: nat)
    requires j < k <= |s|
    ensures s[1..][k - 1..] == s[k..]
    ensures [s[0]] + s[1..][..j] == s[..j + 1]
  {
  }

  /** The leading `<time> INFO - ` of a mozharness line is removed whole. */
  lemma {:induction false} InfoTimestampPrefix(time: string, rest: string)
    requires time != [] && forall i :: 0 <= i < |time| ==> IsDigitOrColon(time[i])
    requires rest == [] || !IsReSpace(rest[0])
    ensures StripStart(time + " INFO - " + rest, InfoTimestamp) == rest
  {
    var s := time + " INFO - " + rest;
    TimestampParts(time, rest);
    SpanOfPrefix(s, time, IsDigitOrColon);
    InfoTailDash(rest);
    StripSteps(s, InfoTimestamp, |time| + 8);
  }

  /** The pieces of `time` followed by ` INFO - ` and `rest`. */
  lemma {:induction false} TimestampParts(time: string, rest: string)
    ensures var s := time + " INFO - " + rest;
      && time <= s && |time| < |s| && s[|time|] == ' '
      && s[|time|..] == " INFO - " + rest && s[|time| + 8..] == rest
  {
  }

  /** An anchored pattern that matches `n` characters drops them. */
  lemma {:induction false} StripSteps(s: string, m: Matcher, n: nat)
    requires m(s) == n && 0 < n <= |s|
    ensures StripStart(s, m) == s[n..]
  {
  }

  /** `\s+INFO\s+-\s+` takes all of ` INFO - ` and stops there. */
  lemma {:induction false} InfoTailDash(rest: string)
    requires rest == [] || !IsReSpace(rest[0])
    ensures InfoTail(" INFO - " + rest, true) == 8
  {
    var s := " INFO - " + rest;
    InfoDashParts(rest);
    SpanSingle(' ', s[1..], IsReSpace);
    SpanSingle(' ', s[6..], IsReSpace);
    SpanSingle(' ', rest, IsReSpace);
    InfoTailSteps(s, 1, 1, 1);
  }

  /** The pieces of ` INFO - ` followed by `rest`. */
  lemma {:induction false} InfoDashParts(rest: string)
    ensures var s := " INFO - " + rest;
      && s == [' '] + s[1..] && s[1] == 'I' && "INFO" <= s[1..]
      && s[1..][4..] == [' '] + s[6..] && s[6] == '-'
      && s[1..][4 + 1..] == s[6..] && s[6..][1..] == [' '] + rest
  {
  }

  /** How `\s+INFO\s+-\s+` reads a string, step by step. */
  lemma {:induction false} InfoTailSteps(s: string, b: nat, c: nat, d: nat)
    requires Span(s, IsReSpace) == b > 0 && b <= |s| && "INFO" <= s[b..]
    requires Span(s[b..][4..], IsReSpace) == c > 0
    requires 4 + c < |s[b..]| && s[b..][4 + c..][0] == '-'
    requires Span(s[b..][4 + c..][1..], IsReSpace) == d > 0
    ensures InfoTail(s, true) == b + 4 + c + 1 + d
  {
  }

  /** A single accepted character before a rejected one, or before nothing. */
  lemma {:induction false} SpanSingle(c: char, rest: string, p: char -> bool)
    requires p(c) && (rest == [] || !p(rest[0]))
    ensures Span([c] + rest, p) == 1
  {
    assert ([c] + rest)[1..] == rest;
  }

  /** The `PROCESS | <pid> | ` prefix of a test harness line is removed whole. */
  lemma {:induction false} ProcessTagPrefix(pid: string, rest: string)
    requires pid != [] && forall i :: 0 <= i < |pid| ==> IsDigit(pid[i])
    ensures StripStart("PROCESS | " + pid + " | " + rest, ProcessTag) == rest
  {
    var s := "PROCESS | " + pid + " | " + rest;
    assert s[10..] == pid + " | " + rest;
    SpanOfPrefix(s[10..], pid, IsDigit);
    assert s[10 + |pid|..] == " | " + rest;
    assert ProcessTag(s) == 13 + |pid|;
  }

  /** `Span` over a string that starts with a run of accepted characters
      followed by a rejected one, or by nothing. */
  lemma {:induction false} SpanOfPrefix(s: string, run: string, p: char -> bool)
    requires run <= s
    requires forall i :: 0 <= i < |run| ==> p(run[i])
    requires |run| < |s| ==> !p(s[|run|])
    ensures Span(s, p) == |run|
    decreases |run|
  {
    if run != [] {
      assert s[0] == run[0];
      SpanOfPrefix(s[1..], run[1..], p);
    }
  }

  /** Both harness prefixes of a legacy log line go, in order, and the
      remaining substitutions work on what follows them. */
  lemma {:induction false} LegacyNormalizeDropsPrefixes(time: string, pid: string, body: string)
    requires time != [] && forall i :: 0 <= i < |time| ==> IsDigitOrColon(time[i])
    requires pid != [] && forall i :: 0 <= i < |pid| ==> IsDigit(pid[i])
    ensures LegacyNormalizeLine(time + " INFO - " + "PROCESS | " + pid + " | " + body)
         == Strip(Run(LegacySteps[2..], body), IsAsciiSpace)
  {
    var s := time + " INFO - " + "PROCESS | " + pid + " | " + body;
    var rest := "PROCESS | " + pid + " | " + body;
    assert s == time + " INFO - " + rest;
    InfoTimestampPrefix(time, rest);
    ProcessTagPrefix(pid, body);
    assert Apply(LegacySteps[0], s) == rest;
    assert Run(LegacySteps, s) == Run(LegacySteps[1..], rest);
    assert LegacySteps[1..][0] == Anchored(ProcessTag);
    assert Apply(LegacySteps[1..][0], rest) == body;
    assert LegacySteps[1..][1..] == LegacySteps[2..];
    assert Run(LegacySteps[1..], rest) == Run(LegacySteps[2..], body);
  }
}
