/** Character classes and string operations shared by the log processing code.
    Strings are sequences of Unicode scalar values, as Python 2 `unicode`
    objects are after `.decode('utf-8')`. */
module Text {
  import opened Wrappers

  /** `\s` of Python 2's `re` module without the UNICODE flag. */
  predicate IsReSpace(c: char) {
    c == ' ' || c == '\t' || c == '\n' || c == '\r' || c == '\U{000B}' || c == '\U{000C}'
  }

  /** The characters `unicode.strip()` removes in Python 2.7: the ASCII
      whitespace above, the separators U+001C..U+001F and the Unicode
      space characters. */
  predicate IsSpace(c: char) {
    || IsReSpace(c)
    || ('\U{001C}' <= c <= '\U{001F}')
    || c == '\U{0085}' || c == '\U{00A0}' || c == '\U{1680}' || c == '\U{180E}'
    || ('\U{2000}' <= c <= '\U{200A}')
    || c == '\U{2028}' || c == '\U{2029}' || c == '\U{202F}' || c == '\U{205F}' || c == '\U{3000}'
  }

  /** `[0-9]` */
  predicate IsDigit(c: char) { '0' <= c <= '9' }

  /** `[a-z]` */
  predicate IsLower(c: char) { 'a' <= c <= 'z' }

  /** `[a-zA-Z]` */
  predicate IsLetter(c: char) { IsLower(c) || 'A' <= c <= 'Z' }

  /** Length of the longest prefix of `s` whose characters all satisfy `p`:
      what a greedy `[...]*` consumes. */
  function Span(s: string, p: char -> bool): (n: nat)
    ensures n <= |s|
    ensures forall i :: 0 <= i < n ==> p(s[i])
    ensures n < |s| ==> !p(s[n])
  {
    if s == [] || !p(s[0]) then 0 else 1 + Span(s[1..], p)
  }

  /** `sub` occurs in `s` starting at position `i`. */
  predicate OccursAt(s: string, sub: string, i: nat) {
    i + |sub| <= |s| && s[i..i + |sub|] == sub
  }

  /** Occurrences in `s[1..]` are the occurrences in `s` shifted by one. */
  lemma {:induction false} OccursAtTail(s: string, sub: string, i: nat)
    requires s != []
    ensures OccursAt(s, sub, i + 1) <==> OccursAt(s[1..], sub, i)
  {
    if i + 1 + |sub| <= |s| {
      assert s[i + 1..i + 1 + |sub|] == s[1..][i..i + |sub|];
    }
  }

  /** `sub in s` for Python strings. */
  function Contains(s: string, sub: string): (b: bool)
    ensures b <==> exists i: nat :: OccursAt(s, sub, i)
  {
    if sub <= s then
      assert OccursAt(s, sub, 0);
      true
    else if s == [] then
      false
    else
      var r := Contains(s[1..], sub);
      assert !OccursAt(s, sub, 0);
      forall i: nat ensures OccursAt(s, sub, i + 1) <==> OccursAt(s[1..], sub, i) {
        OccursAtTail(s, sub, i);
      }
      assert (exists i: nat :: OccursAt(s, sub, i)) ==> exists i: nat :: OccursAt(s[1..], sub, i) by {
        if exists i: nat :: OccursAt(s, sub, i) {
          var i: nat :| OccursAt(s, sub, i);
          assert i != 0;
          assert OccursAt(s[1..], sub, i - 1);
        }
      }
      r
  }

  /** The position of the leftmost occurrence of `sub` in `s`, as found by a
      regex search for a literal pattern. */
  function IndexOf(s: string, sub: string): (r: Option<nat>)
    ensures r.Some? ==> OccursAt(s, sub, r.value)
    ensures r.Some? ==> forall j: nat :: j < r.value ==> !OccursAt(s, sub, j)
    ensures r.None? <==> !Contains(s, sub)
  {
    if sub <= s then
      assert OccursAt(s, sub, 0);
      Some(0)
    else if s == [] then
      None
    else
      var r := IndexOf(s[1..], sub);
      assert !OccursAt(s, sub, 0);
      forall i: nat ensures OccursAt(s, sub, i + 1) <==> OccursAt(s[1..], sub, i) {
        OccursAtTail(s, sub, i);
      }
      assert Contains(s, sub) == Contains(s[1..], sub) by {
        if Contains(s, sub) {
          var i: nat :| OccursAt(s, sub, i);
          assert i != 0;
          assert OccursAt(s[1..], sub, i - 1);
        }
      }
      match r
      case None => None
      case Some(i) =>
        assert forall j: nat :: 0 < j < i + 1 ==> (OccursAt(s, sub, j) <==> OccursAt(s[1..], sub, j - 1));
        Some(i + 1)
  }

  /** `s.lstrip(...)`, removing the characters `space` accepts. */
  function LStrip(s: string, space: char -> bool): (r: string)
    ensures |r| <= |s| && r == s[|s| - |r|..]
    ensures r != [] ==> !space(r[0])
    ensures forall i :: 0 <= i < |s| - |r| ==> space(s[i])
  {
    s[Span(s, space)..]
  }

  /** `s.rstrip(...)`, removing the characters `space` accepts. */
  function RStrip(s: string, space: char -> bool): (r: string)
    ensures r <= s
    ensures r != [] ==> !space(r[|r| - 1])
    ensures forall i :: |r| <= i < |s| ==> space(s[i])
  {
    if s != [] && space(s[|s| - 1]) then RStrip(s[..|s| - 1], space) else s
  }

  /** `s.strip(...)`: both ends, removing the characters `space` accepts. */
  function Strip(s: string, space: char -> bool): (r: string)
    ensures r != [] ==> !space(r[0]) && !space(r[|r| - 1])
    ensures |r| <= |s|
  {
    RStrip(LStrip(s, space), space)
  }

  /** Python 2 `str.strip()` on byte strings removes ASCII whitespace only. */
  predicate IsAsciiSpace(c: char) { IsReSpace(c) }

  /** `s.replace(a, b)` for single characters. */
  function ReplaceChar(s: string, a: char, b: char): (r: string)
    ensures |r| == |s|
    ensures forall i :: 0 <= i < |s| ==> r[i] == (if s[i] == a then b else s[i])
  {
    seq(|s|, i requires 0 <= i < |s| => if s[i] == a then b else s[i])
  }

  /** `os.path.basename(s)`: what follows the last `/`. */
  function Basename(s: string): string {
    if s == [] || s[|s| - 1] == '/' then []
    else Basename(s[..|s| - 1]) + [s[|s| - 1]]
  }

  /** The basename is the longest suffix without a `/`. */
  lemma {:induction false} BasenameShape(s: string)
    ensures var r := Basename(s);
      |r| <= |s| && r == s[|s| - |r|..]
      && (forall i :: 0 <= i < |r| ==> r[i] != '/')
      && (|r| < |s| ==> s[|s| - |r| - 1] == '/')
  {
    if s != [] && s[|s| - 1] != '/' {
      var s' := s[..|s| - 1];
      BasenameShape(s');
      SuffixSnoc(s, |Basename(s')|);
    }
  }

  /** A suffix of `s` is a suffix of `s` without its last element, followed
      by that element. */
  lemma {:induction false} SuffixSnoc(s: string, k: nat)
    requires k < |s|
    ensures s[..|s| - 1][|s| - 1 - k..] + [s[|s| - 1]] == s[|s| - 1 - k..]
  {
  }

  /** Splitting off the last element of the right operand of a concatenation. */
  lemma {:induction false} SnocSplit(a: string, q: string)
    requires q != []
    ensures (a + q[..|q| - 1]) + [q[|q| - 1]] == a + q
  {
    assert q[..|q| - 1] + [q[|q| - 1]] == q;
  }

  /** Appending a character other than `/` appends it to the basename. */
  lemma {:induction false} BasenameSnoc(s: string, c: char)
    requires c != '/'
    ensures Basename(s + [c]) == Basename(s) + [c]
  {
    assert (s + [c])[..|s|] == s;
  }

  /** `os.path.join(dir, name)` on POSIX paths. */
  function Join(dir: string, name: string): (r: string)
    ensures name != [] && name[0] == '/' ==> r == name
    ensures (name == [] || name[0] != '/') ==> dir <= r && |name| <= |r| && r[|r| - |name|..] == name
  {
    if name != [] && name[0] == '/' then name
    else if dir == [] || dir[|dir| - 1] == '/' then dir + name
    else dir + "/" + name
  }

  /** The value of a run of decimal digits, as `int(s)` computes it. */
  function DigitsValue(s: string): nat
    requires forall i :: 0 <= i < |s| ==> IsDigit(s[i])
  {
    if s == [] then 0
    else
      assert IsDigit(s[|s| - 1]);
      10 * DigitsValue(s[..|s| - 1]) + (s[|s| - 1] as int - '0' as int)
  }
}
