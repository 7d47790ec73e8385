/**
  The string operations the app relies on: `startsWith`, `includes`, `toLowerCase`,
  the `\s` class of regular expressions, `split(" ")[0]` and number-to-text.
 */
module Text {

  /** `s.startsWith(prefix)`. */
  predicate StartsWith(s: string, prefix: string) {
    prefix <= s
  }

  /** `s.includes(t)`: `t` occurs in `s` at some position. */
  predicate Includes(s: string, t: string) {
    exists i | 0 <= i <= |s| - |t| :: OccursAt(s, t, i)
  }

  /** `t` occurs in `s` starting at position `i`. */
  predicate OccursAt(s: string, t: string, i: int) {
    0 <= i <= |s| - |t| && s[i..i + |t|] == t
  }

  lemma IncludesAt(s: string, t: string, i: int)
    requires OccursAt(s, t, i)
    ensures Includes(s, t)
  {
  }

  /** Every string includes the empty string. */
  lemma IncludesEmpty(s: string)
    ensures Includes(s, "")
  {
    IncludesAt(s, "", 0);
  }

  /** Occurrence is transitive: a string that holds `t` holds every piece of `t`. */
  lemma IncludesTrans(s: string, t: string, u: string)
    requires Includes(s, t) && Includes(t, u)
    ensures Includes(s, u)
  {
    var i :| OccursAt(s, t, i);
    var j :| OccursAt(t, u, j);
    assert OccursAt(s, t, i) && OccursAt(t, u, j);
    forall k | 0 <= k < |u|
      ensures s[i + j + k] == u[k]
    {
      assert u[k] == t[j + k];
      assert s[i + j + k] == s[i..i + |t|][j + k];
    }
    assert s[i + j..i + j + |u|] == u;
    IncludesAt(s, u, i + j);
  }

  /** `toLowerCase` on one character, restricted to the ASCII letters. */
  function LowerChar(c: char): char {
    if 'A' <= c <= 'Z' then (c as int + 32) as char else c
  }

  /** `s.toLowerCase()` (ASCII letters only). */
  function ToLower(s: string): (r: string)
    ensures |r| == |s|
    ensures forall i :: 0 <= i < |s| ==> r[i] == LowerChar(s[i])
  {
    seq(|s|, i requires 0 <= i < |s| => LowerChar(s[i]))
  }

  /** Lower-casing twice is lower-casing once. */
  lemma ToLowerIdempotent(s: string)
    ensures ToLower(ToLower(s)) == ToLower(s)
  {
  }

  /**
    The characters matched by `\s` in an ECMAScript regular expression: the
    WhiteSpace and LineTerminator code points of ECMA-262 (section 22.2.2.9).
   */
  predicate IsSpace(c: char) {
    var n := c as int;
    n == 0x09 || n == 0x0A || n == 0x0B || n == 0x0C || n == 0x0D || n == 0x20
    || n == 0xA0 || n == 0x1680 || (0x2000 <= n <= 0x200A)
    || n == 0x2028 || n == 0x2029 || n == 0x202F || n == 0x205F || n == 0x3000 || n == 0xFEFF
  }

  /** No character of `s` is in the class `sep`. */
  predicate NoneIn(s: string, sep: char -> bool) {
    forall i :: 0 <= i < |s| ==> !sep(s[i])
  }

  /** Every character of `s` is in the class `sep`. */
  predicate AllIn(s: string, sep: char -> bool) {
    forall i :: 0 <= i < |s| ==> sep(s[i])
  }

  predicate NoSpace(s: string) {
    NoneIn(s, IsSpace)
  }

  /** Drops the run of `sep` characters at the front of `s`. */
  function SkipRun(s: string, sep: char -> bool): (r: string)
    ensures |r| <= |s|
    ensures r == s[|s| - |r|..]
    ensures AllIn(s[..|s| - |r|], sep)
    ensures r == [] || !sep(r[0])
  {
    if s != [] && sep(s[0]) then SkipRun(s[1..], sep) else s
  }

  /**
    `s.replace(/c+/g, '-')` for a character class `c` that does not match '-':
    every maximal run of the class becomes one '-'.
   */
  function CollapseRuns(s: string, sep: char -> bool): (r: string)
    requires !sep('-')
    ensures |r| <= |s|
    ensures NoneIn(r, sep)
    decreases |s|
  {
    if s == [] then []
    else if sep(s[0]) then "-" + CollapseRuns(SkipRun(s[1..], sep), sep)
    else [s[0]] + CollapseRuns(s[1..], sep)
  }

  /** Text free of the class comes through unchanged. */
  lemma {:induction false} CollapseRunsKeepsClean(s: string, sep: char -> bool)
    requires !sep('-') && NoneIn(s, sep)
    ensures CollapseRuns(s, sep) == s
    decreases |s|
  {
    if s != [] {
      CollapseRunsKeepsClean(s[1..], sep);
    }
  }

  /** Every character of the result is a '-' or a character of `s`. */
  lemma {:induction false} CollapseRunsChars(s: string, sep: char -> bool)
    requires !sep('-')
    ensures forall i :: 0 <= i < |CollapseRuns(s, sep)| ==> CollapseRuns(s, sep)[i] == '-' || CollapseRuns(s, sep)[i] in s
    decreases |s|
  {
    if s != [] {
      var rest := if sep(s[0]) then SkipRun(s[1..], sep) else s[1..];
      CollapseRunsChars(rest, sep);
      assert forall c :: c in rest ==> c in s;
    }
  }

  /** `s.replace(/\s+/g, '-')`: every maximal run of whitespace becomes one '-'. */
  function CollapseSpaces(s: string): (r: string)
    ensures |r| <= |s|
    ensures NoSpace(r)
    ensures NoSpace(s) ==> r == s
    ensures forall i :: 0 <= i < |r| ==> r[i] == '-' || r[i] in s
  {
    assert !IsSpace('-');
    CollapseRunsChars(s, IsSpace);
    if NoSpace(s) then CollapseRunsKeepsClean(s, IsSpace); CollapseRuns(s, IsSpace)
    else CollapseRuns(s, IsSpace)
  }

  /**
    A run of the class between a head free of it and a tail that does not
    start with it turns into exactly one '-'.
   */
  lemma {:induction false} CollapseOneRun(head: string, run: string, tail: string, sep: char -> bool)
    requires !sep('-')
    requires NoneIn(head, sep) && run != [] && AllIn(run, sep)
    requires tail == [] || !sep(tail[0])
    ensures CollapseRuns(head + run + tail, sep) == head + "-" + CollapseRuns(tail, sep)
    decreases |head|
  {
    if head == [] {
      assert head + run + tail == run + tail;
      CollapseLeadingRun(run, tail, sep);
    } else {
      var s := head + run + tail;
      assert s[0] == head[0] && s[1..] == head[1..] + run + tail;
      CollapseOneRun(head[1..], run, tail, sep);
      var x := CollapseRuns(tail, sep);
      assert [head[0]] + (head[1..] + "-" + x) == head + "-" + x;
    }
  }

  lemma CollapseLeadingRun(run: string, tail: string, sep: char -> bool)
    requires !sep('-')
    requires run != [] && AllIn(run, sep)
    requires tail == [] || !sep(tail[0])
    ensures CollapseRuns(run + tail, sep) == "-" + CollapseRuns(tail, sep)
  {
    var s := run + tail;
    assert s[0] == run[0] && sep(s[0]);
    assert s[1..] == run[1..] + tail;
    SkipWholeRun(run[1..], tail, sep);
  }

  lemma {:induction false} SkipWholeRun(run: string, tail: string, sep: char -> bool)
    requires AllIn(run, sep)
    requires tail == [] || !sep(tail[0])
    ensures SkipRun(run + tail, sep) == tail
    decreases |run|
  {
    if run != [] {
      assert (run + tail)[1..] == run[1..] + tail;
      SkipWholeRun(run[1..], tail, sep);
    }
  }

  /** The text before the first " " (`s.split(" ")[0]`). */
  function BeforeFirstSpace(s: string): (r: string)
    ensures r <= s
    ensures ' ' !in r
    ensures |r| < |s| ==> s[|r|] == ' '
  {
    if s == [] || s[0] == ' ' then [] else [s[0]] + BeforeFirstSpace(s[1..])
  }

  /** Decimal digits of a natural number, as template literals print it. */
  function NatToString(n: nat): string
    decreases n
  {
    var d := ['0' + (n % 10) as char];
    if n < 10 then d else NatToString(n / 10) + d
  }

  /** `${n}` for an integer. */
  function IntToString(n: int): string {
    if n < 0 then "-" + NatToString(-n) else NatToString(n)
  }
}
