/**
 * The Python string built-ins the git probe relies on: `str.strip()`,
 * `str.splitlines()` and `os.path.basename` (POSIX).
 */
module PyText {
  /** The characters for which `str.isspace()` holds, so the ones `strip()` removes. */
  predicate IsSpace(c: char)
  {
    c == ' ' || ('\t' <= c <= '\r') || ('\U{1c}' <= c <= '\U{1f}') ||
    c == '\U{85}' || c == '\U{a0}' || c == '\U{1680}' ||
    ('\U{2000}' <= c <= '\U{200a}') || c == '\U{2028}' || c == '\U{2029}' ||
    c == '\U{202f}' || c == '\U{205f}' || c == '\U{3000}'
  }

  /** The characters at which `str.splitlines()` ends a line (`\r\n` counts as one boundary). */
  predicate IsLineBreak(c: char)
  {
    ('\n' <= c <= '\r') || ('\U{1c}' <= c <= '\U{1e}') ||
    c == '\U{85}' || c == '\U{2028}' || c == '\U{2029}'
  }

  /** The end of the run of whitespace that starts at `i`. */
  function SpaceRunFrom(s: string, i: nat): (n: nat)
    requires i <= |s|
    ensures i <= n <= |s|
    ensures forall k :: i <= k < n ==> IsSpace(s[k])
    ensures n < |s| ==> !IsSpace(s[n])
    decreases |s| - i
  {
    if i < |s| && IsSpace(s[i]) then SpaceRunFrom(s, i + 1) else i
  }

  /** The start of the run of whitespace that ends at `j`, not going below `lo`. */
  function SpaceRunTo(s: string, lo: nat, j: nat): (n: nat)
    requires lo <= j <= |s|
    ensures lo <= n <= j
    ensures forall k :: n <= k < j ==> IsSpace(s[k])
    ensures n > lo ==> !IsSpace(s[n - 1])
    decreases j
  {
    if j > lo && IsSpace(s[j - 1]) then SpaceRunTo(s, lo, j - 1) else j
  }

  /** Where the text of `s.strip()` starts: after the leading whitespace. */
  function StripStart(s: string): nat
  {
    SpaceRunFrom(s, 0)
  }

  /**
   * `s.strip()`: the slice of `s` between its leading and its trailing
   * whitespace.
   */
  function Strip(s: string): (r: string)
    ensures r == [] || (!IsSpace(r[0]) && !IsSpace(r[|r| - 1]))
    ensures r == [] <==> forall i :: 0 <= i < |s| ==> IsSpace(s[i])
    ensures StripStart(s) + |r| <= |s| && r == s[StripStart(s)..StripStart(s) + |r|]
    ensures forall k :: 0 <= k < StripStart(s) ==> IsSpace(s[k])
    ensures forall k :: StripStart(s) + |r| <= k < |s| ==> IsSpace(s[k])
  {
    var i := SpaceRunFrom(s, 0);
    var j := SpaceRunTo(s, i, |s|);
    assert j > i ==> s[i..j][0] == s[i] && s[i..j][j - i - 1] == s[j - 1];
    s[i..j]
  }

  /** Index of the first line boundary in `s`, or `|s|` when there is none. */
  function FirstBreak(s: string): (k: nat)
    ensures k <= |s|
    ensures k < |s| ==> IsLineBreak(s[k])
    ensures forall i :: 0 <= i < k ==> !IsLineBreak(s[i])
  {
    if s == [] || IsLineBreak(s[0]) then 0 else 1 + FirstBreak(s[1..])
  }

  /** `s.splitlines()`: the lines of `s` without their boundaries; a final boundary opens no new line. */
  function SplitLines(s: string): (lines: seq<string>)
    ensures lines == [] <==> s == []
    ensures |lines| <= |s|
    ensures forall i, j :: 0 <= i < |lines| && 0 <= j < |lines[i]| ==> !IsLineBreak(lines[i][j])
    decreases |s|
  {
    if s == [] then []
    else
      var k := FirstBreak(s);
      if k == |s| then [s]
      else
        var next := if s[k] == '\r' && k + 1 < |s| && s[k + 1] == '\n' then k + 2 else k + 1;
        [s[..k]] + SplitLines(s[next..])
  }

  /** The position just past the line boundary that starts at `s[0]`. */
  function BreakEnd(s: string): nat
    requires s != [] && IsLineBreak(s[0])
  {
    if s[0] == '\r' && |s| > 1 && s[1] == '\n' then 2 else 1
  }

  /** The number of line boundaries in `s`, `\r\n` counting once. */
  function Breaks(s: string): nat
  {
    if s == [] then 0
    else if IsLineBreak(s[0]) then 1 + Breaks(s[BreakEnd(s)..])
    else Breaks(s[1..])
  }

  /** Text free of boundaries in front adds none. */
  lemma {:induction false} BreaksAfterPlainPrefix(s: string, k: nat)
    requires k <= |s|
    requires forall i :: 0 <= i < k ==> !IsLineBreak(s[i])
    ensures Breaks(s) == Breaks(s[k..])
    decreases k
  {
    if k > 0 {
      BreaksAfterPlainPrefix(s[1..], k - 1);
      assert s[1..][k - 1..] == s[k..];
    }
  }

  /**
   * `splitlines()` yields one line per boundary, and one more for text after
   * the last boundary.
   */
  lemma {:induction false} SplitLinesCount(s: string)
    ensures |SplitLines(s)| == Breaks(s) + (if s != [] && !IsLineBreak(s[|s| - 1]) then 1 else 0)
    decreases |s|
  {
    if s != [] {
      var k := FirstBreak(s);
      BreaksAfterPlainPrefix(s, k);
      if k < |s| {
        var t := s[k..];
        var next := if s[k] == '\r' && k + 1 < |s| && s[k + 1] == '\n' then k + 2 else k + 1;
        assert BreakEnd(t) == next - k;
        assert t[BreakEnd(t)..] == s[next..];
        SplitLinesCount(s[next..]);
        if next == |s| {
          assert IsLineBreak(s[|s| - 1]);
        } else {
          assert s[next..][|s| - next - 1] == s[|s| - 1];
        }
      }
    }
  }

  /** `os.path.basename(p)`: what follows the last `/`. */
  function Basename(p: string): (r: string)
    ensures '/' !in r
    ensures |r| <= |p| && r == p[|p| - |r|..]
    ensures |r| < |p| ==> p[|p| - |r| - 1] == '/'
  {
    if p == [] || p[|p| - 1] == '/' then [] else Basename(p[..|p| - 1]) + [p[|p| - 1]]
  }
}
