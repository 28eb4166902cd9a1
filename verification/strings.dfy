/** The two string operations of the standard library the core relies on: `includes` and `trim`. */
module Strings {

  /** Code points `String.prototype.trim` removes: the WhiteSpace and LineTerminator
      code points of the ECMAScript language specification. */
  predicate IsSpace(c: char) {
    || c == '\t' || c == '\n' || c == '\U{000B}' || c == '\U{000C}' || c == '\r' || c == ' '
    || c == '\U{00A0}' || c == '\U{1680}' || ('\U{2000}' <= c <= '\U{200A}')
    || c == '\U{2028}' || c == '\U{2029}' || c == '\U{202F}' || c == '\U{205F}'
    || c == '\U{3000}' || c == '\U{FEFF}'
  }

  predicate AllSpace(s: string) {
    forall i :: 0 <= i < |s| ==> IsSpace(s[i])
  }

  /** `t` occurs in `s` starting at position `i`. */
  predicate OccursAt(s: string, t: string, i: int) {
    0 <= i <= |s| - |t| && s[i..i + |t|] == t
  }

  /** `s.includes(t)`: `t` occurs somewhere in `s` (the empty string occurs everywhere). */
  predicate Contains(s: string, t: string) {
    exists i | 0 <= i <= |s| - |t| :: OccursAt(s, t, i)
  }

  /** A string starting with `t` contains it. */
  lemma PrefixContained(t: string, rest: string)
    ensures Contains(t + rest, t)
  {
    assert (t + rest)[0..|t|] == t;
    assert OccursAt(t + rest, t, 0);
  }

  /** A string ending with `t` contains it. */
  lemma SuffixContained(rest: string, t: string)
    ensures Contains(rest + t, t)
  {
    assert (rest + t)[|rest|..|rest| + |t|] == t;
    assert OccursAt(rest + t, t, |rest|);
  }

  /** A string lacking some character of `t` cannot contain `t`. */
  lemma AbsentCharNotContained(s: string, t: string, c: char)
    requires c in t && c !in s
    ensures !Contains(s, t)
  {
    forall i | 0 <= i <= |s| - |t|
      ensures !OccursAt(s, t, i)
    {
      var k :| 0 <= k < |t| && t[k] == c;
      assert s[i..i + |t|][k] == s[i + k];
    }
  }

  /** `s` without its leading whitespace. */
  function TrimStart(s: string): (r: string)
    ensures |r| <= |s| && r == s[|s| - |r|..]
    ensures AllSpace(s[..|s| - |r|])
    ensures r == [] || !IsSpace(r[0])
    decreases |s|
  {
    if |s| > 0 && IsSpace(s[0]) then
      var r := TrimStart(s[1..]);
      assert s[..|s| - |r|] == [s[0]] + s[1..][..|s| - 1 - |r|];
      r
    else s
  }

  /** `s` without its trailing whitespace. */
  function TrimEnd(s: string): (r: string)
    ensures |r| <= |s| && r == s[..|r|]
    ensures AllSpace(s[|r|..])
    ensures r == [] || !IsSpace(r[|r| - 1])
    decreases |s|
  {
    if |s| > 0 && IsSpace(s[|s| - 1]) then TrimEnd(s[..|s| - 1]) else s
  }

  /** `r` is the infix of `s` at position `i`, and everything around it is whitespace. */
  predicate TrimmedAt(s: string, r: string, i: int) {
    && 0 <= i <= |s| - |r|
    && s[i..i + |r|] == r
    && AllSpace(s[..i])
    && AllSpace(s[i + |r|..])
  }

  /** How many whitespace code points `s` starts with. */
  function LeadingSpaces(s: string): nat {
    |s| - |TrimStart(s)|
  }

  /** `s.trim()`: the infix of `s` left after removing whitespace at both ends. */
  function Trim(s: string): (r: string)
    ensures TrimmedAt(s, r, LeadingSpaces(s))
    ensures r == [] <==> AllSpace(s)
    ensures r == [] || (!IsSpace(r[0]) && !IsSpace(r[|r| - 1]))
  {
    var u := TrimStart(s);
    var r := TrimEnd(u);
    TrimSplit(s, u, r);
    r
  }

  lemma TrimSplit(s: string, u: string, r: string)
    requires |u| <= |s| && u == s[|s| - |u|..] && AllSpace(s[..|s| - |u|])
    requires u == [] || !IsSpace(u[0])
    requires |r| <= |u| && r == u[..|r|] && AllSpace(u[|r|..])
    requires r == [] || !IsSpace(r[|r| - 1])
    ensures TrimmedAt(s, r, |s| - |u|)
    ensures r == [] <==> AllSpace(s)
    ensures r == [] || (!IsSpace(r[0]) && !IsSpace(r[|r| - 1]))
  {
    TrimSplitPosition(s, u, r);
    if AllSpace(s) {
      SuffixAllSpace(s, u);
    }
    if r == [] {
      assert u[|r|..] == u;
      assert s == s[..|s| - |u|];
    }
  }

  lemma TrimSplitPosition(s: string, u: string, r: string)
    requires |u| <= |s| && u == s[|s| - |u|..] && AllSpace(s[..|s| - |u|])
    requires |r| <= |u| && r == u[..|r|] && AllSpace(u[|r|..])
    ensures TrimmedAt(s, r, |s| - |u|)
  {
    var i := |s| - |u|;
    assert s[i..i + |r|] == r;
    assert s[i + |r|..] == u[|r|..];
  }

  lemma SuffixAllSpace(s: string, u: string)
    requires |u| <= |s| && u == s[|s| - |u|..] && AllSpace(s)
    ensures AllSpace(u)
  {
    forall k | 0 <= k < |u|
      ensures IsSpace(u[k])
    {
      assert u[k] == s[|s| - |u| + k];
    }
  }

  /** The trimmed text occurs in the original. */
  lemma TrimContained(s: string)
    ensures Contains(s, Trim(s))
  {
    assert OccursAt(s, Trim(s), LeadingSpaces(s));
  }

  /** Trimming twice trims nothing more. */
  lemma TrimIdempotent(s: string)
    ensures Trim(Trim(s)) == Trim(s)
  {
    var r := Trim(s);
    if r != [] {
      assert TrimStart(r) == r;
      assert TrimEnd(r) == r;
    } else {
      assert TrimStart(r) == r;
    }
  }
}
