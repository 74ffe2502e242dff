/** The parts of Go's strings package that the modelled code relies on. */
module Strings {

  /** unicode.IsSpace */
  predicate IsSpace(c: char) {
    || '\t' <= c <= '\r' || c == ' '
    || c == '\U{0085}' || c == '\U{00A0}' || c == '\U{1680}'
    || '\U{2000}' <= c <= '\U{200A}'
    || c == '\U{2028}' || c == '\U{2029}' || c == '\U{202F}' || c == '\U{205F}' || c == '\U{3000}'
  }

  function TrimLeft(s: string): (r: string)
    ensures |r| <= |s|
    ensures r == "" || !IsSpace(r[0])
  {
    if s != "" && IsSpace(s[0]) then TrimLeft(s[1..]) else s
  }

  function TrimRight(s: string): (r: string)
    ensures r <= s
    ensures r == "" || !IsSpace(r[|r| - 1])
  {
    if s != "" && IsSpace(s[|s| - 1]) then TrimRight(s[..|s| - 1]) else s
  }

  /** strings.TrimSpace */
  function TrimSpace(s: string): (r: string)
    ensures |r| <= |s|
    ensures Trimmed(r)
  {
    TrimRight(TrimLeft(s))
  }

  predicate Trimmed(s: string) {
    s == "" || (!IsSpace(s[0]) && !IsSpace(s[|s| - 1]))
  }

  /** Trimming changes exactly the strings with a space at an end. */
  lemma TrimSpaceFixes(s: string)
    ensures TrimSpace(s) == s <==> Trimmed(s)
  {
  }

  ghost predicate AllSpaces(s: string) {
    forall i :: 0 <= i < |s| ==> IsSpace(s[i])
  }

  /** `r` is s between two runs of spaces, and has no space at an end itself. */
  ghost predicate TrimsTo(s: string, r: string) {
    Trimmed(r) && exists left, right :: Surrounds(s, left, r, right)
  }

  ghost predicate Surrounds(s: string, left: string, r: string, right: string) {
    s == left + r + right && AllSpaces(left) && AllSpaces(right)
  }

  lemma {:induction false} TrimLeftCuts(s: string) returns (left: string)
    ensures s == left + TrimLeft(s) && AllSpaces(left)
  {
    left := "";
    if s != "" && IsSpace(s[0]) {
      var rest := TrimLeftCuts(s[1..]);
      left := [s[0]] + rest;
    }
  }

  lemma {:induction false} TrimRightCuts(s: string) returns (right: string)
    ensures s == TrimRight(s) + right && AllSpaces(right)
  {
    right := "";
    if s != "" && IsSpace(s[|s| - 1]) {
      var rest := TrimRightCuts(s[..|s| - 1]);
      right := rest + [s[|s| - 1]];
    }
  }

  lemma {:induction false} TrimLeftSkips(left: string, s: string)
    requires AllSpaces(left) && (s == "" || !IsSpace(s[0]))
    ensures TrimLeft(left + s) == s
  {
    if left == "" {
      assert left + s == s;
    } else {
      assert (left + s)[1..] == left[1..] + s;
      TrimLeftSkips(left[1..], s);
    }
  }

  lemma {:induction false} TrimRightSkips(s: string, right: string)
    requires AllSpaces(right) && (s == "" || !IsSpace(s[|s| - 1]))
    ensures TrimRight(s + right) == s
  {
    if right == "" {
      assert s + right == s;
    } else {
      assert (s + right)[..|s + right| - 1] == s + right[..|right| - 1];
      TrimRightSkips(s, right[..|right| - 1]);
    }
  }

  lemma {:induction false} TrimLeftOfSpaces(s: string)
    requires AllSpaces(s)
    ensures TrimLeft(s) == ""
  {
    if s != "" {
      TrimLeftOfSpaces(s[1..]);
    }
  }

  lemma TrimSpaceOf(left: string, r: string, right: string)
    requires AllSpaces(left) && AllSpaces(right) && Trimmed(r)
    ensures TrimSpace(left + (r + right)) == r
  {
    if r == "" {
      assert left + (r + right) == left + right;
      TrimLeftOfSpaces(left + right);
    } else {
      TrimLeftSkips(left, r + right);
      TrimRightSkips(r, right);
    }
  }

  /** Trimming removes the outer spaces, all of them and nothing else. */
  lemma TrimSpaceIff(s: string, r: string)
    ensures TrimSpace(s) == r <==> TrimsTo(s, r)
  {
    var left := TrimLeftCuts(s);
    var right := TrimRightCuts(TrimLeft(s));
    assert Surrounds(s, left, TrimSpace(s), right);
    if TrimsTo(s, r) {
      var l, t :| Surrounds(s, l, r, t);
      assert s == l + (r + t);
      TrimSpaceOf(l, r, t);
    }
  }

  /** strings.HasPrefix is Dafny's prefix order; this names it. */
  predicate HasPrefix(s: string, prefix: string) {
    prefix <= s
  }

  predicate OccursAt(s: string, needle: string, at: nat) {
    at <= |s| && needle <= s[at..]
  }

  /** strings.Index for a needle that occurs, |s| otherwise. */
  function IndexOf(s: string, needle: string): (i: nat)
    ensures i <= |s|
    ensures i < |s| ==> OccursAt(s, needle, i)
    ensures forall j :: 0 <= j < i ==> !OccursAt(s, needle, j)
  {
    if s == "" || needle <= s then 0
    else
      var i := 1 + IndexOf(s[1..], needle);
      assert forall j :: 1 <= j <= |s| ==> OccursAt(s, needle, j) == OccursAt(s[1..], needle, j - 1) by {
        forall j | 1 <= j <= |s|
          ensures OccursAt(s, needle, j) == OccursAt(s[1..], needle, j - 1)
        {
          assert s[j..] == s[1..][j - 1..];
        }
      }
      i
  }

  /** strings.Contains */
  predicate Contains(s: string, needle: string)
    requires needle != ""
  {
    IndexOf(s, needle) < |s|
  }

  lemma ContainsIff(s: string, needle: string)
    requires needle != ""
    ensures Contains(s, needle) <==> exists i: nat :: OccursAt(s, needle, i)
  {
    if i: nat :| OccursAt(s, needle, i) {
      assert i < |s|;
    }
  }

  /** strings.Replace(s, old, new, 1) */
  function ReplaceFirst(s: string, needle: string, replacement: string): string
    requires needle != ""
  {
    var i := IndexOf(s, needle);
    if i < |s| then s[..i] + replacement + s[i + |needle|..] else s
  }

  /** strings.Cut at a one-character separator. */
  function CutBefore(s: string, sep: char): (r: string)
    ensures sep !in r
  {
    if s == "" || s[0] == sep then "" else [s[0]] + CutBefore(s[1..], sep)
  }

  function CutAfter(s: string, sep: char): (r: string)
    ensures s == CutBefore(s, sep) + (if sep in s then [sep] + r else "")
    ensures sep !in s ==> r == ""
  {
    if s == "" then "" else if s[0] == sep then s[1..] else CutAfter(s[1..], sep)
  }

  function LowerAscii(c: char): char {
    if 'A' <= c <= 'Z' then c - 'A' + 'a' else c
  }

  /** strings.ToLower as far as lower-case ASCII needles can tell. */
  function ToLower(s: string): (r: string)
    ensures |r| == |s|
    ensures forall i :: 0 <= i < |s| ==> r[i] == LowerAscii(s[i])
  {
    if s == "" then "" else [LowerAscii(s[0])] + ToLower(s[1..])
  }
}
