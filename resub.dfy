/**
 * One pass of Python's `re.sub` over a string: the pattern is tried at each
 * position from left to right; where it matches, the matched text is replaced and
 * the scan resumes after the match, so matches never overlap; elsewhere the
 * character is copied. A pattern is given as a matcher that, at a position,
 * reports the length of the match found there and its replacement text.
 */
module ReSub {
  import opened Wrappers
  import opened Text

  datatype Hit = Hit(len: nat, rep: string)

  /** A matcher's report at `i` is a usable match: non-empty and inside `s`. */
  predicate Usable(s: string, i: nat, h: Option<Hit>)
  {
    h.Some? && 1 <= h.value.len && i + h.value.len <= |s|
  }

  /** The rewritten text of `s[i..]`. */
  function SubFrom(s: string, i: nat, m: (string, nat) -> Option<Hit>): string
    requires i <= |s|
    decreases |s| - i
  {
    if i == |s| then ""
    else
      var h := m(s, i);
      if Usable(s, i, h) then h.value.rep + SubFrom(s, i + h.value.len, m)
      else [s[i]] + SubFrom(s, i + 1, m)
  }

  function Sub(s: string, m: (string, nat) -> Option<Hit>): string
  {
    SubFrom(s, 0, m)
  }

  /** A position where the pattern matches nothing is copied through. */
  predicate NoHitAt(s: string, i: nat, m: (string, nat) -> Option<Hit>)
  {
    !Usable(s, i, m(s, i))
  }

  /** Where the pattern matches nowhere in `s[i..k]`, that stretch is copied unchanged. */
  lemma {:induction false} CopyStretch(s: string, i: nat, k: nat, m: (string, nat) -> Option<Hit>)
    requires i <= k <= |s|
    requires forall j :: i <= j < k ==> NoHitAt(s, j, m)
    ensures SubFrom(s, i, m) == s[i..k] + SubFrom(s, k, m)
    decreases k - i
  {
    if i < k {
      assert NoHitAt(s, i, m);
      CopyStretch(s, i + 1, k, m);
      calc {
        SubFrom(s, i, m);
        [s[i]] + SubFrom(s, i + 1, m);
        [s[i]] + (s[i + 1..k] + SubFrom(s, k, m));
        { assert [s[i]] + s[i + 1..k] == s[i..k]; }
        s[i..k] + SubFrom(s, k, m);
      }
    }
  }

  /** A pattern that matches nowhere leaves the text unchanged. */
  lemma NoHitUnchanged(s: string, m: (string, nat) -> Option<Hit>)
    requires forall j :: 0 <= j < |s| ==> NoHitAt(s, j, m)
    ensures Sub(s, m) == s
  {
    CopyStretch(s, 0, |s|, m);
  }

  /** A match at `i` is replaced and the scan resumes right after it. */
  lemma HitStep(s: string, i: nat, m: (string, nat) -> Option<Hit>)
    requires i < |s| && Usable(s, i, m(s, i))
    ensures SubFrom(s, i, m) == m(s, i).value.rep + SubFrom(s, i + m(s, i).value.len, m)
  {
  }

  /** With a single match at `i`, the result is the text before it, the replacement, and the text after it. */
  lemma SingleHit(s: string, i: nat, m: (string, nat) -> Option<Hit>)
    requires i < |s| && Usable(s, i, m(s, i))
    requires forall j :: 0 <= j < i ==> NoHitAt(s, j, m)
    requires forall j :: i + m(s, i).value.len <= j < |s| ==> NoHitAt(s, j, m)
    ensures Sub(s, m) == s[..i] + m(s, i).value.rep + s[i + m(s, i).value.len..]
  {
    var e := i + m(s, i).value.len;
    var rep := m(s, i).value.rep;
    CopyStretch(s, 0, i, m);
    HitStep(s, i, m);
    CopyStretch(s, e, |s|, m);
    assert SubFrom(s, |s|, m) == "";
    assert s[0..i] == s[..i] && s[e..|s|] + "" == s[e..];
    AppendAssoc(s[..i], rep, s[e..]);
  }

  /** First index at or after `j` that is not whitespace, `|s|` if there is none: the end of a greedy `\s*`. */
  function SpaceEnd(s: string, j: nat): (k: nat)
    requires j <= |s|
    ensures j <= k <= |s|
    ensures AllSpace(s[j..k])
    ensures k < |s| ==> !IsSpace(s[k])
    decreases |s| - j
  {
    if j == |s| || !IsSpace(s[j]) then j
    else
      var k := SpaceEnd(s, j + 1);
      assert s[j..k] == [s[j]] + s[j + 1..k];
      k
  }

  /** A greedy `\s*` at a non-space character consumes nothing. */
  lemma SpaceEndHere(s: string, j: nat)
    requires j < |s| && !IsSpace(s[j])
    ensures SpaceEnd(s, j) == j
  {
  }

  /** A greedy `\s*` at a single space before a non-space character consumes that space. */
  lemma SpaceEndNext(s: string, j: nat)
    requires j + 1 < |s| && IsSpace(s[j]) && !IsSpace(s[j + 1])
    ensures SpaceEnd(s, j) == j + 1
  {
  }

  /** A whitespace run from `j` that stops at `k` is what a greedy `\s*` at `j` consumes. */
  lemma {:induction false} SpaceRunEnd(s: string, j: nat, k: nat)
    requires j <= k <= |s| && AllSpace(s[j..k]) && (k < |s| ==> !IsSpace(s[k]))
    ensures SpaceEnd(s, j) == k
    decreases k - j
  {
    if j < k {
      assert IsSpace(s[j..k][0]);
      assert s[j + 1..k] == s[j..k][1..];
      SpaceRunEnd(s, j + 1, k);
    }
  }

  /** The last index of `c` in `t`, if any. */
  function LastIndexOf(t: string, c: char): (r: Option<nat>)
    ensures r.Some? ==> r.value < |t| && t[r.value] == c && c !in t[r.value + 1..]
    ensures r.None? ==> c !in t
  {
    if |t| == 0 then None
    else if t[|t| - 1] == c then Some(|t| - 1)
    else match LastIndexOf(t[..|t| - 1], c)
      case None => assert t == t[..|t| - 1] + [t[|t| - 1]]; None
      case Some(p) =>
        assert t[p + 1..] == t[..|t| - 1][p + 1..] + [t[|t| - 1]];
        Some(p)
  }
}
