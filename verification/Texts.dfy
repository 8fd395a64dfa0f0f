/** Trimming of white space, as the program's string library does it. */
module Texts {

  predicate IsSpace(c: char) {
    || '\U{9}' <= c <= '\U{d}' || c == ' ' || c == '\U{85}' || c == '\U{a0}' || c == '\U{1680}'
    || '\U{2000}' <= c <= '\U{200a}' || c == '\U{2028}' || c == '\U{2029}' || c == '\U{202f}' || c == '\U{205f}'
      || c == '\U{3000}'
  }

  /** The first index from `lo` on that is not white space, or the end. */
  function Start(s: string, lo: nat): nat
    requires lo <= |s|
    decreases |s| - lo
  {
    if lo < |s| && IsSpace(s[lo]) then Start(s, lo + 1) else lo
  }

  /** The end of `s[lo..hi]` without white space at its end. */
  function End(s: string, lo: nat, hi: nat): nat
    requires lo <= hi <= |s|
    decreases hi
  {
    if lo < hi && IsSpace(s[hi - 1]) then End(s, lo, hi - 1) else hi
  }

  lemma {:induction false} StartBounds(s: string, lo: nat)
    requires lo <= |s|
    ensures lo <= Start(s, lo) <= |s| && (Start(s, lo) < |s| ==> !IsSpace(s[Start(s, lo)]))
    decreases |s| - lo
  {
    if lo < |s| && IsSpace(s[lo]) { StartBounds(s, lo + 1); }
  }

  lemma {:induction false} EndBounds(s: string, lo: nat, hi: nat)
    requires lo <= hi <= |s|
    ensures lo <= End(s, lo, hi) <= hi && (lo < End(s, lo, hi) ==> !IsSpace(s[End(s, lo, hi) - 1]))
    ensures lo < hi && !IsSpace(s[lo]) ==> lo < End(s, lo, hi)
    decreases hi
  {
    if lo < hi && IsSpace(s[hi - 1]) { EndBounds(s, lo, hi - 1); }
  }

  function Trim(s: string): string {
    StartBounds(s, 0);
    var lo := Start(s, 0);
    EndBounds(s, lo, |s|);
    s[lo..End(s, lo, |s|)]
  }

  /** A trimmed text has no white space at either end. */
  lemma TrimIsTight(s: string)
    ensures var r := Trim(s); r == [] || (!IsSpace(r[0]) && !IsSpace(r[|r| - 1]))
  {
    StartBounds(s, 0);
    EndBounds(s, Start(s, 0), |s|);
  }

  /** A text without outer white space is left alone. */
  lemma TrimKeeps(s: string)
    requires s == [] || (!IsSpace(s[0]) && !IsSpace(s[|s| - 1]))
    ensures Trim(s) == s
  {
  }

  lemma TrimTwice(s: string)
    ensures Trim(Trim(s)) == Trim(s)
  {
    TrimIsTight(s);
    TrimKeeps(Trim(s));
  }
}
