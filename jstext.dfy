/**
 * The two JavaScript string operations the users page relies on:
 * `String.prototype.trim` and `Array.prototype.join` over strings.
 */
module JsText {

  /** The code points `trim` strips: ECMAScript WhiteSpace (TAB, VT, FF, ZWNBSP and
      every Zs space separator) and LineTerminator (LF, CR, LS, PS). */
  predicate IsSpace(c: char) {
    c == '\t' || c == '\U{000B}' || c == '\U{000C}' || c == ' ' || c == '\U{00A0}' || c == '\U{FEFF}'
    || c == '\n' || c == '\r' || c == '\U{2028}' || c == '\U{2029}'
    || c == '\U{1680}' || ('\U{2000}' <= c <= '\U{200A}') || c == '\U{202F}' || c == '\U{205F}' || c == '\U{3000}'
  }

  predicate AllSpace(s: string) {
    forall i :: 0 <= i < |s| ==> IsSpace(s[i])
  }

  /** A string `trim` leaves alone: empty, or starting and ending with a non-space. */
  predicate Trimmed(s: string) {
    s == [] || (!IsSpace(s[0]) && !IsSpace(s[|s| - 1]))
  }

  /** The first index at or after `i` that does not hold whitespace (or `|s|`). */
  function SkipForward(s: string, i: nat): (k: nat)
    requires i <= |s|
    ensures i <= k <= |s|
    ensures forall m :: i <= m < k ==> IsSpace(s[m])
    ensures k < |s| ==> !IsSpace(s[k])
    decreases |s| - i
  {
    if i < |s| && IsSpace(s[i]) then SkipForward(s, i + 1) else i
  }

  /** The end of `s[lo..j]` once its trailing whitespace is dropped. */
  function SkipBackward(s: string, lo: nat, j: nat): (k: nat)
    requires lo <= j <= |s|
    ensures lo <= k <= j
    ensures forall m :: k <= m < j ==> IsSpace(s[m])
    ensures k > lo ==> !IsSpace(s[k - 1])
    decreases j - lo
  {
    if j > lo && IsSpace(s[j - 1]) then SkipBackward(s, lo, j - 1) else j
  }

  /** `s.trim()`: the slice of `s` between a leading and a trailing run of whitespace,
      empty exactly when `s` is all whitespace. */
  function Trim(s: string): (r: string)
    ensures Trimmed(r)
    ensures r == [] <==> AllSpace(s)
    ensures exists i :: 0 <= i <= |s| - |r| && r == s[i..i + |r|] && AllSpace(s[..i]) && AllSpace(s[i + |r|..])
  {
    var i := SkipForward(s, 0);
    var j := SkipBackward(s, i, |s|);
    assert AllSpace(s[..i]) && AllSpace(s[j..]);
    assert i < |s| ==> j > i;
    s[i..j]
  }

  /** The reference characterisation of `trim`: whatever whitespace surrounds a trimmed core,
      trimming returns exactly that core. */
  lemma {:induction false} TrimUnique(lead: string, core: string, trail: string)
    requires AllSpace(lead) && AllSpace(trail) && Trimmed(core)
    ensures Trim(lead + core + trail) == core
  {
    var s := lead + core + trail;
    if core == [] {
      assert AllSpace(s) by { assert s == lead + trail; }
    } else {
      var i, j := |lead|, |lead| + |core|;
      assert s[i] == core[0] && s[j - 1] == core[|core| - 1];
      assert forall m :: 0 <= m < i ==> IsSpace(s[m]) by { assert forall m :: 0 <= m < i ==> s[m] == lead[m]; }
      assert forall m :: j <= m < |s| ==> IsSpace(s[m]) by { assert forall m :: j <= m < |s| ==> s[m] == trail[m - j]; }
      assert SkipForward(s, 0) == i;
      assert SkipBackward(s, i, |s|) == j;
      assert s[i..j] == core;
    }
  }

  /** Trimming twice is trimming once; it follows from the contract of `Trim`. */
  lemma TrimIdempotent(s: string)
    ensures Trim(Trim(s)) == Trim(s)
  {
  }

  /** `xs.join(sep)`: the items in order with `sep` between neighbours. */
  function Join(xs: seq<string>, sep: string): (r: string)
    ensures |xs| == 1 ==> r == xs[0]
    ensures |xs| > 0 ==> |r| == TotalLength(xs) + (|xs| - 1) * |sep|
  {
    if |xs| == 0 then ""
    else if |xs| == 1 then xs[0]
    else xs[0] + sep + Join(xs[1..], sep)
  }

  function TotalLength(xs: seq<string>): nat {
    if xs == [] then 0 else |xs[0]| + TotalLength(xs[1..])
  }

  /** With a non-empty separator, the join is empty only for no items or one empty item. */
  lemma JoinEmptyIff(xs: seq<string>, sep: string)
    requires sep != ""
    ensures Join(xs, sep) == "" <==> |xs| == 0 || (|xs| == 1 && xs[0] == "")
  {
    if |xs| >= 2 {
      assert |Join(xs, sep)| >= (|xs| - 1) * |sep| >= |sep|;
    }
  }
}
