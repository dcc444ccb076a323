/** The three JavaScript string operations the campground virtuals use:
    `indexOf`, `replace` with a string pattern (first occurrence only) and
    `substring`. A string is a sequence of Dafny `char`s, which are Unicode
    scalar values; JavaScript's strings are UTF-16 code units, which agree
    with them on text made of Basic Multilingual Plane characters only. */
module JsString {
  import opened Express

  /** `pat` occurs in `s` starting at index `i`. */
  predicate OccursAt(s: string, pat: string, i: nat)
  {
    i + |pat| <= |s| && s[i..i + |pat|] == pat
  }

  /** `s.indexOf(pat, from)` for a position within the string: the first
      index at or after `from` where `pat` occurs, or `None` (JavaScript's
      -1). JavaScript clamps a larger position to `|s|`; no caller passes
      one. */
  function IndexOfFrom(s: string, pat: string, from: nat): (r: Option<nat>)
    requires from <= |s|
    ensures r.Some? ==> from <= r.value && OccursAt(s, pat, r.value)
    ensures r.Some? ==> forall j :: from <= j < r.value ==> !OccursAt(s, pat, j)
    ensures r.None? ==> forall j :: from <= j ==> !OccursAt(s, pat, j)
    decreases |s| - from
  {
    if |s| < from + |pat| then None
    else if s[from..from + |pat|] == pat then Some(from)
    else IndexOfFrom(s, pat, from + 1)
  }

  /** `s.indexOf(pat)`. */
  function IndexOf(s: string, pat: string): (r: Option<nat>)
    ensures r.Some? ==> OccursAt(s, pat, r.value)
    ensures r.Some? ==> forall j: nat :: j < r.value ==> !OccursAt(s, pat, j)
    ensures r.None? <==> forall j: nat :: !OccursAt(s, pat, j)
  {
    IndexOfFrom(s, pat, 0)
  }

  /** `s.replace(pat, rep)` with a string pattern: only the first occurrence
      of `pat` is replaced. The `$` substitution patterns of the replacement
      string are not modelled, so `rep` must not contain `$`. */
  function ReplaceFirst(s: string, pat: string, rep: string): (r: string)
    requires '$' !in rep
    ensures IndexOf(s, pat).None? ==> r == s
    ensures IndexOf(s, pat).Some? ==> |r| == |s| - |pat| + |rep|
    ensures IndexOf(s, pat).Some? ==>
      var i := IndexOf(s, pat).value;
      r[..i] == s[..i] && r[i..i + |rep|] == rep && r[i + |rep|..] == s[i + |pat|..]
  {
    match IndexOf(s, pat)
    case None => s
    case Some(i) => s[..i] + rep + s[i + |pat|..]
  }

  /** An index clamped to `[0, n]`. */
  function Clamp(i: int, n: nat): (c: nat)
    ensures c <= n
    ensures 0 <= i <= n ==> c == i
    ensures i <= 0 ==> c == 0
    ensures n <= i ==> c == n
  {
    if i < 0 then 0 else if i > n then n else i
  }

  /** `s.substring(start, end)`: both indices are clamped to `[0, |s|]` and
      swapped when `start > end`. */
  function Substring(s: string, start: int, end: int): (r: string)
    ensures |r| <= |s|
    ensures start <= end ==> r == s[Clamp(start, |s|)..Clamp(end, |s|)]
    ensures end <= start ==> r == s[Clamp(end, |s|)..Clamp(start, |s|)]
  {
    var a, b := Clamp(start, |s|), Clamp(end, |s|);
    if a <= b then s[a..b] else s[b..a]
  }
}
