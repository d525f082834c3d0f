/** The three ECMAScript string methods the submission path uses: `indexOf`, `slice` and `startsWith`. */
module JsString {

  /** `sub` occurs in `s` starting at index `k`. */
  predicate OccursAt(s: string, sub: string, k: int) {
    0 <= k && k + |sub| <= |s| && s[k..k + |sub|] == sub
  }

  ghost predicate Occurs(s: string, sub: string) {
    exists k :: OccursAt(s, sub, k)
  }

  /** `s.indexOf(sub, from)` for a position inside the string: the first index at or after `from` where `sub` occurs, or -1. */
  function IndexOfFrom(s: string, sub: string, from: nat): (i: int)
    requires from <= |s|
    ensures i == -1 ==> forall k :: from <= k ==> !OccursAt(s, sub, k)
    ensures i != -1 ==> from <= i && OccursAt(s, sub, i)
    ensures i != -1 ==> forall k :: from <= k < i ==> !OccursAt(s, sub, k)
    decreases |s| - from
  {
    if from + |sub| > |s| then -1
    else if s[from..from + |sub|] == sub then from
    else IndexOfFrom(s, sub, from + 1)
  }

  /** `s.indexOf(sub)`: the first occurrence of `sub`, or -1 exactly when there is none. */
  function IndexOf(s: string, sub: string): (i: int)
    ensures i == -1 <==> !Occurs(s, sub)
    ensures i != -1 ==> OccursAt(s, sub, i) && forall k :: 0 <= k < i ==> !OccursAt(s, sub, k)
  {
    IndexOfFrom(s, sub, 0)
  }

  /**
   * `s.slice(start)`: the suffix starting at `start`; a negative `start` counts
   * back from the end (clamped at the beginning), one past the end gives "".
   */
  function Slice(s: string, start: int): (r: string)
    ensures |r| <= |s| && r == s[|s| - |r|..]
    ensures start < 0 ==> |r| == if |s| + start < 0 then |s| else -start
    ensures 0 <= start ==> |r| == if start < |s| then |s| - start else 0
  {
    if start < 0 then
      (if |s| + start < 0 then s else s[|s| + start..])
    else if start < |s| then s[start..]
    else []
  }

  /** `s.startsWith(prefix)`. */
  predicate StartsWith(s: string, prefix: string) {
    |prefix| <= |s| && s[..|prefix|] == prefix
  }
}
