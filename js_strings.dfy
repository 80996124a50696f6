/**
 * The two JavaScript string operations the widget relies on:
 * `String.prototype.indexOf` (first index of a substring, or -1) and
 * `String.prototype.includes`.  Strings are sequences of UTF-16 code
 * units in JavaScript; here they are `seq<char>`.
 */
module JsStrings {

  /** `sub` occurs in `s` starting at position `j`. */
  ghost predicate OccursAt(s: string, sub: string, j: int) {
    0 <= j && j + |sub| <= |s| && s[j..j + |sub|] == sub
  }

  /** The reference meaning of "s contains sub". */
  ghost predicate Contains(s: string, sub: string) {
    exists j :: OccursAt(s, sub, j)
  }

  /** `s.indexOf(sub, k)`: the first position at or after `k` where `sub` occurs, or -1. */
  function IndexOfFrom(s: string, sub: string, k: nat): (r: int)
    requires k <= |s|
    ensures r == -1 || (k <= r && OccursAt(s, sub, r))
    ensures r == -1 ==> forall j :: k <= j ==> !OccursAt(s, sub, j)
    ensures r != -1 ==> forall j :: k <= j < r ==> !OccursAt(s, sub, j)
    decreases |s| - k
  {
    if k + |sub| > |s| then -1
    else if s[k..k + |sub|] == sub then k
    else IndexOfFrom(s, sub, k + 1)
  }

  /** `s.indexOf(sub)`. */
  function IndexOf(s: string, sub: string): (r: int)
    ensures r == -1 <==> !Contains(s, sub)
    ensures r != -1 ==> OccursAt(s, sub, r) && forall j :: 0 <= j < r ==> !OccursAt(s, sub, j)
  {
    var r := IndexOfFrom(s, sub, 0);
    assert r != -1 ==> OccursAt(s, sub, r);
    r
  }

  /** `s.includes(sub)`: true exactly when `sub` occurs somewhere in `s`. */
  function Includes(s: string, sub: string): (b: bool)
    ensures b <==> Contains(s, sub)
  {
    IndexOf(s, sub) > -1
  }
}
