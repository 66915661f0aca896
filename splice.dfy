/**
 * `array.splice(start, 1)` as the delete handler uses it: remove at most one
 * element, at a start position that ECMAScript's Array.prototype.splice
 * resolves from the argument (a negative start counts from the end, and is
 * clamped to 0; a start at or past the end removes nothing).
 */
module Splice {

  /** The position splice actually starts at, for a list of length `len`. */
  function ActualStart(len: nat, start: int): (k: nat)
    ensures k <= len
  {
    if start < 0 then
      if len + start < 0 then 0 else len + start
    else if start < len then start
    else len
  }

  /** The list left after `splice(start, 1)`. */
  function SpliceOne<T>(s: seq<T>, start: int): (r: seq<T>)
    ensures ActualStart(|s|, start) < |s| ==>
      var k := ActualStart(|s|, start);
      && |r| == |s| - 1
      && (forall j :: 0 <= j < k ==> r[j] == s[j])
      && (forall j :: k <= j < |r| ==> r[j] == s[j + 1])
      && multiset(r) + multiset{s[k]} == multiset(s)
    ensures ActualStart(|s|, start) == |s| ==> r == s
  {
    var k := ActualStart(|s|, start);
    if k < |s| then
      assert s == s[..k] + [s[k]] + s[k + 1..];
      s[..k] + s[k + 1..]
    else
      s
  }

  /**
   * A valid index `0 <= i < n` removes exactly that element and keeps the
   * rest in their original relative order: what remains is the list with
   * the element at `i` cut out.
   */
  lemma RemoveValidIndex<T>(s: seq<T>, i: int)
    requires 0 <= i < |s|
    ensures SpliceOne(s, i) == s[..i] + s[i + 1..]
    ensures |SpliceOne(s, i)| == |s| - 1
  {
  }

  /** An index at or past the end leaves the list unchanged. */
  lemma PastEndIsNoOp<T>(s: seq<T>, i: int)
    requires |s| <= i
    ensures SpliceOne(s, i) == s
  {
  }

  /** A negative index `-m` with `m <= n` removes the element `m` from the end. */
  lemma NegativeIndexFromEnd<T>(s: seq<T>, m: int)
    requires 1 <= m <= |s|
    ensures SpliceOne(s, -m) == SpliceOne(s, |s| - m)
  {
  }

  /** A negative index below `-n` is clamped to 0 and removes the first element. */
  lemma BelowStartRemovesFirst<T>(s: seq<T>, start: int)
    requires 1 <= |s| && start < -|s|
    ensures SpliceOne(s, start) == s[1..]
  {
  }
}
