/** The JavaScript Array built-ins the route handlers rely on. */
module JsArray {

  /** `Array.prototype.indexOf`: the first index holding `x` (strict
      equality), or -1 when there is none. */
  function IndexOf<T(==)>(s: seq<T>, x: T): (r: int)
    ensures -1 <= r < |s|
    ensures r == -1 <==> x !in s
    ensures 0 <= r ==> s[r] == x
    ensures forall j :: 0 <= j < r ==> s[j] != x
  {
    if |s| == 0 then -1
    else if s[0] == x then 0
    else
      var k := IndexOf(s[1..], x);
      if k < 0 then -1 else k + 1
  }

  /** The index `splice(start, 1)` starts at: a negative `start` counts back
      from the end (clamped at 0), a large one is clamped at the length. */
  function SpliceStart(len: nat, start: int): (k: nat)
  {
    if start < 0 then (if len + start < 0 then 0 else len + start)
    else if start > len then len
    else start
  }

  /** The array left behind by `a.splice(start, 1)`: one element removed at
      the (normalised) start, or nothing when the start is past the end. */
  function SpliceOne<T>(s: seq<T>, start: int): (r: seq<T>)
  {
    var k := SpliceStart(|s|, start);
    if k < |s| then s[..k] + s[k + 1..] else s
  }

  /** Splicing at an index inside the array drops exactly that element. */
  lemma SpliceOneAt<T>(s: seq<T>, i: int)
    requires 0 <= i < |s|
    ensures |SpliceOne(s, i)| == |s| - 1
    ensures SpliceOne(s, i) == s[..i] + s[i + 1..]
  {
  }

  /** Splicing at -1, what `indexOf` returns for a missing element, drops the
      LAST element of a non-empty array: the reason a guard has to come first. */
  lemma SpliceOneAtMinusOne<T>(s: seq<T>)
    requires |s| > 0
    ensures SpliceOne(s, -1) == s[..|s| - 1]
  {
  }
}
