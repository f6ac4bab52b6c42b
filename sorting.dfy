/**
 * `Array.prototype.sort` with the numeric comparators the poker evaluator uses:
 * `(a, b) => a - b` (ascending) and `(a, b) => b - a` (descending).
 * For numbers the sorted permutation is unique, so an insertion sort gives
 * exactly the array the source obtains.
 */
module Sorting {

  /** `a` may precede `b` in the requested order. */
  predicate InOrder(a: int, b: int, descending: bool)
  {
    if descending then a >= b else a <= b
  }

  predicate IsSorted(s: seq<int>, descending: bool)
  {
    forall i, j :: 0 <= i < j < |s| ==> InOrder(s[i], s[j], descending)
  }

  /** Insert `x` before the first element it may precede. */
  function Insert(x: int, s: seq<int>, descending: bool): (r: seq<int>)
    ensures |r| == |s| + 1
    ensures multiset(r) == multiset(s) + multiset{x}
  {
    if s == [] || InOrder(x, s[0], descending) then
      [x] + s
    else
      assert s == [s[0]] + s[1..];
      [s[0]] + Insert(x, s[1..], descending)
  }

  /** Inserting into a sorted sequence keeps it sorted. */
  lemma {:induction false} InsertSorted(x: int, s: seq<int>, descending: bool)
    requires IsSorted(s, descending)
    ensures IsSorted(Insert(x, s, descending), descending)
  {
    if s == [] || InOrder(x, s[0], descending) {
      assert forall j :: 0 <= j < |s| ==> InOrder(x, s[j], descending);
      PrependSorted(x, s, descending);
    } else {
      var rest := Insert(x, s[1..], descending);
      assert IsSorted(s[1..], descending);
      InsertSorted(x, s[1..], descending);
      HeadPrecedesRest(x, s, rest, descending);
      PrependSorted(s[0], rest, descending);
    }
  }

  /** An element that may precede every element of a sorted sequence can be put in front of it. */
  lemma PrependSorted(h: int, s: seq<int>, descending: bool)
    requires IsSorted(s, descending)
    requires forall j :: 0 <= j < |s| ==> InOrder(h, s[j], descending)
    ensures IsSorted([h] + s, descending)
  {
    var r := [h] + s;
    forall i, j | 0 <= i < j < |r|
      ensures InOrder(r[i], r[j], descending)
    {
      if i == 0 {
        assert r[j] == s[j - 1];
      } else {
        assert r[i] == s[i - 1] && r[j] == s[j - 1];
      }
    }
  }

  /** The head of a sorted sequence may precede every element of its tail with `x` added. */
  lemma HeadPrecedesRest(x: int, s: seq<int>, rest: seq<int>, descending: bool)
    requires IsSorted(s, descending) && s != [] && !InOrder(x, s[0], descending)
    requires multiset(rest) == multiset(s[1..]) + multiset{x}
    ensures forall j :: 0 <= j < |rest| ==> InOrder(s[0], rest[j], descending)
  {
    forall j | 0 <= j < |rest|
      ensures InOrder(s[0], rest[j], descending)
    {
      assert rest[j] in multiset(rest);
      if rest[j] != x {
        assert rest[j] in multiset(s[1..]);
        var k :| 0 <= k < |s[1..]| && s[1..][k] == rest[j];
        assert s[k + 1] == rest[j];
      }
    }
  }

  /** The sorted permutation of `s`. */
  function Sort(s: seq<int>, descending: bool): (r: seq<int>)
    ensures |r| == |s|
    ensures multiset(r) == multiset(s)
    ensures IsSorted(r, descending)
  {
    if s == [] then
      []
    else
      assert s == [s[0]] + s[1..];
      InsertSorted(s[0], Sort(s[1..], descending), descending);
      Insert(s[0], Sort(s[1..], descending), descending)
  }
}
