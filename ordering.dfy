/** `ORDER BY key ASC` as the database applies it to a result set: an insertion sort
    on an integer key, proved to give a sorted permutation of its input. */
module Ordering {

  ghost predicate SortedBy<T>(s: seq<T>, key: T -> int) {
    forall i, j :: 0 <= i < j < |s| ==> key(s[i]) <= key(s[j])
  }

  /** Insert x in front of the first element whose key is not smaller. */
  function InsertByKey<T>(x: T, s: seq<T>, key: T -> int): (r: seq<T>)
    requires SortedBy(s, key)
    ensures SortedBy(r, key)
    ensures multiset(r) == multiset(s) + multiset{x}
    ensures |r| == |s| + 1
  {
    if s == [] || key(x) <= key(s[0]) then
      [x] + s
    else
      var rest := InsertByKey(x, s[1..], key);
      assert s == [s[0]] + s[1..];
      LowerBound(s[0], x, s[1..], rest, key);
      [s[0]] + rest
  }

  /** Every row of a permutation of xs + [x] keeps a lower bound that all of them had. */
  lemma LowerBound<T>(head: T, x: T, xs: seq<T>, rest: seq<T>, key: T -> int)
    requires multiset(rest) == multiset(xs) + multiset{x}
    requires key(head) <= key(x)
    requires forall k :: 0 <= k < |xs| ==> key(head) <= key(xs[k])
    ensures SortedBy(rest, key) ==> SortedBy([head] + rest, key)
  {
    forall k | 0 <= k < |rest| ensures key(head) <= key(rest[k]) {
      assert rest[k] in multiset(rest);
      if rest[k] != x {
        assert rest[k] in multiset(xs);
        var j :| 0 <= j < |xs| && xs[j] == rest[k];
      }
    }
    var t := [head] + rest;
    assert forall k :: 1 <= k < |t| ==> t[k] == rest[k - 1];
  }

  /** The rows of s ordered by ascending key. */
  function SortByKey<T>(s: seq<T>, key: T -> int): (r: seq<T>)
    ensures SortedBy(r, key)
    ensures multiset(r) == multiset(s)
    ensures |r| == |s|
  {
    if s == [] then []
    else
      assert s == [s[0]] + s[1..];
      InsertByKey(s[0], SortByKey(s[1..], key), key)
  }

  /** The first n rows, or all of them when there are fewer (SQL LIMIT). */
  function Take<T>(s: seq<T>, n: int): (r: seq<T>)
    ensures |r| == if n <= 0 then 0 else if n < |s| then n else |s|
    ensures forall i :: 0 <= i < |r| ==> r[i] == s[i]
  {
    if n <= 0 then [] else if n < |s| then s[..n] else s
  }

  lemma TakeSorted<T>(s: seq<T>, n: int, key: T -> int)
    requires SortedBy(s, key)
    ensures SortedBy(Take(s, n), key)
  {
  }
}
