/** Stable descending sort by a string key, as `Array.prototype.sort` does
    with a comparator that puts larger keys first: history months and
    ledger dates are both ordered this way. */
module Sorting {
  import opened Text

  /** Keys never increase from left to right. */
  predicate SortedDesc<T>(xs: seq<T>, key: T -> string) {
    forall i, j :: 0 <= i < j < |xs| ==> StrLe(key(xs[j]), key(xs[i]))
  }

  /** `x` placed into descending `xs` before the first entry whose key is
      not larger than its own. */
  function Insert<T>(x: T, xs: seq<T>, key: T -> string): (r: seq<T>)
    requires SortedDesc(xs, key)
    ensures |r| == |xs| + 1
    ensures multiset(r) == multiset(xs) + multiset{x}
    ensures SortedDesc(r, key)
  {
    if |xs| == 0 then [x]
    else if StrLe(key(xs[0]), key(x)) then
      assert forall j :: 0 < j < |xs| ==> StrLe(key(xs[j]), key(x)) by {
        forall j | 0 < j < |xs| ensures StrLe(key(xs[j]), key(x)) {
          StrLeTransitive(key(xs[j]), key(xs[0]), key(x));
        }
      }
      [x] + xs
    else
      var rest := Insert(x, xs[1..], key);
      ConsSorted(x, xs, rest, key);
      [xs[0]] + rest
  }

  /** When `x` goes after the head of `xs`, the head followed by `x`
      inserted into the tail is still descending and holds the same
      entries. */
  lemma ConsSorted<T>(x: T, xs: seq<T>, rest: seq<T>, key: T -> string)
    requires SortedDesc(xs, key) && |xs| > 0 && !StrLe(key(xs[0]), key(x))
    requires multiset(rest) == multiset(xs[1..]) + multiset{x} && SortedDesc(rest, key)
    ensures multiset([xs[0]] + rest) == multiset(xs) + multiset{x}
    ensures SortedDesc([xs[0]] + rest, key)
  {
    assert xs == [xs[0]] + xs[1..];
    StrLeTotal(key(xs[0]), key(x));
    forall j | 0 <= j < |rest| ensures StrLe(key(rest[j]), key(xs[0])) {
      assert rest[j] in multiset(rest);
      if rest[j] != x {
        assert rest[j] in multiset(xs[1..]);
        var k :| 0 <= k < |xs[1..]| && xs[1..][k] == rest[j];
        assert xs[k + 1] == rest[j];
      }
    }
    var r := [xs[0]] + rest;
    forall i, j | 0 <= i < j < |r| ensures StrLe(key(r[j]), key(r[i])) {
      assert r[j] == rest[j - 1];
      if i > 0 {
        assert r[i] == rest[i - 1];
      }
    }
  }

  /** The entries of `xs` in descending key order. */
  function SortDesc<T>(xs: seq<T>, key: T -> string): (r: seq<T>)
    ensures |r| == |xs|
    ensures multiset(r) == multiset(xs)
    ensures SortedDesc(r, key)
  {
    if |xs| == 0 then []
    else
      assert xs == [xs[0]] + xs[1..];
      Insert(xs[0], SortDesc(xs[1..], key), key)
  }

  /** A descending sequence with pairwise distinct keys is strictly
      descending. */
  lemma StrictWhenDistinct<T>(xs: seq<T>, key: T -> string)
    requires SortedDesc(xs, key)
    requires forall i, j :: 0 <= i < j < |xs| ==> key(xs[i]) != key(xs[j])
    ensures forall i, j :: 0 <= i < j < |xs| ==> StrLt(key(xs[j]), key(xs[i]))
  {
  }
}
