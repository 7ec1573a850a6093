/**
 * ORDER BY on abstract tables: rows are ordered by a key made of an integer
 * and a text column, text compared character code by character code. The
 * sort is an insertion sort, proved to return its input reordered and
 * ordered by the key; rows with equal keys follow table order, which is
 * not itself proved.
 */
module Ordering {
  /** The sort key of a row: an integer column, then a text column. */
  type SortKey = (int, string)

  /** Lexicographic order on character codes. */
  predicate StringLe(a: string, b: string) {
    a == [] || (b != [] && (a[0] < b[0] || (a[0] == b[0] && StringLe(a[1..], b[1..]))))
  }

  lemma {:induction false} StringLeTotal(a: string, b: string)
    ensures StringLe(a, b) || StringLe(b, a)
  {
    if a != [] && b != [] && a[0] == b[0] {
      StringLeTotal(a[1..], b[1..]);
    }
  }

  lemma {:induction false} StringLeTrans(a: string, b: string, c: string)
    requires StringLe(a, b) && StringLe(b, c)
    ensures StringLe(a, c)
  {
    if a != [] && a[0] == b[0] && b[0] == c[0] {
      StringLeTrans(a[1..], b[1..], c[1..]);
    }
  }

  predicate KeyLe(a: SortKey, b: SortKey) {
    a.0 < b.0 || (a.0 == b.0 && StringLe(a.1, b.1))
  }

  lemma KeyLeTotal(a: SortKey, b: SortKey)
    ensures KeyLe(a, b) || KeyLe(b, a)
  {
    StringLeTotal(a.1, b.1);
  }

  lemma KeyLeTrans(a: SortKey, b: SortKey, c: SortKey)
    requires KeyLe(a, b) && KeyLe(b, c)
    ensures KeyLe(a, c)
  {
    if a.0 == b.0 == c.0 {
      StringLeTrans(a.1, b.1, c.1);
    }
  }

  /** Each row's key is at most the next row's. */
  predicate SortedBy<T>(xs: seq<T>, key: T -> SortKey) {
    forall i :: 0 < i < |xs| ==> KeyLe(key(xs[i - 1]), key(xs[i]))
  }

  function InsertBy<T>(x: T, xs: seq<T>, key: T -> SortKey): (r: seq<T>)
    requires SortedBy(xs, key)
    ensures SortedBy(r, key)
    ensures multiset(r) == multiset(xs) + multiset{x}
    ensures r[0] == x || (xs != [] && r[0] == xs[0])
  {
    if xs == [] then [x]
    else if KeyLe(key(x), key(xs[0])) then [x] + xs
    else
      KeyLeTotal(key(x), key(xs[0]));
      var rest := InsertBy(x, xs[1..], key);
      assert xs == [xs[0]] + xs[1..];
      [xs[0]] + rest
  }

  /** The rows in key order; rows with equal keys follow table order (not proved). */
  function SortBy<T>(xs: seq<T>, key: T -> SortKey): (r: seq<T>)
    ensures SortedBy(r, key)
    ensures multiset(r) == multiset(xs)
    ensures |r| == |xs|
  {
    if xs == [] then []
    else
      assert xs == [xs[0]] + xs[1..];
      InsertBy(xs[0], SortBy(xs[1..], key), key)
  }

  /** In a sorted sequence every earlier row has a key at most every later row's. */
  lemma {:induction false} SortedPairwise<T>(xs: seq<T>, key: T -> SortKey, i: int, j: int)
    requires SortedBy(xs, key) && 0 <= i <= j < |xs|
    ensures KeyLe(key(xs[i]), key(xs[j]))
    decreases j - i
  {
    if i == j {
      StringLeTotal(key(xs[i]).1, key(xs[i]).1);
    } else {
      SortedPairwise(xs, key, i + 1, j);
      KeyLeTrans(key(xs[i]), key(xs[i + 1]), key(xs[j]));
    }
  }

  /** The first n rows of a sorted sequence come no later in key order than any row after them. */
  lemma TakeIsTop<T>(xs: seq<T>, key: T -> SortKey, n: nat)
    requires SortedBy(xs, key) && n <= |xs|
    ensures forall i, j :: 0 <= i < n <= j < |xs| ==> KeyLe(key(xs[..n][i]), key(xs[j]))
  {
    forall i, j | 0 <= i < n <= j < |xs|
      ensures KeyLe(key(xs[..n][i]), key(xs[j]))
    {
      SortedPairwise(xs, key, i, j);
    }
  }
}
