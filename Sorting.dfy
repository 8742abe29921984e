/** The `{ $sort: { field: -1 } }` and `{ $limit: n }` aggregation stages, as
    functions of a sequence and a numeric sort key. MongoDB does not promise an
    order among equal keys; this insertion sort keeps input order for them. */
module Sorting {

  ghost predicate SortedDesc<T>(s: seq<T>, key: T -> real) {
    forall i, j :: 0 <= i < j < |s| ==> key(s[i]) >= key(s[j])
  }

  function InsertDesc<T>(x: T, s: seq<T>, key: T -> real): (r: seq<T>)
    requires SortedDesc(s, key)
    ensures SortedDesc(r, key)
    ensures multiset(r) == multiset(s) + multiset{x}
    ensures |r| == |s| + 1
    ensures r[0] == x || (s != [] && r[0] == s[0])
  {
    if s == [] || key(x) >= key(s[0]) then [x] + s
    else
      var rest := InsertDesc(x, s[1..], key);
      assert s == [s[0]] + s[1..];
      assert key(s[0]) >= key(rest[0]);
      [s[0]] + rest
  }

  /** Sorts by `key`, largest first: the result is ordered and is a
      permutation of the input. */
  function SortDesc<T>(s: seq<T>, key: T -> real): (r: seq<T>)
    ensures SortedDesc(r, key)
    ensures multiset(r) == multiset(s)
    ensures |r| == |s|
  {
    if s == [] then []
    else
      assert s == [s[0]] + s[1..];
      InsertDesc(s[0], SortDesc(s[1..], key), key)
  }

  function Take<T>(s: seq<T>, n: nat): (r: seq<T>)
    ensures |r| == if |s| < n then |s| else n
    ensures r == s[..|r|]
  {
    if |s| <= n then s else s[..n]
  }

  /** In a sequence sorted by descending key, every element of a prefix has a
      key at least that of every element after it. */
  lemma PrefixDominates<T>(s: seq<T>, key: T -> real, k: nat)
    requires SortedDesc(s, key) && k <= |s|
    ensures forall x, y :: x in multiset(s[k..]) && y in s[..k] ==> key(y) >= key(x)
  {
    forall x, y | x in multiset(s[k..]) && y in s[..k]
      ensures key(y) >= key(x)
    {
      assert x in s[k..];
      var j :| k <= j < |s| && s[j] == x;
      var i :| 0 <= i < k && s[i] == y;
    }
  }

  /** A prefix holds no element more often than the whole sequence. */
  lemma PrefixMultiset<T>(s: seq<T>, k: nat)
    requires k <= |s|
    ensures multiset(s[..k]) <= multiset(s)
  {
    assert s == s[..k] + s[k..];
  }

  /** Sort descending, then keep the first `n`: at most `n` results, and
      exactly `n` when the input has that many. */
  lemma TopLength<T>(s: seq<T>, key: T -> real, n: nat)
    ensures |Take(SortDesc(s, key), n)| <= n
    ensures |s| >= n ==> |Take(SortDesc(s, key), n)| == n
  {
  }

  /** The kept elements are in descending order. */
  lemma TopSorted<T>(s: seq<T>, key: T -> real, n: nat)
    ensures SortedDesc(Take(SortDesc(s, key), n), key)
  {
  }

  /** The kept elements are taken from the input, with multiplicity. */
  lemma TopFromInput<T>(s: seq<T>, key: T -> real, n: nat)
    ensures multiset(Take(SortDesc(s, key), n)) <= multiset(s)
  {
    var sorted := SortDesc(s, key);
    PrefixMultiset(sorted, |Take(sorted, n)|);
  }

  /** Every input element left out has a key no larger than any element
      kept. */
  lemma TopDominates<T>(s: seq<T>, key: T -> real, n: nat)
    ensures forall x, y ::
              x in multiset(s) - multiset(Take(SortDesc(s, key), n)) && y in Take(SortDesc(s, key), n)
              ==> key(y) >= key(x)
  {
    var sorted := SortDesc(s, key);
    var r := Take(sorted, n);
    var k := |r|;
    assert sorted == r + sorted[k..];
    assert multiset(s) - multiset(r) == multiset(sorted[k..]);
    PrefixDominates(sorted, key, k);
  }

  function MapSeq<T, U>(s: seq<T>, f: T -> U): (r: seq<U>)
    ensures |r| == |s|
    ensures forall i :: 0 <= i < |s| ==> r[i] == f(s[i])
  {
    seq(|s|, i requires 0 <= i < |s| => f(s[i]))
  }

  // ---------------------------------------------------------------------
  // `{ $sort: { field: 1 } }` on a string field: binary (code-point) order

  /** `a` sorts no later than `b` character by character. */
  predicate LexLe(a: string, b: string)
    decreases |a|
  {
    a == [] || (b != [] && (a[0] < b[0] || (a[0] == b[0] && LexLe(a[1..], b[1..]))))
  }

  lemma {:induction false} LexLeTotal(a: string, b: string)
    ensures LexLe(a, b) || LexLe(b, a)
    decreases |a|
  {
    if a != [] && b != [] && a[0] == b[0] {
      LexLeTotal(a[1..], b[1..]);
    }
  }

  lemma {:induction false} LexLeTransitive(a: string, b: string, c: string)
    requires LexLe(a, b) && LexLe(b, c)
    ensures LexLe(a, c)
    decreases |a|
  {
    if a != [] && a[0] == b[0] && b[0] == c[0] {
      LexLeTransitive(a[1..], b[1..], c[1..]);
    }
  }

  /** Neighbours are in ascending order of `key`. */
  ghost predicate SortedAsc<T>(s: seq<T>, key: T -> string) {
    forall i :: 0 <= i < |s| - 1 ==> LexLe(key(s[i]), key(s[i + 1]))
  }

  function InsertAsc<T>(x: T, s: seq<T>, key: T -> string): (r: seq<T>)
    requires SortedAsc(s, key)
    ensures SortedAsc(r, key)
    ensures multiset(r) == multiset(s) + multiset{x}
    ensures |r| == |s| + 1
    ensures r[0] == x || (s != [] && r[0] == s[0])
  {
    if s == [] || LexLe(key(x), key(s[0])) then [x] + s
    else
      LexLeTotal(key(x), key(s[0]));
      var rest := InsertAsc(x, s[1..], key);
      assert s == [s[0]] + s[1..];
      assert LexLe(key(s[0]), key(rest[0]));
      [s[0]] + rest
  }

  /** Sorts by `key`, smallest first, as a permutation of the input. */
  function SortAsc<T>(s: seq<T>, key: T -> string): (r: seq<T>)
    ensures SortedAsc(r, key)
    ensures multiset(r) == multiset(s)
    ensures |r| == |s|
  {
    if s == [] then []
    else
      assert s == [s[0]] + s[1..];
      InsertAsc(s[0], SortAsc(s[1..], key), key)
  }

  /** Ascending neighbours give ascending order between any two positions. */
  lemma {:induction false} SortedAscPairwise<T>(s: seq<T>, key: T -> string, i: int, j: int)
    requires SortedAsc(s, key) && 0 <= i <= j < |s|
    ensures LexLe(key(s[i]), key(s[j]))
    decreases j - i
  {
    if i == j {
      LexLeReflexive(key(s[i]));
    } else {
      SortedAscPairwise(s, key, i + 1, j);
      LexLeTransitive(key(s[i]), key(s[i + 1]), key(s[j]));
    }
  }

  lemma {:induction false} LexLeReflexive(a: string)
    ensures LexLe(a, a)
    decreases |a|
  {
    if a != [] {
      LexLeReflexive(a[1..]);
    }
  }
}
