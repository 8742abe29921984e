/** Shared vocabulary: optional values, handler outcomes, record ids and the
    string operations the JavaScript code relies on (ASCII lower-casing,
    `String.prototype.trim`, literal substring search, decimal rendering and
    `Array.prototype.join`). */
module Common {

  datatype Option<+T> = None | Some(value: T)

  /** What a route handler answers: a value, or an HTTP status with a message. */
  datatype Outcome<+T> = Ok(value: T) | Fail(status: nat, message: string)

  /** A MongoDB ObjectId; freshness is modelled by a counter in the store. */
  type Id = nat

  const OK: nat := 200
  const CREATED: nat := 201
  const BAD_REQUEST: nat := 400
  const NOT_FOUND: nat := 404
  const INTERNAL_SERVER_ERROR: nat := 500

  // ---------------------------------------------------------------------
  // Case folding (ASCII letters only)

  function LowerChar(c: char): char {
    if 'A' <= c <= 'Z' then (c as int + 32) as char else c
  }

  function Lower(s: string): (r: string)
    ensures |r| == |s|
    ensures forall i :: 0 <= i < |s| ==> r[i] == LowerChar(s[i])
  {
    if s == [] then [] else [LowerChar(s[0])] + Lower(s[1..])
  }

  // ---------------------------------------------------------------------
  // String.prototype.trim: white space and line terminators at both ends

  predicate IsJsWhitespace(c: char) {
    c == ' ' || c == '\t' || c == '\n' || c == '\U{000B}' || c == '\U{000C}' || c == '\r'
    || c == '\U{00A0}' || c == '\U{1680}' || ('\U{2000}' <= c <= '\U{200A}')
    || c == '\U{2028}' || c == '\U{2029}' || c == '\U{202F}' || c == '\U{205F}'
    || c == '\U{3000}' || c == '\U{FEFF}'
  }

  function TrimStart(s: string): (r: string)
    ensures |r| <= |s| && r == s[|s| - |r|..]
    ensures r == [] || !IsJsWhitespace(r[0])
    ensures forall i :: 0 <= i < |s| - |r| ==> IsJsWhitespace(s[i])
  {
    if s != [] && IsJsWhitespace(s[0]) then TrimStart(s[1..]) else s
  }

  function TrimEnd(s: string): (r: string)
    ensures |r| <= |s| && r == s[..|r|]
    ensures r == [] || !IsJsWhitespace(r[|r| - 1])
    ensures forall i :: |r| <= i < |s| ==> IsJsWhitespace(s[i])
  {
    if s != [] && IsJsWhitespace(s[|s| - 1]) then TrimEnd(s[..|s| - 1]) else s
  }

  /** The trimmed string is the slice of `s` left once the white space at both
      ends is removed, and it neither starts nor ends with white space. */
  function Trim(s: string): (r: string)
    ensures r == [] || (!IsJsWhitespace(r[0]) && !IsJsWhitespace(r[|r| - 1]))
    ensures exists i, j :: 0 <= i <= j <= |s| && r == s[i..j]
                           && (forall k :: 0 <= k < i ==> IsJsWhitespace(s[k]))
                           && (forall k :: j <= k < |s| ==> IsJsWhitespace(s[k]))
  {
    var t := TrimStart(s);
    var r := TrimEnd(t);
    var i := |s| - |t|;
    assert r == s[i..i + |r|];
    r
  }

  // ---------------------------------------------------------------------
  // Literal substring search (a RegExp built from plain text, flag "i")

  predicate OccursAt(hay: string, needle: string, i: int) {
    0 <= i <= |hay| - |needle| && hay[i..i + |needle|] == needle
  }

  predicate Contains(hay: string, needle: string) {
    exists i :: 0 <= i <= |hay| - |needle| && OccursAt(hay, needle, i)
  }

  predicate ContainsIgnoringCase(hay: string, needle: string) {
    Contains(Lower(hay), Lower(needle))
  }

  // ---------------------------------------------------------------------
  // Number.prototype.toString for non-negative integers, and Array.join

  function DigitChar(d: nat): char
    requires d < 10
  {
    "0123456789"[d]
  }

  function NatToString(n: nat): (r: string)
    ensures |r| >= 1
    ensures n < 10 <==> |r| == 1
  {
    if n < 10 then [DigitChar(n)] else NatToString(n / 10) + [DigitChar(n % 10)]
  }

  function IntToString(n: int): (r: string)
    ensures n >= 0 ==> r == NatToString(n)
  {
    if n >= 0 then NatToString(n) else "-" + NatToString(-n)
  }

  function Join(parts: seq<string>, sep: string): string {
    if parts == [] then []
    else if |parts| == 1 then parts[0]
    else parts[0] + sep + Join(parts[1..], sep)
  }

  function JoinInts(xs: seq<int>, sep: string): string {
    Join(seq(|xs|, i requires 0 <= i < |xs| => IntToString(xs[i])), sep)
  }

  // ---------------------------------------------------------------------
  // Array.prototype.filter and a `$match` stage

  /** The elements of `s` that satisfy `p`, in their original order. */
  function Filter<T(!new)>(s: seq<T>, p: T -> bool): (r: seq<T>)
    ensures |r| <= |s|
    ensures forall x :: x in r <==> x in s && p(x)
    ensures multiset(r) <= multiset(s)
  {
    if s == [] then []
    else
      assert s == [s[0]] + s[1..];
      (if p(s[0]) then [s[0]] else []) + Filter(s[1..], p)
  }

  /** Filtering keeps the whole sequence exactly when every element passes. */
  lemma {:induction false} FilterKeepsAll<T(!new)>(s: seq<T>, p: T -> bool)
    ensures |Filter(s, p)| == |s| <==> forall i :: 0 <= i < |s| ==> p(s[i])
  {
    if s != [] {
      FilterKeepsAll(s[1..], p);
      assert forall i :: 1 <= i < |s| ==> s[i] == s[1..][i - 1];
    }
  }

  /** The position of the first occurrence of `x` in `s`. */
  function FirstIndex<T(==)>(s: seq<T>, x: T): (k: nat)
    requires x in s
    ensures k < |s| && s[k] == x
  {
    if s[0] == x then 0 else 1 + FirstIndex(s[1..], x)
  }

  /** No earlier position holds `x`. */
  lemma {:induction false} FirstIndexIsFirst<T>(s: seq<T>, x: T, j: int)
    requires x in s && 0 <= j < FirstIndex(s, x)
    ensures s[j] != x
  {
    if j > 0 {
      FirstIndexIsFirst(s[1..], x, j - 1);
    }
  }

  /** Filtering keeps the order in which elements first appear. */
  lemma {:induction false} FilterKeepsFirstOrder<T(!new)>(s: seq<T>, p: T -> bool, x: T, y: T)
    requires x in Filter(s, p) && y in Filter(s, p)
    requires FirstIndex(Filter(s, p), x) < FirstIndex(Filter(s, p), y)
    ensures FirstIndex(s, x) < FirstIndex(s, y)
  {
    var f := Filter(s, p);
    var tail := Filter(s[1..], p);
    if p(s[0]) {
      assert f == [s[0]] + tail;
      if x != s[0] && y != s[0] {
        assert FirstIndex(f, x) == 1 + FirstIndex(tail, x);
        assert FirstIndex(f, y) == 1 + FirstIndex(tail, y);
        FilterKeepsFirstOrder(s[1..], p, x, y);
      }
    } else {
      assert f == tail;
      FilterKeepsFirstOrder(s[1..], p, x, y);
    }
  }

  /** Appending leaves the first position of an element already present. */
  lemma {:induction false} FirstIndexAppend<T>(s: seq<T>, t: seq<T>, x: T)
    requires x in s
    ensures x in s + t && FirstIndex(s + t, x) == FirstIndex(s, x)
  {
    if s[0] != x {
      assert (s + t)[1..] == s[1..] + t;
      FirstIndexAppend(s[1..], t, x);
    }
  }

  /** A new element appended at the end is first found there. */
  lemma {:induction false} FirstIndexOfNewLast<T>(s: seq<T>, x: T)
    requires x !in s
    ensures FirstIndex(s + [x], x) == |s|
  {
    if s != [] {
      assert (s + [x])[1..] == s[1..] + [x];
      FirstIndexOfNewLast(s[1..], x);
    }
  }

  /** The distinct elements of `s`, in order of first appearance (lodash
      `uniq`, and the keys a `$group` stage produces): each element is kept
      where it first occurs. */
  function Distinct<T(==,!new)>(s: seq<T>): (r: seq<T>)
    ensures forall x :: x in r <==> x in s
    ensures forall i, j :: 0 <= i < j < |r| ==> r[i] != r[j]
    ensures forall i, j :: 0 <= i < j < |r| ==> FirstIndex(s, r[i]) < FirstIndex(s, r[j])
  {
    if s == [] then []
    else
      var init := s[..|s| - 1];
      var last := s[|s| - 1];
      assert s == init + [last];
      var d := Distinct(init);
      var r := if last in init then d else d + [last];
      SnocKeepsFirstOrder(init, last, d, r);
      r
  }

  /** The step of `Distinct`: the distinct elements of `init`, in their
      first-appearance order, followed by `last` when it is new, are the
      distinct elements of `init + [last]` in first-appearance order. */
  lemma SnocKeepsFirstOrder<T>(init: seq<T>, last: T, d: seq<T>, r: seq<T>)
    requires forall x :: x in d <==> x in init
    requires forall i, j :: 0 <= i < j < |d| ==> d[i] != d[j]
    requires forall i, j :: 0 <= i < j < |d| ==> FirstIndex(init, d[i]) < FirstIndex(init, d[j])
    requires r == if last in init then d else d + [last]
    ensures forall x :: x in r <==> x in init + [last]
    ensures forall i, j :: 0 <= i < j < |r| ==> r[i] != r[j]
    ensures forall i, j :: 0 <= i < j < |r| ==> FirstIndex(init + [last], r[i]) < FirstIndex(init + [last], r[j])
  {
    var s := init + [last];
    forall k | 0 <= k < |d|
      ensures d[k] in s && FirstIndex(s, d[k]) == FirstIndex(init, d[k]) < |init|
    {
      assert d[k] in init;
      FirstIndexAppend(init, [last], d[k]);
    }
    if last !in init {
      FirstIndexOfNewLast(init, last);
      forall i, j | 0 <= i < j < |r|
        ensures r[i] != r[j] && FirstIndex(s, r[i]) < FirstIndex(s, r[j])
      {
        assert r[i] == d[i];
        if j == |d| {
          assert r[j] == last;
          assert d[i] in init;
        } else {
          assert r[j] == d[j];
        }
      }
    }
  }

  /** Two equal positions make two copies in the multiset. */
  lemma TwoOccurrences<T>(t: seq<T>, i: nat, j: nat)
    requires i < j < |t| && t[i] == t[j]
    ensures multiset(t)[t[i]] >= 2
  {
    assert t == t[..i] + [t[i]] + t[i + 1..j] + [t[j]] + t[j + 1..];
  }

  /** Without duplicates, no element occurs twice in the multiset. */
  lemma {:induction false} DistinctOnce<T>(s: seq<T>, x: T)
    requires forall i, j :: 0 <= i < j < |s| ==> s[i] != s[j]
    ensures multiset(s)[x] <= 1
  {
    if s != [] {
      assert s == [s[0]] + s[1..];
      DistinctOnce(s[1..], x);
      if s[0] == x {
        forall j | 0 <= j < |s[1..]|
          ensures s[1..][j] != x
        {
          assert s[1..][j] == s[j + 1];
        }
      }
    }
  }

  /** A reordering of a sequence without duplicates has none either, and
      holds the same elements. */
  lemma PermutationKeepsDistinct<T>(s: seq<T>, t: seq<T>)
    requires multiset(t) == multiset(s)
    requires forall i, j :: 0 <= i < j < |s| ==> s[i] != s[j]
    ensures forall i, j :: 0 <= i < j < |t| ==> t[i] != t[j]
    ensures forall x :: x in t <==> x in s
  {
    forall x
      ensures x in t <==> x in s
    {
      assert x in t <==> x in multiset(t);
      assert x in s <==> x in multiset(s);
    }
    forall i, j | 0 <= i < j < |t|
      ensures t[i] != t[j]
    {
      if t[i] == t[j] {
        TwoOccurrences(t, i, j);
        DistinctOnce(s, t[i]);
        assert false;
      }
    }
  }
}
