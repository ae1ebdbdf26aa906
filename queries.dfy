/** The shapes of query results shared by the store and the pages:
    `WHERE` / `Array.prototype.filter`, `ORDER BY` / `sort` with a
    comparator (an insertion sort by a total preorder), `LIMIT n` /
    `slice(0, n)`, and integer sums (`SUM` / `reduce`). */
module Queries {

  /** `le` is total and transitive, as every `ORDER BY` key and every
      comparator used by the source is. */
  ghost predicate TotalPreorder<T(!new)>(le: (T, T) -> bool)
  {
    && (forall a, b :: le(a, b) || le(b, a))
    && (forall a, b, c :: le(a, b) && le(b, c) ==> le(a, c))
  }

  predicate Sorted<T>(s: seq<T>, le: (T, T) -> bool)
  {
    forall i, j :: 0 <= i < j < |s| ==> le(s[i], s[j])
  }

  /** Inserts `x` before the first element it may precede. */
  function Insert<T(!new)>(x: T, s: seq<T>, le: (T, T) -> bool): (r: seq<T>)
    requires TotalPreorder(le) && Sorted(s, le)
    ensures Sorted(r, le)
    ensures multiset(r) == multiset(s) + multiset{x}
    ensures |r| == |s| + 1
  {
    if s == [] then [x]
    else if le(x, s[0]) then
      assert forall k :: 0 <= k < |s| ==> le(x, s[k]);
      [x] + s
    else
      var t := Insert(x, s[1..], le);
      assert s == [s[0]] + s[1..];
      HeadPrecedes(s[0], x, s[1..], t, le);
      [s[0]] + t
  }

  /** After `x` is inserted into the tail of a sorted sequence, the head
      still precedes everything. */
  lemma HeadPrecedes<T(!new)>(h: T, x: T, tail: seq<T>, t: seq<T>, le: (T, T) -> bool)
    requires TotalPreorder(le) && !le(x, h)
    requires Sorted([h] + tail, le)
    requires multiset(t) == multiset(tail) + multiset{x}
    ensures forall k :: 0 <= k < |t| ==> le(h, t[k])
  {
    forall k | 0 <= k < |t|
      ensures le(h, t[k])
    {
      assert t[k] in multiset(t);
      if t[k] != x {
        assert t[k] in multiset(tail);
        var j :| 0 <= j < |tail| && tail[j] == t[k];
        assert ([h] + tail)[0] == h && ([h] + tail)[j + 1] == tail[j];
      } else {
        assert le(x, h) || le(h, x);
      }
    }
  }

  /** The head of a sorted sequence precedes each of its other elements. */
  lemma SortedHead<T>(s: seq<T>, le: (T, T) -> bool, x: T)
    requires Sorted(s, le) && x in s
    ensures s[0] == x || le(s[0], x)
  {
    var k :| 0 <= k < |s| && s[k] == x;
    if k > 0 {
      assert le(s[0], s[k]);
    }
  }

  /** The input reordered so that `le` holds between every earlier and
      later element. */
  function Sort<T(!new)>(s: seq<T>, le: (T, T) -> bool): (r: seq<T>)
    requires TotalPreorder(le)
    ensures Sorted(r, le)
    ensures multiset(r) == multiset(s)
    ensures |r| == |s|
  {
    if s == [] then []
    else
      assert s == [s[0]] + s[1..];
      Insert(s[0], Sort(s[1..], le), le)
  }

  /** A sequence already in order comes back unchanged. */
  lemma {:induction false} SortSorted<T(!new)>(s: seq<T>, le: (T, T) -> bool)
    requires TotalPreorder(le) && Sorted(s, le)
    ensures Sort(s, le) == s
  {
    if s != [] {
      var tail := s[1..];
      SortedTail(s, le);
      SortSorted(tail, le);
      assert Sort(s, le) == Insert(s[0], tail, le);
      if tail != [] {
        assert le(s[0], s[1]);
        assert Insert(s[0], tail, le) == [s[0]] + tail;
      }
      assert [s[0]] + tail == s;
    }
  }

  lemma SortedTail<T>(s: seq<T>, le: (T, T) -> bool)
    requires s != [] && Sorted(s, le)
    ensures Sorted(s[1..], le)
  {
    var tail := s[1..];
    forall i, j | 0 <= i < j < |tail|
      ensures le(tail[i], tail[j])
    {
      assert tail[i] == s[i + 1] && tail[j] == s[j + 1];
    }
  }

  /** The first `n` elements, as `LIMIT n` and `.slice(0, n)` give them. */
  function Take<T>(s: seq<T>, n: nat): (r: seq<T>)
    ensures |r| <= n && |r| <= |s|
    ensures r <= s
    ensures |s| <= n ==> r == s
    ensures |s| > n ==> r == s[..n]
  {
    if |s| <= n then s else s[..n]
  }

  /** What a sorted sequence's first `n` leave out comes after all of them,
      and then `n` were taken. */
  lemma TakeSortedLeavesOut<T>(s: seq<T>, le: (T, T) -> bool, n: nat, x: T)
    requires Sorted(s, le) && x in s && x !in Take(s, n)
    ensures |Take(s, n)| == n
    ensures forall y :: y in Take(s, n) ==> le(y, x)
  {
    assert |s| > n;
    assert s == Take(s, n) + s[n..];
    var i :| 0 <= i < |s[n..]| && s[n..][i] == x;
    var j := n + i;
    forall y | y in Take(s, n)
      ensures le(y, x)
    {
      var h :| 0 <= h < n && Take(s, n)[h] == y;
      assert le(s[h], s[j]);
    }
  }

  /** The elements satisfying `p`, in their original order. */
  function Filter<T(!new)>(s: seq<T>, p: T -> bool): (r: seq<T>)
    ensures |r| <= |s|
    ensures forall x :: x in r <==> x in s && p(x)
    ensures multiset(r) <= multiset(s)
  {
    if s == [] then []
    else
      assert s == [s[0]] + s[1..];
      var rest := Filter(s[1..], p);
      if p(s[0]) then [s[0]] + rest else rest
  }

  /** A filter of a non-empty sequence: the head if it qualifies, then the
      filtered tail. */
  lemma FilterCons<T(!new)>(s: seq<T>, p: T -> bool)
    requires s != []
    ensures Filter(s, p) == (if p(s[0]) then [s[0]] + Filter(s[1..], p) else Filter(s[1..], p))
  {
  }

  /** Filtering distributes over concatenation, so rows appended to a
      table are appended, when they qualify, to every filtered view. */
  lemma {:induction false} FilterAppend<T(!new)>(s: seq<T>, t: seq<T>, p: T -> bool)
    ensures Filter(s + t, p) == Filter(s, p) + Filter(t, p)
  {
    if s == [] {
      assert s + t == t;
    } else {
      var st := s + t;
      assert st[0] == s[0] && st[1..] == s[1..] + t;
      FilterAppend(s[1..], t, p);
      FilterCons(st, p);
      FilterCons(s, p);
      if p(s[0]) {
        ConcatAssoc([s[0]], Filter(s[1..], p), Filter(t, p));
      }
    }
  }

  lemma ConcatAssoc<T>(a: seq<T>, b: seq<T>, c: seq<T>)
    ensures (a + b) + c == a + (b + c)
  {
  }

  /** A filter every element passes keeps the whole sequence. */
  lemma {:induction false} FilterAll<T(!new)>(s: seq<T>, p: T -> bool)
    requires forall x :: x in s ==> p(x)
    ensures Filter(s, p) == s
  {
    if s != [] {
      assert s == [s[0]] + s[1..];
      FilterAll(s[1..], p);
    }
  }

  /** A filter no element passes keeps nothing. */
  lemma {:induction false} FilterNone<T(!new)>(s: seq<T>, p: T -> bool)
    requires forall x :: x in s ==> !p(x)
    ensures Filter(s, p) == []
  {
    if s != [] {
      FilterNone(s[1..], p);
    }
  }

  /** Sequences with the same multiset have the same members. */
  lemma SameMembers<T>(a: seq<T>, b: seq<T>)
    requires multiset(a) == multiset(b)
    ensures forall x :: x in a <==> x in b
  {
    forall x
      ensures x in a <==> x in b
    {
      assert x in a <==> x in multiset(a);
    }
  }

  /** A filter some element fails drops at least that element. */
  lemma {:induction false} FilterDrops<T(!new)>(s: seq<T>, p: T -> bool, k: int)
    requires 0 <= k < |s| && !p(s[k])
    ensures |Filter(s, p)| < |s|
  {
    if k > 0 {
      FilterDrops(s[1..], p, k - 1);
    }
  }

  /** `key` strictly increases along `s`, as serial ids and insertion
      timestamps do along a table in insertion order. */
  ghost predicate StrictlyIncreasing<T>(s: seq<T>, key: T -> int)
  {
    forall i, j :: 0 <= i < j < |s| ==> key(s[i]) < key(s[j])
  }

  /** Every element's `key` is below `bound`. */
  ghost predicate AllBelow<T>(s: seq<T>, key: T -> int, bound: int)
  {
    forall i :: 0 <= i < |s| ==> key(s[i]) < bound
  }

  /** Filtering keeps what increased increasing. */
  lemma {:induction false} FilterKeepsIncreasing<T(!new)>(s: seq<T>, p: T -> bool, key: T -> int)
    requires StrictlyIncreasing(s, key)
    ensures StrictlyIncreasing(Filter(s, p), key)
  {
    if s != [] {
      var tail := s[1..];
      IncreasingTail(s, key);
      FilterKeepsIncreasing(tail, p, key);
      var rest := Filter(tail, p);
      if p(s[0]) {
        forall x | x in rest
          ensures key(s[0]) < key(x)
        {
          var k :| 0 <= k < |tail| && tail[k] == x;
          assert s[k + 1] == x;
        }
        IncreasingCons(s[0], rest, key);
      }
    }
  }

  lemma IncreasingTail<T>(s: seq<T>, key: T -> int)
    requires s != [] && StrictlyIncreasing(s, key)
    ensures StrictlyIncreasing(s[1..], key)
  {
    var tail := s[1..];
    forall i, j | 0 <= i < j < |tail|
      ensures key(tail[i]) < key(tail[j])
    {
      assert tail[i] == s[i + 1] && tail[j] == s[j + 1];
    }
  }

  lemma IncreasingCons<T>(h: T, rest: seq<T>, key: T -> int)
    requires StrictlyIncreasing(rest, key) && forall x :: x in rest ==> key(h) < key(x)
    ensures StrictlyIncreasing([h] + rest, key)
  {
    var r := [h] + rest;
    forall i, j | 0 <= i < j < |r|
      ensures key(r[i]) < key(r[j])
    {
      assert r[j] == rest[j - 1];
      if i > 0 {
        assert r[i] == rest[i - 1];
      }
    }
  }

  /** Filtering keeps every element below a bound. */
  lemma FilterKeepsBelow<T(!new)>(s: seq<T>, p: T -> bool, key: T -> int, bound: int)
    requires AllBelow(s, key, bound)
    ensures AllBelow(Filter(s, p), key, bound)
  {
    var r := Filter(s, p);
    forall i | 0 <= i < |r|
      ensures key(r[i]) < bound
    {
      assert r[i] in s;
    }
  }

  /** A member of a sequence all below a bound is below it. */
  lemma MemberBelow<T>(s: seq<T>, key: T -> int, bound: int, x: T)
    requires AllBelow(s, key, bound) && x in s
    ensures key(x) < bound
  {
  }

  /** `s.reduce((sum, x) => sum + f(x), 0)` for integer values. */
  function SumInt<T>(s: seq<T>, f: T -> int): int
  {
    if s == [] then 0 else f(s[0]) + SumInt(s[1..], f)
  }

  lemma {:induction false} SumIntAppend<T>(s: seq<T>, t: seq<T>, f: T -> int)
    ensures SumInt(s + t, f) == SumInt(s, f) + SumInt(t, f)
  {
    if s == [] {
      assert s + t == t;
    } else {
      assert (s + t)[0] == s[0] && (s + t)[1..] == s[1..] + t;
      SumIntAppend(s[1..], t, f);
    }
  }

  /** A sum does not depend on the order of its terms. */
  lemma {:induction false} SumIntPermutation<T>(s: seq<T>, t: seq<T>, f: T -> int)
    requires multiset(s) == multiset(t)
    ensures SumInt(s, f) == SumInt(t, f)
    decreases |s|
  {
    if s == [] {
      assert |t| == |multiset(t)| == 0;
    } else {
      var x := s[0];
      assert x in multiset(t);
      var k :| 0 <= k < |t| && t[k] == x;
      var rest := t[..k] + t[k + 1..];
      MultisetRemove(t, k);
      assert s == [x] + s[1..];
      assert multiset(s[1..]) == multiset(s) - multiset{x};
      SumIntPermutation(s[1..], rest, f);
      SumIntRemove(t, k, f);
    }
  }

  lemma MultisetRemove<T>(t: seq<T>, k: nat)
    requires k < |t|
    ensures multiset(t[..k] + t[k + 1..]) == multiset(t) - multiset{t[k]}
  {
    assert t == t[..k] + [t[k]] + t[k + 1..];
    assert multiset(t) == multiset(t[..k]) + multiset{t[k]} + multiset(t[k + 1..]);
  }

  lemma SumIntRemove<T>(t: seq<T>, k: nat, f: T -> int)
    requires k < |t|
    ensures SumInt(t, f) == f(t[k]) + SumInt(t[..k] + t[k + 1..], f)
  {
    var a, x, b := t[..k], t[k], t[k + 1..];
    var xb := [x] + b;
    assert t == a + xb;
    assert xb[0] == x && xb[1..] == b;
    SumIntAppend(a, xb, f);
    SumIntAppend(a, b, f);
  }
}
