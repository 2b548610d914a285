/** Stable ranking of slots: what `torch.argsort(rank, stable=True)` returns. */
module Ranking {

  /** Slot `a` precedes slot `b`: smaller rank, ties to the smaller position. */
  predicate Before(rank: seq<int>, a: nat, b: nat)
    requires a < |rank| && b < |rank|
  {
    rank[a] < rank[b] || (rank[a] == rank[b] && a < b)
  }

  ghost predicate InRange(rank: seq<int>, xs: seq<nat>) {
    forall i :: 0 <= i < |xs| ==> xs[i] < |rank|
  }

  ghost predicate Sorted(rank: seq<int>, xs: seq<nat>)
    requires InRange(rank, xs)
  {
    forall i, j :: 0 <= i < j < |xs| ==> Before(rank, xs[i], xs[j])
  }

  ghost predicate Distinct<T>(xs: seq<T>) {
    forall i, j :: 0 <= i < j < |xs| ==> xs[i] != xs[j]
  }

  ghost function Elements<T>(xs: seq<T>): set<T> {
    set x | x in xs
  }

  function Insert(rank: seq<int>, x: nat, xs: seq<nat>): (r: seq<nat>)
    requires x < |rank| && InRange(rank, xs)
    ensures InRange(rank, r) && |r| == |xs| + 1
    ensures forall y :: y in r <==> y == x || y in xs
  {
    if xs == [] then [x]
    else if Before(rank, x, xs[0]) then [x] + xs
    else
      var t := Insert(rank, x, xs[1..]);
      assert forall y :: y in xs <==> y == xs[0] || y in xs[1..];
      [xs[0]] + t
  }

  /** The elements of `xs` in stable ascending order of rank. */
  function Sort(rank: seq<int>, xs: seq<nat>): (r: seq<nat>)
    requires InRange(rank, xs)
    ensures InRange(rank, r) && |r| == |xs|
    ensures forall y :: y in r <==> y in xs
  {
    if xs == [] then []
    else
      var t := Sort(rank, xs[1..]);
      assert forall y :: y in xs <==> y == xs[0] || y in xs[1..];
      Insert(rank, xs[0], t)
  }

  lemma {:induction false} InsertKeepsSorted(rank: seq<int>, x: nat, xs: seq<nat>)
    requires x < |rank| && InRange(rank, xs) && Sorted(rank, xs) && x !in xs
    ensures Sorted(rank, Insert(rank, x, xs))
  {
    if xs == [] || Before(rank, x, xs[0]) {
    } else {
      InsertKeepsSorted(rank, x, xs[1..]);
      var t := Insert(rank, x, xs[1..]);
      forall j | 0 <= j < |t| ensures Before(rank, xs[0], t[j]) {
        assert t[j] in t;
        if t[j] != x {
          var k :| 0 <= k < |xs[1..]| && xs[1..][k] == t[j];
          assert xs[1 + k] == t[j];
        }
      }
    }
  }

  /** Sorting distinct slots yields the strictly ascending arrangement of them. */
  lemma {:induction false} SortSorts(rank: seq<int>, xs: seq<nat>)
    requires InRange(rank, xs) && Distinct(xs)
    ensures Sorted(rank, Sort(rank, xs))
  {
    if xs != [] {
      SortSorts(rank, xs[1..]);
      assert xs[0] !in xs[1..];
      InsertKeepsSorted(rank, xs[0], Sort(rank, xs[1..]));
    }
  }

  /** The strictly ascending arrangement of a set of slots is unique. */
  lemma {:induction false} SortedUnique(rank: seq<int>, a: seq<nat>, b: seq<nat>)
    requires InRange(rank, a) && InRange(rank, b) && Sorted(rank, a) && Sorted(rank, b)
    requires forall y :: y in a <==> y in b
    ensures a == b
  {
    assert a != [] ==> a[0] in a;
    assert b != [] ==> b[0] in b;
    if a != [] {
      var i :| 0 <= i < |b| && b[i] == a[0];
      var j :| 0 <= j < |a| && a[j] == b[0];
      assert i == 0 && j == 0;
      assert a[0] == b[0];
      forall y ensures y in a[1..] <==> y in b[1..] {
        assert y in a <==> y == a[0] || y in a[1..];
        assert y in b <==> y == b[0] || y in b[1..];
        assert a[0] !in a[1..] && b[0] !in b[1..];
      }
      SortedUnique(rank, a[1..], b[1..]);
      assert a == [a[0]] + a[1..] && b == [b[0]] + b[1..];
    }
  }

  /** Two rankings that order the listed slots alike sort them alike. */
  lemma {:induction false} SortAgrees(r1: seq<int>, r2: seq<int>, xs: seq<nat>)
    requires InRange(r1, xs) && InRange(r2, xs)
    requires forall a, b :: a in xs && b in xs ==> (r1[a] < r1[b] <==> r2[a] < r2[b])
    ensures Sort(r1, xs) == Sort(r2, xs)
  {
    if xs != [] {
      assert forall a :: a in xs[1..] ==> a in xs;
      SortAgrees(r1, r2, xs[1..]);
      assert xs[0] in xs;
      InsertAgrees(r1, r2, xs[0], Sort(r1, xs[1..]));
    }
  }

  lemma {:induction false} InsertAgrees(r1: seq<int>, r2: seq<int>, x: nat, xs: seq<nat>)
    requires x < |r1| && x < |r2| && InRange(r1, xs) && InRange(r2, xs)
    requires forall a, b :: (a == x || a in xs) && (b == x || b in xs) ==> (r1[a] < r1[b] <==> r2[a] < r2[b])
    ensures Insert(r1, x, xs) == Insert(r2, x, xs)
  {
    if xs != [] {
      assert xs[0] in xs;
      assert forall a :: a in xs[1..] ==> a in xs;
      InsertAgrees(r1, r2, x, xs[1..]);
    }
  }

  /** A sorted split: everything in `a` precedes everything in `b`. */
  lemma SortedConcat(rank: seq<int>, a: seq<nat>, b: seq<nat>)
    requires InRange(rank, a) && InRange(rank, b) && Sorted(rank, a) && Sorted(rank, b)
    requires forall i, j :: 0 <= i < |a| && 0 <= j < |b| ==> Before(rank, a[i], b[j])
    ensures Sorted(rank, a + b)
  {
    forall i, j | 0 <= i < j < |a + b| ensures Before(rank, (a + b)[i], (a + b)[j]) {
      if j < |a| {
      } else if i < |a| {
        assert Before(rank, a[i], b[j - |a|]);
      } else {
        assert Before(rank, b[i - |a|], b[j - |a|]);
      }
    }
  }

  lemma SortedDistinct(rank: seq<int>, xs: seq<nat>)
    requires InRange(rank, xs) && Sorted(rank, xs)
    ensures Distinct(xs)
  {
    forall i, j | 0 <= i < j < |xs| ensures xs[i] != xs[j] {
      assert Before(rank, xs[i], xs[j]);
    }
  }

  lemma {:induction false} DistinctCard<T>(xs: seq<T>)
    requires Distinct(xs)
    ensures |Elements(xs)| == |xs|
  {
    if xs != [] {
      DistinctCard(xs[1..]);
      assert Elements(xs) == Elements(xs[1..]) + {xs[0]};
      assert xs[0] !in xs[1..];
    }
  }

  /** Positions lo..hi in ascending order. */
  function Range(lo: nat, hi: nat): (r: seq<nat>)
    requires lo <= hi
    ensures |r| == hi - lo
    ensures forall i :: 0 <= i < |r| ==> r[i] == lo + i
    ensures forall x: int :: x in r <==> lo <= x < hi
  {
    var r: seq<nat> := seq(hi - lo, i requires 0 <= i < hi - lo => lo + i);
    assert forall x: int :: lo <= x < hi ==> x in r by {
      forall x: int | lo <= x < hi ensures x in r { assert r[x - lo] == x; }
    }
    r
  }

  /** The members of `xs` that are not in `keep`, in order. */
  function Without(xs: seq<nat>, keep: seq<int>): (r: seq<nat>)
    ensures forall y :: y in r <==> y in xs && y !in keep
    ensures |r| <= |xs|
  {
    if xs == [] then []
    else
      assert forall y :: y in xs <==> y == xs[0] || y in xs[1..];
      if xs[0] in keep then Without(xs[1..], keep) else [xs[0]] + Without(xs[1..], keep)
  }

  lemma {:induction false} WithoutDistinct(xs: seq<nat>, keep: seq<int>)
    requires Distinct(xs)
    ensures Distinct(Without(xs, keep))
  {
    if xs != [] {
      WithoutDistinct(xs[1..], keep);
      assert xs[0] !in xs[1..];
    }
  }

  lemma WithoutCard(xs: seq<nat>, keep: seq<int>)
    requires Distinct(xs)
    ensures |Without(xs, keep)| >= |xs| - |keep|
  {
    WithoutDistinct(xs, keep);
    DistinctCard(xs);
    DistinctCard(Without(xs, keep));
    var a: set<int>, b: set<int>, c: set<int> := Elements(xs), Elements(keep), Elements(Without(xs, keep));
    assert c == a - b;
    ElementsBound(keep);
    assert |a| <= |(a - b) + b| by { assert a <= (a - b) + b; SubsetCard(a, (a - b) + b); }
    assert |(a - b) + b| == |a - b| + |b|;
  }

  lemma {:induction false} ElementsBound<T>(xs: seq<T>)
    ensures |Elements(xs)| <= |xs|
  {
    if xs != [] {
      ElementsBound(xs[1..]);
      assert Elements(xs) == Elements(xs[1..]) + {xs[0]};
    }
  }

  lemma SubsetCard<T>(a: set<T>, b: set<T>)
    requires a <= b
    ensures |a| <= |b|
  {
    assert b == a + (b - a);
  }

  /** The members of `xs` that occur in `keep`, in order. */
  function Within(xs: seq<nat>, keep: seq<int>): (r: seq<nat>)
    ensures forall y: int :: y in r <==> y in xs && y in keep
    ensures |r| <= |xs|
  {
    if xs == [] then []
    else
      assert forall y: int :: y in xs <==> y == xs[0] || y in xs[1..];
      if xs[0] in keep then [xs[0]] + Within(xs[1..], keep) else Within(xs[1..], keep)
  }

  lemma {:induction false} WithinDistinct(xs: seq<nat>, keep: seq<int>)
    requires Distinct(xs)
    ensures Distinct(Within(xs, keep))
  {
    if xs != [] {
      WithinDistinct(xs[1..], keep);
      assert xs[0] !in xs[1..];
    }
  }

  /** `n` distinct positions among 1..n are all of them. */
  lemma DistinctCovers(xs: seq<nat>, n: nat)
    requires Distinct(xs) && |xs| == n && (forall i :: 0 <= i < |xs| ==> 1 <= xs[i] <= n)
    ensures forall y: nat :: y in xs <==> 1 <= y <= n
  {
    DistinctCard(xs);
    var all := Range(1, n + 1);
    DistinctCard(all);
    assert Elements(xs) <= Elements(all) by {
      forall y | y in Elements(xs) ensures y in Elements(all) {
        assert y in xs && 1 <= y <= n && y in all;
      }
    }
    assert Elements(xs) == Elements(all) by { SubsetEqual(Elements(xs), Elements(all)); }
    forall y: nat ensures y in xs <==> 1 <= y <= n {
      assert y in xs <==> y in Elements(xs);
      assert y in all <==> y in Elements(all);
    }
  }

  lemma SubsetEqual<T>(a: set<T>, b: set<T>)
    requires a <= b && |a| == |b|
    ensures a == b
  {
    assert |b| == |a| + |b - a| by { assert b == a + (b - a); }
    assert b - a == {};
  }

  /** If the tail of an arrangement is sorted and precedes its head, sorting moves the tail first. */
  lemma SortRotated(rank: seq<int>, order: seq<nat>, start: nat, xs: seq<nat>)
    requires InRange(rank, order) && InRange(rank, xs) && start <= |order| && Distinct(order) && Distinct(xs)
    requires forall y :: y in xs <==> y in order
    requires forall i, j :: start <= i < j < |order| ==> Before(rank, order[i], order[j])
    requires forall i, j :: 0 <= i < start <= j < |order| ==> Before(rank, order[j], order[i])
    ensures Sort(rank, xs) == order[start..] + Sort(rank, order[..start])
  {
    var tail, head := order[start..], order[..start];
    SortSorts(rank, xs);
    SortSorts(rank, head);
    var h := Sort(rank, head);
    assert Sorted(rank, tail);
    forall i, j | 0 <= i < |tail| && 0 <= j < |h| ensures Before(rank, tail[i], h[j]) {
      assert h[j] in h;
      var k :| 0 <= k < |head| && head[k] == h[j];
      assert Before(rank, order[start + i], order[k]);
    }
    SortedConcat(rank, tail, h);
    assert order == head + tail;
    SortedUnique(rank, tail + h, Sort(rank, xs));
  }

  lemma TakeOfTail<T>(a: seq<T>, h: seq<T>, start: nat, count: nat)
    requires start + count <= |a|
    ensures (a[start..] + h)[..count] == a[start .. start + count]
  {
  }

  /** If two subsets meet and together are no larger than the whole, something lies outside both. */
  lemma SomeOutside<T>(all: set<T>, a: set<T>, b: set<T>, s: T)
    requires a <= all && b <= all && |a| + |b| <= |all| && s in a && s in b
    ensures exists t :: t in all && t !in a && t !in b
  {
    var u := a + b;
    assert |u| == |a| + |b| - |a * b|;
    SubsetCard({s}, a * b);
    if forall t :: t in all ==> t in a || t in b {
      SubsetCard(all, u);
    }
  }

  /** An injective lookup keeps the number of positions. */
  lemma {:induction false} InjectiveImage(rows: set<int>, f: seq<int>)
    requires forall s :: s in rows ==> 0 <= s < |f|
    requires forall s, t :: s in rows && t in rows && f[s] == f[t] ==> s == t
    ensures |set s | s in rows :: f[s]| == |rows|
    decreases |rows|
  {
    if rows != {} {
      var s0 := Pick(rows);
      var rest := rows - {s0};
      InjectiveImage(rest, f);
      var a, b := set s | s in rows :: f[s], set s | s in rest :: f[s];
      assert a == b + {f[s0]};
      assert f[s0] !in b;
    }
  }

  lemma Pick<T>(rows: set<T>) returns (s: T)
    requires rows != {}
    ensures s in rows
  {
    s :| s in rows;
  }
}
