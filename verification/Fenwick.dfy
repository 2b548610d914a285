/** The Fenwick tree of user weights, against plain prefix sums. */
module Fenwick {

  /** The lowest set bit: `i & -i`. */
  function LowBit(i: nat): (b: nat)
    requires i > 0
    ensures 1 <= b <= i
  {
    if i % 2 == 1 then 1 else 2 * LowBit(i / 2)
  }

  /** The node a node adds into: at least twice as wide. */
  lemma {:induction false} ParentIsWider(i: nat)
    requires i > 0
    ensures LowBit(i + LowBit(i)) >= 2 * LowBit(i)
  {
    if i % 2 == 0 {
      ParentIsWider(i / 2);
      assert (i + LowBit(i)) / 2 == i / 2 + LowBit(i / 2);
    }
  }

  /** Between a node and its parent every node is too narrow to reach back over it. */
  lemma {:induction false} BetweenIsNarrow(i: nat, d: nat)
    requires i > 0 && 0 < d < LowBit(i)
    ensures LowBit(i + d) == LowBit(d)
  {
    if d % 2 == 0 {
      BetweenIsNarrow(i / 2, d / 2);
      assert (i + d) / 2 == i / 2 + d / 2;
    }
  }

  /** The sibling before a node covers the positions right before it, unless the node is its parent's first. */
  lemma {:induction false} SiblingBefore(k: nat)
    requires k > 0
    ensures var j := k + LowBit(k); var s := k - LowBit(k);
      s == j - LowBit(j) || (s > 0 && s + LowBit(s) == j)
  {
    hide LowBit;
    var m := k / 2;
    if k % 2 == 0 {
      SiblingBefore(m);
      assert k == 2 * m;
      Doubled(m);
      Doubled(m + LowBit(m));
      if m > LowBit(m) { Doubled(m - LowBit(m)); }
    } else {
      assert k == 2 * m + 1;
      OddBit(k);
      if m % 2 == 0 {
        OddBit(m + 1);
        Doubled(m + 1);
      } else {
        OddBit(m);
        Doubled(m);
      }
    }
  }

  lemma OddBit(k: nat)
    requires k % 2 == 1
    ensures LowBit(k) == 1
  {
  }

  lemma Doubled(m: nat)
    requires m > 0
    ensures LowBit(2 * m) == 2 * LowBit(m)
  {
    assert 2 * m / 2 == m;
  }

  /** Sum of the values at lo..hi. */
  function Sum(v: seq<real>, lo: nat, hi: nat): real
    requires lo <= hi <= |v|
  {
    if lo == hi then 0.0 else Sum(v, lo, hi - 1) + v[hi - 1]
  }

  lemma {:induction false} SumSplit(v: seq<real>, lo: nat, mid: nat, hi: nat)
    requires lo <= mid <= hi <= |v|
    ensures Sum(v, lo, hi) == Sum(v, lo, mid) + Sum(v, mid, hi)
    decreases hi
  {
    if mid < hi { SumSplit(v, lo, mid, hi - 1); }
  }

  lemma {:induction false} SumUpdate(v: seq<real>, lo: nat, hi: nat, p: nat, x: real)
    requires lo <= hi <= |v| && p < |v|
    ensures Sum(v[p := x], lo, hi) == Sum(v, lo, hi) + (if lo <= p < hi then x - v[p] else 0.0)
    decreases hi
  {
    if lo < hi { SumUpdate(v, lo, hi - 1, p, x); }
  }

  lemma {:induction false} SumNonnegative(v: seq<real>, lo: nat, hi: nat)
    requires lo <= hi <= |v| && forall x <- v :: x >= 0.0
    ensures Sum(v, lo, hi) >= 0.0
    decreases hi
  {
    if lo < hi {
      SumNonnegative(v, lo, hi - 1);
      assert v[hi - 1] in v;
    }
  }

  /** What node `j` holds: the weights of the `LowBit(j)` users up to it. */
  function Node(v: seq<real>, j: nat): real
    requires 0 < j <= |v|
  {
    Sum(v, j - LowBit(j), j)
  }

  ghost predicate Represents(tree: seq<real>, v: seq<real>) {
    |tree| == |v| + 1 && forall j :: 0 < j <= |v| ==> tree[j] == Node(v, j)
  }

  // ----- building

  /** What node `j` has received once nodes 1..i have added into their parents. */
  function Received(v: seq<real>, j: nat, i: nat): real
    requires 0 < j <= |v| && i <= |v|
  {
    if i == 0 then 0.0 else Received(v, j, i - 1) + (if i + LowBit(i) == j then Node(v, i) else 0.0)
  }

  lemma {:induction false} NothingReceived(v: seq<real>, j: nat, a: nat, b: nat)
    requires 0 < j <= |v| && a <= b <= |v|
    requires forall i :: a < i <= b ==> i + LowBit(i) != j
    ensures Received(v, j, b) == Received(v, j, a)
    decreases b
  {
    if a < b { NothingReceived(v, j, a, b - 1); }
  }

  lemma ChildrenStandInside(j: nat)
    requires j > 0
    ensures forall i :: 0 < i <= j - LowBit(j) ==> i + LowBit(i) != j
  {
    forall i | 0 < i <= j - LowBit(j) ensures i + LowBit(i) != j {
      if i + LowBit(i) == j { ParentIsWider(i); }
    }
  }

  lemma NoParentBetween(k: nat, j: nat)
    requires k > 0 && k < j
    ensures forall i :: k - LowBit(k) < i < k ==> i + LowBit(i) != j
  {
    forall i | k - LowBit(k) < i < k ensures i + LowBit(i) <= k {
      var s := k - LowBit(k);
      NarrowInside(k, i);
    }
  }

  /** A node strictly inside another's range adds into something no later than it. */
  lemma {:induction false} NarrowInside(k: nat, i: nat)
    requires k > 0 && k - LowBit(k) < i < k
    ensures i + LowBit(i) <= k
  {
    if k % 2 == 0 && i % 2 == 0 {
      NarrowInside(k / 2, i / 2);
    }
  }

  /** After its last child, a node has received everything it covers except its own user. */
  lemma {:induction false} ReceivedUpTo(v: seq<real>, j: nat, k: nat)
    requires 0 < j <= |v| && k < j
    requires k == j - LowBit(j) || (k > 0 && k + LowBit(k) == j)
    ensures k >= j - LowBit(j) && Received(v, j, k) == Sum(v, j - LowBit(j), k)
    decreases k
  {
    if k == j - LowBit(j) {
      ChildrenStandInside(j);
      NothingReceived(v, j, 0, k);
    } else {
      ParentIsWider(k);
      SiblingBefore(k);
      var s := k - LowBit(k);
      ReceivedUpTo(v, j, s);
      NoParentBetween(k, j);
      NothingReceived(v, j, s, k - 1);
      SumSplit(v, j - LowBit(j), s, k);
    }
  }

  lemma BuiltNode(v: seq<real>, j: nat)
    requires 0 < j <= |v|
    ensures v[j - 1] + Received(v, j, j - 1) == Node(v, j)
  {
    if j % 2 == 0 {
      assert LowBit(j - 1) == 1;
    }
    ReceivedUpTo(v, j, j - 1);
  }

  /** What node `j` holds once nodes 1..i - 1 have added into their parents. */
  function Partial(v: seq<real>, j: nat, i: nat): real
    requires 0 < j <= |v| && i > 0
  {
    v[j - 1] + Received(v, j, if i <= j then i - 1 else j - 1)
  }

  lemma PartialStep(v: seq<real>, i: nat)
    requires 0 < i <= |v|
    ensures Partial(v, i, i) == Node(v, i)
    ensures forall j :: 0 < j <= |v| && i + LowBit(i) != j ==> Partial(v, j, i + 1) == Partial(v, j, i)
    ensures i + LowBit(i) <= |v| ==> Partial(v, i + LowBit(i), i + 1) == Partial(v, i + LowBit(i), i) + Node(v, i)
  {
    hide LowBit, Node;
    BuiltNode(v, i);
    forall j | 0 < j <= |v|
      ensures Partial(v, j, i + 1) == Partial(v, j, i) + (if i + LowBit(i) == j then Node(v, i) else 0.0)
    {
      if j > i {
        assert Received(v, j, i) == Received(v, j, i - 1) + (if i + LowBit(i) == j then Node(v, i) else 0.0);
      }
    }
  }

  lemma PartialStart(v: seq<real>)
    ensures forall j :: 0 < j <= |v| ==> Partial(v, j, 1) == v[j - 1]
  {
  }

  lemma PartialDone(v: seq<real>, j: nat)
    requires 0 < j <= |v|
    ensures Partial(v, j, |v| + 1) == Node(v, j)
  {
    BuiltNode(v, j);
  }

  // ----- powers of two

  predicate PowerOfTwo(s: nat) {
    s == 1 || (s > 1 && s % 2 == 0 && PowerOfTwo(s / 2))
  }

  /** The highest set bit: `1 << (n.bit_length() - 1)`. */
  function HighBit(n: nat): (b: nat)
    requires n > 0
    ensures b <= n < 2 * b && PowerOfTwo(b)
  {
    if n == 1 then 1 else 2 * HighBit(n / 2)
  }

  /** Odd multiples of a power of two have it as their lowest bit. */
  lemma {:induction false} StepBit(q: nat, step: nat)
    requires PowerOfTwo(step)
    ensures LowBit((2 * q + 1) * step) == step
    decreases step
  {
    if step > 1 {
      var h := step / 2;
      StepBit(q, h);
      var m := (2 * q + 1) * h;
      assert (2 * q + 1) * step == 2 * m;
      assert (2 * m) / 2 == m && 2 * m > 0;
    }
  }

  // ----- the sampler

  class WeightedSampler {
    var values: array<real>
    var tree: array<real>

    ghost predicate Valid()
      reads this, values, tree
    {
      values != tree && values.Length > 0 && Represents(tree[..], values[..])
    }

    constructor (weights: seq<real>)
      requires |weights| > 0
      ensures Valid() && fresh(values) && fresh(tree) && values[..] == weights
    {
      var n := |weights|;
      var vs := new real[n](i requires 0 <= i < n => weights[i]);
      var tr := new real[n + 1](i requires 0 <= i < n + 1 => if i == 0 then 0.0 else weights[i - 1]);
      values, tree := vs, tr;
      new;
      assert values[..] == weights;
      var i := 1;
      hide Partial, Node, LowBit;
      PartialStart(weights);
      while i < tree.Length
        invariant 1 <= i <= n + 1 && values[..] == weights && values == vs && tree == tr
        invariant forall j :: 0 < j <= n ==> tree[j] == Partial(weights, j, i)
      {
        PartialStep(weights, i);
        var parent := i + LowBit(i);
        if parent < tree.Length {
          tree[parent] := tree[parent] + tree[i];
        }
        i := i + 1;
      }
      forall j | 0 < j <= n ensures tree[..][j] == Node(weights, j) {
        PartialDone(weights, j);
      }
    }

    /** Replace one user's weight; every prefix sum follows. */
    method Set(index: nat, value: real)
      requires Valid() && index < values.Length
      modifies values, tree
      ensures Valid() && values[..] == old(values[..])[index := value]
    {
      ghost var was := values[..];
      var delta := value - values[index];
      values[index] := value;
      ghost var now := values[..];
      assert now == was[index := value];
      var i := index + 1;
      forall j | 0 < j <= index ensures Node(now, j) == Node(was, j) {
        SumUpdate(was, j - LowBit(j), j, index, value);
      }
      while i < tree.Length
        invariant index < i && values[..] == now
        invariant i - LowBit(i) <= index
        invariant forall j :: 0 < j < tree.Length ==> tree[j] == if j < i then Node(now, j) else Node(was, j)
        decreases tree.Length - i
      {
        var next := i + LowBit(i);
        forall j | i <= j < next && j < tree.Length ensures Node(now, j) == Node(was, j) + (if j == i then delta else 0.0) {
          SumUpdate(was, j - LowBit(j), j, index, value);
          if j > i { BetweenIsNarrow(i, j - i); }
        }
        ParentIsWider(i);
        tree[i] := tree[i] + delta;
        i := next;
      }
    }

    /** The sum of all weights, collected down the chain of prefix nodes. */
    method Total() returns (total: real)
      requires Valid()
      ensures total == Sum(values[..], 0, values.Length)
    {
      total := 0.0;
      ghost var v := values[..];
      var i := values.Length;
      while i > 0
        invariant 0 <= i <= values.Length && total + Sum(v, 0, i) == Sum(v, 0, values.Length)
      {
        SumSplit(v, 0, i - LowBit(i), i);
        assert tree[..][i] == Node(v, i);
        total := total + tree[i];
        i := i - LowBit(i);
      }
    }

    /** Inverse transform sampling: the drawn user's interval of the cumulative weights holds the target. */
    method Draw(u: real) returns (k: nat)
      requires Valid() && 0.0 <= u < 1.0 && forall x <- values[..] :: x >= 0.0
      ensures k < values.Length
      ensures var v := values[..]; var target := u * Sum(v, 0, |v|);
        Sum(v, 0, |v|) > 0.0 ==> Sum(v, 0, k) <= target < Sum(v, 0, k + 1) && v[k] > 0.0
    {
      var total := Total();
      SumNonnegative(values[..], 0, values.Length);
      Scaled(u, total);
      var index := Descend(u * total);
      var n := values.Length;
      k := if index < n then index else n - 1;
    }

    /** Walk down from the widest node: the largest prefix whose sum does not exceed the target. */
    method Descend(goal: real) returns (index: nat)
      requires Valid() && goal >= 0.0
      ensures index <= values.Length && Sum(values[..], 0, index) <= goal
      ensures index < values.Length ==> goal < Sum(values[..], 0, index + 1)
    {
      hide LowBit, PowerOfTwo;
      ghost var v := values[..];
      var n := values.Length;
      var target, step := goal, HighBit(n);
      index := 0;
      ghost var q := 0;
      assert OnGrid(0, 0, step);
      while step > 0
        invariant 0 <= index <= n && q >= 0
        invariant step > 0 ==> PowerOfTwo(step) && OnGrid(index, q, step)
        invariant target == goal - Sum(v, 0, index) && target >= 0.0
        invariant var width := if step == 0 then 1 else 2 * step;
          index + width <= n ==> goal < Sum(v, 0, index + width)
        decreases step
      {
        var next := index + step;
        GridStep(index, q, step);
        q := 2 * q;
        if next <= n {
          assert tree[..][next] == Node(v, next);
          SumSplit(v, 0, index, next);
          if tree[next] <= target {
            target := target - tree[next];
            index := next;
            q := q + 1;
          }
        }
        HalfPower(step);
        step := step / 2;
      }
    }
  }

  predicate OnGrid(index: nat, q: nat, step: nat) {
    index == q * (2 * step)
  }

  /** The node one step on covers exactly that step, and both ends lie on the next finer grid. */
  lemma GridStep(index: nat, q: nat, step: nat)
    requires PowerOfTwo(step) && OnGrid(index, q, step)
    ensures LowBit(index + step) == step
    ensures step > 1 ==> OnGrid(index, 2 * q, step / 2) && OnGrid(index + step, 2 * q + 1, step / 2)
  {
    HalfPower(step);
    hide PowerOfTwo, LowBit;
    StepBit(q, step);
    Regroup(q, step);
  }

  lemma Regroup(q: nat, step: nat)
    ensures q * (2 * step) + step == (2 * q + 1) * step && q * (2 * step) == (2 * q) * step
  {
  }

  lemma HalfPower(step: nat)
    requires PowerOfTwo(step)
    ensures step > 0 && (step > 1 ==> PowerOfTwo(step / 2) && step == 2 * (step / 2))
  {
  }

  lemma Scaled(u: real, total: real)
    requires 0.0 <= u < 1.0 && total >= 0.0
    ensures 0.0 <= u * total && (total > 0.0 ==> u * total < total)
  {
    if total > 0.0 { assert (1.0 - u) * total > 0.0; }
  }
}
