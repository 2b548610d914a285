/** Contiguous layer placement that minimises the largest resident weight. */
module LayerPlan {
  import opened TokenTypes

  datatype Plan<D> = BadArguments | CannotHold | Placed(mapping: seq<D>)

  /** A group of consecutive layers, first to one past the last. */
  datatype Part = Part(start: nat, end: nat)

  datatype Choice = Choice(largest: nat, parts: seq<Part>)

  function Total(sizes: seq<nat>): nat {
    if sizes == [] then 0 else Total(sizes[..|sizes| - 1]) + sizes[|sizes| - 1]
  }

  function Weight(sizes: seq<nat>, p: Part): nat
    requires p.start <= p.end <= |sizes|
  {
    Total(sizes[p.start..p.end])
  }

  /** Nonempty consecutive parts cover the first `end` layers, each within the budget of its device. */
  predicate Partition(sizes: seq<nat>, budgets: seq<int>, parts: seq<Part>, end: nat)
    requires end <= |sizes|
    decreases |parts|
  {
    if parts == [] then end == 0
    else
      var last := parts[|parts| - 1];
      && |parts| <= |budgets| && last.start < last.end == end
      && Weight(sizes, last) <= budgets[|parts| - 1]
      && Partition(sizes, budgets, parts[..|parts| - 1], last.start)
  }

  /** The largest weight any device would hold. */
  function Largest(sizes: seq<nat>, parts: seq<Part>): nat
    requires forall p <- parts :: p.start <= p.end <= |sizes|
  {
    if parts == [] then 0 else Max(Largest(sizes, parts[..|parts| - 1]), Weight(sizes, parts[|parts| - 1]))
  }

  lemma {:induction false} PartitionBounds(sizes: seq<nat>, budgets: seq<int>, parts: seq<Part>, end: nat)
    requires end <= |sizes| && Partition(sizes, budgets, parts, end)
    ensures |parts| <= end && forall p <- parts :: p.start < p.end <= end
    decreases |parts|
  {
    if parts != [] {
      var last := parts[|parts| - 1];
      PartitionBounds(sizes, budgets, parts[..|parts| - 1], last.start);
      assert parts == parts[..|parts| - 1] + [last];
    }
  }

  /** `c` is a partition of the first `end` layers into `g` parts, and no other one has a smaller largest weight. */
  ghost predicate Optimal(sizes: seq<nat>, budgets: seq<int>, g: nat, end: nat, c: Choice)
    requires end <= |sizes|
  {
    && Candidate(sizes, budgets, g, end, c)
    && forall q :: Partition(sizes, budgets, q, end) && |q| == g ==> LargestAtLeast(sizes, q, c.largest)
  }

  predicate Candidate(sizes: seq<nat>, budgets: seq<int>, g: nat, end: nat, c: Choice)
    requires end <= |sizes|
  {
    && Partition(sizes, budgets, c.parts, end) && |c.parts| == g
    && (forall p <- c.parts :: p.start <= p.end <= |sizes|) && c.largest == Largest(sizes, c.parts)
  }

  predicate LargestAtLeast(sizes: seq<nat>, q: seq<Part>, bound: nat) {
    (forall p <- q :: p.start <= p.end <= |sizes|) ==> Largest(sizes, q) >= bound
  }

  /** The largest weight, or nothing to speak of for parts outside the layers. */
  ghost function Peak(sizes: seq<nat>, parts: seq<Part>): nat {
    if forall p <- parts :: p.start <= p.end <= |sizes| then Largest(sizes, parts) else 0
  }

  /**
   * Which of the equally good partitions it is: no partition as good has a last part that starts earlier, and the parts before
   * it are the one chosen for their own layers.
   */
  ghost predicate Earliest(sizes: seq<nat>, budgets: seq<int>, end: nat, c: Choice)
    requires end <= |sizes|
    decreases |c.parts|
  {
    c.parts != [] ==>
      var n := |c.parts| - 1;
      var start, front := c.parts[n].start, Choice(Peak(sizes, c.parts[..n]), c.parts[..n]);
      && start <= end && Optimal(sizes, budgets, n, start, front) && Earliest(sizes, budgets, start, front)
      && forall q: seq<Part> :: Partition(sizes, budgets, q, end) && |q| == n + 1 && !LargestAtLeast(sizes, q, c.largest + 1) ==> start <= q[n].start
  }

  ghost predicate Possible(sizes: seq<nat>, budgets: seq<int>, g: nat, end: nat)
    requires end <= |sizes|
  {
    exists q :: Partition(sizes, budgets, q, end) && |q| == g
  }

  /** The table answers every smaller question: present exactly when possible, and then with a best choice. */
  ghost predicate Solved(sizes: seq<nat>, budgets: seq<int>, dp: map<(nat, nat), Choice>, g: nat, end: nat)
    requires end <= |sizes|
  {
    && ((g, end) in dp <==> Possible(sizes, budgets, g, end))
    && ((g, end) in dp ==> Optimal(sizes, budgets, g, end, dp[(g, end)]) && Earliest(sizes, budgets, end, dp[(g, end)]))
  }

  ghost predicate RowSolved(sizes: seq<nat>, budgets: seq<int>, dp: map<(nat, nat), Choice>, g: nat, upto: nat)
    requires upto <= |sizes| + 1
  {
    forall end :: 0 <= end < upto ==> Solved(sizes, budgets, dp, g, end)
  }

  /** Extending a choice by one more part. */
  function Extend(sizes: seq<nat>, c: Choice, p: Part): Choice
    requires p.start <= p.end <= |sizes|
  {
    Choice(Max(c.largest, Weight(sizes, p)), c.parts + [p])
  }

  lemma ExtendIsCandidate(sizes: seq<nat>, budgets: seq<int>, g: nat, start: nat, end: nat, c: Choice)
    requires start < end <= |sizes| && g < |budgets| && Candidate(sizes, budgets, g, start, c)
    requires Weight(sizes, Part(start, end)) <= budgets[g]
    ensures Candidate(sizes, budgets, g + 1, end, Extend(sizes, c, Part(start, end)))
  {
    var d := Extend(sizes, c, Part(start, end));
    assert d.parts[..|d.parts| - 1] == c.parts;
    assert forall p <- d.parts :: p in c.parts || p == Part(start, end);
  }

  /** A start position from which a partition of the prefix extends to a partition ending at `end`. */
  predicate Usable(sizes: seq<nat>, budgets: seq<int>, dp: map<(nat, nat), Choice>, g: nat, start: nat, end: nat)
    requires start < end <= |sizes| && g < |budgets|
  {
    (g, start) in dp && Weight(sizes, Part(start, end)) <= budgets[g]
  }

  /** Every partition into `g + 1` parts is at least as heavy as extending the best choice for its own prefix. */
  lemma PrefixExchange(sizes: seq<nat>, budgets: seq<int>, dp: map<(nat, nat), Choice>, g: nat, end: nat, q: seq<Part>)
    requires end <= |sizes| && g < |budgets| && RowSolved(sizes, budgets, dp, g, end)
    requires Partition(sizes, budgets, q, end) && |q| == g + 1
    ensures var start := q[g].start;
      && g <= start < end && q[g].end == end && Usable(sizes, budgets, dp, g, start, end)
      && LargestAtLeast(sizes, q, Extend(sizes, dp[(g, start)], Part(start, end)).largest)
  {
    var start := q[g].start;
    var front := q[..g];
    PartitionBounds(sizes, budgets, q, end);
    PartitionBounds(sizes, budgets, front, start);
    assert Solved(sizes, budgets, dp, g, start);
    assert Partition(sizes, budgets, front, start) && |front| == g;
    assert LargestAtLeast(sizes, front, dp[(g, start)].largest);
    assert forall p <- front :: p in q;
  }

  /** Choose the best extension; the first of equally good ones wins. */
  method BestEnd(sizes: seq<nat>, prefix: seq<nat>, budgets: seq<int>, dp: map<(nat, nat), Choice>, g: nat, end: nat)
    returns (found: bool, best: Choice)
    requires g < end <= |sizes| && g < |budgets| && RowSolved(sizes, budgets, dp, g, end)
    requires |prefix| == |sizes| + 1 && forall i :: 0 <= i < |prefix| ==> prefix[i] == Total(sizes[..i])
    ensures found <==> Possible(sizes, budgets, g + 1, end)
    ensures found ==> Optimal(sizes, budgets, g + 1, end, best) && Earliest(sizes, budgets, end, best)
  {
    hide Partition, Largest, Total, Earliest;
    found, best := false, Choice(0, []);
    var start := g;
    ghost var at := g;
    while start < end
      invariant g <= start <= end
      invariant found ==> g <= at < start && Usable(sizes, budgets, dp, g, at, end) && best == Extend(sizes, dp[(g, at)], Part(at, end))
      invariant found ==> forall s :: g <= s < at && Usable(sizes, budgets, dp, g, s, end) ==>
                  best.largest < Extend(sizes, dp[(g, s)], Part(s, end)).largest
      invariant found ==> Candidate(sizes, budgets, g + 1, end, best)
      invariant forall s :: g <= s < start && Usable(sizes, budgets, dp, g, s, end) ==>
                  found && best.largest <= Extend(sizes, dp[(g, s)], Part(s, end)).largest
    {
      WeightFromPrefix(sizes, start, end);
      var weight := prefix[end] - prefix[start];
      if (g, start) in dp && weight <= budgets[g] {
        var c := Choice(Max(dp[(g, start)].largest, weight), dp[(g, start)].parts + [Part(start, end)]);
        assert Solved(sizes, budgets, dp, g, start);
        ExtendIsCandidate(sizes, budgets, g, start, end, dp[(g, start)]);
        if !found || c.largest < best.largest {
          found, best, at := true, c, start;
        }
      }
      start := start + 1;
    }
    BestIsOptimal(sizes, budgets, dp, g, end, found, best);
    if found { BestIsEarliest(sizes, budgets, dp, g, at, end, best); }
  }

  /** Every equally good partition extends the best choice for its own prefix, so none of them starts its last part earlier. */
  lemma BestIsEarliest(sizes: seq<nat>, budgets: seq<int>, dp: map<(nat, nat), Choice>, g: nat, at: nat, end: nat, best: Choice)
    requires g <= at < end <= |sizes| && g < |budgets| && RowSolved(sizes, budgets, dp, g, end)
    requires Usable(sizes, budgets, dp, g, at, end) && best == Extend(sizes, dp[(g, at)], Part(at, end))
    requires forall s :: g <= s < at && Usable(sizes, budgets, dp, g, s, end) ==> best.largest < Extend(sizes, dp[(g, s)], Part(s, end)).largest
    ensures Earliest(sizes, budgets, end, best)
  {
    var front := dp[(g, at)];
    assert Solved(sizes, budgets, dp, g, at);
    assert best.parts[..g] == front.parts;
    forall q: seq<Part> | Partition(sizes, budgets, q, end) && |q| == g + 1 && !LargestAtLeast(sizes, q, best.largest + 1) ensures at <= q[g].start {
      PrefixExchange(sizes, budgets, dp, g, end, q);
    }
    hide Partition, Largest, Total;
  }

  /** Nothing usable was passed over, so what was found beats every partition. */
  lemma BestIsOptimal(sizes: seq<nat>, budgets: seq<int>, dp: map<(nat, nat), Choice>, g: nat, end: nat,
                      found: bool, best: Choice)
    requires g < end <= |sizes| && g < |budgets| && RowSolved(sizes, budgets, dp, g, end)
    requires found ==> Candidate(sizes, budgets, g + 1, end, best)
    requires forall s :: g <= s < end && Usable(sizes, budgets, dp, g, s, end) ==>
                found && best.largest <= Extend(sizes, dp[(g, s)], Part(s, end)).largest
    ensures found <==> Possible(sizes, budgets, g + 1, end)
    ensures found ==> Optimal(sizes, budgets, g + 1, end, best)
  {
    hide Partition, Largest, Total;
    forall q | Partition(sizes, budgets, q, end) && |q| == g + 1 ensures found && LargestAtLeast(sizes, q, best.largest) {
      PrefixExchange(sizes, budgets, dp, g, end, q);
    }
  }

  lemma {:induction false} WeightFromPrefix(sizes: seq<nat>, start: nat, end: nat)
    requires start <= end <= |sizes|
    ensures Total(sizes[..end]) - Total(sizes[..start]) == Weight(sizes, Part(start, end))
    decreases end
  {
    if start == end {
      assert sizes[start..end] == [];
    } else {
      WeightFromPrefix(sizes, start, end - 1);
      assert sizes[..end][..end - 1] == sizes[..end - 1];
      assert sizes[start..end][..end - 1 - start] == sizes[start..end - 1];
    }
  }

  /** Below `g` layers no partition into `g` nonempty parts exists. */
  lemma TooFewLayers(sizes: seq<nat>, budgets: seq<int>, g: nat, end: nat)
    requires end < g && end <= |sizes|
    ensures !Possible(sizes, budgets, g, end)
  {
    forall q | Partition(sizes, budgets, q, end) ensures |q| != g {
      PartitionBounds(sizes, budgets, q, end);
    }
  }

  lemma FreshRow(sizes: seq<nat>, budgets: seq<int>, dp: map<(nat, nat), Choice>, g: nat)
    requires g <= |sizes| && forall key <- dp.Keys :: key.0 < g
    ensures RowSolved(sizes, budgets, dp, g, g)
  {
    forall e | 0 <= e < g ensures Solved(sizes, budgets, dp, g, e) {
      TooFewLayers(sizes, budgets, g, e);
    }
  }

  /** What the layers are assigned to: consecutive runs of devices, one run a part. */
  ghost predicate Follows<D(!new)>(mapping: seq<D>, devices: seq<D>, parts: seq<Part>) {
    && |parts| == |devices|
    && forall k :: 0 <= k < |parts| ==> Fills(mapping, parts[k], devices[k])
  }

  ghost predicate Fills<D(!new)>(mapping: seq<D>, p: Part, device: D) {
    p.end <= |mapping| && forall l :: p.start <= l < p.end ==> mapping[l] == device
  }

  ghost predicate Best<D(!new)>(sizes: seq<nat>, budgets: seq<int>, devices: seq<D>, mapping: seq<D>, c: Choice) {
    Optimal(sizes, budgets, |devices|, |sizes|, c) && Earliest(sizes, budgets, |sizes|, c) && Follows(mapping, devices, c.parts)
  }

  /** A best partition exists exactly when the planner finds one, and it follows one. */
  method PlanLayerDevices<D(!new)>(sizes: seq<nat>, devices: seq<D>, budgets: seq<int>) returns (r: Plan<D>)
    ensures r.BadArguments? <==> !(1 <= |devices| <= |sizes|) || |budgets| != |devices|
    ensures r.CannotHold? <==> !r.BadArguments? && !Possible(sizes, budgets, |devices|, |sizes|)
    ensures r.Placed? ==> |r.mapping| == |sizes| && exists c :: Best(sizes, budgets, devices, r.mapping, c)
  {
    var n, groups := |sizes|, |devices|;
    if !(1 <= groups <= n) || |budgets| != groups {
      return BadArguments;
    }
    var prefix: seq<nat> := [0];
    for i := 0 to n
      invariant |prefix| == i + 1 && forall k :: 0 <= k <= i ==> prefix[k] == Total(sizes[..k])
    {
      assert sizes[..i + 1][..i] == sizes[..i];
      prefix := prefix + [prefix[i] + sizes[i]];
    }
    var dp: map<(nat, nat), Choice> := map[(0, 0) := Choice(0, [])];
    assert RowSolved(sizes, budgets, dp, 0, n + 1) by {
      assert Partition(sizes, budgets, [], 0);
    }
    var g := 0;
    while g < groups
      invariant 0 <= g <= groups && RowSolved(sizes, budgets, dp, g, n + 1)
      invariant forall key <- dp.Keys :: key.0 <= g
    {
      dp := FillRow(sizes, prefix, budgets, dp, g);
      g := g + 1;
    }
    assert Solved(sizes, budgets, dp, groups, n);
    if (groups, n) !in dp {
      return CannotHold;
    }
    var c := dp[(groups, n)];
    var mapping := Expand(sizes, budgets, devices, c.parts);
    assert Best(sizes, budgets, devices, mapping, c);
    r := Placed(mapping);
  }

  method FillRow(sizes: seq<nat>, prefix: seq<nat>, budgets: seq<int>, before: map<(nat, nat), Choice>, g: nat)
    returns (dp: map<(nat, nat), Choice>)
    requires g < |budgets| && g < |sizes| && RowSolved(sizes, budgets, before, g, |sizes| + 1)
    requires |prefix| == |sizes| + 1 && forall i :: 0 <= i < |prefix| ==> prefix[i] == Total(sizes[..i])
    requires forall key <- before.Keys :: key.0 <= g
    ensures RowSolved(sizes, budgets, dp, g + 1, |sizes| + 1) && forall key <- dp.Keys :: key.0 <= g + 1
  {
    hide Earliest, Optimal, Possible, Partition;
    dp := before;
    FreshRow(sizes, budgets, dp, g + 1);
    var end := g + 1;
    while end <= |sizes|
      invariant g + 1 <= end <= |sizes| + 1
      invariant RowSolved(sizes, budgets, dp, g, |sizes| + 1) && RowSolved(sizes, budgets, dp, g + 1, end)
      invariant forall key <- dp.Keys :: key.0 <= g + 1 && (key.0 == g + 1 ==> key.1 < end)
    {
      var found, best := BestEnd(sizes, prefix, budgets, dp, g, end);
      ghost var was := dp;
      if found {
        dp := dp[(g + 1, end) := best];
      }
      RowFrame(sizes, budgets, was, dp, g, |sizes| + 1, end);
      RowFrame(sizes, budgets, was, dp, g + 1, end, end);
      assert Solved(sizes, budgets, dp, g + 1, end);
      end := end + 1;
    }
  }

  lemma RowFrame(sizes: seq<nat>, budgets: seq<int>, was: map<(nat, nat), Choice>, dp: map<(nat, nat), Choice>,
                 g: nat, upto: nat, at: nat)
    requires upto <= |sizes| + 1 && RowSolved(sizes, budgets, was, g, upto)
    requires forall e :: 0 <= e < upto ==> ((g, e) in dp <==> (g, e) in was) && ((g, e) in dp ==> dp[(g, e)] == was[(g, e)])
    ensures RowSolved(sizes, budgets, dp, g, upto)
  {
    forall e | 0 <= e < upto ensures Solved(sizes, budgets, dp, g, e) {
      assert Solved(sizes, budgets, was, g, e);
      hide Earliest, Optimal, Possible;
    }
  }

  /** Repeat each device over its part. */
  method Expand<D(!new)>(sizes: seq<nat>, budgets: seq<int>, devices: seq<D>, parts: seq<Part>) returns (mapping: seq<D>)
    requires |parts| == |devices| && Partition(sizes, budgets, parts, |sizes|)
    ensures |mapping| == |sizes| && Follows(mapping, devices, parts)
  {
    mapping := [];
    PartitionChain(sizes, budgets, parts, |sizes|);
    var k := 0;
    while k < |parts|
      invariant 0 <= k <= |parts|
      invariant |mapping| == if k < |parts| then parts[k].start else |sizes|
      invariant forall j :: 0 <= j < k ==> Fills(mapping, parts[j], devices[j])
    {
      var longer := mapping + seq(parts[k].end - parts[k].start, _ => devices[k]);
      assert forall j :: 0 <= j < k ==> Fills(mapping, parts[j], devices[j]);
      assert Fills(longer, parts[k], devices[k]);
      mapping := longer;
      k := k + 1;
    }
  }

  /** Parts follow one another without gaps. */
  lemma {:induction false} PartitionChain(sizes: seq<nat>, budgets: seq<int>, parts: seq<Part>, end: nat)
    requires end <= |sizes| && Partition(sizes, budgets, parts, end)
    ensures forall k :: 0 <= k < |parts| ==> parts[k].start < parts[k].end
    ensures forall k :: 0 <= k < |parts| - 1 ==> parts[k].end == parts[k + 1].start
    ensures |parts| > 0 ==> parts[0].start == 0 && parts[|parts| - 1].end == end
    ensures |parts| == 0 ==> end == 0
    decreases |parts|
  {
    if parts != [] {
      PartitionChain(sizes, budgets, parts[..|parts| - 1], parts[|parts| - 1].start);
    }
  }
}
