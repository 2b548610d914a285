/** What one recall leaves in the rows and their ages, told without the events that it is made of. */
module RecallLaw {
  import opened TokenTypes
  import opened Ranking
  import opened TokenStore

  /** Row `s` holds a selected ID. */
  predicate Holds(st: Store, gs: seq<int>, s: int)
    requires 0 <= s < |st.d2h|
  {
    st.d2h[s] in gs
  }

  predicate Row(st: Store, s: int) { 1 <= s < |st.d2h| }

  /** Rows that hold no selected ID keep what they held and their order; a row that held one keeps it. */
  ghost predicate RestKept(st: Store, r: Store, gs: seq<int>)
    requires Shaped(st) && SameShape(r, st)
  {
    && (forall s :: Row(st, s) && (Holds(st, gs, s) || !Holds(r, gs, s)) ==> r.d2h[s] == st.d2h[s])
    && (forall s, t :: Row(st, s) && Row(st, t) && !Holds(r, gs, s) && !Holds(r, gs, t) ==>
          (r.prio[s] < r.prio[t] <==> st.prio[s] < st.prio[t]))
  }

  /** Rows that held a selected ID become younger than all rows that hold none; refilled rows are younger still. */
  ghost predicate Refreshed(st: Store, r: Store, gs: seq<int>)
    requires Shaped(st) && SameShape(r, st)
  {
    && (forall s, t :: Row(st, s) && Row(st, t) && Holds(r, gs, s) && !Holds(r, gs, t) ==> r.prio[t] < r.prio[s])
    && (forall s, t :: Row(st, s) && Row(st, t) && Holds(st, gs, s) && !Holds(st, gs, t) && Holds(r, gs, t) ==> r.prio[s] < r.prio[t])
    && (forall s, t :: Row(st, s) && Row(st, t) && Holds(r, gs, s) && Holds(r, gs, t) && Holds(st, gs, s) == Holds(st, gs, t) ==>
          r.prio[s] == r.prio[t])
  }

  /** The refilled rows were the first in the order of age among those without a selected ID, and the misses took them in that order. */
  ghost predicate OldestRefilled(st: Store, r: Store, gs: seq<int>)
    requires Shaped(st) && SameShape(r, st) && HostIds(st, gs)
  {
    && (forall s, t :: Row(st, s) && Row(st, t) && !Holds(st, gs, s) && Holds(r, gs, s) && !Holds(r, gs, t) ==> Before(st.prio, s, t))
    && (forall k :: 0 <= k < |gs| ==> Row(st, r.h2d[gs[k]]))
    && (forall i, j :: 0 <= i < j < |gs| && !Mapped(st, gs[i]) && !Mapped(st, gs[j]) ==> Before(st.prio, r.h2d[gs[i]], r.h2d[gs[j]]))
  }

  /** With inverse maps the rows that hold selected IDs are the hits. */
  lemma HitsHold(st: Store, gs: seq<int>)
    requires MapsAgree(st) && HostIds(st, gs)
    ensures forall s :: Row(st, s) ==> (s in Hits(st, gs) <==> Holds(st, gs, s))
  {
    forall s | Row(st, s) ensures s in Hits(st, gs) <==> Holds(st, gs, s) {
      if Holds(st, gs, s) {
        var k :| 0 <= k < |gs| && gs[k] == st.d2h[s];
        assert Live(st, s);
        assert Mapped(st, gs[k]);
      }
    }
  }

  /** How many of the first `i` IDs of a list are misses. */
  function MissRank(st: Store, gs: seq<int>, i: nat): nat
    requires Shaped(st) && HostIds(st, gs) && i <= |gs|
  {
    if i == 0 then 0 else (if Mapped(st, gs[0]) then 0 else 1) + MissRank(st, gs[1..], i - 1)
  }

  lemma {:induction false} MissAt(st: Store, gs: seq<int>, i: nat)
    requires Shaped(st) && HostIds(st, gs) && i < |gs| && !Mapped(st, gs[i])
    ensures MissRank(st, gs, i) < |Misses(st, gs)| && Misses(st, gs)[MissRank(st, gs, i)] == gs[i]
  {
    MissesHead(st, gs);
    var m, t := Misses(st, gs), Misses(st, gs[1..]);
    if i == 0 {
      hide *;
      Shifted(m, [], m, 0) by { assert m == [gs[0]] + t; }
      RankHead(st, gs, i);
    } else {
      RankHead(st, gs, i);
      assert 0 <= gs[i] < |st.h2d| && gs[1..][i - 1] == gs[i];
      hide *;
      var pre, k := if Mapped(st, gs[0]) then [] else [gs[0]], MissRank(st, gs[1..], i - 1);
      MissAt(st, gs[1..], i - 1);
      Shifted(m, pre, t, k);
    }
  }

  lemma RankHead(st: Store, gs: seq<int>, i: nat)
    requires Shaped(st) && HostIds(st, gs) && i < |gs|
    ensures i == 0 ==> MissRank(st, gs, i) == 0
    ensures i > 0 ==> HostIds(st, gs[1..]) && 0 <= gs[0] < |st.h2d| && MissRank(st, gs, i) == (if Mapped(st, gs[0]) then 0 else 1) + MissRank(st, gs[1..], i - 1)
  {
  }

  lemma Shifted(m: seq<int>, pre: seq<int>, t: seq<int>, k: nat)
    requires m == pre + t && k < |t|
    ensures |pre| + k < |m| && m[|pre| + k] == t[k]
  {
  }

  lemma MissesHead(st: Store, gs: seq<int>)
    requires Shaped(st) && HostIds(st, gs) && gs != []
    ensures 0 <= gs[0] < |st.h2d| && HostIds(st, gs[1..])
    ensures Misses(st, gs) == (if Mapped(st, gs[0]) then [] else [gs[0]]) + Misses(st, gs[1..])
  {
  }

  lemma {:induction false} MissRanks(st: Store, gs: seq<int>, i: nat, j: nat)
    requires Shaped(st) && HostIds(st, gs) && i < j <= |gs| && !Mapped(st, gs[i])
    ensures MissRank(st, gs, i) < MissRank(st, gs, j)
  {
    if i > 0 {
      assert gs[1..][i - 1] == gs[i];
      MissRanks(st, gs[1..], i - 1, j - 1);
    }
  }

  /** Misses come in the order of the selection. */
  lemma MissesInOrder(st: Store, gs: seq<int>, i: nat, j: nat) returns (a: nat, b: nat)
    requires Shaped(st) && HostIds(st, gs) && i < j < |gs| && !Mapped(st, gs[i]) && !Mapped(st, gs[j])
    ensures a < b < |Misses(st, gs)| && Misses(st, gs)[a] == gs[i] && Misses(st, gs)[b] == gs[j]
  {
    a, b := MissRank(st, gs, i), MissRank(st, gs, j);
    MissAt(st, gs, i);
    MissAt(st, gs, j);
    MissRanks(st, gs, i, j);
  }

  /** A recall refreshes what it finds, refills the oldest of the other rows, and leaves the rest in its order. */
  lemma RecallOrder(st: Store, limit: Option<nat>, gs: seq<int>, host: seq<Record>)
    requires MapsAgree(st) && Ages(st, {})
    requires HostIds(st, gs) && Distinct(gs) && |gs| <= Slots(st) && |host| == |st.h2d|
    ensures var r := EnsureRows(st, limit, gs, host).store;
      RestKept(st, r, gs) && Refreshed(st, r, gs) && OldestRefilled(st, r, gs)
  {
    var s1 := Protect(st, limit, gs);
    ProtectKeeps(st, limit, gs);
    HitsSame(st, s1, gs);
    ProtectYoungest(st, limit, gs);
    hide Protect, ClockEvent, Stamp, Refill, Choose, Hits, Misses, HitsYoungest, MapsAgree, Ages, RestKept, Refreshed, OldestRefilled;
    if Misses(st, gs) == [] {
      HitOrder(st, s1, limit, gs);
    } else {
      RefillOrder(st, s1, limit, gs, host);
    }
  }

  lemma ProtectYoungest(st: Store, limit: Option<nat>, gs: seq<int>)
    requires MapsAgree(st) && Ages(st, {}) && HostIds(st, gs)
    ensures HitsYoungest(st, Protect(st, limit, gs), Hits(st, gs))
  {
    HitsLive(st, gs);
    assert AgedOutside(st, Hits(st, gs));
    StampOrder(st, limit, Hits(st, gs));
    StampedAlike(ClockEvent(st, limit), Hits(st, gs));
    hide ClockEvent, Stamp, Hits;
  }

  lemma HitOrder(st: Store, s1: Store, limit: Option<nat>, gs: seq<int>)
    requires MapsAgree(st) && s1 == st.(prio := s1.prio, clock := s1.clock) && |s1.prio| == |st.prio| && Ages(s1, {})
    requires HostIds(st, gs) && Misses(st, gs) == [] && HitsYoungest(st, s1, Hits(st, gs))
    ensures var r := Stamp(ClockEvent(s1, limit), []); RestKept(st, r, gs) && Refreshed(st, r, gs) && OldestRefilled(st, r, gs)
  {
    StampOrder(s1, limit, []);
    StampAges(s1, limit, []);
    AllMapped(st, gs);
    HitsHold(st, gs);
    var r := Stamp(ClockEvent(s1, limit), []);
    assert ChosenYoungest(s1, r, []);
    hide *;
    SameRows(st, s1, r, gs);
  }

  /** The rows hold what they held, and the second event has stamped nothing. */
  lemma SameRows(st: Store, s1: Store, r: Store, gs: seq<int>)
    requires Shaped(st) && SameShape(s1, st) && Shaped(s1) && SameShape(r, st) && r.d2h == st.d2h && r.h2d == st.h2d && HostIds(st, gs)
    requires HitsYoungest(st, s1, Hits(st, gs)) && ChosenYoungest(s1, r, [])
    requires forall s :: Row(st, s) ==> (s in Hits(st, gs) <==> Holds(st, gs, s))
    requires forall k :: 0 <= k < |gs| ==> Mapped(st, gs[k]) && Row(st, st.h2d[gs[k]])
    ensures RestKept(st, r, gs) && Refreshed(st, r, gs) && OldestRefilled(st, r, gs)
  {
    assert forall s :: Row(st, s) ==> Holds(r, gs, s) == Holds(st, gs, s);
    assert Told(st, r, gs, Hits(st, gs), []);
    hide HitsYoungest, ChosenYoungest, Hits, Told;
    OrderedAfter(st, s1, r, gs, Hits(st, gs), []);
    hide RestKept, Refreshed, Holds;
  }

  lemma StampedAlike(st: Store, rows: seq<int>)
    requires Shaped(st)
    ensures forall s, t :: 1 <= s < |st.d2h| && 1 <= t < |st.d2h| && s in rows && t in rows ==> Stamp(st, rows).prio[s] == Stamp(st, rows).prio[t]
  {
  }

  lemma AllMapped(st: Store, gs: seq<int>)
    requires MapsAgree(st) && HostIds(st, gs) && Misses(st, gs) == []
    ensures forall k :: 0 <= k < |gs| ==> Mapped(st, gs[k]) && Row(st, st.h2d[gs[k]])
  {
    forall k | 0 <= k < |gs| ensures Mapped(st, gs[k]) && Row(st, st.h2d[gs[k]]) {
      assert gs[k] in gs;
    }
  }

  /** The chosen rows stand in the order of age. */
  lemma ChooseSorted(st: Store, keep: seq<int>, count: nat)
    requires Shaped(st) && Ages(st, {}) && count <= |Available(st, keep)|
    ensures var c := Choose(st, keep, count);
      && (forall a, b :: 0 <= a < b < |c| ==> Before(st.prio, c[a], c[b]))
      && (forall s, t :: s in c && 1 <= t < |st.d2h| && t !in keep && t !in c ==> Before(st.prio, s, t))
  {
    var all, rank := Available(st, keep), VictimRank(st);
    WithoutDistinct(Range(1, |st.d2h|), keep);
    SortSorts(rank, all);
    ChooseTakesOldest(st, keep, count);
    RankIsAge(st);
    var sorted := Sort(rank, all);
    var c := Choose(st, keep, count);
    forall a, b | 0 <= a < b < |c| ensures Before(st.prio, c[a], c[b]) {
      assert Before(rank, sorted[a], sorted[b]);
    }
  }

  /** The ages after the hits were stamped: they are the youngest, all alike, and the others keep their order. */
  ghost predicate HitsYoungest(st: Store, s1: Store, hits: seq<int>)
    requires Shaped(st) && SameShape(s1, st)
  {
    && (forall s, t :: Row(st, s) && Row(st, t) && s !in hits && t !in hits ==> (s1.prio[s] < s1.prio[t] <==> st.prio[s] < st.prio[t]))
    && (forall s, t :: Row(st, s) && Row(st, t) && s in hits && t !in hits ==> s1.prio[t] < s1.prio[s])
    && (forall s, t :: Row(st, s) && Row(st, t) && s in hits && t in hits ==> s1.prio[s] == s1.prio[t])
  }

  /** The same after the chosen rows were emptied, refilled and stamped. */
  ghost predicate ChosenYoungest(s1: Store, r: Store, chosen: seq<int>)
    requires Shaped(s1) && SameShape(r, s1)
  {
    && (forall s, t :: Row(s1, s) && Row(s1, t) && s !in chosen && t !in chosen ==> (r.prio[s] < r.prio[t] <==> s1.prio[s] < s1.prio[t]))
    && (forall s, t :: Row(s1, s) && Row(s1, t) && s in chosen && t !in chosen ==> r.prio[t] < r.prio[s])
    && (forall s, t :: Row(s1, s) && Row(s1, t) && s in chosen && t in chosen ==> r.prio[s] == r.prio[t])
  }

  lemma RefillYoungest(s1: Store, limit: Option<nat>, misses: seq<int>, chosen: seq<int>, rs: seq<Record>)
    requires Shaped(s1) && Ages(s1, {}) && Refillable(s1, misses, chosen, rs)
    ensures var s2 := Refill(s1, misses, chosen, rs); var r := Stamp(ClockEvent(s2, limit), chosen);
      ChosenYoungest(s1, r, chosen) && r == s2.(prio := r.prio, clock := r.clock)
  {
    var s2 := Refill(s1, misses, chosen, rs);
    RefillAt(s1, misses, chosen, rs);
    assert AgedOutside(s2, chosen);
    StampOrder(s2, limit, chosen);
    StampedAlike(ClockEvent(s2, limit), chosen);
    ClockEventKeeps(s2, limit);
  }

  /** Where the misses went: the chosen rows hold them in order, every other row holds what it held. */
  ghost predicate Placed(st: Store, r: Store, hits: seq<int>, misses: seq<int>, chosen: seq<int>)
    requires Shaped(st) && SameShape(r, st)
  {
    && |misses| == |chosen| && RowIds(st, chosen) && HostIds(st, misses)
    && (forall k :: 0 <= k < |misses| ==> r.d2h[chosen[k]] == misses[k] && r.h2d[misses[k]] == chosen[k])
    && (forall s :: Row(st, s) && s !in chosen ==> r.d2h[s] == st.d2h[s])
    && (forall s :: s in chosen ==> s !in hits)
  }

  lemma HoldsAfter(st: Store, r: Store, gs: seq<int>, misses: seq<int>, chosen: seq<int>)
    requires MapsAgree(st) && SameShape(r, st) && HostIds(st, gs) && Placed(st, r, Hits(st, gs), misses, chosen)
    requires forall k :: 0 <= k < |misses| ==> misses[k] in gs
    ensures Told(st, r, gs, Hits(st, gs), chosen)
  {
    HitsHold(st, gs);
    hide Hits;
    forall s | Row(st, s) ensures Holds(r, gs, s) <==> s in Hits(st, gs) || s in chosen {
      if s in chosen { var k :| 0 <= k < |chosen| && chosen[k] == s; }
    }
  }

  /** The order of two rows after both stamps. */
  lemma OrderAt(st: Store, s1: Store, r: Store, hits: seq<int>, chosen: seq<int>, s: int, t: int)
    requires Shaped(st) && SameShape(s1, st) && SameShape(r, st) && Shaped(s1) && Row(st, s) && Row(st, t)
    requires HitsYoungest(st, s1, hits) && ChosenYoungest(s1, r, chosen) && forall x :: x in chosen ==> x !in hits
    ensures s !in hits && s !in chosen && t !in hits && t !in chosen ==> (r.prio[s] < r.prio[t] <==> st.prio[s] < st.prio[t])
    ensures (s in hits || s in chosen) && t !in hits && t !in chosen ==> r.prio[t] < r.prio[s]
    ensures s in hits && t in chosen ==> r.prio[s] < r.prio[t]
    ensures (s in hits && t in hits) || (s in chosen && t in chosen) ==> r.prio[s] == r.prio[t]
  {
    assert s in hits && t in hits ==> !(s1.prio[s] < s1.prio[t]) && !(s1.prio[t] < s1.prio[s]);
  }

  /** Which rows hold selected IDs, before and after, in terms of hits and chosen rows. */
  ghost predicate Told(st: Store, r: Store, gs: seq<int>, hits: seq<int>, chosen: seq<int>)
    requires Shaped(st) && SameShape(r, st)
  {
    && (forall s :: Row(st, s) ==> (Holds(r, gs, s) <==> s in hits || s in chosen))
    && (forall s :: Row(st, s) ==> (Holds(st, gs, s) <==> s in hits))
    && (forall s :: Row(st, s) && s !in chosen ==> r.d2h[s] == st.d2h[s])
    && (forall x :: x in chosen ==> x !in hits)
  }

  lemma OrderedAfter(st: Store, s1: Store, r: Store, gs: seq<int>, hits: seq<int>, chosen: seq<int>)
    requires Shaped(st) && SameShape(s1, st) && Shaped(s1) && SameShape(r, st) && Told(st, r, gs, hits, chosen)
    requires HitsYoungest(st, s1, hits) && ChosenYoungest(s1, r, chosen)
    ensures RestKept(st, r, gs) && Refreshed(st, r, gs)
  {
    hide Holds, HitsYoungest, ChosenYoungest;
    forall s, t | Row(st, s) && Row(st, t) && !Holds(r, gs, s) && !Holds(r, gs, t) ensures r.prio[s] < r.prio[t] <==> st.prio[s] < st.prio[t] {
      OrderAt(st, s1, r, hits, chosen, s, t);
    }
    forall s, t | Row(st, s) && Row(st, t) && Holds(r, gs, s) && !Holds(r, gs, t) ensures r.prio[t] < r.prio[s] {
      OrderAt(st, s1, r, hits, chosen, s, t);
    }
    forall s, t | Row(st, s) && Row(st, t) && Holds(st, gs, s) && !Holds(st, gs, t) && Holds(r, gs, t) ensures r.prio[s] < r.prio[t] {
      OrderAt(st, s1, r, hits, chosen, s, t);
    }
    forall s, t | Row(st, s) && Row(st, t) && Holds(r, gs, s) && Holds(r, gs, t) && Holds(st, gs, s) == Holds(st, gs, t)
      ensures r.prio[s] == r.prio[t]
    {
      OrderAt(st, s1, r, hits, chosen, s, t);
    }
  }

  lemma VictimsAfter(st: Store, s1: Store, r: Store, gs: seq<int>, chosen: seq<int>)
    requires MapsAgree(st) && SameShape(s1, st) && SameShape(r, st) && HostIds(st, gs) && Placed(st, r, Hits(st, gs), Misses(st, gs), chosen)
    requires HitsYoungest(st, s1, Hits(st, gs)) && |s1.prio| == |st.d2h|
    requires forall a, b :: 0 <= a < b < |chosen| ==> Before(s1.prio, chosen[a], chosen[b])
    requires forall s, t :: s in chosen && 1 <= t < |st.d2h| && t !in Hits(st, gs) && t !in chosen ==> Before(s1.prio, s, t)
    requires forall k :: 0 <= k < |gs| && Mapped(st, gs[k]) ==> r.h2d[gs[k]] == st.h2d[gs[k]]
    ensures OldestRefilled(st, r, gs)
  {
    var hits, misses := Hits(st, gs), Misses(st, gs);
    hide HitsYoungest;
    assert forall k :: 0 <= k < |misses| ==> misses[k] in misses;
    HoldsAfter(st, r, gs, misses, chosen);
    hide Hits, Misses, Holds;
    forall k | 0 <= k < |gs| ensures Row(st, r.h2d[gs[k]]) { MissRow(st, r, gs, chosen, k); }
    hide MapsAgree;
    forall i, j | 0 <= i < j < |gs| && !Mapped(st, gs[i]) && !Mapped(st, gs[j]) ensures Before(st.prio, r.h2d[gs[i]], r.h2d[gs[j]]) {
      MissOrder(st, s1, r, gs, chosen, i, j);
    }
    hide Placed, Mapped;
    forall s, t | Row(st, s) && Row(st, t) && !Holds(st, gs, s) && Holds(r, gs, s) && !Holds(r, gs, t) ensures Before(st.prio, s, t) {
      AgesAgree(st, s1, hits, chosen, s, t);
    }
  }

  lemma MissOrder(st: Store, s1: Store, r: Store, gs: seq<int>, chosen: seq<int>, i: nat, j: nat)
    requires Shaped(st) && SameShape(s1, st) && SameShape(r, st) && HostIds(st, gs) && Placed(st, r, Hits(st, gs), Misses(st, gs), chosen)
    requires HitsYoungest(st, s1, Hits(st, gs)) && |s1.prio| == |st.d2h|
    requires forall a, b :: 0 <= a < b < |chosen| ==> Before(s1.prio, chosen[a], chosen[b])
    requires i < j < |gs| && !Mapped(st, gs[i]) && !Mapped(st, gs[j])
    ensures Row(st, r.h2d[gs[i]]) && Row(st, r.h2d[gs[j]]) && Before(st.prio, r.h2d[gs[i]], r.h2d[gs[j]])
  {
    hide Hits, Misses, HitsYoungest;
    var a, b := MissesInOrder(st, gs, i, j);
    assert chosen[a] in chosen && chosen[b] in chosen;
    AgesAgree(st, s1, Hits(st, gs), chosen, chosen[a], chosen[b]);
  }

  lemma AgesAgree(st: Store, s1: Store, hits: seq<int>, chosen: seq<int>, s: int, t: int)
    requires Shaped(st) && SameShape(s1, st) && Row(st, s) && Row(st, t) && HitsYoungest(st, s1, hits)
    requires s !in hits && t !in hits && Before(s1.prio, s, t)
    ensures Before(st.prio, s, t)
  {
  }

  lemma MissRow(st: Store, r: Store, gs: seq<int>, chosen: seq<int>, k: nat)
    requires MapsAgree(st) && SameShape(r, st) && HostIds(st, gs) && Placed(st, r, Hits(st, gs), Misses(st, gs), chosen) && k < |gs|
    requires Mapped(st, gs[k]) ==> r.h2d[gs[k]] == st.h2d[gs[k]]
    ensures Row(st, r.h2d[gs[k]])
  {
    if !Mapped(st, gs[k]) {
      assert gs[k] in Misses(st, gs);
      var i :| 0 <= i < |Misses(st, gs)| && Misses(st, gs)[i] == gs[k];
    }
  }

  lemma RefillOrder(st: Store, s1: Store, limit: Option<nat>, gs: seq<int>, host: seq<Record>)
    requires MapsAgree(st) && s1 == st.(prio := s1.prio, clock := s1.clock) && |s1.prio| == |st.prio| && Ages(s1, {})
    requires HostIds(st, gs) && Distinct(gs) && |gs| <= Slots(st) && |host| == |st.h2d|
    requires HitsYoungest(st, s1, Hits(st, gs))
    ensures |Misses(st, gs)| <= |Available(s1, Hits(st, gs))| && HostIds(s1, Misses(st, gs))
    ensures var chosen := Choose(s1, Hits(st, gs), |Misses(st, gs)|);
      RowIds(s1, chosen) &&
      var r := Stamp(ClockEvent(Refill(s1, Misses(st, gs), chosen, Fetch(host, Misses(st, gs))), limit), chosen);
      RestKept(st, r, gs) && Refreshed(st, r, gs) && OldestRefilled(st, r, gs)
  {
    var hits, misses := Hits(st, gs), Misses(st, gs);
    var chosen := RefillReady(st, s1, gs, host);
    var rs := Fetch(host, misses);
    hide MapsAgree, Ages, HitsYoungest;
    RefillYoungest(s1, limit, misses, chosen, rs);
    RefillPlaced(st, s1, misses, chosen, rs, gs);
    hide *;
    PlacedOrder(st, s1, Stamp(ClockEvent(Refill(s1, misses, chosen, rs), limit), chosen), gs, chosen);
  }

  lemma PlacedOrder(st: Store, s1: Store, r: Store, gs: seq<int>, chosen: seq<int>)
    requires MapsAgree(st) && SameShape(s1, st) && Shaped(s1) && SameShape(r, st) && HostIds(st, gs)
    requires Placed(st, r, Hits(st, gs), Misses(st, gs), chosen)
    requires HitsYoungest(st, s1, Hits(st, gs)) && ChosenYoungest(s1, r, chosen)
    requires forall a, b :: 0 <= a < b < |chosen| ==> Before(s1.prio, chosen[a], chosen[b])
    requires forall s, t :: s in chosen && 1 <= t < |st.d2h| && t !in Hits(st, gs) && t !in chosen ==> Before(s1.prio, s, t)
    requires forall k :: 0 <= k < |gs| && Mapped(st, gs[k]) ==> r.h2d[gs[k]] == st.h2d[gs[k]]
    ensures RestKept(st, r, gs) && Refreshed(st, r, gs) && OldestRefilled(st, r, gs)
  {
    var hits, misses := Hits(st, gs), Misses(st, gs);
    hide HitsYoungest, ChosenYoungest, Before;
    assert forall k :: 0 <= k < |misses| ==> misses[k] in misses;
    HoldsAfter(st, r, gs, misses, chosen);
    hide *;
    VictimsAfter(st, s1, r, gs, chosen);
    OrderedAfter(st, s1, r, gs, hits, chosen);
  }

  /** The misses of a bounded selection find rows, the oldest without a hit, in the order of age. */
  lemma RefillReady(st: Store, s1: Store, gs: seq<int>, host: seq<Record>) returns (chosen: seq<nat>)
    requires MapsAgree(st) && s1 == st.(prio := s1.prio, clock := s1.clock) && |s1.prio| == |st.prio| && Ages(s1, {})
    requires HostIds(st, gs) && Distinct(gs) && |gs| <= Slots(st) && |host| == |st.h2d|
    ensures |Misses(st, gs)| <= |Available(s1, Hits(st, gs))| && HostIds(s1, Misses(st, gs))
    ensures chosen == Choose(s1, Hits(st, gs), |Misses(st, gs)|)
    ensures Refillable(s1, Misses(st, gs), chosen, Fetch(host, Misses(st, gs)))
    ensures forall s :: s in chosen ==> s !in Hits(st, gs)
    ensures forall a, b :: 0 <= a < b < |chosen| ==> Before(s1.prio, chosen[a], chosen[b])
    ensures forall s, t :: s in chosen && 1 <= t < |st.d2h| && t !in Hits(st, gs) && t !in chosen ==> Before(s1.prio, s, t)
  {
    HitsSame(st, s1, gs);
    MissesFit(s1, gs);
    MissesIn(st, gs);
    MissesDistinct(st, gs);
    var hits, misses := Hits(st, gs), Misses(st, gs);
    assert forall k :: 0 <= k < |misses| ==> misses[k] in misses;
    chosen := Choose(s1, hits, |misses|);
    ChooseTakesOldest(s1, hits, |misses|);
    ChooseSorted(s1, hits, |misses|);
    hide Hits, Misses, Choose, Available, MapsAgree, Ages;
    assert forall k :: 0 <= k < |misses| ==> !Mapped(s1, misses[k]);
  }

  lemma RefillPlaced(st: Store, s1: Store, misses: seq<int>, chosen: seq<int>, rs: seq<Record>, gs: seq<int>)
    requires MapsAgree(st) && s1 == st.(prio := s1.prio, clock := s1.clock) && |s1.prio| == |st.prio|
    requires Refillable(s1, misses, chosen, rs) && HostIds(st, gs)
    requires misses == Misses(st, gs) && forall s :: s in chosen ==> s !in Hits(st, gs)
    ensures var r := Refill(s1, misses, chosen, rs);
      && Placed(st, r, Hits(st, gs), misses, chosen)
      && forall k :: 0 <= k < |gs| && Mapped(st, gs[k]) ==> r.h2d[gs[k]] == st.h2d[gs[k]]
  {
    RefillAt(s1, misses, chosen, rs);
    assert MapsAgree(s1) by {
      assert forall s :: 0 <= s < |st.d2h| ==> Live(s1, s) == Live(st, s);
      assert forall g :: 0 <= g < |st.h2d| ==> Mapped(s1, g) == Mapped(st, g);
    }
    EvictUnmaps(s1, chosen);
    forall k | 0 <= k < |gs| && Mapped(st, gs[k]) ensures st.h2d[gs[k]] in Hits(st, gs) && gs[k] !in misses {}
  }
}
