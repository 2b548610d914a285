/** The device pool of one layer: rows, the two maps, FIFO priorities and the layer clock. */
module TokenStore {
  import opened TokenTypes
  import opened Ranking

  /** `h2d` maps a global host ID to its device row, `d2h` a row to its host ID; row 0 is padding. */
  datatype Store = Store(
    rows: seq<Record>, h2d: seq<int>, d2h: seq<int>, prio: seq<int>, free: seq<bool>, clock: nat)

  function Slots(st: Store): int { |st.d2h| - 1 }

  predicate Shaped(st: Store) {
    && |st.d2h| >= 2 && |st.prio| == |st.d2h| && |st.free| == |st.d2h|
    && |st.d2h| <= |st.rows| <= MISSING && |st.h2d| < MISSING
  }

  ghost predicate SameShape(a: Store, b: Store) {
    && |a.d2h| == |b.d2h| && |a.prio| == |b.prio| && |a.free| == |b.free|
    && |a.rows| == |b.rows| && |a.h2d| == |b.h2d|
  }

  predicate Live(st: Store, s: int)
    requires 0 <= s < |st.d2h|
  {
    st.d2h[s] != MISSING
  }

  predicate Mapped(st: Store, g: int)
    requires 0 <= g < |st.h2d|
  {
    st.h2d[g] != MISSING
  }

  /** The two maps are mutually inverse off the padding row. */
  ghost predicate MapsAgree(st: Store) {
    && Shaped(st)
    && st.d2h[0] == MISSING
    && (forall s :: 1 <= s < |st.d2h| && Live(st, s) ==> 0 <= st.d2h[s] < |st.h2d| && st.h2d[st.d2h[s]] == s)
    && (forall g :: 0 <= g < |st.h2d| && Mapped(st, g) ==> 1 <= st.h2d[g] < |st.d2h| && st.d2h[st.h2d[g]] == g)
  }

  /** Rows name host IDs or nothing. */
  ghost predicate Named(st: Store) {
    forall s :: 0 <= s < |st.d2h| ==> st.d2h[s] == MISSING || 0 <= st.d2h[s] < |st.h2d|
  }

  lemma AgreeNamed(st: Store)
    requires MapsAgree(st)
    ensures Named(st)
  {
    forall s | 0 <= s < |st.d2h| ensures st.d2h[s] == MISSING || 0 <= st.d2h[s] < |st.h2d| {
      assert s >= 1 ==> !Live(st, s) || 0 <= st.d2h[s] < |st.h2d|;
    }
  }

  /** Every live row holds the record its host ID stands for. */
  ghost predicate Copies(st: Store, arena: map<int, Record>)
    requires Shaped(st)
  {
    forall s :: 1 <= s < |st.d2h| && Live(st, s) ==> st.d2h[s] in arena && st.rows[s] == arena[st.d2h[s]]
  }

  /** Outside `log` the free bitmap and the priorities tell exactly which rows are live. */
  ghost predicate Ages(st: Store, log: set<int>)
    requires Shaped(st)
  {
    && st.prio[0] == MISSING && !st.free[0]
    && (forall s :: 1 <= s < |st.d2h| ==> -1 <= st.prio[s])
    && (forall s :: 1 <= s < |st.d2h| && s !in log ==> (st.free[s] <==> !Live(st, s)))
    && (forall s :: 1 <= s < |st.d2h| && s !in log ==> (if Live(st, s) then 0 <= st.prio[s] < st.clock else st.prio[s] == -1))
    && (forall s :: 1 <= s < |st.d2h| && s in log ==> Live(st, s) && st.prio[s] < st.clock)
  }

  predicate RowIds(st: Store, slots: seq<int>) {
    forall k :: 0 <= k < |slots| ==> 1 <= slots[k] < |st.d2h|
  }

  predicate HostIds(st: Store, gs: seq<int>) {
    forall k :: 0 <= k < |gs| ==> 0 <= gs[k] < |st.h2d|
  }

  // ----- eviction

  /** One of the given rows holds host ID `g`. */
  predicate Held(st: Store, slots: seq<int>, g: int) {
    exists s <- slots :: 0 <= s < |st.d2h| && st.d2h[s] == g
  }

  /** Empty the given rows, without a word to the host IDs. */
  function Emptied(st: Store, slots: seq<int>): (r: Store)
    requires Shaped(st)
    ensures SameShape(r, st)
  {
    st.(d2h := seq(|st.d2h|, s requires 0 <= s < |st.d2h| => if s in slots then MISSING else st.d2h[s]),
        prio := seq(|st.prio|, s requires 0 <= s < |st.prio| => if s in slots then -1 else st.prio[s]),
        free := seq(|st.free|, s requires 0 <= s < |st.free| => if s in slots then true else st.free[s]))
  }

  /** Forget the given rows: the host IDs they hold are unmapped, whatever those IDs name. */
  function Evict(st: Store, slots: seq<int>): (r: Store)
    requires Shaped(st)
    ensures SameShape(r, st)
  {
    Emptied(st, slots)
      .(h2d := seq(|st.h2d|, g requires 0 <= g < |st.h2d| => if Held(st, slots, g) then MISSING else st.h2d[g]))
  }

  /** Forget the given host IDs and the rows they name. */
  function Forget(st: Store, gs: seq<int>): (r: Store)
    requires Shaped(st) && HostIds(st, gs)
    ensures SameShape(r, st)
  {
    Emptied(st, Hits(st, gs))
      .(h2d := seq(|st.h2d|, g requires 0 <= g < |st.h2d| => if g in gs then MISSING else st.h2d[g]))
  }

  /** Under inverse maps exactly the host IDs that name an evicted row are unmapped. */
  lemma EvictUnmaps(st: Store, slots: seq<int>)
    requires MapsAgree(st) && RowIds(st, slots)
    ensures forall g :: 0 <= g < |st.h2d| ==> Evict(st, slots).h2d[g] == if st.h2d[g] in slots then MISSING else st.h2d[g]
  {
    forall g | 0 <= g < |st.h2d| ensures Held(st, slots, g) <==> st.h2d[g] in slots {
      if s :| s in slots && 0 <= s < |st.d2h| && st.d2h[s] == g {
        assert Live(st, s);
      }
      if st.h2d[g] in slots { assert Mapped(st, g); }
    }
  }

  /** Under inverse maps, forgetting host IDs is evicting the rows they name. */
  lemma ForgetIsEvict(st: Store, gs: seq<int>)
    requires MapsAgree(st) && HostIds(st, gs)
    ensures Forget(st, gs) == Evict(st, Hits(st, gs))
  {
    HitsLive(st, gs);
    assert forall k :: 0 <= k < |Hits(st, gs)| ==> Hits(st, gs)[k] in Hits(st, gs);
    EvictUnmaps(st, Hits(st, gs));
    forall g | 0 <= g < |st.h2d| ensures (if g in gs then MISSING else st.h2d[g]) == Evict(st, Hits(st, gs)).h2d[g] {
      if g in gs {
        var k :| 0 <= k < |gs| && gs[k] == g;
        assert Mapped(st, gs[k]) ==> st.h2d[gs[k]] in Hits(st, gs);
      } else {
        assert Mapped(st, g) ==> 0 <= st.h2d[g] < |st.d2h| && st.d2h[st.h2d[g]] == g;
      }
    }
    assert Forget(st, gs).h2d == Evict(st, Hits(st, gs)).h2d;
  }

  lemma EvictKeeps(st: Store, slots: seq<int>, arena: map<int, Record>)
    requires MapsAgree(st) && Copies(st, arena) && RowIds(st, slots)
    ensures MapsAgree(Evict(st, slots)) && Copies(Evict(st, slots), arena)
    ensures Ages(st, {}) ==> Ages(Evict(st, slots), {})
  {
    var r := Evict(st, slots);
    EvictUnmaps(st, slots);
    assert 0 !in slots;
    assert MISSING !in slots;
  }

  // ----- binding

  /** Put record `r` of host ID `g` into row `s`. */
  function Bind(st: Store, g: int, s: int, r: Record): Store
    requires Shaped(st) && 0 <= g < |st.h2d| && 1 <= s < |st.d2h|
  {
    st.(rows := st.rows[s := r], h2d := st.h2d[g := s], d2h := st.d2h[s := g], free := st.free[s := false])
  }

  function BindAll(st: Store, gs: seq<int>, slots: seq<int>, rs: seq<Record>): (r: Store)
    requires Shaped(st) && |gs| == |slots| == |rs| && HostIds(st, gs) && RowIds(st, slots)
    ensures SameShape(r, st) && r.prio == st.prio && r.clock == st.clock
    decreases |gs|
  {
    if gs == [] then st
    else
      var n := |gs| - 1;
      Bind(BindAll(st, gs[..n], slots[..n], rs[..n]), gs[n], slots[n], rs[n])
  }

  /** What binding distinct host IDs to distinct rows leaves at every row and host ID. */
  ghost predicate BoundAt(st: Store, r: Store, gs: seq<int>, slots: seq<int>, rs: seq<Record>)
    requires Shaped(st) && SameShape(r, st) && |gs| == |slots| == |rs| && HostIds(st, gs) && RowIds(st, slots)
  {
    && (forall k :: 0 <= k < |gs| ==> r.h2d[gs[k]] == slots[k])
    && (forall k :: 0 <= k < |gs| ==> r.d2h[slots[k]] == gs[k] && r.rows[slots[k]] == rs[k] && !r.free[slots[k]])
    && (forall g :: 0 <= g < |st.h2d| && g !in gs ==> r.h2d[g] == st.h2d[g])
    && (forall s :: 0 <= s < |st.d2h| && s !in slots ==> r.d2h[s] == st.d2h[s] && r.free[s] == st.free[s])
    && (forall s :: 0 <= s < |st.rows| && s !in slots ==> r.rows[s] == st.rows[s])
  }

  lemma {:induction false} BindAllAt(st: Store, gs: seq<int>, slots: seq<int>, rs: seq<Record>)
    requires Shaped(st) && |gs| == |slots| == |rs| && HostIds(st, gs) && RowIds(st, slots)
    requires Distinct(gs) && Distinct(slots)
    ensures BoundAt(st, BindAll(st, gs, slots, rs), gs, slots, rs)
    decreases |gs|
  {
    if gs != [] {
      var n := |gs| - 1;
      BindAllAt(st, gs[..n], slots[..n], rs[..n]);
      BindExtends(st, BindAll(st, gs[..n], slots[..n], rs[..n]), gs, slots, rs);
    }
  }

  lemma BindExtends(st: Store, m: Store, gs: seq<int>, slots: seq<int>, rs: seq<Record>)
    requires Shaped(st) && SameShape(m, st) && |gs| == |slots| == |rs| > 0 && HostIds(st, gs) && RowIds(st, slots)
    requires Distinct(gs) && Distinct(slots)
    requires var n := |gs| - 1; BoundAt(st, m, gs[..n], slots[..n], rs[..n])
    ensures var n := |gs| - 1; BoundAt(st, Bind(m, gs[n], slots[n], rs[n]), gs, slots, rs)
  {
    var n := |gs| - 1;
    var r := Bind(m, gs[n], slots[n], rs[n]);
    forall k | 0 <= k < |gs|
      ensures r.h2d[gs[k]] == slots[k] && r.d2h[slots[k]] == gs[k] && r.rows[slots[k]] == rs[k] && !r.free[slots[k]]
    {
      if k < n { assert gs[..n][k] == gs[k] && slots[..n][k] == slots[k] && rs[..n][k] == rs[k]; }
    }
    assert forall x :: x in gs[..n] || x == gs[n] ==> x in gs;
    assert forall x :: x in slots[..n] || x == slots[n] ==> x in slots;
  }

  lemma BindAllKeeps(st: Store, gs: seq<int>, slots: seq<int>, rs: seq<Record>, arena: map<int, Record>)
    requires MapsAgree(st) && Copies(st, arena)
    requires |gs| == |slots| == |rs| && HostIds(st, gs) && RowIds(st, slots) && Distinct(gs) && Distinct(slots)
    requires forall k :: 0 <= k < |gs| ==> !Mapped(st, gs[k]) && !Live(st, slots[k])
    requires forall k :: 0 <= k < |gs| ==> gs[k] in arena && arena[gs[k]] == rs[k]
    ensures MapsAgree(BindAll(st, gs, slots, rs)) && Copies(BindAll(st, gs, slots, rs), arena)
  {
    BindAllAt(st, gs, slots, rs);
    var r := BindAll(st, gs, slots, rs);
    forall s | 1 <= s < |r.d2h| && Live(r, s)
      ensures 0 <= r.d2h[s] < |r.h2d| && r.h2d[r.d2h[s]] == s && r.d2h[s] in arena && r.rows[s] == arena[r.d2h[s]]
    {
      if s in slots {
        var k :| 0 <= k < |slots| && slots[k] == s;
      } else {
        assert Live(st, s);
        assert Mapped(st, st.d2h[s]);
      }
    }
    forall g | 0 <= g < |r.h2d| && Mapped(r, g) ensures 1 <= r.h2d[g] < |r.d2h| && r.d2h[r.h2d[g]] == g {
      if g in gs {
        var k :| 0 <= k < |gs| && gs[k] == g;
      } else {
        assert Mapped(st, g);
        assert Live(st, st.h2d[g]);
      }
    }
  }

  // ----- the FIFO clock

  /** The priorities of the live rows. */
  function LiveAges(st: Store): set<int>
    requires Shaped(st)
  {
    set s | 1 <= s < |st.d2h| && Live(st, s) :: st.prio[s]
  }

  function RankIn(ages: set<int>, v: int): nat {
    |set u | u in ages && u < v|
  }

  /** The clock has reached the limit, if there is one. */
  predicate AtLimit(st: Store, limit: Option<nat>) {
    limit.Some? && st.clock >= limit.value
  }

  /** A clock event: at the limit, live priorities are replaced by their dense ranks. */
  function ClockEvent(st: Store, limit: Option<nat>): (r: Store)
    requires Shaped(st)
    ensures SameShape(r, st)
  {
    if AtLimit(st, limit) then
      var ages := LiveAges(st);
      st.(prio := seq(|st.prio|, s requires 0 <= s < |st.prio| =>
            if s >= 1 && Live(st, s) then RankIn(ages, st.prio[s]) else st.prio[s]),
          clock := |ages|)
    else st
  }

  lemma RankMonotone(ages: set<int>, u: int, v: int)
    requires u in ages && v in ages
    ensures u < v <==> RankIn(ages, u) < RankIn(ages, v)
    ensures RankIn(ages, u) < |ages|
  {
    if u < v { RankBelow(ages, u, v); }
    if v < u { RankBelow(ages, v, u); }
    var a := set w | w in ages && w < u;
    SubsetCard(a + {u}, ages);
  }

  lemma RankBelow(ages: set<int>, u: int, v: int)
    requires u in ages && u < v
    ensures RankIn(ages, u) < RankIn(ages, v)
  {
    var a, b := set w | w in ages && w < u, set w | w in ages && w < v;
    assert u !in a;
    SubsetCard(a + {u}, b);
  }

  /**
   * Renumbering happens exactly when the clock has reached the limit; with fewer rows than the limit the clock is below it
   * afterwards, so no age ever exceeds it.
   */
  lemma ClockBounded(st: Store, limit: nat)
    requires Shaped(st)
    ensures ClockEvent(st, Some(limit)).clock == if st.clock >= limit then |LiveAges(st)| else st.clock
    ensures ClockEvent(st, None) == st && (st.clock < limit ==> ClockEvent(st, Some(limit)) == st)
    ensures Slots(st) < limit ==> ClockEvent(st, Some(limit)).clock < limit
  {
    var ages, all := LiveAges(st), st.prio[1..];
    forall v | v in ages ensures v in all {
      var s :| 1 <= s < |st.d2h| && Live(st, s) && st.prio[s] == v;
      assert all[s - 1] == v;
    }
    ElementsBound(all);
    SubsetCard(ages, Elements(all));
  }

  /** Renumbering keeps the order and the ties of the live rows, below the new clock. */
  lemma ClockEventKeeps(st: Store, limit: Option<nat>)
    requires Shaped(st)
    ensures var r := ClockEvent(st, limit);
      && r == st.(prio := r.prio, clock := r.clock)
      && (forall s :: 0 <= s < |st.d2h| && (s == 0 || !Live(st, s)) ==> r.prio[s] == st.prio[s])
      && (forall s, t :: 1 <= s < |st.d2h| && 1 <= t < |st.d2h| && Live(st, s) && Live(st, t) ==>
            (r.prio[s] < r.prio[t] <==> st.prio[s] < st.prio[t]))
      && (forall s :: 1 <= s < |st.d2h| && Live(st, s) && r != st ==> 0 <= r.prio[s] < r.clock)
  {
    if AtLimit(st, limit) {
      var ages := LiveAges(st);
      forall s, t | 1 <= s < |st.d2h| && 1 <= t < |st.d2h| && Live(st, s) && Live(st, t)
        ensures RankIn(ages, st.prio[s]) < |ages|
        ensures RankIn(ages, st.prio[s]) < RankIn(ages, st.prio[t]) <==> st.prio[s] < st.prio[t]
      {
        RankMonotone(ages, st.prio[s], st.prio[t]);
      }
    }
  }

  /** Stamp rows with the current clock and advance it; an empty list is an event too. */
  function Stamp(st: Store, slots: seq<int>): (r: Store)
    requires Shaped(st)
    ensures SameShape(r, st)
  {
    st.(prio := seq(|st.prio|, s requires 0 <= s < |st.prio| => if s == 0 then MISSING else if s in slots then st.clock else st.prio[s]),
        clock := st.clock + 1)
  }

  // ----- choosing victims

  /** Victim order: empty rows first, then live rows by age. */
  function VictimRank(st: Store): (r: seq<int>)
    requires Shaped(st)
    ensures |r| == |st.d2h|
  {
    seq(|st.d2h|, s requires 0 <= s < |st.d2h| => if Live(st, s) then st.prio[s] else -1)
  }

  function Available(st: Store, keep: seq<int>): (r: seq<nat>)
    requires Shaped(st)
    ensures forall s: int :: s in r <==> 1 <= s < |st.d2h| && s !in keep
    ensures forall k :: 0 <= k < |r| ==> r[k] in r && 1 <= r[k] < |st.d2h|
  {
    Without(Range(1, |st.d2h|), keep)
  }

  /** The first `count` rows of the stable victim order outside `keep`. */
  function Choose(st: Store, keep: seq<int>, count: nat): (r: seq<nat>)
    requires Shaped(st) && count <= |Available(st, keep)|
    ensures |r| == count
  {
    Sort(VictimRank(st), Available(st, keep))[..count]
  }

  /** Victims are distinct rows outside `keep`, and nothing spared is older. */
  lemma ChooseTakesOldest(st: Store, keep: seq<int>, count: nat)
    requires Shaped(st) && count <= |Available(st, keep)|
    ensures var c := Choose(st, keep, count);
      && Distinct(c) && RowIds(st, c)
      && (forall s :: s in c ==> s !in keep)
      && (forall s, t :: s in c && 1 <= t < |st.d2h| && t !in keep && t !in c ==> Before(VictimRank(st), s, t))
  {
    var all, rank := Available(st, keep), VictimRank(st);
    WithoutDistinct(Range(1, |st.d2h|), keep);
    SortSorts(rank, all);
    var sorted := Sort(rank, all);
    SortedDistinct(rank, sorted);
    assert forall k :: 0 <= k < count ==> sorted[k] in sorted && sorted[k] in sorted[..count];
    forall s, t | s in sorted[..count] && 1 <= t < |st.d2h| && t !in keep && t !in sorted[..count]
      ensures Before(rank, s, t)
    {
      assert t in sorted;
      var j :| 0 <= j < |sorted| && sorted[j] == t;
      var i :| 0 <= i < count && sorted[i] == s;
      assert Before(rank, sorted[i], sorted[j]);
    }
  }

  // ----- exact recall

  /** The rows that already hold the given host IDs, in order. */
  function Hits(st: Store, gs: seq<int>): (r: seq<int>)
    requires Shaped(st) && HostIds(st, gs)
    ensures forall s :: s in r <==> exists k :: 0 <= k < |gs| && Mapped(st, gs[k]) && st.h2d[gs[k]] == s
  {
    if gs == [] then []
    else
      var t := Hits(st, gs[1..]);
      var r := if Mapped(st, gs[0]) then [st.h2d[gs[0]]] + t else t;
      assert forall s :: s in r <==> exists k :: 0 <= k < |gs| && Mapped(st, gs[k]) && st.h2d[gs[k]] == s by {
        HitsCons(st, gs, t, r);
      }
      r
  }

  lemma HitsCons(st: Store, gs: seq<int>, t: seq<int>, r: seq<int>)
    requires Shaped(st) && HostIds(st, gs) && gs != []
    requires forall s :: s in t <==> exists k :: 0 <= k < |gs[1..]| && Mapped(st, gs[1..][k]) && st.h2d[gs[1..][k]] == s
    requires r == if Mapped(st, gs[0]) then [st.h2d[gs[0]]] + t else t
    ensures forall s :: s in r <==> exists k :: 0 <= k < |gs| && Mapped(st, gs[k]) && st.h2d[gs[k]] == s
  {
    forall s ensures s in r <==> exists k :: 0 <= k < |gs| && Mapped(st, gs[k]) && st.h2d[gs[k]] == s {
      if s in t {
        var k :| 0 <= k < |gs[1..]| && Mapped(st, gs[1..][k]) && st.h2d[gs[1..][k]] == s;
        assert gs[k + 1] == gs[1..][k];
      }
      if k :| 0 <= k < |gs| && Mapped(st, gs[k]) && st.h2d[gs[k]] == s {
        if k > 0 { assert gs[1..][k - 1] == gs[k]; }
      }
    }
  }

  /** The given host IDs that no row holds, in order. */
  function Misses(st: Store, gs: seq<int>): (r: seq<int>)
    requires Shaped(st) && HostIds(st, gs)
    ensures forall g :: g in r <==> g in gs && 0 <= g < |st.h2d| && !Mapped(st, g)
    ensures |r| + |Hits(st, gs)| == |gs|
  {
    if gs == [] then []
    else
      assert forall g :: g in gs <==> g == gs[0] || g in gs[1..];
      if Mapped(st, gs[0]) then Misses(st, gs[1..]) else [gs[0]] + Misses(st, gs[1..])
  }

  lemma {:induction false} MissesDistinct(st: Store, gs: seq<int>)
    requires Shaped(st) && HostIds(st, gs) && Distinct(gs)
    ensures Distinct(Misses(st, gs)) && HostIds(st, Misses(st, gs))
  {
    if gs != [] {
      MissesDistinct(st, gs[1..]);
      assert gs[0] !in gs[1..];
      assert forall k :: 0 <= k < |Misses(st, gs[1..])| ==> Misses(st, gs[1..])[k] in gs[1..];
    }
  }

  /** A bounded selection always leaves enough unprotected rows for its misses. */
  lemma MissesFit(st: Store, gs: seq<int>)
    requires Shaped(st) && HostIds(st, gs) && |gs| <= Slots(st)
    ensures |Misses(st, gs)| <= |Available(st, Hits(st, gs))|
  {
    WithoutCard(Range(1, |st.d2h|), Hits(st, gs));
  }

  function Protect(st: Store, limit: Option<nat>, gs: seq<int>): (r: Store)
    requires Shaped(st) && HostIds(st, gs)
    ensures SameShape(r, st)
  {
    Stamp(ClockEvent(st, limit), Hits(st, gs))
  }

  function Fetch(host: seq<Record>, gs: seq<int>): (r: seq<Record>)
    requires forall k :: 0 <= k < |gs| ==> 0 <= gs[k] < |host|
    ensures |r| == |gs| && forall k :: 0 <= k < |gs| ==> r[k] == host[gs[k]]
  {
    seq(|gs|, k requires 0 <= k < |gs| => host[gs[k]])
  }

  /** Overwrite the chosen rows with new copies. */
  function Refill(st: Store, gs: seq<int>, chosen: seq<int>, rs: seq<Record>): (r: Store)
    requires Shaped(st) && |gs| == |chosen| == |rs| && HostIds(st, gs) && RowIds(st, chosen)
    ensures SameShape(r, st)
  {
    BindAll(Evict(st, chosen), gs, chosen, rs)
  }

  ghost predicate Refillable(st: Store, gs: seq<int>, chosen: seq<int>, rs: seq<Record>)
    requires Shaped(st)
  {
    && |gs| == |chosen| == |rs| && HostIds(st, gs) && RowIds(st, chosen) && Distinct(gs) && Distinct(chosen)
    && (forall k :: 0 <= k < |gs| ==> !Mapped(st, gs[k]))
  }

  /** Refilling rows keeps the maps inverse and every copy exact. */
  lemma RefillKeeps(st: Store, gs: seq<int>, chosen: seq<int>, rs: seq<Record>, arena: map<int, Record>)
    requires MapsAgree(st) && Copies(st, arena) && Refillable(st, gs, chosen, rs)
    requires forall k :: 0 <= k < |gs| ==> gs[k] in arena && arena[gs[k]] == rs[k]
    ensures MapsAgree(Refill(st, gs, chosen, rs)) && Copies(Refill(st, gs, chosen, rs), arena)
  {
    EvictKeeps(st, chosen, arena);
    var e := Evict(st, chosen);
    assert forall k :: 0 <= k < |gs| ==> chosen[k] in chosen && !Live(e, chosen[k]);
    assert MISSING !in chosen;
    assert forall k :: 0 <= k < |gs| ==> !Mapped(e, gs[k]);
    BindAllKeeps(e, gs, chosen, rs, arena);
  }

  /** What a refill leaves at every host ID and row. */
  lemma RefillAt(st: Store, gs: seq<int>, chosen: seq<int>, rs: seq<Record>)
    requires Shaped(st) && Refillable(st, gs, chosen, rs)
    ensures var r := Refill(st, gs, chosen, rs);
      && r.clock == st.clock && r.prio == Evict(st, chosen).prio
      && (forall k :: 0 <= k < |gs| ==> r.h2d[gs[k]] == chosen[k])
      && (forall k :: 0 <= k < |gs| ==> r.d2h[chosen[k]] == gs[k] && !r.free[chosen[k]])
      && (forall g :: 0 <= g < |st.h2d| && g !in gs ==> r.h2d[g] == Evict(st, chosen).h2d[g])
      && (forall s :: 0 <= s < |st.d2h| && s !in chosen ==> r.d2h[s] == st.d2h[s] && r.free[s] == st.free[s])
      && (forall s :: 0 <= s < |st.rows| && s !in chosen ==> r.rows[s] == st.rows[s])
  {
    BindAllAt(Evict(st, chosen), gs, chosen, rs);
  }

  /** Stamping exactly the refilled rows restores the agreement of ages, bitmap and maps. */
  lemma RefillStampAges(st: Store, gs: seq<int>, chosen: seq<int>, rs: seq<Record>, limit: Option<nat>)
    requires Shaped(st) && Ages(st, {}) && Refillable(st, gs, chosen, rs) && |st.h2d| < MISSING
    ensures Ages(Stamp(ClockEvent(Refill(st, gs, chosen, rs), limit), chosen), {})
  {
    RefillAt(st, gs, chosen, rs);
    var r := Refill(st, gs, chosen, rs);
    ClockEventKeeps(r, limit);
    var f := Stamp(ClockEvent(r, limit), chosen);
    assert 0 !in chosen;
    forall s | 1 <= s < |r.d2h| ensures
      (f.free[s] <==> !Live(f, s)) && (if Live(f, s) then 0 <= f.prio[s] < f.clock else f.prio[s] == -1)
    {
      if s in chosen {
        var k :| 0 <= k < |chosen| && chosen[k] == s;
      } else {
        assert r.prio[s] == st.prio[s] && Live(r, s) == Live(st, s);
      }
    }
  }

  /** Exact recall of a selection: protect the hits, refill victims with the misses, stamp them. */
  datatype Recall = Recall(store: Store, misses: seq<int>, chosen: seq<int>)

  function EnsureRows(st: Store, limit: Option<nat>, gs: seq<int>, host: seq<Record>): (r: Recall)
    requires Shaped(st) && HostIds(st, gs) && |gs| <= Slots(st) && |host| == |st.h2d|
    ensures SameShape(r.store, st)
  {
    var s1 := Protect(st, limit, gs);
    var misses := Misses(s1, gs);
    if misses == [] then Recall(Stamp(ClockEvent(s1, limit), []), [], [])
    else
      MissesFit(s1, gs);
      MissesIn(s1, gs);
      var chosen := Choose(s1, Hits(s1, gs), |misses|);
      ChooseTakesOldest(s1, Hits(s1, gs), |misses|);
      var s2 := Refill(s1, misses, chosen, Fetch(host, misses));
      Recall(Stamp(ClockEvent(s2, limit), chosen), misses, chosen)
  }

  lemma MissesIn(st: Store, gs: seq<int>)
    requires Shaped(st) && HostIds(st, gs)
    ensures HostIds(st, Misses(st, gs))
  {
    forall k | 0 <= k < |Misses(st, gs)| ensures 0 <= Misses(st, gs)[k] < |st.h2d| {
      assert Misses(st, gs)[k] in Misses(st, gs);
    }
  }

  /** A stamp of live rows keeps ages, bitmap and maps in agreement. */
  lemma StampAges(st: Store, limit: Option<nat>, slots: seq<int>)
    requires Shaped(st) && Ages(st, {}) && (forall s :: s in slots ==> 1 <= s < |st.d2h| && Live(st, s))
    ensures Ages(Stamp(ClockEvent(st, limit), slots), {})
    ensures var r := Stamp(ClockEvent(st, limit), slots); r == st.(prio := r.prio, clock := r.clock)
  {
    ClockEventKeeps(st, limit);
  }

  lemma HitsLive(st: Store, gs: seq<int>)
    requires MapsAgree(st) && HostIds(st, gs)
    ensures forall s :: s in Hits(st, gs) ==> 1 <= s < |st.d2h| && Live(st, s) && st.d2h[s] in gs
  {
  }

  /** Every selected ID sits in a row holding its record, and no hit has moved. */
  ghost predicate Recalled(st: Store, r: Store, gs: seq<int>, arena: map<int, Record>)
    requires Shaped(st) && SameShape(r, st) && HostIds(st, gs)
  {
    && MapsAgree(r) && Copies(r, arena)
    && (forall g :: g in gs && 0 <= g < |st.h2d| ==> Mapped(r, g) && (Mapped(st, g) ==> r.h2d[g] == st.h2d[g]))
    && (forall s :: |st.d2h| <= s < |st.rows| ==> r.rows[s] == st.rows[s])
  }

  /** A mapped host ID is read back as the record it stands for. */
  lemma CopyRead(st: Store, arena: map<int, Record>, g: int)
    requires MapsAgree(st) && Copies(st, arena) && 0 <= g < |st.h2d| && Mapped(st, g)
    ensures g in arena && 1 <= st.h2d[g] < |st.d2h| && st.rows[st.h2d[g]] == arena[g]
  {
    assert Live(st, st.h2d[g]);
  }

  /** Recall succeeds for any bounded selection, moves no hit, and keeps every invariant. */
  lemma EnsureRecalls(st: Store, limit: Option<nat>, gs: seq<int>, host: seq<Record>, arena: map<int, Record>)
    requires MapsAgree(st) && Copies(st, arena) && Ages(st, {})
    requires HostIds(st, gs) && Distinct(gs) && |gs| <= Slots(st) && |host| == |st.h2d|
    requires forall g :: g in gs ==> g in arena
    requires forall g :: g in gs && 0 <= g < |st.h2d| && !Mapped(st, g) ==> host[g] == arena[g]
    ensures Recalled(st, EnsureRows(st, limit, gs, host).store, gs, arena)
    ensures Ages(EnsureRows(st, limit, gs, host).store, {})
  {
    ProtectKeeps(st, limit, gs);
    var s1 := Protect(st, limit, gs);
    HitsSame(st, s1, gs);
    if Misses(s1, gs) == [] {
      assert forall g :: g in gs && 0 <= g < |st.h2d| && !Mapped(st, g) ==> g in Misses(s1, gs);
      StampAges(s1, limit, []);
      RecalledSame(st, s1, s1, Stamp(ClockEvent(s1, limit), []), gs, arena);
    } else {
      EnsureMisses(s1, limit, gs, host, arena);
      RecalledSame(st, s1, EnsureRows(st, limit, gs, host).store, EnsureRows(st, limit, gs, host).store, gs, arena);
    }
  }

  /** `Recalled` does not look at priorities or clocks. */
  lemma RecalledSame(a: Store, a': Store, b: Store, b': Store, gs: seq<int>, arena: map<int, Record>)
    requires Shaped(a) && SameShape(b, a) && HostIds(a, gs)
    requires a == a'.(prio := a.prio, clock := a.clock) && SameShape(a', a) && SameShape(b', b)
    requires b == b'.(prio := b.prio, clock := b.clock)
    requires Recalled(a', b, gs, arena)
    ensures Recalled(a, b', gs, arena)
  {
    assert forall g :: 0 <= g < |a.h2d| ==> Mapped(a, g) == Mapped(a', g);
    assert forall g :: 0 <= g < |a.h2d| ==> Mapped(b, g) == Mapped(b', g);
    assert forall s :: 0 <= s < |a.d2h| ==> Live(b, s) == Live(b', s);
  }

  lemma EnsureMisses(s1: Store, limit: Option<nat>, gs: seq<int>, host: seq<Record>, arena: map<int, Record>)
    requires MapsAgree(s1) && Copies(s1, arena) && Ages(s1, {})
    requires HostIds(s1, gs) && Distinct(gs) && |gs| <= Slots(s1) && |host| == |s1.h2d|
    requires forall g :: g in gs ==> g in arena
    requires forall g :: g in gs && 0 <= g < |s1.h2d| && !Mapped(s1, g) ==> host[g] == arena[g]
    ensures HostIds(s1, Misses(s1, gs)) && |Misses(s1, gs)| <= |Available(s1, Hits(s1, gs))|
    ensures var misses := Misses(s1, gs); var chosen := Choose(s1, Hits(s1, gs), |misses|);
      Refillable(s1, misses, chosen, Fetch(host, misses)) &&
      var r := Stamp(ClockEvent(Refill(s1, misses, chosen, Fetch(host, misses)), limit), chosen);
      Recalled(s1, r, gs, arena) && Ages(r, {})
  {
    MissesFit(s1, gs);
    MissesIn(s1, gs);
    MissesDistinct(s1, gs);
    var misses := Misses(s1, gs);
    var chosen := Choose(s1, Hits(s1, gs), |misses|);
    ChooseTakesOldest(s1, Hits(s1, gs), |misses|);
    var rs := Fetch(host, misses);
    assert forall k :: 0 <= k < |misses| ==> misses[k] in misses;
    assert Refillable(s1, misses, chosen, rs);
    RecallMissing(s1, gs, chosen, host, arena);
    RefillStampAges(s1, misses, chosen, rs, limit);
    var m := Refill(s1, misses, chosen, rs);
    ClockEventKeeps(m, limit);
    RecalledSame(s1, s1, m, Stamp(ClockEvent(m, limit), chosen), gs, arena);
  }

  lemma ProtectKeeps(st: Store, limit: Option<nat>, gs: seq<int>)
    requires MapsAgree(st) && HostIds(st, gs)
    ensures var r := Protect(st, limit, gs); r == st.(prio := r.prio, clock := r.clock)
    ensures Ages(st, {}) ==> Ages(Protect(st, limit, gs), {})
  {
    HitsLive(st, gs);
    ClockEventKeeps(st, limit);
    if Ages(st, {}) { StampAges(st, limit, Hits(st, gs)); }
  }

  lemma {:induction false} HitsSame(a: Store, b: Store, gs: seq<int>)
    requires Shaped(a) && Shaped(b) && HostIds(a, gs) && a.h2d == b.h2d
    ensures Hits(a, gs) == Hits(b, gs) && Misses(a, gs) == Misses(b, gs)
  {
    if gs != [] { HitsSame(a, b, gs[1..]); }
  }

  lemma RecallMissing(st: Store, gs: seq<int>, chosen: seq<int>, host: seq<Record>, arena: map<int, Record>)
    requires MapsAgree(st) && Copies(st, arena) && HostIds(st, gs) && |host| == |st.h2d|
    requires HostIds(st, Misses(st, gs)) && Refillable(st, Misses(st, gs), chosen, Fetch(host, Misses(st, gs)))
    requires forall s :: s in chosen ==> s !in Hits(st, gs)
    requires forall g :: g in gs ==> g in arena
    requires forall g :: g in gs && 0 <= g < |st.h2d| && !Mapped(st, g) ==> host[g] == arena[g]
    ensures Recalled(st, Refill(st, Misses(st, gs), chosen, Fetch(host, Misses(st, gs))), gs, arena)
  {
    var misses := Misses(st, gs);
    var rs := Fetch(host, misses);
    assert forall k :: 0 <= k < |misses| ==> misses[k] in misses;
    RefillKeeps(st, misses, chosen, rs, arena);
    RefillAt(st, misses, chosen, rs);
    EvictUnmaps(st, chosen);
    var m := Refill(st, misses, chosen, rs);
    forall g | g in gs && 0 <= g < |st.h2d| ensures Mapped(m, g) && (Mapped(st, g) ==> m.h2d[g] == st.h2d[g]) {
      if Mapped(st, g) {
        var k :| 0 <= k < |gs| && gs[k] == g;
        assert st.h2d[gs[k]] in Hits(st, gs);
      } else {
        assert g in misses;
        var k :| 0 <= k < |misses| && misses[k] == g;
        assert m.h2d[misses[k]] == chosen[k];
      }
    }
  }

  /** Outside `rows`, live ages lie below the clock and empty rows rank lowest. */
  ghost predicate AgedOutside(st: Store, rows: seq<int>)
    requires Shaped(st)
  {
    forall s :: 1 <= s < |st.d2h| && s !in rows ==> if Live(st, s) then 0 <= st.prio[s] < st.clock else st.prio[s] == -1
  }

  /** A clock event and stamp leaves the rows it skips in their old order, all older than the stamped ones. */
  lemma StampOrder(st: Store, limit: Option<nat>, rows: seq<int>)
    requires Shaped(st) && AgedOutside(st, rows)
    ensures var r := Stamp(ClockEvent(st, limit), rows);
      && (forall s, t :: 1 <= s < |st.d2h| && 1 <= t < |st.d2h| && s !in rows && t !in rows ==>
            (r.prio[s] < r.prio[t] <==> st.prio[s] < st.prio[t]))
      && (forall s, t :: 1 <= s < |st.d2h| && 1 <= t < |st.d2h| && s !in rows && t in rows ==> r.prio[s] < r.prio[t])
  {
    ClockEventKeeps(st, limit);
    var e := ClockEvent(st, limit);
    forall s, t | 1 <= s < |st.d2h| && 1 <= t < |st.d2h| && s !in rows && t !in rows
      ensures e.prio[s] < e.prio[t] <==> st.prio[s] < st.prio[t]
    {
      if Live(st, s) && Live(st, t) {
      } else {
        assert !Live(st, s) ==> e.prio[s] == st.prio[s] == -1;
        assert !Live(st, t) ==> e.prio[t] == st.prio[t] == -1;
      }
    }
  }

  /** The rank by age of live rows and empty rows is the priority itself. */
  lemma RankIsAge(st: Store)
    requires Shaped(st) && Ages(st, {})
    ensures forall s :: 1 <= s < |st.d2h| ==> VictimRank(st)[s] == st.prio[s]
  {
  }
}
