/** Two device pools of one layer that differ only in how their clocks number the ages, and in what their records say. */
module StoreTwins {
  import opened TokenTypes
  import opened Ranking
  import opened TokenStore

  /** Equal tables, and ages in the same order outside `log`, the rows that wait for a closing stamp. */
  ghost predicate Alike(a: Store, b: Store, log: set<int>) {
    && Shaped(a) && Shaped(b) && SameShape(a, b)
    && a.h2d == b.h2d && a.d2h == b.d2h && a.free == b.free
    && Ages(a, log) && Ages(b, log)
    && (forall s, t :: 1 <= s < |a.d2h| && 1 <= t < |a.d2h| && s !in log && t !in log ==> (a.prio[s] < a.prio[t] <==> b.prio[s] < b.prio[t]))
  }

  /** Equal tables outside the priorities; the rows in `stale` are about to be stamped. */
  ghost predicate AlikeOutside(a: Store, b: Store, stale: seq<int>) {
    && Shaped(a) && Shaped(b) && SameShape(a, b)
    && a.h2d == b.h2d && a.d2h == b.d2h && a.free == b.free
    && AgedOutside(a, stale) && AgedOutside(b, stale)
    && (forall s, t :: 1 <= s < |a.d2h| && 1 <= t < |a.d2h| && s !in stale && t !in stale ==> (a.prio[s] < a.prio[t] <==> b.prio[s] < b.prio[t]))
  }

  /** Priorities in the same order and equal tables, whatever the clocks. */
  ghost predicate SameOrder(x: Store, y: Store) {
    && SameShape(x, y) && |x.prio| == |x.d2h| && |y.prio| == |x.d2h|
    && x.h2d == y.h2d && x.d2h == y.d2h && x.free == y.free
    && forall s, t :: 1 <= s < |x.d2h| && 1 <= t < |x.d2h| ==> (x.prio[s] < x.prio[t] <==> y.prio[s] < y.prio[t])
  }

  /** Stamping the same rows under any two clock limits keeps the stores alike in order. */
  lemma StampAlike(a: Store, b: Store, la: Option<nat>, lb: Option<nat>, rows: seq<int>)
    requires AlikeOutside(a, b, rows)
    ensures SameOrder(Stamp(ClockEvent(a, la), rows), Stamp(ClockEvent(b, lb), rows))
  {
    StampOrder(a, la, rows);
    StampOrder(b, lb, rows);
    ClockEventKeeps(a, la);
    ClockEventKeeps(b, lb);
    hide ClockEvent, AgedOutside;
    var x, y := Stamp(ClockEvent(a, la), rows), Stamp(ClockEvent(b, lb), rows);
    forall s, t | 1 <= s < |a.d2h| && 1 <= t < |a.d2h| ensures x.prio[s] < x.prio[t] <==> y.prio[s] < y.prio[t] {
      if s in rows && t in rows {
        assert x.prio[s] == x.prio[t] && y.prio[s] == y.prio[t];
      }
    }
  }

  lemma SameMapped(a: Store, b: Store, log: set<int>)
    requires Alike(a, b, log)
    ensures forall g :: 0 <= g < |a.h2d| ==> Mapped(b, g) == Mapped(a, g)
    ensures forall s :: 0 <= s < |a.d2h| ==> Live(b, s) == Live(a, s)
  {
  }

  // ----- victims

  lemma ChooseAlike(a: Store, b: Store, keep: seq<int>, n: nat)
    requires Alike(a, b, {}) && n <= |Available(a, keep)|
    ensures n <= |Available(b, keep)| && Choose(a, keep, n) == Choose(b, keep, n)
  {
    RankIsAge(a);
    RankIsAge(b);
    hide Ages, VictimRank;
    assert Available(a, keep) == Available(b, keep);
    SortAgrees(VictimRank(a), VictimRank(b), Available(a, keep));
  }

  /** Equal orders of age give equal plans. */
  lemma OrderAlike(a: Store, b: Store)
    requires Alike(a, b, {})
    ensures Sort(a.prio, Range(1, |a.prio|)) == Sort(b.prio, Range(1, |b.prio|))
  {
    hide Ages;
    SortAgrees(a.prio, b.prio, Range(1, |a.prio|));
  }

  // ----- binding and refilling

  lemma {:induction false} BindAlike(a: Store, b: Store, gs: seq<int>, rows: seq<int>, ra: seq<Record>, rb: seq<Record>)
    requires Shaped(a) && Shaped(b) && SameShape(a, b) && |gs| == |rows| == |ra| == |rb| && HostIds(a, gs) && RowIds(a, rows)
    requires a.h2d == b.h2d && a.d2h == b.d2h && a.free == b.free
    ensures var x, y := BindAll(a, gs, rows, ra), BindAll(b, gs, rows, rb);
      x.h2d == y.h2d && x.d2h == y.d2h && x.free == y.free
    decreases |gs|
  {
    if gs != [] {
      var n := |gs| - 1;
      BindAlike(a, b, gs[..n], rows[..n], ra[..n], rb[..n]);
    }
  }

  lemma EvictSame(a: Store, b: Store, rows: seq<int>)
    requires Shaped(a) && Shaped(b) && SameShape(a, b) && a.h2d == b.h2d && a.d2h == b.d2h && a.free == b.free
    ensures var x, y := Evict(a, rows), Evict(b, rows); x.h2d == y.h2d && x.d2h == y.d2h && x.free == y.free
  {
    assert forall g :: Held(a, rows, g) == Held(b, rows, g);
  }

  lemma RefillAged(st: Store, gs: seq<int>, rows: seq<int>, rs: seq<Record>)
    requires Shaped(st) && Ages(st, {}) && Refillable(st, gs, rows, rs)
    ensures var r := Refill(st, gs, rows, rs);
      AgedOutside(r, rows) && forall s :: 1 <= s < |st.d2h| && s !in rows ==> r.prio[s] == st.prio[s]
  {
    RefillAt(st, gs, rows, rs);
    var r := Refill(st, gs, rows, rs);
    assert forall s :: 1 <= s < |st.d2h| && s !in rows ==> Live(r, s) == Live(st, s) && r.prio[s] == st.prio[s];
  }

  lemma RefillOutside(a: Store, b: Store, gs: seq<int>, rows: seq<int>, ra: seq<Record>, rb: seq<Record>)
    requires Alike(a, b, {}) && Refillable(a, gs, rows, ra) && Refillable(b, gs, rows, rb)
    ensures AlikeOutside(Refill(a, gs, rows, ra), Refill(b, gs, rows, rb), rows)
  {
    RefillAged(a, gs, rows, ra);
    RefillAged(b, gs, rows, rb);
    EvictSame(a, b, rows);
    BindAlike(Evict(a, rows), Evict(b, rows), gs, rows, ra, rb);
    hide Ages, AgedOutside, Evict, BindAll;
  }

  /** A refill followed by its stamp keeps the stores alike, whatever the records. */
  lemma RefillAlike(a: Store, b: Store, gs: seq<int>, rows: seq<int>, ra: seq<Record>, rb: seq<Record>, la: Option<nat>, lb: Option<nat>)
    requires Alike(a, b, {}) && Refillable(a, gs, rows, ra) && |rb| == |ra|
    ensures Refillable(b, gs, rows, rb)
    ensures Alike(Stamp(ClockEvent(Refill(a, gs, rows, ra), la), rows), Stamp(ClockEvent(Refill(b, gs, rows, rb), lb), rows), {})
  {
    assert Refillable(b, gs, rows, rb) by { SameMapped(a, b, {}); }
    RefillStampAges(a, gs, rows, ra, la);
    RefillStampAges(b, gs, rows, rb, lb);
    RefillOutside(a, b, gs, rows, ra, rb);
    hide Refill, Ages;
    StampAlike(Refill(a, gs, rows, ra), Refill(b, gs, rows, rb), la, lb, rows);
  }

  // ----- stamps of live rows, and releases

  /** Stamping live rows keeps two stores alike. */
  lemma TouchAlike(a: Store, b: Store, la: Option<nat>, lb: Option<nat>, rows: seq<int>)
    requires Alike(a, b, {}) && (forall s :: s in rows ==> 1 <= s < |a.d2h| && Live(a, s))
    ensures Alike(Stamp(ClockEvent(a, la), rows), Stamp(ClockEvent(b, lb), rows), {})
  {
    SameMapped(a, b, {});
    StampAges(a, la, rows);
    StampAges(b, lb, rows);
    assert AlikeOutside(a, b, rows);
    hide Ages, ClockEvent;
    StampAlike(a, b, la, lb, rows);
  }

  lemma EmptiedAges(st: Store, rows: seq<int>, h2d: seq<int>)
    requires Shaped(st) && Ages(st, {}) && RowIds(st, rows) && |h2d| == |st.h2d|
    ensures Ages(Emptied(st, rows).(h2d := h2d), {})
  {
    assert 0 !in rows;
  }

  /** Releasing host IDs keeps two stores alike. */
  lemma ForgetAlike(a: Store, b: Store, gs: seq<int>)
    requires Alike(a, b, {}) && MapsAgree(a) && HostIds(a, gs)
    ensures HostIds(b, gs) && Alike(Forget(a, gs), Forget(b, gs), {})
  {
    HitsLive(a, gs);
    HitsSame(a, b, gs);
    var rows := Hits(a, gs);
    assert forall k :: 0 <= k < |rows| ==> rows[k] in rows;
    var x, y := Forget(a, gs), Forget(b, gs);
    EmptiedAges(a, rows, x.h2d);
    EmptiedAges(b, rows, y.h2d);
    EmptiedOrder(a, b, rows, x.h2d, y.h2d);
  }

  lemma EmptiedOrder(a: Store, b: Store, rows: seq<int>, ha: seq<int>, hb: seq<int>)
    requires Alike(a, b, {}) && RowIds(a, rows) && |ha| == |a.h2d| == |hb|
    ensures var x, y := Emptied(a, rows).(h2d := ha), Emptied(b, rows).(h2d := hb);
      forall s, t :: 1 <= s < |a.d2h| && 1 <= t < |a.d2h| ==> (x.prio[s] < x.prio[t] <==> y.prio[s] < y.prio[t])
  {
    var x, y := Emptied(a, rows), Emptied(b, rows);
    forall s, t | 1 <= s < |a.d2h| && 1 <= t < |a.d2h| ensures x.prio[s] < x.prio[t] <==> y.prio[s] < y.prio[t] {
      assert -1 <= a.prio[s] && -1 <= a.prio[t] && -1 <= b.prio[s] && -1 <= b.prio[t];
      assert a.prio[s] == -1 <==> b.prio[s] == -1;
      assert a.prio[t] == -1 <==> b.prio[t] == -1;
    }
  }

  // ----- exact recall

  /** The part of a recall after its protection event. */
  function Rest(p: Store, limit: Option<nat>, gs: seq<int>, host: seq<Record>): (r: Store)
    requires Shaped(p) && HostIds(p, gs) && |gs| <= Slots(p) && |host| == |p.h2d|
    ensures SameShape(r, p)
  {
    var misses := Misses(p, gs);
    if misses == [] then Stamp(ClockEvent(p, limit), [])
    else
      MissesFit(p, gs);
      MissesIn(p, gs);
      var chosen := Choose(p, Hits(p, gs), |misses|);
      ChooseTakesOldest(p, Hits(p, gs), |misses|);
      Stamp(ClockEvent(Refill(p, misses, chosen, Fetch(host, misses)), limit), chosen)
  }

  lemma RestOf(st: Store, limit: Option<nat>, gs: seq<int>, host: seq<Record>)
    requires Shaped(st) && HostIds(st, gs) && |gs| <= Slots(st) && |host| == |st.h2d|
    ensures EnsureRows(st, limit, gs, host).store == Rest(Protect(st, limit, gs), limit, gs, host)
  {
    hide Protect, ClockEvent, Stamp, Refill;
  }

  lemma RestAlike(p: Store, q: Store, la: Option<nat>, lb: Option<nat>, gs: seq<int>, ha: seq<Record>, hb: seq<Record>)
    requires Alike(p, q, {}) && HostIds(p, gs) && HostIds(q, gs) && Distinct(gs) && |gs| <= Slots(p)
    requires |ha| == |p.h2d| == |hb|
    ensures Alike(Rest(p, la, gs, ha), Rest(q, lb, gs, hb), {})
  {
    HitsSame(p, q, gs);
    var misses := Misses(p, gs);
    hide Ages, ClockEvent, Stamp;
    if misses == [] {
      TouchAlike(p, q, la, lb, []);
    } else {
      MissesFit(p, gs);
      MissesIn(p, gs);
      MissesDistinct(p, gs);
      var chosen := Choose(p, Hits(p, gs), |misses|);
      ChooseTakesOldest(p, Hits(p, gs), |misses|);
      ChooseAlike(p, q, Hits(p, gs), |misses|);
      assert forall k :: 0 <= k < |misses| ==> misses[k] in misses;
      hide Alike;
      RefillAlike(p, q, misses, chosen, Fetch(ha, misses), Fetch(hb, misses), la, lb);
    }
  }

  /** Recall of the same selection keeps two stores alike. */
  lemma RecallAlike(a: Store, b: Store, la: Option<nat>, lb: Option<nat>, gs: seq<int>, ha: seq<Record>, hb: seq<Record>)
    requires Alike(a, b, {}) && MapsAgree(a) && HostIds(a, gs) && HostIds(b, gs) && Distinct(gs) && |gs| <= Slots(a)
    requires |ha| == |a.h2d| == |hb|
    ensures Alike(EnsureRows(a, la, gs, ha).store, EnsureRows(b, lb, gs, hb).store, {})
    ensures Misses(a, gs) == Misses(b, gs)
  {
    HitsLive(a, gs);
    HitsSame(a, b, gs);
    TouchAlike(a, b, la, lb, Hits(a, gs));
    RestOf(a, la, gs, ha);
    RestOf(b, lb, gs, hb);
    hide Ages, ClockEvent, Stamp, Rest, EnsureRows;
    RestAlike(Protect(a, la, gs), Protect(b, lb, gs), la, lb, gs, ha, hb);
  }
}
