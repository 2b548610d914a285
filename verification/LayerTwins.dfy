/** Twin layers: equal tables, cursors and proofs; only clock numbers, records and host memory may differ. */
module LayerTwins {
  import opened TokenTypes
  import opened Ranking
  import opened TokenStore
  import opened StoreTwins
  import opened TokenPool
  import opened PoolWritebacks
  import opened PoolTransactions
  import opened PoolAppend
  import opened PoolRecall
  import opened PoolPrefetch
  import opened PoolSessions
  import opened PoolRuns

  /** Equal configurations up to the clock limit. */
  ghost predicate Peers(c: Config, d: Config) { d == c.(limit := d.limit) }

  /** Equal cursors; the suffixes are equally long. */
  ghost predicate TwinView(v: View, w: View) {
    w == v.(tail := w.tail) && |w.tail| == |v.tail|
  }

  ghost predicate TwinViews(vs: map<nat, View>, ws: map<nat, View>) {
    vs.Keys == ws.Keys && forall o :: o in vs ==> TwinView(vs[o], ws[o])
  }

  ghost predicate TwinLayer(a: Layer, b: Layer) {
    && Alike(a.store, b.store, Claimed(a)) && |a.host| == |b.host|
    && a.proofs == b.proofs && a.candidate == b.candidate && a.pending == b.pending
    && TwinViews(a.views, b.views)
  }

  /** The layer part of the invariant that keeping twins needs. */
  ghost predicate Stocked(ly: Layer) {
    && MapsAgree(ly.store) && |ly.store.h2d| == |ly.host|
    && (ly.pending.Some? ==>
          var q := ly.pending.value;
          q.rank <= q.top <= |q.victims| && forall k :: 0 <= k < |q.victims| ==> 1 <= q.victims[k] < |ly.store.d2h|)
  }

  // ----- cursors, leases and proofs

  lemma TwinViewsAt(vs: map<nat, View>, ws: map<nat, View>, o: nat, v: View, w: View)
    requires TwinViews(vs, ws) && TwinView(v, w)
    ensures TwinViews(vs[o := v], ws[o := w])
  {
  }

  /** Rewriting everything but the store and the prefetch in the same way keeps twins. */
  lemma TwinFields(a: Layer, b: Layer, x: Layer, y: Layer)
    requires TwinLayer(a, b) && x.store == a.store && y.store == b.store && |x.host| == |a.host| && |y.host| == |b.host|
    requires x.proofs == y.proofs && x.candidate == y.candidate && x.pending == a.pending && y.pending == b.pending
    requires TwinViews(x.views, y.views)
    ensures TwinLayer(x, y)
  {
    assert Claimed(x) == Claimed(a);
  }

  lemma TwinLease(a: Layer, b: Layer, o: nat)
    requires TwinLayer(a, b)
    ensures TwinLayer(LeaseTo(a, o), LeaseTo(b, o))
  {
    TwinFields(a, b, LeaseTo(a, o), LeaseTo(b, o));
  }

  lemma TwinResident(c: Config, d: Config, ss: map<nat, Session>, a: Layer, b: Layer, o: nat)
    requires Peers(c, d) && TwinLayer(a, b) && o in ss && o in a.views
    ensures o in b.views && AllResident(c, ss, a, o) == AllResident(d, ss, b, o)
  {
  }

  // ----- prefetch

  /** A clock event keeps the order of the rows outside `rows`. */
  lemma EventOrder(st: Store, limit: Option<nat>, rows: seq<int>)
    requires Shaped(st) && AgedOutside(st, rows)
    ensures var e := ClockEvent(st, limit);
      && AgedOutside(e, rows) && e == st.(prio := e.prio, clock := e.clock)
      && forall s, t :: 1 <= s < |st.d2h| && 1 <= t < |st.d2h| && s !in rows && t !in rows ==> (e.prio[s] < e.prio[t] <==> st.prio[s] < st.prio[t])
  {
    ClockEventKeeps(st, limit);
    var e := ClockEvent(st, limit);
    hide ClockEvent;
    assert forall s :: 1 <= s < |st.d2h| ==> Live(e, s) == Live(st, s);
    forall s, t | 1 <= s < |st.d2h| && 1 <= t < |st.d2h| && s !in rows && t !in rows
      ensures e.prio[s] < e.prio[t] <==> st.prio[s] < st.prio[t]
    {
      assert !Live(st, s) ==> e.prio[s] == st.prio[s] == -1;
      assert !Live(st, t) ==> e.prio[t] == st.prio[t] == -1;
    }
  }

  /** The store of a closing prefetch just before its stamp. */
  function Published(st: Store, limit: Option<nat>, log: seq<nat>): (r: Store)
    requires Shaped(st)
    ensures SameShape(r, st)
  {
    var e := ClockEvent(st, limit);
    e.(free := seq(|e.free|, s requires 0 <= s < |e.free| => if s in log then false else e.free[s]))
  }

  lemma PublishedAlike(a: Store, b: Store, la: Option<nat>, lb: Option<nat>, log: seq<nat>, claimed: set<int>)
    requires Alike(a, b, claimed) && (forall s: int :: s in log <==> s in claimed)
    ensures AlikeOutside(Published(a, la, log), Published(b, lb, log), log)
  {
    assert AgedOutside(a, log) && AgedOutside(b, log);
    EventOrder(a, la, log);
    EventOrder(b, lb, log);
    hide ClockEvent, Ages;
    var x, y := Published(a, la, log), Published(b, lb, log);
    assert forall s :: 1 <= s < |a.d2h| ==> Live(x, s) == Live(ClockEvent(a, la), s) && Live(y, s) == Live(ClockEvent(b, lb), s);
  }

  lemma FinalizeIs(ly: Layer, limit: Option<nat>)
    requires Shaped(ly.store) && ly.pending.Some?
    ensures var log := Log(ly.pending.value);
      FinalizeAt(ly, limit).store == Stamp(ClockEvent(Published(ly.store, limit, log), limit), log)
  {
  }

  lemma FinalizeTwins(a: Layer, b: Layer, la: Option<nat>, lb: Option<nat>)
    requires TwinLayer(a, b) && Stocked(a) && Stocked(b) && a.pending.Some?
    ensures TwinLayer(FinalizeAt(a, la), FinalizeAt(b, lb))
  {
    LogIsClaimed(a);
    var log := Log(a.pending.value);
    PublishedAlike(a.store, b.store, la, lb, log, Claimed(a));
    FinalizeIs(a, la);
    FinalizeIs(b, lb);
    FinalizeAges(a, la);
    FinalizeAges(b, lb);
    hide FinalizeAt, Published, Log, Claimed, Ages, AlikeOutside;
    StampAlike(Published(a.store, la, log), Published(b.store, lb, log), la, lb, log);
    FinalizeRest(a, la);
    FinalizeRest(b, lb);
    hide Stamp, ClockEvent;
    FinalizeJoin(FinalizeAt(a, la), FinalizeAt(b, lb));
  }

  lemma FinalizeJoin(x: Layer, y: Layer)
    requires Shaped(x.store) && Shaped(y.store) && SameOrder(x.store, y.store) && Ages(x.store, {}) && Ages(y.store, {})
    requires |x.host| == |y.host| && x.proofs == y.proofs && x.candidate == y.candidate && x.pending.None? && y.pending.None?
    requires TwinViews(x.views, y.views)
    ensures TwinLayer(x, y)
  {
  }

  lemma FinalizeRest(ly: Layer, limit: Option<nat>)
    requires Shaped(ly.store) && ly.pending.Some?
    ensures var r := FinalizeAt(ly, limit);
      r.host == ly.host && r.proofs == Invalidate(ly.proofs) && r.candidate == ly.candidate && r.pending.None? && r.views == ly.views
  {
  }

  lemma FinalizeAges(ly: Layer, limit: Option<nat>)
    requires Stocked(ly) && ly.pending.Some? && Ages(ly.store, Claimed(ly))
    ensures Shaped(FinalizeAt(ly, limit).store) && Ages(FinalizeAt(ly, limit).store, {})
  {
    var rows := ly.store.rows;
    var arena: map<int, Record> := map g | 0 <= g < |ly.store.h2d| && ly.store.h2d[g] != MISSING && 0 <= ly.store.h2d[g] < |rows| :: rows[ly.store.h2d[g]];
    assert Copies(ly.store, arena);
    var ghostly := ly.(arena := arena);
    assert Claimed(ghostly) == Claimed(ly);
    FinalizeStore(ghostly, limit);
    assert FinalizeAt(ghostly, limit).store == FinalizeAt(ly, limit).store;
  }

  lemma CloseTwins(a: Layer, b: Layer, la: Option<nat>, lb: Option<nat>)
    requires TwinLayer(a, b) && Stocked(a) && Stocked(b)
    ensures TwinLayer(CloseAt(a, la), CloseAt(b, lb)) && CloseAt(a, la).pending.None? && |CloseAt(a, la).host| == |a.host|
  {
    hide FinalizeAt;
    if a.pending.Some? {
      FinalizeTwins(a, b, la, lb);
      FinalizeRest(a, la);
    }
  }

  /** One candidate claims the same row in both twins. */
  lemma CandidateTwins(ss: map<nat, Session>, a: Layer, b: Layer, logical: int)
    requires TwinLayer(a, b) && Stocked(a) && Stocked(b)
    ensures TwinLayer(CandidateAt(ss, a, logical), CandidateAt(ss, b, logical))
  {
    SameMapped(a.store, b.store, Claimed(a));
    var x, y := CandidateAt(ss, a, logical), CandidateAt(ss, b, logical);
    if x != a {
      var q := a.pending.value;
      var g, s := Tok(ss, q.owner, logical), q.victims[q.rank];
      FreshClaim(a, x, q);
      ClaimAlike(a.store, b.store, g, s, a.host[g], b.host[g], Claimed(a));
      hide Claimed, Stocked, Alike, Claim;
    }
  }

  lemma StreamTwins(ss: map<nat, Session>, a: Layer, b: Layer, logical: int, restart: bool)
    requires TwinLayer(a, b) && Stocked(a) && Stocked(b)
    ensures TwinLayer(StreamAt(ss, a, logical, restart), StreamAt(ss, b, logical, restart))
  {
    if restart {
      assert Claimed(Restarted(a)) == Claimed(a);
      hide Alike;
      CandidateTwins(ss, Restarted(a), Restarted(b), logical);
    } else {
      CandidateTwins(ss, a, b, logical);
    }
    hide CandidateAt, Stocked, TwinLayer;
  }

  /** The same claim in two stores that are alike. */
  lemma ClaimAlike(a: Store, b: Store, g: int, s: int, ra: Record, rb: Record, log: set<int>)
    requires Alike(a, b, log) && 0 <= g < |a.h2d| && 1 <= s < |a.d2h|
    ensures Alike(Claim(a, g, s, ra), Claim(b, g, s, rb), log + {s})
  {
    ClaimAges(a, g, s, ra, log);
    ClaimAges(b, g, s, rb, log);
    hide Ages;
  }

  lemma PrepareTwins(c: Config, d: Config, a: Layer, b: Layer, o: nat, count: nat, limit: nat, bounded: bool)
    requires Peers(c, d) && TwinLayer(a, b) && a.pending.None? && o in a.views
    ensures o in b.views && TwinLayer(PrepareAt(c, a, o, count, limit, bounded), PrepareAt(d, b, o, count, limit, bounded))
  {
    assert Claimed(a) == {};
    OrderAlike(a.store, b.store);
    assert Claimed(PrepareAt(c, a, o, count, limit, bounded)) == {};
    hide Ages;
  }

  lemma SkipTwins(a: Layer, b: Layer, la: Option<nat>, lb: Option<nat>)
    requires TwinLayer(a, b) && a.pending.None?
    ensures TwinLayer(SkipAt(a, la), SkipAt(b, lb))
  {
    assert Claimed(a) == {} && Claimed(SkipAt(a, la)) == {};
    hide Ages, ClockEvent, Stamp;
    TouchAlike(a.store, b.store, la, lb, []);
  }

  // ----- recall and append

  lemma EnsureTwins(a: Layer, b: Layer, gs: seq<int>, la: Option<nat>, lb: Option<nat>)
    requires TwinLayer(a, b) && a.pending.None? && Stocked(a) && Stocked(b)
    requires HostIds(a.store, gs) && HostIds(b.store, gs) && Distinct(gs) && |gs| <= Slots(a.store)
    ensures TwinLayer(EnsureAt(a, gs, la), EnsureAt(b, gs, lb))
  {
    assert Claimed(a) == {} && Claimed(EnsureAt(a, gs, la)) == {};
    RecallAlike(a.store, b.store, la, lb, gs, a.host, b.host);
    hide Ages, EnsureRows, Alike;
  }

  lemma SettleTwins(c: Config, d: Config, a: Layer, b: Layer, o: nat, count: nat)
    requires Peers(c, d) && TwinLayer(a, b) && a.pending.None? && o in a.views
    ensures o in b.views && TwinLayer(SettlePlan(c, a, o, count), SettlePlan(d, b, o, count))
  {
    assert Claimed(a) == {};
    OrderAlike(a.store, b.store);
    hide Alike;
    TwinFields(a, b, SettlePlan(c, a, o, count), SettlePlan(d, b, o, count));
  }

  lemma RowsTwins(c: Config, d: Config, ss: map<nat, Session>, a: Layer, b: Layer, o: nat, count: nat)
    requires Peers(c, d) && TwinLayer(a, b) && a.pending.None? && o in a.views && o in ss && count <= Slots(a.store)
    ensures o in b.views && NewToks(ss, a, o, count) == NewToks(ss, b, o, count)
    ensures AppendRows(c, ss, a, o, count) == AppendRows(d, ss, b, o, count)
    ensures Planned(c, ss, a, o, a.views[o].written, count) == Planned(d, ss, b, o, b.views[o].written, count)
  {
    assert Claimed(a) == {};
    TwinResident(c, d, ss, a, b, o);
    WithoutCard(Range(1, |a.store.d2h|), []);
    ChooseAlike(a.store, b.store, [], count);
    hide Alike, AllResident, Choose, Available;
  }

  /** Appends of equally many records take the same rows. */
  lemma AppendTwins(c: Config, d: Config, ss: map<nat, Session>, a: Layer, b: Layer, o: nat, ra: seq<Record>, rb: seq<Record>)
    requires Peers(c, d) && TwinLayer(a, b) && a.pending.None? && o in a.views && o in ss && |ra| == |rb| <= Slots(a.store)
    requires Refillable(a.store, NewToks(ss, a, o, |ra|), AppendRows(c, ss, a, o, |ra|), ra)
    ensures o in b.views && HostIds(b.store, NewToks(ss, b, o, |rb|)) && RowIds(b.store, AppendRows(d, ss, b, o, |rb|))
    ensures TwinLayer(AppendAt(c, ss, a, o, ra, c.limit), AppendAt(d, ss, b, o, rb, d.limit))
  {
    hide AppendRows, NewToks, Planned, Refill, Stamp, ClockEvent, Extend;
    RowsTwins(c, d, ss, a, b, o, |ra|);
    assert Claimed(a) == {};
    var gs, rows := NewToks(ss, a, o, |ra|), AppendRows(c, ss, a, o, |ra|);
    hide Alike;
    RefillAlike(a.store, b.store, gs, rows, ra, rb, c.limit, d.limit);
    hide Refillable;
    var x, y := AppendAt(c, ss, a, o, ra, c.limit), AppendAt(d, ss, b, o, rb, d.limit);
    assert Claimed(x) == {};
    TwinViewsAt(a.views, b.views, o, x.views[o], y.views[o]);
  }

  lemma SuffixTwins(c: Config, d: Config, a: Layer, b: Layer, o: nat, ra: seq<Record>, rb: seq<Record>)
    requires Peers(c, d) && TwinLayer(a, b) && o in a.views && |ra| == |rb|
    requires c.slots + 1 + |a.views[o].tail| + |ra| <= |a.store.rows|
    ensures o in b.views && d.slots + 1 + |b.views[o].tail| + |rb| <= |b.store.rows|
    ensures TwinLayer(AppendTransientAt(c, a, o, ra), AppendTransientAt(d, b, o, rb))
  {
    var x, y := AppendTransientAt(c, a, o, ra), AppendTransientAt(d, b, o, rb);
    assert Claimed(x) == Claimed(a);
    RowsApart(a.store, x.store, Claimed(a));
    RowsApart(b.store, y.store, Claimed(a));
    hide Ages, Claimed;
    TwinViewsAt(a.views, b.views, o, x.views[o], y.views[o]);
  }

  /** Ages do not look at what the rows say. */
  lemma RowsApart(a: Store, b: Store, log: set<int>)
    requires Shaped(a) && Ages(a, log) && b == a.(rows := b.rows) && |b.rows| == |a.rows|
    ensures Shaped(b) && Ages(b, log)
  {
    assert forall s :: 0 <= s < |a.d2h| ==> Live(b, s) == Live(a, s);
  }

  // ----- truncation, discard and release

  lemma TruncateTwins(ss: map<nat, Session>, a: Layer, b: Layer, o: nat, len: nat)
    requires TwinLayer(a, b) && a.pending.None? && Stocked(a) && Cuttable(ss, a, o, len)
    ensures Cuttable(ss, b, o, len) && TwinLayer(TruncateAt(ss, a, o, len), TruncateAt(ss, b, o, len))
  {
    assert Claimed(a) == {};
    ForgetAlike(a.store, b.store, SuffixToks(ss, o, len));
    hide Alike, Forget, SuffixToks, HostIds;
    var x, y := TruncateAt(ss, a, o, len), TruncateAt(ss, b, o, len);
    assert Claimed(x) == {};
    TwinViewsAt(a.views, b.views, o, x.views[o], y.views[o]);
  }

  lemma DiscardTwins(a: Layer, b: Layer, o: nat)
    requires TwinLayer(a, b) && o in a.views
    ensures o in b.views && TwinLayer(DiscardAt(a, o), DiscardAt(b, o))
  {
    TwinViewsAt(a.views, b.views, o, FreshView(a.views[o].length), FreshView(b.views[o].length));
    TwinFields(a, b, DiscardAt(a, o), DiscardAt(b, o));
  }

  lemma SettledTwins(a: Layer, b: Layer, o: nat, la: Option<nat>, lb: Option<nat>)
    requires TwinLayer(a, b) && Stocked(a) && Stocked(b) && o in a.views
    ensures o in b.views && TwinLayer(SettledAt(a, o, la), SettledAt(b, o, lb))
  {
    CloseTwins(a, b, la, lb);
    hide Alike;
    var x, y := CloseAt(a, la), CloseAt(b, lb);
    CloseViews(a, la);
    CloseViews(b, lb);
    hide CloseAt, LeaseTo, DiscardAt;
    TwinLease(x, y, o);
    LeaseViews(x, o);
    LeaseViews(y, o);
    DiscardTwins(LeaseTo(x, o), LeaseTo(y, o), o);
  }

  lemma CloseViews(ly: Layer, limit: Option<nat>)
    requires Shaped(ly.store)
    ensures CloseAt(ly, limit).views == ly.views
  {
  }

  lemma LeaseViews(ly: Layer, o: nat)
    ensures LeaseTo(ly, o).views == ly.views
  {
  }

  lemma DropTwins(a: Layer, b: Layer, o: nat)
    requires TwinLayer(a, b)
    ensures TwinLayer(DropView(a, o), DropView(b, o))
  {
    TwinFields(a, b, DropView(a, o), DropView(b, o));
  }
}
