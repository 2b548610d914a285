/** What every action of a sound pool does to the device rows of every layer: contents, maps and ages. */
module DeviceLaw {
  import opened TokenTypes
  import opened Ranking
  import opened TokenStore
  import opened TokenPool
  import opened PoolWritebacks
  import opened PoolTransactions
  import opened PoolAppend
  import opened PoolRecall
  import opened PoolPrefetch
  import opened PoolSessions
  import opened PoolRuns
  import opened PrefetchRuns
  import opened RecallLaw

  // ----- single layers

  /** The given rows have become the youngest, all alike; the others keep their order. */
  ghost predicate Youngest(st: Store, r: Store, rows: set<int>)
    requires Shaped(st) && SameShape(r, st)
  {
    && (forall s, t :: Row(st, s) && Row(st, t) && s !in rows && t !in rows ==> (r.prio[s] < r.prio[t] <==> st.prio[s] < st.prio[t]))
    && (forall s, t :: Row(st, s) && Row(st, t) && s in rows && t !in rows ==> r.prio[t] < r.prio[s])
    && (forall s, t :: Row(st, s) && Row(st, t) && s in rows && t in rows ==> r.prio[s] == r.prio[t])
  }

  /** Records `rs` of host IDs `gs` were put into `rows`, which lost what they held; nothing else moved. */
  ghost predicate Inserted(st: Store, r: Store, gs: seq<int>, rs: seq<Record>, rows: seq<nat>)
    requires Shaped(st)
  {
    Moved(st, r, gs, rs, rows) && Youngest(st, r, Elements(rows))
  }

  /** The rows are the first in the order of age, in that order. */
  ghost predicate Oldest(st: Store, rows: seq<nat>)
    requires Shaped(st) && RowIds(st, rows)
  {
    && (forall i, j :: 0 <= i < j < |rows| ==> Before(st.prio, rows[i], rows[j]))
    && (forall s, t :: s in rows && Row(st, t) && t !in rows ==> Before(st.prio, s, t))
  }

  /** Tokens of session `o` from `len` on are on no row any more; nothing else moved. */
  ghost predicate Forgotten(ss: map<nat, Session>, st: Store, r: Store, o: nat, len: nat)
    requires Shaped(st)
  {
    && SameShape(r, st) && r.rows == st.rows && r.clock == st.clock
    && (forall g :: 0 <= g < |st.h2d| ==> r.h2d[g] == if Ends(ss, o, len, g) then MISSING else st.h2d[g])
    && (forall s :: Row(st, s) ==>
          if Ends(ss, o, len, st.d2h[s]) then r.d2h[s] == MISSING && r.prio[s] == -1 && r.free[s]
          else r.d2h[s] == st.d2h[s] && r.prio[s] == st.prio[s] && r.free[s] == st.free[s])
  }

  /** `g` is the host ID of one of the session's tokens from `len` on. */
  ghost predicate Ends(ss: map<nat, Session>, o: nat, len: nat, g: int) {
    g >= 0 && o in ss && exists i: nat :: len <= i < ss[o].capacity && Tok(ss, o, i) == g
  }

  /** A prepared prefetch was closed: its claimed rows are live and the youngest. Without one nothing happened. */
  ghost predicate Closed(ly: Layer, r: Store)
    requires Shaped(ly.store)
  {
    && SameShape(r, ly.store)
    && (ly.pending.None? ==> r == ly.store)
    && (ly.pending.Some? ==>
          && r == ly.store.(prio := r.prio, free := r.free, clock := r.clock)
          && Youngest(ly.store, r, Claimed(ly))
          && forall s :: Row(ly.store, s) ==> (r.free[s] <==> !Live(ly.store, s)))
  }

  lemma InsertedOf(st: Store, gs: seq<int>, rows: seq<nat>, rs: seq<Record>, limit: Option<nat>)
    requires MapsAgree(st) && Ages(st, {}) && Refillable(st, gs, rows, rs)
    ensures Inserted(st, Stamp(ClockEvent(Refill(st, gs, rows, rs), limit), rows), gs, rs, rows)
  {
    RefillYoungest(st, limit, gs, rows, rs);
    RefillMoves(st, gs, rows, rs);
    hide *;
    InsertedBy(st, Refill(st, gs, rows, rs), Stamp(ClockEvent(Refill(st, gs, rows, rs), limit), rows), gs, rs, rows);
  }

  /** The records, the rows and the two maps. */
  ghost predicate Moved(st: Store, r: Store, gs: seq<int>, rs: seq<Record>, rows: seq<nat>)
    requires Shaped(st)
  {
    && SameShape(r, st) && |gs| == |rs| == |rows| && HostIds(st, gs) && RowIds(st, rows)
    && (forall k :: 0 <= k < |gs| ==> r.h2d[gs[k]] == rows[k] && r.d2h[rows[k]] == gs[k] && r.rows[rows[k]] == rs[k])
    && (forall s :: 0 <= s < |st.d2h| && s !in rows ==> r.d2h[s] == st.d2h[s])
    && (forall s :: 0 <= s < |st.rows| && s !in rows ==> r.rows[s] == st.rows[s])
    && (forall g :: 0 <= g < |st.h2d| && g !in gs ==> r.h2d[g] == if st.h2d[g] in rows then MISSING else st.h2d[g])
  }

  lemma RefillMoves(st: Store, gs: seq<int>, rows: seq<nat>, rs: seq<Record>)
    requires MapsAgree(st) && Refillable(st, gs, rows, rs)
    ensures Moved(st, Refill(st, gs, rows, rs), gs, rs, rows)
  {
    EvictUnmaps(st, rows);
    BindAllAt(Evict(st, rows), gs, rows, rs);
    hide MapsAgree, BindAll, Held;
  }

  lemma InsertedBy(st: Store, m: Store, r: Store, gs: seq<int>, rs: seq<Record>, rows: seq<nat>)
    requires Shaped(st) && Moved(st, m, gs, rs, rows) && SameShape(r, st) && r == m.(prio := r.prio, clock := r.clock)
    requires ChosenYoungest(st, r, rows)
    ensures Inserted(st, r, gs, rs, rows)
  {
    YoungestOf(st, r, rows);
  }

  lemma YoungestOf(st: Store, r: Store, rows: seq<nat>)
    requires Shaped(st) && SameShape(r, st) && ChosenYoungest(st, r, rows)
    ensures Youngest(st, r, Elements(rows))
  {
  }

  lemma ForgottenOf(cfg: Config, ss: map<nat, Session>, st: Store, o: nat, len: nat)
    requires PagesOwned(cfg, ss) && MapsAgree(st) && o in ss && len <= ss[o].capacity && |st.h2d| == PAGE_SIZE * cfg.pages
    requires HostIds(st, SuffixToks(ss, o, len))
    ensures Forgotten(ss, st, Forget(st, SuffixToks(ss, o, len)), o, len)
  {
    var gs := SuffixToks(ss, o, len);
    EndsAre(cfg, ss, o, len);
    HitsHold(st, gs);
    hide SuffixToks, Ends, Hits;
    var r := Forget(st, gs);
    forall s | Row(st, s) ensures (s in Hits(st, gs)) == Ends(ss, o, len, st.d2h[s]) {
      assert Holds(st, gs, s) <==> st.d2h[s] in gs;
    }
  }

  lemma EndsAre(cfg: Config, ss: map<nat, Session>, o: nat, len: nat)
    requires PagesOwned(cfg, ss) && o in ss && len <= ss[o].capacity
    ensures forall g :: g in SuffixToks(ss, o, len) <==> Ends(ss, o, len, g)
  {
    SuffixToksAt(cfg, ss, o, len);
    var gs := SuffixToks(ss, o, len);
    forall g | g in gs ensures Ends(ss, o, len, g) {
      var k :| 0 <= k < |gs| && gs[k] == g;
      assert Tok(ss, o, len + k) == g;
    }
  }

  lemma ClosedOf(ly: Layer, limit: Option<nat>)
    requires ly.pending.Some? && ly.pending.value.top <= |ly.pending.value.victims|
    requires MapsAgree(ly.store) && Copies(ly.store, ly.arena) && Ages(ly.store, Claimed(ly))
    requires forall k :: 0 <= k < |ly.pending.value.victims| ==> 1 <= ly.pending.value.victims[k] < |ly.store.d2h|
    ensures Closed(ly, FinalizeAt(ly, limit).store)
  {
    FinalizeStore(ly, limit);
    FinalizeOrder(ly, limit);
    hide FinalizeAt, Claimed, MapsAgree, Copies, Youngest;
    var r := FinalizeAt(ly, limit).store;
    assert forall s :: 0 <= s < |r.d2h| ==> Live(r, s) == Live(ly.store, s);
  }

  lemma FinalizeOrder(ly: Layer, limit: Option<nat>)
    requires ly.pending.Some? && ly.pending.value.top <= |ly.pending.value.victims|
    requires MapsAgree(ly.store) && Ages(ly.store, Claimed(ly))
    requires forall k :: 0 <= k < |ly.pending.value.victims| ==> 1 <= ly.pending.value.victims[k] < |ly.store.d2h|
    ensures Youngest(ly.store, FinalizeAt(ly, limit).store, Claimed(ly))
  {
    LogIsClaimed(ly);
    var log, claimed := Log(ly.pending.value), Claimed(ly);
    var st := ClockEvent(ly.store, limit);
    ClockEventKeeps(ly.store, limit);
    hide MapsAgree, Log, Claimed, ClockEvent;
    AgesKept(ly.store, st, claimed);
    hide Ages;
    PublishOrder(ly.store, st, limit, log, claimed);
  }

  lemma PublishOrder(was: Store, st: Store, limit: Option<nat>, log: seq<nat>, claimed: set<int>)
    requires Shaped(was) && SameShape(st, was) && st == was.(prio := st.prio, clock := st.clock) && forall s: int :: s in log <==> s in claimed
    requires forall s :: Row(was, s) && s !in claimed ==> if Live(was, s) then 0 <= st.prio[s] < st.clock else st.prio[s] == -1
    requires forall s, t :: Row(was, s) && Row(was, t) && s !in claimed && t !in claimed ==> (st.prio[s] < st.prio[t] <==> was.prio[s] < was.prio[t])
    ensures var st' := st.(free := seq(|st.free|, s requires 0 <= s < |st.free| => if s in log then false else st.free[s]));
      Youngest(was, Stamp(ClockEvent(st', limit), log), claimed)
  {
    var st' := st.(free := seq(|st.free|, s requires 0 <= s < |st.free| => if s in log then false else st.free[s]));
    assert forall s :: 0 <= s < |st.d2h| ==> Live(st', s) == Live(was, s);
    assert AgedOutside(st', log);
    StampOrder(st', limit, log);
    StampedAlike(ClockEvent(st', limit), log);
    hide Stamp, AgedOutside, ClockEvent, Live;
  }

  /** A clock event leaves the rows outside the log in their order, below the clock. */
  lemma AgesKept(st: Store, r: Store, log: set<int>)
    requires Shaped(st) && SameShape(r, st) && Ages(st, log) && r == st.(prio := r.prio, clock := r.clock)
    requires forall s :: 0 <= s < |st.d2h| && (s == 0 || !Live(st, s)) ==> r.prio[s] == st.prio[s]
    requires forall s, t :: 1 <= s < |st.d2h| && 1 <= t < |st.d2h| && Live(st, s) && Live(st, t) ==> (r.prio[s] < r.prio[t] <==> st.prio[s] < st.prio[t])
    requires forall s :: 1 <= s < |st.d2h| && Live(st, s) && r != st ==> 0 <= r.prio[s] < r.clock
    ensures forall s :: Row(st, s) && s !in log ==> if Live(st, s) then 0 <= r.prio[s] < r.clock else r.prio[s] == -1
    ensures forall s, t :: Row(st, s) && Row(st, t) && s !in log && t !in log ==> (r.prio[s] < r.prio[t] <==> st.prio[s] < st.prio[t])
  {
  }

  // ----- whole pools

  ghost predicate AllKept(p: Pool, r: Pool) {
    |r.layers| == |p.layers| && forall m :: 0 <= m < |p.layers| ==> r.layers[m].store == p.layers[m].store
  }

  ghost predicate OthersKept(p: Pool, r: Pool, l: nat) {
    l < |p.layers| == |r.layers| && forall m :: 0 <= m < |p.layers| && m != l ==> r.layers[m].store == p.layers[m].store
  }

  /** New records went to the oldest rows, or in a dense pool to the rows of their positions; a suffix went behind the rows. */
  ghost predicate Placed(p: Pool, r: Pool, o: nat, l: nat, recs: seq<Record>)
    requires Exists(p, o, l) && l < |r.layers| && Shaped(p.layers[l].store)
  {
    var was, now, v := p.layers[l].store, r.layers[l].store, p.layers[l].views[o];
    if v.transientStart.Some? then
      now == was.(rows := now.rows) && |now.rows| == |was.rows| && forall s :: 0 <= s < |was.d2h| ==> now.rows[s] == was.rows[s]
    else exists rows: seq<nat> ::
      Inserted(was, now, NewToks(p.sessions, p.layers[l], o, |recs|), recs, rows)
      && if p.cfg.dense then forall k :: 0 <= k < |rows| ==> rows[k] == v.written + k + 1 else Oldest(was, rows)
  }

  /** Selected rows were refreshed or refilled with the oldest ones, the rest is as before. */
  ghost predicate Recalls(p: Pool, r: Pool, o: nat, l: nat, idx: seq<int>)
    requires Exists(p, o, l) && l < |r.layers| && Shaped(p.layers[l].store)
  {
    var was, now, gs := p.layers[l].store, r.layers[l].store, Toks(p.sessions, o, History(p.layers[l], o, idx));
    SameShape(now, was) && HostIds(was, gs) && RestKept(was, now, gs) && Refreshed(was, now, gs) && OldestRefilled(was, now, gs)
  }

  /** A prefetch prepared on the layer was closed, then tokens of the session from `len` on were forgotten. */
  ghost predicate Cuts(p: Pool, r: Pool, o: nat, l: nat, len: nat)
    requires l < |p.layers| && l < |r.layers| && Shaped(p.layers[l].store)
  {
    exists c: Store :: Closed(p.layers[l], c) && Forgotten(p.sessions, c, r.layers[l].store, o, len)
  }

  /** What an action does to the device. */
  ghost predicate Device(p: Pool, a: Action, r: Pool)
    requires Sane(p)
  {
    hide LeaseFree, DenseReady;
    if !Allowed(p, a) then AllKept(p, r)
    else
      match a
      case Appended(o, l, recs) => OthersKept(p, r, l) && Placed(p, r, o, l, recs)
      case Recall(o, l, idx) => OthersKept(p, r, l) && Recalls(p, r, o, l, idx)
      case Prepared(o, l, start, count, limit, native) => OthersKept(p, r, l) && SetsUp(p, r, o, l, count, limit, native)
      case Streamed(l, _, _) =>
        OthersKept(p, r, l) && r.layers[l].store == p.layers[l].store.(rows := r.layers[l].store.rows, h2d := r.layers[l].store.h2d, d2h := r.layers[l].store.d2h)
      case Finalized(l) => OthersKept(p, r, l) && Closed(p.layers[l], r.layers[l].store)
      case RolledBack(o, l) =>
        OthersKept(p, r, l) && (if InStep(p, o, l) then Cuts(p, r, o, l, p.layers[l].views[o].length) else Closed(p.layers[l], r.layers[l].store))
      case Discarded(o, l) => OthersKept(p, r, l) && Closed(p.layers[l], r.layers[l].store)
      case Truncated(o, l, len) => OthersKept(p, r, l) && Cuts(p, r, o, l, len)
      case Dismissed(o) => |r.layers| == |p.layers| && forall m :: 0 <= m < |p.layers| ==> Cuts(p, r, o, m, 0)
      case _ => AllKept(p, r)
  }

  // ----- actions that leave the rows alone

  lemma HostKept(p: Pool, r: Pool)
    requires OnlyHost(p, r)
    ensures AllKept(p, r)
  {
  }

  lemma RefusedKept(p: Pool, a: Action)
    requires Sane(p) && !Allowed(p, a)
    ensures AllKept(p, Refused(p, a))
  {
    HostKept(p, Drain(p));
    hide Allowed, LeaseFree, Drain, Sane;
  }

  lemma BoundaryKept(p: Pool, a: Action)
    requires Sane(p) && Allowed(p, a) && (a.Opened? || a.Closed? || a.Began? || a.BeganTransient? || a.Declared?)
    ensures AllKept(p, Accepted(p, a))
  {
    hide Sane, LeaseFree, StepData, StepCut, AppendEither, Allocate, Release;
  }

  lemma CopiesKept(p: Pool, a: Action)
    requires Sane(p) && Allowed(p, a) && (a.Landed? || a.Reserved? || a.Committed? || a.Admitted?)
    ensures AllKept(p, Accepted(p, a))
  {
    hide LeaseFree, StepBoundary, StepCut, AppendEither, Release, Ensure, Prepare, FinalizePool, StreamAt, Drain, Reap;
  }

  // ----- appends

  /** In a dense pool every append is planned, and the plan is the layout. */
  lemma DenseRows(p: Pool, o: nat, l: nat, recs: seq<Record>)
    requires CanPersist(p, o, l, recs) && p.cfg.dense
    ensures var q := MakeRoom(PlannedPool(p, o, l, |recs|), l); var st := p.layers[l].store;
      && Placeable(q, o, l, recs) && q.layers[l].store == st && q.layers[l].views == p.layers[l].views && q.sessions == p.sessions
      && AppendPersistent(p, o, l, recs) == PlaceAppend(q, o, l, recs)
      && MapsAgree(st) && Refillable(st, NewToks(q.sessions, q.layers[l], o, |recs|), AppendRows(q.cfg, q.sessions, q.layers[l], o, |recs|), recs)
      && forall k :: 0 <= k < |recs| ==> AppendRows(q.cfg, q.sessions, q.layers[l], o, |recs|)[k] == p.layers[l].views[o].written + k + 1
  {
    AppendPersistentLegal(p, o, l, recs);
    var q := MakeRoom(PlannedPool(p, o, l, |recs|), l);
    AppendLegal(q.cfg, q.sessions, q.layers[l], q.writes, l, o, recs);
    PlannedLayout(q, o, l, recs);
    hide Inv, CanPersist, AppendRows;
  }

  lemma PlannedLayout(q: Pool, o: nat, l: nat, recs: seq<Record>)
    requires Inv(q) && Exists(q, o, l) && q.cfg.dense && AppendReady(q.cfg, q.sessions, q.layers[l], q.writes, l, o, recs)
    requires Placeable(q, o, l, recs)
    ensures forall k :: 0 <= k < |recs| ==> AppendRows(q.cfg, q.sessions, q.layers[l], o, |recs|)[k] == q.layers[l].views[o].written + k + 1
  {
    hide HostOK, TicketsOK, ArenaOK, CandidateOK, StoreOK, PlanOK, PendingOK, ViewsOK;
  }

  lemma OldestOf(st: Store, n: nat)
    requires Shaped(st) && Ages(st, {}) && n <= |Available(st, [])|
    ensures RowIds(st, Choose(st, [], n)) && Oldest(st, Choose(st, [], n))
  {
    ChooseSorted(st, [], n);
    ChooseTakesOldest(st, [], n);
    hide Choose;
  }

  /** Without a prepared prefetch the ages of a sound layer tell its live rows. */
  lemma QuietAges(p: Pool, l: nat)
    requires Inv(p) && l < |p.layers| && p.layers[l].pending.None?
    ensures MapsAgree(p.layers[l].store) && Ages(p.layers[l].store, {})
  {
    assert LayerInv(p.cfg, p.sessions, p.layers[l], p.writes, l);
    assert Claimed(p.layers[l]) == {};
  }

  /** A persistent append. */
  lemma AppendPlaced(p: Pool, o: nat, l: nat, recs: seq<Record>)
    requires CanPersist(p, o, l, recs)
    ensures Sane(p) && Exists(p, o, l)
    ensures var r := AppendPersistent(p, o, l, recs); OthersKept(p, r, l) && Placed(p, r, o, l, recs)
  {
    InvSane(p);
    NoPending(p, o, l);
    QuietAges(p, l);
    var q := MakeRoom(PlannedPool(p, o, l, |recs|), l);
    HostKept(PlannedPool(p, o, l, |recs|), q);
    assert q.layers[l].views == p.layers[l].views && q.sessions == p.sessions && q.cfg == p.cfg;
    assert OthersKept(p, q, l) && Shaped(p.layers[l].store) && p.layers[l].views[o].transientStart.None?;
    if p.cfg.dense {
      DenseRows(p, o, l, recs);
    } else {
      AppendTakesOldest(p, o, l, recs);
      OldestOf(p.layers[l].store, |recs|);
    }
    hide *;
    PlaceMoves(p, q, o, l, recs);
  }

  lemma PlaceMoves(p: Pool, q: Pool, o: nat, l: nat, recs: seq<Record>)
    requires Placeable(q, o, l, recs) && Exists(p, o, l) && l < |p.layers| == |q.layers| && Shaped(p.layers[l].store)
    requires q.layers[l].store == p.layers[l].store && q.layers[l].views == p.layers[l].views && q.sessions == p.sessions && q.cfg == p.cfg
    requires OthersKept(p, q, l) && p.layers[l].views[o].transientStart.None?
    requires MapsAgree(q.layers[l].store) && Ages(q.layers[l].store, {})
    requires var rows := AppendRows(q.cfg, q.sessions, q.layers[l], o, |recs|); var gs := NewToks(q.sessions, q.layers[l], o, |recs|);
      && Refillable(q.layers[l].store, gs, rows, recs) && RowIds(q.layers[l].store, rows)
      && if q.cfg.dense then forall k :: 0 <= k < |rows| ==> rows[k] == p.layers[l].views[o].written + k + 1 else Oldest(q.layers[l].store, rows)
    ensures var r := PlaceAppend(q, o, l, recs); OthersKept(p, r, l) && Placed(p, r, o, l, recs)
  {
    var rows, gs := AppendRows(q.cfg, q.sessions, q.layers[l], o, |recs|), NewToks(q.sessions, q.layers[l], o, |recs|);
    InsertedOf(q.layers[l].store, gs, rows, recs, q.cfg.limit);
    assert gs == NewToks(p.sessions, p.layers[l], o, |recs|);
    hide Inserted, AppendRows, Refill, Stamp, ClockEvent, MapsAgree, Ages, NewToks, Oldest;
  }

  lemma AppendMoves(p: Pool, o: nat, l: nat, recs: seq<Record>)
    requires Inv(p) && Allowed(p, Appended(o, l, recs))
    ensures Sane(p) && Exists(p, o, l)
    ensures var r := AppendEither(p, o, l, recs); OthersKept(p, r, l) && Placed(p, r, o, l, recs)
  {
    InvSane(p);
    AppendAllowed(p, o, l, recs);
    hide Allowed, Inv, CanPersist, CanAppend, Sane, OthersKept, Placed;
    if p.layers[l].views[o].transientStart.None? {
      AppendPlaced(p, o, l, recs);
    } else {
      SuffixPlaced(p, o, l, recs);
    }
    hide AppendPersistent, AppendTransient;
  }

  lemma AppendAllowed(p: Pool, o: nat, l: nat, recs: seq<Record>)
    requires Inv(p) && Allowed(p, Appended(o, l, recs))
    ensures Exists(p, o, l) && CanAppend(p, o, l, |recs|)
    ensures p.layers[l].views[o].transientStart.None? ==> CanPersist(p, o, l, recs)
  {
    hide Inv, LeaseFree, DenseReady;
  }

  lemma SuffixPlaced(p: Pool, o: nat, l: nat, recs: seq<Record>)
    requires Inv(p) && CanAppend(p, o, l, |recs|) && Exists(p, o, l) && p.layers[l].views[o].transientStart.Some?
    ensures Shaped(p.layers[l].store)
    ensures p.cfg.slots + 1 + |p.layers[l].views[o].tail| + |recs| <= |p.layers[l].store.rows|
    ensures var r := AppendTransient(p, o, l, recs); OthersKept(p, r, l) && Placed(p, r, o, l, recs)
  {
    AppendTransientInv(p, o, l, recs);
    StoreWidth(p, l);
    hide *;
    SuffixMoves(p, o, l, recs);
  }

  lemma SuffixMoves(p: Pool, o: nat, l: nat, recs: seq<Record>)
    requires Exists(p, o, l) && p.layers[l].views[o].transientStart.Some? && Shaped(p.layers[l].store)
    requires |p.layers[l].store.d2h| == p.cfg.slots + 1
    requires p.cfg.slots + 1 + |p.layers[l].views[o].tail| + |recs| <= |p.layers[l].store.rows|
    ensures var r := AppendTransient(p, o, l, recs); OthersKept(p, r, l) && Placed(p, r, o, l, recs)
  {
  }

  lemma StoreWidth(p: Pool, l: nat)
    requires Inv(p) && l < |p.layers|
    ensures |p.layers[l].store.d2h| == p.cfg.slots + 1 && Shaped(p.layers[l].store)
  {
    assert LayerInv(p.cfg, p.sessions, p.layers[l], p.writes, l);
  }

  // ----- recalls and prefetches

  lemma RecallMoves(p: Pool, o: nat, l: nat, idx: seq<int>)
    requires Inv(p) && CanEnsure(p, o, l, idx)
    ensures Sane(p) && Exists(p, o, l)
    ensures var r := Ensure(p, o, l, idx); OthersKept(p, r, l) && Recalls(p, r, o, l, idx)
  {
    InvSane(p);
    EnsureLegal(p, o, l, idx);
    NoPending(p, o, l);
    QuietAges(p, l);
    var gs := Toks(p.sessions, o, History(p.layers[l], o, idx));
    var q := BeforeRecall(p, o, l, gs);
    assert Distinct(gs);
    RecallOrder(p.layers[l].store, p.cfg.limit, gs, q.layers[l].host);
    hide *;
    RecallIs(p, q, o, l, idx);
  }

  lemma RecallIs(p: Pool, q: Pool, o: nat, l: nat, idx: seq<int>)
    requires Sane(p) && Exists(p, o, l) && Readable(p, o, l, Toks(p.sessions, o, History(p.layers[l], o, idx)))
    requires InLayers(p) && p.cfg.maxWrites >= 1 && Shaped(p.layers[l].store)
    requires var gs := Toks(p.sessions, o, History(p.layers[l], o, idx)); var st := p.layers[l].store;
      && HostIds(st, gs) && q == BeforeRecall(p, o, l, gs) && |gs| <= Slots(st) && l < |q.layers| && |q.layers[l].host| == |st.h2d|
      && var r := EnsureRows(st, p.cfg.limit, gs, q.layers[l].host).store;
         RestKept(st, r, gs) && Refreshed(st, r, gs) && OldestRefilled(st, r, gs)
    ensures var r := Ensure(p, o, l, idx); OthersKept(p, r, l) && Recalls(p, r, o, l, idx)
  {
    hide BeforeRecall, EnsureRows, RestKept, Refreshed, OldestRefilled, Misses, Readable, Sane, Toks, History;
  }

  lemma PrepareMoves(p: Pool, o: nat, l: nat, start: nat, count: nat, limit: nat, native: bool)
    requires Inv(p) && CanPrepare(p, o, l, start, count)
    ensures Exists(p, o, l) && Sane(p)
    ensures var r := Prepare(p, o, l, count, limit, native); OthersKept(p, r, l) && SetsUp(p, r, o, l, count, limit, native)
  {
    InvSane(p);
    PreparedExactly(p, o, l, start, count, limit, native);
    StepIs(p, Prepared(o, l, start, count, limit, native));
    PreparedIs(p, o, l, start, count, limit, native);
    hide Inv, CanPrepare, LeaseFree, SetsUp, Sane, Step, Accepted, AllResident, SkipAt, PrepareAt, BeforePrepare;
  }

  lemma StreamMoves(p: Pool, l: nat, logical: int, restart: bool)
    requires Sane(p) && l < |p.layers|
    ensures var r := SetLayer(p, l, StreamAt(p.sessions, p.layers[l], logical, restart)); var st := p.layers[l].store;
      OthersKept(p, r, l) && r.layers[l].store == st.(rows := r.layers[l].store.rows, h2d := r.layers[l].store.h2d, d2h := r.layers[l].store.d2h)
  {
    hide Sane, Tok;
  }

  /** Closing the prefetch of a sound layer, if there is one. */
  lemma LayerCloses(cfg: Config, ss: map<nat, Session>, ly: Layer, ws: seq<Ticket>, l: nat, limit: Option<nat>)
    requires LayerInv(cfg, ss, ly, ws, l)
    ensures Shaped(ly.store) && Closed(ly, CloseAt(ly, limit).store)
    ensures MapsAgree(CloseAt(ly, limit).store) && |CloseAt(ly, limit).store.h2d| == PAGE_SIZE * cfg.pages
  {
    CloseInv(cfg, ss, ly, ws, l, limit);
    if ly.pending.Some? {
      hide HostOK, TicketsOK, ArenaOK, CandidateOK, ProofsOK, PlanOK, ViewsOK;
      ClosedOf(ly, limit);
    }
    hide FinalizeAt, Closed;
  }

  lemma FinalizeMoves(p: Pool, l: nat)
    requires Inv(p) && l < |p.layers| && p.layers[l].pending.Some? && InLayers(p) && Shaped(p.layers[l].store)
    ensures var r := FinalizePool(p, l); OthersKept(p, r, l) && Closed(p.layers[l], r.layers[l].store)
  {
    LayerOf(p, l);
    LayerCloses(p.cfg, p.sessions, p.layers[l], p.writes, l, p.cfg.limit);
    hide Inv, Closed, LayerInv;
    FinalizeIs(p, l);
    hide FinalizePool, OthersKept;
  }

  lemma FinalizeIs(p: Pool, l: nat)
    requires l < |p.layers| && p.layers[l].pending.Some? && InLayers(p) && Shaped(p.layers[l].store)
    ensures OthersKept(p, FinalizePool(p, l), l)
    ensures FinalizePool(p, l).layers[l].store == CloseAt(p.layers[l], p.cfg.limit).store
  {
    var q := if AtLimit(p.layers[l].store, p.cfg.limit) then Drain(p) else p;
    HostKept(p, q);
    assert q.layers[l] == p.layers[l].(host := q.layers[l].host);
    hide Drain, ClockEvent, Stamp;
  }

  // ----- cuts and releases

  lemma ClosedSame(a: Layer, b: Layer, r: Store)
    requires b == a.(host := b.host) && Shaped(a.store) && Closed(b, r)
    ensures Closed(a, r)
  {
  }

  lemma CutMoves(p: Pool, o: nat, l: nat, len: nat)
    requires CanCut(p, o, l, len)
    ensures Sane(p) && l < |p.layers|
    ensures var r := CutTo(p, o, l, len); OthersKept(p, r, l) && Cuts(p, r, o, l, len)
  {
    CutLegal(p, o, l, len);
    var q := Drain(p);
    LayerOf(q, l);
    LayerCloses(q.cfg, q.sessions, q.layers[l], q.writes, l, q.cfg.limit);
    var c := CloseAt(q.layers[l], q.cfg.limit).store;
    ClosedSame(p.layers[l], q.layers[l], c);
    assert o in q.sessions && len <= q.sessions[o].capacity;
    hide *;
    ForgottenOf(q.cfg, q.sessions, c, o, len) by { SameStore(q, o, l, len); }
    CutIs(p, q, c, o, l, len);
  }

  lemma SameStore(q: Pool, o: nat, l: nat, len: nat)
    requires l < |q.layers| && Shaped(q.layers[l].store)
    requires var ly := LeaseTo(CloseAt(q.layers[l], q.cfg.limit), o); Cuttable(q.sessions, ly, o, len)
    ensures var c := CloseAt(q.layers[l], q.cfg.limit).store; o in q.sessions && len <= q.sessions[o].capacity && HostIds(c, SuffixToks(q.sessions, o, len))
  {
    hide CloseAt;
  }

  lemma CutIs(p: Pool, q: Pool, c: Store, o: nat, l: nat, len: nat)
    requires Sane(p) && l < |p.layers| && InLayers(p) && q == Drain(p) && Shaped(p.layers[l].store)
    requires l < |q.layers| && Shaped(q.layers[l].store) && c == CloseAt(q.layers[l], q.cfg.limit).store && Closed(p.layers[l], c)
    requires var ly := LeaseTo(CloseAt(q.layers[l], q.cfg.limit), o); Cuttable(q.sessions, ly, o, len)
    requires o in q.sessions && len <= q.sessions[o].capacity && Shaped(c) && HostIds(c, SuffixToks(q.sessions, o, len))
    requires Forgotten(q.sessions, c, Forget(c, SuffixToks(q.sessions, o, len)), o, len)
    ensures var r := CutTo(p, o, l, len); OthersKept(p, r, l) && Cuts(p, r, o, l, len)
  {
    hide Sane, CloseAt, Forget, Forgotten, Closed, SuffixToks, Drain;
    HostKept(p, q);
  }

  lemma DiscardMoves(p: Pool, o: nat, l: nat)
    requires Inv(p) && CanDiscard(p, o, l)
    ensures Sane(p) && l < |p.layers|
    ensures var r := Discard(p, o, l); OthersKept(p, r, l) && Closed(p.layers[l], r.layers[l].store)
  {
    InvSane(p);
    DrainInv(p);
    var q := Drain(p);
    LayerOf(q, l);
    LayerCloses(q.cfg, q.sessions, q.layers[l], q.writes, l, q.cfg.limit);
    ClosedSame(p.layers[l], q.layers[l], CloseAt(q.layers[l], q.cfg.limit).store);
    HostKept(p, q);
    assert Exists(p, o, l) && Shaped(q.layers[l].store);
    hide *;
    DiscardIs(p, q, o, l);
  }

  lemma DiscardIs(p: Pool, q: Pool, o: nat, l: nat)
    requires Sane(p) && Exists(p, o, l) && InLayers(p) && q == Drain(p) && l < |q.layers| && Shaped(p.layers[l].store) && Shaped(q.layers[l].store)
    requires AllKept(p, q) && Closed(p.layers[l], CloseAt(q.layers[l], q.cfg.limit).store)
    ensures var r := Discard(p, o, l); OthersKept(p, r, l) && Closed(p.layers[l], r.layers[l].store)
  {
    hide Sane, CloseAt, Closed, Drain;
  }

  lemma ReleaseMoves(p: Pool, o: nat, m: nat)
    requires Inv(p) && CanRelease(p, o) && m < |p.layers|
    ensures Sane(p) && m < |Release(p, o).layers| && Cuts(p, Release(p, o), o, m, 0)
  {
    ReleaseLegal(p, o);
    var q := Drain(p);
    LayerOf(q, m);
    LayerCloses(q.cfg, q.sessions, q.layers[m], q.writes, m, q.cfg.limit);
    var c := CloseAt(q.layers[m], q.cfg.limit).store;
    ClosedSame(p.layers[m], q.layers[m], c);
    assert PagesOwned(q.cfg, q.sessions) && o in q.sessions && o in q.layers[m].views && q.writes == [];
    hide Inv, CanRelease, LayerInv, PagesOwned, Closed, CloseAt, ReleasedAt, Drain, Sane, KeptBy;
    ReleaseCuts(q, o, m);
    hide Forgotten;
  }

  lemma ReleaseCuts(q: Pool, o: nat, m: nat)
    requires PagesOwned(q.cfg, q.sessions) && m < |q.layers| && o in q.sessions && o in q.layers[m].views && Shaped(q.layers[m].store)
    requires LayerInv(q.cfg, q.sessions, q.layers[m], [], m)
    requires MapsAgree(CloseAt(q.layers[m], q.cfg.limit).store) && |CloseAt(q.layers[m], q.cfg.limit).store.h2d| == PAGE_SIZE * q.cfg.pages
    ensures Forgotten(q.sessions, CloseAt(q.layers[m], q.cfg.limit).store, ReleasedAt(q.sessions, q.layers[m], o, q.cfg.limit).store, o, 0)
  {
    var s := SettledAt(q.layers[m], o, q.cfg.limit);
    SettledInv(q.cfg, q.sessions, q.layers[m], m, o, q.cfg.limit);
    CutShape(q.cfg, q.sessions, s, m, o, 0);
    assert s.store == CloseAt(q.layers[m], q.cfg.limit).store;
    hide LayerInv, CloseAt, SettledAt;
    ForgottenOf(q.cfg, q.sessions, s.store, o, 0);
    hide PagesOwned, MapsAgree, Forget, SuffixToks, Forgotten;
  }

  // ----- every action

  /** Every action of a sound pool, accepted or refused, does to the device exactly this. */
  lemma StepMoves(p: Pool, a: Action)
    requires Inv(p)
    ensures Sane(p) && Device(p, a, Step(p, a))
  {
    InvSane(p);
    StepDoes(p, a);
    if !Allowed(p, a) {
      RefusedKept(p, a);
      hide Allowed, AllKept, Inv, Sane, Refused, Step;
    } else {
      hide Sane, Inv, Step;
      match a
      case Appended(o, l, recs) => AppendActs(p, o, l, recs);
      case Recall(o, l, idx) => DataActs(p, a);
      case Prepared(o, l, start, count, limit, native) => DataActs(p, a);
      case Streamed(l, logical, restart) => DataActs(p, a);
      case Finalized(l) => DataActs(p, a);
      case RolledBack(o, l) => CutActs(p, a);
      case Discarded(o, l) => CutActs(p, a);
      case Truncated(o, l, len) => CutActs(p, a);
      case Dismissed(o) => ReleaseActs(p, o);
      case Landed(_, _) => CopiesKept(p, a);
      case Reserved => CopiesKept(p, a);
      case Committed(_, _) => CopiesKept(p, a);
      case Admitted(_, _) => CopiesKept(p, a);
      case _ => BoundaryKept(p, a);
    }
  }

  lemma AppendActs(p: Pool, o: nat, l: nat, recs: seq<Record>)
    requires Sane(p) && Inv(p) && Allowed(p, Appended(o, l, recs))
    ensures Device(p, Appended(o, l, recs), Accepted(p, Appended(o, l, recs)))
  {
    AppendMoves(p, o, l, recs);
    AcceptedAppend(p, o, l, recs);
    hide Inv, Sane, AppendEither, OthersKept, Placed, Accepted;
  }

  lemma DataActs(p: Pool, a: Action)
    requires Sane(p) && Inv(p) && Allowed(p, a) && (a.Recall? || a.Prepared? || a.Streamed? || a.Finalized?)
    ensures Device(p, a, Accepted(p, a))
  {
    hide Inv, Sane, OthersKept, Recalls, SetsUp, Closed, LeaseFree, StepBoundary, StepCut, AppendEither, Allocate, Release;
    hide Ensure, Prepare, StreamAt, FinalizePool;
    match a
    case Recall(o, l, idx) => RecallMoves(p, o, l, idx);
    case Prepared(o, l, start, count, limit, native) => PrepareMoves(p, o, l, start, count, limit, native);
    case Streamed(l, logical, restart) => StreamMoves(p, l, logical, restart);
    case Finalized(l) => PoolFacts(p); FinalizeMoves(p, l);
  }

  lemma CutActs(p: Pool, a: Action)
    requires Sane(p) && Inv(p) && Allowed(p, a) && (a.RolledBack? || a.Discarded? || a.Truncated?)
    ensures Device(p, a, Accepted(p, a))
  {
    hide Inv, Sane, OthersKept, Cuts, Closed, LeaseFree, StepBoundary, StepData, AppendEither, Allocate, Release, CutTo, Discard;
    match a
    case RolledBack(o, l) =>
      if InStep(p, o, l) {
        RollbackLength(p, o, l);
        CutMoves(p, o, l, p.layers[l].views[o].length);
      } else {
        DiscardMoves(p, o, l);
      }
    case Discarded(o, l) => DiscardMoves(p, o, l);
    case Truncated(o, l, len) => TruncateOpen(p, o, l, len); CutMoves(p, o, l, len);
  }

  lemma ReleaseActs(p: Pool, o: nat)
    requires Sane(p) && Inv(p) && Allowed(p, Dismissed(o))
    ensures Device(p, Dismissed(o), Accepted(p, Dismissed(o)))
  {
    ReleaseInv(p, o);
    hide Inv, Sane, Cuts, Release, StepBoundary, StepData, StepCut, AppendEither, Allocate;
    forall m | 0 <= m < |p.layers| ensures m < |Release(p, o).layers| && Cuts(p, Release(p, o), o, m, 0) { ReleaseMoves(p, o, m); }
  }
}
