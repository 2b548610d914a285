/** From the announcement of a batch to its append: nothing prefetched in between is evicted. */
module PrefetchRuns {
  import opened TokenTypes
  import opened Ranking
  import opened TokenStore
  import opened TokenPool
  import opened PoolWritebacks
  import opened PoolTransactions
  import opened PoolAppend
  import opened PoolRecall
  import opened PoolPrefetch
  import opened PrefetchLaw
  import opened PoolSessions
  import opened PoolRuns
  import opened PoolTheorems

  /** After the closing stamp an append spares every claimed row exactly when claims and batch fit in the pool. */
  lemma ClosedSpares(p: Pool, l: nat, n: nat)
    requires Inv(p) && l < |p.layers| && p.layers[l].pending.Some? && Shaped(p.layers[l].store) && n <= p.cfg.slots
    ensures var ly := p.layers[l]; var r := FinalizeAt(ly, p.cfg.limit).store;
      && n <= |Available(r, [])|
      && (forall s :: s in Claimed(ly) ==> 1 <= s < |r.d2h| && Live(r, s))
      && r.d2h == ly.store.d2h && r.h2d == ly.store.h2d
      && ((forall s :: s in Choose(r, [], n) ==> s !in Claimed(ly)) <==> |Claimed(ly)| + n <= p.cfg.slots)
  {
    var ly := p.layers[l];
    assert LayerInv(p.cfg, p.sessions, ly, p.writes, l);
    hide HostOK, TicketsOK, ArenaOK, ProofsOK, PlanOK, CandidateOK, ViewsOK, Inv;
    FinalizeStore(ly, p.cfg.limit);
    ClaimedRows(ly);
    hide FinalizeAt;
    AppendSparesPrefetched(FinalizeAt(ly, p.cfg.limit).store, Claimed(ly), n);
  }

  lemma ClaimedCard(ly: Layer)
    requires ly.pending.Some? && ly.pending.value.top <= |ly.pending.value.victims|
    ensures |Claimed(ly)| <= ly.pending.value.top
  {
    LogIsClaimed(ly);
    ElementsBound(Log(ly.pending.value));
    var claimed: set<int>, log: set<int> := Claimed(ly), Elements(Log(ly.pending.value));
    assert claimed == log;
  }

  /** In every sound pool the claims made and the batch announced fit together. */
  lemma BatchFits(p: Pool, l: nat)
    requires Inv(p) && l < |p.layers| && p.layers[l].pending.Some?
    ensures |Claimed(p.layers[l])| + p.layers[l].pending.value.batch <= p.cfg.slots
  {
    assert LayerInv(p.cfg, p.sessions, p.layers[l], p.writes, l);
    hide HostOK, TicketsOK, ArenaOK, ProofsOK, PlanOK, CandidateOK, ViewsOK, StoreOK;
    ClaimedCard(p.layers[l]);
  }

  // ----- the run

  /** Candidates arrive for the layer and copies land. */
  predicate Streaming(acts: seq<Action>, l: nat) {
    forall k :: 0 <= k < |acts| ==> (acts[k].Streamed? && acts[k].l == l) || acts[k].Landed?
  }

  /** What a stream of candidates leaves of a prepared prefetch. */
  ghost predicate Streamed(p: Pool, r: Pool, l: nat) {
    && Inv(r) && r.cfg == p.cfg && r.sessions == p.sessions && l < |p.layers| == |r.layers|
    && r.layers[l].views == p.layers[l].views && r.active == p.active
    && p.layers[l].pending.Some? && r.layers[l].pending.Some?
    && r.layers[l].pending.value == p.layers[l].pending.value.(rank := r.layers[l].pending.value.rank, top := r.layers[l].pending.value.top)
  }

  lemma StreamOne(p: Pool, a: Action, l: nat)
    requires Inv(p) && l < |p.layers| && p.layers[l].pending.Some? && Streaming([a], l)
    ensures Streamed(p, Step(p, a), l)
  {
    assert [a][0] == a;
    hide Inv, Allowed;
    if Allowed(p, a) {
      StepInv(p, a);
      StepIs(p, a);
      hide Step;
      StreamedIs(p, a, l);
    } else {
      InvSane(p);
      hide Sane, Accepted;
    }
  }

  lemma StreamedIs(p: Pool, a: Action, l: nat)
    requires Sane(p) && Allowed(p, a) && l < |p.layers| && p.layers[l].pending.Some? && Inv(Accepted(p, a))
    requires (a.Streamed? && a.l == l) || a.Landed?
    ensures Streamed(p, Accepted(p, a), l)
  {
    hide Inv, LeaseFree, StepBoundary, StepCut, AppendEither, Allocate, Release, Reap, Ensure, Prepare, FinalizePool, Commit;
  }

  lemma {:induction false} StreamAll(p: Pool, acts: seq<Action>, l: nat)
    requires Inv(p) && l < |p.layers| && p.layers[l].pending.Some? && Streaming(acts, l)
    ensures Streamed(p, Run(p, acts), l)
    decreases |acts|
  {
    hide Inv;
    if acts != [] {
      StreamOne(p, acts[0], l);
      hide Step;
      StreamAll(Step(p, acts[0]), acts[1..], l);
    }
  }

  /** The candidates of one stream as actions: the first starts again at the first victim. */
  function StreamActions(l: nat, ids: seq<int>): (r: seq<Action>)
    ensures |r| == |ids|
  {
    seq(|ids|, k requires 0 <= k < |ids| => Action.Streamed(l, ids[k], k == 0))
  }

  /** Running the actions of a stream computes the layer the stream gives. */
  lemma {:induction false} StreamRuns(p: Pool, l: nat, ids: seq<int>)
    requires Inv(p) && l < |p.layers| && p.layers[l].pending.Some? && ids != []
    ensures Shaped(p.layers[l].store) && |p.layers[l].store.h2d| == |p.layers[l].host|
    ensures Run(p, StreamActions(l, ids)) == SetLayer(p, l, Candidates(p.sessions, Restarted(p.layers[l]), ids))
    ensures Inv(Run(p, StreamActions(l, ids)))
    decreases |ids|
  {
    var n := |ids| - 1;
    var acts := StreamActions(l, ids);
    PoolFacts(p);
    assert acts == StreamActions(l, ids[..n]) + [acts[n]];
    RunAppend(p, StreamActions(l, ids[..n]), acts[n]);
    if n > 0 {
      StreamRuns(p, l, ids[..n]);
      StreamStep(p, Run(p, StreamActions(l, ids[..n])), l, ids[n], false);
    } else {
      StreamStep(p, p, l, ids[0], true);
      assert Candidates(p.sessions, Restarted(p.layers[l]), ids[..0]) == Restarted(p.layers[l]);
    }
    hide Inv, Step, Run, CandidateAt;
  }

  lemma StreamStep(p: Pool, q: Pool, l: nat, logical: int, restart: bool)
    requires Inv(q) && l < |p.layers| == |q.layers| && q.layers[l].pending.Some? && q == SetLayer(p, l, q.layers[l])
    ensures Shaped(q.layers[l].store) && |q.layers[l].store.h2d| == |q.layers[l].host|
    ensures var r := Step(q, Action.Streamed(l, logical, restart));
      Inv(r) && r == SetLayer(p, l, StreamAt(p.sessions, q.layers[l], logical, restart))
  {
    hide Inv, Sane, StreamAt, Step, Accepted, Allowed, Torn, Realizes, EffectOf, Shaped;
    PoolFacts(q);
    CandidateActs(q, l, logical, restart);
    StepIs(q, Action.Streamed(l, logical, restart));
    StepInv(q, Action.Streamed(l, logical, restart));
    assert q.layers[l := StreamAt(p.sessions, q.layers[l], logical, restart)] == p.layers[l := StreamAt(p.sessions, q.layers[l], logical, restart)];
  }

  lemma CandidateActs(q: Pool, l: nat, logical: int, restart: bool)
    requires Sane(q) && l < |q.layers| && q.layers[l].pending.Some?
    ensures Shaped(q.layers[l].store) && |q.layers[l].store.h2d| == |q.layers[l].host|
    ensures Allowed(q, Action.Streamed(l, logical, restart)) && !Torn(q, Action.Streamed(l, logical, restart))
    ensures Accepted(q, Action.Streamed(l, logical, restart)) == SetLayer(q, l, StreamAt(q.sessions, q.layers[l], logical, restart))
  {
    hide LeaseFree, StreamAt, StepBoundary, StepCut, AppendEither, Allocate, Release;
  }

  /** A stream of actions on a sound pool: which positions fetch, what they fetch into which rows, and that nothing else moves. */
  lemma StreamFetchesExactly(p: Pool, l: nat, ids: seq<int>) returns (taken: seq<nat>)
    requires Inv(p) && l < |p.layers| && p.layers[l].pending.Some? && ids != []
    ensures var r := Run(p, StreamActions(l, ids)); var was := p.layers[l]; var q := was.pending.value;
      && Inv(r) && l < |r.layers| && r == SetLayer(p, l, r.layers[l])
      && r.layers[l] == was.(store := r.layers[l].store, pending := Some(q.(rank := |taken|, top := Max(q.top, |taken|))))
      && StreamLaw(was.store, r.layers[l].store, q.victims, q.cap, was.host, AskedAll(p.sessions, q, ids), taken)
  {
    StreamRuns(p, l, ids);
    taken := StreamInPool(p, l, ids);
    hide Inv, Run, StreamLaw, AskedAll, Shaped;
  }

  /** Every row of the pool, oldest first, ties to the smaller row. */
  ghost predicate RowsByAge(prio: seq<int>, victims: seq<nat>) {
    && |victims| == |prio| - 1 && (forall i :: 0 <= i < |victims| ==> 1 <= victims[i] < |prio|)
    && forall i, j :: 0 <= i < j < |victims| ==>
         prio[victims[i]] < prio[victims[j]] || (prio[victims[i]] == prio[victims[j]] && victims[i] < victims[j])
  }

  /** How many candidates may be fetched: 64 beside a sole bounded history, otherwise the limit, 8192, or what the batch leaves. */
  ghost predicate Capped(p: Pool, o: nat, l: nat, q: Pending, count: nat, limit: nat, native: bool)
    requires Exists(p, o, l)
  {
    var v := p.layers[l].views[o];
    var room := if v.transientStart.Some? then p.cfg.slots as int else p.cfg.slots - count;
    if native && count == 1 && p.sessions.Keys == {o} && v.transientStart.None? && p.cfg.slots - HostEnd(v) >= 64 then q.cap == 64
    else q.cap <= limit && q.cap <= 8192 && q.cap <= room && (q.cap == limit || q.cap == 8192 || q.cap == room)
  }

  /** Nothing but the clock and the ages has moved, and no two rows have changed their order. */
  ghost predicate OnlyRenumbered(st: Store, r: Store)
    requires SameShape(r, st) && |st.prio| == |st.d2h|
  {
    && r == st.(prio := r.prio, clock := r.clock)
    && forall s, t :: 1 <= s < |st.d2h| && 1 <= t < |st.d2h| ==> (r.prio[s] < r.prio[t] <==> st.prio[s] < st.prio[t])
  }

  /** What preparing sets up; it sets up nothing, and only lets the clock go on, exactly when the whole history is certified. */
  ghost predicate SetsUp(p: Pool, r: Pool, o: nat, l: nat, count: nat, limit: nat, native: bool)
    requires Exists(p, o, l)
  {
    && l < |r.layers|
    && var was, now := p.layers[l], r.layers[l];
       && (now.pending.None? <==> AllResident(p.cfg, p.sessions, LeaseTo(was, o), o))
       && (now.pending.Some? ==>
             now.store == was.store && var q := now.pending.value;
             && q.owner == o && q.rank == 0 && q.top == 0 && q.history == HostEnd(was.views[o])
             && q.batch == (if was.views[o].transientStart.Some? then 0 else count)
             && RowsByAge(was.store.prio, q.victims) && Capped(p, o, l, q, count, limit, native))
       && (now.pending.None? ==> SameShape(now.store, was.store) && |was.store.prio| == |was.store.d2h| && OnlyRenumbered(was.store, now.store))
  }

  lemma PreparedExactly(p: Pool, o: nat, l: nat, start: nat, count: nat, limit: nat, native: bool)
    requires Inv(p) && CanPrepare(p, o, l, start, count)
    ensures Exists(p, o, l) && SetsUp(p, Step(p, Prepared(o, l, start, count, limit, native)), o, l, count, limit, native)
  {
    StepIs(p, Prepared(o, l, start, count, limit, native));
    PoolFacts(p);
    PrepareOpens(p, o, l, start, count);
    PreparedIs(p, o, l, start, count, limit, native);
    SoleKeys(p.sessions, o);
    assert LayerInv(p.cfg, p.sessions, p.layers[l], p.writes, l);
    var v := p.layers[l].views[o];
    assert v.transientStart.None? ==> count <= p.cfg.slots;
    var q := BeforePrepare(p, o, l);
    AllResidentSame(q.cfg, q.sessions, LeaseTo(p.layers[l], o), q.layers[l], o);
    SortedByAge(p.layers[l].store);
    assert Claimed(p.layers[l]) == {};
    SkipOrder(p.layers[l].store, p.cfg.limit);
    hide *;
    PreparedPool(p, o, l, count, limit, native);
  }

  lemma PreparedPool(p: Pool, o: nat, l: nat, count: nat, limit: nat, native: bool)
    requires Sane(p) && Exists(p, o, l) && p.layers[l].pending.None?
    requires p.layers[l].views[o].transientStart.None? ==> count <= p.cfg.slots
    requires |p.sessions| == 1 <==> p.sessions.Keys == {o}
    requires Shaped(p.layers[l].store) && RowsByAge(p.layers[l].store.prio, Sort(p.layers[l].store.prio, Range(1, |p.layers[l].store.prio|)))
    requires OnlyRenumbered(p.layers[l].store, Stamp(ClockEvent(p.layers[l].store, p.cfg.limit), []))
    requires InLayers(p) && p.cfg.maxWrites >= 1
    requires AllResident(p.cfg, p.sessions, BeforePrepare(p, o, l).layers[l], o) == AllResident(p.cfg, p.sessions, LeaseTo(p.layers[l], o), o)
    ensures SetsUp(p, Prepare(p, o, l, count, limit, native), o, l, count, limit, native)
  {
    var q := BeforePrepare(p, o, l);
    assert q.layers[l] == LeaseTo(p.layers[l], o).(host := q.layers[l].host);
    hide Sane, ClockEvent, Stamp, RowsByAge, AllResident, OnlyRenumbered, Sort, BeforePrepare;
  }

  lemma SoleKeys(ss: map<nat, Session>, o: nat)
    requires o in ss
    ensures |ss| == 1 <==> ss.Keys == {o}
  {
    assert |ss| == |ss.Keys|;
    if |ss| == 1 { SubsetEqual({o}, ss.Keys); }
  }

  lemma SortedByAge(st: Store)
    requires Shaped(st)
    ensures RowsByAge(st.prio, Sort(st.prio, Range(1, |st.prio|)))
  {
    FreshPlan(st.prio);
  }

  lemma SkipOrder(st: Store, limit: Option<nat>)
    requires Shaped(st) && Ages(st, {})
    ensures OnlyRenumbered(st, Stamp(ClockEvent(st, limit), []))
  {
    StampAges(st, limit, []);
    assert AgedOutside(st, []);
    StampOrder(st, limit, []);
  }

  /** A prefetch prepared for a persistent batch remembers its size, and its session has history. */
  lemma PreparedBatch(p: Pool, o: nat, l: nat, start: nat, count: nat, limit: nat, native: bool)
    requires Inv(p) && CanPrepare(p, o, l, start, count) && p.layers[l].views[o].transientStart.None?
    ensures var r := Step(p, Prepared(o, l, start, count, limit, native));
      && Inv(r) && l < |r.layers| && r.cfg == p.cfg && o in r.sessions && o in r.layers[l].views
      && r.layers[l].views[o].transientStart.None?
      && (r.layers[l].pending.Some? ==>
            r.layers[l].pending.value.batch == count && r.layers[l].pending.value.owner == o && r.layers[l].views[o].written > 0)
  {
    hide Inv, LeaseFree, CanPrepare, Step, Accepted, Realizes, EffectOf;
    PrepareOpens(p, o, l, start, count);
    StepInv(p, Prepared(o, l, start, count, limit, native));
    StepIs(p, Prepared(o, l, start, count, limit, native));
    PreparedIs(p, o, l, start, count, limit, native);
    hide Sane, Prepare;
    PreparedPending(p, o, l, count, limit, native);
  }

  lemma PrepareOpens(p: Pool, o: nat, l: nat, start: nat, count: nat)
    requires CanPrepare(p, o, l, start, count)
    ensures Exists(p, o, l) && p.layers[l].pending.None?
  {
    NoPending(p, o, l);
  }

  lemma PreparedIs(p: Pool, o: nat, l: nat, start: nat, count: nat, limit: nat, native: bool)
    requires Sane(p) && CanPrepare(p, o, l, start, count)
    ensures Accepted(p, Prepared(o, l, start, count, limit, native)) == Prepare(p, o, l, count, limit, native)
  {
    hide Sane, LeaseFree, Prepare, StepBoundary, StepCut, AppendEither, Allocate, Release;
  }

  lemma PreparedPending(p: Pool, o: nat, l: nat, count: nat, limit: nat, native: bool)
    requires Sane(p) && Exists(p, o, l) && p.layers[l].pending.None? && p.layers[l].views[o].transientStart.None?
    ensures var r := Prepare(p, o, l, count, limit, native);
      && l < |r.layers| && r.cfg == p.cfg && o in r.sessions && o in r.layers[l].views
      && r.layers[l].views[o].transientStart.None?
      && (r.layers[l].pending.Some? ==>
            r.layers[l].pending.value.batch == count && r.layers[l].pending.value.owner == o && r.layers[l].views[o].written > 0)
  {
  }

  /** The append takes its rows by plan or first-in-first-out: in both cases the oldest ones. */
  lemma AppendTakesOldest(p: Pool, o: nat, l: nat, recs: seq<Record>)
    requires CanPersist(p, o, l, recs) && !p.cfg.dense
    ensures var q := MakeRoom(PlannedPool(p, o, l, |recs|), l); var st := p.layers[l].store;
      && Placeable(q, o, l, recs) && |recs| <= |Available(st, [])| && q.layers[l].store == st
      && AppendRows(q.cfg, q.sessions, q.layers[l], o, |recs|) == Choose(st, [], |recs|)
      && AppendPersistent(p, o, l, recs) == PlaceAppend(q, o, l, recs)
      && MapsAgree(st) && Refillable(st, NewToks(q.sessions, q.layers[l], o, |recs|), Choose(st, [], |recs|), recs)
  {
    AppendPersistentLegal(p, o, l, recs);
    var q := MakeRoom(PlannedPool(p, o, l, |recs|), l);
    AppendLegal(q.cfg, q.sessions, q.layers[l], q.writes, l, o, recs);
    hide Inv, CanPersist;
    WithoutCard(Range(1, |q.layers[l].store.d2h|), []);
    if Planned(q.cfg, q.sessions, q.layers[l], o, q.layers[l].views[o].written, |recs|) {
      PlannedAppendIsFifo(q, o, l, |recs|);
    }
  }

  lemma AppendKeepsRow(p: Pool, o: nat, l: nat, recs: seq<Record>, s: int)
    requires CanPersist(p, o, l, recs) && !p.cfg.dense
    requires var st := p.layers[l].store; Shaped(st) && |recs| <= |Available(st, [])| && 1 <= s < |st.d2h| && s !in Choose(st, [], |recs|)
    ensures var r := AppendPersistent(p, o, l, recs);
      l < |r.layers| && s < |r.layers[l].store.d2h| && r.layers[l].store.d2h[s] == p.layers[l].store.d2h[s]
  {
    AppendTakesOldest(p, o, l, recs);
    var q := MakeRoom(PlannedPool(p, o, l, |recs|), l);
    hide CanPersist, Placeable, MakeRoom;
    PlacedKeeps(q, o, l, recs, s);
  }

  lemma PlacedKeeps(q: Pool, o: nat, l: nat, recs: seq<Record>, s: int)
    requires Placeable(q, o, l, recs)
    requires var rows := AppendRows(q.cfg, q.sessions, q.layers[l], o, |recs|); var gs := NewToks(q.sessions, q.layers[l], o, |recs|);
      Refillable(q.layers[l].store, gs, rows, recs) && 1 <= s < |q.layers[l].store.d2h| && s !in rows
    ensures var r := PlaceAppend(q, o, l, recs);
      l < |r.layers| && s < |r.layers[l].store.d2h| && r.layers[l].store.d2h[s] == q.layers[l].store.d2h[s]
  {
    var st, rows := q.layers[l].store, AppendRows(q.cfg, q.sessions, q.layers[l], o, |recs|);
    var gs := NewToks(q.sessions, q.layers[l], o, |recs|);
    RefillAt(st, gs, rows, recs);
    ClockEventKeeps(Refill(st, gs, rows, recs), q.cfg.limit);
    hide Refill, ClockEvent;
  }

  /** An announced batch: prepare, any stream of candidates while copies land, close; the append evicts nothing that was fetched. */
  lemma AnnouncedBatchSpares(p: Pool, o: nat, l: nat, start: nat, count: nat, limit: nat, native: bool,
                             acts: seq<Action>, recs: seq<Record>)
    requires Inv(p) && CanPrepare(p, o, l, start, count) && p.layers[l].views[o].transientStart.None?
    requires Streaming(acts, l) && |recs| <= count
    requires var q := Step(p, Prepared(o, l, start, count, limit, native)); l < |q.layers| && q.layers[l].pending.Some?
    ensures var q := Run(Step(p, Prepared(o, l, start, count, limit, native)), acts); var r := Step(q, Finalized(l));
      && Inv(r) && l < |q.layers|
      && (Allowed(r, Appended(o, l, recs)) ==> Spared(q.layers[l], Step(r, Appended(o, l, recs)), l))
  {
    hide Inv, LeaseFree, CanPrepare, Step, Run;
    PreparedBatch(p, o, l, start, count, limit, native);
    var q0 := Step(p, Prepared(o, l, start, count, limit, native));
    StreamAll(q0, acts, l);
    CloseAndAppend(Run(q0, acts), o, l, recs);
  }

  /** Every claimed row still holds the token it was claimed for, and the token still names the row. */
  ghost predicate Spared(was: Layer, r: Pool, l: nat) {
    && l < |r.layers| && MapsAgree(r.layers[l].store)
    && forall s :: s in Claimed(was) ==>
         1 <= s < |was.store.d2h| && s < |r.layers[l].store.d2h| && Live(r.layers[l].store, s)
         && r.layers[l].store.d2h[s] == was.store.d2h[s]
  }

  lemma CloseAndAppend(q: Pool, o: nat, l: nat, recs: seq<Record>)
    requires Inv(q) && l < |q.layers| && q.layers[l].pending.Some? && q.layers[l].pending.value.owner == o && o in q.layers[l].views
    requires q.layers[l].views[o].transientStart.None? && q.layers[l].views[o].written > 0
    requires |recs| <= q.layers[l].pending.value.batch
    ensures var r := Step(q, Finalized(l));
      Inv(r) && (Allowed(r, Appended(o, l, recs)) ==> Spared(q.layers[l], Step(r, Appended(o, l, recs)), l))
  {
    StepInv(q, Finalized(l));
    BatchFits(q, l);
    PoolFacts(q);
    ClosedSpares(q, l, |recs|);
    var r := Step(q, Finalized(l));
    ClosedLayerIs(q, l);
    if Allowed(r, Appended(o, l, recs)) {
      AppendAfterClose(q, r, o, l, recs);
    }
  }

  lemma ClosedLayerIs(q: Pool, l: nat)
    requires Sane(q) && l < |q.layers| && q.layers[l].pending.Some?
    ensures var r := Step(q, Finalized(l));
      && r.cfg == q.cfg && |r.layers| == |q.layers| && r.sessions == q.sessions
      && r.layers[l].store == FinalizeAt(q.layers[l], q.cfg.limit).store && r.layers[l].views == q.layers[l].views
      && r.layers[l].proofs.denseOwner.None?
  {
  }

  lemma AppendAfterClose(q: Pool, r: Pool, o: nat, l: nat, recs: seq<Record>)
    requires Inv(r) && Allowed(r, Appended(o, l, recs)) && l < |q.layers| && Shaped(q.layers[l].store) && q.layers[l].pending.Some?
    requires r.layers[l].store == FinalizeAt(q.layers[l], q.cfg.limit).store && r.layers[l].proofs.denseOwner.None?
    requires r.layers[l].views[o].transientStart.None? && r.layers[l].views[o].written > 0
    requires var st, was := r.layers[l].store, q.layers[l];
      && |recs| <= |Available(st, [])| && st.d2h == was.store.d2h
      && (forall s :: s in Claimed(was) ==> 1 <= s < |st.d2h| && Live(st, s))
      && (forall s :: s in Choose(st, [], |recs|) ==> s !in Claimed(was))
    ensures Spared(q.layers[l], Step(r, Appended(o, l, recs)), l)
  {
    hide FinalizeAt, Available, Choose, Claimed, Inv, Step, Allowed, CanPersist, AppendPersistent, MapsAgree;
    AppendLegalHere(r, o, l, recs);
    var f := Step(r, Appended(o, l, recs));
    forall s | s in Claimed(q.layers[l]) ensures l < |f.layers| && s < |f.layers[l].store.d2h| && f.layers[l].store.d2h[s] == q.layers[l].store.d2h[s] {
      AppendKeepsRow(r, o, l, recs, s);
    }
    AppendedMaps(f, l);
  }

  /** Without a certificate only a pool that is not dense appends behind written tokens. */
  lemma AppendLegalHere(r: Pool, o: nat, l: nat, recs: seq<Record>)
    requires Inv(r) && Allowed(r, Appended(o, l, recs)) && r.layers[l].proofs.denseOwner.None?
    requires r.layers[l].views[o].transientStart.None? && r.layers[l].views[o].written > 0
    ensures !r.cfg.dense && CanPersist(r, o, l, recs) && Step(r, Appended(o, l, recs)) == AppendPersistent(r, o, l, recs)
    ensures Inv(AppendPersistent(r, o, l, recs)) && l < |AppendPersistent(r, o, l, recs).layers|
  {
    StepIs(r, Appended(o, l, recs));
    hide Inv, LeaseFree, Sane, Step, AppendPersistent, SameLogicalBut, Logical;
    assert CanPersist(r, o, l, recs);
    AppendPersistentInv(r, o, l, recs);
    AppendPersistentMeaning(r, o, l, recs);
  }

  lemma AppendedMaps(f: Pool, l: nat)
    requires Inv(f)
    ensures l < |f.layers| ==> MapsAgree(f.layers[l].store)
  {
    if l < |f.layers| { assert LayerInv(f.cfg, f.sessions, f.layers[l], f.writes, l); }
  }
}
