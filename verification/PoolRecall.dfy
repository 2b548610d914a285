/** Exact recall: every selected token ends in a device row that holds its record. */
module PoolRecall {
  import opened TokenTypes
  import opened Ranking
  import opened TokenStore
  import opened TokenPool
  import opened PoolWritebacks
  import opened PoolTransactions
  import opened PoolAppend

  /** The distinct host-backed tokens of a selection, ascending. */
  function History(ly: Layer, o: nat, idx: seq<int>): (r: seq<nat>)
    requires o in ly.views
    ensures forall y: int :: y in r <==> y in idx && 0 <= y < HostEnd(ly.views[o])
  {
    Within(Range(0, HostEnd(ly.views[o])), idx)
  }

  predicate CanEnsure(p: Pool, o: nat, l: nat, idx: seq<int>) {
    && Exists(p, o, l)
    && (p.layers[l].pending.Some? ==> p.layers[l].pending.value.owner != o)
    && LeaseFree(p, o, l)
    && (forall k :: 0 <= k < |idx| ==> idx[k] < p.layers[l].views[o].written)
    && |History(p.layers[l], o, idx)| <= p.cfg.slots
  }

  lemma HistoryToks(cfg: Config, ss: map<nat, Session>, ly: Layer, o: nat, idx: seq<int>)
    requires PagesOwned(cfg, ss) && ViewsOK(cfg, ss, ly) && ArenaOK(ss, ly) && |ly.store.h2d| == PAGE_SIZE * cfg.pages
    requires o in ly.views && o in ss
    ensures var gs := Toks(ss, o, History(ly, o, idx));
      HostIds(ly.store, gs) && Distinct(gs) && (forall g :: g in gs ==> g in ly.arena)
      && (forall g :: g in gs ==> exists i: nat :: Backed(ly, o, i) && i in idx && Tok(ss, o, i) == g)
      && (forall i: nat :: Backed(ly, o, i) && i in idx ==> Tok(ss, o, i) in gs)
  {
    var ids := History(ly, o, idx);
    var gs := Toks(ss, o, ids);
    WithinDistinct(Range(0, HostEnd(ly.views[o])), idx);
    assert ViewOK(cfg, ss[o], ly.views[o]);
    forall k | 0 <= k < |ids| ensures 0 <= gs[k] < |ly.store.h2d| && gs[k] in ly.arena && Backed(ly, o, ids[k]) && ids[k] in idx {
      assert ids[k] in ids;
      assert Backed(ly, o, ids[k]);
      TokRange(cfg, ss, o, ids[k]);
    }
    forall k, m | 0 <= k < m < |gs| ensures gs[k] != gs[m] {
      TokDistinct(cfg, ss, o, ids[k], o, ids[m]);
    }
    forall i: nat | Backed(ly, o, i) && i in idx ensures Tok(ss, o, i) in gs {
      assert i in ids;
      var k :| 0 <= k < |ids| && ids[k] == i;
      assert gs[k] == Tok(ss, o, i);
    }
  }

  /** The layer after recall; a miss drops the host-side proofs, an all-hit recall keeps them. */
  function EnsureAt(ly: Layer, gs: seq<int>, limit: Option<nat>): Layer
    requires Shaped(ly.store) && HostIds(ly.store, gs) && |gs| <= Slots(ly.store) && |ly.host| == |ly.store.h2d|
  {
    ly.(store := EnsureRows(ly.store, limit, gs, ly.host).store,
        proofs := if Misses(ly.store, gs) == [] then ly.proofs else Invalidate(ly.proofs))
  }

  /** Stamping consumed plan rows leaves the rest of the plan in FIFO order. */
  lemma ProtectKeepsPlan(st: Store, limit: Option<nat>, rows: seq<int>, order: seq<nat>, cursor: nat)
    requires Shaped(st) && Ages(st, {}) && cursor <= |order| && (forall i :: 0 <= i < |order| ==> 1 <= order[i] < |st.d2h|)
    requires PlanSorted(st.prio, order, cursor)
    requires forall j :: cursor <= j < |order| ==> order[j] !in rows
    ensures PlanSorted(Stamp(ClockEvent(st, limit), rows).prio, order, cursor)
  {
    hide ClockEvent;
    assert AgedOutside(st, rows);
    StampOrder(st, limit, rows);
    hide Stamp;
    hide Ages;
    ConsumeKeepsOrder(st.prio, Stamp(ClockEvent(st, limit), rows).prio, order, cursor, cursor);
  }

  lemma HitRecallKeepsPlan(cfg: Config, ss: map<nat, Session>, ly: Layer, o: nat, ids: seq<nat>, limit: Option<nat>)
    requires ViewsOK(cfg, ss, ly) && PlanOK(cfg, ss, ly) && MapsAgree(ly.store) && Ages(ly.store, {})
    requires o in ly.views && ly.proofs.lease == Some(o) && HostIds(ly.store, Toks(ss, o, ids))
    requires forall k :: 0 <= k < |ids| ==> ids[k] < HostEnd(ly.views[o])
    requires ly.proofs.appendOwner.Some? && !cfg.dense
    ensures forall i :: 0 <= i < |ly.proofs.order| ==> ly.proofs.order[i] < |ly.store.prio|
    ensures PlanSorted(Stamp(ClockEvent(Protect(ly.store, limit, Toks(ss, o, ids)), limit), []).prio,
          ly.proofs.order, ly.proofs.appendCursor)
  {
    var st, gs, order, cursor := ly.store, Toks(ss, o, ids), ly.proofs.order, ly.proofs.appendCursor;
    var hits := Hits(st, gs);
    forall j | cursor <= j < |order| ensures order[j] !in hits {
      forall k | 0 <= k < |gs| && Mapped(st, gs[k]) ensures st.h2d[gs[k]] != order[j] {
        assert AtRow(ss, ly, o, ids[k], order[ids[k]]);
      }
    }
    hide PlanSorted;
    ProtectKeepsPlan(st, limit, hits, order, cursor);
    ProtectKeeps(st, limit, gs);
    ProtectKeepsPlan(Protect(st, limit, gs), limit, [], order, cursor);
  }

  ghost predicate RecallReady(cfg: Config, ss: map<nat, Session>, ly: Layer, ws: seq<Ticket>, l: nat, o: nat, ids: seq<nat>) {
    && LayerInv(cfg, ss, ly, ws, l) && o in ly.views && o in ss && ly.proofs.lease == Some(o) && ly.pending.None?
    && (forall k :: 0 <= k < |ids| ==> ids[k] < HostEnd(ly.views[o]))
    && |ids| <= cfg.slots
    && var gs := Toks(ss, o, ids);
       HostIds(ly.store, gs) && Distinct(gs) && (forall g :: g in gs ==> g in ly.arena)
       && (forall g :: g in gs && 0 <= g < |ly.store.h2d| && !Mapped(ly.store, g) ==> g < |ly.host| && ly.host[g] == ly.arena[g])
  }

  lemma EnsureStoreOK(cfg: Config, ss: map<nat, Session>, ly: Layer, ws: seq<Ticket>, l: nat, o: nat, ids: seq<nat>,
                      limit: Option<nat>)
    requires RecallReady(cfg, ss, ly, ws, l, o, ids)
    ensures var gs := Toks(ss, o, ids);
      Shaped(ly.store) && |gs| <= Slots(ly.store) && |ly.host| == |ly.store.h2d|
      && StoreOK(cfg, EnsureAt(ly, gs, limit)) && CandidateOK(cfg, EnsureAt(ly, gs, limit))
      && Recalled(ly.store, EnsureAt(ly, gs, limit).store, gs, ly.arena)
  {
    hide TicketsOK;
    hide HostOK;
    hide ArenaOK;
    hide ProofsOK;
    hide PlanOK;
    hide PendingOK;
    var gs := Toks(ss, o, ids);
    assert Claimed(ly) == {};
    assert ViewsOK(cfg, ss, ly) && CandidateOK(cfg, ly);
    EnsureRecalls(ly.store, limit, gs, ly.host, ly.arena);
    hide EnsureRows;
    var r := EnsureAt(ly, gs, limit);
    assert Claimed(r) == {};
    if ly.candidate.Some? {
      assert TailAt(cfg, ly.store, ly.views[ly.candidate.value].tail);
      assert TailAt(cfg, r.store, ly.views[ly.candidate.value].tail);
    }
  }

  /** With no miss the maps are untouched. */
  lemma HitRecall(st: Store, limit: Option<nat>, gs: seq<int>, host: seq<Record>)
    requires MapsAgree(st) && HostIds(st, gs) && |gs| <= Slots(st) && |host| == |st.h2d| && Misses(st, gs) == []
    ensures var r := EnsureRows(st, limit, gs, host).store;
      r == Stamp(ClockEvent(Protect(st, limit, gs), limit), []) && r.h2d == st.h2d && r.d2h == st.d2h && |r.prio| == |st.prio|
  {
    ProtectKeeps(st, limit, gs);
    HitsSame(st, Protect(st, limit, gs), gs);
    ClockEventKeeps(Protect(st, limit, gs), limit);
  }

  lemma EnsureProofs(cfg: Config, ss: map<nat, Session>, ly: Layer, ws: seq<Ticket>, l: nat, o: nat, ids: seq<nat>,
                     limit: Option<nat>)
    requires RecallReady(cfg, ss, ly, ws, l, o, ids)
    requires var gs := Toks(ss, o, ids); Shaped(ly.store) && |gs| <= Slots(ly.store) && |ly.host| == |ly.store.h2d|
    ensures var r := EnsureAt(ly, Toks(ss, o, ids), limit); ProofsOK(cfg, ss, r) && PlanOK(cfg, ss, r)
  {
    hide TicketsOK;
    hide HostOK;
    hide ArenaOK;
    hide PendingOK;
    hide CandidateOK;
    hide Copies;
    var gs := Toks(ss, o, ids);
    var r := EnsureAt(ly, gs, limit);
    assert Claimed(ly) == {};
    if Misses(ly.store, gs) == [] {
      HitRecall(ly.store, limit, gs, ly.host);
      if ly.proofs.appendOwner.Some? && !cfg.dense { HitRecallKeepsPlan(cfg, ss, ly, o, ids, limit); }
      hide EnsureRows;
      hide MapsAgree;
      hide Ages;
      hide Protect;
      hide ClockEvent;
      hide Stamp;
      HitProofs(cfg, ss, ly, r);
    } else {
      hide EnsureRows;
      assert r.proofs.residentOwner.None? && r.proofs.appendOwner.None?;
    }
  }

  lemma HitProofs(cfg: Config, ss: map<nat, Session>, a: Layer, b: Layer)
    requires b.store.h2d == a.store.h2d && b.proofs == a.proofs && b.views == a.views && |b.store.prio| == |a.store.prio|
    requires ProofsOK(cfg, ss, a) && PlanOK(cfg, ss, a)
    requires a.proofs.appendOwner.Some? && !cfg.dense ==>
      (forall i :: 0 <= i < |a.proofs.order| ==> a.proofs.order[i] < |b.store.prio|)
      && PlanSorted(b.store.prio, a.proofs.order, a.proofs.appendCursor)
    ensures ProofsOK(cfg, ss, b) && PlanOK(cfg, ss, b)
  {
    hide PlanSorted;
    assert forall o, i: nat, row :: AtRow(ss, b, o, i, row) == AtRow(ss, a, o, i, row);
    assert forall o, i: nat :: Direct(ss, b, o, i) == Direct(ss, a, o, i);
    assert forall o, i: nat :: Resident(ss, b, o, i) == Resident(ss, a, o, i);
  }

  /** Recall keeps the layer's invariant. */
  lemma EnsureLayerInv(cfg: Config, ss: map<nat, Session>, ly: Layer, ws: seq<Ticket>, l: nat, o: nat,
                       ids: seq<nat>, limit: Option<nat>)
    requires RecallReady(cfg, ss, ly, ws, l, o, ids)
    requires var gs := Toks(ss, o, ids); Shaped(ly.store) && |gs| <= Slots(ly.store) && |ly.host| == |ly.store.h2d|
    ensures LayerInv(cfg, ss, EnsureAt(ly, Toks(ss, o, ids), limit), ws, l)
  {
    EnsureStoreOK(cfg, ss, ly, ws, l, o, ids, limit);
    EnsureProofs(cfg, ss, ly, ws, l, o, ids, limit);
    hide StoreOK;
    hide ProofsOK;
    hide PlanOK;
    hide CandidateOK;
    hide EnsureRows;
    hide Recalled;
    hide HostIds;
    var r := EnsureAt(ly, Toks(ss, o, ids), limit);
    FrameHost(ss, ly, r, ws, l);
    FrameTicketsAll(ss, ly, r, ws, l);
    hide HostOK;
    hide ArenaOK;
    hide TicketsOK;
  }

  // ----- the whole operation

  /** The pool when the misses are copied: leased, drained at a clock limit, writebacks waited for. */
  function BeforeRecall(p: Pool, o: nat, l: nat, gs: seq<int>): (r: Pool)
    requires Exists(p, o, l) && InLayers(p) && p.cfg.maxWrites >= 1
    requires Shaped(p.layers[l].store) && HostIds(p.layers[l].store, gs)
    ensures InLayers(r) && OnlyHost(Leased(p, o, l), r)
  {
    var st := p.layers[l].store;
    var limit := p.cfg.limit;
    var d1 := if AtLimit(st, limit) then Drain(Leased(p, o, l)) else Leased(p, o, l);
    var d2 := if Misses(st, gs) != [] then WaitHost(d1, o, l) else d1;
    if AtLimit(Protect(st, limit, gs), limit) then Drain(d2) else d2
  }

  lemma BeforeRecallInv(p: Pool, o: nat, l: nat, gs: seq<int>)
    requires Inv(p) && Exists(p, o, l) && LeaseFree(p, o, l) && InLayers(p) && p.cfg.maxWrites >= 1
    requires Shaped(p.layers[l].store) && HostIds(p.layers[l].store, gs)
    ensures Inv(BeforeRecall(p, o, l, gs))
    ensures Misses(p.layers[l].store, gs) != [] ==> forall i: nat :: !InFlight(BeforeRecall(p, o, l, gs).writes, l, o, i)
  {
    LeasedInv(p, o, l);
    hide Inv;
    var st := p.layers[l].store;
    var limit := p.cfg.limit;
    var q := Leased(p, o, l);
    if AtLimit(st, limit) { DrainInv(q); }
    var d1 := if AtLimit(st, limit) then Drain(q) else q;
    if Misses(st, gs) != [] { WaitHostInv(d1, o, l); }
    var d2 := if Misses(st, gs) != [] then WaitHost(d1, o, l) else d1;
    if AtLimit(Protect(st, limit, gs), limit) { DrainInv(d2); }
  }

  /** The layer's tables name a legal host ID for each of the tokens, and there are rows for them. */
  ghost predicate Readable(p: Pool, o: nat, l: nat, gs: seq<int>) {
    && Sane(p) && Exists(p, o, l) && HostIds(p.layers[l].store, gs) && |gs| <= Slots(p.layers[l].store)
  }

  ghost function Ensure(p: Pool, o: nat, l: nat, idx: seq<int>): Pool {
    if !Exists(p, o, l) then p
    else
      var gs := Toks(p.sessions, o, History(p.layers[l], o, idx));
      if !Readable(p, o, l, gs) then p
      else
        var q := BeforeRecall(p, o, l, gs);
        SetLayer(q, l, EnsureAt(q.layers[l], gs, p.cfg.limit))
  }

  lemma EnsureLegal(p: Pool, o: nat, l: nat, idx: seq<int>)
    requires Inv(p) && CanEnsure(p, o, l, idx)
    ensures var ids := History(p.layers[l], o, idx); var gs := Toks(p.sessions, o, ids);
      Readable(p, o, l, gs)
      && var q := BeforeRecall(p, o, l, gs);
         Inv(q) && l < |q.layers| && q.layers[l].store == p.layers[l].store
         && RecallReady(q.cfg, q.sessions, q.layers[l], q.writes, l, o, ids)
         && |gs| <= Slots(q.layers[l].store) && |q.layers[l].host| == |q.layers[l].store.h2d|
  {
    var ids := History(p.layers[l], o, idx);
    var gs := Toks(p.sessions, o, ids);
    InvSane(p);
    assert LayerInv(p.cfg, p.sessions, p.layers[l], p.writes, l);
    HistoryToks(p.cfg, p.sessions, p.layers[l], o, idx);
    NoPending(p, o, l);
    BeforeRecallInv(p, o, l, gs);
    var q := BeforeRecall(p, o, l, gs);
    RecallReadyAfter(p, q, o, l, idx);
  }

  lemma RecallReadyAfter(p: Pool, q: Pool, o: nat, l: nat, idx: seq<int>)
    requires Inv(p) && CanEnsure(p, o, l, idx) && Inv(q) && p.layers[l].pending.None?
    requires OnlyHost(Leased(p, o, l), q)
    requires var gs := Toks(p.sessions, o, History(p.layers[l], o, idx));
      Shaped(p.layers[l].store) && HostIds(p.layers[l].store, gs)
      && (Misses(p.layers[l].store, gs) != [] ==> forall i: nat :: !InFlight(q.writes, l, o, i))
    ensures RecallReady(q.cfg, q.sessions, q.layers[l], q.writes, l, o, History(p.layers[l], o, idx))
    ensures |History(p.layers[l], o, idx)| <= Slots(q.layers[l].store) && |q.layers[l].host| == |q.layers[l].store.h2d|
  {
    var ids := History(p.layers[l], o, idx);
    var gs := Toks(p.sessions, o, ids);
    var ly := q.layers[l];
    assert LayerInv(q.cfg, q.sessions, ly, q.writes, l);
    hide TicketsOK, ProofsOK, PlanOK, PendingOK, CandidateOK, MapsAgree, Copies, Ages;
    HistoryToks(q.cfg, q.sessions, ly, o, idx);
    assert forall k :: 0 <= k < |ids| ==> ids[k] in ids;
    forall g | g in gs && 0 <= g < |ly.store.h2d| && !Mapped(ly.store, g) ensures g < |ly.host| && ly.host[g] == ly.arena[g] {
      assert g in Misses(p.layers[l].store, gs);
      var i: nat :| Backed(ly, o, i) && i in idx && Tok(q.sessions, o, i) == g;
      assert HostHolds(q.sessions, ly, o, i);
    }
  }

  lemma EnsureInv(p: Pool, o: nat, l: nat, idx: seq<int>)
    requires Inv(p) && CanEnsure(p, o, l, idx)
    ensures Inv(Ensure(p, o, l, idx)) && SameLogical(p, Ensure(p, o, l, idx))
    ensures Ensure(p, o, l, idx).sessions == p.sessions && |Ensure(p, o, l, idx).layers| == |p.layers|
  {
    var ids := History(p.layers[l], o, idx);
    var gs := Toks(p.sessions, o, ids);
    EnsureLegal(p, o, l, idx);
    var q := BeforeRecall(p, o, l, gs);
    hide Inv;
    EnsureLayerInv(q.cfg, q.sessions, q.layers[l], q.writes, l, o, ids, p.cfg.limit);
    hide RecallReady;
    hide HostIds;
    hide LeaseFree;
    var r := EnsureAt(q.layers[l], gs, p.cfg.limit);
    EnsureStep(p, q, o, l, ids, r);
  }

  lemma EnsureStep(p: Pool, q: Pool, o: nat, l: nat, ids: seq<nat>, r: Layer)
    requires Inv(q) && l < |p.layers| && OnlyHost(Leased(p, o, l), q) && LayerInv(q.cfg, q.sessions, r, q.writes, l)
    requires r.views == q.layers[l].views && r.arena == q.layers[l].arena
    requires RecallReady(q.cfg, q.sessions, q.layers[l], q.writes, l, o, ids)
    requires r.pending.None? && r.proofs.lease == Some(o)
    ensures Inv(SetLayer(q, l, r)) && SameLogical(p, SetLayer(q, l, r))
  {
    hide LayerInv;
    hide HostIds;
    LayerStepInv(q, l, r);
    hide Inv;
    forall m, x | 0 <= m < |p.layers| && x in p.layers[m].views
      ensures x in SetLayer(q, l, r).layers[m].views
      ensures Logical(p.sessions, SetLayer(q, l, r).layers[m], x) == Logical(p.sessions, p.layers[m], x)
    {
      LogicalSame(p.sessions, p.layers[m], SetLayer(q, l, r).layers[m], x);
    }
  }

  /** The physical rows `ensure` returns: -1 for padding, mapped rows for history, candidate rows for the suffix. */
  function PhysicalRows(cfg: Config, ss: map<nat, Session>, ly: Layer, o: nat, idx: seq<int>): (r: seq<int>)
    requires o in ly.views
    ensures |r| == |idx|
  {
    var end := HostEnd(ly.views[o]);
    seq(|idx|, k requires 0 <= k < |idx| =>
      if idx[k] < 0 then -1
      else if idx[k] < end then
        (var g := Tok(ss, o, idx[k]); if 0 <= g < |ly.store.h2d| then ly.store.h2d[g] else MISSING)
      else cfg.slots + 1 + idx[k] - end)
  }

  /** Recall refines the plain sequence: each returned row holds the selected logical record. */
  lemma EnsureReadsLogical(p: Pool, o: nat, l: nat, idx: seq<int>, k: nat)
    requires Inv(p) && CanEnsure(p, o, l, idx) && k < |idx|
    ensures var r := Ensure(p, o, l, idx);
      l < |r.layers| && o in r.layers[l].views &&
      var row := PhysicalRows(r.cfg, r.sessions, r.layers[l], o, idx)[k];
      (idx[k] < 0 ==> row == -1)
      && (idx[k] >= 0 ==>
            1 <= row < |r.layers[l].store.rows| && idx[k] < |Logical(p.sessions, p.layers[l], o)|
            && r.layers[l].store.rows[row] == Logical(p.sessions, p.layers[l], o)[idx[k]])
  {
    var ids := History(p.layers[l], o, idx);
    var gs := Toks(p.sessions, o, ids);
    EnsureLegal(p, o, l, idx);
    var q := BeforeRecall(p, o, l, gs);
    var r := EnsureAt(q.layers[l], gs, p.cfg.limit);
    EnsureInv(p, o, l, idx);
    EnsureStoreOK(q.cfg, q.sessions, q.layers[l], q.writes, l, o, ids, p.cfg.limit);
    HistoryToks(q.cfg, q.sessions, q.layers[l], o, idx) by { assert LayerInv(q.cfg, q.sessions, q.layers[l], q.writes, l); }
    assert ViewOK(q.cfg, q.sessions[o], q.layers[l].views[o]) by { assert LayerInv(q.cfg, q.sessions, q.layers[l], q.writes, l); }
    hide Inv;
    hide RecallReady;
    hide EnsureRows;
    assert Logical(p.sessions, r, o) == Logical(p.sessions, p.layers[l], o);
    if idx[k] >= 0 { ReadRow(q.cfg, q.sessions, q.layers[l], r, o, idx, gs, k); }
  }

  lemma ReadRow(cfg: Config, ss: map<nat, Session>, a: Layer, b: Layer, o: nat, idx: seq<int>, gs: seq<int>, k: nat)
    requires k < |idx| && 0 <= idx[k] && o in a.views && idx[k] < a.views[o].written
    requires Shaped(a.store) && SameShape(b.store, a.store) && HostIds(a.store, gs) && Recalled(a.store, b.store, gs, a.arena)
    requires StoreOK(cfg, b) && CandidateOK(cfg, b) && b.views == a.views && b.arena == a.arena
    requires |a.views[o].tail| == a.views[o].written - HostEnd(a.views[o])
    requires forall i: nat :: Backed(a, o, i) && i in idx ==> Tok(ss, o, i) in gs
    ensures var row := PhysicalRows(cfg, ss, b, o, idx)[k];
      1 <= row < |b.store.rows| && b.store.rows[row] == Logical(ss, b, o)[idx[k]]
  {
    hide Copies;
    hide Ages;
    hide MapsAgree;
    hide Recalled;
    hide CandidateOK;
    hide StoreOK;
    hide Tok;
    var end := HostEnd(a.views[o]);
    var i: nat := idx[k];
    if i < end {
      assert Backed(a, o, i) && i in idx;
      ReadHistory(cfg, ss, a, b, o, gs, i);
    } else {
      ReadSuffix(cfg, ss, b, o, i - end);
    }
  }

  lemma ReadHistory(cfg: Config, ss: map<nat, Session>, a: Layer, b: Layer, o: nat, gs: seq<int>, i: nat)
    requires Shaped(a.store) && SameShape(b.store, a.store) && HostIds(a.store, gs) && Recalled(a.store, b.store, gs, a.arena)
    requires StoreOK(cfg, b) && b.arena == a.arena && o in b.views && i < HostEnd(b.views[o]) && Tok(ss, o, i) in gs
    ensures var g := Tok(ss, o, i);
      0 <= g < |b.store.h2d| && 1 <= b.store.h2d[g] < |b.store.rows| && b.store.rows[b.store.h2d[g]] == Logical(ss, b, o)[i]
  {
    var g := Tok(ss, o, i);
    var k :| 0 <= k < |gs| && gs[k] == g;
    CopyRead(b.store, b.arena, g);
  }

  lemma ReadSuffix(cfg: Config, ss: map<nat, Session>, ly: Layer, o: nat, j: nat)
    requires CandidateOK(cfg, ly) && o in ly.views && ly.views[o].transientStart.Some? && j < |ly.views[o].tail|
    ensures cfg.slots + 1 + j < |ly.store.rows|
    ensures ly.store.rows[cfg.slots + 1 + j] == Logical(ss, ly, o)[HostEnd(ly.views[o]) + j]
  {
    assert ly.candidate == Some(o);
    assert TailAt(cfg, ly.store, ly.views[o].tail);
  }
}
