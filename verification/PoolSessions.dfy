/** Shrinking and ending histories: truncate, rollback, discard, session admission and release. */
module PoolSessions {
  import opened TokenTypes
  import opened Ranking
  import opened TokenStore
  import opened TokenPool
  import opened PoolWritebacks
  import opened PoolTransactions
  import opened PoolAppend
  import opened PoolRecall
  import opened PoolPrefetch

  // ----- truncation

  /** The host IDs of tokens `len`.. up to the session's capacity. */
  function SuffixToks(ss: map<nat, Session>, o: nat, len: nat): (r: seq<int>)
    requires o in ss && len <= ss[o].capacity
    ensures |r| == ss[o].capacity - len
  {
    Toks(ss, o, Range(len, ss[o].capacity))
  }

  function Dropped(arena: map<int, Record>, gs: seq<int>): map<int, Record> {
    map g | g in arena && g !in gs :: arena[g]
  }

  function FreshView(len: nat): View { View(len, len, len, None, None, []) }

  /** `release_ids` of the suffix, then all cursors at `len`. */
  function TruncateAt(ss: map<nat, Session>, ly: Layer, o: nat, len: nat): Layer
    requires o in ss && len <= ss[o].capacity && Shaped(ly.store) && HostIds(ly.store, SuffixToks(ss, o, len))
  {
    var gs := SuffixToks(ss, o, len);
    ly.(store := Forget(ly.store, gs), proofs := Invalidate(ly.proofs),
        views := ly.views[o := FreshView(len)], arena := Dropped(ly.arena, gs))
  }

  lemma SuffixToksAt(cfg: Config, ss: map<nat, Session>, o: nat, len: nat)
    requires PagesOwned(cfg, ss) && o in ss && len <= ss[o].capacity
    ensures var gs := SuffixToks(ss, o, len);
      && (forall k :: 0 <= k < |gs| ==> 0 <= gs[k] < PAGE_SIZE * cfg.pages)
      && (forall i: nat :: len <= i < ss[o].capacity ==> Tok(ss, o, i) in gs)
      && (forall q, i: nat :: Tok(ss, q, i) in gs && Tok(ss, q, i) != -1 ==> q == o && len <= i < ss[o].capacity)
  {
    hide Tok, PagesOwned;
    var gs, ids := SuffixToks(ss, o, len), Range(len, ss[o].capacity);
    forall k | 0 <= k < |gs| ensures 0 <= gs[k] < PAGE_SIZE * cfg.pages { TokRange(cfg, ss, o, len + k); }
    forall i: nat | len <= i < ss[o].capacity ensures Tok(ss, o, i) in gs {
      assert gs[i - len] == Tok(ss, o, i);
    }
    forall q, i: nat | Tok(ss, q, i) in gs && Tok(ss, q, i) != -1 ensures q == o && len <= i < ss[o].capacity {
      var k :| 0 <= k < |gs| && gs[k] == Tok(ss, q, i);
      TokInjective(cfg, ss, q, i, o, len + k);
    }
  }

  /** After releasing host IDs no row holds them, and everything else is as before. */
  lemma ReleaseKeeps(st: Store, gs: seq<int>, arena: map<int, Record>)
    requires MapsAgree(st) && Copies(st, arena) && Ages(st, {}) && HostIds(st, gs)
    ensures var r := Forget(st, gs); MapsAgree(r) && Copies(r, Dropped(arena, gs)) && Ages(r, {})
  {
    HitsLive(st, gs);
    assert forall k :: 0 <= k < |Hits(st, gs)| ==> Hits(st, gs)[k] in Hits(st, gs);
    EvictKeeps(st, Hits(st, gs), arena);
    ForgetIsEvict(st, gs);
    var r := Evict(st, Hits(st, gs));
    forall s | 1 <= s < |r.d2h| && Live(r, s) ensures r.d2h[s] !in gs {
      assert Live(st, s) && s !in Hits(st, gs);
      forall k | 0 <= k < |gs| ensures gs[k] != r.d2h[s] {
        assert Mapped(st, gs[k]) ==> st.h2d[gs[k]] in Hits(st, gs);
      }
    }
  }

  lemma TruncateArena(cfg: Config, ss: map<nat, Session>, a: Layer, b: Layer, o: nat, len: nat)
    requires PagesOwned(cfg, ss) && ArenaOK(ss, a) && ViewsOK(cfg, ss, a) && o in ss && len <= ss[o].capacity
    requires len <= HostEnd(a.views[o])
    requires b.arena == Dropped(a.arena, SuffixToks(ss, o, len)) && b.views == a.views[o := FreshView(len)]
    ensures ArenaOK(ss, b)
    ensures forall q, i: nat :: Backed(b, q, i) ==> Backed(a, q, i) && Tok(ss, q, i) in a.arena && b.arena[Tok(ss, q, i)] == a.arena[Tok(ss, q, i)]
  {
    SuffixToksAt(cfg, ss, o, len);
    var gs := SuffixToks(ss, o, len);
    forall q, i: nat | Backed(b, q, i)
      ensures Tok(ss, q, i) in b.arena && Backed(a, q, i) && Tok(ss, q, i) in a.arena
      ensures b.arena[Tok(ss, q, i)] == a.arena[Tok(ss, q, i)]
    {
      assert Backed(a, q, i);
      assert ViewOK(cfg, ss[q], a.views[q]);
      TokRange(cfg, ss, q, i);
    }
    forall g | g in b.arena ensures exists q, i: nat :: Backed(b, q, i) && Tok(ss, q, i) == g {
      var q, i: nat :| Backed(a, q, i) && Tok(ss, q, i) == g;
      assert ViewOK(cfg, ss[q], a.views[q]);
      assert Backed(b, q, i);
    }
  }

  lemma TruncateLegal(cfg: Config, ss: map<nat, Session>, ly: Layer, o: nat, len: nat)
    requires PagesOwned(cfg, ss) && StoreOK(cfg, ly) && ViewsOK(cfg, ss, ly) && o in ss && o in ly.views
    requires len <= ly.views[o].length
    ensures len <= ss[o].capacity && Shaped(ly.store) && HostIds(ly.store, SuffixToks(ss, o, len))
  {
    assert ViewOK(cfg, ss[o], ly.views[o]);
    SuffixToksAt(cfg, ss, o, len);
  }

  lemma TruncateStore(cfg: Config, ss: map<nat, Session>, ly: Layer, o: nat, len: nat)
    requires StoreOK(cfg, ly) && ViewsOK(cfg, ss, ly) && CandidateOK(cfg, ly) && o in ss && o in ly.views && ly.pending.None?
    requires ly.views[o].transientStart.None? && len <= ss[o].capacity && HostIds(ly.store, SuffixToks(ss, o, len))
    ensures var r := TruncateAt(ss, ly, o, len); StoreOK(cfg, r) && ViewsOK(cfg, ss, r) && CandidateOK(cfg, r)
  {
    assert Claimed(ly) == {};
    ReleaseKeeps(ly.store, SuffixToks(ss, o, len), ly.arena);
    hide MapsAgree;
    hide Copies;
    hide Ages;
    hide Forget;
    hide SuffixToks;
    var r := TruncateAt(ss, ly, o, len);
    assert Claimed(r) == {};
    if ly.candidate.Some? {
      assert TailAt(cfg, ly.store, ly.views[ly.candidate.value].tail);
      assert TailAt(cfg, r.store, ly.views[ly.candidate.value].tail);
    }
  }

  lemma TruncateInv(cfg: Config, ss: map<nat, Session>, ly: Layer, l: nat, o: nat, len: nat)
    requires PagesOwned(cfg, ss) && LayerInv(cfg, ss, ly, [], l) && o in ss && o in ly.views && ly.pending.None?
    requires ly.views[o].transientStart.None? && len <= ly.views[o].length
    requires len <= ss[o].capacity && Shaped(ly.store) && HostIds(ly.store, SuffixToks(ss, o, len))
    ensures LayerInv(cfg, ss, TruncateAt(ss, ly, o, len), [], l)
  {
    assert ViewOK(cfg, ss[o], ly.views[o]);
    hide StoreOK;
    hide ViewsOK;
    hide CandidateOK;
    hide HostOK;
    hide ArenaOK;
    hide SuffixToks;
    hide Forget;
    hide HostIds;
    var r := TruncateAt(ss, ly, o, len);
    TruncateStore(cfg, ss, ly, o, len);
    TruncateArena(cfg, ss, ly, r, o, len);
    TruncateHost(cfg, ss, ly, r, l);
  }

  lemma TruncateHost(cfg: Config, ss: map<nat, Session>, a: Layer, b: Layer, l: nat)
    requires HostOK(ss, a, [], l) && b.host == a.host && ArenaOK(ss, b)
    requires forall q, i: nat :: Backed(b, q, i) ==> Backed(a, q, i) && Tok(ss, q, i) in a.arena && Tok(ss, q, i) in b.arena && b.arena[Tok(ss, q, i)] == a.arena[Tok(ss, q, i)]
    ensures HostOK(ss, b, [], l)
  {
    forall q, i: nat | Backed(b, q, i) ensures HostHolds(ss, b, q, i) {
      assert HostHolds(ss, a, q, i) || InFlight([], l, q, i);
    }
  }

  lemma TruncateMeaning(cfg: Config, ss: map<nat, Session>, a: Layer, b: Layer, o: nat, len: nat)
    requires PagesOwned(cfg, ss) && ArenaOK(ss, a) && ViewsOK(cfg, ss, a) && o in ss && len <= ss[o].capacity
    requires len <= HostEnd(a.views[o])
    requires b.arena == Dropped(a.arena, SuffixToks(ss, o, len)) && b.views == a.views[o := FreshView(len)]
    ensures Logical(ss, b, o) == Logical(ss, a, o)[..len]
    ensures forall q :: q in a.views && q != o ==> q in b.views && Logical(ss, b, q) == Logical(ss, a, q)
  {
    TruncateArena(cfg, ss, a, b, o, len);
    hide ArenaOK;
    hide ViewsOK;
    hide PagesOwned;
    hide Dropped;
    hide SuffixToks;
    CutLogical(ss, a, b, o, len);
  }

  lemma CutLogical(ss: map<nat, Session>, a: Layer, b: Layer, o: nat, len: nat)
    requires o in a.views && b.views == a.views[o := FreshView(len)] && len <= HostEnd(a.views[o])
    requires forall q, i: nat :: Backed(b, q, i) ==> Tok(ss, q, i) in a.arena && Tok(ss, q, i) in b.arena && b.arena[Tok(ss, q, i)] == a.arena[Tok(ss, q, i)]
    ensures Logical(ss, b, o) == Logical(ss, a, o)[..len]
    ensures forall q :: q in a.views && q != o ==> q in b.views && Logical(ss, b, q) == Logical(ss, a, q)
  {
    assert forall q, i: nat :: Backed(b, q, i) ==> Entry(ss, b, q, i) == Entry(ss, a, q, i);
    hide Entry;
    forall q | q in a.views && q != o ensures Logical(ss, b, q) == Logical(ss, a, q) {
      assert forall i: nat :: i < HostEnd(b.views[q]) ==> Backed(b, q, i);
      LogicalSame(ss, a, b, q);
    }
    assert forall i: nat :: i < len ==> Backed(b, o, i);
  }

  // ----- truncate and rollback of a session's layer

  predicate CanTruncate(p: Pool, o: nat, l: nat, len: nat) {
    && Exists(p, o, l)
    && p.layers[l].views[o].stepEnd.None? && len <= p.layers[l].views[o].length
    && LeaseFree(p, o, l)
  }

  /** A persistent step of the session is open on the layer. */
  predicate InStep(p: Pool, o: nat, l: nat) {
    && Exists(p, o, l)
    && p.layers[l].views[o].stepEnd.Some? && p.layers[l].views[o].transientStart.None?
  }

  /** A persistent step is open, and the lease its truncation takes is free. */
  predicate CanRollback(p: Pool, o: nat, l: nat) {
    InStep(p, o, l) && LeaseFree(p, o, l)
  }

  /** The session itself has prepared a prefetch on the layer. */
  predicate OwnPrefetch(p: Pool, o: nat, l: nat)
    requires l < |p.layers|
  {
    p.layers[l].pending.Some? && p.layers[l].pending.value.owner == o
  }

  /** Forget that a step is open, and nothing else: what a rollback has done when its truncation is refused. */
  function Abandon(p: Pool, o: nat, l: nat): Pool
    requires Exists(p, o, l)
  {
    SetLayer(p, l, p.layers[l].(views := p.layers[l].views[o := p.layers[l].views[o].(stepEnd := None)]))
  }

  /** Abandoning a step in which nothing was written is harmless. */
  lemma AbandonInv(p: Pool, o: nat, l: nat)
    requires Inv(p) && InStep(p, o, l) && p.writes == [] && !OwnPrefetch(p, o, l)
    requires p.layers[l].views[o].written == p.layers[l].views[o].length
    ensures Inv(Abandon(p, o, l))
  {
    var ly := p.layers[l];
    assert LayerInv(p.cfg, p.sessions, ly, p.writes, l);
    assert ViewOK(p.cfg, p.sessions[o], ly.views[o]);
    var v := ly.views[o].(stepEnd := None);
    hide HostOK, ArenaOK, ProofsOK, PlanOK, TicketsOK, MapsAgree, Ages, Copies;
    ViewChange(p.cfg, p.sessions, ly, p.writes, l, o, v);
    hide LayerInv;
    LayerStepInv(p, l, ly.(views := ly.views[o := v]));
  }

  /** Abandoning a step in which something was written leaves tokens that belong to no history and no step. */
  lemma AbandonBreaks(p: Pool, o: nat, l: nat)
    requires InStep(p, o, l) && p.layers[l].views[o].length < p.layers[l].views[o].written
    ensures !Inv(Abandon(p, o, l))
  {
    var r := Abandon(p, o, l);
    if Inv(r) {
      hide Inv;
      InvView(r, o, l);
    }
  }

  lemma InvView(p: Pool, o: nat, l: nat)
    requires Inv(p) && Exists(p, o, l)
    ensures ViewOK(p.cfg, p.sessions[o], p.layers[l].views[o])
  {
    assert LayerInv(p.cfg, p.sessions, p.layers[l], p.writes, l);
  }

  /** Close a prepared prefetch of the layer, if there is one. */
  function CloseAt(ly: Layer, limit: Option<nat>): (r: Layer)
    requires Shaped(ly.store)
    ensures SameShape(r.store, ly.store)
  {
    if ly.pending.Some? then FinalizeAt(ly, limit) else ly
  }

  lemma CloseInv(cfg: Config, ss: map<nat, Session>, ly: Layer, ws: seq<Ticket>, l: nat, limit: Option<nat>)
    requires LayerInv(cfg, ss, ly, ws, l)
    ensures LayerInv(cfg, ss, CloseAt(ly, limit), ws, l)
    ensures var r := CloseAt(ly, limit);
      && r.views == ly.views && r.arena == ly.arena && r.pending.None? && r.host == ly.host && r.candidate == ly.candidate && r.proofs.lease == ly.proofs.lease
  {
    if ly.pending.Some? { FinalizeInv(cfg, ss, ly, ws, l, limit); }
  }

  /** No transient suffix is open, the lease is free, and `len` lies in the committed history. */
  ghost predicate CanCut(p: Pool, o: nat, l: nat, len: nat) {
    && Inv(p) && Exists(p, o, l) && LeaseFree(p, o, l)
    && p.layers[l].views[o].transientStart.None? && len <= p.layers[l].views[o].length
  }

  /** One sequence is cut to its prefix, the others stay, and nothing is in flight. */
  ghost predicate CutDone(p: Pool, r: Pool, o: nat, l: nat, len: nat) {
    && Inv(r) && r.writes == [] && l < |r.layers| == |p.layers| && r.sessions == p.sessions
    && o in p.layers[l].views && r.layers[l].views == p.layers[l].views[o := FreshView(len)]
    && len <= |Logical(p.sessions, p.layers[l], o)|
    && Logical(r.sessions, r.layers[l], o) == Logical(p.sessions, p.layers[l], o)[..len]
    && SameLogicalBut(p, r, l, o)
  }

  /** The session's page table names a legal host ID for every token from `len` on. */
  predicate Cuttable(ss: map<nat, Session>, ly: Layer, o: nat, len: nat) {
    o in ss && len <= ss[o].capacity && Shaped(ly.store) && HostIds(ly.store, SuffixToks(ss, o, len))
  }

  /** Drain, close a prefetch, take the lease, drop every token from `len` on. */
  ghost function CutTo(p: Pool, o: nat, l: nat, len: nat): Pool {
    if !Sane(p) || l >= |p.layers| then p
    else
      var q := Drain(p);
      var ly := LeaseTo(CloseAt(q.layers[l], q.cfg.limit), o);
      if Cuttable(q.sessions, ly, o, len) then SetLayer(q, l, TruncateAt(q.sessions, ly, o, len)) else q
  }

  lemma CutLegal(p: Pool, o: nat, l: nat, len: nat)
    requires CanCut(p, o, l, len)
    ensures Sane(p) && l < |Drain(p).layers| && Shaped(Drain(p).layers[l].store)
    ensures var q := Drain(p); var ly := LeaseTo(CloseAt(q.layers[l], q.cfg.limit), o);
      && Inv(q) && LayerInv(q.cfg, q.sessions, ly, [], l) && PagesOwned(q.cfg, q.sessions)
      && ly.views == p.layers[l].views && ly.arena == p.layers[l].arena && ly.pending.None? && ly.proofs.lease == Some(o)
      && Cuttable(q.sessions, ly, o, len)
  {
    hide Inv, LayerInv, PagesOwned, FinalizeAt, CloseAt, Cuttable;
    InvSane(p);
    InvLayer(p, l);
    DrainInv(p);
    var q := Drain(p);
    InvLayer(q, l);
    CloseInv(q.cfg, q.sessions, q.layers[l], [], l, q.cfg.limit);
    LeaseToInv(q.cfg, q.sessions, CloseAt(q.layers[l], q.cfg.limit), [], l, o);
    CutShape(q.cfg, q.sessions, LeaseTo(CloseAt(q.layers[l], q.cfg.limit), o), l, o, len);
  }

  lemma InvLayer(p: Pool, l: nat)
    requires Inv(p) && l < |p.layers|
    ensures LayerInv(p.cfg, p.sessions, p.layers[l], p.writes, l) && PagesOwned(p.cfg, p.sessions)
    ensures InLayers(p) && p.cfg.maxWrites >= 1 && Shaped(p.layers[l].store)
    ensures p.layers[l].pending.Some? ==> p.layers[l].proofs.lease == Some(p.layers[l].pending.value.owner)
  {
  }

  lemma CutShape(cfg: Config, ss: map<nat, Session>, ly: Layer, l: nat, o: nat, len: nat)
    requires PagesOwned(cfg, ss) && LayerInv(cfg, ss, ly, [], l) && o in ss && o in ly.views && len <= ly.views[o].length
    ensures len <= ss[o].capacity && Shaped(ly.store) && HostIds(ly.store, SuffixToks(ss, o, len)) && Cuttable(ss, ly, o, len)
  {
    TruncateLegal(cfg, ss, ly, o, len);
  }

  /** Truncation and rollback keep the invariant and cut exactly one sequence to its prefix. */
  lemma CutToInv(p: Pool, o: nat, l: nat, len: nat)
    requires CanCut(p, o, l, len)
    ensures CutDone(p, CutTo(p, o, l, len), o, l, len)
  {
    hide Inv, LayerInv, HostIds, CloseAt, LeaseTo, SameLogicalBut, PagesOwned, SuffixToks, Drain, Logical;
    CutLegal(p, o, l, len);
    var q := Drain(p);
    var ly := LeaseTo(CloseAt(q.layers[l], q.cfg.limit), o);
    TruncateInv(q.cfg, q.sessions, ly, l, o, len);
    var r := TruncateAt(q.sessions, ly, o, len);
    CutStep(p, q, ly, r, o, l, len);
  }

  lemma CutStep(p: Pool, q: Pool, ly: Layer, r: Layer, o: nat, l: nat, len: nat)
    requires Inv(q) && Exists(q, o, l) && OnlyHost(p, q) && q.writes == []
    requires q.active.Some? ==> q.active == Some((o, l))
    requires LayerInv(q.cfg, q.sessions, ly, [], l) && LayerInv(q.cfg, q.sessions, r, [], l) && PagesOwned(q.cfg, q.sessions)
    requires ly.views == p.layers[l].views && ly.arena == p.layers[l].arena && ly.views[o].transientStart.None?
    requires len <= q.sessions[o].capacity && len <= ly.views[o].length
    requires r.pending.None? && r.proofs.lease == Some(o)
    requires r.arena == Dropped(ly.arena, SuffixToks(q.sessions, o, len)) && r.views == ly.views[o := FreshView(len)]
    ensures Inv(SetLayer(q, l, r))
    ensures len <= |Logical(p.sessions, p.layers[l], o)|
    ensures Logical(q.sessions, r, o) == Logical(p.sessions, p.layers[l], o)[..len]
    ensures SameLogicalBut(p, SetLayer(q, l, r), l, o)
  {
    hide LayerInv;
    LayerStepInv(q, l, r);
    hide Inv;
    CutMeaning(p, q, ly, r, o, l, len);
  }

  lemma CutMeaning(p: Pool, q: Pool, ly: Layer, r: Layer, o: nat, l: nat, len: nat)
    requires l < |p.layers| && o in p.layers[l].views && o in q.sessions && OnlyHost(p, q)
    requires LayerInv(q.cfg, q.sessions, ly, [], l) && PagesOwned(q.cfg, q.sessions)
    requires ly.views == p.layers[l].views && ly.arena == p.layers[l].arena && ly.views[o].transientStart.None?
    requires len <= q.sessions[o].capacity && len <= ly.views[o].length
    requires r.arena == Dropped(ly.arena, SuffixToks(q.sessions, o, len)) && r.views == ly.views[o := FreshView(len)]
    ensures len <= |Logical(p.sessions, p.layers[l], o)|
    ensures Logical(q.sessions, r, o) == Logical(p.sessions, p.layers[l], o)[..len]
    ensures SameLogicalBut(p, SetLayer(q, l, r), l, o)
  {
    assert ViewOK(q.cfg, q.sessions[o], ly.views[o]);
    assert ArenaOK(q.sessions, ly) && ViewsOK(q.cfg, q.sessions, ly);
    hide LayerInv;
    hide ArenaOK;
    hide ViewsOK;
    hide Dropped;
    hide SuffixToks;
    TruncateMeaning(q.cfg, q.sessions, ly, r, o, len);
    hide PagesOwned;
    LogicalSame(p.sessions, p.layers[l], ly, o);
    CutOthers(p, q, ly, r, o, l);
  }

  lemma CutOthers(p: Pool, q: Pool, ly: Layer, r: Layer, o: nat, l: nat)
    requires l < |p.layers| && OnlyHost(p, q) && ly.views == p.layers[l].views && ly.arena == p.layers[l].arena
    requires forall x :: x in ly.views && x != o ==> x in r.views && Logical(q.sessions, r, x) == Logical(q.sessions, ly, x)
    ensures SameLogicalBut(p, SetLayer(q, l, r), l, o)
  {
    forall m, x | 0 <= m < |p.layers| && x in p.layers[m].views && (m != l || x != o)
      ensures x in SetLayer(q, l, r).layers[m].views
      ensures Logical(q.sessions, SetLayer(q, l, r).layers[m], x) == Logical(p.sessions, p.layers[m], x)
    {
      if m == l {
        LogicalSame(p.sessions, p.layers[l], ly, x);
      } else {
        LogicalSame(p.sessions, p.layers[m], q.layers[m], x);
      }
    }
  }

  // ----- discarding a transient suffix

  predicate CanDiscard(p: Pool, o: nat, l: nat) {
    && Exists(p, o, l) && p.layers[l].views[o].transientStart.Some? && p.layers[l].candidate == Some(o) && LeaseFree(p, o, l)
  }

  function DiscardAt(ly: Layer, o: nat): Layer
    requires o in ly.views
  {
    ly.(candidate := None, views := ly.views[o := FreshView(ly.views[o].length)])
  }

  /** Drain, close a prefetch, take the lease, give the candidate rows back. */
  ghost function Discard(p: Pool, o: nat, l: nat): Pool {
    if !Sane(p) || !Exists(p, o, l) then p
    else
      var q := Drain(p);
      SetLayer(q, l, DiscardAt(LeaseTo(CloseAt(q.layers[l], q.cfg.limit), o), o))
  }

  lemma DiscardLayer(cfg: Config, ss: map<nat, Session>, ly: Layer, l: nat, o: nat)
    requires LayerInv(cfg, ss, ly, [], l) && o in ss && o in ly.views && ly.views[o].transientStart.Some? && ly.pending.None?
    ensures LayerInv(cfg, ss, DiscardAt(ly, o), [], l)
    ensures ly.views[o].length <= |Logical(ss, ly, o)|
    ensures Logical(ss, DiscardAt(ly, o), o) == Logical(ss, ly, o)[..ly.views[o].length]
  {
    hide HostOK;
    hide ArenaOK;
    hide ProofsOK;
    hide PlanOK;
    hide TicketsOK;
    hide MapsAgree;
    hide Ages;
    hide Copies;
    assert ViewOK(cfg, ss[o], ly.views[o]);
    var r := DiscardAt(ly, o);
    CandidateChange(cfg, ss, ly, [], l, o, r.views[o], None);
    assert forall i: nat :: Entry(ss, r, o, i) == Entry(ss, ly, o, i);
  }

  /** Discarding a suffix returns the session to exactly its committed history. */
  lemma DiscardInv(p: Pool, o: nat, l: nat)
    requires Inv(p) && CanDiscard(p, o, l)
    ensures CutDone(p, Discard(p, o, l), o, l, p.layers[l].views[o].length)
  {
    InvSane(p);
    hide Inv, LayerInv, PagesOwned, LeaseTo, DiscardAt, CutDone, FinalizeAt, CloseAt, SameLogicalBut, Logical;
    InvLayer(p, l);
    DrainInv(p);
    var q := Drain(p);
    InvLayer(q, l);
    CloseInv(q.cfg, q.sessions, q.layers[l], [], l, q.cfg.limit);
    LeaseToInv(q.cfg, q.sessions, CloseAt(q.layers[l], q.cfg.limit), [], l, o);
    DiscardLeased(p, q, CloseAt(q.layers[l], q.cfg.limit), o, l);
  }

  lemma DiscardLeased(p: Pool, q: Pool, c: Layer, o: nat, l: nat)
    requires Inv(q) && Exists(p, o, l) && Exists(q, o, l) && OnlyHost(p, q) && q.writes == [] && LeaseFree(p, o, l)
    requires p.layers[l].views[o].transientStart.Some? && LayerInv(q.cfg, q.sessions, LeaseTo(c, o), [], l)
    requires c.views == q.layers[l].views && c.arena == q.layers[l].arena && c.pending.None?
    ensures CutDone(p, SetLayer(q, l, DiscardAt(LeaseTo(c, o), o)), o, l, p.layers[l].views[o].length)
  {
    hide Inv, LayerInv, PagesOwned;
    var ly := LeaseTo(c, o);
    DiscardLayer(q.cfg, q.sessions, ly, l, o);
    var r := DiscardAt(ly, o);
    LogicalSame(p.sessions, p.layers[l], ly, o);
    DiscardOthers(p, q, ly, r, o, l);
    DiscardStep(q, l, r, o);
  }

  lemma DiscardStep(q: Pool, l: nat, r: Layer, o: nat)
    requires Inv(q) && l < |q.layers| && LayerInv(q.cfg, q.sessions, r, q.writes, l)
    requires r.pending.None? && r.proofs.lease == Some(o) && (q.active.Some? ==> q.active == Some((o, l)))
    ensures Inv(SetLayer(q, l, r))
  {
    hide LayerInv;
    LayerStepInv(q, l, r);
  }

  lemma DiscardOthers(p: Pool, q: Pool, ly: Layer, r: Layer, o: nat, l: nat)
    requires l < |p.layers| && OnlyHost(p, q) && ly.views == p.layers[l].views && ly.arena == p.layers[l].arena
    requires o in ly.views && r == DiscardAt(ly, o)
    ensures SameLogicalBut(p, SetLayer(q, l, r), l, o)
  {
    forall x | x in ly.views && x != o ensures Logical(q.sessions, r, x) == Logical(q.sessions, ly, x) {
      LogicalSame(q.sessions, ly, r, x);
    }
    CutOthers(p, q, ly, r, o, l);
  }

  // ----- admission

  predicate CanAllocate(p: Pool, capacity: nat, pages: seq<nat>) {
    && p.active.None? && capacity >= 1 && (p.cfg.dense ==> capacity <= p.cfg.slots)
    && |pages| == PagesFor(capacity)
    && (forall k :: 0 <= k < |pages| ==> pages[k] in p.freePages)
    && (forall j, k :: 0 <= j < k < |pages| ==> pages[j] != pages[k])
  }

  /** Admit a session on pages the allocator picked; its layers start empty. */
  function Allocate(p: Pool, capacity: nat, pages: seq<nat>): Pool {
    var o := p.nextOwner;
    p.(sessions := p.sessions[o := Session(capacity, pages)], nextOwner := o + 1,
       freePages := p.freePages - (set x | x in pages), topology := p.topology + 1,
       layers := seq(|p.layers|, l requires 0 <= l < |p.layers| => p.layers[l].(views := p.layers[l].views[o := FreshView(0)])))
  }

  lemma AllocateLayer(cfg: Config, ss: map<nat, Session>, ss': map<nat, Session>, ly: Layer, ws: seq<Ticket>,
                      l: nat, o: nat, s: Session)
    requires LayerInv(cfg, ss, ly, ws, l) && o !in ss && ss' == ss[o := s] && s.capacity >= 1
    ensures LayerInv(cfg, ss', ly.(views := ly.views[o := FreshView(0)]), ws, l)
  {
    var r := ly.(views := ly.views[o := FreshView(0)]);
    assert forall q, i: nat :: q in ss ==> Tok(ss', q, i) == Tok(ss, q, i);
    assert forall q, i: nat :: Backed(r, q, i) <==> Backed(ly, q, i);
    hide Tok;
    AllocateHost(ss, ss', ly, r, ws, l);
    AllocateTickets(ss, ss', ly, r, ws, l);
    hide HostOK;
    hide ArenaOK;
    hide TicketsOK;
    AllocateProofs(cfg, ss, ss', ly, r);
    hide ProofsOK;
    hide PlanOK;
    hide MapsAgree;
    hide Copies;
    hide Ages;
    assert r.views.Keys == ss'.Keys;
  }

  lemma AllocateHost(ss: map<nat, Session>, ss': map<nat, Session>, a: Layer, b: Layer, ws: seq<Ticket>, l: nat)
    requires ArenaOK(ss, a) && HostOK(ss, a, ws, l) && b.arena == a.arena && b.host == a.host && a.views.Keys == ss.Keys
    requires forall q, i: nat :: q in ss ==> Tok(ss', q, i) == Tok(ss, q, i)
    requires forall q, i: nat :: Backed(b, q, i) <==> Backed(a, q, i)
    ensures ArenaOK(ss', b) && HostOK(ss', b, ws, l)
  {
    hide Tok;
    forall g | g in b.arena ensures exists q, i: nat :: Backed(b, q, i) && Tok(ss', q, i) == g {
      var q, i: nat :| Backed(a, q, i) && Tok(ss, q, i) == g;
      assert Backed(b, q, i) && Tok(ss', q, i) == g;
    }
    forall q, i: nat | Backed(b, q, i) ensures HostHolds(ss', b, q, i) || InFlight(ws, l, q, i) {
      assert Backed(a, q, i);
      assert HostHolds(ss, a, q, i) == HostHolds(ss', b, q, i);
    }
  }

  lemma AllocateTickets(ss: map<nat, Session>, ss': map<nat, Session>, a: Layer, b: Layer, ws: seq<Ticket>, l: nat)
    requires TicketsOK(ss, a, ws, l) && b.arena == a.arena && b.host == a.host && a.views.Keys == ss.Keys
    requires forall q, i: nat :: q in ss ==> Tok(ss', q, i) == Tok(ss, q, i)
    requires forall q :: q in a.views ==> q in b.views && b.views[q] == a.views[q]
    ensures TicketsOK(ss', b, ws, l)
  {
    hide Tok;
    forall k | 0 <= k < |ws| && ws[k].layer == l ensures TicketOK(ss', b, ws[k]) {
      assert TicketOK(ss, a, ws[k]);
      assert forall i: nat :: HostHolds(ss, a, ws[k].owner, i) == HostHolds(ss', b, ws[k].owner, i);
    }
  }

  lemma AllocateProofs(cfg: Config, ss: map<nat, Session>, ss': map<nat, Session>, a: Layer, b: Layer)
    requires ProofsOK(cfg, ss, a) && PlanOK(cfg, ss, a) && b.store == a.store && b.proofs == a.proofs && a.views.Keys == ss.Keys
    requires forall q, i: nat :: q in ss ==> Tok(ss', q, i) == Tok(ss, q, i)
    requires forall q :: q in a.views ==> q in b.views && b.views[q] == a.views[q]
    ensures ProofsOK(cfg, ss', b) && PlanOK(cfg, ss', b)
  {
    hide Tok;
    assert forall q, i: nat, row :: q in ss ==> AtRow(ss', b, q, i, row) == AtRow(ss, a, q, i, row);
    assert forall q, i: nat :: q in ss ==> Direct(ss', b, q, i) == Direct(ss, a, q, i);
    assert forall q, i: nat :: q in ss ==> Resident(ss', b, q, i) == Resident(ss, a, q, i);
  }

  lemma AllocatePages(cfg: Config, ss: map<nat, Session>, ss': map<nat, Session>, free: set<nat>, o: nat, s: Session)
    requires PagesOwned(cfg, ss) && o !in ss && ss' == ss[o := s] && 1 <= s.capacity <= PAGE_SIZE * |s.pages|
    requires forall g :: g in free ==> g < cfg.pages
    requires forall q, k :: q in ss && 0 <= k < |ss[q].pages| ==> ss[q].pages[k] !in free
    requires forall k :: 0 <= k < |s.pages| ==> s.pages[k] in free
    requires forall j, k :: 0 <= j < k < |s.pages| ==> s.pages[j] != s.pages[k]
    ensures PagesOwned(cfg, ss')
    ensures forall q, k :: q in ss' && 0 <= k < |ss'[q].pages| ==> ss'[q].pages[k] !in free - (set x | x in s.pages)
  {
  }

  /** Admission keeps the invariant, starts the session empty and touches no other sequence. */
  lemma AllocateInv(p: Pool, capacity: nat, pages: seq<nat>)
    requires Inv(p) && CanAllocate(p, capacity, pages)
    ensures Inv(Allocate(p, capacity, pages))
    ensures forall l :: 0 <= l < |p.layers| ==>
      Logical(Allocate(p, capacity, pages).sessions, Allocate(p, capacity, pages).layers[l], p.nextOwner) == []
    ensures SameLogical(p, Allocate(p, capacity, pages))
  {
    var r, o, s := Allocate(p, capacity, pages), p.nextOwner, Session(capacity, pages);
    assert o !in p.sessions;
    AllocatePages(p.cfg, p.sessions, r.sessions, p.freePages, o, s);
    forall l | 0 <= l < |r.layers| ensures LayerInv(r.cfg, r.sessions, r.layers[l], r.writes, l) {
      AllocateLayer(p.cfg, p.sessions, r.sessions, p.layers[l], p.writes, l, o, s);
    }
    forall l, q | 0 <= l < |p.layers| && q in p.layers[l].views
      ensures q in r.layers[l].views && Logical(r.sessions, r.layers[l], q) == Logical(p.sessions, p.layers[l], q)
    {
      assert LayerInv(p.cfg, p.sessions, p.layers[l], p.writes, l);
      LogicalAcross(p.sessions, r.sessions, p.layers[l], r.layers[l], q);
    }
    hide LayerInv;
    hide PagesOwned;
  }

  /** A sequence depends only on its own session's page table and view. */
  lemma LogicalAcross(ss: map<nat, Session>, ss': map<nat, Session>, a: Layer, b: Layer, q: nat)
    requires q in a.views && q in b.views && b.views[q] == a.views[q] && b.arena == a.arena
    requires q in ss && q in ss' && ss'[q] == ss[q]
    ensures Logical(ss', b, q) == Logical(ss, a, q)
  {
    assert forall i: nat :: Tok(ss', q, i) == Tok(ss, q, i);
    hide Tok;
    assert forall i: nat :: Entry(ss', b, q, i) == Entry(ss, a, q, i);
    hide Entry;
  }

  // ----- release

  predicate CanRelease(p: Pool, o: nat) {
    && o in p.sessions && p.active.None?
    && (forall l :: 0 <= l < |p.layers| && p.layers[l].pending.Some? ==> p.layers[l].pending.value.owner == o)
  }

  function SettledAt(ly: Layer, o: nat, limit: Option<nat>): (r: Layer)
    requires o in ly.views && Shaped(ly.store)
    ensures SameShape(r.store, ly.store) && o in r.views
  {
    var c := CloseAt(ly, limit);
    if c.views[o].transientStart.Some? then DiscardAt(LeaseTo(c, o), o) else c
  }

  lemma SettledInv(cfg: Config, ss: map<nat, Session>, ly: Layer, l: nat, o: nat, limit: Option<nat>)
    requires LayerInv(cfg, ss, ly, [], l) && o in ss && o in ly.views
    ensures LayerInv(cfg, ss, SettledAt(ly, o, limit), [], l)
    ensures var r := SettledAt(ly, o, limit);
      && r.pending.None? && o in r.views && r.views[o].transientStart.None? && r.arena == ly.arena
      && (forall q :: q in ly.views && q != o ==> q in r.views && r.views[q] == ly.views[q])
  {
    ReleasedShape(cfg, ss, ly, l, o);
    hide LayerInv;
    CloseInv(cfg, ss, ly, [], l, limit);
    ReleasedShape(cfg, ss, CloseAt(ly, limit), l, o);
    var c := CloseAt(ly, limit);
    hide CloseAt;
    if c.views[o].transientStart.Some? { SettledDiscard(cfg, ss, c, l, o); }
  }

  lemma SettledDiscard(cfg: Config, ss: map<nat, Session>, c: Layer, l: nat, o: nat)
    requires LayerInv(cfg, ss, c, [], l) && o in ss && o in c.views && c.views[o].transientStart.Some? && c.pending.None?
    ensures LayerInv(cfg, ss, DiscardAt(LeaseTo(c, o), o), [], l)
  {
    LeaseToInv(cfg, ss, c, [], l, o);
    hide LayerInv;
    DiscardLayer(cfg, ss, LeaseTo(c, o), l, o);
  }

  function DropView(ly: Layer, o: nat): Layer { ly.(views := ly.views - {o}) }

  lemma DropViewInv(cfg: Config, ss: map<nat, Session>, ly: Layer, l: nat, o: nat)
    requires LayerInv(cfg, ss, ly, [], l) && o in ss && o in ly.views && ly.views[o] == FreshView(0)
    requires ly.pending.None? && ly.proofs.residentOwner.None? && ly.proofs.appendOwner.None? && ly.proofs.denseOwner.None?
    ensures LayerInv(cfg, ss - {o}, DropView(ly, o), [], l)
  {
    var r, ss' := DropView(ly, o), ss - {o};
    assert forall q, i: nat :: q in ss' ==> Tok(ss', q, i) == Tok(ss, q, i);
    assert forall q, i: nat :: Backed(r, q, i) <==> Backed(ly, q, i);
    hide Tok;
    DropHost(ss, ss', ly, r, l);
    hide HostOK;
    hide ArenaOK;
    hide MapsAgree;
    hide Copies;
    hide Ages;
    assert r.views.Keys == ss'.Keys;
    assert ly.candidate != Some(o);
  }

  lemma DropHost(ss: map<nat, Session>, ss': map<nat, Session>, a: Layer, b: Layer, l: nat)
    requires ArenaOK(ss, a) && HostOK(ss, a, [], l) && b.arena == a.arena && b.host == a.host && b.views.Keys == ss'.Keys
    requires forall q, i: nat :: q in ss' ==> Tok(ss', q, i) == Tok(ss, q, i)
    requires forall q, i: nat :: Backed(b, q, i) <==> Backed(a, q, i)
    ensures ArenaOK(ss', b) && HostOK(ss', b, [], l)
  {
    hide Tok;
    forall g | g in b.arena ensures exists q, i: nat :: Backed(b, q, i) && Tok(ss', q, i) == g {
      var q, i: nat :| Backed(a, q, i) && Tok(ss, q, i) == g;
      assert Backed(b, q, i) && Tok(ss', q, i) == g;
    }
    forall q, i: nat | Backed(b, q, i) ensures HostHolds(ss', b, q, i) || InFlight([], l, q, i) {
      assert Backed(a, q, i);
      assert HostHolds(ss, a, q, i) == HostHolds(ss', b, q, i);
    }
  }

  function ReleasedAt(ss: map<nat, Session>, ly: Layer, o: nat, limit: Option<nat>): Layer
    requires o in ly.views && Shaped(ly.store)
  {
    var s := SettledAt(ly, o, limit);
    DropView(if Cuttable(ss, s, o, 0) then TruncateAt(ss, s, o, 0) else s, o)
  }

  /** The release of `o` keeps the sequence of `q`. */
  ghost predicate KeptBy(ss: map<nat, Session>, o: nat, a: Layer, b: Layer, q: nat) {
    q in a.views && q in b.views && Logical(ss - {o}, b, q) == Logical(ss, a, q)
  }

  lemma ReleasedInv(cfg: Config, ss: map<nat, Session>, ly: Layer, l: nat, o: nat, limit: Option<nat>)
    requires PagesOwned(cfg, ss) && LayerInv(cfg, ss, ly, [], l) && o in ss && o in ly.views
    ensures Shaped(ly.store)
    ensures var r := ReleasedAt(ss, ly, o, limit); LayerInv(cfg, ss - {o}, r, [], l) && r.pending.None?
    ensures forall q :: q in ly.views && q != o ==> KeptBy(ss, o, ly, ReleasedAt(ss, ly, o, limit), q)
  {
    ReleasedShape(cfg, ss, ly, l, o);
    hide LayerInv, TruncateAt, HostIds, SuffixToks, Logical, PagesOwned, KeptBy, DropView;
    SettledInv(cfg, ss, ly, l, o, limit);
    var s := SettledAt(ly, o, limit);
    hide SettledAt;
    CutShape(cfg, ss, s, l, o, 0);
    TruncateInv(cfg, ss, s, l, o, 0);
    DroppedInv(cfg, ss, ly, s, TruncateAt(ss, s, o, 0), l, o);
  }

  lemma DroppedInv(cfg: Config, ss: map<nat, Session>, ly: Layer, s: Layer, t: Layer, l: nat, o: nat)
    requires PagesOwned(cfg, ss) && LayerInv(cfg, ss, s, [], l) && LayerInv(cfg, ss, t, [], l) && o in ss && o in s.views
    requires Cuttable(ss, s, o, 0) && t == TruncateAt(ss, s, o, 0) && s.pending.None? && s.arena == ly.arena
    requires forall q :: q in ly.views && q != o ==> q in s.views && s.views[q] == ly.views[q]
    ensures LayerInv(cfg, ss - {o}, DropView(t, o), [], l) && DropView(t, o).pending.None?
    ensures forall q :: q in ly.views && q != o ==> KeptBy(ss, o, ly, DropView(t, o), q)
  {
    hide LayerInv, HostIds, SuffixToks, Logical, PagesOwned, Forget;
    DropViewInv(cfg, ss, t, l, o);
    LayerSpec(cfg, ss, s, [], l);
    ReleasedMeaning(cfg, ss, ly, s, t, l, o);
  }

  lemma LayerSpec(cfg: Config, ss: map<nat, Session>, ly: Layer, ws: seq<Ticket>, l: nat)
    requires LayerInv(cfg, ss, ly, ws, l)
    ensures ArenaOK(ss, ly) && ViewsOK(cfg, ss, ly) && ly.views.Keys == ss.Keys
  {
  }

  lemma ReleasedShape(cfg: Config, ss: map<nat, Session>, ly: Layer, l: nat, o: nat)
    requires LayerInv(cfg, ss, ly, [], l)
    ensures Shaped(ly.store)
  {
  }

  lemma ReleasedMeaning(cfg: Config, ss: map<nat, Session>, ly: Layer, s: Layer, t: Layer, l: nat, o: nat)
    requires PagesOwned(cfg, ss) && ArenaOK(ss, s) && ViewsOK(cfg, ss, s) && o in ss && s.views.Keys == ss.Keys
    requires s.arena == ly.arena
    requires forall q :: q in ly.views && q != o ==> q in s.views && s.views[q] == ly.views[q]
    requires t.arena == Dropped(s.arena, SuffixToks(ss, o, 0)) && t.views == s.views[o := FreshView(0)]
    ensures forall q :: q in ly.views && q != o ==> q in DropView(t, o).views && Logical(ss - {o}, DropView(t, o), q) == Logical(ss, ly, q)
  {
    hide ArenaOK;
    hide ViewsOK;
    hide Dropped;
    hide SuffixToks;
    hide Logical;
    hide PagesOwned;
    TruncateMeaning(cfg, ss, s, t, o, 0);
    forall q | q in ly.views && q != o ensures Logical(ss - {o}, DropView(t, o), q) == Logical(ss, ly, q) {
      LogicalAcross(ss, ss, s, ly, q);
      LogicalAcross(ss, ss - {o}, t, DropView(t, o), q);
    }
  }

  predicate Everywhere(p: Pool, o: nat) {
    o in p.sessions && forall l :: 0 <= l < |p.layers| ==> o in p.layers[l].views
  }

  /** Drain, settle every layer of the session, forget its tokens, return its pages. */
  ghost function Release(p: Pool, o: nat): Pool {
    if !Sane(p) || !Everywhere(p, o) then p
    else
      var q := Drain(p);
      q.(sessions := q.sessions - {o}, freePages := q.freePages + (set x | x in q.sessions[o].pages), topology := q.topology + 1,
         layers := seq(|q.layers|, l requires 0 <= l < |q.layers| => ReleasedAt(q.sessions, q.layers[l], o, q.cfg.limit)))
  }

  lemma ReleaseLegal(p: Pool, o: nat)
    requires Inv(p) && CanRelease(p, o)
    ensures Sane(p) && Everywhere(p, o) && Inv(Drain(p))
    ensures var q := Drain(p); forall l :: 0 <= l < |q.layers| ==>
      var r := ReleasedAt(q.sessions, q.layers[l], o, q.cfg.limit);
      LayerInv(q.cfg, q.sessions - {o}, r, [], l) && r.pending.None?
      && (forall x :: x in q.layers[l].views && x != o ==> KeptBy(q.sessions, o, q.layers[l], r, x))
  {
    InvSane(p);
    DrainInv(p);
    var q := Drain(p);
    forall l | 0 <= l < |q.layers|
      ensures o in q.layers[l].views && LayerInv(q.cfg, q.sessions, q.layers[l], [], l) && PagesOwned(q.cfg, q.sessions)
    {
    }
    assert forall l :: 0 <= l < |q.layers| ==> p.layers[l].views == q.layers[l].views;
    hide Inv, LayerInv, PagesOwned, ReleasedAt, KeptBy;
    forall l | 0 <= l < |q.layers|
      ensures var r := ReleasedAt(q.sessions, q.layers[l], o, q.cfg.limit);
        LayerInv(q.cfg, q.sessions - {o}, r, [], l) && r.pending.None?
        && (forall x :: x in q.layers[l].views && x != o ==> KeptBy(q.sessions, o, q.layers[l], r, x))
    {
      ReleasedInv(q.cfg, q.sessions, q.layers[l], l, o, q.cfg.limit);
    }
  }

  lemma ReleasePages(cfg: Config, ss: map<nat, Session>, free: set<nat>, o: nat)
    requires PagesOwned(cfg, ss) && o in ss
    requires forall g :: g in free ==> g < cfg.pages
    requires forall q, k :: q in ss && 0 <= k < |ss[q].pages| ==> ss[q].pages[k] !in free
    ensures PagesOwned(cfg, ss - {o})
    ensures var free' := free + (set x | x in ss[o].pages);
      (forall g :: g in free' ==> g < cfg.pages) && (forall q, k ::
            q in ss && q != o && 0 <= k < |ss[q].pages| ==> ss[q].pages[k] !in free')
  {
  }

  /** Release removes one session, returns exactly its pages, and leaves every other session's records. */
  lemma ReleaseInv(p: Pool, o: nat)
    requires Inv(p) && CanRelease(p, o)
    ensures o in p.sessions && p.sessions[o].pages != []
    ensures forall x :: x in Release(p, o).freePages <==> x in p.freePages || x in p.sessions[o].pages
    ensures forall x :: x in p.sessions[o].pages ==> x !in p.freePages
    ensures Release(p, o).writes == [] && Release(p, o).cfg == p.cfg && Release(p, o).nextOwner == p.nextOwner
    ensures var r := Release(p, o);
      && Inv(r) && r.sessions == p.sessions - {o} && |r.layers| == |p.layers|
      && (forall l, q :: 0 <= l < |p.layers| && q in p.layers[l].views && q != o ==>
            q in r.layers[l].views && Logical(r.sessions, r.layers[l], q) == Logical(p.sessions, p.layers[l], q))
  {
    ReleaseLegal(p, o);
    var q := Drain(p);
    ReleaseStep(q, Release(p, o), o);
    assert PagesOwned(p.cfg, p.sessions);
    hide Inv;
    hide LayerInv;
    hide ReleasedAt;
    OnlyHostSame(p, q);
  }

  lemma ReleaseStep(q: Pool, r: Pool, o: nat)
    requires Inv(q) && q.writes == [] && q.active.None? && o in q.sessions
    requires r == q.(sessions := q.sessions - {o}, freePages := q.freePages + (set x | x in q.sessions[o].pages),
          topology := q.topology + 1, layers := r.layers)
    requires |r.layers| == |q.layers|
    requires forall l :: 0 <= l < |q.layers| ==> LayerInv(q.cfg, q.sessions - {o}, r.layers[l], [], l) && r.layers[l].pending.None?
    ensures Inv(r)
  {
    hide LayerInv;
    ReleasePages(q.cfg, q.sessions, q.freePages, o);
    hide PagesOwned;
  }
}
