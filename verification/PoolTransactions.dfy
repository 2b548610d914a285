/** Leases and step boundaries: entering an operation, begin, commit, transient begin and discard. */
module PoolTransactions {
  import opened TokenTypes
  import opened Ranking
  import opened TokenStore
  import opened TokenPool
  import opened PoolWritebacks

  // ----- leases

  /** Drop every host-side proof before an untracked map or ownership change. */
  function Invalidate(c: Proofs): Proofs {
    c.(generation := c.generation + 1, residentOwner := None, appendOwner := None, residentEnd := 0,
       appendCursor := 0, denseOwner := None, denseEnd := 0, denseGeneration := -1)
  }

  /** A session that takes over a layer's lease invalidates the proofs of the previous one. */
  function LeaseTo(ly: Layer, o: nat): Layer {
    if ly.proofs.lease == Some(o) then ly else ly.(proofs := Invalidate(ly.proofs).(lease := Some(o)))
  }

  /** The operation lease may be taken: no foreign transient owner, prepared prefetch or open operation. */
  predicate LeaseFree(p: Pool, o: nat, l: nat)
    requires l < |p.layers|
  {
    && (p.layers[l].candidate.Some? ==> p.layers[l].candidate == Some(o))
    && (forall m :: 0 <= m < |p.layers| && p.layers[m].pending.Some? ==> m == l && p.layers[m].pending.value.owner == o)
    && (p.active.Some? ==> p.active == Some((o, l)))
  }

  predicate Exists(p: Pool, o: nat, l: nat) {
    l < |p.layers| && o in p.sessions && o in p.layers[l].views
  }

  function SetLayer(p: Pool, l: nat, ly: Layer): Pool
    requires l < |p.layers|
  {
    p.(layers := p.layers[l := ly])
  }

  /** A step that rewrites one layer keeps the pool invariant if it keeps that layer's. */
  lemma LayerStepInv(p: Pool, l: nat, ly: Layer)
    requires Inv(p) && l < |p.layers| && LayerInv(p.cfg, p.sessions, ly, p.writes, l)
    requires ly.pending.Some? ==> forall m :: 0 <= m < |p.layers| && p.layers[m].pending.Some? ==> m == l
    requires p.active.Some? && p.active.value.1 == l ==> ly.proofs.lease == Some(p.active.value.0)
    ensures Inv(SetLayer(p, l, ly))
  {
    hide LayerInv;
  }

  /** Only the proofs changed, and they claim nothing. */
  lemma ProofsReset(cfg: Config, ss: map<nat, Session>, ly: Layer, ws: seq<Ticket>, l: nat, c: Proofs)
    requires LayerInv(cfg, ss, ly, ws, l)
    requires c.residentOwner.None? && c.appendOwner.None? && c.denseOwner.None? && c.order == ly.proofs.order
    requires ly.pending.Some? ==> c.lease == Some(ly.pending.value.owner)
    ensures LayerInv(cfg, ss, ly.(proofs := c), ws, l)
  {
    var r := ly.(proofs := c);
    assert forall o, i: nat :: Backed(r, o, i) == Backed(ly, o, i);
    assert forall o, i: nat :: HostHolds(ss, r, o, i) == HostHolds(ss, ly, o, i);
  }

  lemma LeaseToInv(cfg: Config, ss: map<nat, Session>, ly: Layer, ws: seq<Ticket>, l: nat, o: nat)
    requires LayerInv(cfg, ss, ly, ws, l)
    requires ly.pending.Some? ==> ly.pending.value.owner == o
    ensures LayerInv(cfg, ss, LeaseTo(ly, o), ws, l)
  {
    if ly.proofs.lease != Some(o) {
      ProofsReset(cfg, ss, ly, ws, l, Invalidate(ly.proofs).(lease := Some(o)));
    }
  }

  /** Open an outer operation on a layer. */
  function Enter(p: Pool, o: nat, l: nat): Pool
    requires l < |p.layers|
  {
    SetLayer(p, l, LeaseTo(p.layers[l], o)).(active := Some((o, l)))
  }

  function Exit(p: Pool): Pool {
    p.(active := None)
  }

  lemma EnterInv(p: Pool, o: nat, l: nat)
    requires Inv(p) && Exists(p, o, l) && LeaseFree(p, o, l)
    ensures Inv(Enter(p, o, l)) && Inv(Exit(p))
  {
    hide LayerInv;
    LeaseToInv(p.cfg, p.sessions, p.layers[l], p.writes, l, o);
  }

  /** Rewriting one session's view of one layer, with the arena kept, leaves every other sequence. */
  lemma OthersSame(p: Pool, l: nat, o: nat, r: Layer)
    requires l < |p.layers| && r.arena == p.layers[l].arena
    requires forall q :: q in p.layers[l].views && q != o ==> q in r.views && r.views[q] == p.layers[l].views[q]
    ensures SameLogicalBut(p, SetLayer(p, l, r), l, o)
  {
    forall q | q in p.layers[l].views && q != o ensures Logical(p.sessions, r, q) == Logical(p.sessions, p.layers[l], q) {
      LogicalSame(p.sessions, p.layers[l], r, q);
    }
  }

  /** Only host memory and the queue changed: every sequence is as before. */
  lemma OnlyHostSame(p: Pool, r: Pool)
    requires OnlyHost(p, r)
    ensures SameLogical(p, r)
  {
    forall l, o | 0 <= l < |p.layers| && o in p.layers[l].views
      ensures Logical(r.sessions, r.layers[l], o) == Logical(p.sessions, p.layers[l], o)
    {
      LogicalSame(p.sessions, p.layers[l], r.layers[l], o);
    }
  }

  // ----- step boundaries

  /** Equal written ranges, arena and host memory: the same tokens are held. */
  lemma FrameHost(ss: map<nat, Session>, a: Layer, b: Layer, ws: seq<Ticket>, l: nat)
    requires b.arena == a.arena && b.host == a.host
    requires forall o, i: nat :: Backed(b, o, i) <==> Backed(a, o, i)
    requires ArenaOK(ss, a) && HostOK(ss, a, ws, l)
    ensures ArenaOK(ss, b) && HostOK(ss, b, ws, l)
  {
    forall o, i: nat | Backed(b, o, i) ensures HostHolds(ss, b, o, i) || InFlight(ws, l, o, i) {
      assert HostHolds(ss, a, o, i) == HostHolds(ss, b, o, i);
    }
  }

  /** Equal tables, host memory and prefetch: the same store is right. */
  lemma FrameStore(cfg: Config, a: Layer, b: Layer)
    requires StoreOK(cfg, a) && b.store == a.store && b.arena == a.arena && |b.host| == |a.host| && b.pending == a.pending
    ensures StoreOK(cfg, b)
  {
    hide MapsAgree, Copies, Ages;
    assert Claimed(b) == Claimed(a);
  }

  /** Equal maps, proofs and history ends: the same certificates hold. */
  lemma FrameProofs(cfg: Config, ss: map<nat, Session>, a: Layer, b: Layer)
    requires b.store.h2d == a.store.h2d && b.store.prio == a.store.prio && b.proofs == a.proofs
    requires forall o :: o in a.views ==> o in b.views && HostEnd(b.views[o]) == HostEnd(a.views[o])
    requires ProofsOK(cfg, ss, a) && PlanOK(cfg, ss, a)
    ensures ProofsOK(cfg, ss, b) && PlanOK(cfg, ss, b)
  {
    assert forall o, i: nat, row :: AtRow(ss, b, o, i, row) == AtRow(ss, a, o, i, row);
    assert forall o, i: nat :: Direct(ss, b, o, i) == Direct(ss, a, o, i);
    assert forall o, i: nat :: Resident(ss, b, o, i) == Resident(ss, a, o, i);
  }

  /** Tickets only depend on their own session's view, the arena and host memory. */
  lemma FrameTickets(ss: map<nat, Session>, a: Layer, b: Layer, ws: seq<Ticket>, l: nat, o: nat)
    requires b.arena == a.arena && b.host == a.host && TicketsOK(ss, a, ws, l)
    requires forall k :: 0 <= k < |ws| ==> !(ws[k].layer == l && ws[k].owner == o)
    requires forall q :: q in a.views && q != o ==> q in b.views && b.views[q] == a.views[q]
    ensures TicketsOK(ss, b, ws, l)
  {
    forall k | 0 <= k < |ws| && ws[k].layer == l ensures TicketOK(ss, b, ws[k]) {
      assert TicketOK(ss, a, ws[k]);
      assert forall q, i: nat :: HostHolds(ss, a, q, i) == HostHolds(ss, b, q, i);
    }
  }

  ghost predicate NoTickets(ws: seq<Ticket>, l: nat, o: nat) {
    forall k :: 0 <= k < |ws| ==> !(ws[k].layer == l && ws[k].owner == o)
  }

  /** A session's view changes but not its host-backed history. */
  lemma ViewChange(cfg: Config, ss: map<nat, Session>, ly: Layer, ws: seq<Ticket>, l: nat, o: nat, v: View)
    requires LayerInv(cfg, ss, ly, ws, l) && o in ly.views && o in ss && ViewOK(cfg, ss[o], v)
    requires HostEnd(v) == HostEnd(ly.views[o]) && v.tail == ly.views[o].tail
    requires v.transientStart.Some? == ly.views[o].transientStart.Some?
    requires NoTickets(ws, l, o)
    requires ly.pending.Some? && ly.pending.value.owner == o ==> v.stepEnd.Some? && v.written < v.stepEnd.value
    ensures LayerInv(cfg, ss, ly.(views := ly.views[o := v]), ws, l)
  {
    var r := ly.(views := ly.views[o := v]);
    assert forall q, i: nat :: Backed(r, q, i) <==> Backed(ly, q, i);
    hide HostOK, ArenaOK, ProofsOK, PlanOK, TicketsOK, StoreOK, PendingOK, ViewsOK, CandidateOK, Backed, NoTickets;
    FrameStore(cfg, ly, r);
    FrameHost(ss, ly, r, ws, l);
    FrameProofs(cfg, ss, ly, r);
    FrameTickets(ss, ly, r, ws, l, o);
    ViewFrames(cfg, ss, ly, r, ws, l, o);
  }

  /** One session's view is replaced by a right one: views, candidate rows and prefetch stay right. */
  lemma ViewFrames(cfg: Config, ss: map<nat, Session>, a: Layer, b: Layer, ws: seq<Ticket>, l: nat, o: nat)
    requires ViewsOK(cfg, ss, a) && CandidateOK(cfg, a) && PendingOK(cfg, a, ws, l) && o in a.views && o in b.views && o in ss
    requires b == a.(views := a.views[o := b.views[o]]) && ViewOK(cfg, ss[o], b.views[o])
    requires HostEnd(b.views[o]) == HostEnd(a.views[o]) && b.views[o].tail == a.views[o].tail
    requires b.views[o].transientStart.Some? == a.views[o].transientStart.Some?
    requires a.pending.Some? && a.pending.value.owner == o ==> b.views[o].stepEnd.Some? && b.views[o].written < b.views[o].stepEnd.value
    ensures ViewsOK(cfg, ss, b) && CandidateOK(cfg, b) && PendingOK(cfg, b, ws, l)
  {
    hide InFlight, Distinct;
    assert b.views.Keys == a.views.Keys;
  }

  predicate CanBegin(p: Pool, o: nat, l: nat, count: nat) {
    && Exists(p, o, l)
    && p.layers[l].views[o].stepEnd.None?
    && (p.layers[l].candidate.Some? ==> p.layers[l].candidate == Some(o))
    && count >= 1 && p.layers[l].views[o].length + count <= p.sessions[o].capacity
  }

  /** Reserve the next `count` tokens of persistent history. */
  function BeginStep(p: Pool, o: nat, l: nat, count: nat): Pool
    requires Exists(p, o, l)
  {
    var ly := p.layers[l];
    var v := ly.views[o];
    SetLayer(p, l, ly.(views := ly.views[o := v.(stepEnd := Some(v.length + count), written := v.length, visibleEnd := v.length)]))
  }

  lemma NoStepNoTickets(ss: map<nat, Session>, ly: Layer, ws: seq<Ticket>, l: nat, o: nat)
    requires TicketsOK(ss, ly, ws, l) && o in ly.views
    requires ly.views[o].stepEnd.None? || ly.views[o].transientStart.Some?
    ensures NoTickets(ws, l, o)
  {
    forall k | 0 <= k < |ws| ensures !(ws[k].layer == l && ws[k].owner == o) {
      if ws[k].layer == l { assert TicketOK(ss, ly, ws[k]); }
    }
  }

  lemma BeginStepInv(p: Pool, o: nat, l: nat, count: nat)
    requires Inv(p) && CanBegin(p, o, l, count)
    ensures Inv(BeginStep(p, o, l, count))
  {
    var ly := p.layers[l];
    var v := ly.views[o];
    hide Inv, LayerInv;
    LayerOf(p, l);
    BeginLayer(p.cfg, p.sessions, ly, p.writes, l, o, count);
    LayerKept(p, l, ly.(views := ly.views[o := v.(stepEnd := Some(v.length + count), written := v.length, visibleEnd := v.length)]));
  }

  lemma LayerOf(p: Pool, l: nat)
    requires Inv(p) && l < |p.layers|
    ensures LayerInv(p.cfg, p.sessions, p.layers[l], p.writes, l)
  {
    hide LayerInv;
  }

  /** A rewritten layer with the same prefetch and lease keeps the pool invariant if it keeps its own. */
  lemma LayerKept(p: Pool, l: nat, ly: Layer)
    requires Inv(p) && l < |p.layers| && LayerInv(p.cfg, p.sessions, ly, p.writes, l)
    requires ly.pending == p.layers[l].pending && ly.proofs.lease == p.layers[l].proofs.lease
    ensures Inv(SetLayer(p, l, ly))
  {
    hide LayerInv;
    LayerStepInv(p, l, ly);
  }

  lemma BeginLayer(cfg: Config, ss: map<nat, Session>, ly: Layer, ws: seq<Ticket>, l: nat, o: nat, count: nat)
    requires LayerInv(cfg, ss, ly, ws, l) && o in ly.views && o in ss && ly.views[o].stepEnd.None?
    requires count >= 1 && ly.views[o].length + count <= ss[o].capacity
    ensures var v := ly.views[o];
      LayerInv(cfg, ss, ly.(views := ly.views[o := v.(stepEnd := Some(v.length + count), written := v.length,
            visibleEnd := v.length)]), ws, l)
  {
    hide HostOK;
    hide ArenaOK;
    hide ProofsOK;
    hide PlanOK;
    hide TicketsOK;
    hide MapsAgree;
    hide Ages;
    hide Copies;
    assert ViewOK(cfg, ss[o], ly.views[o]);
    NoStepNoTickets(ss, ly, ws, l, o);
    var v := ly.views[o];
    ViewChange(cfg, ss, ly, ws, l, o, v.(stepEnd := Some(v.length + count), written := v.length, visibleEnd := v.length));
  }

  /** Announce how far the indexer has already been extended inside the open step. */
  predicate CanDeclare(p: Pool, o: nat, l: nat, end: nat) {
    && Exists(p, o, l)
    && p.layers[l].views[o].stepEnd.Some?
    && p.layers[l].views[o].visibleEnd <= end <= p.layers[l].views[o].stepEnd.value
  }

  function DeclareVisible(p: Pool, o: nat, l: nat, end: nat): Pool
    requires Exists(p, o, l)
  {
    var ly := p.layers[l];
    SetLayer(p, l, ly.(views := ly.views[o := ly.views[o].(visibleEnd := end)]))
  }

  lemma VisibleChange(cfg: Config, ss: map<nat, Session>, ly: Layer, ws: seq<Ticket>, l: nat, o: nat, v: View)
    requires LayerInv(cfg, ss, ly, ws, l) && o in ly.views && o in ss && ViewOK(cfg, ss[o], v)
    requires v == ly.views[o].(visibleEnd := v.visibleEnd)
    ensures LayerInv(cfg, ss, ly.(views := ly.views[o := v]), ws, l)
  {
    hide HostOK;
    hide ArenaOK;
    hide ProofsOK;
    hide PlanOK;
    hide TicketsOK;
    hide MapsAgree;
    hide Ages;
    hide Copies;
    var r := ly.(views := ly.views[o := v]);
    assert forall q, i: nat :: Backed(r, q, i) <==> Backed(ly, q, i);
    FrameHost(ss, ly, r, ws, l);
    FrameProofs(cfg, ss, ly, r);
    VisibleTickets(ss, ly, ws, l, o, v);
    assert r.views.Keys == ly.views.Keys;
  }

  lemma VisibleTickets(ss: map<nat, Session>, ly: Layer, ws: seq<Ticket>, l: nat, o: nat, v: View)
    requires TicketsOK(ss, ly, ws, l) && o in ly.views && v == ly.views[o].(visibleEnd := v.visibleEnd)
    ensures TicketsOK(ss, ly.(views := ly.views[o := v]), ws, l)
  {
    var r := ly.(views := ly.views[o := v]);
    forall k | 0 <= k < |ws| && ws[k].layer == l ensures TicketOK(ss, r, ws[k]) {
      assert TicketOK(ss, ly, ws[k]);
      assert forall q, i: nat :: HostHolds(ss, r, q, i) == HostHolds(ss, ly, q, i);
    }
  }

  lemma DeclareVisibleInv(p: Pool, o: nat, l: nat, end: nat)
    requires Inv(p) && CanDeclare(p, o, l, end)
    ensures Inv(DeclareVisible(p, o, l, end))
  {
    var ly := p.layers[l];
    assert LayerInv(p.cfg, p.sessions, ly, p.writes, l);
    assert ViewOK(p.cfg, p.sessions[o], ly.views[o]);
    VisibleChange(p.cfg, p.sessions, ly, p.writes, l, o, ly.views[o].(visibleEnd := end));
    hide LayerInv;
    LayerStepInv(p, l, ly.(views := ly.views[o := ly.views[o].(visibleEnd := end)]));
  }

  predicate CanCommit(p: Pool, o: nat, l: nat) {
    && Exists(p, o, l)
    && p.layers[l].views[o].transientStart.None?
    && p.layers[l].views[o].stepEnd == Some(p.layers[l].views[o].written)
  }

  /** Drain the writebacks, then advance the committed length to the end of the finished step. */
  function Commit(p: Pool, o: nat, l: nat): Pool
    requires Exists(p, o, l) && InLayers(p)
  {
    var q := Drain(p);
    var ly := q.layers[l];
    var v := ly.views[o];
    SetLayer(q, l, ly.(views := ly.views[o := v.(length := v.written, stepEnd := None)]))
  }

  lemma CommitInv(p: Pool, o: nat, l: nat)
    requires Inv(p) && InLayers(p) && CanCommit(p, o, l)
    ensures Inv(Commit(p, o, l))
  {
    DrainInv(p);
    var q := Drain(p);
    var ly := q.layers[l];
    assert LayerInv(q.cfg, q.sessions, ly, q.writes, l);
    assert ViewOK(q.cfg, q.sessions[o], ly.views[o]);
    var v' := ly.views[o].(length := ly.views[o].written, stepEnd := None);
    ViewChange(q.cfg, q.sessions, ly, q.writes, l, o, v');
    hide LayerInv;
    LayerStepInv(q, l, ly.(views := ly.views[o := v']));
  }

  predicate CanBeginTransient(p: Pool, o: nat, l: nat, count: nat) {
    && Exists(p, o, l)
    && p.layers[l].views[o].stepEnd.None?
    && 1 <= count <= p.cfg.candidates
    && LeaseFree(p, o, l)
    && p.layers[l].candidate.None?
  }

  function BeginTransientAt(ly: Layer, o: nat, count: nat): Layer
    requires o in ly.views
  {
    var v := ly.views[o];
    ly.(candidate := Some(o), views := ly.views[o := v.(
      transientStart := Some(v.length), stepEnd := Some(v.length + count), written := v.length, visibleEnd := v.length, tail := [])])
  }

  /** Lease the layer's candidate rows for a GPU-only suffix of `count` tokens. */
  function BeginTransient(p: Pool, o: nat, l: nat, count: nat): Pool
    requires Exists(p, o, l)
  {
    SetLayer(p, l, BeginTransientAt(LeaseTo(p.layers[l], o), o, count))
  }

  /** Opening or closing a transient suffix of the candidate owner, with the history unchanged. */
  lemma CandidateChange(cfg: Config, ss: map<nat, Session>, ly: Layer, ws: seq<Ticket>, l: nat, o: nat, v: View, c: Option<nat>)
    requires LayerInv(cfg, ss, ly, ws, l) && o in ly.views && o in ss && ViewOK(cfg, ss[o], v)
    requires HostEnd(v) == HostEnd(ly.views[o]) && NoTickets(ws, l, o) && ly.pending.None?
    requires ly.candidate.Some? ==> ly.candidate.value == o
    requires c == if v.transientStart.Some? then Some(o) else None
    requires TailAt(cfg, ly.store, v.tail)
    ensures LayerInv(cfg, ss, ly.(views := ly.views[o := v], candidate := c), ws, l)
  {
    var r := ly.(views := ly.views[o := v], candidate := c);
    assert forall q, i: nat :: Backed(r, q, i) <==> Backed(ly, q, i);
    hide HostOK, ArenaOK, ProofsOK, PlanOK, TicketsOK, StoreOK, Backed, NoTickets;
    FrameStore(cfg, ly, r);
    FrameHost(ss, ly, r, ws, l);
    FrameProofs(cfg, ss, ly, r);
    FrameTickets(ss, ly, r, ws, l, o);
    assert r.views.Keys == ly.views.Keys;
  }

  lemma BeginTransientLayer(cfg: Config, ss: map<nat, Session>, ly: Layer, ws: seq<Ticket>, l: nat, o: nat, count: nat)
    requires LayerInv(cfg, ss, ly, ws, l) && o in ly.views && o in ss
    requires ly.views[o].stepEnd.None? && 1 <= count <= cfg.candidates && ly.candidate.None? && ly.pending.None?
    ensures LayerInv(cfg, ss, BeginTransientAt(ly, o, count), ws, l)
  {
    hide HostOK;
    hide ArenaOK;
    hide ProofsOK;
    hide PlanOK;
    hide TicketsOK;
    hide MapsAgree;
    hide Ages;
    hide Copies;
    assert ViewOK(cfg, ss[o], ly.views[o]);
    NoStepNoTickets(ss, ly, ws, l, o);
    var v := ly.views[o];
    var v' := v.(transientStart := Some(v.length), stepEnd := Some(v.length + count), written := v.length,
          visibleEnd := v.length, tail := []);
    CandidateChange(cfg, ss, ly, ws, l, o, v', Some(o));
  }

  lemma BeginTransientInv(p: Pool, o: nat, l: nat, count: nat)
    requires Inv(p) && CanBeginTransient(p, o, l, count)
    ensures Inv(BeginTransient(p, o, l, count))
  {
    hide LayerInv;
    PendingOpen(p, o, l);
    LeaseToInv(p.cfg, p.sessions, p.layers[l], p.writes, l, o);
    var ly := LeaseTo(p.layers[l], o);
    BeginTransientLayer(p.cfg, p.sessions, ly, p.writes, l, o, count);
    LayerStepInv(p, l, BeginTransientAt(ly, o, count));
  }

  /** A session with no open step has no prepared prefetch. */
  lemma PendingOpen(p: Pool, o: nat, l: nat)
    requires Inv(p) && Exists(p, o, l)
    ensures p.layers[l].pending.Some? && p.layers[l].pending.value.owner == o ==>
      p.layers[l].views[o].stepEnd.Some? && p.layers[l].views[o].written < p.layers[l].views[o].stepEnd.value
  {
    assert LayerInv(p.cfg, p.sessions, p.layers[l], p.writes, l);
  }
}
