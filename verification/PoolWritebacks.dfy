/** Asynchronous device-to-host copies: landing, reaping, waiting and draining. */
module PoolWritebacks {
  import opened TokenTypes
  import opened Ranking
  import opened TokenStore
  import opened TokenPool

  /** `b` differs from `a` only in host memory and the write queue. */
  ghost predicate OnlyHost(a: Pool, b: Pool) {
    && b == a.(layers := b.layers, writes := b.writes)
    && |b.layers| == |a.layers|
    && forall l :: 0 <= l < |a.layers| ==> b.layers[l] == a.layers[l].(host := b.layers[l].host) && |b.layers[l].host| == |a.layers[l].host|
  }

  /** The host-memory and queue part of the invariant, for every layer. */
  ghost predicate WritesOK(p: Pool) {
    && |p.writes| <= p.cfg.maxWrites
    && (forall k :: 0 <= k < |p.writes| ==> p.writes[k].layer < |p.layers|)
    && (forall l :: 0 <= l < |p.layers| ==>
          HostOK(p.sessions, p.layers[l], p.writes, l) && TicketsOK(p.sessions, p.layers[l], p.writes, l)
          && PendingOK(p.cfg, p.layers[l], p.writes, l))
  }

  lemma HostStepInv(a: Pool, b: Pool)
    requires Inv(a) && OnlyHost(a, b) && WritesOK(b)
    ensures Inv(b)
  {
    forall l | 0 <= l < |b.layers| ensures LayerInv(b.cfg, b.sessions, b.layers[l], b.writes, l) {
      HostFrame(a.cfg, a.sessions, a.layers[l], b.layers[l]);
    }
  }

  lemma HostFrame(cfg: Config, ss: map<nat, Session>, a: Layer, b: Layer)
    requires b == a.(host := b.host) && |b.host| == |a.host|
    requires StoreOK(cfg, a) && ViewsOK(cfg, ss, a) && ArenaOK(ss, a) && CandidateOK(cfg, a) && ProofsOK(cfg, ss, a)
    requires PlanOK(cfg, ss, a)
    ensures StoreOK(cfg, b) && ViewsOK(cfg, ss, b) && ArenaOK(ss, b) && CandidateOK(cfg, b) && ProofsOK(cfg, ss, b)
    ensures PlanOK(cfg, ss, b)
  {
    assert forall o, i: nat :: Backed(b, o, i) == Backed(a, o, i);
    assert forall o, i: nat, row :: AtRow(ss, b, o, i, row) == AtRow(ss, a, o, i, row);
    assert forall o, i: nat :: Direct(ss, b, o, i) == Direct(ss, a, o, i);
    assert forall o, i: nat :: Resident(ss, b, o, i) == Resident(ss, a, o, i);
  }

  // ----- one cell of one copy lands

  function LandHost(ss: map<nat, Session>, ly: Layer, t: Ticket, j: nat): (r: Layer)
    requires j < |t.source|
    ensures r == ly.(host := r.host) && |r.host| == |ly.host|
  {
    var g := Tok(ss, t.owner, t.start + j);
    if 0 <= g < |ly.host| then ly.(host := ly.host[g := t.source[j]]) else ly
  }

  function MarkLanded(ws: seq<Ticket>, k: nat, j: nat): (r: seq<Ticket>)
    requires k < |ws|
    ensures |r| == |ws|
  {
    ws[k := ws[k].(landed := ws[k].landed + {j})]
  }

  function LandCell(p: Pool, k: nat, j: nat): (r: Pool)
    requires k < |p.writes| && p.writes[k].layer < |p.layers| && j < |p.writes[k].source|
    ensures OnlyHost(p, r)
  {
    var t := p.writes[k];
    p.(writes := MarkLanded(p.writes, k, j), layers := p.layers[t.layer := LandHost(p.sessions, p.layers[t.layer], t, j)])
  }

  lemma LandFlight(ws: seq<Ticket>, k: nat, j: nat)
    requires k < |ws| && j < |ws[k].source|
    ensures var ws' := MarkLanded(ws, k, j);
      && (forall l, o, i: nat :: InFlight(ws', l, o, i) ==> InFlight(ws, l, o, i))
      && (forall l, o, i: nat :: (InFlight(ws, l, o,
            i) && !(l == ws[k].layer && o == ws[k].owner && i == ws[k].start + j)) ==> InFlight(ws', l, o, i))
  {
    var ws' := MarkLanded(ws, k, j);
    forall l, o, i: nat | InFlight(ws', l, o, i) ensures InFlight(ws, l, o, i) {
      var n :| 0 <= n < |ws'| && Carries(ws'[n], l, o, i) && (i - ws'[n].start) !in ws'[n].landed;
      assert Carries(ws[n], l, o, i) && (i - ws[n].start) !in ws[n].landed;
    }
    forall l, o, i: nat | InFlight(ws, l, o, i) && !(l == ws[k].layer && o == ws[k].owner && i == ws[k].start + j)
      ensures InFlight(ws', l, o, i)
    {
      var n :| 0 <= n < |ws| && Carries(ws[n], l, o, i) && (i - ws[n].start) !in ws[n].landed;
      assert Carries(ws'[n], l, o, i) && (i - ws'[n].start) !in ws'[n].landed;
    }
  }

  /** Landing keeps every cell that already agrees, and makes its own cell agree. */
  lemma LandHolds(ss: map<nat, Session>, ly: Layer, t: Ticket, j: nat)
    requires j < |t.source| && TicketOK(ss, ly, t) && 0 <= Tok(ss, t.owner, t.start + j) < |ly.host|
    ensures forall o, i: nat :: HostHolds(ss, ly, o, i) ==> HostHolds(ss, LandHost(ss, ly, t, j), o, i)
    ensures HostHolds(ss, LandHost(ss, ly, t, j), t.owner, t.start + j)
  {
    var i0: nat := t.start + j;
    assert ly.arena[Tok(ss, t.owner, i0)] == t.source[i0 - t.start];
  }

  lemma LandLayer(ss: map<nat, Session>, ly: Layer, ws: seq<Ticket>, l: nat, k: nat, j: nat)
    requires HostOK(ss, ly, ws, l) && TicketsOK(ss, ly, ws, l)
    requires k < |ws| && ws[k].layer == l && j < |ws[k].source|
    requires 0 <= Tok(ss, ws[k].owner, ws[k].start + j) < |ly.host|
    ensures HostOK(ss, LandHost(ss, ly, ws[k], j), MarkLanded(ws, k, j), l)
    ensures TicketsOK(ss, LandHost(ss, ly, ws[k], j), MarkLanded(ws, k, j), l)
  {
    var r, ws' := LandHost(ss, ly, ws[k], j), MarkLanded(ws, k, j);
    LandHolds(ss, ly, ws[k], j);
    assert HostOK(ss, r, ws', l) by {
      hide TicketOK;
      LandFlight(ws, k, j);
      forall o, i: nat | Backed(r, o, i) ensures HostHolds(ss, r, o, i) || InFlight(ws', l, o, i) {
        assert Backed(ly, o, i);
      }
    }
    forall n | 0 <= n < |ws'| && ws'[n].layer == l ensures TicketOK(ss, r, ws'[n]) {
      LandTicket(ss, ly, ws[n], ws[k], j, n == k);
    }
  }

  lemma LandTicket(ss: map<nat, Session>, ly: Layer, t: Ticket, u: Ticket, j: nat, same: bool)
    requires TicketOK(ss, ly, t) && j < |u.source| && (same ==> t == u)
    requires forall o, i: nat :: HostHolds(ss, ly, o, i) ==> HostHolds(ss, LandHost(ss, ly, u, j), o, i)
    requires HostHolds(ss, LandHost(ss, ly, u, j), u.owner, u.start + j)
    ensures TicketOK(ss, LandHost(ss, ly, u, j), if same then t.(landed := t.landed + {j}) else t)
  {
  }

  lemma FlightFrame(cfg: Config, ss: map<nat, Session>, ly: Layer, ws: seq<Ticket>, ws': seq<Ticket>, l: nat)
    requires HostOK(ss, ly, ws, l) && PendingOK(cfg, ly, ws, l)
    requires forall o, i: nat :: InFlight(ws, l, o, i) <==> InFlight(ws', l, o, i)
    ensures HostOK(ss, ly, ws', l) && PendingOK(cfg, ly, ws', l)
  {
  }

  /** A copy's cells lie inside host memory. */
  lemma TicketCells(cfg: Config, ss: map<nat, Session>, ly: Layer, t: Ticket, j: nat)
    requires PagesOwned(cfg, ss) && ViewsOK(cfg, ss, ly) && TicketOK(ss, ly, t) && j < |t.source|
    requires |ly.host| == PAGE_SIZE * cfg.pages
    ensures 0 <= Tok(ss, t.owner, t.start + j) < |ly.host|
  {
    assert ViewOK(cfg, ss[t.owner], ly.views[t.owner]);
    TokRange(cfg, ss, t.owner, t.start + j);
  }

  /** The scheduler may land any cell of any queued copy at any time. */
  lemma LandCellInv(p: Pool, k: nat, j: nat)
    requires Inv(p) && k < |p.writes| && p.writes[k].layer < |p.layers| && j < |p.writes[k].source|
    ensures Inv(LandCell(p, k, j))
  {
    LandCellWrites(p, k, j);
    HostStepInv(p, LandCell(p, k, j));
  }

  lemma LandCellWrites(p: Pool, k: nat, j: nat)
    requires Inv(p) && k < |p.writes| && p.writes[k].layer < |p.layers| && j < |p.writes[k].source|
    ensures WritesOK(LandCell(p, k, j))
  {
    hide HostOK;
    hide ProofsOK;
    hide PlanOK;
    hide CandidateOK;
    hide ArenaOK;
    var r := LandCell(p, k, j);
    var t, l := p.writes[k], p.writes[k].layer;
    assert LayerInv(p.cfg, p.sessions, p.layers[l], p.writes, l);
    TicketCells(p.cfg, p.sessions, p.layers[l], t, j);
    LandLayer(p.sessions, p.layers[l], p.writes, l, k, j);
    LandFlight(p.writes, k, j);
    forall m | 0 <= m < |r.layers|
      ensures HostOK(r.sessions, r.layers[m], r.writes, m) && TicketsOK(r.sessions, r.layers[m], r.writes, m)
      ensures PendingOK(r.cfg, r.layers[m], r.writes, m)
    {
      if m != l {
        assert r.layers[m] == p.layers[m];
        FlightFrame(p.cfg, p.sessions, p.layers[m], p.writes, r.writes, m);
        forall n | 0 <= n < |r.writes| && r.writes[n].layer == m ensures TicketOK(r.sessions, r.layers[m], r.writes[n]) {
          assert r.writes[n] == p.writes[n];
        }
      }
    }
  }

  // ----- the queue

  predicate Done(t: Ticket) {
    forall j :: 0 <= j < |t.source| ==> j in t.landed
  }

  function Pop(p: Pool): (r: Pool)
    requires p.writes != []
    ensures OnlyHost(p, r)
  {
    p.(writes := p.writes[1..])
  }

  lemma PopFlight(ws: seq<Ticket>)
    requires ws != [] && Done(ws[0])
    ensures forall l, o, i: nat :: InFlight(ws, l, o, i) <==> InFlight(ws[1..], l, o, i)
  {
    forall l, o, i: nat ensures InFlight(ws, l, o, i) <==> InFlight(ws[1..], l, o, i) {
      if n :| 0 <= n < |ws| && Carries(ws[n], l, o, i) && (i - ws[n].start) !in ws[n].landed {
        assert n > 0;
        assert Carries(ws[1..][n - 1], l, o, i);
      }
      if n :| 0 <= n < |ws[1..]| && Carries(ws[1..][n], l, o, i) && (i - ws[1..][n].start) !in ws[1..][n].landed {
        assert Carries(ws[n + 1], l, o, i);
      }
    }
  }

  lemma PopInv(p: Pool)
    requires Inv(p) && p.writes != [] && Done(p.writes[0])
    ensures Inv(Pop(p))
  {
    var r := Pop(p);
    assert WritesOK(r) by {
      hide HostOK;
      hide ProofsOK;
      hide PlanOK;
      hide CandidateOK;
      hide ArenaOK;
      PopFlight(p.writes);
      forall m | 0 <= m < |r.layers|
        ensures HostOK(r.sessions, r.layers[m], r.writes, m) && TicketsOK(r.sessions, r.layers[m], r.writes, m)
        ensures PendingOK(r.cfg, r.layers[m], r.writes, m)
      {
        assert LayerInv(p.cfg, p.sessions, p.layers[m], p.writes, m);
        FlightFrame(p.cfg, p.sessions, p.layers[m], p.writes, r.writes, m);
        assert forall n :: 0 <= n < |r.writes| ==> r.writes[n] == p.writes[n + 1];
      }
    }
    HostStepInv(p, r);
  }

  /** Land the first `n` cells of one copy. */
  function LandFirst(p: Pool, k: nat, n: nat): (r: Pool)
    requires k < |p.writes| && p.writes[k].layer < |p.layers| && n <= |p.writes[k].source|
    ensures OnlyHost(p, r) && |r.writes| == |p.writes|
    ensures r.writes[k] == p.writes[k].(landed := r.writes[k].landed)
    ensures forall m :: 0 <= m < |p.writes| && m != k ==> r.writes[m] == p.writes[m]
    ensures forall j :: 0 <= j < n ==> j in r.writes[k].landed
  {
    if n == 0 then p else LandCell(LandFirst(p, k, n - 1), k, n - 1)
  }

  lemma {:induction false} LandFirstInv(p: Pool, k: nat, n: nat)
    requires Inv(p) && k < |p.writes| && p.writes[k].layer < |p.layers| && n <= |p.writes[k].source|
    ensures Inv(LandFirst(p, k, n))
    decreases n
  {
    hide Inv;
    if n > 0 {
      LandFirstInv(p, k, n - 1);
      LandCellInv(LandFirst(p, k, n - 1), k, n - 1);
    }
  }

  /** `ticket.event.synchronize()`: the whole copy has landed. */
  function Sync(p: Pool, k: nat): (r: Pool)
    requires k < |p.writes| && p.writes[k].layer < |p.layers|
    ensures OnlyHost(p, r) && |r.writes| == |p.writes| && Done(r.writes[k])
    ensures r.writes[k] == p.writes[k].(landed := r.writes[k].landed)
    ensures forall m :: 0 <= m < |p.writes| && m != k ==> r.writes[m] == p.writes[m]
  {
    LandFirst(p, k, |p.writes[k].source|)
  }

  predicate InLayers(p: Pool) {
    forall k :: 0 <= k < |p.writes| ==> p.writes[k].layer < |p.layers|
  }

  /** What every pool object keeps whatever is done to it: tables of the right size and copies of existing layers. */
  predicate Sane(p: Pool) {
    && InLayers(p) && p.cfg.maxWrites >= 1
    && forall l :: 0 <= l < |p.layers| ==> Shaped(p.layers[l].store) && |p.layers[l].store.h2d| == |p.layers[l].host|
  }

  lemma InvSane(p: Pool)
    requires Inv(p)
    ensures Sane(p)
  {
    forall l | 0 <= l < |p.layers| ensures Shaped(p.layers[l].store) && |p.layers[l].store.h2d| == |p.layers[l].host| {
      assert LayerInv(p.cfg, p.sessions, p.layers[l], p.writes, l);
    }
  }

  /** Wait for every queued copy, then forget the queue. */
  function Drain(p: Pool): (r: Pool)
    requires InLayers(p)
    ensures OnlyHost(p, r) && r.writes == []
    decreases |p.writes|
  {
    if p.writes == [] then p else Drain(Pop(Sync(p, 0)))
  }

  lemma {:induction false} DrainInv(p: Pool)
    requires Inv(p) && InLayers(p)
    ensures Inv(Drain(p))
    decreases |p.writes|
  {
    hide Inv;
    if p.writes != [] {
      LandFirstInv(p, 0, |p.writes[0].source|);
      PopInv(Sync(p, 0));
      DrainInv(Pop(Sync(p, 0)));
    }
  }

  /** Retire finished copies; with `room`, wait until the queue is below its bound. */
  function Reap(p: Pool, room: bool): (r: Pool)
    requires InLayers(p) && p.cfg.maxWrites >= 1
    ensures OnlyHost(p, r) && InLayers(r)
    ensures room ==> |r.writes| < p.cfg.maxWrites
    decreases |p.writes|
  {
    if p.writes == [] then p
    else if room && |p.writes| >= p.cfg.maxWrites then Reap(Pop(Sync(p, 0)), room)
    else if !Done(p.writes[0]) then p
    else Reap(Pop(p), room)
  }

  /** Exactly the finished copies at the front go, and, when room is asked for, as many more as make it; the others stay as they are. */
  lemma {:induction false} ReapExactly(p: Pool, room: bool) returns (n: nat)
    requires InLayers(p) && p.cfg.maxWrites >= 1
    ensures n <= |p.writes| && Reap(p, room).writes == p.writes[n..]
    ensures forall k :: 0 <= k < n ==> Done(p.writes[k]) || (room && |p.writes| - k >= p.cfg.maxWrites)
    ensures n < |p.writes| ==> !Done(p.writes[n]) && (room ==> |p.writes| - n < p.cfg.maxWrites)
    decreases |p.writes|
  {
    n := 0;
    if p.writes != [] && ((room && |p.writes| >= p.cfg.maxWrites) || Done(p.writes[0])) {
      var q := if room && |p.writes| >= p.cfg.maxWrites then Pop(Sync(p, 0)) else Pop(p);
      assert q.writes == p.writes[1..];
      n := ReapExactly(q, room);
      assert p.writes[1..][n..] == p.writes[n + 1..];
      forall k | 0 <= k < n + 1 ensures Done(p.writes[k]) || (room && |p.writes| - k >= p.cfg.maxWrites) {
        if k > 0 { assert q.writes[k - 1] == p.writes[k]; }
      }
      n := n + 1;
    }
  }

  lemma {:induction false} ReapInv(p: Pool, room: bool)
    requires Inv(p) && InLayers(p) && p.cfg.maxWrites >= 1
    ensures Inv(Reap(p, room))
    decreases |p.writes|
  {
    hide Inv;
    if p.writes == [] {
    } else if room && |p.writes| >= p.cfg.maxWrites {
      LandFirstInv(p, 0, |p.writes[0].source|);
      PopInv(Sync(p, 0));
      ReapInv(Pop(Sync(p, 0)), room);
    } else if Done(p.writes[0]) {
      PopInv(p);
      ReapInv(Pop(p), room);
    }
  }

  /** Make the first `n` queued copies of one session and layer visible. */
  function SyncMine(p: Pool, o: nat, l: nat, n: nat): (r: Pool)
    requires InLayers(p) && n <= |p.writes|
    ensures OnlyHost(p, r) && |r.writes| == |p.writes| && InLayers(r)
    ensures forall k :: 0 <= k < |p.writes| ==> r.writes[k] == p.writes[k].(landed := r.writes[k].landed)
    ensures forall k :: 0 <= k < n && r.writes[k].owner == o && r.writes[k].layer == l ==> Done(r.writes[k])
  {
    if n == 0 then p
    else
      var q := SyncMine(p, o, l, n - 1);
      if q.writes[n - 1].owner == o && q.writes[n - 1].layer == l then Sync(q, n - 1) else q
  }

  lemma {:induction false} SyncMineInv(p: Pool, o: nat, l: nat, n: nat)
    requires Inv(p) && InLayers(p) && n <= |p.writes|
    ensures Inv(SyncMine(p, o, l, n))
    decreases n
  {
    hide Inv;
    if n > 0 {
      SyncMineInv(p, o, l, n - 1);
      var q := SyncMine(p, o, l, n - 1);
      if q.writes[n - 1].owner == o && q.writes[n - 1].layer == l { LandFirstInv(q, n - 1, |q.writes[n - 1].source|); }
    }
  }

  /** `wait_host`: afterwards no copy of this session and layer is outstanding. */
  function WaitHost(p: Pool, o: nat, l: nat): (r: Pool)
    requires InLayers(p) && p.cfg.maxWrites >= 1
    ensures OnlyHost(p, r) && InLayers(r)
  {
    var q := Reap(p, false);
    SyncMine(q, o, l, |q.writes|)
  }

  /** The wait touches no other session's or layer's copy. */
  lemma {:induction false} SyncMineExactly(p: Pool, o: nat, l: nat, n: nat)
    requires InLayers(p) && n <= |p.writes|
    ensures forall k :: 0 <= k < |p.writes| && !(k < n && p.writes[k].owner == o && p.writes[k].layer == l) ==>
      SyncMine(p, o, l, n).writes[k] == p.writes[k]
    decreases n
  {
    if n > 0 { SyncMineExactly(p, o, l, n - 1); }
  }

  lemma WaitHostInv(p: Pool, o: nat, l: nat)
    requires Inv(p) && InLayers(p) && p.cfg.maxWrites >= 1
    ensures Inv(WaitHost(p, o, l))
    ensures forall i: nat :: !InFlight(WaitHost(p, o, l).writes, l, o, i)
  {
    hide Inv;
    ReapInv(p, false);
    SyncMineInv(Reap(p, false), o, l, |Reap(p, false).writes|);
  }

  /** After the wait host memory holds every token the session has written on the layer, so a recall may read it. */
  lemma SettledHost(p: Pool, o: nat, l: nat)
    requires Inv(p) && InLayers(p) && p.cfg.maxWrites >= 1 && l < |p.layers|
    ensures var r := WaitHost(p, o, l); forall i: nat :: Backed(p.layers[l], o, i) ==> HostHolds(r.sessions, r.layers[l], o, i)
  {
    WaitHostInv(p, o, l);
    var r := WaitHost(p, o, l);
    hide WaitHost;
    assert LayerInv(r.cfg, r.sessions, r.layers[l], r.writes, l);
    forall i: nat | Backed(p.layers[l], o, i) ensures HostHolds(r.sessions, r.layers[l], o, i) {
      assert Backed(r.layers[l], o, i);
    }
  }
}
