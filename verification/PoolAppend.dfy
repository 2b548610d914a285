/** Appending records: plan reuse, victim choice, direct device write and queued writeback. */
module PoolAppend {
  import opened TokenTypes
  import opened Ranking
  import opened TokenStore
  import opened TokenPool
  import opened PoolWritebacks
  import opened PoolTransactions

  // ----- host-side proofs

  predicate DenseResident(cfg: Config, ss: map<nat, Session>, ly: Layer, o: nat, end: nat)
    requires o in ss
  {
    && cfg.dense && end <= ss[o].capacity && end <= cfg.slots
    && (end == 0 || (ly.proofs.denseOwner == Some(o) && ly.proofs.denseEnd >= end && ly.proofs.denseGeneration == ly.proofs.generation))
  }

  /** The conservative host-side proof that every history token of `o` is on the device. */
  predicate AllResident(cfg: Config, ss: map<nat, Session>, ly: Layer, o: nat)
    requires o in ss && o in ly.views
  {
    var history := HostEnd(ly.views[o]);
    if cfg.dense then DenseResident(cfg, ss, ly, o, history)
    else history == 0 || (history <= cfg.slots && ly.proofs.residentOwner == Some(o) && ly.proofs.residentEnd >= history)
  }

  /** A residency certificate is sound: every history token is mapped, to a row with its record. */
  lemma CertificateSound(p: Pool, o: nat, l: nat, i: nat)
    requires Inv(p) && Exists(p, o, l) && AllResident(p.cfg, p.sessions, p.layers[l], o)
    requires i < HostEnd(p.layers[l].views[o])
    ensures var ly := p.layers[l];
      && Resident(p.sessions, ly, o, i)
      && Tok(p.sessions, o, i) in ly.arena
      && 1 <= ly.store.h2d[Tok(p.sessions, o, i)] <= p.cfg.slots
      && ly.store.rows[ly.store.h2d[Tok(p.sessions, o, i)]] == ly.arena[Tok(p.sessions, o, i)]
    ensures DenseResident(p.cfg, p.sessions, p.layers[l], o, HostEnd(p.layers[l].views[o])) ==>
      p.layers[l].store.h2d[Tok(p.sessions, o, i)] == i + 1
  {
    hide HostOK;
    hide TicketsOK;
    hide PlanOK;
    hide PendingOK;
    hide CandidateOK;
    var ly := p.layers[l];
    assert LayerInv(p.cfg, p.sessions, ly, p.writes, l);
    assert Backed(ly, o, i);
    assert Resident(p.sessions, ly, o, i);
    CopyRead(ly.store, ly.arena, Tok(p.sessions, o, i));
    if DenseResident(p.cfg, p.sessions, ly, o, HostEnd(ly.views[o])) {
      assert Direct(p.sessions, ly, o, i);
    }
  }

  /** `append_slots`: keep the plan, start one on a cold build, or (dense) use the direct layout. */
  function PlanProofs(cfg: Config, ly: Layer, o: nat, start: nat, count: nat): Proofs
    requires Shaped(ly.store)
  {
    var c := ly.proofs;
    if cfg.dense then (if start == 0 then Invalidate(c) else c).(appendOwner := Some(o), appendCursor := start)
    else if start == 0 && count <= cfg.slots then
      c.(order := Sort(ly.store.prio, Range(1, |ly.store.prio|)), appendOwner := Some(o), appendCursor := 0)
    else c
  }

  predicate Planned(cfg: Config, ss: map<nat, Session>, ly: Layer, o: nat, start: nat, count: nat)
    requires o in ss && o in ly.views
  {
    && start + count <= |ly.proofs.order|
    && (cfg.dense ||
          (ly.proofs.appendOwner == Some(o) && ly.proofs.appendCursor == start && start + count <= cfg.slots
           && (start == 0 || AllResident(cfg, ss, ly, o))))
  }

  predicate CanAppend(p: Pool, o: nat, l: nat, count: nat) {
    && Exists(p, o, l)
    && p.layers[l].views[o].stepEnd.Some?
    && count >= 1 && p.layers[l].views[o].written + count <= p.layers[l].views[o].stepEnd.value
    && (p.layers[l].pending.Some? ==> p.layers[l].pending.value.owner != o)
    && (p.layers[l].views[o].transientStart.None? ==> count <= p.cfg.slots)
    && LeaseFree(p, o, l)
  }

  /** A dense pool appends only behind a certified direct prefix. */
  predicate DenseReady(cfg: Config, ss: map<nat, Session>, ly: Layer, o: nat, start: nat, count: nat)
    requires o in ss
  {
    cfg.dense ==> start + count <= cfg.slots && (start > 0 ==> DenseResident(cfg, ss, ly, o, start))
  }

  // ----- the new tokens

  /** The host IDs of the next `count` tokens. */
  function NewToks(ss: map<nat, Session>, ly: Layer, o: nat, count: nat): (r: seq<int>)
    requires o in ly.views
    ensures |r| == count
  {
    var start := ly.views[o].written;
    seq(count, k requires 0 <= k < count => Tok(ss, o, start + k))
  }

  /** New tokens have distinct host IDs that nothing maps yet. */
  lemma NewToksFresh(cfg: Config, ss: map<nat, Session>, ly: Layer, o: nat, count: nat)
    requires PagesOwned(cfg, ss) && ArenaOK(ss, ly) && MapsAgree(ly.store) && Copies(ly.store, ly.arena)
    requires |ly.store.h2d| == PAGE_SIZE * cfg.pages
    requires o in ly.views && o in ss && ly.views[o].transientStart.None? && ly.views[o].written + count <= ss[o].capacity
    ensures var gs := NewToks(ss, ly, o, count);
      HostIds(ly.store, gs) && Distinct(gs) && forall k :: 0 <= k < count ==> gs[k] !in ly.arena && !Mapped(ly.store, gs[k])
  {
    var gs, start := NewToks(ss, ly, o, count), ly.views[o].written;
    forall k | 0 <= k < count ensures 0 <= gs[k] < |ly.store.h2d| && gs[k] !in ly.arena && !Mapped(ly.store, gs[k]) {
      TokRange(cfg, ss, o, start + k);
      forall o', i: nat | Backed(ly, o', i) ensures Tok(ss, o', i) != gs[k] {
        TokDistinct(cfg, ss, o, start + k, o', i);
      }
      if Mapped(ly.store, gs[k]) { CopyRead(ly.store, ly.arena, gs[k]); }
    }
    forall k, m | 0 <= k < m < count ensures gs[k] != gs[m] {
      TokRange(cfg, ss, o, start + k);
      if gs[k] == gs[m] { TokInjective(cfg, ss, o, start + k, o, start + m); }
    }
  }

  /** The arena after the new tokens are written. */
  function Extend(arena: map<int, Record>, gs: seq<int>, recs: seq<Record>): (r: map<int, Record>)
    requires |gs| == |recs|
    ensures gs == [] ==> r == arena
  {
    if gs == [] then arena
    else
      var n := |gs| - 1;
      Extend(arena, gs[..n], recs[..n])[gs[n] := recs[n]]
  }

  lemma {:induction false} ExtendAt(arena: map<int, Record>, gs: seq<int>, recs: seq<Record>)
    requires |gs| == |recs| && Distinct(gs)
    ensures forall k :: 0 <= k < |gs| ==> gs[k] in Extend(arena, gs, recs) && Extend(arena, gs, recs)[gs[k]] == recs[k]
    ensures forall g :: g in Extend(arena, gs, recs) <==> g in arena || g in gs
    ensures forall g :: g in arena && g !in gs ==> Extend(arena, gs, recs)[g] == arena[g]
    decreases |gs|
  {
    if gs != [] {
      var n := |gs| - 1;
      ExtendAt(arena, gs[..n], recs[..n]);
      assert forall g :: g in gs <==> g in gs[..n] || g == gs[n];
      assert gs[n] !in gs[..n];
    }
  }

  // ----- the persistent append

  /** The rows that receive the new records: the planned order, or a fresh FIFO choice. */
  function AppendRows(cfg: Config, ss: map<nat, Session>, ly: Layer, o: nat, count: nat): (r: seq<nat>)
    requires o in ss && o in ly.views && Shaped(ly.store) && count <= Slots(ly.store)
    ensures |r| == count
  {
    var start := ly.views[o].written;
    if Planned(cfg, ss, ly, o, start, count) then ly.proofs.order[start .. start + count]
    else
      WithoutCard(Range(1, |ly.store.d2h|), []);
      Choose(ly.store, [], count)
  }

  function AppendDone(cfg: Config, c: Proofs, planned: bool, o: nat, end: nat): Proofs {
    if !planned then Invalidate(c)
    else
      var d := c.(residentOwner := Some(o), appendOwner := Some(o), residentEnd := end, appendCursor := end);
      if cfg.dense then d.(denseOwner := Some(o), denseEnd := end, denseGeneration := d.generation) else d
  }

  /** The layer after appending `recs` behind the lease and the plan check. */
  function AppendAt(cfg: Config, ss: map<nat, Session>, ly: Layer, o: nat, recs: seq<Record>, limit: Option<nat>): (r: Layer)
    requires o in ss && o in ly.views && Shaped(ly.store) && |recs| <= Slots(ly.store)
    requires var gs := NewToks(ss, ly, o, |recs|); HostIds(ly.store, gs)
    requires RowIds(ly.store, AppendRows(cfg, ss, ly, o, |recs|))
  {
    var v := ly.views[o];
    var gs, chosen := NewToks(ss, ly, o, |recs|), AppendRows(cfg, ss, ly, o, |recs|);
    var end := v.written + |recs|;
    ly.(store := Stamp(ClockEvent(Refill(ly.store, gs, chosen, recs), limit), chosen),
        proofs := AppendDone(cfg, ly.proofs, Planned(cfg, ss, ly, o, v.written, |recs|), o, end),
        views := ly.views[o := v.(written := end, visibleEnd := if v.visibleEnd < end then end else v.visibleEnd)],
        arena := Extend(ly.arena, gs, recs))
  }

  /** What an append needs of a layer once its lease is held and its plan is settled. */
  ghost predicate AppendReady(cfg: Config, ss: map<nat, Session>, ly: Layer, ws: seq<Ticket>, l: nat, o: nat,
                              recs: seq<Record>) {
    && PagesOwned(cfg, ss) && LayerInv(cfg, ss, ly, ws, l) && o in ss && o in ly.views
    && ly.proofs.lease == Some(o) && ly.candidate.None? && ly.pending.None?
    && ly.views[o].stepEnd.Some? && ly.views[o].transientStart.None?
    && 1 <= |recs| <= cfg.slots && ly.views[o].written + |recs| <= ly.views[o].stepEnd.value
    && DenseReady(cfg, ss, ly, o, ly.views[o].written, |recs|)
  }

  /** Victims of an append: distinct rows, none of them holding a certified token of the session. */
  lemma AppendRowsLegal(cfg: Config, ss: map<nat, Session>, ly: Layer, ws: seq<Ticket>, l: nat, o: nat, recs: seq<Record>)
    requires AppendReady(cfg, ss, ly, ws, l, o, recs)
    ensures var rows := AppendRows(cfg, ss, ly, o, |recs|);
      Distinct(rows) && RowIds(ly.store, rows)
  {
    hide HostOK;
    hide TicketsOK;
    hide ArenaOK;
    hide PendingOK;
    hide CandidateOK;
    hide Copies;
    hide PlanSorted;
    var rows := AppendRows(cfg, ss, ly, o, |recs|);
    var start := ly.views[o].written;
    if !Planned(cfg, ss, ly, o, start, |recs|) {
      WithoutCard(Range(1, |ly.store.d2h|), []);
      ChooseTakesOldest(ly.store, [], |recs|);
    } else if cfg.dense {
      assert forall k :: 0 <= k < |recs| ==> rows[k] == ly.proofs.order[start + k] == start + k + 1;
    } else {
      assert forall k :: 0 <= k < |recs| ==> rows[k] == ly.proofs.order[start + k];
    }
  }

  lemma AppendStoreOK(cfg: Config, ss: map<nat, Session>, ly: Layer, o: nat, recs: seq<Record>, rows: seq<nat>,
                      limit: Option<nat>)
    requires PagesOwned(cfg, ss) && StoreOK(cfg, ly) && ArenaOK(ss, ly) && ly.pending.None?
    requires o in ss && o in ly.views && ly.views[o].transientStart.None? && ly.views[o].written + |recs| <= ss[o].capacity
    requires |rows| == |recs| && Distinct(rows) && RowIds(ly.store, rows)
    ensures var gs := NewToks(ss, ly, o, |recs|);
      Refillable(ly.store, gs, rows, recs) &&
      var st := Stamp(ClockEvent(Refill(ly.store, gs, rows, recs), limit), rows);
      MapsAgree(st) && Copies(st, Extend(ly.arena, gs, recs)) && Ages(st, {})
  {
    var gs := NewToks(ss, ly, o, |recs|);
    var st, arena := ly.store, Extend(ly.arena, gs, recs);
    NewToksFresh(cfg, ss, ly, o, |recs|);
    ExtendAt(ly.arena, gs, recs);
    assert Refillable(st, gs, rows, recs);
    assert Copies(st, arena);
    RefillKeeps(st, gs, rows, recs, arena);
    assert Claimed(ly) == {};
    RefillStampAges(st, gs, rows, recs, limit);
    var m := Refill(st, gs, rows, recs);
    SameMaps(m, arena, limit, rows);
  }

  /** Clock events and stamps do not touch maps or rows. */
  lemma SameMaps(st: Store, arena: map<int, Record>, limit: Option<nat>, rows: seq<int>)
    requires MapsAgree(st)
    ensures var r := Stamp(ClockEvent(st, limit), rows);
      && r == st.(prio := r.prio, clock := r.clock) && MapsAgree(r) && (Copies(st, arena) ==> Copies(r, arena))
  {
    ClockEventKeeps(st, limit);
    var r := Stamp(ClockEvent(st, limit), rows);
    assert forall s :: 0 <= s < |st.d2h| ==> Live(r, s) == Live(st, s);
    assert forall g :: 0 <= g < |st.h2d| ==> Mapped(r, g) == Mapped(st, g);
  }

  function QueueTicket(ws: seq<Ticket>, l: nat, o: nat, start: nat, recs: seq<Record>): seq<Ticket> {
    ws + [Ticket(o, l, start, recs, {})]
  }

  lemma QueueFlight(ws: seq<Ticket>, l: nat, o: nat, start: nat, recs: seq<Record>)
    ensures var ws' := QueueTicket(ws, l, o, start, recs);
      && (forall m, q, i: nat :: InFlight(ws, m, q, i) ==> InFlight(ws', m, q, i))
      && (forall m, q, i: nat :: InFlight(ws', m, q, i) ==> InFlight(ws, m, q, i) || (m == l && q == o && start <= i < start + |recs|))
      && (forall i: nat :: start <= i < start + |recs| ==> InFlight(ws', l, o, i))
  {
    var ws' := QueueTicket(ws, l, o, start, recs);
    forall m, q, i: nat | InFlight(ws, m, q, i) ensures InFlight(ws', m, q, i) {
      var n :| 0 <= n < |ws| && Carries(ws[n], m, q, i) && (i - ws[n].start) !in ws[n].landed;
      assert ws'[n] == ws[n];
    }
    forall m, q, i: nat | InFlight(ws', m, q, i)
      ensures InFlight(ws, m, q, i) || (m == l && q == o && start <= i < start + |recs|)
    {
      var n :| 0 <= n < |ws'| && Carries(ws'[n], m, q, i) && (i - ws'[n].start) !in ws'[n].landed;
      if n < |ws| { assert Carries(ws[n], m, q, i); }
    }
    forall i: nat | start <= i < start + |recs| ensures InFlight(ws', l, o, i) {
      assert Carries(ws'[|ws|], l, o, i);
    }
  }

  /** `b` extends the arena `a` by the records of tokens start.. of session `o`. */
  ghost predicate Extends(ss: map<nat, Session>, a: map<int, Record>, b: map<int, Record>, o: nat, start: nat,
                          recs: seq<Record>) {
    && (forall g :: g in a ==> g in b && b[g] == a[g])
    && (forall i: nat :: start <= i < start + |recs| ==> Tok(ss, o, i) in b && b[Tok(ss, o, i)] == recs[i - start])
    && (forall g :: g in b && g !in a ==> exists i: nat :: start <= i < start + |recs| && Tok(ss, o, i) == g)
  }

  /** The next records of a session extend the layer's arena at exactly their tokens. */
  ghost predicate ExtendsNext(ss: map<nat, Session>, ly: Layer, o: nat, recs: seq<Record>) {
    o in ly.views && Extends(ss, ly.arena, Extend(ly.arena, NewToks(ss, ly, o, |recs|), recs), o, ly.views[o].written, recs)
  }

  lemma AppendExtends(cfg: Config, ss: map<nat, Session>, ly: Layer, o: nat, recs: seq<Record>)
    requires PagesOwned(cfg, ss) && ArenaOK(ss, ly) && StoreOK(cfg, ly)
    requires o in ss && o in ly.views && ly.views[o].transientStart.None? && ly.views[o].written + |recs| <= ss[o].capacity
    ensures ExtendsNext(ss, ly, o, recs)
  {
    hide ArenaOK;
    hide MapsAgree;
    hide Copies;
    hide Ages;
    hide PagesOwned;
    NewToksFresh(cfg, ss, ly, o, |recs|);
    hide HostIds;
    hide Mapped;
    hide StoreOK;
    hide Extends;
    hide Extend;
    hide Tok;
    ExtendsOf(ss, ly.arena, NewToks(ss, ly, o, |recs|), recs, o, ly.views[o].written);
  }

  lemma ExtendsOf(ss: map<nat, Session>, arena: map<int, Record>, gs: seq<int>, recs: seq<Record>, o: nat, start: nat)
    requires |gs| == |recs| && Distinct(gs) && (forall k :: 0 <= k < |gs| ==> gs[k] !in arena)
    requires forall k :: 0 <= k < |gs| ==> gs[k] == Tok(ss, o, start + k)
    ensures Extends(ss, arena, Extend(arena, gs, recs), o, start, recs)
  {
    ExtendAt(arena, gs, recs);
    assert forall i: nat :: start <= i < start + |recs| ==> gs[i - start] == Tok(ss, o, i);
    forall g | g in gs ensures exists i: nat :: start <= i < start + |recs| && Tok(ss, o, i) == g {
      var k :| 0 <= k < |gs| && gs[k] == g;
      assert Tok(ss, o, start + k) == g;
    }
  }

  ghost predicate Grown(a: Layer, b: Layer, o: nat, n: nat) {
    && o in a.views && o in b.views && b.host == a.host
    && b.views == a.views[o := a.views[o].(written := a.views[o].written + n, visibleEnd := b.views[o].visibleEnd)]
    && a.views[o].transientStart.None?
  }

  /** The written tokens and their arena entries after the append. */
  lemma AppendArena(ss: map<nat, Session>, a: Layer, b: Layer, o: nat, recs: seq<Record>)
    requires ArenaOK(ss, a) && Grown(a, b, o, |recs|)
    requires Extends(ss, a.arena, b.arena, o, a.views[o].written, recs)
    ensures ArenaOK(ss, b)
  {
    var start := a.views[o].written;
    forall q, i: nat | Backed(b, q, i) ensures Tok(ss, q, i) in b.arena {
      if !(q == o && i >= start) { assert Backed(a, q, i); }
    }
    forall g | g in b.arena ensures exists q, i: nat :: Backed(b, q, i) && Tok(ss, q, i) == g {
      if g in a.arena {
        var q, i: nat :| Backed(a, q, i) && Tok(ss, q, i) == g;
        assert Backed(b, q, i);
      } else {
        var i: nat :| start <= i < start + |recs| && Tok(ss, o, i) == g;
        assert Backed(b, o, i);
      }
    }
  }

  /** Old tokens are held or in flight as before; the new ones are carried by the new ticket. */
  lemma AppendHost(ss: map<nat, Session>, a: Layer, b: Layer, ws: seq<Ticket>, l: nat, o: nat, recs: seq<Record>)
    requires HostOK(ss, a, ws, l) && Grown(a, b, o, |recs|)
    requires forall g :: g in a.arena ==> g in b.arena && b.arena[g] == a.arena[g]
    ensures HostOK(ss, b, QueueTicket(ws, l, o, a.views[o].written, recs), l)
  {
    var start := a.views[o].written;
    QueueFlight(ws, l, o, start, recs);
    forall q, i: nat | Backed(b, q, i)
      ensures HostHolds(ss, b, q, i) || InFlight(QueueTicket(ws, l, o, start, recs), l, q, i)
    {
      if !(q == o && i >= start) {
        assert Backed(a, q, i);
        assert HostHolds(ss, a, q, i) ==> HostHolds(ss, b, q, i);
      }
    }
  }

  lemma AppendTickets(ss: map<nat, Session>, a: Layer, b: Layer, ws: seq<Ticket>, l: nat, o: nat, recs: seq<Record>)
    requires TicketsOK(ss, a, ws, l) && Grown(a, b, o, |recs|)
    requires a.views[o].stepEnd.Some? && a.views[o].length <= a.views[o].written
    requires Extends(ss, a.arena, b.arena, o, a.views[o].written, recs)
    ensures TicketsOK(ss, b, QueueTicket(ws, l, o, a.views[o].written, recs), l)
  {
    var ws' := QueueTicket(ws, l, o, a.views[o].written, recs);
    forall k | 0 <= k < |ws'| && ws'[k].layer == l ensures TicketOK(ss, b, ws'[k]) {
      if k < |ws| { OldTicket(ss, a, b, ws[k], o, |recs|); }
    }
  }

  lemma OldTicket(ss: map<nat, Session>, a: Layer, b: Layer, t: Ticket, o: nat, n: nat)
    requires TicketOK(ss, a, t) && Grown(a, b, o, n)
    requires forall g :: g in a.arena ==> g in b.arena && b.arena[g] == a.arena[g]
    ensures TicketOK(ss, b, t)
  {
    assert forall q, i: nat :: HostHolds(ss, a, q, i) ==> HostHolds(ss, b, q, i);
  }

  // ----- certificates and plan after a planned append

  /** A refill moves a host ID only if its row was chosen. */
  lemma AtRowKept(ss: map<nat, Session>, a: Layer, b: Layer, gs: seq<int>, rows: seq<nat>, recs: seq<Record>, o: nat, i: nat)
    requires MapsAgree(a.store) && Refillable(a.store, gs, rows, recs) && RowIds(a.store, rows)
    requires b.store.h2d == Refill(a.store, gs, rows, recs).h2d
    requires Resident(ss, a, o, i) && a.store.h2d[Tok(ss, o, i)] !in rows
    ensures AtRow(ss, b, o, i, a.store.h2d[Tok(ss, o, i)]) && Resident(ss, b, o, i)
  {
    RefillAt(a.store, gs, rows, recs);
    EvictUnmaps(a.store, rows);
    assert forall k :: 0 <= k < |gs| ==> !Mapped(a.store, gs[k]);
  }

  /** The appended tokens sit in the chosen rows, in order. */
  lemma AtRowNew(ss: map<nat, Session>, a: Layer, b: Layer, rows: seq<nat>, recs: seq<Record>, o: nat, k: nat)
    requires o in a.views && Shaped(a.store)
    requires Refillable(a.store, NewToks(ss, a, o, |recs|), rows, recs) && k < |recs|
    requires b.store.h2d == Refill(a.store, NewToks(ss, a, o, |recs|), rows, recs).h2d
    requires |rows| == |recs| && RowIds(a.store, rows) && |a.store.d2h| <= MISSING
    ensures AtRow(ss, b, o, a.views[o].written + k, rows[k]) && Resident(ss, b, o, a.views[o].written + k)
  {
    RefillAt(a.store, NewToks(ss, a, o, |recs|), rows, recs);
    assert NewToks(ss, a, o, |recs|)[k] == Tok(ss, o, a.views[o].written + k);
  }

  /** Before a planned append every written token sits in its plan row, none of them about to be reused. */
  lemma PlannedPrefix(cfg: Config, ss: map<nat, Session>, ly: Layer, o: nat, count: nat, i: nat)
    requires ViewsOK(cfg, ss, ly) && o in ss && o in ly.views && ly.views[o].transientStart.None?
    requires ProofsOK(cfg, ss, ly) && PlanOK(cfg, ss, ly) && |ly.store.d2h| == cfg.slots + 1 == |ly.store.prio|
    requires Planned(cfg, ss, ly, o, ly.views[o].written, count) && DenseReady(cfg, ss, ly, o, ly.views[o].written, count)
    requires i < ly.views[o].written && |ly.store.d2h| <= MISSING
    ensures i < |ly.proofs.order| && AtRow(ss, ly, o, i, ly.proofs.order[i]) && Resident(ss, ly, o, i)
    ensures ly.proofs.order[i] !in ly.proofs.order[ly.views[o].written .. ly.views[o].written + count]
  {
    hide PlanSorted;
    var start, order := ly.views[o].written, ly.proofs.order;
    if cfg.dense {
      assert Direct(ss, ly, o, i);
    }
  }

  ghost predicate Appended(cfg: Config, ss: map<nat, Session>, a: Layer, b: Layer, o: nat, recs: seq<Record>) {
    && o in ss && Grown(a, b, o, |recs|) && MapsAgree(a.store) && |recs| <= Slots(a.store)
    && var gs, rows := NewToks(ss, a, o, |recs|), AppendRows(cfg, ss, a, o, |recs|);
      Refillable(a.store, gs, rows, recs) && RowIds(a.store, rows)
      && b.store.h2d == Refill(a.store, gs, rows, recs).h2d
  }

  /** After a planned append token `i` sits in plan row `i`, for every written token. */
  lemma PlannedRows(cfg: Config, ss: map<nat, Session>, a: Layer, b: Layer, o: nat, recs: seq<Record>)
    requires Appended(cfg, ss, a, b, o, recs)
    requires ViewsOK(cfg, ss, a) && ProofsOK(cfg, ss, a) && PlanOK(cfg, ss, a)
    requires |a.store.d2h| == cfg.slots + 1 == |a.store.prio|
    requires Planned(cfg, ss, a, o, a.views[o].written, |recs|) && DenseReady(cfg, ss, a, o, a.views[o].written, |recs|)
    ensures forall i: nat :: i < a.views[o].written + |recs| ==>
      i < |a.proofs.order| && Resident(ss, b, o, i) && AtRow(ss, b, o, i, a.proofs.order[i])
  {
    var start, rows := a.views[o].written, AppendRows(cfg, ss, a, o, |recs|);
    forall i: nat | i < start + |recs|
      ensures i < |a.proofs.order| && Resident(ss, b, o, i) && AtRow(ss, b, o, i, a.proofs.order[i])
    {
      hide ProofsOK;
      hide PlanOK;
      hide ViewsOK;
      hide Refill;
      hide AtRow;
      hide Resident;
      if i < start {
        PlannedPrefix(cfg, ss, a, o, |recs|, i);
        PlannedOld(ss, a, b, rows, recs, o, i);
      } else {
        AtRowNew(ss, a, b, rows, recs, o, i - start);
      }
    }
  }

  /** The residency and direct-layout certificates after an append. */
  lemma AppendProofsOK(cfg: Config, ss: map<nat, Session>, a: Layer, b: Layer, o: nat, recs: seq<Record>)
    requires Appended(cfg, ss, a, b, o, recs) && a.proofs.lease == Some(o)
    requires ViewsOK(cfg, ss, a) && ProofsOK(cfg, ss, a) && PlanOK(cfg, ss, a)
    requires |a.store.d2h| == cfg.slots + 1 == |a.store.prio|
    requires DenseReady(cfg, ss, a, o, a.views[o].written, |recs|)
    requires b.proofs == AppendDone(cfg, a.proofs, Planned(cfg, ss, a, o, a.views[o].written, |recs|), o, a.views[o].written + |recs|)
    ensures ProofsOK(cfg, ss, b)
  {
    hide PlanOK;
    hide ViewsOK;
    hide Refill;
    hide AtRow;
    hide Resident;
    hide RowIds;
    hide AppendRows;
    if Planned(cfg, ss, a, o, a.views[o].written, |recs|) {
      PlannedRows(cfg, ss, a, b, o, recs);
      forall i: nat | i < b.proofs.denseEnd && cfg.dense ensures Direct(ss, b, o, i) {
        assert AtRow(ss, b, o, i, a.proofs.order[i]);
      }
    }
  }

  lemma PlannedOld(ss: map<nat, Session>, a: Layer, b: Layer, rows: seq<nat>, recs: seq<Record>, o: nat, i: nat)
    requires MapsAgree(a.store) && o in a.views && i < |a.proofs.order| && RowIds(a.store, rows)
    requires Refillable(a.store, NewToks(ss, a, o, |recs|), rows, recs)
    requires b.store.h2d == Refill(a.store, NewToks(ss, a, o, |recs|), rows, recs).h2d
    requires AtRow(ss, a, o, i, a.proofs.order[i]) && Resident(ss, a, o, i) && a.proofs.order[i] !in rows
    ensures Resident(ss, b, o, i) && AtRow(ss, b, o, i, a.proofs.order[i])
  {
    AtRowKept(ss, a, b, NewToks(ss, a, o, |recs|), rows, recs, o, i);
  }

  // ----- the plan stays a FIFO order

  /** Consuming plan entries by stamping them newest leaves the rest in FIFO order. */
  lemma ConsumeKeepsOrder(prio: seq<int>, prio': seq<int>, order: seq<nat>, cursor: nat, end: nat)
    requires cursor <= end <= |order| && |prio'| == |prio| && (forall i :: 0 <= i < |order| ==> order[i] < |prio|)
    requires PlanSorted(prio, order, cursor)
    requires forall i, j ::
          end <= i < |order| && end <= j < |order| ==> (prio'[order[i]] < prio'[order[j]] <==> prio[order[i]] < prio[order[j]])
    requires forall i, j :: 0 <= i < end <= j < |order| ==> prio'[order[i]] > prio'[order[j]]
    ensures PlanSorted(prio', order, end)
  {
    forall i, j | end <= i < j < |order| ensures Before(prio', order[i], order[j]) {
      assert Before(prio, order[i], order[j]);
    }
  }

  /** Refilling and stamping rows keeps the order of the others and makes the refilled ones newest. */
  lemma RefillOrder(st: Store, gs: seq<int>, rows: seq<nat>, recs: seq<Record>, limit: Option<nat>)
    requires Shaped(st) && Ages(st, {}) && Refillable(st, gs, rows, recs) && RowIds(st, rows)
    ensures var prio' := Stamp(ClockEvent(Refill(st, gs, rows, recs), limit), rows).prio;
      && (forall s, t :: 1 <= s < |st.d2h| && 1 <= t < |st.d2h| && s !in rows && t !in rows ==>
            (prio'[s] < prio'[t] <==> st.prio[s] < st.prio[t]))
      && (forall s, t :: 1 <= s < |st.d2h| && 1 <= t < |st.d2h| && s !in rows && t in rows ==> prio'[s] < prio'[t])
  {
    var m := Refill(st, gs, rows, recs);
    RefillAt(st, gs, rows, recs);
    assert forall s :: 1 <= s < |st.d2h| && s !in rows ==> Live(m, s) == Live(st, s) && m.prio[s] == st.prio[s];
    assert AgedOutside(m, rows);
    hide Refill;
    StampOrder(m, limit, rows);
  }

  /** A planned append consumes the head of the FIFO order and leaves the tail exactly FIFO. */
  lemma PlanAdvances(st: Store, gs: seq<int>, recs: seq<Record>, order: seq<nat>, start: nat, end: nat, limit: Option<nat>)
    requires Shaped(st) && Ages(st, {}) && start <= end <= |order| && Distinct(order)
    requires forall i :: 0 <= i < |order| ==> 1 <= order[i] < |st.d2h|
    requires PlanSorted(st.prio, order, start) && Refillable(st, gs, order[start..end], recs) && RowIds(st, order[start..end])
    ensures PlanSorted(Stamp(ClockEvent(Refill(st, gs, order[start..end], recs), limit), order[start..end]).prio, order, end)
  {
    var rows := order[start..end];
    hide Refill;
    hide ClockEvent;
    hide Stamp;
    RefillOrder(st, gs, rows, recs, limit);
    hide Refillable;
    hide Ages;
    var prio' := Stamp(ClockEvent(Refill(st, gs, rows, recs), limit), rows).prio;
    assert forall j :: 0 <= j < start || end <= j < |order| ==> order[j] !in rows;
    assert forall j :: start <= j < end ==> order[j] == rows[j - start] && order[j] in rows;
    ConsumeKeepsOrder(st.prio, prio', order, start, end);
  }

  lemma AppendPlanOK(cfg: Config, ss: map<nat, Session>, a: Layer, b: Layer, o: nat, recs: seq<Record>, limit: Option<nat>)
    requires Appended(cfg, ss, a, b, o, recs) && a.proofs.lease == Some(o) && Ages(a.store, {})
    requires ViewsOK(cfg, ss, a) && ProofsOK(cfg, ss, a) && PlanOK(cfg, ss, a)
    requires |a.store.d2h| == cfg.slots + 1 == |a.store.prio|
    requires DenseReady(cfg, ss, a, o, a.views[o].written, |recs|)
    requires b.proofs == AppendDone(cfg, a.proofs, Planned(cfg, ss, a, o, a.views[o].written, |recs|), o, a.views[o].written + |recs|)
    requires var rows := AppendRows(cfg, ss, a, o, |recs|);
      b.store == Stamp(ClockEvent(Refill(a.store, NewToks(ss, a, o, |recs|), rows, recs), limit), rows)
    ensures PlanOK(cfg, ss, b)
  {
    hide ViewsOK;
    hide Refill;
    hide ClockEvent;
    hide Stamp;
    hide PlanSorted;
    hide AtRow;
    hide Ages;
    hide Refillable;
    hide ProofsOK;
    var start := a.views[o].written;
    if Planned(cfg, ss, a, o, start, |recs|) && !cfg.dense {
      PlannedRows(cfg, ss, a, b, o, recs);
      PlanAdvances(a.store, NewToks(ss, a, o, |recs|), recs, a.proofs.order, start, start + |recs|, limit);
    }
  }

  /** While the plan is valid, its next entries are exactly what a fresh FIFO decision would choose. */
  lemma PlanIsFreshChoice(st: Store, order: seq<nat>, start: nat, count: nat)
    requires Shaped(st) && Ages(st, {}) && |order| == Slots(st) && start + count <= |order| && Distinct(order)
    requires forall i :: 0 <= i < |order| ==> 1 <= order[i] < |st.d2h|
    requires PlanSorted(st.prio, order, start)
    ensures count <= |Available(st, [])| && order[start .. start + count] == Choose(st, [], count)
  {
    WithoutCard(Range(1, |st.d2h|), []);
    WithoutDistinct(Range(1, |st.d2h|), []);
    var rank, all := VictimRank(st), Available(st, []);
    RankIsAge(st);
    hide Ages;
    hide VictimRank;
    DistinctCovers(order, Slots(st));
    forall i, j | start <= i < j < |order| ensures Before(rank, order[i], order[j]) {
      assert Before(st.prio, order[i], order[j]);
    }
    forall i, j | 0 <= i < start <= j < |order| ensures Before(rank, order[j], order[i]) {
      assert st.prio[order[i]] > st.prio[order[j]];
    }
    assert forall y: int :: y in all <==> 1 <= y < |st.d2h|;
    SortRotated(rank, order, start, all);
    TakeOfTail(order, Sort(rank, order[..start]), start, count);
  }

  // ----- the whole operation

  function SettlePlan(cfg: Config, ly: Layer, o: nat, count: nat): Layer
    requires o in ly.views && Shaped(ly.store)
  {
    ly.(proofs := PlanProofs(cfg, ly, o, ly.views[o].written, count))
  }

  /** Settling the plan publishes nothing the maps and priorities do not show. */
  lemma SettlePlanInv(cfg: Config, ss: map<nat, Session>, ly: Layer, ws: seq<Ticket>, l: nat, o: nat, count: nat)
    requires LayerInv(cfg, ss, ly, ws, l) && o in ly.views && o in ss && ly.proofs.lease == Some(o)
    requires ly.pending.None? && ly.views[o].transientStart.None?
    ensures LayerInv(cfg, ss, SettlePlan(cfg, ly, o, count), ws, l)
  {
    var r := SettlePlan(cfg, ly, o, count);
    var start := ly.views[o].written;
    FrameHost(ss, ly, r, ws, l);
    FrameTicketsAll(ss, ly, r, ws, l);
    hide HostOK;
    hide ArenaOK;
    hide TicketsOK;
    hide MapsAgree;
    hide Copies;
    hide AtRow;
    assert forall q, i: nat :: Direct(ss, ly, q, i) == Direct(ss, r, q, i);
    assert forall q, i: nat :: Resident(ss, ly, q, i) == Resident(ss, r, q, i);
    if !cfg.dense && start == 0 && count <= cfg.slots {
      FreshPlan(ly.store.prio);
    }
  }

  lemma FrameTicketsAll(ss: map<nat, Session>, a: Layer, b: Layer, ws: seq<Ticket>, l: nat)
    requires b.arena == a.arena && b.host == a.host && b.views == a.views && TicketsOK(ss, a, ws, l)
    ensures TicketsOK(ss, b, ws, l)
  {
    assert forall q, i: nat :: HostHolds(ss, a, q, i) == HostHolds(ss, b, q, i);
  }

  lemma FreshPlan(prio: seq<int>)
    requires |prio| >= 1
    ensures var order := Sort(prio, Range(1, |prio|));
      |order| == |prio| - 1 && Distinct(order) && (forall i :: 0 <= i < |order| ==> 1 <= order[i] < |prio|) && PlanSorted(prio, order, 0)
  {
    var xs := Range(1, |prio|);
    SortSorts(prio, xs);
    SortedDistinct(prio, Sort(prio, xs));
    assert forall i :: 0 <= i < |xs| ==> Sort(prio, xs)[i] in Sort(prio, xs);
  }

  function Leased(p: Pool, o: nat, l: nat): Pool
    requires l < |p.layers|
  {
    SetLayer(p, l, LeaseTo(p.layers[l], o))
  }

  lemma LeasedInv(p: Pool, o: nat, l: nat)
    requires Inv(p) && Exists(p, o, l) && LeaseFree(p, o, l)
    ensures Inv(Leased(p, o, l))
  {
    hide LayerInv;
    LeaseToInv(p.cfg, p.sessions, p.layers[l], p.writes, l, o);
    LayerStepInv(p, l, LeaseTo(p.layers[l], o));
  }

  /** The pool once the lease is held and the plan settled. */
  function PlannedPool(p: Pool, o: nat, l: nat, count: nat): Pool
    requires Exists(p, o, l) && Shaped(p.layers[l].store)
  {
    SetLayer(p, l, SettlePlan(p.cfg, LeaseTo(p.layers[l], o), o, count))
  }

  lemma PlannedPoolInv(p: Pool, o: nat, l: nat, count: nat)
    requires Inv(p) && CanAppend(p, o, l, count) && p.layers[l].views[o].transientStart.None? && Shaped(p.layers[l].store)
    ensures Inv(PlannedPool(p, o, l, count))
  {
    NoPending(p, o, l);
    LeaseToInv(p.cfg, p.sessions, p.layers[l], p.writes, l, o);
    hide LayerInv;
    SettlePlanInv(p.cfg, p.sessions, LeaseTo(p.layers[l], o), p.writes, l, o, count);
    LayerStepInv(p, l, SettlePlan(p.cfg, LeaseTo(p.layers[l], o), o, count));
  }

  /** A clock event at the limit drains first; a new writeback first makes room in the queue. */
  function MakeRoom(p: Pool, l: nat): (r: Pool)
    requires l < |p.layers| && InLayers(p) && p.cfg.maxWrites >= 1
    ensures OnlyHost(p, r) && InLayers(r) && |r.writes| < r.cfg.maxWrites
  {
    Reap(if AtLimit(p.layers[l].store, p.cfg.limit) then Drain(p) else p, true)
  }

  lemma MakeRoomInv(p: Pool, l: nat)
    requires Inv(p) && l < |p.layers| && InLayers(p) && p.cfg.maxWrites >= 1
    ensures Inv(MakeRoom(p, l))
  {
    hide Inv;
    if AtLimit(p.layers[l].store, p.cfg.limit) {
      DrainInv(p);
      ReapInv(Drain(p), true);
    } else {
      ReapInv(p, true);
    }
  }

  /** A session whose own step may append sees no prepared prefetch anywhere. */
  lemma NoPending(p: Pool, o: nat, l: nat)
    requires l < |p.layers| && LeaseFree(p, o, l) && (p.layers[l].pending.Some? ==> p.layers[l].pending.value.owner != o)
    ensures forall m :: 0 <= m < |p.layers| ==> p.layers[m].pending.None?
  {
  }

  /** The tables name a legal host ID for every new token and a legal row to put it in. */
  ghost predicate Placeable(p: Pool, o: nat, l: nat, recs: seq<Record>) {
    && Exists(p, o, l) && Shaped(p.layers[l].store) && |recs| <= Slots(p.layers[l].store)
    && HostIds(p.layers[l].store, NewToks(p.sessions, p.layers[l], o, |recs|))
    && RowIds(p.layers[l].store, AppendRows(p.cfg, p.sessions, p.layers[l], o, |recs|))
  }

  /** Place the records and queue their writeback. */
  function PlaceAppend(p: Pool, o: nat, l: nat, recs: seq<Record>): Pool
    requires Placeable(p, o, l, recs)
  {
    var ly := p.layers[l];
    SetLayer(p, l, AppendAt(p.cfg, p.sessions, ly, o, recs, p.cfg.limit))
      .(writes := QueueTicket(p.writes, l, o, ly.views[o].written, recs))
  }

  /** The placement is well-defined: fresh host IDs, legal rows. */
  lemma AppendLegal(cfg: Config, ss: map<nat, Session>, ly: Layer, ws: seq<Ticket>, l: nat, o: nat, recs: seq<Record>)
    requires AppendReady(cfg, ss, ly, ws, l, o, recs)
    ensures Shaped(ly.store) && |recs| <= Slots(ly.store)
    ensures HostIds(ly.store, NewToks(ss, ly, o, |recs|)) && RowIds(ly.store, AppendRows(cfg, ss, ly, o, |recs|))
    ensures Refillable(ly.store, NewToks(ss, ly, o, |recs|), AppendRows(cfg, ss, ly, o, |recs|), recs)
    ensures ly.views[o].written + |recs| <= ss[o].capacity && ly.views[o].length <= ly.views[o].written
  {
    AppendRowsLegal(cfg, ss, ly, ws, l, o, recs);
    hide PlanOK;
    hide ProofsOK;
    hide TicketsOK;
    hide HostOK;
    hide AppendRows;
    hide DenseReady;
    assert ViewOK(cfg, ss[o], ly.views[o]);
    NewToksFresh(cfg, ss, ly, o, |recs|);
  }

  lemma AppendStoreViews(cfg: Config, ss: map<nat, Session>, ly: Layer, ws: seq<Ticket>, l: nat, o: nat,
                         recs: seq<Record>, limit: Option<nat>)
    requires AppendReady(cfg, ss, ly, ws, l, o, recs)
    requires HostIds(ly.store, NewToks(ss, ly, o, |recs|)) && RowIds(ly.store, AppendRows(cfg, ss, ly, o, |recs|))
    ensures var r := AppendAt(cfg, ss, ly, o, recs, limit);
      StoreOK(cfg, r) && ViewsOK(cfg, ss, r) && CandidateOK(cfg, r) && Appended(cfg, ss, ly, r, o, recs)
  {
    AppendLegal(cfg, ss, ly, ws, l, o, recs);
    hide PlanOK;
    hide ProofsOK;
    hide TicketsOK;
    hide HostOK;
    hide AppendRows;
    hide DenseReady;
    hide Planned;
    hide AppendDone;
    AppendRowsLegal(cfg, ss, ly, ws, l, o, recs);
    AppendStoreOK(cfg, ss, ly, o, recs, AppendRows(cfg, ss, ly, o, |recs|), limit);
    hide ArenaOK;
    hide Copies;
    hide MapsAgree;
    hide Ages;
    var gs, rows := NewToks(ss, ly, o, |recs|), AppendRows(cfg, ss, ly, o, |recs|);
    ClockEventKeeps(Refill(ly.store, gs, rows, recs), limit);
    hide Refill;
    hide ClockEvent;
    var r := AppendAt(cfg, ss, ly, o, recs, limit);
    assert Claimed(r) == {};
    assert r.views.Keys == ly.views.Keys;
    assert ViewOK(cfg, ss[o], ly.views[o]);
  }

  /** One layer's invariant across the placement, with its new ticket queued. */
  lemma AppendLayerInv(cfg: Config, ss: map<nat, Session>, ly: Layer, ws: seq<Ticket>, l: nat, o: nat,
                       recs: seq<Record>, limit: Option<nat>)
    requires AppendReady(cfg, ss, ly, ws, l, o, recs)
    requires HostIds(ly.store, NewToks(ss, ly, o, |recs|)) && RowIds(ly.store, AppendRows(cfg, ss, ly, o, |recs|))
    ensures LayerInv(cfg, ss, AppendAt(cfg, ss, ly, o, recs, limit), QueueTicket(ws, l, o, ly.views[o].written, recs), l)
  {
    hide MapsAgree, Copies, ArenaOK, HostOK, TicketsOK, PlanOK, ProofsOK, ViewsOK, CandidateOK, Ages, PagesOwned;
    hide Refill, ClockEvent, Stamp, NewToks, Planned, DenseReady, AppendRows, Extends, Appended, HostIds, RowIds, Refillable;
    AppendLegal(cfg, ss, ly, ws, l, o, recs);
    AppendStoreViews(cfg, ss, ly, ws, l, o, recs, limit);
    var r := AppendAt(cfg, ss, ly, o, recs, limit);
    AppendExtends(cfg, ss, ly, o, recs);
    AppendArena(ss, ly, r, o, recs);
    AppendHost2(ss, ly, r, ws, l, o, recs);
    AppendTickets(ss, ly, r, ws, l, o, recs);
    assert Claimed(ly) == {};
    AppendProofsOK(cfg, ss, ly, r, o, recs);
    AppendPlanOK(cfg, ss, ly, r, o, recs, limit);
  }

  lemma AppendHost2(ss: map<nat, Session>, a: Layer, b: Layer, ws: seq<Ticket>, l: nat, o: nat, recs: seq<Record>)
    requires HostOK(ss, a, ws, l) && Grown(a, b, o, |recs|)
    requires Extends(ss, a.arena, b.arena, o, a.views[o].written, recs)
    ensures HostOK(ss, b, QueueTicket(ws, l, o, a.views[o].written, recs), l)
  {
    AppendHost(ss, a, b, ws, l, o, recs);
  }

  /** A ticket of another layer does not matter to this one. */
  lemma ForeignTicket(cfg: Config, ss: map<nat, Session>, ly: Layer, ws: seq<Ticket>, m: nat, l: nat, o: nat,
                      start: nat, recs: seq<Record>)
    requires LayerInv(cfg, ss, ly, ws, m) && m != l
    ensures LayerInv(cfg, ss, ly, QueueTicket(ws, l, o, start, recs), m)
  {
    hide StoreOK;
    hide ViewsOK;
    hide ArenaOK;
    hide CandidateOK;
    hide ProofsOK;
    hide PlanOK;
    hide HostHolds;
    hide TicketOK;
    var ws' := QueueTicket(ws, l, o, start, recs);
    QueueFlight(ws, l, o, start, recs);
    assert forall k :: 0 <= k < |ws'| && ws'[k].layer == m ==> k < |ws| && ws'[k] == ws[k];
  }

  lemma QueueStepInv(p: Pool, l: nat, ly: Layer, o: nat, start: nat, recs: seq<Record>)
    requires Inv(p) && l < |p.layers| && |p.writes| < p.cfg.maxWrites
    requires LayerInv(p.cfg, p.sessions, ly, QueueTicket(p.writes, l, o, start, recs), l)
    requires ly.pending.None? && ly.proofs.lease == p.layers[l].proofs.lease
    ensures Inv(SetLayer(p, l, ly).(writes := QueueTicket(p.writes, l, o, start, recs)))
  {
    hide LayerInv;
    var r := SetLayer(p, l, ly).(writes := QueueTicket(p.writes, l, o, start, recs));
    forall m | 0 <= m < |r.layers| ensures LayerInv(r.cfg, r.sessions, r.layers[m], r.writes, m) {
      if m != l { ForeignTicket(p.cfg, p.sessions, p.layers[m], p.writes, m, l, o, start, recs); }
    }
  }

  lemma PlaceAppendInv(p: Pool, o: nat, l: nat, recs: seq<Record>)
    requires Inv(p) && Exists(p, o, l) && AppendReady(p.cfg, p.sessions, p.layers[l], p.writes, l, o, recs)
    requires |p.writes| < p.cfg.maxWrites && Placeable(p, o, l, recs)
    ensures Inv(PlaceAppend(p, o, l, recs))
  {
    hide Inv;
    hide LayerInv;
    hide AppendRows;
    hide NewToks;
    hide HostIds;
    hide RowIds;
    hide DenseReady;
    hide PagesOwned;
    var ly := p.layers[l];
    AppendLayerInv(p.cfg, p.sessions, ly, p.writes, l, o, recs, p.cfg.limit);
    QueueStepInv(p, l, AppendAt(p.cfg, p.sessions, ly, o, recs, p.cfg.limit), o, ly.views[o].written, recs);
  }

  /** The source accepts this append in an open persistent step. */
  ghost predicate CanPersist(p: Pool, o: nat, l: nat, recs: seq<Record>) {
    && Inv(p) && CanAppend(p, o, l, |recs|) && p.layers[l].views[o].transientStart.None?
    && DenseReady(p.cfg, p.sessions, LeaseTo(p.layers[l], o), o, p.layers[l].views[o].written, |recs|)
  }

  /** `append` of a persistent step: settle the plan, make room in the queue, place the records. */
  ghost function AppendPersistent(p: Pool, o: nat, l: nat, recs: seq<Record>): Pool {
    if !Sane(p) || !Exists(p, o, l) then p
    else
      var q := MakeRoom(PlannedPool(p, o, l, |recs|), l);
      if Placeable(q, o, l, recs) then PlaceAppend(q, o, l, recs) else q
  }

  lemma AppendPersistentLegal(p: Pool, o: nat, l: nat, recs: seq<Record>)
    requires CanPersist(p, o, l, recs)
    ensures Sane(p) && InLayers(PlannedPool(p, o, l, |recs|))
    ensures var r := MakeRoom(PlannedPool(p, o, l, |recs|), l);
      Inv(r) && Exists(r, o, l) && AppendReady(r.cfg, r.sessions, r.layers[l], r.writes, l, o, recs) && Placeable(r, o, l, recs)
  {
    InvSane(p);
    assert LayerInv(p.cfg, p.sessions, p.layers[l], p.writes, l);
    PlannedPoolInv(p, o, l, |recs|);
    var q := PlannedPool(p, o, l, |recs|);
    MakeRoomInv(q, l);
    var r := MakeRoom(q, l);
    NoPending(p, o, l);
    AppendReadyAfter(p, r, o, l, recs);
    hide AppendReady;
    hide LayerInv;
    hide AppendRows;
    AppendLegal(r.cfg, r.sessions, r.layers[l], r.writes, l, o, recs);
  }

  lemma AppendReadyAfter(p: Pool, r: Pool, o: nat, l: nat, recs: seq<Record>)
    requires Inv(p) && CanAppend(p, o, l, |recs|) && p.layers[l].views[o].transientStart.None? && Shaped(p.layers[l].store)
    requires DenseReady(p.cfg, p.sessions, LeaseTo(p.layers[l], o), o, p.layers[l].views[o].written, |recs|)
    requires p.layers[l].pending.None? && OnlyHost(PlannedPool(p, o, l, |recs|), r) && Inv(r)
    ensures AppendReady(r.cfg, r.sessions, r.layers[l], r.writes, l, o, recs)
  {
    assert LayerInv(p.cfg, p.sessions, p.layers[l], p.writes, l);
    assert CandidateOK(p.cfg, p.layers[l]);
    hide LayerInv;
    hide TicketsOK;
    hide HostOK;
    hide ArenaOK;
    hide PlanOK;
    hide ProofsOK;
    hide MapsAgree;
    hide Copies;
    hide Ages;
  }

  lemma AppendPersistentInv(p: Pool, o: nat, l: nat, recs: seq<Record>)
    requires CanPersist(p, o, l, recs)
    ensures Inv(AppendPersistent(p, o, l, recs))
  {
    hide AppendReady;
    hide Inv;
    AppendPersistentLegal(p, o, l, recs);
    PlaceAppendInv(MakeRoom(PlannedPool(p, o, l, |recs|), l), o, l, recs);
  }

  // ----- what an append means

  lemma AppendMeaning(ss: map<nat, Session>, a: Layer, b: Layer, o: nat, recs: seq<Record>)
    requires ArenaOK(ss, a) && Grown(a, b, o, |recs|)
    requires a.views[o].tail == []
    requires Extends(ss, a.arena, b.arena, o, a.views[o].written, recs)
    ensures Logical(ss, b, o) == Logical(ss, a, o) + recs
    ensures forall q :: q in a.views && q != o ==> q in b.views && Logical(ss, b, q) == Logical(ss, a, q)
  {
    var x, y := Logical(ss, b, o), Logical(ss, a, o) + recs;
    forall i: nat | i < |x| ensures x[i] == y[i] {
      if i < a.views[o].written {
        assert Backed(a, o, i);
        assert Entry(ss, b, o, i) == Entry(ss, a, o, i);
      } else {
        assert Entry(ss, b, o, i) == recs[i - a.views[o].written];
      }
    }
    forall q | q in a.views && q != o ensures Logical(ss, b, q) == Logical(ss, a, q) {
      assert forall i: nat :: i < HostEnd(a.views[q]) ==> Backed(a, q, i);
      LogicalSame(ss, a, b, q);
    }
  }

  /** A persistent append extends exactly its own session's sequence on its own layer. */
  lemma AppendPersistentMeaning(p: Pool, o: nat, l: nat, recs: seq<Record>)
    requires CanPersist(p, o, l, recs)
    ensures var r := AppendPersistent(p, o, l, recs);
      && l < |r.layers| == |p.layers| && o in r.layers[l].views && r.sessions == p.sessions
      && Logical(r.sessions, r.layers[l], o) == Logical(p.sessions, p.layers[l], o) + recs
      && SameLogicalBut(p, r, l, o)
  {
    hide Inv;
    hide AppendReady;
    hide AppendRows;
    hide HostIds;
    hide RowIds;
    hide NewToks;
    hide DenseReady;
    AppendPersistentLegal(p, o, l, recs);
    var q := MakeRoom(PlannedPool(p, o, l, |recs|), l);
    var r := PlaceAppend(q, o, l, recs);
    PlaceAppendMeaning(q, o, l, recs);
    hide AppendAt;
    hide LeaseFree;
    AppendOthers(p, q, r, o, l);
  }

  lemma PlaceAppendMeaning(q: Pool, o: nat, l: nat, recs: seq<Record>)
    requires Exists(q, o, l) && AppendReady(q.cfg, q.sessions, q.layers[l], q.writes, l, o, recs) && Placeable(q, o, l, recs)
    ensures var a, b := q.layers[l], PlaceAppend(q, o, l, recs).layers[l];
      o in b.views && Logical(q.sessions, b, o) == Logical(q.sessions, a, o) + recs
      && (forall x :: x in a.views && x != o ==> x in b.views && Logical(q.sessions, b, x) == Logical(q.sessions, a, x))
  {
    var ss, a := q.sessions, q.layers[l];
    AppendLegal(q.cfg, ss, a, q.writes, l, o, recs);
    assert ArenaOK(ss, a) && StoreOK(q.cfg, a);
    assert ViewOK(q.cfg, ss[o], a.views[o]);
    hide LayerInv;
    hide StoreOK;
    hide ArenaOK;
    hide AppendRows;
    hide DenseReady;
    hide Refillable;
    AppendExtends(q.cfg, ss, a, o, recs);
    hide PagesOwned;
    hide NewToks;
    hide HostIds;
    hide RowIds;
    hide Extends;
    AppendMeaning(ss, a, PlaceAppend(q, o, l, recs).layers[l], o, recs);
  }

  lemma AppendOthers(p: Pool, q: Pool, r: Pool, o: nat, l: nat)
    requires l < |p.layers| == |q.layers| == |r.layers| && p.sessions == q.sessions == r.sessions
    requires forall m :: 0 <= m < |p.layers| ==> q.layers[m].views == p.layers[m].views && q.layers[m].arena == p.layers[m].arena
    requires forall m :: 0 <= m < |p.layers| && m != l ==> r.layers[m] == q.layers[m]
    requires forall x :: x in q.layers[l].views && x != o ==>
      x in r.layers[l].views && Logical(r.sessions, r.layers[l], x) == Logical(q.sessions, q.layers[l], x)
    ensures SameLogicalBut(p, r, l, o)
    ensures o in p.layers[l].views ==> Logical(p.sessions, p.layers[l], o) == Logical(q.sessions, q.layers[l], o)
  {
    forall m, x | 0 <= m < |p.layers| && x in p.layers[m].views ensures Logical(p.sessions, p.layers[m],
          x) == Logical(q.sessions, q.layers[m], x) {
      LogicalSame(p.sessions, p.layers[m], q.layers[m], x);
    }
  }

  // ----- GPU-only suffix

  function AppendTransientAt(cfg: Config, ly: Layer, o: nat, recs: seq<Record>): Layer
    requires o in ly.views && cfg.slots + 1 + |ly.views[o].tail| + |recs| <= |ly.store.rows|
  {
    var v := ly.views[o];
    var first := cfg.slots + 1 + |v.tail|;
    var end := v.written + |recs|;
    var rows := ly.store.rows;
    ly.(store := ly.store.(rows := rows[..first] + recs + rows[first + |recs|..]),
        views := ly.views[o := v.(written := end, visibleEnd := if v.visibleEnd < end then end else v.visibleEnd, tail := v.tail + recs)])
  }

  ghost predicate TransientReady(cfg: Config, ss: map<nat, Session>, ly: Layer, ws: seq<Ticket>, l: nat, o: nat, n: nat) {
    && LayerInv(cfg, ss, ly, ws, l) && o in ly.views && o in ss && ly.pending.None?
    && ly.views[o].transientStart.Some? && ly.views[o].written + n <= ly.views[o].stepEnd.value
  }

  lemma AppendTransientLayer(cfg: Config, ss: map<nat, Session>, ly: Layer, ws: seq<Ticket>, l: nat, o: nat, recs: seq<Record>)
    requires ly.views.Keys == ss.Keys && o in ss && ViewOK(cfg, ss[o], ly.views[o])
    requires TransientReady(cfg, ss, ly, ws, l, o, |recs|)
    ensures cfg.slots + 1 + |ly.views[o].tail| + |recs| <= |ly.store.rows|
    ensures LayerInv(cfg, ss, AppendTransientAt(cfg, ly, o, recs), ws, l)
  {
    hide HostOK, ArenaOK, ProofsOK, PlanOK, TicketsOK, MapsAgree, Copies, Ages, PendingOK;
    NoStepNoTickets(ss, ly, ws, l, o);
    assert |ly.store.rows| == cfg.slots + 1 + cfg.candidates;
    var r := AppendTransientAt(cfg, ly, o, recs);
    TransientStore(cfg, ly, r, recs);
    TransientPending(cfg, ly, r, ws, l);
    assert forall q, i: nat :: Backed(r, q, i) <==> Backed(ly, q, i);
    FrameHost(ss, ly, r, ws, l);
    FrameProofs(cfg, ss, ly, r);
    FrameTickets(ss, ly, r, ws, l, o);
    assert r.views.Keys == ly.views.Keys;
    assert TailAt(cfg, ly.store, ly.views[o].tail);
    assert TailAt(cfg, r.store, r.views[o].tail);
  }

  lemma TransientPending(cfg: Config, a: Layer, b: Layer, ws: seq<Ticket>, l: nat)
    requires PendingOK(cfg, a, ws, l) && a.pending.None? && b.pending.None?
    ensures PendingOK(cfg, b, ws, l)
  {
  }

  /** Writing candidate rows leaves the mapped rows alone. */
  lemma TransientStore(cfg: Config, a: Layer, b: Layer, recs: seq<Record>)
    requires StoreOK(cfg, a) && b.arena == a.arena && b.pending == a.pending
    requires b.store == a.store.(rows := b.store.rows) && |b.store.rows| == |a.store.rows|
    requires forall s :: 0 <= s <= cfg.slots ==> b.store.rows[s] == a.store.rows[s]
    ensures MapsAgree(b.store) && Copies(b.store, b.arena) && Ages(b.store, Claimed(b))
  {
    assert forall s :: 0 <= s < |a.store.d2h| ==> Live(a.store, s) == Live(b.store, s);
    assert forall g :: 0 <= g < |a.store.h2d| ==> Mapped(a.store, g) == Mapped(b.store, g);
  }

  /** `append` of a transient step: rows after the history pool, no map, no host copy. */
  function AppendTransient(p: Pool, o: nat, l: nat, recs: seq<Record>): Pool
    requires Exists(p, o, l) && p.cfg.slots + 1 + |p.layers[l].views[o].tail| + |recs| <= |p.layers[l].store.rows|
  {
    SetLayer(p, l, AppendTransientAt(p.cfg, LeaseTo(p.layers[l], o), o, recs))
  }

  lemma AppendTransientInv(p: Pool, o: nat, l: nat, recs: seq<Record>)
    requires Inv(p) && CanAppend(p, o, l, |recs|) && p.layers[l].views[o].transientStart.Some?
    ensures p.cfg.slots + 1 + |p.layers[l].views[o].tail| + |recs| <= |p.layers[l].store.rows|
    ensures Inv(AppendTransient(p, o, l, recs))
    ensures var a, b := p.layers[l], AppendTransient(p, o, l, recs).layers[l];
      o in b.views && Logical(p.sessions, b, o) == Logical(p.sessions, a, o) + recs && SameLogicalBut(p,
            AppendTransient(p, o, l, recs), l, o)
  {
    NoPending(p, o, l);
    LeaseToInv(p.cfg, p.sessions, p.layers[l], p.writes, l, o);
    var ly := LeaseTo(p.layers[l], o);
    assert ly.views.Keys == p.sessions.Keys && ViewOK(p.cfg, p.sessions[o], ly.views[o]);
    hide LayerInv;
    AppendTransientLayer(p.cfg, p.sessions, ly, p.writes, l, o, recs);
    var r := AppendTransientAt(p.cfg, ly, o, recs);
    LayerStepInv(p, l, r);
    TransientMeaning(p, l, o, r, recs);
  }

  lemma TransientMeaning(p: Pool, l: nat, o: nat, r: Layer, recs: seq<Record>)
    requires l < |p.layers| && o in p.layers[l].views
    requires p.cfg.slots + 1 + |p.layers[l].views[o].tail| + |recs| <= |p.layers[l].store.rows|
    requires r == AppendTransientAt(p.cfg, LeaseTo(p.layers[l], o), o, recs) && p.layers[l].views[o].transientStart.Some?
    ensures o in r.views && Logical(p.sessions, r, o) == Logical(p.sessions, p.layers[l], o) + recs
    ensures SameLogicalBut(p, SetLayer(p, l, r), l, o)
  {
    OthersSame(p, l, o, r);
    TransientOwn(p.cfg, p.sessions, p.layers[l], r, o, recs);
  }

  lemma TransientOwn(cfg: Config, ss: map<nat, Session>, a: Layer, b: Layer, o: nat, recs: seq<Record>)
    requires o in a.views && o in b.views && b.arena == a.arena
    requires b.views[o].tail == a.views[o].tail + recs && HostEnd(b.views[o]) == HostEnd(a.views[o])
    ensures Logical(ss, b, o) == Logical(ss, a, o) + recs
  {
    assert forall i: nat :: Entry(ss, b, o, i) == Entry(ss, a, o, i);
  }
}
