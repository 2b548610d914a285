/** Speculative history prefetch: sorted victims, live-map misses claim them, one closing stamp. */
module PoolPrefetch {
  import opened TokenTypes
  import opened Ranking
  import opened TokenStore
  import opened TokenPool
  import opened PoolWritebacks
  import opened PoolTransactions
  import opened PoolAppend
  import opened PoolRecall

  predicate CanPrepare(p: Pool, o: nat, l: nat, start: nat, count: nat) {
    && Exists(p, o, l)
    && (p.layers[l].pending.Some? ==> p.layers[l].pending.value.owner != o)
    && p.layers[l].views[o].stepEnd.Some?
    && start == p.layers[l].views[o].written && 0 < count && start + count <= p.layers[l].views[o].visibleEnd
    && (p.layers[l].views[o].transientStart.None? ==> count <= p.cfg.slots)
    && LeaseFree(p, o, l)
  }

  /** No claim is needed when the whole history is certified: only an empty clock event happens. */
  function SkipAt(ly: Layer, limit: Option<nat>): Layer
    requires Shaped(ly.store)
  {
    ly.(store := Stamp(ClockEvent(ly.store, limit), []))
  }

  /** How many tokens the announced append will write into device rows. */
  function Batch(v: View, count: nat): nat {
    if v.transientStart.Some? then 0 else count
  }

  /** The claim limit: what the batch leaves, or 64 on the bounded free path. */
  function ClaimLimit(cfg: Config, v: View, count: nat, limit: nat, bounded: bool): nat {
    if bounded then 64
    else Min(Min(limit, 8192), if Batch(v, count) <= cfg.slots then cfg.slots - Batch(v, count) else 0)
  }

  function PrepareAt(cfg: Config, ly: Layer, o: nat, count: nat, limit: nat, bounded: bool): Layer
    requires o in ly.views && Shaped(ly.store)
  {
    var v := ly.views[o];
    ly.(proofs := Invalidate(ly.proofs),
        pending := Some(Pending(o, Sort(ly.store.prio, Range(1, |ly.store.prio|)), 0, 0,
              ClaimLimit(cfg, v, count, limit, bounded), Batch(v, count), HostEnd(v))))
  }

  /** The bounded free path: a sole session, one query, and at least 64 rows beyond its history; `native` says it is built in. */
  predicate Bounded(p: Pool, o: nat, l: nat, count: nat, native: bool)
    requires Exists(p, o, l)
  {
    && native && count == 1 && |p.sessions| == 1 && p.layers[l].views[o].transientStart.None?
    && HostEnd(p.layers[l].views[o]) + 64 <= p.cfg.slots
  }

  /** Give row `s` to host ID `g`; ages and the free bitmap wait for the closing stamp. */
  function Claim(st: Store, g: int, s: int, r: Record): (t: Store)
    requires Shaped(st) && 0 <= g < |st.h2d| && 1 <= s < |st.d2h|
    ensures SameShape(t, st) && t.prio == st.prio && t.free == st.free && t.clock == st.clock
  {
    var prior := st.d2h[s];
    var h2d := if 0 <= prior < |st.h2d| then st.h2d[prior := MISSING] else st.h2d;
    st.(rows := st.rows[s := r], h2d := h2d[g := s], d2h := st.d2h[s := g])
  }

  lemma ClaimAges(st: Store, g: int, s: int, r: Record, log: set<int>)
    requires Shaped(st) && Ages(st, log) && 0 <= g < |st.h2d| && 1 <= s < |st.d2h|
    ensures Ages(Claim(st, g, s, r), log + {s})
  {
    var t := Claim(st, g, s, r);
    assert forall x :: 1 <= x < |t.d2h| && x != s ==> Live(t, x) == Live(st, x);
  }

  lemma ClaimMaps(st: Store, g: int, s: int, r: Record)
    requires MapsAgree(st) && 0 <= g < |st.h2d| && !Mapped(st, g) && 1 <= s < |st.d2h|
    ensures MapsAgree(Claim(st, g, s, r))
  {
    var t := Claim(st, g, s, r);
    forall x | 1 <= x < |t.d2h| && Live(t, x) ensures 0 <= t.d2h[x] < |t.h2d| && t.h2d[t.d2h[x]] == x {
      if x != s { assert Live(st, x); }
    }
    forall y | 0 <= y < |t.h2d| && Mapped(t, y) ensures 1 <= t.h2d[y] < |t.d2h| && t.d2h[t.h2d[y]] == y {
      if y != g { assert Mapped(st, y); }
    }
  }

  lemma ClaimCopies(st: Store, g: int, s: int, arena: map<int, Record>)
    requires Shaped(st) && Copies(st, arena) && 0 <= g < |st.h2d| && g in arena && 1 <= s < |st.d2h|
    ensures Copies(Claim(st, g, s, arena[g]), arena)
  {
    var t := Claim(st, g, s, arena[g]);
    assert forall x :: 1 <= x < |t.d2h| && x != s ==> Live(t, x) == Live(st, x);
  }

  lemma ClaimKeeps(st: Store, g: int, s: int, arena: map<int, Record>, log: set<int>)
    requires MapsAgree(st) && Copies(st, arena) && Ages(st, log)
    requires 0 <= g < |st.h2d| && !Mapped(st, g) && g in arena && 1 <= s < |st.d2h|
    ensures var t := Claim(st, g, s, arena[g]); MapsAgree(t) && Copies(t, arena) && Ages(t, log + {s})
  {
    ClaimMaps(st, g, s, arena[g]);
    ClaimCopies(st, g, s, arena);
    ClaimAges(st, g, s, arena[g], log);
    hide MapsAgree, Copies, Ages;
  }

  /** One candidate of the indexer stream: only unmapped history claims the next victim. */
  function CandidateAt(ss: map<nat, Session>, ly: Layer, logical: int): Layer
    requires Shaped(ly.store) && |ly.store.h2d| == |ly.host|
  {
    if ly.pending.None? then ly
    else
      var q := ly.pending.value;
      if logical < 0 || logical >= q.history then ly
      else
        var g := Tok(ss, q.owner, logical);
        if g < 0 || g >= |ly.store.h2d| || Mapped(ly.store, g) then ly
        else if q.rank >= q.cap || q.rank >= |q.victims| || q.victims[q.rank] < 1 || q.victims[q.rank] >= |ly.store.d2h| then ly
        else ly.(store := Claim(ly.store, g, q.victims[q.rank], ly.host[g]), pending := Some(Advanced(q)))
  }

  /** The victim at the current rank has been claimed. */
  function Advanced(q: Pending): Pending {
    q.(rank := q.rank + 1, top := Max(q.top, q.rank + 1))
  }

  /** A new stream of candidates starts at the first victim again. */
  function Restarted(ly: Layer): Layer {
    if ly.pending.None? then ly else ly.(pending := Some(ly.pending.value.(rank := 0)))
  }

  /** One candidate of a stream, perhaps its first. */
  function StreamAt(ss: map<nat, Session>, ly: Layer, logical: int, restart: bool): Layer
    requires Shaped(ly.store) && |ly.store.h2d| == |ly.host|
  {
    CandidateAt(ss, if restart then Restarted(ly) else ly, logical)
  }

  function Log(q: Pending): seq<nat> {
    if q.top <= |q.victims| then q.victims[..q.top] else q.victims
  }

  /** Close the prefetch: publish the claimed rows as live and stamp them with one timestamp. */
  function FinalizeAt(ly: Layer, limit: Option<nat>): (r: Layer)
    requires Shaped(ly.store) && ly.pending.Some?
    ensures SameShape(r.store, ly.store)
  {
    var log := Log(ly.pending.value);
    var st := ClockEvent(ly.store, limit);
    var st' := st.(free := seq(|st.free|, s requires 0 <= s < |st.free| => if s in log then false else st.free[s]));
    ly.(store := Stamp(ClockEvent(st', limit), log), proofs := Invalidate(ly.proofs), pending := None)
  }

  lemma LogIsClaimed(ly: Layer)
    requires ly.pending.Some? && ly.pending.value.top <= |ly.pending.value.victims|
    ensures forall s: int :: s in Log(ly.pending.value) <==> s in Claimed(ly)
  {
    var q := ly.pending.value;
    forall s: int ensures s in Log(q) <==> s in Claimed(ly) {
      if s in Log(q) { var k :| 0 <= k < |Log(q)| && Log(q)[k] == s; assert q.victims[k] == s; }
      if s in Claimed(ly) { var k :| 0 <= k < q.top && k < |q.victims| && q.victims[k] == s; assert Log(q)[k] == s; }
    }
  }

  /** Marking rows as live and stamping them after the clock events. */
  lemma PublishStore(st: Store, st': Store, limit: Option<nat>, log: seq<nat>, claimed: set<int>, arena: map<int, Record>)
    requires MapsAgree(st) && Copies(st, arena) && Ages(st, claimed) && (forall s: int :: s in log <==> s in claimed)
    requires SameShape(st', st) && st' == st.(prio := st'.prio, clock := st'.clock, free := st'.free)
    requires st'.prio[0] == st.prio[0]
    requires forall s :: 0 <= s < |st.d2h| ==> st'.free[s] == if s in log then false else st.free[s]
    requires AgedOutside(st', log)
    requires forall s :: s in log ==> 1 <= s < |st.d2h|
    ensures var r := Stamp(ClockEvent(st', limit), log); MapsAgree(r) && Copies(r, arena) && Ages(r, {})
  {
    ClockEventKeeps(st', limit);
    StampOrder(st', limit, log);
    var e := ClockEvent(st', limit);
    assert forall s :: 0 <= s < |st.d2h| ==> Live(e, s) == Live(st, s);
    var r := Stamp(e, log);
    assert forall s :: 0 <= s < |r.d2h| ==> Live(r, s) == Live(st, s);
    assert forall g :: 0 <= g < |r.h2d| ==> Mapped(r, g) == Mapped(st, g);
    forall s | 1 <= s < |r.d2h| ensures
      (r.free[s] <==> !Live(r, s)) && (if Live(r, s) then 0 <= r.prio[s] < r.clock else r.prio[s] == -1) && -1 <= r.prio[s]
    {
      if s in log { assert s in claimed; }
    }
  }

  lemma FinalizeStore(ly: Layer, limit: Option<nat>)
    requires ly.pending.Some? && ly.pending.value.top <= |ly.pending.value.victims|
    requires MapsAgree(ly.store) && Copies(ly.store, ly.arena) && Ages(ly.store, Claimed(ly))
    requires forall k :: 0 <= k < |ly.pending.value.victims| ==> 1 <= ly.pending.value.victims[k] < |ly.store.d2h|
    ensures var r := FinalizeAt(ly, limit);
      && MapsAgree(r.store) && Copies(r.store, r.arena) && Ages(r.store, {})
      && r.store == ly.store.(prio := r.store.prio, free := r.store.free, clock := r.store.clock)
      && (forall s, t :: 1 <= s < |ly.store.d2h| && 1 <= t < |ly.store.d2h| && s !in Claimed(ly) && t in Claimed(ly) ==> r.store.prio[s] < r.store.prio[t])
  {
    LogIsClaimed(ly);
    var log := Log(ly.pending.value);
    var st := ClockEvent(ly.store, limit);
    ClockEventKeeps(ly.store, limit);
    var st' := st.(free := seq(|st.free|, s requires 0 <= s < |st.free| => if s in log then false else st.free[s]));
    assert AgedOutside(st', log) by {
      assert forall s :: 0 <= s < |st.d2h| ==> Live(st', s) == Live(ly.store, s);
    }
    hide Log;
    hide Claimed;
    assert forall s :: s in log ==> s in Claimed(ly) && 1 <= s < |st.d2h| by { ClaimedRows(ly); }
    PublishStore(ly.store, st', limit, log, Claimed(ly), ly.arena);
    hide Ages;
    hide MapsAgree;
    hide Copies;
    ClockEventKeeps(st', limit);
    StampOrder(st', limit, log);
  }

  lemma ClaimedRows(ly: Layer)
    requires ly.pending.Some? && Shaped(ly.store)
    requires forall k :: 0 <= k < |ly.pending.value.victims| ==> 1 <= ly.pending.value.victims[k] < |ly.store.d2h|
    ensures forall s :: s in Claimed(ly) ==> 1 <= s < |ly.store.d2h|
  {
  }

  /** A spared row is never older than a chosen one. */
  lemma ChooseSkips(st: Store, n: nat, s: nat, t: nat)
    requires Shaped(st) && n <= |Available(st, [])| && 1 <= t < |st.d2h| && t !in Choose(st, [], n)
    requires s < |st.d2h| && VictimRank(st)[t] < VictimRank(st)[s]
    ensures s !in Choose(st, [], n)
  {
    ChooseTakesOldest(st, [], n);
  }

  /** An append of `n` records spares every row just prefetched exactly when the two together fit in the pool. */
  lemma AppendSparesPrefetched(st: Store, log: set<int>, n: nat)
    requires MapsAgree(st) && Ages(st, {}) && n <= Slots(st)
    requires forall s :: s in log ==> 1 <= s < |st.d2h|
    requires forall s, t :: 1 <= s < |st.d2h| && 1 <= t < |st.d2h| && s !in log && t in log ==> st.prio[s] < st.prio[t]
    ensures n <= |Available(st, [])|
    ensures (forall s :: s in Choose(st, [], n) ==> s !in log) <==> |log| + n <= Slots(st)
  {
    WithoutCard(Range(1, |st.d2h|), []);
    ChooseTakesOldest(st, [], n);
    RankIsAge(st);
    hide Ages, MapsAgree, VictimRank, Choose, Available;
    var c := Choose(st, [], n);
    var all: set<int> := Elements(Range(1, |st.d2h|));
    DistinctCard(Range(1, |st.d2h|));
    if |log| + n <= Slots(st) {
      forall s | s in c ensures s !in log {
        if s in log { YoungSpared(st, log, n, s); }
      }
    } else {
      ApartFit(all, log, c);
    }
  }

  /** Sets that are apart fit together in what holds both. */
  lemma ApartFit(all: set<int>, log: set<int>, c: seq<nat>)
    requires log <= all && (forall s :: s in c ==> s in all) && Distinct(c) && |log| + |c| > |all|
    ensures exists s :: s in c && s in log
  {
    DistinctCard(c);
    var chosen: set<int> := Elements(c);
    if log !! chosen { SubsetCard(log + chosen, all); }
  }

  /** With room for both, a row of the log is younger than some row left over, so it is not chosen. */
  lemma YoungSpared(st: Store, log: set<int>, n: nat, s: nat)
    requires MapsAgree(st) && Ages(st, {}) && n <= |Available(st, [])| && |log| + n <= Slots(st) && s in log
    requires forall x :: x in log ==> 1 <= x < |st.d2h|
    requires forall x, t :: 1 <= x < |st.d2h| && 1 <= t < |st.d2h| && x !in log && t in log ==> st.prio[x] < st.prio[t]
    ensures s !in Choose(st, [], n)
  {
    ChooseTakesOldest(st, [], n);
    RankIsAge(st);
    hide Ages, MapsAgree, VictimRank, Choose, Available;
    var c := Choose(st, [], n);
    var all: set<int>, chosen: set<int> := Elements(Range(1, |st.d2h|)), Elements(c);
    DistinctCard(Range(1, |st.d2h|));
    DistinctCard(c);
    if s in c {
      SomeOutside(all, log, chosen, s);
      var t :| t in all && t !in log && t !in chosen;
      assert t !in c;
      ChooseSkips(st, n, s, t);
    }
  }

  // ----- layer invariants

  lemma SkipInv(cfg: Config, ss: map<nat, Session>, ly: Layer, ws: seq<Ticket>, l: nat, limit: Option<nat>)
    requires LayerInv(cfg, ss, ly, ws, l) && ly.pending.None?
    ensures LayerInv(cfg, ss, SkipAt(ly, limit), ws, l)
  {
    var r := SkipAt(ly, limit);
    assert Claimed(ly) == {} && Claimed(r) == {};
    StampAges(ly.store, limit, []);
    SameMaps(ly.store, ly.arena, limit, []);
    FrameHost(ss, ly, r, ws, l);
    FrameTicketsAll(ss, ly, r, ws, l);
    SkipProofs(cfg, ss, ly, limit);
    hide MapsAgree;
    hide Copies;
    hide Ages;
    hide HostOK;
    hide ArenaOK;
    hide TicketsOK;
    hide ProofsOK;
    hide PlanOK;
    hide ClockEvent;
    if ly.candidate.Some? {
      assert TailAt(cfg, ly.store, ly.views[ly.candidate.value].tail);
      assert TailAt(cfg, r.store, ly.views[ly.candidate.value].tail);
    }
  }

  lemma SkipProofs(cfg: Config, ss: map<nat, Session>, ly: Layer, limit: Option<nat>)
    requires StoreOK(cfg, ly) && ly.pending.None? && ProofsOK(cfg, ss, ly) && PlanOK(cfg, ss, ly)
    ensures ProofsOK(cfg, ss, SkipAt(ly, limit)) && PlanOK(cfg, ss, SkipAt(ly, limit))
  {
    var r := SkipAt(ly, limit);
    assert Claimed(ly) == {};
    ClockEventKeeps(ly.store, limit);
    if ly.proofs.appendOwner.Some? && !cfg.dense {
      ProtectKeepsPlan(ly.store, limit, [], ly.proofs.order, ly.proofs.appendCursor);
    }
    hide MapsAgree;
    hide Copies;
    hide Ages;
    hide ClockEvent;
    hide Stamp;
    hide PlanSorted;
    HitProofs(cfg, ss, ly, r);
  }

  lemma PrepareInv(cfg: Config, ss: map<nat, Session>, ly: Layer, ws: seq<Ticket>, l: nat, o: nat, count: nat, limit: nat, bounded: bool)
    requires LayerInv(cfg, ss, ly, ws, l) && ly.pending.None? && o in ly.views && ly.proofs.lease == Some(o)
    requires ly.views[o].stepEnd.Some? && ly.views[o].written < ly.views[o].stepEnd.value
    requires ly.views[o].transientStart.None? ==> count <= cfg.slots
    requires bounded ==> Batch(ly.views[o], count) + 64 <= cfg.slots
    requires forall i: nat :: !InFlight(ws, l, o, i)
    ensures LayerInv(cfg, ss, PrepareAt(cfg, ly, o, count, limit, bounded), ws, l)
  {
    var r := PrepareAt(cfg, ly, o, count, limit, bounded);
    assert Claimed(ly) == {} && Claimed(r) == {};
    FreshPlan(ly.store.prio);
    FrameHost(ss, ly, r, ws, l);
    FrameTicketsAll(ss, ly, r, ws, l);
    hide MapsAgree;
    hide Copies;
    hide Ages;
    hide HostOK;
    hide ArenaOK;
    hide TicketsOK;
    hide PlanSorted;
  }

  /** A claim leaves the row's record, the maps and the suffix rows right. */
  lemma ClaimStore(cfg: Config, ss: map<nat, Session>, ly: Layer, r: Layer, g: int, s: int)
    requires StoreOK(cfg, ly) && CandidateOK(cfg, ly) && 1 <= s < |ly.store.d2h| && 0 <= g < |ly.store.h2d|
    requires !Mapped(ly.store, g) && g in ly.arena && ly.host[g] == ly.arena[g]
    requires r == ly.(store := Claim(ly.store, g, s, ly.host[g]), pending := r.pending) && Claimed(r) == Claimed(ly) + {s}
    ensures StoreOK(cfg, r) && CandidateOK(cfg, r)
  {
    hide MapsAgree, Copies, Ages, Claimed;
    ClaimKeeps(ly.store, g, s, ly.arena, Claimed(ly));
    if ly.candidate.Some? {
      assert TailAt(cfg, ly.store, ly.views[ly.candidate.value].tail);
      assert TailAt(cfg, r.store, ly.views[ly.candidate.value].tail);
    }
  }

  lemma CandidateInv(cfg: Config, ss: map<nat, Session>, ly: Layer, ws: seq<Ticket>, l: nat, logical: int)
    requires LayerInv(cfg, ss, ly, ws, l)
    ensures LayerInv(cfg, ss, CandidateAt(ss, ly, logical), ws, l)
  {
    var r := CandidateAt(ss, ly, logical);
    if r != ly {
      var q := ly.pending.value;
      var g, s := Tok(ss, q.owner, logical), q.victims[q.rank];
      ClaimIsBacked(ss, ly, ws, l, logical, q);
      FreshClaim(ly, r, q);
      hide Claimed, HostOK, ArenaOK, TicketsOK, Claim, HostHolds, Backed, InFlight;
      ClaimStore(cfg, ss, ly, r, g, s);
      hide StoreOK, CandidateOK;
      FrameHost(ss, ly, r, ws, l);
      FrameTicketsAll(ss, ly, r, ws, l);
    }
  }

  /** A candidate token of a prepared prefetch is held in host memory. */
  lemma ClaimIsBacked(ss: map<nat, Session>, ly: Layer, ws: seq<Ticket>, l: nat, logical: nat, q: Pending)
    requires HostOK(ss, ly, ws, l) && q.owner in ly.views && logical < q.history == HostEnd(ly.views[q.owner])
    requires forall i: nat :: !InFlight(ws, l, q.owner, i)
    ensures var g := Tok(ss, q.owner, logical); g in ly.arena && 0 <= g < |ly.host| && ly.host[g] == ly.arena[g]
  {
    assert Backed(ly, q.owner, logical);
    assert HostHolds(ss, ly, q.owner, logical);
  }

  lemma FreshClaim(ly: Layer, r: Layer, q: Pending)
    requires ly.pending == Some(q) && r.pending == Some(Advanced(q)) && q.rank <= q.top && q.rank < |q.victims|
    ensures Claimed(r) == Claimed(ly) + {q.victims[q.rank]}
  {
    if q.rank < q.top { assert q.victims[q.rank] in Claimed(ly); }
  }

  /** Starting a stream again changes neither the claims nor anything else that is right. */
  lemma RestartedInv(cfg: Config, ss: map<nat, Session>, ly: Layer, ws: seq<Ticket>, l: nat)
    requires LayerInv(cfg, ss, ly, ws, l)
    ensures LayerInv(cfg, ss, Restarted(ly), ws, l)
  {
    var r := Restarted(ly);
    assert Claimed(r) == Claimed(ly);
    hide MapsAgree, Copies, Ages, HostOK, ArenaOK, TicketsOK, Claimed;
    FrameHost(ss, ly, r, ws, l) by { assert forall q, i: nat :: Backed(r, q, i) <==> Backed(ly, q, i); }
    FrameTicketsAll(ss, ly, r, ws, l);
    FrameProofs(cfg, ss, ly, r);
  }

  lemma StreamInv(cfg: Config, ss: map<nat, Session>, ly: Layer, ws: seq<Ticket>, l: nat, logical: int, restart: bool)
    requires LayerInv(cfg, ss, ly, ws, l)
    ensures Shaped(ly.store) && |ly.store.h2d| == |ly.host| && LayerInv(cfg, ss, StreamAt(ss, ly, logical, restart), ws, l)
  {
    RestartedInv(cfg, ss, ly, ws, l);
    hide Restarted, CandidateAt;
    CandidateInv(cfg, ss, if restart then Restarted(ly) else ly, ws, l, logical);
    assert StoreOK(cfg, ly);
    hide LayerInv;
  }

  lemma FinalizeInv(cfg: Config, ss: map<nat, Session>, ly: Layer, ws: seq<Ticket>, l: nat, limit: Option<nat>)
    requires LayerInv(cfg, ss, ly, ws, l) && ly.pending.Some?
    ensures LayerInv(cfg, ss, FinalizeAt(ly, limit), ws, l)
  {
    var r := FinalizeAt(ly, limit);
    FinalizeStore(ly, limit);
    assert Claimed(r) == {};
    FrameHost(ss, ly, r, ws, l);
    FrameTicketsAll(ss, ly, r, ws, l);
    hide MapsAgree;
    hide Copies;
    hide Ages;
    hide HostOK;
    hide ArenaOK;
    hide TicketsOK;
    hide Claimed;
    hide ClockEvent;
    if ly.candidate.Some? {
      assert TailAt(cfg, ly.store, ly.views[ly.candidate.value].tail);
      assert TailAt(cfg, r.store, ly.views[ly.candidate.value].tail);
    }
  }
}
