/** Slot arithmetic of a sole session: why the fast paths that look for free rows only always find them. */
module PoolSlots {
  import opened TokenTypes
  import opened Ranking
  import opened TokenStore
  import opened TokenPool
  import opened PoolWritebacks
  import opened PoolTransactions
  import opened PoolAppend
  import opened PoolRecall
  import opened PoolPrefetch
  import opened PoolSessions
  import opened PoolRuns

  // ----- slot arithmetic of a sole bounded session

  /** The host IDs of the first `n` tokens of a session. */
  function FirstToks(ss: map<nat, Session>, o: nat, n: nat): set<int> {
    set i: nat | i < n :: Tok(ss, o, i)
  }

  lemma {:induction false} FirstToksCard(ss: map<nat, Session>, o: nat, n: nat)
    ensures |FirstToks(ss, o, n)| <= n
  {
    if n > 0 {
      FirstToksCard(ss, o, n - 1);
      assert FirstToks(ss, o, n) == FirstToks(ss, o, n - 1) + {Tok(ss, o, n - 1)};
    }
  }

  function LiveRows(st: Store): set<int> {
    set s | 1 <= s < |st.d2h| && Live(st, s)
  }

  function FreeRows(st: Store): set<int> {
    set s | 1 <= s < |st.d2h| && !Live(st, s)
  }

  /** A sole session leaves at least the rows beyond its history free. */
  lemma SoleSessionFits(p: Pool, o: nat, l: nat)
    requires Inv(p) && Exists(p, o, l) && p.sessions.Keys == {o}
    ensures p.cfg.slots - HostEnd(p.layers[l].views[o]) <= |FreeRows(p.layers[l].store)|
  {
    var st, h := p.layers[l].store, HostEnd(p.layers[l].views[o]);
    FirstToksCard(p.sessions, o, h);
    var held := set s | s in LiveRows(st) :: st.d2h[s];
    SoleHeld(p, o, l);
    hide Inv;
    SubsetCard(held, FirstToks(p.sessions, o, h));
    RowsSplit(st);
    HeldCard(st);
  }

  // ----- the three guards that rely on it

  /** As long as enough rows are free, the victims are free rows: nothing is evicted. */
  lemma ChooseFree(st: Store, keep: seq<int>, n: nat)
    requires Shaped(st) && Ages(st, {}) && n <= |FreeRows(st)| && n <= |Available(st, keep)|
    requires forall s :: s in keep ==> s !in FreeRows(st)
    ensures forall s :: s in Choose(st, keep, n) ==> s in FreeRows(st)
  {
    ChooseTakesOldest(st, keep, n);
    var c := Choose(st, keep, n);
    DistinctCard(c);
    forall s | s in c ensures s in FreeRows(st) {
      if s !in FreeRows(st) { LiveChosen(st, keep, c, s); }
    }
  }

  /** A live row is chosen only behind every free one. */
  lemma LiveChosen(st: Store, keep: seq<int>, c: seq<nat>, s: nat)
    requires Shaped(st) && Ages(st, {}) && s in c && 1 <= s < |st.d2h| && s !in FreeRows(st) && |Elements(c)| == |c|
    requires forall x :: x in keep ==> x !in FreeRows(st)
    requires forall x, t :: x in c && 1 <= x < |st.d2h| && 1 <= t < |st.d2h| && t !in keep && t !in c ==> Before(VictimRank(st), x, t)
    ensures |FreeRows(st)| < |c|
  {
    var all: set<int>, free: set<int> := Elements(c), FreeRows(st);
    assert forall t :: 1 <= t < |st.d2h| && t !in keep && t !in c ==> Before(VictimRank(st), s, t);
    assert free <= all;
    SubsetCard(free + {s}, all);
  }

  /** Recall guard: with a sole session of history at most P every miss of a selection goes to a free row. */
  lemma SoleRecallFits(p: Pool, o: nat, l: nat, idx: seq<int>)
    requires Inv(p) && CanEnsure(p, o, l, idx) && p.sessions.Keys == {o} && HostEnd(p.layers[l].views[o]) <= p.cfg.slots
    ensures var st, gs := p.layers[l].store, Toks(p.sessions, o, History(p.layers[l], o, idx));
      && Shaped(st) && HostIds(st, gs) && |gs| <= Slots(st) && |p.layers[l].host| == |st.h2d|
      && |Misses(st, gs)| <= |FreeRows(st)|
      && forall s :: s in EnsureRows(st, p.cfg.limit, gs, p.layers[l].host).chosen ==> s in FreeRows(st)
  {
    var ly := p.layers[l];
    var st, gs := ly.store, Toks(p.sessions, o, History(ly, o, idx));
    NoPending(p, o, l);
    assert LayerInv(p.cfg, p.sessions, ly, p.writes, l);
    HistoryToks(p.cfg, p.sessions, ly, o, idx);
    assert Claimed(ly) == {};
    SoleMisses(p, o, l, gs);
    hide Inv, LayerInv, CanEnsure;
    RecallFree(st, p.cfg.limit, gs, ly.host);
  }

  /** Live rows and the misses of any selection together never exceed the history. */
  lemma SoleMisses(p: Pool, o: nat, l: nat, gs: seq<int>)
    requires Inv(p) && Exists(p, o, l) && p.sessions.Keys == {o} && HostEnd(p.layers[l].views[o]) <= p.cfg.slots
    requires Shaped(p.layers[l].store) && HostIds(p.layers[l].store, gs) && Distinct(gs)
    requires forall g :: g in gs ==> exists i: nat :: Backed(p.layers[l], o, i) && Tok(p.sessions, o, i) == g
    ensures |Misses(p.layers[l].store, gs)| <= |FreeRows(p.layers[l].store)|
  {
    var st, h := p.layers[l].store, HostEnd(p.layers[l].views[o]);
    var all := FirstToks(p.sessions, o, h);
    FirstToksCard(p.sessions, o, h);
    SoleHeld(p, o, l);
    hide Inv;
    forall g | g in gs ensures g in all {
      var i: nat :| Backed(p.layers[l], o, i) && Tok(p.sessions, o, i) == g;
    }
    hide FirstToks;
    MissesFree(st, gs, all);
  }

  /** Misses and held IDs are apart, so together they are at most as many as the IDs there are. */
  lemma MissesFree(st: Store, gs: seq<int>, all: set<int>)
    requires MapsAgree(st) && HostIds(st, gs) && Distinct(gs) && |all| <= |st.d2h| - 1
    requires forall g :: g in gs ==> g in all
    requires forall s :: s in LiveRows(st) ==> st.d2h[s] in all && 0 <= st.d2h[s] < |st.h2d| && Mapped(st, st.d2h[s])
    ensures |Misses(st, gs)| <= |FreeRows(st)|
  {
    var held := set s | s in LiveRows(st) :: st.d2h[s];
    RowsSplit(st);
    HeldCard(st);
    MissesDistinct(st, gs);
    hide MapsAgree, FreeRows, LiveRows;
    var misses := Elements(Misses(st, gs));
    DistinctCard(Misses(st, gs));
    assert misses <= all && misses !! held;
    SubsetCard(misses + held, all);
  }

  lemma RecallFree(st: Store, limit: Option<nat>, gs: seq<int>, host: seq<Record>)
    requires MapsAgree(st) && Ages(st, {}) && HostIds(st, gs) && |gs| <= Slots(st) && |host| == |st.h2d|
    requires |Misses(st, gs)| <= |FreeRows(st)|
    ensures forall s :: s in EnsureRows(st, limit, gs, host).chosen ==> s in FreeRows(st)
  {
    hide Ages, EnsureRows, Protect, FreeRows;
    ProtectedFree(st, limit, gs);
    ChosenIs(st, limit, gs, host);
    hide MapsAgree, Hits;
    var s1 := Protect(st, limit, gs);
    if Misses(s1, gs) != [] { ChooseFree(s1, Hits(s1, gs), |Misses(s1, gs)|); }
  }

  /** Protection stamps live rows only. */
  lemma ProtectedFree(st: Store, limit: Option<nat>, gs: seq<int>)
    requires MapsAgree(st) && Ages(st, {}) && HostIds(st, gs)
    ensures var s1 := Protect(st, limit, gs);
      && FreeRows(s1) == FreeRows(st) && Ages(s1, {}) && Misses(s1, gs) == Misses(st, gs)
      && forall s :: s in Hits(s1, gs) ==> s !in FreeRows(s1)
  {
    ProtectKeeps(st, limit, gs);
    HitsSame(st, Protect(st, limit, gs), gs);
    HitsLive(st, gs);
    hide Ages, Protect;
  }

  /** The victims of a recall, as chosen after its protection event. */
  lemma ChosenIs(st: Store, limit: Option<nat>, gs: seq<int>, host: seq<Record>)
    requires Shaped(st) && HostIds(st, gs) && |gs| <= Slots(st) && |host| == |st.h2d|
    ensures var s1 := Protect(st, limit, gs);
      && |Misses(s1, gs)| <= |Available(s1, Hits(s1, gs))|
      && EnsureRows(st, limit, gs, host).chosen == if Misses(s1, gs) == [] then [] else Choose(s1, Hits(s1, gs), |Misses(s1, gs)|)
  {
    MissesFit(Protect(st, limit, gs), gs);
    hide Protect, Refill, Stamp, ClockEvent;
  }

  /** Append guard: when the appended end is at most P, the first-in-first-out choice takes free rows only. */
  lemma SoleAppendFits(p: Pool, o: nat, l: nat, count: nat)
    requires Inv(p) && Exists(p, o, l) && p.sessions.Keys == {o} && p.layers[l].pending.None?
    requires p.layers[l].views[o].transientStart.None? && p.layers[l].views[o].written + count <= p.cfg.slots
    ensures var st := p.layers[l].store;
      && Shaped(st) && count <= |FreeRows(st)| && count <= |Available(st, [])|
      && forall s :: s in Choose(st, [], count) ==> s in FreeRows(st)
  {
    var ly := p.layers[l];
    SoleSessionFits(p, o, l);
    assert LayerInv(p.cfg, p.sessions, ly, p.writes, l);
    assert Claimed(ly) == {};
    WithoutCard(Range(1, |ly.store.d2h|), []);
    hide Inv, LayerInv;
    ChooseFree(ly.store, [], count);
  }

  /** Prefetch guard: on the bounded path all 64 rows that may be claimed are free. */
  lemma SolePrefetchFits(p: Pool, o: nat, l: nat, limit: nat)
    requires Inv(p) && Exists(p, o, l) && p.layers[l].pending.None? && Bounded(p, o, l, 1, true)
    ensures Shaped(p.layers[l].store) && 64 <= |FreeRows(p.layers[l].store)|
    ensures var q := PrepareAt(p.cfg, p.layers[l], o, 1, limit, true).pending.value;
      q.cap == 64 && 64 <= |q.victims| && forall k :: 0 <= k < 64 ==> q.victims[k] in FreeRows(p.layers[l].store)
  {
    var ly := p.layers[l];
    var st := ly.store;
    OnlySession(p.sessions, o);
    SoleSessionFits(p, o, l);
    assert LayerInv(p.cfg, p.sessions, ly, p.writes, l);
    assert Claimed(ly) == {};
    hide Inv, LayerInv;
    WithoutCard(Range(1, |st.d2h|), []);
    ChooseFree(st, [], 64);
    RankIsAge(st);
    hide Ages, VictimRank;
    WithoutNothing(Range(1, |st.d2h|));
    SortAgrees(VictimRank(st), st.prio, Range(1, |st.d2h|));
    var victims := Sort(st.prio, Range(1, |st.d2h|));
    forall k | 0 <= k < 64 ensures victims[k] in FreeRows(st) {
      assert Choose(st, [], 64)[k] == victims[k];
    }
  }

  lemma OnlySession(ss: map<nat, Session>, o: nat)
    requires |ss| == 1 && o in ss
    ensures ss.Keys == {o}
  {
    assert |ss.Keys| == 1;
    SubsetEqual({o}, ss.Keys);
  }

  lemma {:induction false} WithoutNothing(xs: seq<nat>)
    ensures Without(xs, []) == xs
  {
    if xs != [] { WithoutNothing(xs[1..]); }
  }

  predicate HeldOn(p: Pool, l: nat, g: int)
    requires l < |p.layers|
  {
    0 <= g < |p.layers[l].store.h2d| && Mapped(p.layers[l].store, g)
  }

  lemma SoleHeld(p: Pool, o: nat, l: nat)
    requires Inv(p) && Exists(p, o, l) && p.sessions.Keys == {o}
    ensures var st := p.layers[l].store;
      MapsAgree(st) && |st.d2h| == p.cfg.slots + 1
      && (forall s :: s in LiveRows(st) ==> st.d2h[s] in FirstToks(p.sessions, o, HostEnd(p.layers[l].views[o])) && HeldOn(p, l, st.d2h[s]))
  {
    var ly := p.layers[l];
    assert LayerInv(p.cfg, p.sessions, ly, p.writes, l);
    hide HostOK;
    hide TicketsOK;
    hide ProofsOK;
    hide PlanOK;
    hide PendingOK;
    hide CandidateOK;
    forall s | s in LiveRows(ly.store)
      ensures ly.store.d2h[s] in FirstToks(p.sessions, o, HostEnd(ly.views[o])) && HeldOn(p, l, ly.store.d2h[s])
    {
      var g := ly.store.d2h[s];
      var q, i: nat :| Backed(ly, q, i) && Tok(p.sessions, q, i) == g;
      assert q in p.sessions.Keys;
    }
  }

  lemma RowsSplit(st: Store)
    requires |st.d2h| >= 1
    ensures |LiveRows(st)| + |FreeRows(st)| == |st.d2h| - 1
  {
    var all: set<int> := Elements(Range(1, |st.d2h|));
    DistinctCard(Range(1, |st.d2h|));
    assert all == LiveRows(st) + FreeRows(st);
    assert LiveRows(st) !! FreeRows(st);
  }

  /** Distinct live rows hold distinct host IDs. */
  lemma HeldCard(st: Store)
    requires MapsAgree(st)
    ensures |set s | s in LiveRows(st) :: st.d2h[s]| == |LiveRows(st)|
  {
    InjectiveImage(LiveRows(st), st.d2h);
  }
}
