/** Every action takes twins to twins, and so does every run. */
module TwinSteps {
  import opened TokenTypes
  import opened Ranking
  import opened TokenStore
  import opened StoreTwins
  import opened TokenPool
  import opened PoolWritebacks
  import opened PoolTransactions
  import opened PoolAppend
  import opened PoolRecall
  import opened PoolPrefetch
  import opened PoolSessions
  import opened PoolRuns
  import opened LayerTwins
  import opened PoolTwins

  // ----- leases and step boundaries

  /** The view of one session is rewritten in the same way, and perhaps the candidate owner. */
  lemma ViewTwins(p: Pool, q: Pool, l: nat, o: nat, x: Layer, y: Layer)
    requires Twins(p, q) && Exists(p, o, l) && Exists(q, o, l)
    requires x == p.layers[l].(views := x.views, candidate := x.candidate, proofs := x.proofs)
    requires y == q.layers[l].(views := y.views, candidate := y.candidate, proofs := y.proofs)
    requires x.candidate == y.candidate && x.proofs == y.proofs
    requires o in x.views && o in y.views && x.views == p.layers[l].views[o := x.views[o]] && y.views == q.layers[l].views[o := y.views[o]]
    requires TwinView(x.views[o], y.views[o])
    ensures Twins(SetLayer(p, l, x), SetLayer(q, l, y))
  {
    var a, b := p.layers[l], q.layers[l];
    assert TwinLayer(a, b);
    TwinViewsAt(a.views, b.views, o, x.views[o], y.views[o]);
    TwinFields(a, b, x, y);
    TwinSet(p, q, l, x, y);
  }

  lemma LeasedTwins(p: Pool, q: Pool, o: nat, l: nat)
    requires Twins(p, q) && l < |p.layers|
    ensures Twins(Leased(p, o, l), Leased(q, o, l))
  {
    TwinLease(p.layers[l], q.layers[l], o);
    TwinSet(p, q, l, LeaseTo(p.layers[l], o), LeaseTo(q.layers[l], o));
  }

  lemma TransientTwins(p: Pool, q: Pool, o: nat, l: nat, count: nat)
    requires Twins(p, q) && Exists(p, o, l) && Exists(q, o, l)
    ensures Twins(BeginTransient(p, o, l, count), BeginTransient(q, o, l, count))
  {
    TwinAt(p, q, o, l);
    var x, y := BeginTransientAt(LeaseTo(p.layers[l], o), o, count), BeginTransientAt(LeaseTo(q.layers[l], o), o, count);
    hide Twins;
    ViewTwins(p, q, l, o, x, y);
  }

  lemma BoundaryTwins(p: Pool, q: Pool, a: Action)
    requires Twins(p, q) && Sane(p) && Sane(q) && Allowed(p, a) && Allowed(q, a)
    requires a.Opened? || a.Closed? || a.Began? || a.BeganTransient? || a.Declared?
    ensures Twins(StepBoundary(p, a), StepBoundary(q, a))
  {
    hide LeaseFree, Sane, Alike;
    match a
    case Opened(o, l) => LeasedTwins(p, q, o, l);
    case Closed =>
    case Began(o, l, count) =>
      TwinAt(p, q, o, l);
      ViewTwins(p, q, l, o, BeginStep(p, o, l, count).layers[l], BeginStep(q, o, l, count).layers[l]);
    case BeganTransient(o, l, count) => TransientTwins(p, q, o, l, count);
    case Declared(o, l, end) =>
      TwinAt(p, q, o, l);
      ViewTwins(p, q, l, o, DeclareVisible(p, o, l, end).layers[l], DeclareVisible(q, o, l, end).layers[l]);
  }

  // ----- recall and append

  lemma RecallTwins(p: Pool, q: Pool, o: nat, l: nat, idx: seq<int>)
    requires Inv(p) && Inv(q) && Twins(p, q) && CanEnsure(p, o, l, idx) && CanEnsure(q, o, l, idx)
    ensures Twins(Ensure(p, o, l, idx), Ensure(q, o, l, idx))
  {
    TwinPrepare(p, q, o, l, 0, 0, idx, false);
    EnsureLegal(p, o, l, idx);
    EnsureLegal(q, o, l, idx);
    var gs := Toks(p.sessions, o, History(p.layers[l], o, idx));
    var x, y := BeforeRecall(p, o, l, gs), BeforeRecall(q, o, l, gs);
    InvStocked(x, l);
    InvStocked(y, l);
    hide Inv, CanEnsure, Stocked, History;
    RecallReadyFacts(x, l, o, gs, History(p.layers[l], o, idx));
    hide RecallReady;
    LeasedTwins(p, q, o, l);
    TwinHost(Leased(p, o, l), Leased(q, o, l), x, y);
    hide Twins, TwinLayer, EnsureAt, HostIds;
    TwinAt(x, y, o, l);
    EnsureTwins(x.layers[l], y.layers[l], gs, x.cfg.limit, y.cfg.limit);
    TwinSet(x, y, l, EnsureAt(x.layers[l], gs, p.cfg.limit), EnsureAt(y.layers[l], gs, q.cfg.limit));
  }

  lemma RecallReadyFacts(x: Pool, l: nat, o: nat, gs: seq<int>, ids: seq<nat>)
    requires l < |x.layers| && gs == Toks(x.sessions, o, ids) && RecallReady(x.cfg, x.sessions, x.layers[l], x.writes, l, o, ids)
    ensures x.layers[l].pending.None? && Distinct(gs)
  {
    hide LayerInv;
  }

  lemma PersistentTwins(p: Pool, q: Pool, o: nat, l: nat, ra: seq<Record>, rb: seq<Record>)
    requires CanPersist(p, o, l, ra) && CanPersist(q, o, l, rb) && Twins(p, q) && |ra| == |rb|
    ensures Twins(AppendPersistent(p, o, l, ra), AppendPersistent(q, o, l, rb))
  {
    AppendPersistentLegal(p, o, l, ra);
    AppendPersistentLegal(q, o, l, rb);
    PersistExists(p, o, l, ra);
    PersistExists(q, o, l, rb);
    hide CanPersist, Inv;
    var x, y := MakeRoom(PlannedPool(p, o, l, |ra|), l), MakeRoom(PlannedPool(q, o, l, |rb|), l);
    PlannedTwins(p, q, o, l, |ra|);
    TwinHost(PlannedPool(p, o, l, |ra|), PlannedPool(q, o, l, |rb|), x, y);
    hide PlannedPool, Twins, Sane;
    AppendLegal(x.cfg, x.sessions, x.layers[l], x.writes, l, o, ra);
    ReadyOpen(x.cfg, x.sessions, x.layers[l], x.writes, l, o, ra);
    hide AppendReady, MakeRoom;
    PlacedTwins(x, y, o, l, ra, rb);
  }

  lemma PersistExists(p: Pool, o: nat, l: nat, recs: seq<Record>)
    requires CanPersist(p, o, l, recs)
    ensures Exists(p, o, l) && p.layers[l].pending.None?
  {
    NoPending(p, o, l);
  }

  lemma ReadyOpen(cfg: Config, ss: map<nat, Session>, ly: Layer, ws: seq<Ticket>, l: nat, o: nat, recs: seq<Record>)
    requires AppendReady(cfg, ss, ly, ws, l, o, recs)
    ensures ly.pending.None?
  {
    hide LayerInv;
  }

  lemma PlannedTwins(p: Pool, q: Pool, o: nat, l: nat, n: nat)
    requires Twins(p, q) && Sane(p) && Sane(q) && Exists(p, o, l) && Exists(q, o, l) && p.layers[l].pending.None?
    ensures Twins(PlannedPool(p, o, l, n), PlannedPool(q, o, l, n))
  {
    TwinAt(p, q, o, l);
    TwinLease(p.layers[l], q.layers[l], o);
    var a, b := LeaseTo(p.layers[l], o), LeaseTo(q.layers[l], o);
    assert Peers(p.cfg, q.cfg) && a.pending.None?;
    hide Twins, TwinLayer, LeaseTo;
    LeaseViews(p.layers[l], o);
    LeaseViews(q.layers[l], o);
    SettleTwins(p.cfg, q.cfg, a, b, o, n);
    TwinSet(p, q, l, SettlePlan(p.cfg, a, o, n), SettlePlan(q.cfg, b, o, n));
  }

  lemma PlacedTwins(x: Pool, y: Pool, o: nat, l: nat, ra: seq<Record>, rb: seq<Record>)
    requires Twins(x, y) && Placeable(x, o, l, ra) && Placeable(y, o, l, rb) && |ra| == |rb| && x.layers[l].pending.None?
    requires Refillable(x.layers[l].store, NewToks(x.sessions, x.layers[l], o, |ra|), AppendRows(x.cfg, x.sessions, x.layers[l], o, |ra|), ra)
    ensures Twins(PlaceAppend(x, o, l, ra), PlaceAppend(y, o, l, rb))
  {
    TwinAt(x, y, o, l);
    assert Peers(x.cfg, y.cfg) && x.sessions == y.sessions;
    hide Refillable, TwinLayer, AppendRows, AppendAt, NewToks;
    AppendTwins(x.cfg, y.cfg, x.sessions, x.layers[l], y.layers[l], o, ra, rb);
    TwinSet(x, y, l, AppendAt(x.cfg, x.sessions, x.layers[l], o, ra, x.cfg.limit), AppendAt(y.cfg, y.sessions, y.layers[l], o, rb, y.cfg.limit));
  }

  lemma AppendedTwins(p: Pool, q: Pool, o: nat, l: nat, ra: seq<Record>, rb: seq<Record>)
    requires Inv(p) && Inv(q) && Twins(p, q) && |ra| == |rb|
    requires Allowed(p, Appended(o, l, ra)) && Allowed(q, Appended(o, l, rb))
    ensures Exists(p, o, l) && Exists(q, o, l) && Twins(AppendEither(p, o, l, ra), AppendEither(q, o, l, rb))
  {
    AppendExistsAt(p, o, l, |ra|);
    AppendExistsAt(q, o, l, |rb|);
    TwinAt(p, q, o, l);
    hide Inv, CanAppend, AppendPersistent, DenseReady, Twins, TwinLayer, AppendTransient;
    if p.layers[l].views[o].transientStart.None? {
      PersistentTwins(p, q, o, l, ra, rb);
    } else {
      SuffixRoom(p, o, l, ra);
      SuffixRoom(q, o, l, rb);
      SuffixedTwins(p, q, o, l, ra, rb);
    }
  }

  lemma SuffixRoom(p: Pool, o: nat, l: nat, recs: seq<Record>)
    requires Inv(p) && CanAppend(p, o, l, |recs|) && Exists(p, o, l) && p.layers[l].views[o].transientStart.Some?
    ensures p.cfg.slots + 1 + |p.layers[l].views[o].tail| + |recs| <= |p.layers[l].store.rows|
  {
    hide Inv, CanAppend, Logical, SameLogicalBut, AppendTransient;
    AppendTransientInv(p, o, l, recs);
  }

  lemma SuffixedTwins(p: Pool, q: Pool, o: nat, l: nat, ra: seq<Record>, rb: seq<Record>)
    requires Twins(p, q) && Exists(p, o, l) && Exists(q, o, l) && |ra| == |rb|
    requires p.cfg.slots + 1 + |p.layers[l].views[o].tail| + |ra| <= |p.layers[l].store.rows|
    requires q.cfg.slots + 1 + |q.layers[l].views[o].tail| + |rb| <= |q.layers[l].store.rows|
    ensures Twins(AppendTransient(p, o, l, ra), AppendTransient(q, o, l, rb))
  {
    TwinLease(p.layers[l], q.layers[l], o);
    var a, b := LeaseTo(p.layers[l], o), LeaseTo(q.layers[l], o);
    assert Peers(p.cfg, q.cfg);
    hide TwinLayer;
    SuffixTwins(p.cfg, q.cfg, a, b, o, ra, rb);
    TwinSet(p, q, l, AppendTransientAt(p.cfg, a, o, ra), AppendTransientAt(q.cfg, b, o, rb));
  }

  // ----- prefetch

  lemma PreparedTwins(p: Pool, q: Pool, o: nat, l: nat, count: nat, limit: nat, native: bool)
    requires Twins(p, q) && Sane(p) && Sane(q) && Exists(p, o, l) && Exists(q, o, l) && p.layers[l].pending.None?
    ensures Twins(Prepare(p, o, l, count, limit, native), Prepare(q, o, l, count, limit, native))
  {
    TwinPrepare(p, q, o, l, 0, count, [], native);
    LeasedTwins(p, q, o, l);
    var x, y := BeforePrepare(p, o, l), BeforePrepare(q, o, l);
    TwinHost(Leased(p, o, l), Leased(q, o, l), x, y);
    TwinAt(x, y, o, l);
    assert Peers(x.cfg, y.cfg) && x.sessions == y.sessions;
    hide Twins, Sane, Bounded, LeaseFree, TwinLayer, BeforePrepare, AllResident;
    var a, b := x.layers[l], y.layers[l];
    TwinResident(x.cfg, y.cfg, x.sessions, a, b, o);
    if AllResident(x.cfg, x.sessions, a, o) {
      SkipTwins(a, b, x.cfg.limit, y.cfg.limit);
      TwinSet(x, y, l, SkipAt(a, x.cfg.limit), SkipAt(b, y.cfg.limit));
    } else {
      var bounded := Bounded(p, o, l, count, native);
      PrepareTwins(x.cfg, y.cfg, a, b, o, count, limit, bounded);
      TwinSet(x, y, l, PrepareAt(x.cfg, a, o, count, limit, bounded), PrepareAt(y.cfg, b, o, count, limit, bounded));
    }
  }

  lemma StreamedTwins(p: Pool, q: Pool, l: nat, logical: int, restart: bool)
    requires Inv(p) && Inv(q) && Twins(p, q) && Sane(p) && Sane(q) && l < |p.layers|
    ensures Twins(SetLayer(p, l, StreamAt(p.sessions, p.layers[l], logical, restart)), SetLayer(q, l, StreamAt(q.sessions, q.layers[l], logical, restart)))
  {
    InvStocked(p, l);
    InvStocked(q, l);
    TwinAt(p, q, 0, l);
    assert p.sessions == q.sessions;
    hide Inv, Stocked, TwinLayer, StreamAt, Distinct;
    StreamTwins(p.sessions, p.layers[l], q.layers[l], logical, restart);
    TwinSet(p, q, l, StreamAt(p.sessions, p.layers[l], logical, restart), StreamAt(q.sessions, q.layers[l], logical, restart));
  }

  lemma FinalizedTwins(p: Pool, q: Pool, l: nat)
    requires Inv(p) && Inv(q) && Twins(p, q) && Sane(p) && Sane(q) && l < |p.layers| && p.layers[l].pending.Some? && q.layers[l].pending.Some?
    ensures Twins(FinalizePool(p, l), FinalizePool(q, l))
  {
    DrainInv(p);
    DrainInv(q);
    var x := if AtLimit(p.layers[l].store, p.cfg.limit) then Drain(p) else p;
    var y := if AtLimit(q.layers[l].store, q.cfg.limit) then Drain(q) else q;
    HostSelf(p);
    HostSelf(q);
    TwinHost(p, q, x, y);
    InvStocked(x, l);
    InvStocked(y, l);
    TwinAt(x, y, 0, l);
    hide Inv, Stocked, Twins, TwinLayer, FinalizeAt;
    FinalizeTwins(x.layers[l], y.layers[l], x.cfg.limit, y.cfg.limit);
    TwinSet(x, y, l, FinalizeAt(x.layers[l], x.cfg.limit), FinalizeAt(y.layers[l], y.cfg.limit));
  }

  lemma CommitTwins(p: Pool, q: Pool, o: nat, l: nat)
    requires Twins(p, q) && Exists(p, o, l) && Exists(q, o, l) && InLayers(p) && InLayers(q)
    ensures Twins(Commit(p, o, l), Commit(q, o, l))
  {
    TwinDrain(p, q);
    var x, y := Drain(p), Drain(q);
    TwinAt(x, y, o, l);
    hide Twins, TwinLayer;
    ViewTwins(x, y, l, o, Commit(p, o, l).layers[l], Commit(q, o, l).layers[l]);
  }

  lemma DataTwins(p: Pool, q: Pool, a: Action)
    requires Inv(p) && Inv(q) && Twins(p, q) && Sane(p) && Sane(q) && Allowed(p, a) && Allowed(q, a)
    requires a.Landed? || a.Reserved? || a.Recall? || a.Prepared? || a.Streamed? || a.Finalized? || a.Committed?
    ensures Twins(StepData(p, a), StepData(q, a))
  {
    hide Inv, Twins, LeaseFree;
    match a
    case Landed(k, j) => TwinHost(p, q, LandCell(p, k, j), LandCell(q, k, j));
    case Reserved => TwinHost(p, q, Reap(p, true), Reap(q, true));
    case Recall(o, l, idx) => hide CanEnsure, Ensure; RecallTwins(p, q, o, l, idx);
    case Prepared(o, l, start, count, limit, native) =>
      NoPending(p, o, l);
      hide Prepare;
      PreparedTwins(p, q, o, l, count, limit, native);
    case Streamed(l, logical, restart) => hide StreamAt; StreamedTwins(p, q, l, logical, restart);
    case Finalized(l) => hide FinalizePool; FinalizedTwins(p, q, l);
    case Committed(o, l) => hide Commit; CommitTwins(p, q, o, l);
  }

  // ----- shrinking and sessions

  /** The layer a truncation or discard starts from: drained, closed, leased. */
  function Closing(p: Pool, o: nat, l: nat): Layer
    requires Sane(p) && l < |p.layers|
  {
    LeaseTo(CloseAt(Drain(p).layers[l], p.cfg.limit), o)
  }

  lemma ClosedTwins(p: Pool, q: Pool, o: nat, l: nat)
    requires Inv(p) && Inv(q) && Twins(p, q) && Sane(p) && Sane(q) && Exists(p, o, l) && Exists(q, o, l)
    ensures Twins(Drain(p), Drain(q))
    ensures var a, b := Closing(p, o, l), Closing(q, o, l); TwinLayer(a, b) && o in a.views && o in b.views && a.pending.None?
  {
    hide Inv, Stocked, Twins, TwinLayer, CloseAt, LeaseTo;
    TwinDrain(p, q);
    DrainInv(p);
    DrainInv(q);
    var x, y := Drain(p), Drain(q);
    InvStocked(x, l);
    InvStocked(y, l);
    TwinAt(x, y, o, l);
    ClosedLayers(x.layers[l], y.layers[l], o, x.cfg.limit, y.cfg.limit);
  }

  lemma ClosedLayers(a: Layer, b: Layer, o: nat, la: Option<nat>, lb: Option<nat>)
    requires TwinLayer(a, b) && Stocked(a) && Stocked(b)
    ensures var x, y := LeaseTo(CloseAt(a, la), o), LeaseTo(CloseAt(b, lb), o);
      TwinLayer(x, y) && x.views == a.views && y.views == b.views && x.pending.None?
  {
    CloseTwins(a, b, la, lb);
    CloseViews(a, la);
    CloseViews(b, lb);
    hide TwinLayer, CloseAt;
    TwinLease(CloseAt(a, la), CloseAt(b, lb), o);
  }

  lemma CutTwins(p: Pool, q: Pool, o: nat, l: nat, len: nat)
    requires CanCut(p, o, l, len) && CanCut(q, o, l, len) && Twins(p, q)
    ensures Twins(CutTo(p, o, l, len), CutTo(q, o, l, len))
  {
    CutLegal(p, o, l, len);
    CutLegal(q, o, l, len);
    ClosedTwins(p, q, o, l);
    TwinHeads(p, q);
    var x, y := Drain(p), Drain(q);
    var a, b := Closing(p, o, l), Closing(q, o, l);
    CutStocked(x, a, l);
    hide Inv, LayerInv, Stocked, Twins, TwinLayer, CloseAt, LeaseTo, Cuttable, LeaseFree, PagesOwned, Sane;
    TruncateTwins(x.sessions, a, b, o, len);
    TwinSet(x, y, l, TruncateAt(x.sessions, a, o, len), TruncateAt(y.sessions, b, o, len));
  }

  lemma CutStocked(x: Pool, a: Layer, l: nat)
    requires LayerInv(x.cfg, x.sessions, a, [], l)
    ensures Stocked(a)
  {
    hide ArenaOK, HostOK, TicketsOK, ProofsOK, PlanOK, CandidateOK, ViewsOK;
  }

  lemma DiscardedTwins(p: Pool, q: Pool, o: nat, l: nat)
    requires Inv(p) && Inv(q) && Twins(p, q) && Exists(p, o, l) && Exists(q, o, l)
    ensures Twins(Discard(p, o, l), Discard(q, o, l))
  {
    InvSane(p);
    InvSane(q);
    ClosedTwins(p, q, o, l);
    var x, y := Drain(p), Drain(q);
    var a, b := Closing(p, o, l), Closing(q, o, l);
    hide Inv, Twins, TwinLayer, CloseAt, LeaseTo;
    DiscardTwins(a, b, o);
    TwinSet(x, y, l, DiscardAt(a, o), DiscardAt(b, o));
  }

  lemma RolledTwins(p: Pool, q: Pool, o: nat, l: nat)
    requires Inv(p) && Inv(q) && Twins(p, q) && CanRollback(p, o, l) && CanRollback(q, o, l)
    ensures var n := p.layers[l].views[o].length;
      q.layers[l].views[o].length == n && Twins(CutTo(p, o, l, n), CutTo(q, o, l, n))
  {
    TwinAt(p, q, o, l);
    RollbackLength(p, o, l);
    RollbackLength(q, o, l);
    hide Inv, Twins, TwinLayer, LeaseFree, CutTo;
    CutTwins(p, q, o, l, p.layers[l].views[o].length);
  }

  lemma TruncatedTwins(p: Pool, q: Pool, o: nat, l: nat, len: nat)
    requires Inv(p) && Inv(q) && Twins(p, q) && CanTruncate(p, o, l, len) && CanTruncate(q, o, l, len)
    ensures Twins(CutTo(p, o, l, len), CutTo(q, o, l, len))
  {
    TruncateOpen(p, o, l, len);
    TruncateOpen(q, o, l, len);
    hide Inv, Twins, LeaseFree, CutTo;
    CutTwins(p, q, o, l, len);
  }

  lemma ShrinkTwins(p: Pool, q: Pool, a: Action)
    requires Inv(p) && Inv(q) && Twins(p, q) && Allowed(p, a) && Allowed(q, a)
    requires a.RolledBack? || a.Discarded? || a.Truncated?
    ensures Twins(StepCut(p, a), StepCut(q, a))
  {
    hide Inv, Twins, LeaseFree, CutTo, Discard;
    TwinStanding(p, q, a.o, a.l);
    match a
    case RolledBack(o, l) => if InStep(p, o, l) { RolledTwins(p, q, o, l); } else { DiscardedTwins(p, q, o, l); }
    case Discarded(o, l) => DiscardedTwins(p, q, o, l);
    case Truncated(o, l, len) => TruncatedTwins(p, q, o, l, len);
  }

  lemma AdmittedTwins(p: Pool, q: Pool, capacity: nat, pages: seq<nat>)
    requires Twins(p, q)
    ensures Twins(Allocate(p, capacity, pages), Allocate(q, capacity, pages))
  {
    var x, y := Allocate(p, capacity, pages), Allocate(q, capacity, pages);
    forall l | 0 <= l < |x.layers| ensures TwinLayer(x.layers[l], y.layers[l]) {
      TwinViewsAt(p.layers[l].views, q.layers[l].views, p.nextOwner, FreshView(0), FreshView(0));
      TwinFields(p.layers[l], q.layers[l], x.layers[l], y.layers[l]);
    }
    hide TwinLayer;
  }

  lemma ReleasedTwins(ss: map<nat, Session>, cfg: Config, ws: seq<Ticket>, a: Layer, b: Layer, l: nat, o: nat, la: Option<nat>, lb: Option<nat>)
    requires TwinLayer(a, b) && Stocked(a) && Stocked(b) && o in a.views && o in ss
    requires PagesOwned(cfg, ss) && LayerInv(cfg, ss, a, [], l)
    ensures o in b.views && TwinLayer(ReleasedAt(ss, a, o, la), ReleasedAt(ss, b, o, lb))
  {
    SettledTwins(a, b, o, la, lb);
    SettledInv(cfg, ss, a, l, o, la);
    var x, y := SettledAt(a, o, la), SettledAt(b, o, lb);
    hide SettledAt, Alike;
    CutShape(cfg, ss, x, l, o, 0);
    hide PagesOwned;
    ReleasedStocked(cfg, ss, x, l);
    hide LayerInv, Stocked, TwinLayer, Cuttable;
    assert Cuttable(ss, x, o, 0);
    TruncateTwins(ss, x, y, o, 0);
    DropTwins(TruncateAt(ss, x, o, 0), TruncateAt(ss, y, o, 0), o);
  }

  lemma ReleasedStocked(cfg: Config, ss: map<nat, Session>, x: Layer, l: nat)
    requires LayerInv(cfg, ss, x, [], l)
    ensures Stocked(x)
  {
    hide ArenaOK, HostOK, TicketsOK, ProofsOK, PlanOK, CandidateOK, ViewsOK;
  }

  lemma DismissedTwins(p: Pool, q: Pool, o: nat)
    requires Inv(p) && Inv(q) && Twins(p, q) && CanRelease(p, o) && CanRelease(q, o)
    ensures Twins(Release(p, o), Release(q, o))
  {
    hide Inv, Twins, CanRelease, ReleasedAt;
    ReleaseFacts(p, o);
    ReleaseFacts(q, o);
    TwinDrain(p, q);
    var x, y := Drain(p), Drain(q);
    forall l | 0 <= l < |x.layers|
      ensures TwinLayer(ReleasedAt(x.sessions, x.layers[l], o, x.cfg.limit), ReleasedAt(y.sessions, y.layers[l], o, y.cfg.limit))
    {
      ReleasedOne(x, y, l, o);
    }
    hide Sane;
    TwinAll(x, y, Release(p, o), Release(q, o));
  }

  lemma ReleaseFacts(p: Pool, o: nat)
    requires Inv(p) && CanRelease(p, o)
    ensures Sane(p) && Everywhere(p, o) && Inv(Drain(p))
  {
    ReleaseLegal(p, o);
    hide Inv, CanRelease, ReleasedAt, KeptBy, LayerInv;
  }

  lemma ReleasedOne(x: Pool, y: Pool, l: nat, o: nat)
    requires Inv(x) && Inv(y) && Twins(x, y) && l < |x.layers| && x.writes == [] && o in x.sessions && o in x.layers[l].views
    ensures l < |y.layers| && o in y.layers[l].views && Shaped(x.layers[l].store) && Shaped(y.layers[l].store)
    ensures TwinLayer(ReleasedAt(x.sessions, x.layers[l], o, x.cfg.limit), ReleasedAt(y.sessions, y.layers[l], o, y.cfg.limit))
  {
    InvStocked(x, l);
    TwinHeads(x, y);
    InvStocked(y, l);
    InvLayer(x, l);
    InvLayer(y, l);
    TwinAt(x, y, o, l);
    hide Inv, LayerInv, PagesOwned, Stocked, TwinLayer, ReleasedAt, Twins;
    ReleasedTwins(x.sessions, x.cfg, [], x.layers[l], y.layers[l], l, o, x.cfg.limit, y.cfg.limit);
  }

  /** Twins whose layers are all rewritten, and whose sessions and pages change alike. */
  lemma TwinAll(p: Pool, q: Pool, x: Pool, y: Pool)
    requires Twins(p, q) && x == p.(sessions := x.sessions, freePages := x.freePages, topology := x.topology, layers := x.layers)
    requires y == q.(sessions := x.sessions, freePages := x.freePages, topology := x.topology, layers := y.layers)
    requires |x.layers| == |p.layers| && |y.layers| == |q.layers|
    requires forall l :: 0 <= l < |x.layers| && l < |y.layers| ==> TwinLayer(x.layers[l], y.layers[l])
    ensures Twins(x, y)
  {
    hide TwinLayer;
  }

  // ----- any action

  lemma AbandonTwins(p: Pool, q: Pool, o: nat, l: nat)
    requires Twins(p, q) && Exists(p, o, l) && Exists(q, o, l)
    ensures Twins(Abandon(p, o, l), Abandon(q, o, l))
  {
    TwinAt(p, q, o, l);
    hide Twins, TwinLayer;
    ViewTwins(p, q, l, o, Abandon(p, o, l).layers[l], Abandon(q, o, l).layers[l]);
  }

  lemma RefusedRollback(p: Pool, q: Pool, o: nat, l: nat)
    requires Sane(p) && Sane(q) && Twins(p, q) && Twins(Drain(p), Drain(q))
    ensures Twins(Refused(p, RolledBack(o, l)), Refused(q, RolledBack(o, l)))
  {
    hide Twins, Abandon, Sane, Refused, LeaseFree;
    RolledRefused(p, o, l);
    RolledRefused(q, o, l);
    TwinStanding(p, q, o, l);
    if InStep(p, o, l) && !OwnPrefetch(p, o, l) { AbandonTwins(Drain(p), Drain(q), o, l); }
  }

  lemma TwinStanding(p: Pool, q: Pool, o: nat, l: nat)
    requires Twins(p, q)
    ensures (Exists(p, o, l) <==> Exists(q, o, l)) && (InStep(p, o, l) <==> InStep(q, o, l))
    ensures Exists(p, o, l) ==> p.layers[l].candidate == q.layers[l].candidate && (OwnPrefetch(p, o, l) <==> OwnPrefetch(q, o, l))
  {
    TwinAt(p, q, o, l);
    hide Twins, TwinLayer;
  }

  lemma RefusedAppend(p: Pool, q: Pool, o: nat, l: nat, ra: seq<Record>, rb: seq<Record>)
    requires Twins(p, q) && Sane(p) && Sane(q) && |ra| == |rb|
    ensures Twins(Refused(p, Appended(o, l, ra)), Refused(q, Appended(o, l, rb)))
  {
    TwinAppend(p, q, o, l, |ra|);
    AppendExistsAt(p, o, l, |ra|);
    AppendExistsAt(q, o, l, |rb|);
    hide TwinLayer, LeaseFree, CanAppend, DenseReady, Sane, Leased;
    if CanAppend(p, o, l, |ra|) { LeasedTwins(p, q, o, l); }
  }

  lemma TwinDrains(p: Pool, q: Pool, a: Action)
    requires Twins(p, q)
    ensures Drains(p, a) <==> Drains(q, a)
  {
    TwinHeads(p, q);
    if a.Discarded? || a.Truncated? { TwinAt(p, q, a.o, a.l); }
    hide Twins, TwinLayer;
  }

  lemma RefusedDrain(p: Pool, q: Pool, a: Action)
    requires Sane(p) && Sane(q) && Twins(p, q) && Twins(Drain(p), Drain(q)) && !a.RolledBack? && !a.Appended?
    ensures Twins(Refused(p, a), Refused(q, a))
  {
    hide Twins, Drains, Refused, Sane;
    RefusedIs(p, a);
    RefusedIs(q, a);
    TwinDrains(p, q, a);
  }

  lemma RefusedTwins(p: Pool, q: Pool, a: Action, b: Action)
    requires Twins(p, q) && Sane(p) && Sane(q) && SameAct(a, b)
    ensures Twins(Refused(p, a), Refused(q, b))
  {
    TwinDrain(p, q);
    hide Twins, Refused;
    match a
    case RolledBack(o, l) => RefusedRollback(p, q, o, l);
    case Appended(o, l, ra) => RefusedAppend(p, q, o, l, ra, b.recs);
    case _ => RefusedDrain(p, q, a);
  }

  lemma TwinHeads(p: Pool, q: Pool)
    requires Twins(p, q)
    ensures p.sessions == q.sessions && p.active == q.active && |p.layers| == |q.layers|
  {
  }

  lemma AcceptedTwins(p: Pool, q: Pool, a: Action, b: Action)
    requires Inv(p) && Inv(q) && Twins(p, q) && Sane(p) && Sane(q) && SameAct(a, b) && Allowed(p, a) && Allowed(q, b)
    ensures Twins(Accepted(p, a), Accepted(q, b))
  {
    hide Inv, Twins, Sane, Allowed, StepBoundary, StepCut, StepData, AppendEither, Allocate, Release;
    match a
    case Appended(o, l, ra) => AppendedTwins(p, q, o, l, ra, b.recs);
    case Admitted(capacity, pages) => AdmittedTwins(p, q, capacity, pages);
    case Dismissed(o) => DismissedAllowed(p, q, o);
    case RolledBack(_, _) => ShrinkTwins(p, q, a);
    case Discarded(_, _) => ShrinkTwins(p, q, a);
    case Truncated(_, _, _) => ShrinkTwins(p, q, a);
    case Opened(_, _) => BoundaryTwins(p, q, a);
    case Closed => BoundaryTwins(p, q, a);
    case Began(_, _, _) => BoundaryTwins(p, q, a);
    case BeganTransient(_, _, _) => BoundaryTwins(p, q, a);
    case Declared(_, _, _) => BoundaryTwins(p, q, a);
    case _ => DataTwins(p, q, a);
  }

  lemma DismissedAllowed(p: Pool, q: Pool, o: nat)
    requires Inv(p) && Inv(q) && Twins(p, q) && Sane(p) && Sane(q) && Allowed(p, Dismissed(o)) && Allowed(q, Dismissed(o))
    ensures Twins(Release(p, o), Release(q, o))
  {
    hide Inv, Twins, Sane, CanRelease, Release;
    DismissedTwins(p, q, o);
  }

  /** Every action takes twins to twins, accepted or refused alike. */
  lemma StepTwins(p: Pool, q: Pool, a: Action, b: Action)
    requires Inv(p) && Inv(q) && Twins(p, q) && SameAct(a, b)
    ensures Twins(Step(p, a), Step(q, b))
    ensures !a.Landed? ==> (Allowed(p, a) <==> Allowed(q, b))
    ensures Torn(p, a) <==> Torn(q, b)
  {
    InvSane(p);
    InvSane(q);
    TwinAllowed(p, q, a, b);
    hide Inv, Sane, Torn, Accepted, Refused;
    if a.Landed? {
      LandedTwins(p, q, a);
    } else {
      hide Allowed, Twins;
      if Allowed(p, a) { AcceptedTwins(p, q, a, b); } else { RefusedTwins(p, q, a, b); }
    }
  }

  lemma LandedTwins(p: Pool, q: Pool, a: Action)
    requires Twins(p, q) && Sane(p) && Sane(q) && a.Landed?
    ensures Twins(Step(p, a), Step(q, a))
  {
    LandedHost(p, a);
    LandedHost(q, a);
    hide Step, Sane;
    TwinHost(p, q, Step(p, a), Step(q, a));
  }

  lemma LandedHost(p: Pool, a: Action)
    requires Sane(p) && a.Landed?
    ensures OnlyHost(p, Step(p, a))
  {
    HostSelf(p);
    hide OnlyHost;
  }
}
