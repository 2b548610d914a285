/** Diagnostic snapshots: they copy the device side and the lengths, never host memory. */
module PoolSnapshots {
  import opened TokenTypes
  import opened Ranking
  import opened TokenStore
  import opened TokenPool
  import opened PoolWritebacks
  import opened PoolTransactions
  import opened PoolAppend
  import opened PoolRecall
  import opened PoolPrefetch
  import opened PoolSessions
  import opened PoolRuns

  /** The saved layers; of `layers[l]` a restore reads the store, the views and the dense proof, `arena` is the specification. */
  datatype Saved = Saved(layers: seq<Layer>, sessions: map<nat, Session>, topology: nat, valid: bool, dipped: bool)

  // ----- committed lengths never shrink, except by truncation; only admission and release change the topology

  /** Committed lengths only grow, except where the effect cuts. */
  ghost predicate LengthsKept(p: Pool, r: Pool, e: Effect) {
    && |r.layers| == |p.layers| && r.cfg == p.cfg
    && r.topology == p.topology + (if e.Born? || e.Gone? then 1 else 0)
    && forall l, o :: 0 <= l < |p.layers| && o in p.layers[l].views && o in r.layers[l].views ==>
         if e.Cut? && e.l == l && e.o == o then r.layers[l].views[o].length == e.len
         else p.layers[l].views[o].length <= r.layers[l].views[o].length
  }

  lemma OnlyHostLengths(p: Pool, r: Pool)
    requires OnlyHost(p, r)
    ensures LengthsKept(p, r, Nothing)
  {
  }

  lemma LayerLengths(p: Pool, q: Pool, l: nat, r: Layer)
    requires LengthsKept(p, q, Nothing) && l < |p.layers| && q.layers[l].views == p.layers[l].views
    requires forall o :: o in p.layers[l].views && o in r.views ==> p.layers[l].views[o].length <= r.views[o].length
    ensures LengthsKept(p, SetLayer(q, l, r), Nothing)
  {
  }

  lemma BoundaryLengths(p: Pool, a: Action)
    requires Sane(p) && Inv(p) && Allowed(p, a)
    requires a.Opened? || a.Closed? || a.Began? || a.BeganTransient? || a.Declared?
    ensures LengthsKept(p, Accepted(p, a), Nothing)
  {
    hide Inv, StepData, StepCut, AppendEither, Allocate, Release, CanEnsure, CanPrepare, CanAllocate, CanRelease, DenseReady;
    hide LeaseFree;
  }

  lemma CopyLengths(p: Pool, a: Action)
    requires Sane(p) && Inv(p) && Allowed(p, a) && (a.Landed? || a.Reserved?)
    ensures LengthsKept(p, Accepted(p, a), Nothing)
  {
    hide Inv, StepBoundary, StepCut, AppendEither, Allocate, Release;
    OnlyHostLengths(p, Accepted(p, a));
  }

  lemma StreamLengths(p: Pool, a: Action)
    requires Sane(p) && Inv(p) && Allowed(p, a) && (a.Streamed? || a.Finalized?)
    ensures LengthsKept(p, Accepted(p, a), Nothing)
  {
    hide Inv, StepBoundary, StepCut, AppendEither, Allocate, Release;
    match a
    case Streamed(l, logical, restart) =>
      LayerLengths(p, p, l, StreamAt(p.sessions, p.layers[l], logical, restart));
    case Finalized(l) =>
      var q := if AtLimit(p.layers[l].store, p.cfg.limit) then Drain(p) else p;
      LayerLengths(p, q, l, FinalizeAt(q.layers[l], q.cfg.limit));
  }

  lemma PrepareLengths(p: Pool, a: Action)
    requires Sane(p) && Inv(p) && Allowed(p, a) && a.Prepared?
    ensures LengthsKept(p, Accepted(p, a), Nothing)
  {
    hide Inv, StepBoundary, StepCut, AppendEither, Allocate, Release;
    hide LeaseFree;
    hide AllResident;
    var q := BeforePrepare(p, a.o, a.l);
    assert q.layers[a.l].views == p.layers[a.l].views;
    LayerLengths(p, q, a.l, Prepare(p, a.o, a.l, a.count, a.limit, a.native).layers[a.l]);
  }

  lemma CommitLengths(p: Pool, a: Action)
    requires Sane(p) && Inv(p) && Allowed(p, a) && a.Committed?
    ensures LengthsKept(p, Accepted(p, a), Nothing)
  {
    hide Inv, Accepted, Allowed, Sane, CanCommit;
    AcceptedCommit(p, a.o, a.l);
    CommitExists(p, a.o, a.l);
    RollbackLength(p, a.o, a.l);
    var q := Drain(p);
    LayerLengths(p, q, a.l, Commit(p, a.o, a.l).layers[a.l]);
  }

  lemma CommitExists(p: Pool, o: nat, l: nat)
    requires CanCommit(p, o, l) && Sane(p)
    ensures Exists(p, o, l) && InLayers(p)
  {
  }

  lemma PersistentLengths(p: Pool, o: nat, l: nat, recs: seq<Record>)
    requires CanPersist(p, o, l, recs)
    ensures LengthsKept(p, AppendPersistent(p, o, l, recs), Nothing)
  {
    hide Inv;
    hide DenseReady;
    hide AppendReady;
    hide AppendRows;
    hide NewToks;
    hide HostIds;
    hide RowIds;
    AppendPersistentLegal(p, o, l, recs);
    var q := MakeRoom(PlannedPool(p, o, l, |recs|), l);
    hide LeaseFree;
    assert q.layers[l].views == p.layers[l].views;
    LayerLengths(p, q, l, PlaceAppend(q, o, l, recs).layers[l]);
  }

  lemma AppendLengths(p: Pool, a: Action)
    requires Sane(p) && Inv(p) && Allowed(p, a) && a.Appended?
    ensures LengthsKept(p, Accepted(p, a), EffectOf(p, a))
  {
    hide Inv, StepBoundary, StepData, StepCut, Allocate, Release, AppendPersistent;
    hide LeaseFree;
    hide DenseReady;
    if p.layers[a.l].views[a.o].transientStart.None? {
      PersistentLengths(p, a.o, a.l, a.recs);
    } else {
      AppendTransientInv(p, a.o, a.l, a.recs);
      LayerLengths(p, p, a.l, AppendTransient(p, a.o, a.l, a.recs).layers[a.l]);
    }
  }

  lemma RecallLengths(p: Pool, a: Action)
    requires Sane(p) && Inv(p) && Allowed(p, a) && a.Recall?
    ensures LengthsKept(p, Accepted(p, a), Nothing)
  {
    hide Inv, StepBoundary, StepCut, AppendEither, Allocate, Release;
    hide LeaseFree;
    var gs := Toks(p.sessions, a.o, History(p.layers[a.l], a.o, a.idx));
    EnsureLegal(p, a.o, a.l, a.idx);
    var q := BeforeRecall(p, a.o, a.l, gs);
    hide RecallReady;
    hide EnsureRows;
    hide History;
    LayerLengths(p, q, a.l, EnsureAt(q.layers[a.l], gs, p.cfg.limit));
  }

  lemma CutLengths(p: Pool, o: nat, l: nat, len: nat)
    requires CanCut(p, o, l, len)
    ensures LengthsKept(p, CutTo(p, o, l, len), Cut(l, o, len))
  {
    hide Inv, LayerInv, LeaseFree, Cuttable, SuffixToks, CloseAt;
    CutLegal(p, o, l, len);
    CutLayerLengths(p, Drain(p), o, l, len, CutTo(p, o, l, len).layers[l]);
  }

  lemma CutLayerLengths(p: Pool, q: Pool, o: nat, l: nat, len: nat, r: Layer)
    requires OnlyHost(p, q) && l < |p.layers| && r.views == p.layers[l].views[o := FreshView(len)]
    ensures LengthsKept(p, SetLayer(q, l, r), Cut(l, o, len))
  {
  }

  lemma ShrinkLengths(p: Pool, a: Action)
    requires Sane(p) && Inv(p) && Allowed(p, a) && (a.RolledBack? || a.Truncated?)
    ensures LengthsKept(p, Accepted(p, a), EffectOf(p, a))
  {
    hide Inv, StepBoundary, StepData, AppendEither, Allocate, Release, CutTo, Sane, Discard;
    hide LeaseFree;
    match a
    case RolledBack(o, l) =>
      if InStep(p, o, l) { CutLengths(p, o, l, p.layers[l].views[o].length); } else { DiscardedLengths(p, o, l); }
    case Truncated(o, l, len) => TruncateOpen(p, o, l, len); CutLengths(p, o, l, len);
  }

  lemma DiscardLengths(p: Pool, a: Action)
    requires Sane(p) && Inv(p) && Allowed(p, a) && a.Discarded?
    ensures LengthsKept(p, Accepted(p, a), EffectOf(p, a))
  {
    hide Inv, StepBoundary, StepData, AppendEither, Allocate, Release, CutTo, Sane, Discard, LeaseFree;
    DiscardedLengths(p, a.o, a.l);
  }

  lemma DiscardedLengths(p: Pool, o: nat, l: nat)
    requires Sane(p) && Inv(p) && CanDiscard(p, o, l)
    ensures LengthsKept(p, Discard(p, o, l), Cut(l, o, p.layers[l].views[o].length))
  {
    DiscardInv(p, o, l);
    hide Inv, LayerInv, LeaseFree, CloseAt, LeaseTo, DiscardAt, SameLogicalBut, Logical;
    CutLayerLengths(p, Drain(p), o, l, p.layers[l].views[o].length, Discard(p, o, l).layers[l]);
  }

  lemma AdmitLengths(p: Pool, a: Action)
    requires Sane(p) && Inv(p) && Allowed(p, a) && a.Admitted?
    ensures LengthsKept(p, Accepted(p, a), EffectOf(p, a))
  {
    forall l | 0 <= l < |p.layers| ensures p.nextOwner !in p.layers[l].views {
      LiveViews(p, l);
    }
    hide Inv, StepBoundary, StepData, StepCut, AppendEither;
  }

  lemma DismissLengths(p: Pool, a: Action)
    requires Sane(p) && Inv(p) && Allowed(p, a) && a.Dismissed?
    ensures LengthsKept(p, Accepted(p, a), EffectOf(p, a))
  {
    ReleaseLegal(p, a.o);
    hide Inv, Sane, StepBoundary, StepData, StepCut, AppendEither, LayerInv, KeptBy, ReleasedAt, Release;
    ReleaseLengths(p, a.o);
  }

  lemma ReleaseLengths(p: Pool, o: nat)
    requires Sane(p) && Everywhere(p, o)
    ensures LengthsKept(p, Release(p, o), Gone(o))
  {
    hide ReleasedAt;
    var q := Drain(p);
    forall l, x | 0 <= l < |p.layers| && x in p.layers[l].views && x in Release(p, o).layers[l].views
      ensures p.layers[l].views[x].length <= Release(p, o).layers[l].views[x].length
    {
      ReleasedViews(q.sessions, q.layers[l], o, q.cfg.limit, x);
    }
  }

  lemma ReleasedViews(ss: map<nat, Session>, ly: Layer, o: nat, limit: Option<nat>, x: nat)
    requires o in ly.views && Shaped(ly.store)
    ensures var r := ReleasedAt(ss, ly, o, limit); x in r.views ==> x != o && x in ly.views && r.views[x] == ly.views[x]
  {
    hide HostIds, SuffixToks;
  }

  lemma RefusedLengths(p: Pool, a: Action)
    requires Sane(p)
    ensures LengthsKept(p, Refused(p, a), Nothing)
  {
    hide Allowed, LeaseFree, CanAppend, LengthsKept;
    SameLengths(p);
    OnlyHostLengths(p, Drain(p));
    if a.RolledBack? && InStep(p, a.o, a.l) && !OwnPrefetch(p, a.o, a.l) {
      LayerLengths(p, Drain(p), a.l, Abandon(Drain(p), a.o, a.l).layers[a.l]);
    } else if a.Appended? && CanAppend(p, a.o, a.l, |a.recs|) {
      AppendExists(p, a.o, a.l, |a.recs|);
      LayerLengths(p, p, a.l, LeaseTo(p.layers[a.l], a.o));
    }
  }

  lemma AppendExists(p: Pool, o: nat, l: nat, count: nat)
    requires CanAppend(p, o, l, count)
    ensures Exists(p, o, l)
  {
  }

  /** Committed lengths along any action, refused or not. */
  lemma StepLengths(p: Pool, a: Action)
    requires Inv(p)
    ensures LengthsKept(p, Step(p, a), EffectOf(p, a))
  {
    InvSane(p);
    hide Inv, Sane, LengthsKept, Accepted, Refused;
    if Allowed(p, a) {
      match a
      case Opened(_, _) => BoundaryLengths(p, a);
      case Closed => BoundaryLengths(p, a);
      case Began(_, _, _) => BoundaryLengths(p, a);
      case BeganTransient(_, _, _) => BoundaryLengths(p, a);
      case Declared(_, _, _) => BoundaryLengths(p, a);
      case Landed(_, _) => CopyLengths(p, a);
      case Reserved => CopyLengths(p, a);
      case Committed(_, _) => CommitLengths(p, a);
      case Prepared(_, _, _, _, _, _) => PrepareLengths(p, a);
      case Streamed(_, _, _) => StreamLengths(p, a);
      case Finalized(_) => StreamLengths(p, a);
      case Appended(_, _, _) => AppendLengths(p, a);
      case Recall(_, _, _) => RecallLengths(p, a);
      case RolledBack(_, _) => ShrinkLengths(p, a);
      case Discarded(_, _) => DiscardLengths(p, a);
      case Truncated(_, _, _) => ShrinkLengths(p, a);
      case Admitted(_, _) => AdmitLengths(p, a);
      case Dismissed(_) => DismissLengths(p, a);
    } else {
      RefusedLengths(p, a);
    }
  }

  lemma SameLengths(p: Pool)
    ensures LengthsKept(p, p, Nothing)
  {
  }

  // ----- save and restore

  ghost predicate AllClosed(layers: seq<Layer>) {
    forall l, o :: 0 <= l < |layers| && o in layers[l].views ==> layers[l].views[o].stepEnd.None?
  }

  ghost predicate CanSave(p: Pool) { p.active.None? && AllClosed(p.layers) }

  /** `snapshot`: drain, then record device state and lengths. */
  function Save(p: Pool): Saved
    requires InLayers(p)
  {
    Saved(Drain(p).layers, p.sessions, p.topology, true, false)
  }

  function RestoredProofs(cfg: Config, now: Proofs, past: Proofs): Proofs {
    var c := Invalidate(now);
    if cfg.dense && past.denseOwner.Some? && past.denseGeneration == past.generation then
      c.(denseOwner := past.denseOwner, residentOwner := past.denseOwner, denseEnd := past.denseEnd, residentEnd := past.denseEnd,
         denseGeneration := c.generation, lease := past.denseOwner)
    else c
  }

  /** The device side and the cursors come from the snapshot, host memory stays. */
  function RestoredLayer(cfg: Config, now: Layer, past: Layer): Layer {
    Layer(past.store, now.host, RestoredProofs(cfg, now.proofs, past.proofs), past.views, None, None, past.arena)
  }

  ghost predicate CanRestore(p: Pool, s: Saved) {
    && p.active.None? && s.valid && s.topology == p.topology && s.sessions == p.sessions && |s.layers| == |p.layers|
    && AllClosed(p.layers)
    && (forall l, o :: 0 <= l < |p.layers| && o in s.layers[l].views && o in p.layers[l].views ==>
          s.layers[l].views[o].length <= p.layers[l].views[o].length)
  }

  function Restore(p: Pool, s: Saved): Pool
    requires InLayers(p) && |s.layers| == |p.layers|
  {
    var q := Drain(p);
    q.(layers := seq(|q.layers|, l requires 0 <= l < |q.layers| => RestoredLayer(q.cfg, q.layers[l], s.layers[l])))
  }

  /** The snapshot was taken in a reachable quiescent state. */
  ghost predicate SavedOK(cfg: Config, s: Saved) {
    && PagesOwned(cfg, s.sessions) && AllClosed(s.layers)
    && forall l :: 0 <= l < |s.layers| ==> LayerInv(cfg, s.sessions, s.layers[l], [], l)
  }

  /** The saved sequence of `o` is still a prefix of its current one. */
  ghost predicate Prefix(ss: map<nat, Session>, now: Layer, past: Layer, o: nat)
    requires o in now.views && o in past.views
  {
    Logical(ss, past, o) <= Logical(ss, now, o)
  }

  ghost predicate LayerIntact(ss: map<nat, Session>, now: Layer, past: Layer) {
    forall o :: o in past.views && o in now.views ==> Prefix(ss, now, past, o)
  }

  lemma ClosedLayer(cfg: Config, ss: map<nat, Session>, ly: Layer, ws: seq<Ticket>, l: nat)
    requires LayerInv(cfg, ss, ly, ws, l) && (forall o :: o in ly.views ==> ly.views[o].stepEnd.None?)
    ensures ly.pending.None? && ly.candidate.None?
    ensures forall o :: o in ly.views ==> o in ss && ly.views[o].tail == [] && ly.views[o].transientStart.None? && HostEnd(ly.views[o]) == ly.views[o].length
  {
    hide StoreOK;
    hide ArenaOK;
    hide HostOK;
    hide TicketsOK;
    hide ProofsOK;
    hide PlanOK;
    forall o | o in ly.views ensures o in ss && ly.views[o].tail == [] && ly.views[o].transientStart.None? && HostEnd(ly.views[o]) == ly.views[o].length {
      assert ViewOK(cfg, ss[o], ly.views[o]);
    }
  }

  /** Host memory still holds every saved token exactly when the saved prefixes are intact. */
  lemma RestoredHost(ss: map<nat, Session>, now: Layer, past: Layer, l: nat)
    requires ArenaOK(ss, now) && HostOK(ss, now, [], l) && ArenaOK(ss, past) && |past.host| == |now.host|
    requires now.views.Keys == past.views.Keys
    requires forall o :: o in past.views ==> past.views[o].tail == [] && now.views[o].tail == [] && HostEnd(past.views[o]) <= HostEnd(now.views[o])
    ensures LayerIntact(ss, now, past) <==>
      forall o, i: nat :: Backed(past, o, i) ==> 0 <= Tok(ss, o, i) < |now.host| && now.host[Tok(ss, o, i)] == Entry(ss, past, o, i)
  {
    forall o, i: nat | Backed(past, o, i)
      ensures Backed(now, o, i) && 0 <= Tok(ss, o, i) < |now.host| && now.host[Tok(ss, o, i)] == Entry(ss, now, o, i)
    {
      assert Backed(now, o, i);
      assert HostHolds(ss, now, o, i) || InFlight([], l, o, i);
    }
    hide HostOK;
    hide ArenaOK;
    hide HostHolds;
    hide Tok;
    forall o | o in past.views
      ensures Prefix(ss, now, past, o) <==> forall i: nat :: Backed(past, o, i) ==> Entry(ss, now, o, i) == Entry(ss, past, o, i)
    {
      hide Entry;
      var a, b := Logical(ss, past, o), Logical(ss, now, o);
      assert forall i: nat :: Backed(past, o, i) ==> i < |a| && a[i] == Entry(ss, past, o, i) && b[i] == Entry(ss, now, o, i);
      assert forall i: nat :: i < |a| ==> Backed(past, o, i);
    }
  }

  lemma RestoreLayerInv(cfg: Config, ss: map<nat, Session>, now: Layer, past: Layer, l: nat)
    requires LayerInv(cfg, ss, past, [], l) && LayerInv(cfg, ss, now, [], l)
    requires (forall o :: o in past.views ==> past.views[o].stepEnd.None?)
    requires (forall o :: o in now.views ==> now.views[o].stepEnd.None?)
    requires forall o :: o in past.views && o in now.views ==> past.views[o].length <= now.views[o].length
    requires LayerIntact(ss, now, past)
    ensures LayerInv(cfg, ss, RestoredLayer(cfg, now, past), [], l)
  {
    ClosedLayer(cfg, ss, past, [], l);
    ClosedLayer(cfg, ss, now, [], l);
    LayerParts(cfg, ss, past, l);
    LayerParts(cfg, ss, now, l);
    hide LayerInv;
    hide StoreOK;
    hide ViewsOK;
    hide ArenaOK;
    hide HostOK;
    hide ProofsOK;
    hide PlanOK;
    RestoredHost(ss, now, past, l);
    hide LayerIntact;
    var r := RestoredLayer(cfg, now, past);
    RestoredArena(ss, past, r, l);
    RestoredProofsOK(cfg, ss, now, past);
    RestoreAssemble(cfg, ss, past, r, l);
  }

  lemma LayerParts(cfg: Config, ss: map<nat, Session>, ly: Layer, l: nat)
    requires LayerInv(cfg, ss, ly, [], l)
    ensures StoreOK(cfg, ly) && ViewsOK(cfg, ss, ly) && ArenaOK(ss, ly) && HostOK(ss, ly, [], l) && ProofsOK(cfg, ss, ly)
    ensures |ly.host| == PAGE_SIZE * cfg.pages && ly.views.Keys == ss.Keys
  {
  }

  lemma RestoreAssemble(cfg: Config, ss: map<nat, Session>, past: Layer, r: Layer, l: nat)
    requires StoreOK(cfg, past) && ViewsOK(cfg, ss, past) && past.pending.None? && |r.host| == |past.host|
    requires (forall o :: o in past.views ==> past.views[o].transientStart.None?)
    requires r == Layer(past.store, r.host, r.proofs, past.views, None, None, past.arena)
    requires ArenaOK(ss, r) && HostOK(ss, r, [], l) && ProofsOK(cfg, ss, r) && PlanOK(cfg, ss, r)
    ensures LayerInv(cfg, ss, r, [], l)
  {
    assert Claimed(r) == {} == Claimed(past);
    hide ArenaOK;
    hide HostOK;
    hide ProofsOK;
    hide PlanOK;
    hide MapsAgree;
    hide Copies;
    hide Ages;
  }

  lemma RestoredArena(ss: map<nat, Session>, past: Layer, r: Layer, l: nat)
    requires ArenaOK(ss, past) && r.views == past.views && r.arena == past.arena
    requires forall o, i: nat :: Backed(past, o, i) ==> 0 <= Tok(ss, o, i) < |r.host| && r.host[Tok(ss, o, i)] == Entry(ss, past, o, i)
    ensures ArenaOK(ss, r) && HostOK(ss, r, [], l)
  {
    assert forall o, i: nat :: Backed(r, o, i) <==> Backed(past, o, i);
    hide Tok;
    forall o, i: nat | Backed(r, o, i) ensures HostHolds(ss, r, o, i) {}
  }

  lemma RestoredProofsOK(cfg: Config, ss: map<nat, Session>, now: Layer, past: Layer)
    requires ProofsOK(cfg, ss, past) && ProofsOK(cfg, ss, now)
    ensures ProofsOK(cfg, ss, RestoredLayer(cfg, now, past)) && PlanOK(cfg, ss, RestoredLayer(cfg, now, past))
  {
    var r := RestoredLayer(cfg, now, past);
    assert forall o, i: nat, row :: AtRow(ss, r, o, i, row) == AtRow(ss, past, o, i, row);
    assert forall o, i: nat :: Direct(ss, r, o, i) == Direct(ss, past, o, i);
    assert forall o, i: nat :: Resident(ss, r, o, i) == Resident(ss, past, o, i);
  }

  ghost predicate Intact(p: Pool, s: Saved) {
    && |s.layers| == |p.layers|
    && forall l :: 0 <= l < |p.layers| ==> LayerIntact(p.sessions, p.layers[l], s.layers[l])
  }

  lemma IntactDrain(p: Pool, s: Saved)
    requires InLayers(p) && Intact(p, s)
    ensures Intact(Drain(p), s)
  {
    var q := Drain(p);
    forall l, o | 0 <= l < |p.layers| && o in s.layers[l].views && o in q.layers[l].views
      ensures Prefix(q.sessions, q.layers[l], s.layers[l], o)
    {
      assert Prefix(p.sessions, p.layers[l], s.layers[l], o);
      LogicalSame(p.sessions, p.layers[l], q.layers[l], o);
    }
  }

  /** Restoring an intact snapshot gives a sound pool with exactly the recorded sequences. */
  lemma RestoreInv(p: Pool, s: Saved)
    requires Inv(p) && SavedOK(p.cfg, s) && CanRestore(p, s) && Intact(p, s)
    ensures InLayers(p) && Inv(Restore(p, s)) && Restore(p, s).sessions == p.sessions
    ensures forall l, o :: 0 <= l < |p.layers| && o in s.layers[l].views ==>
      o in Restore(p, s).layers[l].views && Restore(p, s).layers[l].views[o] == s.layers[l].views[o]
      && Logical(p.sessions, Restore(p, s).layers[l], o) == Logical(s.sessions, s.layers[l], o)
  {
    PoolFacts(p);
    DrainInv(p);
    IntactDrain(p, s);
    hide Inv;
    hide LayerInv;
    hide Intact;
    hide SavedOK;
    var q, r := Drain(p), Restore(p, s);
    forall l | 0 <= l < |r.layers| ensures LayerInv(r.cfg, r.sessions, r.layers[l], [], l) && r.layers[l].pending.None? {
      RestoreOne(q, s, l);
    }
    RestoreStep(q, r);
    RestoreMeaning(p, s);
  }

  lemma RestoreMeaning(p: Pool, s: Saved)
    requires InLayers(p) && |s.layers| == |p.layers| && s.sessions == p.sessions
    ensures Restore(p, s).sessions == p.sessions && |Restore(p, s).layers| == |p.layers|
    ensures forall l, o :: 0 <= l < |p.layers| && o in s.layers[l].views ==>
      o in Restore(p, s).layers[l].views && Restore(p, s).layers[l].views[o] == s.layers[l].views[o]
      && Logical(p.sessions, Restore(p, s).layers[l], o) == Logical(s.sessions, s.layers[l], o)
  {
    var r := Restore(p, s);
    forall l, o | 0 <= l < |p.layers| && o in s.layers[l].views
      ensures Logical(p.sessions, r.layers[l], o) == Logical(s.sessions, s.layers[l], o)
    {
      LogicalSame(p.sessions, r.layers[l], s.layers[l], o);
    }
  }

  lemma RestoreOne(q: Pool, s: Saved, l: nat)
    requires Inv(q) && q.writes == [] && l < |q.layers| == |s.layers| && SavedOK(q.cfg, s) && s.sessions == q.sessions
    requires Intact(q, s) && AllClosed(q.layers)
    requires forall o :: o in s.layers[l].views && o in q.layers[l].views ==> s.layers[l].views[o].length <= q.layers[l].views[o].length
    ensures LayerInv(q.cfg, q.sessions, RestoredLayer(q.cfg, q.layers[l], s.layers[l]), [], l)
  {
    assert LayerInv(q.cfg, q.sessions, q.layers[l], q.writes, l);
    hide LayerInv;
    hide LayerIntact;
    RestoreLayerInv(q.cfg, q.sessions, q.layers[l], s.layers[l], l);
  }

  lemma RestoreStep(q: Pool, r: Pool)
    requires Inv(q) && q.writes == [] && q.active.None? && r == q.(layers := r.layers) && |r.layers| == |q.layers|
    requires forall l :: 0 <= l < |r.layers| ==> LayerInv(r.cfg, r.sessions, r.layers[l], [], l) && r.layers[l].pending.None?
    ensures Inv(r)
  {
    hide LayerInv;
  }

  // ----- the registry of snapshots over whole runs

  datatype Archive = Archive(pool: Pool, saved: seq<Saved>)

  datatype Move = Act(a: Action) | SaveNow | Load(k: nat)

  /** A truncation of session `o` to `len` invalidates every snapshot in which some layer of `o` is longer. */
  ghost function InvalidateBelow(saved: seq<Saved>, o: nat, len: nat): (r: seq<Saved>)
    ensures |r| == |saved|
  {
    seq(|saved|, k requires 0 <= k < |saved| => if LongerThan(saved[k], o, len) then saved[k].(valid := false) else saved[k])
  }

  ghost predicate LongerThan(s: Saved, o: nat, len: nat) {
    exists l :: 0 <= l < |s.layers| && o in s.layers[l].views && s.layers[l].views[o].length > len
  }

  /** Restoring `s` leaves some layer shorter than snapshot `t`. */
  ghost predicate DipsBelow(s: Saved, t: Saved) {
    exists l, o :: 0 <= l < |s.layers| && l < |t.layers| && o in s.layers[l].views && o in t.layers[l].views
      && s.layers[l].views[o].length < t.layers[l].views[o].length
  }

  /** `restore` rewinds lengths without telling the other snapshots; `dipped` only records that it did. */
  ghost function MarkDipped(saved: seq<Saved>, s: Saved): (r: seq<Saved>)
    ensures |r| == |saved|
  {
    seq(|saved|, k requires 0 <= k < |saved| =>
      if saved[k].topology == s.topology && DipsBelow(s, saved[k]) then saved[k].(dipped := true) else saved[k])
  }

  /** The action truncates a history: an accepted truncation, or a rollback of a persistent step. */
  ghost predicate Truncates(p: Pool, a: Action) {
    Allowed(p, a) && (a.Truncated? || (a.RolledBack? && InStep(p, a.o, a.l)))
  }

  /** A restore refused for its lengths has drained first. */
  ghost predicate RestoreDrains(p: Pool, s: Saved) {
    p.active.None? && s.valid && s.topology == p.topology && s.sessions == p.sessions && AllClosed(p.layers)
  }

  ghost function Moved(x: Archive, m: Move): Archive {
    if !Sane(x.pool) then x
    else
      match m
      case Act(a) =>
        Archive(Step(x.pool, a),
                if Truncates(x.pool, a) then InvalidateBelow(x.saved, a.o, EffectOf(x.pool, a).len) else x.saved)
      case SaveNow => if CanSave(x.pool) then Archive(Drain(x.pool), x.saved + [Save(x.pool)]) else x
      case Load(k) =>
        if k >= |x.saved| then x
        else if CanRestore(x.pool, x.saved[k]) then Archive(Restore(x.pool, x.saved[k]), MarkDipped(x.saved, x.saved[k]))
        else if RestoreDrains(x.pool, x.saved[k]) then x.(pool := Drain(x.pool))
        else x
  }

  /** No rollback is torn, and no accepted restore uses a snapshot that an earlier restore dipped below. */
  ghost predicate Careful(x: Archive, m: Move) {
    && (m.Act? ==> !Torn(x.pool, m.a))
    && (m.Load? && m.k < |x.saved| && CanRestore(x.pool, x.saved[m.k]) ==> !x.saved[m.k].dipped)
  }

  ghost predicate Tracks(p: Pool, t: Saved) {
    && t.sessions == p.sessions && Intact(p, t)
    && forall l, o :: 0 <= l < |p.layers| && o in t.layers[l].views && o in p.layers[l].views ==>
         t.layers[l].views[o].length <= p.layers[l].views[o].length
  }

  ghost predicate EntryOK(p: Pool, t: Saved) {
    && SavedOK(p.cfg, t) && t.topology <= p.topology
    && (t.valid && !t.dipped && t.topology == p.topology ==> Tracks(p, t))
  }

  ghost predicate ArchiveInv(x: Archive) {
    && Inv(x.pool)
    && forall k :: 0 <= k < |x.saved| ==> EntryOK(x.pool, x.saved[k])
  }

  lemma SavedLengths(cfg: Config, t: Saved, l: nat, o: nat)
    requires SavedOK(cfg, t) && l < |t.layers| && o in t.layers[l].views
    ensures |Logical(t.sessions, t.layers[l], o)| == t.layers[l].views[o].length
  {
    ClosedLayer(cfg, t.sessions, t.layers[l], [], l);
  }

  /** An effect that does not cut below a snapshot keeps it intact. */
  lemma EffectTracks(p: Pool, r: Pool, e: Effect, t: Saved)
    requires SavedOK(p.cfg, t) && Tracks(p, t) && Realizes(p, r, e) && LengthsKept(p, r, e)
    requires !e.Born? && !e.Gone?
    requires forall l :: 0 <= l < |p.layers| ==> p.layers[l].views.Keys == r.layers[l].views.Keys
    requires e.Cut? && e.l < |t.layers| && e.o in t.layers[e.l].views ==> t.layers[e.l].views[e.o].length <= e.len
    ensures Tracks(r, t)
  {
    hide SavedOK;
    hide Logical;
    forall l, o | 0 <= l < |r.layers| && o in t.layers[l].views && o in r.layers[l].views
      ensures Prefix(r.sessions, r.layers[l], t.layers[l], o) && t.layers[l].views[o].length <= r.layers[l].views[o].length
    {
      assert Prefix(p.sessions, p.layers[l], t.layers[l], o);
      SavedLengths(p.cfg, t, l, o);
      EffectPrefix(p, r, e, l, o, Logical(t.sessions, t.layers[l], o));
    }
  }

  lemma EffectPrefix(p: Pool, r: Pool, e: Effect, l: nat, o: nat, kept: seq<Record>)
    requires Realizes(p, r, e) && !e.Born? && !e.Gone? && l < |p.layers| && o in p.layers[l].views && o in r.layers[l].views
    requires kept <= Logical(p.sessions, p.layers[l], o)
    requires e.Cut? && e.l == l && e.o == o ==> |kept| <= e.len
    ensures kept <= Logical(r.sessions, r.layers[l], o)
  {
    hide Logical;
  }

  lemma ActEntry(p: Pool, a: Action, t: Saved, t': Saved)
    requires Inv(p) && !Torn(p, a) && EntryOK(p, t)
    requires t' == if Truncates(p, a) && LongerThan(t, a.o, EffectOf(p, a).len) then t.(valid := false) else t
    ensures EntryOK(Step(p, a), t')
  {
    hide Inv;
    StepInv(p, a);
    StepLengths(p, a);
    var r, e := Step(p, a), EffectOf(p, a);
    if t'.valid && !t'.dipped && t'.topology == r.topology {
      forall l | 0 <= l < |p.layers| ensures p.layers[l].views.Keys == r.layers[l].views.Keys {
        LiveViews(p, l);
        LiveViews(r, l);
      }
      CutAbove(p, a, t);
      hide Step;
      hide EffectOf;
      EffectTracks(p, r, e, t);
    }
    hide Tracks;
    hide Realizes;
  }

  /** A surviving snapshot is no longer than what an action cuts to. */
  lemma CutAbove(p: Pool, a: Action, t: Saved)
    requires Inv(p) && Tracks(p, t)
    requires Truncates(p, a) ==> !LongerThan(t, a.o, EffectOf(p, a).len)
    ensures var e := EffectOf(p, a); e.Cut? && e.l < |t.layers| && e.o in t.layers[e.l].views ==> t.layers[e.l].views[e.o].length <= e.len
  {
    hide Inv;
    hide LeaseFree;
  }

  lemma LoadEntry(p: Pool, s: Saved, t: Saved, t': Saved)
    requires Inv(p) && EntryOK(p, s) && EntryOK(p, t) && CanRestore(p, s) && !s.dipped && InLayers(p)
    requires t' == if t.topology == s.topology && DipsBelow(s, t) then t.(dipped := true) else t
    ensures EntryOK(Restore(p, s), t')
  {
    var r := Restore(p, s);
    hide Inv;
    hide SavedOK;
    hide Logical;
    if t'.valid && !t'.dipped && t'.topology == r.topology {
      forall l, o | 0 <= l < |r.layers| && o in t.layers[l].views && o in r.layers[l].views
        ensures Prefix(r.sessions, r.layers[l], t.layers[l], o) && t.layers[l].views[o].length <= r.layers[l].views[o].length
      {
        LoadTracks(p, s, t, l, o);
      }
    }
  }

  ghost predicate TrackedAfter(r: Pool, t: Saved, l: nat, o: nat) {
    && l < |r.layers| && l < |t.layers| && o in r.layers[l].views && o in t.layers[l].views
    && Prefix(r.sessions, r.layers[l], t.layers[l], o) && t.layers[l].views[o].length <= r.layers[l].views[o].length
  }

  lemma LoadTracks(p: Pool, s: Saved, t: Saved, l: nat, o: nat)
    requires Inv(p) && InLayers(p) && SavedOK(p.cfg, s) && SavedOK(p.cfg, t) && Tracks(p, s) && Tracks(p, t) && !DipsBelow(s, t)
    requires l < |p.layers| && o in t.layers[l].views && |s.layers| == |p.layers|
    ensures TrackedAfter(Restore(p, s), t, l, o)
  {
    hide Inv;
    hide SavedOK;
    hide Logical;
    hide Tracks;
    hide Restore;
    hide InLayers;
    TracksShape(p, s, t);
    KeysOf(p, s, t, l);
    TracksPrefix(p, t, l, o);
    TracksPrefix(p, s, l, o);
    NoDip(s, t, l, o);
    hide DipsBelow;
    SavedLengths(p.cfg, t, l, o);
    SavedLengths(p.cfg, s, l, o);
    LoadPrefix(p, s, t, l, o);
  }

  lemma TracksShape(p: Pool, s: Saved, t: Saved)
    requires Tracks(p, s) && Tracks(p, t)
    ensures s.sessions == p.sessions == t.sessions && |s.layers| == |p.layers| == |t.layers|
  {
  }

  lemma NoDip(s: Saved, t: Saved, l: nat, o: nat)
    requires !DipsBelow(s, t) && l < |s.layers| && l < |t.layers| && o in s.layers[l].views && o in t.layers[l].views
    ensures t.layers[l].views[o].length <= s.layers[l].views[o].length
  {
  }

  lemma LoadPrefix(p: Pool, s: Saved, t: Saved, l: nat, o: nat)
    requires InLayers(p) && |s.layers| == |p.layers| == |t.layers| && s.sessions == p.sessions && l < |p.layers|
    requires o in p.layers[l].views && o in s.layers[l].views && o in t.layers[l].views
    requires Prefix(p.sessions, p.layers[l], t.layers[l], o) && Prefix(p.sessions, p.layers[l], s.layers[l], o)
    requires |Logical(p.sessions, t.layers[l], o)| <= |Logical(p.sessions, s.layers[l], o)|
    requires t.layers[l].views[o].length <= s.layers[l].views[o].length
    ensures TrackedAfter(Restore(p, s), t, l, o)
  {
    hide Logical;
    RestoreMeaning(p, s);
    hide Restore;
  }

  lemma TracksPrefix(p: Pool, t: Saved, l: nat, o: nat)
    requires Tracks(p, t) && l < |p.layers| && o in t.layers[l].views && o in p.layers[l].views
    ensures Prefix(p.sessions, p.layers[l], t.layers[l], o) && t.sessions == p.sessions
  {
  }

  lemma KeysOf(p: Pool, s: Saved, t: Saved, l: nat)
    requires Inv(p) && SavedOK(p.cfg, s) && SavedOK(p.cfg, t) && s.sessions == p.sessions == t.sessions
    requires l < |p.layers| == |s.layers| == |t.layers|
    ensures p.layers[l].views.Keys == s.layers[l].views.Keys == t.layers[l].views.Keys
  {
    LiveViews(p, l);
  }

  lemma SaveEntry(p: Pool, t: Saved)
    requires Inv(p) && InLayers(p) && EntryOK(p, t)
    ensures EntryOK(Drain(p), t)
  {
    hide Inv;
    hide SavedOK;
    hide Logical;
    hide LayerIntact;
    if t.valid && !t.dipped && t.topology == p.topology { IntactDrain(p, t); }
  }

  lemma NewEntry(p: Pool)
    requires Inv(p) && InLayers(p) && CanSave(p)
    ensures EntryOK(Drain(p), Save(p))
  {
    DrainInv(p);
    var q := Drain(p);
    forall l | 0 <= l < |q.layers| ensures LayerInv(q.cfg, q.sessions, q.layers[l], [], l) && PagesOwned(q.cfg, q.sessions) {
      InvLayer(q, l);
    }
    NewPages(q);
    hide Inv;
    hide LayerInv;
    hide Logical;
    hide PagesOwned;
  }

  lemma NewPages(p: Pool)
    requires Inv(p)
    ensures PagesOwned(p.cfg, p.sessions)
  {
  }

  /** Every careful move keeps the pool sound and every live snapshot restorable. */
  lemma MovedInv(x: Archive, m: Move)
    requires ArchiveInv(x) && Careful(x, m)
    ensures ArchiveInv(Moved(x, m))
  {
    PoolFacts(x.pool);
    hide Inv, EntryOK, Moved;
    match m
    case Act(a) => ActInv(x, a);
    case SaveNow => SaveInv(x);
    case Load(k) => LoadedInv(x, k);
  }

  lemma ActInv(x: Archive, a: Action)
    requires ArchiveInv(x) && Sane(x.pool) && Careful(x, Act(a))
    ensures ArchiveInv(Moved(x, Act(a)))
  {
    hide Inv, EntryOK, Torn, Sane, Step, Truncates, EffectOf;
    StepInv(x.pool, a);
    forall k | 0 <= k < |x.saved| ensures EntryOK(Moved(x, Act(a)).pool, Moved(x, Act(a)).saved[k]) {
      ActEntry(x.pool, a, x.saved[k], Moved(x, Act(a)).saved[k]);
    }
  }

  lemma SaveInv(x: Archive)
    requires ArchiveInv(x) && Sane(x.pool) && InLayers(x.pool)
    ensures ArchiveInv(Moved(x, SaveNow))
  {
    hide Inv, EntryOK, Sane, CanSave, Save;
    if CanSave(x.pool) {
      DrainInv(x.pool);
      NewEntry(x.pool);
      forall k | 0 <= k < |x.saved| ensures EntryOK(Drain(x.pool), x.saved[k]) { SaveEntry(x.pool, x.saved[k]); }
    }
  }

  lemma LoadedInv(x: Archive, k: nat)
    requires ArchiveInv(x) && Sane(x.pool) && InLayers(x.pool) && Careful(x, Load(k))
    ensures ArchiveInv(Moved(x, Load(k)))
  {
    var p := x.pool;
    hide Inv, EntryOK, Sane, AllClosed, DipsBelow, Restore;
    if k < |x.saved| && CanRestore(p, x.saved[k]) {
      LoadInv(p, x.saved[k]);
      forall j | 0 <= j < |x.saved| ensures EntryOK(Moved(x, Load(k)).pool, Moved(x, Load(k)).saved[j]) {
        LoadEntry(p, x.saved[k], x.saved[j], Moved(x, Load(k)).saved[j]);
      }
    } else if k < |x.saved| && RestoreDrains(p, x.saved[k]) {
      DrainInv(p);
      forall j | 0 <= j < |x.saved| ensures EntryOK(Drain(p), x.saved[j]) { SaveEntry(p, x.saved[j]); }
    }
  }

  lemma LoadInv(p: Pool, s: Saved)
    requires Inv(p) && EntryOK(p, s) && CanRestore(p, s) && !s.dipped && InLayers(p)
    ensures Inv(Restore(p, s))
  {
    hide Inv;
    hide SavedOK;
    hide LayerIntact;
    RestoreInv(p, s);
  }

  ghost function RunMoves(x: Archive, ms: seq<Move>): Archive
    decreases |ms|
  {
    if ms == [] then x else RunMoves(Moved(x, ms[0]), ms[1..])
  }

  /** A run of moves, each careful in its state. */
  ghost predicate CarefulRun(x: Archive, ms: seq<Move>)
    decreases |ms|
  {
    ms == [] || (Careful(x, ms[0]) && CarefulRun(Moved(x, ms[0]), ms[1..]))
  }

  lemma {:induction false} RunMovesInv(x: Archive, ms: seq<Move>)
    requires ArchiveInv(x) && CarefulRun(x, ms)
    ensures ArchiveInv(RunMoves(x, ms))
    decreases |ms|
  {
    hide ArchiveInv, Careful;
    if ms != [] {
      MovedInv(x, ms[0]);
      RunMovesInv(Moved(x, ms[0]), ms[1..]);
    }
  }

  lemma ArchivePool(x: Archive)
    requires ArchiveInv(x)
    ensures Inv(x.pool)
  {
    hide Inv;
    hide EntryOK;
  }

  /** After any careful run an accepted, undipped snapshot restores exactly the recorded lengths and records. */
  lemma RestoreAfterRun(x: Archive, ms: seq<Move>, k: nat, l: nat, o: nat)
    requires ArchiveInv(x) && CarefulRun(x, ms)
    requires var y := RunMoves(x, ms); k < |y.saved| && CanRestore(y.pool, y.saved[k]) && !y.saved[k].dipped && l < |y.saved[k].layers| && o in y.saved[k].layers[l].views
    ensures var y := RunMoves(x, ms); var s := y.saved[k];
      && InLayers(y.pool)
      && var r := Restore(y.pool, s);
         Inv(r) && l < |r.layers| && o in r.layers[l].views
         && r.layers[l].views[o].length == s.layers[l].views[o].length
         && Logical(r.sessions, r.layers[l], o) == Logical(s.sessions, s.layers[l], o)
  {
    var y := RunMoves(x, ms);
    var s := y.saved[k];
    RunMovesInv(x, ms);
    ArchivePool(y);
    assert EntryOK(y.pool, s);
    hide ArchiveInv;
    PoolFacts(y.pool);
    hide Inv;
    hide SavedOK;
    hide LayerIntact;
    hide Logical;
    RestoreInv(y.pool, s);
  }
}
