/** When a restore can be wrong: a rewind below a later snapshot, then different appends. */
module PoolRestoreGap {
  import opened TokenTypes
  import opened Ranking
  import opened TokenStore
  import opened TokenPool
  import opened PoolWritebacks
  import opened PoolTransactions
  import opened PoolAppend
  import opened PoolRecall
  import opened PoolSessions
  import opened PoolRuns
  import opened PoolSnapshots

  /** After an accepted restore, host memory holds every recorded token exactly when the prefixes are intact. */
  lemma RestoreExact(p: Pool, s: Saved)
    requires Inv(p) && SavedOK(p.cfg, s) && CanRestore(p, s)
    ensures InLayers(p)
    ensures Intact(p, s) <==> forall l :: 0 <= l < |p.layers| ==> HostAgrees(p.sessions, Drain(p).layers[l], s.layers[l])
  {
    PoolFacts(p);
    DrainInv(p);
    hide SavedOK;
    hide CanRestore;
    forall l | 0 <= l < |p.layers|
      ensures LayerIntact(p.sessions, p.layers[l], s.layers[l]) <==> HostAgrees(p.sessions, Drain(p).layers[l], s.layers[l])
    {
      hide Inv;
      ExactLayer(p, s, l);
    }
  }

  /** The current host memory agrees with every token a saved layer records. */
  ghost predicate HostAgrees(ss: map<nat, Session>, now: Layer, past: Layer) {
    forall o, i: nat :: Backed(past, o, i) ==> 0 <= Tok(ss, o, i) < |now.host| && now.host[Tok(ss, o, i)] == Entry(ss, past, o, i)
  }

  lemma ExactLayer(p: Pool, s: Saved, l: nat)
    requires InLayers(p) && Inv(Drain(p)) && SavedOK(p.cfg, s) && CanRestore(p, s) && l < |p.layers|
    ensures LayerIntact(p.sessions, p.layers[l], s.layers[l]) <==> HostAgrees(p.sessions, Drain(p).layers[l], s.layers[l])
  {
    hide Inv;
    hide SavedOK;
    var q := Drain(p);
    InvLayer(q, l);
    SavedLayer(p.cfg, s, l);
    IntactSame(p.sessions, p.layers[l], q.layers[l], s.layers[l]);
    hide LayerIntact;
    LengthsAt(p, s, l);
    hide CanRestore;
    ExactHost(q.cfg, q.sessions, q.layers[l], s.layers[l], l);
  }

  lemma SavedLayer(cfg: Config, s: Saved, l: nat)
    requires SavedOK(cfg, s) && l < |s.layers|
    ensures LayerInv(cfg, s.sessions, s.layers[l], [], l)
    ensures (forall o :: o in s.layers[l].views ==> s.layers[l].views[o].stepEnd.None?)
  {
    hide LayerInv;
  }

  lemma LengthsAt(p: Pool, s: Saved, l: nat)
    requires CanRestore(p, s) && l < |p.layers| && InLayers(p)
    ensures s.sessions == p.sessions && Drain(p).layers[l].views == p.layers[l].views
    ensures forall o :: o in p.layers[l].views ==> p.layers[l].views[o].stepEnd.None?
    ensures forall o :: o in s.layers[l].views && o in p.layers[l].views ==> s.layers[l].views[o].length <= p.layers[l].views[o].length
  {
  }

  lemma IntactSame(ss: map<nat, Session>, a: Layer, b: Layer, past: Layer)
    requires b == a.(host := b.host)
    ensures LayerIntact(ss, a, past) <==> LayerIntact(ss, b, past)
  {
    forall o | o in a.views ensures Logical(ss, a, o) == Logical(ss, b, o) { LogicalSame(ss, a, b, o); }
    hide Logical;
  }

  lemma ExactHost(cfg: Config, ss: map<nat, Session>, now: Layer, past: Layer, l: nat)
    requires LayerInv(cfg, ss, past, [], l) && LayerInv(cfg, ss, now, [], l)
    requires (forall o :: o in past.views ==> past.views[o].stepEnd.None?)
    requires (forall o :: o in now.views ==> now.views[o].stepEnd.None?)
    requires forall o :: o in past.views && o in now.views ==> past.views[o].length <= now.views[o].length
    ensures LayerIntact(ss, now, past) <==> HostAgrees(ss, now, past)
  {
    ClosedLayer(cfg, ss, past, [], l);
    ClosedLayer(cfg, ss, now, [], l);
    LayerParts(cfg, ss, past, l);
    LayerParts(cfg, ss, now, l);
    hide LayerInv;
    hide StoreOK;
    hide ViewsOK;
    hide ArenaOK;
    hide HostOK;
    hide ProofsOK;
    hide LayerIntact;
    RestoredHost(ss, now, past, l);
  }

  // ----- committing one more token

  ghost predicate Room(p: Pool, o: nat, l: nat) {
    && p.active.None? && AllClosed(p.layers) && Exists(p, o, l) && !p.cfg.dense && p.cfg.slots >= 1
    && p.layers[l].views[o].length < p.sessions[o].capacity
  }

  lemma RoomBegins(p: Pool, o: nat, l: nat)
    requires Inv(p) && Room(p, o, l)
    ensures CanBegin(p, o, l, 1) && p.layers[l].views[o].transientStart.None? && p.layers[l].views[o].tail == []
    ensures LeaseFree(p, o, l) && LeaseFree(BeginStep(p, o, l, 1), o, l)
    ensures forall m :: 0 <= m < |p.layers| ==> p.layers[m].pending.None?
  {
    forall m | 0 <= m < |p.layers| ensures p.layers[m].pending.None? && p.layers[m].candidate.None? {
      assert LayerInv(p.cfg, p.sessions, p.layers[m], p.writes, m);
      ClosedLayer(p.cfg, p.sessions, p.layers[m], p.writes, m);
    }
    assert LayerInv(p.cfg, p.sessions, p.layers[l], p.writes, l);
    assert ViewOK(p.cfg, p.sessions[o], p.layers[l].views[o]);
  }

  /** One record is begun, appended and committed. */
  ghost function Wrote(p: Pool, o: nat, l: nat, r: Record): Pool
    requires Inv(p) && Room(p, o, l)
  {
    WroteLegal(p, o, l, r);
    hide Inv;
    Commit(AppendPersistent(BeginStep(p, o, l, 1), o, l, [r]), o, l)
  }

  lemma WroteLegal(p: Pool, o: nat, l: nat, r: Record)
    requires Inv(p) && Room(p, o, l)
    ensures var b := BeginStep(p, o, l, 1);
      && CanPersist(b, o, l, [r])
      && Exists(AppendPersistent(b, o, l, [r]), o, l) && InLayers(AppendPersistent(b, o, l, [r])) && Inv(AppendPersistent(b, o, l, [r]))
  {
    RoomBegins(p, o, l);
    hide Inv;
    BeginStepInv(p, o, l, 1);
    var b := BeginStep(p, o, l, 1);
    hide LeaseFree;
    AppendPersistentInv(b, o, l, [r]);
    AppendPersistentMeaning(b, o, l, [r]);
    PoolFacts(AppendPersistent(b, o, l, [r]));
    hide Logical;
    hide SameLogicalBut;
  }

  /** `q` is `p` with one more token appended to `o` but not committed. */
  ghost predicate OneAppended(p: Pool, q: Pool, o: nat, l: nat, r: Record) {
    && SameFrame(p, q, o, l) && InLayers(q) && Exists(q, o, l)
    && q.layers[l].views[o].transientStart.None?
    && q.layers[l].views[o].written == p.layers[l].views[o].length + 1 && q.layers[l].views[o].stepEnd == Some(q.layers[l].views[o].written)
    && Logical(q.sessions, q.layers[l], o) == Logical(p.sessions, p.layers[l], o) + [r]
  }

  /** Only the view of `o` on layer `l` differs among cursors and sessions. */
  ghost predicate SameFrame(p: Pool, q: Pool, o: nat, l: nat) {
    && q.sessions == p.sessions && q.topology == p.topology && q.active == p.active && q.cfg == p.cfg && |q.layers| == |p.layers|
    && l < |p.layers| && o in p.layers[l].views && o in q.layers[l].views
    && (forall m :: 0 <= m < |p.layers| && m != l ==> q.layers[m].views == p.layers[m].views)
    && q.layers[l].views == p.layers[l].views[o := q.layers[l].views[o]]
  }

  ghost predicate OneLonger(p: Pool, q: Pool, o: nat, l: nat, r: Record) {
    && SameFrame(p, q, o, l)
    && q.layers[l].views[o].length == p.layers[l].views[o].length + 1 && q.layers[l].views[o].stepEnd.None?
    && Logical(q.sessions, q.layers[l], o) == Logical(p.sessions, p.layers[l], o) + [r]
  }

  lemma WroteHalf(p: Pool, b: Pool, o: nat, l: nat, r: Record)
    requires Exists(p, o, l) && p.layers[l].views[o].written == p.layers[l].views[o].length
    requires p.layers[l].views[o].transientStart.None?
    requires b == BeginStep(p, o, l, 1) && CanPersist(b, o, l, [r])
    requires InLayers(AppendPersistent(b, o, l, [r]))
    ensures OneAppended(p, AppendPersistent(b, o, l, [r]), o, l, r)
  {
    hide CanPersist;
    hide AppendPersistent;
    hide SameLogicalBut;
    LogicalSame(p.sessions, p.layers[l], b.layers[l], o);
    hide Logical;
    AppendedViews(b, o, l, [r]);
    AppendPersistentMeaning(b, o, l, [r]);
  }

  lemma RoomLength(p: Pool, o: nat, l: nat)
    requires Inv(p) && Room(p, o, l)
    ensures p.layers[l].views[o].written == p.layers[l].views[o].length
  {
    assert LayerInv(p.cfg, p.sessions, p.layers[l], p.writes, l);
    assert ViewOK(p.cfg, p.sessions[o], p.layers[l].views[o]);
  }

  lemma CommitOne(p: Pool, a: Pool, o: nat, l: nat, r: Record)
    requires Inv(a) && OneAppended(p, a, o, l, r)
    ensures Inv(Commit(a, o, l)) && OneLonger(p, Commit(a, o, l), o, l, r)
  {
    hide Inv;
    CommitInv(a, o, l);
    LogicalSame(a.sessions, a.layers[l], Commit(a, o, l).layers[l], o);
    hide Logical;
  }

  /** Writing one record makes exactly that sequence one record longer. */
  lemma WroteFacts(p: Pool, o: nat, l: nat, r: Record)
    requires Inv(p) && Room(p, o, l)
    ensures Inv(Wrote(p, o, l, r)) && OneLonger(p, Wrote(p, o, l, r), o, l, r)
  {
    RoomLength(p, o, l);
    RoomBegins(p, o, l);
    WroteLegal(p, o, l, r);
    WroteHalf(p, BeginStep(p, o, l, 1), o, l, r);
    hide Inv;
    hide LeaseFree;
    hide DenseReady;
    hide OneAppended;
    hide Logical;
    CommitOne(p, AppendPersistent(BeginStep(p, o, l, 1), o, l, [r]), o, l, r);
  }

  lemma AppendedViews(p: Pool, o: nat, l: nat, recs: seq<Record>)
    requires CanPersist(p, o, l, recs)
    ensures var r := AppendPersistent(p, o, l, recs); var v := p.layers[l].views[o];
      && r.topology == p.topology && r.active == p.active && r.cfg == p.cfg && |r.layers| == |p.layers| && r.sessions == p.sessions
      && (forall m :: 0 <= m < |p.layers| && m != l ==> r.layers[m].views == p.layers[m].views)
      && r.layers[l].views == p.layers[l].views[o := r.layers[l].views[o]]
      && o in r.layers[l].views && r.layers[l].views[o] == v.(written := v.written + |recs|, visibleEnd := r.layers[l].views[o].visibleEnd)
  {
    hide Inv;
    hide AppendReady;
    hide AppendRows;
    hide NewToks;
    hide HostIds;
    hide RowIds;
    hide DenseReady;
    AppendPersistentLegal(p, o, l, recs);
    hide LeaseFree;
  }

  // ----- the failing family

  /** A careful run may be extended by a careful move. */
  lemma {:induction false} ExtendRun(x: Archive, ms: seq<Move>, m: Move)
    requires ArchiveInv(x) && CarefulRun(x, ms) && Careful(RunMoves(x, ms), m)
    ensures CarefulRun(x, ms + [m])
    ensures Inv(RunMoves(x, ms).pool) && RunMoves(x, ms + [m]) == Moved(RunMoves(x, ms), m)
    decreases |ms|
  {
    hide ArchiveInv;
    hide Careful;
    ArchivePool(x);
    if ms == [] {
      MovedInv(x, m);
      assert ms + [m] == [m] && [m][1..] == [];
    } else {
      MovedInv(x, ms[0]);
      ExtendRun(Moved(x, ms[0]), ms[1..], m);
      assert (ms + [m])[0] == ms[0] && (ms + [m])[1..] == ms[1..] + [m];
    }
  }

  lemma CarefulAct(x: Archive, a: Action)
    requires !a.RolledBack?
    ensures Careful(x, Act(a))
  {
  }

  lemma MovedBegan(x: Archive, o: nat, l: nat)
    requires Inv(x.pool) && CanBegin(x.pool, o, l, 1)
    ensures Moved(x, Act(Began(o, l, 1))) == Archive(BeginStep(x.pool, o, l, 1), x.saved)
  {
    StepIs(x.pool, Began(o, l, 1));
    hide Inv, Sane, LeaseFree, Step, StepData, StepCut, AppendEither, Allocate, Release;
  }

  lemma MovedAppended(x: Archive, o: nat, l: nat, r: Record)
    requires CanPersist(x.pool, o, l, [r])
    ensures Inv(x.pool) && Moved(x, Act(Appended(o, l, [r]))) == Archive(AppendPersistent(x.pool, o, l, [r]), x.saved)
  {
    StepIs(x.pool, Appended(o, l, [r]));
    hide Inv, Sane, LeaseFree, DenseReady, AppendPersistent, Step, StepData, StepCut, StepBoundary, Allocate, Release;
  }

  lemma MovedCommitted(x: Archive, o: nat, l: nat)
    requires Inv(x.pool) && CanCommit(x.pool, o, l)
    ensures InLayers(x.pool) && Moved(x, Act(Committed(o, l))) == Archive(Commit(x.pool, o, l), x.saved)
  {
    StepIs(x.pool, Committed(o, l));
    hide Inv, LeaseFree, Commit, Step, StepBoundary, StepCut, AppendEither, Allocate, Release;
  }

  /** Three actions write one record and leave the registry alone. */
  lemma WriteMoves(x: Archive, ms: seq<Move>, y: Archive, o: nat, l: nat, r: Record) returns (ms': seq<Move>)
    requires ArchiveInv(x) && CarefulRun(x, ms) && y == RunMoves(x, ms) && Inv(y.pool) && Room(y.pool, o, l)
    ensures CarefulRun(x, ms') && RunMoves(x, ms') == Archive(Wrote(y.pool, o, l, r), y.saved)
  {
    hide ArchiveInv;
    hide CarefulRun;
    hide RunMoves;
    RoomBegins(y.pool, o, l);
    WroteLegal(y.pool, o, l, r);
    WroteCommits(y.pool, o, l, r);
    var b := BeginStep(y.pool, o, l, 1);
    hide Inv;
    hide Room;
    hide CanBegin;
    hide CanCommit;
    hide CanPersist;
    hide Moved;
    hide AppendPersistent;
    hide Commit;
    hide BeginStep;
    hide LeaseFree, Careful;
    var a := AppendPersistent(b, o, l, [r]);
    CarefulAct(y, Began(o, l, 1));
    CarefulAct(Archive(b, y.saved), Appended(o, l, [r]));
    CarefulAct(Archive(a, y.saved), Committed(o, l));
    MovedBegan(y, o, l);
    ExtendRun(x, ms, Act(Began(o, l, 1)));
    var m1 := ms + [Act(Began(o, l, 1))];
    MovedAppended(Archive(b, y.saved), o, l, r);
    ExtendRun(x, m1, Act(Appended(o, l, [r])));
    var m2 := m1 + [Act(Appended(o, l, [r]))];
    MovedCommitted(Archive(a, y.saved), o, l);
    ExtendRun(x, m2, Act(Committed(o, l)));
    ms' := m2 + [Act(Committed(o, l))];
  }

  lemma WroteCommits(p: Pool, o: nat, l: nat, r: Record)
    requires Inv(p) && Room(p, o, l) && CanPersist(BeginStep(p, o, l, 1), o, l, [r])
    requires InLayers(AppendPersistent(BeginStep(p, o, l, 1), o, l, [r]))
    ensures CanCommit(AppendPersistent(BeginStep(p, o, l, 1), o, l, [r]), o, l)
  {
    RoomLength(p, o, l);
    RoomBegins(p, o, l);
    hide CanPersist;
    hide Inv;
    WroteHalf(p, BeginStep(p, o, l, 1), o, l, r);
    hide AppendPersistent;
    hide Logical;
  }

  /** Same sessions, topology and cursors. */
  ghost predicate SameCursors(p: Pool, q: Pool) {
    && q.sessions == p.sessions && q.topology == p.topology && q.active == p.active && q.cfg == p.cfg && |q.layers| == |p.layers|
    && forall m :: 0 <= m < |p.layers| ==> q.layers[m].views == p.layers[m].views
  }

  lemma RoomSame(p: Pool, q: Pool, o: nat, l: nat)
    requires SameCursors(p, q) && Room(p, o, l)
    ensures Room(q, o, l)
  {
  }

  lemma LongerCloses(p: Pool, q: Pool, o: nat, l: nat, r: Record)
    requires Room(p, o, l) && OneLonger(p, q, o, l, r)
    ensures CanSave(q)
  {
    hide Logical;
  }

  /** `s` is exactly the state `p` recorded, and its restore would be accepted in `q`, one token later. */
  lemma LongerRestores(p: Pool, q: Pool, s: Saved, o: nat, l: nat, r: Record)
    requires Room(p, o, l) && OneLonger(p, q, o, l, r) && s.valid && s.sessions == p.sessions && s.topology == p.topology
    requires |s.layers| == |p.layers| && forall m :: 0 <= m < |p.layers| ==> s.layers[m].views == p.layers[m].views
    ensures CanRestore(q, s)
  {
    hide Logical;
  }

  lemma RestoredCursors(p: Pool, q: Pool, s: Saved)
    requires InLayers(q) && |s.layers| == |q.layers| == |p.layers| && q.sessions == p.sessions
    requires q.topology == p.topology && q.active == p.active && q.cfg == p.cfg
    requires forall m :: 0 <= m < |p.layers| ==> s.layers[m].views == p.layers[m].views
    ensures SameCursors(p, Restore(q, s))
  {
  }

  /** Two different records written at the same place: the later snapshot is accepted but broken. */
  lemma DivergedRestore(p: Pool, p2: Pool, p4: Pool, p5: Pool, s1: Saved, o: nat, l: nat, a: Record, b: Record)
    requires Room(p, o, l) && OneLonger(p, p2, o, l, a) && a != b
    requires SameCursors(p, p4) && Logical(p4.sessions, p4.layers[l], o) == Logical(p.sessions, p.layers[l], o)
    requires OneLonger(p4, p5, o, l, b)
    requires s1.valid && s1.sessions == p2.sessions && s1.topology == p2.topology && |s1.layers| == |p2.layers|
    requires forall m :: 0 <= m < |p2.layers| ==> s1.layers[m].views == p2.layers[m].views
    requires Logical(s1.sessions, s1.layers[l], o) == Logical(p2.sessions, p2.layers[l], o)
    ensures CanRestore(p5, s1) && !Intact(p5, s1)
  {
    hide Logical;
    var x, y := Logical(s1.sessions, s1.layers[l], o), Logical(p5.sessions, p5.layers[l], o);
    assert x[|x| - 1] == a && y[|x| - 1] == b;
    assert !Prefix(p5.sessions, p5.layers[l], s1.layers[l], o);
  }

  lemma DrainedCursors(p: Pool, l: nat, o: nat)
    requires InLayers(p) && Exists(p, o, l)
    ensures SameCursors(p, Drain(p)) && Logical(p.sessions, Drain(p).layers[l], o) == Logical(p.sessions, p.layers[l], o)
  {
    LogicalSame(p.sessions, p.layers[l], Drain(p).layers[l], o);
  }

  lemma MovedSave(x: Archive)
    requires Inv(x.pool) && CanSave(x.pool)
    ensures InLayers(x.pool) && Moved(x, SaveNow) == Archive(Drain(x.pool), x.saved + [Save(x.pool)])
  {
    PoolFacts(x.pool);
    hide Inv;
  }

  lemma MovedLoad(x: Archive, s0: Saved, s1: Saved, o: nat, l: nat)
    requires Inv(x.pool) && x.saved == [s0, s1] && CanRestore(x.pool, s0) && s0.topology == s1.topology
    requires l < |s0.layers| == |s1.layers| && o in s0.layers[l].views && o in s1.layers[l].views
    requires s0.layers[l].views[o].length < s1.layers[l].views[o].length
    ensures InLayers(x.pool) && Moved(x, Load(0)) == Archive(Restore(x.pool, s0), [s0, s1.(dipped := true)])
  {
    PoolFacts(x.pool);
    hide Inv;
    hide CanRestore;
    hide Restore;
    assert DipsBelow(s0, s1) && !DipsBelow(s0, s0);
    assert MarkDipped(x.saved, s0) == [s0, s1.(dipped := true)];
  }

  /** Save, write `a`, save: two snapshots one token apart. */
  ghost predicate TwoSaved(p: Pool, y: Archive, o: nat, l: nat, a: Record, p2: Pool) {
    && Room(p, o, l) && OneLonger(p, p2, o, l, a) && Inv(p2) && InLayers(p2) && InLayers(p)
    && y == Archive(Drain(p2), [Save(p), Save(p2)]) && Inv(y.pool)
  }

  lemma SaveWriteSave(x: Archive, o: nat, l: nat, a: Record) returns (ms: seq<Move>, p2: Pool)
    requires ArchiveInv(x) && x.saved == [] && Inv(x.pool) && Room(x.pool, o, l)
    ensures CarefulRun(x, ms) && TwoSaved(x.pool, RunMoves(x, ms), o, l, a, p2)
  {
    var p := x.pool;
    PoolFacts(p);
    hide Inv, ArchiveInv, Moved, Logical, CanSave, Room, Careful, RunMoves, CarefulRun, SameCursors;
    DrainedRoom(p, o, l);
    FirstSave(x, o, l);
    ms, p2 := WriteThenSave(x, [SaveNow], p, o, l, a);
  }

  lemma DrainedRoom(p: Pool, o: nat, l: nat)
    requires Inv(p) && InLayers(p) && Room(p, o, l)
    ensures CanSave(p) && Inv(Drain(p)) && SameCursors(p, Drain(p)) && Room(Drain(p), o, l) && l < |p.layers| && o in p.layers[l].views
    ensures Logical(p.sessions, Drain(p).layers[l], o) == Logical(p.sessions, p.layers[l], o)
  {
    DrainInv(p);
    RoomCloses(p, o, l);
    hide Inv, Logical, CanSave;
    DrainedCursors(p, l, o);
    RoomSame(p, Drain(p), o, l);
  }

  lemma FirstSave(x: Archive, o: nat, l: nat)
    requires ArchiveInv(x) && x.saved == [] && Inv(x.pool) && CanSave(x.pool) && InLayers(x.pool)
    ensures CarefulRun(x, [SaveNow]) && RunMoves(x, [SaveNow]) == Archive(Drain(x.pool), [Save(x.pool)])
  {
    hide Inv, ArchiveInv, CanSave;
    MovedSave(x);
    hide Moved;
    assert x.saved + [Save(x.pool)] == [Save(x.pool)];
    assert RunMoves(x, [SaveNow]) == RunMoves(Moved(x, SaveNow), []) && [SaveNow][1..] == [];
  }

  lemma RoomCloses(p: Pool, o: nat, l: nat)
    requires Room(p, o, l)
    ensures CanSave(p)
  {
  }

  lemma WriteThenSave(x: Archive, ms0: seq<Move>, p: Pool, o: nat, l: nat, a: Record) returns (ms: seq<Move>, p2: Pool)
    requires ArchiveInv(x) && CarefulRun(x, ms0) && InLayers(p) && Room(p, o, l) && SameCursors(p, Drain(p))
    requires Room(Drain(p), o, l)
    requires Logical(p.sessions, Drain(p).layers[l], o) == Logical(p.sessions, p.layers[l], o)
    requires RunMoves(x, ms0) == Archive(Drain(p), [Save(p)]) && Inv(Drain(p))
    ensures CarefulRun(x, ms) && TwoSaved(p, RunMoves(x, ms), o, l, a, p2)
  {
    hide Inv;
    hide ArchiveInv;
    hide RunMoves;
    hide CarefulRun;
    hide Logical;
    var q := Drain(p);
    WroteFacts(q, o, l, a);
    p2 := Wrote(q, o, l, a);
    ms := WriteMoves(x, ms0, Archive(q, [Save(p)]), o, l, a);
    hide Wrote;
    LongerCloses(q, p2, o, l, a);
    LongerFrom(p, q, p2, o, l, a);
    hide Room, CanSave, SameCursors, OneLonger, Moved, Careful;
    MovedSave(Archive(p2, [Save(p)]));
    SaveIsCareful(Archive(p2, [Save(p)]));
    ExtendRun(x, ms, SaveNow);
    ms := ms + [SaveNow];
    DrainInv(p2);
    assert [Save(p)] + [Save(p2)] == [Save(p), Save(p2)];
  }

  lemma SaveIsCareful(x: Archive)
    ensures Careful(x, SaveNow)
  {
  }

  lemma LongerFrom(p: Pool, q: Pool, p2: Pool, o: nat, l: nat, a: Record)
    requires SameCursors(p, q) && OneLonger(q, p2, o, l, a) && Exists(p, o, l)
    requires Logical(p.sessions, q.layers[l], o) == Logical(p.sessions, p.layers[l], o)
    ensures OneLonger(p, p2, o, l, a)
  {
    hide Logical;
  }

  /** Rewinding with the older snapshot and writing another record breaks the newer one, which is still accepted. */
  lemma RestoreGap(x: Archive, o: nat, l: nat, a: Record, b: Record) returns (ms: seq<Move>)
    requires ArchiveInv(x) && x.saved == [] && Inv(x.pool) && Room(x.pool, o, l) && a != b
    ensures CarefulRun(x, ms)
    ensures var y := RunMoves(x, ms);
      |y.saved| == 2 && y.saved[1].valid && y.saved[1].dipped && CanRestore(y.pool, y.saved[1]) && !Intact(y.pool, y.saved[1])
  {
    hide ArchiveInv;
    hide CarefulRun;
    hide RunMoves;
    var p := x.pool;
    var p2;
    ms, p2 := SaveWriteSave(x, o, l, a);
    var y3 := RunMoves(x, ms);
    var s0, s1 := Save(p), Save(p2);
    ms := RewindWrite(x, ms, p, p2, y3, o, l, a, b);
    hide Inv;
  }

  lemma RewindWrite(x: Archive, ms: seq<Move>, p: Pool, p2: Pool, y3: Archive, o: nat, l: nat, a: Record,
                    b: Record) returns (ms': seq<Move>)
    requires ArchiveInv(x) && CarefulRun(x, ms) && y3 == RunMoves(x, ms) && TwoSaved(p, y3, o, l, a, p2) && a != b
    ensures CarefulRun(x, ms')
    ensures var y := RunMoves(x, ms');
      |y.saved| == 2 && y.saved[1].valid && y.saved[1].dipped && CanRestore(y.pool, y.saved[1]) && !Intact(y.pool, y.saved[1])
  {
    hide ArchiveInv, CarefulRun, RunMoves, Inv, Logical, Intact, Careful, Moved, CanRestore;
    var s0, s1, p3 := Save(p), Save(p2), y3.pool;
    var m1 := Rewind(x, ms, p, p2, y3, o, l, a);
    var y4 := Archive(Restore(p3, s0), [s0, s1.(dipped := true)]);
    hide Restore;
    RoomSame(p, y4.pool, o, l);
    WroteFacts(y4.pool, o, l, b);
    SavedCursors(p2, l, o);
    ms' := WriteMoves(x, m1, y4, o, l, b);
    hide Wrote;
    DivergedRestore(p, p2, y4.pool, Wrote(y4.pool, o, l, b), s1.(dipped := true), o, l, a, b);
  }

  /** Restoring the older of two snapshots marks the newer one and gives the older state back. */
  lemma Rewind(x: Archive, ms: seq<Move>, p: Pool, p2: Pool, y3: Archive, o: nat, l: nat, a: Record) returns (m1: seq<Move>)
    requires ArchiveInv(x) && CarefulRun(x, ms) && y3 == RunMoves(x, ms) && TwoSaved(p, y3, o, l, a, p2)
    ensures CarefulRun(x, m1) && InLayers(y3.pool) && |y3.pool.layers| == |Save(p).layers|
    ensures RunMoves(x, m1) == Archive(Restore(y3.pool, Save(p)), [Save(p), Save(p2).(dipped := true)])
    ensures var r := Restore(y3.pool, Save(p));
      Inv(r) && SameCursors(p, r) && Logical(r.sessions, r.layers[l], o) == Logical(p.sessions, p.layers[l], o)
  {
    hide ArchiveInv, CarefulRun, RunMoves, Inv, Logical;
    var s0, s1, p3 := Save(p), Save(p2), y3.pool;
    SavedCursors(p, l, o);
    SavedCursors(p2, l, o);
    LongerFrom2(p, p2, p3, o, l, a);
    LongerRestores(p, p3, s0, o, l, a);
    LongerLength(p, p2, o, l, a);
    MovedLoad(y3, s0, s1, o, l);
    hide Moved;
    ExtendRun(x, ms, Load(0));
    m1 := ms + [Load(0)];
    RunMovesInv(x, m1);
    ArchivePool(RunMoves(x, m1));
    RestoredCursors(p, p3, s0);
    RestoreMeaning(p3, s0);
  }

  lemma SavedCursors(p: Pool, l: nat, o: nat)
    requires InLayers(p) && Exists(p, o, l)
    ensures var s := Save(p);
      && s.valid && !s.dipped && s.sessions == p.sessions && s.topology == p.topology && |s.layers| == |p.layers|
      && (forall m :: 0 <= m < |p.layers| ==> s.layers[m].views == p.layers[m].views)
      && Logical(s.sessions, s.layers[l], o) == Logical(p.sessions, p.layers[l], o)
  {
    DrainedCursors(p, l, o);
  }

  lemma LongerFrom2(p: Pool, p2: Pool, p3: Pool, o: nat, l: nat, a: Record)
    requires OneLonger(p, p2, o, l, a) && InLayers(p2) && Exists(p2, o, l) && p3 == Drain(p2)
    ensures OneLonger(p, p3, o, l, a)
  {
    DrainedCursors(p2, l, o);
    hide Logical;
  }

  lemma LongerLength(p: Pool, p2: Pool, o: nat, l: nat, a: Record)
    requires OneLonger(p, p2, o, l, a)
    ensures p2.layers[l].views[o].length == p.layers[l].views[o].length + 1
  {
  }
}
