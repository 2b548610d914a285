/** Runs of pools with their snapshots: lengths and refusals never depend on what the records say. */
module ArchiveTwins {
  import opened TokenTypes
  import opened Ranking
  import opened TokenStore
  import opened TokenPool
  import opened PoolWritebacks
  import opened PoolTransactions
  import opened PoolAppend
  import opened PoolPrefetch
  import opened PoolSessions
  import opened PoolRuns
  import opened PoolSnapshots
  import opened PoolRestoreGap
  import opened StoreTwins
  import opened LayerTwins
  import opened PoolTwins
  import opened TwinSteps

  // ----- twin archives

  ghost predicate TwinSaved(s: Saved, t: Saved) {
    && t.sessions == s.sessions && t.topology == s.topology && t.valid == s.valid && t.dipped == s.dipped
    && |t.layers| == |s.layers| && forall l :: 0 <= l < |s.layers| ==> TwinLayer(s.layers[l], t.layers[l])
  }

  ghost predicate TwinArchives(x: Archive, y: Archive) {
    && Twins(x.pool, y.pool) && |x.saved| == |y.saved|
    && forall k :: 0 <= k < |x.saved| ==> TwinSaved(x.saved[k], y.saved[k])
  }

  /** The same move, up to what appended records say. */
  ghost predicate SameMove(m: Move, n: Move) {
    n == m || (m.Act? && n.Act? && SameAct(m.a, n.a))
  }

  ghost predicate SameMoves(ms: seq<Move>, ns: seq<Move>) {
    |ms| == |ns| && forall k :: 0 <= k < |ms| ==> SameMove(ms[k], ns[k])
  }

  lemma TwinSelf(x: Archive)
    requires ArchiveInv(x)
    ensures TwinArchives(x, x)
  {
    forall l | 0 <= l < |x.pool.layers| ensures TwinLayer(x.pool.layers[l], x.pool.layers[l]) {
      InvLayer(x.pool, l);
      LayerSelf(x.pool.cfg, x.pool.sessions, x.pool.layers[l], x.pool.writes, l);
    }
    forall k, l | 0 <= k < |x.saved| && 0 <= l < |x.saved[k].layers| ensures TwinLayer(x.saved[k].layers[l], x.saved[k].layers[l]) {
      assert EntryOK(x.pool, x.saved[k]);
      LayerSelf(x.pool.cfg, x.saved[k].sessions, x.saved[k].layers[l], [], l);
    }
    hide TwinLayer, Inv, EntryOK;
  }

  lemma LayerSelf(cfg: Config, ss: map<nat, Session>, ly: Layer, ws: seq<Ticket>, l: nat)
    requires LayerInv(cfg, ss, ly, ws, l)
    ensures TwinLayer(ly, ly)
  {
    hide ArenaOK, HostOK, TicketsOK, Copies, ProofsOK, PlanOK, CandidateOK, PendingOK;
  }

  lemma TwinClosed(a: seq<Layer>, b: seq<Layer>)
    requires |a| == |b| && forall l :: 0 <= l < |a| ==> TwinLayer(a[l], b[l])
    ensures AllClosed(a) <==> AllClosed(b)
  {
    hide Alike;
    assert forall l, o :: 0 <= l < |a| && o in a[l].views ==> TwinView(a[l].views[o], b[l].views[o]);
  }

  /** Equally long committed histories, session by session and layer by layer. */
  ghost predicate EqualLengths(a: seq<Layer>, b: seq<Layer>) {
    && |a| == |b|
    && forall l, o :: 0 <= l < |a| ==> (o in a[l].views <==> o in b[l].views) && (o in a[l].views ==> a[l].views[o].length == b[l].views[o].length)
  }

  lemma TwinEqual(s: Saved, t: Saved)
    requires TwinSaved(s, t)
    ensures EqualLengths(s.layers, t.layers)
  {
    forall l, o | 0 <= l < |s.layers|
      ensures o in s.layers[l].views <==> o in t.layers[l].views
      ensures o in s.layers[l].views ==> s.layers[l].views[o].length == t.layers[l].views[o].length
    {
      ViewsEqual(s.layers[l], t.layers[l], o);
    }
    hide TwinLayer;
  }

  lemma ViewsEqual(a: Layer, b: Layer, o: nat)
    requires TwinLayer(a, b)
    ensures o in a.views <==> o in b.views
    ensures o in a.views ==> a.views[o].length == b.views[o].length
  {
    hide Alike;
  }

  /** Twin snapshots compare alike with each other. */
  lemma TwinLengths(s: Saved, t: Saved, s': Saved, t': Saved)
    requires TwinSaved(s, s') && TwinSaved(t, t')
    ensures DipsBelow(s, t) <==> DipsBelow(s', t')
  {
    TwinEqual(s, s');
    TwinEqual(t, t');
    hide TwinSaved;
  }

  lemma TwinLonger(s: Saved, s': Saved, o: nat, len: nat)
    requires TwinSaved(s, s')
    ensures LongerThan(s, o, len) <==> LongerThan(s', o, len)
  {
    hide Alike;
    assert forall l :: 0 <= l < |s.layers| ==> s.layers[l].views.Keys == s'.layers[l].views.Keys;
    assert forall l, x :: 0 <= l < |s.layers| && x in s.layers[l].views ==> TwinView(s.layers[l].views[x], s'.layers[l].views[x]);
  }

  lemma TwinRestorable(p: Pool, q: Pool, s: Saved, t: Saved)
    requires Twins(p, q) && TwinSaved(s, t)
    ensures CanRestore(p, s) <==> CanRestore(q, t)
    ensures RestoreDrains(p, s) <==> RestoreDrains(q, t)
  {
    TwinClosed(p.layers, q.layers);
    TwinHeads(p, q);
    TwinPoolEqual(p, q);
    TwinEqual(s, t);
    hide Twins, TwinLayer, AllClosed;
    EqualRestores(p, q, s, t);
  }

  lemma TwinPoolEqual(p: Pool, q: Pool)
    requires Twins(p, q)
    ensures EqualLengths(p.layers, q.layers) && p.topology == q.topology
  {
    forall l, o | 0 <= l < |p.layers|
      ensures o in p.layers[l].views <==> o in q.layers[l].views
      ensures o in p.layers[l].views ==> p.layers[l].views[o].length == q.layers[l].views[o].length
    {
      ViewsEqual(p.layers[l], q.layers[l], o);
    }
    hide TwinLayer;
  }

  /** Acceptance of a restore looks at lengths only. */
  lemma EqualRestores(p: Pool, q: Pool, s: Saved, t: Saved)
    requires EqualLengths(p.layers, q.layers) && EqualLengths(s.layers, t.layers) && (AllClosed(p.layers) <==> AllClosed(q.layers))
    requires q.active == p.active && q.topology == p.topology && q.sessions == p.sessions
    requires t.valid == s.valid && t.topology == s.topology && t.sessions == s.sessions
    ensures (CanRestore(p, s) <==> CanRestore(q, t)) && (RestoreDrains(p, s) <==> RestoreDrains(q, t))
  {
    hide AllClosed;
  }

  lemma RestoreTwins(p: Pool, q: Pool, s: Saved, t: Saved)
    requires Twins(p, q) && TwinSaved(s, t) && InLayers(p) && InLayers(q) && SavedOK(p.cfg, s) && SavedOK(q.cfg, t)
    requires |s.layers| == |p.layers|
    ensures |t.layers| == |q.layers| && Twins(Restore(p, s), Restore(q, t))
  {
    TwinDrain(p, q);
    var x, y := Restore(p, s), Restore(q, t);
    forall l | 0 <= l < |x.layers| ensures TwinLayer(x.layers[l], y.layers[l]) {
      TwinAt(Drain(p), Drain(q), 0, l);
      SavedLayer(p.cfg, s, l);
      SavedLayer(q.cfg, t, l);
      ClosedLayer(p.cfg, s.sessions, s.layers[l], [], l);
      SavedStocked(p.cfg, s.sessions, s.layers[l], l);
      SavedStocked(q.cfg, t.sessions, t.layers[l], l);
      hide Twins, SavedOK, LayerInv, AllClosed;
      assert TwinLayer(s.layers[l], t.layers[l]);
      RestoredTwins(p.cfg, q.cfg, Drain(p).layers[l], Drain(q).layers[l], s.layers[l], t.layers[l]);
    }
    hide TwinLayer, SavedOK;
  }

  lemma SavedStocked(cfg: Config, ss: map<nat, Session>, ly: Layer, l: nat)
    requires LayerInv(cfg, ss, ly, [], l)
    ensures Stocked(ly)
  {
    hide ArenaOK, HostOK, TicketsOK, ProofsOK, PlanOK, CandidateOK, ViewsOK;
  }

  lemma RestoredTwins(c: Config, d: Config, a: Layer, b: Layer, s: Layer, t: Layer)
    requires c.dense == d.dense && TwinLayer(a, b) && TwinLayer(s, t) && s.pending.None?
    ensures TwinLayer(RestoredLayer(c, a, s), RestoredLayer(d, b, t))
  {
    assert Claimed(s) == {} && Claimed(RestoredLayer(c, a, s)) == {};
    hide Alike;
  }

  // ----- every move takes twin archives to twin archives

  lemma ActTwins(x: Archive, y: Archive, a: Action, b: Action)
    requires ArchiveInv(x) && ArchiveInv(y) && TwinArchives(x, y) && SameAct(a, b)
    ensures TwinArchives(Moved(x, Act(a)), Moved(y, Act(b))) && (Careful(x, Act(a)) <==> Careful(y, Act(b)))
  {
    ArchivePool(x);
    ArchivePool(y);
    hide ArchiveInv;
    InvSane(x.pool);
    InvSane(y.pool);
    StepTwins(x.pool, y.pool, a, b);
    TruncatesTwins(x.pool, y.pool, a, b);
    hide Inv, Step, Twins, Torn, Sane, Truncates, TwinSaved;
    forall k | 0 <= k < |x.saved| ensures TwinSaved(Moved(x, Act(a)).saved[k], Moved(y, Act(b)).saved[k]) {
      if Truncates(x.pool, a) {
        TwinLonger(x.saved[k], y.saved[k], a.o, EffectOf(x.pool, a).len);
        InvalidTwins(x.saved[k], y.saved[k]);
      }
    }
  }

  lemma InvalidTwins(s: Saved, t: Saved)
    requires TwinSaved(s, t)
    ensures TwinSaved(s.(valid := false), t.(valid := false)) && TwinSaved(s.(dipped := true), t.(dipped := true))
  {
    hide TwinLayer;
  }

  lemma TruncatesTwins(p: Pool, q: Pool, a: Action, b: Action)
    requires Twins(p, q) && SameAct(a, b)
    ensures Truncates(p, a) <==> Truncates(q, b)
    ensures Truncates(p, a) ==> EffectOf(p, a).Cut? && EffectOf(q, b).Cut? && EffectOf(p, a).len == EffectOf(q, b).len && b == a
  {
    if a.Truncated? || a.RolledBack? {
      TwinAllowed(p, q, a, b);
      TwinStanding(p, q, a.o, a.l);
      TwinAt(p, q, a.o, a.l);
      hide Twins, TwinLayer, LeaseFree;
    } else {
      hide Allowed;
    }
  }

  lemma SaveTwins(x: Archive, y: Archive)
    requires ArchiveInv(x) && ArchiveInv(y) && TwinArchives(x, y)
    ensures TwinArchives(Moved(x, SaveNow), Moved(y, SaveNow))
  {
    hide ArchiveInv, TwinSaved, Moved, CanSave, Save, Twins;
    SaveIs(x);
    SaveIs(y);
    SaveAgrees(x.pool, y.pool);
  }

  lemma SaveIs(x: Archive)
    requires ArchiveInv(x)
    ensures InLayers(x.pool) && Moved(x, SaveNow) == if CanSave(x.pool) then Archive(Drain(x.pool), x.saved + [Save(x.pool)]) else x
  {
    ArchivePool(x);
    InvSane(x.pool);
    hide ArchiveInv, Inv, CanSave, Save;
  }

  lemma SaveAgrees(p: Pool, q: Pool)
    requires InLayers(p) && InLayers(q) && Twins(p, q)
    ensures (CanSave(p) <==> CanSave(q)) && TwinSaved(Save(p), Save(q)) && Twins(Drain(p), Drain(q))
  {
    TwinDrain(p, q);
    TwinClosed(p.layers, q.layers);
    TwinHeads(p, q);
    SavedTwins(p, q);
    hide Twins, AllClosed, TwinSaved, Save;
  }

  lemma SavedTwins(p: Pool, q: Pool)
    requires InLayers(p) && InLayers(q) && Twins(p, q) && Twins(Drain(p), Drain(q))
    ensures TwinSaved(Save(p), Save(q))
  {
    hide TwinLayer;
  }

  lemma LoadTwins(x: Archive, y: Archive, k: nat)
    requires ArchiveInv(x) && ArchiveInv(y) && TwinArchives(x, y)
    ensures TwinArchives(Moved(x, Load(k)), Moved(y, Load(k))) && (Careful(x, Load(k)) <==> Careful(y, Load(k)))
  {
    if k < |x.saved| {
      var p, q, s, t := x.pool, y.pool, x.saved[k], y.saved[k];
      assert TwinSaved(s, t) && Twins(p, q);
      hide ArchiveInv, Moved, TwinSaved, Twins, Sane, CanRestore, RestoreDrains, Restore, MarkDipped, SavedOK;
      LoadFacts(x, k);
      LoadFacts(y, k);
      TwinRestorable(p, q, s, t);
      TwinDrain(p, q);
      TwinTopology(s, t);
      if CanRestore(p, s) {
        RestoreTwins(p, q, s, t);
        MarkTwins(x.saved, y.saved, s, t);
      }
    }
  }

  /** What a load does, case by case. */
  lemma LoadFacts(x: Archive, k: nat)
    requires ArchiveInv(x) && k < |x.saved|
    ensures Sane(x.pool) && InLayers(x.pool) && SavedOK(x.pool.cfg, x.saved[k])
    ensures CanRestore(x.pool, x.saved[k]) ==> |x.saved[k].layers| == |x.pool.layers|
    ensures Moved(x, Load(k)) ==
      if CanRestore(x.pool, x.saved[k]) then Archive(Restore(x.pool, x.saved[k]), MarkDipped(x.saved, x.saved[k]))
      else if RestoreDrains(x.pool, x.saved[k]) then x.(pool := Drain(x.pool)) else x
  {
    ArchivePool(x);
    InvSane(x.pool);
    assert EntryOK(x.pool, x.saved[k]);
    hide ArchiveInv, Inv, SavedOK, Restore, MarkDipped;
  }

  lemma MarkTwins(xs: seq<Saved>, ys: seq<Saved>, s: Saved, t: Saved)
    requires |xs| == |ys| && TwinSaved(s, t) && forall k :: 0 <= k < |xs| ==> TwinSaved(xs[k], ys[k])
    ensures forall k :: 0 <= k < |xs| ==> TwinSaved(MarkDipped(xs, s)[k], MarkDipped(ys, t)[k])
  {
    forall k | 0 <= k < |xs| ensures TwinSaved(MarkDipped(xs, s)[k], MarkDipped(ys, t)[k]) {
      TwinLengths(s, xs[k], t, ys[k]);
      InvalidTwins(xs[k], ys[k]);
      TwinTopology(s, t);
      TwinTopology(xs[k], ys[k]);
      hide TwinSaved, DipsBelow;
    }
  }

  lemma TwinTopology(s: Saved, t: Saved)
    requires TwinSaved(s, t)
    ensures s.topology == t.topology && s.dipped == t.dipped
  {
  }

  lemma MoveTwins(x: Archive, y: Archive, m: Move, n: Move)
    requires ArchiveInv(x) && ArchiveInv(y) && TwinArchives(x, y) && SameMove(m, n)
    ensures TwinArchives(Moved(x, m), Moved(y, n)) && (Careful(x, m) <==> Careful(y, n))
  {
    hide ArchiveInv, TwinArchives, Moved;
    match m
    case Act(a) => hide Careful; ActTwins(x, y, a, n.a);
    case SaveNow => SaveTwins(x, y);
    case Load(k) => hide Careful; LoadTwins(x, y, k);
  }

  lemma {:induction false} RunTwins(x: Archive, y: Archive, ms: seq<Move>, ns: seq<Move>)
    requires ArchiveInv(x) && ArchiveInv(y) && TwinArchives(x, y) && SameMoves(ms, ns) && CarefulRun(x, ms)
    ensures CarefulRun(y, ns) && TwinArchives(RunMoves(x, ms), RunMoves(y, ns))
    decreases |ms|
  {
    hide ArchiveInv, TwinArchives, Moved, Careful;
    if ms != [] {
      MoveTwins(x, y, ms[0], ns[0]);
      MovedInv(x, ms[0]);
      MovedInv(y, ns[0]);
      RunTwins(Moved(x, ms[0]), Moved(y, ns[0]), ms[1..], ns[1..]);
    }
  }
}
