/** Exactly which accepted snapshots restore correctly, whatever records are appended after they were taken. */
module RestoreLaw {
  import opened TokenTypes
  import opened Ranking
  import opened TokenStore
  import opened TokenPool
  import opened PoolWritebacks
  import opened PoolTransactions
  import opened PoolAppend
  import opened PoolPrefetch
  import opened PoolSessions
  import opened PoolRuns
  import opened PoolSnapshots
  import opened PoolRestoreGap
  import opened StoreTwins
  import opened LayerTwins
  import opened PoolTwins
  import opened TwinSteps
  import opened ArchiveTwins

  // ----- a restore is right when it leaves a sound pool with the recorded sequences

  /** The pool after the restore is sound and every session has exactly the recorded sequence. */
  ghost predicate RestoresRight(p: Pool, s: Saved) {
    && InLayers(p) && |s.layers| == |p.layers| && s.sessions == p.sessions && Inv(Restore(p, s))
    && forall l, o :: 0 <= l < |p.layers| && o in s.layers[l].views ==> Restored(p, s, l, o)
  }

  ghost predicate Restored(p: Pool, s: Saved, l: nat, o: nat)
    requires InLayers(p) && |s.layers| == |p.layers| && l < |p.layers| && o in s.layers[l].views
  {
    o in Restore(p, s).layers[l].views && Logical(p.sessions, Restore(p, s).layers[l], o) == Logical(s.sessions, s.layers[l], o)
  }

  /** An accepted restore is right exactly when the recorded prefixes are intact. */
  lemma RightIffIntact(p: Pool, s: Saved)
    requires Inv(p) && SavedOK(p.cfg, s) && CanRestore(p, s)
    ensures RestoresRight(p, s) <==> Intact(p, s)
  {
    PoolFacts(p);
    RestoreExact(p, s);
    if Intact(p, s) { RestoreInv(p, s); }
    hide Intact, SavedOK, CanRestore;
    if RestoresRight(p, s) {
      forall l | 0 <= l < |p.layers| ensures HostAgrees(p.sessions, Drain(p).layers[l], s.layers[l]) {
        hide Inv;
        SoundHost(p, s, l);
      }
    }
    hide Inv, HostAgrees, Restore;
  }

  lemma SoundHost(p: Pool, s: Saved, l: nat)
    requires InLayers(p) && |s.layers| == |p.layers| && l < |p.layers| && Inv(Restore(p, s))
    ensures HostAgrees(p.sessions, Drain(p).layers[l], s.layers[l])
  {
    var r := Restore(p, s);
    InvLayer(r, l);
    hide Inv, StoreOK, ViewsOK, TicketsOK, ProofsOK, PlanOK, PendingOK, CandidateOK, Tok;
    forall o, i: nat | Backed(s.layers[l], o, i)
      ensures 0 <= Tok(p.sessions, o, i) < |Drain(p).layers[l].host|
      ensures Drain(p).layers[l].host[Tok(p.sessions, o, i)] == Entry(p.sessions, s.layers[l], o, i)
    {
      assert Backed(r.layers[l], o, i);
      assert HostHolds(r.sessions, r.layers[l], o, i) || InFlight([], l, o, i);
    }
  }

  // ----- the recorded part of a snapshot never changes

  /** The same recorded state, up to the flags. */
  ghost predicate SameRecord(s: Saved, t: Saved) {
    t.layers == s.layers && t.sessions == s.sessions && t.topology == s.topology
  }

  lemma MovedRecord(x: Archive, m: Move, k: nat)
    requires k < |x.saved|
    ensures k < |Moved(x, m).saved| && SameRecord(x.saved[k], Moved(x, m).saved[k])
  {
    hide Sane, CanSave, CanRestore, RestoreDrains, Truncates, Step, Restore, Save, DipsBelow, LongerThan;
  }

  lemma {:induction false} RunRecord(x: Archive, ms: seq<Move>, k: nat)
    requires k < |x.saved|
    ensures k < |RunMoves(x, ms).saved| && SameRecord(x.saved[k], RunMoves(x, ms).saved[k])
    decreases |ms|
  {
    if ms != [] {
      MovedRecord(x, ms[0], k);
      RunRecord(Moved(x, ms[0]), ms[1..], k);
    }
  }

  // ----- a record that no snapshot holds

  lemma {:induction false} LongRecord(rs: set<Record>) returns (n: nat)
    ensures forall r :: r in rs ==> |r.words| <= n
    decreases |rs|
  {
    n := 0;
    if rs != {} {
      var r :| r in rs;
      var m := LongRecord(rs - {r});
      n := Max(m, |r.words|);
      assert forall x :: x in rs ==> x == r || x in rs - {r};
    }
  }

  /** What a snapshot recorded of one session on one layer. */
  function SavedSequence(s: Saved, l: nat, o: nat): seq<Record> {
    if l < |s.layers| && o in s.layers[l].views then Logical(s.sessions, s.layers[l], o) else []
  }

  ghost predicate Foreign(s: Saved, z: Record) {
    forall l: nat, o: nat, i: nat :: i < |SavedSequence(s, l, o)| ==> SavedSequence(s, l, o)[i] != z
  }

  lemma FreshRecord(s: Saved) returns (z: Record)
    ensures Foreign(s, z)
  {
    hide Logical;
    var rs := set l, o, i | 0 <= l < |s.layers| && o in s.layers[l].views && 0 <= i < |SavedSequence(s, l, o)| :: SavedSequence(s, l, o)[i];
    var n := LongRecord(rs);
    z := Record(seq(n + 1, _ => 0));
    forall l: nat, o: nat, i: nat | i < |SavedSequence(s, l, o)| ensures SavedSequence(s, l, o)[i] != z {
      assert SavedSequence(s, l, o)[i] in rs;
    }
  }

  // ----- the same run with every appended record replaced

  function Filled(m: Move, z: Record): Move {
    if m.Act? && m.a.Appended? then Act(m.a.(recs := seq(|m.a.recs|, _ => z))) else m
  }

  function Fill(ms: seq<Move>, z: Record): (r: seq<Move>)
    ensures |r| == |ms|
  {
    seq(|ms|, k requires 0 <= k < |ms| => Filled(ms[k], z))
  }

  lemma FillSame(ms: seq<Move>, z: Record)
    ensures SameMoves(ms, Fill(ms, z))
  {
  }

  /** Every position from `w` on holds the filler. */
  ghost predicate FromOn(s: seq<Record>, w: nat, z: Record) {
    forall i :: w <= i < |s| ==> s[i] == z
  }

  /** At one session and layer everything from `w` on is filler, now and in every snapshot a careful run may still load. */
  ghost predicate Overwritten(x: Archive, z: Record, l: nat, o: nat, w: nat) {
    && FromOn(SequenceOf(x.pool, l, o), w, z)
    && forall j :: 0 <= j < |x.saved| ==> Loadless(x.pool, x.saved[j], z, l, o, w)
  }

  ghost predicate Loadless(p: Pool, s: Saved, z: Record, l: nat, o: nat, w: nat) {
    !s.dipped && s.topology == p.topology ==> FromOn(SavedSequence(s, l, o), w, z)
  }

  /** A dipped snapshot that may still be accepted recorded positions that are filler now. */
  ghost predicate Spoilt(x: Archive, k: nat, z: Record) {
    && k < |x.saved|
    && (x.saved[k].dipped && x.saved[k].topology == x.pool.topology ==>
          exists l: nat, o: nat, w: nat :: w < RecordedLength(x.saved[k], l, o) && Overwritten(x, z, l, o, w))
  }

  function RecordedLength(s: Saved, l: nat, o: nat): nat {
    if l < |s.layers| && o in s.layers[l].views then s.layers[l].views[o].length else 0
  }

  lemma ApplyFromOn(s: seq<Record>, e: Effect, l: nat, o: nat, w: nat, z: Record)
    requires FromOn(s, w, z) && (e.Grow? ==> FromOn(e.recs, 0, z))
    ensures FromOn(Apply(s, e, l, o), w, z)
  {
  }

  lemma ActOverwritten(x: Archive, a: Action, z: Record, l: nat, o: nat, w: nat)
    requires ArchiveInv(x) && Careful(x, Act(a)) && Overwritten(x, z, l, o, w) && (a.Appended? ==> FromOn(a.recs, 0, z))
    requires Moved(x, Act(a)).pool.topology == x.pool.topology
    ensures Overwritten(Moved(x, Act(a)), z, l, o, w)
  {
    ArchivePool(x);
    InvSane(x.pool);
    hide ArchiveInv, Inv, Sane, SequenceOf, Step, Torn, Truncates, FromOn, Allowed, SavedSequence, LongerThan;
    ActFiller(x.pool, a, z, l, o, w);
    forall j | 0 <= j < |x.saved| ensures Loadless(Moved(x, Act(a)).pool, Moved(x, Act(a)).saved[j], z, l, o, w) {
      assert Loadless(x.pool, x.saved[j], z, l, o, w);
      SameInvalid(x.saved[j], l, o);
    }
  }

  lemma SameInvalid(s: Saved, l: nat, o: nat)
    ensures SavedSequence(s.(valid := false), l, o) == SavedSequence(s, l, o)
  {
  }

  lemma ActFiller(p: Pool, a: Action, z: Record, l: nat, o: nat, w: nat)
    requires Inv(p) && !Torn(p, a) && FromOn(SequenceOf(p, l, o), w, z) && (a.Appended? ==> FromOn(a.recs, 0, z))
    ensures FromOn(SequenceOf(Step(p, a), l, o), w, z)
  {
    hide Inv, SequenceOf, Step, Torn, FromOn, EffectOf;
    if l < |p.layers| {
      StepReplays(p, a, l, o);
      FillerGrows(p, a, z);
      ApplyFromOn(SequenceOf(p, l, o), EffectOf(p, a), l, o, w, z);
    } else {
      StepLayers(p, a);
      NoLayer(p, l, o);
      NoLayer(Step(p, a), l, o);
    }
  }

  lemma FillerGrows(p: Pool, a: Action, z: Record)
    requires a.Appended? ==> FromOn(a.recs, 0, z)
    ensures EffectOf(p, a).Grow? ==> FromOn(EffectOf(p, a).recs, 0, z)
  {
    hide Allowed, FromOn;
  }

  lemma NoLayer(p: Pool, l: nat, o: nat)
    requires l >= |p.layers|
    ensures SequenceOf(p, l, o) == []
  {
  }

  lemma StepLayers(p: Pool, a: Action)
    requires Inv(p) && !Torn(p, a)
    ensures |Step(p, a).layers| == |p.layers|
  {
    hide Inv, Torn, Step, EffectOf;
    StepInv(p, a);
  }

  lemma DrainSequence(p: Pool, l: nat, o: nat)
    requires InLayers(p)
    ensures SequenceOf(Drain(p), l, o) == SequenceOf(p, l, o)
  {
    if l < |p.layers| && o in p.layers[l].views { LogicalSame(p.sessions, p.layers[l], Drain(p).layers[l], o); }
  }

  lemma SaveOverwritten(x: Archive, z: Record, l: nat, o: nat, w: nat)
    requires ArchiveInv(x) && Overwritten(x, z, l, o, w)
    ensures Overwritten(Moved(x, SaveNow), z, l, o, w)
  {
    hide ArchiveInv, FromOn, CanSave, Logical, Moved;
    SaveIs(x);
    DrainSequence(x.pool, l, o);
    var y := Moved(x, SaveNow);
    forall j | 0 <= j < |y.saved| ensures Loadless(y.pool, y.saved[j], z, l, o, w) {
      if j < |x.saved| {
        assert Loadless(x.pool, x.saved[j], z, l, o, w);
      } else {
        assert SavedSequence(y.saved[j], l, o) == SequenceOf(Drain(x.pool), l, o);
      }
    }
  }

  /** The current sequence after a load is the recorded one. */
  lemma LoadSequence(p: Pool, s: Saved, l: nat, o: nat)
    requires InLayers(p) && |s.layers| == |p.layers| && s.sessions == p.sessions
    ensures SequenceOf(Restore(p, s), l, o) == SavedSequence(s, l, o)
  {
    RestoreMeaning(p, s);
    hide Logical;
  }

  /** Loading a snapshot that is not dipped keeps a spoilt place spoilt. */
  lemma LoadOverwritten(x: Archive, j: nat, z: Record, l: nat, o: nat, w: nat)
    requires ArchiveInv(x) && Careful(x, Load(j)) && Overwritten(x, z, l, o, w)
    ensures Overwritten(Moved(x, Load(j)), z, l, o, w)
  {
    if j < |x.saved| {
      var p, s := x.pool, x.saved[j];
      hide ArchiveInv, Sane, SavedOK, Moved, SequenceOf, SavedSequence, FromOn, AllClosed, Restore, RestoreDrains, MarkDipped;
      LoadFacts(x, j);
      DrainSequence(p, l, o);
      RestoreTopology(p, s);
      assert Loadless(p, s, z, l, o, w);
      if CanRestore(p, s) {
        LoadSequence(p, s, l, o);
        assert FromOn(SequenceOf(Restore(p, s), l, o), w, z);
        MarkedLoadless(p, Restore(p, s), x.saved, s, z, l, o, w);
      } else {
        forall i | 0 <= i < |x.saved| ensures Loadless(Drain(p), x.saved[i], z, l, o, w) {
          assert Loadless(p, x.saved[i], z, l, o, w);
        }
      }
    }
  }

  /** Marking snapshots as dipped only shortens the list of those that may still be loaded. */
  lemma MarkedLoadless(p: Pool, r: Pool, xs: seq<Saved>, s: Saved, z: Record, l: nat, o: nat, w: nat)
    requires r.topology == p.topology && forall i :: 0 <= i < |xs| ==> Loadless(p, xs[i], z, l, o, w)
    ensures forall i :: 0 <= i < |xs| ==> Loadless(r, MarkDipped(xs, s)[i], z, l, o, w)
  {
    forall i | 0 <= i < |xs| ensures Loadless(r, MarkDipped(xs, s)[i], z, l, o, w) {
      assert Loadless(p, xs[i], z, l, o, w);
    }
    hide DipsBelow, SavedSequence, FromOn;
  }

  lemma RestoreTopology(p: Pool, s: Saved)
    requires InLayers(p)
    ensures |s.layers| == |p.layers| ==> Restore(p, s).topology == p.topology
    ensures Drain(p).topology == p.topology
  {
  }

  lemma SameSequence(s: Saved, l: nat, o: nat)
    ensures SavedSequence(s.(dipped := true), l, o) == SavedSequence(s, l, o)
  {
  }

  /** A load that dips below a snapshot leaves nothing from the restored length on. */
  lemma DipOverwrites(x: Archive, j: nat, k: nat, z: Record) returns (l: nat, o: nat, w: nat)
    requires ArchiveInv(x) && Careful(x, Load(j)) && j < |x.saved| && CanRestore(x.pool, x.saved[j]) && k < |x.saved|
    requires DipsBelow(x.saved[j], x.saved[k])
    ensures w < RecordedLength(x.saved[k], l, o) && Overwritten(Moved(x, Load(j)), z, l, o, w)
  {
    var s := x.saved[j];
    l, o :| 0 <= l < |s.layers| && l < |x.saved[k].layers| && o in s.layers[l].views && o in x.saved[k].layers[l].views
      && s.layers[l].views[o].length < x.saved[k].layers[l].views[o].length;
    w := s.layers[l].views[o].length;
    hide ArchiveInv, Careful, CanRestore, DipsBelow, Overwritten, Moved;
    LoadLeaves(x, j, z, l, o);
  }

  lemma LoadLeaves(x: Archive, j: nat, z: Record, l: nat, o: nat)
    requires ArchiveInv(x) && j < |x.saved| && CanRestore(x.pool, x.saved[j])
    requires l < |x.saved[j].layers| && o in x.saved[j].layers[l].views
    ensures Overwritten(Moved(x, Load(j)), z, l, o, x.saved[j].layers[l].views[o].length)
  {
    var p, s := x.pool, x.saved[j];
    hide ArchiveInv, Sane, SavedOK, Moved, RestoreDrains, MarkDipped, DipsBelow, CanRestore, SequenceOf, SavedSequence, Restore, FromOn;
    LoadFacts(x, j);
    RestoreShares(p, s);
    LoadShort(p, s, z, l, o);
    RestoreTopology(p, s);
    forall i | 0 <= i < |x.saved| ensures Loadless(Restore(p, s), MarkDipped(x.saved, s)[i], z, l, o, s.layers[l].views[o].length) {
      EntrySaved(x, i);
      RecordedCard(p.cfg, x.saved[i], l, o);
      MarkedShort(x.saved, s, i, l, o, z);
    }
  }

  lemma LoadShort(p: Pool, s: Saved, z: Record, l: nat, o: nat)
    requires InLayers(p) && |s.layers| == |p.layers| && s.sessions == p.sessions && SavedOK(p.cfg, s)
    requires l < |s.layers| && o in s.layers[l].views
    ensures FromOn(SequenceOf(Restore(p, s), l, o), s.layers[l].views[o].length, z)
  {
    hide SavedOK, SequenceOf, SavedSequence, Restore;
    LoadSequence(p, s, l, o);
    RecordedCard(p.cfg, s, l, o);
  }

  lemma MarkedShort(xs: seq<Saved>, s: Saved, i: nat, l: nat, o: nat, z: Record)
    requires i < |xs| && l < |s.layers| && o in s.layers[l].views && |SavedSequence(xs[i], l, o)| == RecordedLength(xs[i], l, o)
    ensures var t := MarkDipped(xs, s)[i];
      !t.dipped && t.topology == s.topology ==> FromOn(SavedSequence(t, l, o), s.layers[l].views[o].length, z)
  {
    SameSequence(xs[i], l, o);
    UndippedShort(s, xs[i], l, o);
    hide SavedSequence, RecordedLength, DipsBelow;
  }

  lemma RestoreShares(p: Pool, s: Saved)
    requires CanRestore(p, s)
    ensures |s.layers| == |p.layers| && s.sessions == p.sessions && s.topology == p.topology
  {
  }

  lemma EntrySaved(x: Archive, k: nat)
    requires ArchiveInv(x) && k < |x.saved|
    ensures SavedOK(x.pool.cfg, x.saved[k])
  {
    assert EntryOK(x.pool, x.saved[k]);
    hide SavedOK;
  }

  lemma RecordedCard(cfg: Config, s: Saved, l: nat, o: nat)
    requires SavedOK(cfg, s)
    ensures |SavedSequence(s, l, o)| == RecordedLength(s, l, o)
  {
    hide SavedOK, Logical;
    if l < |s.layers| && o in s.layers[l].views { SavedLengths(cfg, s, l, o); }
  }

  /** A snapshot that a load leaves undipped is nowhere longer than the loaded one. */
  lemma UndippedShort(s: Saved, t: Saved, l: nat, o: nat)
    requires l < |s.layers| && o in s.layers[l].views
    ensures !DipsBelow(s, t) ==> RecordedLength(t, l, o) <= s.layers[l].views[o].length
  {
  }

  // ----- the filler over a run

  lemma ActSpoilt(x: Archive, a: Action, k: nat, z: Record)
    requires ArchiveInv(x) && Careful(x, Act(a)) && Spoilt(x, k, z) && (a.Appended? ==> FromOn(a.recs, 0, z))
    ensures Spoilt(Moved(x, Act(a)), k, z)
  {
    var y := Moved(x, Act(a));
    hide ArchiveInv, Moved, Careful, Overwritten, FromOn, RecordedLength;
    MovedRecord(x, Act(a), k);
    ActFlags(x, a, k);
    EntryTopology(x, k);
    StepTopology(x, a);
    SameLength(x.saved[k], y.saved[k]);
    if y.saved[k].dipped && y.saved[k].topology == y.pool.topology {
      var l: nat, o: nat, w: nat :| w < RecordedLength(x.saved[k], l, o) && Overwritten(x, z, l, o, w);
      ActOverwritten(x, a, z, l, o, w);
    }
  }

  lemma ActFlags(x: Archive, a: Action, k: nat)
    requires k < |x.saved|
    ensures k < |Moved(x, Act(a)).saved| && Moved(x, Act(a)).saved[k].dipped == x.saved[k].dipped
  {
    hide Sane, Truncates, Step, LongerThan;
  }

  lemma EntryTopology(x: Archive, k: nat)
    requires ArchiveInv(x) && k < |x.saved|
    ensures x.saved[k].topology <= x.pool.topology
  {
    assert EntryOK(x.pool, x.saved[k]);
    hide SavedOK, Tracks;
  }

  lemma StepTopology(x: Archive, a: Action)
    requires ArchiveInv(x)
    ensures x.pool.topology <= Moved(x, Act(a)).pool.topology
  {
    ArchivePool(x);
    hide ArchiveInv, Inv, Step, EffectOf, Sane;
    StepLengths(x.pool, a);
  }

  lemma SaveSpoilt(x: Archive, k: nat, z: Record)
    requires ArchiveInv(x) && Spoilt(x, k, z)
    ensures Spoilt(Moved(x, SaveNow), k, z)
  {
    var y := Moved(x, SaveNow);
    SaveKeeps(x, k);
    hide ArchiveInv, Moved, Overwritten, FromOn;
    if y.saved[k].dipped && y.saved[k].topology == y.pool.topology {
      var l: nat, o: nat, w: nat :| w < RecordedLength(x.saved[k], l, o) && Overwritten(x, z, l, o, w);
      SaveOverwritten(x, z, l, o, w);
    }
  }

  lemma SaveKeeps(x: Archive, k: nat)
    requires k < |x.saved|
    ensures var y := Moved(x, SaveNow); k < |y.saved| && y.saved[k] == x.saved[k] && y.pool.topology == x.pool.topology
  {
    hide CanSave;
  }

  lemma LoadSpoilt(x: Archive, j: nat, k: nat, z: Record)
    requires ArchiveInv(x) && Careful(x, Load(j)) && Spoilt(x, k, z)
    ensures Spoilt(Moved(x, Load(j)), k, z)
  {
    var y := Moved(x, Load(j));
    MovedRecord(x, Load(j), k);
    LoadFlags(x, j, k);
    hide ArchiveInv, Moved, Careful, Overwritten, CanRestore, DipsBelow, RecordedLength;
    SameLength(x.saved[k], y.saved[k]);
    if y.saved[k].dipped && y.saved[k].topology == y.pool.topology {
      if x.saved[k].dipped {
        StillOverwritten(x, j, k, z);
      } else {
        var l, o, w := DipOverwrites(x, j, k, z);
      }
    }
  }

  lemma SameLength(s: Saved, t: Saved)
    requires SameRecord(s, t)
    ensures forall l: nat, o: nat :: RecordedLength(t, l, o) == RecordedLength(s, l, o)
  {
  }

  lemma StillOverwritten(x: Archive, j: nat, k: nat, z: Record)
    requires ArchiveInv(x) && Careful(x, Load(j)) && Spoilt(x, k, z) && x.saved[k].dipped && x.saved[k].topology == x.pool.topology
    ensures exists l: nat, o: nat, w: nat :: w < RecordedLength(x.saved[k], l, o) && Overwritten(Moved(x, Load(j)), z, l, o, w)
  {
    hide ArchiveInv, Moved, Careful, Overwritten, RecordedLength;
    var l: nat, o: nat, w: nat :| w < RecordedLength(x.saved[k], l, o) && Overwritten(x, z, l, o, w);
    LoadOverwritten(x, j, z, l, o, w);
  }

  /** A load changes the flag of a snapshot only by dipping below it, and never the topology. */
  lemma LoadFlags(x: Archive, j: nat, k: nat)
    requires ArchiveInv(x) && k < |x.saved|
    ensures var y := Moved(x, Load(j));
      && k < |y.saved| && y.pool.topology == x.pool.topology
      && (y.saved[k].dipped && !x.saved[k].dipped ==> j < |x.saved| && CanRestore(x.pool, x.saved[j]) && DipsBelow(x.saved[j], x.saved[k]))
  {
    if j < |x.saved| {
      LoadFacts(x, j);
      RestoreTopology(x.pool, x.saved[j]);
      hide ArchiveInv, Sane, SavedOK, Moved, AllClosed, Restore, RestoreDrains, DipsBelow, CanRestore;
    }
  }

  lemma MoveSpoilt(x: Archive, m: Move, k: nat, z: Record)
    requires ArchiveInv(x) && Careful(x, Filled(m, z)) && Spoilt(x, k, z)
    ensures Spoilt(Moved(x, Filled(m, z)), k, z)
  {
    hide ArchiveInv, Moved, Careful, Spoilt;
    match Filled(m, z)
    case Act(a) => assert a.Appended? ==> FromOn(a.recs, 0, z); ActSpoilt(x, a, k, z);
    case SaveNow => SaveSpoilt(x, k, z);
    case Load(j) => LoadSpoilt(x, j, k, z);
  }

  lemma {:induction false} RunSpoilt(x: Archive, ms: seq<Move>, k: nat, z: Record)
    requires ArchiveInv(x) && CarefulRun(x, Fill(ms, z)) && Spoilt(x, k, z)
    ensures Spoilt(RunMoves(x, Fill(ms, z)), k, z)
    decreases |ms|
  {
    hide ArchiveInv, Moved, Careful, Spoilt;
    if ms != [] {
      assert Fill(ms, z)[0] == Filled(ms[0], z) && Fill(ms, z)[1..] == Fill(ms[1..], z);
      MoveSpoilt(x, ms[0], k, z);
      MovedInv(x, Filled(ms[0], z));
      RunSpoilt(Moved(x, Filled(ms[0], z)), ms[1..], k, z);
    }
  }

  // ----- the law

  /** A spoilt snapshot is broken: the filler sits where it recorded something else. */
  lemma SpoiltBreaks(y: Archive, k: nat, z: Record)
    requires ArchiveInv(y) && Spoilt(y, k, z) && y.saved[k].dipped && CanRestore(y.pool, y.saved[k]) && Foreign(y.saved[k], z)
    ensures !Intact(y.pool, y.saved[k])
  {
    var p, s := y.pool, y.saved[k];
    RestoreShares(p, s);
    var l: nat, o: nat, w: nat :| w < RecordedLength(s, l, o) && Overwritten(y, z, l, o, w);
    EntrySaved(y, k);
    ArchivePool(y);
    RecordedCard(p.cfg, s, l, o);
    assert SavedSequence(s, l, o)[w] != z;
    LiveViews(p, l);
    RecordedKeys(p.cfg, s, l);
    LongEnough(p, s, l, o);
    hide ArchiveInv, Inv, SavedOK, Foreign, Loadless, Logical, CanRestore;
    assert SequenceOf(p, l, o)[w] == z;
    if Intact(p, s) { IntactPrefix(p, s, l, o); }
  }

  lemma RecordedKeys(cfg: Config, s: Saved, l: nat)
    requires SavedOK(cfg, s) && l < |s.layers|
    ensures s.layers[l].views.Keys == s.sessions.Keys
  {
    SavedLayer(cfg, s, l);
    hide SavedOK;
    LayerSpec(cfg, s.sessions, s.layers[l], [], l);
  }

  lemma LongEnough(p: Pool, s: Saved, l: nat, o: nat)
    requires Inv(p) && CanRestore(p, s) && l < |p.layers| && o in p.layers[l].views
    ensures RecordedLength(s, l, o) <= |SequenceOf(p, l, o)|
  {
    InvLayer(p, l);
    ClosedLayer(p.cfg, p.sessions, p.layers[l], p.writes, l);
    hide Inv, LayerInv;
  }

  lemma IntactPrefix(p: Pool, s: Saved, l: nat, o: nat)
    requires Intact(p, s) && l < |p.layers| && s.sessions == p.sessions && o in p.layers[l].views && o in s.layers[l].views
    ensures SavedSequence(s, l, o) <= SequenceOf(p, l, o)
  {
    assert Prefix(p.sessions, p.layers[l], s.layers[l], o);
    hide Logical;
  }

  lemma RightHere(y: Archive, k: nat)
    requires ArchiveInv(y) && k < |y.saved| && CanRestore(y.pool, y.saved[k])
    ensures RestoresRight(y.pool, y.saved[k]) <==> Intact(y.pool, y.saved[k])
    ensures !y.saved[k].dipped ==> Intact(y.pool, y.saved[k])
  {
    ArchivePool(y);
    EntrySaved(y, k);
    assert EntryOK(y.pool, y.saved[k]);
    RightIffIntact(y.pool, y.saved[k]);
    hide Inv, SavedOK, Intact, RestoresRight;
  }

  /** Same moves, other records: the run stays careful, the restore accepted, and the flag the same. */
  lemma SameFate(x: Archive, ms: seq<Move>, ns: seq<Move>, k: nat)
    requires ArchiveInv(x) && CarefulRun(x, ms) && SameMoves(ms, ns) && k < |x.saved|
    ensures CarefulRun(x, ns) && ArchiveInv(RunMoves(x, ns))
    ensures var y, y' := RunMoves(x, ms), RunMoves(x, ns);
      && k < |y.saved| && k < |y'.saved| && y.saved[k].dipped == y'.saved[k].dipped
      && (CanRestore(y.pool, y.saved[k]) <==> CanRestore(y'.pool, y'.saved[k]))
  {
    TwinSelf(x);
    RunRecord(x, ms, k);
    hide ArchiveInv, CarefulRun, SameMoves, Careful, Moved, RunMoves, TwinSaved, CanRestore, Twins;
    RunTwins(x, x, ms, ns);
    RunMovesInv(x, ns);
    var y, y' := RunMoves(x, ms), RunMoves(x, ns);
    TwinRestorable(y.pool, y'.pool, y.saved[k], y'.saved[k]);
    TwinTopology(y.saved[k], y'.saved[k]);
  }

  /** An accepted restore is right for every choice of the records appended meanwhile exactly when no restore rewound below the snapshot. */
  lemma RestoreByLengths(x: Archive, ms: seq<Move>, k: nat)
    requires ArchiveInv(x) && CarefulRun(x, ms) && k < |x.saved| && !x.saved[k].dipped
    requires k < |RunMoves(x, ms).saved| && CanRestore(RunMoves(x, ms).pool, RunMoves(x, ms).saved[k])
    ensures forall ns :: SameMoves(ms, ns) ==> Accepts(RunMoves(x, ns), k)
    ensures (forall ns :: SameMoves(ms, ns) ==> Rights(RunMoves(x, ns), k)) <==> !RunMoves(x, ms).saved[k].dipped
  {
    hide ArchiveInv, CarefulRun, SameMoves, RunMoves, CanRestore, RestoresRight, Intact;
    forall ns | SameMoves(ms, ns)
      ensures Accepts(RunMoves(x, ns), k) && (!RunMoves(x, ms).saved[k].dipped ==> Rights(RunMoves(x, ns), k))
    {
      SameFate(x, ms, ns, k);
      RightHere(RunMoves(x, ns), k);
    }
    if RunMoves(x, ms).saved[k].dipped {
      var z := FreshRecord(x.saved[k]);
      FillSame(ms, z);
      SameFate(x, ms, Fill(ms, z), k);
      FilledBreaks(x, ms, k, z);
    }
  }

  ghost predicate Accepts(y: Archive, k: nat) { k < |y.saved| && CanRestore(y.pool, y.saved[k]) }

  ghost predicate Rights(y: Archive, k: nat) { k < |y.saved| && RestoresRight(y.pool, y.saved[k]) }

  lemma FilledBreaks(x: Archive, ms: seq<Move>, k: nat, z: Record)
    requires ArchiveInv(x) && CarefulRun(x, Fill(ms, z)) && ArchiveInv(RunMoves(x, Fill(ms, z)))
    requires k < |x.saved| && !x.saved[k].dipped && Foreign(x.saved[k], z) && Accepts(RunMoves(x, Fill(ms, z)), k)
    requires RunMoves(x, Fill(ms, z)).saved[k].dipped
    ensures !Rights(RunMoves(x, Fill(ms, z)), k)
  {
    hide ArchiveInv, CarefulRun, RunMoves, CanRestore, RestoresRight, Intact, Overwritten;
    RunSpoilt(x, ms, k, z);
    RunRecord(x, Fill(ms, z), k);
    var y := RunMoves(x, Fill(ms, z));
    SameForeign(x.saved[k], y.saved[k], z);
    SpoiltBreaks(y, k, z);
    RightHere(y, k);
  }

  lemma SameForeign(s: Saved, t: Saved, z: Record)
    requires SameRecord(s, t) && Foreign(s, z)
    ensures Foreign(t, z)
  {
    assert forall l: nat, o: nat :: SavedSequence(t, l, o) == SavedSequence(s, l, o);
    hide SavedSequence;
  }
}
