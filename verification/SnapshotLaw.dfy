/** What saving, restoring and truncating do to snapshots, told by recorded sequences. */
module SnapshotLaw {
  import opened TokenTypes
  import opened Ranking
  import opened TokenStore
  import opened TokenPool
  import opened PoolWritebacks
  import opened PoolTransactions
  import opened PoolAppend
  import opened PoolSessions
  import opened PoolRuns
  import opened PoolSnapshots

  /** Some recorded sequence of session `o` is longer than `len`. */
  ghost predicate RecordsMore(t: Saved, o: nat, len: nat) {
    exists l :: 0 <= l < |t.layers| && o in t.layers[l].views && |Logical(t.sessions, t.layers[l], o)| > len
  }

  /** An action invalidates exactly the snapshots that recorded more of a session than it truncates it to, and touches no other. */
  lemma InvalidatedExactly(x: Archive, a: Action, k: nat)
    requires ArchiveInv(x) && k < |x.saved|
    ensures |Moved(x, Act(a)).saved| == |x.saved|
    ensures Truncates(x.pool, a) ==> (a.Truncated? || a.RolledBack?) && EffectOf(x.pool, a).Cut?
    ensures Moved(x, Act(a)).saved[k] ==
      if Truncates(x.pool, a) && RecordsMore(x.saved[k], a.o, EffectOf(x.pool, a).len) then x.saved[k].(valid := false) else x.saved[k]
  {
    InvSane(x.pool);
    var t := x.saved[k];
    assert EntryOK(x.pool, t);
    hide Inv, Truncates, Step, EffectOf, Sane, EntryOK;
    if Truncates(x.pool, a) {
      CutsTo(x.pool, a);
      var len := EffectOf(x.pool, a).len;
      forall l | 0 <= l < |t.layers| && a.o in t.layers[l].views
        ensures |Logical(t.sessions, t.layers[l], a.o)| > len <==> t.layers[l].views[a.o].length > len
      {
        SavedLengths(x.pool.cfg, t, l, a.o) by { Entry(x, k); }
      }
      hide Logical;
    }
  }

  lemma Entry(x: Archive, k: nat)
    requires ArchiveInv(x) && k < |x.saved|
    ensures SavedOK(x.pool.cfg, x.saved[k])
  {
    assert EntryOK(x.pool, x.saved[k]);
  }

  lemma CutsTo(p: Pool, a: Action)
    requires Truncates(p, a)
    ensures (a.Truncated? || a.RolledBack?) && EffectOf(p, a).Cut?
  {
    hide Allowed;
  }

  /** The layer has the saved rows and cursors beside its own host memory, and the dense certificates the saved one had. */
  ghost predicate Revived(p: Pool, s: Saved, now: Layer, past: Layer, host: seq<Record>) {
    && now.store == past.store && now.views == past.views && now.host == host && now.pending.None? && now.candidate.None?
    && forall o :: o in p.sessions && o in s.sessions && o in past.views && HostEnd(past.views[o]) > 0 ==>
         (AllResident(p.cfg, p.sessions, now, o) <==> p.cfg.dense && AllResident(p.cfg, s.sessions, past, o))
  }

  /** A restore brings back the saved rows, maps, ages and cursors, keeps host memory, and revives exactly the dense certificates. */
  lemma RestoreExactly(p: Pool, s: Saved, l: nat)
    requires Inv(p) && CanRestore(p, s) && l < |p.layers|
    ensures InLayers(p) && |Restore(p, s).layers| == |p.layers| && Restore(p, s) == Drain(p).(layers := Restore(p, s).layers)
    ensures Revived(p, s, Restore(p, s).layers[l], s.layers[l], Drain(p).layers[l].host)
  {
    InvSane(p);
    hide Inv, Drain;
  }

  /** A pool that can be saved accepts what it has just saved, and the restore leaves every row, map, age, cursor and host cell. */
  lemma SaveRestores(p: Pool)
    requires Inv(p) && CanSave(p)
    ensures InLayers(p) && InLayers(Drain(p)) && CanRestore(Drain(p), Save(p))
    ensures var q := Drain(p); var r := Restore(q, Save(p));
      && r == q.(layers := r.layers) && |r.layers| == |q.layers|
      && forall l :: 0 <= l < |q.layers| ==> r.layers[l] == q.layers[l].(proofs := r.layers[l].proofs)
  {
    InvSane(p);
    var q := Drain(p);
    forall l | 0 <= l < |p.layers| ensures p.layers[l].pending.None? && p.layers[l].candidate.None? { ClosedQuiet(p, l); }
    hide Inv, Drain;
    assert Drain(q) == q by { NothingQueued(q); }
  }

  lemma NothingQueued(q: Pool)
    requires q.writes == []
    ensures InLayers(q) && Drain(q) == q
  {
  }

  /** Without open steps there is neither a suffix nor a prepared prefetch. */
  lemma ClosedQuiet(p: Pool, l: nat)
    requires Inv(p) && AllClosed(p.layers) && l < |p.layers|
    ensures p.layers[l].pending.None? && p.layers[l].candidate.None?
  {
    var ly := p.layers[l];
    LayerOf(p, l);
    hide StoreOK, ArenaOK, HostOK, TicketsOK, ProofsOK, PlanOK;
  }
}
