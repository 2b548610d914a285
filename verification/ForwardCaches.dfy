/** The layers of a forward pass are caches of the token pool: each step of the transaction is one pool action. */
module ForwardCaches {
  import opened TokenTypes
  import opened TokenStore
  import opened TokenPool
  import opened PoolWritebacks
  import opened PoolTransactions
  import opened PoolAppend
  import opened PoolSessions
  import opened PoolRuns
  import opened PoolMeanings
  import PoolRestoreGap
  import Forward

  /** A session's cache on one layer as the forward pass sees it; `id` names the pool that may be poisoned. */
  function Seen(p: Pool, id: nat, o: nat, l: nat): Forward.Layer
    requires l < |p.layers| && o in p.layers[l].views
  {
    Forward.Layer(id, Logical(p.sessions, p.layers[l], o), p.layers[l].views[o].length, p.layers[l].views[o].stepEnd)
  }

  /** The session's caches on the other layers look as before. */
  ghost predicate ElsewhereSeen(p: Pool, r: Pool, id: nat, o: nat, l: nat) {
    && |r.layers| == |p.layers|
    && forall m :: 0 <= m < |p.layers| && m != l && o in p.layers[m].views ==>
         o in r.layers[m].views && Seen(r, id, o, m) == Seen(p, id, o, m)
  }

  /** A cache without an open step is idle: everything it holds is committed. */
  lemma SeenIdle(p: Pool, id: nat, o: nat, l: nat)
    requires Inv(p) && Exists(p, o, l) && p.layers[l].views[o].stepEnd.None?
    ensures Forward.Idle(Seen(p, id, o, l), p.layers[l].views[o].length)
  {
    InvView(p, o, l);
  }

  /** Equal sequences and cursors elsewhere. */
  lemma ElsewhereOf(p: Pool, r: Pool, id: nat, o: nat, l: nat)
    requires SameLogicalBut(p, r, l, o)
    requires forall m :: 0 <= m < |p.layers| && m != l ==> r.layers[m].views == p.layers[m].views
    ensures ElsewhereSeen(p, r, id, o, l)
  {
    hide Logical;
  }

  /** A healthy layer accepts a step in the transaction exactly when the pool accepts it, unless another session holds the candidate rows. */
  lemma AcceptsSeen(p: Pool, st: Forward.State, i: nat, o: nat, l: nat, count: nat)
    requires Inv(p) && Exists(p, o, l) && i < |st.layers| && st.capacity == p.sessions[o].capacity
    requires st.layers[i] == Seen(p, st.layers[i].pool, o, l) && st.layers[i].pool !in st.pools
    ensures Forward.Accepts(st, count, i) && !HeldByOthers(p, o, l) <==> Allowed(p, Began(o, l, count))
  {
    CanBeginIs(p, o, l, count);
    hide Inv, Logical, Allowed;
  }

  lemma CanBeginIs(p: Pool, o: nat, l: nat, count: nat)
    requires Exists(p, o, l)
    ensures Allowed(p, Began(o, l, count)) <==> CanBegin(p, o, l, count)
  {
    hide CanBegin;
  }

  predicate HeldByOthers(p: Pool, o: nat, l: nat)
    requires l < |p.layers|
  {
    p.layers[l].candidate.Some? && p.layers[l].candidate.value != o
  }

  lemma BeginSeen(p: Pool, id: nat, o: nat, l: nat, count: nat)
    requires Inv(p) && CanBegin(p, o, l, count)
    ensures var r := Step(p, Began(o, l, count));
      && Inv(r) && Exists(r, o, l) && Seen(r, id, o, l) == Forward.Open(Seen(p, id, o, l), count) && ElsewhereSeen(p, r, id, o, l)
  {
    hide Inv, Step, CanBegin, SameLogical, Reserves, Logical;
    BeginMeans(p, o, l, count);
    BeganExistsHere(p, o, l, count);
    BeganSeen(p, id, o, l, count);
  }

  lemma BeganExistsHere(p: Pool, o: nat, l: nat, count: nat)
    requires CanBegin(p, o, l, count)
    ensures Exists(p, o, l)
  {
  }

  lemma BeganSeen(p: Pool, id: nat, o: nat, l: nat, count: nat)
    requires Exists(p, o, l) && SameLogical(p, BeginStep(p, o, l, count))
    ensures var r := BeginStep(p, o, l, count);
      Exists(r, o, l) && Seen(r, id, o, l) == Forward.Open(Seen(p, id, o, l), count) && ElsewhereSeen(p, r, id, o, l)
  {
    hide Logical;
    SameBut(p, BeginStep(p, o, l, count), l, o);
    ElsewhereOf(p, BeginStep(p, o, l, count), id, o, l);
  }

  lemma SameBut(p: Pool, r: Pool, l: nat, o: nat)
    requires SameLogical(p, r)
    ensures SameLogicalBut(p, r, l, o)
  {
    hide Logical;
  }

  lemma AppendSeen(p: Pool, id: nat, o: nat, l: nat, recs: seq<Record>)
    requires CanPersist(p, o, l, recs)
    ensures var r := Step(p, Action.Appended(o, l, recs));
      && Inv(r) && Exists(p, o, l) && Exists(r, o, l)
      && Seen(r, id, o, l) == Forward.Appended(Seen(p, id, o, l), recs, |recs|) && ElsewhereSeen(p, r, id, o, l)
  {
    hide Inv, CanPersist, Step, AppendPersistent, Logical, SameLogicalBut;
    PersistStep(p, o, l, recs);
    AppendPersistentInv(p, o, l, recs);
    AppendPersistentMeaning(p, o, l, recs);
    PoolRestoreGap.AppendedViews(p, o, l, recs);
    GrownSeen(p, AppendPersistent(p, o, l, recs), id, o, l, recs);
  }

  lemma GrownSeen(p: Pool, r: Pool, id: nat, o: nat, l: nat, recs: seq<Record>)
    requires Exists(p, o, l) && Exists(r, o, l) && SameLogicalBut(p, r, l, o)
    requires Logical(r.sessions, r.layers[l], o) == Logical(p.sessions, p.layers[l], o) + recs
    requires r.layers[l].views[o] == p.layers[l].views[o].(written := r.layers[l].views[o].written, visibleEnd := r.layers[l].views[o].visibleEnd)
    requires forall m :: 0 <= m < |p.layers| && m != l ==> r.layers[m].views == p.layers[m].views
    ensures Seen(r, id, o, l) == Forward.Appended(Seen(p, id, o, l), recs, |recs|) && ElsewhereSeen(p, r, id, o, l)
  {
    hide Logical;
    assert recs[..|recs|] == recs;
    ElsewhereOf(p, r, id, o, l);
  }

  lemma PersistStep(p: Pool, o: nat, l: nat, recs: seq<Record>)
    requires CanPersist(p, o, l, recs)
    ensures Exists(p, o, l) && Step(p, Action.Appended(o, l, recs)) == AppendPersistent(p, o, l, recs)
  {
    StepIs(p, Action.Appended(o, l, recs));
    hide Inv, Sane, LeaseFree, DenseReady, AppendPersistent, Step, StepData, StepCut, StepBoundary, Allocate, Release;
  }

  lemma CommitSeen(p: Pool, id: nat, o: nat, l: nat)
    requires Inv(p) && CanCommit(p, o, l)
    ensures var r := Step(p, Committed(o, l));
      && Inv(r) && Exists(r, o, l) && Seen(r, id, o, l) == Forward.Close(Seen(p, id, o, l)) && ElsewhereSeen(p, r, id, o, l)
  {
    hide Inv, Step, Logical, CanCommit, SameLogical, Commits;
    CommitMeans(p, o, l);
    CommitOpen(p, o, l);
    InvView(p, o, l);
    CommittedSeen(p, id, o, l);
  }

  lemma CommitOpen(p: Pool, o: nat, l: nat)
    requires Sane(p) && CanCommit(p, o, l)
    ensures Exists(p, o, l) && InLayers(p) && p.layers[l].views[o].transientStart.None?
  {
  }

  lemma CommittedSeen(p: Pool, id: nat, o: nat, l: nat)
    requires Exists(p, o, l) && InLayers(p) && SameLogical(p, PoolTransactions.Commit(p, o, l))
    requires p.layers[l].views[o].transientStart.None? && ViewOK(p.cfg, p.sessions[o], p.layers[l].views[o])
    ensures var r := PoolTransactions.Commit(p, o, l);
      Exists(r, o, l) && Seen(r, id, o, l) == Forward.Close(Seen(p, id, o, l)) && ElsewhereSeen(p, r, id, o, l)
  {
    var r := PoolTransactions.Commit(p, o, l);
    hide Drain;
    assert |Logical(p.sessions, p.layers[l], o)| == p.layers[l].views[o].written;
    hide Logical;
    SameBut(p, r, l, o);
    ElsewhereOf(p, r, id, o, l);
  }

  lemma RollbackSeen(p: Pool, id: nat, o: nat, l: nat)
    requires Inv(p) && CanRollback(p, o, l)
    ensures var r := Step(p, Action.RolledBack(o, l));
      && Inv(r) && Exists(r, o, l) && Seen(r, id, o, l) == Forward.RolledBack(Seen(p, id, o, l)) && ElsewhereSeen(p, r, id, o, l)
  {
    RollbackMeans(p, o, l);
    RolledViews(p, o, l);
    hide Inv, Step, Logical, LeaseFree, RolledBackTo, Torn, Allowed;
    assert CutDone(p, Step(p, Action.RolledBack(o, l)), o, l, p.layers[l].views[o].length);
    ElsewhereOf(p, Step(p, Action.RolledBack(o, l)), id, o, l);
  }

  lemma RolledViews(p: Pool, o: nat, l: nat)
    requires Sane(p) && CanRollback(p, o, l)
    ensures var r := RolledBackTo(p, o, l); |r.layers| == |p.layers| && forall m :: 0 <= m < |p.layers| && m != l ==> r.layers[m].views == p.layers[m].views
  {
    hide CloseAt, LeaseTo, TruncateAt, Cuttable;
  }
}
