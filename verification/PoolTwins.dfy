/** Twin pools stay twins: the clock limit, the records and host memory never decide what happens. */
module PoolTwins {
  import opened TokenTypes
  import opened Ranking
  import opened TokenStore
  import opened StoreTwins
  import opened TokenPool
  import opened PoolWritebacks
  import opened PoolTransactions
  import opened PoolAppend
  import opened PoolRecall
  import opened PoolPrefetch
  import opened PoolSessions
  import opened PoolRuns
  import opened LayerTwins

  /** Equal control state, layer by layer; queues, host memory, records and clock numbers may differ. */
  ghost predicate Twins(p: Pool, q: Pool) {
    && Peers(p.cfg, q.cfg) && q.sessions == p.sessions && q.nextOwner == p.nextOwner && q.freePages == p.freePages
    && q.active == p.active && q.topology == p.topology && |q.layers| == |p.layers|
    && forall l :: 0 <= l < |p.layers| ==> TwinLayer(p.layers[l], q.layers[l])
  }

  /** The same action, up to what appended records say. */
  ghost predicate SameAct(a: Action, b: Action) {
    b == a || (a.Appended? && b.Appended? && b == a.(recs := b.recs) && |b.recs| == |a.recs|)
  }

  // ----- rewriting twins

  lemma TwinSet(p: Pool, q: Pool, l: nat, x: Layer, y: Layer)
    requires Twins(p, q) && l < |p.layers| && TwinLayer(x, y)
    ensures Twins(SetLayer(p, l, x), SetLayer(q, l, y))
  {
    hide TwinLayer;
  }

  lemma TwinHost(p: Pool, q: Pool, p': Pool, q': Pool)
    requires Twins(p, q) && OnlyHost(p, p') && OnlyHost(q, q')
    ensures Twins(p', q')
  {
    forall l | 0 <= l < |p'.layers| ensures TwinLayer(p'.layers[l], q'.layers[l]) {
      TwinFields(p.layers[l], q.layers[l], p'.layers[l], q'.layers[l]);
    }
    hide TwinLayer;
  }

  lemma HostSelf(p: Pool)
    ensures OnlyHost(p, p)
  {
  }

  lemma TwinDrain(p: Pool, q: Pool)
    requires Twins(p, q) && InLayers(p) && InLayers(q)
    ensures Twins(Drain(p), Drain(q))
  {
    TwinHost(p, q, Drain(p), Drain(q));
  }

  lemma InvStocked(p: Pool, l: nat)
    requires Inv(p) && l < |p.layers|
    ensures Stocked(p.layers[l])
    ensures p.layers[l].pending.Some? ==> Distinct(p.layers[l].pending.value.victims)
  {
    assert LayerInv(p.cfg, p.sessions, p.layers[l], p.writes, l);
    hide ArenaOK, HostOK, TicketsOK, ProofsOK, PlanOK, CandidateOK, ViewsOK;
  }

  /** What twins agree on about one session's cursors. */
  lemma TwinAt(p: Pool, q: Pool, o: nat, l: nat)
    requires Twins(p, q)
    ensures Exists(p, o, l) <==> Exists(q, o, l)
    ensures l < |p.layers| ==> TwinLayer(p.layers[l], q.layers[l])
    ensures l < |p.layers| ==> p.layers[l].candidate == q.layers[l].candidate && p.layers[l].pending == q.layers[l].pending
    ensures Exists(p, o, l) ==> TwinView(p.layers[l].views[o], q.layers[l].views[o])
  {
    hide Alike;
  }

  lemma TwinFree(p: Pool, q: Pool, o: nat, l: nat)
    requires Twins(p, q) && l < |p.layers|
    ensures LeaseFree(p, o, l) <==> LeaseFree(q, o, l)
  {
    hide Alike;
    assert forall m :: 0 <= m < |p.layers| ==> TwinLayer(p.layers[m], q.layers[m]);
  }

  // ----- the same actions are accepted

  lemma TwinBegin(p: Pool, q: Pool, o: nat, l: nat, n: nat)
    requires Twins(p, q)
    ensures CanBegin(p, o, l, n) <==> CanBegin(q, o, l, n)
    ensures CanBeginTransient(p, o, l, n) <==> CanBeginTransient(q, o, l, n)
    ensures CanDeclare(p, o, l, n) <==> CanDeclare(q, o, l, n)
    ensures CanTruncate(p, o, l, n) <==> CanTruncate(q, o, l, n)
    ensures CanCommit(p, o, l) <==> CanCommit(q, o, l)
    ensures InStep(p, o, l) <==> InStep(q, o, l)
    ensures CanRollback(p, o, l) <==> CanRollback(q, o, l)
    ensures CanDiscard(p, o, l) <==> CanDiscard(q, o, l)
  {
    TwinAt(p, q, o, l);
    if l < |p.layers| { TwinFree(p, q, o, l); }
    hide TwinLayer, LeaseFree;
  }

  lemma TwinSessions(p: Pool, q: Pool, o: nat, capacity: nat, pages: seq<nat>)
    requires Twins(p, q)
    ensures CanAllocate(p, capacity, pages) <==> CanAllocate(q, capacity, pages)
    ensures CanRelease(p, o) <==> CanRelease(q, o)
  {
    hide Alike;
    assert forall m :: 0 <= m < |p.layers| ==> TwinLayer(p.layers[m], q.layers[m]);
  }

  lemma TwinPrepare(p: Pool, q: Pool, o: nat, l: nat, start: nat, count: nat, idx: seq<int>, native: bool)
    requires Twins(p, q)
    ensures CanPrepare(p, o, l, start, count) <==> CanPrepare(q, o, l, start, count)
    ensures Exists(p, o, l) ==> Exists(q, o, l) && Bounded(p, o, l, count, native) == Bounded(q, o, l, count, native)
    ensures CanEnsure(p, o, l, idx) <==> CanEnsure(q, o, l, idx)
    ensures Exists(p, o, l) ==> Exists(q, o, l) && History(p.layers[l], o, idx) == History(q.layers[l], o, idx)
  {
    TwinAt(p, q, o, l);
    if l < |p.layers| { TwinFree(p, q, o, l); }
    hide TwinLayer, LeaseFree;
  }

  lemma TwinAppend(p: Pool, q: Pool, o: nat, l: nat, n: nat)
    requires Twins(p, q)
    ensures CanAppend(p, o, l, n) <==> CanAppend(q, o, l, n)
    ensures Exists(p, o, l) && Exists(q, o, l) ==>
      (DenseReady(p.cfg, p.sessions, LeaseTo(p.layers[l], o), o, p.layers[l].views[o].written, n)
       <==> DenseReady(q.cfg, q.sessions, LeaseTo(q.layers[l], o), o, q.layers[l].views[o].written, n))
  {
    TwinAt(p, q, o, l);
    if l < |p.layers| { TwinFree(p, q, o, l); }
    hide Alike, LeaseFree;
  }

  /** Twins accept and refuse the same actions; which copies are still queued is the only exception. */
  lemma TwinAllowed(p: Pool, q: Pool, a: Action, b: Action)
    requires Twins(p, q) && SameAct(a, b)
    ensures !a.Landed? ==> (Allowed(p, a) <==> Allowed(q, b))
    ensures Torn(p, a) <==> Torn(q, b)
  {
    if a.Appended? {
      TwinAppend(p, q, a.o, a.l, |a.recs|);
      TwinAt(p, q, a.o, a.l);
      hide Twins, TwinLayer, CanAppend, DenseReady, LeaseTo;
      AppendExistsAt(p, a.o, a.l, |a.recs|);
    } else {
      TwinAllowedSame(p, q, a);
    }
  }

  lemma AppendExistsAt(p: Pool, o: nat, l: nat, n: nat)
    ensures CanAppend(p, o, l, n) ==> Exists(p, o, l)
  {
  }

  lemma TwinAllowedSame(p: Pool, q: Pool, a: Action)
    requires Twins(p, q) && !a.Appended?
    ensures !a.Landed? ==> (Allowed(p, a) <==> Allowed(q, a))
    ensures Torn(p, a) <==> Torn(q, a)
  {
    match a
    case Landed(_, _) =>
    case Opened(o, l) => TwinAt(p, q, o, l); if l < |p.layers| { TwinFree(p, q, o, l); } hide Twins, TwinLayer, LeaseFree;
    case Closed =>
    case Reserved =>
    case Began(o, l, count) => TwinBegin(p, q, o, l, count); hide Twins, CanBegin;
    case BeganTransient(o, l, count) => TwinBegin(p, q, o, l, count); hide Twins, CanBeginTransient;
    case Declared(o, l, end) => TwinBegin(p, q, o, l, end); hide Twins, CanDeclare;
    case Recall(o, l, idx) => TwinPrepare(p, q, o, l, 0, 0, idx, false); hide Twins, CanEnsure;
    case Prepared(o, l, start, count, limit, native) => TwinPrepare(p, q, o, l, start, count, [], native); hide Twins, CanPrepare;
    case Streamed(l, _, _) => TwinAt(p, q, 0, l); hide TwinLayer;
    case Finalized(l) => TwinAt(p, q, 0, l); hide TwinLayer;
    case Committed(o, l) => TwinBegin(p, q, o, l, 0); hide Twins, CanCommit;
    case RolledBack(o, l) => TwinRollback(p, q, o, l);
    case Discarded(o, l) => TwinBegin(p, q, o, l, 0); hide Twins, CanDiscard;
    case Truncated(o, l, len) => TwinBegin(p, q, o, l, len); hide Twins, CanTruncate;
    case Admitted(capacity, pages) => TwinSessions(p, q, 0, capacity, pages); hide Twins, CanAllocate;
    case Dismissed(o) => TwinSessions(p, q, o, 0, []); hide Twins, CanRelease;
  }

  lemma TwinRollback(p: Pool, q: Pool, o: nat, l: nat)
    requires Twins(p, q)
    ensures Allowed(p, RolledBack(o, l)) <==> Allowed(q, RolledBack(o, l))
    ensures Torn(p, RolledBack(o, l)) <==> Torn(q, RolledBack(o, l))
  {
    TwinBegin(p, q, o, l, 0);
    TwinAt(p, q, o, l);
    if l < |p.layers| { TwinFree(p, q, o, l); }
    hide Twins, TwinLayer, LeaseFree, CanRollback, CanDiscard;
  }
}
