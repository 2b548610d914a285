/** Residency certificates: a session that is left alone on a layer keeps its own, and with it the right to append in a dense pool. */
module CertificateLaw {
  import opened TokenTypes
  import opened Ranking
  import opened TokenStore
  import opened TokenPool
  import opened PoolWritebacks
  import opened PoolTransactions
  import opened PoolAppend
  import opened PoolRecall
  import opened PoolPrefetch
  import opened PoolSessions
  import opened PoolRuns
  import opened PrefetchRuns

  /** The whole history of `o` is certified to be on the device, and outside dense pools the append plan goes on behind it. */
  predicate Certified(p: Pool, o: nat, l: nat)
    requires Exists(p, o, l)
  {
    var ly := p.layers[l];
    HostEnd(ly.views[o]) == 0
    || (ly.proofs.lease == Some(o) && AllResident(p.cfg, p.sessions, ly, o) && (p.cfg.dense || ly.proofs.appendOwner == Some(o)))
  }

  /**
   * The action leaves `o` alone on layer `l`: there it is a lease, begin, declaration, append, recall, preparation or commit of
   * `o` itself. Elsewhere everything may happen but a release, which forgets tokens on every layer.
   */
  predicate Gentle(a: Action, o: nat, l: nat) {
    match a
    case Opened(q, m) => m != l || q == o
    case Began(q, m, _) => m != l || q == o
    case BeganTransient(q, m, _) => m != l || q == o
    case Declared(q, m, _) => m != l || q == o
    case Appended(q, m, _) => m != l || q == o
    case Recall(q, m, _) => m != l || q == o
    case Prepared(q, m, _, _, _, _) => m != l || q == o
    case Committed(q, m) => m != l || q == o
    case Streamed(m, _, _) => m != l
    case Finalized(m) => m != l
    case RolledBack(_, m) => m != l
    case Discarded(_, m) => m != l
    case Truncated(_, m, _) => m != l
    case Dismissed(_) => false
    case _ => true
  }

  /** What decides certification is as before. */
  ghost predicate Same(p: Pool, r: Pool, o: nat, l: nat)
    requires Exists(p, o, l)
  {
    && Exists(r, o, l) && r.cfg == p.cfg && r.sessions[o] == p.sessions[o]
    && (r.layers[l].proofs == p.layers[l].proofs || r.layers[l].proofs == LeaseTo(p.layers[l], o).proofs)
    && HostEnd(r.layers[l].views[o]) == HostEnd(p.layers[l].views[o])
  }

  lemma CertifiedSame(p: Pool, r: Pool, o: nat, l: nat)
    requires Exists(p, o, l) && Same(p, r, o, l) && Certified(p, o, l)
    ensures Certified(r, o, l)
  {
  }

  lemma SameHost(p: Pool, r: Pool, o: nat, l: nat)
    requires Exists(p, o, l) && OnlyHost(p, r)
    ensures Same(p, r, o, l)
  {
  }

  // ----- actions of the session itself

  lemma BoundarySame(p: Pool, a: Action, o: nat, l: nat)
    requires Sane(p) && Exists(p, o, l) && Allowed(p, a) && Gentle(a, o, l)
    requires a.Opened? || a.Closed? || a.Began? || a.BeganTransient? || a.Declared?
    requires ViewOK(p.cfg, p.sessions[o], p.layers[l].views[o])
    ensures Same(p, Accepted(p, a), o, l)
  {
    hide Sane, LeaseFree, StepData, StepCut, AppendEither, Allocate, Release;
  }

  lemma CopiesSame(p: Pool, a: Action, o: nat, l: nat)
    requires Sane(p) && Exists(p, o, l) && Allowed(p, a) && (a.Landed? || a.Reserved?)
    ensures Same(p, Accepted(p, a), o, l)
  {
    hide Sane, LeaseFree, StepBoundary, StepCut, AppendEither, Allocate, Release, LandCell, Reap;
  }

  lemma CommitSame(p: Pool, q: nat, m: nat, o: nat, l: nat)
    requires InLayers(p) && Exists(p, o, l) && CanCommit(p, q, m) && Exists(p, q, m)
    ensures Same(p, PoolTransactions.Commit(p, q, m), o, l)
  {
    SameHost(p, Drain(p), o, l);
    hide Drain;
  }

  lemma AdmitSame(p: Pool, capacity: nat, pages: seq<nat>, o: nat, l: nat)
    requires Exists(p, o, l) && o != p.nextOwner
    ensures Same(p, Allocate(p, capacity, pages), o, l)
  {
  }

  /** A certified history is on the device, so no recall of it misses. */
  lemma CertifiedHits(p: Pool, o: nat, l: nat, idx: seq<int>)
    requires Inv(p) && Exists(p, o, l) && Certified(p, o, l)
    requires HostIds(p.layers[l].store, Toks(p.sessions, o, History(p.layers[l], o, idx))) && Shaped(p.layers[l].store)
    ensures Misses(p.layers[l].store, Toks(p.sessions, o, History(p.layers[l], o, idx))) == []
  {
    var ids := History(p.layers[l], o, idx);
    var gs, st := Toks(p.sessions, o, ids), p.layers[l].store;
    forall k | 0 <= k < |gs| ensures Mapped(st, gs[k]) {
      assert ids[k] in ids;
      CertificateSound(p, o, l, ids[k]);
    }
    hide Inv;
    NoMisses(st, gs);
  }

  lemma {:induction false} NoMisses(st: Store, gs: seq<int>)
    requires Shaped(st) && HostIds(st, gs) && forall k :: 0 <= k < |gs| ==> Mapped(st, gs[k])
    ensures Misses(st, gs) == []
  {
    if gs != [] { NoMisses(st, gs[1..]); }
  }

  lemma RecallSame(p: Pool, o: nat, l: nat, idx: seq<int>)
    requires Inv(p) && CanEnsure(p, o, l, idx) && Exists(p, o, l) && Certified(p, o, l)
    ensures Same(p, Ensure(p, o, l, idx), o, l)
  {
    EnsureLegal(p, o, l, idx);
    CertifiedHits(p, o, l, idx);
    InvSane(p);
    hide *;
    RecallKeepsProofs(p, BeforeRecall(p, o, l, Toks(p.sessions, o, History(p.layers[l], o, idx))), o, l, idx);
  }

  lemma RecallKeepsProofs(p: Pool, q: Pool, o: nat, l: nat, idx: seq<int>)
    requires Sane(p) && Exists(p, o, l) && Readable(p, o, l, Toks(p.sessions, o, History(p.layers[l], o, idx)))
    requires InLayers(p) && p.cfg.maxWrites >= 1 && Shaped(p.layers[l].store)
    requires var gs := Toks(p.sessions, o, History(p.layers[l], o, idx));
      && HostIds(p.layers[l].store, gs) && Misses(p.layers[l].store, gs) == [] && q == BeforeRecall(p, o, l, gs)
      && |gs| <= Slots(p.layers[l].store) && |p.layers[l].host| == |p.layers[l].store.h2d|
    ensures Same(p, Ensure(p, o, l, idx), o, l)
  {
    hide BeforeRecall, EnsureRows, Misses, Readable, Sane, Toks, History;
  }

  lemma PrepareSame(p: Pool, o: nat, l: nat, start: nat, count: nat, limit: nat, native: bool)
    requires Inv(p) && CanPrepare(p, o, l, start, count) && Exists(p, o, l) && Certified(p, o, l)
    ensures Same(p, Prepare(p, o, l, count, limit, native), o, l)
  {
    InvSane(p);
    CertifiedResident(p, o, l);
    InvView(p, o, l);
    hide Inv, CanPrepare, Certified;
    PrepareSkips(p, o, l, count, limit, native);
  }

  lemma CertifiedResident(p: Pool, o: nat, l: nat)
    requires Inv(p) && Exists(p, o, l) && Certified(p, o, l)
    ensures AllResident(p.cfg, p.sessions, LeaseTo(p.layers[l], o), o)
  {
    hide Inv;
  }

  lemma PrepareSkips(p: Pool, o: nat, l: nat, count: nat, limit: nat, native: bool)
    requires Sane(p) && InLayers(p) && p.cfg.maxWrites >= 1 && Exists(p, o, l) && AllResident(p.cfg, p.sessions, LeaseTo(p.layers[l], o), o)
    ensures Same(p, Prepare(p, o, l, count, limit, native), o, l)
  {
    var q := BeforePrepare(p, o, l);
    assert q.layers[l] == LeaseTo(p.layers[l], o).(host := q.layers[l].host);
    AllResidentSame(q.cfg, q.sessions, LeaseTo(p.layers[l], o), q.layers[l], o);
    hide Sane, BeforePrepare, AllResident, Drain, WaitHost, ClockEvent, Stamp, PrepareAt;
  }

  // ----- appends

  /** The history after an append of `n` records. */
  function EndAfter(p: Pool, o: nat, l: nat, n: nat): nat
    requires Exists(p, o, l)
  {
    if p.layers[l].views[o].transientStart.Some? then HostEnd(p.layers[l].views[o]) else HostEnd(p.layers[l].views[o]) + n
  }

  /** In a certified state an append that stays within the rows of the pool is planned. */
  lemma AppendIsPlanned(p: Pool, o: nat, l: nat, recs: seq<Record>)
    requires CanPersist(p, o, l, recs) && Exists(p, o, l) && Certified(p, o, l) && HostEnd(p.layers[l].views[o]) + |recs| <= p.cfg.slots
    requires HostEnd(p.layers[l].views[o]) + |recs| <= p.sessions[o].capacity
    ensures Shaped(p.layers[l].store)
    ensures var q := PlannedPool(p, o, l, |recs|); Planned(q.cfg, q.sessions, q.layers[l], o, q.layers[l].views[o].written, |recs|)
  {
    LayerOf(p, l);
    hide HostOK, TicketsOK, ArenaOK, CandidateOK, StoreOK, PendingOK, Inv;
    assert |p.layers[l].proofs.order| == p.cfg.slots;
    assert |p.layers[l].store.prio| == p.cfg.slots + 1 by { StoreShape(p, l); }
    FreshPlan(p.layers[l].store.prio);
  }

  lemma StoreShape(p: Pool, l: nat)
    requires Inv(p) && l < |p.layers|
    ensures Shaped(p.layers[l].store) && |p.layers[l].store.prio| == p.cfg.slots + 1
  {
    assert LayerInv(p.cfg, p.sessions, p.layers[l], p.writes, l);
  }

  lemma AppendCertifies(p: Pool, o: nat, l: nat, recs: seq<Record>)
    requires CanPersist(p, o, l, recs) && Exists(p, o, l) && Certified(p, o, l) && HostEnd(p.layers[l].views[o]) + |recs| <= p.cfg.slots
    ensures var r := AppendPersistent(p, o, l, recs);
      && Exists(r, o, l) && Certified(r, o, l) && r.cfg == p.cfg && r.sessions == p.sessions
      && HostEnd(r.layers[l].views[o]) == EndAfter(p, o, l, |recs|)
  {
    AppendPersistentLegal(p, o, l, recs);
    var q := MakeRoom(PlannedPool(p, o, l, |recs|), l);
    AppendLegal(q.cfg, q.sessions, q.layers[l], q.writes, l, o, recs);
    AppendIsPlanned(p, o, l, recs);
    PlannedSame(PlannedPool(p, o, l, |recs|), q, o, l, |recs|);
    assert q.layers[l].proofs.lease == Some(o) && p.layers[l].views[o].transientStart.None?;
    hide *;
    PlacedCertifies(p, q, o, l, recs);
  }

  lemma PlannedSame(p: Pool, q: Pool, o: nat, l: nat, n: nat)
    requires Exists(p, o, l) && OnlyHost(p, q)
    ensures Exists(q, o, l)
    ensures Planned(q.cfg, q.sessions, q.layers[l], o, q.layers[l].views[o].written, n) ==
            Planned(p.cfg, p.sessions, p.layers[l], o, p.layers[l].views[o].written, n)
  {
  }

  lemma PlacedCertifies(p: Pool, q: Pool, o: nat, l: nat, recs: seq<Record>)
    requires Sane(p) && Exists(p, o, l) && InLayers(p) && p.cfg.maxWrites >= 1 && InLayers(PlannedPool(p, o, l, |recs|))
    requires q == MakeRoom(PlannedPool(p, o, l, |recs|), l) && Placeable(q, o, l, recs) && q.layers[l].proofs.lease == Some(o)
    requires Planned(q.cfg, q.sessions, q.layers[l], o, q.layers[l].views[o].written, |recs|)
    requires p.layers[l].views[o].transientStart.None? && HostEnd(p.layers[l].views[o]) + |recs| <= p.cfg.slots
    requires HostEnd(p.layers[l].views[o]) + |recs| <= p.sessions[o].capacity
    ensures var r := AppendPersistent(p, o, l, recs);
      && Exists(r, o, l) && Certified(r, o, l) && r.cfg == p.cfg && r.sessions == p.sessions
      && HostEnd(r.layers[l].views[o]) == EndAfter(p, o, l, |recs|)
  {
    hide Sane, MakeRoom, Placeable, Planned, AppendRows, Refill, Stamp, ClockEvent, NewToks, Extend;
    assert q.layers[l].views == p.layers[l].views && q.sessions == p.sessions && q.cfg == p.cfg;
    assert AppendPersistent(p, o, l, recs) == PlaceAppend(q, o, l, recs);
  }

  lemma AppendStep(p: Pool, o: nat, l: nat, recs: seq<Record>)
    requires Inv(p) && Exists(p, o, l) && Certified(p, o, l) && Allowed(p, Appended(o, l, recs)) && EndAfter(p, o, l, |recs|) <= p.cfg.slots
    ensures var r := AppendEither(p, o, l, recs);
      && Exists(r, o, l) && Certified(r, o, l) && r.cfg == p.cfg && r.sessions[o] == p.sessions[o]
      && HostEnd(r.layers[l].views[o]) == EndAfter(p, o, l, |recs|)
  {
    AppendCan(p, o, l, recs);
    hide Inv, Allowed, CanPersist, CanAppend;
    if p.layers[l].views[o].transientStart.None? {
      hide Certified;
      AppendCertifies(p, o, l, recs);
    } else {
      AppendTransientInv(p, o, l, recs);
      CertifiedSame(p, AppendTransient(p, o, l, recs), o, l);
    }
    hide AppendPersistent, AppendTransient;
  }

  lemma AppendCan(p: Pool, o: nat, l: nat, recs: seq<Record>)
    requires Inv(p) && Allowed(p, Appended(o, l, recs))
    ensures Exists(p, o, l) && CanAppend(p, o, l, |recs|)
    ensures p.layers[l].views[o].transientStart.None? ==> CanPersist(p, o, l, recs)
  {
    hide Inv, LeaseFree, DenseReady;
  }

  // ----- elsewhere

  /** Layer `l` has changed in host memory at most, and its session not at all. */
  ghost predicate Elsewhere(p: Pool, r: Pool, l: nat) {
    && l < |p.layers| && l < |r.layers| && r.cfg == p.cfg && r.sessions == p.sessions
    && r.layers[l] == p.layers[l].(host := r.layers[l].host)
  }

  lemma ElsewhereSame(p: Pool, r: Pool, o: nat, l: nat)
    requires Exists(p, o, l) && Elsewhere(p, r, l)
    ensures Same(p, r, o, l)
  {
  }

  lemma HostElsewhere(p: Pool, r: Pool, l: nat)
    requires OnlyHost(p, r) && l < |p.layers|
    ensures Elsewhere(p, r, l)
  {
  }

  lemma AppendElsewhere(p: Pool, o: nat, m: nat, recs: seq<Record>, l: nat)
    requires Sane(p) && Exists(p, o, m) && m != l && l < |p.layers|
    ensures Elsewhere(p, AppendEither(p, o, m, recs), l)
  {
    var q := PlannedPool(p, o, m, |recs|);
    HostElsewhere(q, MakeRoom(q, m), l);
    hide Sane, MakeRoom, Placeable, AppendAt, SettlePlan, AppendTransientAt;
  }

  lemma RecallElsewhere(p: Pool, o: nat, m: nat, idx: seq<int>, l: nat)
    requires Sane(p) && m != l && l < |p.layers|
    ensures Elsewhere(p, Ensure(p, o, m, idx), l)
  {
    hide Sane, EnsureAt, BeforeRecall, Readable, Toks, History;
  }

  lemma PrepareElsewhere(p: Pool, o: nat, m: nat, count: nat, limit: nat, native: bool, l: nat)
    requires Sane(p) && m != l && l < |p.layers|
    ensures Elsewhere(p, Prepare(p, o, m, count, limit, native), l)
  {
    hide Sane, PrepareAt, SkipAt, BeforePrepare, AllResident;
  }

  lemma FinalizeElsewhere(p: Pool, m: nat, l: nat)
    requires m < |p.layers| && InLayers(p) && p.layers[m].pending.Some? && Shaped(p.layers[m].store) && m != l && l < |p.layers|
    ensures Elsewhere(p, FinalizePool(p, m), l)
  {
    hide FinalizeAt, Drain;
  }

  lemma CutElsewhere(p: Pool, o: nat, m: nat, len: nat, l: nat)
    requires Sane(p) && m != l && l < |p.layers|
    ensures Elsewhere(p, CutTo(p, o, m, len), l)
  {
    hide Sane, TruncateAt, CloseAt, LeaseTo, Cuttable, Drain;
  }

  lemma DiscardElsewhere(p: Pool, o: nat, m: nat, l: nat)
    requires Sane(p) && m != l && l < |p.layers|
    ensures Elsewhere(p, Discard(p, o, m), l)
  {
    hide Sane, CloseAt, LeaseTo, DiscardAt, Drain;
  }

  lemma AbandonElsewhere(p: Pool, q: Pool, o: nat, m: nat, l: nat)
    requires OnlyHost(p, q) && m != l && l < |p.layers| && Exists(p, o, m)
    ensures Exists(q, o, m) && Elsewhere(p, Abandon(q, o, m), l)
  {
  }

  // ----- one action

  lemma DataStep(p: Pool, a: Action, o: nat, l: nat)
    requires Inv(p) && Sane(p) && Exists(p, o, l) && Certified(p, o, l) && Allowed(p, a) && Gentle(a, o, l)
    requires a.Recall? || a.Prepared?
    ensures Same(p, Accepted(p, a), o, l)
  {
    hide Inv, Sane, Same, Elsewhere, LeaseFree, StepBoundary, StepCut, AppendEither, Allocate, Release, Certified, Ensure, Prepare;
    match a
    case Recall(q, m, idx) =>
      if m == l { RecallSame(p, o, l, idx); } else { RecallElsewhere(p, q, m, idx, l); ElsewhereSame(p, Ensure(p, q, m, idx), o, l); }
    case Prepared(q, m, start, count, limit, native) =>
      if m == l { PrepareSame(p, o, l, start, count, limit, native); }
      else { PrepareElsewhere(p, q, m, count, limit, native, l); ElsewhereSame(p, Prepare(p, q, m, count, limit, native), o, l); }
  }

  lemma CommitStep(p: Pool, q: nat, m: nat, o: nat, l: nat)
    requires Sane(p) && Exists(p, o, l) && Allowed(p, Committed(q, m))
    ensures Same(p, Accepted(p, Committed(q, m)), o, l)
  {
    AcceptedCommit(p, q, m);
    CommitSame(p, q, m, o, l);
    hide Accepted, Same, PoolTransactions.Commit, Allowed;
  }

  lemma FinalizeStep(p: Pool, m: nat, o: nat, l: nat)
    requires Sane(p) && Exists(p, o, l) && Allowed(p, Finalized(m)) && m != l
    ensures Same(p, Accepted(p, Finalized(m)), o, l)
  {
    hide Same, Elsewhere, StepBoundary, StepCut, AppendEither, Allocate, Release, FinalizePool;
    FinalizeElsewhere(p, m, l);
    ElsewhereSame(p, FinalizePool(p, m), o, l);
  }

  lemma StreamStep(p: Pool, m: nat, logical: int, restart: bool, o: nat, l: nat)
    requires Sane(p) && Exists(p, o, l) && Allowed(p, Action.Streamed(m, logical, restart)) && m != l
    ensures Same(p, Accepted(p, Action.Streamed(m, logical, restart)), o, l)
  {
    StreamSame(p, m, logical, restart, o, l);
    hide Same, StepBoundary, StepCut, AppendEither, Allocate, Release, StreamAt;
  }

  lemma StreamSame(p: Pool, m: nat, logical: int, restart: bool, o: nat, l: nat)
    requires Sane(p) && Exists(p, o, l) && m < |p.layers| && m != l
    ensures Same(p, SetLayer(p, m, StreamAt(p.sessions, p.layers[m], logical, restart)), o, l)
  {
    hide StreamAt;
  }

  lemma CutStep(p: Pool, a: Action, o: nat, l: nat)
    requires Sane(p) && Exists(p, o, l) && Allowed(p, a) && Gentle(a, o, l)
    requires a.RolledBack? || a.Discarded? || a.Truncated?
    ensures Same(p, Accepted(p, a), o, l)
  {
    hide Sane, Same, Elsewhere, LeaseFree, StepBoundary, StepData, AppendEither, Allocate, Release, CutTo, Discard;
    match a
    case RolledBack(q, m) =>
      var len := if InStep(p, q, m) then p.layers[m].views[q].length else 0;
      CutElsewhere(p, q, m, len, l);
      DiscardElsewhere(p, q, m, l);
      ElsewhereSame(p, CutTo(p, q, m, len), o, l);
      ElsewhereSame(p, Discard(p, q, m), o, l);
    case Discarded(q, m) => DiscardElsewhere(p, q, m, l); ElsewhereSame(p, Discard(p, q, m), o, l);
    case Truncated(q, m, len) => CutElsewhere(p, q, m, len, l); ElsewhereSame(p, CutTo(p, q, m, len), o, l);
  }

  lemma RefusedSame(p: Pool, a: Action, o: nat, l: nat)
    requires Sane(p) && Exists(p, o, l) && !Allowed(p, a) && Gentle(a, o, l)
    ensures Same(p, Refused(p, a), o, l)
  {
    HostElsewhere(p, Drain(p), l);
    ElsewhereSame(p, Drain(p), o, l);
    if a.RolledBack? {
      if Exists(p, a.o, a.l) { AbandonElsewhere(p, Drain(p), a.o, a.l, l); ElsewhereSame(p, Abandon(Drain(p), a.o, a.l), o, l); }
      hide Drain, Abandon, Allowed, LeaseFree, Sane, Same, Elsewhere;
    } else {
      hide Drain, Allowed, LeaseFree, Sane, Elsewhere, CanAppend;
    }
  }

  /** A gentle action keeps a certified history certified, as long as it stays within the rows of the pool. */
  lemma GentleStep(p: Pool, a: Action, o: nat, l: nat)
    requires Inv(p) && Exists(p, o, l) && Certified(p, o, l) && Gentle(a, o, l)
    requires Allowed(p, a) && a.Appended? && a.o == o && a.l == l ==> EndAfter(p, o, l, |a.recs|) <= p.cfg.slots
    ensures var r := Step(p, a); Exists(r, o, l) && Certified(r, o, l) && r.cfg == p.cfg && r.sessions[o] == p.sessions[o]
  {
    InvSane(p);
    StepDoes(p, a);
    InvView(p, o, l);
    assert o < p.nextOwner;
    hide Inv, Sane, Step, Certified, Same, Elsewhere, EndAfter;
    if !Allowed(p, a) {
      RefusedSame(p, a, o, l);
      CertifiedSame(p, Refused(p, a), o, l);
      SameOf(p, Refused(p, a), o, l);
    } else if a.Appended? && a.l == l {
      AppendActs(p, o, l, a.recs);
    } else {
      OtherSteps(p, a, o, l);
      CertifiedSame(p, Accepted(p, a), o, l);
      SameOf(p, Accepted(p, a), o, l);
    }
  }

  lemma SameOf(p: Pool, r: Pool, o: nat, l: nat)
    requires Exists(p, o, l) && Same(p, r, o, l)
    ensures Exists(r, o, l) && r.cfg == p.cfg && r.sessions[o] == p.sessions[o]
  {
  }

  lemma AppendActs(p: Pool, o: nat, l: nat, recs: seq<Record>)
    requires Inv(p) && Sane(p) && Exists(p, o, l) && Certified(p, o, l) && Allowed(p, Appended(o, l, recs)) && EndAfter(p, o, l, |recs|) <= p.cfg.slots
    ensures var r := Accepted(p, Appended(o, l, recs)); Exists(r, o, l) && Certified(r, o, l) && r.cfg == p.cfg && r.sessions[o] == p.sessions[o]
  {
    AppendStep(p, o, l, recs);
    hide Inv, Certified, EndAfter;
    AcceptedAppend(p, o, l, recs);
    hide AppendEither, Accepted, Allowed, Sane;
  }

  lemma OtherSteps(p: Pool, a: Action, o: nat, l: nat)
    requires Inv(p) && Sane(p) && Exists(p, o, l) && Certified(p, o, l) && Allowed(p, a) && Gentle(a, o, l)
    requires ViewOK(p.cfg, p.sessions[o], p.layers[l].views[o]) && o < p.nextOwner && !(a.Appended? && a.l == l)
    ensures Same(p, Accepted(p, a), o, l)
  {
    hide Inv, Sane, Certified, Same, Allowed, Accepted;
    match a
    case Landed(_, _) => CopiesSame(p, a, o, l);
    case Reserved => CopiesSame(p, a, o, l);
    case Appended(q, m, recs) => AppendOther(p, q, m, recs, o, l);
    case Recall(_, _, _) => DataStep(p, a, o, l);
    case Prepared(_, _, _, _, _, _) => DataStep(p, a, o, l);
    case Streamed(m, logical, restart) => StreamStep(p, m, logical, restart, o, l);
    case Finalized(m) => FinalizeStep(p, m, o, l);
    case Committed(q, m) => CommitStep(p, q, m, o, l);
    case RolledBack(_, _) => CutStep(p, a, o, l);
    case Discarded(_, _) => CutStep(p, a, o, l);
    case Truncated(_, _, _) => CutStep(p, a, o, l);
    case Admitted(capacity, pages) => AdmitOther(p, capacity, pages, o, l);
    case _ => BoundarySame(p, a, o, l);
  }

  lemma AppendOther(p: Pool, q: nat, m: nat, recs: seq<Record>, o: nat, l: nat)
    requires Sane(p) && Exists(p, o, l) && Allowed(p, Appended(q, m, recs)) && m != l
    ensures Same(p, Accepted(p, Appended(q, m, recs)), o, l)
  {
    hide Sane, Same, Elsewhere, AppendEither, DenseReady, LeaseFree, StepBoundary, StepData, StepCut, Allocate, Release;
    AppendElsewhere(p, q, m, recs, l);
    ElsewhereSame(p, AppendEither(p, q, m, recs), o, l);
  }

  lemma AdmitOther(p: Pool, capacity: nat, pages: seq<nat>, o: nat, l: nat)
    requires Sane(p) && Exists(p, o, l) && Allowed(p, Admitted(capacity, pages)) && o < p.nextOwner
    ensures Same(p, Accepted(p, Admitted(capacity, pages)), o, l)
  {
    hide Sane, Same, AppendEither, StepBoundary, StepData, StepCut, Allocate, Release;
    AdmitSame(p, capacity, pages, o, l);
  }

  // ----- runs

  /** Every action of the run is gentle, and the history stays within the rows of the pool. */
  ghost predicate LeftAlone(p: Pool, acts: seq<Action>, o: nat, l: nat)
    decreases |acts|
  {
    acts != [] ==>
      && Gentle(acts[0], o, l) && !Torn(p, acts[0])
      && (Exists(p, o, l) && Allowed(p, acts[0]) && acts[0].Appended? && acts[0].o == o && acts[0].l == l ==>
            EndAfter(p, o, l, |acts[0].recs|) <= p.cfg.slots)
      && LeftAlone(Step(p, acts[0]), acts[1..], o, l)
  }

  /** A session left alone on a layer since its history was empty: the whole history stays certified. */
  lemma {:induction false} LeftAloneCertified(p: Pool, acts: seq<Action>, o: nat, l: nat)
    requires Inv(p) && Exists(p, o, l) && Certified(p, o, l) && LeftAlone(p, acts, o, l)
    ensures var r := Run(p, acts); Inv(r) && Exists(r, o, l) && Certified(r, o, l) && r.cfg == p.cfg && r.sessions[o] == p.sessions[o]
    decreases |acts|
  {
    if acts != [] {
      hide Inv, Step, Certified, EndAfter, Torn, Allowed, Gentle;
      GentleStep(p, acts[0], o, l);
      StepInv(p, acts[0]);
      LeftAloneCertified(Step(p, acts[0]), acts[1..], o, l);
    }
  }

  /** In a dense pool such a session is never refused an append that its step and its capacity have room for. */
  lemma DenseNeverRefuses(p: Pool, acts: seq<Action>, o: nat, l: nat, recs: seq<Record>)
    requires Inv(p) && Exists(p, o, l) && Certified(p, o, l) && LeftAlone(p, acts, o, l)
    requires p.cfg.dense && p.sessions[o].capacity <= p.cfg.slots
    ensures var r := Run(p, acts); Allowed(r, Appended(o, l, recs)) <==> CanAppend(r, o, l, |recs|)
  {
    LeftAloneCertified(p, acts, o, l);
    hide Run, LeftAlone, Inv;
    CertifiedAppends(Run(p, acts), o, l, recs);
  }

  lemma CertifiedAppends(r: Pool, o: nat, l: nat, recs: seq<Record>)
    requires Inv(r) && Exists(r, o, l) && Certified(r, o, l) && r.cfg.dense && r.sessions[o].capacity <= r.cfg.slots
    ensures Allowed(r, Appended(o, l, recs)) <==> CanAppend(r, o, l, |recs|)
  {
    InvView(r, o, l);
    hide Inv, LeaseFree;
  }
}
