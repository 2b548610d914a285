/** Whole runs of the shared pool: every interleaving of sessions, layers and landing copies. */
module PoolRuns {
  import opened TokenTypes
  import opened Ranking
  import opened TokenStore
  import opened TokenPool
  import opened PoolWritebacks
  import opened PoolTransactions
  import opened PoolAppend
  import opened PoolRecall
  import opened PoolPrefetch
  import opened PoolSessions

  datatype Action =
    | Landed(copy: nat, cell: nat)
    | Opened(o: nat, l: nat)
    | Closed
    | Reserved
    | Began(o: nat, l: nat, count: nat)
    | BeganTransient(o: nat, l: nat, count: nat)
    | Declared(o: nat, l: nat, end: nat)
    | Appended(o: nat, l: nat, recs: seq<Record>)
    | Recall(o: nat, l: nat, idx: seq<int>)
    | Prepared(o: nat, l: nat, start: nat, count: nat, limit: nat, native: bool)
    | Streamed(l: nat, logical: int, restart: bool)
    | Finalized(l: nat)
    | Committed(o: nat, l: nat)
    | RolledBack(o: nat, l: nat)
    | Discarded(o: nat, l: nat)
    | Truncated(o: nat, l: nat, len: nat)
    | Admitted(capacity: nat, pages: seq<nat>)
    | Dismissed(o: nat)

  /** What an action does to the specification: one sequence grows, is cut, starts or ends. */
  datatype Effect = Nothing | Grow(l: nat, o: nat, recs: seq<Record>) | Cut(l: nat, o: nat, len: nat) | Born(o: nat) | Gone(o: nat)

  // ----- prefetch on the whole pool

  function BeforePrepare(p: Pool, o: nat, l: nat): (r: Pool)
    requires Exists(p, o, l) && InLayers(p) && p.cfg.maxWrites >= 1
    ensures OnlyHost(Leased(p, o, l), r)
  {
    var q := Leased(p, o, l);
    if AllResident(q.cfg, q.sessions, q.layers[l], o) then (if AtLimit(q.layers[l].store, q.cfg.limit) then Drain(q) else q)
    else WaitHost(q, o, l)
  }

  ghost function Prepare(p: Pool, o: nat, l: nat, count: nat, limit: nat, native: bool): Pool {
    if !Sane(p) || !Exists(p, o, l) then p
    else
      var q := BeforePrepare(p, o, l);
      var ly := q.layers[l];
      SetLayer(q, l, if AllResident(q.cfg, q.sessions, ly, o) then SkipAt(ly, q.cfg.limit)
                     else PrepareAt(q.cfg, ly, o, count, limit, Bounded(p, o, l, count, native)))
  }

  lemma PrepareInvPool(p: Pool, o: nat, l: nat, start: nat, count: nat, limit: nat, native: bool)
    requires Inv(p) && CanPrepare(p, o, l, start, count)
    ensures Inv(Prepare(p, o, l, count, limit, native)) && SameLogical(p, Prepare(p, o, l, count, limit, native))
  {
    PrepareOpen(p, o, l, start, count);
    PrepareView(p, o, l, start, count);
    PrepareReady(p, o, l, start, count);
    hide Inv, LayerInv, CanPrepare, LeaseFree, BeforePrepare, AllResident;
    var q := BeforePrepare(p, o, l);
    InvLayer(q, l);
    var ly := q.layers[l];
    if AllResident(q.cfg, q.sessions, ly, o) {
      SkipInv(q.cfg, q.sessions, ly, q.writes, l, q.cfg.limit);
      PrepareStep(p, q, o, l, SkipAt(ly, q.cfg.limit));
    } else {
      var bounded := Bounded(p, o, l, count, native);
      BoundedLeavesRoom(q.cfg, q.sessions, ly, o, bounded);
      PrepareInv(q.cfg, q.sessions, ly, q.writes, l, o, count, limit, bounded);
      PrepareStep(p, q, o, l, PrepareAt(q.cfg, ly, o, count, limit, bounded));
    }
  }

  lemma PrepareOpen(p: Pool, o: nat, l: nat, start: nat, count: nat)
    requires CanPrepare(p, o, l, start, count)
    ensures Exists(p, o, l) && (forall m :: 0 <= m < |p.layers| ==> p.layers[m].pending.None?)
    ensures p.active.Some? ==> p.active == Some((o, l))
    ensures p.layers[l].views[o].stepEnd.Some? && (p.layers[l].views[o].transientStart.None? ==> count <= p.cfg.slots)
  {
    NoPending(p, o, l);
  }

  /** Leased and, unless the whole history is resident, without own copies in flight. */
  lemma PrepareReady(p: Pool, o: nat, l: nat, start: nat, count: nat)
    requires Inv(p) && CanPrepare(p, o, l, start, count) && Exists(p, o, l)
    ensures Sane(p) && OnlyHost(Leased(p, o, l), BeforePrepare(p, o, l)) && Inv(BeforePrepare(p, o, l))
    ensures var q := BeforePrepare(p, o, l);
      !AllResident(q.cfg, q.sessions, q.layers[l], o) ==> forall i: nat :: !InFlight(q.writes, l, o, i)
  {
    InvSane(p);
    LeasedInv(p, o, l);
    hide Inv, CanPrepare, LeaseFree, AllResident;
    var q0, q := Leased(p, o, l), BeforePrepare(p, o, l);
    if AllResident(q0.cfg, q0.sessions, q0.layers[l], o) {
      if AtLimit(q0.layers[l].store, q0.cfg.limit) { DrainInv(q0); }
    } else {
      WaitHostInv(q0, o, l);
    }
    AllResidentSame(q0.cfg, q0.sessions, q0.layers[l], q.layers[l], o);
  }

  /** The bounded path is taken only with something to fetch, so its 64 claims and its one query fit. */
  lemma BoundedLeavesRoom(cfg: Config, ss: map<nat, Session>, ly: Layer, o: nat, bounded: bool)
    requires o in ss && o in ly.views && !AllResident(cfg, ss, ly, o)
    requires bounded ==> HostEnd(ly.views[o]) + 64 <= cfg.slots
    ensures bounded ==> 64 + 1 <= cfg.slots
  {
  }

  lemma PrepareView(p: Pool, o: nat, l: nat, start: nat, count: nat)
    requires Inv(p) && CanPrepare(p, o, l, start, count)
    ensures p.layers[l].views[o].written < p.layers[l].views[o].stepEnd.value
  {
    assert LayerInv(p.cfg, p.sessions, p.layers[l], p.writes, l);
    assert ViewOK(p.cfg, p.sessions[o], p.layers[l].views[o]);
  }

  lemma AllResidentSame(cfg: Config, ss: map<nat, Session>, a: Layer, b: Layer, o: nat)
    requires o in ss && o in a.views && b == a.(host := b.host)
    ensures AllResident(cfg, ss, a, o) == AllResident(cfg, ss, b, o)
  {
  }

  lemma PrepareStep(p: Pool, q: Pool, o: nat, l: nat, r: Layer)
    requires Inv(q) && l < |p.layers| && OnlyHost(Leased(p, o, l), q) && LayerInv(q.cfg, q.sessions, r, q.writes, l)
    requires r.views == q.layers[l].views && r.arena == q.layers[l].arena && r.proofs.lease == Some(o)
    requires forall m :: 0 <= m < |p.layers| ==> p.layers[m].pending.None?
    requires p.active.Some? ==> p.active == Some((o, l))
    ensures Inv(SetLayer(q, l, r)) && SameLogical(p, SetLayer(q, l, r))
  {
    hide LayerInv;
    LayerStepInv(q, l, r);
    hide Inv;
    forall m, x | 0 <= m < |p.layers| && x in p.layers[m].views
      ensures x in SetLayer(q, l, r).layers[m].views
      ensures Logical(p.sessions, SetLayer(q, l, r).layers[m], x) == Logical(p.sessions, p.layers[m], x)
    {
      LogicalSame(p.sessions, p.layers[m], SetLayer(q, l, r).layers[m], x);
    }
  }

  /** A step that keeps a layer's views and arena keeps every sequence. */
  lemma QuietStep(p: Pool, l: nat, r: Layer)
    requires l < |p.layers| && r.arena == p.layers[l].arena
    requires forall q :: q in p.layers[l].views ==>
      q in r.views && HostEnd(r.views[q]) == HostEnd(p.layers[l].views[q]) && r.views[q].tail == p.layers[l].views[q].tail
    ensures SameLogical(p, SetLayer(p, l, r))
  {
    forall m, x | 0 <= m < |p.layers| && x in p.layers[m].views
      ensures Logical(p.sessions, SetLayer(p, l, r).layers[m], x) == Logical(p.sessions, p.layers[m], x)
    {
      LogicalSame(p.sessions, p.layers[m], SetLayer(p, l, r).layers[m], x);
    }
  }

  lemma CandidateStep(p: Pool, l: nat, logical: int, restart: bool)
    requires Inv(p) && l < |p.layers| && p.layers[l].pending.Some? && Shaped(p.layers[l].store)
    requires |p.layers[l].store.h2d| == |p.layers[l].host|
    ensures Inv(SetLayer(p, l, StreamAt(p.sessions, p.layers[l], logical, restart)))
    ensures SameLogical(p, SetLayer(p, l, StreamAt(p.sessions, p.layers[l], logical, restart)))
  {
    hide LayerInv;
    StreamInv(p.cfg, p.sessions, p.layers[l], p.writes, l, logical, restart);
    var r := StreamAt(p.sessions, p.layers[l], logical, restart);
    LayerStepInv(p, l, r);
    QuietStep(p, l, r);
  }

  function FinalizePool(p: Pool, l: nat): Pool
    requires l < |p.layers| && InLayers(p) && p.layers[l].pending.Some? && Shaped(p.layers[l].store)
  {
    var q := if AtLimit(p.layers[l].store, p.cfg.limit) then Drain(p) else p;
    SetLayer(q, l, FinalizeAt(q.layers[l], q.cfg.limit))
  }

  lemma FinalizePoolInv(p: Pool, l: nat)
    requires Inv(p) && l < |p.layers| && InLayers(p) && p.layers[l].pending.Some? && Shaped(p.layers[l].store)
    ensures Inv(FinalizePool(p, l)) && SameLogical(p, FinalizePool(p, l))
  {
    hide Inv;
    hide LayerInv;
    DrainInv(p);
    OnlyHostSame(p, Drain(p));
    FinalizeStep(if AtLimit(p.layers[l].store, p.cfg.limit) then Drain(p) else p, l);
  }

  lemma FinalizeStep(q: Pool, l: nat)
    requires Inv(q) && l < |q.layers| && q.layers[l].pending.Some? && Shaped(q.layers[l].store)
    ensures var r := SetLayer(q, l, FinalizeAt(q.layers[l], q.cfg.limit)); Inv(r) && SameLogical(q, r)
  {
    hide LayerInv;
    FinalizeInv(q.cfg, q.sessions, q.layers[l], q.writes, l, q.cfg.limit);
    var r := FinalizeAt(q.layers[l], q.cfg.limit);
    LayerStepInv(q, l, r);
    hide Inv;
    QuietStep(q, l, r);
  }

  // ----- steps, effects and runs

  /** The source accepts the action in this state. */
  ghost predicate Allowed(p: Pool, a: Action) {
    match a
    case Landed(k, j) => k < |p.writes| && p.writes[k].layer < |p.layers| && j < |p.writes[k].source|
    case Opened(o, l) => Exists(p, o, l) && LeaseFree(p, o, l)
    case Closed => true
    case Reserved => true
    case Began(o, l, count) => CanBegin(p, o, l, count)
    case BeganTransient(o, l, count) => CanBeginTransient(p, o, l, count)
    case Declared(o, l, end) => CanDeclare(p, o, l, end)
    case Appended(o, l, recs) =>
      CanAppend(p, o, l, |recs|) &&
      (p.layers[l].views[o].transientStart.None? ==>
         DenseReady(p.cfg, p.sessions, LeaseTo(p.layers[l], o), o, p.layers[l].views[o].written, |recs|))
    case Recall(o, l, idx) => CanEnsure(p, o, l, idx)
    case Prepared(o, l, start, count, limit, native) => CanPrepare(p, o, l, start, count)
    case Streamed(l, logical, restart) => l < |p.layers| && p.layers[l].pending.Some?
    case Finalized(l) => l < |p.layers| && p.layers[l].pending.Some?
    case Committed(o, l) => CanCommit(p, o, l)
    case RolledBack(o, l) => CanRollback(p, o, l) || CanDiscard(p, o, l)
    case Discarded(o, l) => CanDiscard(p, o, l)
    case Truncated(o, l, len) => CanTruncate(p, o, l, len)
    case Admitted(capacity, pages) => CanAllocate(p, capacity, pages)
    case Dismissed(o) => CanRelease(p, o)
  }

  lemma PoolFacts(p: Pool)
    requires Inv(p)
    ensures Sane(p) && InLayers(p) && p.cfg.maxWrites >= 1
    ensures forall l :: 0 <= l < |p.layers| ==> Shaped(p.layers[l].store) && |p.layers[l].store.h2d| == |p.layers[l].host|
  {
    InvSane(p);
  }

  ghost function AppendEither(p: Pool, o: nat, l: nat, recs: seq<Record>): Pool
    requires Exists(p, o, l)
  {
    if p.layers[l].views[o].transientStart.None? then AppendPersistent(p, o, l, recs)
    else if p.cfg.slots + 1 + |p.layers[l].views[o].tail| + |recs| <= |p.layers[l].store.rows| then AppendTransient(p, o, l, recs)
    else p
  }

  /** Operation leases and step boundaries. */
  ghost function StepBoundary(p: Pool, a: Action): Pool
    requires Sane(p) && Allowed(p, a) && (a.Opened? || a.Closed? || a.Began? || a.BeganTransient? || a.Declared?)
  {
    hide LeaseFree;
    match a
    case Opened(o, l) => Enter(p, o, l)
    case Closed => Exit(p)
    case Began(o, l, count) => BeginStep(p, o, l, count)
    case BeganTransient(o, l, count) => BeginTransient(p, o, l, count)
    case Declared(o, l, end) => DeclareVisible(p, o, l, end)
  }

  /** Recall, prefetch and writeback actions. */
  ghost function StepData(p: Pool, a: Action): Pool
    requires Sane(p) && Allowed(p, a)
    requires (a.Landed? || a.Reserved? || a.Recall? || a.Prepared? || a.Streamed? || a.Finalized? || a.Committed?)
  {
    hide LeaseFree;
    match a
    case Landed(k, j) => LandCell(p, k, j)
    case Reserved => Reap(p, true)
    case Recall(o, l, idx) => Ensure(p, o, l, idx)
    case Prepared(o, l, start, count, limit, native) => Prepare(p, o, l, count, limit, native)
    case Streamed(l, logical, restart) => SetLayer(p, l, StreamAt(p.sessions, p.layers[l], logical, restart))
    case Finalized(l) => FinalizePool(p, l)
    case Committed(o, l) => Commit(p, o, l)
  }

  /** Truncation-like actions. */
  ghost function StepCut(p: Pool, a: Action): Pool
    requires Allowed(p, a) && (a.RolledBack? || a.Discarded? || a.Truncated?)
  {
    hide LeaseFree;
    match a
    case RolledBack(o, l) => if InStep(p, o, l) then CutTo(p, o, l, p.layers[l].views[o].length) else Discard(p, o, l)
    case Discarded(o, l) => Discard(p, o, l)
    case Truncated(o, l, len) => CutTo(p, o, l, len)
  }

  /** The work of an accepted action. */
  ghost function Accepted(p: Pool, a: Action): Pool
    requires Sane(p) && Allowed(p, a)
  {
    hide Sane, LeaseFree;
    match a
    case Appended(o, l, recs) => AppendEither(p, o, l, recs)
    case Admitted(capacity, pages) => Allocate(p, capacity, pages)
    case Dismissed(o) => Release(p, o)
    case RolledBack(_, _) => StepCut(p, a)
    case Discarded(_, _) => StepCut(p, a)
    case Truncated(_, _, _) => StepCut(p, a)
    case Opened(_, _) => StepBoundary(p, a)
    case Closed => StepBoundary(p, a)
    case Began(_, _, _) => StepBoundary(p, a)
    case BeganTransient(_, _, _) => StepBoundary(p, a)
    case Declared(_, _, _) => StepBoundary(p, a)
    case _ => StepData(p, a)
  }

  lemma AcceptedCommit(p: Pool, o: nat, l: nat)
    requires Sane(p) && Allowed(p, Committed(o, l))
    ensures CanCommit(p, o, l) && Accepted(p, Committed(o, l)) == Commit(p, o, l)
  {
    hide Sane, Commit, StepBoundary, StepCut, AppendEither, Allocate, Release, LeaseFree;
  }

  lemma AcceptedAppend(p: Pool, o: nat, l: nat, recs: seq<Record>)
    requires Sane(p) && Allowed(p, Appended(o, l, recs))
    ensures Exists(p, o, l) && Accepted(p, Appended(o, l, recs)) == AppendEither(p, o, l, recs)
  {
    hide Sane, AppendEither, DenseReady, LeaseFree, StepBoundary, StepData, StepCut, Allocate, Release;
  }

  /** What a refused action has done before it raises: most check first, some have drained, taken a lease or closed a step. */
  ghost function Refused(p: Pool, a: Action): Pool
    requires Sane(p)
  {
    match a
    case RolledBack(o, l) =>
      if InStep(p, o, l) then (if OwnPrefetch(p, o, l) then Drain(p) else Abandon(Drain(p), o, l))
      else if Exists(p, o, l) && p.layers[l].candidate == Some(o) then Drain(p) else p
    case Discarded(o, l) => if Exists(p, o, l) && p.layers[l].candidate == Some(o) then Drain(p) else p
    case Truncated(o, l, len) =>
      if Exists(p, o, l) && p.layers[l].views[o].stepEnd.None? && len <= p.layers[l].views[o].length then Drain(p) else p
    case Dismissed(o) => if o in p.sessions && p.active.None? then Drain(p) else p
    case Appended(o, l, _) => if CanAppend(p, o, l, |a.recs|) then Leased(p, o, l) else p
    case _ => p
  }

  /** What a refused rollback leaves. */
  lemma RolledRefused(p: Pool, o: nat, l: nat)
    requires Sane(p)
    ensures InLayers(p) && (Exists(p, o, l) ==> Exists(Drain(p), o, l))
    ensures Refused(p, RolledBack(o, l)) ==
      if InStep(p, o, l) then (if OwnPrefetch(p, o, l) then Drain(p) else Abandon(Drain(p), o, l))
      else if Exists(p, o, l) && p.layers[l].candidate == Some(o) then Drain(p) else p
  {
    hide Abandon;
  }

  /** A refused discard, truncation or release has drained or done nothing; other refusals do nothing. */
  ghost predicate Drains(p: Pool, a: Action) {
    match a
    case Discarded(o, l) => Exists(p, o, l) && p.layers[l].candidate == Some(o)
    case Truncated(o, l, len) => Exists(p, o, l) && p.layers[l].views[o].stepEnd.None? && len <= p.layers[l].views[o].length
    case Dismissed(o) => o in p.sessions && p.active.None?
    case _ => false
  }

  lemma RefusedIs(p: Pool, a: Action)
    requires Sane(p) && !a.RolledBack? && !a.Appended?
    ensures InLayers(p) && Refused(p, a) == if Drains(p, a) then Drain(p) else p
  {
  }

  /** One action, accepted or refused. */
  ghost function Step(p: Pool, a: Action): Pool {
    if !Sane(p) then p else if Allowed(p, a) then Accepted(p, a) else Refused(p, a)
  }

  lemma StepDoes(p: Pool, a: Action)
    requires Sane(p)
    ensures Step(p, a) == if Allowed(p, a) then Accepted(p, a) else Refused(p, a)
  {
    hide Sane, Allowed, Accepted, Refused;
  }

  /** An accepted action does its work. */
  lemma StepIs(p: Pool, a: Action)
    requires Inv(p) && Allowed(p, a)
    ensures Sane(p) && Step(p, a) == Accepted(p, a)
  {
    InvSane(p);
    hide Inv, Allowed, Accepted, Refused;
  }

  /** A rollback that is refused after it has closed a step with records in it. */
  ghost predicate Torn(p: Pool, a: Action) {
    && a.RolledBack? && InStep(p, a.o, a.l) && !LeaseFree(p, a.o, a.l) && !OwnPrefetch(p, a.o, a.l)
    && p.layers[a.l].views[a.o].length < p.layers[a.l].views[a.o].written
  }

  lemma TruncateOpen(p: Pool, o: nat, l: nat, len: nat)
    requires Inv(p) && CanTruncate(p, o, l, len)
    ensures p.layers[l].views[o].transientStart.None?
  {
    assert LayerInv(p.cfg, p.sessions, p.layers[l], p.writes, l);
    assert ViewOK(p.cfg, p.sessions[o], p.layers[l].views[o]);
  }

  ghost function EffectOf(p: Pool, a: Action): Effect {
    if !Allowed(p, a) then Nothing
    else
      match a
      case Appended(o, l, recs) => Grow(l, o, recs)
      case RolledBack(o, l) => Cut(l, o, p.layers[l].views[o].length)
      case Discarded(o, l) => Cut(l, o, p.layers[l].views[o].length)
      case Truncated(o, l, len) => Cut(l, o, len)
      case Admitted(_, _) => Born(p.nextOwner)
      case Dismissed(o) => Gone(o)
      case _ => Nothing
  }

  /** The step changed the sequences exactly as the effect says. */
  ghost predicate Realizes(p: Pool, r: Pool, e: Effect) {
    && |r.layers| == |p.layers|
    && match e
       case Nothing => r.sessions == p.sessions && SameLogical(p, r)
       case Grow(l, o, recs) =>
         r.sessions == p.sessions && l < |p.layers| && o in p.layers[l].views && o in r.layers[l].views
         && Logical(r.sessions, r.layers[l], o) == Logical(p.sessions, p.layers[l], o) + recs && SameLogicalBut(p, r, l, o)
       case Cut(l, o, len) =>
         r.sessions == p.sessions && l < |p.layers| && o in p.layers[l].views && o in r.layers[l].views
         && len <= |Logical(p.sessions, p.layers[l], o)|
         && Logical(r.sessions, r.layers[l], o) == Logical(p.sessions, p.layers[l], o)[..len] && SameLogicalBut(p, r, l, o)
       case Born(o) =>
         o !in p.sessions && r.sessions.Keys == p.sessions.Keys + {o} && SameLogical(p, r)
         && forall l :: 0 <= l < |p.layers| ==> o in r.layers[l].views && Logical(r.sessions, r.layers[l], o) == []
       case Gone(o) =>
         r.sessions.Keys == p.sessions.Keys - {o}
         && forall l, q :: 0 <= l < |p.layers| && q in p.layers[l].views && q != o ==>
              q in r.layers[l].views && Logical(r.sessions, r.layers[l], q) == Logical(p.sessions, p.layers[l], q)
  }

  // ----- every action keeps the invariant and realizes its effect

  lemma BoundarySteps(p: Pool, a: Action)
    requires Sane(p) && Inv(p) && Allowed(p, a)
    requires a.Opened? || a.Closed? || a.Began? || a.BeganTransient? || a.Declared?
    ensures Inv(Accepted(p, a)) && Accepted(p, a).sessions == p.sessions && SameLogical(p, Accepted(p, a))
  {
    hide Inv, StepData, StepCut, AppendEither, Allocate, Release, CanEnsure, CanPrepare, CanAllocate, CanRelease, DenseReady;
    hide LeaseFree;
    match a
    case Opened(o, l) => EnterBoth(p, o, l); QuietStep(p, l, LeaseTo(p.layers[l], o));
    case Closed => ExitInv(p);
    case Began(o, l, count) => BeginStepInv(p, o, l, count); BeginQuiet(p, o, l); QuietStep(p, l, BeginStep(p, o, l, count).layers[l]);
    case BeganTransient(o, l, count) =>
      BeginTransientInv(p, o, l, count);
      BeginQuiet(p, o, l);
      QuietStep(p, l, BeginTransient(p, o, l, count).layers[l]);
    case Declared(o, l, end) => DeclareVisibleInv(p, o, l, end); QuietStep(p, l, DeclareVisible(p, o, l, end).layers[l]);
  }

  lemma EnterBoth(p: Pool, o: nat, l: nat)
    requires Inv(p) && Exists(p, o, l) && LeaseFree(p, o, l)
    ensures Inv(Enter(p, o, l))
  {
    EnterInv(p, o, l);
  }

  lemma ExitInv(p: Pool)
    requires Inv(p)
    ensures Inv(Exit(p))
  {
    hide LayerInv;
  }

  lemma BeginQuiet(p: Pool, o: nat, l: nat)
    requires Inv(p) && Exists(p, o, l) && p.layers[l].views[o].stepEnd.None?
    ensures var v := p.layers[l].views[o]; v.transientStart.None? && v.written == v.length && v.tail == []
  {
    assert LayerInv(p.cfg, p.sessions, p.layers[l], p.writes, l);
    assert ViewOK(p.cfg, p.sessions[o], p.layers[l].views[o]);
  }

  lemma CopySteps(p: Pool, a: Action)
    requires Sane(p) && Inv(p) && Allowed(p, a) && (a.Landed? || a.Reserved?)
    ensures Inv(Accepted(p, a)) && Accepted(p, a).sessions == p.sessions && SameLogical(p, Accepted(p, a))
  {
    hide Inv, StepBoundary, StepCut, AppendEither, Allocate, Release;
    hide SameLogical;
    match a
    case Landed(k, j) => LandCellInv(p, k, j); OnlyHostSame(p, LandCell(p, k, j));
    case Reserved => ReapInv(p, true); OnlyHostSame(p, Reap(p, true));
  }

  lemma CommitStep(p: Pool, o: nat, l: nat)
    requires Inv(p) && InLayers(p) && CanCommit(p, o, l)
    ensures Inv(Commit(p, o, l)) && Commit(p, o, l).sessions == p.sessions && SameLogical(p, Commit(p, o, l))
  {
    hide Inv;
    CommitInv(p, o, l);
    OnlyHostSame(p, Drain(p));
    var q := Drain(p);
    QuietStep(q, l, Commit(p, o, l).layers[l]);
    hide Logical;
  }

  lemma CommitSteps(p: Pool, a: Action)
    requires Sane(p) && Inv(p) && Allowed(p, a) && a.Committed?
    ensures Inv(Accepted(p, a)) && Accepted(p, a).sessions == p.sessions && SameLogical(p, Accepted(p, a))
  {
    hide Inv, StepBoundary, StepCut, AppendEither, Allocate, Release;
    hide SameLogical;
    CommitStep(p, a.o, a.l);
  }

  lemma PrepareSteps(p: Pool, a: Action)
    requires Sane(p) && Inv(p) && Allowed(p, a) && a.Prepared?
    ensures Inv(Accepted(p, a)) && Accepted(p, a).sessions == p.sessions && SameLogical(p, Accepted(p, a))
  {
    hide Inv, StepBoundary, StepCut, AppendEither, Allocate, Release;
    hide SameLogical;
    hide LeaseFree;
    PrepareInvPool(p, a.o, a.l, a.start, a.count, a.limit, a.native);
  }

  lemma StreamSteps(p: Pool, a: Action)
    requires Sane(p) && Inv(p) && Allowed(p, a) && a.Streamed?
    ensures Inv(Accepted(p, a)) && Accepted(p, a).sessions == p.sessions && SameLogical(p, Accepted(p, a))
  {
    hide Inv, StepBoundary, StepCut, AppendEither, Allocate, Release;
    hide SameLogical;
    hide StreamAt;
    CandidateStep(p, a.l, a.logical, a.restart);
  }

  lemma FinalizeSteps(p: Pool, a: Action)
    requires Sane(p) && Inv(p) && Allowed(p, a) && a.Finalized?
    ensures Inv(Accepted(p, a)) && Accepted(p, a).sessions == p.sessions && SameLogical(p, Accepted(p, a))
  {
    hide Inv, StepBoundary, StepCut, AppendEither, Allocate, Release;
    hide SameLogical;
    hide FinalizeAt;
    FinalizePoolInv(p, a.l);
  }

  lemma WriteSteps(p: Pool, a: Action)
    requires Sane(p) && Inv(p) && Allowed(p, a) && (a.Appended? || a.Recall?)
    ensures Inv(Accepted(p, a)) && Realizes(p, Accepted(p, a), EffectOf(p, a))
  {
    hide Inv, StepBoundary, StepCut, Allocate, Release, AppendPersistent, Ensure;
    hide SameLogical;
    hide SameLogicalBut;
    hide Logical;
    hide DenseReady;
    hide LeaseFree;
    match a
    case Appended(o, l, recs) =>
      if p.layers[l].views[o].transientStart.None? {
        AppendPersistentInv(p, o, l, recs);
        AppendPersistentMeaning(p, o, l, recs);
      } else {
        AppendTransientInv(p, o, l, recs);
      }
    case Recall(o, l, idx) => EnsureInv(p, o, l, idx);
  }

  lemma RollbackSteps(p: Pool, a: Action)
    requires Sane(p) && Inv(p) && Allowed(p, a) && a.RolledBack?
    ensures Inv(Accepted(p, a)) && Realizes(p, Accepted(p, a), EffectOf(p, a))
  {
    hide Inv, StepBoundary, StepData, AppendEither, Allocate, Release, CutTo, Discard, Sane;
    hide SameLogicalBut;
    hide Logical;
    hide LeaseFree;
    if InStep(p, a.o, a.l) {
      RollbackLength(p, a.o, a.l);
      CutToInv(p, a.o, a.l, p.layers[a.l].views[a.o].length);
    } else {
      DiscardInv(p, a.o, a.l);
    }
  }

  lemma RollbackLength(p: Pool, o: nat, l: nat)
    requires Inv(p) && Exists(p, o, l)
    ensures p.layers[l].views[o].length <= p.layers[l].views[o].written
  {
    assert LayerInv(p.cfg, p.sessions, p.layers[l], p.writes, l);
    assert ViewOK(p.cfg, p.sessions[o], p.layers[l].views[o]);
  }

  lemma TruncateSteps(p: Pool, a: Action)
    requires Sane(p) && Inv(p) && Allowed(p, a) && a.Truncated?
    ensures Inv(Accepted(p, a)) && Realizes(p, Accepted(p, a), EffectOf(p, a))
  {
    hide Inv, StepBoundary, StepData, AppendEither, Allocate, Release, CutTo, Discard, Sane;
    hide SameLogicalBut;
    hide Logical;
    hide LeaseFree;
    TruncateOpen(p, a.o, a.l, a.len);
    CutToInv(p, a.o, a.l, a.len);
  }

  lemma DiscardSteps(p: Pool, a: Action)
    requires Sane(p) && Inv(p) && Allowed(p, a) && a.Discarded?
    ensures Inv(Accepted(p, a)) && Realizes(p, Accepted(p, a), EffectOf(p, a))
  {
    hide Inv, StepBoundary, StepData, AppendEither, Allocate, Release, CutTo, Discard, Sane;
    hide SameLogicalBut;
    hide Logical;
    hide LeaseFree;
    DiscardInv(p, a.o, a.l);
  }

  lemma SessionSteps(p: Pool, a: Action)
    requires Sane(p) && Inv(p) && Allowed(p, a) && (a.Admitted? || a.Dismissed?)
    ensures Inv(Accepted(p, a)) && Realizes(p, Accepted(p, a), EffectOf(p, a))
  {
    assert p.nextOwner !in p.sessions;
    hide Inv, StepBoundary, StepData, StepCut, AppendEither;
    hide SameLogical;
    hide SameLogicalBut;
    hide Logical;
    match a
    case Admitted(capacity, pages) => AllocateInv(p, capacity, pages);
    case Dismissed(o) => ReleaseInv(p, o);
  }

  /** What a step that changes no sequence keeps. */
  ghost predicate Quiet(p: Pool, r: Pool) {
    Inv(r) && r.sessions == p.sessions && SameLogical(p, r)
  }

  lemma AbandonSteps(p: Pool, o: nat, l: nat)
    requires Inv(p) && InStep(p, o, l) && !OwnPrefetch(p, o, l) && p.writes == []
    requires p.layers[l].views[o].written == p.layers[l].views[o].length
    ensures Quiet(p, Abandon(p, o, l))
  {
    AbandonInv(p, o, l);
    hide Inv;
    QuietStep(p, l, Abandon(p, o, l).layers[l]);
  }

  lemma LeasedSteps(p: Pool, o: nat, l: nat, count: nat)
    requires Inv(p) && CanAppend(p, o, l, count)
    ensures Quiet(p, Leased(p, o, l))
  {
    LeasedInv(p, o, l);
    hide Inv;
    QuietStep(p, l, LeaseTo(p.layers[l], o));
  }

  lemma DrainSteps(p: Pool)
    requires Inv(p) && InLayers(p)
    ensures Quiet(p, Drain(p)) && Quiet(p, p)
  {
    DrainInv(p);
    hide Inv;
    OnlyHostSame(p, Drain(p));
    QuietNothing(p);
  }

  lemma QuietAfter(p: Pool, q: Pool, r: Pool)
    requires Quiet(p, q) && Quiet(q, r)
    ensures Quiet(p, r)
  {
    hide Inv, Logical;
  }

  lemma RefusedRolls(p: Pool, o: nat, l: nat)
    requires Sane(p) && Inv(p) && Quiet(p, Drain(p)) && Quiet(p, p)
    requires InStep(p, o, l) && !OwnPrefetch(p, o, l) ==> p.layers[l].views[o].written == p.layers[l].views[o].length
    ensures Quiet(p, Refused(p, RolledBack(o, l)))
  {
    hide Inv, Quiet, Refused;
    RolledRefused(p, o, l);
    if InStep(p, o, l) && !OwnPrefetch(p, o, l) {
      DrainedInv(p);
      AbandonSteps(Drain(p), o, l);
      QuietAfter(p, Drain(p), Abandon(Drain(p), o, l));
    }
  }

  lemma DrainedInv(p: Pool)
    requires InLayers(p) && Quiet(p, Drain(p))
    ensures Inv(Drain(p))
  {
    hide Inv;
  }

  /** A refused rollback that is not torn closes no step with records in it. */
  lemma UntornRoll(p: Pool, o: nat, l: nat)
    requires Inv(p) && !Allowed(p, RolledBack(o, l)) && !Torn(p, RolledBack(o, l))
    ensures InStep(p, o, l) && !OwnPrefetch(p, o, l) ==> p.layers[l].views[o].written == p.layers[l].views[o].length
  {
    if InStep(p, o, l) { RollbackLength(p, o, l); }
    hide Inv, LeaseFree;
  }

  lemma RefusedAppends(p: Pool, o: nat, l: nat, recs: seq<Record>)
    requires Sane(p) && Inv(p) && Quiet(p, p)
    ensures Quiet(p, Refused(p, Appended(o, l, recs)))
  {
    hide Inv, Quiet, LeaseFree, Sane;
    if CanAppend(p, o, l, |recs|) { LeasedSteps(p, o, l, |recs|); }
  }

  lemma RefusedSteps(p: Pool, a: Action)
    requires Sane(p) && Inv(p) && !Allowed(p, a) && !Torn(p, a)
    ensures Quiet(p, Refused(p, a))
  {
    hide Inv, Quiet, Allowed, Torn, Refused, Drains;
    DrainSteps(p);
    match a
    case RolledBack(o, l) => UntornRoll(p, o, l); RefusedRolls(p, o, l);
    case Appended(o, l, recs) => RefusedAppends(p, o, l, recs);
    case _ => RefusedIs(p, a);
  }

  lemma QuietNothing(p: Pool)
    ensures SameLogical(p, p)
  {
  }

  /** Every action but a torn rollback keeps the pool invariant and changes the sequences exactly as its effect says. */
  lemma StepInv(p: Pool, a: Action)
    requires Inv(p) && !Torn(p, a)
    ensures Inv(Step(p, a)) && Realizes(p, Step(p, a), EffectOf(p, a))
  {
    InvSane(p);
    hide Inv, Sane, Logical, Torn, Accepted, Refused, SameLogical, SameLogicalBut;
    if Allowed(p, a) {
      match a
      case Opened(_, _) => BoundarySteps(p, a);
      case Closed => BoundarySteps(p, a);
      case Began(_, _, _) => BoundarySteps(p, a);
      case BeganTransient(_, _, _) => BoundarySteps(p, a);
      case Declared(_, _, _) => BoundarySteps(p, a);
      case Landed(_, _) => CopySteps(p, a);
      case Reserved => CopySteps(p, a);
      case Committed(_, _) => CommitSteps(p, a);
      case Prepared(_, _, _, _, _, _) => PrepareSteps(p, a);
      case Streamed(_, _, _) => StreamSteps(p, a);
      case Finalized(_) => FinalizeSteps(p, a);
      case Appended(_, _, _) => WriteSteps(p, a);
      case Recall(_, _, _) => WriteSteps(p, a);
      case RolledBack(_, _) => RollbackSteps(p, a);
      case Discarded(_, _) => DiscardSteps(p, a);
      case Truncated(_, _, _) => TruncateSteps(p, a);
      case Admitted(_, _) => SessionSteps(p, a);
      case Dismissed(_) => SessionSteps(p, a);
    } else {
      RefusedSteps(p, a);
    }
  }

  /** A rollback of an open persistent step keeps the pool sound exactly when its lease is free, nothing was written, or a prefetch stops it first. */
  lemma RollbackKeepsInv(p: Pool, o: nat, l: nat)
    requires Inv(p) && InStep(p, o, l)
    ensures var v := p.layers[l].views[o];
      Inv(Step(p, RolledBack(o, l))) <==> LeaseFree(p, o, l) || v.written == v.length || OwnPrefetch(p, o, l)
  {
    RollbackLength(p, o, l);
    InvSane(p);
    if Torn(p, RolledBack(o, l)) {
      TornStep(p, o, l);
      AbandonBreaks(Drain(p), o, l);
      hide Inv, LeaseFree;
    } else {
      hide Inv, LeaseFree;
      StepInv(p, RolledBack(o, l));
    }
  }

  lemma TornStep(p: Pool, o: nat, l: nat)
    requires Sane(p) && Torn(p, RolledBack(o, l))
    ensures Step(p, RolledBack(o, l)) == Abandon(Drain(p), o, l)
  {
    TornRefused(p, o, l);
    StepDoes(p, RolledBack(o, l));
    RolledRefused(p, o, l);
    hide Allowed, Step, Refused, LeaseFree;
  }

  lemma TornRefused(p: Pool, o: nat, l: nat)
    requires Torn(p, RolledBack(o, l))
    ensures Exists(p, o, l) && !Allowed(p, RolledBack(o, l))
  {
    hide LeaseFree;
  }

  // ----- runs

  ghost function Run(p: Pool, acts: seq<Action>): Pool
    decreases |acts|
  {
    if acts == [] then p else Run(Step(p, acts[0]), acts[1..])
  }

  /** The last action of a run comes after the others. */
  lemma {:induction false} RunAppend(p: Pool, acts: seq<Action>, a: Action)
    ensures Run(p, acts + [a]) == Step(Run(p, acts), a)
    decreases |acts|
  {
    hide Step;
    if acts == [] {
      assert ([] + [a])[1..] == [];
    } else {
      assert (acts + [a])[0] == acts[0] && (acts + [a])[1..] == acts[1..] + [a];
      RunAppend(Step(p, acts[0]), acts[1..], a);
    }
  }

  ghost function Effects(p: Pool, acts: seq<Action>): seq<Effect>
    decreases |acts|
  {
    if acts == [] then [] else [EffectOf(p, acts[0])] + Effects(Step(p, acts[0]), acts[1..])
  }

  /** No rollback of the run is torn: each finds its layer's lease free, or its step empty. */
  ghost predicate Untorn(p: Pool, acts: seq<Action>)
    decreases |acts|
  {
    acts == [] || (!Torn(p, acts[0]) && Untorn(Step(p, acts[0]), acts[1..]))
  }

  /** The pool is sound before, between and after the actions. */
  ghost predicate Throughout(p: Pool, acts: seq<Action>)
    decreases |acts|
  {
    Inv(p) && (acts == [] || Throughout(Step(p, acts[0]), acts[1..]))
  }

  /** Every pool a run passes through satisfies the invariant exactly when none of its rollbacks is torn. */
  lemma {:induction false} RunKeepsInv(p: Pool, acts: seq<Action>)
    requires Inv(p)
    ensures Throughout(p, acts) <==> Untorn(p, acts)
    ensures Untorn(p, acts) ==> Inv(Run(p, acts))
    decreases |acts|
  {
    hide Inv;
    if acts != [] {
      if Torn(p, acts[0]) {
        TornBreaks(p, acts[0]);
      } else {
        hide Torn;
        StepInv(p, acts[0]);
        RunKeepsInv(Step(p, acts[0]), acts[1..]);
      }
    }
  }

  lemma TornBreaks(p: Pool, a: Action)
    requires Inv(p) && Torn(p, a)
    ensures !Inv(Step(p, a))
  {
    RollbackKeepsInv(p, a.o, a.l);
  }

  /** What one session has on one layer; nothing when it is not live. */
  function SequenceOf(p: Pool, l: nat, o: nat): seq<Record> {
    if l < |p.layers| && o in p.layers[l].views then Logical(p.sessions, p.layers[l], o) else []
  }

  /** The specification: one append-only record sequence, cut only by its own session. */
  function Apply(s: seq<Record>, e: Effect, l: nat, o: nat): seq<Record> {
    match e
    case Nothing => s
    case Grow(m, q, recs) => if m == l && q == o then s + recs else s
    case Cut(m, q, len) => if m == l && q == o && len <= |s| then s[..len] else s
    case Born(q) => if q == o then [] else s
    case Gone(q) => if q == o then [] else s
  }

  function Replay(s: seq<Record>, es: seq<Effect>, l: nat, o: nat): seq<Record>
    decreases |es|
  {
    if es == [] then s else Replay(Apply(s, es[0], l, o), es[1..], l, o)
  }

  lemma LiveViews(p: Pool, l: nat)
    requires Inv(p) && l < |p.layers|
    ensures p.layers[l].views.Keys == p.sessions.Keys
  {
    assert LayerInv(p.cfg, p.sessions, p.layers[l], p.writes, l);
  }

  lemma StepReplays(p: Pool, a: Action, l: nat, o: nat)
    requires Inv(p) && !Torn(p, a) && l < |p.layers|
    ensures |Step(p, a).layers| == |p.layers|
    ensures SequenceOf(Step(p, a), l, o) == Apply(SequenceOf(p, l, o), EffectOf(p, a), l, o)
  {
    hide Inv;
    StepInv(p, a);
    var r := Step(p, a);
    LiveViews(p, l);
    LiveViews(r, l);
    hide Logical;
    hide Step;
    hide EffectOf;
    RealizedSequence(p, r, EffectOf(p, a), l, o);
  }

  lemma RealizedSequence(p: Pool, r: Pool, e: Effect, l: nat, o: nat)
    requires Realizes(p, r, e) && l < |p.layers| && p.layers[l].views.Keys == p.sessions.Keys
    requires |r.layers| == |p.layers| && r.layers[l].views.Keys == r.sessions.Keys
    ensures SequenceOf(r, l, o) == Apply(SequenceOf(p, l, o), e, l, o)
  {
    hide Logical;
  }

  /** Refinement over whole runs without torn rollbacks: every session's layer is the replay of its own appends and cuts. */
  lemma {:induction false} RunReplays(p: Pool, acts: seq<Action>, l: nat, o: nat)
    requires Inv(p) && Untorn(p, acts) && l < |p.layers|
    ensures Inv(Run(p, acts)) && |Run(p, acts).layers| == |p.layers|
    ensures SequenceOf(Run(p, acts), l, o) == Replay(SequenceOf(p, l, o), Effects(p, acts), l, o)
    decreases |acts|
  {
    hide Inv;
    hide SequenceOf, Torn;
    if acts != [] {
      StepInv(p, acts[0]);
      StepReplays(p, acts[0], l, o);
      RunReplays(Step(p, acts[0]), acts[1..], l, o);
      assert Effects(p, acts)[1..] == Effects(Step(p, acts[0]), acts[1..]);
    }
  }
}
