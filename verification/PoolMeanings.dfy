/** What the calls of the pool mean to their callers, for every sound pool. */
module PoolMeanings {
  import opened TokenTypes
  import opened TokenStore
  import opened TokenPool
  import opened PoolWritebacks
  import opened PoolTransactions
  import opened PoolAppend
  import opened PoolRecall
  import opened PoolPrefetch
  import opened PoolSessions
  import opened PoolRuns

  /** Only this session may operate, only on this layer. */
  ghost predicate Exclusive(p: Pool, o: nat, l: nat) {
    l < |p.layers| && forall q: nat, m: nat :: m < |p.layers| && LeaseFree(p, q, m) ==> q == o && m == l
  }

  /** The layer is leased to this session and no proof of another one stands. */
  ghost predicate OwnProofs(p: Pool, o: nat, l: nat) {
    && l < |p.layers| && p.layers[l].proofs.lease == Some(o)
    && (forall q :: p.layers[l].proofs.residentOwner == Some(q) || p.layers[l].proofs.denseOwner == Some(q) ==> q == o)
  }

  /** The step is open over exactly `count` tokens behind the committed ones: appends fit exactly within it. */
  ghost predicate Reserves(p: Pool, r: Pool, o: nat, l: nat, count: nat) {
    && Exists(p, o, l) && Exists(r, o, l) && r.layers[l].views[o].length == p.layers[l].views[o].length
    && r.layers[l].views == p.layers[l].views[o := r.layers[l].views[o]]
    && (forall n: nat :: CanAppend(r, o, l, n) <==> 1 <= n <= count && n <= p.cfg.slots && LeaseFree(p, o, l))
    && !CanCommit(r, o, l) && InStep(r, o, l)
  }

  /** A prefetch may be prepared exactly for batches that end within the announced tokens. */
  ghost predicate Announces(p: Pool, r: Pool, o: nat, l: nat, end: nat) {
    && Exists(p, o, l) && Exists(r, o, l) && p.layers[l].views[o].visibleEnd <= end
    && r.layers[l].views == p.layers[l].views[o := r.layers[l].views[o]]
    && forall start: nat, count: nat :: CanPrepare(r, o, l, start, count) <==>
         start == p.layers[l].views[o].written && 1 <= count && start + count <= end && LeaseFree(p, o, l) && !OwnPrefetch(p, o, l)
         && (p.layers[l].views[o].transientStart.None? ==> count <= p.cfg.slots)
  }

  /** Everything written is committed, nothing is in flight and there is no step to roll back. */
  ghost predicate Commits(p: Pool, r: Pool, o: nat, l: nat) {
    && Exists(p, o, l) && Exists(r, o, l) && r.writes == []
    && r.layers[l].views[o].length == |Logical(p.sessions, p.layers[l], o)| && !InStep(r, o, l)
    && r.layers[l].views == p.layers[l].views[o := r.layers[l].views[o]]
  }

  ghost predicate Welcomes(p: Pool, r: Pool, o: nat, capacity: nat, pages: seq<nat>) {
    && o !in p.sessions && r.sessions == p.sessions[o := Session(capacity, pages)] && capacity <= PAGE_SIZE * |pages|
    && (forall x :: x in pages ==> x in p.freePages) && (forall x :: x in r.freePages <==> x in p.freePages && x !in pages)
    && |r.layers| == |p.layers| && forall l :: 0 <= l < |r.layers| ==> o in r.layers[l].views && Logical(r.sessions, r.layers[l], o) == []
  }

  /** The session holds the candidate rows of the layer. */
  predicate HoldsRows(p: Pool, o: nat, l: nat) {
    Exists(p, o, l) && p.layers[l].candidate == Some(o)
  }

  lemma HolderIsTransient(p: Pool, o: nat, l: nat)
    requires Inv(p)
    ensures HoldsRows(p, o, l) ==> p.layers[l].views[o].transientStart.Some?
  {
    if HoldsRows(p, o, l) { assert LayerInv(p.cfg, p.sessions, p.layers[l], p.writes, l); }
  }

  /** Every action but a torn rollback keeps the pool invariant. */
  lemma StepKeeps(p: Pool, a: Action)
    requires Inv(p) && !Torn(p, a)
    ensures Inv(Step(p, a))
  {
    hide Inv, Step;
    StepInv(p, a);
  }

  /** An action that is not a torn rollback realizes its effect; one without effect changes no sequence. */
  lemma StepQuiet(p: Pool, a: Action)
    requires Inv(p) && !a.Appended? && !a.RolledBack? && !a.Discarded? && !a.Truncated? && !a.Admitted? && !a.Dismissed?
    ensures Inv(Step(p, a)) && SameLogical(p, Step(p, a)) && Step(p, a).sessions == p.sessions
  {
    StepInv(p, a);
    hide Inv, Step, SameLogical, Allowed;
  }

  // ----- leases and step boundaries

  lemma FreeSame(p: Pool, r: Pool, o: nat, l: nat)
    requires l < |p.layers| == |r.layers| && r.active == p.active && r.layers[l].candidate == p.layers[l].candidate
    requires forall m :: 0 <= m < |p.layers| ==> r.layers[m].pending == p.layers[m].pending
    ensures LeaseFree(r, o, l) <==> LeaseFree(p, o, l)
  {
  }

  lemma CloseMeans(p: Pool)
    requires Inv(p)
    ensures Inv(Step(p, Closed)) && Step(p, Closed) == Exit(p)
  {
    StepKeeps(p, Closed);
    StepIs(p, Closed);
    hide Inv, Step, StepData, StepCut, AppendEither, Allocate, Release;
  }

  /** An operation is entered exactly when the lease is free; then nobody else may operate and no foreign proof stands. */
  lemma EnterMeans(p: Pool, o: nat, l: nat)
    requires Inv(p)
    ensures Allowed(p, Opened(o, l)) <==> Exists(p, o, l) && LeaseFree(p, o, l)
    ensures var r := Step(p, Opened(o, l));
      && Inv(r) && r == (if Allowed(p, Opened(o, l)) then Enter(p, o, l) else p)
      && SameLogical(p, r) && r.sessions == p.sessions
      && (Allowed(p, Opened(o, l)) ==> Exclusive(r, o, l) && OwnProofs(r, o, l))
  {
    StepQuiet(p, Opened(o, l));
    EnterIs(p, o, l);
    hide Inv, Step, SameLogical, LeaseFree, Allowed, Exclusive, OwnProofs;
    if Exists(p, o, l) && LeaseFree(p, o, l) {
      LeasedProofs(Enter(p, o, l), o, l);
      EnteredAlone(p, o, l);
    }
  }

  lemma EnterIs(p: Pool, o: nat, l: nat)
    requires Inv(p)
    ensures Allowed(p, Opened(o, l)) <==> Exists(p, o, l) && LeaseFree(p, o, l)
    ensures Step(p, Opened(o, l)) == (if Allowed(p, Opened(o, l)) then Enter(p, o, l) else p)
  {
    InvSane(p);
    StepDoes(p, Opened(o, l));
    hide Inv, Sane, Step, LeaseFree, StepData, StepCut, AppendEither, Allocate, Release;
  }

  lemma EnteredAlone(p: Pool, o: nat, l: nat)
    requires l < |p.layers|
    ensures Exclusive(Enter(p, o, l), o, l)
  {
  }

  lemma LeasedProofs(p: Pool, o: nat, l: nat)
    requires Inv(p) && l < |p.layers| && p.layers[l].proofs.lease == Some(o)
    ensures OwnProofs(p, o, l)
  {
    assert LayerInv(p.cfg, p.sessions, p.layers[l], p.writes, l);
    hide StoreOK, ViewsOK, ArenaOK, HostOK, TicketsOK, CandidateOK, PlanOK, PendingOK;
  }

  lemma BeganView(p: Pool, o: nat, l: nat)
    requires Inv(p) && Exists(p, o, l) && p.layers[l].views[o].stepEnd.None?
    ensures p.layers[l].views[o].transientStart.None? && !OwnPrefetch(p, o, l)
  {
    assert LayerInv(p.cfg, p.sessions, p.layers[l], p.writes, l);
    assert ViewOK(p.cfg, p.sessions[o], p.layers[l].views[o]);
    hide StoreOK, ArenaOK, HostOK, TicketsOK, CandidateOK, PlanOK, ProofsOK;
  }

  /** A step opens exactly when none is open and the tokens fit; appends are then accepted exactly within it. */
  lemma BeginMeans(p: Pool, o: nat, l: nat, count: nat)
    requires Inv(p)
    ensures Allowed(p, Began(o, l, count)) <==> CanBegin(p, o, l, count)
    ensures var r := Step(p, Began(o, l, count));
      && Inv(r) && r == (if CanBegin(p, o, l, count) then BeginStep(p, o, l, count) else p)
      && SameLogical(p, r) && (CanBegin(p, o, l, count) ==> Reserves(p, r, o, l, count))
  {
    StepQuiet(p, Began(o, l, count));
    InvSane(p);
    StepDoes(p, Began(o, l, count));
    hide Step, SameLogical, StepData, StepCut, AppendEither, Allocate, Release, Sane;
    if CanBegin(p, o, l, count) {
      BeganView(p, o, l);
      hide Inv;
      BeganReserves(p, o, l, count);
    }
    hide Inv, CanBegin, Reserves;
  }

  lemma BeganReserves(p: Pool, o: nat, l: nat, count: nat)
    requires CanBegin(p, o, l, count) && p.layers[l].views[o].transientStart.None? && !OwnPrefetch(p, o, l)
    ensures Reserves(p, BeginStep(p, o, l, count), o, l, count)
  {
    var r := BeginStep(p, o, l, count);
    FreeSame(p, r, o, l);
    hide LeaseFree;
  }

  /** The candidate rows are leased exactly when nobody holds them; then every other session is kept off the layer. */
  lemma TransientMeans(p: Pool, o: nat, l: nat, count: nat)
    requires Inv(p)
    ensures Allowed(p, BeganTransient(o, l, count)) <==> CanBeginTransient(p, o, l, count)
    ensures var r := Step(p, BeganTransient(o, l, count));
      && Inv(r) && r == (if CanBeginTransient(p, o, l, count) then BeginTransient(p, o, l, count) else p)
      && SameLogical(p, r)
      && (CanBeginTransient(p, o, l, count) ==> l < |r.layers| && forall q :: q != o ==> !LeaseFree(r, q, l))
  {
    StepQuiet(p, BeganTransient(o, l, count));
    InvSane(p);
    StepDoes(p, BeganTransient(o, l, count));
    hide Inv, Step, SameLogical, StepData, StepCut, AppendEither, Allocate, Release, Sane;
  }

  /** The announced end only grows within the step; prefetches are then accepted exactly up to it. */
  lemma DeclareMeans(p: Pool, o: nat, l: nat, end: nat)
    requires Inv(p)
    ensures Allowed(p, Declared(o, l, end)) <==> CanDeclare(p, o, l, end)
    ensures var r := Step(p, Declared(o, l, end));
      && Inv(r) && r == (if CanDeclare(p, o, l, end) then DeclareVisible(p, o, l, end) else p)
      && SameLogical(p, r) && (CanDeclare(p, o, l, end) ==> Announces(p, r, o, l, end))
  {
    StepQuiet(p, Declared(o, l, end));
    InvSane(p);
    StepDoes(p, Declared(o, l, end));
    hide Inv, Step, SameLogical, StepData, StepCut, AppendEither, Allocate, Release, Sane;
    if CanDeclare(p, o, l, end) { DeclaredAnnounces(p, o, l, end); }
    hide CanDeclare, Announces;
  }

  lemma DeclaredAnnounces(p: Pool, o: nat, l: nat, end: nat)
    requires CanDeclare(p, o, l, end)
    ensures Announces(p, DeclareVisible(p, o, l, end), o, l, end)
  {
    var r := DeclareVisible(p, o, l, end);
    FreeSame(p, r, o, l);
    hide LeaseFree;
  }

  /** A commit is accepted exactly for a finished persistent step, and commits everything written. */
  lemma CommitMeans(p: Pool, o: nat, l: nat)
    requires Inv(p)
    ensures Allowed(p, Committed(o, l)) <==> CanCommit(p, o, l)
    ensures var r := Step(p, Committed(o, l));
      && Inv(r) && Sane(p) && r == (if CanCommit(p, o, l) then PoolTransactions.Commit(p, o, l) else p)
      && SameLogical(p, r) && (CanCommit(p, o, l) ==> Commits(p, r, o, l))
  {
    StepQuiet(p, Committed(o, l));
    InvSane(p);
    StepDoes(p, Committed(o, l));
    if CanCommit(p, o, l) {
      InvView(p, o, l);
      hide Inv, Step;
      CommittedAll(p, o, l);
    }
    hide Inv, Step, SameLogical, StepBoundary, StepCut, AppendEither, Allocate, Release, Commits, Sane;
  }

  lemma CommittedAll(p: Pool, o: nat, l: nat)
    requires InLayers(p) && CanCommit(p, o, l) && ViewOK(p.cfg, p.sessions[o], p.layers[l].views[o])
    ensures Commits(p, PoolTransactions.Commit(p, o, l), o, l)
  {
  }

  // ----- append

  /** The session writes a GPU-only suffix on the layer. */
  predicate Suffixed(p: Pool, o: nat, l: nat) {
    Exists(p, o, l) && p.layers[l].views[o].transientStart.Some?
  }

  /** A dense pool has its direct prefix for the next `count` records. */
  predicate Placing(p: Pool, o: nat, l: nat, count: nat)
    requires Exists(p, o, l)
  {
    DenseReady(p.cfg, p.sessions, LeaseTo(p.layers[l], o), o, p.layers[l].views[o].written, count)
  }

  /** An append grows exactly its own sequence by the records, or is refused; a refused dense one keeps the lease it took. */
  lemma AppendMeans(p: Pool, o: nat, l: nat, recs: seq<Record>)
    requires Inv(p)
    ensures CanAppend(p, o, l, |recs|) ==> Exists(p, o, l)
    ensures Allowed(p, Appended(o, l, recs)) <==> CanAppend(p, o, l, |recs|) && (Suffixed(p, o, l) || Placing(p, o, l, |recs|))
    ensures var r := Step(p, Appended(o, l, recs));
      && Inv(r) && r.sessions == p.sessions
      && (if Allowed(p, Appended(o, l, recs)) then GrownBy(p, r, o, l, recs) else SameLogical(p, r))
  {
    AppendAsks(p, o, l, |recs|);
    StepInv(p, Appended(o, l, recs));
    hide Inv, Step, Logical, SameLogicalBut, SameLogical, DenseReady, CanAppend;
  }

  lemma AppendAsks(p: Pool, o: nat, l: nat, count: nat)
    ensures CanAppend(p, o, l, count) ==> Exists(p, o, l)
  {
  }

  /** One sequence has grown by the records; every other one is as before. */
  ghost predicate GrownBy(p: Pool, r: Pool, o: nat, l: nat, recs: seq<Record>) {
    && l < |p.layers| == |r.layers| && o in p.layers[l].views && o in r.layers[l].views
    && Logical(r.sessions, r.layers[l], o) == Logical(p.sessions, p.layers[l], o) + recs && SameLogicalBut(p, r, l, o)
  }

  /** What an append does, case by case. */
  lemma AppendIs(p: Pool, o: nat, l: nat, recs: seq<Record>)
    requires Inv(p)
    ensures CanAppend(p, o, l, |recs|) ==> Exists(p, o, l)
    ensures Step(p, Appended(o, l, recs)) ==
      if !CanAppend(p, o, l, |recs|) then p
      else if Suffixed(p, o, l) then AppendEither(p, o, l, recs)
      else if Placing(p, o, l, |recs|) then AppendPersistent(p, o, l, recs)
      else Leased(p, o, l)
  {
    AppendAsks(p, o, l, |recs|);
    InvSane(p);
    StepDoes(p, Appended(o, l, recs));
    hide Inv, Sane, Step, CanAppend, DenseReady, AppendPersistent, AppendTransient, Leased, StepBoundary, StepData, StepCut, Allocate, Release;
  }

  // ----- shrinking

  /** A rollback goes back to the committed history, or is refused; refused half-way it has closed the step. */
  lemma RollbackMeans(p: Pool, o: nat, l: nat)
    requires Inv(p)
    ensures Sane(p) && (Allowed(p, RolledBack(o, l)) <==> CanRollback(p, o, l) || CanDiscard(p, o, l))
    ensures Step(p, RolledBack(o, l)) == RolledBackTo(p, o, l)
    ensures Inv(Step(p, RolledBack(o, l))) <==> !Torn(p, RolledBack(o, l))
    ensures Allowed(p, RolledBack(o, l)) ==> Exists(p, o, l) && CutDone(p, Step(p, RolledBack(o, l)), o, l, p.layers[l].views[o].length)
    ensures InStep(p, o, l) && LeaseFree(p, o, l) ==> RolledLegal(p, o, l)
  {
    InvSane(p);
    hide Inv, Step, CutDone, Sane, LeaseFree, Torn, RolledBackTo, RolledLegal, Allowed;
    RollbackIs(p, o, l);
    RollbackSound(p, o, l);
    if Allowed(p, RolledBack(o, l)) { RollbackCuts(p, o, l); }
    if InStep(p, o, l) && LeaseFree(p, o, l) { RollbackLegal(p, o, l); }
  }

  lemma RollbackIs(p: Pool, o: nat, l: nat)
    requires Sane(p)
    ensures Allowed(p, RolledBack(o, l)) <==> CanRollback(p, o, l) || CanDiscard(p, o, l)
    ensures Step(p, RolledBack(o, l)) == RolledBackTo(p, o, l)
  {
    StepDoes(p, RolledBack(o, l));
    hide Step, LeaseFree, CutTo, Discard, Abandon, Drain, StepBoundary, StepData, AppendEither, Allocate, Release;
  }

  /** The whole effect of a rollback, accepted or not. */
  ghost function RolledBackTo(p: Pool, o: nat, l: nat): Pool
    requires Sane(p)
  {
    if InStep(p, o, l) then
      if LeaseFree(p, o, l) then CutTo(p, o, l, p.layers[l].views[o].length)
      else if OwnPrefetch(p, o, l) then Drain(p)
      else Abandon(Drain(p), o, l)
    else if !HoldsRows(p, o, l) then p
    else if CanDiscard(p, o, l) then Discard(p, o, l)
    else Drain(p)
  }

  ghost predicate RolledLegal(p: Pool, o: nat, l: nat) {
    && Sane(p) && Exists(p, o, l)
    && var ly := LeaseTo(CloseAt(Drain(p).layers[l], p.cfg.limit), o);
       ly.views == p.layers[l].views && Cuttable(p.sessions, ly, o, p.layers[l].views[o].length)
  }

  // ----- a rollback in the order of the source

  /** Drained, an own prefetch closed. */
  function RolledClosed(p: Pool, o: nat, l: nat): Pool
    requires Sane(p) && l < |p.layers|
  {
    var q := Drain(p);
    if OwnPrefetch(q, o, l) then SetLayer(q, l, CloseAt(q.layers[l], q.cfg.limit)) else q
  }

  /** The layer once the lease for the truncation is held. */
  function Trimmed(p: Pool, o: nat, l: nat, len: nat): Pool
    requires l < |p.layers| && Cuttable(p.sessions, LeaseTo(p.layers[l], o), o, len)
  {
    SetLayer(p, l, TruncateAt(p.sessions, LeaseTo(p.layers[l], o), o, len))
  }

  /** Draining decides nothing. */
  lemma RolledDrain(p: Pool, o: nat, l: nat)
    requires Sane(p) && InStep(p, o, l)
    ensures var q := Drain(p);
      && InStep(q, o, l) && (OwnPrefetch(q, o, l) <==> OwnPrefetch(p, o, l)) && (LeaseFree(q, o, l) <==> LeaseFree(p, o, l))
      && Shaped(q.layers[l].store) && q.layers[l].views == p.layers[l].views && Exists(RolledClosed(p, o, l), o, l)
  {
    FreeSame(p, Drain(p), o, l);
    hide LeaseFree;
    var q := Drain(p);
    if OwnPrefetch(q, o, l) { CloseKeeps(q.layers[l], q.cfg.limit); }
    hide CloseAt;
  }

  lemma CloseKeeps(ly: Layer, limit: Option<nat>)
    requires Shaped(ly.store)
    ensures var r := CloseAt(ly, limit); r.views == ly.views && r.candidate == ly.candidate && r.pending.None?
    ensures ly.pending.None? ==> CloseAt(ly, limit) == ly
  {
  }

  /** Closing the step does not free or take the lease; closing an own prefetch keeps it free. */
  lemma RolledFree(p: Pool, o: nat, l: nat)
    requires Sane(p) && InStep(p, o, l) && Exists(RolledClosed(p, o, l), o, l)
    ensures var r := Abandon(RolledClosed(p, o, l), o, l);
      && (LeaseFree(p, o, l) ==> LeaseFree(r, o, l)) && (!OwnPrefetch(p, o, l) ==> (LeaseFree(r, o, l) <==> LeaseFree(p, o, l)))
  {
    var q := Drain(p);
    CloseKeeps(q.layers[l], q.cfg.limit);
    hide CloseAt;
    var r := Abandon(RolledClosed(p, o, l), o, l);
    FreeSame(p, q, o, l);
    if !OwnPrefetch(q, o, l) { FreeSame(q, r, o, l); }
  }

  /** Truncating the closed layer whose step was given up is the specified cut. */
  lemma RolledCut(p: Pool, o: nat, l: nat)
    requires RolledLegal(p, o, l) && InStep(p, o, l) && LeaseFree(p, o, l) && Exists(RolledClosed(p, o, l), o, l)
    ensures var n := p.layers[l].views[o].length; var r := Abandon(RolledClosed(p, o, l), o, l);
      Cuttable(r.sessions, LeaseTo(r.layers[l], o), o, n) && CutTo(p, o, l, n) == Trimmed(r, o, l, n)
  {
    var q, n := Drain(p), p.layers[l].views[o].length;
    var c, r := CloseAt(q.layers[l], q.cfg.limit), Abandon(RolledClosed(p, o, l), o, l);
    CloseKeeps(q.layers[l], q.cfg.limit);
    assert RolledClosed(p, o, l).layers == q.layers[l := c];
    hide CloseAt, LeaseFree;
    SameTrim(q.sessions, c, r.layers[l], o, n);
    hide TruncateAt, LeaseTo, Cuttable;
    assert Trimmed(r, o, l, n).layers == q.layers[l := TruncateAt(q.sessions, LeaseTo(c, o), o, n)];
  }

  lemma SameTrim(ss: map<nat, Session>, a: Layer, b: Layer, o: nat, n: nat)
    requires o in a.views && o in b.views && b == a.(views := a.views[o := b.views[o]]) && Cuttable(ss, LeaseTo(a, o), o, n)
    ensures Cuttable(ss, LeaseTo(b, o), o, n)
    ensures TruncateAt(ss, LeaseTo(a, o), o, n) == TruncateAt(ss, LeaseTo(b, o), o, n)
  {
    assert a.views[o := FreshView(n)] == b.views[o := FreshView(n)];
  }

  lemma RollbackLegal(p: Pool, o: nat, l: nat)
    requires Inv(p) && CanRollback(p, o, l)
    ensures RolledLegal(p, o, l)
  {
    RollbackLength(p, o, l);
    hide Inv, LeaseFree, Cuttable;
    CutLegal(p, o, l, p.layers[l].views[o].length);
    hide LayerInv, PagesOwned, CloseAt, LeaseTo;
  }

  lemma RollbackSound(p: Pool, o: nat, l: nat)
    requires Inv(p)
    ensures Inv(Step(p, RolledBack(o, l))) <==> !Torn(p, RolledBack(o, l))
  {
    hide Inv, Step, Torn;
    if Torn(p, RolledBack(o, l)) { TornBreaks(p, RolledBack(o, l)); } else { StepKeeps(p, RolledBack(o, l)); }
  }

  lemma RollbackCuts(p: Pool, o: nat, l: nat)
    requires Inv(p) && Allowed(p, RolledBack(o, l))
    ensures Exists(p, o, l) && CutDone(p, Step(p, RolledBack(o, l)), o, l, p.layers[l].views[o].length)
  {
    StepIs(p, RolledBack(o, l));
    hide Step, Sane, LeaseFree, CutTo, Discard, CutDone, StepBoundary, StepData, AppendEither, Allocate, Release;
    if InStep(p, o, l) {
      RollbackLength(p, o, l);
      hide Inv;
      CutToInv(p, o, l, p.layers[l].views[o].length);
    } else {
      hide Inv;
      DiscardInv(p, o, l);
    }
  }

  /** A truncation never extends history and cuts exactly its own sequence. */
  lemma TruncateMeans(p: Pool, o: nat, l: nat, len: nat)
    requires Inv(p)
    ensures Sane(p) && (Allowed(p, Truncated(o, l, len)) <==> CanTruncate(p, o, l, len))
    ensures var r := Step(p, Truncated(o, l, len));
      && Inv(r) && r == (if CanTruncate(p, o, l, len) then CutTo(p, o, l, len) else if Truncatable(p, o, l, len) then Drain(p) else p)
      && (if CanTruncate(p, o, l, len) then CutDone(p, r, o, l, len) else SameLogical(p, r))
    ensures CanTruncate(p, o, l, len) ==> Cuttable(p.sessions, LeaseTo(CloseAt(Drain(p).layers[l], p.cfg.limit), o), o, len)
  {
    InvSane(p);
    hide Inv, Step, CutDone, LeaseFree, CutTo, SameLogical, Cuttable, CloseAt, LeaseTo, Allowed;
    TruncateIs(p, o, l, len);
    StepKeeps(p, Truncated(o, l, len));
    if CanTruncate(p, o, l, len) {
      TruncateOpen(p, o, l, len);
      CutToInv(p, o, l, len);
      CutLegal(p, o, l, len);
      hide LayerInv, PagesOwned;
    } else {
      RefusedQuiet(p, Truncated(o, l, len));
    }
  }

  lemma TruncateIs(p: Pool, o: nat, l: nat, len: nat)
    requires Sane(p)
    ensures Allowed(p, Truncated(o, l, len)) <==> CanTruncate(p, o, l, len)
    ensures Step(p, Truncated(o, l, len)) ==
      if CanTruncate(p, o, l, len) then CutTo(p, o, l, len) else if Truncatable(p, o, l, len) then Drain(p) else p
  {
    StepDoes(p, Truncated(o, l, len));
    hide Step, LeaseFree, CutTo, Discard, Drain, StepBoundary, StepData, AppendEither, Allocate, Release;
  }

  /** The cut lies in the committed history and no step is open. */
  predicate Truncatable(p: Pool, o: nat, l: nat, len: nat) {
    Exists(p, o, l) && p.layers[l].views[o].stepEnd.None? && len <= p.layers[l].views[o].length
  }

  lemma RefusedQuiet(p: Pool, a: Action)
    requires Inv(p) && !Allowed(p, a) && !Torn(p, a)
    ensures SameLogical(p, Step(p, a))
  {
    InvSane(p);
    StepDoes(p, a);
    RefusedSteps(p, a);
    hide Inv, Step, Allowed, Torn, Refused, Sane, SameLogical;
  }

  /** A discard returns to the committed history and frees the candidate rows. */
  lemma DiscardMeans(p: Pool, o: nat, l: nat)
    requires Inv(p)
    ensures Sane(p) && (Allowed(p, Discarded(o, l)) <==> CanDiscard(p, o, l))
    ensures var r := Step(p, Discarded(o, l));
      && Inv(r) && r == (if CanDiscard(p, o, l) then Discard(p, o, l) else if HoldsRows(p, o, l) then Drain(p) else p)
      && (if CanDiscard(p, o, l) then CutDone(p, r, o, l, p.layers[l].views[o].length) && l < |r.layers| && r.layers[l].candidate.None?
          else SameLogical(p, r))
  {
    InvSane(p);
    StepDoes(p, Discarded(o, l));
    StepKeeps(p, Discarded(o, l));
    if CanDiscard(p, o, l) {
      hide Inv, CutDone, Step;
      DiscardInv(p, o, l);
      DiscardedRows(p, o, l);
    } else {
      RefusedQuiet(p, Discarded(o, l));
    }
    hide Inv, Step, CutDone, Sane, LeaseFree, Discard, SameLogical;
  }

  lemma DiscardedRows(p: Pool, o: nat, l: nat)
    requires Sane(p) && Exists(p, o, l)
    ensures l < |Discard(p, o, l).layers| && Discard(p, o, l).layers[l].candidate.None?
  {
    hide CloseAt, LeaseTo;
  }

  // ----- sessions

  /** Admission is accepted exactly for free, distinct, sufficient pages; the session starts empty. */
  lemma AdmitMeans(p: Pool, capacity: nat, pages: seq<nat>)
    requires Inv(p)
    ensures Allowed(p, Admitted(capacity, pages)) <==> CanAllocate(p, capacity, pages)
    ensures var r := Step(p, Admitted(capacity, pages));
      && Inv(r) && r == (if CanAllocate(p, capacity, pages) then Allocate(p, capacity, pages) else p)
      && SameLogical(p, r) && (CanAllocate(p, capacity, pages) ==> Welcomes(p, r, p.nextOwner, capacity, pages))
  {
    InvSane(p);
    StepDoes(p, Admitted(capacity, pages));
    StepKeeps(p, Admitted(capacity, pages));
    if CanAllocate(p, capacity, pages) {
      AllocateInv(p, capacity, pages);
      assert p.nextOwner !in p.sessions;
      hide Inv, Step, SameLogical, Sane, StepBoundary, StepData, StepCut, AppendEither, Release, Logical;
      AllocateWelcomes(p, capacity, pages);
    } else {
      RefusedQuiet(p, Admitted(capacity, pages));
    }
    hide Inv, Step, SameLogical, Sane, CanAllocate, Welcomes, Allocate;
  }

  lemma AllocateWelcomes(p: Pool, capacity: nat, pages: seq<nat>)
    requires CanAllocate(p, capacity, pages) && p.nextOwner !in p.sessions
    requires forall l :: 0 <= l < |p.layers| ==>
      Logical(Allocate(p, capacity, pages).sessions, Allocate(p, capacity, pages).layers[l], p.nextOwner) == []
    ensures Welcomes(p, Allocate(p, capacity, pages), p.nextOwner, capacity, pages)
  {
    hide Logical;
  }
}
