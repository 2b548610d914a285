/** Which actions a sound pool accepts, told by the lengths of its sequences, and what they do to the cursors of its sessions. */
module CursorLaw {
  import opened TokenTypes
  import opened Ranking
  import opened TokenStore
  import opened TokenPool
  import opened PoolWritebacks
  import opened PoolTransactions
  import opened PoolAppend
  import opened PoolRecall
  import opened PoolPrefetch
  import opened PoolSessions
  import opened PoolRuns

  /** How many tokens the session has written on the layer. */
  function Len(p: Pool, o: nat, l: nat): nat
    requires Exists(p, o, l)
  {
    |Logical(p.sessions, p.layers[l], o)|
  }

  function Cursor(p: Pool, o: nat, l: nat): View
    requires Exists(p, o, l)
  {
    p.layers[l].views[o]
  }

  /** Nobody else has a suffix on the layer, a prefetch anywhere or an operation open, and no own one stands elsewhere. */
  ghost predicate Free(p: Pool, o: nat, l: nat)
    requires l < |p.layers|
  {
    && (forall q :: q in p.layers[l].views && p.layers[l].views[q].transientStart.Some? ==> q == o)
    && (forall m :: 0 <= m < |p.layers| && p.layers[m].pending.Some? ==> m == l && p.layers[m].pending.value.owner == o)
    && (p.active.None? || p.active == Some((o, l)))
  }

  /** The distinct history tokens of a selection. */
  ghost function Selected(p: Pool, o: nat, l: nat, idx: seq<int>): set<int>
    requires Exists(p, o, l)
  {
    set i | i in idx && 0 <= i < HostEnd(Cursor(p, o, l))
  }

  /** The source accepts the action; dense appends also need the certified prefix of `DenseReady`. */
  ghost predicate Accepts(p: Pool, a: Action) {
    match a
    case Landed(k, j) => k < |p.writes| && j < |p.writes[k].source|
    case Opened(o, l) => Exists(p, o, l) && Free(p, o, l)
    case Closed => true
    case Reserved => true
    case Began(o, l, count) =>
      && Exists(p, o, l) && Cursor(p, o, l).stepEnd.None? && (forall q :: q in p.layers[l].views ==> p.layers[l].views[q].transientStart.None?)
      && 1 <= count && Len(p, o, l) + count <= p.sessions[o].capacity
    case BeganTransient(o, l, count) =>
      && Exists(p, o, l) && Cursor(p, o, l).stepEnd.None? && (forall q :: q in p.layers[l].views ==> p.layers[l].views[q].transientStart.None?)
      && Free(p, o, l) && 1 <= count <= p.cfg.candidates
    case Declared(o, l, end) =>
      Exists(p, o, l) && Cursor(p, o, l).stepEnd.Some? && Cursor(p, o, l).visibleEnd <= end <= Cursor(p, o, l).stepEnd.value
    case Appended(o, l, recs) =>
      && Exists(p, o, l) && Free(p, o, l) && p.layers[l].pending.None? && Cursor(p, o, l).stepEnd.Some?
      && recs != [] && Len(p, o, l) + |recs| <= Cursor(p, o, l).stepEnd.value
      && (Cursor(p, o, l).transientStart.None? ==>
            |recs| <= p.cfg.slots && DenseReady(p.cfg, p.sessions, LeaseTo(p.layers[l], o), o, Len(p, o, l), |recs|))
    case Recall(o, l, idx) =>
      && Exists(p, o, l) && Free(p, o, l) && p.layers[l].pending.None?
      && (forall i :: i in idx ==> i < Len(p, o, l)) && |Selected(p, o, l, idx)| <= p.cfg.slots
    case Prepared(o, l, start, count, _, _) =>
      && Exists(p, o, l) && Free(p, o, l) && p.layers[l].pending.None? && Cursor(p, o, l).stepEnd.Some?
      && start == Len(p, o, l) && 1 <= count && start + count <= Cursor(p, o, l).visibleEnd
      && (Cursor(p, o, l).transientStart.None? ==> count <= p.cfg.slots)
    case Streamed(l, _, _) => l < |p.layers| && p.layers[l].pending.Some?
    case Finalized(l) => l < |p.layers| && p.layers[l].pending.Some?
    case Committed(o, l) => Exists(p, o, l) && Cursor(p, o, l).transientStart.None? && Cursor(p, o, l).stepEnd == Some(Len(p, o, l))
    case RolledBack(o, l) => Exists(p, o, l) && Cursor(p, o, l).stepEnd.Some? && Free(p, o, l)
    case Discarded(o, l) => Exists(p, o, l) && Cursor(p, o, l).transientStart.Some? && Free(p, o, l)
    case Truncated(o, l, len) => Exists(p, o, l) && Cursor(p, o, l).stepEnd.None? && len <= Len(p, o, l) && Free(p, o, l)
    case Admitted(capacity, pages) =>
      && p.active.None? && 1 <= capacity <= 64 * |pages| < capacity + 64 && (p.cfg.dense ==> capacity <= p.cfg.slots)
      && (forall x :: x in pages ==> x in p.freePages) && forall j, k :: 0 <= j < k < |pages| ==> pages[j] != pages[k]
    case Dismissed(o) =>
      o in p.sessions && p.active.None? && forall m :: 0 <= m < |p.layers| && p.layers[m].pending.Some? ==> p.layers[m].pending.value.owner == o
  }

  lemma LenIs(p: Pool, o: nat, l: nat)
    requires Inv(p) && Exists(p, o, l)
    ensures var v := Cursor(p, o, l); Len(p, o, l) == v.written && ViewOK(p.cfg, p.sessions[o], v)
  {
    InvView(p, o, l);
    hide Inv;
  }

  lemma FreeIs(p: Pool, o: nat, l: nat)
    requires Inv(p) && l < |p.layers|
    ensures Free(p, o, l) <==> LeaseFree(p, o, l)
    ensures forall q :: q in p.layers[l].views && p.layers[l].views[q].transientStart.Some? ==> p.layers[l].candidate == Some(q)
    ensures p.layers[l].candidate.None? <==> forall q :: q in p.layers[l].views ==> p.layers[l].views[q].transientStart.None?
  {
    LayerOf(p, l);
    hide StoreOK, ViewsOK, ArenaOK, HostOK, TicketsOK, ProofsOK, PlanOK, PendingOK;
    assert CandidateOK(p.cfg, p.layers[l]);
    hide Inv;
  }

  /** An own prefetch stands only while a step is open. */
  lemma OwnPending(p: Pool, o: nat, l: nat)
    requires Inv(p) && Exists(p, o, l) && Free(p, o, l) && Cursor(p, o, l).stepEnd.None?
    ensures p.layers[l].pending.None?
  {
    PendingOpen(p, o, l);
    hide Inv;
  }

  lemma SelectedCard(p: Pool, o: nat, l: nat, idx: seq<int>)
    requires Exists(p, o, l)
    ensures |History(p.layers[l], o, idx)| == |Selected(p, o, l, idx)|
  {
    WithinDistinct(Range(0, HostEnd(Cursor(p, o, l))), idx);
    var h: seq<int> := History(p.layers[l], o, idx);
    DistinctCard(h);
    assert Elements(h) == Selected(p, o, l, idx);
  }

  // ----- the two readings of acceptance agree

  lemma BoundaryAccepted(p: Pool, a: Action)
    requires Inv(p) && (a.Opened? || a.Closed? || a.Began? || a.BeganTransient? || a.Declared? || a.Reserved? || a.Landed?)
    ensures Allowed(p, a) <==> Accepts(p, a)
  {
    hide Inv, Free, LeaseFree;
    match a
    case Opened(o, l) => if l < |p.layers| { FreeIs(p, o, l); }
    case Began(o, l, count) => if Exists(p, o, l) && Cursor(p, o, l).stepEnd.None? { FreeIs(p, o, l); BeganLen(p, o, l); }
    case BeganTransient(o, l, count) => if Exists(p, o, l) { FreeIs(p, o, l); }
    case Landed(k, j) => CopyLayers(p);
    case _ =>
  }

  lemma CopyLayers(p: Pool)
    requires Inv(p)
    ensures forall k :: 0 <= k < |p.writes| ==> p.writes[k].layer < |p.layers|
  {
  }

  lemma BeganLen(p: Pool, o: nat, l: nat)
    requires Inv(p) && Exists(p, o, l) && Cursor(p, o, l).stepEnd.None?
    ensures Len(p, o, l) == Cursor(p, o, l).length
    ensures p.layers[l].candidate.Some? ==> p.layers[l].candidate.value in p.layers[l].views && p.layers[l].candidate != Some(o)
  {
    LenIs(p, o, l);
    LayerOf(p, l);
    hide Inv, StoreOK, ViewsOK, ArenaOK, HostOK, TicketsOK, ProofsOK, PlanOK, PendingOK;
  }

  lemma WriteAccepted(p: Pool, a: Action)
    requires Inv(p) && (a.Appended? || a.Recall? || a.Prepared?)
    ensures Allowed(p, a) <==> Accepts(p, a)
  {
    hide Inv, Free, LeaseFree, DenseReady;
    match a
    case Appended(o, l, recs) => if Exists(p, o, l) { FreeIs(p, o, l); LenIs(p, o, l); OwnIs(p, o, l); }
    case Recall(o, l, idx) =>
      if Exists(p, o, l) {
        FreeIs(p, o, l);
        LenIs(p, o, l);
        OwnIs(p, o, l);
        SelectedCard(p, o, l, idx);
        BelowIs(idx, p.layers[l].views[o].written);
        hide History, Selected, Len;
      }
    case Prepared(o, l, start, count, _, _) => if Exists(p, o, l) { FreeIs(p, o, l); LenIs(p, o, l); OwnIs(p, o, l); }
  }

  /** With the lease free a prefetch prepared on the layer is an own one. */
  lemma OwnIs(p: Pool, o: nat, l: nat)
    requires l < |p.layers|
    ensures Free(p, o, l) ==> (p.layers[l].pending.None? <==> (p.layers[l].pending.Some? ==> p.layers[l].pending.value.owner != o))
  {
  }

  lemma BelowIs(idx: seq<int>, n: nat)
    ensures (forall i :: i in idx ==> i < n) <==> (forall k :: 0 <= k < |idx| ==> idx[k] < n)
  {
    assert forall k :: 0 <= k < |idx| ==> idx[k] in idx;
  }

  lemma CutAccepted(p: Pool, a: Action)
    requires Inv(p) && (a.Committed? || a.RolledBack? || a.Discarded? || a.Truncated?)
    ensures Allowed(p, a) <==> Accepts(p, a)
  {
    hide Inv, Free, LeaseFree;
    match a
    case Committed(o, l) => if Exists(p, o, l) { LenIs(p, o, l); }
    case RolledBack(o, l) => if Exists(p, o, l) { FreeIs(p, o, l); LenIs(p, o, l); }
    case Discarded(o, l) => if Exists(p, o, l) { FreeIs(p, o, l); }
    case Truncated(o, l, len) => if Exists(p, o, l) { FreeIs(p, o, l); LenIs(p, o, l); }
  }

  lemma PagesAre(capacity: nat, n: nat)
    requires capacity >= 1
    ensures n == PagesFor(capacity) <==> capacity <= 64 * n < capacity + 64
  {
  }

  lemma SessionAccepted(p: Pool, a: Action)
    requires a.Admitted? || a.Dismissed? || a.Streamed? || a.Finalized?
    ensures Allowed(p, a) <==> Accepts(p, a)
  {
    match a
    case Admitted(capacity, pages) => if capacity >= 1 { PagesAre(capacity, |pages|); }
    case _ =>
  }

  /** A sound pool accepts an action exactly when the lengths of its sequences, its leases and its pages say so. */
  lemma AcceptsExactly(p: Pool, a: Action)
    requires Inv(p)
    ensures Allowed(p, a) <==> Accepts(p, a)
  {
    hide Inv, Allowed, Accepts;
    match a
    case Appended(_, _, _) => WriteAccepted(p, a);
    case Recall(_, _, _) => WriteAccepted(p, a);
    case Prepared(_, _, _, _, _, _) => WriteAccepted(p, a);
    case Committed(_, _) => CutAccepted(p, a);
    case RolledBack(_, _) => CutAccepted(p, a);
    case Discarded(_, _) => CutAccepted(p, a);
    case Truncated(_, _, _) => CutAccepted(p, a);
    case Admitted(_, _) => SessionAccepted(p, a);
    case Dismissed(_) => SessionAccepted(p, a);
    case Streamed(_, _, _) => SessionAccepted(p, a);
    case Finalized(_) => SessionAccepted(p, a);
    case _ => BoundaryAccepted(p, a);
  }

  // ----- what actions do to cursors

  /** The cursors of session `q` on layer `m` after an accepted action. */
  function After(p: Pool, a: Action, m: nat, q: nat): View
    requires Exists(p, q, m)
  {
    var v := Cursor(p, q, m);
    match a
    case Began(o, l, count) => if (o, l) == (q, m) then v.(stepEnd := Some(v.written + count), visibleEnd := v.written) else v
    case BeganTransient(o, l, count) =>
      if (o, l) == (q, m) then v.(stepEnd := Some(v.written + count), visibleEnd := v.written, transientStart := Some(v.written)) else v
    case Declared(o, l, end) => if (o, l) == (q, m) then v.(visibleEnd := end) else v
    case Appended(o, l, recs) =>
      if (o, l) != (q, m) then v
      else
        var end := v.written + |recs|;
        v.(written := end, visibleEnd := Max(v.visibleEnd, end), tail := if v.transientStart.Some? then v.tail + recs else v.tail)
    case Committed(o, l) => if (o, l) == (q, m) then v.(length := v.written, stepEnd := None) else v
    case RolledBack(o, l) => if (o, l) == (q, m) then View(v.length, v.length, v.length, None, None, []) else v
    case Discarded(o, l) => if (o, l) == (q, m) then View(v.length, v.length, v.length, None, None, []) else v
    case Truncated(o, l, len) => if (o, l) == (q, m) then View(len, len, len, None, None, []) else v
    case _ => v
  }

  /** After a refused one: a rollback of an own step has closed it, unless an own prefetch made it raise before. */
  function AfterRefusal(p: Pool, a: Action, m: nat, q: nat): View
    requires Exists(p, q, m)
  {
    var v := Cursor(p, q, m);
    if a.RolledBack? && a.o == q && a.l == m && v.transientStart.None? && v.stepEnd.Some? && !OwnPrefetch(p, q, m) then v.(stepEnd := None) else v
  }

  /** Who may operate afterwards. */
  function ActiveAfter(p: Pool, a: Action): Option<(nat, nat)> {
    match a
    case Opened(o, l) => Some((o, l))
    case Closed => None
    case _ => p.active
  }

  /** Each session's cursors on each layer have moved exactly as the action says. */
  ghost predicate CursorsMoved(p: Pool, a: Action, r: Pool) {
    && |r.layers| == |p.layers|
    && forall m: nat, q: nat :: Exists(p, q, m) && !(Allowed(p, a) && a == Dismissed(q)) ==>
         q in r.layers[m].views && r.layers[m].views[q] == (if Allowed(p, a) then After(p, a, m, q) else AfterRefusal(p, a, m, q))
  }

  /** Everything else that is not on a layer: sessions, free pages, the open operation. */
  ghost predicate BooksKept(p: Pool, a: Action, r: Pool) {
    && r.cfg == p.cfg && r.active == (if Allowed(p, a) then ActiveAfter(p, a) else p.active)
    && (if Allowed(p, a) && a.Admitted? then
          && r.sessions == p.sessions[p.nextOwner := Session(a.capacity, a.pages)] && r.nextOwner == p.nextOwner + 1
          && forall x :: x in r.freePages <==> x in p.freePages && x !in a.pages
        else if Allowed(p, a) && a.Dismissed? then
          && a.o in p.sessions && r.sessions == p.sessions - {a.o} && r.nextOwner == p.nextOwner
          && forall x :: x in r.freePages <==> x in p.freePages || x in p.sessions[a.o].pages
        else r.sessions == p.sessions && r.nextOwner == p.nextOwner && r.freePages == p.freePages)
  }

  /** Nothing but device rows, host memory, the queue and proofs has changed. */
  ghost predicate Still(p: Pool, r: Pool) {
    && |r.layers| == |p.layers| && r.cfg == p.cfg && r.active == p.active && r.sessions == p.sessions
    && r.nextOwner == p.nextOwner && r.freePages == p.freePages
    && forall m :: 0 <= m < |p.layers| ==> r.layers[m].views == p.layers[m].views
  }

  lemma StillMoved(p: Pool, a: Action, r: Pool)
    requires Still(p, r) && Allowed(p, a)
    requires a.Landed? || a.Reserved? || a.Recall? || a.Prepared? || a.Streamed? || a.Finalized?
    ensures CursorsMoved(p, a, r) && BooksKept(p, a, r)
  {
    hide Allowed;
  }

  lemma HostStill(p: Pool, r: Pool)
    requires OnlyHost(p, r)
    ensures Still(p, r)
  {
  }

  lemma LayerStill(p: Pool, q: Pool, l: nat, ly: Layer)
    requires l < |p.layers| && Still(p, q) && ly.views == p.layers[l].views
    ensures l < |q.layers| && Still(p, SetLayer(q, l, ly))
  {
  }

  lemma CopyStill(p: Pool, a: Action)
    requires Sane(p) && Allowed(p, a) && (a.Landed? || a.Reserved?)
    ensures Still(p, Accepted(p, a))
  {
    hide Sane, StepBoundary, StepCut, AppendEither, Allocate, Release, LandCell, Reap;
  }

  lemma RecallStill(p: Pool, o: nat, l: nat, idx: seq<int>)
    requires Sane(p)
    ensures Still(p, Ensure(p, o, l, idx))
  {
    hide Sane, EnsureRows, BeforeRecall, Toks, History, Misses, Invalidate;
  }

  lemma PrepareStill(p: Pool, o: nat, l: nat, count: nat, limit: nat, native: bool)
    requires Sane(p)
    ensures Still(p, Prepare(p, o, l, count, limit, native))
  {
    hide Sane, BeforePrepare, AllResident, Stamp, ClockEvent, ClaimLimit, Batch, Sort, Bounded;
  }

  lemma StreamStill(p: Pool, l: nat, logical: int, restart: bool)
    requires Sane(p) && l < |p.layers|
    ensures Still(p, SetLayer(p, l, StreamAt(p.sessions, p.layers[l], logical, restart)))
  {
    hide Sane, Claim, Tok;
  }

  lemma FinalizeStill(p: Pool, l: nat)
    requires l < |p.layers| && InLayers(p) && p.layers[l].pending.Some? && Shaped(p.layers[l].store)
    ensures Still(p, FinalizePool(p, l))
  {
    hide Drain, Stamp, ClockEvent, Log;
  }

  lemma DataMoved(p: Pool, a: Action)
    requires Sane(p) && Allowed(p, a) && (a.Recall? || a.Prepared? || a.Streamed? || a.Finalized?)
    ensures CursorsMoved(p, a, Accepted(p, a)) && BooksKept(p, a, Accepted(p, a))
  {
    hide Still, CursorsMoved, BooksKept, LeaseFree, StepBoundary, StepCut, AppendEither, Allocate, Release;
    hide Ensure, Prepare, StreamAt, FinalizePool;
    match a {
      case Recall(o, l, idx) => RecallStill(p, o, l, idx);
      case Prepared(o, l, start, count, limit, native) => PrepareStill(p, o, l, count, limit, native);
      case Streamed(l, logical, restart) => StreamStill(p, l, logical, restart);
      case Finalized(l) => FinalizeStill(p, l);
    }
    StillMoved(p, a, Accepted(p, a));
  }

  /** One session's cursors on one layer were set, and nothing else but rows, host memory, the queue and proofs has changed. */
  ghost predicate OneSet(p: Pool, r: Pool, o: nat, l: nat, v: View, active: Option<(nat, nat)>) {
    && l < |p.layers| == |r.layers| && r.cfg == p.cfg && r.active == active && r.sessions == p.sessions
    && r.nextOwner == p.nextOwner && r.freePages == p.freePages && r.layers[l].views == p.layers[l].views[o := v]
    && forall m :: 0 <= m < |p.layers| && m != l ==> r.layers[m].views == p.layers[m].views
  }

  lemma OneMoved(p: Pool, a: Action, r: Pool, o: nat, l: nat)
    requires Exists(p, o, l) && Allowed(p, a) && OneSet(p, r, o, l, After(p, a, l, o), ActiveAfter(p, a)) && !a.Admitted? && !a.Dismissed?
    requires forall m: nat, q: nat :: Exists(p, q, m) && (m != l || q != o) ==> After(p, a, m, q) == Cursor(p, q, m)
    ensures CursorsMoved(p, a, r) && BooksKept(p, a, r)
  {
    hide Allowed;
  }

  lemma BeginMoved(p: Pool, a: Action)
    requires Sane(p) && Inv(p) && Allowed(p, a) && (a.Began? || a.BeganTransient? || a.Declared?)
    ensures CursorsMoved(p, a, Accepted(p, a)) && BooksKept(p, a, Accepted(p, a))
  {
    BeginExists(p, a);
    if !a.Declared? { BeginQuiet(p, a.o, a.l); }
    hide Inv;
    BeginSets(p, a);
    hide OneSet, Accepted, Sane, Allowed;
    OneMoved(p, a, Accepted(p, a), a.o, a.l);
  }

  lemma BeginExists(p: Pool, a: Action)
    requires Allowed(p, a) && (a.Began? || a.BeganTransient? || a.Declared?)
    ensures Exists(p, a.o, a.l) && (!a.Declared? ==> p.layers[a.l].views[a.o].stepEnd.None?)
  {
    hide LeaseFree;
  }

  lemma BeginSets(p: Pool, a: Action)
    requires Sane(p) && Allowed(p, a) && (a.Began? || a.BeganTransient? || a.Declared?) && Exists(p, a.o, a.l)
    requires !a.Declared? ==> var v := p.layers[a.l].views[a.o]; v.transientStart.None? && v.written == v.length && v.tail == []
    ensures OneSet(p, Accepted(p, a), a.o, a.l, After(p, a, a.l, a.o), ActiveAfter(p, a))
  {
    hide Sane, LeaseFree, StepData, StepCut, AppendEither, Allocate, Release;
  }

  lemma EnterMoved(p: Pool, a: Action)
    requires Sane(p) && Allowed(p, a) && (a.Opened? || a.Closed?)
    ensures CursorsMoved(p, a, Accepted(p, a)) && BooksKept(p, a, Accepted(p, a))
  {
    hide Sane, LeaseFree, StepData, StepCut, AppendEither, Allocate, Release;
  }

  lemma AppendSets(p: Pool, o: nat, l: nat, recs: seq<Record>)
    requires CanPersist(p, o, l, recs)
    ensures Exists(p, o, l)
    ensures OneSet(p, AppendPersistent(p, o, l, recs), o, l, After(p, Appended(o, l, recs), l, o), p.active)
  {
    AppendPersistentLegal(p, o, l, recs);
    var q := MakeRoom(PlannedPool(p, o, l, |recs|), l);
    HostStill(PlannedPool(p, o, l, |recs|), q);
    assert p.layers[l].views[o].transientStart.None?;
    hide *;
    PlaceSets(p, q, o, l, recs);
  }

  lemma PlaceSets(p: Pool, q: Pool, o: nat, l: nat, recs: seq<Record>)
    requires Sane(p) && Exists(p, o, l) && InLayers(PlannedPool(p, o, l, |recs|)) && p.cfg.maxWrites >= 1 && Shaped(p.layers[l].store)
    requires q == MakeRoom(PlannedPool(p, o, l, |recs|), l) && Still(PlannedPool(p, o, l, |recs|), q) && Placeable(q, o, l, recs)
    requires p.layers[l].views[o].transientStart.None?
    ensures OneSet(p, AppendPersistent(p, o, l, recs), o, l, After(p, Appended(o, l, recs), l, o), p.active)
  {
    hide Sane, MakeRoom, AppendRows, Refill, Stamp, ClockEvent, NewToks, Extend, Planned, QueueTicket, PlanProofs;
    assert AppendPersistent(p, o, l, recs) == PlaceAppend(q, o, l, recs);
  }

  lemma AppendMoved(p: Pool, o: nat, l: nat, recs: seq<Record>)
    requires Sane(p) && Inv(p) && Allowed(p, Appended(o, l, recs))
    ensures CursorsMoved(p, Appended(o, l, recs), Accepted(p, Appended(o, l, recs)))
    ensures BooksKept(p, Appended(o, l, recs), Accepted(p, Appended(o, l, recs)))
  {
    AppendOne(p, o, l, recs);
    hide Inv, Sane, Accepted, Allowed, OneSet;
    OneMoved(p, Appended(o, l, recs), Accepted(p, Appended(o, l, recs)), o, l);
  }

  lemma AppendOne(p: Pool, o: nat, l: nat, recs: seq<Record>)
    requires Sane(p) && Inv(p) && Allowed(p, Appended(o, l, recs))
    ensures Exists(p, o, l) && OneSet(p, Accepted(p, Appended(o, l, recs)), o, l, After(p, Appended(o, l, recs), l, o), p.active)
  {
    AcceptedAppend(p, o, l, recs);
    AppendKinds(p, o, l, recs);
    hide Inv, Allowed, Sane, CanPersist, CanAppend, Accepted, OneSet;
    if p.layers[l].views[o].transientStart.None? {
      AppendSets(p, o, l, recs);
    } else {
      AppendTransientInv(p, o, l, recs);
      SuffixSets(p, o, l, recs);
    }
    hide AppendPersistent, AppendTransient, After;
  }

  lemma SuffixSets(p: Pool, o: nat, l: nat, recs: seq<Record>)
    requires Exists(p, o, l) && p.layers[l].views[o].transientStart.Some?
    requires p.cfg.slots + 1 + |p.layers[l].views[o].tail| + |recs| <= |p.layers[l].store.rows|
    ensures OneSet(p, AppendTransient(p, o, l, recs), o, l, After(p, Appended(o, l, recs), l, o), p.active)
  {
  }

  lemma AppendKinds(p: Pool, o: nat, l: nat, recs: seq<Record>)
    requires Inv(p) && Allowed(p, Appended(o, l, recs))
    ensures Exists(p, o, l) && CanAppend(p, o, l, |recs|)
    ensures p.layers[l].views[o].transientStart.None? ==> CanPersist(p, o, l, recs)
  {
    hide Inv, LeaseFree, DenseReady;
  }

  lemma CommitMoved(p: Pool, o: nat, l: nat)
    requires Sane(p) && Allowed(p, Committed(o, l))
    ensures CursorsMoved(p, Committed(o, l), Accepted(p, Committed(o, l))) && BooksKept(p, Committed(o, l), Accepted(p, Committed(o, l)))
  {
    AcceptedCommit(p, o, l);
    HostStill(p, Drain(p));
    hide Drain, Allowed, Accepted;
    OneMoved(p, Committed(o, l), PoolTransactions.Commit(p, o, l), o, l);
  }

  lemma CutSets(p: Pool, o: nat, l: nat, len: nat)
    requires CanCut(p, o, l, len)
    ensures Exists(p, o, l) && Sane(p)
    ensures OneSet(p, CutTo(p, o, l, len), o, l, View(len, len, len, None, None, []), p.active)
  {
    CutLegal(p, o, l, len);
    var q := Drain(p);
    HostStill(p, q);
    assert LeaseTo(CloseAt(q.layers[l], q.cfg.limit), o).views == p.layers[l].views;
    hide *;
    CutSetsOne(p, q, o, l, len);
  }

  lemma CutSetsOne(p: Pool, q: Pool, o: nat, l: nat, len: nat)
    requires Sane(p) && InLayers(p) && q == Drain(p) && Still(p, q) && l < |p.layers| && l < |q.layers| && Shaped(q.layers[l].store)
    requires var ly := LeaseTo(CloseAt(q.layers[l], q.cfg.limit), o); ly.views == p.layers[l].views && Cuttable(q.sessions, ly, o, len)
    ensures OneSet(p, CutTo(p, o, l, len), o, l, View(len, len, len, None, None, []), p.active)
  {
    hide Sane, Drain, CloseAt, LeaseTo, Cuttable, Forget, SuffixToks, Dropped;
  }

  lemma DiscardSets(p: Pool, o: nat, l: nat)
    requires Inv(p) && CanDiscard(p, o, l)
    ensures Exists(p, o, l) && Sane(p)
    ensures var n := p.layers[l].views[o].length; OneSet(p, Discard(p, o, l), o, l, View(n, n, n, None, None, []), p.active)
  {
    InvSane(p);
    HostStill(p, Drain(p));
    hide Inv, LeaseFree;
    DiscardSetsOne(p, Drain(p), o, l);
    hide Discard;
  }

  lemma DiscardSetsOne(p: Pool, q: Pool, o: nat, l: nat)
    requires Sane(p) && Exists(p, o, l) && InLayers(p) && q == Drain(p) && Still(p, q)
    ensures var n := p.layers[l].views[o].length; OneSet(p, Discard(p, o, l), o, l, View(n, n, n, None, None, []), p.active)
  {
    hide Sane, Drain, Stamp, ClockEvent, Log;
  }

  lemma CutMoved(p: Pool, a: Action)
    requires Sane(p) && Inv(p) && Allowed(p, a) && (a.RolledBack? || a.Discarded? || a.Truncated?)
    ensures CursorsMoved(p, a, Accepted(p, a)) && BooksKept(p, a, Accepted(p, a))
  {
    CutOne(p, a);
    hide Inv, Sane, Accepted, Allowed, OneSet;
    OneMoved(p, a, Accepted(p, a), a.o, a.l);
  }

  lemma CutOne(p: Pool, a: Action)
    requires Sane(p) && Inv(p) && Allowed(p, a) && (a.RolledBack? || a.Discarded? || a.Truncated?)
    ensures Exists(p, a.o, a.l) && OneSet(p, Accepted(p, a), a.o, a.l, After(p, a, a.l, a.o), p.active)
  {
    hide Inv, Sane, OneSet, LeaseFree, StepBoundary, StepData, AppendEither, Allocate, Release, CutTo, Discard;
    match a
    case RolledBack(o, l) =>
      if InStep(p, o, l) {
        RollbackLength(p, o, l);
        CutSets(p, o, l, p.layers[l].views[o].length);
      } else {
        DiscardSets(p, o, l);
      }
    case Discarded(o, l) => DiscardSets(p, o, l);
    case Truncated(o, l, len) => TruncateOpen(p, o, l, len); CutSets(p, o, l, len);
  }

  lemma AdmitMoved(p: Pool, capacity: nat, pages: seq<nat>)
    requires Inv(p) && Sane(p) && Allowed(p, Admitted(capacity, pages))
    ensures var r := Accepted(p, Admitted(capacity, pages)); CursorsMoved(p, Admitted(capacity, pages), r) && BooksKept(p, Admitted(capacity, pages), r)
  {
    assert p.nextOwner !in p.sessions;
    hide Inv, Sane, AppendEither, StepBoundary, StepData, StepCut, Release, CanAllocate;
  }

  lemma DismissMoved(p: Pool, o: nat)
    requires Sane(p) && Inv(p) && Allowed(p, Dismissed(o))
    ensures var r := Accepted(p, Dismissed(o)); CursorsMoved(p, Dismissed(o), r) && BooksKept(p, Dismissed(o), r)
  {
    AcceptedRelease(p, o);
    ReleaseInv(p, o);
    ReleaseViews(p, o);
    ReleaseBooks(p, o);
    hide *;
    DismissSets(p, Release(p, o), o);
  }

  lemma AcceptedRelease(p: Pool, o: nat)
    requires Sane(p) && Allowed(p, Dismissed(o))
    ensures CanRelease(p, o) && Accepted(p, Dismissed(o)) == Release(p, o)
  {
    hide Sane, AppendEither, StepBoundary, StepData, StepCut, CanRelease, Release;
  }

  lemma DismissSets(p: Pool, r: Pool, o: nat)
    requires Allowed(p, Dismissed(o)) && o in p.sessions && |r.layers| == |p.layers| && r.cfg == p.cfg && r.active == p.active
    requires r.sessions == p.sessions - {o} && r.nextOwner == p.nextOwner
    requires forall x :: x in r.freePages <==> x in p.freePages || x in p.sessions[o].pages
    requires forall m: nat, q: nat :: Exists(p, q, m) && q != o ==> q in r.layers[m].views && r.layers[m].views[q] == p.layers[m].views[q]
    ensures CursorsMoved(p, Dismissed(o), r) && BooksKept(p, Dismissed(o), r)
  {
    hide Allowed;
  }

  lemma ReleaseBooks(p: Pool, o: nat)
    requires Sane(p)
    ensures Release(p, o).active == p.active
  {
    HostStill(p, Drain(p));
    hide Sane, Drain, ReleasedAt;
  }

  lemma ReleaseViews(p: Pool, o: nat)
    requires Sane(p) && Inv(p) && CanRelease(p, o)
    ensures |Release(p, o).layers| == |p.layers|
    ensures forall m: nat, q: nat :: Exists(p, q, m) && q != o ==> q in Release(p, o).layers[m].views && Release(p, o).layers[m].views[q] == p.layers[m].views[q]
  {
    ReleaseLegal(p, o);
    HostStill(p, Drain(p));
    hide Inv, CanRelease;
    forall m: nat, q: nat | Exists(p, q, m) && q != o
      ensures |Release(p, o).layers| == |p.layers| && q in Release(p, o).layers[m].views && Release(p, o).layers[m].views[q] == p.layers[m].views[q]
    {
      ReleasedViews(Drain(p).sessions, Drain(p).layers[m], o, p.cfg.limit, q);
    }
    hide ReleasedAt, Drain;
  }

  lemma ReleasedViews(ss: map<nat, Session>, ly: Layer, o: nat, limit: Option<nat>, q: nat)
    requires o in ly.views && Shaped(ly.store) && q in ly.views && q != o
    ensures q in ReleasedAt(ss, ly, o, limit).views && ReleasedAt(ss, ly, o, limit).views[q] == ly.views[q]
  {
    hide Stamp, ClockEvent, Log, Forget, SuffixToks, Dropped, Cuttable;
  }

  lemma RefusedMoved(p: Pool, a: Action)
    requires Sane(p) && !Allowed(p, a)
    ensures CursorsMoved(p, a, Refused(p, a)) && BooksKept(p, a, Refused(p, a))
  {
    HostStill(p, Drain(p));
    hide Allowed, Sane, Refused;
    if a.RolledBack? {
      RolledRefused(p, a.o, a.l);
      RollRefused(p, Drain(p), a);
    } else if a.Appended? {
      AppendRefused(p, a.o, a.l, a.recs);
      StillRefused(p, a, Refused(p, a));
    } else {
      RefusedIs(p, a);
      StillRefused(p, a, Refused(p, a));
    }
  }

  lemma AppendRefused(p: Pool, o: nat, l: nat, recs: seq<Record>)
    requires Sane(p)
    ensures Still(p, Refused(p, Appended(o, l, recs)))
  {
    hide Sane, LeaseFree;
  }

  lemma StillRefused(p: Pool, a: Action, r: Pool)
    requires Still(p, r) && !Allowed(p, a) && !a.RolledBack?
    ensures CursorsMoved(p, a, r) && BooksKept(p, a, r)
  {
    hide Allowed;
  }

  lemma RollRefused(p: Pool, q: Pool, a: Action)
    requires Still(p, q) && !Allowed(p, a) && a.RolledBack? && (Exists(p, a.o, a.l) ==> Exists(q, a.o, a.l))
    ensures var r :=
        if InStep(p, a.o, a.l) then (if OwnPrefetch(p, a.o, a.l) then q else Abandon(q, a.o, a.l))
        else if Exists(p, a.o, a.l) && p.layers[a.l].candidate == Some(a.o) then q else p;
      CursorsMoved(p, a, r) && BooksKept(p, a, r)
  {
    hide Allowed;
  }

  /** Every action of a sound pool, accepted or refused, moves exactly these cursors and books. */
  lemma StepCursors(p: Pool, a: Action)
    requires Inv(p)
    ensures CursorsMoved(p, a, Step(p, a)) && BooksKept(p, a, Step(p, a))
  {
    InvSane(p);
    StepDoes(p, a);
    hide Sane, Inv, Step, CursorsMoved, BooksKept, Allowed, Accepted, Refused;
    if !Allowed(p, a) {
      RefusedMoved(p, a);
    } else {
      match a
      case Appended(o, l, recs) => AppendMoved(p, o, l, recs);
      case Recall(_, _, _) => DataMoved(p, a);
      case Prepared(_, _, _, _, _, _) => DataMoved(p, a);
      case Streamed(_, _, _) => DataMoved(p, a);
      case Finalized(_) => DataMoved(p, a);
      case RolledBack(_, _) => CutMoved(p, a);
      case Discarded(_, _) => CutMoved(p, a);
      case Truncated(_, _, _) => CutMoved(p, a);
      case Dismissed(o) => DismissMoved(p, o);
      case Admitted(capacity, pages) => AdmitMoved(p, capacity, pages);
      case Committed(o, l) => CommitMoved(p, o, l);
      case Landed(_, _) => CopyStill(p, a); StillMoved(p, a, Accepted(p, a));
      case Reserved => CopyStill(p, a); StillMoved(p, a, Accepted(p, a));
      case Opened(_, _) => EnterMoved(p, a);
      case Closed => EnterMoved(p, a);
      case _ => BeginMoved(p, a);
    }
  }
}
