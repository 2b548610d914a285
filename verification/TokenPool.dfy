/** The shared sparse-token pool as a state machine: layers, sessions, in-flight writebacks. */
module TokenPool {
  import opened TokenTypes
  import opened Ranking
  import opened TokenStore

  /** One session's transaction on one layer; `tail` lists the GPU-only suffix written so far. */
  datatype View = View(
    length: nat, written: nat, visibleEnd: nat, stepEnd: Option<nat>, transientStart: Option<nat>, tail: seq<Record>)

  /** A session's capacity in tokens and its host pages, in logical order. */
  datatype Session = Session(capacity: nat, pages: seq<nat>)

  /** A queued device-to-host copy; `landed` are the source positions already in host memory. */
  datatype Ticket = Ticket(owner: nat, layer: nat, start: nat, source: seq<Record>, landed: set<nat>)

  /** Host-side proofs about one layer: lease, residency certificates and the cached append plan. */
  datatype Proofs = Proofs(
    lease: Option<nat>, generation: nat, residentOwner: Option<nat>, residentEnd: nat,
    order: seq<nat>, appendOwner: Option<nat>, appendCursor: nat,
    denseOwner: Option<nat>, denseEnd: nat, denseGeneration: int)

  /**
   * A prepared prefetch: sorted victims, the next one to claim, how many were ever claimed, the claim limit, and the batch it was
   * announced for. Each stream of candidates starts again at the first victim.
   */
  datatype Pending = Pending(owner: nat, victims: seq<nat>, rank: nat, top: nat, cap: nat, batch: nat, history: nat)

  /** One layer; `arena` is the specification: the record each written global ID stands for. */
  datatype Layer = Layer(
    store: Store, host: seq<Record>, proofs: Proofs, views: map<nat, View>,
    candidate: Option<nat>, pending: Option<Pending>, arena: map<int, Record>)

  /** `limit` is where priorities are renumbered: `Some(PRIORITY_LIMIT)` in the source, `None` for an unbounded clock. */
  datatype Config = Config(slots: nat, candidates: nat, pages: nat, dense: bool, maxWrites: nat, limit: Option<nat>)

  datatype Pool = Pool(
    cfg: Config, layers: seq<Layer>, sessions: map<nat, Session>, nextOwner: nat,
    freePages: set<nat>, writes: seq<Ticket>, active: Option<(nat, nat)>,
    topology: nat)

  // ----- addresses

  /** The global host ID of logical token `i` of session `o`; -1 when there is none. */
  function Tok(ss: map<nat, Session>, o: nat, i: nat): int {
    if o in ss && i < PAGE_SIZE * |ss[o].pages| then Cell(ss[o].pages, i) else -1
  }

  function Toks(ss: map<nat, Session>, o: nat, ids: seq<nat>): (r: seq<int>)
    ensures |r| == |ids| && forall k :: 0 <= k < |ids| ==> r[k] == Tok(ss, o, ids[k])
  {
    seq(|ids|, k requires 0 <= k < |ids| => Tok(ss, o, ids[k]))
  }

  /** Every host page belongs to at most one position of one session. */
  ghost predicate PagesOwned(cfg: Config, ss: map<nat, Session>) {
    && (forall o :: o in ss ==> 1 <= ss[o].capacity <= PAGE_SIZE * |ss[o].pages|)
    && (forall o, k :: o in ss && 0 <= k < |ss[o].pages| ==> ss[o].pages[k] < cfg.pages)
    && (forall o, k, o', k' ::
          (o in ss && 0 <= k < |ss[o].pages| && o' in ss && 0 <= k' < |ss[o'].pages| && ss[o].pages[k] == ss[o'].pages[k'])
          ==> (o == o' && k == k'))
  }

  lemma TokRange(cfg: Config, ss: map<nat, Session>, o: nat, i: nat)
    requires PagesOwned(cfg, ss) && o in ss && i < ss[o].capacity
    ensures 0 <= Tok(ss, o, i) < PAGE_SIZE * cfg.pages
  {
    assert ss[o].pages[i / PAGE_SIZE] < cfg.pages;
  }

  /** No two logical tokens of live sessions share a global ID. */
  lemma TokInjective(cfg: Config, ss: map<nat, Session>, o: nat, i: nat, o': nat, i': nat)
    requires PagesOwned(cfg, ss) && Tok(ss, o, i) == Tok(ss, o', i') != -1
    ensures o == o' && i == i'
  {
    var k, k' := i / PAGE_SIZE, i' / PAGE_SIZE;
    assert i' < PAGE_SIZE * |ss[o'].pages|;
    assert ss[o].pages[k] == ss[o'].pages[k'];
  }

  lemma TokDistinct(cfg: Config, ss: map<nat, Session>, o: nat, i: nat, o': nat, i': nat)
    requires PagesOwned(cfg, ss) && Tok(ss, o, i) != -1 && (o != o' || i != i')
    ensures Tok(ss, o, i) != Tok(ss, o', i')
  {
    if Tok(ss, o, i) == Tok(ss, o', i') { TokInjective(cfg, ss, o, i, o', i'); }
  }

  // ----- per-layer invariant

  function HostEnd(v: View): nat {
    if v.transientStart.Some? then v.transientStart.value else v.written
  }

  function Claimed(ly: Layer): set<int> {
    if ly.pending.None? then {}
    else set k | 0 <= k < ly.pending.value.top && k < |ly.pending.value.victims| :: ly.pending.value.victims[k]
  }

  ghost predicate StoreOK(cfg: Config, ly: Layer) {
    && MapsAgree(ly.store)
    && |ly.store.d2h| == cfg.slots + 1 && |ly.store.rows| == cfg.slots + 1 + cfg.candidates
    && |ly.store.h2d| == PAGE_SIZE * cfg.pages == |ly.host|
    && Copies(ly.store, ly.arena)
    && Ages(ly.store, Claimed(ly))
  }

  ghost predicate ViewOK(cfg: Config, s: Session, v: View) {
    && v.length <= v.written && v.length <= s.capacity
    && (v.stepEnd.None? ==> v.transientStart.None? && v.written == v.length)
    && (v.stepEnd.Some? ==> v.written <= v.visibleEnd <= v.stepEnd.value)
    && (v.stepEnd.Some? && v.transientStart.None? ==> v.stepEnd.value <= s.capacity)
    && (v.transientStart.Some? ==> v.transientStart.value == v.length && v.stepEnd.Some? && v.stepEnd.value <= v.length + cfg.candidates)
    && |v.tail| == v.written - HostEnd(v)
  }

  ghost predicate ViewsOK(cfg: Config, ss: map<nat, Session>, ly: Layer) {
    && ly.views.Keys == ss.Keys
    && (forall o :: o in ss ==> ViewOK(cfg, ss[o], ly.views[o]))
  }

  /** Token `i` of session `o` is written and host-backed on this layer. */
  predicate Backed(ly: Layer, o: nat, i: nat) {
    o in ly.views && i < HostEnd(ly.views[o])
  }

  /** The specified global IDs are exactly those of the written host-backed tokens. */
  ghost predicate ArenaOK(ss: map<nat, Session>, ly: Layer) {
    && (forall o, i: nat :: Backed(ly, o, i) ==> Tok(ss, o, i) in ly.arena)
    && (forall g :: g in ly.arena ==> exists o, i: nat :: Backed(ly, o, i) && Tok(ss, o, i) == g)
  }

  /** A queued copy will still write this token. */
  ghost predicate InFlight(ws: seq<Ticket>, l: nat, o: nat, i: nat) {
    exists k :: 0 <= k < |ws| && Carries(ws[k], l, o, i) && (i - ws[k].start) !in ws[k].landed
  }

  predicate Carries(t: Ticket, l: nat, o: nat, i: nat) {
    t.layer == l && t.owner == o && t.start <= i < t.start + |t.source|
  }

  /** Host memory holds every written token, except those a queued copy still carries. */
  ghost predicate HostOK(ss: map<nat, Session>, ly: Layer, ws: seq<Ticket>, l: nat) {
    forall o, i: nat :: Backed(ly, o, i) ==> HostHolds(ss, ly, o, i) || InFlight(ws, l, o, i)
  }

  ghost predicate HostHolds(ss: map<nat, Session>, ly: Layer, o: nat, i: nat) {
    var g := Tok(ss, o, i);
    0 <= g < |ly.host| && g in ly.arena && ly.host[g] == ly.arena[g]
  }

  /** A queued copy lies in the written part of an open persistent step and carries its records. */
  ghost predicate TicketOK(ss: map<nat, Session>, ly: Layer, t: Ticket) {
    && t.owner in ly.views
    && var v := ly.views[t.owner];
      && v.stepEnd.Some? && v.transientStart.None?
      && v.length <= t.start && t.start + |t.source| <= v.written
      && (forall i: nat :: t.start <= i < t.start + |t.source| ==>
            Tok(ss, t.owner, i) in ly.arena && ly.arena[Tok(ss, t.owner, i)] == t.source[i - t.start])
      && (forall j :: j in t.landed ==> j < |t.source| && HostHolds(ss, ly, t.owner, t.start + j))
  }

  ghost predicate TicketsOK(ss: map<nat, Session>, ly: Layer, ws: seq<Ticket>, l: nat) {
    forall k :: 0 <= k < |ws| && ws[k].layer == l ==> TicketOK(ss, ly, ws[k])
  }

  /** The suffix occupies the candidate rows, which follow the history rows. */
  ghost predicate TailAt(cfg: Config, st: Store, tail: seq<Record>) {
    cfg.slots + 1 + |tail| <= |st.rows| && forall j :: 0 <= j < |tail| ==> st.rows[cfg.slots + 1 + j] == tail[j]
  }

  /** Only the candidate owner has a transient suffix, and its rows follow the history rows. */
  ghost predicate CandidateOK(cfg: Config, ly: Layer) {
    && (forall o :: o in ly.views && ly.views[o].transientStart.Some? ==> ly.candidate == Some(o))
    && (ly.candidate.Some? ==>
          ly.candidate.value in ly.views && ly.views[ly.candidate.value].transientStart.Some?
          && TailAt(cfg, ly.store, ly.views[ly.candidate.value].tail))
  }

  predicate AtRow(ss: map<nat, Session>, ly: Layer, o: nat, i: nat, row: int) {
    0 <= Tok(ss, o, i) < |ly.store.h2d| && ly.store.h2d[Tok(ss, o, i)] == row
  }

  predicate Direct(ss: map<nat, Session>, ly: Layer, o: nat, i: nat) {
    AtRow(ss, ly, o, i, i + 1)
  }

  predicate Resident(ss: map<nat, Session>, ly: Layer, o: nat, i: nat) {
    0 <= Tok(ss, o, i) < |ly.store.h2d| && Mapped(ly.store, Tok(ss, o, i))
  }

  /** Residency certificates hold only for the leased session and only say what the maps show. */
  ghost predicate ProofsOK(cfg: Config, ss: map<nat, Session>, ly: Layer) {
    var c := ly.proofs;
    && |c.order| == cfg.slots
    && (cfg.dense ==> forall i :: 0 <= i < cfg.slots ==> c.order[i] == i + 1)
    && (c.residentOwner.Some? ==>
          var o := c.residentOwner.value;
          o in ly.views && c.lease == Some(o) && c.residentEnd <= HostEnd(ly.views[o])
          && (forall i: nat :: i < c.residentEnd ==> Resident(ss, ly, o, i))
          && (cfg.dense ==> c.denseOwner == Some(o) && c.denseEnd == c.residentEnd))
    && (c.denseOwner.Some? ==>
          cfg.dense && c.residentOwner == c.denseOwner && c.residentEnd == c.denseEnd
          && (forall i: nat :: i < c.denseEnd ==> Direct(ss, ly, c.denseOwner.value, i)))
  }

  /** The append plan: consumed entries hold the session's tokens in order, the rest is the FIFO order. */
  ghost predicate PlanOK(cfg: Config, ss: map<nat, Session>, ly: Layer) {
    var c := ly.proofs;
    c.appendOwner.Some? && !cfg.dense ==>
      && c.appendOwner.value in ly.views && c.lease == c.appendOwner
      && c.appendCursor == HostEnd(ly.views[c.appendOwner.value]) <= |c.order|
      && Distinct(c.order) && (forall i :: 0 <= i < |c.order| ==> 1 <= c.order[i] < |ly.store.prio|)
      && (forall i: nat :: i < c.appendCursor ==> AtRow(ss, ly, c.appendOwner.value, i, c.order[i]))
      && PlanSorted(ly.store.prio, c.order, c.appendCursor)
  }

  ghost predicate PlanSorted(prio: seq<int>, order: seq<nat>, cursor: nat)
    requires forall i :: 0 <= i < |order| ==> order[i] < |prio|
  {
    && (forall i, j :: cursor <= i < j < |order| ==> Before(prio, order[i], order[j]))
    && (forall i, j :: 0 <= i < cursor <= j < |order| ==> prio[order[i]] > prio[order[j]])
  }

  /** While a prefetch is prepared no proof is published and its session has no copy in flight. */
  ghost predicate PendingOK(cfg: Config, ly: Layer, ws: seq<Ticket>, l: nat) {
    ly.pending.Some? ==>
      var q := ly.pending.value;
      && q.owner in ly.views && ly.proofs.lease == Some(q.owner) && ly.views[q.owner].stepEnd.Some?
      && ly.views[q.owner].written < ly.views[q.owner].stepEnd.value
      && ly.proofs.residentOwner.None? && ly.proofs.appendOwner.None? && ly.proofs.denseOwner.None?
      && |q.victims| == cfg.slots && Distinct(q.victims)
      && (forall k :: 0 <= k < |q.victims| ==> 1 <= q.victims[k] <= cfg.slots)
      && q.rank <= q.top <= q.cap && q.cap + q.batch <= cfg.slots && q.history == HostEnd(ly.views[q.owner])
      && (forall i: nat :: !InFlight(ws, l, q.owner, i))
  }

  ghost predicate LayerInv(cfg: Config, ss: map<nat, Session>, ly: Layer, ws: seq<Ticket>, l: nat) {
    && StoreOK(cfg, ly) && ViewsOK(cfg, ss, ly) && ArenaOK(ss, ly)
    && HostOK(ss, ly, ws, l) && TicketsOK(ss, ly, ws, l)
    && CandidateOK(cfg, ly) && ProofsOK(cfg, ss, ly) && PlanOK(cfg, ss, ly) && PendingOK(cfg, ly, ws, l)
  }

  ghost predicate Inv(p: Pool) {
    && p.cfg.slots >= 1 && p.cfg.slots + p.cfg.candidates < MISSING && PAGE_SIZE * p.cfg.pages < MISSING
    && PagesOwned(p.cfg, p.sessions)
    && (forall g :: g in p.freePages ==> g < p.cfg.pages)
    && (forall o, k :: o in p.sessions && 0 <= k < |p.sessions[o].pages| ==> p.sessions[o].pages[k] !in p.freePages)
    && (forall o :: o in p.sessions ==> o < p.nextOwner)
    && 1 <= p.cfg.maxWrites && |p.writes| <= p.cfg.maxWrites
    && (forall k :: 0 <= k < |p.writes| ==> p.writes[k].layer < |p.layers|)
    && (forall l :: 0 <= l < |p.layers| ==> LayerInv(p.cfg, p.sessions, p.layers[l], p.writes, l))
    && (forall l, l' :: 0 <= l < |p.layers| && 0 <= l' < |p.layers| && p.layers[l].pending.Some? && p.layers[l'].pending.Some? ==> l == l')
    && (p.active.Some? ==>
          p.active.value.0 in p.sessions && p.active.value.1 < |p.layers|
          && p.layers[p.active.value.1].proofs.lease == Some(p.active.value.0))
  }

  // ----- the specification: one append-only record sequence per session and layer

  /** The record a written host-backed token stands for. */
  function Entry(ss: map<nat, Session>, ly: Layer, o: nat, i: nat): Record {
    if Tok(ss, o, i) in ly.arena then ly.arena[Tok(ss, o, i)] else Record([])
  }

  /** The records a session has written on a layer: host-backed history, then the GPU-only suffix. */
  function Logical(ss: map<nat, Session>, ly: Layer, o: nat): (r: seq<Record>)
    requires o in ly.views
    ensures |r| == HostEnd(ly.views[o]) + |ly.views[o].tail|
    ensures forall i: nat :: i < HostEnd(ly.views[o]) ==> r[i] == Entry(ss, ly, o, i)
    ensures forall j :: 0 <= j < |ly.views[o].tail| ==> r[HostEnd(ly.views[o]) + j] == ly.views[o].tail[j]
  {
    seq(HostEnd(ly.views[o]), i requires 0 <= i < HostEnd(ly.views[o]) => Entry(ss, ly, o, i)) + ly.views[o].tail
  }

  /** Equal history ends, suffixes and entries: equal sequences. */
  lemma LogicalSame(ss: map<nat, Session>, a: Layer, b: Layer, o: nat)
    requires o in a.views && o in b.views
    requires HostEnd(a.views[o]) == HostEnd(b.views[o]) && a.views[o].tail == b.views[o].tail
    requires forall i: nat :: i < HostEnd(a.views[o]) ==> Entry(ss, a, o, i) == Entry(ss, b, o, i)
    ensures Logical(ss, a, o) == Logical(ss, b, o)
  {
  }

  /** No step of this kind changes what any session has written on any layer. */
  ghost predicate SameLogical(p: Pool, r: Pool) {
    && |r.layers| == |p.layers|
    && forall l, o :: 0 <= l < |p.layers| && o in p.layers[l].views ==>
         o in r.layers[l].views && Logical(r.sessions, r.layers[l], o) == Logical(p.sessions, p.layers[l], o)
  }

  /** Only session `o` on layer `l` sees its sequence change. */
  ghost predicate SameLogicalBut(p: Pool, r: Pool, l: nat, o: nat) {
    && |r.layers| == |p.layers|
    && forall m, q :: 0 <= m < |p.layers| && q in p.layers[m].views && (m != l || q != o) ==>
         q in r.layers[m].views && Logical(r.sessions, r.layers[m], q) == Logical(p.sessions, p.layers[m], q)
  }
}
