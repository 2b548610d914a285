/** A rollback that is refused half-way: a run after which a residency certificate is wrong. */
module RollbackGap {
  import opened TokenTypes
  import opened Ranking
  import opened TokenStore
  import opened TokenPool
  import opened PoolWritebacks
  import opened PoolTransactions
  import opened PoolAppend
  import opened PoolPrefetch
  import opened PoolSessions
  import opened PoolRuns
  import opened PoolTheorems

  /** Two device rows, one candidate row, two host pages. */
  function GapConfig(): Config { Config(2, 1, 2, false, 1, Some(PRIORITY_LIMIT)) }

  /** Two sessions of one page each. */
  function Both(): map<nat, Session> { map[0 := Session(64, [0]), 1 := Session(64, [1])] }

  /**
   * Session 0 writes a record; session 1 leases the candidate rows; the rollback of session 0 is refused;
   * session 1 gives the rows back; session 0 writes two records.
   */
  function GapRun(r: Record, a: Record, b: Record): seq<Action> {
    [Admitted(64, [0]), Admitted(64, [1]), Began(0, 0, 1), Appended(0, 0, [r]), BeganTransient(1, 0, 1), RolledBack(0, 0),
     Discarded(1, 0), Began(0, 0, 2), Appended(0, 0, [a]), Appended(0, 0, [b])]
  }

  // ----- one layer in numbers

  /** The tables of the two rows and of the first two host IDs. */
  datatype Tables = Tables(h0: int, h1: int, d1: int, d2: int, a1: int, a2: int, clock: nat)

  ghost predicate Reads(st: Store, t: Tables) {
    && |st.h2d| == 128 && |st.rows| == 4 && |st.free| == 3
    && st.h2d[0] == t.h0 && st.h2d[1] == t.h1 && st.d2h == [MISSING, t.d1, t.d2] && st.prio == [MISSING, t.a1, t.a2] && st.clock == t.clock
  }

  /** The pool between two actions of the run: views of both sessions, candidate owner and tables. */
  ghost predicate At(p: Pool, v: View, w: View, candidate: Option<nat>, t: Tables) {
    && Sane(p) && p.cfg == GapConfig() && p.sessions == Both() && p.active.None? && |p.layers| == 1
    && p.layers[0].pending.None? && p.layers[0].candidate == candidate && p.layers[0].views == map[0 := v, 1 := w]
    && Reads(p.layers[0].store, t)
  }

  /** What the proofs claim for session 0 after an append in plan order. */
  ghost predicate Certified(c: Proofs, order: seq<nat>, end: nat) {
    c.lease == Some(0) && c.order == order && c.residentOwner == Some(0) && c.residentEnd == end && c.appendOwner == Some(0) && c.appendCursor == end
  }

  // ----- the stable order of two rows

  lemma TwoRows(prio: seq<int>)
    requires |prio| == 3
    ensures Sort(prio, Range(1, 3)) == if prio[2] < prio[1] then [2, 1] else [1, 2]
  {
    var xs := Range(1, 3);
    assert xs == [1, 2];
    SortSorts(prio, xs);
    SortedDistinct(prio, Sort(prio, xs));
    var r := Sort(prio, xs);
    assert r[0] in r && r[1] in r && r[0] != r[1] && Before(prio, r[0], r[1]);
    assert r == [r[0], r[1]];
  }

  // ----- one append

  /** The tables after one record of host ID `g` is put into row `s`: what the row held is forgotten through the row. */
  function Next(t: Tables, g: int, s: nat): Tables {
    var held := if s == 1 then t.d1 else t.d2;
    var h0 := if held == 0 then MISSING else t.h0;
    var h1 := if held == 1 then MISSING else t.h1;
    Tables(if g == 0 then s else h0, if g == 1 then s else h1, if s == 1 then g else t.d1, if s == 2 then g else t.d2,
      if s == 1 then t.clock else t.a1, if s == 2 then t.clock else t.a2, t.clock + 1)
  }

  lemma OneRow(st: Store, t: Tables, g: int, s: nat, r: Record, limit: Option<nat>)
    requires Shaped(st) && Reads(st, t) && 0 <= g < 2 && 1 <= s <= 2 && !AtLimit(st, limit)
    ensures HostIds(st, [g]) && RowIds(st, [s])
    ensures var u := Stamp(ClockEvent(Refill(st, [g], [s], [r]), limit), [s]); Shaped(u) && Reads(u, Next(t, g, s))
  {
    var e := Evict(st, [s]);
    assert BindAll(e, [g], [s], [r]) == Bind(BindAll(e, [], [], []), g, s, r);
    assert forall x :: Held(st, [s], x) <==> st.d2h[s] == x;
    assert e.h2d[0] == (if st.d2h[s] == 0 then MISSING else t.h0) && e.h2d[1] == (if st.d2h[s] == 1 then MISSING else t.h1);
  }

  /** The row a planned append of token `g` takes: the oldest for the first token, the next planned one for the second. */
  ghost predicate Plans(c: Proofs, t: Tables, g: nat, order: seq<nat>) {
    && order == (if g == 0 then (if t.a2 < t.a1 then [2, 1] else [1, 2]) else c.order)
    && |order| == 2 && 1 <= order[0] <= 2 && 1 <= order[1] <= 2
    && (g > 0 ==> Certified(c, order, g))
  }

  lemma SettledPlan(p: Pool, v: View, w: View, t: Tables, order: seq<nat>)
    requires At(p, v, w, None, t) && v.transientStart.None? && v.written < 2 && Plans(p.layers[0].proofs, t, v.written, order)
    ensures Settled(PlannedPool(p, 0, 0, 1).layers[0].proofs, order, v.written)
  {
    TwoRows(p.layers[0].store.prio);
    hide Sane;
  }

  /** The plan is settled for session 0 up to its written tokens. */
  ghost predicate Settled(c: Proofs, order: seq<nat>, g: nat) {
    && c.lease == Some(0) && c.order == order && c.appendOwner == Some(0) && c.appendCursor == g
    && (g > 0 ==> c.residentOwner == Some(0) && c.residentEnd == g)
    && |order| == 2 && 1 <= order[0] <= 2 && 1 <= order[1] <= 2
  }

  lemma RowsAre(ly: Layer, v: View, t: Tables, order: seq<nat>)
    requires Shaped(ly.store) && Reads(ly.store, t) && 0 in ly.views && ly.views[0] == v && v.transientStart.None? && v.written < 2
    requires Settled(ly.proofs, order, v.written)
    ensures Planned(GapConfig(), Both(), ly, 0, v.written, 1)
    ensures AppendRows(GapConfig(), Both(), ly, 0, 1) == [order[v.written]] && NewToks(Both(), ly, 0, 1) == [v.written]
  {
    assert Tok(Both(), 0, v.written) == v.written;
    assert order[v.written .. v.written + 1] == [order[v.written]];
  }

  lemma PlacedLayer(ly: Layer, v: View, w: View, t: Tables, order: seq<nat>, r: Record)
    requires Shaped(ly.store) && Reads(ly.store, t) && ly.views == map[0 := v, 1 := w] && v.transientStart.None? && v.written < 2
    requires Settled(ly.proofs, order, v.written) && t.clock < PRIORITY_LIMIT
    ensures HostIds(ly.store, NewToks(Both(), ly, 0, 1)) && RowIds(ly.store, AppendRows(GapConfig(), Both(), ly, 0, 1))
    ensures var x := AppendAt(GapConfig(), Both(), ly, 0, [r], Some(PRIORITY_LIMIT)); var end := v.written + 1;
      && Shaped(x.store) && Reads(x.store, Next(t, v.written, order[v.written])) && Certified(x.proofs, order, end)
      && x.views == map[0 := v.(written := end, visibleEnd := if v.visibleEnd < end then end else v.visibleEnd), 1 := w]
      && x.host == ly.host && x.pending == ly.pending && x.candidate == ly.candidate
  {
    RowsAre(ly, v, t, order);
    OneRow(ly.store, t, v.written, order[v.written], r, Some(PRIORITY_LIMIT));
    hide Refill, Stamp, ClockEvent, Next, AppendRows, NewToks, Planned, HostIds, RowIds, Reads;
  }

  lemma PlacedOne(q: Pool, v: View, w: View, t: Tables, order: seq<nat>, r: Record)
    requires At(q, v, w, None, t) && v.transientStart.None? && v.written < 2 && t.clock < PRIORITY_LIMIT
    requires Settled(q.layers[0].proofs, order, v.written)
    ensures Placeable(q, 0, 0, [r])
    ensures var x := PlaceAppend(q, 0, 0, [r]); var end := v.written + 1;
      && At(x, v.(written := end, visibleEnd := if v.visibleEnd < end then end else v.visibleEnd), w, None,
            Next(t, v.written, order[v.written]))
      && Certified(x.layers[0].proofs, order, end)
  {
    var ly := q.layers[0];
    PlacedLayer(ly, v, w, t, order, r);
    ReadsSize(ly.store, t);
    var x := AppendAt(GapConfig(), Both(), ly, 0, [r], Some(PRIORITY_LIMIT));
    ReadsSize(x.store, Next(t, v.written, order[v.written]));
    hide Reads, Next, AppendRows, NewToks, HostIds, RowIds, Shaped, AppendAt, Certified, Settled;
  }

  lemma ReadsSize(st: Store, t: Tables)
    requires Reads(st, t)
    ensures |st.d2h| == 3 && |st.h2d| == 128
  {
  }

  /** An append of one record by session 0, while nobody holds the candidate rows. */
  lemma AppendsOne(p: Pool, v: View, w: View, t: Tables, order: seq<nat>, r: Record)
    requires At(p, v, w, None, t) && v.transientStart.None? && v.written < 2 && t.clock < PRIORITY_LIMIT
    requires v.stepEnd.Some? && v.written < v.stepEnd.value && Plans(p.layers[0].proofs, t, v.written, order)
    ensures var x := Step(p, Appended(0, 0, [r])); var end := v.written + 1;
      && At(x, v.(written := end, visibleEnd := if v.visibleEnd < end then end else v.visibleEnd), w, None,
            Next(t, v.written, order[v.written]))
      && Certified(x.layers[0].proofs, order, end)
  {
    AppendAllowed(p, v, w, t, r);
    SettledPlan(p, v, w, t, order);
    var q := MakeRoom(PlannedPool(p, 0, 0, 1), 0);
    assert At(q, v, w, None, t);
    hide Next, Plans, Reads, Sane;
    PlacedOne(q, v, w, t, order, r);
  }

  lemma AppendAllowed(p: Pool, v: View, w: View, t: Tables, r: Record)
    requires At(p, v, w, None, t) && v.transientStart.None? && v.stepEnd.Some? && v.written < v.stepEnd.value
    ensures Step(p, Appended(0, 0, [r])) == AppendPersistent(p, 0, 0, [r])
  {
    StepDoes(p, Appended(0, 0, [r]));
    hide Reads, Sane, Step, AppendPersistent, StepBoundary, StepCut, StepData, Allocate, Release;
  }

  // ----- the other actions

  lemma Begins(p: Pool, v: View, w: View, t: Tables, count: nat)
    requires At(p, v, w, None, t) && v.stepEnd.None? && 1 <= count && v.length + count <= 64
    ensures At(Step(p, Began(0, 0, count)), v.(stepEnd := Some(v.length + count), written := v.length, visibleEnd := v.length), w, None, t)
  {
    StepDoes(p, Began(0, 0, count));
    hide Step, Reads, StepCut, StepData, AppendEither, Allocate, Release;
    assert CanBegin(p, 0, 0, count);
  }

  lemma Leases(p: Pool, v: View, w: View, t: Tables)
    requires At(p, v, w, None, t) && w == FreshView(0)
    ensures At(Step(p, BeganTransient(1, 0, 1)), v, View(0, 0, 0, Some(1), Some(0), []), Some(1), t)
  {
    StepDoes(p, BeganTransient(1, 0, 1));
    hide Step, Reads, StepCut, StepData, AppendEither, Allocate, Release;
    assert CanBeginTransient(p, 1, 0, 1);
  }

  /** The rollback is refused, but the step is gone. */
  lemma Tears(p: Pool, v: View, w: View, t: Tables)
    requires At(p, v, w, Some(1), t) && v.stepEnd.Some? && v.transientStart.None? && v.length < v.written
    ensures Torn(p, RolledBack(0, 0)) && At(Step(p, RolledBack(0, 0)), v.(stepEnd := None), w, Some(1), t)
  {
    StepDoes(p, RolledBack(0, 0));
    assert !LeaseFree(p, 0, 0);
    hide Step, Reads, Accepted, LeaseFree;
  }

  lemma GivesBack(p: Pool, v: View, w: View, t: Tables)
    requires At(p, v, w, Some(1), t) && w.transientStart.Some? && w.length == 0
    ensures At(Step(p, Discarded(1, 0)), v, FreshView(0), None, t)
  {
    StepDoes(p, Discarded(1, 0));
    hide Step, Reads, StepBoundary, StepData, AppendEither, Allocate, Release;
    assert CanDiscard(p, 1, 0);
  }

  lemma Opening(r: Record)
    ensures var p := Step(Step(EmptyPool(GapConfig(), 1), Admitted(64, [0])), Admitted(64, [1]));
      At(p, FreshView(0), FreshView(0), None, Tables(MISSING, MISSING, MISSING, MISSING, -1, -1, 0))
  {
    var p0 := EmptyPool(GapConfig(), 1);
    Starts(p0);
    hide EmptyPool, EmptyLayer;
    Admits(p0, 0);
    Admits(Step(p0, Admitted(64, [0])), 1);
    var p := Step(Step(p0, Admitted(64, [0])), Admitted(64, [1]));
    hide Step;
    assert p.layers[0].views == map[0 := FreshView(0), 1 := FreshView(0)];
  }

  /** A pool with the first `n` sessions of the run. */
  ghost predicate Early(p: Pool, n: nat) {
    && Sane(p) && p.cfg == GapConfig() && p.active.None? && |p.layers| == 1 && p.nextOwner == n && n <= 2
    && p.sessions == (if n == 0 then map[] else if n == 1 then map[0 := Session(64, [0])] else Both())
    && p.freePages == (if n == 0 then {0, 1} else if n == 1 then {1} else {})
    && p.layers[0].views == (if n == 0 then map[] else if n == 1 then map[0 := FreshView(0)] else map[0 := FreshView(0), 1 := FreshView(0)])
    && p.layers[0].pending.None? && p.layers[0].candidate.None?
    && Reads(p.layers[0].store, Tables(MISSING, MISSING, MISSING, MISSING, -1, -1, 0))
  }

  lemma Starts(p: Pool)
    requires p == EmptyPool(GapConfig(), 1)
    ensures Early(p, 0)
  {
    assert forall g: nat :: g in Range(0, 2) <==> g == 0 || g == 1;
    assert p.freePages == {0, 1};
  }

  lemma Admits(p: Pool, n: nat)
    requires Early(p, n) && n < 2
    ensures Early(Step(p, Admitted(64, [n])), n + 1)
  {
    StepDoes(p, Admitted(64, [n]));
    hide Step, Reads, StepBoundary, StepCut, StepData, AppendEither, Release;
    assert PagesFor(64) == 1;
    assert CanAllocate(p, 64, [n]);
    var r := Allocate(p, 64, [n]);
    assert (set x | x in [n]) == {n};
    assert r.freePages == p.freePages - {n};
  }

  // ----- the run

  /** The certificate of session 0 covers both tokens, token 0 is mapped nowhere, and two maps disagree. */
  lemma Broken(p: Pool, v: View, w: View, t: Tables)
    requires At(p, v, w, None, t) && v.transientStart.None? && v.written == 2 && Certified(p.layers[0].proofs, [2, 1], 2)
    requires t.h0 == MISSING && t.d2 == 0
    ensures Exists(p, 0, 0) && AllResident(p.cfg, p.sessions, p.layers[0], 0) && HostEnd(p.layers[0].views[0]) == 2
    ensures !Resident(p.sessions, p.layers[0], 0, 0) && !MapsAgree(p.layers[0].store) && !Inv(p)
  {
    var st := p.layers[0].store;
    assert Live(st, 2) && st.h2d[st.d2h[2]] != 2;
    if Inv(p) { InvMaps(p, 0); }
    hide Inv;
  }

  lemma InvMaps(p: Pool, l: nat)
    requires Inv(p) && l < |p.layers|
    ensures MapsAgree(p.layers[l].store)
  {
    assert LayerInv(p.cfg, p.sessions, p.layers[l], p.writes, l);
  }

  /** The first half: session 0 has one token nobody owns, in row 1, and no open step. */
  lemma FirstHalf(r: Record) returns (p: Pool)
    ensures p == Run(EmptyPool(GapConfig(), 1), GapRun(r, r, r)[..7])
    ensures At(p, View(0, 1, 1, None, None, []), FreshView(0), None, Tables(1, MISSING, 0, MISSING, 0, -1, 1))
    ensures Torn(Run(EmptyPool(GapConfig(), 1), GapRun(r, r, r)[..5]), RolledBack(0, 0))
  {
    hide At, Certified, Step, Torn, EmptyPool;
    var t := Tables(MISSING, MISSING, MISSING, MISSING, -1, -1, 0);
    Opening(r);
    var p0 := EmptyPool(GapConfig(), 1);
    var p2 := Step(Step(p0, Admitted(64, [0])), Admitted(64, [1]));
    Begins(p2, FreshView(0), FreshView(0), t, 1);
    var p3, v3 := Step(p2, Began(0, 0, 1)), View(0, 0, 0, Some(1), None, []);
    AtLayer(p3, v3, FreshView(0), None, t);
    AppendsOne(p3, v3, FreshView(0), t, [1, 2], r);
    var p4, v4, t4 := Step(p3, Appended(0, 0, [r])), View(0, 1, 1, Some(1), None, []), Tables(1, MISSING, 0, MISSING, 0, -1, 1);
    assert Next(t, 0, 1) == t4;
    Leases(p4, v4, FreshView(0), t4);
    var p5, w5 := Step(p4, BeganTransient(1, 0, 1)), View(0, 0, 0, Some(1), Some(0), []);
    Tears(p5, v4, w5, t4);
    var p6 := Step(p5, RolledBack(0, 0));
    GivesBack(p6, v4.(stepEnd := None), w5, t4);
    p := Step(p6, Discarded(1, 0));
    SevenSteps(p0, GapRun(r, r, r)[..7]);
    FiveSteps(p0, GapRun(r, r, r)[..5]);
  }

  lemma AtLayer(p: Pool, v: View, w: View, candidate: Option<nat>, t: Tables)
    requires At(p, v, w, candidate, t)
    ensures |p.layers| == 1
  {
  }

  lemma FiveSteps(p: Pool, acts: seq<Action>)
    requires |acts| == 5
    ensures Run(p, acts) == Step(Step(Step(Step(Step(p, acts[0]), acts[1]), acts[2]), acts[3]), acts[4])
  {
    hide Step;
    RunAppend(p, acts[..4], acts[4]);
    RunAppend(p, acts[..3], acts[3]);
    RunAppend(p, acts[..2], acts[2]);
    RunAppend(p, acts[..1], acts[1]);
    RunAppend(p, [], acts[0]);
    assert acts == acts[..4] + [acts[4]] && acts[..4] == acts[..3] + [acts[3]] && acts[..3] == acts[..2] + [acts[2]];
    assert acts[..2] == acts[..1] + [acts[1]] && acts[..1] == [] + [acts[0]];
  }

  lemma SevenSteps(p: Pool, acts: seq<Action>)
    requires |acts| == 7
    ensures Run(p, acts) == Step(Step(Step(Step(Step(Step(Step(p, acts[0]), acts[1]), acts[2]), acts[3]), acts[4]), acts[5]), acts[6])
  {
    hide Step;
    RunAppend(p, acts[..6], acts[6]);
    RunAppend(p, acts[..5], acts[5]);
    FiveSteps(p, acts[..5]);
    assert acts == acts[..6] + [acts[6]] && acts[..6] == acts[..5] + [acts[5]];
  }

  /** From a new pool, ten calls, one of them a refused rollback, certify a token that is on no device row. */
  lemma TornRollback(r: Record, a: Record, b: Record)
    ensures Torn(Run(EmptyPool(GapConfig(), 1), GapRun(r, a, b)[..5]), GapRun(r, a, b)[5])
    ensures var p := Run(EmptyPool(GapConfig(), 1), GapRun(r, a, b));
      && Exists(p, 0, 0) && AllResident(p.cfg, p.sessions, p.layers[0], 0) && HostEnd(p.layers[0].views[0]) == 2
      && !Resident(p.sessions, p.layers[0], 0, 0) && !MapsAgree(p.layers[0].store) && !Inv(p)
  {
    hide At, Plans, Certified, Next, Step, Torn, EmptyPool, AllResident, Resident, MapsAgree, Inv;
    var p7 := FirstHalf(r);
    var p0, acts := EmptyPool(GapConfig(), 1), GapRun(r, a, b);
    assert acts[..7] == GapRun(r, r, r)[..7] && acts[..5] == GapRun(r, r, r)[..5];
    SecondHalf(p7, a, b);
    RunAppend(p0, acts[..7], acts[7]);
    RunAppend(p0, acts[..8], acts[8]);
    RunAppend(p0, acts[..9], acts[9]);
    assert acts[..8] == acts[..7] + [acts[7]] && acts[..9] == acts[..8] + [acts[8]] && acts == acts[..9] + [acts[9]];
  }

  lemma SecondHalf(p: Pool, a: Record, b: Record)
    requires At(p, View(0, 1, 1, None, None, []), FreshView(0), None, Tables(1, MISSING, 0, MISSING, 0, -1, 1))
    ensures var f := Step(Step(Step(p, Began(0, 0, 2)), Appended(0, 0, [a])), Appended(0, 0, [b]));
      && Exists(f, 0, 0) && AllResident(f.cfg, f.sessions, f.layers[0], 0) && HostEnd(f.layers[0].views[0]) == 2
      && !Resident(f.sessions, f.layers[0], 0, 0) && !MapsAgree(f.layers[0].store) && !Inv(f)
  {
    hide At, Step, AllResident, Resident, MapsAgree, Inv;
    var t := Tables(1, MISSING, 0, MISSING, 0, -1, 1);
    Begins(p, View(0, 1, 1, None, None, []), FreshView(0), t, 2);
    var p8, v8 := Step(p, Began(0, 0, 2)), View(0, 0, 0, Some(2), None, []);
    AtLayer(p8, v8, FreshView(0), None, t);
    AppendsOne(p8, v8, FreshView(0), t, [2, 1], a);
    var p9, v9, t9 := Step(p8, Appended(0, 0, [a])), View(0, 1, 1, Some(2), None, []), Tables(2, MISSING, 0, 0, 0, 1, 2);
    assert Next(t, 0, 2) == t9;
    AtLayer(p9, v9, FreshView(0), None, t9);
    AppendsOne(p9, v9, FreshView(0), t9, [2, 1], b);
    var f, v := Step(p9, Appended(0, 0, [b])), View(0, 2, 2, Some(2), None, []);
    assert Next(t9, 1, 1) == Tables(MISSING, 1, 1, 0, 2, 1, 3);
    Broken(f, v, FreshView(0), Tables(MISSING, 1, 1, 0, 2, 1, 3));
  }
}
