/** Renumbering priorities at the clock limit is invisible: no run of the pool can tell one limit from another. */
module ClockRuns {
  import opened TokenTypes
  import opened TokenStore
  import opened TokenPool
  import opened PoolWritebacks
  import opened PoolTransactions
  import opened PoolAppend
  import opened PoolPrefetch
  import opened PoolSessions
  import opened PoolRuns
  import opened StoreTwins
  import opened LayerTwins
  import opened PoolTwins
  import opened TwinSteps

  // ----- the limit is no part of soundness

  function WithLimit(p: Pool, limit: Option<nat>): Pool {
    p.(cfg := p.cfg.(limit := limit))
  }

  lemma LimitLayer(c: Config, d: Config, ss: map<nat, Session>, ly: Layer, ws: seq<Ticket>, l: nat)
    requires Peers(c, d) && LayerInv(c, ss, ly, ws, l)
    ensures LayerInv(d, ss, ly, ws, l)
  {
    hide ArenaOK, HostOK, TicketsOK, MapsAgree, Copies, Ages, PlanSorted, Resident, Direct, AtRow, InFlight;
  }

  lemma LimitInv(p: Pool, limit: Option<nat>)
    requires Inv(p)
    ensures Inv(WithLimit(p, limit)) && Twins(p, WithLimit(p, limit))
  {
    var q := WithLimit(p, limit);
    forall l | 0 <= l < |p.layers| ensures LayerInv(q.cfg, q.sessions, q.layers[l], q.writes, l) {
      LimitLayer(p.cfg, q.cfg, p.sessions, p.layers[l], p.writes, l);
    }
    forall l | 0 <= l < |p.layers| ensures TwinLayer(p.layers[l], q.layers[l]) {
      LimitTwin(p.cfg, p.sessions, p.layers[l], p.writes, l);
    }
    hide LayerInv, TwinLayer;
  }

  lemma LimitTwin(cfg: Config, ss: map<nat, Session>, ly: Layer, ws: seq<Ticket>, l: nat)
    requires LayerInv(cfg, ss, ly, ws, l)
    ensures TwinLayer(ly, ly)
  {
    hide ArenaOK, HostOK, TicketsOK, Copies, ProofsOK, PlanOK, CandidateOK, PendingOK;
  }

  // ----- victims and contents

  /** The rows that lost the token they held, layer by layer. */
  ghost function Victims(p: Pool, r: Pool): set<(int, int)> {
    set l, s | 0 <= l < |p.layers| && 1 <= s < |p.layers[l].store.d2h| && Lost(p, r, l, s) :: (l, s)
  }

  ghost predicate Lost(p: Pool, r: Pool, l: int, s: int) {
    && 0 <= l < |p.layers| && l < |r.layers| && 0 <= s < |p.layers[l].store.d2h| && s < |r.layers[l].store.d2h|
    && Live(p.layers[l].store, s) && r.layers[l].store.d2h[s] != p.layers[l].store.d2h[s]
  }

  /** The victims of each action of a run. */
  ghost function VictimLog(p: Pool, acts: seq<Action>): seq<set<(int, int)>>
    decreases |acts|
  {
    if acts == [] then [] else [Victims(p, Step(p, acts[0]))] + VictimLog(Step(p, acts[0]), acts[1..])
  }

  /** Every session has the same records on every layer. */
  ghost predicate SameRecords(p: Pool, q: Pool) {
    forall l: nat, o :: l < |p.layers| ==> SequenceOf(p, l, o) == SequenceOf(q, l, o)
  }

  /** Every row of every layer holds the same token, and the same record for it. */
  ghost predicate SameRows(p: Pool, q: Pool) {
    && |p.layers| == |q.layers|
    && forall l: nat :: l < |p.layers| ==> SameRowsAt(p.layers[l].store, q.layers[l].store)
  }

  ghost predicate SameRowsAt(a: Store, b: Store) {
    && Shaped(a) && Shaped(b) && a.d2h == b.d2h && a.h2d == b.h2d
    && forall s :: 1 <= s < |a.d2h| && Live(a, s) ==> a.rows[s] == b.rows[s]
  }

  lemma VictimsTwins(p: Pool, q: Pool, p': Pool, q': Pool)
    requires Twins(p, q) && Twins(p', q')
    ensures Victims(p, p') == Victims(q, q')
  {
    forall l, s ensures Lost(p, p', l, s) <==> Lost(q, q', l, s) {
      if 0 <= l < |p.layers| { TwinTables(p, q, l); }
      if 0 <= l < |p'.layers| { TwinTables(p', q', l); }
      hide Twins;
    }
    forall l | 0 <= l < |p.layers| ensures |p.layers[l].store.d2h| == |q.layers[l].store.d2h| { TwinTables(p, q, l); }
    TwinHeads(p, q);
    hide Twins, Lost;
  }

  lemma TwinTables(p: Pool, q: Pool, l: nat)
    requires Twins(p, q) && l < |p.layers|
    ensures l < |q.layers| && Shaped(p.layers[l].store) && Shaped(q.layers[l].store)
    ensures p.layers[l].store.d2h == q.layers[l].store.d2h && p.layers[l].store.h2d == q.layers[l].store.h2d
  {
    assert TwinLayer(p.layers[l], q.layers[l]);
    hide Ages;
  }

  /** Equal sequences and equal tables: equal rows. */
  lemma TwinRows(p: Pool, q: Pool)
    requires Inv(p) && Inv(q) && Twins(p, q) && SameRecords(p, q)
    ensures SameRows(p, q)
  {
    TwinHeads(p, q);
    forall l: nat | l < |p.layers| ensures SameRowsAt(p.layers[l].store, q.layers[l].store) {
      TwinTables(p, q, l);
      forall s | 1 <= s < |p.layers[l].store.d2h| && Live(p.layers[l].store, s)
        ensures p.layers[l].store.rows[s] == q.layers[l].store.rows[s]
      {
        RowRecord(p, q, l, s);
      }
    }
  }

  lemma RowRecord(p: Pool, q: Pool, l: nat, s: nat)
    requires Inv(p) && Inv(q) && Twins(p, q) && SameRecords(p, q) && l < |p.layers| && l < |q.layers|
    requires Shaped(p.layers[l].store) && Shaped(q.layers[l].store) && p.layers[l].store.d2h == q.layers[l].store.d2h
    requires 1 <= s < |p.layers[l].store.d2h| && Live(p.layers[l].store, s)
    ensures p.layers[l].store.rows[s] == q.layers[l].store.rows[s]
  {
    TwinHeads(p, q);
    assert TwinLayer(p.layers[l], q.layers[l]);
    hide Twins, Alike;
    RowLogical(p, l, s);
    var a, b, g := p.layers[l], q.layers[l], p.layers[l].store.d2h[s];
    var o, i: nat :| Backed(a, o, i) && Tok(p.sessions, o, i) == g && a.store.rows[s] == Logical(p.sessions, a, o)[i];
    assert SequenceOf(p, l, o) == SequenceOf(q, l, o);
    assert Backed(b, o, i);
    hide SameRecords;
    RowOf(q, l, s, o, i);
  }

  /** A live row holds some session's record. */
  lemma RowLogical(p: Pool, l: nat, s: nat)
    requires Inv(p) && l < |p.layers| && Shaped(p.layers[l].store) && 1 <= s < |p.layers[l].store.d2h| && Live(p.layers[l].store, s)
    ensures var a := p.layers[l];
      exists o, i: nat :: Backed(a, o, i) && Tok(p.sessions, o, i) == a.store.d2h[s] && a.store.rows[s] == Logical(p.sessions, a, o)[i]
  {
    var a := p.layers[l];
    assert LayerInv(p.cfg, p.sessions, a, p.writes, l);
    var o, i: nat :| Backed(a, o, i) && Tok(p.sessions, o, i) == a.store.d2h[s];
    hide Tok;
    assert Entry(p.sessions, a, o, i) == a.store.rows[s];
  }

  lemma RowOf(p: Pool, l: nat, s: nat, o: nat, i: nat)
    requires Inv(p) && l < |p.layers| && Shaped(p.layers[l].store) && 1 <= s < |p.layers[l].store.d2h| && Live(p.layers[l].store, s)
    requires Backed(p.layers[l], o, i) && Tok(p.sessions, o, i) == p.layers[l].store.d2h[s]
    ensures p.layers[l].store.rows[s] == Logical(p.sessions, p.layers[l], o)[i]
  {
    assert LayerInv(p.cfg, p.sessions, p.layers[l], p.writes, l);
    assert Entry(p.sessions, p.layers[l], o, i) == p.layers[l].store.rows[s];
  }

  // ----- runs

  lemma EffectTwins(p: Pool, q: Pool, a: Action)
    requires Inv(p) && Inv(q) && Twins(p, q)
    ensures EffectOf(p, a) == EffectOf(q, a)
  {
    TwinAllowed(p, q, a, a);
    if a.RolledBack? || a.Discarded? {
      TwinAt(p, q, a.o, a.l);
      hide Twins, TwinLayer, LeaseFree;
      if Allowed(p, a) { AllowedExists(p, a); }
    } else {
      TwinHeads(p, q);
      hide Allowed;
    }
  }

  lemma AllowedExists(p: Pool, a: Action)
    requires Allowed(p, a) && (a.RolledBack? || a.Discarded?)
    ensures Exists(p, a.o, a.l)
  {
    hide LeaseFree;
  }

  lemma RecordsTwins(p: Pool, q: Pool, a: Action)
    requires Inv(p) && Inv(q) && Twins(p, q) && SameRecords(p, q) && !Torn(p, a) && !Torn(q, a)
    ensures SameRecords(Step(p, a), Step(q, a))
  {
    EffectTwins(p, q, a);
    TwinHeads(p, q);
    hide Inv, Twins, Torn, SequenceOf, Step, EffectOf;
    LayersKept(p, a);
    forall l: nat, o | l < |Step(p, a).layers| ensures SequenceOf(Step(p, a), l, o) == SequenceOf(Step(q, a), l, o) {
      StepReplays(p, a, l, o);
      StepReplays(q, a, l, o);
    }
  }

  lemma LayersKept(p: Pool, a: Action)
    requires Inv(p) && !Torn(p, a)
    ensures |Step(p, a).layers| == |p.layers|
  {
    hide Inv, Torn, Step, EffectOf;
    StepInv(p, a);
  }

  /** Over any run of twins the same rows lose their tokens, action by action, and the pools stay twins with the same contents. */
  lemma {:induction false} TwinRuns(p: Pool, q: Pool, acts: seq<Action>)
    requires Inv(p) && Inv(q) && Twins(p, q) && SameRecords(p, q) && Untorn(p, acts)
    ensures Untorn(q, acts) && VictimLog(p, acts) == VictimLog(q, acts)
    ensures Twins(Run(p, acts), Run(q, acts)) && SameRecords(Run(p, acts), Run(q, acts)) && SameRows(Run(p, acts), Run(q, acts))
    decreases |acts|
  {
    hide Inv, Twins, SameRecords, SameRows, Torn, Step, Allowed;
    if acts == [] {
      TwinRows(p, q);
    } else {
      var a := acts[0];
      StepTwins(p, q, a, a);
      StepInv(p, a);
      StepInv(q, a);
      RecordsTwins(p, q, a);
      VictimsTwins(p, q, Step(p, a), Step(q, a));
      TwinRuns(Step(p, a), Step(q, a), acts[1..]);
    }
  }

  /** Over any run of the pool, two clock limits, or none, take the same victims at every action and leave the same contents. */
  lemma RenumberingInvisible(p: Pool, limit: Option<nat>, acts: seq<Action>)
    requires Inv(p) && Untorn(p, acts)
    ensures var q := WithLimit(p, limit);
      && Untorn(q, acts) && VictimLog(p, acts) == VictimLog(q, acts)
      && SameRecords(Run(p, acts), Run(q, acts)) && SameRows(Run(p, acts), Run(q, acts))
  {
    LimitInv(p, limit);
    hide Inv, Twins, Untorn, VictimLog, Run, SameRows;
    assert SameRecords(p, WithLimit(p, limit));
    TwinRuns(p, WithLimit(p, limit), acts);
  }
}
