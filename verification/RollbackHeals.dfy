/** After a torn rollback: once the lease is free, a truncation to the committed length does what the rollback would have done. */
module RollbackHeals {
  import opened TokenTypes
  import opened TokenStore
  import opened TokenPool
  import opened PoolWritebacks
  import opened PoolTransactions
  import opened PoolAppend
  import opened PoolPrefetch
  import opened PoolSessions
  import opened PoolRuns
  import opened PoolMeanings

  // ----- landing copies does not look at open steps

  /** The session has a view on the layer. */
  predicate Has(p: Pool, o: nat, l: nat) {
    l < |p.layers| && o in p.sessions && o in p.layers[l].views
  }

  lemma LandAbandoned(p: Pool, o: nat, l: nat, k: nat, j: nat)
    requires Has(p, o, l) && k < |p.writes| && p.writes[k].layer < |p.layers| && j < |p.writes[k].source|
    ensures Has(LandCell(p, k, j), o, l) && LandCell(Abandon(p, o, l), k, j) == Abandon(LandCell(p, k, j), o, l)
  {
    assert LandCell(Abandon(p, o, l), k, j).layers == Abandon(LandCell(p, k, j), o, l).layers;
  }

  lemma {:induction false} LandFirstAbandoned(p: Pool, o: nat, l: nat, k: nat, n: nat)
    requires Has(p, o, l) && k < |p.writes| && p.writes[k].layer < |p.layers| && n <= |p.writes[k].source|
    ensures Has(LandFirst(p, k, n), o, l) && LandFirst(Abandon(p, o, l), k, n) == Abandon(LandFirst(p, k, n), o, l)
    decreases n
  {
    hide LandCell;
    AbandonKeeps(p, o, l);
    hide Abandon;
    if n > 0 {
      LandFirstAbandoned(p, o, l, k, n - 1);
      LandAbandoned(LandFirst(p, k, n - 1), o, l, k, n - 1);
    }
  }

  lemma AbandonKeeps(p: Pool, o: nat, l: nat)
    requires Has(p, o, l)
    ensures var r := Abandon(p, o, l); r.writes == p.writes && |r.layers| == |p.layers|
  {
  }

  lemma {:induction false} DrainAbandoned(p: Pool, o: nat, l: nat)
    requires Has(p, o, l) && InLayers(p)
    ensures Has(Drain(p), o, l) && Drain(Abandon(p, o, l)) == Abandon(Drain(p), o, l)
    decreases |p.writes|
  {
    if p.writes != [] {
      LandFirstAbandoned(p, o, l, 0, |p.writes[0].source|);
      var q := Sync(p, 0);
      assert Sync(Abandon(p, o, l), 0) == Abandon(q, o, l);
      hide LandFirst;
      assert Pop(Abandon(q, o, l)) == Abandon(Pop(q), o, l);
      DrainAbandoned(Pop(q), o, l);
    }
  }

  lemma SaneAbandoned(p: Pool, o: nat, l: nat)
    requires Has(p, o, l) && Sane(p)
    ensures Sane(Abandon(p, o, l)) && (forall q: nat, m: nat :: m < |p.layers| ==> (LeaseFree(Abandon(p, o, l), q, m) <==> LeaseFree(p, q, m)))
  {
    var r := Abandon(p, o, l);
    forall q: nat, m: nat | m < |p.layers| ensures LeaseFree(r, q, m) <==> LeaseFree(p, q, m) { FreeSame(p, r, q, m); }
    hide LeaseFree;
  }

  // ----- the truncation

  /** Truncating after the step was given up is truncating before. */
  lemma CutAbandoned(p: Pool, o: nat, l: nat, len: nat)
    requires Has(p, o, l) && Sane(p)
    ensures CutTo(Abandon(p, o, l), o, l, len) == CutTo(p, o, l, len) || !CutPossible(p, o, l, len)
  {
    SaneAbandoned(p, o, l);
    DrainAbandoned(p, o, l);
    var q := Drain(p);
    var a, b := LeaseTo(CloseAt(q.layers[l], q.cfg.limit), o), LeaseTo(CloseAt(Abandon(q, o, l).layers[l], q.cfg.limit), o);
    CloseKeeps(q.layers[l], q.cfg.limit);
    CloseAbandoned(q.layers[l], o, q.cfg.limit);
    hide CloseAt, Drain, Sane;
    if CutPossible(p, o, l, len) {
      SameTrim(q.sessions, CloseAt(q.layers[l], q.cfg.limit), CloseAt(Abandon(q, o, l).layers[l], q.cfg.limit), o, len);
      hide TruncateAt, LeaseTo, Cuttable;
      assert CutTo(Abandon(p, o, l), o, l, len).layers == CutTo(p, o, l, len).layers;
    }
  }

  /** The page table names the tokens to forget. */
  predicate CutPossible(p: Pool, o: nat, l: nat, len: nat)
    requires Sane(p) && l < |p.layers|
  {
    Cuttable(Drain(p).sessions, LeaseTo(CloseAt(Drain(p).layers[l], p.cfg.limit), o), o, len)
  }

  lemma CloseAbandoned(ly: Layer, o: nat, limit: Option<nat>)
    requires Shaped(ly.store) && o in ly.views
    ensures var r := ly.(views := ly.views[o := ly.views[o].(stepEnd := None)]);
      CloseAt(r, limit) == CloseAt(ly, limit).(views := r.views)
  {
  }

  /** A truncation heals: it gives exactly what the rollback gives when its lease is free. */
  lemma TruncateHeals(p: Pool, o: nat, l: nat)
    requires Inv(p) && CanRollback(p, o, l)
    ensures var len := p.layers[l].views[o].length;
      && Step(Abandon(p, o, l), Truncated(o, l, len)) == Step(p, RolledBack(o, l))
      && CutDone(p, Step(Abandon(p, o, l), Truncated(o, l, len)), o, l, len)
  {
    var len := p.layers[l].views[o].length;
    InvSane(p);
    RollbackMeans(p, o, l);
    RollbackLength(p, o, l);
    SaneAbandoned(p, o, l);
    CutLegal(p, o, l, len);
    CutAbandoned(p, o, l, len);
    TruncateIs(Abandon(p, o, l), o, l, len);
    hide Inv, Step, LeaseFree, CutDone, CutTo, Torn, Cuttable, LayerInv, PagesOwned, CloseAt, LeaseTo, Drain, Sane;
  }

  // ----- waiting for the lease

  /** Another session gives the candidate rows back, or the open operation ends. */
  predicate Frees(a: Action, o: nat) {
    a.Closed? || (a.Discarded? && a.o != o)
  }

  lemma DiscardAbandoned(p: Pool, o: nat, l: nat, q: nat, m: nat)
    requires Sane(p) && Has(p, o, l) && q != o && Exists(p, q, m)
    ensures Has(Discard(p, q, m), o, l) && Discard(Abandon(p, o, l), q, m) == Abandon(Discard(p, q, m), o, l)
    ensures Exists(Discard(p, q, m), o, l) && Discard(p, q, m).layers[l].views[o] == p.layers[l].views[o]
  {
    SaneAbandoned(p, o, l);
    DrainAbandoned(p, o, l);
    var d := Drain(p);
    CloseKeeps(d.layers[m], d.cfg.limit);
    hide CloseAt, Drain, Sane;
    if m == l {
      CloseAbandoned(d.layers[l], o, d.cfg.limit);
      DiscardOrder(CloseAt(d.layers[l], d.cfg.limit), o, q);
    }
    hide DiscardAt, LeaseTo;
    assert Discard(Abandon(p, o, l), q, m).layers == Abandon(Discard(p, q, m), o, l).layers;
  }

  /** Giving up one session's step and dropping another one's suffix on a layer commute. */
  lemma DiscardOrder(c: Layer, o: nat, q: nat)
    requires o in c.views && q in c.views && q != o
    ensures var given := c.(views := c.views[o := c.views[o].(stepEnd := None)]); var done := DiscardAt(LeaseTo(c, q), q);
      && o in done.views && done.views[o] == c.views[o]
      && DiscardAt(LeaseTo(given, q), q) == done.(views := done.views[o := done.views[o].(stepEnd := None)])
  {
    var given, done := c.(views := c.views[o := c.views[o].(stepEnd := None)]), DiscardAt(LeaseTo(c, q), q);
    assert DiscardAt(LeaseTo(given, q), q).views == done.views[o := done.views[o].(stepEnd := None)];
  }

  /** Freeing the lease and giving the step up can be done in either order. */
  lemma FreesAbandoned(p: Pool, o: nat, l: nat, a: Action)
    requires Sane(p) && Has(p, o, l) && Frees(a, o)
    ensures Sane(Abandon(p, o, l)) && Has(Step(p, a), o, l)
    ensures Step(Abandon(p, o, l), a) == Abandon(Step(p, a), o, l) && Step(p, a).layers[l].views[o] == p.layers[l].views[o]
  {
    SaneAbandoned(p, o, l);
    StepDoes(p, a);
    StepDoes(Abandon(p, o, l), a);
    if a.Closed? {
      hide Sane, LeaseFree, Step, StepData, StepCut, AppendEither, Allocate, Release;
    } else {
      DrainAbandoned(p, o, l);
      SameDiscard(p, o, l, a.o, a.l);
      if CanDiscard(p, a.o, a.l) { DiscardAbandoned(p, o, l, a.o, a.l); }
      hide Sane, LeaseFree, Step, Discard, Drain, Abandon, StepBoundary, StepData, AppendEither, Allocate, Release, CanDiscard;
      DiscardCase(p, a.o, a.l);
      DiscardCase(Abandon(p, o, l), a.o, a.l);
    }
  }

  lemma SameDiscard(p: Pool, o: nat, l: nat, q: nat, m: nat)
    requires Has(p, o, l) && q != o && (forall x: nat, n: nat :: n < |p.layers| ==> (LeaseFree(Abandon(p, o, l), x, n) <==> LeaseFree(p, x, n)))
    ensures (CanDiscard(Abandon(p, o, l), q, m) <==> CanDiscard(p, q, m)) && (HoldsRows(Abandon(p, o, l), q, m) <==> HoldsRows(p, q, m))
    ensures CanDiscard(p, q, m) ==> Exists(p, q, m)
  {
    hide LeaseFree;
  }

  lemma DiscardCase(p: Pool, q: nat, m: nat)
    requires Sane(p)
    ensures InLayers(p)
    ensures Step(p, Discarded(q, m)) == if CanDiscard(p, q, m) then Discard(p, q, m) else if HoldsRows(p, q, m) then Drain(p) else p
  {
    StepDoes(p, Discarded(q, m));
    hide Step, LeaseFree, Discard, CutTo, Drain, StepBoundary, StepData, AppendEither, Allocate, Release;
  }

  // ----- the theorem

  predicate Freeing(acts: seq<Action>, o: nat) {
    forall k :: 0 <= k < |acts| ==> Frees(acts[k], o)
  }

  lemma FreesIsSound(p: Pool, a: Action, o: nat)
    requires Inv(p) && Frees(a, o)
    ensures Inv(Step(p, a)) && |Step(p, a).layers| == |p.layers|
  {
    StepInv(p, a);
    hide Inv, Step, Allowed, EffectOf;
  }

  /** Freeing the lease commutes with the half-done rollback, however many calls it takes. */
  lemma {:induction false} FreeingAbandoned(p: Pool, o: nat, l: nat, acts: seq<Action>)
    requires Inv(p) && Has(p, o, l) && Freeing(acts, o)
    ensures Inv(Run(p, acts)) && Has(Run(p, acts), o, l) && Run(Abandon(p, o, l), acts) == Abandon(Run(p, acts), o, l)
    ensures Run(p, acts).layers[l].views[o] == p.layers[l].views[o]
    decreases |acts|
  {
    hide Inv, Step, Abandon;
    if acts != [] {
      InvSane(p);
      hide Sane;
      FreesAbandoned(p, o, l, acts[0]);
      FreesIsSound(p, acts[0], o);
      FreeingAbandoned(Step(p, acts[0]), o, l, acts[1..]);
    }
  }

  /**
   * After a torn rollback, as soon as the other session has given the candidate rows back or the open operation has ended, truncating to
   * the committed length gives exactly the sound pool the rollback would have given at that time.
   */
  lemma TornHeals(p: Pool, o: nat, l: nat, acts: seq<Action>)
    requires Inv(p) && Torn(p, RolledBack(o, l)) && Freeing(acts, o)
    requires InLayers(p) && l < |Run(Drain(p), acts).layers| && LeaseFree(Run(Drain(p), acts), o, l)
    ensures var len := p.layers[l].views[o].length; var r := Run(Drain(p), acts);
      && Step(Run(Step(p, RolledBack(o, l)), acts), Truncated(o, l, len)) == Step(r, RolledBack(o, l))
      && CutDone(r, Step(r, RolledBack(o, l)), o, l, len)
  {
    InvSane(p);
    TornStep(p, o, l);
    TornHas(p, o, l);
    DrainInv(p);
    hide Inv, Step, LeaseFree, Sane, Drain, Torn, CutDone;
    FreeingAbandoned(Drain(p), o, l, acts);
    TruncateHeals(Run(Drain(p), acts), o, l);
  }

  lemma TornHas(p: Pool, o: nat, l: nat)
    requires Torn(p, RolledBack(o, l)) && InLayers(p)
    ensures Has(p, o, l) && Has(Drain(p), o, l) && Drain(p).layers[l].views == p.layers[l].views && InStep(p, o, l)
  {
    hide LeaseFree;
  }
}
