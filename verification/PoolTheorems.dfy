/** What the pool invariant buys: the facts behind the fast paths, for every reachable pool. */
module PoolTheorems {
  import opened TokenTypes
  import opened Ranking
  import opened TokenStore
  import opened TokenPool
  import opened PoolWritebacks
  import opened PoolTransactions
  import opened PoolAppend
  import opened PoolRecall
  import opened PoolPrefetch
  import opened PoolSessions
  import opened PoolRuns

  // ----- the empty pool

  function EmptyLayer(cfg: Config): Layer {
    var st := Store(
      seq(cfg.slots + 1 + cfg.candidates, _ => Record([])), seq(PAGE_SIZE * cfg.pages, _ => MISSING), seq(cfg.slots + 1, _ => MISSING),
      seq(cfg.slots + 1, s => if s == 0 then MISSING else -1), seq(cfg.slots + 1, s => s != 0), 0);
    Layer(st, seq(PAGE_SIZE * cfg.pages, _ => Record([])), Proofs(None, 0, None, 0, Range(1, cfg.slots + 1), None, 0,
          None, 0, -1), map[], None, None, map[])
  }

  function EmptyPool(cfg: Config, layers: nat): Pool {
    Pool(cfg, seq(layers, _ => EmptyLayer(cfg)), map[], 0, set g | g in Range(0, cfg.pages), [], None, 0)
  }

  /** A newly built pool satisfies the invariant, and so does every pool of a run from it, exactly when no rollback is torn. */
  lemma EmptyPoolInv(cfg: Config, layers: nat, acts: seq<Action>)
    requires cfg.slots >= 1 && cfg.slots + cfg.candidates < MISSING && PAGE_SIZE * cfg.pages < MISSING && cfg.maxWrites >= 1
    ensures Inv(EmptyPool(cfg, layers))
    ensures Throughout(EmptyPool(cfg, layers), acts) <==> Untorn(EmptyPool(cfg, layers), acts)
  {
    var p := EmptyPool(cfg, layers);
    EmptyLayerInv(cfg);
    forall l | 0 <= l < layers ensures LayerInv(cfg, map[], p.layers[l], [], l) && p.layers[l].pending.None? {
      EmptyLayerAt(cfg, l);
    }
    hide LayerInv;
    RunKeepsInv(p, acts);
  }

  lemma EmptyLayerInv(cfg: Config)
    requires cfg.slots >= 1 && cfg.slots + cfg.candidates < MISSING && PAGE_SIZE * cfg.pages < MISSING
    ensures StoreOK(cfg, EmptyLayer(cfg))
  {
  }

  lemma EmptyLayerAt(cfg: Config, l: nat)
    requires StoreOK(cfg, EmptyLayer(cfg))
    ensures LayerInv(cfg, map[], EmptyLayer(cfg), [], l)
  {
    hide StoreOK;
  }

  // ----- the cached append plan

  /** In every reachable pool a planned append takes exactly the rows a fresh FIFO decision would take. */
  lemma PlannedAppendIsFifo(p: Pool, o: nat, l: nat, count: nat)
    requires Inv(p) && Exists(p, o, l) && p.layers[l].pending.None? && !p.cfg.dense && count <= p.cfg.slots
    requires Planned(p.cfg, p.sessions, p.layers[l], o, p.layers[l].views[o].written, count)
    ensures var st := p.layers[l].store;
      Shaped(st) && count <= Slots(st) && count <= |Available(st, [])|
      && AppendRows(p.cfg, p.sessions, p.layers[l], o, count) == Choose(st, [], count)
  {
    var ly := p.layers[l];
    assert LayerInv(p.cfg, p.sessions, ly, p.writes, l);
    assert Claimed(ly) == {};
    hide LayerInv;
    hide Inv;
    PlanIsFreshChoice(ly.store, ly.proofs.order, ly.views[o].written, count);
  }

  // ----- writebacks

  /** The copy lies in the written part of an open persistent step of a live session and carries its records. */
  ghost predicate Contained(r: Pool, t: Ticket) {
    && t.layer < |r.layers| && t.owner in r.sessions && t.owner in r.layers[t.layer].views
    && var v := r.layers[t.layer].views[t.owner];
      && v.stepEnd.Some? && v.transientStart.None? && v.length <= t.start && t.start + |t.source| <= v.written
      && v.written <= |Logical(r.sessions, r.layers[t.layer], t.owner)|
      && (forall i: nat :: t.start <= i < t.start + |t.source| ==>
            Logical(r.sessions, r.layers[t.layer], t.owner)[i] == t.source[i - t.start])
  }

  /** On every reachable pool each queued copy stays inside the open persistent step that queued it. */
  lemma RunContainsWritebacks(p: Pool, acts: seq<Action>)
    requires Inv(p) && Untorn(p, acts)
    ensures |Run(p, acts).writes| <= Run(p, acts).cfg.maxWrites
    ensures forall t :: t in Run(p, acts).writes ==> Contained(Run(p, acts), t)
  {
    RunKeepsInv(p, acts);
    hide Run;
    QueueContained(Run(p, acts));
  }

  lemma QueueContained(r: Pool)
    requires Inv(r)
    ensures |r.writes| <= r.cfg.maxWrites && forall t :: t in r.writes ==> Contained(r, t)
  {
    forall t | t in r.writes ensures Contained(r, t) {
      var k :| 0 <= k < |r.writes| && r.writes[k] == t;
      assert LayerInv(r.cfg, r.sessions, r.layers[t.layer], r.writes, t.layer);
      TicketContained(r.sessions, r.layers[t.layer], t);
    }
  }

  lemma TicketContained(ss: map<nat, Session>, ly: Layer, t: Ticket)
    requires TicketOK(ss, ly, t)
    ensures t.owner in ly.views && ly.views[t.owner].written <= |Logical(ss, ly, t.owner)|
    ensures forall i: nat :: t.start <= i < t.start + |t.source| ==> Logical(ss, ly, t.owner)[i] == t.source[i - t.start]
  {
    hide HostHolds;
    forall i: nat | t.start <= i < t.start + |t.source| ensures Logical(ss, ly, t.owner)[i] == t.source[i - t.start] {
      assert Entry(ss, ly, t.owner, i) == t.source[i - t.start];
    }
  }
}
