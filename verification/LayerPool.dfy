/** The mutable form of one layer's device pool: arrays updated in place, each method tied to the store it computes. */
module LayerPool {
  import opened TokenTypes
  import opened Ranking
  import opened TokenStore
  import opened RecallLaw

  /** Evicting row by row is evicting the whole list. */
  lemma EvictStep(st: Store, slots: seq<int>, s: int)
    requires Shaped(st)
    ensures Evict(Evict(st, slots), [s]) == Evict(st, slots + [s])
  {
    var m, a, b := Evict(st, slots), Evict(Evict(st, slots), [s]), Evict(st, slots + [s]);
    assert forall x :: x in slots + [s] <==> x in slots || x == s;
    forall g | 0 <= g < |st.h2d| ensures a.h2d[g] == b.h2d[g] {
      if Held(st, slots, g) {
        var x :| x in slots && 0 <= x < |st.d2h| && st.d2h[x] == g;
        assert x in slots + [s];
      } else if Held(st, slots + [s], g) {
        assert s !in slots && st.d2h[s] == g;
        assert m.d2h[s] == g && s in [s];
      }
    }
    assert a.h2d == b.h2d && a.d2h == b.d2h && a.prio == b.prio && a.free == b.free;
  }

  lemma EvictOne(st: Store, s: int, r: Store)
    requires Shaped(st) && 1 <= s < |st.d2h| && SameShape(r, st) && r.rows == st.rows && r.clock == st.clock
    requires Live(st, s) ==> 0 <= st.d2h[s] < |st.h2d|
    requires r.h2d == if Live(st, s) then st.h2d[st.d2h[s] := MISSING] else st.h2d
    requires r.d2h == st.d2h[s := MISSING] && r.prio == st.prio[s := -1] && r.free == st.free[s := true]
    ensures r == Evict(st, [s])
  {
    var e := Evict(st, [s]);
    assert forall x :: x in [s] <==> x == s;
    assert forall g :: Held(st, [s], g) <==> st.d2h[s] == g;
    assert r.h2d == e.h2d && r.d2h == e.d2h && r.prio == e.prio && r.free == e.free;
  }

  lemma StampStep(st: Store, slots: seq<int>, prio: seq<int>)
    requires Shaped(st) && |prio| == |st.prio|
    requires forall s :: 0 <= s < |prio| ==> prio[s] == if s == 0 then MISSING else if s in slots then st.clock else st.prio[s]
    ensures st.(prio := prio, clock := st.clock + 1) == Stamp(st, slots)
  {
    assert prio == Stamp(st, slots).prio;
  }

  lemma ClockStep(st: Store, limit: nat, prio: seq<int>)
    requires Shaped(st) && |prio| == |st.prio| && st.clock >= limit
    requires forall s :: 0 <= s < |prio| ==> prio[s] == if s >= 1 && Live(st, s) then RankIn(LiveAges(st), st.prio[s]) else st.prio[s]
    ensures st.(prio := prio, clock := |LiveAges(st)|) == ClockEvent(st, Some(limit))
  {
    assert prio == ClockEvent(st, Some(limit)).prio;
  }

  lemma {:induction false} HitsAppend(st: Store, gs: seq<int>, g: int)
    requires Shaped(st) && HostIds(st, gs) && 0 <= g < |st.h2d|
    ensures HostIds(st, gs + [g]) && Hits(st, gs + [g]) == Hits(st, gs) + (if Mapped(st, g) then [st.h2d[g]] else [])
  {
    var all := gs + [g];
    assert HostIds(st, all) && all != [];
    if gs == [] {
      assert all[0] == g && all[1..] == [];
      assert Hits(st, all[1..]) == [];
    } else {
      HitsAppend(st, gs[1..], g);
      assert all[1..] == gs[1..] + [g] && all[0] == gs[0];
    }
  }

  lemma {:induction false} MissesAppend(st: Store, gs: seq<int>, g: int)
    requires Shaped(st) && HostIds(st, gs) && 0 <= g < |st.h2d|
    ensures HostIds(st, gs + [g]) && Misses(st, gs + [g]) == Misses(st, gs) + (if Mapped(st, g) then [] else [g])
  {
    var all := gs + [g];
    assert HostIds(st, all) && all != [];
    if gs == [] {
      assert all[0] == g && all[1..] == [];
      assert Misses(st, all[1..]) == [];
    } else {
      MissesAppend(st, gs[1..], g);
      assert all[1..] == gs[1..] + [g] && all[0] == gs[0];
    }
  }

  lemma {:induction false} WithoutAppend(xs: seq<nat>, keep: seq<int>, x: nat)
    ensures Without(xs + [x], keep) == Without(xs, keep) + (if x in keep then [] else [x])
  {
    if xs == [] {
      assert xs + [x] == [x];
      assert [x][1..] == [];
    } else {
      WithoutAppend(xs[1..], keep, x);
      assert (xs + [x])[1..] == xs[1..] + [x] && (xs + [x])[0] == xs[0];
    }
  }

  lemma RangeAppend(lo: nat, hi: nat)
    requires lo <= hi
    ensures Range(lo, hi + 1) == Range(lo, hi) + [hi]
  {
  }

  lemma BindStep(st: Store, gs: seq<int>, slots: seq<int>, rs: seq<Record>, k: nat)
    requires Shaped(st) && |gs| == |slots| == |rs| && HostIds(st, gs) && RowIds(st, slots) && k < |gs|
    ensures BindAll(st, gs[..k + 1], slots[..k + 1], rs[..k + 1]) == Bind(BindAll(st, gs[..k], slots[..k], rs[..k]), gs[k], slots[k], rs[k])
  {
    assert gs[..k + 1][..k] == gs[..k] && slots[..k + 1][..k] == slots[..k] && rs[..k + 1][..k] == rs[..k];
  }

  lemma NothingListed(st: Store)
    requires Shaped(st)
    ensures HostIds(st, []) && Hits(st, []) == [] && Misses(st, []) == []
  {
  }

  datatype Chosen = TooLarge | Rows(slots: seq<nat>)

  class LayerPool {
    const rows: array<Record>
    const h2d: array<int>
    const d2h: array<int>
    const prio: array<int>
    const free: array<bool>
    var clock: nat

    ghost function Model(): Store
      reads this, rows, h2d, d2h, prio, free
    {
      Store(rows[..], h2d[..], d2h[..], prio[..], free[..], clock)
    }

    ghost predicate Valid()
      reads this, rows, h2d, d2h, prio, free
    {
      h2d != d2h && h2d != prio && d2h != prio && Shaped(Model())
    }

    /** An empty pool: nothing mapped, padding row 0 pinned. */
    constructor (slots: nat, candidates: nat, host: nat)
      requires slots >= 1 && slots + candidates < MISSING && host < MISSING
      ensures Valid() && MapsAgree(Model()) && Ages(Model(), {}) && Copies(Model(), map[]) && Slots(Model()) == slots
      ensures fresh(rows) && fresh(h2d) && fresh(d2h) && fresh(prio) && fresh(free)
    {
      rows := new Record[slots + 1 + candidates](i => Record([]));
      h2d := new int[host](i => MISSING);
      d2h := new int[slots + 1](i => MISSING);
      prio := new int[slots + 1](i => if i == 0 then MISSING else -1);
      free := new bool[slots + 1](i => i != 0);
      clock := 0;
    }

    /** Forget the given rows and the host IDs that named them. */
    method Evict(slots: seq<int>)
      requires Valid() && Named(Model()) && RowIds(Model(), slots)
      modifies h2d, d2h, prio, free
      ensures Valid() && Named(Model()) && Model() == TokenStore.Evict(old(Model()), slots)
    {
      ghost var was := Model();
      var k := 0;
      EvictNothing(was);
      while k < |slots|
        invariant 0 <= k <= |slots| && Valid() && Model() == TokenStore.Evict(was, slots[..k]) && Named(Model())
      {
        var s := slots[k];
        EvictStep(was, slots[..k], s);
        assert slots[..k + 1] == slots[..k] + [s];
        ForgetRow(s);
        k := k + 1;
      }
      assert slots[..|slots|] == slots;
    }

    method ForgetRow(s: int)
      requires Valid() && Named(Model()) && 1 <= s < d2h.Length
      modifies h2d, d2h, prio, free
      ensures Valid() && Named(Model()) && Model() == TokenStore.Evict(old(Model()), [s])
    {
      ghost var was := Model();
      if d2h[s] != MISSING {
        h2d[d2h[s]] := MISSING;
      }
      d2h[s] := MISSING;
      prio[s] := -1;
      free[s] := true;
      EvictOne(was, s, Model());
    }

    /** Bind each host ID to its row and copy the record in. */
    method Bind(gs: seq<int>, slots: seq<int>, rs: seq<Record>)
      requires Valid() && |gs| == |slots| == |rs| && HostIds(Model(), gs) && RowIds(Model(), slots)
      modifies rows, h2d, d2h, free
      ensures Valid() && Model() == BindAll(old(Model()), gs, slots, rs)
    {
      ghost var was := Model();
      var k := 0;
      while k < |gs|
        invariant 0 <= k <= |gs| && Valid() && Model() == BindAll(was, gs[..k], slots[..k], rs[..k])
      {
        BindStep(was, gs, slots, rs, k);
        ghost var now := Model();
        rows[slots[k]] := rs[k];
        h2d[gs[k]] := slots[k];
        d2h[slots[k]] := gs[k];
        free[slots[k]] := false;
        assert Model() == TokenStore.Bind(now, gs[k], slots[k], rs[k]);
        k := k + 1;
      }
      assert gs[..|gs|] == gs && slots[..|gs|] == slots && rs[..|gs|] == rs;
    }

    /** A clock event: at the limit, live priorities become their dense ranks. */
    method ClockEvent(limit: Option<nat>)
      requires Valid()
      modifies this`clock, prio
      ensures Valid() && Model() == TokenStore.ClockEvent(old(Model()), limit)
    {
      if limit.None? || clock < limit.value {
        return;
      }
      ghost var was := Model();
      var values: set<int> := {};
      var s := 1;
      while s < d2h.Length
        invariant 1 <= s <= d2h.Length
        invariant values == set t | 1 <= t < s && Live(was, t) :: was.prio[t]
      {
        if d2h[s] != MISSING {
          values := values + {prio[s]};
        }
        s := s + 1;
      }
      assert values == LiveAges(was);
      s := 1;
      while s < d2h.Length
        invariant 1 <= s <= d2h.Length && clock == was.clock
        invariant forall t :: 0 <= t < prio.Length ==>
                    prio[t] == if 1 <= t < s && Live(was, t) then RankIn(values, was.prio[t]) else was.prio[t]
      {
        if d2h[s] != MISSING {
          prio[s] := |set u | u in values && u < prio[s]|;
        }
        s := s + 1;
      }
      clock := |values|;
      ClockStep(was, limit.value, prio[..]);
    }

    /** A FIFO event: the given rows take the current clock, which then advances. */
    method Stamp(limit: Option<nat>, slots: seq<int>)
      requires Valid() && RowIds(Model(), slots)
      modifies this`clock, prio
      ensures Valid() && Model() == TokenStore.Stamp(TokenStore.ClockEvent(old(Model()), limit), slots)
    {
      ClockEvent(limit);
      ghost var was := Model();
      var k := 0;
      while k < |slots|
        invariant 0 <= k <= |slots| && clock == was.clock
        invariant forall s :: 0 <= s < prio.Length ==> prio[s] == if s in slots[..k] then clock else was.prio[s]
      {
        assert slots[..k + 1] == slots[..k] + [slots[k]];
        prio[slots[k]] := clock;
        k := k + 1;
      }
      assert slots[..|slots|] == slots;
      assert 0 !in slots;
      clock := clock + 1;
      prio[0] := MISSING;
      StampStep(was, slots, prio[..]);
    }

    /** The rows that hold listed host IDs, and the listed IDs that no row holds. */
    method Lookup(gs: seq<int>) returns (hits: seq<int>, missing: seq<int>)
      requires Valid() && HostIds(Model(), gs)
      ensures hits == Hits(Model(), gs) && missing == Misses(Model(), gs)
    {
      hits, missing := [], [];
      var k := 0;
      NothingListed(Model());
      hide Hits, Misses;
      while k < |gs|
        invariant 0 <= k <= |gs| && hits == Hits(Model(), gs[..k]) && missing == Misses(Model(), gs[..k])
      {
        HitsAppend(Model(), gs[..k], gs[k]);
        MissesAppend(Model(), gs[..k], gs[k]);
        assert gs[..k + 1] == gs[..k] + [gs[k]];
        if h2d[gs[k]] != MISSING {
          hits := hits + [h2d[gs[k]]];
        } else {
          missing := missing + [gs[k]];
        }
        k := k + 1;
      }
      assert gs[..|gs|] == gs;
    }

    /** The oldest unprotected rows, empty rows first; an error when too few remain. */
    method Victims(hits: seq<int>, count: nat) returns (c: Chosen)
      requires Valid()
      ensures c.TooLarge? <==> count > |Available(Model(), hits)|
      ensures c.Rows? ==> c.slots == Choose(Model(), hits, count)
    {
      var available: seq<nat> := [];
      var s := 1;
      assert Range(1, 1) == [];
      while s < d2h.Length
        invariant 1 <= s <= d2h.Length && available == Without(Range(1, s), hits)
      {
        RangeAppend(1, s);
        WithoutAppend(Range(1, s), hits, s);
        if s !in hits {
          available := available + [s];
        }
        s := s + 1;
      }
      if |available| < count {
        return TooLarge;
      }
      var rank := new int[d2h.Length](_ => -1);
      s := 0;
      while s < d2h.Length
        invariant 0 <= s <= d2h.Length
        invariant forall t :: 0 <= t < s ==> rank[t] == VictimRank(Model())[t]
      {
        rank[s] := if d2h[s] == MISSING then -1 else prio[s];
        s := s + 1;
      }
      assert rank[..] == VictimRank(Model());
      assert available == Available(Model(), hits);
      c := Rows(Sort(rank[..], available)[..count]);
    }

    /** Release every listed host ID together with the row that holds it. */
    method ReleaseIds(gs: seq<int>)
      requires Valid() && MapsAgree(Model()) && HostIds(Model(), gs)
      modifies h2d, d2h, prio, free
      ensures Valid() && Model() == Forget(old(Model()), gs)
      ensures Model() == TokenStore.Evict(old(Model()), Hits(old(Model()), gs))
    {
      var physical, missing := Lookup(gs);
      ghost var was := Model();
      HitsAreRows(was, gs);
      ForgetIsEvict(was, gs);
      hide MapsAgree, TokenStore.Evict, Hits;
      Unmap(gs);
      EmptyRows(physical);
      assert Model() == Forget(was, gs);
    }

    /** The listed host IDs name no row. */
    method Unmap(gs: seq<int>)
      requires Valid() && HostIds(Model(), gs)
      modifies h2d
      ensures Valid() && forall g :: 0 <= g < h2d.Length ==> h2d[g] == if g in gs then MISSING else old(h2d[g])
    {
      var k := 0;
      while k < |gs|
        invariant 0 <= k <= |gs|
        invariant forall g :: 0 <= g < h2d.Length ==> h2d[g] == if g in gs[..k] then MISSING else old(h2d[g])
      {
        assert gs[..k + 1] == gs[..k] + [gs[k]];
        h2d[gs[k]] := MISSING;
        k := k + 1;
      }
      assert gs[..|gs|] == gs;
    }

    /** The listed rows hold nothing. */
    method EmptyRows(slots: seq<int>)
      requires Valid() && RowIds(Model(), slots)
      modifies d2h, prio, free
      ensures Valid() && Model() == Emptied(old(Model()), slots)
    {
      ghost var was := Model();
      var k := 0;
      while k < |slots|
        invariant 0 <= k <= |slots| && Valid()
        invariant forall s :: 0 <= s < d2h.Length ==> d2h[s] == if s in slots[..k] then MISSING else was.d2h[s]
        invariant forall s :: 0 <= s < prio.Length ==> prio[s] == if s in slots[..k] then -1 else was.prio[s]
        invariant forall s :: 0 <= s < free.Length ==> free[s] == if s in slots[..k] then true else was.free[s]
      {
        assert slots[..k + 1] == slots[..k] + [slots[k]];
        d2h[slots[k]] := MISSING;
        prio[slots[k]] := -1;
        free[slots[k]] := true;
        k := k + 1;
      }
      assert slots[..|slots|] == slots;
      ghost var r := Emptied(was, slots);
      assert d2h[..] == r.d2h && prio[..] == r.prio && free[..] == r.free;
    }

    /** Overwrite the chosen rows with new copies. */
    method Refill(gs: seq<int>, chosen: seq<nat>, records: seq<Record>)
      requires Valid() && Named(Model()) && HostIds(Model(), gs) && RowIds(Model(), chosen) && |gs| == |chosen| == |records|
      modifies rows, h2d, d2h, prio, free
      ensures Valid() && Model() == TokenStore.Refill(old(Model()), gs, chosen, records)
    {
      Evict(chosen);
      Bind(gs, chosen, records);
    }

    /** Place appended records: the planned rows, or the oldest ones, take them and one stamp. */
    method Place(limit: Option<nat>, gs: seq<int>, planned: Option<seq<nat>>, records: seq<Record>) returns (chosen: seq<nat>)
      requires Valid() && Named(Model()) && HostIds(Model(), gs) && |gs| == |records| <= Slots(Model())
      requires planned.Some? ==> |planned.value| == |gs| && RowIds(Model(), planned.value)
      modifies this`clock, rows, h2d, d2h, prio, free
      ensures |gs| <= |Available(old(Model()), [])|
      ensures chosen == (if planned.Some? then planned.value else Choose(old(Model()), [], |gs|))
      ensures RowIds(old(Model()), chosen)
      ensures Valid()
      ensures Model() == TokenStore.Stamp(TokenStore.ClockEvent(TokenStore.Refill(old(Model()), gs, chosen, records), limit), chosen)
    {
      WithoutCard(Range(1, d2h.Length), []);
      if planned.Some? {
        chosen := planned.value;
      } else {
        ChooseTakesOldest(Model(), [], |gs|);
        var c := Victims([], |gs|);
        chosen := c.slots;
      }
      Refill(gs, chosen, records);
      Stamp(limit, chosen);
    }

    /** Victims for the misses of a bounded selection: they exist, so the working-set error cannot be raised here. */
    method Replace(gs: seq<int>, hits: seq<int>, missing: seq<int>, host: seq<Record>) returns (chosen: seq<nat>)
      requires Valid() && Named(Model()) && HostIds(Model(), gs) && |gs| <= Slots(Model()) && |host| == h2d.Length
      requires hits == Hits(Model(), gs) && missing == Misses(Model(), gs)
      modifies rows, h2d, d2h, prio, free
      ensures Valid() && |missing| <= |Available(old(Model()), hits)| && chosen == Choose(old(Model()), hits, |missing|)
      ensures RowIds(old(Model()), chosen) && HostIds(old(Model()), missing)
      ensures Model() == TokenStore.Refill(old(Model()), missing, chosen, Fetch(host, missing))
    {
      MissesFit(Model(), gs);
      MissesIn(Model(), gs);
      ChooseTakesOldest(Model(), hits, |missing|);
      var c := Victims(hits, |missing|);
      chosen := c.slots;
      var records := seq(|missing|, k requires 0 <= k < |missing| => Source(host, missing[k]));
      assert records == Fetch(host, missing);
      Refill(missing, chosen, records);
    }

    /** Protect the hits, refill victims with the misses, stamp them: the whole event of one recall. */
    method Recall(limit: Option<nat>, gs: seq<int>, host: seq<Record>) returns (chosen: seq<nat>)
      requires Valid() && MapsAgree(Model()) && HostIds(Model(), gs) && |gs| <= Slots(Model()) && |host| == h2d.Length
      modifies this`clock, rows, h2d, d2h, prio, free
      ensures Valid() && Model() == EnsureRows(old(Model()), limit, gs, host).store
      ensures chosen == EnsureRows(old(Model()), limit, gs, host).chosen
    {
      ghost var was := Model();
      HitsAreRows(was, gs);
      ProtectMaps(was, limit, gs);
      HitsSame(was, Protect(was, limit, gs), gs);
      AgreeNamed(Protect(was, limit, gs));
      hide MapsAgree;
      var hits, missing := Lookup(gs);
      Stamp(limit, hits);
      if missing == [] {
        Stamp(limit, []);
        return [];
      }
      chosen := Replace(gs, hits, missing, host);
      Stamp(limit, chosen);
    }

    /**
     * Exact recall in place: every listed ID ends in a row that holds its record, and no hit has moved. Found rows become younger
     * than every row without a listed ID, refilled rows younger still; the misses take the oldest rows, in order.
     */
    method Ensure(limit: Option<nat>, gs: seq<int>, host: seq<Record>, ghost arena: map<int, Record>) returns (chosen: seq<nat>)
      requires Valid() && MapsAgree(Model()) && Copies(Model(), arena) && Ages(Model(), {})
      requires HostIds(Model(), gs) && Distinct(gs) && |gs| <= Slots(Model()) && |host| == h2d.Length
      requires forall g <- gs :: g in arena
      requires forall g <- gs :: 0 <= g < |host| && h2d[g] == MISSING ==> host[g] == arena[g]
      modifies this`clock, rows, h2d, d2h, prio, free
      ensures Valid() && MapsAgree(Model()) && Copies(Model(), arena) && Ages(Model(), {})
      ensures Model() == EnsureRows(old(Model()), limit, gs, host).store
      ensures chosen == EnsureRows(old(Model()), limit, gs, host).chosen
      ensures Recalled(old(Model()), Model(), gs, arena)
      ensures RestKept(old(Model()), Model(), gs) && Refreshed(old(Model()), Model(), gs) && OldestRefilled(old(Model()), Model(), gs)
    {
      EnsureRecalls(Model(), limit, gs, host, arena);
      RecallOrder(Model(), limit, gs, host);
      hide EnsureRows, Copies, Ages, RestKept, Refreshed, OldestRefilled;
      chosen := Recall(limit, gs, host);
    }
  }

  lemma HitsAreRows(st: Store, gs: seq<int>)
    requires MapsAgree(st) && HostIds(st, gs)
    ensures RowIds(st, Hits(st, gs))
  {
    HitsLive(st, gs);
    var hits := Hits(st, gs);
    forall k | 0 <= k < |hits| ensures 1 <= hits[k] < |st.d2h| { assert hits[k] in hits; }
  }

  function Source(host: seq<Record>, g: int): Record {
    if 0 <= g < |host| then host[g] else Record([])
  }

  lemma ProtectMaps(st: Store, limit: Option<nat>, gs: seq<int>)
    requires MapsAgree(st) && HostIds(st, gs)
    ensures MapsAgree(Protect(st, limit, gs))
  {
    ProtectKeeps(st, limit, gs);
  }

  lemma EvictNothing(st: Store)
    requires Shaped(st)
    ensures TokenStore.Evict(st, []) == st
  {
    var e := TokenStore.Evict(st, []);
    assert e.h2d == st.h2d && e.d2h == st.d2h && e.prio == st.prio && e.free == st.free;
  }
}
