/** The candidate stream of a prepared prefetch, claimed in place. */
module LayerPrefetch {
  import opened TokenTypes
  import opened TokenStore
  import opened TokenPool
  import opened PoolPrefetch
  import opened PrefetchLaw
  import opened LayerPool

  /** A stream starts at the first victim; only live-map misses claim the sorted victims, each overwriting one row; ages wait for the closing stamp. */
  method PrefetchReference(pool: LayerPool, ss: map<nat, Session>, host: seq<Record>, q: Pending, ids: seq<int>,
                           ghost ly: Layer)
    returns (rank: nat, top: nat)
    requires pool.Valid() && pool.Model() == ly.store && Named(ly.store) && ly.host == host && |host| == pool.h2d.Length
    requires ly.pending == Some(q)
    modifies pool.rows, pool.h2d, pool.d2h
    ensures pool.Valid() && pool.Model() == Candidates(ss, Restarted(ly), ids).store
    ensures Candidates(ss, Restarted(ly), ids).pending == Some(Ranked(q, rank, top))
    ensures rank <= |ids| && q.top <= top
    ensures Ready(ss, Restarted(ly)) ==> top == Max(q.top, rank)
    ensures Ready(ss, Restarted(ly)) ==> exists taken: seq<nat> ::
              |taken| == rank && StreamLaw(ly.store, pool.Model(), q.victims, q.cap, host, AskedAll(ss, q, ids), taken)
  {
    StreamAsked(ss, ly, q, ids);
    hide StreamLaw, Ready, AskedAll;
    rank, top := 0, q.top;
    ghost var start := Restarted(ly);
    var k := 0;
    while k < |ids|
      invariant 0 <= k <= |ids| && pool.Valid() && Named(pool.Model()) && rank <= k && q.top <= top
      invariant pool.Model() == Candidates(ss, start, ids[..k]).store
      invariant Candidates(ss, start, ids[..k]).pending == Some(Ranked(q, rank, top))
    {
      assert ids[..k + 1][..k] == ids[..k];
      ghost var now := Candidates(ss, start, ids[..k]);
      rank, top := ClaimOne(pool, ss, host, Ranked(q, rank, top), ids[k], now);
      k := k + 1;
    }
    assert ids[..|ids|] == ids;
  }

  lemma StreamAsked(ss: map<nat, Session>, ly: Layer, q: Pending, ids: seq<int>)
    requires ly.pending == Some(q) && Shaped(ly.store) && |ly.store.h2d| == |ly.host|
    ensures Ready(ss, Restarted(ly)) ==>
      var r := Candidates(ss, Restarted(ly), ids);
      r.pending.Some? && r.pending.value.top == Max(q.top, r.pending.value.rank) && exists taken: seq<nat> ::
        |taken| == r.pending.value.rank && StreamLaw(ly.store, r.store, q.victims, q.cap, ly.host, AskedAll(ss, q, ids), taken)
  {
    hide StreamLaw, Candidates;
    if Ready(ss, Restarted(ly)) {
      var taken := StreamFetches(ss, Restarted(ly), ids);
      assert AskedAll(ss, Restarted(ly).pending.value, ids) == AskedAll(ss, q, ids);
    }
  }

  method ClaimOne(pool: LayerPool, ss: map<nat, Session>, host: seq<Record>, q: Pending, logical: int,
                  ghost ly: Layer) returns (rank: nat, top: nat)
    requires pool.Valid() && pool.Model() == ly.store && Named(ly.store) && ly.host == host && |host| == pool.h2d.Length
    requires ly.pending == Some(q)
    modifies pool.rows, pool.h2d, pool.d2h
    ensures pool.Valid() && Named(pool.Model()) && pool.Model() == CandidateAt(ss, ly, logical).store
    ensures CandidateAt(ss, ly, logical).pending == Some(Ranked(q, rank, top)) && rank <= q.rank + 1 && q.top <= top
  {
    rank, top := q.rank, q.top;
    if logical < 0 || logical >= q.history {
      return;
    }
    var g := Tok(ss, q.owner, logical);
    if g < 0 || g >= pool.h2d.Length || pool.h2d[g] != MISSING {
      return;
    }
    if rank >= q.cap || rank >= |q.victims| || q.victims[rank] < 1 || q.victims[rank] >= pool.d2h.Length {
      return;
    }
    var slot := q.victims[rank];
    var prior := pool.d2h[slot];
    if prior != MISSING {
      pool.h2d[prior] := MISSING;
    }
    pool.rows[slot] := host[g];
    pool.h2d[g] := slot;
    pool.d2h[slot] := g;
    rank, top := rank + 1, Max(q.top, rank + 1);
    assert pool.Model() == Claim(ly.store, g, slot, host[g]);
  }
}
