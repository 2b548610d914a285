/** What a stream of prefetch candidates fetches, told by the tokens it lists and the rows they started in. */
module PrefetchLaw {
  import opened TokenTypes
  import opened Ranking
  import opened TokenStore
  import opened TokenPool
  import opened PoolWritebacks
  import opened PoolTransactions
  import opened PoolPrefetch

  function Ranked(q: Pending, rank: nat, top: nat): Pending { q.(rank := rank, top := top) }

  /** The layer after the candidates of one stream. */
  function Candidates(ss: map<nat, Session>, ly: Layer, ids: seq<int>): (r: Layer)
    requires Shaped(ly.store) && |ly.store.h2d| == |ly.host|
    ensures Shaped(r.store) && |r.store.h2d| == |r.host| && r == ly.(store := r.store, pending := r.pending)
    ensures SameShape(r.store, ly.store) && r.store == ly.store.(rows := r.store.rows, h2d := r.store.h2d, d2h := r.store.d2h)
    ensures ly.pending.Some? ==> r.pending.Some? && r.pending == Some(Ranked(ly.pending.value, r.pending.value.rank, r.pending.value.top))
    ensures ly.pending.Some? ==> ly.pending.value.rank <= r.pending.value.rank <= ly.pending.value.rank + |ids|
  {
    if ids == [] then ly else CandidateAt(ss, Candidates(ss, ly, ids[..|ids| - 1]), ids[|ids| - 1])
  }

  /** The host ID a candidate asks for; -1 outside the history. */
  function Asked(ss: map<nat, Session>, q: Pending, logical: int): int {
    if 0 <= logical < q.history then Tok(ss, q.owner, logical) else -1
  }

  function AskedAll(ss: map<nat, Session>, q: Pending, ids: seq<int>): (xs: seq<int>)
    ensures |xs| == |ids| && forall k :: 0 <= k < |ids| ==> xs[k] == Asked(ss, q, ids[k])
  {
    seq(|ids|, k requires 0 <= k < |ids| => Asked(ss, q, ids[k]))
  }

  /** Once the first `n` victims are overwritten, `g` is on no row it started in. */
  predicate Absent(st: Store, victims: seq<nat>, g: int, n: nat) {
    n <= |victims| && 0 <= g < |st.h2d| && (st.h2d[g] == MISSING || st.h2d[g] in victims[..n])
  }

  /** What a stream may rely on. */
  ghost predicate Prepared(st: Store, victims: seq<nat>, cap: nat, host: seq<Record>) {
    && MapsAgree(st) && |host| == |st.h2d| && cap <= |victims| && Distinct(victims)
    && forall k :: 0 <= k < |victims| ==> 1 <= victims[k] < |st.d2h|
  }

  /** The positions of the stream that fetch: asked for and absent, each ID once, up to the cap. */
  ghost predicate Fetches(st: Store, victims: seq<nat>, cap: nat, xs: seq<int>, taken: seq<nat>) {
    && |taken| <= cap
    && (forall i :: 0 <= i < |taken| ==> taken[i] < |xs| && Absent(st, victims, xs[taken[i]], i))
    && (forall i, j :: 0 <= i < j < |taken| ==> taken[i] < taken[j] && xs[taken[i]] != xs[taken[j]])
  }

  /** Position `k` comes after exactly the first `n` fetching positions and is none of them. */
  predicate Between(taken: seq<nat>, n: nat, k: nat) {
    n <= |taken| && (n == 0 || taken[n - 1] < k) && (n == |taken| || k < taken[n])
  }

  /** A listed position that does not fetch found the cap reached, its ID fetched already, or its ID still in its row. */
  ghost predicate Spares(st: Store, victims: seq<nat>, cap: nat, xs: seq<int>, taken: seq<nat>) {
    forall k, n: nat :: 0 <= k < |xs| && xs[k] >= 0 && Between(taken, n, k) ==>
      n == cap || (exists j :: 0 <= j < n && taken[j] < |xs| && xs[taken[j]] == xs[k]) || !Absent(st, victims, xs[k], n)
  }

  /** The fetched IDs stand in the first victims, in order, with their records. */
  ghost predicate Placed(r: Store, victims: seq<nat>, host: seq<Record>, won: seq<int>)
    requires |won| <= |victims|
  {
    forall i :: 0 <= i < |won| ==>
      && 0 <= won[i] < |r.h2d| && won[i] < |host| && victims[i] < |r.d2h| && victims[i] < |r.rows|
      && r.h2d[won[i]] == victims[i] && r.d2h[victims[i]] == won[i] && r.rows[victims[i]] == host[won[i]]
  }

  /** Every other row is as before, and only the IDs of overwritten rows have lost theirs. */
  ghost predicate Untouched(st: Store, r: Store, victims: seq<nat>, won: seq<int>)
    requires SameShape(r, st) && |won| <= |victims|
  {
    && (forall s :: 0 <= s < |st.d2h| && s !in victims[..|won|] ==> r.d2h[s] == st.d2h[s])
    && (forall s :: 0 <= s < |st.rows| && s !in victims[..|won|] ==> r.rows[s] == st.rows[s])
    && (forall g :: 0 <= g < |st.h2d| && g !in won ==>
          r.h2d[g] == if st.h2d[g] in victims[..|won|] then MISSING else st.h2d[g])
  }

  ghost predicate Fetched(st: Store, r: Store, victims: seq<nat>, host: seq<Record>, won: seq<int>) {
    && SameShape(r, st) && |won| <= |victims| && |host| == |st.h2d|
    && Placed(r, victims, host, won) && Untouched(st, r, victims, won)
    && r.prio == st.prio && r.free == st.free && r.clock == st.clock
  }

  function Won(xs: seq<int>, taken: seq<nat>): (won: seq<int>)
    ensures |won| == |taken| && forall i :: 0 <= i < |won| ==> won[i] == if taken[i] < |xs| then xs[taken[i]] else -1
  {
    seq(|taken|, i requires 0 <= i < |taken| => if taken[i] < |xs| then xs[taken[i]] else -1)
  }

  ghost predicate StreamLaw(st: Store, r: Store, victims: seq<nat>, cap: nat, host: seq<Record>, xs: seq<int>, taken: seq<nat>) {
    Fetches(st, victims, cap, xs, taken) && Spares(st, victims, cap, xs, taken) && Fetched(st, r, victims, host, Won(xs, taken))
  }

  // ----- one more candidate

  /** The live map knows an ID exactly when it was fetched already or still stands in its row. */
  lemma MappedNow(st: Store, r: Store, victims: seq<nat>, cap: nat, host: seq<Record>, won: seq<int>, g: int)
    requires Prepared(st, victims, cap, host) && Fetched(st, r, victims, host, won) && 0 <= g < |st.h2d|
    ensures Mapped(r, g) <==> g in won || !Absent(st, victims, g, |won|)
  {
    if g in won {
      var i :| 0 <= i < |won| && won[i] == g;
    }
  }

  /** Claiming the next victim for an absent ID. */
  lemma ClaimFetches(st: Store, r: Store, victims: seq<nat>, cap: nat, host: seq<Record>, won: seq<int>, g: int)
    requires Prepared(st, victims, cap, host) && Fetched(st, r, victims, host, won) && |won| < cap
    requires Absent(st, victims, g, |won|) && g !in won && Shaped(r)
    requires forall i :: 0 <= i < |won| ==> Absent(st, victims, won[i], i)
    ensures Fetched(st, Claim(r, g, victims[|won|], host[g]), victims, host, won + [g])
  {
    assert victims[|won|] !in victims[..|won|];
    ClaimPlaces(st, r, victims, host, won, g);
    ClaimLeaves(st, r, victims, host, won, g);
    hide Placed, Untouched, MapsAgree;
  }

  lemma ClaimPlaces(st: Store, r: Store, victims: seq<nat>, host: seq<Record>, won: seq<int>, g: int)
    requires MapsAgree(st) && Distinct(victims) && Fetched(st, r, victims, host, won) && |won| < |victims|
    requires 1 <= victims[|won|] < |st.d2h| && Absent(st, victims, g, |won|) && g !in won && Shaped(r)
    requires forall i :: 0 <= i < |won| ==> Absent(st, victims, won[i], i)
    ensures Placed(Claim(r, g, victims[|won|], host[g]), victims, host, won + [g])
  {
    var n, s := |won|, victims[|won|];
    assert s !in victims[..n] && r.d2h[s] == st.d2h[s];
    hide MapsAgree, Absent, Untouched;
    forall i | 0 <= i < n ensures won[i] != r.d2h[s] && won[i] != g && victims[i] != s {
      OwnRow(st, victims, won[i], i, n);
    }
    ClaimKeepsPlaced(r, g, s, host, victims, won);
    hide Placed;
    PlacedOneMore(Claim(r, g, s, host[g]), victims, host, won, g);
  }

  lemma ClaimKeepsPlaced(r: Store, g: int, s: nat, host: seq<Record>, victims: seq<nat>, won: seq<int>)
    requires Shaped(r) && |won| <= |victims| && Placed(r, victims, host, won) && 0 <= g < |r.h2d| && g < |host| && 1 <= s < |r.d2h|
    requires forall i :: 0 <= i < |won| ==> won[i] != r.d2h[s] && won[i] != g && victims[i] != s
    ensures Placed(Claim(r, g, s, host[g]), victims, host, won)
  {
  }

  lemma PlacedOneMore(t: Store, victims: seq<nat>, host: seq<Record>, won: seq<int>, g: int)
    requires |won| < |victims| && Placed(t, victims, host, won)
    requires 0 <= g < |t.h2d| && g < |host| && victims[|won|] < |t.d2h| && victims[|won|] < |t.rows|
    requires t.h2d[g] == victims[|won|] && t.d2h[victims[|won|]] == g && t.rows[victims[|won|]] == host[g]
    ensures Placed(t, victims, host, won + [g])
  {
  }

  lemma ClaimLeaves(st: Store, r: Store, victims: seq<nat>, host: seq<Record>, won: seq<int>, g: int)
    requires MapsAgree(st) && Distinct(victims) && Fetched(st, r, victims, host, won) && |won| < |victims|
    requires 1 <= victims[|won|] < |st.d2h| && 0 <= g < |st.h2d| && Shaped(r)
    ensures Untouched(st, Claim(r, g, victims[|won|], host[g]), victims, won + [g])
  {
    var n, s := |won|, victims[|won|];
    assert victims[..n + 1] == victims[..n] + [s];
    assert s !in victims[..n];
    var prior, t := r.d2h[s], Claim(r, g, s, host[g]);
    forall h | 0 <= h < |st.h2d| && h !in won + [g] ensures t.h2d[h] == if st.h2d[h] in victims[..n + 1] then MISSING else st.h2d[h] {
      assert h !in won && h != g;
      if st.h2d[h] == s { assert Mapped(st, h); }
      if h == prior { assert Live(st, s); }
    }
    hide MapsAgree, Placed;
  }

  /** An ID that was absent earlier does not stand in a later victim. */
  lemma OwnRow(st: Store, victims: seq<nat>, g: int, i: nat, n: nat)
    requires MapsAgree(st) && Distinct(victims) && i <= n < |victims| && 1 <= victims[n] < |st.d2h|
    requires Absent(st, victims, g, i)
    ensures st.d2h[victims[n]] != g
  {
    if st.d2h[victims[n]] == g {
      assert Live(st, victims[n]);
    }
  }

  lemma FetchesMore(st: Store, victims: seq<nat>, cap: nat, xs: seq<int>, taken: seq<nat>, x: int)
    requires Fetches(st, victims, cap, xs, taken) && |taken| < cap && Absent(st, victims, x, |taken|) && x !in Won(xs, taken)
    ensures Fetches(st, victims, cap, xs + [x], taken + [|xs|])
    ensures Won(xs + [x], taken + [|xs|]) == Won(xs, taken) + [x]
  {
    var ys, t := xs + [x], taken + [|xs|];
    forall i | 0 <= i < |taken| ensures Won(xs, taken)[i] == xs[taken[i]] == ys[t[i]] {}
  }

  lemma FetchesSame(st: Store, victims: seq<nat>, cap: nat, xs: seq<int>, taken: seq<nat>, x: int)
    requires Fetches(st, victims, cap, xs, taken)
    ensures Fetches(st, victims, cap, xs + [x], taken) && Won(xs + [x], taken) == Won(xs, taken)
  {
  }

  /** The earlier positions keep their reasons; the last one fetches or has its own. */
  lemma SparesMore(st: Store, victims: seq<nat>, cap: nat, xs: seq<int>, taken: seq<nat>, x: int, t: seq<nat>)
    requires Fetches(st, victims, cap, xs, taken) && Spares(st, victims, cap, xs, taken)
    requires t == taken + [|xs|] || (t == taken && (x >= 0 ==> |taken| == cap || x in Won(xs, taken) || !Absent(st, victims, x, |taken|)))
    ensures Spares(st, victims, cap, xs + [x], t)
  {
    var ys := xs + [x];
    forall k, n: nat | 0 <= k < |ys| && ys[k] >= 0 && Between(t, n, k)
      ensures n == cap || (exists j :: 0 <= j < n && t[j] < |ys| && ys[t[j]] == ys[k]) || !Absent(st, victims, ys[k], n)
    {
      if k < |xs| {
        assert n <= |taken| && Between(taken, n, k);
        if j :| 0 <= j < n && taken[j] < |xs| && xs[taken[j]] == xs[k] { assert ys[t[j]] == ys[k]; }
      } else {
        assert t == taken && n == |taken|;
        if x in Won(xs, taken) {
          var j :| 0 <= j < |taken| && Won(xs, taken)[j] == x;
          assert ys[t[j]] == ys[k];
        }
      }
    }
  }

  // ----- the whole stream

  /** The layer's prefetch is prepared, its history lies in the pages of its owner, and no candidate of the stream has been seen. */
  ghost predicate Ready(ss: map<nat, Session>, ly: Layer) {
    && ly.pending.Some? && ly.pending.value.rank == 0
    && Prepared(ly.store, ly.pending.value.victims, ly.pending.value.cap, ly.host)
    && forall i: nat :: i < ly.pending.value.history ==> 0 <= Tok(ss, ly.pending.value.owner, i) < |ly.store.h2d|
  }

  lemma {:induction false} StreamFetches(ss: map<nat, Session>, ly: Layer, ids: seq<int>) returns (taken: seq<nat>)
    requires Ready(ss, ly)
    ensures Streamed(ly, Candidates(ss, ly, ids), AskedAll(ss, ly.pending.value, ids), taken)
    decreases |ids|
  {
    var q := ly.pending.value;
    hide Streamed, CandidateAt, AskedAll, Ready;
    if ids == [] {
      taken := [];
      NothingFetched(ss, ly);
    } else {
      var n := |ids| - 1;
      taken := StreamFetches(ss, ly, ids[..n]);
      AskedMore(ss, q, ids);
      taken := CandidateFetches(ss, ly, Candidates(ss, ly, ids[..n]), AskedAll(ss, q, ids[..n]), ids[n], taken);
    }
  }

  lemma AskedMore(ss: map<nat, Session>, q: Pending, ids: seq<int>)
    requires ids != []
    ensures AskedAll(ss, q, ids) == AskedAll(ss, q, ids[..|ids| - 1]) + [Asked(ss, q, ids[|ids| - 1])]
  {
  }

  lemma NothingFetched(ss: map<nat, Session>, ly: Layer)
    requires Ready(ss, ly)
    ensures ly.pending.Some? && Streamed(ly, ly, AskedAll(ss, ly.pending.value, []), [])
  {
  }

  /** The layer after the listed positions of a stream. */
  ghost predicate Streamed(ly: Layer, m: Layer, xs: seq<int>, taken: seq<nat>)
    requires ly.pending.Some?
  {
    var q := ly.pending.value;
    && StreamLaw(ly.store, m.store, q.victims, q.cap, ly.host, xs, taken)
    && m.host == ly.host && m.pending == Some(q.(rank := |taken|, top := Max(q.top, |taken|)))
  }

  lemma CandidateFetches(ss: map<nat, Session>, ly: Layer, m: Layer, xs: seq<int>, id: int, was: seq<nat>) returns (taken: seq<nat>)
    requires Ready(ss, ly) && Streamed(ly, m, xs, was) && Shaped(m.store) && |m.store.h2d| == |m.host|
    ensures Streamed(ly, CandidateAt(ss, m, id), xs + [Asked(ss, ly.pending.value, id)], taken)
  {
    var q, x := ly.pending.value, Asked(ss, ly.pending.value, id);
    CandidateIs(ss, ly, m, Won(xs, was), id);
    assert |was| <= q.cap;
    hide CandidateAt, Fetches, Spares, Fetched, Prepared, Next, Asked, Wins, Won, Absent, Tok;
    taken := OneMore(ly.store, m.store, q.victims, q.cap, ly.host, xs, was, x);
  }

  predicate Wins(m: Store, x: int, n: nat, cap: nat)
    requires x < |m.h2d|
  {
    x >= 0 && !Mapped(m, x) && n < cap
  }

  /** The rows after the listed ID `x`, when `n` victims are already claimed. */
  function Next(m: Store, victims: seq<nat>, cap: nat, host: seq<Record>, n: nat, x: int): Store
    requires Shaped(m) && x < |m.h2d| <= |host| && cap <= |victims| && forall k :: 0 <= k < |victims| ==> 1 <= victims[k] < |m.d2h|
  {
    if Wins(m, x, n, cap) then Claim(m, x, victims[n], host[x]) else m
  }

  /** The law after one more listed ID. */
  lemma OneMore(st: Store, m: Store, victims: seq<nat>, cap: nat, host: seq<Record>, xs: seq<int>, was: seq<nat>, x: int)
    returns (taken: seq<nat>)
    requires Prepared(st, victims, cap, host) && StreamLaw(st, m, victims, cap, host, xs, was) && Shaped(m) && SameShape(m, st) && x < |st.h2d|
    requires |was| <= cap && (x >= 0 ==> (Mapped(m, x) <==> x in Won(xs, was) || !Absent(st, victims, x, |was|)))
    ensures taken == if Wins(m, x, |was|, cap) then was + [|xs|] else was
    ensures StreamLaw(st, Next(m, victims, cap, host, |was|, x), victims, cap, host, xs + [x], taken)
  {
    hide Fetches, Spares, Fetched, Won, Absent, MapsAgree, Claim;
    if Wins(m, x, |was|, cap) {
      taken := was + [|xs|];
      FetchedAbsent(st, victims, cap, xs, was);
      ClaimFetches(st, m, victims, cap, host, Won(xs, was), x);
      SparesMore(st, victims, cap, xs, was, x, taken);
      FetchesMore(st, victims, cap, xs, was, x);
    } else {
      taken := was;
      SparesMore(st, victims, cap, xs, was, x, taken);
      FetchesSame(st, victims, cap, xs, was, x);
    }
  }

  lemma FetchedAbsent(st: Store, victims: seq<nat>, cap: nat, xs: seq<int>, taken: seq<nat>)
    requires Fetches(st, victims, cap, xs, taken)
    ensures forall i :: 0 <= i < |taken| ==> Absent(st, victims, Won(xs, taken)[i], i)
  {
  }

  /** What one candidate does: nothing, or claim the next victim for an ID that the live map does not know. */
  lemma CandidateIs(ss: map<nat, Session>, ly: Layer, m: Layer, won: seq<int>, id: int)
    requires Ready(ss, ly) && ly.pending.Some? && |won| <= ly.pending.value.cap
    requires var q := ly.pending.value; m.pending == Some(q.(rank := |won|, top := Max(q.top, |won|)))
    requires Shaped(m.store) && m.host == ly.host && Fetched(ly.store, m.store, ly.pending.value.victims, ly.host, won)
    ensures var q, x, n := ly.pending.value, Asked(ss, ly.pending.value, id), |won|;
      && SameShape(m.store, ly.store) && x < |m.store.h2d| && (x >= 0 ==> (Mapped(m.store, x) <==> x in won || !Absent(ly.store, q.victims, x, n)))
      && var n' := if Wins(m.store, x, n, q.cap) then n + 1 else n;
         CandidateAt(ss, m, id) ==
           m.(store := Next(m.store, q.victims, q.cap, ly.host, n, x), pending := Some(q.(rank := n', top := Max(q.top, n'))))
  {
    var q, x := ly.pending.value, Asked(ss, ly.pending.value, id);
    if x >= 0 { MappedNow(ly.store, m.store, q.victims, q.cap, ly.host, won, x); }
    hide MapsAgree, Claim, Tok;
  }

  // ----- in every sound pool

  /** A prepared prefetch of a sound layer is ready for a stream, which starts at the first victim. */
  lemma LayerReady(cfg: Config, ss: map<nat, Session>, ly: Layer, ws: seq<Ticket>, l: nat)
    requires PagesOwned(cfg, ss) && LayerInv(cfg, ss, ly, ws, l) && ly.pending.Some?
    ensures Ready(ss, Restarted(ly))
  {
    var q := ly.pending.value;
    hide Copies, Ages, HostOK, ArenaOK, TicketsOK, CandidateOK, ProofsOK, PlanOK;
    assert ViewOK(cfg, ss[q.owner], ly.views[q.owner]);
    forall i: nat | i < q.history ensures 0 <= Tok(ss, q.owner, i) < |ly.store.h2d| {
      TokRange(cfg, ss, q.owner, i);
    }
  }

  /** A stream in any sound pool: the law, told by the layer it starts from. */
  lemma StreamInPool(p: Pool, l: nat, ids: seq<int>) returns (taken: seq<nat>)
    requires Inv(p) && l < |p.layers| && p.layers[l].pending.Some?
    ensures Shaped(p.layers[l].store) && |p.layers[l].store.h2d| == |p.layers[l].host|
    ensures var ly := p.layers[l]; var q := ly.pending.value;
      Streamed(Restarted(ly), Candidates(p.sessions, Restarted(ly), ids), AskedAll(p.sessions, q, ids), taken)
  {
    LayerReady(p.cfg, p.sessions, p.layers[l], p.writes, l);
    hide Inv, Streamed, Candidates;
    taken := StreamFetches(p.sessions, Restarted(p.layers[l]), ids);
    assert AskedAll(p.sessions, Restarted(p.layers[l]).pending.value, ids) == AskedAll(p.sessions, p.layers[l].pending.value, ids);
  }

  /** While the cap is not reached every candidate of the history is fetched, or was there and kept its row. */
  lemma StreamCovers(st: Store, r: Store, victims: seq<nat>, cap: nat, host: seq<Record>, xs: seq<int>, taken: seq<nat>, k: nat)
    requires StreamLaw(st, r, victims, cap, host, xs, taken) && |taken| < cap && k < |xs| && 0 <= xs[k] < |st.h2d|
    requires !Mapped(st, xs[k])
    ensures r.h2d[xs[k]] in victims[..|taken|] && r.h2d[xs[k]] < |r.rows| && r.rows[r.h2d[xs[k]]] == host[xs[k]]
  {
    if k in taken {
      var i :| 0 <= i < |taken| && taken[i] == k;
      assert Won(xs, taken)[i] == xs[k];
    } else {
      var n := Position(taken, k);
      var j :| 0 <= j < n && taken[j] < |xs| && xs[taken[j]] == xs[k];
      assert Won(xs, taken)[j] == xs[k];
    }
  }

  lemma {:induction false} Position(taken: seq<nat>, k: nat) returns (n: nat)
    requires (forall i, j :: 0 <= i < j < |taken| ==> taken[i] < taken[j]) && k !in taken
    ensures Between(taken, n, k)
  {
    n := |taken|;
    if taken != [] {
      var m := |taken| - 1;
      if taken[m] > k {
        n := Position(taken[..m], k);
        assert taken[..m][..n] == taken[..n];
      }
    }
  }
}
