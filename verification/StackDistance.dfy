/** The user LRU obeys the stack-distance law of the sampled access traces. */
module StackDistance {
  import opened TokenTypes
  import opened PrefixPool
  import Ranking

  // ----- recency

  function Pos(xs: seq<nat>, x: nat): (i: nat)
    ensures i <= |xs| && (i < |xs| ==> xs[i] == x)
    ensures forall j :: 0 <= j < i ==> xs[j] != x
  {
    if xs == [] || xs[0] == x then 0 else 1 + Pos(xs[1..], x)
  }

  function Drop(xs: seq<nat>, x: nat): seq<nat> {
    var i := Pos(xs, x);
    if i < |xs| then xs[..i] + xs[i + 1..] else xs
  }

  /** The distinct users of a trace, least recently seen first. */
  function Recent(t: seq<nat>): seq<nat> {
    if t == [] then [] else Drop(Recent(t[..|t| - 1]), t[|t| - 1]) + [t[|t| - 1]]
  }

  function Tail(xs: seq<nat>, n: nat): seq<nat> {
    if |xs| <= n then xs else xs[|xs| - n..]
  }

  /** The position of the last request of a user, or the trace's length when there is none. */
  function LastPos(t: seq<nat>, u: nat): (i: nat)
    ensures i <= |t| && (i < |t| ==> t[i] == u) && (i == |t| ==> u !in t)
    ensures forall j :: i < j < |t| ==> t[j] != u
  {
    if t == [] then 0
    else if t[|t| - 1] == u then |t| - 1
    else if LastPos(t[..|t| - 1], u) == |t| - 1 then |t| else LastPos(t[..|t| - 1], u)
  }

  lemma {:induction false} RecentDistinct(t: seq<nat>)
    ensures Ranking.Distinct(Recent(t)) && forall u :: u in Recent(t) <==> u in t
  {
    if t != [] {
      var front, x := t[..|t| - 1], t[|t| - 1];
      RecentDistinct(front);
      assert t == front + [x];
      DropDistinct(Recent(front), x);
    }
  }

  lemma DropDistinct(xs: seq<nat>, x: nat)
    requires Ranking.Distinct(xs)
    ensures var r := Drop(xs, x); Ranking.Distinct(r + [x]) && x !in r && forall u :: u in r <==> u in xs && u != x
  {
    var i, r := Pos(xs, x), Drop(xs, x);
    if i < |xs| {
      forall u | u in xs && u != x ensures u in r {
        var k :| 0 <= k < |xs| && xs[k] == u;
        assert r[if k < i then k else k - 1] == u;
      }
    }
  }

  lemma PosConcat(a: seq<nat>, b: seq<nat>, x: nat)
    ensures Pos(a + b, x) == if x in a then Pos(a, x) else |a| + Pos(b, x)
    ensures x in a <==> Pos(a, x) < |a|
  {
    hide Pos;
    var i, j, k := Pos(a, x), Pos(b, x), Pos(a + b, x);
    if i < |a| {
      assert (a + b)[i] == x;
    } else {
      if j < |b| { assert (a + b)[|a| + j] == x; }
      assert forall m | 0 <= m < |a| + j :: (a + b)[m] != x;
    }
  }

  lemma DropConcat(a: seq<nat>, b: seq<nat>, x: nat)
    ensures x !in a ==> Drop(a + b, x) == a + Drop(b, x)
    ensures x !in b ==> Drop(a + b, x) == Drop(a, x) + b
  {
    hide Pos;
    PosConcat(a, b, x);
    PosConcat(b, [], x);
    assert b + [] == b;
    var i, j := Pos(a, x), Pos(b, x);
    if x in a {
      assert (a + b)[..i] + (a + b)[i + 1..] == (a[..i] + a[i + 1..]) + b;
    } else if j < |b| {
      assert (a + b)[..|a| + j] + (a + b)[|a| + j + 1..] == a + (b[..j] + b[j + 1..]);
    }
  }

  /** The users standing behind `u`. */
  ghost function Behind(r: seq<nat>, u: nat): set<nat> {
    if u in r then Ranking.Elements(r[Pos(r, u) + 1..]) else {}
  }

  /** The users requested since `u` was last seen. */
  ghost function Since(t: seq<nat>, u: nat): set<nat> {
    if u in t then Ranking.Elements(t[LastPos(t, u) + 1..]) else {}
  }

  lemma SinceStep(t: seq<nat>, u: nat, x: nat)
    requires u in t && u != x
    ensures Since(t + [x], u) == Since(t, u) + {x}
  {
    var p := LastPos(t, u);
    assert (t + [x])[..|t|] == t;
    assert LastPos(t + [x], u) == p;
    assert (t + [x])[p + 1..] == t[p + 1..] + [x];
  }

  /** Moving another user to the young end puts it behind `u` and disturbs nobody else. */
  lemma BehindStep(q: seq<nat>, u: nat, x: nat)
    requires Ranking.Distinct(q) && u in q && u != x
    ensures Behind(Drop(q, x) + [x], u) == Behind(q, u) + {x}
  {
    hide Pos, Drop, Behind;
    var k := Pos(q, u);
    var a, b := q[..k], q[k + 1..];
    assert q == (a + [u]) + b && q == a + ([u] + b);
    BehindAt(a, u, b);
    DropConcat(a + [u], b, x);
    ElementsPlus(b, x);
    if x in a {
      DropConcat(a, [u], x);
      assert Drop(q, x) + [x] == Drop(a, x) + ([u] + (b + [x]));
      DropDistinct(a, x);
      BehindAt(Drop(a, x), u, b + [x]);
    } else {
      assert Drop(q, x) + [x] == a + ([u] + (Drop(b, x) + [x]));
      BehindAt(a, u, Drop(b, x) + [x]);
      DropDistinct(b, x);
      ElementsPlus(Drop(b, x), x);
    }
  }

  lemma ElementsPlus(b: seq<nat>, x: nat)
    ensures Ranking.Elements(b + [x]) == Ranking.Elements(b) + {x}
  {
  }

  lemma BehindAt(a: seq<nat>, u: nat, b: seq<nat>)
    requires u !in a
    ensures Behind(a + ([u] + b), u) == Ranking.Elements(b)
  {
    var r := a + ([u] + b);
    assert r[|a|] == u;
    assert Pos(r, u) == |a|;
    assert r[|a| + 1..] == b;
  }

  /** The users behind one in the recency list are exactly those requested since it was last seen. */
  lemma {:induction false} BehindIsSince(t: seq<nat>, u: nat)
    requires u in t
    ensures u in Recent(t) && Behind(Recent(t), u) == Since(t, u)
  {
    hide Behind, Since, LastPos, Pos, Drop;
    RecentDistinct(t);
    var front, x := t[..|t| - 1], t[|t| - 1];
    assert t == front + [x];
    RecentDistinct(front);
    if x == u {
      NothingBehind(front, u);
    } else {
      assert u in front;
      BehindIsSince(front, u);
      SinceStep(front, u, x);
      BehindStep(Recent(front), u, x);
    }
  }

  lemma NothingBehind(front: seq<nat>, u: nat)
    requires Ranking.Distinct(Recent(front))
    ensures Behind(Drop(Recent(front), u) + [u], u) == {} && Since(front + [u], u) == {}
  {
    var d := Drop(Recent(front), u);
    DropDistinct(Recent(front), u);
    assert d + [u] == d + ([u] + []);
    BehindAt(d, u, []);
    var t := front + [u];
    assert LastPos(t, u) == |t| - 1;
    assert t[|t|..] == [];
  }

  // ----- the pool under equal charges

  /** Every user charges `p` host pages, always asks for the same prefix, and nothing else is limited. */
  ghost predicate EqualCharges(lim: Limits, p: nat, reqOf: nat -> Request) {
    && p > 0 && lim.budget.None?
    && forall u :: WellFormed(lim, reqOf(u)) && reqOf(u).key == u && reqOf(u).pages == p && reqOf(u).tokens == 0
  }

  /** Serve one request: acquire, build on a miss, mark ready. */
  function Serve(lim: Limits, q: Pool, req: Request, session: nat): (Pool, Answer) {
    var (r, a) := Acquired(lim, q, req, Allocated(session));
    (if a.Miss? then r.(entries := MarkedReady(r.entries, req.key)) else r, a)
  }

  function AfterTrace(lim: Limits, reqOf: nat -> Request, t: seq<nat>): Pool {
    if t == [] then Pool([], 0)
    else Serve(lim, AfterTrace(lim, reqOf, t[..|t| - 1]), reqOf(t[|t| - 1]), |t| - 1).0
  }

  /** The answer to the last request of a trace. */
  function LastAnswer(lim: Limits, reqOf: nat -> Request, t: seq<nat>): Answer
    requires t != []
  {
    Serve(lim, AfterTrace(lim, reqOf, t[..|t| - 1]), reqOf(t[|t| - 1]), |t| - 1).1
  }

  predicate Serves(e: Entry, req: Request) {
    e.ready && e.key == req.key && e.signature == req.signature && e.capacity == req.capacity
    && e.reservation == req.reservation && e.pages == req.pages && e.tokens == req.tokens && e.plan == req.plan
  }

  ghost predicate Holds(entries: seq<Entry>, reqOf: nat -> Request, users: seq<nat>) {
    Keys(entries) == users && forall e <- entries :: Serves(e, reqOf(e.key))
  }

  lemma {:induction false} EqualTotals(lim: Limits, p: nat, reqOf: nat -> Request, entries: seq<Entry>)
    requires EqualCharges(lim, p, reqOf) && forall e <- entries :: Serves(e, reqOf(e.key))
    ensures Pages(entries) == p * |entries| && Tokens(entries) == 0
  {
    if entries != [] {
      EqualTotals(lim, p, reqOf, entries[1..]);
      assert Serves(entries[0], reqOf(entries[0].key));
      assert p * |entries| == p + p * (|entries| - 1);
    }
  }

  lemma Quotient(p: nat, k: nat, cap: nat)
    requires p > 0
    ensures p * k <= cap <==> k <= cap / p
  {
    assert p * (cap / p) <= cap < p * (cap / p) + p;
    if k <= cap / p {
      assert p * k <= p * (cap / p);
    } else {
      assert p * k >= p * (cap / p + 1);
    }
  }

  /** A user's request is admitted beside `m` served users exactly when `m` is below the number of sessions that fit. */
  lemma EqualAdmits(lim: Limits, p: nat, reqOf: nat -> Request, entries: seq<Entry>, u: nat)
    requires EqualCharges(lim, p, reqOf) && forall e <- entries :: Serves(e, reqOf(e.key))
    ensures Admits(lim, entries, reqOf(u)) <==> |entries| < lim.pages / p
  {
    EqualTotals(lim, p, reqOf, entries);
    Quotient(p, |entries| + 1, lim.pages);
    assert p * (|entries| + 1) == p * |entries| + p;
  }

  lemma {:induction false} EqualVictims(lim: Limits, p: nat, reqOf: nat -> Request, entries: seq<Entry>, u: nat)
    requires EqualCharges(lim, p, reqOf) && lim.pages / p > 0 && |entries| <= lim.pages / p
    requires forall e <- entries :: Serves(e, reqOf(e.key))
    ensures Victims(lim, entries, reqOf(u)) == if |entries| == lim.pages / p then 1 else 0
  {
    EqualAdmits(lim, p, reqOf, entries, u);
    if |entries| == lim.pages / p {
      EqualAdmits(lim, p, reqOf, entries[1..], u);
      assert Victims(lim, entries[1..], reqOf(u)) == 0;
    }
  }

  lemma FindInKeys(entries: seq<Entry>, u: nat)
    ensures IndexOf(entries, u) == Pos(Keys(entries), u)
    ensures Keys(Without(entries, u)) == Drop(Keys(entries), u)
    ensures Find(entries, u).Some? <==> u in Keys(entries)
  {
    hide IndexOf, Pos;
    var i, k := IndexOf(entries, u), Keys(entries);
    assert forall j :: 0 <= j < i ==> k[j] == entries[j].key != u;
    assert i < |entries| ==> k[i] == u;
    assert Pos(k, u) == i;
    if i < |entries| {
      assert k[i] == u;
    }
  }

  /** Serving a user turns the recency list's tail into the next recency list's tail. */
  lemma ServeKeeps(lim: Limits, p: nat, reqOf: nat -> Request, q: Pool, users: seq<nat>, u: nat, session: nat)
    requires EqualCharges(lim, p, reqOf) && Ranking.Distinct(users)
    requires Holds(q.entries, reqOf, Tail(users, lim.pages / p))
    ensures var (r, a) := Serve(lim, q, reqOf(u), session);
      && Holds(r.entries, reqOf, Tail(Drop(users, u) + [u], lim.pages / p))
      && (a.Hit? <==> u in Tail(users, lim.pages / p))
  {
    hide Pos, Drop, IndexOf, Admits, Victims, Reusable, Serves, Tail, WellFormed;
    var n := lim.pages / p;
    var req := reqOf(u);
    EqualAdmits(lim, p, reqOf, [], u);
    FindInKeys(q.entries, u);
    TailLength(users, n);
    TailLength(Drop(users, u) + [u], n);
    if n == 0 {
      assert Tail(Drop(users, u) + [u], n) == [];
    } else if u in Tail(users, n) {
      TailHit(users, n, u);
      HitServes(q.entries, reqOf, u);
    } else {
      TailMiss(users, n, u);
      EqualVictims(lim, p, reqOf, q.entries, u);
      assert IndexOf(q.entries, u) == |q.entries|;
      var kept := q.entries[Victims(lim, q.entries, req)..];
      MissServes(kept, reqOf, u, session);
    }
  }

  lemma HitServes(entries: seq<Entry>, reqOf: nat -> Request, u: nat)
    requires forall e <- entries :: Serves(e, reqOf(e.key))
    requires Find(entries, u).Some? && reqOf(u).key == u
    ensures Reusable(Find(entries, u).value, reqOf(u))
    ensures Keys(Without(entries, u) + [Find(entries, u).value]) == Keys(Without(entries, u)) + [u]
    ensures forall e <- Without(entries, u) + [Find(entries, u).value] :: Serves(e, reqOf(e.key))
  {
    var i := IndexOf(entries, u);
    assert Serves(entries[i], reqOf(entries[i].key));
  }

  lemma MissServes(kept: seq<Entry>, reqOf: nat -> Request, u: nat, session: nat)
    requires (forall e <- kept :: Serves(e, reqOf(e.key)) && e.key != u) && reqOf(u).key == u
    ensures var r := MarkedReady(kept + [NewEntry(reqOf(u), session)], u);
      Keys(r) == Keys(kept) + [u] && forall e <- r :: Serves(e, reqOf(e.key))
  {
    var r := MarkedReady(kept + [NewEntry(reqOf(u), session)], u);
    forall i | 0 <= i < |r| ensures Serves(r[i], reqOf(r[i].key)) {
      if i < |kept| { assert r[i] == kept[i]; }
    }
  }

  /** The list in front of the tail, and that nobody stands in both. */
  lemma TailSplit(users: seq<nat>, n: nat, u: nat)
    requires Ranking.Distinct(users)
    ensures var t := Tail(users, n);
      && users == users[..|users| - |t|] + t && |t| == (if |users| <= n then |users| else n)
      && (u in t ==> u !in users[..|users| - |t|])
  {
    var t := Tail(users, n);
    var cut := |users| - |t|;
    if u in t {
      var k :| 0 <= k < |t| && t[k] == u;
      assert users[cut + k] == u;
    }
  }

  lemma TailLength(users: seq<nat>, n: nat)
    ensures |Tail(users, n)| <= n
  {
  }

  lemma TailConcat(a: seq<nat>, b: seq<nat>, n: nat)
    requires |b| >= n || |a| == 0
    ensures Tail(a + b, n) == Tail(b, n)
  {
    if |b| >= n { assert (a + b)[|a + b| - n..] == b[|b| - n..]; } else { assert a + b == b; }
  }

  lemma TailHit(users: seq<nat>, n: nat, u: nat)
    requires Ranking.Distinct(users) && u in Tail(users, n)
    ensures Tail(Drop(users, u) + [u], n) == Drop(Tail(users, n), u) + [u]
  {
    hide Drop, Pos;
    var t := Tail(users, n);
    var a := users[..|users| - |t|];
    TailSplit(users, n, u);
    DropConcat(a, t, u);
    assert Drop(users, u) + [u] == a + (Drop(t, u) + [u]);
    assert |Drop(t, u)| == |t| - 1 by { DropLength(t, u); }
    TailConcat(a, Drop(t, u) + [u], n);
  }

  lemma TailMiss(users: seq<nat>, n: nat, u: nat)
    requires Ranking.Distinct(users) && u !in Tail(users, n) && n > 0
    ensures var t := Tail(users, n); Tail(Drop(users, u) + [u], n) == (if |t| == n then t[1..] else t) + [u]
  {
    hide Drop, Pos;
    var t := Tail(users, n);
    var a := users[..|users| - |t|];
    TailSplit(users, n, u);
    DropConcat(a, t, u);
    assert Drop(users, u) + [u] == Drop(a, u) + (t + [u]);
    assert |a| == 0 ==> |Drop(a, u)| == 0 by { ShortDrop(a, u); }
    TailConcat(Drop(a, u), t + [u], n);
  }

  lemma DropLength(t: seq<nat>, u: nat)
    requires u in t
    ensures |Drop(t, u)| == |t| - 1
  {
  }

  lemma ShortDrop(a: seq<nat>, u: nat)
    ensures |Drop(a, u)| <= |a|
  {
  }

  lemma {:induction false} TraceHolds(lim: Limits, p: nat, reqOf: nat -> Request, t: seq<nat>)
    requires EqualCharges(lim, p, reqOf)
    ensures Holds(AfterTrace(lim, reqOf, t).entries, reqOf, Tail(Recent(t), lim.pages / p))
  {
    if t != [] {
      var front, u := t[..|t| - 1], t[|t| - 1];
      TraceHolds(lim, p, reqOf, front);
      RecentDistinct(front);
      ServeKeeps(lim, p, reqOf, AfterTrace(lim, reqOf, front), Recent(front), u, |t| - 1);
    }
  }

  /** How many distinct users a trace names after position `prev`. */
  ghost function UsersSince(t: seq<nat>, prev: nat): nat
    requires prev < |t|
  {
    |Ranking.Elements(t[prev + 1..])|
  }

  /** How far from the young end a user stands in the recency list, counted as users. */
  lemma DepthIsUsersSince(t: seq<nat>, u: nat)
    requires u in t
    ensures u in Recent(t) && |Recent(t)| - 1 - Pos(Recent(t), u) == UsersSince(t, LastPos(t, u))
  {
    hide Pos, LastPos, Recent;
    BehindIsSince(t, u);
    RecentDistinct(t);
    var r := Recent(t);
    Ranking.DistinctCard(r[Pos(r, u) + 1..]);
  }

  /** The stack-distance law: a request hits exactly when its user was seen before and fewer users than fit came between. */
  lemma HitIffNear(lim: Limits, p: nat, reqOf: nat -> Request, t: seq<nat>, u: nat)
    requires EqualCharges(lim, p, reqOf)
    ensures LastAnswer(lim, reqOf, t + [u]).Hit? <==>
              u in t && UsersSince(t, LastPos(t, u)) < lim.pages / p
  {
    hide Pos, LastPos, Recent, Holds, Drop, Serve;
    var n := lim.pages / p;
    assert (t + [u])[..|t|] == t;
    TraceHolds(lim, p, reqOf, t);
    RecentDistinct(t);
    ServeKeeps(lim, p, reqOf, AfterTrace(lim, reqOf, t), Recent(t), u, |t|);
    if u in t {
      DepthIsUsersSince(t, u);
      InTail(Recent(t), n, u);
    } else {
      NotInTail(Recent(t), n, u);
    }
  }

  lemma NotInTail(xs: seq<nat>, n: nat, u: nat)
    requires u !in xs
    ensures u !in Tail(xs, n)
  {
  }

  lemma InTail(xs: seq<nat>, n: nat, u: nat)
    requires Ranking.Distinct(xs) && u in xs
    ensures u in Tail(xs, n) <==> |xs| - 1 - Pos(xs, u) < n
  {
    var i := Pos(xs, u);
    var t := Tail(xs, n);
    var cut := |xs| - |t|;
    if i >= cut {
      assert t[i - cut] == u;
    } else {
      forall k | 0 <= k < |t| ensures t[k] != u {
        assert t[k] == xs[cut + k];
      }
    }
  }

  // ----- the sampled trace

  datatype Row = Row(user: nat, visit: nat, previous: Option<nat>, distance: Option<nat>)

  function Visits(t: seq<nat>, u: nat): nat {
    if t == [] then 0 else Visits(t[..|t| - 1], u) + (if t[|t| - 1] == u then 1 else 0)
  }

  /** What a row means: earlier visits, the previous visit, and the distinct users requested since. */
  ghost function RowOf(t: seq<nat>, u: nat): Row {
    if u in t then Row(u, Visits(t, u), Some(LastPos(t, u)), Some(UsersSince(t, LastPos(t, u)))) else Row(u, 0, None, None)
  }

  lemma {:induction false} NoVisits(t: seq<nat>, u: nat)
    requires u !in t
    ensures Visits(t, u) == 0
  {
    if t != [] {
      assert t[|t| - 1] in t;
      NoVisits(t[..|t| - 1], u);
    }
  }

  /** The running tallies of the trace so far. */
  ghost predicate Tallied(t: seq<nat>, counts: map<nat, nat>, last: map<nat, nat>) {
    && (forall u :: u in last <==> u in t) && (forall u :: u in counts <==> u in t)
    && (forall u :: u in last ==> last[u] == LastPos(t, u))
    && (forall u :: u in counts ==> counts[u] == Visits(t, u))
  }

  lemma TalliedStep(t: seq<nat>, counts: map<nat, nat>, last: map<nat, nat>, u: nat)
    requires Tallied(t, counts, last)
    ensures Tallied(t + [u], counts[u := Visits(t, u) + 1], last[u := |t|])
  {
    hide LastPos, Visits;
    forall v | v in t + [u]
      ensures LastPos(t + [u], v) == (if v == u then |t| else LastPos(t, v))
      ensures Visits(t + [u], v) == Visits(t, v) + (if v == u then 1 else 0)
    {
      PosStep(t, u, v);
    }
  }

  lemma PosStep(t: seq<nat>, u: nat, v: nat)
    requires v in t + [u]
    ensures LastPos(t + [u], v) == (if v == u then |t| else LastPos(t, v))
    ensures Visits(t + [u], v) == Visits(t, v) + (if v == u then 1 else 0)
  {
    assert (t + [u])[..|t|] == t;
  }

  method SamplePopulation(users: seq<nat>) returns (rows: seq<Row>)
    ensures |rows| == |users|
    ensures forall i :: 0 <= i < |users| ==> rows[i] == RowOf(users[..i], users[i])
  {
    hide RowOf, Visits, LastPos, UsersSince;
    rows := [];
    var counts: map<nat, nat>, last: map<nat, nat> := map[], map[];
    var index := 0;
    while index < |users|
      invariant 0 <= index <= |users| && |rows| == index
      invariant forall i :: 0 <= i < index ==> rows[i] == RowOf(users[..i], users[i])
      invariant Tallied(users[..index], counts, last)
    {
      hide Tallied;
      var uid := users[index];
      ghost var t := users[..index];
      var row := RowFrom(t, counts, last, uid);
      rows := rows + [row];
      TalliedStep(t, counts, last, uid);
      CountOf(t, counts, last, uid);
      assert users[..index + 1] == t + [uid];
      counts := counts[uid := (if uid in counts then counts[uid] else 0) + 1];
      last := last[uid := index];
      index := index + 1;
    }
  }

  lemma CountOf(t: seq<nat>, counts: map<nat, nat>, last: map<nat, nat>, u: nat)
    requires Tallied(t, counts, last)
    ensures (if u in counts then counts[u] else 0) == Visits(t, u)
  {
    NoVisitsYet(t, u);
  }

  /** One row, from the last positions recorded so far. */
  method RowFrom(ghost t: seq<nat>, counts: map<nat, nat>, last: map<nat, nat>, uid: nat) returns (row: Row)
    requires Tallied(t, counts, last)
    ensures row == RowOf(t, uid)
  {
    NoVisitsYet(t, uid);
    var visits := if uid in counts then counts[uid] else 0;
    if uid in last {
      var previous := last[uid];
      var near := set v | v in last && last[v] > previous;
      SinceSet(t, last, previous);
      row := Row(uid, visits, Some(previous), Some(|near|));
    } else {
      row := Row(uid, visits, None, None);
    }
  }

  lemma NoVisitsYet(t: seq<nat>, u: nat)
    ensures u !in t ==> Visits(t, u) == 0
  {
    if u !in t { NoVisits(t, u); }
  }

  lemma SinceSet(t: seq<nat>, last: map<nat, nat>, previous: nat)
    requires forall u :: u in last <==> u in t
    requires forall u :: u in last ==> last[u] == LastPos(t, u)
    requires previous < |t|
    ensures (set v | v in last && last[v] > previous) == Ranking.Elements(t[previous + 1..])
  {
    forall v ensures v in last && last[v] > previous <==> v in Ranking.Elements(t[previous + 1..]) {
      if v in last && last[v] > previous {
        assert t[previous + 1..][last[v] - previous - 1] == v;
      }
      if v in Ranking.Elements(t[previous + 1..]) {
        var k :| 0 <= k < |t| - previous - 1 && t[previous + 1..][k] == v;
        assert t[previous + 1 + k] == v;
      }
    }
  }

  /** The sampled reuse distance predicts every hit of the pool that serves the trace. */
  lemma RowsPredictHits(lim: Limits, p: nat, reqOf: nat -> Request, users: seq<nat>, i: nat)
    requires EqualCharges(lim, p, reqOf) && i < |users|
    ensures var row := RowOf(users[..i], users[i]);
      LastAnswer(lim, reqOf, users[..i + 1]).Hit? <==> row.distance.Some? && row.distance.value < lim.pages / p
  {
    assert users[..i + 1] == users[..i] + [users[i]];
    HitIffNear(lim, p, reqOf, users[..i], users[i]);
  }
}
