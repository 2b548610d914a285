/** Arrival schedules drawn from weighted users. */
module Schedule {
  import opened TokenTypes
  import opened Fenwick

  datatype Arrival = Poisson | Constant | Timeslot

  datatype Sampling = Weighted | Uniform | Sequential

  datatype Config = Config(qps: nat, arrival: Arrival, sampling: Sampling, start: real, maxRevisits: Option<nat>) {
    predicate Valid() { qps >= 1 && start >= 0.0 && !(arrival.Timeslot? && sampling.Sequential?) }

    function MaxVisits(): Option<nat> { if maxRevisits.Some? then Some(maxRevisits.value + 1) else None }
  }

  datatype Visit = Visit(user: nat, slot: nat, time: real)

  /** A cooling user and the slot it becomes due. */
  datatype Due = Due(slot: nat, user: nat)

  // ----- traces

  function UserVisits(out: seq<Visit>, u: nat): nat {
    if out == [] then 0 else UserVisits(out[..|out| - 1], u) + (if out[|out| - 1].user == u then 1 else 0)
  }

  function SlotVisits(out: seq<Visit>, s: nat): nat {
    if out == [] then 0 else SlotVisits(out[..|out| - 1], s) + (if out[|out| - 1].slot == s then 1 else 0)
  }

  /** Every earlier visit of `u` lies at least a gap before slot `t`. */
  ghost predicate Rested(out: seq<Visit>, u: nat, gap: nat, t: nat) {
    forall a :: 0 <= a < |out| && out[a].user == u ==> out[a].slot + gap <= t
  }

  ghost predicate Spaced(out: seq<Visit>, gaps: seq<nat>) {
    forall a, b :: 0 <= a < b < |out| && out[a].user == out[b].user && out[a].user < |gaps| ==>
      out[a].slot + gaps[out[a].user] <= out[b].slot
  }

  ghost predicate Ordered(out: seq<Visit>) {
    forall a, b :: 0 <= a < b < |out| ==> out[a].time <= out[b].time && out[a].slot <= out[b].slot
  }

  lemma AppendVisit(out: seq<Visit>, v: Visit)
    ensures UserVisits(out + [v], v.user) == UserVisits(out, v.user) + 1
    ensures forall u :: u != v.user ==> UserVisits(out + [v], u) == UserVisits(out, u)
    ensures SlotVisits(out + [v], v.slot) == SlotVisits(out, v.slot) + 1
    ensures forall s :: s != v.slot ==> SlotVisits(out + [v], s) == SlotVisits(out, s)
  {
    assert (out + [v])[..|out|] == out;
  }

  lemma {:induction false} NoLaterSlots(out: seq<Visit>, s: nat)
    requires forall v <- out :: v.slot < s
    ensures SlotVisits(out, s) == 0
  {
    if out != [] {
      assert out[|out| - 1] in out;
      NoLaterSlots(out[..|out| - 1], s);
    }
  }

  // ----- the cooling queue

  predicate Precedes(a: Due, b: Due) { a.slot < b.slot || (a.slot == b.slot && a.user <= b.user) }

  ghost predicate Queue(q: seq<Due>) {
    && (forall i, j :: 0 <= i < j < |q| ==> Precedes(q[i], q[j]))
    && (forall i, j :: 0 <= i < j < |q| ==> q[i].user != q[j].user)
  }

  function Push(q: seq<Due>, d: Due): (r: seq<Due>)
    ensures |r| == |q| + 1
  {
    if q == [] || Precedes(d, q[0]) then [d] + q else [q[0]] + Push(q[1..], d)
  }

  lemma {:induction false} PushKeeps(q: seq<Due>, d: Due)
    requires Queue(q) && forall e <- q :: e.user != d.user
    ensures Queue(Push(q, d)) && forall e :: e in Push(q, d) <==> e in q || e == d
  {
    if q == [] || Precedes(d, q[0]) {
    } else {
      var tail := q[1..];
      assert forall e :: e in q <==> e == q[0] || e in tail;
      PushKeeps(tail, d);
      var r := Push(tail, d);
      forall i | 0 <= i < |r| ensures Precedes(q[0], r[i]) && q[0].user != r[i].user {
        assert r[i] in r;
        if r[i] in tail {
          var k :| 0 <= k < |tail| && tail[k] == r[i];
          assert q[k + 1] == r[i];
        }
      }
    }
  }

  // ----- active users

  function Positive(v: seq<real>): nat {
    if v == [] then 0 else Positive(v[..|v| - 1]) + (if v[|v| - 1] > 0.0 then 1 else 0)
  }

  lemma {:induction false} PositiveUpdate(v: seq<real>, p: nat, x: real)
    requires p < |v|
    ensures Positive(v[p := x]) == Positive(v) - (if v[p] > 0.0 then 1 else 0) + (if x > 0.0 then 1 else 0)
  {
    var w := v[p := x];
    if p < |v| - 1 {
      assert w[..|v| - 1] == v[..|v| - 1][p := x];
      PositiveUpdate(v[..|v| - 1], p, x);
    } else {
      assert w[..|v| - 1] == v[..|v| - 1];
    }
  }

  lemma {:induction false} PositiveAll(v: seq<real>)
    requires forall i :: 0 <= i < |v| ==> v[i] > 0.0
    ensures Positive(v) == |v|
  {
    if v != [] {
      PositiveAll(v[..|v| - 1]);
    }
  }

  /** Somebody active makes the total weight positive; nobody active means every weight is zero. */
  lemma {:induction false} PositiveSum(v: seq<real>, hi: nat)
    requires hi <= |v| && forall x <- v :: x >= 0.0
    ensures Positive(v[..hi]) > 0 <==> Sum(v, 0, hi) > 0.0
    ensures Positive(v[..hi]) == 0 ==> forall i :: 0 <= i < hi ==> v[i] == 0.0
    decreases hi
  {
    if hi > 0 {
      PositiveSum(v, hi - 1);
      assert v[..hi][..hi - 1] == v[..hi - 1];
      assert v[hi - 1] in v;
      SumNonnegative(v, 0, hi - 1);
    }
  }

  function Unfinished(visits: seq<nat>, max: nat): nat {
    if visits == [] then 0 else Unfinished(visits[..|visits| - 1], max) + (if visits[|visits| - 1] < max then 1 else 0)
  }

  lemma {:induction false} UnfinishedUpdate(visits: seq<nat>, max: nat, p: nat, x: nat)
    requires p < |visits|
    ensures Unfinished(visits[p := x], max) ==
      Unfinished(visits, max) - (if visits[p] < max then 1 else 0) + (if x < max then 1 else 0)
  {
    var w := visits[p := x];
    var n := |visits| - 1;
    if p < n {
      assert w[..n] == visits[..n][p := x];
      UnfinishedUpdate(visits[..n], max, p, x);
    } else {
      assert w[..n] == visits[..n];
    }
  }

  lemma {:induction false} NoneUnfinished(visits: seq<nat>, max: nat)
    ensures Unfinished(visits, max) == 0 <==> forall i :: 0 <= i < |visits| ==> visits[i] >= max
    ensures (forall i :: 0 <= i < |visits| ==> visits[i] < max) ==> Unfinished(visits, max) == |visits|
  {
    if visits != [] {
      NoneUnfinished(visits[..|visits| - 1], max);
    }
  }

  // ----- the generator's state

  datatype Setup = Setup(cfg: Config, weights: seq<real>, gaps: seq<nat>) {
    ghost predicate Valid() {
      cfg.Valid() && |weights| == |gaps| > 0 && forall w <- weights :: w > 0.0
    }

    function Users(): nat { |weights| }
  }

  datatype State = State(
    values: seq<real>, cooling: seq<Due>, active: int, remaining: int, visits: seq<nat>, slot: nat, used: nat,
    time: real, out: seq<Visit>)

  predicate Retired(x: Setup, s: State, u: nat)
    requires u < |s.visits|
  {
    x.cfg.MaxVisits().Some? && s.visits[u] >= x.cfg.MaxVisits().value
  }

  predicate Cooling(s: State, u: nat) { exists i :: 0 <= i < |s.cooling| && s.cooling[i].user == u }

  ghost predicate Shaped(x: Setup, s: State) {
    x.Valid() && |s.values| == |s.visits| == x.Users()
  }

  /** Visit counts are what the trace says, never above the maximum, and `remaining` counts the users below it. */
  ghost predicate Tallied(x: Setup, s: State)
    requires Shaped(x, s)
  {
    match x.cfg.MaxVisits()
    case None => s.remaining == x.Users()
    case Some(max) =>
      && (forall u :: 0 <= u < x.Users() ==> s.visits[u] == UserVisits(s.out, u) <= max)
      && s.remaining == Unfinished(s.visits, max)
  }

  /** Each user is active at full weight, cooling, or retired; never two of these. */
  ghost predicate Classified(x: Setup, s: State)
    requires Shaped(x, s)
  {
    && (forall u :: 0 <= u < x.Users() ==>
          if s.values[u] == 0.0 then Cooling(s, u) != Retired(x, s, u)
          else s.values[u] == x.weights[u] && !Cooling(s, u) && !Retired(x, s, u) && Rested(s.out, u, x.gaps[u], s.slot))
    && Queue(s.cooling)
    && (forall d <- s.cooling :: d.user < x.Users() && Rested(s.out, d.user, x.gaps[d.user], d.slot))
  }

  ghost predicate Counted(s: State) {
    s.active == Positive(s.values) && s.remaining == s.active + |s.cooling|
  }

  /** What the trace of a slotted run satisfies so far. */
  ghost predicate Slotted(x: Setup, s: State)
    requires x.Valid()
  {
    && Spaced(s.out, x.gaps) && Ordered(s.out)
    && (forall v <- s.out :: v.user < x.Users() && v.slot <= s.slot && v.time == x.cfg.start + v.slot as real)
    && (forall t :: SlotVisits(s.out, t) <= x.cfg.qps)
    && s.used == SlotVisits(s.out, s.slot)
  }

  ghost predicate SlotInv(x: Setup, s: State) {
    Shaped(x, s) && Tallied(x, s) && Classified(x, s) && Counted(s) && Slotted(x, s)
  }

  // ----- steps of a slotted run

  /** The most overdue cooling user becomes active again. */
  function Wake(x: Setup, s: State): State
    requires s.cooling != [] && s.cooling[0].user < |s.values| && s.cooling[0].user < |x.weights|
  {
    var u := s.cooling[0].user;
    s.(values := s.values[u := x.weights[u]], cooling := s.cooling[1..], active := s.active + 1)
  }

  function MoveTo(s: State, slot: nat): State { s.(slot := slot, used := 0) }

  function Recorded(x: Setup, s: State, u: nat, v: Visit): State
    requires u < |s.visits|
  {
    match x.cfg.MaxVisits()
    case None => s.(out := s.out + [v])
    case Some(max) =>
      var visits := s.visits[u := s.visits[u] + 1];
      s.(visits := visits, remaining := if visits[u] == max then s.remaining - 1 else s.remaining, out := s.out + [v])
  }

  function More(x: Setup, s: State, u: nat): bool
    requires u < |s.visits|
  {
    x.cfg.MaxVisits().None? || s.visits[u] + 1 < x.cfg.MaxVisits().value
  }

  /** The drawn user leaves the active set, and starts cooling unless this is the last visit. */
  function Drawn(x: Setup, s: State, u: nat): State
    requires u < |s.visits| == |s.values| == |x.gaps|
  {
    var cooling := if More(x, s, u) then Push(s.cooling, Due(s.slot + x.gaps[u], u)) else s.cooling;
    s.(values := s.values[u := 0.0], active := s.active - 1, cooling := cooling, used := s.used + 1,
       time := x.cfg.start + s.slot as real)
  }

  function SlotVisit(x: Setup, s: State, u: nat): State
    requires u < |s.visits| == |s.values| == |x.gaps|
  {
    Recorded(x, Drawn(x, s, u), u, Visit(u, s.slot, x.cfg.start + s.slot as real))
  }

  lemma WakeKeeps(x: Setup, s: State)
    requires SlotInv(x, s) && s.cooling != [] && s.cooling[0].slot <= s.slot
    ensures s.cooling[0].user < x.Users() && SlotInv(x, Wake(x, s))
  {
    var d := s.cooling[0];
    assert d in s.cooling;
    var r := Wake(x, s);
    WakeClassified(x, s);
    assert s.values[d.user] == 0.0;
    assert x.weights[d.user] in x.weights;
    PositiveUpdate(s.values, d.user, x.weights[d.user]);
  }

  lemma WakeCooling(x: Setup, s: State, u: nat)
    requires s.cooling != [] && Queue(s.cooling) && s.cooling[0].user < |s.values| && s.cooling[0].user < |x.weights|
    ensures Cooling(Wake(x, s), u) <==> Cooling(s, u) && u != s.cooling[0].user
  {
    var r := Wake(x, s);
    if Cooling(s, u) && u != s.cooling[0].user {
      var i :| 0 <= i < |s.cooling| && s.cooling[i].user == u;
      assert r.cooling[i - 1].user == u;
    }
    if Cooling(r, u) {
      var i :| 0 <= i < |r.cooling| && r.cooling[i].user == u;
      assert s.cooling[i + 1].user == u;
    }
  }

  lemma WakeClassified(x: Setup, s: State)
    requires Shaped(x, s) && Classified(x, s) && s.cooling != [] && s.cooling[0].slot <= s.slot
    ensures s.cooling[0].user < x.Users() && s.values[s.cooling[0].user] == 0.0 && Classified(x, Wake(x, s))
  {
    hide Retired;
    var d := s.cooling[0];
    assert d in s.cooling && Cooling(s, d.user);
    var r := Wake(x, s);
    assert x.weights[d.user] in x.weights;
    assert Queue(r.cooling) && forall e <- r.cooling :: e in s.cooling;
    forall u | 0 <= u < x.Users()
      ensures Retired(x, r, u) == Retired(x, s, u)
      ensures if r.values[u] == 0.0 then Cooling(r, u) != Retired(x, r, u)
              else r.values[u] == x.weights[u] && !Cooling(r, u) && !Retired(x, r, u) && Rested(r.out, u, x.gaps[u], r.slot)
    {
      SameRetired(x, s, r, u);
      hide Cooling;
      WakeCooling(x, s, u);
    }
  }

  lemma SameRetired(x: Setup, s: State, r: State, u: nat)
    requires u < |s.visits| && s.visits == r.visits
    ensures Retired(x, r, u) == Retired(x, s, u)
  {
  }

  lemma MoveKeeps(x: Setup, s: State, slot: nat)
    requires SlotInv(x, s) && slot > s.slot
    ensures SlotInv(x, MoveTo(s, slot))
  {
    var r := MoveTo(s, slot);
    NoLaterSlots(s.out, slot);
    assert forall u :: Cooling(r, u) == Cooling(s, u);
    assert forall u | 0 <= u < x.Users() :: Retired(x, r, u) == Retired(x, s, u);
  }

  /** Recording a visit of a user below the maximum keeps the tallies. */
  lemma RecordKeeps(x: Setup, s: State, u: nat, v: Visit)
    requires Shaped(x, s) && Tallied(x, s) && u < x.Users() && !Retired(x, s, u) && v.user == u
    ensures Shaped(x, Recorded(x, s, u, v)) && Tallied(x, Recorded(x, s, u, v))
    ensures var r := Recorded(x, s, u, v); r.remaining == s.remaining - (if Retired(x, r, u) then 1 else 0)
  {
    AppendVisit(s.out, v);
    if x.cfg.MaxVisits().Some? {
      UnfinishedUpdate(s.visits, x.cfg.MaxVisits().value, u, s.visits[u] + 1);
    }
  }

  /** Drawing an active user keeps every slotted invariant. */
  lemma SlotVisitKeeps(x: Setup, s: State, u: nat)
    requires SlotInv(x, s) && u < x.Users() && s.values[u] > 0.0 && s.used < x.cfg.qps
    ensures SlotInv(x, SlotVisit(x, s, u))
  {
    hide Slotted, Classified, Counted;
    ActiveFacts(x, s, u);
    var v := Visit(u, s.slot, x.cfg.start + s.slot as real);
    RecordKeeps(x, s, u, v);
    var r := SlotVisit(x, s, u);
    assert r.visits == Recorded(x, s, u, v).visits && r.remaining == Recorded(x, s, u, v).remaining;
    VisitClassified(x, s, u);
    VisitSlotted(x, s, u);
    VisitCounted(x, s, u);
  }

  lemma ActiveFacts(x: Setup, s: State, u: nat)
    requires Shaped(x, s) && Classified(x, s) && u < x.Users() && s.values[u] > 0.0
    ensures !Retired(x, s, u) && !Cooling(s, u) && Rested(s.out, u, x.gaps[u], s.slot)
  {
  }

  lemma VisitCounted(x: Setup, s: State, u: nat)
    requires Shaped(x, s) && Counted(s) && u < x.Users() && s.values[u] > 0.0 && !Retired(x, s, u)
    ensures Counted(SlotVisit(x, s, u))
  {
    PositiveUpdate(s.values, u, 0.0);
  }

  lemma SpacedAppend(out: seq<Visit>, gaps: seq<nat>, v: Visit)
    requires Spaced(out, gaps) && v.user < |gaps| && Rested(out, v.user, gaps[v.user], v.slot)
    ensures Spaced(out + [v], gaps)
  {
    var r := out + [v];
    forall a, b | 0 <= a < b < |r| && r[a].user == r[b].user && r[a].user < |gaps|
      ensures r[a].slot + gaps[r[a].user] <= r[b].slot
    {
      assert r[a] == out[a];
      if b < |out| { assert r[b] == out[b]; }
    }
  }

  lemma OrderedAppend(out: seq<Visit>, v: Visit)
    requires Ordered(out) && forall w <- out :: w.time <= v.time && w.slot <= v.slot
    ensures Ordered(out + [v])
  {
    var r := out + [v];
    forall a, b | 0 <= a < b < |r| ensures r[a].time <= r[b].time && r[a].slot <= r[b].slot {
      assert r[a] == out[a] && r[a] in out;
      if b < |out| { assert r[b] == out[b]; }
    }
  }

  lemma VisitSlotted(x: Setup, s: State, u: nat)
    requires Shaped(x, s) && Slotted(x, s) && u < x.Users() && s.used < x.cfg.qps
    requires Rested(s.out, u, x.gaps[u], s.slot)
    ensures Slotted(x, SlotVisit(x, s, u))
  {
    hide Spaced, Ordered, SlotVisits, Rested, UserVisits, Push;
    var r := SlotVisit(x, s, u);
    var v := Visit(u, s.slot, x.cfg.start + s.slot as real);
    assert r.out == s.out + [v];
    AppendVisit(s.out, v);
    SpacedAppend(s.out, x.gaps, v);
    OrderedAppend(s.out, v);
  }

  lemma RestedAppend(out: seq<Visit>, v: Visit, u: nat, gap: nat, t: nat)
    requires Rested(out, u, gap, t) && (v.user == u ==> v.slot + gap <= t)
    ensures Rested(out + [v], u, gap, t)
  {
  }

  lemma RestedLater(out: seq<Visit>, u: nat, gap: nat, t: nat, later: nat)
    requires Rested(out, u, gap, t) && t <= later
    ensures Rested(out, u, gap, later)
  {
  }

  lemma VisitClassified(x: Setup, s: State, u: nat)
    requires Shaped(x, s) && Classified(x, s) && u < x.Users()
    requires !Retired(x, s, u) && !Cooling(s, u) && Rested(s.out, u, x.gaps[u], s.slot)
    ensures Classified(x, SlotVisit(x, s, u))
  {
    hide Rested, Retired, Push, Cooling;
    var r := SlotVisit(x, s, u);
    var v := Visit(u, s.slot, x.cfg.start + s.slot as real);
    assert r.out == s.out + [v];
    VisitQueue(x, s, u);
    forall w | 0 <= w < x.Users()
      ensures if r.values[w] == 0.0 then Cooling(r, w) != Retired(x, r, w)
              else r.values[w] == x.weights[w] && !Cooling(r, w) && !Retired(x, r, w) && Rested(r.out, w, x.gaps[w], r.slot)
    {
      PushCooling(x, s, u, w);
      VisitRetired(x, s, u, w);
      if w != u && s.values[w] != 0.0 { RestedAppend(s.out, v, w, x.gaps[w], s.slot); }
    }
  }

  lemma VisitRetired(x: Setup, s: State, u: nat, w: nat)
    requires Shaped(x, s) && u < x.Users() && w < x.Users() && !Retired(x, s, u)
    ensures Retired(x, SlotVisit(x, s, u), w) == (if w == u then !More(x, s, u) else Retired(x, s, w))
  {
  }

  lemma VisitQueue(x: Setup, s: State, u: nat)
    requires Shaped(x, s) && Classified(x, s) && u < x.Users()
    requires !Cooling(s, u) && Rested(s.out, u, x.gaps[u], s.slot)
    ensures var r := SlotVisit(x, s, u);
      Queue(r.cooling) && forall d <- r.cooling :: d.user < x.Users() && Rested(r.out, d.user, x.gaps[d.user], d.slot)
  {
    hide Retired, Rested, Push;
    var r := SlotVisit(x, s, u);
    var v := Visit(u, s.slot, x.cfg.start + s.slot as real);
    var d := Due(s.slot + x.gaps[u], u);
    assert r.out == s.out + [v];
    assert forall e <- s.cooling :: e.user != u;
    if More(x, s, u) { PushKeeps(s.cooling, d); }
    forall e | e in r.cooling ensures e.user < x.Users() && Rested(r.out, e.user, x.gaps[e.user], e.slot) {
      if e in s.cooling {
        RestedAppend(s.out, v, e.user, x.gaps[e.user], e.slot);
      } else {
        RestedLater(s.out, u, x.gaps[u], s.slot, d.slot);
        RestedAppend(s.out, v, u, x.gaps[u], d.slot);
      }
    }
  }

  lemma PushCooling(x: Setup, s: State, u: nat, w: nat)
    requires Shaped(x, s) && Queue(s.cooling) && u < x.Users() && !Cooling(s, u)
    ensures Cooling(SlotVisit(x, s, u), w) == (Cooling(s, w) || (w == u && More(x, s, u)))
  {
    var r := SlotVisit(x, s, u);
    var d := Due(s.slot + x.gaps[u], u);
    if More(x, s, u) {
      PushKeeps(s.cooling, d);
      assert d in r.cooling;
      var k :| 0 <= k < |r.cooling| && r.cooling[k] == d;
      if Cooling(s, w) {
        var i :| 0 <= i < |s.cooling| && s.cooling[i].user == w;
        assert s.cooling[i] in r.cooling;
        var j :| 0 <= j < |r.cooling| && r.cooling[j] == s.cooling[i];
      }
      if Cooling(r, w) {
        var i :| 0 <= i < |r.cooling| && r.cooling[i].user == w;
        assert r.cooling[i] in r.cooling;
        assert r.cooling[i] in s.cooling || r.cooling[i] == d;
      }
    }
  }

  // ----- steps of an unslotted run

  /** Users below the maximum keep their weight; each earlier visit is no later than the clock. */
  ghost predicate StreamInv(x: Setup, s: State) {
    && Shaped(x, s) && Tallied(x, s) && s.cooling == [] && s.slot == 0
    && (forall u :: 0 <= u < x.Users() ==> s.values[u] == if Retired(x, s, u) then 0.0 else x.weights[u])
    && Ordered(s.out) && (forall v <- s.out :: v.user < x.Users() && v.slot == 0 && v.time <= s.time)
  }

  function StreamVisit(x: Setup, s: State, u: nat, time: real): State
    requires u < |s.visits| == |s.values|
  {
    var r := Recorded(x, s.(time := time), u, Visit(u, 0, time));
    if x.cfg.MaxVisits().Some? && r.visits[u] == x.cfg.MaxVisits().value then r.(values := r.values[u := 0.0]) else r
  }

  lemma StreamVisitKeeps(x: Setup, s: State, u: nat, time: real)
    requires StreamInv(x, s) && u < x.Users() && !Retired(x, s, u) && time >= s.time
    ensures StreamInv(x, StreamVisit(x, s, u, time))
  {
    var v := Visit(u, 0, time);
    RecordKeeps(x, s, u, v);
    var r := StreamVisit(x, s, u, time);
    assert r.out == s.out + [v];
    OrderedAppend(s.out, v);
    StreamTallies(x, s, u, time);
  }

  lemma StreamTallies(x: Setup, s: State, u: nat, time: real)
    requires StreamInv(x, s) && u < x.Users() && !Retired(x, s, u)
    ensures var r := StreamVisit(x, s, u, time); Shaped(x, r) && Tallied(x, r)
    ensures var r := StreamVisit(x, s, u, time);
      forall w :: 0 <= w < x.Users() ==> r.values[w] == if Retired(x, r, w) then 0.0 else x.weights[w]
  {
    var v := Visit(u, 0, time);
    RecordKeeps(x, s.(time := time), u, v);
    var q := Recorded(x, s.(time := time), u, v);
    var r := StreamVisit(x, s, u, time);
    assert r.visits == q.visits && r.remaining == q.remaining && r.out == q.out;
  }

  /** While someone is unfinished the total weight is positive, and a drawn user with weight is unfinished. */
  lemma StreamDrawable(x: Setup, s: State)
    requires StreamInv(x, s) && s.remaining > 0
    ensures (forall w <- s.values :: w >= 0.0) && Sum(s.values, 0, |s.values|) > 0.0
    ensures forall u :: 0 <= u < x.Users() && s.values[u] > 0.0 ==> !Retired(x, s, u)
  {
    var n := |s.values|;
    assert forall u :: 0 <= u < x.Users() ==> x.weights[u] in x.weights;
    PositiveSum(s.values, n);
    assert s.values[..n] == s.values;
    var u := 0;
    if x.cfg.MaxVisits().Some? {
      NoneUnfinished(s.visits, x.cfg.MaxVisits().value);
      u :| 0 <= u < x.Users() && s.visits[u] < x.cfg.MaxVisits().value;
    }
    assert !Retired(x, s, u) && s.values[u] > 0.0;
  }

  lemma SlotDrawable(x: Setup, s: State)
    requires SlotInv(x, s) && s.active > 0
    ensures (forall w <- s.values :: w >= 0.0) && Sum(s.values, 0, |s.values|) > 0.0
  {
    var n := |s.values|;
    assert forall u :: 0 <= u < x.Users() ==> x.weights[u] in x.weights;
    PositiveSum(s.values, n);
    assert s.values[..n] == s.values;
  }

  /** In sequential order, users before the cursor are one visit ahead of the rest. */
  predicate RoundRobin(x: Setup, s: State, round: nat, cursor: nat) {
    |s.visits| == x.Users() && (x.cfg.MaxVisits().Some? ==>
      forall u :: 0 <= u < x.Users() ==> s.visits[u] == if u < cursor then round + 1 else round)
  }

  lemma TurnIsOpen(x: Setup, s: State, round: nat, cursor: nat)
    requires StreamInv(x, s) && s.remaining > 0 && RoundRobin(x, s, round, cursor) && cursor < x.Users()
    ensures !Retired(x, s, cursor)
  {
    if x.cfg.MaxVisits().Some? {
      NoneUnfinished(s.visits, x.cfg.MaxVisits().value);
    }
  }

  // ----- what a finished schedule satisfies

  /** Everybody has made as many visits as allowed. */
  ghost predicate Exhausted(x: Setup, out: seq<Visit>) {
    x.cfg.MaxVisits().Some? && forall u :: 0 <= u < x.Users() ==> UserVisits(out, u) == x.cfg.MaxVisits().value
  }

  ghost predicate Faithful(x: Setup, count: nat, out: seq<Visit>) {
    && |out| <= count && Ordered(out) && (forall v <- out :: v.user < x.Users())
    && (x.cfg.MaxVisits().Some? ==> forall u :: 0 <= u < x.Users() ==> UserVisits(out, u) <= x.cfg.MaxVisits().value)
    && (|out| < count ==> Exhausted(x, out))
    && (x.cfg.arrival.Timeslot? ==>
          && Spaced(out, x.gaps) && (forall t :: SlotVisits(out, t) <= x.cfg.qps)
          && forall v <- out :: v.time == x.cfg.start + v.slot as real)
  }

  lemma NobodyLeft(x: Setup, s: State)
    requires Shaped(x, s) && Tallied(x, s) && s.remaining == 0
    ensures Exhausted(x, s.out)
  {
    if x.cfg.MaxVisits().Some? {
      NoneUnfinished(s.visits, x.cfg.MaxVisits().value);
    }
  }

  lemma StartKeeps(x: Setup)
    requires x.Valid()
    ensures var s := Start(x); SlotInv(x, s) && StreamInv(x, s) && RoundRobin(x, s, 0, 0)
  {
    var s := Start(x);
    assert forall u :: 0 <= u < x.Users() ==> x.weights[u] in x.weights;
    PositiveAll(x.weights);
    if x.cfg.MaxVisits().Some? {
      NoneUnfinished(s.visits, x.cfg.MaxVisits().value);
    }
    assert forall t :: SlotVisits(s.out, t) == 0;
  }

  function Start(x: Setup): State {
    State(x.weights, [], |x.weights|, |x.weights|, seq(|x.weights|, _ => 0), 0, 0, x.cfg.start, [])
  }

  // ----- what the draws decide

  /** The sampling weight of a user: its frequency, or one for everybody. */
  function Weight(x: Setup, u: nat): real
    requires u < |x.weights|
  {
    if x.cfg.sampling.Weighted? then x.weights[u] else 1.0
  }

  /** After the trace `out`, user `u` may be visited in slot `t`: visits are left and, in a slotted run, its gap has passed. */
  ghost predicate Open(x: Setup, out: seq<Visit>, u: nat, t: nat)
    requires u < |x.gaps|
  {
    && (x.cfg.maxRevisits.Some? ==> UserVisits(out, u) <= x.cfg.maxRevisits.value)
    && (x.cfg.arrival.Timeslot? ==> Rested(out, u, x.gaps[u], t))
  }

  /** The weights among which the next visit is drawn. */
  ghost function Drawable(x: Setup, out: seq<Visit>, t: nat): (w: seq<real>)
    requires |x.gaps| == |x.weights|
    ensures |w| == |x.weights|
  {
    seq(|x.weights|, u requires 0 <= u < |x.weights| => if Open(x, out, u, t) then Weight(x, u) else 0.0)
  }

  /** The uniform draw `d`, scaled to the total weight, falls into the interval of user `u`. */
  ghost predicate Drew(w: seq<real>, u: nat, d: real) {
    u < |w| && Sum(w, 0, u) <= d * Sum(w, 0, |w|) < Sum(w, 0, u + 1)
  }

  /** Each visit goes to the user whose interval of the cumulative weights, among those open then, contains the scaled draw. */
  ghost predicate Follows(x: Setup, out: seq<Visit>, draws: nat -> real)
    requires |x.gaps| == |x.weights|
  {
    !x.cfg.sampling.Sequential? ==> forall i :: 0 <= i < |out| ==> Drew(Drawable(x, out[..i], out[i].slot), out[i].user, draws(i))
  }

  /** No visit could have come in slot `t`: its quota is used up, or nobody is open. */
  ghost predicate Shut(x: Setup, out: seq<Visit>, t: nat)
    requires |x.gaps| == |x.weights|
  {
    SlotVisits(out, t) == x.cfg.qps || forall u :: 0 <= u < |x.weights| ==> !Open(x, out, u, t)
  }

  function LastSlot(out: seq<Visit>): nat { if out == [] then 0 else out[|out| - 1].slot }

  /** Each visit of a slotted run comes in the first slot, from the one before on, that is not shut. */
  ghost predicate Prompt(x: Setup, out: seq<Visit>)
    requires |x.gaps| == |x.weights|
  {
    x.cfg.arrival.Timeslot? ==> forall i, t: nat :: 0 <= i < |out| && LastSlot(out[..i]) <= t < out[i].slot ==> Shut(x, out[..i], t)
  }

  /** The sum of the first `n` ticks. */
  function Ticked(ticks: nat -> real, n: nat): real {
    if n == 0 then 0.0 else Ticked(ticks, n - 1) + ticks(n - 1)
  }

  ghost predicate OnTicks(x: Setup, out: seq<Visit>, ticks: nat -> real) {
    x.cfg.arrival.Poisson? ==> forall i :: 0 <= i < |out| ==> out[i].time == x.cfg.start + Ticked(ticks, i + 1)
  }

  /** The setup as it is sampled: without frequencies everybody weighs one. */
  function Sampled(x: Setup): Setup
  {
    x.(weights := seq(|x.weights|, u requires 0 <= u < |x.weights| => Weight(x, u)))
  }

  ghost predicate Plain(x: Setup) {
    !x.cfg.sampling.Weighted? ==> forall u :: 0 <= u < |x.weights| ==> x.weights[u] == 1.0
  }

  /** A schedule of the sampled setup is one of the setup. */
  lemma SampledSame(x: Setup, out: seq<Visit>, draws: nat -> real)
    requires x.Valid()
    ensures Sampled(x).Valid() && Plain(Sampled(x))
    ensures Follows(Sampled(x), out, draws) ==> Follows(x, out, draws)
    ensures Prompt(Sampled(x), out) ==> Prompt(x, out)
  {
    var y := Sampled(x);
    forall w | w in y.weights ensures w > 0.0 {
      var u :| 0 <= u < |y.weights| && y.weights[u] == w;
      assert x.weights[u] in x.weights;
    }
    assert forall u: nat :: u < |x.weights| ==> Weight(y, u) == Weight(x, u);
    assert forall o: seq<Visit>, u: nat, t: nat :: u < |x.gaps| ==> Open(y, o, u, t) == Open(x, o, u, t);
    forall o: seq<Visit>, t: nat ensures Drawable(y, o, t) == Drawable(x, o, t) && Shut(y, o, t) == Shut(x, o, t) {
      assert forall u :: 0 <= u < |x.weights| ==> Drawable(y, o, t)[u] == Drawable(x, o, t)[u];
    }
  }

  // ----- cooling users come back as soon as their gap has passed

  /** A cooling user is due exactly one gap after a visit. */
  ghost predicate DueExactly(x: Setup, s: State) {
    forall d <- s.cooling :: d.user < |x.gaps| && exists a :: 0 <= a < |s.out| && s.out[a].user == d.user && s.out[a].slot + x.gaps[d.user] == d.slot
  }

  /** Every slot passed since the last visit was shut. */
  ghost predicate Waited(x: Setup, s: State)
    requires |x.gaps| == |x.weights|
  {
    LastSlot(s.out) <= s.slot && forall t: nat :: LastSlot(s.out) <= t < s.slot ==> Shut(x, s.out, t)
  }

  ghost predicate Timely(x: Setup, s: State)
    requires |x.gaps| == |x.weights|
  {
    DueExactly(x, s) && Waited(x, s)
  }

  lemma CoolingClosed(x: Setup, s: State, d: Due, t: nat)
    requires x.cfg.arrival.Timeslot? && d in s.cooling && DueExactly(x, s) && t < d.slot
    ensures d.user < |x.gaps| && !Open(x, s.out, d.user, t)
  {
    var a :| 0 <= a < |s.out| && s.out[a].user == d.user && s.out[a].slot + x.gaps[d.user] == d.slot;
    assert !Rested(s.out, d.user, x.gaps[d.user], t);
  }

  /** Before the first due slot, the users with weight are exactly the open ones. */
  lemma ActiveIsOpen(x: Setup, s: State, t: nat, u: nat)
    requires SlotInv(x, s) && DueExactly(x, s) && x.cfg.arrival.Timeslot? && u < x.Users()
    requires s.slot <= t && (s.cooling == [] || t < s.cooling[0].slot)
    ensures s.values[u] != 0.0 <==> Open(x, s.out, u, t)
  {
    hide Counted, Slotted, DueExactly;
    RetiredIsVisited(x, s, u);
    if s.values[u] == 0.0 {
      if Cooling(s, u) {
        var i :| 0 <= i < |s.cooling| && s.cooling[i].user == u;
        assert s.cooling[i] in s.cooling && s.cooling[0].slot <= s.cooling[i].slot;
        CoolingClosed(x, s, s.cooling[i], t);
      }
    } else {
      RestedLater(s.out, u, x.gaps[u], s.slot, t);
    }
  }

  lemma RetiredIsVisited(x: Setup, s: State, u: nat)
    requires Shaped(x, s) && Tallied(x, s) && u < x.Users()
    ensures Retired(x, s, u) <==> x.cfg.maxRevisits.Some? && UserVisits(s.out, u) > x.cfg.maxRevisits.value
  {
  }

  /** With nobody due left cooling, the sampler's weights are those of the open users. */
  lemma SlotWeights(x: Setup, s: State)
    requires SlotInv(x, s) && DueExactly(x, s) && Plain(x) && x.cfg.arrival.Timeslot?
    requires s.cooling == [] || s.slot < s.cooling[0].slot
    ensures s.values == Drawable(x, s.out, s.slot)
  {
    hide DueExactly, Open;
    forall u | 0 <= u < x.Users() ensures s.values[u] == Drawable(x, s.out, s.slot)[u] {
      ActiveIsOpen(x, s, s.slot, u);
    }
  }

  /** With nobody active, every slot before the next due one is shut. */
  lemma JumpWaits(x: Setup, s: State)
    requires SlotInv(x, s) && Timely(x, s) && x.cfg.arrival.Timeslot? && s.active <= 0 && s.cooling != [] && s.slot < s.cooling[0].slot
    ensures Timely(x, MoveTo(s, s.cooling[0].slot))
  {
    hide DueExactly, Open;
    var r := MoveTo(s, s.cooling[0].slot);
    NobodyActive(x, s);
    forall t: nat | s.slot <= t < r.slot ensures Shut(x, s.out, t) {
      forall u | 0 <= u < x.Users() ensures !Open(x, s.out, u, t) { ActiveIsOpen(x, s, t, u); }
    }
    assert DueExactly(x, r) by { DueSame(x, s, r); }
  }

  lemma DueSame(x: Setup, s: State, r: State)
    requires DueExactly(x, s) && r.out == s.out && forall d <- r.cooling :: d in s.cooling
    ensures DueExactly(x, r)
  {
  }

  lemma NobodyActive(x: Setup, s: State)
    requires SlotInv(x, s) && s.active <= 0
    ensures forall u :: 0 <= u < x.Users() ==> s.values[u] == 0.0
  {
    var n := |s.values|;
    assert forall u :: 0 <= u < x.Users() ==> x.weights[u] in x.weights;
    PositiveSum(s.values, n);
    assert s.values[..n] == s.values;
  }

  /** With its quota used up the slot is shut. */
  lemma FullWaits(x: Setup, s: State)
    requires SlotInv(x, s) && Timely(x, s) && s.used == x.cfg.qps
    ensures Timely(x, MoveTo(s, s.slot + 1))
  {
    assert Shut(x, s.out, s.slot);
    DueSame(x, s, MoveTo(s, s.slot + 1));
    hide DueExactly, Shut;
  }

  lemma WakeWaits(x: Setup, s: State)
    requires Shaped(x, s) && Timely(x, s) && s.cooling != [] && s.cooling[0].user < x.Users()
    ensures Timely(x, Wake(x, s))
  {
    DueSame(x, s, Wake(x, s));
    hide DueExactly, Shut;
  }

  /** A visit starts the wait for the next one afresh. */
  lemma VisitWaits(x: Setup, s: State, u: nat)
    requires Shaped(x, s) && Classified(x, s) && Timely(x, s) && u < x.Users() && s.values[u] > 0.0
    ensures Timely(x, SlotVisit(x, s, u)) && SlotVisit(x, s, u).out == s.out + [Visit(u, s.slot, x.cfg.start + s.slot as real)]
  {
    var r := SlotVisit(x, s, u);
    ActiveFacts(x, s, u);
    VisitDue(x, s, u);
    hide DueExactly, Shut, Classified, Push;
    assert r.out == s.out + [Visit(u, s.slot, x.cfg.start + s.slot as real)] && r.slot == s.slot;
    assert r.out[|r.out| - 1].slot == s.slot;
  }

  lemma VisitDue(x: Setup, s: State, u: nat)
    requires Shaped(x, s) && Queue(s.cooling) && DueExactly(x, s) && u < x.Users() && !Cooling(s, u)
    ensures DueExactly(x, SlotVisit(x, s, u))
  {
    hide Push, Queue, DueExactly;
    var r := SlotVisit(x, s, u);
    var v, d := Visit(u, s.slot, x.cfg.start + s.slot as real), Due(s.slot + x.gaps[u], u);
    assert r.out == s.out + [v];
    VisitQueued(x, s, u);
    hide SlotVisit, Cooling;
    DueMore(x, s, r, v, d);
  }

  lemma VisitQueued(x: Setup, s: State, u: nat)
    requires Shaped(x, s) && Queue(s.cooling) && u < x.Users() && !Cooling(s, u)
    ensures forall e :: e in SlotVisit(x, s, u).cooling ==> e in s.cooling || e == Due(s.slot + x.gaps[u], u)
  {
    assert forall e <- s.cooling :: e.user != u;
    if More(x, s, u) { PushKeeps(s.cooling, Due(s.slot + x.gaps[u], u)); }
    hide Queue, Push;
  }

  lemma DueMore(x: Setup, s: State, r: State, v: Visit, d: Due)
    requires DueExactly(x, s) && r.out == s.out + [v] && (forall e :: e in r.cooling ==> e in s.cooling || e == d)
    requires d.user == v.user < |x.gaps| && d.slot == v.slot + x.gaps[v.user]
    ensures DueExactly(x, r)
  {
    var n := |s.out|;
    assert r.out[n] == v;
    forall e | e in r.cooling
      ensures e.user < |x.gaps| && exists a :: 0 <= a < |r.out| && r.out[a].user == e.user && r.out[a].slot + x.gaps[e.user] == e.slot
    {
      if e in s.cooling {
        var a :| 0 <= a < |s.out| && s.out[a].user == e.user && s.out[a].slot + x.gaps[e.user] == e.slot;
        assert r.out[a] == s.out[a];
      }
    }
  }

  /** One more visit, in a slot from which on none before it was open, drawn among the open users. */
  lemma TraceGrows(x: Setup, out: seq<Visit>, v: Visit, draws: nat -> real)
    requires |x.gaps| == |x.weights| && Follows(x, out, draws) && Prompt(x, out)
    requires !x.cfg.sampling.Sequential? ==> Drew(Drawable(x, out, v.slot), v.user, draws(|out|))
    requires x.cfg.arrival.Timeslot? ==> forall t: nat :: LastSlot(out) <= t < v.slot ==> Shut(x, out, t)
    ensures Follows(x, out + [v], draws) && Prompt(x, out + [v])
  {
    var r := out + [v];
    hide Drew, Drawable, Shut;
    assert forall i :: 0 <= i <= |out| ==> r[..i] == out[..i];
    assert out[..|out|] == out;
  }

  class Scheduler {
    const x: Setup
    const sampler: WeightedSampler
    var cooling: seq<Due>
    var active: int
    var remaining: int
    var visits: seq<nat>
    var slot: nat
    var used: nat
    var time: real
    var out: seq<Visit>

    ghost function Model(): State
      reads this, sampler, sampler.values
    {
      State(sampler.values[..], cooling, active, remaining, visits, slot, used, time, out)
    }

    constructor (x: Setup)
      requires x.Valid()
      ensures this.x == x && sampler.Valid() && Model() == Start(x)
      ensures fresh(sampler) && fresh(sampler.values) && fresh(sampler.tree)
    {
      this.x := x;
      var s := new WeightedSampler(x.weights);
      sampler := s;
      cooling, active, remaining := [], |x.weights|, |x.weights|;
      visits, slot, used, time, out := seq(|x.weights|, _ => 0), 0, 0, x.cfg.start, [];
    }

    method WakeNext()
      requires sampler.Valid() && SlotInv(x, Model()) && Timely(x, Model()) && cooling != [] && cooling[0].slot <= slot
      modifies this`cooling, this`active, sampler.values, sampler.tree
      ensures sampler.Valid() && SlotInv(x, Model()) && Timely(x, Model()) && |cooling| == |old(cooling)| - 1
    {
      WakeKeeps(x, Model());
      WakeWaits(x, Model());
      ghost var next := Wake(x, Model());
      var index := cooling[0].user;
      cooling := cooling[1..];
      sampler.Set(index, x.weights[index]);
      active := active + 1;
      assert Model() == next;
    }

    method AdvanceTo(next: nat)
      requires sampler.Valid() && SlotInv(x, Model()) && next > slot && Timely(x, MoveTo(Model(), next))
      modifies this`slot, this`used
      ensures sampler.Valid() && SlotInv(x, Model()) && Timely(x, Model()) && slot == next && used == 0
    {
      MoveKeeps(x, Model(), next);
      ghost var moved := MoveTo(Model(), next);
      slot := next;
      used := 0;
      assert Model() == moved;
    }

    /** Wake every user due by now. */
    method WakeDue()
      requires sampler.Valid() && SlotInv(x, Model()) && Timely(x, Model())
      modifies this`cooling, this`active, sampler.values, sampler.tree
      ensures sampler.Valid() && SlotInv(x, Model()) && Timely(x, Model())
      ensures cooling == [] || cooling[0].slot > slot
      ensures cooling == old(cooling) || |cooling| < |old(cooling)|
    {
      assert |x.gaps| == |x.weights|;
      hide SlotInv, Timely;
      while cooling != [] && cooling[0].slot <= slot
        invariant cooling == old(cooling) || |cooling| < |old(cooling)|
        invariant sampler.Valid() && SlotInv(x, Model()) && Timely(x, Model())
        decreases |cooling|
      {
        WakeNext();
      }
    }

    /** Wake every due user; when nobody is active, jump to the slot of the next one. */
    method Admit()
      requires sampler.Valid() && SlotInv(x, Model()) && Timely(x, Model()) && x.cfg.arrival.Timeslot?
      requires remaining > 0 && used < x.cfg.qps
      modifies this`cooling, this`active, this`slot, this`used, sampler.values, sampler.tree
      ensures sampler.Valid() && SlotInv(x, Model()) && Timely(x, Model()) && used < x.cfg.qps && active > 0
      ensures cooling == [] || cooling[0].slot > slot
    {
      AdmitFacts(x, Model());
      hide *;
      while true
        invariant sampler.Valid() && SlotInv(x, Model()) && Timely(x, Model()) && used < x.cfg.qps
        decreases 2 * |cooling| + (if cooling != [] && cooling[0].slot > slot then 1 else 0)
      {
        WakeDue();
        if active > 0 {
          break;
        }
        Jump();
      }
    }

    /** Nobody is active: go on to the slot of the next due user. */
    method Jump()
      requires sampler.Valid() && SlotInv(x, Model()) && Timely(x, Model()) && x.cfg.arrival.Timeslot?
      requires remaining > 0 && active <= 0 && (cooling == [] || cooling[0].slot > slot)
      modifies this`slot, this`used
      ensures sampler.Valid() && SlotInv(x, Model()) && Timely(x, Model()) && used == 0
      ensures cooling != [] && slot == cooling[0].slot
    {
      SlotFacts(x, Model());
      hide SlotInv, Timely;
      JumpWaits(x, Model());
      AdvanceTo(cooling[0].slot);
    }

    /** Go on to the first slot that is not shut. */
    method FindSlot()
      requires sampler.Valid() && SlotInv(x, Model()) && Timely(x, Model()) && x.cfg.arrival.Timeslot? && remaining > 0
      modifies this`cooling, this`active, this`slot, this`used, sampler.values, sampler.tree
      ensures sampler.Valid() && SlotInv(x, Model()) && Timely(x, Model()) && used < x.cfg.qps
      ensures cooling == [] || cooling[0].slot > slot
      ensures Shaped(x, Model()) && (forall w <- sampler.values[..] :: w >= 0.0) && Sum(sampler.values[..], 0, sampler.values.Length) > 0.0
    {
      SlotFacts(x, Model());
      hide SlotInv, Timely, Shut;
      if used == x.cfg.qps {
        FullWaits(x, Model());
        AdvanceTo(slot + 1);
      }
      Admit();
      SlotFacts(x, Model());
      SlotDrawable(x, Model());
    }

    /** One visit of a slotted run, in the first slot that is not shut, to the user the draw falls on. */
    method NextSlotted(u: real, ghost draws: nat -> real)
      requires sampler.Valid() && SlotInv(x, Model()) && Timely(x, Model()) && remaining > 0 && 0.0 <= u < 1.0
      requires Plain(x) && x.cfg.arrival.Timeslot? && Follows(x, out, draws) && Prompt(x, out) && u == draws(|out|)
      modifies this, sampler.values, sampler.tree
      ensures sampler.Valid() && SlotInv(x, Model()) && Timely(x, Model()) && |out| == |old(out)| + 1
      ensures Follows(x, out, draws) && Prompt(x, out)
    {
      hide SlotInv, Timely, Follows, Prompt, Plain, Drawable, Shut;
      FindSlot();
      ghost var s := Model();
      var index := DrawUser(sampler, u);
      SlotDraws(x, s, index, draws);
      SlotVisitKeeps(x, s, index);
      VisitWaits(x, s, index) by { SlotShape(x, s); }
      Deactivate(index);
      Record(index, Visit(index, slot, time));
      assert Model() == SlotVisit(x, s, index);
    }

    method Deactivate(index: nat)
      requires sampler.Valid() && index < |visits| == sampler.values.Length == |x.gaps|
      modifies this`time, this`active, this`cooling, this`used, sampler.values, sampler.tree
      ensures sampler.Valid() && Model() == Drawn(x, old(Model()), index)
    {
      time := x.cfg.start + slot as real;
      sampler.Set(index, 0.0);
      active := active - 1;
      if x.cfg.MaxVisits().None? || visits[index] + 1 < x.cfg.MaxVisits().value {
        cooling := Push(cooling, Due(slot + x.gaps[index], index));
      }
      used := used + 1;
    }

    method Record(index: nat, v: Visit)
      requires index < |visits|
      modifies this`visits, this`remaining, this`out
      ensures Model() == Recorded(x, old(Model()), index, v)
    {
      if x.cfg.MaxVisits().Some? {
        visits := visits[index := visits[index] + 1];
        if visits[index] == x.cfg.MaxVisits().value {
          remaining := remaining - 1;
        }
      }
      out := out + [v];
    }

    /** One visit of an unslotted run by a given user. */
    method NextStream(index: nat, at: real)
      requires sampler.Valid() && StreamInv(x, Model()) && index < x.Users() && !Retired(x, Model(), index) && at >= time
      modifies this, sampler.values, sampler.tree
      ensures sampler.Valid() && StreamInv(x, Model()) && Model() == StreamVisit(x, old(Model()), index, at)
    {
      StreamVisitKeeps(x, Model(), index, at);
      ghost var next := StreamVisit(x, Model(), index, at);
      time := at;
      Record(index, Visit(index, 0, at));
      if x.cfg.MaxVisits().Some? && visits[index] == x.cfg.MaxVisits().value {
        sampler.Set(index, 0.0);
      }
      assert Model() == next;
    }
  }

  /** The draw among the sampler's weights is one among the open users. */
  lemma SlotDraws(x: Setup, s: State, index: nat, draws: nat -> real)
    requires SlotInv(x, s) && Timely(x, s) && Plain(x) && x.cfg.arrival.Timeslot? && (s.cooling == [] || s.slot < s.cooling[0].slot)
    requires Drew(s.values, index, draws(|s.out|)) && Follows(x, s.out, draws) && Prompt(x, s.out)
    ensures var out := s.out + [Visit(index, s.slot, x.cfg.start + s.slot as real)]; Follows(x, out, draws) && Prompt(x, out)
  {
    SlotWeights(x, s);
    hide SlotInv, DueExactly, Shut, Follows, Prompt, Drawable, Drew;
    TraceGrows(x, s.out, Visit(index, s.slot, x.cfg.start + s.slot as real), draws);
  }

  lemma AdmitFacts(x: Setup, s: State)
    requires SlotInv(x, s)
    ensures |x.gaps| == |x.weights| && x.cfg.qps >= 1
  {
  }

  lemma SlotShape(x: Setup, s: State)
    requires SlotInv(x, s)
    ensures Shaped(x, s) && Classified(x, s)
  {
  }

  lemma SlotFacts(x: Setup, s: State)
    requires SlotInv(x, s)
    ensures Shaped(x, s) && s.used <= x.cfg.qps && x.cfg.qps > 0 && s.active >= 0
    ensures s.remaining > 0 && s.active <= 0 ==> s.cooling != []
  {
  }

  /** A schedule of at most `count` visits, driven by uniform draws and exponential ticks, over the given frequencies. */
  method Generate(x: Setup, count: nat, draws: nat -> real, ticks: nat -> real) returns (out: seq<Visit>)
    requires x.Valid() && forall n :: 0.0 <= draws(n) < 1.0 && ticks(n) >= 0.0
    ensures Faithful(x, count, out)
    ensures InTurn(x, out) && OnTime(x, out) && OnTicks(x, out, ticks)
    ensures Follows(x, out, draws) && Prompt(x, out)
  {
    var y := Sampled(x);
    if x.cfg.arrival.Timeslot? {
      SampledSame(x, [], draws);
      out := GenerateSlotted(y, count, draws);
    } else {
      SampledSame(x, [], draws);
      out := GenerateStream(y, count, draws, ticks);
    }
    SampledSame(x, out, draws);
    SampledKeeps(x, count, out, ticks);
    hide Follows, Prompt, Faithful, InTurn, OnTime, OnTicks;
  }

  lemma SampledKeeps(x: Setup, count: nat, out: seq<Visit>, ticks: nat -> real)
    requires x.Valid() && Sampled(x).Valid() && Faithful(Sampled(x), count, out)
    ensures Faithful(x, count, out)
    ensures InTurn(Sampled(x), out) ==> InTurn(x, out)
    ensures OnTime(Sampled(x), out) ==> OnTime(x, out)
    ensures OnTicks(Sampled(x), out, ticks) ==> OnTicks(x, out, ticks)
  {
    hide UserVisits, SlotVisits, Spaced, Ordered, Ticked;
  }

  method GenerateSlotted(x: Setup, count: nat, draws: nat -> real) returns (out: seq<Visit>)
    requires x.Valid() && Plain(x) && x.cfg.arrival.Timeslot? && forall n :: 0.0 <= draws(n) < 1.0
    ensures Faithful(x, count, out) && Follows(x, out, draws) && Prompt(x, out)
  {
    StartKeeps(x);
    StartWaits(x, draws);
    var s := new Scheduler(x);
    var order := 0;
    hide SlotInv, Timely, Follows, Prompt, Plain, Faithful;
    while order < count && s.remaining > 0
      invariant 0 <= order <= count && |s.out| == order && s.x == x
      invariant s.sampler.Valid() && SlotInv(x, s.Model()) && fresh(s.sampler.values) && fresh(s.sampler.tree)
      invariant Timely(x, s.Model()) && Follows(x, s.out, draws) && Prompt(x, s.out)
      modifies s, s.sampler.values, s.sampler.tree
    {
      s.NextSlotted(draws(order), draws);
      order := order + 1;
    }
    SlottedIsFaithful(x, s.Model(), count);
    out := s.out;
  }

  lemma StartWaits(x: Setup, draws: nat -> real)
    requires x.Valid()
    ensures Timely(x, Start(x)) && Follows(x, [], draws) && Prompt(x, [])
  {
  }

  lemma SlottedIsFaithful(x: Setup, s: State, count: nat)
    requires SlotInv(x, s) && |s.out| <= count && (|s.out| < count ==> s.remaining <= 0)
    ensures Faithful(x, count, s.out)
  {
    if s.remaining <= 0 { NobodyLeft(x, s); }
  }

  lemma StreamIsFaithful(x: Setup, s: State, count: nat)
    requires StreamInv(x, s) && |s.out| <= count && (|s.out| < count ==> s.remaining <= 0) && !x.cfg.arrival.Timeslot?
    ensures Faithful(x, count, s.out)
  {
    if s.remaining <= 0 { NobodyLeft(x, s); }
  }

  /** Whose turn it is, or the user among those with weight on whom the draw falls. */
  method NextUser(s: Scheduler, order: nat, u: real) returns (index: nat)
    requires s.sampler.Valid() && StreamInv(s.x, s.Model()) && s.remaining > 0 && 0.0 <= u < 1.0
    requires s.x.cfg.sampling.Sequential? ==> RoundRobin(s.x, s.Model(), order / s.x.Users(), order % s.x.Users())
    ensures index < s.x.Users() && index < |s.visits| && !Retired(s.x, s.Model(), index)
    ensures s.x.cfg.sampling.Sequential? ==> index == order % s.x.Users()
    ensures !s.x.cfg.sampling.Sequential? ==> Drew(s.sampler.values[..], index, u)
  {
    var x := s.x;
    StreamShape(x, s.Model());
    hide StreamInv, Retired, RoundRobin, Sum, Represents;
    if x.cfg.sampling.Sequential? {
      index := order % x.Users();
      TurnIsOpen(x, s.Model(), order / x.Users(), index);
    } else {
      StreamDrawable(x, s.Model());
      index := DrawUser(s.sampler, u);
    }
  }

  /** The user on whom the draw falls has weight. */
  method DrawUser(sampler: WeightedSampler, u: real) returns (index: nat)
    requires sampler.Valid() && 0.0 <= u < 1.0 && (forall w <- sampler.values[..] :: w >= 0.0)
    requires Sum(sampler.values[..], 0, sampler.values.Length) > 0.0
    ensures index < sampler.values.Length && sampler.values[index] > 0.0 && Drew(sampler.values[..], index, u)
  {
    hide Sum, Represents;
    index := sampler.Draw(u);
  }

  lemma StreamShape(x: Setup, s: State)
    requires StreamInv(x, s)
    ensures Shaped(x, s)
  {
  }

  /** Pick the next user, by turn or by weight, and record the visit. */
  method StreamTurn(s: Scheduler, order: nat, u: real, tick: real, ghost draws: nat -> real, ghost ticks: nat -> real)
    requires s.sampler.Valid() && StreamInv(s.x, s.Model()) && On(s.x, s.Model(), order, ticks) && |s.out| == order
    requires s.remaining > 0 && !s.x.cfg.arrival.Timeslot? && 0.0 <= u < 1.0 && tick >= 0.0
    requires u == draws(order) && tick == ticks(order) && Plain(s.x) && Follows(s.x, s.out, draws)
    modifies s, s.sampler.values, s.sampler.tree
    ensures s.sampler.Valid() && StreamInv(s.x, s.Model()) && On(s.x, s.Model(), order + 1, ticks) && |s.out| == order + 1
    ensures Follows(s.x, s.out, draws)
  {
    hide StreamInv, RoundRobin, InTurn, OnTime, OnTicks, Ticked, Retired, ConstantTime, StreamVisit, Recorded, Follows, Plain;
    var x := s.x;
    var index: nat;
    StreamFacts(x, s.Model(), ticks);
    index := NextUser(s, order, u);
    hide On, Drew;
    var at := if x.cfg.arrival.Poisson? then s.time + tick else x.cfg.start + order as real / x.cfg.qps as real;
    assert x.cfg.arrival.Constant? ==> at == ConstantTime(x, order) by { IsConstantTime(x, order); }
    OnNext(x, s.Model(), order, index, at, ticks);
    StreamGrows(x, s.Model(), index, at);
    StreamDraws(x, s.Model(), index, at, draws);
    s.NextStream(index, at);
  }

  /** While nobody cools the sampler's weights are those of the users with visits left. */
  lemma StreamDraws(x: Setup, s: State, index: nat, at: real, draws: nat -> real)
    requires StreamInv(x, s) && Plain(x) && !x.cfg.arrival.Timeslot? && index < x.Users() && Follows(x, s.out, draws)
    requires !x.cfg.sampling.Sequential? ==> Drew(s.values, index, draws(|s.out|))
    ensures Follows(x, StreamVisit(x, s, index, at).out, draws)
  {
    var v := Visit(index, 0, at);
    assert StreamVisit(x, s, index, at).out == s.out + [v];
    forall u | 0 <= u < x.Users() ensures s.values[u] == Drawable(x, s.out, 0)[u] { RetiredIsVisited(x, s, u); }
    assert s.values == Drawable(x, s.out, 0);
    hide StreamInv, Follows, Drawable, Drew, StreamVisit;
    TraceGrows(x, s.out, v, draws);
  }

  lemma IsConstantTime(x: Setup, order: nat)
    requires x.cfg.qps > 0
    ensures ConstantTime(x, order) == x.cfg.start + order as real / x.cfg.qps as real
  {
  }

  method GenerateStream(x: Setup, count: nat, draws: nat -> real, ticks: nat -> real) returns (out: seq<Visit>)
    requires x.Valid() && Plain(x) && !x.cfg.arrival.Timeslot? && forall n :: 0.0 <= draws(n) < 1.0 && ticks(n) >= 0.0
    ensures Faithful(x, count, out) && Follows(x, out, draws) && Prompt(x, out)
    ensures InTurn(x, out) && OnTime(x, out) && OnTicks(x, out, ticks)
  {
    StartKeeps(x);
    StartWaits(x, draws);
    var s := new Scheduler(x);
    var order := 0;
    StreamFacts(x, s.Model(), ticks);
    Later(x, 0);
    assert Ticked(ticks, 0) == 0.0;
    hide StreamInv, RoundRobin, InTurn, OnTime, OnTicks, Ticked, Retired, ConstantTime, StreamVisit, Recorded, Follows, Plain, Faithful;
    while order < count && s.remaining > 0
      invariant 0 <= order <= count && |s.out| == order && s.x == x
      invariant s.sampler.Valid() && StreamInv(x, s.Model()) && fresh(s.sampler.values) && fresh(s.sampler.tree)
      invariant On(x, s.Model(), order, ticks) && Follows(x, s.out, draws)
      modifies s, s.sampler.values, s.sampler.tree
    {
      StreamTurn(s, order, draws(order), ticks(order), draws, ticks);
      order := order + 1;
    }
    StreamIsFaithful(x, s.Model(), count);
    out := s.out;
  }

  lemma StreamGrows(x: Setup, s: State, u: nat, time: real)
    requires u < |s.visits| == |s.values|
    ensures |StreamVisit(x, s, u, time).out| == |s.out| + 1
  {
  }

  lemma StreamFacts(x: Setup, s: State, ticks: nat -> real)
    requires StreamInv(x, s)
    ensures Shaped(x, s)
    ensures s.out == [] ==> InTurn(x, s.out) && OnTime(x, s.out) && OnTicks(x, s.out, ticks)
  {
  }

  /** The order-dependent part of an unslotted run: whose turn it is, and how late the clock may be. */
  ghost predicate On(x: Setup, s: State, order: nat, ticks: nat -> real)
    requires x.Valid()
  {
    && InTurn(x, s.out) && OnTime(x, s.out) && OnTicks(x, s.out, ticks)
    && (x.cfg.sampling.Sequential? ==> RoundRobin(x, s, order / x.Users(), order % x.Users()))
    && (x.cfg.arrival.Constant? ==> s.time <= ConstantTime(x, order))
    && (x.cfg.arrival.Poisson? ==> s.time == x.cfg.start + Ticked(ticks, order))
  }

  lemma OnNext(x: Setup, s: State, order: nat, index: nat, at: real, ticks: nat -> real)
    requires StreamInv(x, s) && |s.out| == order && On(x, s, order, ticks) && index < x.Users()
    requires x.cfg.sampling.Sequential? ==> index == order % x.Users()
    requires x.cfg.arrival.Constant? ==> at == ConstantTime(x, order)
    requires x.cfg.arrival.Poisson? ==> at == s.time + ticks(order)
    ensures x.cfg.arrival.Constant? ==> at >= s.time
    ensures On(x, StreamVisit(x, s, index, at), order + 1, ticks)
  {
    var r := StreamVisit(x, s, index, at);
    assert r.out == s.out + [Visit(index, 0, at)] && r.time == at;
    NextTurn(x, s, order, at);
    Later(x, order);
  }

  function ConstantTime(x: Setup, order: nat): real
    requires x.cfg.qps > 0
  {
    x.cfg.start + order as real / x.cfg.qps as real
  }

  lemma Later(x: Setup, order: nat)
    requires x.cfg.qps > 0
    ensures ConstantTime(x, order) <= ConstantTime(x, order + 1) && ConstantTime(x, 0) == x.cfg.start
  {
  }

  lemma DivMod(a: nat, n: nat, q: nat, r: nat)
    requires n > 0 && a == q * n + r && r < n
    ensures a / n == q && a % n == r
  {
    var p := a / n;
    assert p * n <= a < (p + 1) * n;
    Monotone(p + 1, q, n);
    Monotone(q + 1, p, n);
  }

  lemma Monotone(a: nat, b: nat, n: nat)
    ensures a <= b ==> a * n <= b * n
  {
  }

  /** Visiting the user under the cursor moves the cursor on, round by round. */
  lemma NextTurn(x: Setup, s: State, order: nat, at: real)
    requires Shaped(x, s)
    ensures var n := x.Users(); var u := order % n;
      RoundRobin(x, s, order / n, u) ==>
        RoundRobin(x, StreamVisit(x, s, u, at), (order + 1) / n, (order + 1) % n)
  {
    var n := x.Users();
    var q, u := order / n, order % n;
    assert order == q * n + u;
    if u + 1 < n {
      DivMod(order + 1, n, q, u + 1);
    } else {
      DivMod(order + 1, n, q + 1, 0);
    }
  }

  ghost predicate InTurn(x: Setup, out: seq<Visit>)
    requires |x.weights| > 0
  {
    x.cfg.sampling.Sequential? ==> forall i :: 0 <= i < |out| ==> out[i].user == i % |x.weights|
  }

  ghost predicate OnTime(x: Setup, out: seq<Visit>)
    requires x.cfg.qps > 0
  {
    x.cfg.arrival.Constant? ==> forall i :: 0 <= i < |out| ==> out[i].time == x.cfg.start + i as real / x.cfg.qps as real
  }
}
