/** User-level LRU of persistent prefixes under byte, host-page and HBM-token quotas. */
module PrefixPool {
  import opened TokenTypes

  datatype Footprint = Footprint(hbm: nat, dram: nat) {
    predicate Fits(budget: Footprint) { hbm <= budget.hbm && dram <= budget.dram }

    function Plus(o: Footprint): Footprint { Footprint(hbm + o.hbm, dram + o.dram) }
  }

  /** `plan` is the resource identity of the session plan, when one was supplied. */
  datatype Entry = Entry(
    key: nat, session: nat, signature: nat, capacity: int, reservation: Footprint, pages: nat, tokens: nat,
    ready: bool, plan: Option<nat>)

  datatype Request = Request(
    key: nat, signature: nat, capacity: int, reservation: Footprint, pages: nat, tokens: nat, plan: Option<nat>)

  datatype Limits = Limits(budget: Option<Footprint>, shared: Footprint, pages: nat, tokens: nat)

  /** What the supplied callbacks do: allocation may raise, and so may the audit of a fresh allocation. */
  datatype Fate = Allocated(session: nat) | AllocateFails | AuditFails(session: nat)

  datatype Answer =
    | Invalid
    | Impossible
    | Hit(entry: Entry)
    | Miss(entry: Entry, evicted: seq<nat>)
    | Broken(evicted: seq<nat>)

  datatype Pool = Pool(entries: seq<Entry>, evictions: nat)

  // ----- quotas

  function HbmBytes(entries: seq<Entry>): nat {
    if entries == [] then 0 else entries[0].reservation.hbm + HbmBytes(entries[1..])
  }

  function DramBytes(entries: seq<Entry>): nat {
    if entries == [] then 0 else entries[0].reservation.dram + DramBytes(entries[1..])
  }

  function Bytes(entries: seq<Entry>): Footprint { Footprint(HbmBytes(entries), DramBytes(entries)) }

  function Pages(entries: seq<Entry>): nat {
    if entries == [] then 0 else entries[0].pages + Pages(entries[1..])
  }

  function Tokens(entries: seq<Entry>): nat {
    if entries == [] then 0 else entries[0].tokens + Tokens(entries[1..])
  }

  /** The request fits beside the listed entries. */
  predicate Admits(lim: Limits, entries: seq<Entry>, req: Request) {
    && (lim.budget.Some? ==> lim.shared.Plus(Bytes(entries)).Plus(req.reservation).Fits(lim.budget.value))
    && Pages(entries) + req.pages <= lim.pages
    && Tokens(entries) + req.tokens <= lim.tokens
  }

  predicate Within(lim: Limits, entries: seq<Entry>) {
    && (lim.budget.Some? ==> lim.shared.Plus(Bytes(entries)).Fits(lim.budget.value))
    && Pages(entries) <= lim.pages
    && Tokens(entries) <= lim.tokens
  }

  predicate WellFormed(lim: Limits, req: Request) {
    && req.capacity > 0
    && (lim.budget.None? ==> req.pages + req.tokens > 0)
    && (req.pages + req.tokens > 0 ==> req.reservation != Footprint(0, 0))
  }

  function Keys(entries: seq<Entry>): (r: seq<nat>)
    ensures |r| == |entries|
  {
    seq(|entries|, i requires 0 <= i < |entries| => entries[i].key)
  }

  ghost predicate DistinctKeys(entries: seq<Entry>) {
    forall i, j :: 0 <= i < j < |entries| ==> entries[i].key != entries[j].key
  }

  ghost predicate Valid(lim: Limits, entries: seq<Entry>) {
    DistinctKeys(entries) && Within(lim, entries)
  }

  // ----- the ordered entries

  function IndexOf(entries: seq<Entry>, key: nat): (i: nat)
    ensures i <= |entries| && (i < |entries| ==> entries[i].key == key)
    ensures forall j :: 0 <= j < i ==> entries[j].key != key
  {
    if entries == [] || entries[0].key == key then 0 else 1 + IndexOf(entries[1..], key)
  }

  function Find(entries: seq<Entry>, key: nat): Option<Entry> {
    var i := IndexOf(entries, key);
    if i < |entries| then Some(entries[i]) else None
  }

  function Without(entries: seq<Entry>, key: nat): seq<Entry> {
    var i := IndexOf(entries, key);
    if i < |entries| then entries[..i] + entries[i + 1..] else entries
  }

  predicate Reusable(prior: Entry, req: Request) {
    && prior.ready && prior.signature == req.signature
    && (req.plan.Some? ==> prior.plan == req.plan)
    && prior.capacity >= req.capacity && req.reservation.Fits(prior.reservation)
    && prior.pages >= req.pages && prior.tokens >= req.tokens
  }

  // ----- admission

  /** How many of the oldest entries go before the request fits. */
  function Victims(lim: Limits, entries: seq<Entry>, req: Request): (n: nat)
    ensures n <= |entries|
  {
    if entries == [] || Admits(lim, entries, req) then 0 else 1 + Victims(lim, entries[1..], req)
  }

  function NewEntry(req: Request, session: nat): Entry {
    Entry(req.key, session, req.signature, req.capacity, req.reservation, req.pages, req.tokens, false, req.plan)
  }

  function Replace(lim: Limits, p: Pool, req: Request, fate: Fate): (Pool, Answer) {
    var prior := Find(p.entries, req.key);
    var rest := Without(p.entries, req.key);
    var n := Victims(lim, rest, req);
    var evicted := (if prior.Some? then [req.key] else []) + Keys(rest[..n]);
    var q := Pool(rest[n..], p.evictions + |evicted|);
    if fate.Allocated? then
      (q.(entries := q.entries + [NewEntry(req, fate.session)]), Miss(NewEntry(req, fate.session), evicted))
    else
      (q, Broken(evicted))
  }

  function Acquired(lim: Limits, p: Pool, req: Request, fate: Fate): (Pool, Answer) {
    var prior := Find(p.entries, req.key);
    if !WellFormed(lim, req) then (p, Invalid)
    else if !Admits(lim, [], req) then (p, Impossible)
    else if prior.Some? && Reusable(prior.value, req) then
      (p.(entries := Without(p.entries, req.key) + [prior.value]), Hit(prior.value))
    else Replace(lim, p, req, fate)
  }

  // ----- what admission means

  lemma {:induction false} HbmConcat(a: seq<Entry>, b: seq<Entry>)
    ensures HbmBytes(a + b) == HbmBytes(a) + HbmBytes(b)
  {
    if a == [] {
      assert a + b == b;
    } else {
      HbmConcat(a[1..], b);
      assert (a + b)[1..] == a[1..] + b;
    }
  }

  lemma {:induction false} DramConcat(a: seq<Entry>, b: seq<Entry>)
    ensures DramBytes(a + b) == DramBytes(a) + DramBytes(b)
  {
    if a == [] {
      assert a + b == b;
    } else {
      DramConcat(a[1..], b);
      assert (a + b)[1..] == a[1..] + b;
    }
  }

  lemma {:induction false} PagesConcat(a: seq<Entry>, b: seq<Entry>)
    ensures Pages(a + b) == Pages(a) + Pages(b)
  {
    if a == [] {
      assert a + b == b;
    } else {
      PagesConcat(a[1..], b);
      assert (a + b)[1..] == a[1..] + b;
    }
  }

  lemma {:induction false} TokensConcat(a: seq<Entry>, b: seq<Entry>)
    ensures Tokens(a + b) == Tokens(a) + Tokens(b)
  {
    if a == [] {
      assert a + b == b;
    } else {
      TokensConcat(a[1..], b);
      assert (a + b)[1..] == a[1..] + b;
    }
  }

  lemma TotalsConcat(a: seq<Entry>, b: seq<Entry>)
    ensures Bytes(a + b) == Bytes(a).Plus(Bytes(b)) && Pages(a + b) == Pages(a) + Pages(b)
    ensures Tokens(a + b) == Tokens(a) + Tokens(b)
  {
    HbmConcat(a, b);
    DramConcat(a, b);
    PagesConcat(a, b);
    TokensConcat(a, b);
  }

  /** Dropping the oldest entries never makes a request harder to admit. */
  lemma AdmitsSuffix(lim: Limits, entries: seq<Entry>, req: Request, n: nat)
    requires n <= |entries|
    ensures Admits(lim, entries, req) ==> Admits(lim, entries[n..], req)
    ensures Within(lim, entries) ==> Within(lim, entries[n..])
  {
    TotalsConcat(entries[..n], entries[n..]);
    assert entries == entries[..n] + entries[n..];
  }

  /** The loop stops at the shortest sufficient prefix and, for a possible request, before it runs out of victims. */
  lemma {:induction false} VictimsAreShortest(lim: Limits, entries: seq<Entry>, req: Request)
    requires Admits(lim, [], req)
    ensures var n := Victims(lim, entries, req);
      Admits(lim, entries[n..], req) && forall m :: 0 <= m < n ==> !Admits(lim, entries[m..], req)
  {
    if entries == [] {
      assert entries[0..] == [];
    } else if Admits(lim, entries, req) {
      assert entries[0..] == entries;
    } else {
      VictimsAreShortest(lim, entries[1..], req);
      var n := Victims(lim, entries[1..], req);
      assert entries[1..][n..] == entries[n + 1..];
      forall m | 0 <= m < n + 1 ensures !Admits(lim, entries[m..], req) {
        if m == 0 {
          assert entries[0..] == entries;
        } else {
          assert entries[1..][m - 1..] == entries[m..];
        }
      }
    }
  }

  lemma WithoutDistinct(entries: seq<Entry>, key: nat)
    requires DistinctKeys(entries)
    ensures DistinctKeys(Without(entries, key)) && forall e <- Without(entries, key) :: e in entries && e.key != key
  {
  }

  lemma WithoutWithin(lim: Limits, entries: seq<Entry>, key: nat)
    requires Within(lim, entries)
    ensures Within(lim, Without(entries, key))
    ensures Find(entries, key).Some? ==> Within(lim, Without(entries, key) + [Find(entries, key).value])
  {
    hide HbmBytes, DramBytes, Pages, Tokens;
    var i := IndexOf(entries, key);
    if i < |entries| {
      var x := [entries[i]];
      assert entries == entries[..i] + (x + entries[i + 1..]);
      TotalsConcat(entries[..i], x + entries[i + 1..]);
      TotalsConcat(x, entries[i + 1..]);
      TotalsConcat(entries[..i], entries[i + 1..]);
      TotalsConcat(Without(entries, key), x);
    }
  }

  lemma Single(e: Entry)
    ensures Bytes([e]) == e.reservation && Pages([e]) == e.pages && Tokens([e]) == e.tokens
  {
    var s := [e];
    assert s[0] == e && s[1..] == [];
    assert HbmBytes(s) == e.reservation.hbm + HbmBytes(s[1..]);
    assert DramBytes(s) == e.reservation.dram + DramBytes(s[1..]);
  }

  /** Making room for the request, then adding it, stays within every limit. */
  lemma ReplaceKeepsQuotas(lim: Limits, rest: seq<Entry>, req: Request, session: nat)
    requires Valid(lim, rest) && Admits(lim, [], req) && forall e <- rest :: e.key != req.key
    ensures var kept := rest[Victims(lim, rest, req)..];
      Valid(lim, kept) && Valid(lim, kept + [NewEntry(req, session)])
  {
    hide Victims;
    var n := Victims(lim, rest, req);
    VictimsAreShortest(lim, rest, req);
    AdmitsSuffix(lim, rest, req, n);
    var e := NewEntry(req, session);
    TotalsConcat(rest[n..], [e]);
    Single(e);
  }

  /** Admission keeps every quota and every key unique, whatever the callbacks do. */
  lemma AcquireKeepsQuotas(lim: Limits, p: Pool, req: Request, fate: Fate)
    requires Valid(lim, p.entries)
    ensures Valid(lim, Acquired(lim, p, req, fate).0.entries)
  {
    hide Within, Victims, Admits, IndexOf;
    WithoutDistinct(p.entries, req.key);
    WithoutWithin(lim, p.entries, req.key);
    if Admits(lim, [], req) {
      ReplaceKeepsQuotas(lim, Without(p.entries, req.key), req, if fate.Allocated? then fate.session else 0);
    }
  }

  /** With the requested entry added behind all but the oldest `m`, every quota holds. */
  ghost predicate FitsWithout(lim: Limits, rest: seq<Entry>, req: Request, m: nat) {
    m <= |rest| && Within(lim, rest[m..] + [NewEntry(req, 0)])
  }

  /** Least recently used first: `n` is the shortest prefix whose removal admits the request. */
  ghost predicate ShortestPrefix(lim: Limits, rest: seq<Entry>, req: Request, n: nat) {
    FitsWithout(lim, rest, req, n) && forall m :: 0 <= m < n ==> !FitsWithout(lim, rest, req, m)
  }

  lemma VictimsAreThese(lim: Limits, rest: seq<Entry>, req: Request)
    requires Admits(lim, [], req)
    ensures ShortestPrefix(lim, rest, req, Victims(lim, rest, req))
  {
    VictimsAreShortest(lim, rest, req);
    var n := Victims(lim, rest, req);
    forall m | 0 <= m <= n ensures FitsWithout(lim, rest, req, m) <==> Admits(lim, rest[m..], req) {
      AdmitsIsWithin(lim, rest[m..], req, 0);
    }
  }

  /** The request is refused before the pool is looked at. */
  predicate Refused(lim: Limits, req: Request) {
    || req.capacity <= 0
    || (lim.budget.None? && req.pages == 0 && req.tokens == 0)
    || ((req.pages > 0 || req.tokens > 0) && req.reservation.hbm == 0 && req.reservation.dram == 0)
  }

  /** Not even an empty pool could hold the request. */
  predicate TooLarge(lim: Limits, req: Request) {
    || (lim.budget.Some? && (lim.shared.hbm + req.reservation.hbm > lim.budget.value.hbm
                             || lim.shared.dram + req.reservation.dram > lim.budget.value.dram))
    || req.pages > lim.pages || req.tokens > lim.tokens
  }

  /** Entry `i` is a finished session of this very request's history, built for the same plan and at least as large. */
  predicate Serves(entries: seq<Entry>, i: nat, req: Request)
    requires i < |entries|
  {
    var e := entries[i];
    && e.key == req.key && e.ready && e.signature == req.signature && (req.plan.None? || e.plan == req.plan)
    && req.capacity <= e.capacity && req.reservation.hbm <= e.reservation.hbm && req.reservation.dram <= e.reservation.dram
    && req.pages <= e.pages && req.tokens <= e.tokens
  }

  ghost predicate Served(entries: seq<Entry>, req: Request) {
    exists i :: 0 <= i < |entries| && Serves(entries, i, req)
  }

  /** The serving entry is handed out and moves to the young end; the others stand as before. */
  ghost predicate HandedOut(was: seq<Entry>, now: seq<Entry>, req: Request, e: Entry) {
    exists i :: 0 <= i < |was| && Serves(was, i, req) && e == was[i] && now == was[..i] + was[i + 1..] + [was[i]]
  }

  /** What a miss does besides moving entries. */
  predicate Counted(a: Answer, fate: Fate, before: nat, after: nat) {
    && (a.Miss? || a.Broken?) && after == before + |a.evicted|
    && (a.Miss? <==> fate.Allocated?) && (a.Miss? ==> a.entry.session == fate.session)
  }

  /** What a miss answers: a new entry as requested, not ready, and the stale key, then the oldest ones, as evicted. */
  ghost predicate Replaced(was: seq<Entry>, now: seq<Entry>, req: Request, a: Answer, rest: seq<Entry>, n: nat) {
    && n <= |rest| && (a.Miss? || a.Broken?)
    && (a.Miss? ==> a.entry == Entry(req.key, a.entry.session, req.signature, req.capacity, req.reservation, req.pages, req.tokens, false, req.plan))
    && now == rest[n..] + (if a.Miss? then [a.entry] else [])
    && a.evicted == (if exists i :: 0 <= i < |was| && was[i].key == req.key then [req.key] else []) + Keys(rest[..n])
  }

  /** Everything but the entry under the key, in order. */
  ghost predicate Others(was: seq<Entry>, rest: seq<Entry>, key: nat) {
    || (rest == was && forall i :: 0 <= i < |was| ==> was[i].key != key)
    || (exists i :: 0 <= i < |was| && was[i].key == key && rest == was[..i] + was[i + 1..])
  }

  /** Admission is asked exactly whether the quotas would hold with the new entry beside the listed ones. */
  lemma AdmitsIsWithin(lim: Limits, entries: seq<Entry>, req: Request, session: nat)
    ensures Admits(lim, entries, req) <==> Within(lim, entries + [NewEntry(req, session)])
  {
    TotalsConcat(entries, [NewEntry(req, session)]);
    Single(NewEntry(req, session));
  }

  lemma IndexUnique(entries: seq<Entry>, key: nat, i: nat)
    requires DistinctKeys(entries) && i < |entries| && entries[i].key == key
    ensures IndexOf(entries, key) == i
  {
    var j := IndexOf(entries, key);
    assert j <= i;
  }

  lemma ServedIsReusable(entries: seq<Entry>, req: Request)
    requires DistinctKeys(entries)
    ensures Served(entries, req) <==> Find(entries, req.key).Some? && Reusable(Find(entries, req.key).value, req)
  {
    if Served(entries, req) {
      var i :| 0 <= i < |entries| && Serves(entries, i, req);
      IndexUnique(entries, req.key, i);
    }
    var j := IndexOf(entries, req.key);
    if j < |entries| && Reusable(entries[j], req) { assert Serves(entries, j, req); }
  }

  /** The answers of admission, told on the entries. */
  lemma AnswersTold(lim: Limits, p: Pool, req: Request, fate: Fate)
    requires DistinctKeys(p.entries)
    ensures var (q, a) := Acquired(lim, p, req, fate);
      && (a.Invalid? <==> Refused(lim, req))
      && (a.Impossible? <==> !Refused(lim, req) && TooLarge(lim, req))
      && (a.Hit? <==> !Refused(lim, req) && !TooLarge(lim, req) && Served(p.entries, req))
      && (a.Hit? ==> q.evictions == p.evictions && HandedOut(p.entries, q.entries, req, a.entry))
      && (a.Miss? || a.Broken? ==> Counted(a, fate, p.evictions, q.evictions))
  {
    ServedIsReusable(p.entries, req);
    hide Served, Reusable, Victims;
    if Acquired(lim, p, req, fate).1.Hit? {
      var i :| 0 <= i < |p.entries| && Serves(p.entries, i, req) by { assert Served(p.entries, req); ServedOpen(p.entries, req); }
      IndexUnique(p.entries, req.key, i);
    }
  }

  lemma ServedOpen(entries: seq<Entry>, req: Request)
    requires Served(entries, req)
    ensures exists i :: 0 <= i < |entries| && Serves(entries, i, req)
  {
  }

  lemma MissTold(lim: Limits, p: Pool, req: Request, fate: Fate)
    requires DistinctKeys(p.entries) && Admits(lim, [], req)
    ensures var (q, a) := Acquired(lim, p, req, fate); var rest := Without(p.entries, req.key);
      Others(p.entries, rest, req.key)
      && (a.Miss? || a.Broken? ==>
            var n := Victims(lim, rest, req); ShortestPrefix(lim, rest, req, n) && Replaced(p.entries, q.entries, req, a, rest, n))
  {
    VictimsAreThese(lim, Without(p.entries, req.key), req);
    hide ShortestPrefix, Victims, Within, WellFormed;
  }

  class PrefixSessionPool {
    const lim: Limits
    var entries: seq<Entry>
    var evictions: nat

    ghost predicate Sound()
      reads this
    {
      Valid(lim, entries)
    }

    ghost function Model(): Pool
      reads this
    {
      Pool(entries, evictions)
    }

    constructor (lim: Limits)
      requires lim.budget.Some? ==> lim.shared.Fits(lim.budget.value)
      ensures Sound() && this.lim == lim && entries == [] && evictions == 0
    {
      this.lim := lim;
      entries, evictions := [], 0;
    }

    method Discard(key: nat)
      requires Sound()
      modifies this`entries
      ensures Sound() && entries == Without(old(entries), key) && Others(old(entries), entries, key)
    {
      WithoutDistinct(entries, key);
      WithoutWithin(lim, entries, key);
      entries := Without(entries, key);
    }

    method MarkReady(key: nat) returns (found: bool)
      requires Sound()
      modifies this`entries
      ensures Sound() && |entries| == |old(entries)| && found == Find(old(entries), key).Some?
      ensures forall i :: 0 <= i < |entries| ==>
                entries[i] == (if old(entries)[i].key == key then old(entries)[i].(ready := true) else old(entries)[i])
    {
      found := Find(entries, key).Some?;
      var before := entries;
      entries := MarkedReady(entries, key);
      MarkReadyTotals(before, key);
    }

    /** Evict oldest entries until the request fits. */
    method Evict(req: Request) returns (evicted: seq<nat>)
      requires Sound() && Admits(lim, [], req)
      modifies this`entries
      ensures Sound()
      ensures var n := Victims(lim, old(entries), req);
        ShortestPrefix(lim, old(entries), req, n) && entries == old(entries)[n..] && evicted == Keys(old(entries)[..n])
    {
      VictimsAreThese(lim, entries, req);
      hide ShortestPrefix;
      evicted := [];
      ghost var rest := entries;
      ghost var n := 0;
      while !Admits(lim, entries, req)
        invariant Sound() && n <= |rest| && entries == rest[n..] && evicted == Keys(rest[..n])
        invariant Victims(lim, rest, req) == n + Victims(lim, entries, req)
        decreases |entries|
      {
        assert entries[1..] == rest[n + 1..];
        var victim := entries[0].key;
        Discard(victim);
        evicted := evicted + [victim];
        assert Keys(rest[..n + 1]) == Keys(rest[..n]) + [victim];
        n := n + 1;
      }
    }

    /** A hit moves to the young end; a miss drops the stale entry, then the shortest sufficient run of oldest entries. */
    method Acquire(req: Request, fate: Fate) returns (a: Answer)
      requires Sound()
      modifies this
      ensures Sound()
      ensures (Model(), a) == Acquired(lim, old(Model()), req, fate)
      ensures a.Invalid? <==> Refused(lim, req)
      ensures a.Impossible? <==> !Refused(lim, req) && TooLarge(lim, req)
      ensures a.Invalid? || a.Impossible? ==> unchanged(this)
      ensures a.Hit? <==> !Refused(lim, req) && !TooLarge(lim, req) && Served(old(entries), req)
      ensures a.Hit? ==> evictions == old(evictions) && HandedOut(old(entries), entries, req, a.entry)
      ensures a.Miss? || a.Broken? ==> Counted(a, fate, old(evictions), evictions)
      ensures a.Miss? || a.Broken? ==>
                exists rest, n: nat :: Others(old(entries), rest, req.key) && ShortestPrefix(lim, rest, req, n)
                  && Replaced(old(entries), entries, req, a, rest, n)
    {
      AcquireKeepsQuotas(lim, Model(), req, fate);
      AnswersTold(lim, Model(), req, fate);
      if Admits(lim, [], req) { MissTold(lim, Model(), req, fate); }
      hide Refused, TooLarge, Served, HandedOut, Replaced, Others, ShortestPrefix, Counted, Within, DistinctKeys, Admits;
      if !WellFormed(lim, req) {
        return Invalid;
      }
      if !Admits(lim, [], req) {
        return Impossible;
      }
      var prior := Find(entries, req.key);
      if prior.Some? && Reusable(prior.value, req) {
        entries := Without(entries, req.key) + [prior.value];
        return Hit(prior.value);
      }
      a := Swap(req, fate);
    }

    /** Drop the stale entry, make room, allocate; the callback may raise after the evictions. */
    method Swap(req: Request, fate: Fate) returns (a: Answer)
      requires Sound() && Admits(lim, [], req)
      modifies this
      ensures (Model(), a) == Replace(lim, old(Model()), req, fate)
    {
      var prior := Find(entries, req.key);
      var evicted: seq<nat> := [];
      if prior.Some? {
        Discard(req.key);
        evicted := [req.key];
      }
      var gone := Evict(req);
      evicted := evicted + gone;
      evictions := evictions + |evicted|;
      match fate
      case AllocateFails =>
        a := Broken(evicted);
      case AuditFails(session) =>
        a := Broken(evicted);
      case Allocated(session) =>
        var entry := NewEntry(req, session);
        entries := entries + [entry];
        a := Miss(entry, evicted);
    }
  }

  function MarkedReady(entries: seq<Entry>, key: nat): (r: seq<Entry>)
    ensures |r| == |entries|
  {
    seq(|entries|, i requires 0 <= i < |entries| => if entries[i].key == key then entries[i].(ready := true) else entries[i])
  }

  lemma {:induction false} MarkReadyTotals(entries: seq<Entry>, key: nat)
    ensures var r := MarkedReady(entries, key); Bytes(r) == Bytes(entries) && Pages(r) == Pages(entries) && Tokens(r) == Tokens(entries)
  {
    if entries != [] {
      MarkReadyTotals(entries[1..], key);
      assert MarkedReady(entries, key)[1..] == MarkedReady(entries[1..], key);
    }
  }
}
