/** Ownership of the paged host arena: a stack of free pages, or merged free runs when sessions must be contiguous. */
module HostPages {
  import opened TokenTypes
  import Ranking

  /** Pages begin..end are free. */
  datatype Run = Run(begin: nat, end: nat)

  datatype Grant = Granted(owner: nat, pages: seq<nat>) | BadCapacity | NoPages | NoContiguousPages

  // ----- free runs

  predicate Covers(runs: seq<Run>, p: nat) { exists i :: 0 <= i < |runs| && runs[i].begin <= p < runs[i].end }

  /** Nonempty, in ascending order, and no two of them touch. */
  ghost predicate Merged(runs: seq<Run>) {
    && (forall i :: 0 <= i < |runs| ==> runs[i].begin < runs[i].end)
    && (forall i, j :: 0 <= i < j < |runs| ==> runs[i].end < runs[j].begin)
  }

  /** Nonempty and in ascending order, but possibly touching. */
  ghost predicate Apart(runs: seq<Run>) {
    && (forall i :: 0 <= i < |runs| ==> runs[i].begin < runs[i].end)
    && (forall i, j :: 0 <= i < j < |runs| ==> runs[i].end <= runs[j].begin)
  }

  /** A stretch of free pages lies inside one run. */
  lemma {:induction false} StretchInRun(runs: seq<Run>, first: nat, count: nat)
    requires Merged(runs) && count > 0 && forall p :: first <= p < first + count ==> Covers(runs, p)
    ensures exists i :: 0 <= i < |runs| && runs[i].begin <= first && first + count <= runs[i].end
  {
    if count == 1 {
      assert Covers(runs, first);
    } else {
      StretchInRun(runs, first, count - 1);
      var i :| 0 <= i < |runs| && runs[i].begin <= first && first + count - 1 <= runs[i].end;
      var p := first + count - 1;
      assert Covers(runs, p);
      var j :| 0 <= j < |runs| && runs[j].begin <= p < runs[j].end;
      assert Covers(runs, p - 1);
      assert j > i ==> runs[i].end < runs[j].begin;
    }
  }

  /** Insert in `begin` order, as sorting the run list with one more run does. */
  function InsertRun(runs: seq<Run>, r: Run): (q: seq<Run>)
    ensures |q| == |runs| + 1
  {
    if runs == [] || r.begin <= runs[0].begin then [r] + runs else [runs[0]] + InsertRun(runs[1..], r)
  }

  lemma {:induction false} InsertKeeps(runs: seq<Run>, r: Run)
    requires Merged(runs) && r.begin < r.end && forall p :: r.begin <= p < r.end ==> !Covers(runs, p)
    ensures Apart(InsertRun(runs, r))
    ensures forall e :: e in InsertRun(runs, r) <==> e in runs || e == r
  {
    if runs == [] {
    } else if r.begin <= runs[0].begin {
      NotInside(runs, r, 0);
    } else {
      var tail := runs[1..];
      assert forall e :: e in runs <==> e == runs[0] || e in tail;
      forall p | r.begin <= p < r.end ensures !Covers(tail, p) {
        CoversTail(runs, p);
      }
      InsertKeeps(tail, r);
      NotInside(runs, r, 0);
      var q := InsertRun(tail, r);
      forall i | 0 <= i < |q| ensures runs[0].end <= q[i].begin {
        assert q[i] in q;
      }
    }
  }

  lemma CoversTail(runs: seq<Run>, p: nat)
    requires runs != []
    ensures Covers(runs, p) <==> Covers(runs[1..], p) || runs[0].begin <= p < runs[0].end
  {
    var tail := runs[1..];
    if Covers(tail, p) {
      var i :| 0 <= i < |tail| && tail[i].begin <= p < tail[i].end;
      assert runs[i + 1] == tail[i];
    }
    if Covers(runs, p) {
      var i :| 0 <= i < |runs| && runs[i].begin <= p < runs[i].end;
      assert i > 0 ==> tail[i - 1] == runs[i];
    }
  }

  /** A free run and a stretch outside every free run do not overlap. */
  lemma NotInside(runs: seq<Run>, r: Run, i: nat)
    requires i < |runs| && runs[i].begin < runs[i].end && r.begin < r.end
    requires forall p :: r.begin <= p < r.end ==> !Covers(runs, p)
    ensures runs[i].end <= r.begin || r.end <= runs[i].begin
  {
    var p := if runs[i].begin >= r.begin then runs[i].begin else r.begin;
    assert p < runs[i].end ==> Covers(runs, p);
  }

  lemma CoversMember(runs: seq<Run>, p: nat)
    ensures Covers(runs, p) <==> exists r :: r in runs && r.begin <= p < r.end
  {
    if Covers(runs, p) {
      var i :| 0 <= i < |runs| && runs[i].begin <= p < runs[i].end;
      assert runs[i] in runs;
    }
  }

  /** Merge touching neighbours; an overlap raises. */
  method MergeRuns(sorted: seq<Run>) returns (merged: seq<Run>, overlap: bool)
    requires forall r <- sorted :: r.begin < r.end
    ensures overlap <==> !Apart(sorted)
    ensures !overlap ==> Merged(merged) && forall p: nat :: Covers(merged, p) <==> Covers(sorted, p)
  {
    hide Apart, Covers;
    ApartNone();
    CoversNone();
    merged, overlap := [], false;
    var k := 0;
    while k < |sorted|
      invariant 0 <= k <= |sorted| && Merged(merged) && !overlap && Apart(sorted[..k])
      invariant forall p: nat :: Covers(merged, p) <==> Covers(sorted[..k], p)
      invariant (merged != [] <==> k > 0) && (k > 0 ==> merged[|merged| - 1].end == sorted[k - 1].end)
    {
      var r, last := sorted[k], |merged| - 1;
      assert sorted[..k + 1] == sorted[..k] + [r] && r in sorted;
      ghost var was := merged;
      if merged != [] && r.begin < merged[last].end {
        NotApart(sorted, k);
        overlap := true;
        return;
      }
      ApartMore(sorted[..k], r);
      if merged != [] && r.begin == merged[last].end {
        merged := merged[..last] + [Run(merged[last].begin, r.end)];
        JoinedCovers(was, r);
      } else {
        merged := merged + [r];
        AppendedCovers(was, r);
      }
      AppendedCovers(sorted[..k], r);
      k := k + 1;
    }
    assert sorted[..|sorted|] == sorted;
  }

  lemma ApartNone()
    ensures Apart([])
  {
  }

  lemma CoversNone()
    ensures forall p: nat :: !Covers([], p)
  {
  }

  lemma NotApart(runs: seq<Run>, k: nat)
    requires 0 < k < |runs| && runs[k].begin < runs[k - 1].end
    ensures !Apart(runs)
  {
  }

  lemma ApartMore(runs: seq<Run>, r: Run)
    requires Apart(runs) && r.begin < r.end && (runs != [] ==> runs[|runs| - 1].end <= r.begin)
    ensures Apart(runs + [r])
  {
    assert forall i :: 0 <= i < |runs| - 1 ==> runs[i].end <= runs[|runs| - 1].begin;
  }

  lemma AppendedCovers(runs: seq<Run>, r: Run)
    ensures forall p: nat :: Covers(runs + [r], p) <==> Covers(runs, p) || r.begin <= p < r.end
  {
    var all := runs + [r];
    forall p: nat ensures Covers(all, p) <==> Covers(runs, p) || r.begin <= p < r.end {
      if Covers(runs, p) {
        var i :| 0 <= i < |runs| && runs[i].begin <= p < runs[i].end;
        assert all[i] == runs[i];
      }
      assert all[|runs|] == r;
    }
  }

  lemma JoinedCovers(runs: seq<Run>, r: Run)
    requires Merged(runs) && runs != [] && r.begin == runs[|runs| - 1].end && r.begin < r.end
    ensures var last := |runs| - 1;
      forall p: nat :: Covers(runs[..last] + [Run(runs[last].begin, r.end)], p) <==> Covers(runs, p) || r.begin <= p < r.end
  {
    var last := |runs| - 1;
    AppendedCovers(runs[..last], Run(runs[last].begin, r.end));
    AppendedCovers(runs[..last], runs[last]);
    assert runs == runs[..last] + [runs[last]];
  }

  /** When every page of the arena is free there is exactly one run. */
  lemma AllFreeIsOneRun(runs: seq<Run>, capacity: nat)
    requires Merged(runs) && capacity > 0 && forall p: nat :: Covers(runs, p) <==> p < capacity
    ensures runs == [Run(0, capacity)]
  {
    assert |runs| > 1 ==> runs[0].end < runs[|runs| - 1].begin;
    StretchInRun(runs, 0, capacity);
    var i :| 0 <= i < |runs| && runs[i].begin <= 0 && capacity <= runs[i].end;
    assert Covers(runs, runs[i].end - 1);
    assert runs[0].begin < runs[0].end;
    assert i == 0;
    assert runs[0] == Run(0, capacity);
    var j := |runs| - 1;
    assert Covers(runs, runs[j].begin);
  }

  // ----- who owns which page

  /** Every page of the arena is free or held by exactly one session, once. */
  ghost predicate Placed(capacity: nat, free: set<nat>, sessions: map<nat, seq<nat>>) {
    && (forall p <- free :: p < capacity)
    && (forall o <- sessions.Keys :: Ranking.Distinct(sessions[o]) && Holds(capacity, free, sessions[o]))
    && (forall a, b :: a in sessions && b in sessions && a != b ==> Disjoint(sessions[a], sessions[b]))
    && (forall p: nat :: p < capacity && p !in free ==> Owned(sessions, p))
  }

  predicate Holds(capacity: nat, free: set<nat>, pages: seq<nat>) {
    forall p <- pages :: p < capacity && p !in free
  }

  predicate Disjoint(a: seq<nat>, b: seq<nat>) { forall p <- a :: p !in b }

  predicate Owned(sessions: map<nat, seq<nat>>, p: nat) { exists o :: o in sessions && p in sessions[o] }

  lemma GrantPlaces(capacity: nat, free: set<nat>, sessions: map<nat, seq<nat>>, owner: nat, pages: seq<nat>)
    requires Placed(capacity, free, sessions) && owner !in sessions
    requires Ranking.Distinct(pages) && forall p <- pages :: p in free
    ensures Placed(capacity, free - Ranking.Elements(pages), sessions[owner := pages])
    ensures |free - Ranking.Elements(pages)| == |free| - |pages|
  {
    var left, next := free - Ranking.Elements(pages), sessions[owner := pages];
    Ranking.DistinctCard(pages);
    assert Ranking.Elements(pages) <= free;
    forall o | o in next ensures Ranking.Distinct(next[o]) && Holds(capacity, left, next[o]) {
      if o != owner { assert Holds(capacity, free, sessions[o]); }
    }
    forall o | o in sessions ensures Disjoint(sessions[o], pages) && Disjoint(pages, sessions[o]) {
      assert Holds(capacity, free, sessions[o]);
    }
    forall p: nat | p < capacity && p !in left ensures Owned(next, p) {
      if p in pages {
        assert p in next[owner];
      } else {
        assert Owned(sessions, p);
        var o :| o in sessions && p in sessions[o];
        assert p in next[o];
      }
    }
  }

  lemma ReleasePlaces(capacity: nat, free: set<nat>, sessions: map<nat, seq<nat>>, owner: nat)
    requires Placed(capacity, free, sessions) && owner in sessions
    ensures Placed(capacity, free + Ranking.Elements(sessions[owner]), sessions - {owner})
    ensures |free + Ranking.Elements(sessions[owner])| == |free| + |sessions[owner]|
  {
    var pages := sessions[owner];
    var more, next := free + Ranking.Elements(pages), sessions - {owner};
    Ranking.DistinctCard(pages);
    assert Holds(capacity, free, pages);
    assert Ranking.Elements(pages) !! free;
    forall o | o in next ensures Ranking.Distinct(next[o]) && Holds(capacity, more, next[o]) {
      assert Holds(capacity, free, sessions[o]) && Disjoint(sessions[o], pages);
    }
    forall p: nat | p < capacity && p !in more ensures Owned(next, p) {
      assert Owned(sessions, p);
      var o :| o in sessions && p in sessions[o];
      assert o != owner && p in next[o];
    }
  }

  /** Consecutive pages from `first`. */
  function Stretch(first: nat, count: nat): (s: seq<nat>)
    ensures |s| == count && (forall i :: 0 <= i < count ==> s[i] == first + i)
    ensures forall p: nat :: p in s <==> first <= p < first + count
  {
    if count == 0 then [] else Stretch(first, count - 1) + [first + count - 1]
  }

  ghost predicate FreeStretch(runs: seq<Run>, first: nat, count: nat) {
    forall p: nat :: first <= p < first + count ==> Covers(runs, p)
  }

  /** The first run long enough, if any; then no earlier stretch of free pages would do. */
  method FirstFit(runs: seq<Run>, count: nat) returns (k: nat)
    requires Merged(runs) && count > 0
    ensures k <= |runs|
    ensures k < |runs| ==> runs[k].begin + count <= runs[k].end && forall first: nat :: FreeStretch(runs, first, count) ==> runs[k].begin <= first
    ensures k == |runs| ==> forall first: nat :: !FreeStretch(runs, first, count)
  {
    k := 0;
    while k < |runs| && runs[k].end - runs[k].begin < count
      invariant 0 <= k <= |runs| && forall i :: 0 <= i < k ==> runs[i].end - runs[i].begin < count
    {
      k := k + 1;
    }
    forall first: nat | FreeStretch(runs, first, count) ensures k < |runs| && runs[k].begin <= first {
      StretchInRun(runs, first, count);
    }
  }

  /** Cutting pages off the front of a run. */
  lemma CutRun(runs: seq<Run>, k: nat, count: nat)
    requires Merged(runs) && k < |runs| && runs[k].begin + count <= runs[k].end
    ensures var r := runs[k];
      var rest := if r.begin + count < r.end then [Run(r.begin + count, r.end)] else [];
      var next := runs[..k] + rest + runs[k + 1..];
      Merged(next) && forall p: nat :: Covers(next, p) <==> Covers(runs, p) && !(r.begin <= p < r.begin + count)
  {
    var r := runs[k];
    var rest := if r.begin + count < r.end then [Run(r.begin + count, r.end)] else [];
    var next := runs[..k] + rest + runs[k + 1..];
    forall p: nat ensures Covers(next, p) <==> Covers(runs, p) && !(r.begin <= p < r.begin + count) {
      CutCovers(runs, k, count, p);
    }
  }

  lemma CoversConcat(a: seq<Run>, b: seq<Run>, p: nat)
    ensures Covers(a + b, p) <==> Covers(a, p) || Covers(b, p)
  {
    if Covers(a, p) {
      var i :| 0 <= i < |a| && a[i].begin <= p < a[i].end;
      assert (a + b)[i] == a[i];
    }
    if Covers(b, p) {
      var i :| 0 <= i < |b| && b[i].begin <= p < b[i].end;
      assert (a + b)[|a| + i] == b[i];
    }
  }

  lemma CoversOne(r: Run, p: nat)
    ensures Covers([r], p) <==> r.begin <= p < r.end
    ensures !Covers([], p)
  {
    assert [r][0] == r;
  }

  lemma CutCovers(runs: seq<Run>, k: nat, count: nat, p: nat)
    requires Merged(runs) && k < |runs| && runs[k].begin + count <= runs[k].end
    ensures var r := runs[k];
      var rest := if r.begin + count < r.end then [Run(r.begin + count, r.end)] else [];
      Covers(runs[..k] + rest + runs[k + 1..], p) <==> Covers(runs, p) && !(r.begin <= p < r.begin + count)
  {
    var r, a, b := runs[k], runs[..k], runs[k + 1..];
    var rest := if r.begin + count < r.end then [Run(r.begin + count, r.end)] else [];
    assert runs == a + [r] + b;
    CoversConcat(a + [r], b, p);
    CoversConcat(a, [r], p);
    CoversConcat(a + rest, b, p);
    CoversConcat(a, rest, p);
    CoversOne(r, p);
    CoversOne(Run(r.begin + count, r.end), p);
    assert r.begin <= p < r.end ==> !Covers(a, p) && !Covers(b, p);
  }

  class PageArena {
    const capacity: nat
    const dense: bool
    const slots: nat
    var stack: array<nat>
    var freeCount: nat
    var runs: seq<Run>
    var sessions: map<nat, seq<nat>>
    var nextOwner: nat

    ghost function Free(): set<nat>
      reads this`freeCount, this`runs, this`stack, stack
    {
      if dense then set p: nat | p < capacity && Covers(runs, p) else if freeCount <= stack.Length then Ranking.Elements(stack[..freeCount])
      else {}
    }

    ghost predicate Valid()
      reads this, stack
    {
      && FreeListOK() && Placed(capacity, Free(), sessions) && freeCount == |Free()|
      && (forall o <- sessions.Keys :: o < nextOwner)
      && (dense ==> forall o <- sessions.Keys :: Consecutive(sessions[o]))
    }

    constructor (capacity: nat, dense: bool, slots: nat)
      requires capacity > 0
      ensures Valid() && this.capacity == capacity && this.dense == dense && this.slots == slots
      ensures sessions == map[] && freeCount == capacity && fresh(stack)
    {
      this.capacity, this.dense, this.slots := capacity, dense, slots;
      var s := new nat[capacity](i requires 0 <= i < capacity => capacity - 1 - i);
      stack, freeCount, sessions, nextOwner := s, capacity, map[], 0;
      runs := if dense then [Run(0, capacity)] else [];
      new;
      var all := Stretch(0, capacity);
      Ranking.DistinctCard(all);
      assert Ranking.Distinct(stack[..]);
      assert stack[..capacity] == stack[..];
      forall p: nat ensures p in Free() <==> p in Ranking.Elements(all) {
        if dense {
          assert Covers(runs, p) <==> p < capacity by { assert runs[0] == Run(0, capacity); }
        } else if p < capacity {
          assert stack[..][capacity - 1 - p] == p;
        }
      }
      assert Free() == Ranking.Elements(all);
    }

    method Allocate(tokens: nat) returns (g: Grant)
      requires Valid()
      modifies this`freeCount, this`runs, this`sessions, this`nextOwner
      ensures Valid()
      ensures var count := PagesFor(tokens);
        && (g.BadCapacity? <==> tokens == 0 || (dense && tokens > slots))
        && (g.NoPages? <==> !g.BadCapacity? && count > |old(Free())|)
        && (g.NoContiguousPages? <==> !g.BadCapacity? && !g.NoPages? && dense && forall first: nat :: !FreeStretch(old(runs), first, count))
      ensures !g.Granted? ==> unchanged(this)
      ensures g.Granted? ==>
                && |g.pages| == PagesFor(tokens) && g.owner == old(nextOwner) && g.owner !in old(sessions)
                && sessions == old(sessions)[g.owner := g.pages]
                && Ranking.Elements(g.pages) <= old(Free()) && Free() == old(Free()) - Ranking.Elements(g.pages)
                && (dense ==> Consecutive(g.pages))
                && (dense ==> forall first: nat :: FreeStretch(old(runs), first, |g.pages|) ==> g.pages[0] <= first)
    {
      hide FreeListOK, Free, Placed, PagesFor, Consecutive, Ranking.Elements, Ranking.Distinct;
      if tokens == 0 || (dense && tokens > slots) {
        return BadCapacity;
      }
      var count := PagesFor(tokens);
      if count > freeCount {
        return NoPages;
      }
      var selected, ok := Take(count);
      if !ok {
        assert forall first: nat :: !FreeStretch(old(runs), first, count);
        return NoContiguousPages;
      }
      var owner := Register(selected, old(Free()));
      g := Granted(owner, selected);
    }

    /** Taken pages become a new session's. */
    method Register(selected: seq<nat>, ghost free: set<nat>) returns (owner: nat)
      requires FreeListOK() && Placed(capacity, free, sessions) && Ranking.Distinct(selected)
      requires Ranking.Elements(selected) <= free
      requires Free() == free - Ranking.Elements(selected) && freeCount == |free| - |selected|
      requires (forall o <- sessions.Keys :: o < nextOwner && (dense ==> Consecutive(sessions[o]))) && (dense ==> Consecutive(selected))
      modifies this`sessions, this`nextOwner
      ensures Valid() && owner == old(nextOwner) && owner !in old(sessions) && sessions == old(sessions)[owner := selected]
    {
      hide FreeListOK, Free, Placed;
      owner := nextOwner;
      GrantPlaces(capacity, free, sessions, owner, selected);
      sessions := sessions[owner := selected];
      nextOwner := owner + 1;
    }

    /** Pages for a session: the first contiguous stretch, or the top of the stack. */
    method Take(count: nat) returns (selected: seq<nat>, ok: bool)
      requires FreeListOK() && 0 < count <= freeCount
      modifies this`freeCount, this`runs
      ensures !ok ==> runs == old(runs) && freeCount == old(freeCount) && dense && forall first: nat :: !FreeStretch(runs, first, count)
      ensures ok ==> |selected| == count && Ranking.Distinct(selected) && FreeListOK() && freeCount == old(freeCount) - count
      ensures ok ==> Ranking.Elements(selected) <= old(Free()) && Free() == old(Free()) - Ranking.Elements(selected)
      ensures ok && dense ==> Consecutive(selected) && FreeStretch(old(runs), selected[0], count)
      ensures ok && dense ==> forall first: nat :: FreeStretch(old(runs), first, count) ==> selected[0] <= first
    {
      if dense {
        selected, ok := TakeRun(count);
      } else {
        selected := TakeTop(count);
        ok := true;
      }
    }

    method TakeRun(count: nat) returns (selected: seq<nat>, ok: bool)
      requires dense && FreeListOK() && 0 < count <= freeCount
      modifies this`freeCount, this`runs
      ensures !ok ==> runs == old(runs) && freeCount == old(freeCount) && forall first: nat :: !FreeStretch(runs, first, count)
      ensures ok ==> |selected| == count && FreeListOK() && freeCount == old(freeCount) - count
      ensures ok ==> Ranking.Elements(selected) <= old(Free()) && Free() == old(Free()) - Ranking.Elements(selected)
      ensures ok ==> Consecutive(selected) && FreeStretch(old(runs), selected[0], count)
      ensures ok ==> forall first: nat :: FreeStretch(old(runs), first, count) ==> selected[0] <= first
    {
      var k := FirstFit(runs, count);
      if k == |runs| {
        return [], false;
      }
      var first, stop := runs[k].begin, runs[k].end;
      selected := Stretch(first, count);
      CutRun(runs, k, count);
      forall p: nat | first <= p < first + count ensures Covers(runs, p) {
        assert runs[k].begin <= p < runs[k].end;
      }
      var replacement := if first + count < stop then [Run(first + count, stop)] else [];
      ghost var was, free := runs, Free();
      assert forall p: nat :: p in free <==> Covers(was, p);
      assert forall p <- selected :: p in free;
      runs := runs[..k] + replacement + runs[k + 1..];
      assert forall p: nat :: Covers(runs, p) <==> Covers(was, p) && !(first <= p < first + count);
      freeCount := freeCount - count;
      ok := true;
    }

    method TakeTop(count: nat) returns (selected: seq<nat>)
      requires !dense && FreeListOK() && 0 < count <= freeCount
      modifies this`freeCount
      ensures |selected| == count && Ranking.Distinct(selected) && FreeListOK() && freeCount == old(freeCount) - count
      ensures Ranking.Elements(selected) <= old(Free()) && Free() == old(Free()) - Ranking.Elements(selected)
      ensures forall i :: 0 <= i < count ==> selected[i] == stack[old(freeCount) - 1 - i]
    {
      var top := stack[freeCount - count..freeCount];
      selected := seq(count, i requires 0 <= i < count => top[count - 1 - i]);
      TopOfStack(stack[..freeCount], count, selected);
      assert stack[..freeCount][..freeCount - count] == stack[..freeCount - count];
      freeCount := freeCount - count;
    }

    /** The free list proper: a stack without repeats, or merged runs inside the arena. */
    ghost predicate FreeListOK()
      reads this`freeCount, this`runs, this`stack, stack
    {
      && stack.Length == capacity && freeCount <= capacity
      && (if dense then Merged(runs) && (forall p: nat :: Covers(runs, p) ==> p < capacity) else Ranking.Distinct(stack[..freeCount]))
    }

    /** A session's pages become free again; the overlap that would raise is never met. */
    method Release(owner: nat) returns (overlap: bool)
      requires Valid() && owner in sessions
      modifies this`freeCount, this`runs, this`sessions, stack
      ensures Valid() && !overlap
      ensures sessions == old(sessions) - {owner} && Free() == old(Free()) + Ranking.Elements(old(sessions)[owner])
    {
      hide FreeListOK, Free, Ranking.Distinct;
      var pages := sessions[owner];
      ghost var free := Free();
      ReleasePlaces(capacity, free, sessions, owner);
      assert Holds(capacity, free, pages);
      overlap := Return(pages);
      sessions := sessions - {owner};
    }

    /** Pages go back: merged into the free runs, or pushed on the stack in table order. */
    method Return(pages: seq<nat>) returns (overlap: bool)
      requires FreeListOK() && freeCount == |Free()| && Ranking.Distinct(pages) && (dense ==> Consecutive(pages))
      requires (forall p <- pages :: p < capacity && p !in Free()) && forall p <- Free() :: p < capacity
      modifies this`freeCount, this`runs, stack
      ensures FreeListOK() && !overlap && freeCount == old(freeCount) + |pages|
      ensures Free() == old(Free()) + Ranking.Elements(pages)
    {
      Ranking.DistinctCard(pages);
      assert Free() * Ranking.Elements(pages) == {};
      RoomFor(capacity, Free() + Ranking.Elements(pages));
      overlap := false;
      if dense {
        overlap := ReturnRun(pages);
      } else {
        ReturnTop(pages);
      }
    }

    method ReturnTop(pages: seq<nat>)
      requires !dense && FreeListOK() && freeCount + |pages| <= capacity && Ranking.Distinct(pages)
      requires forall p <- pages :: p !in Free()
      modifies this`freeCount, stack
      ensures FreeListOK() && freeCount == old(freeCount) + |pages| && Free() == old(Free()) + Ranking.Elements(pages)
    {
      ghost var below := stack[..freeCount];
      forall i | 0 <= i < |pages| {
        stack[freeCount + i] := pages[i];
      }
      freeCount := freeCount + |pages|;
      assert stack[..freeCount] == below + pages;
      ghost var now := stack[..freeCount];
      forall i, j | 0 <= i < j < |now| ensures now[i] != now[j] {
        if i < |below| <= j { assert below[i] in below && pages[j - |below|] in pages; }
      }
    }

    method ReturnRun(pages: seq<nat>) returns (overlap: bool)
      requires dense && FreeListOK() && Consecutive(pages) && freeCount + |pages| <= capacity
      requires forall p <- pages :: p < capacity && p !in Free()
      modifies this`freeCount, this`runs
      ensures FreeListOK() && !overlap && freeCount == old(freeCount) + |pages|
      ensures Free() == old(Free()) + Ranking.Elements(pages)
    {
      var freed := Run(pages[0], pages[0] + |pages|);
      forall p: nat ensures freed.begin <= p < freed.end <==> p in pages {
        assert freed.begin <= p < freed.end ==> pages[p - pages[0]] == p;
      }
      forall p: nat | freed.begin <= p < freed.end ensures !Covers(runs, p) {
        assert p in pages;
        assert p !in Free();
      }
      InsertKeeps(runs, freed);
      var merged;
      merged, overlap := MergeRuns(InsertRun(runs, freed));
      forall p: nat ensures Covers(merged, p) <==> Covers(runs, p) || p in pages {
        CoversMember(InsertRun(runs, freed), p);
        CoversMember(runs, p);
      }
      runs := merged;
      freeCount := freeCount + |pages|;
    }

    /** Once every session is gone a contiguous arena is one free run again. */
    lemma EmptyArenaIsOneRun()
      requires Valid() && dense && sessions == map[] && capacity > 0
      ensures runs == [Run(0, capacity)]
    {
      forall p: nat ensures Covers(runs, p) <==> p < capacity {
        assert !Owned(sessions, p);
      }
      AllFreeIsOneRun(runs, capacity);
    }
  }

  predicate Consecutive(pages: seq<nat>) {
    pages != [] && forall i :: 0 <= i < |pages| ==> pages[i] == pages[0] + i
  }

  lemma TopOfStack(stack: seq<nat>, count: nat, selected: seq<nat>)
    requires Ranking.Distinct(stack) && count <= |stack| == |stack|
    requires |selected| == count && forall i :: 0 <= i < count ==> selected[i] == stack[|stack| - 1 - i]
    ensures Ranking.Distinct(selected) && Ranking.Elements(selected) <= Ranking.Elements(stack)
    ensures Ranking.Distinct(stack[..|stack| - count])
    ensures Ranking.Elements(stack[..|stack| - count]) == Ranking.Elements(stack) - Ranking.Elements(selected)
  {
    var keep := stack[..|stack| - count];
    forall i | |stack| - count <= i < |stack| ensures stack[i] in selected {
      assert selected[|stack| - 1 - i] == stack[i];
    }
    forall p ensures p in keep <==> p in stack && p !in selected {
      if p in stack && p !in selected {
        var i :| 0 <= i < |stack| && stack[i] == p;
        assert keep[i] == p;
      }
    }
  }

  lemma RoomFor(capacity: nat, pages: set<nat>)
    requires forall p <- pages :: p < capacity
    ensures |pages| <= capacity
  {
    var all := Stretch(0, capacity);
    Ranking.DistinctCard(all);
    Ranking.SubsetCard(pages, Ranking.Elements(all));
  }
}
