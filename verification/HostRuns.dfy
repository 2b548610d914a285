/** A session's page table compressed into runs, and writes through them. */
module HostRuns {
  import opened TokenTypes

  /** Positions start..end of the session lie at host..host + end - start of the arena. */
  datatype HostRun = HostRun(start: nat, end: nat, host: nat)

  /** The run translates each of its positions as the page table does. */
  ghost predicate Translates(pages: seq<nat>, r: HostRun) {
    r.start < r.end <= |pages| * PAGE_SIZE && forall q :: r.start <= q < r.end ==> r.host + (q - r.start) == Cell(pages, q)
  }

  /** Runs tile the positions below `end`, translate faithfully, and no two neighbours could be one run. */
  ghost predicate Compressed(pages: seq<nat>, runs: seq<HostRun>, end: nat) {
    && (forall i :: 0 <= i < |runs| ==> Translates(pages, runs[i]))
    && (forall i :: 0 <= i < |runs| - 1 ==> runs[i].end == runs[i + 1].start && Broken(runs[i], runs[i + 1]))
    && (if runs == [] then end == 0 else runs[0].start == 0 && runs[|runs| - 1].end == end)
  }

  predicate Broken(a: HostRun, b: HostRun) {
    a.host + (b.start - a.start) != b.host
  }

  lemma CellInPage(pages: seq<nat>, page: nat, q: nat)
    requires page < |pages| && page * PAGE_SIZE <= q < (page + 1) * PAGE_SIZE
    ensures q / PAGE_SIZE == page && Cell(pages, q) == pages[page] * PAGE_SIZE + (q - page * PAGE_SIZE)
  {
  }

  /** The last run grows by a page that continues it. */
  lemma LongerRun(pages: seq<nat>, runs: seq<HostRun>, start: nat)
    requires Compressed(pages, runs, start) && runs != [] && start + PAGE_SIZE <= |pages| * PAGE_SIZE
    requires forall q :: start <= q < start + PAGE_SIZE ==>
               Cell(pages, q) == runs[|runs| - 1].host + (start - runs[|runs| - 1].start) + (q - start)
    ensures var r := runs[|runs| - 1];
      Compressed(pages, runs[..|runs| - 1] + [HostRun(r.start, start + PAGE_SIZE, r.host)], start + PAGE_SIZE)
  {
    assert Translates(pages, runs[|runs| - 1]);
    assert Translates(pages, HostRun(runs[|runs| - 1].start, start + PAGE_SIZE, runs[|runs| - 1].host));
  }

  /** A page that does not continue the last run starts one. */
  lemma NextRun(pages: seq<nat>, runs: seq<HostRun>, start: nat, host: nat)
    requires Compressed(pages, runs, start) && start + PAGE_SIZE <= |pages| * PAGE_SIZE
    requires runs != [] ==> runs[|runs| - 1].host + (start - runs[|runs| - 1].start) != host
    requires forall q :: start <= q < start + PAGE_SIZE ==> Cell(pages, q) == host + (q - start)
    ensures Compressed(pages, runs + [HostRun(start, start + PAGE_SIZE, host)], start + PAGE_SIZE)
  {
    assert Translates(pages, HostRun(start, start + PAGE_SIZE, host));
  }

  method BuildRuns(pages: seq<nat>) returns (runs: seq<HostRun>)
    ensures Compressed(pages, runs, |pages| * PAGE_SIZE)
  {
    runs := [];
    var page := 0;
    while page < |pages|
      invariant 0 <= page <= |pages| && Compressed(pages, runs, page * PAGE_SIZE)
    {
      var start := page * PAGE_SIZE;
      var last := |runs| - 1;
      ghost var was := runs;
      hide Compressed, Translates, Cell;
      forall q | start <= q < start + PAGE_SIZE ensures Cell(pages, q) == pages[page] * PAGE_SIZE + (q - start) {
        CellInPage(pages, page, q);
      }
      if runs != [] && runs[last].host + (start - runs[last].start) == pages[page] * PAGE_SIZE {
        runs := runs[..last] + [HostRun(runs[last].start, start + PAGE_SIZE, runs[last].host)];
        LongerRun(pages, was, start);
      } else {
        runs := runs + [HostRun(start, start + PAGE_SIZE, pages[page] * PAGE_SIZE)];
        NextRun(pages, was, start, pages[page] * PAGE_SIZE);
      }
      page := page + 1;
    }
  }

  /** How many run ends lie at or before a position: the index of the run that holds it. */
  method BisectRight(runs: seq<HostRun>, position: nat) returns (k: nat)
    requires forall i, j :: 0 <= i < j < |runs| ==> runs[i].end < runs[j].end
    ensures k <= |runs|
    ensures forall i :: 0 <= i < k ==> runs[i].end <= position
    ensures forall i :: k <= i < |runs| ==> position < runs[i].end
  {
    var lo, hi := 0, |runs|;
    while lo < hi
      invariant 0 <= lo <= hi <= |runs|
      invariant forall i :: 0 <= i < lo ==> runs[i].end <= position
      invariant forall i :: hi <= i < |runs| ==> position < runs[i].end
    {
      var mid := (lo + hi) / 2;
      if position < runs[mid].end {
        hi := mid;
      } else {
        lo := mid + 1;
      }
    }
    k := lo;
  }

  lemma {:induction false} EndsRise(pages: seq<nat>, runs: seq<HostRun>, end: nat, i: nat, j: nat)
    requires Compressed(pages, runs, end) && i < j < |runs|
    ensures runs[i].end <= runs[j].start && runs[j].start < runs[j].end
    decreases j
  {
    assert Translates(pages, runs[j]);
    if i < j - 1 { EndsRise(pages, runs, end, i, j - 1); }
  }

  ghost predicate Injective(pages: seq<nat>) {
    forall i, j :: 0 <= i < j < |pages| ==> pages[i] != pages[j]
  }

  lemma CellsDiffer(pages: seq<nat>, p: nat, q: nat)
    requires Injective(pages) && p != q && p / PAGE_SIZE < |pages| && q / PAGE_SIZE < |pages|
    ensures Cell(pages, p) != Cell(pages, q)
  {
    var a, b := p / PAGE_SIZE, q / PAGE_SIZE;
    if a != b {
      assert pages[a] != pages[b];
    }
  }

  ghost predicate InArena<T>(pages: seq<nat>, target: array<T>) {
    forall i :: 0 <= i < |pages| ==> (pages[i] + 1) * PAGE_SIZE <= target.Length
  }

  /** Some position in lo..hi is named to cell `x`. */
  ghost predicate Names(pages: seq<nat>, lo: nat, hi: nat, x: nat)
    requires hi <= |pages| * PAGE_SIZE
  {
    exists q :: lo <= q < hi && Cell(pages, q) == x
  }

  /** The first `count` source records stand where the page table says, and nothing else has changed. */
  ghost predicate Landed<T(!new)>(pages: seq<nat>, start: nat, source: seq<T>, count: nat, before: seq<T>, now: seq<T>)
    requires count <= |source| && start + |source| <= |pages| * PAGE_SIZE
  {
    && |before| == |now|
    && (forall q :: start <= q < start + count ==> Cell(pages, q) < |now| && now[Cell(pages, q)] == source[q - start])
    && (forall x :: 0 <= x < |now| && !Names(pages, start, start + count, x) ==> now[x] == before[x])
  }

  /** One contiguous copy, as long as the run and the source allow. */
  lemma ChunkLands<T(!new)>(pages: seq<nat>, run: HostRun, start: nat, source: seq<T>, done: nat, count: nat,
        before: seq<T>, was: seq<T>, now: seq<T>)
    requires Injective(pages) && Translates(pages, run) && done + count <= |source| && start + |source| <= |pages| * PAGE_SIZE
    requires run.start <= start + done && start + done + count <= run.end
    requires Landed(pages, start, source, done, before, was) && |now| == |was|
    requires var base := run.host + (start + done) - run.start;
      base + count <= |now| && forall x :: 0 <= x < |now| ==> now[x] == if base <= x < base + count then source[done + x - base] else was[x]
    ensures Landed(pages, start, source, done + count, before, now)
  {
    hide Injective;
    var base := run.host + (start + done) - run.start;
    var at := start + done;
    assert forall q :: at <= q < at + count ==> Cell(pages, q) == base + (q - at);
    forall q | start <= q < at ensures !(base <= Cell(pages, q) < base + count) {
      if base <= Cell(pages, q) < base + count {
        CellsDiffer(pages, q, at + (Cell(pages, q) - base));
      }
    }
    forall x | 0 <= x < |now| && !Names(pages, start, at + count, x) ensures now[x] == before[x] {
      NamesChunk(pages, start, at, at + count, base, x);
    }
  }

  lemma NamesChunk(pages: seq<nat>, start: nat, at: nat, end: nat, base: nat, x: nat)
    requires start <= at <= end <= |pages| * PAGE_SIZE
    requires forall q :: at <= q < end ==> Cell(pages, q) == base + (q - at)
    ensures base <= x < base + (end - at) || Names(pages, start, at, x) ==> Names(pages, start, end, x)
  {
    if base <= x < base + (end - at) {
      assert Cell(pages, at + (x - base)) == x;
    }
  }

  /** Writing through the runs writes exactly the cells the page table names. */
  method WriteHost<T(!new)>(pages: seq<nat>, runs: seq<HostRun>, start: nat, source: seq<T>, target: array<T>)
    requires Injective(pages) && InArena(pages, target) && Compressed(pages, runs, |pages| * PAGE_SIZE)
    requires start + |source| <= |pages| * PAGE_SIZE
    modifies target
    ensures Landed(pages, start, source, |source|, old(target[..]), target[..])
  {
    forall i, j | 0 <= i < j < |runs| ensures runs[i].end < runs[j].end {
      EndsRise(pages, runs, |pages| * PAGE_SIZE, i, j);
    }
    var position, consumed := start, 0;
    var run := BisectRight(runs, position);
    RunFound(pages, runs, run, start, |source|);
    hide Cell, Injective;
    while consumed < |source|
      invariant 0 <= consumed <= |source| && position == start + consumed
      invariant 0 <= run && (consumed < |source| ==> run < |runs| && runs[run].start <= position < runs[run].end)
      invariant Landed(pages, start, source, consumed, old(target[..]), target[..])
    {
      var r := runs[run];
      assert Translates(pages, r);
      var count := if r.end - position <= |source| - consumed then r.end - position else |source| - consumed;
      var base := r.host + position - r.start;
      ChunkFits(pages, r, position, count, target);
      ghost var was := target[..];
      forall x | base <= x < base + count {
        target[x] := source[consumed + x - base];
      }
      ChunkLands(pages, r, start, source, consumed, count, old(target[..]), was, target[..]);
      position := position + count;
      consumed := consumed + count;
      run := run + 1;
    }
  }

  lemma ChunkFits<T>(pages: seq<nat>, r: HostRun, position: nat, count: nat, target: array<T>)
    requires Translates(pages, r) && InArena(pages, target) && r.start <= position && position + count <= r.end && count > 0
    ensures r.host + position - r.start + count <= target.Length
  {
    var q := position + count - 1;
    assert Cell(pages, q) == r.host + (q - r.start);
  }

  lemma RunFound(pages: seq<nat>, runs: seq<HostRun>, k: nat, position: nat, count: nat)
    requires Compressed(pages, runs, |pages| * PAGE_SIZE) && k <= |runs|
    requires forall i :: 0 <= i < k ==> runs[i].end <= position
    requires forall i :: k <= i < |runs| ==> position < runs[i].end
    requires position + count <= |pages| * PAGE_SIZE
    ensures count > 0 ==> k < |runs| && runs[k].start <= position < runs[k].end
  {
    if k > 0 && k < |runs| {
      assert runs[k - 1].end == runs[k].start;
    }
  }
}
