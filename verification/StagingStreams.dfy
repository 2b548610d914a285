/** Two FIFO streams, their events and the two staging slots they share. */
module StagingStreams {
  import opened TokenTypes

  /** A queued operation; an awaited position is the length of the other stream when its event was recorded. */
  datatype Op =
    | AwaitCaller(pos: nat)
    | AwaitCopy(pos: nat)
    | Copy(slot: nat, load: nat, name: nat, data: seq<Record>)
    | Use(slot: nat, load: nat)
    | Suffix(slot: nat, load: nat, name: nat, at: nat, data: seq<Record>)

  /** `callerDone` and `copyDone` operations of each stream have executed; `buf[slot][name]` is device storage. */
  datatype Gpu = Gpu(caller: seq<Op>, callerDone: nat, copies: seq<Op>, copyDone: nat, buf: seq<seq<seq<Record>>>)

  /** One prefetch: its sources, the consumer event it recorded, and where its copies start; `enq` copies were queued. */
  datatype Load = Load(slot: nat, sources: seq<seq<Record>>, callerPos: nat, first: nat, enq: nat)

  predicate Complete(d: Load) { d.enq == |d.sources| }

  function ReadyPos(d: Load): nat { d.first + |d.sources| }

  /** Overwrite positions at.. of a buffer. */
  function Overwrite(b: seq<Record>, at: nat, data: seq<Record>): (r: seq<Record>)
    ensures |r| == |b|
  {
    seq(|b|, i requires 0 <= i < |b| => if at <= i < at + |data| then data[i - at] else b[i])
  }

  function Store(buf: seq<seq<seq<Record>>>, slot: nat, name: nat, at: nat, data: seq<Record>): (r: seq<seq<seq<Record>>>)
    ensures |r| == |buf|
  {
    if slot < |buf| && name < |buf[slot]| then buf[slot := buf[slot][name := Overwrite(buf[slot][name], at, data)]] else buf
  }

  // ----- execution

  /** The head of the caller stream may run. */
  predicate CallerEnabled(g: Gpu) {
    g.callerDone < |g.caller| && (g.caller[g.callerDone].AwaitCopy? ==> g.caller[g.callerDone].pos <= g.copyDone)
  }

  predicate CopyEnabled(g: Gpu) {
    g.copyDone < |g.copies| && (g.copies[g.copyDone].AwaitCaller? ==> g.copies[g.copyDone].pos <= g.callerDone)
  }

  function ExecCaller(g: Gpu): Gpu
    requires CallerEnabled(g)
  {
    var op := g.caller[g.callerDone];
    g.(callerDone := g.callerDone + 1, buf := if op.Suffix? then Store(g.buf, op.slot, op.name, op.at, op.data) else g.buf)
  }

  function ExecCopy(g: Gpu): Gpu
    requires CopyEnabled(g)
  {
    var op := g.copies[g.copyDone];
    g.(copyDone := g.copyDone + 1, buf := if op.Copy? then Store(g.buf, op.slot, op.name, 0, op.data) else g.buf)
  }

  // ----- what the protocol maintains

  predicate LoadQueued(g: Gpu, d: Load) {
    && 1 <= d.first && d.enq <= |d.sources| && d.first + d.enq <= |g.copies| && d.callerPos <= |g.caller|
    && g.copies[d.first - 1] == AwaitCaller(d.callerPos)
  }

  ghost predicate CopyOf(loads: seq<Load>, i: nat, op: Op)
    requires op.Copy?
  {
    && op.load < |loads| && op.name < loads[op.load].enq <= |loads[op.load].sources|
    && op.slot == loads[op.load].slot && op.data == loads[op.load].sources[op.name] && i == loads[op.load].first + op.name
  }

  /** Prefetches sit in the copy stream in order, each behind the caller position it recorded. */
  ghost predicate CopiesOK(g: Gpu, loads: seq<Load>) {
    && (forall k :: 0 <= k < |loads| ==> LoadQueued(g, loads[k]))
    && (forall i :: 0 <= i < |g.copies| && g.copies[i].Copy? ==> CopyOf(loads, i, g.copies[i]))
    && (forall k, n :: 0 <= k < |loads| && 0 <= n < loads[k].enq ==> CopyAt(g, loads, k, n))
    && (forall j, k :: 0 <= j < k < |loads| ==> loads[j].first + loads[j].enq < loads[k].first && loads[j].callerPos <= loads[k].callerPos)
  }

  ghost predicate CopyAt(g: Gpu, loads: seq<Load>, k: nat, n: nat) {
    && k < |loads| && n < loads[k].enq <= |loads[k].sources| && loads[k].first + n < |g.copies|
    && g.copies[loads[k].first + n] == Copy(loads[k].slot, k, n, loads[k].sources[n])
  }

  /** A consumer at position `c` follows a wait for its own load and precedes every later load's consumer event. */
  ghost predicate ConsumerOK(g: Gpu, loads: seq<Load>, c: nat, op: Op)
    requires op.Use? || op.Suffix?
  {
    && op.load < |loads| && Complete(loads[op.load]) && op.slot == loads[op.load].slot
    && (exists w :: 0 <= w < c && w < |g.caller| && g.caller[w] == AwaitCopy(ReadyPos(loads[op.load])))
    && (forall k :: op.load < k < |loads| && loads[k].slot == op.slot ==> c < loads[k].callerPos)
    && (op.Suffix? ==> op.name < |loads[op.load].sources| && |loads[op.load].sources[op.name]| <= op.at)
  }

  ghost predicate CallersOK(g: Gpu, loads: seq<Load>) {
    forall c :: 0 <= c < |g.caller| && (g.caller[c].Use? || g.caller[c].Suffix?) ==> ConsumerOK(g, loads, c, g.caller[c])
  }

  /** Executed waits have been satisfied. */
  ghost predicate WaitsOK(g: Gpu) {
    && g.callerDone <= |g.caller| && g.copyDone <= |g.copies|
    && (forall w :: 0 <= w < g.callerDone && g.caller[w].AwaitCopy? ==> g.caller[w].pos <= g.copyDone)
    && (forall w :: 0 <= w < g.copyDone && g.copies[w].AwaitCaller? ==> g.copies[w].pos <= g.callerDone)
  }

  /** Waits name positions that existed when they were queued, so the two streams never wait in a circle. */
  ghost predicate AcyclicOK(g: Gpu) {
    && (forall w :: 0 <= w < |g.caller| && g.caller[w].AwaitCopy? ==> g.caller[w].pos <= |g.copies|)
    && (forall i :: 0 <= i < |g.copies| && g.copies[i].AwaitCaller? ==> g.copies[i].pos <= |g.caller|)
    && (forall w, i :: 0 <= w < |g.caller| && g.caller[w].AwaitCopy? && 0 <= i < g.caller[w].pos && i < |g.copies| && g.copies[i].AwaitCaller? ==>
          g.copies[i].pos <= w)
  }

  /** The newest executed copy of a slot and name still stands at the start of its buffer. */
  ghost predicate Newest(g: Gpu, i: nat) {
    && i < g.copyDone <= |g.copies| && g.copies[i].Copy?
    && forall j :: i < j < g.copyDone && g.copies[j].Copy? ==> !(g.copies[j].slot == g.copies[i].slot && g.copies[j].name == g.copies[i].name)
  }

  predicate Stands(g: Gpu, slot: nat, name: nat, data: seq<Record>) {
    slot < |g.buf| && name < |g.buf[slot]| && data <= g.buf[slot][name]
  }

  ghost predicate BuffersOK(g: Gpu) {
    forall i :: 0 <= i < |g.copies| && Newest(g, i) ==> Stands(g, g.copies[i].slot, g.copies[i].name, g.copies[i].data)
  }

  /** Every queued copy fits its slot. */
  ghost predicate FitsOK(g: Gpu, names: nat, capacity: nat) {
    && |g.buf| == 2 && (forall s :: 0 <= s < 2 ==> |g.buf[s]| == names && forall n :: 0 <= n < names ==> |g.buf[s][n]| == capacity)
    && (forall i :: 0 <= i < |g.copies| && g.copies[i].Copy? ==>
          g.copies[i].slot < 2 && g.copies[i].name < names && |g.copies[i].data| <= capacity)
  }

  /** The executed suffix write at position `c` of the caller stream is the last one on cell `j`, and its slot has no later load's copy. */
  ghost predicate LastOn(g: Gpu, c: nat, j: nat) {
    && c < g.callerDone <= |g.caller| && g.copyDone <= |g.copies| && g.caller[c].Suffix?
    && var op := g.caller[c];
      && op.at <= j < op.at + |op.data|
      && (forall d :: c < d < g.callerDone ==> !Covers(g.caller[d], op.slot, op.name, j))
      && (forall i :: 0 <= i < g.copyDone && g.copies[i].Copy? && g.copies[i].slot == op.slot ==> g.copies[i].load <= op.load)
  }

  predicate Covers(op: Op, slot: nat, name: nat, j: nat) {
    op.Suffix? && op.slot == slot && op.name == name && op.at <= j < op.at + |op.data|
  }

  predicate CellIs(g: Gpu, slot: nat, name: nat, j: nat, r: Record) {
    slot < |g.buf| && name < |g.buf[slot]| && j < |g.buf[slot][name]| && g.buf[slot][name][j] == r
  }

  /** What the last suffix write on a cell put there still stands, until a later load is copied over it. */
  ghost predicate SuffixesOK(g: Gpu, capacity: nat) {
    forall c: nat, j: nat :: LastOn(g, c, j) && j < capacity ==>
      CellIs(g, g.caller[c].slot, g.caller[c].name, j, g.caller[c].data[j - g.caller[c].at])
  }

  ghost predicate Sound(g: Gpu, loads: seq<Load>, names: nat, capacity: nat) {
    && CopiesOK(g, loads) && CallersOK(g, loads) && WaitsOK(g) && AcyclicOK(g) && BuffersOK(g) && FitsOK(g, names, capacity)
    && SuffixesOK(g, capacity)
  }

  // ----- race freedom

  /** No copy overwrites a slot while an earlier consumer of it is unexecuted. */
  lemma CopySparesConsumers(g: Gpu, loads: seq<Load>, names: nat, capacity: nat, c: nat)
    requires Sound(g, loads, names, capacity) && CopyEnabled(g) && g.copies[g.copyDone].Copy?
    requires g.callerDone <= c < |g.caller| && (g.caller[c].Use? || g.caller[c].Suffix?)
    requires g.caller[c].slot == g.copies[g.copyDone].slot
    ensures g.caller[c].load >= g.copies[g.copyDone].load
  {
    var op := g.copies[g.copyDone];
    assert CopyOf(loads, g.copyDone, op);
    assert LoadQueued(g, loads[op.load]);
    assert ConsumerOK(g, loads, c, g.caller[c]);
  }

  /** When a consumer runs, every copy of its load has run and no later load has touched the slot. */
  lemma ConsumerSeesLoad(g: Gpu, loads: seq<Load>, c: nat, n: nat)
    requires CopiesOK(g, loads) && CallersOK(g, loads) && WaitsOK(g)
    requires c == g.callerDone < |g.caller| && (g.caller[c].Use? || g.caller[c].Suffix?)
    requires g.caller[c].load < |loads| && n < |loads[g.caller[c].load].sources|
    ensures var d := loads[g.caller[c].load]; Newest(g, d.first + n) && g.copies[d.first + n] == Copy(d.slot,
          g.caller[c].load, n, d.sources[n])
  {
    var op := g.caller[c];
    var d := loads[op.load];
    assert ConsumerOK(g, loads, c, op);
    assert CopyAt(g, loads, op.load, n);
    assert ReadyPos(d) <= g.copyDone;
    forall j | d.first + n < j < g.copyDone && g.copies[j].Copy? && g.copies[j].slot == d.slot
      ensures g.copies[j].name != n
    {
      LaterCopyDiffers(g, loads, c, j);
    }
  }

  /** An executed copy on the consumer's slot belongs to the consumer's load or to an earlier one. */
  lemma LaterCopyDiffers(g: Gpu, loads: seq<Load>, c: nat, j: nat)
    requires CopiesOK(g, loads) && CallersOK(g, loads) && WaitsOK(g)
    requires c == g.callerDone < |g.caller| && (g.caller[c].Use? || g.caller[c].Suffix?)
    requires j < g.copyDone && g.copies[j].Copy? && g.copies[j].slot == g.caller[c].slot
    ensures g.copies[j].load < |loads| && g.caller[c].load < |loads| && g.copies[j].load <= g.caller[c].load
    ensures j == loads[g.copies[j].load].first + g.copies[j].name
    ensures g.copies[j].load < g.caller[c].load ==> j < loads[g.caller[c].load].first
  {
    var e := g.copies[j];
    assert CopyOf(loads, j, e);
    assert LoadQueued(g, loads[e.load]);
    assert ConsumerOK(g, loads, c, g.caller[c]);
    assert g.copies[loads[e.load].first - 1].AwaitCaller?;
  }

  /** A consumer reads exactly the sources its own load was given. */
  lemma ConsumerReadsSources(g: Gpu, loads: seq<Load>, names: nat, capacity: nat, n: nat)
    requires Sound(g, loads, names, capacity) && CallerEnabled(g) && g.caller[g.callerDone].Use?
    requires g.caller[g.callerDone].load < |loads| && n < |loads[g.caller[g.callerDone].load].sources|
    ensures var op := g.caller[g.callerDone]; Stands(g, op.slot, n, loads[op.load].sources[n])
  {
    ConsumerSeesLoad(g, loads, g.callerDone, n);
    assert ConsumerOK(g, loads, g.callerDone, g.caller[g.callerDone]);
  }

  /** Cell `j` of a consumer's buffer: a suffix write of its own load put `r` there, and none after it has touched the cell. */
  ghost predicate WroteLast(g: Gpu, c: nat, j: nat, r: Record) {
    && c < g.callerDone < |g.caller| && g.caller[g.callerDone].Use? && g.caller[c].Suffix? && g.caller[c].load == g.caller[g.callerDone].load
    && Covers(g.caller[c], g.caller[c].slot, g.caller[c].name, j) && r == g.caller[c].data[j - g.caller[c].at]
    && forall d :: c < d < g.callerDone ==> !Covers(g.caller[d], g.caller[c].slot, g.caller[c].name, j)
  }

  /** A consumer queued behind a suffix write of its load reads what was written, where it was written. */
  lemma ConsumerReadsSuffix(g: Gpu, loads: seq<Load>, names: nat, capacity: nat, c: nat, j: nat, r: Record)
    requires Sound(g, loads, names, capacity) && CallerEnabled(g) && g.caller[g.callerDone].Use? && WroteLast(g, c, j, r) && j < capacity
    ensures g.caller[c].slot == g.caller[g.callerDone].slot && CellIs(g, g.caller[c].slot, g.caller[c].name, j, r)
  {
    var op := g.caller[c];
    assert ConsumerOK(g, loads, g.callerDone, g.caller[g.callerDone]);
    assert ConsumerOK(g, loads, c, op);
    forall i | 0 <= i < g.copyDone && g.copies[i].Copy? && g.copies[i].slot == op.slot ensures g.copies[i].load <= op.load {
      LaterCopyDiffers(g, loads, g.callerDone, i);
    }
    assert LastOn(g, c, j);
  }

  /** Once a suffix write has run, only later loads are still copied to its slot. */
  lemma SuffixCopied(g: Gpu, loads: seq<Load>, c: nat)
    requires CopiesOK(g, loads) && CallersOK(g, loads) && WaitsOK(g) && CopyEnabled(g) && g.copies[g.copyDone].Copy?
    requires c < g.callerDone && g.caller[c].Suffix? && g.caller[c].slot == g.copies[g.copyDone].slot
    ensures g.copies[g.copyDone].load > g.caller[c].load
  {
    var op, e := g.caller[c], g.copies[g.copyDone];
    assert ConsumerOK(g, loads, c, op);
    assert CopyOf(loads, g.copyDone, e);
    assert ReadyPos(loads[op.load]) <= g.copyDone;
  }

  lemma CopyKeepsSuffixes(g: Gpu, loads: seq<Load>, capacity: nat)
    requires CopiesOK(g, loads) && CallersOK(g, loads) && WaitsOK(g) && CopyEnabled(g) && SuffixesOK(g, capacity)
    ensures SuffixesOK(ExecCopy(g), capacity)
  {
    var r, e := ExecCopy(g), g.copies[g.copyDone];
    forall c: nat, j: nat | LastOn(r, c, j) && j < capacity
      ensures CellIs(r, r.caller[c].slot, r.caller[c].name, j, r.caller[c].data[j - r.caller[c].at])
    {
      assert LastOn(g, c, j);
      if e.Copy? && e.slot == g.caller[c].slot {
        SuffixCopied(g, loads, c);
      }
    }
  }

  /** A complete load's names and slot lie inside the storage. */
  lemma LoadFits(g: Gpu, loads: seq<Load>, names: nat, capacity: nat, k: nat, n: nat)
    requires CopiesOK(g, loads) && FitsOK(g, names, capacity) && k < |loads| && Complete(loads[k]) && n < |loads[k].sources|
    ensures loads[k].slot < 2 && n < names
  {
    assert CopyAt(g, loads, k, n);
  }

  lemma CallerKeepsSuffixes(g: Gpu, loads: seq<Load>, names: nat, capacity: nat)
    requires CopiesOK(g, loads) && CallersOK(g, loads) && WaitsOK(g) && CallerEnabled(g) && SuffixesOK(g, capacity)
    requires FitsOK(g, names, capacity)
    ensures SuffixesOK(ExecCaller(g), capacity)
  {
    var r, op := ExecCaller(g), g.caller[g.callerDone];
    if op.Suffix? {
      assert ConsumerOK(g, loads, g.callerDone, op);
      LoadFits(g, loads, names, capacity, op.load, op.name);
    }
    hide CopiesOK, CallersOK;
    forall c: nat, j: nat | LastOn(r, c, j) && j < capacity
      ensures CellIs(r, r.caller[c].slot, r.caller[c].name, j, r.caller[c].data[j - r.caller[c].at])
    {
      if c < g.callerDone {
        assert LastOn(g, c, j);
        assert !Covers(r.caller[g.callerDone], r.caller[c].slot, r.caller[c].name, j);
      }
    }
  }

  lemma Executed(g: Gpu)
    requires WaitsOK(g)
    ensures g.callerDone <= |g.caller| && g.copyDone <= |g.copies|
  {
  }

  /** Queueing executes nothing. */
  lemma SuffixesFrame(g: Gpu, r: Gpu, capacity: nat)
    requires SuffixesOK(g, capacity) && r.callerDone == g.callerDone && r.copyDone == g.copyDone && r.buf == g.buf
    requires g.callerDone <= |g.caller| && g.copyDone <= |g.copies| && g.caller <= r.caller && g.copies <= r.copies
    ensures SuffixesOK(r, capacity)
  {
    forall c: nat, j: nat | LastOn(r, c, j) && j < capacity
      ensures CellIs(r, r.caller[c].slot, r.caller[c].name, j, r.caller[c].data[j - r.caller[c].at])
    {
      assert forall d :: 0 <= d < g.callerDone ==> r.caller[d] == g.caller[d];
      assert forall i :: 0 <= i < g.copyDone ==> r.copies[i] == g.copies[i];
      assert LastOn(g, c, j);
    }
  }

  // ----- every step keeps the protocol

  lemma ExecCopySound(g: Gpu, loads: seq<Load>, names: nat, capacity: nat)
    requires Sound(g, loads, names, capacity) && CopyEnabled(g)
    ensures Sound(ExecCopy(g), loads, names, capacity)
  {
    var r := ExecCopy(g);
    CopiesFrame(g, r, loads);
    CopyKeepsSuffixes(g, loads, capacity);
    hide SuffixesOK;
    assert FitsOK(r, names, capacity);
    forall i | 0 <= i < |r.copies| && Newest(r, i) ensures Stands(r, r.copies[i].slot, r.copies[i].name, r.copies[i].data) {
      if i < g.copyDone {
        assert Newest(g, i);
      }
    }
  }

  lemma CopiesFrame(g: Gpu, r: Gpu, loads: seq<Load>)
    requires CopiesOK(g, loads) && CallersOK(g, loads) && r.caller == g.caller && r.copies == g.copies
    ensures CopiesOK(r, loads) && CallersOK(r, loads)
  {
    assert forall k, n :: CopyAt(g, loads, k, n) == CopyAt(r, loads, k, n);
    forall c | 0 <= c < |r.caller| && (r.caller[c].Use? || r.caller[c].Suffix?) ensures ConsumerOK(r, loads, c, r.caller[c]) {
      assert ConsumerOK(g, loads, c, g.caller[c]);
    }
  }

  lemma ExecCallerSound(g: Gpu, loads: seq<Load>, names: nat, capacity: nat)
    requires Sound(g, loads, names, capacity) && CallerEnabled(g)
    ensures Sound(ExecCaller(g), loads, names, capacity)
  {
    var r, op := ExecCaller(g), g.caller[g.callerDone];
    CopiesFrame(g, r, loads);
    CallerKeepsSuffixes(g, loads, names, capacity);
    hide SuffixesOK;
    assert FitsOK(r, names, capacity);
    forall i | 0 <= i < |r.copies| && Newest(r, i) ensures Stands(r, r.copies[i].slot, r.copies[i].name, r.copies[i].data) {
      assert Newest(g, i);
      if op.Suffix? && op.slot == r.copies[i].slot && op.name == r.copies[i].name {
        SuffixKeepsPrefix(g, loads, i);
      }
    }
  }

  /** A suffix write lands behind the records its own load copied. */
  lemma SuffixKeepsPrefix(g: Gpu, loads: seq<Load>, i: nat)
    requires CopiesOK(g, loads) && CallersOK(g, loads) && WaitsOK(g) && CallerEnabled(g) && Newest(g, i)
    requires var op := g.caller[g.callerDone]; op.Suffix? && op.slot == g.copies[i].slot && op.name == g.copies[i].name
    ensures |g.copies[i].data| <= g.caller[g.callerDone].at
  {
    var op := g.caller[g.callerDone];
    assert ConsumerOK(g, loads, g.callerDone, op);
    ConsumerSeesLoad(g, loads, g.callerDone, op.name);
    var d := loads[op.load];
    assert Newest(g, d.first + op.name);
  }

  // ----- progress

  predicate Drained(g: Gpu) {
    g.callerDone == |g.caller| && g.copyDone == |g.copies|
  }

  /** As long as anything is queued, the head of one stream may run. */
  lemma NeverStuck(g: Gpu)
    requires WaitsOK(g) && AcyclicOK(g) && !Drained(g)
    ensures CallerEnabled(g) || CopyEnabled(g)
  {
    if !CopyEnabled(g) && g.copyDone < |g.copies| && g.callerDone < |g.caller| && g.caller[g.callerDone].AwaitCopy? {
      assert g.copies[g.copyDone].AwaitCaller?;
    }
  }

  // ----- queueing

  predicate Consumer(op: Op) { op.Use? || op.Suffix? }

  function PushCaller(g: Gpu, op: Op): Gpu { g.(caller := g.caller + [op]) }

  function PushCopy(g: Gpu, op: Op): Gpu { g.(copies := g.copies + [op]) }

  /** Load `k` is the last one on its slot, complete, and the caller stream already waits for it. */
  ghost predicate Readied(g: Gpu, loads: seq<Load>, k: nat) {
    && k < |loads| && Complete(loads[k]) && AwaitCopy(ReadyPos(loads[k])) in g.caller
    && forall j :: k < j < |loads| ==> loads[j].slot != loads[k].slot
  }

  lemma PushCallerFrame(g: Gpu, op: Op, loads: seq<Load>, names: nat, capacity: nat)
    requires Sound(g, loads, names, capacity)
    ensures var r := PushCaller(g, op); CopiesOK(r, loads) && BuffersOK(r) && FitsOK(r, names, capacity)
  {
    var r := PushCaller(g, op);
    forall k | 0 <= k < |loads| ensures LoadQueued(r, loads[k]) {
      assert LoadQueued(g, loads[k]);
    }
    assert forall k, n :: CopyAt(g, loads, k, n) == CopyAt(r, loads, k, n);
    assert forall i | 0 <= i < |r.copies| :: Newest(r, i) == Newest(g, i);
  }

  lemma PushCallerOrder(g: Gpu, op: Op, loads: seq<Load>)
    requires CallersOK(g, loads) && WaitsOK(g) && AcyclicOK(g)
    requires op.AwaitCopy? ==> op.pos <= |g.copies|
    requires Consumer(op) ==> Readied(g, loads, op.load) && op.slot == loads[op.load].slot
    requires op.Suffix? ==> op.name < |loads[op.load].sources| && |loads[op.load].sources[op.name]| <= op.at
    requires !op.Copy?
    ensures var r := PushCaller(g, op); CallersOK(r, loads) && WaitsOK(r) && AcyclicOK(r)
  {
    var r := PushCaller(g, op);
    forall c | 0 <= c < |r.caller| && Consumer(r.caller[c]) ensures ConsumerOK(r, loads, c, r.caller[c]) {
      if c < |g.caller| {
        assert ConsumerOK(g, loads, c, g.caller[c]);
        var w :| 0 <= w < c && w < |g.caller| && g.caller[w] == AwaitCopy(ReadyPos(loads[g.caller[c].load]));
        assert r.caller[w] == g.caller[w];
      } else {
        var w :| 0 <= w < |g.caller| && g.caller[w] == AwaitCopy(ReadyPos(loads[op.load]));
        assert r.caller[w] == g.caller[w];
      }
    }
  }

  /** Queueing a wait for a recorded copy position, or a consumer of a load that was waited for, keeps the protocol. */
  lemma PushCallerSound(g: Gpu, op: Op, loads: seq<Load>, names: nat, capacity: nat)
    requires Sound(g, loads, names, capacity) && !op.Copy?
    requires op.AwaitCopy? ==> op.pos <= |g.copies|
    requires Consumer(op) ==> Readied(g, loads, op.load) && op.slot == loads[op.load].slot
    requires op.Suffix? ==> op.name < |loads[op.load].sources| && |loads[op.load].sources[op.name]| <= op.at
    ensures Sound(PushCaller(g, op), loads, names, capacity)
  {
    PushCallerFrame(g, op, loads, names, capacity);
    PushCallerOrder(g, op, loads);
    SuffixesFrame(g, PushCaller(g, op), capacity);
  }

  /** The copy stream waits for everything the caller has queued so far; no record has been copied yet. */
  function StartLoad(g: Gpu, slot: nat, sources: seq<seq<Record>>): (Gpu, Load) {
    (PushCopy(g, AwaitCaller(|g.caller|)), Load(slot, sources, |g.caller|, |g.copies| + 1, 0))
  }

  predicate Fits(op: Op, names: nat, capacity: nat) {
    op.Copy? ==> op.slot < 2 && op.name < names && |op.data| <= capacity
  }

  lemma PushCopyFrame(g: Gpu, op: Op, names: nat, capacity: nat)
    requires WaitsOK(g) && AcyclicOK(g) && BuffersOK(g) && FitsOK(g, names, capacity)
    requires Fits(op, names, capacity) && (op.AwaitCaller? ==> op.pos == |g.caller|)
    ensures var r := PushCopy(g, op); WaitsOK(r) && AcyclicOK(r) && BuffersOK(r) && FitsOK(r, names, capacity)
  {
    var r := PushCopy(g, op);
    forall i | 0 <= i < |r.copies| && Newest(r, i) ensures Stands(r, r.copies[i].slot, r.copies[i].name, r.copies[i].data) {
      NewestFrame(g, op, i);
    }
  }

  lemma NewestFrame(g: Gpu, op: Op, i: nat)
    requires g.copyDone <= |g.copies| && Newest(PushCopy(g, op), i)
    ensures Newest(g, i)
  {
    var r := PushCopy(g, op);
    forall j | i < j < g.copyDone && g.copies[j].Copy?
      ensures !(g.copies[j].slot == g.copies[i].slot && g.copies[j].name == g.copies[i].name)
    {
      assert r.copies[j] == g.copies[j];
    }
  }

  /** Loads may be added, and the newest may advance, without disturbing the consumers already queued. */
  lemma ConsumersFrame(g: Gpu, r: Gpu, loads: seq<Load>, all: seq<Load>)
    requires CallersOK(g, loads) && r.caller == g.caller && |all| >= |loads|
    requires forall k :: 0 <= k < |loads| ==> all[k] == loads[k] || (!Complete(loads[k]) && all[k] == loads[k].(enq := all[k].enq))
    requires forall k :: |loads| <= k < |all| ==> all[k].callerPos == |g.caller|
    ensures CallersOK(r, all)
  {
    forall c | 0 <= c < |r.caller| && Consumer(r.caller[c]) ensures ConsumerOK(r, all, c, r.caller[c]) {
      assert ConsumerOK(g, loads, c, g.caller[c]);
    }
  }

  lemma StartLoadSound(g: Gpu, loads: seq<Load>, slot: nat, sources: seq<seq<Record>>, names: nat, capacity: nat)
    requires Sound(g, loads, names, capacity)
    ensures var (r, d) := StartLoad(g, slot, sources); Sound(r, loads + [d], names, capacity)
  {
    hide CopiesOK, CallersOK, WaitsOK, AcyclicOK, BuffersOK, FitsOK, SuffixesOK;
    var (r, d) := StartLoad(g, slot, sources);
    StartLoadCopies(g, loads, slot, sources);
    PushCopyFrame(g, AwaitCaller(|g.caller|), names, capacity);
    SuffixesFrame(g, r, capacity) by { Executed(g); }
    ConsumersFrame(g, r, loads, loads + [d]);
  }

  lemma StartLoadCopies(g: Gpu, loads: seq<Load>, slot: nat, sources: seq<seq<Record>>)
    requires CopiesOK(g, loads)
    ensures var (r, d) := StartLoad(g, slot, sources); CopiesOK(r, loads + [d])
  {
    var (r, d) := StartLoad(g, slot, sources);
    var all := loads + [d];
    forall k | 0 <= k < |all| ensures LoadQueued(r, all[k]) {
      if k < |loads| { assert LoadQueued(g, loads[k]); }
    }
    forall i | 0 <= i < |r.copies| && r.copies[i].Copy? ensures CopyOf(all, i, r.copies[i]) {
      assert CopyOf(loads, i, g.copies[i]);
    }
    forall k, n | 0 <= k < |all| && 0 <= n < all[k].enq ensures CopyAt(r, all, k, n) {
      assert CopyAt(g, loads, k, n);
    }
    forall j, k | 0 <= j < k < |all|
      ensures all[j].first + all[j].enq < all[k].first && all[j].callerPos <= all[k].callerPos
    {
      assert LoadQueued(g, loads[j]);
    }
  }

  /** The newest load is still queueing: its next copy would be the next operation of the copy stream. */
  ghost predicate Loading(g: Gpu, loads: seq<Load>) {
    |loads| > 0 && loads[|loads| - 1].first + loads[|loads| - 1].enq == |g.copies| && !Complete(loads[|loads| - 1])
  }

  function NextCopy(loads: seq<Load>): Op
    requires |loads| > 0 && loads[|loads| - 1].enq < |loads[|loads| - 1].sources|
  {
    var d := loads[|loads| - 1];
    Copy(d.slot, |loads| - 1, d.enq, d.sources[d.enq])
  }

  function Advance(loads: seq<Load>): (r: seq<Load>)
    requires |loads| > 0
    ensures |r| == |loads|
  {
    var k := |loads| - 1;
    loads[k := loads[k].(enq := loads[k].enq + 1)]
  }

  lemma AddCopyCopies(g: Gpu, loads: seq<Load>)
    requires CopiesOK(g, loads) && Loading(g, loads)
    ensures loads[|loads| - 1].enq < |loads[|loads| - 1].sources|
    ensures CopiesOK(PushCopy(g, NextCopy(loads)), Advance(loads))
  {
    var k := |loads| - 1;
    assert LoadQueued(g, loads[k]);
    var r, all := PushCopy(g, NextCopy(loads)), Advance(loads);
    forall j | 0 <= j < |all| ensures LoadQueued(r, all[j]) {
      assert LoadQueued(g, loads[j]);
    }
    forall i | 0 <= i < |r.copies| && r.copies[i].Copy? ensures CopyOf(all, i, r.copies[i]) {
      if i < |g.copies| { assert CopyOf(loads, i, g.copies[i]); }
    }
    forall j, n | 0 <= j < |all| && 0 <= n < all[j].enq ensures CopyAt(r, all, j, n) {
      if j < k || n < loads[k].enq { assert CopyAt(g, loads, j, n); }
    }
  }

  lemma AddCopySound(g: Gpu, loads: seq<Load>, names: nat, capacity: nat)
    requires Sound(g, loads, names, capacity) && Loading(g, loads)
    requires loads[|loads| - 1].slot < 2 && |loads[|loads| - 1].sources| == names
    requires forall source <- loads[|loads| - 1].sources :: |source| <= capacity
    ensures loads[|loads| - 1].enq < names
    ensures Sound(PushCopy(g, NextCopy(loads)), Advance(loads), names, capacity)
  {
    hide CallersOK, WaitsOK, AcyclicOK, BuffersOK, FitsOK, CopiesOK, SuffixesOK;
    AddCopyCopies(g, loads);
    PushCopyFrame(g, NextCopy(loads), names, capacity);
    SuffixesFrame(g, PushCopy(g, NextCopy(loads)), capacity) by { Executed(g); }
    ConsumersFrame(g, PushCopy(g, NextCopy(loads)), loads, Advance(loads));
  }

  // ----- every interleaving

  datatype Tick = CallerTick | CopyTick

  /** One scheduling decision; a stream whose head is blocked does not move. */
  function Advanced(g: Gpu, t: Tick): Gpu {
    match t
    case CallerTick => if CallerEnabled(g) then ExecCaller(g) else g
    case CopyTick => if CopyEnabled(g) then ExecCopy(g) else g
  }

  function Schedule(g: Gpu, ticks: seq<Tick>): Gpu
    decreases |ticks|
  {
    if ticks == [] then g else Schedule(Advanced(g, ticks[0]), ticks[1..])
  }

  /** Whatever the interleaving, the protocol holds throughout, and a consumer reached by it is about to read its own sources. */
  lemma {:induction false} ScheduleReadsSources(g: Gpu, loads: seq<Load>, names: nat, capacity: nat, ticks: seq<Tick>, n: nat)
    requires Sound(g, loads, names, capacity) && n < names
    requires forall d <- loads :: |d.sources| == names
    ensures var r := Schedule(g, ticks);
      && Sound(r, loads, names, capacity)
      && (CallerEnabled(r) && r.caller[r.callerDone].Use? ==>
            r.caller[r.callerDone].load < |loads| &&
            Stands(r, r.caller[r.callerDone].slot, n, loads[r.caller[r.callerDone].load].sources[n]))
      && (CallerEnabled(r) && r.caller[r.callerDone].Use? ==> forall c: nat, j: nat, x ::
            WroteLast(r, c, j, x) && j < capacity ==> CellIs(r, r.caller[r.callerDone].slot, r.caller[c].name, j, x))
    decreases |ticks|
  {
    if ticks == [] {
      if CallerEnabled(g) && g.caller[g.callerDone].Use? {
        assert ConsumerOK(g, loads, g.callerDone, g.caller[g.callerDone]);
        ConsumerReadsSources(g, loads, names, capacity, n);
        forall c: nat, j: nat, x | WroteLast(g, c, j, x) && j < capacity ensures CellIs(g, g.caller[g.callerDone].slot, g.caller[c].name, j, x) {
          ConsumerReadsSuffix(g, loads, names, capacity, c, j, x);
        }
      }
    } else {
      if ticks[0].CallerTick? && CallerEnabled(g) { ExecCallerSound(g, loads, names, capacity); }
      if ticks[0].CopyTick? && CopyEnabled(g) { ExecCopySound(g, loads, names, capacity); }
      ScheduleReadsSources(Advanced(g, ticks[0]), loads, names, capacity, ticks[1..], n);
    }
  }
}
