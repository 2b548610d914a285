/** The interrupts that all-or-nothing does not survive, each with what it leaves behind. */
module ForwardSlips {
  import opened TokenTypes
  import opened Forward
  import opened ForwardLaw

  /** A clean-up in which nothing goes wrong. */
  function Calm(): Cleanup { Cleanup(false, {}, false, None) }

  /** The pass could run: no step is open, no pool is poisoned, and the batch fits. */
  ghost predicate Healthy(st: State, added: seq<seq<Record>>, count: nat) {
    && Consistent(st) && !Refuses(st, count) && AllAccept(st, count)
    && |added| == |st.layers| > 0 && forall i :: 0 <= i < |added| ==> |added[i]| == count
  }

  /** Layer `i` has grown by its batch. */
  function Grown(l: Layer, added: seq<Record>): Layer {
    l.(records := l.records + added, length := l.length + |added|)
  }

  /** A step nobody will close: every later pass is refused and changes nothing, and the model does not count as poisoned. */
  ghost predicate Jammed(st: State) {
    && !st.poisoned
    && forall added: seq<seq<Record>>, count :: |added| == |st.layers| ==> Pass(st, added, count, NoFault, Calm()) == Outcome(st, false)
  }

  /** One layer is open, those before it would begin, and none of the pools is poisoned. */
  lemma OpenJams(st: State, k: nat)
    requires !st.poisoned && k < |st.layers| && st.layers[k].stepEnd.Some?
    requires forall i :: 0 <= i < k ==> st.layers[i].stepEnd.None? && st.layers[i].length == |st.layers[i].records|
    requires forall i :: 0 <= i < k ==> st.layers[i].pool !in st.pools
    ensures Jammed(st)
  {
    forall added: seq<seq<Record>>, count | |added| == |st.layers| ensures Pass(st, added, count, NoFault, Calm()) == Outcome(st, false) {
      if !Refuses(st, count) { JamOne(st, added, count, k); }
    }
  }

  lemma JamOne(st: State, added: seq<seq<Record>>, count: nat, k: nat)
    requires !Refuses(st, count) && |added| == |st.layers| && k < |st.layers| && st.layers[k].stepEnd.Some?
    requires forall i :: 0 <= i < k ==> st.layers[i].stepEnd.None? && st.layers[i].length == |st.layers[i].records|
    requires forall i :: 0 <= i < k ==> st.layers[i].pool !in st.pools
    ensures Pass(st, added, count, NoFault, Calm()) == Outcome(st, false)
  {
    StartsBefore(st, count, k);
    var n := Started(st, count, NoFault, 0);
    var e := st.(layers := OpenFirst(st.layers, n, count));
    assert Attempt(st, added, count, NoFault) == Raised(e, n);
    UndoVisits(e.layers, e.pools, {}, n);
    UndoErrors(e.layers, e.pools, {}, n);
    hide Undo, Started;
    var u := Undo(e.layers, e.pools, {}, n);
    assert !u.errors;
    forall i | 0 <= i < |st.layers| ensures u.layers[i] == st.layers[i] {}
    assert u.layers == st.layers;
  }

  lemma StartsBefore(st: State, count: nat, k: nat)
    requires k < |st.layers| && st.layers[k].stepEnd.Some?
    ensures Started(st, count, NoFault, 0) <= k
  {
    var n := Started(st, count, NoFault, 0);
    assert n > k ==> Starts(st, count, NoFault, k);
  }

  /** After a layer's step has begun and before it is recorded: the clean-up never visits it. */
  lemma BeginSlipJams(st: State, added: seq<seq<Record>>, count: nat, k: nat)
    requires Healthy(st, added, count) && k < |st.layers|
    ensures Lost(st, count, BeginSlips(k), Calm())
    ensures var r := Pass(st, added, count, BeginSlips(k), Calm());
      !r.ok && Jammed(r.st) && r.st == st.(layers := st.layers[k := Open(st.layers[k], count)])
  {
    var fault := BeginSlips(k);
    assert Slips(st, count, fault);
    SlipsStart(st, count, fault);
    var e := EarlyState(st, count, fault);
    FoundEarly(st, added, count, fault);
    UndoVisits(e.layers, e.pools, {}, k);
    UndoErrors(e.layers, e.pools, {}, k);
    var u := Undo(e.layers, e.pools, {}, k);
    var r := Pass(st, added, count, fault, Calm());
    assert Accepts(st, count, k);
    forall i | 0 <= i < |st.layers| ensures Idle(st.layers[i], st.length) && st.layers[i].pool !in st.pools { assert Accepts(st, count, i); }
    hide Undo, Started, Slips;
    assert !u.errors;
    var all := st.layers[k := Open(st.layers[k], count)];
    forall i | 0 <= i < |st.layers| ensures u.layers[i] == all[i] {
      assert e.layers[i] == if i <= k then Open(st.layers[i], count) else st.layers[i];
    }
    assert u.layers == all;
    OpenJams(r.st, k);
    hide Jammed;
    NoResist(st, count, fault);
  }

  lemma NoResist(st: State, count: nat, fault: Fault)
    requires !fault.BodyFails? && !fault.DrainFails?
    ensures !SomeResist(st, count, fault, Calm())
  {
  }

  /** After `k` of the layers have committed: they keep the batch, the others and the model's length do not. */
  lemma CommitSlipTears(st: State, added: seq<seq<Record>>, count: nat, k: nat)
    requires Healthy(st, added, count) && 0 < k <= |st.layers|
    ensures Lost(st, count, CommitSlips(k), Calm())
    ensures var r := Pass(st, added, count, CommitSlips(k), Calm());
      && !r.ok && !r.st.poisoned && r.st.length == st.length && |r.st.layers| == |st.layers|
      && forall i :: 0 <= i < |st.layers| ==> r.st.layers[i] == if i < k then Grown(st.layers[i], added[i]) else st.layers[i]
  {
    CommitTears(st, added, count, CommitSlips(k), k);
  }

  /** Between the two assignments of a commit: the half-committed layer keeps the batch too. */
  lemma HalfCommitTears(st: State, added: seq<seq<Record>>, count: nat, k: nat)
    requires Healthy(st, added, count) && k < |st.layers|
    ensures Lost(st, count, HalfCommits(k), Calm())
    ensures var r := Pass(st, added, count, HalfCommits(k), Calm());
      && !r.ok && !r.st.poisoned && r.st.length == st.length && |r.st.layers| == |st.layers|
      && forall i :: 0 <= i < |st.layers| ==> r.st.layers[i] == if i <= k then Grown(st.layers[i], added[i]) else st.layers[i]
  {
    CommitTears(st, added, count, HalfCommits(k), k + 1);
  }

  lemma CommitTears(st: State, added: seq<seq<Record>>, count: nat, fault: Fault, grown: nat)
    requires Healthy(st, added, count) && Slips(st, count, fault)
    requires fault == CommitSlips(grown) || (grown > 0 && fault == HalfCommits(grown - 1))
    ensures Lost(st, count, fault, Calm())
    ensures var r := Pass(st, added, count, fault, Calm());
      && !r.ok && !r.st.poisoned && r.st.length == st.length && |r.st.layers| == |st.layers|
      && forall i :: 0 <= i < |st.layers| ==> r.st.layers[i] == if i < grown then Grown(st.layers[i], added[i]) else st.layers[i]
  {
    SlipsStart(st, count, fault);
    var e := TornEntry(st, added, count, fault, grown);
    hide Attempt, Started, Slips, Commits;
    UndoVisits(e.layers, e.pools, {}, |st.layers|);
    UndoErrors(e.layers, e.pools, {}, |st.layers|);
    hide Undo;
    assert !Undo(e.layers, e.pools, {}, |st.layers|).errors;
    NoResist(st, count, fault);
  }

  /** What the handler finds after commits that an interrupt stopped. */
  lemma TornEntry(st: State, added: seq<seq<Record>>, count: nat, fault: Fault, grown: nat) returns (e: State)
    requires Healthy(st, added, count) && Slips(st, count, fault) && Started(st, count, fault, 0) == |st.layers|
    requires fault == CommitSlips(grown) || (grown > 0 && fault == HalfCommits(grown - 1))
    ensures Attempt(st, added, count, fault) == Raised(e, |st.layers|)
    ensures e == st.(layers := e.layers) && |e.layers| == |st.layers|
    ensures forall i :: 0 <= i < |st.layers| ==>
      && e.layers[i].pool !in e.pools
      && (if e.layers[i].stepEnd.Some? then RolledBack(e.layers[i]) else e.layers[i])
         == (if i < grown then Grown(st.layers[i], added[i]) else st.layers[i])
  {
    FoundBody(st, added, count, fault);
    var ls := Bodied(OpenFirst(st.layers, Begun(st, count, fault), count), added, fault);
    forall i | 0 <= i < |ls| ensures Idle(st.layers[i], st.length) && ls[i].pool !in st.pools { assert Accepts(st, count, i); }
    CommitLayers(ls, st.pools, fault);
    e := st.(layers := AfterCommits(ls, st.pools, fault));
    assert Attempt(st, added, count, fault) == CommitAttempt(st.(layers := ls), count, fault);
    hide Attempt, Started, AfterCommits, PoolsAfterCommits, Committed, Bodied, Begun, AllAccept;
  }

  /** After the length update: the pass raises although everything has been committed. */
  lemma UpdateSlipKeeps(st: State, added: seq<seq<Record>>, count: nat)
    requires Healthy(st, added, count)
    ensures Lost(st, count, UpdateSlips, Calm())
    ensures var r := Pass(st, added, count, UpdateSlips, Calm()); !r.ok && Success(st, r.st, added, count)
  {
    SlipsStart(st, count, UpdateSlips);
    FoundBody(st, added, count, UpdateSlips);
    var ls := Bodied(OpenFirst(st.layers, Begun(st, count, UpdateSlips), count), added, UpdateSlips);
    CommitLayers(ls, st.pools, UpdateSlips);
    var e := st.(layers := AfterCommits(ls, st.pools, UpdateSlips), length := st.length + count);
    assert Attempt(st, added, count, UpdateSlips) == Raised(e, |ls|);
    forall i | 0 <= i < |ls| ensures Idle(st.layers[i], st.length) { assert Accepts(st, count, i); }
    hide Attempt, Started, Slips, AfterCommits, Bodied, Begun;
    UndoVisits(e.layers, e.pools, {}, |ls|);
    UndoErrors(e.layers, e.pools, {}, |ls|);
    hide Undo;
    var u := Undo(e.layers, e.pools, {}, |ls|);
    assert !u.errors;
    assert u.layers == e.layers;
    NoResist(st, count, UpdateSlips);
  }

  /** Before the clean-up or between two rollbacks: the remaining steps stay open and the model is not poisoned. */
  lemma CutCleanupJams(st: State, added: seq<seq<Record>>, count: nat, j: nat)
    requires Healthy(st, added, count) && j < |st.layers|
    ensures Lost(st, count, SynchronizeFails, Cleanup(false, {}, false, Some(j)))
    ensures var r := Pass(st, added, count, SynchronizeFails, Cleanup(false, {}, false, Some(j)));
      && !r.ok && Jammed(r.st) && r.st.length == st.length && |r.st.layers| == |st.layers|
      && forall i :: 0 <= i < |st.layers| ==> if i < j then r.st.layers[i] == st.layers[i] else Undoable(st.layers[i], r.st.layers[i])
  {
    var fault, cleanup := SynchronizeFails, Cleanup(false, {}, false, Some(j));
    forall i | 0 <= i < |st.layers| ensures Starts(st, count, fault, i) { assert Accepts(st, count, i); }
    StartedIs(st, count, fault, 0, |st.layers|);
    FoundBody(st, added, count, fault);
    EnteredBody(st, added, count, fault);
    var e := BodyState(st, added, count, fault);
    forall i | 0 <= i < |st.layers| ensures Idle(st.layers[i], st.length) && st.layers[i].pool !in st.pools { assert Accepts(st, count, i); }
    assert Pending(st, count, fault, j);
    hide Attempt, Started, Slips, Bodied, Begun, Entered;
    UndoVisits(e.layers, e.pools, {}, j);
    UndoErrors(e.layers, e.pools, {}, j);
    hide Undo;
    var r := Pass(st, added, count, fault, cleanup);
    assert !Undo(e.layers, e.pools, {}, j).errors;
    OpenJams(r.st, j);
    hide Jammed;
  }
}
