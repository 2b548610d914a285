/** All or nothing: exactly which raised passes are neither undone nor reported by poisoning the model. */
module ForwardLaw {
  import opened TokenTypes
  import opened Forward

  // ----- the handler's loop

  predicate Stuck(ls: seq<Layer>, pools: set<nat>, fails: set<nat>, i: nat)
    requires i < |ls|
  {
    ls[i].stepEnd.Some? && (ls[i].pool in pools || i in fails)
  }

  /** What visiting the first `n` layers does to them. */
  ghost predicate Visited(ls: seq<Layer>, pools: set<nat>, fails: set<nat>, n: nat, u: Undone) {
    && |u.layers| == |ls| && n <= |ls|
    && (forall i :: 0 <= i < n && ls[i].stepEnd.None? ==> u.layers[i] == ls[i])
    && (forall i :: 0 <= i < n && ls[i].stepEnd.Some? ==> u.layers[i] == ls[i] || u.layers[i] == RolledBack(ls[i]))
    && (!u.errors ==> forall i :: 0 <= i < n && ls[i].stepEnd.Some? ==> u.layers[i] == RolledBack(ls[i]))
    && (u.errors ==> exists i :: 0 <= i < n && ls[i].stepEnd.Some? && u.layers[i] == ls[i])
  }

  /** The visited layers are rolled back, except that errors leave some step open. */
  lemma {:induction false} UndoVisits(ls: seq<Layer>, pools: set<nat>, fails: set<nat>, n: nat)
    requires n <= |ls|
    ensures Visited(ls, pools, fails, n, Undo(ls, pools, fails, n))
  {
    if n > 0 {
      UndoVisits(ls, pools, fails, n - 1);
      var u, r := Undo(ls, pools, fails, n - 1), Undo(ls, pools, fails, n);
      if u.errors {
        var i :| 0 <= i < n - 1 && ls[i].stepEnd.Some? && u.layers[i] == ls[i];
        assert r.layers[i] == ls[i];
      } else if r.errors {
        assert r.layers[n - 1] == ls[n - 1];
      }
    }
  }

  ghost predicate SomeStuck(ls: seq<Layer>, pools: set<nat>, fails: set<nat>, n: nat)
    requires n <= |ls|
  {
    exists i :: 0 <= i < n && Stuck(ls, pools, fails, i)
  }

  /** An error is an open step that cannot be rolled back; pools are only poisoned by such errors. */
  lemma {:induction false} UndoErrors(ls: seq<Layer>, pools: set<nat>, fails: set<nat>, n: nat)
    requires n <= |ls|
    ensures var u := Undo(ls, pools, fails, n); (u.errors <==> SomeStuck(ls, pools, fails, n)) && (!u.errors ==> u.pools == pools)
  {
    if n > 0 {
      UndoErrors(ls, pools, fails, n - 1);
      var u := Undo(ls, pools, fails, n - 1);
      assert u.layers[n - 1] == ls[n - 1];
      if SomeStuck(ls, pools, fails, n - 1) {
        var i :| 0 <= i < n - 1 && Stuck(ls, pools, fails, i);
        assert 0 <= i < n;
      } else {
        assert SomeStuck(ls, pools, fails, n) <==> Stuck(ls, pools, fails, n - 1);
      }
    }
  }

  /** The drain of an open step among the first `n` has failed. */
  ghost predicate FailedDrain(ls: seq<Layer>, fails: set<nat>, n: nat, pool: nat) {
    exists i :: 0 <= i < n && i < |ls| && i in fails && ls[i].stepEnd.Some? && ls[i].pool == pool
  }

  /** Exactly the pools of failed drains are poisoned, and a visited open step is rolled back exactly when its pool is sound by then. */
  lemma {:induction false} UndoExactly(ls: seq<Layer>, pools: set<nat>, fails: set<nat>, n: nat)
    requires n <= |ls|
    ensures var u := Undo(ls, pools, fails, n);
      && (forall pool :: pool in u.pools <==> pool in pools || FailedDrain(ls, fails, n, pool))
      && forall i :: 0 <= i < n ==>
           u.layers[i] == (if ls[i].stepEnd.Some? && i !in fails && ls[i].pool !in pools && !FailedDrain(ls, fails, i, ls[i].pool)
                           then RolledBack(ls[i]) else ls[i])
  {
    if n > 0 {
      UndoExactly(ls, pools, fails, n - 1);
      forall pool ensures FailedDrain(ls, fails, n, pool) <==>
        FailedDrain(ls, fails, n - 1, pool) || (n - 1 in fails && ls[n - 1].stepEnd.Some? && ls[n - 1].pool == pool)
      {
        if FailedDrain(ls, fails, n - 1, pool) {
          var i :| 0 <= i < n - 1 && i in fails && ls[i].stepEnd.Some? && ls[i].pool == pool;
          assert i < n;
        }
      }
      hide FailedDrain;
    }
  }

  /** What an interrupt does to the clean-up, by when it comes; without one every started layer is visited or the model poisoned. */
  lemma CleanupMeans(st: State, started: nat, cleanup: Cleanup)
    requires started <= |st.layers|
    ensures cleanup.interrupt == Some(0) ==> Cleaned(st, started, cleanup) == st
    ensures forall j: nat :: cleanup.interrupt == Some(j) && 0 < j <= started && !cleanup.synchronizeFails ==>
              var r := Cleaned(st, started, cleanup);
              r.poisoned == st.poisoned && r.layers == Undo(st.layers, st.pools, cleanup.drainFails, j).layers && r.length == st.length
    ensures cleanup.synchronizeFails && cleanup.interrupt != Some(0) ==> Cleaned(st, started, cleanup) == st.(poisoned := true)
    ensures !cleanup.synchronizeFails && (cleanup.interrupt.None? || cleanup.interrupt.value > started) ==>
              var u, r := Undo(st.layers, st.pools, cleanup.drainFails, started), Cleaned(st, started, cleanup);
              r == st.(layers := u.layers, pools := u.pools, poisoned := st.poisoned || u.errors || cleanup.othersFail)
  {
    assert Undo(st.layers, st.pools, cleanup.drainFails, 0) == Undone(st.layers, st.pools, false);
  }

  /** A consistent, healthy model with room for the batch begins every layer; otherwise the pass is refused or some begin raises. */
  lemma HealthyAccepts(st: State, count: nat)
    requires Consistent(st)
    ensures !Refuses(st, count) && AllAccept(st, count) <==>
      && !st.poisoned && 1 <= count && st.length + count <= st.capacity
      && forall i :: 0 <= i < |st.layers| ==> st.layers[i].pool !in st.pools
  {
    if !Refuses(st, count) && AllAccept(st, count) {
      forall i | 0 <= i < |st.layers| ensures st.layers[i].pool !in st.pools { assert Accepts(st, count, i); }
    }
  }

  // ----- the state the handler finds

  /** The step of a pending layer can be undone: rolling back gives the layer as it was. */
  predicate Undoable(was: Layer, l: Layer) {
    l.pool == was.pool && l.length == was.length && l.stepEnd.Some? && was.records <= l.records
  }

  lemma UndoableBack(was: Layer, l: Layer)
    requires Undoable(was, l) && was.length == |was.records| && was.stepEnd.None?
    ensures RolledBack(l) == was && l != was
  {
  }

  /** What the handler finds: pending steps are open, and undoable unless half committed. */
  ghost predicate Found(st: State, e: State, k: nat, count: nat, fault: Fault) {
    && |e.layers| == |st.layers| && e.capacity == st.capacity && !e.poisoned && k == Started(st, count, fault, 0)
    && (forall i :: 0 <= i < |st.layers| ==> e.layers[i].pool == st.layers[i].pool)
    && (forall i :: 0 <= i < k ==> (Pending(st, count, fault, i) <==> e.layers[i].stepEnd.Some?))
    && (forall i :: 0 <= i < k && Pending(st, count, fault, i) && (k < |st.layers| || fault != HalfCommits(i)) ==> Undoable(st.layers[i], e.layers[i]))
  }

  lemma {:induction false} StartedIs(st: State, count: nat, fault: Fault, k: nat, t: nat)
    requires k <= t <= |st.layers| && (forall i :: k <= i < t ==> Starts(st, count, fault, i))
    requires t < |st.layers| ==> !Starts(st, count, fault, t)
    ensures Started(st, count, fault, k) == t
    decreases t - k
  {
    if k < t { StartedIs(st, count, fault, k + 1, t); }
  }

  /** An interrupt that slips while layers begin has left the first unrecorded one begun; the others slip once all have started. */
  lemma SlipsStart(st: State, count: nat, fault: Fault)
    requires Slips(st, count, fault)
    ensures Started(st, count, fault, 0) == if fault.BeginSlips? then fault.layer else |st.layers|
  {
    StartedIs(st, count, fault, 0, if fault.BeginSlips? then fault.layer else |st.layers|);
  }

  lemma SlipsEarly(st: State, count: nat, fault: Fault)
    requires Started(st, count, fault, 0) < |st.layers|
    ensures Slips(st, count, fault) <==> Begun(st, count, fault) == Started(st, count, fault, 0) + 1
    ensures Begun(st, count, fault) <= Started(st, count, fault, 0) + 1
  {
    var k := Started(st, count, fault, 0);
    if Slips(st, count, fault) {
      SlipsStart(st, count, fault);
      assert Accepts(st, count, k);
    }
    if Begun(st, count, fault) == k + 1 {
      forall i | 0 <= i <= k ensures Accepts(st, count, i) { assert i < k ==> Starts(st, count, fault, i); }
    }
  }

  /** The handler is entered before all layers have begun. */
  lemma FoundEarly(st: State, added: seq<seq<Record>>, count: nat, fault: Fault)
    requires Consistent(st) && !Refuses(st, count) && |added| == |st.layers| && Started(st, count, fault, 0) < |st.layers|
    ensures var k := Started(st, count, fault, 0); var e := EarlyState(st, count, fault);
      && Attempt(st, added, count, fault) == Raised(e, k) && Found(st, e, k, count, fault)
      && (Slips(st, count, fault) ==> e.layers[k] != st.layers[k] && e.layers[k].stepEnd.Some?)
      && (!Slips(st, count, fault) ==> forall i :: k <= i < |st.layers| ==> e.layers[i] == st.layers[i])
  {
    SlipsEarly(st, count, fault);
    hide Slips, Begun;
    EarlyFound(st, EarlyState(st, count, fault), count, fault);
    hide Started, Found;
  }

  lemma EarlyFound(st: State, e: State, count: nat, fault: Fault)
    requires Consistent(st) && !st.poisoned && Started(st, count, fault, 0) < |st.layers|
    requires e == st.(layers := OpenFirst(st.layers, Begun(st, count, fault), count))
    requires Started(st, count, fault, 0) <= Begun(st, count, fault)
    ensures Found(st, e, Started(st, count, fault, 0), count, fault)
  {
    var b, k := Begun(st, count, fault), Started(st, count, fault, 0);
    hide Begun;
    PendingEarly(st, count, fault);
    OpenUndoable(st, e, b, k, count);
    hide Started, Pending, Consistent, Undoable, OpenFirst;
  }

  lemma PendingEarly(st: State, count: nat, fault: Fault)
    requires Started(st, count, fault, 0) < |st.layers|
    ensures forall i: nat :: Pending(st, count, fault, i) <==> i < Started(st, count, fault, 0)
  {
    hide Started;
  }

  lemma OpenUndoable(st: State, e: State, b: nat, k: nat, count: nat)
    requires Consistent(st) && k <= b && k <= |st.layers| && e == st.(layers := OpenFirst(st.layers, b, count))
    ensures forall i :: 0 <= i < |st.layers| ==> e.layers[i].pool == st.layers[i].pool
    ensures forall i :: 0 <= i < k ==> Undoable(st.layers[i], e.layers[i]) && e.layers[i].stepEnd.Some?
  {
    forall i | 0 <= i < k ensures Undoable(st.layers[i], e.layers[i]) { assert Idle(st.layers[i], st.length); }
  }

  function EarlyState(st: State, count: nat, fault: Fault): State {
    st.(layers := OpenFirst(st.layers, Begun(st, count, fault), count))
  }

  lemma FoundBody(st: State, added: seq<seq<Record>>, count: nat, fault: Fault)
    requires Consistent(st) && !Refuses(st, count) && |added| == |st.layers| && Started(st, count, fault, 0) == |st.layers|
    ensures var ls := Bodied(OpenFirst(st.layers, Begun(st, count, fault), count), added, fault);
      && (forall i :: 0 <= i < |st.layers| ==> Undoable(st.layers[i], ls[i]) && Accepts(st, count, i))
      && (!fault.BodyFails? ==> forall i :: 0 <= i < |st.layers| ==> ls[i].records == st.layers[i].records + added[i])
  {
    forall i | 0 <= i < |st.layers| ensures Accepts(st, count, i) { assert Starts(st, count, fault, i); }
  }

  lemma {:induction false} CommittedIs(ls: seq<Layer>, pools: set<nat>, fault: Fault, k: nat, t: nat)
    requires k <= t <= |ls| && (forall i :: k <= i < t ==> Commits(ls, pools, fault, i))
    requires t < |ls| ==> !Commits(ls, pools, fault, t)
    ensures Committed(ls, pools, fault, k) == t
    decreases t - k
  {
    if k < t { CommittedIs(ls, pools, fault, k + 1, t); }
  }

  /** Committing stops exactly where the fault says, since no pool that began a step is poisoned. */
  lemma StopsAt(ls: seq<Layer>, pools: set<nat>, fault: Fault)
    requires forall i :: 0 <= i < |ls| ==> ls[i].pool !in pools
    ensures Committed(ls, pools, fault, 0) == Stop(fault, |ls|)
  {
    CommittedIs(ls, pools, fault, 0, Stop(fault, |ls|));
  }

  function Stop(fault: Fault, n: nat): (r: nat)
    ensures r <= n
  {
    if fault.DrainFails? || fault.HalfCommits? then Min(fault.layer, n) else if fault.CommitSlips? then Min(fault.commits, n) else n
  }

  /** The layers after the commits, one by one. */
  lemma CommitLayers(ls: seq<Layer>, pools: set<nat>, fault: Fault)
    requires forall i :: 0 <= i < |ls| ==> ls[i].pool !in pools
    ensures var k := Stop(fault, |ls|); var r := AfterCommits(ls, pools, fault);
      && (forall i :: 0 <= i < k ==> r[i] == Close(ls[i])) && (forall i :: k < i < |ls| ==> r[i] == ls[i])
      && (k < |ls| ==> r[k] == if fault.HalfCommits? then ls[k].(length := |ls[k].records|) else ls[k])
      && PoolsAfterCommits(ls, pools, fault) == (if fault.DrainFails? && k < |ls| then pools + {ls[k].pool} else pools)
      && Committed(ls, pools, fault, 0) == k
  {
    StopsAt(ls, pools, fault);
  }

  /** How committing ends, and what the handler finds. */
  lemma FoundCommit(st: State, ls: seq<Layer>, added: seq<seq<Record>>, count: nat, fault: Fault)
    requires Ready(st, ls, added, count, fault)
    ensures var a := CommitAttempt(st.(layers := ls), count, fault);
      && (a.Raised? <==> Stop(fault, |ls|) < |ls| || fault == CommitSlips(|ls|) || fault.UpdateSlips?)
      && (a.Raised? ==> a.started == |ls| && Found(st, a.st, |ls|, count, fault) && AfterCommit(st, a.st, count, fault))
      && (a.Returned? ==> Success(st, a.st, added, count))
  {
    CommitLayers(ls, st.pools, fault);
    hide AfterCommits, PoolsAfterCommits, Committed, Accepts;
    var a := CommitAttempt(st.(layers := ls), count, fault);
    if a.Raised? {
      CommitFound(st, ls, added, a.st, count, fault);
      CommitAfter(st, ls, added, a.st, count, fault);
    }
    hide Found, AfterCommit;
  }

  lemma CommitAfter(st: State, ls: seq<Layer>, added: seq<seq<Record>>, e: State, count: nat, fault: Fault)
    requires Ready(st, ls, added, count, fault) && |e.layers| == |ls|
    requires var k := Stop(fault, |ls|);
      && (forall i :: 0 <= i < k ==> e.layers[i] == Close(ls[i])) && (forall i :: k < i < |ls| ==> e.layers[i] == ls[i])
      && (k < |ls| ==> e.layers[k] == if fault.HalfCommits? then ls[k].(length := |ls[k].records|) else ls[k])
      && e.length == (if fault.UpdateSlips? then st.length + count else st.length)
      && e.pools == (if fault.DrainFails? && k < |ls| then st.pools + {ls[k].pool} else st.pools)
    ensures AfterCommit(st, e, count, fault)
  {
    forall i | 0 <= i < |ls| ensures |ls[i].records| == st.layers[i].length + count && ls[i].pool == st.layers[i].pool {
      assert Idle(st.layers[i], st.length);
    }
    hide Started, Accepts;
  }

  /** All layers have begun and written everything. */
  ghost predicate Ready(st: State, ls: seq<Layer>, added: seq<seq<Record>>, count: nat, fault: Fault) {
    && Consistent(st) && !Refuses(st, count) && |added| == |st.layers| == |ls| > 0 && Started(st, count, fault, 0) == |st.layers|
    && (forall i :: 0 <= i < |ls| ==> Undoable(st.layers[i], ls[i]) && ls[i].pool !in st.pools && |added[i]| == count)
    && (forall i :: 0 <= i < |ls| ==> ls[i].records == st.layers[i].records + added[i])
    && !fault.BodyFails? && !fault.SynchronizeFails?
  }

  lemma CommitFound(st: State, ls: seq<Layer>, added: seq<seq<Record>>, e: State, count: nat, fault: Fault)
    requires Ready(st, ls, added, count, fault) && |e.layers| == |ls| && e.capacity == st.capacity && !e.poisoned
    requires var k := Stop(fault, |ls|);
      && (forall i :: 0 <= i < k ==> e.layers[i] == Close(ls[i])) && (forall i :: k < i < |ls| ==> e.layers[i] == ls[i])
      && (k < |ls| ==> e.layers[k] == if fault.HalfCommits? then ls[k].(length := |ls[k].records|) else ls[k])
      && (k < |ls| || fault == CommitSlips(|ls|) || fault.UpdateSlips?)
    ensures Found(st, e, |ls|, count, fault)
  {
    forall i | 0 <= i < |ls| ensures Pending(st, count, fault, i) <==> e.layers[i].stepEnd.Some? {
      assert Pending(st, count, fault, i) <==> FirstOpen(fault, |ls|) <= i;
    }
  }

  /** Committed layers are longer, and an advanced length goes with all of them. */
  ghost predicate AfterCommit(st: State, e: State, count: nat, fault: Fault) {
    var k := Stop(fault, |st.layers|);
    && |e.layers| == |st.layers|
    && (forall i :: 0 <= i < k ==> e.layers[i].length == st.layers[i].length + count && e.layers[i].stepEnd.None?)
    && (forall i :: k < i < |st.layers| ==> Undoable(st.layers[i], e.layers[i]))
    && (fault.HalfCommits? && k < |st.layers| ==> e.layers[k].length == st.layers[k].length + count == |e.layers[k].records|)
    && e.length == (if fault.UpdateSlips? then st.length + count else st.length)
    && e.pools == (if fault.DrainFails? && k < |st.layers| then st.pools + {st.layers[k].pool} else st.pools)
  }

  /** Every layer and the model's length have grown by the batch. */
  ghost predicate Success(st: State, r: State, added: seq<seq<Record>>, count: nat) {
    && !r.poisoned && Consistent(r) && r.length == st.length + count && |r.layers| == |st.layers| == |added|
    && forall i :: 0 <= i < |r.layers| ==> r.layers[i] == st.layers[i].(records := st.layers[i].records + added[i], length := st.layers[i].length + count)
  }


  // ----- what the clean-up can make of it

  /** Rolling back the pending layers gives everything back. */
  ghost predicate Repairable(st: State, e: State, k: nat) {
    && e.length == st.length && e.capacity == st.capacity && |e.layers| == |st.layers| && k <= |st.layers|
    && forall i :: 0 <= i < |st.layers| ==>
         (if i < k && e.layers[i].stepEnd.Some? then RolledBack(e.layers[i]) else e.layers[i]) == st.layers[i]
  }

  /** Some started layer from `j` on still has its step open. */
  ghost predicate OpenFrom(e: State, j: nat, k: nat) {
    exists i :: j <= i < k && i < |e.layers| && e.layers[i].stepEnd.Some?
  }

  /** The clean-up poisons the model or gives everything back exactly in these cases. */
  lemma CleanedLaw(st: State, e: State, k: nat, cleanup: Cleanup)
    requires Consistent(st) && |e.layers| == |st.layers| && k <= |st.layers| && !e.poisoned && e.capacity == st.capacity
    ensures var r := Cleaned(e, k, cleanup); var fails := cleanup.drainFails;
      r.poisoned || Undisturbed(st, r) <==>
        if CutShort(cleanup, k) then
          Repairable(st, e, k) && !SomeStuck(e.layers, e.pools, fails, k) && !OpenFrom(e, cleanup.interrupt.value, k)
        else cleanup.synchronizeFails || cleanup.othersFail || SomeStuck(e.layers, e.pools, fails, k) || Repairable(st, e, k)
  {
    var fails := cleanup.drainFails;
    var n := if CutShort(cleanup, k) then cleanup.interrupt.value else k;
    UndoVisits(e.layers, e.pools, fails, n);
    UndoErrors(e.layers, e.pools, fails, n);
    var u := Undo(e.layers, e.pools, fails, n);
    assert forall i :: 0 <= i < |st.layers| ==> st.layers[i].stepEnd.None? by { assert forall i :: 0 <= i < |st.layers| ==> Idle(st.layers[i], st.length); }
    StuckSplit(e, fails, n, k);
    hide Undo, SomeStuck, Stuck;
    UndoneLaw(st, e, u, n, k);
  }

  /** A stuck layer lies among the visited ones or is an open one further on. */
  lemma StuckSplit(e: State, fails: set<nat>, n: nat, k: nat)
    requires n <= k <= |e.layers|
    ensures SomeStuck(e.layers, e.pools, fails, n) ==> SomeStuck(e.layers, e.pools, fails, k)
    ensures SomeStuck(e.layers, e.pools, fails, k) ==> SomeStuck(e.layers, e.pools, fails, n) || OpenFrom(e, n, k)
  {
    if SomeStuck(e.layers, e.pools, fails, n) {
      var i :| 0 <= i < n && Stuck(e.layers, e.pools, fails, i);
      assert 0 <= i < k;
    }
  }

  lemma UndoneLaw(st: State, e: State, u: Undone, n: nat, k: nat)
    requires |e.layers| == |st.layers| && n <= k <= |st.layers| && e.capacity == st.capacity
    requires forall i :: 0 <= i < |st.layers| ==> st.layers[i].stepEnd.None?
    requires exists pools, fails :: Visited(e.layers, pools, fails, n, u)
    requires forall i :: n <= i < |st.layers| ==> u.layers[i] == e.layers[i]
    ensures u.layers == st.layers && e.length == st.length <==> !u.errors && Repairable(st, e, k) && !OpenFrom(e, n, k)
  {
    if !u.errors && Repairable(st, e, k) && !OpenFrom(e, n, k) {
      forall i | 0 <= i < |st.layers| ensures u.layers[i] == st.layers[i] {}
    }
    if u.layers == st.layers && e.length == st.length {
      forall i | 0 <= i < |st.layers|
        ensures (if i < k && e.layers[i].stepEnd.Some? then RolledBack(e.layers[i]) else e.layers[i]) == st.layers[i]
      {
        assert u.layers[i].stepEnd.None?;
      }
    }
  }

  // ----- the law

  /** What is poisoned when the handler is entered. */
  ghost predicate Spoiled(st: State, e: State, count: nat, fault: Fault) {
    && |e.layers| == |st.layers|
    && forall i :: 0 <= i < |st.layers| && i < Started(st, count, fault, 0) ==>
         (e.layers[i].pool in e.pools <==> Resists(st, count, fault, Cleanup(false, {}, false, None), i))
  }

  lemma ResistIsStuck(st: State, e: State, k: nat, count: nat, fault: Fault, cleanup: Cleanup)
    requires k <= |st.layers| && Found(st, e, k, count, fault) && Spoiled(st, e, count, fault)
    ensures SomeResist(st, count, fault, cleanup) <==> SomeStuck(e.layers, e.pools, cleanup.drainFails, k)
    ensures forall j: nat :: OpenFrom(e, j, k) <==> exists i :: j <= i < |st.layers| && Pending(st, count, fault, i)
  {
    forall i | 0 <= i < |st.layers| ensures Pending(st, count, fault, i) && Resists(st, count, fault, cleanup, i) <==>
        i < k && Stuck(e.layers, e.pools, cleanup.drainFails, i)
    {
      assert i < k ==> (e.layers[i].pool in e.pools <==> Resists(st, count, fault, Cleanup(false, {}, false, None), i));
    }
    if SomeResist(st, count, fault, cleanup) {
      var i :| 0 <= i < |st.layers| && Pending(st, count, fault, i) && Resists(st, count, fault, cleanup, i);
      assert Stuck(e.layers, e.pools, cleanup.drainFails, i);
    }
    if SomeStuck(e.layers, e.pools, cleanup.drainFails, k) {
      var i :| 0 <= i < k && Stuck(e.layers, e.pools, cleanup.drainFails, i);
      assert Pending(st, count, fault, i);
    }
    hide Resists, Stuck, SomeResist, SomeStuck;
    forall j: nat ensures OpenFrom(e, j, k) <==> exists i :: j <= i < |st.layers| && Pending(st, count, fault, i) {
      if OpenFrom(e, j, k) {
        var i :| j <= i < k && i < |e.layers| && e.layers[i].stepEnd.Some?;
        assert Pending(st, count, fault, i);
      }
      if i :| j <= i < |st.layers| && Pending(st, count, fault, i) {
        assert i < k && e.layers[i].stepEnd.Some?;
      }
    }
  }

  /** What the handler finds, in the terms of the law: resistance, and whether rolling back is enough. */
  ghost predicate Entered(st: State, e: State, k: nat, count: nat, fault: Fault) {
    && k <= |st.layers| && Found(st, e, k, count, fault) && Spoiled(st, e, count, fault)
    && (Repairable(st, e, k) ==> !Slips(st, count, fault))
    && (!Slips(st, count, fault) && !SomeResist(st, count, fault, Cleanup(false, {}, false, None)) ==> Repairable(st, e, k))
  }

  lemma EnteredEarly(st: State, added: seq<seq<Record>>, count: nat, fault: Fault)
    requires Consistent(st) && !Refuses(st, count) && |added| == |st.layers| && Started(st, count, fault, 0) < |st.layers|
    ensures Attempt(st, added, count, fault) == Raised(EarlyState(st, count, fault), Started(st, count, fault, 0))
    ensures Entered(st, EarlyState(st, count, fault), Started(st, count, fault, 0), count, fault)
  {
    FoundEarly(st, added, count, fault);
    EarlyRepair(st, EarlyState(st, count, fault), count, fault);
    EarlySpoiled(st, EarlyState(st, count, fault), count, fault);
    hide EarlyState, Attempt, Slips, Repairable, Spoiled, Found, SomeResist;
  }

  lemma EarlyRepair(st: State, e: State, count: nat, fault: Fault)
    requires Consistent(st) && Started(st, count, fault, 0) < |st.layers| && e == EarlyState(st, count, fault)
    requires Found(st, e, Started(st, count, fault, 0), count, fault)
    requires Slips(st, count, fault) ==> e.layers[Started(st, count, fault, 0)] != st.layers[Started(st, count, fault, 0)]
    requires !Slips(st, count, fault) ==> forall i :: Started(st, count, fault, 0) <= i < |st.layers| ==> e.layers[i] == st.layers[i]
    ensures Repairable(st, e, Started(st, count, fault, 0)) <==> !Slips(st, count, fault)
  {
    hide Slips, Begun;
    var k := Started(st, count, fault, 0);
    forall i | 0 <= i < k ensures RolledBack(e.layers[i]) == st.layers[i] && e.layers[i].stepEnd.Some? {
      assert Idle(st.layers[i], st.length);
      assert Pending(st, count, fault, i);
      UndoableBack(st.layers[i], e.layers[i]);
    }
    hide RolledBack, Started, Found;
  }

  lemma EarlySpoiled(st: State, e: State, count: nat, fault: Fault)
    requires Started(st, count, fault, 0) < |st.layers| && e == EarlyState(st, count, fault)
    ensures Spoiled(st, e, count, fault)
  {
    hide Begun;
    forall i | 0 <= i < Started(st, count, fault, 0) ensures e.layers[i].pool !in e.pools { assert Starts(st, count, fault, i); }
  }

  lemma EnteredBody(st: State, added: seq<seq<Record>>, count: nat, fault: Fault)
    requires Consistent(st) && !Refuses(st, count) && |added| == |st.layers| && Started(st, count, fault, 0) == |st.layers|
    requires fault.BodyFails? || fault.SynchronizeFails?
    ensures var e := BodyState(st, added, count, fault);
      Attempt(st, added, count, fault) == Raised(e, |st.layers|) && Entered(st, e, |st.layers|, count, fault)
  {
    var n, e := |st.layers|, BodyState(st, added, count, fault);
    FoundBody(st, added, count, fault);
    forall i | 0 <= i < n ensures RolledBack(e.layers[i]) == st.layers[i] && Pending(st, count, fault, i) && st.layers[i].pool !in st.pools {
      assert Idle(st.layers[i], st.length);
      UndoableBack(st.layers[i], e.layers[i]);
    }
    hide RolledBack, Bodied, Begun, Started;
  }

  function BodyState(st: State, added: seq<seq<Record>>, count: nat, fault: Fault): State
    requires |added| == |st.layers|
  {
    st.(layers := Bodied(OpenFirst(st.layers, Begun(st, count, fault), count), added, fault),
        pools := if fault.BodyFails? then st.pools + fault.poisons else st.pools)
  }

  /** After the commits began, rolling back is enough exactly when none had committed. */
  lemma EnteredCommit(st: State, ls: seq<Layer>, added: seq<seq<Record>>, e: State, count: nat, fault: Fault)
    requires Ready(st, ls, added, count, fault) && Found(st, e, |ls|, count, fault) && AfterCommit(st, e, count, fault)
    requires Stop(fault, |ls|) < |ls| || fault == CommitSlips(|ls|) || fault.UpdateSlips?
    requires AllAccept(st, count)
    ensures Entered(st, e, |ls|, count, fault)
  {
    var n, k := |ls|, Stop(fault, |ls|);
    assert forall i :: 0 <= i < n ==> Idle(st.layers[i], st.length);
    CommitSpoiled(st, ls, added, e, count, fault);
    if Slips(st, count, fault) {
      var i := if fault.HalfCommits? then k else 0;
      assert fault.UpdateSlips? || (e.layers[i].length == st.layers[i].length + count && RolledBack(e.layers[i]).length == st.layers[i].length + count);
      assert !Repairable(st, e, n);
    } else if fault.CommitSlips? {
      forall i | 0 <= i < n ensures RolledBack(e.layers[i]) == st.layers[i] && e.layers[i].stepEnd.Some? {
        assert Pending(st, count, fault, i);
        UndoableBack(st.layers[i], e.layers[i]);
      }
    } else {
      assert Pending(st, count, fault, k) && Resists(st, count, fault, Cleanup(false, {}, false, None), k);
    }
  }

  lemma CommitSpoiled(st: State, ls: seq<Layer>, added: seq<seq<Record>>, e: State, count: nat, fault: Fault)
    requires Ready(st, ls, added, count, fault) && Found(st, e, |ls|, count, fault) && AfterCommit(st, e, count, fault)
    ensures Spoiled(st, e, count, fault)
  {
  }

  /** A pass that raises enters the handler with steps that can be judged; one that does not has succeeded. */
  lemma AttemptLaw(st: State, added: seq<seq<Record>>, count: nat, fault: Fault)
    requires Consistent(st) && !Refuses(st, count) && |added| == |st.layers| > 0 && forall i :: 0 <= i < |added| ==> |added[i]| == count
    ensures match Attempt(st, added, count, fault)
      case Returned(r) => Success(st, r, added, count)
      case Raised(e, k) => Entered(st, e, k, count, fault)
    ensures fault.NoFault? && AllAccept(st, count) ==> Attempt(st, added, count, fault).Returned?
  {
    if fault.NoFault? && AllAccept(st, count) { AllStart(st, count, fault); }
    if Started(st, count, fault, 0) < |st.layers| {
      EnteredEarly(st, added, count, fault);
    } else if fault.BodyFails? || fault.SynchronizeFails? {
      EnteredBody(st, added, count, fault);
    } else {
      FoundBody(st, added, count, fault);
      var ls := Bodied(OpenFirst(st.layers, Begun(st, count, fault), count), added, fault);
      assert Attempt(st, added, count, fault) == CommitAttempt(st.(layers := ls), count, fault);
      assert forall i :: 0 <= i < |ls| ==> ls[i].pool !in st.pools by { assert forall i :: 0 <= i < |ls| ==> Accepts(st, count, i); }
      hide Attempt, Bodied, Begun, Accepts;
      FoundCommit(st, ls, added, count, fault);
      var a := CommitAttempt(st.(layers := ls), count, fault);
      if a.Raised? { EnteredCommit(st, ls, added, a.st, count, fault); }
    }
  }

  lemma AllStart(st: State, count: nat, fault: Fault)
    requires fault.NoFault? && AllAccept(st, count)
    ensures Started(st, count, fault, 0) == |st.layers|
  {
    StartedIs(st, count, fault, 0, |st.layers|);
  }

  /** Resisting with failing rollbacks included is resisting without them, or such a rollback. */
  lemma ResistMore(st: State, count: nat, fault: Fault, cleanup: Cleanup)
    ensures SomeResist(st, count, fault, Cleanup(false, {}, false, None)) ==> SomeResist(st, count, fault, cleanup)
  {
    if SomeResist(st, count, fault, Cleanup(false, {}, false, None)) {
      var i :| 0 <= i < |st.layers| && Pending(st, count, fault, i) && Resists(st, count, fault, Cleanup(false, {}, false, None), i);
      assert Resists(st, count, fault, cleanup, i);
    }
  }

  /**
   * All or nothing: a pass that returns has grown every layer and the length by the batch; one that raises has poisoned
   * the model or given everything back, if and only if it is not lost.
   */
  lemma AllOrNothing(st: State, added: seq<seq<Record>>, count: nat, fault: Fault, cleanup: Cleanup)
    requires Consistent(st) && |added| == |st.layers| > 0 && forall i :: 0 <= i < |added| ==> |added[i]| == count
    ensures var r := Pass(st, added, count, fault, cleanup);
      && (Refuses(st, count) ==> r == Outcome(st, false))
      && (r.ok ==> Success(st, r.st, added, count))
      && (!r.ok && !Refuses(st, count) ==> (r.st.poisoned || Undisturbed(st, r.st) <==> !Lost(st, count, fault, cleanup)))
      && (fault.NoFault? && !Refuses(st, count) && AllAccept(st, count) ==> r.ok)
  {
    if !Refuses(st, count) {
      AttemptLaw(st, added, count, fault);
      match Attempt(st, added, count, fault)
      case Returned(_) =>
      case Raised(e, k) =>
        ResistIsStuck(st, e, k, count, fault, cleanup);
        ResistMore(st, count, fault, cleanup);
        CleanedLaw(st, e, k, cleanup);
        hide Attempt, Cleaned, Repairable, Slips, SomeResist, SomeStuck, Spoiled, Undisturbed;
    }
  }
}
