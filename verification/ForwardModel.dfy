/** The model object: the passes of `Forward` on fields updated in place, phase by phase. */
module ForwardModel {
  import opened TokenTypes
  import opened Forward
  import opened ForwardLaw

  /** A pass that returns has begun every layer. */
  lemma OkAccepts(st: State, added: seq<seq<Record>>, count: nat, fault: Fault, cleanup: Cleanup)
    requires |added| == |st.layers|
    ensures Pass(st, added, count, fault, cleanup).ok ==> !Refuses(st, count) && AllAccept(st, count)
  {
    if Pass(st, added, count, fault, cleanup).ok {
      assert Started(st, count, fault, 0) == |st.layers|;
      forall i | 0 <= i < |st.layers| ensures Accepts(st, count, i) { assert Starts(st, count, fault, i); }
    }
  }

  class Model {
    const capacity: nat
    var layers: seq<Layer>
    var length: nat
    var poisoned: bool
    var poisonedPools: set<nat>

    function Value(): State
      reads this
    {
      State(capacity, layers, length, poisoned, poisonedPools)
    }

    constructor (capacity: nat, pools: seq<nat>)
      ensures Consistent(Value()) && !poisoned && length == 0 && this.capacity == capacity && |layers| == |pools|
    {
      this.capacity := capacity;
      layers := seq(|pools|, i requires 0 <= i < |pools| => Layer(pools[i], [], 0, None));
      length, poisoned, poisonedPools := 0, false, {};
    }

    /** Begin the step of every layer in order; stops at the first that raises, or right after one that is never recorded. */
    method BeginAll(count: nat, fault: Fault) returns (started: nat)
      modifies this`layers
      ensures started == Started(old(Value()), count, fault, 0)
      ensures layers == OpenFirst(old(layers), Begun(old(Value()), count, fault), count)
      ensures started == |layers| <==> forall i :: 0 <= i < |layers| ==> Starts(old(Value()), count, fault, i)
    {
      ghost var was := Value();
      started := 0;
      assert layers == OpenFirst(was.layers, 0, count);
      while started < |layers|
        invariant 0 <= started <= |layers| == |was.layers| && layers == OpenFirst(was.layers, started, count)
        invariant forall i :: 0 <= i < started ==> Starts(was, count, fault, i)
        decreases |layers| - started
      {
        var l := layers[started];
        if fault == BeginFails(started) || l.pool in poisonedPools || l.stepEnd.Some? || count < 1 || l.length + count > capacity {
          StartedIs(was, count, fault, 0, started);
          return;
        }
        layers := layers[started := Open(l, count)];
        assert layers == OpenFirst(was.layers, started + 1, count);
        if fault == BeginSlips(started) {
          StartedIs(was, count, fault, 0, started);
          return;
        }
        started := started + 1;
      }
      StartedIs(was, count, fault, 0, started);
    }

    /** Every layer appends its records, or a prefix of them when the body raises. */
    method Body(added: seq<seq<Record>>, fault: Fault) returns (ok: bool)
      requires |added| == |layers|
      modifies this`layers, this`poisonedPools
      ensures ok == !(fault.BodyFails? || fault.SynchronizeFails?)
      ensures layers == Bodied(old(layers), added, fault)
      ensures poisonedPools == if fault.BodyFails? then old(poisonedPools) + fault.poisons else old(poisonedPools)
      ensures forall i :: 0 <= i < |layers| ==> old(layers)[i].records <= layers[i].records <= old(layers)[i].records + added[i]
    {
      var k := 0;
      while k < |layers|
        invariant 0 <= k <= |layers| == |old(layers)| && poisonedPools == old(poisonedPools)
        invariant forall i :: 0 <= i < k ==> layers[i] == Appended(old(layers)[i], added[i], Written(fault, i, |added[i]|))
        invariant forall i :: k <= i < |layers| ==> layers[i] == old(layers)[i]
      {
        layers := layers[k := Appended(layers[k], added[k], Written(fault, k, |added[k]|))];
        k := k + 1;
      }
      if fault.BodyFails? {
        poisonedPools := poisonedPools + fault.poisons;
      }
      ok := !(fault.BodyFails? || fault.SynchronizeFails?);
    }

    /** Commit layer by layer: a drain that raises poisons its pool and leaves that layer's step open. */
    method CommitAll(fault: Fault) returns (ok: bool)
      modifies this`layers, this`poisonedPools
      ensures layers == AfterCommits(old(layers), old(poisonedPools), fault)
      ensures poisonedPools == PoolsAfterCommits(old(layers), old(poisonedPools), fault)
      ensures ok == (Committed(old(layers), old(poisonedPools), fault, 0) == |layers| && fault != CommitSlips(|layers|))
      ensures ok ==> forall i :: 0 <= i < |layers| ==> layers[i].stepEnd.None? && layers[i].length == |layers[i].records|
    {
      ghost var ls, pools := layers, poisonedPools;
      var done := 0;
      assert layers == CloseFirst(ls, 0);
      while done < |layers|
        invariant 0 <= done <= |layers| == |ls| && layers == CloseFirst(ls, done) && poisonedPools == pools
        invariant forall i :: 0 <= i < done ==> Commits(ls, pools, fault, i)
        decreases |layers| - done
      {
        var l := layers[done];
        if fault == CommitSlips(done) || l.pool in poisonedPools {
          CommittedIs(ls, pools, fault, 0, done);
          return false;
        }
        if fault == DrainFails(done) {
          CommittedIs(ls, pools, fault, 0, done);
          poisonedPools := poisonedPools + {l.pool};
          return false;
        }
        layers := layers[done := l.(length := |l.records|)];
        if fault == HalfCommits(done) {
          CommittedIs(ls, pools, fault, 0, done);
          return false;
        }
        layers := layers[done := layers[done].(stepEnd := None)];
        assert layers == CloseFirst(ls, done + 1);
        done := done + 1;
      }
      CommittedIs(ls, pools, fault, 0, done);
      ok := fault != CommitSlips(done);
    }

    /** Roll back every started layer whose step is still open; failures poison the model at the end, unless an interrupt comes first. */
    method Recover(started: nat, cleanup: Cleanup)
      requires started <= |layers|
      modifies this`layers, this`poisoned, this`poisonedPools
      ensures Value() == Cleaned(old(Value()), started, cleanup)
      ensures !poisoned && !CutShort(cleanup, started) ==> forall i :: 0 <= i < started ==>
                layers[i] == if old(layers)[i].stepEnd.Some? then RolledBack(old(layers)[i]) else old(layers)[i]
      ensures forall i :: started <= i < |layers| ==> layers[i] == old(layers)[i]
    {
      ghost var was := Value();
      if cleanup.interrupt == Some(0) {
        return;
      }
      if cleanup.synchronizeFails {
        poisoned := true;
        return;
      }
      UndoVisits(layers, poisonedPools, cleanup.drainFails, started);
      var errors := false;
      var k := 0;
      while k < started && cleanup.interrupt != Some(k)
        invariant 0 <= k <= started <= |layers| == |was.layers| && poisoned == was.poisoned && length == was.length
        invariant cleanup.interrupt.Some? ==> k <= cleanup.interrupt.value
        invariant Undo(was.layers, was.pools, cleanup.drainFails, k) == Undone(layers, poisonedPools, errors)
      {
        var l := layers[k];
        if l.stepEnd.Some? {
          if l.pool in poisonedPools {
            errors := true;
          } else if k in cleanup.drainFails {
            poisonedPools := poisonedPools + {l.pool};
            errors := true;
          } else {
            layers := layers[k := RolledBack(l)];
          }
        }
        k := k + 1;
      }
      if cleanup.interrupt == Some(k) {
        return;
      }
      if errors || cleanup.othersFail {
        poisoned := true;
      }
    }

    /**
     * One pass. It returns with every layer and the length grown by the batch, or raises; then it has poisoned the model or
     * given everything back, if and only if it is not lost to an interrupt.
     */
    method Run(added: seq<seq<Record>>, count: nat, fault: Fault, cleanup: Cleanup) returns (ok: bool)
      requires |added| == |layers| > 0 && forall i :: 0 <= i < |added| ==> |added[i]| == count
      modifies this`layers, this`length, this`poisoned, this`poisonedPools
      ensures Outcome(Value(), ok) == Pass(old(Value()), added, count, fault, cleanup)
      ensures old(Refuses(Value(), count)) ==> !ok && Value() == old(Value())
      ensures ok && old(Consistent(Value())) ==> Success(old(Value()), Value(), added, count)
      ensures !ok && old(Consistent(Value()) && !Refuses(Value(), count)) ==>
                (poisoned || Undisturbed(old(Value()), Value()) <==> !Lost(old(Value()), count, fault, cleanup))
      ensures old(poisoned || count < 1 || length + count > capacity) ==> !ok && Value() == old(Value())
      ensures old(Consistent(Value())) && fault.NoFault? ==>
                (ok <==> old(!poisoned && 1 <= count && length + count <= capacity && forall i :: 0 <= i < |layers| ==> layers[i].pool !in poisonedPools))
    {
      OkAccepts(Value(), added, count, fault, cleanup);
      if Consistent(Value()) {
        HealthyAccepts(Value(), count);
        AllOrNothing(Value(), added, count, fault, cleanup);
      }
      hide Consistent, Success, Undisturbed, Lost, AllAccept;
      ok := Execute(added, count, fault, cleanup);
    }

    method Execute(added: seq<seq<Record>>, count: nat, fault: Fault, cleanup: Cleanup) returns (ok: bool)
      requires |added| == |layers|
      modifies this`layers, this`length, this`poisoned, this`poisonedPools
      ensures Outcome(Value(), ok) == Pass(old(Value()), added, count, fault, cleanup)
    {
      if poisoned || count < 1 || length + count > capacity {
        return false;
      }
      hide Attempt, Cleaned;
      var started;
      ok, started := Guarded(added, count, fault);
      if !ok {
        Recover(started, cleanup);
      }
    }

    /** The guarded block: begin, execute, commit, advance the length. */
    method Guarded(added: seq<seq<Record>>, count: nat, fault: Fault) returns (ok: bool, started: nat)
      requires |added| == |layers|
      modifies this`layers, this`length, this`poisonedPools
      ensures |layers| == |old(layers)| && started <= |layers| && poisoned == old(poisoned)
      ensures (if ok then Returned(Value()) else Raised(Value(), started)) == Attempt(old(Value()), added, count, fault)
    {
      started := BeginAll(count, fault);
      hide Started, Begun, Bodied, OpenFirst, CommitAttempt;
      ok := started == |layers|;
      if ok {
        ok := Body(added, fault);
        if ok {
          ok := CommitStep(count, fault);
        }
      }
    }

    method CommitStep(count: nat, fault: Fault) returns (ok: bool)
      modifies this`layers, this`length, this`poisonedPools
      ensures |layers| == |old(layers)| && poisoned == old(poisoned)
      ensures (if ok then Returned(Value()) else Raised(Value(), |layers|)) == CommitAttempt(old(Value()), count, fault)
    {
      ok := CommitAll(fault);
      hide Committed, AfterCommits, PoolsAfterCommits;
      if ok {
        length := length + count;
        ok := !fault.UpdateSlips?;
      }
    }
  }
}
