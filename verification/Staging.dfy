/** Double-buffer staging: the lease protocol that feeds the two streams. */
module Staging {
  import opened TokenTypes
  import opened StagingStreams

  datatype Outcome = Done | Refused | Failed

  datatype Identity = Identity(session: nat, generation: nat, layer: nat, cycle: nat)

  class StagingLease {
    const session: nat
    const generation: nat
    var closed: bool
    var cycle: nat
    var interrupted: bool

    constructor (session: nat, generation: nat)
      ensures this.session == session && this.generation == generation
      ensures !closed && cycle == 0 && !interrupted
    {
      this.session, this.generation := session, generation;
      closed, cycle, interrupted := false, 0, false;
    }
  }

  /** A consumer that saw these buffers read `r` at position `j` of record buffer `name`. */
  predicate ReadAt(seen: seq<seq<Record>>, name: nat, j: nat, r: Record) {
    name < |seen| && j < |seen[name]| && seen[name][j] == r
  }

  class DoubleBufferStaging {
    const names: nat
    const capacity: nat
    var identities: seq<Option<Identity>>
    var slotReady: seq<bool>
    var active: StagingLease?
    var fenced: bool
    var closed: bool
    var poisoned: bool
    /** Device state: the two streams, and the copy-stream position each ready event was last recorded at. */
    var gpu: Gpu
    var readyEvents: seq<nat>
    /** History: every prefetch that reached the copy stream, and the newest one of each slot. */
    var loads: seq<Load>
    var current: seq<nat>

    /** While no submission has failed, an owned slot is tied to its newest load. */
    ghost predicate SlotOK(s: nat)
      requires s < 2 && |identities| == |slotReady| == |readyEvents| == |current| == 2
      reads this
    {
      identities[s].Some? ==>
        && current[s] < |loads| && loads[current[s]].slot == s && Complete(loads[current[s]])
        && (forall j :: current[s] < j < |loads| ==> loads[j].slot != s)
        && readyEvents[s] == ReadyPos(loads[current[s]])
        && (slotReady[s] ==> AwaitCopy(readyEvents[s]) in gpu.caller)
    }

    ghost predicate Shape()
      reads this
    {
      && |identities| == |slotReady| == |readyEvents| == |current| == 2
      && (forall k :: 0 <= k < |loads| ==> loads[k].slot < 2 && |loads[k].sources| == names)
      && (forall s :: 0 <= s < 2 ==> (slotReady[s] ==> identities[s].Some?) && (identities[s].Some? ==> identities[s].value.layer % 2 == s))
    }

    ghost predicate Valid()
      reads this, active
    {
      && Shape()
      && Sound(gpu, loads, names, capacity)
      && (active == null ==> Drained(gpu) && identities == [None, None])
      && (closed ==> active == null)
      && (active != null && active.closed ==> poisoned)
      && (active != null && !active.interrupted ==> SlotOK(0) && SlotOK(1))
    }

    predicate Usable(l: StagingLease)
      reads this, l
    {
      active == l && !l.closed && !closed && !poisoned && !l.interrupted
    }

    predicate Owns(l: StagingLease, layer: nat)
      requires |identities| == 2
      reads this, l
    {
      Usable(l) && identities[layer % 2] == Some(Identity(l.session, l.generation, layer, l.cycle))
    }

    predicate Viewable(l: StagingLease, layer: nat)
      requires |identities| == |slotReady| == 2
      reads this, l
    {
      Owns(l, layer) && slotReady[layer % 2]
    }

    predicate WellFormed(sources: seq<seq<Record>>) {
      |sources| == names && forall n :: 0 <= n < |sources| ==> |sources[n]| == |sources[0]| <= capacity
    }

    constructor (names: nat, capacity: nat, buf: seq<seq<seq<Record>>>)
      requires |buf| == 2
      requires forall s :: 0 <= s < 2 ==> |buf[s]| == names && forall n :: 0 <= n < names ==> |buf[s][n]| == capacity
      ensures Valid() && this.names == names && this.capacity == capacity
      ensures active == null && !closed && !poisoned && !fenced && loads == []
    {
      this.names, this.capacity := names, capacity;
      identities, slotReady, active := [None, None], [false, false], null;
      fenced, closed, poisoned := false, false, false;
      gpu := Gpu([], 0, [], 0, buf);
      readyEvents, loads, current := [0, 0], [], [0, 0];
    }

    // ----- the device scheduler

    /**
     * The caller stream executes its head; a consumer sees its own load's sources at the start of every record buffer, and behind
     * them whatever suffix was last written there for its load.
     */
    method RunCaller() returns (op: Op, seen: seq<seq<Record>>)
      requires Valid() && CallerEnabled(gpu)
      modifies this`gpu
      ensures Valid() && gpu == ExecCaller(old(gpu)) && op == old(gpu.caller[gpu.callerDone])
      ensures op.Use? ==>
                && op.load < |loads| && loads[op.load].slot == op.slot && |seen| == names
                && forall n :: 0 <= n < names ==> loads[op.load].sources[n] <= seen[n]
      ensures op.Use? ==> forall c: nat, j: nat, r :: WroteLast(old(gpu), c, j, r) && j < capacity ==>
                ReadAt(seen, old(gpu).caller[c].name, j, r)
    {
      op := gpu.caller[gpu.callerDone];
      seen := [];
      if op.Use? {
        assert ConsumerOK(gpu, loads, gpu.callerDone, op);
        seen := gpu.buf[op.slot];
        forall n | 0 <= n < names ensures loads[op.load].sources[n] <= seen[n] {
          ConsumerReadsSources(gpu, loads, names, capacity, n);
        }
        forall c: nat, j: nat, r | WroteLast(gpu, c, j, r) && j < capacity ensures ReadAt(seen, gpu.caller[c].name, j, r) {
          ConsumerReadsSuffix(gpu, loads, names, capacity, c, j, r);
        }
      }
      ExecCallerSound(gpu, loads, names, capacity);
      gpu := ExecCaller(gpu);
    }

    /** The copy stream executes its head; no consumer of an earlier load of that slot is still waiting to run. */
    method RunCopy() returns (op: Op)
      requires Valid() && CopyEnabled(gpu)
      modifies this`gpu
      ensures Valid() && gpu == ExecCopy(old(gpu)) && op == old(gpu.copies[gpu.copyDone])
      ensures op.Copy? ==> forall c :: gpu.callerDone <= c < |gpu.caller| && Consumer(gpu.caller[c]) && gpu.caller[c].slot == op.slot ==>
                                         gpu.caller[c].load >= op.load
    {
      op := gpu.copies[gpu.copyDone];
      if op.Copy? {
        forall c | gpu.callerDone <= c < |gpu.caller| && Consumer(gpu.caller[c]) && gpu.caller[c].slot == op.slot
          ensures gpu.caller[c].load >= op.load
        {
          CopySparesConsumers(gpu, loads, names, capacity, c);
        }
      }
      ExecCopySound(gpu, loads, names, capacity);
      gpu := ExecCopy(gpu);
    }

    /** Both streams are synchronised; an unconfirmed completion poisons the storage. */
    method Join(confirmed: bool)
      requires Valid() && active != null
      modifies this`gpu, this`poisoned
      ensures Valid() && gpu.caller == old(gpu.caller) && gpu.copies == old(gpu.copies)
      ensures poisoned == (old(poisoned) || !confirmed)
      ensures confirmed ==> Drained(gpu) && gpu.callerDone == |gpu.caller| && gpu.copyDone == |gpu.copies|
    {
      if !confirmed {
        poisoned := true;
        return;
      }
      while !Drained(gpu)
        invariant Valid() && gpu.caller == old(gpu.caller) && gpu.copies == old(gpu.copies) && poisoned == old(poisoned)
        decreases |gpu.caller| + |gpu.copies| - gpu.callerDone - gpu.copyDone
      {
        NeverStuck(gpu);
        if CallerEnabled(gpu) {
          var op, seen := RunCaller();
        } else {
          var op := RunCopy();
        }
      }
    }

    // ----- leases

    method Lease(session: nat, generation: nat, fenceOk: bool) returns (out: Outcome, l: StagingLease?)
      requires Valid()
      modifies this`active, this`poisoned, this`fenced
      ensures Valid()
      ensures out.Refused? <==> old(closed || poisoned || active != null)
      ensures out.Refused? ==> l == null && unchanged(this)
      ensures !out.Refused? ==> l != null && fresh(l) && active == l && l.session == session && l.generation == generation && l.cycle == 0
      ensures out.Done? <==> !out.Refused? && (old(fenced) || fenceOk)
      ensures out.Done? ==> Usable(l) && fenced
      ensures out.Failed? ==> poisoned && l.closed && !fenced
    {
      if closed || poisoned || active != null {
        return Refused, null;
      }
      l := new StagingLease(session, generation);
      active := l;
      if !fenced {
        if !fenceOk {
          poisoned := true;
          l.closed := true;
          return Failed, l;
        }
        fenced := true;
      }
      out := Done;
    }

    /** `steps` submissions reach the streams before one fails: the consumer event and its wait, then one copy per record name, then the ready event. */
    method Prefetch(l: StagingLease, layer: nat, sources: seq<seq<Record>>, steps: nat) returns (out: Outcome)
      requires Valid()
      modifies this`identities, this`slotReady, this`gpu, this`readyEvents, this`loads, this`current, l
      ensures Valid() && l.closed == old(l.closed) && l.cycle == old(l.cycle)
      ensures gpu.caller == old(gpu.caller) && gpu.callerDone == old(gpu.callerDone) && gpu.copyDone == old(gpu.copyDone)
      ensures out.Refused? <==>
                || old(active != l || l.closed || closed || poisoned || l.interrupted)
                || |sources| != names || !(forall n :: 0 <= n < |sources| ==> |sources[n]| == |sources[0]| <= capacity)
                || old(identities[layer % 2].Some? && !slotReady[layer % 2])
      ensures out.Refused? ==> unchanged(this) && unchanged(l)
      ensures out.Done? <==> !out.Refused? && steps >= names + 2
      ensures out.Done? ==>
                && loads == old(loads) + [Load(layer % 2, sources, |old(gpu.caller)|, |old(gpu.copies)| + 1, names)]
                && Owns(l, layer) && !slotReady[layer % 2] && current[layer % 2] == |old(loads)|
      ensures out.Failed? ==> l.interrupted && (steps == 0 ==> gpu == old(gpu) && loads == old(loads))
      ensures out.Failed? && steps > 0 ==>
                var n := if steps - 1 < names then steps - 1 else names;
                && loads == old(loads) + [Load(layer % 2, sources, |old(gpu.caller)|, |old(gpu.copies)| + 1, n)]
                && |gpu.copies| == |old(gpu.copies)| + 1 + n && old(gpu.copies) <= gpu.copies
      ensures !out.Refused? ==> forall s :: 0 <= s < 2 && s != layer % 2 ==>
                  identities[s] == old(identities[s]) && slotReady[s] == old(slotReady[s]) && current[s] == old(current[s])
    {
      hide Sound, SlotOK;
      var slot := layer % 2;
      if !Usable(l) || !WellFormed(sources) || (identities[slot].Some? && !slotReady[slot]) {
        return Refused;
      }
      Claim(l, layer);
      var ok := Submit(slot, sources, steps);
      if !ok {
        l.interrupted := true;
        return Failed;
      }
      out := Done;
    }

    /** The slot now belongs to this layer and cycle, and is not ready. */
    method Claim(l: StagingLease, layer: nat)
      requires Shape()
      modifies this`identities, this`slotReady
      ensures Shape() && (old(SlotOK(1 - layer % 2)) ==> SlotOK(1 - layer % 2))
      ensures identities == old(identities)[layer % 2 := Some(Identity(l.session, l.generation, layer, l.cycle))]
      ensures slotReady == old(slotReady)[layer % 2 := false]
    {
      identities := identities[layer % 2 := Some(Identity(l.session, l.generation, layer, l.cycle))];
      slotReady := slotReady[layer % 2 := false];
    }

    /** Record the consumer event, make the copy stream wait for it, queue the copies and record the ready event. */
    method Submit(slot: nat, sources: seq<seq<Record>>, steps: nat) returns (ok: bool)
      requires Shape() && Sound(gpu, loads, names, capacity) && slot < 2 && WellFormed(sources) && !slotReady[slot]
      modifies this`gpu, this`loads, this`current, this`readyEvents
      ensures Shape() && Sound(gpu, loads, names, capacity)
      ensures gpu.caller == old(gpu.caller) && gpu.callerDone == old(gpu.callerDone) && gpu.copyDone == old(gpu.copyDone)
      ensures ok == (steps >= names + 2) && (steps == 0 ==> gpu == old(gpu) && loads == old(loads))
      ensures steps > 0 ==>
                var n := if steps - 1 < names then steps - 1 else names;
                && loads == old(loads) + [Load(slot, sources, |old(gpu.caller)|, |old(gpu.copies)| + 1, n)]
                && |gpu.copies| == |old(gpu.copies)| + 1 + n && old(gpu.copies) <= gpu.copies
      ensures current[1 - slot] == old(current[1 - slot]) && (old(SlotOK(1 - slot)) ==> SlotOK(1 - slot))
      ensures ok ==>
                && loads == old(loads) + [Load(slot, sources, |old(gpu.caller)|, |old(gpu.copies)| + 1, names)]
                && current[slot] == |old(loads)| && SlotOK(slot)
    {
      hide Sound;
      if steps > 0 {
        QueueCopies(slot, sources, steps - 1);
      }
      ok := steps >= names + 2;
      if ok {
        readyEvents := readyEvents[slot := |gpu.copies|];
      }
    }

    /** Queue a load's copies on the copy stream, stopping after `count` of them. */
    method QueueCopies(slot: nat, sources: seq<seq<Record>>, count: nat)
      requires Shape() && Sound(gpu, loads, names, capacity) && slot < 2 && WellFormed(sources)
      modifies this`gpu, this`loads, this`current
      ensures Shape() && Sound(gpu, loads, names, capacity)
      ensures gpu.caller == old(gpu.caller) && gpu.callerDone == old(gpu.callerDone) && gpu.copyDone == old(gpu.copyDone)
      ensures var n := if count < names then count else names;
              && loads == old(loads) + [Load(slot, sources, |old(gpu.caller)|, |old(gpu.copies)| + 1, n)]
              && |gpu.copies| == |old(gpu.copies)| + 1 + n && old(gpu.copies) <= gpu.copies
      ensures current == old(current)[slot := |old(loads)|]
    {
      hide CopiesOK, CallersOK, WaitsOK, AcyclicOK, BuffersOK, FitsOK;
      assert forall source <- sources :: |source| <= capacity;
      StartLoadSound(gpu, loads, slot, sources, names, capacity);
      var (started, d) := StartLoad(gpu, slot, sources);
      current := current[slot := |loads|];
      gpu, loads := started, loads + [d];
      var n := 0;
      while n < names && n < count
        invariant 0 <= n <= names && n <= count && Shape() && Sound(gpu, loads, names, capacity)
        invariant loads == old(loads) + [d.(enq := n)] && current == old(current)[slot := |old(loads)|]
        invariant |gpu.copies| == |old(gpu.copies)| + 1 + n && old(gpu.copies) <= gpu.copies
        invariant gpu.caller == old(gpu.caller) && gpu.callerDone == old(gpu.callerDone) && gpu.copyDone == old(gpu.copyDone)
      {
        AddCopySound(gpu, loads, names, capacity);
        gpu := PushCopy(gpu, NextCopy(loads));
        loads := Advance(loads);
        n := n + 1;
      }
    }

    method WaitReady(l: StagingLease, layer: nat, ok: bool) returns (out: Outcome)
      requires Valid()
      modifies this`slotReady, this`gpu, l
      ensures Valid() && l.closed == old(l.closed) && l.cycle == old(l.cycle)
      ensures out.Refused? <==> !old(Owns(l, layer))
      ensures out.Refused? ==> unchanged(this) && unchanged(l)
      ensures out.Done? <==> !out.Refused? && ok
      ensures out.Done? ==> Viewable(l, layer) && gpu == PushCaller(old(gpu), AwaitCopy(readyEvents[layer % 2]))
      ensures out.Done? ==> slotReady == old(slotReady)[layer % 2 := true]
      ensures out.Failed? ==> l.interrupted && gpu == old(gpu) && slotReady == old(slotReady)
    {
      if !Owns(l, layer) {
        return Refused;
      }
      if !ok {
        l.interrupted := true;
        return Failed;
      }
      var slot := layer % 2;
      var op := AwaitCopy(readyEvents[slot]);
      assert LoadQueued(gpu, loads[current[slot]]);
      PushCallerSound(gpu, op, loads, names, capacity);
      assert forall a <- gpu.caller :: a in PushCaller(gpu, op).caller;
      assert PushCaller(gpu, op).caller[|gpu.caller|] == op;
      gpu := PushCaller(gpu, op);
      slotReady := slotReady[slot := true];
      out := Done;
    }

    /** Work queued on borrowed views: it reads the slot, or writes a suffix behind the copied history. */
    method Consume(l: StagingLease, layer: nat) returns (out: Outcome)
      requires Valid()
      modifies this`gpu
      ensures Valid()
      ensures out.Done? <==> Viewable(l, layer)
      ensures out.Done? ==> gpu == PushCaller(old(gpu), Use(layer % 2, current[layer % 2])) && current[layer % 2] < |loads|
      ensures !out.Done? ==> out.Refused? && unchanged(this)
    {
      if !Viewable(l, layer) {
        return Refused;
      }
      var op := Use(layer % 2, current[layer % 2]);
      PushCallerSound(gpu, op, loads, names, capacity);
      assert forall a <- gpu.caller :: a in PushCaller(gpu, op).caller;
      gpu := PushCaller(gpu, op);
      out := Done;
    }

    method WriteSuffix(l: StagingLease, layer: nat, name: nat, at: nat, data: seq<Record>) returns (out: Outcome)
      requires Valid()
      requires Viewable(l, layer) ==> name < names && |loads[current[layer % 2]].sources[name]| <= at
      modifies this`gpu
      ensures Valid()
      ensures out.Done? <==> Viewable(l, layer)
      ensures out.Done? ==> gpu == PushCaller(old(gpu), Suffix(layer % 2, current[layer % 2], name, at, data))
      ensures !out.Done? ==> out.Refused? && unchanged(this)
    {
      if !Viewable(l, layer) {
        return Refused;
      }
      var op := Suffix(layer % 2, current[layer % 2], name, at, data);
      PushCallerSound(gpu, op, loads, names, capacity);
      assert forall a <- gpu.caller :: a in PushCaller(gpu, op).caller;
      gpu := PushCaller(gpu, op);
      out := Done;
    }

    method Reset(l: StagingLease, confirmed: bool) returns (out: Outcome)
      requires Valid()
      modifies this`identities, this`slotReady, this`gpu, this`poisoned, l
      ensures Valid() && l.closed == old(l.closed)
      ensures out.Refused? <==> !old(active == l && !l.closed && !closed && !poisoned)
      ensures out.Refused? ==> unchanged(this) && unchanged(l)
      ensures out.Done? <==> !out.Refused? && confirmed
      ensures out.Done? ==> Drained(gpu) && identities == [None, None] && Usable(l) && l.cycle == old(l.cycle) + 1
      ensures out.Failed? ==> poisoned && active == l && identities == old(identities) && l.cycle == old(l.cycle)
    {
      if active != l || l.closed || closed || poisoned {
        return Refused;
      }
      Join(confirmed);
      if !confirmed {
        return Failed;
      }
      identities, slotReady := [None, None], [false, false];
      l.cycle := l.cycle + 1;
      l.interrupted := false;
      out := Done;
    }

    /** A closed lease leaves both streams empty, or the storage poisoned and still owned by it. */
    method CloseLease(l: StagingLease, confirmed: bool) returns (out: Outcome)
      requires Valid()
      modifies this`identities, this`slotReady, this`gpu, this`poisoned, this`active, l
      ensures Valid()
      ensures out.Refused? <==> !old(l.closed) && old(active) != l
      ensures out.Refused? || old(l.closed) ==> unchanged(this) && unchanged(l)
      ensures !out.Refused? ==> l.closed
      ensures !out.Refused? && !old(l.closed) && confirmed ==> out.Done? && Drained(gpu) && active == null && identities == [None, None]
      ensures !out.Refused? && !old(l.closed) && !confirmed ==> out.Failed? && poisoned && active == l
      ensures old(poisoned) ==> poisoned
    {
      if l.closed {
        return Done;
      }
      if active != l {
        return Refused;
      }
      Join(confirmed);
      l.closed := true;
      if !confirmed {
        return Failed;
      }
      identities, slotReady := [None, None], [false, false];
      active := null;
      out := Done;
    }

    method Close(confirmed: bool) returns (out: Outcome)
      requires Valid()
      modifies this`identities, this`slotReady, this`gpu, this`poisoned, this`active, this`closed
      ensures Valid()
      ensures out.Refused? <==> !old(closed) && old(active) != null && !old(active).closed
      ensures out.Refused? ==> unchanged(this)
      ensures out.Done? ==> closed && active == null && Drained(gpu)
      ensures out.Failed? ==> poisoned && active == old(active) && !closed && !confirmed
      ensures out.Failed? <==> !old(closed) && old(active) != null && old(active).closed && !confirmed
    {
      if closed {
        return Done;
      }
      if active != null {
        if !active.closed {
          return Refused;
        }
        Join(confirmed);
        if !confirmed {
          return Failed;
        }
        active := null;
      }
      identities, slotReady := [None, None], [false, false];
      closed := true;
      out := Done;
    }
  }
}
