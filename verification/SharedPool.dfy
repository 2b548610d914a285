/** The pool object: fields updated in place, one method an action, each tied to the pool state machine. */
module SharedPool {
  import opened TokenTypes
  import opened TokenStore
  import opened TokenPool
  import opened PoolWritebacks
  import opened PoolTransactions
  import opened PoolAppend
  import opened PoolRecall
  import opened PoolSessions
  import opened PoolRuns
  import opened PoolMeanings

  class SharedTokenPool {
    const cfg: Config
    var layers: seq<Layer>
    var sessions: map<nat, Session>
    var nextOwner: nat
    var freePages: set<nat>
    var writes: seq<Ticket>
    var active: Option<(nat, nat)>
    var topology: nat

    function Model(): Pool
      reads this
    {
      Pool(cfg, layers, sessions, nextOwner, freePages, writes, active, topology)
    }

    ghost predicate Sound()
      reads this
    {
      Inv(Model())
    }

    constructor (p: Pool)
      requires Inv(p)
      ensures Sound() && Model() == p
    {
      cfg, layers, sessions, nextOwner := p.cfg, p.layers, p.sessions, p.nextOwner;
      freePages, writes, active, topology := p.freePages, p.writes, p.active, p.topology;
    }

    // ----- the writeback queue

    /** The copy engine lands one cell of one queued copy, in any order. */
    method Land(k: nat, j: nat)
      requires Sound() && InLayers(Model()) && k < |writes| && j < |writes[k].source|
      modifies this`layers, this`writes
      ensures Sound() && InLayers(Model()) && Model() == LandCell(old(Model()), k, j)
    {
      hide Inv;
      LandCellInv(Model(), k, j);
      var t := writes[k];
      layers := layers[t.layer := LandHost(sessions, layers[t.layer], t, j)];
      writes := MarkLanded(writes, k, j);
    }

    /** Wait for one copy: every cell lands. */
    method Synchronize(k: nat)
      requires Sound() && InLayers(Model()) && k < |writes|
      modifies this`layers, this`writes
      ensures Sound() && InLayers(Model()) && Model() == Sync(old(Model()), k)
    {
      hide Inv;
      ghost var was := Model();
      var n := 0;
      while n < |writes[k].source|
        invariant k < |writes| && n <= |was.writes[k].source| && Sound() && InLayers(Model()) && Model() == LandFirst(was, k, n)
      {
        Land(k, n);
        n := n + 1;
      }
    }

    method PopFinished()
      requires Sound() && InLayers(Model()) && writes != [] && Done(writes[0])
      modifies this`writes
      ensures Sound() && InLayers(Model()) && Model() == Pop(old(Model()))
    {
      hide Inv;
      PopInv(Model());
      writes := writes[1..];
    }

    /** Retire finished copies from the front; with `room`, first wait until the queue is below its bound. */
    method ReapWrites(room: bool)
      requires Sound() && InLayers(Model()) && cfg.maxWrites >= 1
      modifies this`layers, this`writes
      ensures Sound() && InLayers(Model()) && Model() == Reap(old(Model()), room)
      ensures room ==> |writes| < cfg.maxWrites
    {
      hide Inv;
      while writes != [] && ((room && |writes| >= cfg.maxWrites) || Done(writes[0]))
        invariant Sound() && InLayers(Model()) && Reap(Model(), room) == Reap(old(Model()), room)
        decreases |writes|
      {
        if room && |writes| >= cfg.maxWrites {
          Synchronize(0);
        }
        PopFinished();
      }
    }

    /** Wait for every queued copy and forget the queue. */
    method DrainWrites()
      requires Sound() && InLayers(Model())
      modifies this`layers, this`writes
      ensures Sound() && InLayers(Model()) && Model() == Drain(old(Model())) && writes == []
    {
      hide Inv;
      while writes != []
        invariant Sound() && InLayers(Model()) && Drain(Model()) == Drain(old(Model()))
        decreases |writes|
      {
        Synchronize(0);
        PopFinished();
      }
    }

    /** Before any read of a session's host records: none of its copies on this layer is outstanding. */
    method WaitHostCopies(o: nat, l: nat)
      requires Sound() && InLayers(Model()) && cfg.maxWrites >= 1
      modifies this`layers, this`writes
      ensures Sound() && InLayers(Model()) && Model() == WaitHost(old(Model()), o, l)
      ensures forall i: nat :: !InFlight(writes, l, o, i)
    {
      hide Inv, Sync, Reap;
      WaitHostInv(Model(), o, l);
      ReapWrites(false);
      ghost var q := Model();
      var k := 0;
      while k < |writes|
        invariant k <= |writes| == |q.writes| && Sound() && InLayers(Model()) && Model() == SyncMine(q, o, l, k)
      {
        if writes[k].owner == o && writes[k].layer == l {
          Synchronize(k);
        }
        k := k + 1;
      }
    }

    // ----- leases and step boundaries

    /** Take the exclusive operation lease: until it is closed nobody else may operate anywhere. */
    method Enter(o: nat, l: nat) returns (ok: bool)
      requires Sound()
      modifies this`layers, this`active
      ensures Sound() && ok == Allowed(old(Model()), Opened(o, l)) && Model() == Step(old(Model()), Opened(o, l))
      ensures SameLogical(old(Model()), Model()) && sessions == old(sessions) && (!ok ==> Model() == old(Model()))
      ensures ok ==> Exclusive(Model(), o, l) && OwnProofs(Model(), o, l)
    {
      EnterMeans(Model(), o, l);
      hide Inv, Step, Allowed, SameLogical, Exclusive, OwnProofs, LeaseFree;
      ok := Exists(Model(), o, l) && LeaseFree(Model(), o, l);
      if ok {
        TakeLease(o, l);
      }
    }

    method TakeLease(o: nat, l: nat)
      requires l < |layers|
      modifies this`layers, this`active
      ensures Model() == PoolTransactions.Enter(old(Model()), o, l)
    {
      layers := layers[l := LeaseTo(layers[l], o)];
      active := Some((o, l));
    }

    method Exit()
      requires Sound()
      modifies this`active
      ensures Sound() && Model() == Step(old(Model()), Closed)
    {
      CloseMeans(Model());
      hide Inv, Step;
      active := None;
    }

    /** Reserve the next `count` tokens: no sequence changes, and appends are accepted exactly within the reservation. */
    method BeginStep(o: nat, l: nat, count: nat) returns (ok: bool)
      requires Sound()
      modifies this`layers
      ensures Sound() && ok == Allowed(old(Model()), Began(o, l, count)) && Model() == Step(old(Model()), Began(o, l, count))
      ensures SameLogical(old(Model()), Model()) && (!ok ==> Model() == old(Model()))
      ensures ok ==> Reserves(old(Model()), Model(), o, l, count)
    {
      BeginMeans(Model(), o, l, count);
      hide Inv, Step, Allowed, CanBegin, SameLogical, Reserves;
      ok := CanBegin(Model(), o, l, count);
      if ok {
        BeganExists(Model(), o, l, count);
        OpenStep(o, l, count);
      }
    }

    method OpenStep(o: nat, l: nat, count: nat)
      requires Exists(Model(), o, l)
      modifies this`layers
      ensures Model() == PoolTransactions.BeginStep(old(Model()), o, l, count)
    {
      var v := layers[l].views[o];
      layers := layers[l := layers[l].(views := layers[l].views[o :=
        v.(stepEnd := Some(v.length + count), written := v.length, visibleEnd := v.length)])];
    }

    /** Lease the candidate rows: no sequence changes, and no other session gets the layer until they are given back. */
    method BeginTransient(o: nat, l: nat, count: nat) returns (ok: bool)
      requires Sound()
      modifies this`layers
      ensures Sound() && ok == Allowed(old(Model()), BeganTransient(o, l, count))
      ensures Model() == Step(old(Model()), BeganTransient(o, l, count))
      ensures SameLogical(old(Model()), Model()) && (!ok ==> Model() == old(Model()))
      ensures ok ==> l < |layers| && forall q :: q != o ==> !LeaseFree(Model(), q, l)
    {
      TransientMeans(Model(), o, l, count);
      TransientExists(Model(), o, l, count);
      hide Inv, Step, Allowed, SameLogical, LeaseFree, CanBeginTransient;
      ok := CanBeginTransient(Model(), o, l, count);
      if ok {
        LeaseRows(o, l, count);
      }
    }

    method LeaseRows(o: nat, l: nat, count: nat)
      requires Exists(Model(), o, l)
      modifies this`layers
      ensures Model() == PoolTransactions.BeginTransient(old(Model()), o, l, count)
    {
      layers := layers[l := BeginTransientAt(LeaseTo(layers[l], o), o, count)];
    }

    /** Announce indexed tokens: no sequence changes, and a prefetch may be prepared exactly for batches up to `end`. */
    method DeclareVisible(o: nat, l: nat, end: nat) returns (ok: bool)
      requires Sound()
      modifies this`layers
      ensures Sound() && ok == Allowed(old(Model()), Declared(o, l, end)) && Model() == Step(old(Model()), Declared(o, l, end))
      ensures SameLogical(old(Model()), Model()) && (!ok ==> Model() == old(Model()))
      ensures ok ==> Announces(old(Model()), Model(), o, l, end)
    {
      DeclareMeans(Model(), o, l, end);
      hide Inv, Step, Allowed, SameLogical, Announces;
      ok := CanDeclare(Model(), o, l, end);
      if ok {
        MoveEnd(o, l, end);
      }
    }

    method MoveEnd(o: nat, l: nat, end: nat)
      requires Exists(Model(), o, l)
      modifies this`layers
      ensures Model() == PoolTransactions.DeclareVisible(old(Model()), o, l, end)
    {
      layers := layers[l := layers[l].(views := layers[l].views[o := layers[l].views[o].(visibleEnd := end)])];
    }

    /** Close a finished persistent step: what was written is committed, nothing is in flight, no sequence changes. */
    method Commit(o: nat, l: nat) returns (ok: bool)
      requires Sound()
      modifies this`layers, this`writes
      ensures Sound() && ok == Allowed(old(Model()), Committed(o, l)) && Model() == Step(old(Model()), Committed(o, l))
      ensures SameLogical(old(Model()), Model()) && (!ok ==> Model() == old(Model()))
      ensures ok ==> Commits(old(Model()), Model(), o, l)
    {
      CommitMeans(Model(), o, l);
      hide Inv, Step, Allowed, SameLogical, Commits;
      ok := CanCommit(Model(), o, l);
      if ok {
        CloseStep(o, l);
      }
    }

    method CloseStep(o: nat, l: nat)
      requires Sound() && InLayers(Model()) && Exists(Model(), o, l)
      modifies this`layers, this`writes
      ensures Model() == PoolTransactions.Commit(old(Model()), o, l)
    {
      hide Inv;
      DrainWrites();
      var v := layers[l].views[o];
      layers := layers[l := layers[l].(views := layers[l].views[o := v.(length := v.written, stepEnd := None)])];
    }

    // ----- shrinking; a refused call has drained, and a refused rollback may have closed the step

    /** Back to the committed history, in the order of the source; refused half-way it leaves a closed step behind. */
    method Rollback(o: nat, l: nat) returns (ok: bool)
      requires Sound()
      modifies this`layers, this`writes
      ensures ok == Allowed(old(Model()), RolledBack(o, l)) && Model() == Step(old(Model()), RolledBack(o, l))
      ensures Sound() <==> !Torn(old(Model()), RolledBack(o, l))
      ensures ok ==> l < |old(layers)| && o in old(layers)[l].views && CutDone(old(Model()), Model(), o, l, old(layers)[l].views[o].length)
    {
      RollbackMeans(Model(), o, l);
      hide Inv, Step, Allowed, Torn, CutDone, RolledLegal, LeaseFree;
      if InStep(Model(), o, l) {
        ok := RollStep(o, l);
      } else {
        ok := GiveBack(o, l);
      }
    }

    /** Drain, close an own prefetch, close the step; only then is the lease for the truncation taken, or refused. */
    method RollStep(o: nat, l: nat) returns (ok: bool)
      requires Sound() && Sane(Model()) && InStep(Model(), o, l)
      requires LeaseFree(Model(), o, l) ==> RolledLegal(Model(), o, l)
      modifies this`layers, this`writes
      ensures ok == LeaseFree(old(Model()), o, l) && Model() == RolledBackTo(old(Model()), o, l)
    {
      ghost var p := Model();
      RolledDrain(p, o, l);
      RolledFree(p, o, l);
      if LeaseFree(p, o, l) { RolledCut(p, o, l); }
      hide Inv, RolledLegal, LeaseFree, Abandon, CutTo, Trimmed;
      DrainWrites();
      var len := layers[l].views[o].length;
      if OwnPrefetch(Model(), o, l) {
        if !LeaseFree(Model(), o, l) {
          return false;
        }
        ClosePrefetch(l);
      }
      GiveUpStep(o, l);
      if !LeaseFree(Model(), o, l) {
        return false;
      }
      Trim(o, l, len);
      ok := true;
    }

    method ClosePrefetch(l: nat)
      requires l < |layers| && Shaped(layers[l].store)
      modifies this`layers
      ensures Model() == SetLayer(old(Model()), l, CloseAt(old(layers)[l], cfg.limit))
    {
      layers := layers[l := CloseAt(layers[l], cfg.limit)];
    }

    method GiveUpStep(o: nat, l: nat)
      requires Exists(Model(), o, l)
      modifies this`layers
      ensures Model() == Abandon(old(Model()), o, l)
    {
      layers := layers[l := layers[l].(views := layers[l].views[o := layers[l].views[o].(stepEnd := None)])];
    }

    /** Take the lease and forget every host ID from `len` on, with the rows that hold them. */
    method Trim(o: nat, l: nat, len: nat)
      requires l < |layers| && Cuttable(sessions, LeaseTo(layers[l], o), o, len)
      modifies this`layers
      ensures Model() == Trimmed(old(Model()), o, l, len)
    {
      layers := layers[l := TruncateAt(sessions, LeaseTo(layers[l], o), o, len)];
    }

    /** Cut the committed history to its first `len` tokens. */
    method Truncate(o: nat, l: nat, len: nat) returns (ok: bool)
      requires Sound()
      modifies this`layers, this`writes
      ensures Sound() && ok == Allowed(old(Model()), Truncated(o, l, len))
      ensures Model() == Step(old(Model()), Truncated(o, l, len))
      ensures if ok then CutDone(old(Model()), Model(), o, l, len) else SameLogical(old(Model()), Model())
    {
      TruncateMeans(Model(), o, l, len);
      hide Inv, Step, Allowed, CutDone, SameLogical;
      if !Truncatable(Model(), o, l, len) {
        return false;
      }
      ok := CutStep(o, l, len);
    }

    method CutStep(o: nat, l: nat, len: nat) returns (ok: bool)
      requires Sound() && Sane(Model()) && Truncatable(Model(), o, l, len)
      requires LeaseFree(Model(), o, l) ==> Cuttable(sessions, LeaseTo(CloseAt(Drain(Model()).layers[l], cfg.limit), o), o, len)
      modifies this`layers, this`writes
      ensures ok == LeaseFree(old(Model()), o, l)
      ensures Model() == if ok then CutTo(old(Model()), o, l, len) else Drain(old(Model()))
    {
      FreeSame(Model(), Drain(Model()), o, l);
      hide Inv, LeaseFree, Cuttable, CloseAt, LeaseTo;
      DrainWrites();
      if !LeaseFree(Model(), o, l) {
        return false;
      }
      layers := layers[l := TruncateAt(sessions, LeaseTo(CloseAt(layers[l], cfg.limit), o), o, len)];
      ok := true;
    }

    /** Drop the suffix: back to the committed history, and the candidate rows are free again. */
    method DiscardTransient(o: nat, l: nat) returns (ok: bool)
      requires Sound()
      modifies this`layers, this`writes
      ensures Sound() && ok == Allowed(old(Model()), Discarded(o, l)) && Model() == Step(old(Model()), Discarded(o, l))
      ensures ok ==> l < |old(layers)| && o in old(layers)[l].views && CutDone(old(Model()), Model(), o, l, old(layers)[l].views[o].length)
      ensures ok ==> layers[l].candidate.None?
      ensures !ok ==> SameLogical(old(Model()), Model())
    {
      DiscardMeans(Model(), o, l);
      PoolFacts(Model());
      hide Inv, Step, Allowed, CutDone, SameLogical;
      ok := GiveBack(o, l);
    }

    method GiveBack(o: nat, l: nat) returns (ok: bool)
      requires Sound() && Sane(Model())
      modifies this`layers, this`writes
      ensures ok == CanDiscard(old(Model()), o, l)
      ensures Model() == if ok then Discard(old(Model()), o, l)
                         else if HoldsRows(old(Model()), o, l) then Drain(old(Model())) else old(Model())
    {
      HolderIsTransient(Model(), o, l);
      if !HoldsRows(Model(), o, l) {
        return false;
      }
      FreeSame(Model(), Drain(Model()), o, l);
      hide Inv, LeaseFree, CloseAt, LeaseTo, DiscardAt;
      DrainWrites();
      if !LeaseFree(Model(), o, l) {
        return false;
      }
      ClosedExists(layers[l], cfg.limit, o);
      layers := layers[l := DiscardAt(LeaseTo(CloseAt(layers[l], cfg.limit), o), o)];
      ok := true;
    }

    // ----- recall and append

    /** Exact recall: each returned row holds the record the session wrote at that position; padding stays -1. */
    method EnsureRecords(o: nat, l: nat, idx: seq<int>) returns (rows: Option<seq<int>>)
      requires Sound()
      modifies this`layers, this`writes
      ensures Sound() && rows.Some? == Allowed(old(Model()), Action.Recall(o, l, idx))
      ensures Model() == Step(old(Model()), Action.Recall(o, l, idx))
      ensures rows.Some? ==> Exists(old(Model()), o, l) && |rows.value| == |idx| && sessions == old(sessions)
      ensures rows.Some? ==> forall k :: 0 <= k < |idx| ==> ReadsLogical(old(Model()), Model(), o, l, idx[k], rows.value[k])
    {
      ghost var p := Model();
      RecallSteps(p, o, l, idx);
      if !CanEnsure(Model(), o, l, idx) {
        return None;
      }
      RecallReads(p, o, l, idx);
      hide Inv, Step, Allowed, CanEnsure, ReadsLogical;
      var physical := RecallRows(o, l, idx);
      rows := Some(physical);
    }

    method RecallRows(o: nat, l: nat, idx: seq<int>) returns (rows: seq<int>)
      requires Sound() && CanEnsure(Model(), o, l, idx)
      modifies this`layers, this`writes
      ensures Model() == Ensure(old(Model()), o, l, idx) && l < |layers| && o in layers[l].views
      ensures rows == PhysicalRows(cfg, sessions, layers[l], o, idx)
    {
      ghost var p := Model();
      EnsureLegal(p, o, l, idx);
      EnsureKeeps(p, o, l, idx);
      LeasedInv(p, o, l);
      hide Inv, CanEnsure;
      var gs := Toks(sessions, o, History(layers[l], o, idx));
      PrepareRecall(o, l, gs);
      layers := layers[l := EnsureAt(layers[l], gs, cfg.limit)];
      rows := PhysicalRows(cfg, sessions, layers[l], o, idx);
    }

    /** Take the lease and settle whatever the clock events and host reads of a recall must wait for. */
    method PrepareRecall(o: nat, l: nat, gs: seq<int>)
      requires Sound() && InLayers(Model()) && cfg.maxWrites >= 1 && Exists(Model(), o, l) && Inv(Leased(Model(), o, l))
      requires Shaped(layers[l].store) && HostIds(layers[l].store, gs)
      modifies this`layers, this`writes
      ensures Sound() && InLayers(Model()) && Model() == BeforeRecall(old(Model()), o, l, gs)
    {
      hide Inv;
      var st := layers[l].store;
      layers := layers[l := LeaseTo(layers[l], o)];
      if AtLimit(st, cfg.limit) {
        DrainWrites();
      }
      if Misses(st, gs) != [] {
        WaitHostCopies(o, l);
      }
      if AtLimit(Protect(st, cfg.limit, gs), cfg.limit) {
        DrainWrites();
      }
    }

    /** Append: accepted, exactly the own sequence grows by the records; refused, no sequence changes. */
    method Append(o: nat, l: nat, recs: seq<Record>) returns (ok: bool)
      requires Sound()
      modifies this`layers, this`writes
      ensures Sound() && ok == Allowed(old(Model()), Appended(o, l, recs)) && Model() == Step(old(Model()), Appended(o, l, recs))
      ensures if ok then GrownBy(old(Model()), Model(), o, l, recs) else SameLogical(old(Model()), Model())
    {
      AppendMeans(Model(), o, l, recs);
      AppendIs(Model(), o, l, recs);
      hide Inv, Step, Allowed, GrownBy, SameLogical, CanAppend, Placing, Suffixed, AppendEither, AppendPersistent, Leased;
      if !CanAppend(Model(), o, l, |recs|) {
        return false;
      }
      ok := Place(o, l, recs);
    }

    /** The append once its arguments are accepted. */
    method Place(o: nat, l: nat, recs: seq<Record>) returns (ok: bool)
      requires Sound() && Exists(Model(), o, l) && CanAppend(Model(), o, l, |recs|)
      modifies this`layers, this`writes
      ensures ok == (Suffixed(old(Model()), o, l) || Placing(old(Model()), o, l, |recs|))
      ensures Model() ==
              if Suffixed(old(Model()), o, l) then AppendEither(old(Model()), o, l, recs)
              else if Placing(old(Model()), o, l, |recs|) then AppendPersistent(old(Model()), o, l, recs)
              else Leased(old(Model()), o, l)
    {
      hide Inv, CanAppend, CanPersist, DenseReady, AppendEither, AppendTransient, AppendPersistent, Logical, SameLogicalBut;
      if Suffixed(Model(), o, l) {
        SuffixFits(Model(), o, l, recs);
        WriteSuffix(o, l, recs);
        return true;
      }
      ok := Placing(Model(), o, l, |recs|);
      if ok {
        PersistHere(Model(), o, l, recs);
        AppendRecords(o, l, recs);
      } else {
        layers := layers[l := LeaseTo(layers[l], o)];
      }
    }

    /** Take the lease and write the candidate rows behind the suffix so far. */
    method WriteSuffix(o: nat, l: nat, recs: seq<Record>)
      requires Exists(Model(), o, l) && cfg.slots + 1 + |layers[l].views[o].tail| + |recs| <= |layers[l].store.rows|
      modifies this`layers
      ensures Model() == AppendTransient(old(Model()), o, l, recs)
    {
      layers := layers[l := AppendTransientAt(cfg, LeaseTo(layers[l], o), o, recs)];
    }

    /** Append to an open persistent step: settle the plan, make room in the queue, place the records, queue their writeback. */
    method AppendRecords(o: nat, l: nat, recs: seq<Record>)
      requires CanPersist(Model(), o, l, recs)
      modifies this`layers, this`writes
      ensures Sound() && Model() == AppendPersistent(old(Model()), o, l, recs)
      ensures l < |layers| && o in layers[l].views && o in old(layers)[l].views
      ensures Logical(sessions, layers[l], o) == Logical(old(sessions), old(layers)[l], o) + recs
      ensures SameLogicalBut(old(Model()), Model(), l, o)
    {
      ghost var p := Model();
      AppendPersistentInv(p, o, l, recs);
      AppendPersistentMeaning(p, o, l, recs);
      hide Inv, CanPersist, SameLogicalBut, Logical;
      PersistFacts(p, o, l, recs);
      PlaceRecords(o, l, recs);
    }

    method PlaceRecords(o: nat, l: nat, recs: seq<Record>)
      requires CanPersist(Model(), o, l, recs)
      modifies this`layers, this`writes
      ensures Model() == AppendPersistent(old(Model()), o, l, recs)
    {
      PersistFacts(Model(), o, l, recs);
      AppendPersistentLegal(Model(), o, l, recs);
      hide Inv, CanPersist, AppendReady;
      SettleAppend(o, l, |recs|);
      var start := layers[l].views[o].written;
      layers := layers[l := AppendAt(cfg, sessions, layers[l], o, recs, cfg.limit)];
      writes := QueueTicket(writes, l, o, start, recs);
    }

    method SettleAppend(o: nat, l: nat, count: nat)
      requires Exists(Model(), o, l) && Shaped(layers[l].store) && cfg.maxWrites >= 1
      requires Inv(PlannedPool(Model(), o, l, count)) && InLayers(PlannedPool(Model(), o, l, count))
      modifies this`layers, this`writes
      ensures Sound() && InLayers(Model()) && Model() == MakeRoom(PlannedPool(old(Model()), o, l, count), l)
    {
      hide Inv;
      layers := layers[l := SettlePlan(cfg, LeaseTo(layers[l], o), o, count)];
      if AtLimit(layers[l].store, cfg.limit) {
        DrainWrites();
      }
      ReapWrites(true);
    }

    /** Admit a session: it starts empty on every layer, its pages leave the free ones, no other sequence changes. */
    method AllocateSession(capacity: nat, pages: seq<nat>) returns (ok: bool)
      requires Sound()
      modifies this`layers, this`sessions, this`nextOwner, this`freePages, this`topology
      ensures Sound() && ok == Allowed(old(Model()), Admitted(capacity, pages))
      ensures Model() == Step(old(Model()), Admitted(capacity, pages))
      ensures SameLogical(old(Model()), Model()) && (!ok ==> Model() == old(Model()))
      ensures ok ==> Welcomes(old(Model()), Model(), old(nextOwner), capacity, pages)
    {
      AdmitMeans(Model(), capacity, pages);
      hide Inv, Step, Allowed, SameLogical, Welcomes;
      ok := CanAllocate(Model(), capacity, pages);
      if ok {
        Admit(capacity, pages);
      }
    }

    method Admit(capacity: nat, pages: seq<nat>)
      modifies this`layers, this`sessions, this`nextOwner, this`freePages, this`topology
      ensures Model() == Allocate(old(Model()), capacity, pages)
    {
      var owner, was := nextOwner, layers;
      sessions := sessions[owner := Session(capacity, pages)];
      layers := seq(|was|, l requires 0 <= l < |was| => was[l].(views := was[l].views[owner := FreshView(0)]));
      freePages := freePages - (set x | x in pages);
      nextOwner, topology := owner + 1, topology + 1;
      assert layers == Allocate(old(Model()), capacity, pages).layers;
    }
  }

  lemma TransientExists(p: Pool, o: nat, l: nat, count: nat)
    ensures CanBeginTransient(p, o, l, count) ==> Exists(p, o, l)
  {
  }

  lemma ClosedExists(ly: Layer, limit: Option<nat>, o: nat)
    requires Shaped(ly.store) && o in ly.views
    ensures o in LeaseTo(CloseAt(ly, limit), o).views
  {
  }

  lemma SuffixFits(p: Pool, o: nat, l: nat, recs: seq<Record>)
    requires Inv(p) && CanAppend(p, o, l, |recs|) && Suffixed(p, o, l)
    ensures p.cfg.slots + 1 + |p.layers[l].views[o].tail| + |recs| <= |p.layers[l].store.rows|
    ensures AppendEither(p, o, l, recs) == AppendTransient(p, o, l, recs)
  {
    AppendTransientInv(p, o, l, recs);
    hide Inv, CanAppend, AppendTransient, Logical, SameLogicalBut;
  }

  lemma PersistHere(p: Pool, o: nat, l: nat, recs: seq<Record>)
    requires Inv(p) && CanAppend(p, o, l, |recs|) && Exists(p, o, l) && !Suffixed(p, o, l) && Placing(p, o, l, |recs|)
    ensures CanPersist(p, o, l, recs)
  {
    hide Inv, CanAppend, DenseReady;
  }

  lemma BeganExists(p: Pool, o: nat, l: nat, count: nat)
    requires CanBegin(p, o, l, count)
    ensures Exists(p, o, l)
  {
  }

  lemma EnsureKeeps(p: Pool, o: nat, l: nat, idx: seq<int>)
    requires Inv(p) && CanEnsure(p, o, l, idx)
    ensures Exists(p, o, l) && LeaseFree(p, o, l) && l < |Ensure(p, o, l, idx).layers|
    ensures o in Ensure(p, o, l, idx).layers[l].views
  {
    EnsureLegal(p, o, l, idx);
    hide Inv;
  }

  lemma PersistFacts(p: Pool, o: nat, l: nat, recs: seq<Record>)
    requires CanPersist(p, o, l, recs)
    ensures Exists(p, o, l) && Shaped(p.layers[l].store) && p.cfg.maxWrites >= 1 && InLayers(p)
    ensures Inv(PlannedPool(p, o, l, |recs|))
  {
    PoolFacts(p);
    PlannedPoolInv(p, o, l, |recs|);
  }

  lemma RecallReads(p: Pool, o: nat, l: nat, idx: seq<int>)
    requires Inv(p) && CanEnsure(p, o, l, idx)
    ensures var r := Ensure(p, o, l, idx);
      && Exists(p, o, l) && l < |r.layers| && o in r.layers[l].views && r.sessions == p.sessions
      && forall k :: 0 <= k < |idx| ==> ReadsLogical(p, r, o, l, idx[k], PhysicalRows(r.cfg, r.sessions, r.layers[l], o, idx)[k])
  {
    EnsureKeeps(p, o, l, idx);
    EnsureLegal(p, o, l, idx);
    forall k | 0 <= k < |idx|
      ensures ReadsLogical(p, Ensure(p, o, l, idx), o, l, idx[k],
                PhysicalRows(p.cfg, p.sessions, Ensure(p, o, l, idx).layers[l], o, idx)[k])
    {
      EnsureReadsLogical(p, o, l, idx, k);
    }
  }

  /** A returned row reads back what the session had written at position `i`. */
  ghost predicate ReadsLogical(p: Pool, r: Pool, o: nat, l: nat, i: int, row: int) {
    && l < |p.layers| && l < |r.layers| && o in p.layers[l].views
    && (i < 0 ==> row == -1)
    && (i >= 0 ==>
          1 <= row < |r.layers[l].store.rows| && i < |Logical(p.sessions, p.layers[l], o)|
          && r.layers[l].store.rows[row] == Logical(p.sessions, p.layers[l], o)[i])
  }

  lemma RecallSteps(p: Pool, o: nat, l: nat, idx: seq<int>)
    requires Inv(p)
    ensures Allowed(p, Action.Recall(o, l, idx)) <==> CanEnsure(p, o, l, idx)
    ensures var r := Step(p, Action.Recall(o, l, idx));
      Inv(r) && r == if CanEnsure(p, o, l, idx) then Ensure(p, o, l, idx) else p
  {
    StepKeeps(p, Action.Recall(o, l, idx));
    InvSane(p);
    StepDoes(p, Action.Recall(o, l, idx));
    hide Inv, LeaseFree, CanEnsure, Step, Sane, StepBoundary, StepCut, AppendEither, Allocate, Release;
  }
}
