/** Query consumption: a batch whose selection exceeds the pool is split, never changed. */
module PoolConsume {
  import opened TokenTypes
  import opened Ranking
  import opened TokenStore
  import opened TokenPool
  import opened PoolWritebacks
  import opened PoolTransactions
  import opened PoolAppend
  import opened PoolRecall

  /** The consumer's result; a failed consumption still leaves a usable pool. */
  datatype Consumed<Out> = Consumed(pool: Pool, rows: Option<seq<Out>>, splits: nat)

  function Flatten(sel: seq<seq<int>>): (r: seq<int>)
    ensures forall y :: y in r <==> exists i :: 0 <= i < |sel| && y in sel[i]
  {
    if sel == [] then []
    else
      var t := Flatten(sel[1..]);
      assert forall y :: (exists i :: 0 <= i < |sel| && y in sel[i]) <==> y in sel[0] || (exists i ::
            0 <= i < |sel[1..]| && y in sel[1..][i]) by {
        FlattenCons(sel);
      }
      sel[0] + t
  }

  lemma FlattenCons(sel: seq<seq<int>>)
    requires sel != []
    ensures forall y :: (exists i :: 0 <= i < |sel| && y in sel[i]) <==> y in sel[0] || (exists i ::
          0 <= i < |sel[1..]| && y in sel[1..][i])
  {
    forall y ensures (exists i :: 0 <= i < |sel| && y in sel[i]) <==> y in sel[0] || (exists i :: 0 <= i < |sel[1..]| && y in sel[1..][i]) {
      if i :| 0 <= i < |sel| && y in sel[i] {
        if i > 0 { assert sel[1..][i - 1] == sel[i]; }
      }
      if i :| 0 <= i < |sel[1..]| && y in sel[1..][i] { assert sel[i + 1] == sel[1..][i]; }
    }
  }

  /** The session's layer is free for recall. */
  ghost predicate Usable(p: Pool, o: nat, l: nat) {
    && Inv(p) && Exists(p, o, l) && LeaseFree(p, o, l)
    && (p.layers[l].pending.Some? ==> p.layers[l].pending.value.owner != o)
  }

  /** What a consumer may ask: written tokens of a session whose layer is free for it. */
  ghost predicate Ready(p: Pool, o: nat, l: nat, sel: seq<seq<int>>) {
    && Usable(p, o, l)
    && forall i, j :: 0 <= i < |sel| && 0 <= j < |sel[i]| ==> sel[i][j] < p.layers[l].views[o].written
  }

  predicate Fits(cfg: Config, ly: Layer, o: nat, idx: seq<int>)
    requires o in ly.views
  {
    |History(ly, o, idx)| <= cfg.slots
  }

  /** The records at physical rows; negative rows are padding. */
  function Gather(st: Store, rows: seq<int>): (r: seq<Option<Record>>)
    ensures |r| == |rows|
  {
    seq(|rows|, k requires 0 <= k < |rows| => if 0 <= rows[k] < |st.rows| then Some(st.rows[rows[k]]) else None)
  }

  /** The same selection on the plain sequence. */
  function Selected(s: seq<Record>, idx: seq<int>): (r: seq<Option<Record>>)
    ensures |r| == |idx|
  {
    seq(|idx|, k requires 0 <= k < |idx| => if 0 <= idx[k] < |s| then Some(s[idx[k]]) else None)
  }

  function Attend<Q, Out>(attn: (Q, seq<Option<Record>>) -> Out, p: Pool, o: nat, l: nat, qs: seq<Q>,
                          sel: seq<seq<int>>): (r: seq<Out>)
    requires |qs| == |sel| && l < |p.layers| && o in p.layers[l].views
    ensures |r| == |qs|
  {
    seq(|qs|, i requires 0 <= i < |qs| =>
      attn(qs[i], Gather(p.layers[l].store, PhysicalRows(p.cfg, p.sessions, p.layers[l], o, sel[i]))))
  }

  /** Attention on an unbounded resident cache. */
  function Plain<Q, Out>(attn: (Q, seq<Option<Record>>) -> Out, s: seq<Record>, qs: seq<Q>, sel: seq<seq<int>>): (r: seq<Out>)
    requires |qs| == |sel|
    ensures |r| == |qs|
  {
    seq(|qs|, i requires 0 <= i < |qs| => attn(qs[i], Selected(s, sel[i])))
  }

  lemma FlatWritten(p: Pool, o: nat, l: nat, sel: seq<seq<int>>)
    requires Ready(p, o, l, sel) && Fits(p.cfg, p.layers[l], o, Flatten(sel))
    ensures CanEnsure(p, o, l, Flatten(sel))
  {
    hide Inv;
    var flat := Flatten(sel);
    forall k | 0 <= k < |flat| ensures flat[k] < p.layers[l].views[o].written {
      assert flat[k] in flat;
      var i :| 0 <= i < |sel| && flat[k] in sel[i];
      var j :| 0 <= j < |sel[i]| && sel[i][j] == flat[k];
    }
  }

  /** What a recall leaves unchanged besides the sequences. */
  ghost predicate Undisturbed(p: Pool, r: Pool, o: nat, l: nat) {
    && Usable(r, o, l) && l < |p.layers| && r.layers[l].views == p.layers[l].views && r.cfg == p.cfg && r.sessions == p.sessions
    && o in p.layers[l].views && Logical(r.sessions, r.layers[l], o) == Logical(p.sessions, p.layers[l], o)
  }

  lemma EnsureFrame(p: Pool, o: nat, l: nat, idx: seq<int>)
    requires Usable(p, o, l) && CanEnsure(p, o, l, idx)
    ensures Undisturbed(p, Ensure(p, o, l, idx), o, l)
  {
    NoPending(p, o, l);
    hide Inv, History, RecallReady, HostIds, CanEnsure, Sane, EnsureRows, SameLogical;
    var gs := Toks(p.sessions, o, History(p.layers[l], o, idx));
    EnsureLegal(p, o, l, idx);
    EnsureInv(p, o, l, idx);
    SameLogicalAt(p, Ensure(p, o, l, idx), l, o);
    hide Logical;
    var q := BeforeRecall(p, o, l, gs);
    FrameFree(p, q, o, l, EnsureAt(q.layers[l], gs, p.cfg.limit));
    hide LeaseFree;
  }

  lemma SameLogicalAt(p: Pool, r: Pool, l: nat, o: nat)
    requires SameLogical(p, r) && l < |p.layers| && o in p.layers[l].views
    ensures l < |r.layers| && o in r.layers[l].views
    ensures Logical(r.sessions, r.layers[l], o) == Logical(p.sessions, p.layers[l], o)
  {
  }

  lemma FrameFree(p: Pool, q: Pool, o: nat, l: nat, r: Layer)
    requires Exists(p, o, l) && LeaseFree(p, o, l) && OnlyHost(Leased(p, o, l), q)
    requires forall m :: 0 <= m < |p.layers| ==> p.layers[m].pending.None?
    requires r.views == q.layers[l].views && r.candidate == q.layers[l].candidate && r.pending == q.layers[l].pending
    ensures var s := SetLayer(q, l, r);
      Exists(s, o, l) && LeaseFree(s, o,
            l) && s.layers[l].pending.None? && s.layers[l].views == p.layers[l].views && s.cfg == p.cfg && s.sessions == p.sessions
  {
  }

  /** One recalled batch reads exactly the plain sequence, row by row. */
  lemma AttendsPlain<Q, Out>(attn: (Q, seq<Option<Record>>) -> Out, p: Pool, o: nat, l: nat, qs: seq<Q>, sel: seq<seq<int>>)
    requires |qs| == |sel| && Ready(p, o, l, sel) && CanEnsure(p, o, l, Flatten(sel))
    ensures var r := Ensure(p, o, l, Flatten(sel));
      l < |r.layers| && o in r.layers[l].views && Attend(attn, r, o, l, qs, sel) == Plain(attn, Logical(p.sessions,
            p.layers[l], o), qs, sel)
  {
    var flat := Flatten(sel);
    var r := Ensure(p, o, l, flat);
    EnsureKeepsView(p, o, l, flat);
    var s := Logical(p.sessions, p.layers[l], o);
    forall i | 0 <= i < |qs| ensures Gather(r.layers[l].store, PhysicalRows(r.cfg, r.sessions, r.layers[l], o,
          sel[i])) == Selected(s, sel[i]) {
      GathersRow(p, o, l, flat, sel[i]) by {
        forall j | 0 <= j < |sel[i]| ensures sel[i][j] in flat { assert sel[i][j] in sel[i]; }
      }
    }
    hide Ensure;
    hide Inv;
  }

  /** Every returned row of `flat` holds the selected record of the sequence. */
  ghost predicate RowsRead(cfg: Config, ss: map<nat, Session>, ly: Layer, o: nat, s: seq<Record>, flat: seq<int>)
    requires o in ly.views
  {
    forall k :: 0 <= k < |flat| ==> RowReads(ly, s, flat[k], PhysicalRows(cfg, ss, ly, o, flat)[k])
  }

  predicate RowReads(ly: Layer, s: seq<Record>, i: int, row: int) {
    && (i < 0 ==> row == -1)
    && (i >= 0 ==> 1 <= row < |ly.store.rows| && i < |s| && ly.store.rows[row] == s[i])
  }

  lemma GathersSelected(cfg: Config, ss: map<nat, Session>, ly: Layer, o: nat, s: seq<Record>, flat: seq<int>, idx: seq<int>)
    requires o in ly.views && RowsRead(cfg, ss, ly, o, s, flat) && forall j :: 0 <= j < |idx| ==> idx[j] in flat
    ensures Gather(ly.store, PhysicalRows(cfg, ss, ly, o, idx)) == Selected(s, idx)
  {
    var rows := PhysicalRows(cfg, ss, ly, o, idx);
    forall j | 0 <= j < |idx| ensures RowReads(ly, s, idx[j], rows[j]) {
      var k :| 0 <= k < |flat| && flat[k] == idx[j];
      assert RowReads(ly, s, flat[k], PhysicalRows(cfg, ss, ly, o, flat)[k]);
    }
  }

  ghost predicate GathersPlain(p: Pool, r: Pool, o: nat, l: nat, idx: seq<int>) {
    && l < |p.layers| && l < |r.layers| && o in p.layers[l].views && o in r.layers[l].views
    && Gather(r.layers[l].store, PhysicalRows(r.cfg, r.sessions, r.layers[l], o, idx))
       == Selected(Logical(p.sessions, p.layers[l], o), idx)
  }

  lemma GathersRow(p: Pool, o: nat, l: nat, flat: seq<int>, idx: seq<int>)
    requires Inv(p) && CanEnsure(p, o, l, flat) && (forall j :: 0 <= j < |idx| ==> idx[j] in flat)
    ensures GathersPlain(p, Ensure(p, o, l, flat), o, l, idx)
  {
    hide Inv;
    hide LeaseFree;
    hide History;
    hide Gather;
    hide Selected;
    hide Tok;
    var r := Ensure(p, o, l, flat);
    EnsureKeepsView(p, o, l, flat);
    var s := Logical(p.sessions, p.layers[l], o);
    forall k | 0 <= k < |flat| ensures RowReads(r.layers[l], s, flat[k], PhysicalRows(r.cfg, r.sessions, r.layers[l], o, flat)[k]) {
      EnsureReadsLogical(p, o, l, flat, k);
    }
    hide Ensure;
    hide Logical;
    hide PhysicalRows;
    GathersSelected(r.cfg, r.sessions, r.layers[l], o, s, flat, idx);
  }

  lemma EnsureKeepsView(p: Pool, o: nat, l: nat, flat: seq<int>)
    requires Inv(p) && CanEnsure(p, o, l, flat)
    ensures var r := Ensure(p, o, l, flat); l < |r.layers| && o in r.layers[l].views
  {
    hide Inv;
    EnsureInv(p, o, l, flat);
    hide Ensure;
    hide Logical;
  }

  /** `_consume`: recall the batch, or split it in two when its exact union exceeds the pool. */
  ghost function Consume<Q, Out>(attn: (Q, seq<Option<Record>>) -> Out, p: Pool, o: nat, l: nat, qs: seq<Q>,
                                 sel: seq<seq<int>>): (r: Consumed<Out>)
    requires |qs| == |sel| && Ready(p, o, l, sel)
    ensures Undisturbed(p, r.pool, o, l)
    decreases |qs|
  {
    hide Inv;
    hide LeaseFree;
    hide Logical;
    if Fits(p.cfg, p.layers[l], o, Flatten(sel)) then
      FlatWritten(p, o, l, sel);
      EnsureFrame(p, o, l, Flatten(sel));
      var r := Ensure(p, o, l, Flatten(sel));
      Consumed(r, Some(Attend(attn, r, o, l, qs, sel)), 0)
    else if |qs| <= 1 then Consumed(p, None, 0)
    else
      var mid := |qs| / 2;
      var left := Consume(attn, p, o, l, qs[..mid], sel[..mid]);
      if left.rows.None? then left.(splits := left.splits + 1)
      else
        var right := Consume(attn, left.pool, o, l, qs[mid..], sel[mid..]);
        if right.rows.None? then right.(splits := left.splits + right.splits + 1)
        else Consumed(right.pool, Some(left.rows.value + right.rows.value), left.splits + right.splits + 1)
  }

  /** A row of a batch selects no more history than the batch. */
  lemma FitsRow(cfg: Config, ly: Layer, o: nat, sel: seq<seq<int>>, i: nat)
    requires o in ly.views && i < |sel| && Fits(cfg, ly, o, Flatten(sel))
    ensures Fits(cfg, ly, o, sel[i])
  {
    var a, b := History(ly, o, sel[i]), History(ly, o, Flatten(sel));
    WithinDistinct(Range(0, HostEnd(ly.views[o])), sel[i]);
    WithinDistinct(Range(0, HostEnd(ly.views[o])), Flatten(sel));
    DistinctCard(a);
    DistinctCard(b);
    assert forall y :: y in a ==> y in b;
    SubsetCard(Elements(a), Elements(b));
  }

  lemma FitsOne(cfg: Config, ly: Layer, o: nat, sel: seq<seq<int>>)
    requires o in ly.views && |sel| <= 1 && (forall i :: 0 <= i < |sel| ==> Fits(cfg, ly, o, sel[i]))
    ensures Fits(cfg, ly, o, Flatten(sel))
  {
    if |sel| == 1 {
      assert Flatten(sel) == sel[0] + Flatten(sel[1..]) == sel[0];
    } else {
      WithinNone(Range(0, HostEnd(ly.views[o])));
    }
  }

  lemma {:induction false} WithinNone(xs: seq<nat>)
    ensures Within(xs, []) == []
  {
    if xs != [] { WithinNone(xs[1..]); }
  }

  /** Rows are returned exactly when every single query fits, and then each is attention on the plain sequence. */
  ghost predicate RightRows<Q, Out>(attn: (Q, seq<Option<Record>>) -> Out, p: Pool, o: nat, l: nat, qs: seq<Q>,
                                    sel: seq<seq<int>>, rows: Option<seq<Out>>)
    requires |qs| == |sel|
  {
    && l < |p.layers| && o in p.layers[l].views
    && (rows.Some? <==> forall i :: 0 <= i < |sel| ==> Fits(p.cfg, p.layers[l], o, sel[i]))
    && (rows.Some? ==> rows.value == Plain(attn, Logical(p.sessions, p.layers[l], o), qs, sel))
  }

  /** Splitting preserves meaning, and fails exactly when some single query selects too much history. */
  lemma {:induction false} ConsumeMeaning<Q, Out>(attn: (Q, seq<Option<Record>>) -> Out, p: Pool, o: nat, l: nat,
                                                  qs: seq<Q>, sel: seq<seq<int>>)
    requires |qs| == |sel| && Ready(p, o, l, sel)
    ensures RightRows(attn, p, o, l, qs, sel, Consume(attn, p, o, l, qs, sel).rows)
    decreases |qs|
  {
    hide Inv;
    hide LeaseFree;
    hide Logical;
    hide RightRows;
    if Fits(p.cfg, p.layers[l], o, Flatten(sel)) {
      WholeMeaning(attn, p, o, l, qs, sel);
    } else if |qs| <= 1 {
      SingleMeaning(attn, p, o, l, qs, sel);
    } else {
      var mid := |qs| / 2;
      hide Flatten;
      hide Fits;
      ConsumeMeaning(attn, p, o, l, qs[..mid], sel[..mid]);
      var left := Consume(attn, p, o, l, qs[..mid], sel[..mid]);
      ConsumeMeaning(attn, left.pool, o, l, qs[mid..], sel[mid..]);
      var right := Consume(attn, left.pool, o, l, qs[mid..], sel[mid..]);
      SplitMeaning(attn, p, left.pool, o, l, qs, sel, mid, left.rows, right.rows);
    }
  }

  /** The pool reads the same sequence for the session, with the same history. */
  ghost predicate SameReading(p: Pool, q: Pool, o: nat, l: nat) {
    && l < |p.layers| && l < |q.layers| && o in p.layers[l].views && o in q.layers[l].views
    && q.layers[l].views == p.layers[l].views && q.cfg == p.cfg
    && Logical(q.sessions, q.layers[l], o) == Logical(p.sessions, p.layers[l], o)
  }

  /** Both halves right: the concatenation is right, and one failing half fails the whole. */
  lemma SplitMeaning<Q, Out>(attn: (Q, seq<Option<Record>>) -> Out, p: Pool, q: Pool, o: nat, l: nat, qs: seq<Q>,
                             sel: seq<seq<int>>,
                             mid: nat, left: Option<seq<Out>>, right: Option<seq<Out>>)
    requires |qs| == |sel| && mid <= |qs| && SameReading(p, q, o, l)
    requires RightRows(attn, p, o, l, qs[..mid], sel[..mid], left) && RightRows(attn, q, o, l, qs[mid..], sel[mid..], right)
    ensures RightRows(attn, p, o, l, qs, sel, if left.Some? && right.Some? then Some(left.value + right.value) else None)
  {
    hide Logical;
    assert sel == sel[..mid] + sel[mid..] && qs == qs[..mid] + qs[mid..];
    FitsHalves(p.cfg, p.layers[l], q.layers[l], o, sel, mid);
    PlainHalves(attn, Logical(p.sessions, p.layers[l], o), qs, sel, mid);
    hide Fits;
    hide Plain;
  }

  lemma SingleMeaning<Q, Out>(attn: (Q, seq<Option<Record>>) -> Out, p: Pool, o: nat, l: nat, qs: seq<Q>, sel: seq<seq<int>>)
    requires |qs| == |sel| <= 1 && l < |p.layers| && o in p.layers[l].views && !Fits(p.cfg, p.layers[l], o, Flatten(sel))
    ensures RightRows<Q, Out>(attn, p, o, l, qs, sel, None)
  {
    if forall i :: 0 <= i < |sel| ==> Fits(p.cfg, p.layers[l], o, sel[i]) { FitsOne(p.cfg, p.layers[l], o, sel); }
  }

  lemma WholeMeaning<Q, Out>(attn: (Q, seq<Option<Record>>) -> Out, p: Pool, o: nat, l: nat, qs: seq<Q>, sel: seq<seq<int>>)
    requires |qs| == |sel| && Ready(p, o, l, sel) && Fits(p.cfg, p.layers[l], o, Flatten(sel))
    ensures CanEnsure(p, o, l, Flatten(sel))
    ensures var r := Ensure(p, o, l, Flatten(sel));
      l < |r.layers| && o in r.layers[l].views && RightRows(attn, p, o, l, qs, sel, Some(Attend(attn, r, o, l, qs, sel)))
  {
    hide Inv;
    forall i | 0 <= i < |sel| ensures Fits(p.cfg, p.layers[l], o, sel[i]) { FitsRow(p.cfg, p.layers[l], o, sel, i); }
    FlatWritten(p, o, l, sel);
    AttendsPlain(attn, p, o, l, qs, sel);
    hide Ensure;
    hide Attend;
    hide Plain;
  }

  lemma FitsHalves(cfg: Config, a: Layer, b: Layer, o: nat, sel: seq<seq<int>>, mid: nat)
    requires o in a.views && b.views == a.views && mid <= |sel|
    ensures (forall i :: 0 <= i < |sel| ==> Fits(cfg, a, o, sel[i])) <==>
      (forall i :: 0 <= i < mid ==> Fits(cfg, a, o, sel[..mid][i])) && (forall i :: 0 <= i < |sel| - mid ==> Fits(cfg, b, o, sel[mid..][i]))
  {
    assert forall idx :: History(a, o, idx) == History(b, o, idx);
    hide History;
    if (forall i :: 0 <= i < mid ==> Fits(cfg, a, o, sel[..mid][i])) && (forall i ::
          0 <= i < |sel| - mid ==> Fits(cfg, b, o, sel[mid..][i])) {
      forall i | 0 <= i < |sel| ensures Fits(cfg, a, o, sel[i]) {
        if i < mid { assert sel[..mid][i] == sel[i]; } else { assert sel[mid..][i - mid] == sel[i]; }
      }
    }
  }

  lemma PlainHalves<Q, Out>(attn: (Q, seq<Option<Record>>) -> Out, s: seq<Record>, qs: seq<Q>, sel: seq<seq<int>>, mid: nat)
    requires |qs| == |sel| && mid <= |qs|
    ensures Plain(attn, s, qs, sel) == Plain(attn, s, qs[..mid], sel[..mid]) + Plain(attn, s, qs[mid..], sel[mid..])
  {
  }
}
