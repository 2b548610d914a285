/** The consumer object: recall a batch in place, or split it and count the split. */
module AttentionRunner {
  import opened TokenTypes
  import opened TokenPool
  import opened PoolTransactions
  import opened PoolRecall
  import opened PoolConsume
  import opened SharedPool

  /** What a consumption leaves behind, and that its rows are attention on the plain sequence. */
  ghost predicate Meant<Q, Out>(attn: (Q, seq<Option<Record>>) -> Out, p: Pool, after: Pool, o: nat, l: nat,
                                qs: seq<Q>, sel: seq<seq<int>>,
                                rows: Option<seq<Out>>, splits: int)
  {
    hide Inv;
    hide LeaseFree;
    hide Logical;
    && |qs| == |sel| && splits >= 0 && Ready(p, o, l, sel)
    && Consume(attn, p, o, l, qs, sel) == Consumed(after, rows, splits)
    && Undisturbed(p, after, o, l) && RightRows(attn, p, o, l, qs, sel, rows)
  }

  lemma MeantWhole<Q, Out>(attn: (Q, seq<Option<Record>>) -> Out, p: Pool, o: nat, l: nat, qs: seq<Q>, sel: seq<seq<int>>)
    requires |qs| == |sel| && Ready(p, o, l, sel) && Fits(p.cfg, p.layers[l], o, Flatten(sel))
    ensures CanEnsure(p, o, l, Flatten(sel))
    ensures var r := Ensure(p, o, l, Flatten(sel));
      l < |r.layers| && o in r.layers[l].views && Meant(attn, p, r, o, l, qs, sel, Some(Attend(attn, r, o, l, qs, sel)), 0)
  {
    WholeMeaning(attn, p, o, l, qs, sel);
    hide Inv, RightRows, LeaseFree, Ensure, Attend, Flatten;
    EnsureFrame(p, o, l, Flatten(sel));
  }

  lemma MeantNone<Q, Out>(attn: (Q, seq<Option<Record>>) -> Out, p: Pool, o: nat, l: nat, qs: seq<Q>, sel: seq<seq<int>>)
    requires |qs| == |sel| <= 1 && Ready(p, o, l, sel) && !Fits(p.cfg, p.layers[l], o, Flatten(sel))
    ensures Meant<Q, Out>(attn, p, p, o, l, qs, sel, None, 0)
  {
    hide Inv, LeaseFree;
    SingleMeaning(attn, p, o, l, qs, sel);
  }

  ghost predicate Oversized(p: Pool, o: nat, l: nat, sel: seq<seq<int>>) {
    |sel| > 1 && Ready(p, o, l, sel) && !Fits(p.cfg, p.layers[l], o, Flatten(sel))
  }

  ghost predicate HalvesMeant<Q, Out>(attn: (Q, seq<Option<Record>>) -> Out, p: Pool, q: Pool, r: Pool, o: nat,
                                      l: nat, qs: seq<Q>, sel: seq<seq<int>>,
                                      left: Option<seq<Out>>, right: Option<seq<Out>>, a: int, b: int)
    requires |qs| == |sel|
  {
    var mid := |qs| / 2;
    && Meant(attn, p, q, o, l, qs[..mid], sel[..mid], left, a)
    && (left.Some? ==> Meant(attn, q, r, o, l, qs[mid..], sel[mid..], right, b))
    && (left.None? ==> q == r && b == 0)
  }

  function Joined<Out>(left: Option<seq<Out>>, right: Option<seq<Out>>): Option<seq<Out>> {
    if left.Some? && right.Some? then Some(left.value + right.value) else None
  }

  /** The two halves of an oversized batch, consumed one after the other. */
  lemma MeantSplit<Q, Out>(attn: (Q, seq<Option<Record>>) -> Out, p: Pool, q: Pool, r: Pool, o: nat, l: nat,
                           qs: seq<Q>, sel: seq<seq<int>>,
                           left: Option<seq<Out>>, right: Option<seq<Out>>, a: int, b: int)
    requires |qs| == |sel| && HalvesMeant(attn, p, q, r, o, l, qs, sel, left, right, a, b) && Oversized(p, o, l, sel)
    ensures Meant(attn, p, r, o, l, qs, sel, Joined(left, right), a + b + 1)
  {
    hide Inv, LeaseFree, RightRows, Fits, Flatten, Logical, Usable;
    ConsumeMeaning(attn, p, o, l, qs, sel);
    SplitUndisturbed(attn, p, q, r, o, l, qs, sel, left, right, a, b);
    hide Undisturbed, Ready;
  }

  lemma SplitUndisturbed<Q, Out>(attn: (Q, seq<Option<Record>>) -> Out, p: Pool, q: Pool, r: Pool, o: nat, l: nat,
                                 qs: seq<Q>, sel: seq<seq<int>>,
                                 left: Option<seq<Out>>, right: Option<seq<Out>>, a: int, b: int)
    requires |qs| == |sel| && HalvesMeant(attn, p, q, r, o, l, qs, sel, left, right, a, b)
    ensures Undisturbed(p, r, o, l)
  {
    hide Inv, LeaseFree, RightRows, Fits, Flatten, Logical, Usable, Ready, Consume;
  }

  /** The halves of a ready selection are ready, the second one after the first has been consumed. */
  lemma HalvesReady(p: Pool, q: Pool, o: nat, l: nat, sel: seq<seq<int>>, mid: nat)
    requires Ready(p, o, l, sel) && mid <= |sel|
    ensures Ready(p, o, l, sel[..mid]) && (Undisturbed(p, q, o, l) ==> Ready(q, o, l, sel[mid..]))
  {
    hide Usable;
  }

  class EchoAttentionRunner {
    const cache: SharedTokenPool
    var capacitySplits: nat

    constructor (cache: SharedTokenPool)
      ensures this.cache == cache && capacitySplits == 0
    {
      this.cache := cache;
      capacitySplits := 0;
    }

    /** Row by row the result of attention on the plain sequence, or none exactly when a single query selects too much. */
    method Consume<Q, Out>(attn: (Q, seq<Option<Record>>) -> Out, o: nat, l: nat, qs: seq<Q>, sel: seq<seq<int>>)
      returns (rows: Option<seq<Out>>)
      requires |qs| == |sel| && Ready(cache.Model(), o, l, sel)
      modifies this`capacitySplits, cache`layers, cache`writes
      ensures Meant(attn, old(cache.Model()), cache.Model(), o, l, qs, sel, rows, capacitySplits - old(capacitySplits))
      decreases |qs|, 1
    {
      hide Inv, LeaseFree, Meant, Ensure, Flatten, Attend;
      ghost var p := cache.Model();
      if Fits(cache.cfg, cache.layers[l], o, Flatten(sel)) {
        MeantWhole(attn, p, o, l, qs, sel);
        var physical := cache.RecallRows(o, l, Flatten(sel));
        return Some(Attend(attn, cache.Model(), o, l, qs, sel));
      }
      if |qs| <= 1 {
        MeantNone<Q, Out>(attn, p, o, l, qs, sel);
        return None;
      }
      rows := Split(attn, o, l, qs, sel);
    }

    method Split<Q, Out>(attn: (Q, seq<Option<Record>>) -> Out, o: nat, l: nat, qs: seq<Q>, sel: seq<seq<int>>)
      returns (rows: Option<seq<Out>>)
      requires |qs| == |sel| && Oversized(cache.Model(), o, l, sel)
      modifies this`capacitySplits, cache`layers, cache`writes
      ensures Meant(attn, old(cache.Model()), cache.Model(), o, l, qs, sel, rows, capacitySplits - old(capacitySplits))
      decreases |qs|, 0
    {
      hide Inv, LeaseFree, Ready, Fits, Flatten, Meant;
      ghost var p := cache.Model();
      capacitySplits := capacitySplits + 1;
      var mid := |qs| / 2;
      HalvesReady(p, p, o, l, sel, mid);
      ghost var before := capacitySplits;
      var left := Consume(attn, o, l, qs[..mid], sel[..mid]);
      ghost var q, a := cache.Model(), capacitySplits - before;
      if left.None? {
        MeantSplit(attn, p, q, q, o, l, qs, sel, left, None, a, 0);
        return None;
      }
      MeantUndisturbed(attn, p, q, o, l, qs[..mid], sel[..mid], left, a);
      HalvesReady(p, q, o, l, sel, mid);
      before := capacitySplits;
      var right := Consume(attn, o, l, qs[mid..], sel[mid..]);
      MeantSplit(attn, p, q, cache.Model(), o, l, qs, sel, left, right, a, capacitySplits - before);
      rows := Joined(left, right);
    }
  }

  lemma MeantUndisturbed<Q, Out>(attn: (Q, seq<Option<Record>>) -> Out, p: Pool, after: Pool, o: nat, l: nat,
                                 qs: seq<Q>, sel: seq<seq<int>>,
                                 rows: Option<seq<Out>>, splits: int)
    requires Meant(attn, p, after, o, l, qs, sel, rows, splits)
    ensures Undisturbed(p, after, o, l)
  {
    hide Inv, LeaseFree, Consume, Ready, RightRows;
  }
}
