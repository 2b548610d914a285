/** Derived indexer records under append, abort and truncate, against recomputation from the tokens. */
module IndexerCache {
  import opened TokenTypes

  datatype Kind = CompressedKeys | CompressedCis | PooledCis

  /** A record is a function of its own span of tokens; what that function computes is left open. */
  datatype Derivation = Derivation(f: (Kind, nat, seq<int>) -> int)

  function First(k: Kind, i: nat): nat {
    if k.PooledCis? then (if i == 0 then 0 else 64 * i - 16) else 16 * i
  }

  function Last(k: Kind, i: nat): nat {
    if k.PooledCis? then 64 * i + 80 else 16 * i + 32
  }

  /**
   * A compressed record spans 32 tokens, 16 after the one before it; a pooled record spans the five compressed records that touch
   * its block of 64 tokens, as far as they exist.
   */
  lemma SpansAre(k: Kind, i: nat)
    ensures !k.PooledCis? ==> First(k, i) == 16 * i && Last(k, i) == First(k, i) + 32
    ensures forall w: int :: 4 * i - 1 <= w <= 4 * i + 3 && w >= 0 ==>
      First(PooledCis, i) <= First(CompressedCis, w) && Last(CompressedCis, w) <= Last(PooledCis, i)
    ensures exists w: nat :: 4 * i - 1 <= w <= 4 * i + 3 && First(PooledCis, i) == First(CompressedCis, w)
    ensures exists w: nat :: 4 * i - 1 <= w <= 4 * i + 3 && Last(PooledCis, i) == Last(CompressedCis, w)
  {
    var w := if i == 0 then 0 else 4 * i - 1;
    assert First(PooledCis, i) == First(CompressedCis, w);
    assert Last(PooledCis, i) == Last(CompressedCis, 4 * i + 3);
  }

  /** The number of records published for a length: `max(0, L // 16 - 1)` and `max(0, (L - 16) // 64)`. */
  function Count(k: Kind, length: nat): nat {
    if k.PooledCis? then (if length < 16 then 0 else (length - 16) / 64)
    else if length / 16 < 1 then 0 else length / 16 - 1
  }

  /** The published records are exactly those whose whole span has arrived. */
  lemma CountIsComplete(k: Kind, i: nat, length: nat)
    ensures i < Count(k, length) <==> Last(k, i) <= length
  {
  }

  lemma CountRises(k: Kind, a: nat, b: nat)
    requires a <= b
    ensures Count(k, a) <= Count(k, b)
  {
  }

  function Compute(d: Derivation, k: Kind, i: nat, tokens: seq<int>): int
    requires Last(k, i) <= |tokens|
  {
    d.f(k, i, tokens[First(k, i)..Last(k, i)])
  }

  /** Only the span matters: a longer or shorter history that still holds it gives the same record. */
  lemma ComputePrefix(d: Derivation, k: Kind, i: nat, tokens: seq<int>, length: nat)
    requires Last(k, i) <= length <= |tokens|
    ensures Compute(d, k, i, tokens[..length]) == Compute(d, k, i, tokens)
  {
    assert tokens[..length][First(k, i)..Last(k, i)] == tokens[First(k, i)..Last(k, i)];
  }

  datatype LayerState = LayerState(lengths: Kind -> nat, validated: nat)

  datatype Reservation = Reservation(previous: LayerState, target: LayerState)

  type Buffers = map<(nat, Kind), seq<int>>

  /** The first `count` records of a kind equal recomputation on `tokens`. */
  ghost predicate Equals(d: Derivation, buffers: Buffers, layer: nat, k: Kind, count: nat, tokens: seq<int>) {
    count > 0 ==>
      && (layer, k) in buffers && count <= |buffers[(layer, k)]| && count <= Count(k, |tokens|)
      && forall i :: 0 <= i < count ==> Right(d, buffers, layer, k, i, tokens)
  }

  ghost predicate Right(d: Derivation, buffers: Buffers, layer: nat, k: Kind, i: nat, tokens: seq<int>)
    requires (layer, k) in buffers && i < |buffers[(layer, k)]|
  {
    Last(k, i) <= |tokens| && buffers[(layer, k)][i] == Compute(d, k, i, tokens)
  }

  ghost predicate Good(d: Derivation, buffers: Buffers, layer: nat, st: LayerState, tokens: seq<int>) {
    st.validated <= |tokens| && forall k: Kind :: Equals(d, buffers, layer, k, st.lengths(k), tokens)
  }

  /** Records stay right when tokens are appended, and the kept ones stay right when tokens are dropped. */
  lemma EqualsAcross(d: Derivation, buffers: Buffers, layer: nat, k: Kind, count: nat, kept: nat, tokens: seq<int>, length: nat)
    requires length <= |tokens|
    ensures Equals(d, buffers, layer, k, count, tokens[..length]) ==> Equals(d, buffers, layer, k, count, tokens)
    ensures Equals(d, buffers, layer, k, count, tokens) && kept <= count && kept <= Count(k, length) ==>
              Equals(d, buffers, layer, k, kept, tokens[..length])
  {
    CountRises(k, length, |tokens|);
    if Equals(d, buffers, layer, k, count, tokens[..length]) && count > 0 {
      forall i | 0 <= i < count ensures Right(d, buffers, layer, k, i, tokens) {
        assert Right(d, buffers, layer, k, i, tokens[..length]);
        ComputePrefix(d, k, i, tokens, length);
      }
    }
    if Equals(d, buffers, layer, k, count, tokens) && kept <= count && kept <= Count(k, length) {
      forall i | 0 <= i < kept ensures Right(d, buffers, layer, k, i, tokens[..length]) {
        assert Right(d, buffers, layer, k, i, tokens);
        CountIsComplete(k, i, length);
        ComputePrefix(d, k, i, tokens, length);
      }
    }
  }

  lemma GoodAppend(d: Derivation, buffers: Buffers, layer: nat, st: LayerState, tokens: seq<int>, length: nat)
    requires length <= |tokens| && Good(d, buffers, layer, st, tokens[..length])
    ensures Good(d, buffers, layer, st, tokens)
  {
    forall k: Kind ensures Equals(d, buffers, layer, k, st.lengths(k), tokens) {
      EqualsAcross(d, buffers, layer, k, st.lengths(k), 0, tokens, length);
    }
  }

  /** Storage agrees on every record of the layer's published prefix. */
  ghost predicate SamePrefix(a: Buffers, b: Buffers, layer: nat, st: LayerState) {
    forall k: Kind :: st.lengths(k) > 0 && (layer, k) in a ==>
      (layer, k) in b && |a[(layer, k)]| == |b[(layer, k)]|
      && forall i :: 0 <= i < st.lengths(k) && i < |a[(layer, k)]| ==> a[(layer, k)][i] == b[(layer, k)][i]
  }

  lemma GoodFrame(d: Derivation, a: Buffers, b: Buffers, layer: nat, st: LayerState, tokens: seq<int>)
    requires Good(d, a, layer, st, tokens) && SamePrefix(a, b, layer, st)
    ensures Good(d, b, layer, st, tokens)
  {
    forall k: Kind ensures Equals(d, b, layer, k, st.lengths(k), tokens) {
      assert Equals(d, a, layer, k, st.lengths(k), tokens);
      if st.lengths(k) > 0 {
        forall i | 0 <= i < st.lengths(k) ensures Right(d, b, layer, k, i, tokens) {
          assert Right(d, a, layer, k, i, tokens);
        }
      }
    }
  }

  ghost predicate AtMost(a: LayerState, b: LayerState) {
    a.validated <= b.validated && forall k: Kind :: a.lengths(k) <= b.lengths(k)
  }

  function Extended(st: LayerState, lengths: Kind -> nat, validated: nat): LayerState {
    LayerState(k => Max(st.lengths(k), lengths(k)), Max(st.validated, validated))
  }

  lemma ExtendedIsMore(st: LayerState, lengths: Kind -> nat, validated: nat, n: nat)
    ensures var r := Extended(st, lengths, validated);
      && AtMost(st, r) && r.validated == Max(st.validated, validated)
      && forall k: Kind :: r.lengths(k) == Max(st.lengths(k), lengths(k))
    ensures st.validated <= n && validated <= n ==> Extended(st, lengths, validated).validated <= n
  {
  }

  predicate LengthsFit(lengths: Kind -> nat, maxLength: nat) {
    lengths(CompressedKeys) <= Count(CompressedKeys, maxLength) && lengths(CompressedCis) <= Count(CompressedCis, maxLength)
    && lengths(PooledCis) <= Count(PooledCis, maxLength)
  }

  lemma LengthsFitAll(lengths: Kind -> nat, maxLength: nat)
    ensures LengthsFit(lengths, maxLength) <==> forall k: Kind :: lengths(k) <= Count(k, maxLength)
  {
    if LengthsFit(lengths, maxLength) {
      forall k: Kind ensures lengths(k) <= Count(k, maxLength) {
        match k case CompressedKeys => case CompressedCis => case PooledCis =>
      }
    }
  }

  function Empty(): LayerState { LayerState(k => 0, 0) }

  class IndexerCache {
    const layers: nat
    const maxLength: nat
    const derivation: Derivation
    /** The owner's visible tokens: the committed prefix, and the pending append while a step is open. */
    var tokens: seq<int>
    var length: nat
    var pendingEnd: Option<nat>
    var committed: seq<LayerState>
    var pending: map<nat, LayerState>
    var reservations: map<nat, Reservation>
    var buffers: Buffers

    function State(layer: nat): LayerState
      requires layer < |committed|
      reads this
    {
      if layer in pending then pending[layer] else committed[layer]
    }

    ghost predicate Cursors()
      reads this
    {
      && |committed| == layers && length <= |tokens| <= maxLength
      && |tokens| == (if pendingEnd.Some? then pendingEnd.value else length)
      && (pendingEnd.None? ==> pending == map[])
      && (forall l <- pending.Keys :: l < layers) && (forall l <- reservations.Keys :: l < layers)
      && (forall key <- buffers.Keys :: |buffers[key]| == Count(key.1, maxLength))
    }

    /** Whatever a layer publishes equals recomputation, committed or pending; reservations extend what is published. */
    ghost predicate Valid()
      reads this
    {
      && Cursors()
      && (forall l :: 0 <= l < layers ==> Good(derivation, buffers, l, committed[l], tokens[..length]))
      && (forall l <- pending.Keys :: Good(derivation, buffers, l, pending[l], tokens) && AtMost(committed[l], pending[l]))
      && (forall l <- reservations.Keys :: reservations[l].previous == State(l) && AtMost(State(l), reservations[l].target)
            && reservations[l].target.validated <= |tokens|
            && forall k: Kind :: (l, k) in buffers)
    }

    constructor (layers: nat, maxLength: nat, derivation: Derivation)
      ensures Valid() && this.layers == layers && this.maxLength == maxLength && this.derivation == derivation
      ensures length == 0 && tokens == [] && pendingEnd.None? && reservations == map[]
    {
      this.layers, this.maxLength, this.derivation := layers, maxLength, derivation;
      tokens, length, pendingEnd := [], 0, None;
      committed := seq(layers, _ => Empty());
      pending, reservations, buffers := map[], map[], map[];
    }

    lemma Bounds()
      requires Valid()
      ensures |committed| == layers && length <= |tokens| <= maxLength
    {
    }

    /** What is published now is right for the visible tokens. */
    lemma StateIsGood(layer: nat)
      requires Valid() && layer < layers
      ensures Good(derivation, buffers, layer, State(layer), tokens) && AtMost(committed[layer], State(layer))
    {
      if layer !in pending {
        GoodAppend(derivation, buffers, layer, committed[layer], tokens, length);
      }
    }

    method ReserveLayer(layer: nat, tokenLength: nat, lengths: Kind -> nat) returns (ok: bool)
      requires Valid()
      modifies this`reservations, this`buffers
      ensures Valid()
      ensures ok <==> layer < layers && layer !in old(reservations) && tokenLength <= |tokens| && forall k: Kind ::
            lengths(k) <= Count(k, maxLength)
      ensures !ok ==> reservations == old(reservations) && buffers == old(buffers)
      ensures ok ==>
                && reservations.Keys == old(reservations).Keys + {layer} && reservations[layer].previous == State(layer)
                && reservations[layer].target.validated == Max(State(layer).validated, tokenLength)
                && (forall k: Kind :: reservations[layer].target.lengths(k) == Max(State(layer).lengths(k), lengths(k)))
                && forall l <- old(reservations).Keys :: reservations[l] == old(reservations)[l]
    {
      hide Good, IndexerCache.Valid, Count, AtMost;
      Bounds();
      if !(layer < layers && layer !in reservations && tokenLength <= |tokens|) {
        return false;
      }
      LengthsFitAll(lengths, maxLength);
      if !LengthsFit(lengths, maxLength) {
        return false;
      }
      var previous := State(layer);
      Allocate(layer);
      var target := Extended(previous, lengths, tokenLength);
      StateIsGood(layer);
      ExtendedIsMore(previous, lengths, tokenLength, |tokens|);
      Hold(layer, target);
      ok := true;
    }

    method Hold(layer: nat, target: LayerState)
      requires Valid() && layer < layers && layer !in reservations && (forall k: Kind :: (layer, k) in buffers)
      requires AtMost(State(layer), target) && target.validated <= |tokens|
      modifies this`reservations
      ensures Valid() && reservations == old(reservations)[layer := Reservation(State(layer), target)]
    {
      hide Good, AtMost;
      reservations := reservations[layer := Reservation(State(layer), target)];
    }

    /** Buffers appear when a layer is first reserved; nothing published is disturbed. */
    method Allocate(layer: nat)
      requires Valid() && layer < layers
      modifies this`buffers
      ensures Valid() && forall k: Kind :: (layer, k) in buffers
    {
      ghost var was := buffers;
      buffers := AllocateLayer(buffers, layer, maxLength);
      forall l: nat, st: LayerState ensures SamePrefix(was, buffers, l, st) {
        AllocateKeeps(was, layer, maxLength, l, st);
      }
      Reframe(was);
      forall k: Kind ensures (layer, k) in buffers {
        match k case CompressedKeys => case CompressedCis => case PooledCis =>
      }
    }

    lemma ReservedIsRight(layer: nat, k: Kind)
      requires Valid() && layer in reservations
      ensures layer < layers && (layer, k) in buffers && |buffers[(layer, k)]| == Count(k, maxLength)
      ensures Equals(derivation, buffers, layer, k, reservations[layer].previous.lengths(k), tokens)
    {
      StateIsGood(layer);
    }

    /** Storage may change wherever nothing is published. */
    lemma Reframe(was: Buffers)
      requires Cursors()
      requires forall l :: 0 <= l < layers ==> Good(derivation, was, l, committed[l], tokens[..length]) && SamePrefix(was, buffers, l, committed[l])
      requires forall l <- pending.Keys :: Good(derivation, was, l, pending[l], tokens) && SamePrefix(was, buffers, l, pending[l])
      ensures forall l :: 0 <= l < layers ==> Good(derivation, buffers, l, committed[l], tokens[..length])
      ensures forall l <- pending.Keys :: Good(derivation, buffers, l, pending[l], tokens)
    {
      forall l | 0 <= l < layers ensures Good(derivation, buffers, l, committed[l], tokens[..length]) {
        GoodFrame(derivation, was, buffers, l, committed[l], tokens[..length]);
      }
      forall l | l in pending ensures Good(derivation, buffers, l, pending[l], tokens) {
        GoodFrame(derivation, was, buffers, l, pending[l], tokens);
      }
    }

    /** The borrower of a reservation writes one record beyond the previous cursor. */
    method Write(layer: nat, k: Kind, i: nat, value: int)
      requires Valid() && layer in reservations && reservations[layer].previous.lengths(k) <= i < Count(k, maxLength)
      modifies this`buffers
      ensures Valid() && buffers == old(buffers)[(layer, k) := old(buffers)[(layer, k)][i := value]]
    {
      ghost var was := buffers;
      StateIsGood(layer);
      buffers := buffers[(layer, k) := buffers[(layer, k)][i := value]];
      Reframe(was);
    }

    /** Publish the reservation; the owner vouches for the records it adds. */
    method FinishLayer(layer: nat) returns (ok: bool)
      requires Valid()
      requires layer in reservations ==> Good(derivation, buffers, layer, reservations[layer].target, tokens)
      modifies this`committed, this`pending, this`reservations
      ensures Valid() && ok == (layer < layers && layer in old(reservations))
      ensures ok ==> State(layer) == old(reservations)[layer].target && reservations == old(reservations) - {layer}
      ensures !ok ==> reservations == old(reservations)
      ensures forall l :: 0 <= l < layers && l != layer ==> State(l) == old(State(l))
    {
      if !(layer < layers && layer in reservations) {
        return false;
      }
      var state := reservations[layer].target;
      reservations := reservations - {layer};
      if pendingEnd.None? {
        assert tokens[..length] == tokens;
        committed := committed[layer := state];
      } else {
        pending := pending[layer := state];
      }
      ok := true;
    }

    method AbortLayer(layer: nat)
      requires Valid()
      modifies this`reservations
      ensures Valid() && reservations == old(reservations) - {layer}
    {
      reservations := reservations - {layer};
    }

    /** The records a caller sees: each equals recomputation on the visible tokens. */
    method LayerView(layer: nat, k: Kind, count: nat) returns (view: Option<seq<int>>)
      requires Valid()
      ensures view.Some? <==> layer < layers && count <= State(layer).lengths(k)
      ensures view.Some? ==> |view.value| == count
      ensures view.Some? ==> forall i :: 0 <= i < count ==> Last(k, i) <= |tokens| && view.value[i] == Compute(derivation, k, i, tokens)
    {
      if layer >= layers || count > State(layer).lengths(k) {
        return None;
      }
      StateIsGood(layer);
      assert Equals(derivation, buffers, layer, k, State(layer).lengths(k), tokens);
      if count == 0 {
        return Some([]);
      }
      view := Some(buffers[(layer, k)][..count]);
      forall i | 0 <= i < count ensures Last(k, i) <= |tokens| && view.value[i] == Compute(derivation, k, i, tokens) {
        assert Right(derivation, buffers, layer, k, i, tokens);
      }
    }

    method BeginStep(end: nat, appended: seq<int>) returns (ok: bool)
      requires Valid() && (length < end ==> |appended| == end - length)
      modifies this`pendingEnd, this`tokens
      ensures Valid() && ok == (old(pendingEnd).None? && reservations == map[] && length < end <= maxLength)
      ensures tokens == (if ok then old(tokens) + appended else old(tokens))
      ensures pendingEnd == (if ok then Some(end) else old(pendingEnd))
    {
      if pendingEnd.Some? || reservations != map[] || !(length < end <= maxLength) {
        return false;
      }
      pendingEnd := Some(end);
      tokens := tokens + appended;
      assert tokens[..length] == old(tokens) == old(tokens)[..length];
      ok := true;
    }

    method CommitStep() returns (ok: bool)
      requires Valid()
      modifies this`committed, this`length, this`pendingEnd, this`pending
      ensures Valid() && ok == (old(pendingEnd).Some? && reservations == map[])
      ensures forall l :: 0 <= l < layers ==> State(l) == old(State(l))
      ensures length == (if ok then |tokens| else old(length)) && pendingEnd == (if ok then None else old(pendingEnd))
    {
      if pendingEnd.None? || reservations != map[] {
        return false;
      }
      forall l | 0 <= l < layers ensures Good(derivation, buffers, l, State(l), tokens) {
        StateIsGood(l);
      }
      committed := seq(layers, l requires 0 <= l < layers && |committed| == layers reads this => State(l));
      length := pendingEnd.value;
      pendingEnd, pending := None, map[];
      assert tokens[..length] == tokens;
      ok := true;
    }

    /** The step never happened: what was committed is published again, and is still right. */
    method AbortStep()
      requires Valid()
      modifies this`pendingEnd, this`pending, this`reservations, this`tokens
      ensures Valid() && tokens == old(tokens)[..length] && pendingEnd.None? && reservations == map[]
      ensures forall l :: 0 <= l < layers ==> State(l) == committed[l]
    {
      pendingEnd, pending, reservations := None, map[], map[];
      tokens := tokens[..length];
      assert tokens[..length] == old(tokens)[..length];
    }

    /** Keep at most the given records of the shorter prefix; what stays published is right exactly when it is complete there. */
    method Truncate(end: nat, lengths: Kind -> nat) returns (ok: bool)
      requires Valid()
      modifies this`committed, this`length, this`tokens
      ensures ok <==>
                pendingEnd.None? && reservations == map[] && end <= old(length) && forall k: Kind :: lengths(k) <= Count(k, maxLength)
      ensures tokens == (if ok then old(tokens)[..end] else old(tokens)) && length == (if ok then end else old(length))
      ensures |committed| == layers && |old(committed)| == layers && (!ok ==> committed == old(committed) && Valid())
      ensures ok ==> forall l, k: Kind :: 0 <= l < layers ==> State(l).lengths(k) == Min(old(committed)[l].lengths(k), lengths(k))
      ensures ok ==> (Valid() <==> KeptComplete(old(committed), lengths, end))
    {
      LengthsFitAll(lengths, maxLength);
      if pendingEnd.Some? || reservations != map[] || end > length || !LengthsFit(lengths, maxLength) {
        return false;
      }
      ghost var was, all := committed, tokens;
      committed := Shortened(committed, end, lengths);
      length := end;
      tokens := tokens[..end];
      assert tokens[..length] == all[..end] == tokens && all[..|all|] == all;
      forall l | 0 <= l < layers
        ensures Good(derivation, buffers, l, committed[l], tokens[..length]) <==> LayerComplete(was[l], lengths, end)
      {
        assert Good(derivation, buffers, l, was[l], all);
        ShortenedGood(derivation, buffers, l, was[l], lengths, all, end);
      }
      ok := true;
    }
  }

  /** Every record a layer keeps has its whole span in the shorter prefix. */
  ghost predicate LayerComplete(st: LayerState, lengths: Kind -> nat, end: nat) {
    forall k: Kind :: Min(st.lengths(k), lengths(k)) <= Count(k, end)
  }

  ghost predicate KeptComplete(committed: seq<LayerState>, lengths: Kind -> nat, end: nat) {
    forall l :: 0 <= l < |committed| ==> LayerComplete(committed[l], lengths, end)
  }

  function Shorten(st: LayerState, end: nat, lengths: Kind -> nat): LayerState {
    LayerState(k => Min(st.lengths(k), lengths(k)), Min(st.validated, end))
  }

  function Shortened(committed: seq<LayerState>, end: nat, lengths: Kind -> nat): (r: seq<LayerState>)
    ensures |r| == |committed|
  {
    seq(|committed|, l requires 0 <= l < |committed| => Shorten(committed[l], end, lengths))
  }

  /** A shortened layer is right for the shorter prefix exactly when what it keeps is complete there. */
  lemma ShortenedGood(d: Derivation, buffers: Buffers, l: nat, st: LayerState, lengths: Kind -> nat, tokens: seq<int>, end: nat)
    requires end <= |tokens| && Good(d, buffers, l, st, tokens)
    ensures Good(d, buffers, l, Shorten(st, end, lengths), tokens[..end]) <==> LayerComplete(st, lengths, end)
  {
    var r := Shorten(st, end, lengths);
    if LayerComplete(st, lengths, end) {
      forall k: Kind ensures Equals(d, buffers, l, k, r.lengths(k), tokens[..end]) {
        EqualsAcross(d, buffers, l, k, st.lengths(k), r.lengths(k), tokens, end);
      }
    }
    if Good(d, buffers, l, r, tokens[..end]) {
      forall k: Kind ensures Min(st.lengths(k), lengths(k)) <= Count(k, end) {
        assert Equals(d, buffers, l, k, r.lengths(k), tokens[..end]);
      }
    }
  }

  /** A cache that drops tokens keeps the records counted for the shorter prefix: what stays published is right. */
  method TruncatePrefix(cache: IndexerCache, end: nat) returns (ok: bool)
    requires cache.Valid()
    modifies cache`committed, cache`length, cache`tokens
    ensures cache.Valid() && (ok <==> cache.pendingEnd.None? && cache.reservations == map[] && end <= old(cache.length))
    ensures cache.tokens == if ok then old(cache.tokens)[..end] else old(cache.tokens)
    ensures ok ==> |cache.committed| == |old(cache.committed)|
    ensures ok ==> forall l, k: Kind :: 0 <= l < |cache.committed| ==>
              cache.State(l).lengths(k) == Min(old(cache.committed)[l].lengths(k), Count(k, end))
  {
    if end > cache.length {
      return false;
    }
    cache.Bounds();
    forall k: Kind ensures Count(k, end) <= Count(k, cache.maxLength) { CountRises(k, end, cache.maxLength); }
    ok := cache.Truncate(end, k => Count(k, end));
  }

  lemma AllocateKeeps(buffers: Buffers, layer: nat, maxLength: nat, l: nat, st: LayerState)
    ensures SamePrefix(buffers, AllocateLayer(buffers, layer, maxLength), l, st)
  {
  }

  function AllocateLayer(buffers: Buffers, layer: nat, maxLength: nat): (r: Buffers)
    ensures (layer, CompressedKeys) in r && (layer, CompressedCis) in r && (layer, PooledCis) in r
  {
    var b := if (layer, CompressedKeys) in buffers then buffers
             else buffers[(layer, CompressedKeys) := seq(Count(CompressedKeys, maxLength), _ => 0)];
    var c := if (layer, CompressedCis) in b then b else b[(layer, CompressedCis) := seq(Count(CompressedCis, maxLength), _ => 0)];
    if (layer, PooledCis) in c then c else c[(layer, PooledCis) := seq(Count(PooledCis, maxLength), _ => 0)]
  }

  /** The update writes exactly the records from the previous cursor to the new count, each from its own span. */
  method Update(cache: IndexerCache, layer: nat, k: Kind, end: nat, fails: bool, written: nat)
    requires cache.Valid() && layer in cache.reservations && end <= |cache.tokens|
    requires cache.reservations[layer].target.lengths(k) == Max(cache.reservations[layer].previous.lengths(k), Count(k, end))
    modifies cache`buffers
    ensures cache.Valid() && cache.buffers.Keys == old(cache.buffers).Keys
    ensures forall key <- cache.buffers.Keys :: key != (layer, k) ==> cache.buffers[key] == old(cache.buffers)[key]
    ensures !fails ==> Equals(cache.derivation, cache.buffers, layer, k, cache.reservations[layer].target.lengths(k), cache.tokens)
  {
    hide Good, Compute, AtMost, Count, IndexerCache.Valid, Equals;
    var previous := cache.reservations[layer].previous.lengths(k);
    var count := Count(k, end);
    cache.Bounds();
    CountRises(k, end, |cache.tokens|);
    CountRises(k, |cache.tokens|, cache.maxLength);
    cache.ReservedIsRight(layer, k);
    var i := Min(previous, count);
    while i < count && !(fails && i - Min(previous, count) >= written)
      invariant Min(previous, count) <= i <= count && cache.Valid() && cache.buffers.Keys == old(cache.buffers).Keys
      invariant forall key <- cache.buffers.Keys :: key != (layer, k) ==> cache.buffers[key] == old(cache.buffers)[key]
      invariant Equals(cache.derivation, cache.buffers, layer, k, Max(previous, i), cache.tokens)
    {
      CountIsComplete(k, i, end);
      var value := Compute(cache.derivation, k, i, cache.tokens[..end]);
      ghost var was := cache.buffers;
      cache.ReservedIsRight(layer, k);
      cache.Write(layer, k, i, value);
      WriteExtends(cache.derivation, was, cache.buffers, layer, k, i, end, Max(previous, i), cache.tokens);
      i := i + 1;
    }
  }

  /** Writing the next record, computed on any history that holds its span, extends the right prefix by one. */
  lemma WriteExtends(d: Derivation, was: Buffers, now: Buffers, layer: nat, k: Kind, i: nat, end: nat, count: nat,
                     tokens: seq<int>)
    requires Equals(d, was, layer, k, count, tokens) && count == i < Count(k, end) && end <= |tokens| && Last(k, i) <= end
    requires (layer, k) in was && i < |was[(layer, k)]|
    requires (layer, k) in now && now[(layer, k)] == was[(layer, k)][i := Compute(d, k, i, tokens[..end])]
    ensures Equals(d, now, layer, k, i + 1, tokens)
  {
    ComputePrefix(d, k, i, tokens, end);
    CountRises(k, end, |tokens|);
    forall j | 0 <= j < i + 1 ensures Right(d, now, layer, k, j, tokens) {
      if j < i { assert Right(d, was, layer, k, j, tokens); }
    }
  }

  method UpdateAll(cache: IndexerCache, layer: nat, end: nat, fails: bool, written: nat)
    requires cache.Valid() && layer in cache.reservations && end <= |cache.tokens|
    requires forall k: Kind ::
          cache.reservations[layer].target.lengths(k) == Max(cache.reservations[layer].previous.lengths(k), Count(k, end))
    modifies cache`buffers
    ensures cache.Valid()
    ensures !fails ==> Good(cache.derivation, cache.buffers, layer, cache.reservations[layer].target, cache.tokens)
  {
    var d, target := cache.derivation, cache.reservations[layer].target;
    hide Right, Compute, Count, Max;
    Update(cache, layer, CompressedKeys, end, fails, written);
    ghost var one := cache.buffers;
    Update(cache, layer, CompressedCis, end, fails, written);
    ghost var two := cache.buffers;
    EqualsFrame(d, one, two, layer, CompressedKeys, target.lengths(CompressedKeys), cache.tokens);
    Update(cache, layer, PooledCis, end, fails, written);
    EqualsFrame(d, two, cache.buffers, layer, CompressedKeys, target.lengths(CompressedKeys), cache.tokens);
    EqualsFrame(d, two, cache.buffers, layer, CompressedCis, target.lengths(CompressedCis), cache.tokens);
    if !fails {
      forall k: Kind ensures Equals(d, cache.buffers, layer, k, target.lengths(k), cache.tokens) {
        match k case CompressedKeys => case CompressedCis => case PooledCis =>
      }
    }
  }

  lemma EqualsFrame(d: Derivation, a: Buffers, b: Buffers, layer: nat, k: Kind, count: nat, tokens: seq<int>)
    requires (layer, k) in a ==> (layer, k) in b && a[(layer, k)] == b[(layer, k)]
    ensures Equals(d, a, layer, k, count, tokens) ==> Equals(d, b, layer, k, count, tokens)
  {
    if Equals(d, a, layer, k, count, tokens) && count > 0 {
      forall i | 0 <= i < count ensures Right(d, b, layer, k, i, tokens) {
        assert Right(d, a, layer, k, i, tokens);
      }
    }
  }

  /** A complete set of records, computed from scratch. */
  ghost predicate Recomputed(d: Derivation, k: Kind, tokens: seq<int>, view: seq<int>) {
    |view| == Count(k, |tokens|) && forall i: nat :: i < |view| ==> Last(k, i) <= |tokens| && view[i] == Compute(d, k, i, tokens)
  }

  method Published(cache: IndexerCache, layer: nat, k: Kind, end: nat) returns (view: seq<int>)
    requires cache.Valid() && layer < cache.layers && end <= |cache.tokens| && Count(k, end) <= cache.State(layer).lengths(k)
    ensures Recomputed(cache.derivation, k, cache.tokens[..end], view)
  {
    var found := cache.LayerView(layer, k, Count(k, end));
    view := found.value;
    forall i: nat | i < Count(k, end) ensures Last(k, i) <= end && view[i] == Compute(cache.derivation, k, i, cache.tokens[..end]) {
      CountIsComplete(k, i, end);
      ComputePrefix(cache.derivation, k, i, cache.tokens, end);
    }
  }

  datatype Views = Views(keys: seq<int>, cis: seq<int>, pooled: seq<int>)

  /** Materialise a layer's records for the first `end` tokens; `fails` when the update raises after `written` records of each kind. */
  method PrepareInputs(cache: IndexerCache, layer: nat, end: nat, fails: bool, written: nat) returns (views: Option<Views>)
    requires cache.Valid() && layer < cache.layers && layer !in cache.reservations && end <= |cache.tokens|
    modifies cache`reservations, cache`buffers, cache`committed, cache`pending
    ensures cache.Valid() && cache.reservations == old(cache.reservations)
    ensures views.None? <==> fails
    ensures forall l :: 0 <= l < cache.layers && (l != layer || fails) ==> cache.State(l) == old(cache.State(l))
    ensures views.Some? ==> var d, t := cache.derivation, cache.tokens[..end];
      Recomputed(d, CompressedKeys, t, views.value.keys) && Recomputed(d, CompressedCis, t, views.value.cis)
      && Recomputed(d, PooledCis, t, views.value.pooled)
  {
    hide Good, Compute, Recomputed;
    var ok := Materialise(cache, layer, end, fails, written);
    if !ok {
      return None;
    }
    var keys := Published(cache, layer, CompressedKeys, end);
    var cis := Published(cache, layer, CompressedCis, end);
    var pooled := Published(cache, layer, PooledCis, end);
    views := Some(Views(keys, cis, pooled));
  }

  /** Reserve, update, and publish or withdraw. */
  method Materialise(cache: IndexerCache, layer: nat, end: nat, fails: bool, written: nat) returns (ok: bool)
    requires cache.Valid() && layer < cache.layers && layer !in cache.reservations && end <= |cache.tokens|
    modifies cache`reservations, cache`buffers, cache`committed, cache`pending
    ensures cache.Valid() && cache.reservations == old(cache.reservations) && ok == !fails
    ensures forall l :: 0 <= l < cache.layers && (l != layer || fails) ==> cache.State(l) == old(cache.State(l))
    ensures ok ==> forall k: Kind :: Count(k, end) <= cache.State(layer).lengths(k)
  {
    hide Good, Compute, IndexerCache.Valid;
    var lengths := k => Count(k, end);
    forall k: Kind ensures Count(k, end) <= Count(k, cache.maxLength) {
      cache.Bounds();
      CountRises(k, end, cache.maxLength);
    }
    var reserved := cache.ReserveLayer(layer, end, lengths);
    UpdateAll(cache, layer, end, fails, written);
    if fails {
      cache.AbortLayer(layer);
      return false;
    }
    ok := cache.FinishLayer(layer);
  }
}
