/** One forward pass as a transaction over every layer's cache, with failures and interrupts injected anywhere. */
module Forward {
  import opened TokenTypes

  /** A layer's cache for the model's session: `records` are those written so far, `length` of them are committed. */
  datatype Layer = Layer(pool: nat, records: seq<Record>, length: nat, stepEnd: Option<nat>)

  /**
   * Where the guarded block raises. A failed body leaves some prefix of each layer's records written and may poison pools (a body
   * that returns before every record is written is caught by the check that precedes the commits, and counts as failed); a failed
   * drain poisons its own pool. The `...Slips` and `HalfCommits` are interrupts, exceptions that no operation of the pass raised,
   * delivered between two of them: after a layer's step has begun and before the layer is recorded as started, after some layers
   * have committed, between the two assignments of one commit, and after the model's length has advanced.
   */
  datatype Fault =
    | NoFault
    | BeginFails(layer: nat)
    | BeginSlips(layer: nat)
    | BodyFails(written: seq<nat>, poisons: set<nat>)
    | SynchronizeFails
    | DrainFails(layer: nat)
    | CommitSlips(commits: nat)
    | HalfCommits(layer: nat)
    | UpdateSlips

  /**
   * What goes wrong while cleaning up: the second synchronisation, the rollback of some layers, a prefetch helper or hint offset, or an
   * interrupt outside every inner `try`, after so many layers have been visited; after none of them it comes before the
   * synchronisation counts.
   */
  datatype Cleanup = Cleanup(synchronizeFails: bool, drainFails: set<nat>, othersFail: bool, interrupt: Option<nat>)

  /** The model: its layers, the length it believes in, and what is poisoned. */
  datatype State = State(capacity: nat, layers: seq<Layer>, length: nat, poisoned: bool, pools: set<nat>)

  predicate Idle(l: Layer, length: nat) {
    l.stepEnd.None? && l.length == |l.records| == length
  }

  /** No step is open and every layer's length is the model's. */
  predicate Consistent(st: State) {
    st.length <= st.capacity && forall i :: 0 <= i < |st.layers| ==> Idle(st.layers[i], st.length)
  }

  // ----- the guarded block, phase by phase

  /** The layer's cache begins a step of `count` tokens. */
  predicate Accepts(st: State, count: nat, i: nat)
    requires i < |st.layers|
  {
    var l := st.layers[i];
    l.pool !in st.pools && l.stepEnd.None? && 1 <= count && l.length + count <= st.capacity
  }

  function Open(l: Layer, count: nat): Layer { l.(stepEnd := Some(l.length + count)) }

  function OpenFirst(ls: seq<Layer>, n: nat, count: nat): (r: seq<Layer>)
    ensures |r| == |ls|
  {
    seq(|ls|, i requires 0 <= i < |ls| => if i < n then Open(ls[i], count) else ls[i])
  }

  predicate Starts(st: State, count: nat, fault: Fault, i: nat)
    requires i < |st.layers|
  {
    Accepts(st, count, i) && fault != BeginFails(i) && fault != BeginSlips(i)
  }

  /** From layer `k` on: the first layer that is not recorded as started. */
  function Started(st: State, count: nat, fault: Fault, k: nat): (r: nat)
    requires k <= |st.layers|
    ensures k <= r <= |st.layers| && (forall i :: k <= i < r ==> Starts(st, count, fault, i))
    ensures r < |st.layers| ==> !Starts(st, count, fault, r)
    decreases |st.layers| - k
  {
    if k == |st.layers| || !Starts(st, count, fault, k) then k else Started(st, count, fault, k + 1)
  }

  /** How many layers have an open step when the loop ends: the one an interrupt kept from being recorded is among them. */
  function Begun(st: State, count: nat, fault: Fault): (r: nat)
    ensures r <= |st.layers|
  {
    var k := Started(st, count, fault, 0);
    if k < |st.layers| && fault == BeginSlips(k) && Accepts(st, count, k) then k + 1 else k
  }

  function Written(fault: Fault, i: nat, n: nat): (r: nat)
    ensures r <= n
  {
    if fault.BodyFails? then Min(if i < |fault.written| then fault.written[i] else 0, n) else n
  }

  function Appended(l: Layer, added: seq<Record>, n: nat): Layer
    requires n <= |added|
  {
    l.(records := l.records + added[..n])
  }

  function Bodied(ls: seq<Layer>, added: seq<seq<Record>>, fault: Fault): (r: seq<Layer>)
    requires |added| == |ls|
    ensures |r| == |ls|
  {
    seq(|ls|, i requires 0 <= i < |ls| => Appended(ls[i], added[i], Written(fault, i, |added[i]|)))
  }

  function Close(l: Layer): Layer { l.(length := |l.records|, stepEnd := None) }

  function CloseFirst(ls: seq<Layer>, n: nat): (r: seq<Layer>)
    ensures |r| == |ls|
  {
    seq(|ls|, i requires 0 <= i < |ls| => if i < n then Close(ls[i]) else ls[i])
  }

  predicate Commits(ls: seq<Layer>, pools: set<nat>, fault: Fault, i: nat)
    requires i < |ls|
  {
    ls[i].pool !in pools && fault != DrainFails(i) && fault != CommitSlips(i) && fault != HalfCommits(i)
  }

  /** From layer `k` on: the first layer that does not commit. */
  function Committed(ls: seq<Layer>, pools: set<nat>, fault: Fault, k: nat): (r: nat)
    requires k <= |ls|
    ensures k <= r <= |ls| && (forall i :: k <= i < r ==> Commits(ls, pools, fault, i))
    ensures r < |ls| ==> !Commits(ls, pools, fault, r)
    decreases |ls| - k
  {
    if k == |ls| || !Commits(ls, pools, fault, k) then k else Committed(ls, pools, fault, k + 1)
  }

  /** The layers when committing ends: an interrupt between the two assignments of a commit leaves a longer layer with its step open. */
  function AfterCommits(ls: seq<Layer>, pools: set<nat>, fault: Fault): (r: seq<Layer>)
    ensures |r| == |ls|
  {
    var k := Committed(ls, pools, fault, 0);
    var done := CloseFirst(ls, k);
    if k < |ls| && ls[k].pool !in pools && fault == HalfCommits(k) then done[k := ls[k].(length := |ls[k].records|)] else done
  }

  function PoolsAfterCommits(ls: seq<Layer>, pools: set<nat>, fault: Fault): set<nat> {
    var k := Committed(ls, pools, fault, 0);
    if k < |ls| && ls[k].pool !in pools && fault == DrainFails(k) then pools + {ls[k].pool} else pools
  }

  /** How the guarded block ends: it returns, or raises with some layers recorded as started. */
  datatype Attempted = Returned(st: State) | Raised(st: State, started: nat)

  function Attempt(st: State, added: seq<seq<Record>>, count: nat, fault: Fault): Attempted
    requires |added| == |st.layers|
  {
    var k := Started(st, count, fault, 0);
    var begun := OpenFirst(st.layers, Begun(st, count, fault), count);
    if k < |st.layers| then Raised(st.(layers := begun), k)
    else
      var bodied := Bodied(begun, added, fault);
      if fault.BodyFails? then Raised(st.(layers := bodied, pools := st.pools + fault.poisons), k)
      else if fault.SynchronizeFails? then Raised(st.(layers := bodied), k)
      else CommitAttempt(st.(layers := bodied), count, fault)
  }

  function CommitAttempt(st: State, count: nat, fault: Fault): Attempted {
    var ls := st.layers;
    var done := st.(layers := AfterCommits(ls, st.pools, fault), pools := PoolsAfterCommits(ls, st.pools, fault));
    if Committed(ls, st.pools, fault, 0) < |ls| || fault == CommitSlips(|ls|) then Raised(done, |ls|)
    else
      var advanced := done.(length := st.length + count);
      if fault.UpdateSlips? then Raised(advanced, |ls|) else Returned(advanced)
  }

  // ----- the handler

  function RolledBack(l: Layer): Layer {
    l.(records := l.records[..Min(l.length, |l.records|)], stepEnd := None)
  }

  datatype Undone = Undone(layers: seq<Layer>, pools: set<nat>, errors: bool)

  /** The first `n` started layers have been visited: open steps are rolled back, or count as an error. */
  function Undo(ls: seq<Layer>, pools: set<nat>, fails: set<nat>, n: nat): (u: Undone)
    requires n <= |ls|
    ensures |u.layers| == |ls| && pools <= u.pools && (forall i :: n <= i < |ls| ==> u.layers[i] == ls[i])
  {
    if n == 0 then Undone(ls, pools, false)
    else
      var u := Undo(ls, pools, fails, n - 1);
      var l := u.layers[n - 1];
      if l.stepEnd.None? then u
      else if l.pool in u.pools then u.(errors := true)
      else if n - 1 in fails then Undone(u.layers, u.pools + {l.pool}, true)
      else u.(layers := u.layers[n - 1 := RolledBack(l)])
  }

  /** The interrupt of the clean-up arrives before the clean-up could poison the model. */
  predicate CutShort(cleanup: Cleanup, started: nat) {
    cleanup.interrupt.Some? && cleanup.interrupt.value <= started && (cleanup.interrupt.value == 0 || !cleanup.synchronizeFails)
  }

  function Cleaned(st: State, started: nat, cleanup: Cleanup): State
    requires started <= |st.layers|
  {
    if CutShort(cleanup, started) then
      var u := Undo(st.layers, st.pools, cleanup.drainFails, cleanup.interrupt.value);
      st.(layers := u.layers, pools := u.pools)
    else if cleanup.synchronizeFails then st.(poisoned := true)
    else
      var u := Undo(st.layers, st.pools, cleanup.drainFails, started);
      st.(layers := u.layers, pools := u.pools, poisoned := st.poisoned || u.errors || cleanup.othersFail)
  }

  datatype Outcome = Outcome(st: State, ok: bool)

  /** The whole pass; an unusable model and a batch that does not fit are refused before anything is touched. */
  function Pass(st: State, added: seq<seq<Record>>, count: nat, fault: Fault, cleanup: Cleanup): Outcome
    requires |added| == |st.layers|
  {
    if Refuses(st, count) then Outcome(st, false)
    else
      match Attempt(st, added, count, fault)
      case Returned(done) => Outcome(done, true)
      case Raised(left, started) => if started <= |left.layers| then Outcome(Cleaned(left, started, cleanup), false) else Outcome(left, false)
  }

  predicate Refuses(st: State, count: nat) {
    st.poisoned || count < 1 || st.length + count > st.capacity
  }

  // ----- when a raised pass is neither poisoned nor undone

  predicate AllAccept(st: State, count: nat) {
    forall i :: 0 <= i < |st.layers| ==> Accepts(st, count, i)
  }

  /** An interrupt reaches a point where what it leaves behind is not on the list of things to undo. */
  predicate Slips(st: State, count: nat, fault: Fault) {
    match fault
    case BeginSlips(k) => k < |st.layers| && forall i :: 0 <= i <= k ==> Accepts(st, count, i)
    case CommitSlips(k) => 0 < k <= |st.layers| && AllAccept(st, count)
    case HalfCommits(k) => k < |st.layers| && AllAccept(st, count)
    case UpdateSlips => AllAccept(st, count)
    case _ => false
  }

  /** The first layer whose step is still open when the handler is entered, once all have started. */
  function FirstOpen(fault: Fault, n: nat): nat {
    match fault
    case DrainFails(k) => Min(k, n)
    case CommitSlips(k) => Min(k, n)
    case HalfCommits(k) => Min(k, n)
    case UpdateSlips => n
    case _ => 0
  }

  /** Layer `i` is recorded as started and its step is open when the handler is entered. */
  predicate Pending(st: State, count: nat, fault: Fault, i: nat) {
    var started := Started(st, count, fault, 0);
    i < started && (started == |st.layers| ==> FirstOpen(fault, |st.layers|) <= i)
  }

  /** Its rollback will raise: the drain fails, or the failure of the pass has poisoned its pool. */
  predicate Resists(st: State, count: nat, fault: Fault, cleanup: Cleanup, i: nat)
    requires i < |st.layers|
  {
    || i in cleanup.drainFails
    || (Started(st, count, fault, 0) == |st.layers| && fault.BodyFails? && st.layers[i].pool in fault.poisons)
    || (Started(st, count, fault, 0) == |st.layers| && fault.DrainFails? && fault.layer < |st.layers| && st.layers[i].pool == st.layers[fault.layer].pool)
  }

  /** Some pending step resists, which the handler reports by poisoning the model. */
  predicate SomeResist(st: State, count: nat, fault: Fault, cleanup: Cleanup) {
    exists i :: 0 <= i < |st.layers| && Pending(st, count, fault, i) && Resists(st, count, fault, cleanup, i)
  }

  /**
   * The raised pass is lost: an interrupt slipped and the clean-up does not poison, or the clean-up itself is interrupted
   * before it has rolled back every pending step.
   */
  predicate Lost(st: State, count: nat, fault: Fault, cleanup: Cleanup) {
    if CutShort(cleanup, Started(st, count, fault, 0)) then
      || Slips(st, count, fault)
      || SomeResist(st, count, fault, cleanup)
      || exists i :: cleanup.interrupt.value <= i < |st.layers| && Pending(st, count, fault, i)
    else
      Slips(st, count, fault) && !cleanup.synchronizeFails && !cleanup.othersFail && !SomeResist(st, count, fault, cleanup)
  }

  /** Everything but the record of poisoned pools is as it was. */
  predicate Undisturbed(st: State, r: State) {
    r.layers == st.layers && r.length == st.length && r.capacity == st.capacity
  }
}
