/** Two-stage block selection: 33 protected by the query, the rest by CIS. */
module BlockSelection {
  import opened Ranking

  /** A score with the two infinities that masking writes. */
  datatype Score = Low | Mid(v: int) | High

  const WIDTH: nat := 64
  const PROTECTED: nat := 33

  /** One query row of one head: compressed window scores and CIS, both already reduced to comparable numbers. */
  datatype Row = Row(scores: seq<int>, cis: seq<int>, position: nat, total: nat) {
    function Blocks(): nat { (total + 63) / 64 }

    function QueryBlock(): nat { position / 64 }

    /** A query position inside the context, with one score for every complete window. */
    predicate Valid() {
      position < total && |scores| == |cis| == if total / 16 >= 1 then total / 16 - 1 else 0
    }
  }

  // ----- stable descending order

  predicate Better(a: Score, b: Score) {
    match a
    case High => !b.High?
    case Mid(v) => b.Low? || (b.Mid? && v > b.v)
    case Low => false
  }

  /** Position `a` comes before `b` in a stable descending argsort. */
  predicate Precedes(s: seq<Score>, a: nat, b: nat)
    requires a < |s| && b < |s|
  {
    Better(s[a], s[b]) || (s[a] == s[b] && a < b)
  }

  function Magnitude(x: Score): nat {
    match x
    case Mid(v) => if v >= 0 then v else -v
    case _ => 0
  }

  /** Larger than every finite score. */
  function Bound(s: seq<Score>): (b: nat)
    ensures b > 0 && forall i :: 0 <= i < |s| ==> Magnitude(s[i]) < b
  {
    if s == [] then 1
    else
      var b, m := Bound(s[1..]), Magnitude(s[0]);
      if m < b then b else m + 1
  }

  function Key(x: Score, bound: nat): int {
    match x
    case High => 0 - bound
    case Mid(v) => -v
    case Low => bound
  }

  function Keys(s: seq<Score>): (r: seq<int>)
    ensures |r| == |s|
  {
    seq(|s|, i requires 0 <= i < |s| => Key(s[i], Bound(s)))
  }

  lemma KeysOrder(s: seq<Score>, a: nat, b: nat)
    requires a < |s| && b < |s|
    ensures Before(Keys(s), a, b) <==> Precedes(s, a, b)
  {
    assert Magnitude(s[a]) < Bound(s) && Magnitude(s[b]) < Bound(s);
  }

  function Top(s: seq<Score>, k: nat): (t: seq<nat>)
    ensures |t| == if k < |s| then k else |s|
    ensures forall x <- t :: x < |s|
  {
    var order := Sort(Keys(s), Range(0, |s|));
    assert forall x <- order[..if k < |s| then k else |s|] :: x in order;
    order[..if k < |s| then k else |s|]
  }

  /** The chosen positions are distinct and precede every position left out. */
  lemma TopPrecedes(s: seq<Score>, k: nat)
    ensures Distinct(Top(s, k))
    ensures forall x, y :: x in Top(s, k) && 0 <= y < |s| && y !in Top(s, k) ==> Precedes(s, x, y)
  {
    var all := Range(0, |s|);
    var order, t := Sort(Keys(s), all), Top(s, k);
    SortSorts(Keys(s), all);
    SortedDistinct(Keys(s), order);
    forall x, y | x in t && 0 <= y < |s| && y !in t ensures Precedes(s, x, y) {
      var i :| 0 <= i < |t| && t[i] == x;
      assert y in all && y in order;
      var j :| 0 <= j < |order| && order[j] == y;
      assert forall m :: 0 <= m < |t| ==> t[m] != y && t[m] == order[m];
      assert Before(Keys(s), order[i], order[j]);
      KeysOrder(s, x, y);
    }
  }

  /** `few` is a set of positions that precede all others. */
  ghost predicate Leading(s: seq<Score>, few: set<nat>) {
    && (forall x <- few :: x < |s|)
    && forall x, y :: x in few && 0 <= y < |s| && y !in few ==> Precedes(s, x, y)
  }

  lemma NotBoth(s: seq<Score>, a: nat, b: nat)
    requires a < |s| && b < |s| && Precedes(s, a, b)
    ensures !Precedes(s, b, a)
  {
  }

  /** A leading set no larger than the cut is chosen whole. */
  lemma TopContains(s: seq<Score>, k: nat, few: set<nat>)
    requires Leading(s, few) && |few| <= k
    ensures forall x <- few :: x in Top(s, k)
  {
    var t := Top(s, k);
    TopPrecedes(s, k);
    DistinctCard(t);
    forall x | x in few ensures x in t {
      if x !in t {
        forall y | y in t ensures y in few {
          assert Precedes(s, y, x);
          NotBoth(s, y, x);
        }
        if k < |s| {
          SubsetCard(Elements(t), few - {x});
        } else {
          RangeCovered(t, |s|, x);
        }
      }
    }
  }

  lemma RangeCovered(t: seq<nat>, n: nat, x: nat)
    requires Distinct(t) && |t| == n && (forall y <- t :: y < n) && x < n
    ensures x in t
  {
    var all := Range(0, n);
    DistinctCard(t);
    DistinctCard(all);
    assert Elements(t) <= Elements(all);
    SubsetEqual(Elements(t), Elements(all));
    assert x in Elements(all);
  }

  /** Nothing outside a leading set at least as large as the cut is chosen. */
  lemma TopWithin(s: seq<Score>, k: nat, few: set<nat>)
    requires Leading(s, few) && |few| >= k
    ensures forall x <- Top(s, k) :: x in few
  {
    var t := Top(s, k);
    TopPrecedes(s, k);
    DistinctCard(t);
    forall x | x in t ensures x in few {
      if x !in few {
        forall y | y in few ensures y in t {
          assert Precedes(s, y, x);
          NotBoth(s, y, x);
        }
        assert x !in few;
        SubsetCard(few + {x}, Elements(t));
      }
    }
  }

  // ----- the two stages

  /** Block 0, and the query's own block with up to sixteen before it. */
  predicate Mandatory(x: Row, b: nat) {
    b == 0 || b <= x.QueryBlock() <= b + 16
  }

  /** The best of the five windows that touch a block: those from `w` on. */
  function Windowed(values: seq<int>, b: nat, w: nat): Score
    requires w <= 4 * b + 4
    decreases 4 * b + 4 - w
  {
    if w == 4 * b + 4 then Low
    else
      var rest := Windowed(values, b, w + 1);
      if w < |values| && (rest.Low? || (rest.Mid? && values[w] > rest.v)) then Mid(values[w]) else rest
  }

  function BlockScore(values: seq<int>, b: nat): Score {
    Windowed(values, b, if b == 0 then 0 else 4 * b - 1)
  }

  function QueryScores(x: Row): (s: seq<Score>)
    ensures |s| == x.Blocks()
  {
    seq(x.Blocks(), b requires 0 <= b < x.Blocks() =>
      if b > x.QueryBlock() then Low else if Mandatory(x, b) then High else BlockScore(x.scores, b))
  }

  function CisScores(x: Row): (s: seq<Score>)
    ensures |s| == x.Blocks()
  {
    var picked := Top(QueryScores(x), PROTECTED);
    seq(x.Blocks(), b requires 0 <= b < x.Blocks() =>
      if b > x.QueryBlock() then Low else if Mandatory(x, b) || b in picked then High else BlockScore(x.cis, b))
  }

  function Ascending(n: nat): (r: seq<int>)
    ensures |r| == n && forall i :: 0 <= i < n ==> r[i] == i
  {
    seq(n, i => i)
  }

  /** IDs in ascending order, future blocks and padding as -1. */
  function Masked(x: Row, ids: seq<nat>): (r: seq<int>)
    ensures |r| == if |ids| <= WIDTH then WIDTH else |ids|
  {
    seq(if |ids| <= WIDTH then WIDTH else |ids|, i requires i >= 0 => if i < |ids| && ids[i] <= x.QueryBlock() then ids[i] as int else -1)
  }

  /** The ranked path: what the code does for more than 64 blocks. */
  function Ranked(x: Row): seq<nat> {
    Sort(Ascending(x.Blocks()), Top(CisScores(x), WIDTH))
  }

  function Select(x: Row): seq<int> {
    if x.Blocks() <= WIDTH then Masked(x, Range(0, x.Blocks())) else Masked(x, Ranked(x))
  }

  // ----- what is selected

  lemma RankedIsAscending(x: Row)
    ensures var ids := Ranked(x);
      && Distinct(ids) && (forall i, j :: 0 <= i < j < |ids| ==> ids[i] < ids[j])
      && (forall b :: b in ids <==> b in Top(CisScores(x), WIDTH))
      && |ids| == if WIDTH < x.Blocks() then WIDTH else x.Blocks()
  {
    var t := Top(CisScores(x), WIDTH);
    var key := Ascending(x.Blocks());
    TopPrecedes(CisScores(x), WIDTH);
    SortSorts(key, t);
    SortedDistinct(key, Ranked(x));
    var ids := Ranked(x);
    forall i, j | 0 <= i < j < |ids| ensures ids[i] < ids[j] {
      assert Before(key, ids[i], ids[j]);
    }
  }

  /** The short path is the ranked path when every block fits. */
  lemma ShortPathAgrees(x: Row)
    requires x.Valid() && x.Blocks() <= WIDTH
    ensures Select(x) == Masked(x, Ranked(x))
  {
    var ids, all, key := Ranked(x), Range(0, x.Blocks()), Ascending(x.Blocks());
    RankedIsAscending(x);
    forall b ensures b in ids <==> b in all {
      if b in all { RangeCovered(ids, x.Blocks(), b); }
    }
    assert Sorted(key, ids) && Sorted(key, all);
    SortedUnique(key, ids, all);
  }

  /** A visible block other than the query's own has a complete window, so its score is finite. */
  lemma EarlierBlockIsScored(values: seq<int>, x: Row, b: nat)
    requires x.Valid() && |values| == |x.cis| && b < x.QueryBlock()
    ensures BlockScore(values, b).Mid?
  {
    var w := if b == 0 then 0 else 4 * b - 1;
    assert w < |values|;
    WindowedScored(values, b, w);
  }

  lemma {:induction false} WindowedScored(values: seq<int>, b: nat, w: nat)
    requires w < 4 * b + 4
    ensures !Windowed(values, b, w).High? && (w < |values| ==> Windowed(values, b, w).Mid?)
    decreases 4 * b + 4 - w
  {
    if w + 1 < 4 * b + 4 { WindowedScored(values, b, w + 1); }
  }

  /** The window maximum: attained by a window of the block, and no window of the block exceeds it. */
  lemma {:induction false} WindowedIsMax(values: seq<int>, b: nat, w: nat)
    requires w <= 4 * b + 4
    ensures var m := Windowed(values, b, w);
      && !m.High?
      && (forall i :: w <= i < 4 * b + 4 && i < |values| ==> m.Mid? && values[i] <= m.v)
      && (m.Mid? ==> exists i :: w <= i < 4 * b + 4 && i < |values| && values[i] == m.v)
    decreases 4 * b + 4 - w
  {
    if w < 4 * b + 4 { WindowedIsMax(values, b, w + 1); }
  }

  ghost function Visible(x: Row): (r: set<nat>)
    ensures forall b: nat :: b in r <==> b <= x.QueryBlock()
    ensures |r| == x.QueryBlock() + 1
  {
    var s := Range(0, x.QueryBlock() + 1);
    DistinctCard(s);
    Elements(s)
  }

  /** Visible blocks precede future ones in both stages. */
  lemma VisibleLead(x: Row)
    requires x.Valid()
    ensures Leading(QueryScores(x), Visible(x)) && Leading(CisScores(x), Visible(x))
  {
    forall b: nat | b <= x.QueryBlock() ensures b < x.Blocks() && !QueryScores(x)[b].Low? && !CisScores(x)[b].Low? {
      if b < x.QueryBlock() {
        EarlierBlockIsScored(x.scores, x, b);
        EarlierBlockIsScored(x.cis, x, b);
      }
    }
  }

  ghost function MandatorySet(x: Row): (r: set<nat>)
    ensures forall b: nat :: b in r <==> Mandatory(x, b)
    ensures |r| <= 18
  {
    var q := x.QueryBlock();
    var near := Range(if q >= 16 then q - 16 else 0, q + 1);
    DistinctCard(near);
    var r := Elements(near) + {0};
    assert |r| <= |Elements(near)| + 1;
    r
  }

  /** Mandatory blocks lead both stages. */
  lemma MandatoryLead(x: Row)
    requires x.Valid()
    ensures Leading(QueryScores(x), MandatorySet(x))
  {
    VisibleLead(x);
    forall b: nat, c: nat | Mandatory(x, b) && c < x.Blocks() && !Mandatory(x, c)
      ensures b < x.Blocks() && Precedes(QueryScores(x), b, c)
    {
      assert b <= x.QueryBlock();
      WindowedIsMax(x.scores, c, if c == 0 then 0 else 4 * c - 1);
    }
  }

  /** Visible blocks the query protects: the mandatory ones and the visible ones among its top 33. */
  ghost predicate Protects(x: Row, b: nat) {
    b <= x.QueryBlock() && (Mandatory(x, b) || b in Top(QueryScores(x), PROTECTED))
  }

  ghost function ProtectedSet(x: Row): (r: set<nat>)
    requires x.Valid()
    ensures forall b: nat :: b in r <==> Protects(x, b)
    ensures |r| <= PROTECTED
  {
    var t := Top(QueryScores(x), PROTECTED);
    MandatoryLead(x);
    TopContains(QueryScores(x), PROTECTED, MandatorySet(x));
    ElementsBound(t);
    var r := set b | b in t && b <= x.QueryBlock();
    SubsetCard(r, Elements(t));
    r
  }

  lemma ProtectedLead(x: Row)
    requires x.Valid()
    ensures Leading(CisScores(x), ProtectedSet(x))
  {
    forall b: nat, c: nat | Protects(x, b) && c < x.Blocks() && !Protects(x, c)
      ensures b < x.Blocks() && Precedes(CisScores(x), b, c)
    {
      WindowedIsMax(x.cis, c, if c == 0 then 0 else 4 * c - 1);
    }
  }

  /** Ascending distinct IDs that include all of 0..m begin with exactly those. */
  lemma {:induction false} StartsWithAll(ids: seq<nat>, m: nat, i: nat)
    requires (forall a, b :: 0 <= a < b < |ids| ==> ids[a] < ids[b]) && (forall b: nat :: b < m ==> b in ids) && i <= m
    ensures i <= |ids| && forall j :: 0 <= j < i ==> ids[j] == j
    decreases i
  {
    if i > 0 {
      StartsWithAll(ids, m, i - 1);
      assert i - 1 in ids;
      var k :| 0 <= k < |ids| && ids[k] == i - 1;
      AtLeastIndex(ids, k);
      assert k == i - 1;
    }
  }

  lemma {:induction false} AtLeastIndex(ids: seq<nat>, k: nat)
    requires (forall a, b :: 0 <= a < b < |ids| ==> ids[a] < ids[b]) && k < |ids|
    ensures ids[k] >= k
  {
    if k > 0 { AtLeastIndex(ids, k - 1); }
  }

  ghost predicate Chosen(x: Row, b: nat) { b <= x.QueryBlock() && b in Ranked(x) }

  /** The first `m` entries are the chosen blocks in ascending order, the rest are padding. */
  ghost predicate Shape(x: Row, r: seq<int>, m: nat) {
    && |r| == WIDTH && m <= WIDTH
    && (forall i :: 0 <= i < m ==> 0 <= r[i] <= x.QueryBlock() && Chosen(x, r[i]))
    && (forall i, j :: 0 <= i < j < m ==> r[i] < r[j])
    && (forall i :: m <= i < WIDTH ==> r[i] == -1)
    && (forall b: nat :: Chosen(x, b) ==> exists i :: 0 <= i < m && r[i] == b)
  }

  lemma ShapeFew(x: Row)
    requires x.Valid() && x.QueryBlock() + 1 <= WIDTH
    ensures Shape(x, Masked(x, Ranked(x)), x.QueryBlock() + 1)
  {
    var ids, r, m := Ranked(x), Masked(x, Ranked(x)), x.QueryBlock() + 1;
    RankedIsAscending(x);
    VisibleLead(x);
    TopContains(CisScores(x), WIDTH, Visible(x));
    hide Ranked, Top, CisScores;
    StartsWithAll(ids, m, m);
    forall j | m <= j < |ids| ensures ids[j] >= m {
      AtLeastIndex(ids, j);
    }
    forall i | 0 <= i < m ensures r[i] == i && Chosen(x, i) {
      assert ids[i] in ids;
    }
    forall b: nat | Chosen(x, b) ensures exists i :: 0 <= i < m && r[i] == b {
      assert r[b] == b;
    }
  }

  lemma ShapeMany(x: Row)
    requires x.Valid() && x.QueryBlock() + 1 > WIDTH
    ensures Shape(x, Masked(x, Ranked(x)), WIDTH)
  {
    var ids, r := Ranked(x), Masked(x, Ranked(x));
    RankedIsAscending(x);
    VisibleLead(x);
    TopWithin(CisScores(x), WIDTH, Visible(x));
    hide Ranked, Top, CisScores;
    forall i | 0 <= i < WIDTH ensures r[i] == ids[i] && Chosen(x, ids[i]) {
      assert ids[i] in ids;
    }
    forall b: nat | Chosen(x, b) ensures exists i :: 0 <= i < WIDTH && r[i] == b {
      var i :| 0 <= i < |ids| && ids[i] == b;
      assert r[i] == b;
    }
  }

  /** Exactly min(64, visible) distinct ascending visible IDs, then -1. */
  lemma SelectionShape(x: Row)
    requires x.Valid()
    ensures Shape(x, Select(x), if x.QueryBlock() + 1 <= WIDTH then x.QueryBlock() + 1 else WIDTH)
  {
    if x.Blocks() <= WIDTH { ShortPathAgrees(x); }
    if x.QueryBlock() + 1 <= WIDTH { ShapeFew(x); } else { ShapeMany(x); }
  }

  /** Block 0, the local blocks and the visible blocks of the query's top 33 are always selected. */
  lemma SelectionProtects(x: Row, b: nat)
    requires x.Valid() && Protects(x, b)
    ensures Chosen(x, b)
  {
    RankedIsAscending(x);
    ProtectedLead(x);
    TopContains(CisScores(x), WIDTH, ProtectedSet(x));
  }

  /** Every other selected block beats every rejected visible block by CIS, ties going to the smaller ID. */
  lemma SelectionDominates(x: Row, a: nat, b: nat)
    requires x.Valid() && Chosen(x, a) && !Protects(x, a) && b <= x.QueryBlock() && !Chosen(x, b)
    ensures var p, q := BlockScore(x.cis, a), BlockScore(x.cis, b); Better(p, q) || (p == q && a < b)
  {
    RankedIsAscending(x);
    TopPrecedes(CisScores(x), WIDTH);
    if Protects(x, b) { SelectionProtects(x, b); }
    assert Precedes(CisScores(x), a, b);
  }

  // ----- the selection told on positions and windows

  /** Block `b` is among the answered IDs. */
  ghost predicate Selected(x: Row, b: nat) { exists i :: 0 <= i < |Select(x)| && Select(x)[i] == b }

  lemma SelectedIsChosen(x: Row, b: nat)
    requires x.Valid()
    ensures Selected(x, b) <==> Chosen(x, b)
  {
    SelectionShape(x);
    hide Select, Ranked;
    if Selected(x, b) {
      var i :| 0 <= i < |Select(x)| && Select(x)[i] == b;
    }
  }

  /** A window that exists and touches block `b`: five of them, 4b - 1 to 4b + 3. */
  predicate Touches(b: nat, w: int, count: nat) { 4 * b - 1 <= w <= 4 * b + 3 && 0 <= w < count }

  /** A block's score is the largest value of the windows that touch it. */
  lemma BlockScoreIsMax(values: seq<int>, b: nat)
    ensures !BlockScore(values, b).High?
    ensures BlockScore(values, b).Low? <==> forall w :: !Touches(b, w, |values|)
    ensures BlockScore(values, b).Mid? ==> exists w :: Touches(b, w, |values|) && values[w] == BlockScore(values, b).v
    ensures forall w :: Touches(b, w, |values|) ==> BlockScore(values, b).Mid? && values[w] <= BlockScore(values, b).v
  {
    WindowedIsMax(values, b, if b == 0 then 0 else 4 * b - 1);
    hide Windowed;
    if BlockScore(values, b).Mid? {
      var w :| 0 <= w < |values| && 4 * b - 1 <= w < 4 * b + 4 && values[w] == BlockScore(values, b).v;
      assert Touches(b, w, |values|);
    }
  }

  /** Block 0 and the seventeen local blocks, the query's own and the sixteen before it, are selected. */
  lemma LocalSelected(x: Row, b: nat)
    requires x.Valid() && b <= x.position / 64 && (b == 0 || x.position / 64 <= b + 16)
    ensures Selected(x, b)
  {
    SelectionProtects(x, b);
    SelectedIsChosen(x, b);
  }

  /** Block `a` has the larger score of the two, or the same and the smaller ID. */
  ghost predicate Beats(values: seq<int>, a: nat, b: nat) {
    var s, t := BlockScore(values, a), BlockScore(values, b);
    s.Mid? && (t.Low? || (t.Mid? && (s.v > t.v || (s.v == t.v && a < b))))
  }

  /**
   * The two stages. Exactly 33 blocks, or all visible ones when there are fewer, are protected: the local ones, and then those
   * with the largest scores of the query. All of them are selected, and the other selected blocks are those with the largest CIS.
   */
  lemma SelectionLaw(x: Row) returns (kept: set<nat>)
    requires x.Valid()
    ensures |kept| == if x.position / 64 + 1 <= 33 then x.position / 64 + 1 else 33
    ensures forall b <- kept :: b <= x.position / 64 && Selected(x, b)
    ensures forall b: nat :: b <= x.position / 64 && (b == 0 || x.position / 64 <= b + 16) ==> b in kept
    ensures forall a, b: nat :: a in kept && b <= x.position / 64 && b !in kept ==>
              a == 0 || x.position / 64 <= a + 16 || Beats(x.scores, a, b)
    ensures forall a, b: nat :: Selected(x, a) && a !in kept && b <= x.position / 64 && !Selected(x, b) ==> Beats(x.cis, a, b)
  {
    kept := ProtectedSet(x);
    ProtectedCount(x);
    forall b | b in kept ensures Selected(x, b) {
      SelectionProtects(x, b);
      SelectedIsChosen(x, b);
    }
    hide Selected, Beats;
    forall a, b: nat | a in kept && b <= x.position / 64 && b !in kept && a != 0 && x.position / 64 > a + 16 ensures Beats(x.scores, a, b) {
      ProtectedLeads(x, a, b);
    }
    forall a, b: nat | Selected(x, a) && a !in kept && b <= x.position / 64 && !Selected(x, b) ensures Beats(x.cis, a, b) {
      FilledByCis(x, a, b);
    }
  }

  lemma ProtectedLeads(x: Row, a: nat, b: nat)
    requires x.Valid() && Protects(x, a) && !Mandatory(x, a) && b <= x.QueryBlock() && !Protects(x, b)
    ensures Beats(x.scores, a, b)
  {
    TopPrecedes(QueryScores(x), PROTECTED);
    EarlierBlockIsScored(x.scores, x, a);
    assert Precedes(QueryScores(x), a, b);
  }

  lemma ProtectedCount(x: Row)
    requires x.Valid()
    ensures |ProtectedSet(x)| == if x.QueryBlock() + 1 <= 33 then x.QueryBlock() + 1 else 33
  {
    var t, r := Top(QueryScores(x), PROTECTED), ProtectedSet(x);
    VisibleLead(x);
    if x.QueryBlock() + 1 <= PROTECTED {
      TopContains(QueryScores(x), PROTECTED, Visible(x));
      assert r == Visible(x);
    } else {
      TopWithin(QueryScores(x), PROTECTED, Visible(x));
      TopPrecedes(QueryScores(x), PROTECTED);
      DistinctCard(t);
      MandatoryLead(x);
      TopContains(QueryScores(x), PROTECTED, MandatorySet(x));
      assert r == Elements(t);
    }
  }

  /** The answer: 64 entries, the selected visible blocks in ascending order, as many as there are up to 64, then -1. */
  lemma SelectionMeans(x: Row) returns (m: nat)
    requires x.Valid()
    ensures |Select(x)| == 64 && m == if x.position / 64 + 1 <= 64 then x.position / 64 + 1 else 64
    ensures forall i :: 0 <= i < m ==> 0 <= Select(x)[i] <= x.position / 64
    ensures forall i, j :: 0 <= i < j < m ==> Select(x)[i] < Select(x)[j]
    ensures forall i :: m <= i < 64 ==> Select(x)[i] == -1
  {
    SelectionShape(x);
    hide Select, Ranked;
    m := if x.QueryBlock() + 1 <= 64 then x.QueryBlock() + 1 else 64;
  }

  /** A selected block that the query does not protect beats every visible block left out, by CIS. */
  lemma FilledByCis(x: Row, a: nat, b: nat)
    requires x.Valid() && Selected(x, a) && !Protects(x, a) && b <= x.QueryBlock() && !Selected(x, b)
    ensures Beats(x.cis, a, b)
  {
    SelectedIsChosen(x, a);
    SelectedIsChosen(x, b);
    SelectionDominates(x, a, b);
    WindowedIsMax(x.cis, a, if a == 0 then 0 else 4 * a - 1);
    WindowedIsMax(x.cis, b, if b == 0 then 0 else 4 * b - 1);
    if a < x.QueryBlock() { EarlierBlockIsScored(x.cis, x, a); }
  }
}
