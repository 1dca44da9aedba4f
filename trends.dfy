/**
 * Trend scores and ranks (`update_trending_products` and
 * `_update_trending_rankings` in ai_recommendations/services.py, over the
 * `TrendingProduct` table of ai_recommendations/models.py).
 */
module Trends {
  import opened Wrappers
  import opened Products
  import opened Recommendations
  import Ordering

  /** Seconds in one day; the windows are 1, 7 and 30 days before `now`. */
  const Day: int := 86400

  /** Behaviours of kind `k` on product `p` at or after `since`. */
  function CountSince(log: seq<BehaviorEvent>, p: ProductId, k: BehaviorKind, since: int): (n: nat)
    ensures n <= |log|
  {
    if log == [] then 0
    else
      var e := log[|log| - 1];
      CountSince(log[..|log| - 1], p, k, since) +
        (if e.isProductContent && e.objectId == p && e.kind == k && e.createdAt >= since then 1 else 0)
  }

  /** A wider window never counts fewer behaviours. */
  lemma {:induction false} CountSinceWidens(log: seq<BehaviorEvent>, p: ProductId, k: BehaviorKind, s1: int, s2: int)
    requires s1 <= s2
    ensures CountSince(log, p, k, s2) <= CountSince(log, p, k, s1)
  {
    if log != [] {
      CountSinceWidens(log[..|log| - 1], p, k, s1, s2);
    }
  }

  /** The three scores and the velocities computed for one product. */
  datatype TrendScores = TrendScores(
    daily: real, weekly: real, monthly: real,
    viewVelocity: real, purchaseVelocity: real, cartAddVelocity: real)

  /** `daily_score`, `weekly_score` and `monthly_score` from the counted behaviours. */
  function Scores(views1: nat, purchases1: nat, cartAdds1: nat, views7: nat, views30: nat): (s: TrendScores)
    ensures s.weekly >= 7.0 * s.daily && s.monthly >= 4.0 * s.weekly && s.daily >= 0.0
    ensures s.daily == 0.0 <==> views1 == 0 && purchases1 == 0 && cartAdds1 == 0
    ensures s.viewVelocity == views1 as real && s.purchaseVelocity == purchases1 as real
    ensures s.cartAddVelocity == cartAdds1 as real
  {
    var daily := views1 as real * 1.0 + purchases1 as real * 10.0 + cartAdds1 as real * 3.0;
    var weekly := views7 as real * 0.5 + daily * 7.0;
    var monthly := views30 as real * 0.2 + weekly * 4.0;
    TrendScores(daily, weekly, monthly, views1 as real, purchases1 as real, cartAdds1 as real)
  }

  /** One view, two purchases and six cart additions today, 8 views this week, 10 this month. */
  lemma ScoresExample()
    ensures Scores(1, 2, 6, 8, 10) == TrendScores(39.0, 277.0, 1110.0, 1.0, 2.0, 6.0)
  {
  }

  /** The scores `update_trending_products` computes for product `p` at time `now`. */
  function Measure(log: seq<BehaviorEvent>, p: ProductId, now: int): (s: TrendScores)
    ensures s.weekly >= 7.0 * s.daily && s.monthly >= 4.0 * s.weekly && s.daily >= 0.0
  {
    Scores(CountSince(log, p, View, now - Day), CountSince(log, p, Purchase, now - Day),
           CountSince(log, p, CartAdd, now - Day), CountSince(log, p, View, now - 7 * Day),
           CountSince(log, p, View, now - 30 * Day))
  }

  /** The weekly and monthly view counts include the daily one, so the scores nest. */
  lemma MeasureWindowsNest(log: seq<BehaviorEvent>, p: ProductId, now: int)
    ensures CountSince(log, p, View, now - Day) <= CountSince(log, p, View, now - 7 * Day)
              <= CountSince(log, p, View, now - 30 * Day)
    ensures Measure(log, p, now).weekly >= 7.5 * Measure(log, p, now).viewVelocity
  {
    CountSinceWidens(log, p, View, now - 7 * Day, now - Day);
    CountSinceWidens(log, p, View, now - 30 * Day, now - 7 * Day);
  }

  /** A `TrendingProduct` row. */
  datatype TrendRow = TrendRow(
    product: ProductId,
    scores: TrendScores,
    dailyRank: Option<nat>,
    weeklyRank: Option<nat>,
    monthlyRank: Option<nat>)

  datatype Window = Daily | Weekly | Monthly

  function WindowScore(r: TrendRow, w: Window): real {
    match w
    case Daily => r.scores.daily
    case Weekly => r.scores.weekly
    case Monthly => r.scores.monthly
  }

  function RankIn(r: TrendRow, w: Window): Option<nat> {
    match w
    case Daily => r.dailyRank
    case Weekly => r.weeklyRank
    case Monthly => r.monthlyRank
  }

  function WithRank(r: TrendRow, w: Window, k: nat): (s: TrendRow)
    ensures RankIn(s, w) == Some(k)
    ensures forall v :: v != w ==> RankIn(s, v) == RankIn(r, v)
    ensures s.product == r.product && s.scores == r.scores
  {
    match w
    case Daily => r.(dailyRank := Some(k))
    case Weekly => r.(weeklyRank := Some(k))
    case Monthly => r.(monthlyRank := Some(k))
  }

  /** `OneToOneField('products.Product')`: at most one row per product. */
  ghost predicate OnePerProduct(rows: seq<TrendRow>) {
    forall i, j :: 0 <= i < j < |rows| ==> rows[i].product != rows[j].product
  }

  /** The score of the row at position `i`, as the rank passes sort by it. */
  function PositionScore(rows: seq<TrendRow>, w: Window): int -> real {
    (i: int) => if 0 <= i < |rows| then WindowScore(rows[i], w) else 0.0
  }

  /** The row positions in descending order of the window's score (stable on ties). */
  function RankOrder(rows: seq<TrendRow>, w: Window): (order: seq<int>)
    ensures Ordering.Distinct(order)
    ensures |order| == |rows|
    ensures forall k :: 0 <= k < |order| ==> 0 <= order[k] < |rows|
    ensures forall i :: 0 <= i < |rows| ==> i in order
  {
    var range := Ordering.Range(|rows|);
    var order := Ordering.SortBy(range, Ordering.ByKeyDesc(PositionScore(rows, w)));
    Ordering.SortByDistinct(range, Ordering.ByKeyDesc(PositionScore(rows, w)));
    Ordering.SortByPermutes(range, Ordering.ByKeyDesc(PositionScore(rows, w)));
    forall k | 0 <= k < |order|
      ensures 0 <= order[k] < |rows|
    {
      assert order[k] in multiset(range);
    }
    forall i | 0 <= i < |rows|
      ensures i in order
    {
      assert range[i] == i;
      assert i in multiset(range);
    }
    order
  }

  /** The rank order lists higher scores first. */
  lemma RankOrderSorted(rows: seq<TrendRow>, w: Window, a: int, b: int)
    requires 0 <= a < b < |rows|
    ensures var order := RankOrder(rows, w);
      WindowScore(rows[order[a]], w) >= WindowScore(rows[order[b]], w)
  {
    var range := Ordering.Range(|rows|);
    var before := Ordering.ByKeyDesc(PositionScore(rows, w));
    Ordering.KeyDescIsTotalPreorder(PositionScore(rows, w));
    Ordering.SortBySorted(range, before);
    var order := RankOrder(rows, w);
    assert before(order[a], order[b]);
  }

  /** The rows after ranking positions `order[..k]` as 1..k in window `w`, as the loop does. */
  function ApplyRanks(rows: seq<TrendRow>, order: seq<int>, w: Window, k: nat): (r: seq<TrendRow>)
    requires k <= |order|
    requires forall m :: 0 <= m < |order| ==> 0 <= order[m] < |rows|
    ensures |r| == |rows|
  {
    if k == 0 then rows
    else
      var prev := ApplyRanks(rows, order, w, k - 1);
      prev[order[k - 1] := WithRank(prev[order[k - 1]], w, k)]
  }

  /** After `k` steps the row at position `i` holds its rank if its place in the order is below `k`, else it is untouched. */
  lemma {:induction false} ApplyRanksAt(rows: seq<TrendRow>, order: seq<int>, w: Window, k: nat, i: int)
    requires k <= |order| && Ordering.Distinct(order)
    requires forall m :: 0 <= m < |order| ==> 0 <= order[m] < |rows|
    requires 0 <= i < |rows|
    ensures ApplyRanks(rows, order, w, k)[i] ==
      if Ordering.IndexOf(order, i) < k then WithRank(rows[i], w, Ordering.IndexOf(order, i) + 1) else rows[i]
  {
    if k > 0 {
      ApplyRanksAt(rows, order, w, k - 1, i);
      Ordering.IndexOfDistinct(order, k - 1);
    }
  }

  /** The rows after one rank pass over window `w`. */
  function Ranked(rows: seq<TrendRow>, w: Window): (r: seq<TrendRow>)
    ensures |r| == |rows|
  {
    ApplyRanks(rows, RankOrder(rows, w), w, |rows|)
  }

  /** The rank a pass gives the row at position `i`: one more than its place in the order. */
  function RankOf(rows: seq<TrendRow>, w: Window, i: int): nat {
    Ordering.IndexOf(RankOrder(rows, w), i) + 1
  }

  /** A rank pass sets only the window's rank of each row, to its `RankOf`. */
  lemma RankedAt(rows: seq<TrendRow>, w: Window, i: int)
    requires 0 <= i < |rows|
    ensures Ranked(rows, w)[i] == WithRank(rows[i], w, RankOf(rows, w, i))
    ensures 1 <= RankOf(rows, w, i) <= |rows|
  {
    ApplyRanksAt(rows, RankOrder(rows, w), w, |rows|, i);
  }

  /** Ranks of one pass are pairwise distinct. */
  lemma RankOfInjective(rows: seq<TrendRow>, w: Window, i: int, j: int)
    requires 0 <= i < |rows| && 0 <= j < |rows| && i != j
    ensures RankOf(rows, w, i) != RankOf(rows, w, j)
  {
  }

  /** Every rank 1..N is given to some row. */
  lemma RankOfOnto(rows: seq<TrendRow>, w: Window, k: int)
    requires 1 <= k <= |rows|
    ensures exists i :: 0 <= i < |rows| && RankOf(rows, w, i) == k
  {
    var order := RankOrder(rows, w);
    Ordering.IndexOfDistinct(order, k - 1);
    assert RankOf(rows, w, order[k - 1]) == k;
  }

  /** A strictly higher score never gets a larger rank. */
  lemma RankOfMonotone(rows: seq<TrendRow>, w: Window, i: int, j: int)
    requires 0 <= i < |rows| && 0 <= j < |rows|
    requires WindowScore(rows[i], w) > WindowScore(rows[j], w)
    ensures RankOf(rows, w, i) < RankOf(rows, w, j)
  {
    var order := RankOrder(rows, w);
    var a, b := Ordering.IndexOf(order, i), Ordering.IndexOf(order, j);
    if b < a {
      RankOrderSorted(rows, w, b, a);
      assert false;
    }
  }

  /** Ranks of window `w` are exactly 1..N, one per row. */
  ghost predicate RanksArePermutation(rows: seq<TrendRow>, w: Window) {
    && (forall i :: 0 <= i < |rows| ==> RankIn(rows[i], w).Some? && 1 <= RankIn(rows[i], w).value <= |rows|)
    && (forall i, j :: 0 <= i < j < |rows| ==> RankIn(rows[i], w) != RankIn(rows[j], w))
    && (forall k :: 1 <= k <= |rows| ==> exists i :: 0 <= i < |rows| && RankIn(rows[i], w) == Some(k))
  }

  /** A strictly higher score in window `w` never has a larger rank. */
  ghost predicate RanksFollowScores(rows: seq<TrendRow>, w: Window) {
    forall i, j ::
      0 <= i < |rows| && 0 <= j < |rows| && RankIn(rows[i], w).Some? && RankIn(rows[j], w).Some? &&
      WindowScore(rows[i], w) > WindowScore(rows[j], w)
      ==> RankIn(rows[i], w).value < RankIn(rows[j], w).value
  }

  ghost predicate RanksValid(rows: seq<TrendRow>, w: Window) {
    RanksArePermutation(rows, w) && RanksFollowScores(rows, w)
  }

  /** A rank pass gives valid ranks for its window. */
  lemma RankedValid(rows: seq<TrendRow>, w: Window)
    ensures RanksValid(Ranked(rows, w), w)
  {
    RankedPermutation(rows, w);
    RankedFollowsScores(rows, w);
  }

  lemma RankedPermutation(rows: seq<TrendRow>, w: Window)
    ensures RanksArePermutation(Ranked(rows, w), w)
  {
    var r := Ranked(rows, w);
    forall i | 0 <= i < |rows|
      ensures RankIn(r[i], w) == Some(RankOf(rows, w, i)) && 1 <= RankOf(rows, w, i) <= |rows|
    {
      RankedAt(rows, w, i);
    }
    forall i, j | 0 <= i < j < |rows|
      ensures RankIn(r[i], w) != RankIn(r[j], w)
    {
      RankOfInjective(rows, w, i, j);
    }
    forall k | 1 <= k <= |rows|
      ensures exists i :: 0 <= i < |rows| && RankIn(r[i], w) == Some(k)
    {
      RankOfOnto(rows, w, k);
    }
  }

  lemma RankedFollowsScores(rows: seq<TrendRow>, w: Window)
    ensures RanksFollowScores(Ranked(rows, w), w)
  {
    var r := Ranked(rows, w);
    forall i | 0 <= i < |rows|
      ensures RankIn(r[i], w) == Some(RankOf(rows, w, i)) && WindowScore(r[i], w) == WindowScore(rows[i], w)
    {
      RankedAt(rows, w, i);
    }
    forall i, j | 0 <= i < |rows| && 0 <= j < |rows| && WindowScore(r[i], w) > WindowScore(r[j], w)
      ensures RankIn(r[i], w).value < RankIn(r[j], w).value
    {
      RankOfMonotone(rows, w, i, j);
    }
  }

  /** The daily ranks stay valid through the weekly and monthly passes. */
  lemma ThreePassesDaily(rows: seq<TrendRow>)
    ensures RanksValid(Ranked(Ranked(Ranked(rows, Daily), Weekly), Monthly), Daily)
  {
    var d := Ranked(rows, Daily);
    RankedValid(rows, Daily);
    RankedKeepsOtherWindow(d, Weekly, Daily);
    RankedKeepsOtherWindow(Ranked(d, Weekly), Monthly, Daily);
  }

  /** The weekly ranks stay valid through the monthly pass. */
  lemma ThreePassesWeekly(rows: seq<TrendRow>)
    ensures RanksValid(Ranked(Ranked(Ranked(rows, Daily), Weekly), Monthly), Weekly)
  {
    var dw := Ranked(Ranked(rows, Daily), Weekly);
    RankedValid(Ranked(rows, Daily), Weekly);
    RankedKeepsOtherWindow(dw, Monthly, Weekly);
  }

  /** The monthly ranks, set last, are valid. */
  lemma ThreePassesMonthly(rows: seq<TrendRow>)
    ensures RanksValid(Ranked(Ranked(Ranked(rows, Daily), Weekly), Monthly), Monthly)
  {
    RankedValid(Ranked(Ranked(rows, Daily), Weekly), Monthly);
  }

  /** A rank pass keeps every row's product in place, so at most one row per product remains. */
  lemma RankedKeepsProducts(rows: seq<TrendRow>, w: Window)
    requires OnePerProduct(rows)
    ensures OnePerProduct(Ranked(rows, w))
  {
    var r := Ranked(rows, w);
    forall i | 0 <= i < |rows|
      ensures r[i].product == rows[i].product
    {
      RankedAt(rows, w, i);
    }
  }

  /** A rank pass for another window keeps valid ranks valid: it changes no score and no other rank. */
  lemma RankedKeepsOtherWindow(rows: seq<TrendRow>, w: Window, v: Window)
    requires v != w && RanksValid(rows, v)
    ensures RanksValid(Ranked(rows, w), v)
  {
    RankedKeepsPermutation(rows, w, v);
    RankedKeepsFollows(rows, w, v);
  }

  lemma RankedKeepsPermutation(rows: seq<TrendRow>, w: Window, v: Window)
    requires v != w && RanksArePermutation(rows, v)
    ensures RanksArePermutation(Ranked(rows, w), v)
  {
    var r := Ranked(rows, w);
    forall i | 0 <= i < |rows|
      ensures RankIn(r[i], v) == RankIn(rows[i], v)
    {
      RankedAt(rows, w, i);
    }
    forall k | 1 <= k <= |rows|
      ensures exists i :: 0 <= i < |r| && RankIn(r[i], v) == Some(k)
    {
      var i :| 0 <= i < |rows| && RankIn(rows[i], v) == Some(k);
      assert RankIn(r[i], v) == Some(k);
    }
  }

  lemma RankedKeepsFollows(rows: seq<TrendRow>, w: Window, v: Window)
    requires v != w && RanksFollowScores(rows, v)
    ensures RanksFollowScores(Ranked(rows, w), v)
  {
    var r := Ranked(rows, w);
    forall i | 0 <= i < |rows|
      ensures RankIn(r[i], v) == RankIn(rows[i], v) && WindowScore(r[i], v) == WindowScore(rows[i], v)
    {
      RankedAt(rows, w, i);
    }
  }

  /** The position of product `p`'s row, or `|rows|` when it has none. */
  function RowIndex(rows: seq<TrendRow>, p: ProductId): (k: nat)
    ensures k <= |rows|
    ensures k < |rows| ==> rows[k].product == p
    ensures forall i :: 0 <= i < k ==> rows[i].product != p
  {
    if rows == [] then 0
    else if rows[0].product == p then 0
    else 1 + RowIndex(rows[1..], p)
  }

  /**
   * `get_or_create(product=p, defaults=...)` followed by the update: the
   * product's row gets the new scores and keeps its ranks; a missing row is
   * added without ranks. No other row changes.
   */
  function Upsert(rows: seq<TrendRow>, p: ProductId, s: TrendScores): (r: seq<TrendRow>)
    ensures |r| >= |rows|
    ensures OnePerProduct(rows) ==> OnePerProduct(r)
    ensures exists i :: 0 <= i < |r| && r[i].product == p && r[i].scores == s
    ensures forall i :: 0 <= i < |rows| && rows[i].product != p ==> r[i] == rows[i]
    ensures forall i :: 0 <= i < |rows| && rows[i].product == p && OnePerProduct(rows) ==>
      r[i] == rows[i].(scores := s)
    ensures |r| == |rows| || r == rows + [TrendRow(p, s, None, None, None)]
  {
    var k := RowIndex(rows, p);
    if k < |rows| then
      var r := rows[k := rows[k].(scores := s)];
      assert r[k].product == p;
      r
    else
      var r := rows + [TrendRow(p, s, None, None, None)];
      assert r[|rows|].product == p;
      r
  }

  /** The table after the scoring loop over `products`. */
  function Scored(rows: seq<TrendRow>, products: seq<Product>, log: seq<BehaviorEvent>, now: int): seq<TrendRow>
  {
    if products == [] then rows
    else
      var p := products[|products| - 1];
      Upsert(Scored(rows, products[..|products| - 1], log, now), p.id, Measure(log, p.id, now))
  }

  /** `Product.objects.filter(is_active=True)`, in catalogue order. */
  function ActiveProducts(catalog: seq<Product>): (r: seq<Product>)
    ensures forall i :: 0 <= i < |r| ==> r[i] in catalog && r[i].isActive
    ensures forall i :: 0 <= i < |catalog| && catalog[i].isActive ==> catalog[i] in r
  {
    Ordering.FilterMembers(catalog, (p: Product) => p.isActive);
    Ordering.Filter(catalog, (p: Product) => p.isActive)
  }

  /** The `TrendingProduct` table that `update_trending_products` rewrites. */
  class TrendTable {
    var rows: seq<TrendRow>

    ghost predicate Valid()
      reads this
    {
      OnePerProduct(rows)
    }

    constructor ()
      ensures Valid() && rows == []
    {
      rows := [];
    }

    /** One pass of `_update_trending_rankings`: ranks by descending score of window `w`. */
    method AssignRanks(w: Window)
      requires Valid()
      modifies this
      ensures Valid()
      ensures rows == Ranked(old(rows), w)
    {
      var order := RankOrder(rows, w);
      ghost var start := rows;
      var k := 0;
      while k < |order|
        invariant 0 <= k <= |order|
        invariant rows == ApplyRanks(start, order, w, k)
      {
        rows := rows[order[k] := WithRank(rows[order[k]], w, k + 1)];
        k := k + 1;
      }
      RankedKeepsProducts(start, w);
    }

    /**
     * `update_trending_products` at time `now`: every active product gets its
     * row with fresh scores (rows of other products keep theirs), then the
     * daily, weekly and monthly rank passes run over all rows.
     */
    method UpdateTrendingProducts(catalog: seq<Product>, log: seq<BehaviorEvent>, now: int)
      requires Valid()
      modifies this
      ensures Valid()
      ensures rows == Ranked(Ranked(Ranked(Scored(old(rows), ActiveProducts(catalog), log, now), Daily), Weekly), Monthly)
      ensures RanksValid(rows, Daily) && RanksValid(rows, Weekly) && RanksValid(rows, Monthly)
    {
      ScoreProducts(ActiveProducts(catalog), log, now);
      ThreePassesDaily(rows);
      ThreePassesWeekly(rows);
      ThreePassesMonthly(rows);
      AssignRanks(Daily);
      AssignRanks(Weekly);
      AssignRanks(Monthly);
    }

    /** The scoring loop of `update_trending_products` over the given products. */
    method ScoreProducts(products: seq<Product>, log: seq<BehaviorEvent>, now: int)
      requires Valid()
      modifies this
      ensures Valid()
      ensures rows == Scored(old(rows), products, log, now)
    {
      ghost var start := rows;
      var k := 0;
      while k < |products|
        invariant 0 <= k <= |products|
        invariant rows == Scored(start, products[..k], log, now)
        invariant OnePerProduct(rows)
      {
        assert products[..k + 1][..k] == products[..k];
        var p := products[k];
        rows := Upsert(rows, p.id, Measure(log, p.id, now));
        k := k + 1;
      }
      assert products[..k] == products;
    }
  }

  /** Every active product has a row carrying exactly its measured scores. */
  lemma {:induction false} ScoredCoversProducts(rows: seq<TrendRow>, products: seq<Product>, log: seq<BehaviorEvent>, now: int, p: Product)
    requires OnePerProduct(rows) && p in products
    ensures OnePerProduct(Scored(rows, products, log, now))
    ensures exists i ::
      0 <= i < |Scored(rows, products, log, now)| && Scored(rows, products, log, now)[i].product == p.id &&
      Scored(rows, products, log, now)[i].scores == Measure(log, p.id, now)
  {
    var prev := products[..|products| - 1];
    var last := products[|products| - 1];
    ScoredUnique(rows, prev, log, now);
    if last.id != p.id {
      assert p in prev by {
        var i :| 0 <= i < |products| && products[i] == p;
        assert i < |products| - 1;
        assert prev[i] == p;
      }
      ScoredCoversProducts(rows, prev, log, now, p);
      var s := Scored(rows, prev, log, now);
      var i :| 0 <= i < |s| && s[i].product == p.id && s[i].scores == Measure(log, p.id, now);
      assert Upsert(s, last.id, Measure(log, last.id, now))[i] == s[i];
    }
  }

  lemma {:induction false} ScoredUnique(rows: seq<TrendRow>, products: seq<Product>, log: seq<BehaviorEvent>, now: int)
    requires OnePerProduct(rows)
    ensures OnePerProduct(Scored(rows, products, log, now))
  {
    if products != [] {
      ScoredUnique(rows, products[..|products| - 1], log, now);
    }
  }
}
