/**
 * The stored side of the recommendation engine (ai_recommendations/models.py,
 * and its identical copy ai_recommendation/models.py): behaviour events, the
 * per-(user, product) interaction aggregate and its full recompute, the
 * counters of a generated recommendation, the retraining test and the
 * uniqueness constraints of the tables.
 */
module Recommendations {
  import opened Wrappers

  type UserId = string
  type ProductId = string

  /** `UserBehavior.BEHAVIOR_TYPES`; any other stored string is `OtherKind`. */
  datatype BehaviorKind =
    | View | CartAdd | CartRemove | Purchase | WishlistAdd | Review | Search | CategoryBrowse
    | OtherKind(name: string)

  /**
   * One `UserBehavior` row. `isProductContent` says whether its content type is
   * the product model; `createdAt` is a timestamp in seconds.
   */
  datatype BehaviorEvent = BehaviorEvent(
    user: Option<UserId>,
    sessionKey: string,
    kind: BehaviorKind,
    isProductContent: bool,
    objectId: string,
    weight: real,
    createdAt: int
  )

  /** The five score buckets of an interaction. */
  datatype Bucket = ViewBucket | CartBucket | PurchaseBucket | WishlistBucket | ReviewBucket

  /** The bucket a kind feeds; search, category browse and unknown kinds feed none. */
  function BucketOf(k: BehaviorKind): Option<Bucket> {
    match k
    case View => Some(ViewBucket)
    case CartAdd => Some(CartBucket)
    case CartRemove => Some(CartBucket)
    case Purchase => Some(PurchaseBucket)
    case WishlistAdd => Some(WishlistBucket)
    case Review => Some(ReviewBucket)
    case _ => None
  }

  /** The `score_weights` table of `update_scores`, with its default of 1.0. */
  function RecomputeWeight(k: BehaviorKind): real {
    match k
    case View => 1.0
    case CartAdd => 3.0
    case CartRemove => -1.0
    case Purchase => 10.0
    case WishlistAdd => 2.0
    case Review => 5.0
    case _ => 1.0
  }

  /** A `UserProductInteraction` row. Timestamps are seconds. */
  datatype Interaction = Interaction(
    user: UserId,
    product: ProductId,
    viewScore: real,
    cartScore: real,
    purchaseScore: real,
    wishlistScore: real,
    reviewScore: real,
    totalScore: real,
    firstInteraction: int,
    lastInteraction: int,
    interactionCount: nat
  )

  function BucketScore(r: Interaction, b: Bucket): real {
    match b
    case ViewBucket => r.viewScore
    case CartBucket => r.cartScore
    case PurchaseBucket => r.purchaseScore
    case WishlistBucket => r.wishlistScore
    case ReviewBucket => r.reviewScore
  }

  /** The sum of the five buckets, which `total_score` is meant to hold. */
  function BucketTotal(r: Interaction): real {
    r.viewScore + r.cartScore + r.purchaseScore + r.wishlistScore + r.reviewScore
  }

  /** Whether `update_scores` selects event `e` for user `u` and product `p`. */
  predicate IsMatch(e: BehaviorEvent, u: UserId, p: ProductId) {
    e.user == Some(u) && e.isProductContent && e.objectId == p
  }

  /** The behaviours `update_scores` selects, in log order. */
  function Matching(log: seq<BehaviorEvent>, u: UserId, p: ProductId): (m: seq<BehaviorEvent>)
    ensures |m| <= |log|
    ensures forall i :: 0 <= i < |m| ==> m[i] in log && IsMatch(m[i], u, p)
    ensures forall i :: 0 <= i < |log| && IsMatch(log[i], u, p) ==> log[i] in m
  {
    if log == [] then []
    else
      var prev := log[..|log| - 1];
      var e := log[|log| - 1];
      assert forall i :: 0 <= i < |prev| ==> prev[i] == log[i];
      Matching(prev, u, p) + (if IsMatch(e, u, p) then [e] else [])
  }

  /** The sum of the recompute weights of the events that feed bucket `b`. */
  function BucketSum(events: seq<BehaviorEvent>, b: Bucket): real
  {
    if events == [] then 0.0
    else
      var last := events[|events| - 1];
      BucketSum(events[..|events| - 1], b) + (if BucketOf(last.kind) == Some(b) then RecomputeWeight(last.kind) else 0.0)
  }

  function EarliestTime(events: seq<BehaviorEvent>): (t: int)
    requires events != []
    ensures exists i :: 0 <= i < |events| && events[i].createdAt == t
    ensures forall i :: 0 <= i < |events| ==> t <= events[i].createdAt
  {
    if |events| == 1 then events[0].createdAt
    else
      var t := EarliestTime(events[..|events| - 1]);
      var last := events[|events| - 1].createdAt;
      assert forall i :: 0 <= i < |events| - 1 ==> events[..|events| - 1][i] == events[i];
      if last < t then last else t
  }

  function LatestTime(events: seq<BehaviorEvent>): (t: int)
    requires events != []
    ensures exists i :: 0 <= i < |events| && events[i].createdAt == t
    ensures forall i :: 0 <= i < |events| ==> events[i].createdAt <= t
  {
    if |events| == 1 then events[0].createdAt
    else
      var t := LatestTime(events[..|events| - 1]);
      var last := events[|events| - 1].createdAt;
      assert forall i :: 0 <= i < |events| - 1 ==> events[..|events| - 1][i] == events[i];
      if last > t then last else t
  }

  /**
   * What `UserProductInteraction.update_scores` stores, stated without its
   * loop: every bucket is the weight sum of its matching events, the total is
   * their sum, the count is the number of matching events, and the
   * timestamps are their earliest and latest times (kept when there are none).
   */
  function Recomputed(row: Interaction, log: seq<BehaviorEvent>): Interaction
  {
    Summary(row, Matching(log, row.user, row.product))
  }

  /** The row `update_scores` stores once it has selected the events `m`. */
  function Summary(row: Interaction, m: seq<BehaviorEvent>): Interaction
  {
    var v := BucketSum(m, ViewBucket);
    var c := BucketSum(m, CartBucket);
    var pu := BucketSum(m, PurchaseBucket);
    var w := BucketSum(m, WishlistBucket);
    var rv := BucketSum(m, ReviewBucket);
    Interaction(row.user, row.product, v, c, pu, w, rv, v + c + pu + w + rv,
                if m == [] then row.firstInteraction else EarliestTime(m),
                if m == [] then row.lastInteraction else LatestTime(m),
                |m|)
  }

  /** Appending one event adds its weight to the sum of its own bucket only. */
  lemma BucketSumSnoc(m: seq<BehaviorEvent>, e: BehaviorEvent, b: Bucket)
    ensures BucketSum(m + [e], b) ==
      BucketSum(m, b) + (if BucketOf(e.kind) == Some(b) then RecomputeWeight(e.kind) else 0.0)
  {
    assert (m + [e])[..|m + [e]| - 1] == m;
  }

  /** Appending an event no earlier than the others keeps the earliest time and sets the latest. */
  lemma TimesSnoc(m: seq<BehaviorEvent>, e: BehaviorEvent)
    requires forall i :: 0 <= i < |m| ==> m[i].createdAt <= e.createdAt
    ensures m == [] ==> EarliestTime(m + [e]) == e.createdAt == LatestTime(m + [e])
    ensures m != [] ==> EarliestTime(m + [e]) == EarliestTime(m) && LatestTime(m + [e]) == e.createdAt
  {
    var s := m + [e];
    assert s[..|s| - 1] == m;
    if m != [] {
      var i :| 0 <= i < |m| && m[i].createdAt == EarliestTime(m);
      var j :| 0 <= j < |m| && m[j].createdAt == LatestTime(m);
    }
  }

  /** Adds one event's recompute weight to its bucket, as one turn of the loop does. */
  function AddToBucket(r: Interaction, k: BehaviorKind): (s: Interaction)
    ensures forall b ::
      BucketScore(s, b) == BucketScore(r, b) + (if BucketOf(k) == Some(b) then RecomputeWeight(k) else 0.0)
    ensures s.totalScore == r.totalScore && s.interactionCount == r.interactionCount
    ensures s.firstInteraction == r.firstInteraction && s.lastInteraction == r.lastInteraction
    ensures s.user == r.user && s.product == r.product
  {
    var w := RecomputeWeight(k);
    match k
    case View => r.(viewScore := r.viewScore + w)
    case CartAdd => r.(cartScore := r.cartScore + w)
    case CartRemove => r.(cartScore := r.cartScore + w)
    case Purchase => r.(purchaseScore := r.purchaseScore + w)
    case WishlistAdd => r.(wishlistScore := r.wishlistScore + w)
    case Review => r.(reviewScore := r.reviewScore + w)
    case _ => r
  }

  /**
   * The bucket loop of `update_scores`: from zeroed buckets, adds each
   * behaviour's weight to its bucket; every bucket ends as the weight sum of
   * the behaviours that feed it, and no other column changes.
   */
  method SumBuckets(row: Interaction, behaviors: seq<BehaviorEvent>) returns (r: Interaction)
    ensures r == row.(viewScore := BucketSum(behaviors, ViewBucket), cartScore := BucketSum(behaviors, CartBucket),
                      purchaseScore := BucketSum(behaviors, PurchaseBucket),
                      wishlistScore := BucketSum(behaviors, WishlistBucket),
                      reviewScore := BucketSum(behaviors, ReviewBucket))
  {
    r := row.(viewScore := 0.0, cartScore := 0.0, purchaseScore := 0.0,
              wishlistScore := 0.0, reviewScore := 0.0);
    var i := 0;
    while i < |behaviors|
      invariant 0 <= i <= |behaviors|
      invariant forall b :: BucketScore(r, b) == BucketSum(behaviors[..i], b)
      invariant r == row.(viewScore := r.viewScore, cartScore := r.cartScore,
                          purchaseScore := r.purchaseScore, wishlistScore := r.wishlistScore,
                          reviewScore := r.reviewScore)
    {
      assert behaviors[..i + 1][..i] == behaviors[..i];
      r := AddToBucket(r, behaviors[i].kind);
      i := i + 1;
    }
    assert behaviors[..i] == behaviors;
    assert BucketScore(r, ViewBucket) == BucketSum(behaviors, ViewBucket);
    assert BucketScore(r, CartBucket) == BucketSum(behaviors, CartBucket);
    assert BucketScore(r, PurchaseBucket) == BucketSum(behaviors, PurchaseBucket);
    assert BucketScore(r, WishlistBucket) == BucketSum(behaviors, WishlistBucket);
    assert BucketScore(r, ReviewBucket) == BucketSum(behaviors, ReviewBucket);
  }

  /**
   * `UserProductInteraction.update_scores`: resets and refills the buckets,
   * then sets the total, the count and, when there were matching
   * behaviours, the first and last timestamps. The result is the row as
   * saved.
   */
  method UpdateScores(row: Interaction, log: seq<BehaviorEvent>) returns (r: Interaction)
    ensures r == Recomputed(row, log)
    ensures r.totalScore == BucketTotal(r)
    ensures r.interactionCount == |Matching(log, row.user, row.product)|
  {
    var behaviors := Matching(log, row.user, row.product);
    r := SumBuckets(row, behaviors);
    r := r.(totalScore := BucketTotal(r));
    r := r.(interactionCount := |behaviors|);
    if |behaviors| > 0 {
      r := r.(firstInteraction := EarliestTime(behaviors), lastInteraction := LatestTime(behaviors));
    }
  }

  /**
   * The recomputed row keeps its identity; with matching behaviours its
   * timestamps bound all of their times, and searches, category browses and
   * unknown kinds add nothing to any bucket.
   */
  lemma RecomputedShape(row: Interaction, log: seq<BehaviorEvent>)
    ensures var r := Recomputed(row, log);
      && r.user == row.user && r.product == row.product
      && r.totalScore == BucketTotal(r)
      && r.interactionCount == |Matching(log, row.user, row.product)|
      && (Matching(log, row.user, row.product) == [] ==>
            r.firstInteraction == row.firstInteraction && r.lastInteraction == row.lastInteraction)
      && (forall e :: e in Matching(log, row.user, row.product) ==>
            r.firstInteraction <= e.createdAt <= r.lastInteraction)
  {
    var m := Matching(log, row.user, row.product);
    if m != [] {
      forall e | e in m
        ensures EarliestTime(m) <= e.createdAt <= LatestTime(m)
      {
        var i :| 0 <= i < |m| && m[i] == e;
      }
    }
  }

  /** Events of kinds without a bucket change no bucket sum. */
  lemma {:induction false} BucketSumIgnoresUnbucketed(events: seq<BehaviorEvent>, e: BehaviorEvent, b: Bucket)
    requires BucketOf(e.kind) == None
    ensures BucketSum(events + [e], b) == BucketSum(events, b)
  {
    assert (events + [e])[..|events + [e]| - 1] == events;
  }

  // ---------------------------------------------------------------------
  // Recommendation counters

  /** `Recommendation.click_through_rate`, as a percentage. */
  function ClickThroughRate(clicks: nat, impressions: nat): (r: real)
    ensures impressions == 0 ==> r == 0.0
    ensures impressions > 0 ==> r * impressions as real == clicks as real * 100.0
    ensures clicks <= impressions ==> 0.0 <= r <= 100.0
  {
    Rate(clicks, impressions)
  }

  /** `Recommendation.conversion_rate`, as a percentage. */
  function ConversionRate(conversions: nat, clicks: nat): (r: real)
    ensures clicks == 0 ==> r == 0.0
    ensures clicks > 0 ==> r * clicks as real == conversions as real * 100.0
    ensures conversions <= clicks ==> 0.0 <= r <= 100.0
  {
    Rate(conversions, clicks)
  }

  /** `part / whole * 100`, or 0 when `whole` is 0. */
  function Rate(part: nat, whole: nat): (r: real)
    ensures whole == 0 ==> r == 0.0
    ensures whole > 0 ==> r * whole as real == part as real * 100.0
    ensures part <= whole ==> 0.0 <= r <= 100.0
  {
    if whole > 0 then
      var r := part as real / whole as real * 100.0;
      assert r * whole as real == part as real * 100.0;
      r
    else 0.0
  }

  /** A `RecommendationItem` row of one recommendation. */
  datatype RecommendationItem = RecommendationItem(
    product: ProductId,
    score: real,
    rank: nat,
    impressions: nat,
    clicks: nat,
    conversions: nat
  )

  /** `unique_together = ('recommendation', 'product')`, within one recommendation. */
  ghost predicate ItemsUniqueByProduct(items: seq<RecommendationItem>) {
    forall i, j :: 0 <= i < j < |items| ==> items[i].product != items[j].product
  }

  /** The position of the item for product `p`, or `|items|` when it has none. */
  function ItemIndex(items: seq<RecommendationItem>, p: ProductId): (k: nat)
    ensures k <= |items|
    ensures k < |items| ==> items[k].product == p
    ensures k == |items| ==> forall i :: 0 <= i < |items| ==> items[i].product != p
  {
    if items == [] then 0
    else if items[0].product == p then 0
    else 1 + ItemIndex(items[1..], p)
  }

  /** A `Recommendation` with its items; the counters change in place. */
  class Recommendation {
    var impressions: nat
    var clicks: nat
    var conversions: nat
    var items: seq<RecommendationItem>

    ghost predicate Valid()
      reads this
    {
      ItemsUniqueByProduct(items)
    }

    constructor (items0: seq<RecommendationItem>)
      requires ItemsUniqueByProduct(items0)
      ensures Valid()
      ensures impressions == 0 && clicks == 0 && conversions == 0 && items == items0
    {
      impressions := 0;
      clicks := 0;
      conversions := 0;
      items := items0;
    }

    /** `record_impression`: only the record's own impression counter moves. */
    method RecordImpression()
      requires Valid()
      modifies this
      ensures Valid()
      ensures impressions == old(impressions) + 1
      ensures clicks == old(clicks) && conversions == old(conversions) && items == old(items)
    {
      impressions := impressions + 1;
    }

    /**
     * `record_click`: the record's clicks rise by one; when a product is
     * given and has an item, that one item's clicks rise by one as well.
     */
    method RecordClick(product: Option<ProductId>)
      requires Valid()
      modifies this
      ensures Valid()
      ensures clicks == old(clicks) + 1
      ensures impressions == old(impressions) && conversions == old(conversions)
      ensures |items| == |old(items)|
      ensures forall i :: 0 <= i < |items| ==>
        if product.Some? && old(items)[i].product == product.value
        then items[i] == old(items)[i].(clicks := old(items)[i].clicks + 1)
        else items[i] == old(items)[i]
    {
      clicks := clicks + 1;
      if product.Some? {
        var k := ItemIndex(items, product.value);
        if k < |items| {
          items := items[k := items[k].(clicks := items[k].clicks + 1)];
        }
      }
    }

    /**
     * `record_conversion`: the record's conversions rise by one; when a
     * product is given and has an item, that item's conversions rise too.
     */
    method RecordConversion(product: Option<ProductId>)
      requires Valid()
      modifies this
      ensures Valid()
      ensures conversions == old(conversions) + 1
      ensures impressions == old(impressions) && clicks == old(clicks)
      ensures |items| == |old(items)|
      ensures forall i :: 0 <= i < |items| ==>
        if product.Some? && old(items)[i].product == product.value
        then items[i] == old(items)[i].(conversions := old(items)[i].conversions + 1)
        else items[i] == old(items)[i]
    {
      conversions := conversions + 1;
      if product.Some? {
        var k := ItemIndex(items, product.value);
        if k < |items| {
          items := items[k := items[k].(conversions := items[k].conversions + 1)];
        }
      }
    }
  }

  // ---------------------------------------------------------------------
  // Retraining

  /** The number of behaviours recorded strictly after time `t`. */
  function CountAfter(log: seq<BehaviorEvent>, t: int): (n: nat)
    ensures n <= |log|
  {
    if log == [] then 0
    else CountAfter(log[..|log| - 1], t) + (if log[|log| - 1].createdAt > t then 1 else 0)
  }

  /** The fields of a `RecommendationModel` that `needs_retraining` reads. */
  datatype ModelInfo = ModelInfo(isTrained: bool, lastTrainedAt: Option<int>, trainingDataCount: nat)

  /** `RecommendationModel.needs_retraining`. */
  predicate NeedsRetraining(m: ModelInfo, log: seq<BehaviorEvent>) {
    if !m.isTrained then true
    else if m.lastTrainedAt.Some? then CountAfter(log, m.lastTrainedAt.value) as real > m.trainingDataCount as real * 0.1
    else true
  }

  /** A later training time never sees more new behaviours. */
  lemma {:induction false} CountAfterAntitone(log: seq<BehaviorEvent>, t1: int, t2: int)
    requires t1 <= t2
    ensures CountAfter(log, t2) <= CountAfter(log, t1)
  {
    if log != [] {
      CountAfterAntitone(log[..|log| - 1], t1, t2);
    }
  }

  /**
   * Untrained or never-timestamped models always need retraining; a trained
   * model that needs it keeps needing it as behaviours are appended.
   */
  lemma {:induction false} NeedsRetrainingMonotone(m: ModelInfo, log: seq<BehaviorEvent>, e: BehaviorEvent)
    ensures !m.isTrained ==> NeedsRetraining(m, log)
    ensures m.isTrained && m.lastTrainedAt.None? ==> NeedsRetraining(m, log)
    ensures NeedsRetraining(m, log) ==> NeedsRetraining(m, log + [e])
  {
    if m.lastTrainedAt.Some? {
      assert (log + [e])[..|log + [e]| - 1] == log;
      assert CountAfter(log + [e], m.lastTrainedAt.value) >= CountAfter(log, m.lastTrainedAt.value);
    }
  }

  // ---------------------------------------------------------------------
  // Uniqueness constraints of the stored tables

  ghost predicate UniqueKeys<K>(keys: seq<K>) {
    forall i, j :: 0 <= i < j < |keys| ==> keys[i] != keys[j]
  }

  /**
   * Inserting a row into a table with a unique key: an `IntegrityError` when
   * the key is already present, otherwise the row is appended.
   */
  function InsertUnique<K(==)>(keys: seq<K>, k: K): (r: Result<seq<K>>)
    ensures r.Ok? <==> k !in keys
    ensures r.Ok? ==> r.value == keys + [k]
    ensures UniqueKeys(keys) && r.Ok? ==> UniqueKeys(r.value)
  {
    if k in keys then Err("IntegrityError") else Ok(keys + [k])
  }

  /** A `RecommendationFeedback` row by its constrained columns; the product is nullable. */
  datatype FeedbackKey = FeedbackKey(user: UserId, recommendation: string, product: Option<ProductId>)

  /**
   * SQL unique constraints treat NULLs as distinct, so two feedback rows
   * without a product never clash.
   */
  predicate FeedbackClash(a: FeedbackKey, b: FeedbackKey) {
    a.product.Some? && a == b
  }

  ghost predicate FeedbackUnique(rows: seq<FeedbackKey>) {
    forall i, j :: 0 <= i < j < |rows| ==> !FeedbackClash(rows[i], rows[j])
  }

  function InsertFeedback(rows: seq<FeedbackKey>, k: FeedbackKey): (r: Result<seq<FeedbackKey>>)
    ensures r.Ok? <==> forall i :: 0 <= i < |rows| ==> !FeedbackClash(rows[i], k)
    ensures r.Ok? ==> r.value == rows + [k]
    ensures FeedbackUnique(rows) && r.Ok? ==> FeedbackUnique(r.value)
    ensures k.product.None? ==> r.Ok?
  {
    if exists i :: 0 <= i < |rows| && FeedbackClash(rows[i], k) then Err("IntegrityError")
    else Ok(rows + [k])
  }
}
