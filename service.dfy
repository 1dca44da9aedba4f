/**
 * Behaviour tracking in `RecommendationService` (ai_recommendations/services.py):
 * the behaviour-weight table, the event it records and the incremental update
 * of the per-(user, product) interaction, and the proof that folding the
 * incremental update over a log gives the row a full recompute would store.
 */
module Service {
  import opened Wrappers
  import opened Products
  import opened Recommendations

  /** `_get_behavior_weight`: the service's weight table, 1.0 for any other kind. */
  function BehaviorWeight(k: BehaviorKind): real {
    match k
    case View => 1.0
    case CartAdd => 3.0
    case CartRemove => -1.0
    case Purchase => 10.0
    case WishlistAdd => 2.0
    case Review => 5.0
    case Search => 0.5
    case CategoryBrowse => 0.3
    case OtherKind(_) => 1.0
  }

  /**
   * The service table and the recompute table agree on every kind that feeds
   * a bucket; they differ only on searches and category browses, which feed none.
   */
  lemma WeightTablesAgree(k: BehaviorKind)
    ensures BucketOf(k).Some? ==> BehaviorWeight(k) == RecomputeWeight(k)
    ensures BehaviorWeight(k) != RecomputeWeight(k) ==> BucketOf(k).None? && (k == Search || k == CategoryBrowse)
    ensures k == CartRemove ==> BehaviorWeight(k) < 0.0
  {
  }

  /** The row `get_or_create` makes: zero scores, both timestamps `now`. */
  function Fresh(u: UserId, p: ProductId, now: int): Interaction {
    Interaction(u, p, 0.0, 0.0, 0.0, 0.0, 0.0, 0.0, now, now, 0)
  }

  /**
   * The score part of `_update_user_product_interaction`: exactly the bucket
   * of the kind moves, by the kind's weight; the total is recomputed as the
   * sum of the buckets and the count rises by one.
   */
  function Bump(row: Interaction, k: BehaviorKind): (r: Interaction)
    ensures forall b ::
      BucketScore(r, b) == BucketScore(row, b) + (if BucketOf(k) == Some(b) then BehaviorWeight(k) else 0.0)
    ensures r.totalScore == BucketTotal(r)
    ensures r.interactionCount == row.interactionCount + 1
    ensures r.user == row.user && r.product == row.product
    ensures r.firstInteraction == row.firstInteraction && r.lastInteraction == row.lastInteraction
  {
    var w := BehaviorWeight(k);
    var s := match k
      case View => row.(viewScore := row.viewScore + w)
      case CartAdd => row.(cartScore := row.cartScore + w)
      case CartRemove => row.(cartScore := row.cartScore + w)
      case Purchase => row.(purchaseScore := row.purchaseScore + w)
      case WishlistAdd => row.(wishlistScore := row.wishlistScore + w)
      case Review => row.(reviewScore := row.reviewScore + w)
      case _ => row;
    s.(totalScore := BucketTotal(s), interactionCount := row.interactionCount + 1)
  }

  /** A cart removal on a fresh row drives its cart score, and its total, below zero. */
  lemma CartScoreCanGoNegative(u: UserId, p: ProductId, now: int)
    ensures Bump(Fresh(u, p, now), CartRemove).cartScore == -1.0
    ensures Bump(Fresh(u, p, now), CartRemove).totalScore == -1.0
  {
    assert BucketScore(Bump(Fresh(u, p, now), CartRemove), CartBucket) == -1.0;
  }

  /** The interaction table, keyed by (user, product) as `unique_together` demands. */
  type InteractionTable = map<(UserId, ProductId), Interaction>

  ghost predicate KeyedByUserProduct(t: InteractionTable) {
    forall k :: k in t ==> t[k].user == k.0 && t[k].product == k.1
  }

  /**
   * `_update_user_product_interaction(user, product_id, kind)` at time `now`:
   * nothing changes when no product has that id; otherwise the row is
   * created (both timestamps `now`) or its last timestamp moves to `now`,
   * and then it is bumped.
   */
  function UpdateInteraction(t: InteractionTable, u: UserId, objectId: string, k: BehaviorKind,
                             now: int, catalog: seq<Product>): (r: InteractionTable)
    ensures FindProduct(catalog, objectId).None? ==> r == t
    ensures FindProduct(catalog, objectId).Some? ==>
      var key := (u, objectId);
      && key in r && r == t[key := r[key]]
      && r[key] == Bump(if key in t then t[key].(lastInteraction := now) else Fresh(u, objectId, now), k)
    ensures KeyedByUserProduct(t) ==> KeyedByUserProduct(r)
  {
    match FindProduct(catalog, objectId)
    case None => t
    case Some(p) =>
      var key := (u, p.id);
      var base := if key in t then t[key].(lastInteraction := now) else Fresh(u, p.id, now);
      t[key := Bump(base, k)]
  }

  /** The `UserBehavior` row `_track_behavior` creates: always the product content type. */
  function TrackedEvent(user: Option<UserId>, sessionKey: Option<string>, k: BehaviorKind,
                        objectId: string, now: int): (e: BehaviorEvent)
    ensures e.isProductContent && e.weight == BehaviorWeight(k) && e.createdAt == now
    ensures e.user == user && e.kind == k && e.objectId == objectId
    ensures sessionKey.None? ==> e.sessionKey == ""
  {
    BehaviorEvent(user, sessionKey.GetOr(""), k, true, objectId, BehaviorWeight(k), now)
  }

  /** The interaction update of `_track_behavior`: only for a present user. */
  function TrackInteraction(t: InteractionTable, e: BehaviorEvent, catalog: seq<Product>): (r: InteractionTable)
    ensures e.user.None? ==> r == t
  {
    match e.user
    case None => t
    case Some(u) => UpdateInteraction(t, u, e.objectId, e.kind, e.createdAt, catalog)
  }

  /** The tables `_track_behavior` writes. */
  class RecommendationService {
    var behaviors: seq<BehaviorEvent>
    var interactions: InteractionTable

    ghost predicate Valid()
      reads this
    {
      KeyedByUserProduct(interactions)
    }

    constructor ()
      ensures Valid() && behaviors == [] && interactions == map[]
    {
      behaviors := [];
      interactions := map[];
    }

    /**
     * `_track_behavior`: always records the event with the kind's weight;
     * updates the interaction only for a present user whose object id
     * resolves to a product.
     */
    method TrackBehavior(user: Option<UserId>, sessionKey: Option<string>, k: BehaviorKind,
                         objectId: string, now: int, catalog: seq<Product>)
      requires Valid()
      modifies this
      ensures Valid()
      ensures behaviors == old(behaviors) + [TrackedEvent(user, sessionKey, k, objectId, now)]
      ensures interactions == TrackInteraction(old(interactions), TrackedEvent(user, sessionKey, k, objectId, now), catalog)
      ensures user.None? || FindProduct(catalog, objectId).None? ==> interactions == old(interactions)
    {
      var e := TrackedEvent(user, sessionKey, k, objectId, now);
      behaviors := behaviors + [e];
      if user.Some? {
        interactions := UpdateInteraction(interactions, user.value, objectId, k, now, catalog);
      }
    }
  }

  /** The interaction table after tracking each event of `events` in turn. */
  function TrackAll(t: InteractionTable, events: seq<BehaviorEvent>, catalog: seq<Product>): InteractionTable
  {
    if events == [] then t
    else TrackInteraction(TrackAll(t, events[..|events| - 1], catalog), events[|events| - 1], catalog)
  }

  /** Events recorded in order of time. */
  ghost predicate Chronological(events: seq<BehaviorEvent>) {
    forall i, j :: 0 <= i < j < |events| ==> events[i].createdAt <= events[j].createdAt
  }

  /**
   * Table `t` holds the row of (`template.user`, `template.product`) exactly
   * when some event of `log` matches, and then it is the row `update_scores`
   * would compute from `log`.
   */
  ghost predicate AgreesWithRecompute(t: InteractionTable, log: seq<BehaviorEvent>, template: Interaction) {
    var key := (template.user, template.product);
    var m := Matching(log, template.user, template.product);
    && (key in t <==> m != [])
    && (m != [] ==> t[key] == Recomputed(template, log))
  }

  /**
   * The incremental update and the full recompute agree. Start from a table
   * without a row for (u, p), track a chronological log of events written by
   * `_track_behavior`: the row exists exactly when some event matches, and
   * then it is the row `update_scores` would compute from the same log, in
   * every bucket, the total, the count and both timestamps.
   */
  lemma {:induction false} IncrementalMatchesRecompute(
    t0: InteractionTable, events: seq<BehaviorEvent>, catalog: seq<Product>,
    p: Product, template: Interaction)
    requires UniqueIds(catalog) && p in catalog
    requires forall i :: 0 <= i < |events| ==> events[i].isProductContent
    requires Chronological(events)
    requires template.product == p.id && (template.user, p.id) !in t0
    ensures AgreesWithRecompute(TrackAll(t0, events, catalog), events, template)
  {
    if events != [] {
      var prev := events[..|events| - 1];
      var e := events[|events| - 1];
      assert Chronological(prev);
      IncrementalMatchesRecompute(t0, prev, catalog, p, template);
      assert forall i :: 0 <= i < |prev| ==> prev[i].createdAt <= e.createdAt;
      if IsMatch(e, template.user, p.id) {
        MatchingStep(TrackAll(t0, prev, catalog), prev, e, catalog, p, template);
      } else {
        OtherStep(TrackAll(t0, prev, catalog), prev, e, catalog, template);
      }
      assert prev + [e] == events;
    }
  }

  /** A matching event moves an agreeing table to one agreeing with the longer log. */
  lemma MatchingStep(before: InteractionTable, prev: seq<BehaviorEvent>, e: BehaviorEvent,
                     catalog: seq<Product>, p: Product, template: Interaction)
    requires UniqueIds(catalog) && p in catalog && template.product == p.id
    requires IsMatch(e, template.user, p.id)
    requires forall i :: 0 <= i < |prev| ==> prev[i].createdAt <= e.createdAt
    requires AgreesWithRecompute(before, prev, template)
    ensures AgreesWithRecompute(TrackInteraction(before, e, catalog), prev + [e], template)
  {
    var key := (template.user, p.id);
    var events := prev + [e];
    assert events[..|events| - 1] == prev;
    var m := Matching(prev, template.user, p.id);
    assert Matching(events, template.user, p.id) == m + [e];
    MatchingEventStep(before, e, catalog, p);
    StepMatchesRecompute(prev, e, template);
    var base := if key in before then before[key].(lastInteraction := e.createdAt)
                else Fresh(template.user, p.id, e.createdAt);
    assert base == SnocBase(template, m, e);
  }

  /** Any other event leaves an agreeing table agreeing with the longer log. */
  lemma OtherStep(before: InteractionTable, prev: seq<BehaviorEvent>, e: BehaviorEvent,
                  catalog: seq<Product>, template: Interaction)
    requires e.isProductContent && !IsMatch(e, template.user, template.product)
    requires AgreesWithRecompute(before, prev, template)
    ensures AgreesWithRecompute(TrackInteraction(before, e, catalog), prev + [e], template)
  {
    var events := prev + [e];
    assert events[..|events| - 1] == prev;
    assert Matching(events, template.user, template.product) == Matching(prev, template.user, template.product);
    OtherEventStep(before, e, catalog, (template.user, template.product));
  }

  /** Tracking an event for (u, p) bumps the row of (u, p), fresh or touched. */
  lemma MatchingEventStep(t: InteractionTable, e: BehaviorEvent, catalog: seq<Product>, p: Product)
    requires UniqueIds(catalog) && p in catalog
    requires e.user.Some? && e.objectId == p.id
    ensures var key := (e.user.value, p.id);
      var after := TrackInteraction(t, e, catalog);
      && key in after
      && after[key] == Bump(if key in t then t[key].(lastInteraction := e.createdAt)
                            else Fresh(e.user.value, p.id, e.createdAt), e.kind)
  {
    FindProductFinds(catalog, p);
  }

  /** Tracking an event that does not match (u, p) leaves the row of (u, p) as it was. */
  lemma OtherEventStep(t: InteractionTable, e: BehaviorEvent, catalog: seq<Product>, key: (UserId, ProductId))
    requires e.isProductContent && !IsMatch(e, key.0, key.1)
    ensures var after := TrackInteraction(t, e, catalog);
      && (key in after <==> key in t)
      && (key in t ==> after[key] == t[key])
  {
  }

  /** One matching event moves the recomputed row exactly as `Bump` does. */
  lemma StepMatchesRecompute(prev: seq<BehaviorEvent>, e: BehaviorEvent, template: Interaction)
    requires IsMatch(e, template.user, template.product)
    requires forall i :: 0 <= i < |prev| ==> prev[i].createdAt <= e.createdAt
    ensures Bump(SnocBase(template, Matching(prev, template.user, template.product), e), e.kind)
      == Recomputed(template, prev + [e])
  {
    var u := template.user;
    var p := template.product;
    var events := prev + [e];
    assert events[..|events| - 1] == prev;
    var m := Matching(prev, u, p);
    assert Matching(events, u, p) == m + [e];
    forall i | 0 <= i < |m|
      ensures m[i].createdAt <= e.createdAt
    {
      assert m[i] in prev;
    }
    TimesSnoc(m, e);
    SummarySnoc(template, m, e);
  }

  /** The row an event after the events `m` starts from: fresh, or the summary touched at the event's time. */
  function SnocBase(row: Interaction, m: seq<BehaviorEvent>, e: BehaviorEvent): Interaction {
    if m == [] then Fresh(row.user, row.product, e.createdAt)
    else Summary(row, m).(lastInteraction := e.createdAt)
  }

  /** `Summary` of one more event is `Bump` of the summary so far, timestamps aside. */
  lemma SummarySnoc(row: Interaction, m: seq<BehaviorEvent>, e: BehaviorEvent)
    requires forall i :: 0 <= i < |m| ==> m[i].createdAt <= e.createdAt
    ensures Bump(SnocBase(row, m, e), e.kind) == Summary(row, m + [e])
  {
    var b := Bump(SnocBase(row, m, e), e.kind);
    TimesSnoc(m, e);
    BucketSnoc(row, m, e, ViewBucket);
    BucketSnoc(row, m, e, CartBucket);
    BucketSnoc(row, m, e, PurchaseBucket);
    BucketSnoc(row, m, e, WishlistBucket);
    BucketSnoc(row, m, e, ReviewBucket);
    assert b.viewScore == BucketSum(m + [e], ViewBucket);
    assert b.cartScore == BucketSum(m + [e], CartBucket);
    assert b.purchaseScore == BucketSum(m + [e], PurchaseBucket);
    assert b.wishlistScore == BucketSum(m + [e], WishlistBucket);
    assert b.reviewScore == BucketSum(m + [e], ReviewBucket);
  }

  /** Each bucket of the bumped row is the bucket sum over one more event. */
  lemma BucketSnoc(row: Interaction, m: seq<BehaviorEvent>, e: BehaviorEvent, bk: Bucket)
    ensures BucketScore(Bump(SnocBase(row, m, e), e.kind), bk) == BucketSum(m + [e], bk)
  {
    WeightTablesAgree(e.kind);
    BucketSumSnoc(m, e, bk);
  }
}
