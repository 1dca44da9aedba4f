# A verified model of the storefront's recommendation engine and domain models

This project models, in Dafny, the core of a Django storefront: the
AI-recommendation engine (behaviour tracking, the per-user interaction
scores, the product selectors, trend scores and ranks, recommendation
counters) and the rules the shop's models enforce on carts, orders,
subscriptions, products, users, the blog and the admin dashboard. Each
module follows one source file:

| module | models |
|---|---|
| `Service` | behaviour weights, event tracking and the incremental interaction update of `RecommendationService` (ai_recommendations/services.py) |
| `Selectors` | the personalised, similar-to-product, frequently-bought-together, trending-in-category and popularity selectors (ai_recommendations/services.py) |
| `Trends` | `update_trending_products` and `_update_trending_rankings` (ai_recommendations/services.py) |
| `Recommendations` | the interaction recompute, recommendation counters, the retraining test and the uniqueness constraints (ai_recommendations/models.py and its identical copy ai_recommendation/models.py) |
| `SessionCarts` | the session cart (core/cart.py) |
| `Uuids` | how a `UUIDField` lookup reads an id string, and the canonical form ids are stored in (core/models.py) |
| `CoreModels` | the database cart and site settings (core/models.py) |
| `Orders` | order numbers, totals, shipping, coupons and refunds (orders/models.py) |
| `Subscriptions` | plans, subscriptions, deliveries and discounts (subscriptions/models.py) |
| `Products` | stock, discount percentage, variants and images (products/models.py) |
| `Users` | full names, addresses, messages and notifications (users/models.py) |
| `Blog` | posts, comments and recipes (blog/models.py) |
| `Dashboard` | widgets, admin notes and audit lines (dashboard/models.py) |
| `Calendar`, `Text`, `Numeric`, `Ordering`, `Wrappers` | the date arithmetic, string operations, rounding and queryset ordering the models use, and `Option`/`Result` |

Conventions:

- A model whose methods update its fields in place is a Dafny `class` with `modifies` clauses. A table the code writes row by row is a `map` or `seq` field.
- A value computed without mutation is a function. The lemma beside it states what the source promises about it.
- A queryset is a sequence. `order_by` is the stable sort `Ordering.SortBy`, and `[:n]` is `Ordering.Prefix`. `filter` is `Ordering.Filter`, which keeps order.
- Money and scores are exact `real` numbers. The clock (`timezone.now()`) is a parameter, and so is `slugify(title)`.
- Predicates with no contract of their own model the plain boolean properties: `Users.IsAdminUser` (`is_admin_user`), `Blog.BlogPost.IsPublished` (`is_published`), `Products.IsInStock`/`InStock`/`IsLowStock`, `Orders.CanBeCancelled` and the coupon and discount `is_valid` tests. The lemmas and methods that use them state their meaning.

Three behaviours of the code worth knowing:

- `_get_similar_products` does not remove repeated products. `Selectors.SimilarMayRepeat` shows a list with one product twice.
- A `cart_remove` lowers the cart score below zero. `Service.CartScoreCanGoNegative` shows this.
- The `is_in_stock` filters cannot run at all; see Findings.

## Model

| member | source | states |
|---|---|---|
| Service.WeightTablesAgree | ai_recommendations/services.py:262-274 | the service's weight table and the recompute table agree on every kind that feeds a bucket and differ only on searches (0.5) and category browses (0.3); a cart removal weighs less than zero |
| Service.Bump | ai_recommendations/services.py:293-313 | exactly the kind's bucket moves by its weight, the total becomes the sum of the five buckets, the count rises by one, identity and timestamps are kept |
| Service.CartScoreCanGoNegative | ai_recommendations/services.py:267-298 | a cart removal on a fresh row leaves a cart score and a total of −1 |
| Service.UpdateInteraction | ai_recommendations/services.py:276-317 | an unknown product id changes nothing; otherwise only the (user, product) row changes: created with both timestamps now or touched at now, then bumped; rows stay keyed by user and product |
| Service.TrackedEvent | ai_recommendations/services.py:247-256 | the recorded behaviour has the product content type, the kind's weight, the given user, kind and object id, the time now, and an empty session key when none is given |
| Service.TrackInteraction | ai_recommendations/services.py:258-260 | an anonymous behaviour leaves the interaction table unchanged |
| Service.RecommendationService.constructor | ai_recommendations/services.py:16-17 | no behaviours and no interactions |
| Service.RecommendationService.TrackBehavior | ai_recommendations/services.py:247-260 | the behaviour log grows by exactly the tracked event, the interaction table becomes `TrackInteraction` of it, and nothing changes in it for an anonymous user or an unknown product |
| Service.IncrementalMatchesRecompute | ai_recommendations/services.py:276-317 | tracking a chronological log from a table without the (user, product) row yields a row exactly when some behaviour matches, equal in every bucket, total, count and both timestamps to what `update_scores` computes from the same log |
| Service.MatchingStep | ai_recommendations/services.py:279-313 | a matching behaviour keeps the table in agreement with the recompute over the longer log |
| Service.OtherStep | ai_recommendations/services.py:276-317 | a behaviour for another user or product keeps the table in agreement with the recompute over the longer log |
| Service.MatchingEventStep | ai_recommendations/services.py:279-313 | a behaviour of the user on the product bumps that row, fresh or touched at the behaviour's time |
| Service.OtherEventStep | ai_recommendations/services.py:279-282 | a behaviour for another user or product leaves the row as it was |
| Service.StepMatchesRecompute | ai_recommendations/services.py:293-313 | bumping the row built so far with a later matching behaviour gives the recompute over the longer log |
| Service.SummarySnoc | ai_recommendations/services.py:293-313 | the summary of one more later event is the bump of the summary so far |
| Service.BucketSnoc | ai_recommendations/services.py:295-304 | each bucket of the bumped row is the weight sum over one more event |
| Selectors.PopularityIsTotalPreorder | ai_recommendations/services.py:238-243 | featured, then order count, then average rating (missing last), then views, all descending, is a total preorder, so the sort is well defined |
| Selectors.PopularProperties | ai_recommendations/services.py:223-245 | the popularity list holds `limit` products, or every eligible one when fewer exist; each is an active, in-stock catalogue product outside the excluded ids |
| Selectors.PopularUnique | ai_recommendations/services.py:223-245 | with unique catalogue ids the popularity list has no two products with one id |
| Selectors.PopularPoolComplete | ai_recommendations/services.py:225-231 | every active, in-stock, non-excluded catalogue product is in the queryset the list is cut from |
| Selectors.PopularSorted | ai_recommendations/services.py:238-243 | the popularity list is ordered most popular first |
| Selectors.PopularIsTop | ai_recommendations/services.py:238-243 | no eligible product left out of the list is more popular than one in it |
| Selectors.TopSimilarProperties | ai_recommendations/services.py:108-110 | `n` similarity rows touching the product, or all of them when fewer exist; each touches the product on one side |
| Selectors.TopSimilarIsTop | ai_recommendations/services.py:108-110 | no row touching the product that is left out scores higher than a kept one |
| Selectors.TopSimilarSorted | ai_recommendations/services.py:110-146 | the similarity rows come highest score first |
| Selectors.Others | ai_recommendations/services.py:113-151 | each row is replaced by the product on its other side, position by position |
| Selectors.TopInteractionsProperties | ai_recommendations/services.py:94-96 | at most twenty of the user's own interactions; empty exactly when the user has none |
| Selectors.TopInteractionsSorted | ai_recommendations/services.py:96 | the user's interactions come highest total score first |
| Selectors.ProductsOf | ai_recommendations/services.py:102 | the interacted product ids, position by position |
| Selectors.PicksProperties | ai_recommendations/services.py:112-119 | the picks are candidates, none interacted with, each active and in stock, with pairwise different ids |
| Selectors.PicksSnoc | ai_recommendations/services.py:116-119 | one more candidate is appended exactly when it is admissible and its id is not yet picked |
| Selectors.PicksExtend | ai_recommendations/services.py:107-125 | visiting more candidates only appends to the picks |
| Selectors.PicksComplete | ai_recommendations/services.py:116-119 | every admissible candidate's id ends up among the picks |
| Selectors.SeedPicksProperties | ai_recommendations/services.py:107-125 | the picks from the neighbours of the top five seeds number at most `limit`, repeat no id and are all admissible |
| Selectors.CandidatesPrefix | ai_recommendations/services.py:107 | the candidates of the first seeds are a prefix of all candidates |
| Selectors.CandidatesSnoc | ai_recommendations/services.py:107-112 | one more seed appends its five best neighbours to the candidates |
| Selectors.PicksOfPrefix | ai_recommendations/services.py:107-125 | the picks of a prefix of the candidates are a prefix of all picks |
| Selectors.PartialScan | ai_recommendations/services.py:112-122 | picks made part way through one seed's neighbours are a prefix of all picks |
| Selectors.ScanNeighbours | ai_recommendations/services.py:112-122 | the inner loop's list is the picks over the neighbours visited, and it stopped early only with `limit` products held |
| Selectors.CollectPicks | ai_recommendations/services.py:107-125 | the nested loops gather a prefix of all picks, and all of them unless `limit` was reached |
| Selectors.CutPicks | ai_recommendations/services.py:135 | cutting the gathered picks at `limit` equals cutting all picks there |
| Selectors.PadAfterCut | ai_recommendations/services.py:128-135 | padding the gathered picks and cutting at `limit` equals padding the cut of all picks |
| Selectors.Personalized | ai_recommendations/services.py:91-135 | the nested append-and-break loops return `PersonalizedResult`: the popularity list for a user without interactions, else the seed picks padded with popular products |
| Selectors.PadPicksProperties | ai_recommendations/services.py:128-133 | padding stays within `limit` and adds only sellable products the user has not interacted with |
| Selectors.PadPicksUnique | ai_recommendations/services.py:128-133 | the popular fill excludes the chosen ids, so padding repeats no id |
| Selectors.PersonalizedProperties | ai_recommendations/services.py:91-135 | the personalised list is at most `limit` long, and every product is active, in stock and outside the user's top-20 interactions |
| Selectors.PersonalizedUnique | ai_recommendations/services.py:91-135 | with unique catalogue ids the personalised list repeats no id |
| Selectors.PersonalizedColdStart | ai_recommendations/services.py:98-139 | a user with no interactions gets exactly the popularity list |
| Selectors.CategoryFillProperties | ai_recommendations/services.py:162-168 | the fill holds `n` products, or every eligible one when fewer exist; each is an active, in-stock catalogue product of the category outside the excluded ids |
| Selectors.CategoryFillIsTop | ai_recommendations/services.py:162-168 | no eligible product left out of the fill has more views than one in it |
| Selectors.CategoryFillUnique | ai_recommendations/services.py:162-168 | with unique catalogue ids the fill repeats no id |
| Selectors.CategoryFillSorted | ai_recommendations/services.py:168 | the fill comes most viewed first |
| Selectors.CollectSimilar | ai_recommendations/services.py:148-158 | the loop keeps a prefix of the kept far sides (active, in stock, not the seed), and all of them unless `limit` was reached |
| Selectors.Similar | ai_recommendations/services.py:141-172 | the method returns `SimilarResult`: the first `limit` kept far sides of the top 2×limit rows, padded with the category fill |
| Selectors.SimilarProperties | ai_recommendations/services.py:141-172 | the similarity picks come first and the category fill tops them up to `limit`, or as far as the eligible category products reach; never the seed, all sellable, and the fill repeats no pick |
| Selectors.PadSimilarProperties | ai_recommendations/services.py:161-170 | padding brings the list to min(`limit`, picks + eligible category products); it never adds the seed and never repeats a pick |
| Selectors.PadSimilarIsTop | ai_recommendations/services.py:161-170 | no eligible category product left out has more views than one the fill added |
| Selectors.SimilarMayRepeat | ai_recommendations/services.py:148-155 | two similarity rows pairing the seed with one product list that product twice |
| Selectors.PurchasesIsTotalPreorder | ai_recommendations/services.py:192 | purchase count then views, both descending, is a total preorder |
| Selectors.FrequentlyBoughtTogetherProperties | ai_recommendations/services.py:174-194 | `limit` products, or every eligible one when fewer exist: active, in-stock catalogue products, none of them an input, each sharing a category with some input |
| Selectors.FrequentlyBoughtTogetherIsTop | ai_recommendations/services.py:184-192 | no eligible product left out was bought more often (views breaking ties) than one in the list |
| Selectors.FrequentlyBoughtTogetherUnique | ai_recommendations/services.py:174-194 | with unique catalogue ids the list repeats no id |
| Selectors.FrequentlyBoughtTogetherSorted | ai_recommendations/services.py:192 | the list comes most purchased first, then most viewed |
| Selectors.HotProperties | ai_recommendations/services.py:199-206 | `limit` trending products, or all of them when fewer exist: active, in-stock catalogue products of the category that have a trending row |
| Selectors.HotIsTop | ai_recommendations/services.py:199-206 | no trending product of the category left out has a higher daily score than one kept |
| Selectors.HotUnique | ai_recommendations/services.py:199-206 | with unique catalogue ids the trending products repeat no id |
| Selectors.HotSorted | ai_recommendations/services.py:204-206 | the trending products come highest daily score first |
| Selectors.PadCategoryProperties | ai_recommendations/services.py:208-221 | padding keeps the trending products first and brings the list to min(`limit`, trending + the category's other eligible products) |
| Selectors.PadCategoryIsTop | ai_recommendations/services.py:211-219 | no eligible category product left out has more views than one the padding added |
| Selectors.PadCategoryMembers | ai_recommendations/services.py:211-219 | padding adds only sellable catalogue products of the category |
| Selectors.PadCategoryUnique | ai_recommendations/services.py:218 | padding excludes the trending ids, so it repeats no id |
| Selectors.TrendingInCategoryProperties | ai_recommendations/services.py:196-221 | min(`limit`, trending-eligible) trending products first, then the fill, the whole list min(`limit`, trending + other eligible category products) long |
| Selectors.TrendingInCategoryMembers | ai_recommendations/services.py:196-221 | only sellable catalogue products of the category |
| Selectors.TrendingInCategoryUnique | ai_recommendations/services.py:196-221 | with unique catalogue ids no id appears twice |
| Selectors.ResolveFilter | ai_recommendations/services.py:225-228 | a filter resolves exactly when every keyword names a product field, else `FieldError` |
| Selectors.InStockFilterRaises | ai_recommendations/services.py:165-227 | the as-written filters on `is_in_stock` fail to resolve; the same filter on `stock_quantity` resolves |
| Selectors.PopularAsWritten | ai_recommendations/services.py:225-228 | `_get_popular_products` as written raises for every input |
| Selectors.SimilarAsWritten | ai_recommendations/services.py:161-168 | `_get_similar_products` as written fails exactly when the similarity picks fall short of `limit`, and otherwise returns the picks alone |
| Selectors.FrequentlyBoughtTogetherAsWritten | ai_recommendations/services.py:184-189 | `_get_frequently_bought_together` as written raises for every input |
| Selectors.TrendingInCategoryAsWritten | ai_recommendations/services.py:199-204 | `_get_trending_in_category` as written raises for every input |
| Trends.CountSince | ai_recommendations/services.py:332-366 | a window's behaviour count never exceeds the log's length |
| Trends.CountSinceWidens | ai_recommendations/services.py:323-366 | a wider window (an earlier start) never counts fewer behaviours |
| Trends.Scores | ai_recommendations/services.py:369-382 | weekly ≥ 7·daily, monthly ≥ 4·weekly, daily ≥ 0, daily is 0 exactly when there were no views, purchases or cart additions that day, and the velocities are the day's counts |
| Trends.ScoresExample | ai_recommendations/services.py:369-371 | 1 view, 2 purchases, 6 cart additions, 8 weekly and 10 monthly views give 39, 277 and 1110 |
| Trends.Measure | ai_recommendations/services.py:322-371 | the scores measured from the log at `now` nest: weekly ≥ 7·daily, monthly ≥ 4·weekly, daily ≥ 0 |
| Trends.MeasureWindowsNest | ai_recommendations/services.py:323-370 | the weekly view count includes the daily one, so the weekly score is at least 7.5 times the daily views |
| Trends.WithRank | ai_recommendations/services.py:403-415 | setting one window's rank changes neither the other ranks nor the product and scores |
| Trends.RankOrder | ai_recommendations/services.py:401-413 | `order_by('-score')` visits every row position exactly once |
| Trends.RankOrderSorted | ai_recommendations/services.py:401-413 | rows come in non-increasing order of the window's score |
| Trends.ApplyRanks | ai_recommendations/services.py:402-404 | the loop keeps the number of rows |
| Trends.ApplyRanksAt | ai_recommendations/services.py:402-404 | after k turns a row holds rank place+1 if its place in the order is below k and is untouched otherwise |
| Trends.Ranked | ai_recommendations/services.py:401-404 | a rank pass keeps the number of rows |
| Trends.RankedAt | ai_recommendations/services.py:402-404 | a pass sets only the window's rank of each row, to a value in 1..N |
| Trends.RankOfInjective | ai_recommendations/services.py:402 | two rows never share a rank of one pass |
| Trends.RankOfOnto | ai_recommendations/services.py:402 | every rank 1..N is given to some row |
| Trends.RankOfMonotone | ai_recommendations/services.py:401-403 | a strictly higher score never gets a larger rank |
| Trends.RankedValid | ai_recommendations/services.py:398-404 | after a pass the window's ranks are a permutation of 1..N and follow the scores |
| Trends.RankedPermutation | ai_recommendations/services.py:402-404 | after a pass the window's ranks are exactly 1..N, one per row |
| Trends.RankedFollowsScores | ai_recommendations/services.py:401-404 | after a pass a strictly higher score has a smaller rank |
| Trends.ThreePassesDaily | ai_recommendations/services.py:398-416 | the daily ranks stay valid through the weekly and monthly passes |
| Trends.ThreePassesWeekly | ai_recommendations/services.py:406-416 | the weekly ranks stay valid through the monthly pass |
| Trends.ThreePassesMonthly | ai_recommendations/services.py:412-416 | the monthly ranks are valid after the last pass |
| Trends.RankedKeepsProducts | ai_recommendations/models.py:345 | a rank pass keeps each row's product in place, so one row per product remains |
| Trends.RankedKeepsOtherWindow | ai_recommendations/services.py:404-416 | saving only one rank column keeps the other windows' valid ranks valid |
| Trends.RankedKeepsPermutation | ai_recommendations/services.py:404-416 | a pass for another window keeps a window's permutation of ranks |
| Trends.RankedKeepsFollows | ai_recommendations/services.py:404-416 | a pass for another window keeps a window's ranks following its scores |
| Trends.RowIndex | ai_recommendations/services.py:374-375 | the position of the product's row, with no earlier row for it, or the length when none exists |
| Trends.Upsert | ai_recommendations/services.py:374-393 | the product's row carries the new scores and keeps its ranks, a missing row is appended without ranks, no other row changes and one row per product is kept |
| Trends.ActiveProducts | ai_recommendations/services.py:328 | exactly the active catalogue products |
| Trends.TrendTable.constructor | ai_recommendations/models.py:343-345 | an empty table with one row per product |
| Trends.TrendTable.AssignRanks | ai_recommendations/services.py:401-404 | the table becomes `Ranked` of the old one for the window, one row per product kept |
| Trends.TrendTable.UpdateTrendingProducts | ai_recommendations/services.py:319-396 | the table becomes the three rank passes over the scored table, and all three windows' ranks are valid |
| Trends.TrendTable.ScoreProducts | ai_recommendations/services.py:330-393 | the scoring loop leaves the table equal to `Scored` of the old one, one row per product kept |
| Trends.ScoredCoversProducts | ai_recommendations/services.py:330-393 | after scoring every visited product has a row carrying exactly its measured scores |
| Trends.ScoredUnique | ai_recommendations/models.py:345 | scoring keeps one row per product |
| Recommendations.Matching | ai_recommendations/models.py:157-161 | the behaviours selected for a user and product are exactly the log's events by that user on that product's content, in log order |
| Recommendations.EarliestTime | ai_recommendations/models.py:203 | `earliest('created_at')`: a time some selected behaviour has, no later than any of them |
| Recommendations.LatestTime | ai_recommendations/models.py:204 | `latest('created_at')`: a time some selected behaviour has, no earlier than any of them |
| Recommendations.BucketSumSnoc | ai_recommendations/models.py:181-192 | one more behaviour adds its weight to its own bucket's sum and to no other |
| Recommendations.TimesSnoc | ai_recommendations/models.py:202-204 | a behaviour no earlier than the others keeps the earliest time and becomes the latest |
| Recommendations.AddToBucket | ai_recommendations/models.py:182-192 | one turn of the loop adds the kind's weight (1, 3, −1, 10, 2, 5) to exactly the bucket it feeds and touches no other column |
| Recommendations.SumBuckets | ai_recommendations/models.py:173-192 | from reset buckets, every bucket ends as the weight sum of the behaviours feeding it and no other column changes |
| Recommendations.UpdateScores | ai_recommendations/models.py:155-206 | the stored row is `Recomputed(row, log)`: total is the sum of the five buckets and the count the number of selected behaviours |
| Recommendations.RecomputedShape | ai_recommendations/models.py:195-204 | the recomputed row keeps its user and product, its total is the bucket sum, its count is the number of matches, timestamps are kept without matches and bound every matching behaviour's time otherwise |
| Recommendations.BucketSumIgnoresUnbucketed | ai_recommendations/models.py:182-192 | searches, category browses and unknown kinds add nothing to any bucket |
| Recommendations.ClickThroughRate | ai_recommendations/models.py:257-262 | 0 without impressions; otherwise rate × impressions = clicks × 100, and between 0 and 100 when clicks do not exceed impressions |
| Recommendations.ConversionRate | ai_recommendations/models.py:264-269 | 0 without clicks; otherwise rate × clicks = conversions × 100, and between 0 and 100 when conversions do not exceed clicks |
| Recommendations.Rate | ai_recommendations/models.py:260-262 | 0 for a zero whole; otherwise the exact percentage, within 0..100 for a part no larger than the whole |
| Recommendations.ItemIndex | ai_recommendations/models.py:283 | `recommendationitem_set.get(product=...)`: a position holding the product, or the length when no item has it |
| Recommendations.Recommendation.constructor | ai_recommendations/models.py:237-239 | counters start at 0 over items unique by product |
| Recommendations.Recommendation.RecordImpression | ai_recommendations/models.py:271-274 | impressions rise by one; nothing else changes |
| Recommendations.Recommendation.RecordClick | ai_recommendations/models.py:276-287 | clicks rise by one; with a product that has an item, exactly that item's clicks rise by one; every other item and counter is unchanged |
| Recommendations.Recommendation.RecordConversion | ai_recommendations/models.py:289-300 | conversions rise by one; with a product that has an item, exactly that item's conversions rise by one; everything else is unchanged |
| Recommendations.CountAfter | ai_recommendations/models.py:103 | the count of behaviours strictly after the training time never exceeds the log's length |
| Recommendations.CountAfterAntitone | ai_recommendations/models.py:102-104 | a later training time never counts more new behaviours |
| Recommendations.NeedsRetrainingMonotone | ai_recommendations/models.py:96-106 | an untrained model, or a trained one without a training time, needs retraining; a model that needs it still does after more behaviours are logged |
| Recommendations.InsertUnique | ai_recommendations/models.py:116-315 | inserting under a `unique_together` key fails exactly when the key exists; otherwise the row is appended and keys stay unique |
| Recommendations.InsertFeedback | ai_recommendations/models.py:333-338 | feedback is refused exactly when a row with the same user, recommendation and non-null product exists; rows without a product never clash; uniqueness is kept |
| SessionCarts.LineKey | core/cart.py:30-33 | the key starts with the product id and is exactly the product id when no (truthy) variant id is given |
| SessionCarts.SplitLineKey | core/cart.py:30-33 | for an underscore-free product id, splitting the key at its first `_` and dropping `v` gives back the product id and the truthy variant id |
| SessionCarts.LineKeyInjective | core/cart.py:30-33 | two (product, variant) pairs with underscore-free product ids share a key only when the products agree and the truthy variants agree |
| SessionCarts.Find | core/cart.py:46 | `key in self.cart`: a found position holds the key; no position holds it otherwise |
| SessionCarts.QuantityOf | core/cart.py:144-152 | with unique keys, the quantity stored under the key, and 0 when no entry has it |
| SessionCarts.SumsAppend | core/cart.py:85-95 | the item count and the price total of a concatenation are the sums of the parts' |
| SessionCarts.SumsUpdate | core/cart.py:85-95 | replacing one line changes the item count and the price total by exactly that line's difference |
| SessionCarts.SumsDelete | core/cart.py:76-77 | deleting one line removes its quantity from the item count and its price times quantity from the total |
| SessionCarts.AddedProperties | core/cart.py:46-62 | after `add` keys stay unique, the quantity under the key is set (override) or increased by q from 0 for a new key, the key's price is the new price, and every other key keeps its quantity |
| SessionCarts.AddedSum | core/cart.py:46-62 | after `add` the item count changes by the new quantity under the key minus the old one |
| SessionCarts.AppendedKeys | core/cart.py:46-54 | appending an entry under a new key keeps keys unique, stores its quantity and leaves the other keys' quantities |
| SessionCarts.UpdatedKeys | core/cart.py:56-62 | rewriting the entry under its own key keeps keys unique and changes no other key's quantity |
| SessionCarts.RemovedProperties | core/cart.py:70-78 | `remove` keeps keys unique, leaves quantity 0 under its key, keeps every other key's quantity, lowers the item count by the removed quantity and changes nothing for an absent key |
| SessionCarts.WithoutKeys | core/cart.py:76-77 | `del` on uniquely keyed entries keeps them unique and no remaining entry has the deleted key |
| SessionCarts.WithoutQuantity | core/cart.py:76-77 | `del` of one key leaves the quantity under every other key |
| SessionCarts.Without | core/cart.py:77 | the entries before the deleted one are kept in place and the ones after move up by one |
| SessionCarts.RemoveUndoesAdd | core/cart.py:19-78 | adding a product under a new key and then removing that key restores the cart |
| SessionCarts.FindActive | core/cart.py:24-26 | the active product with the (canonical) id, or none when every product with that id is inactive |
| SessionCarts.Resolve | core/cart.py:21-28 | a product row is used with its own id; an id string that is not a UUID is a `ValidationError`; otherwise it resolves to an active product whose UUID it spells (in any accepted spelling), keyed by the string as given, or to nothing (`DoesNotExist`) when every product with that UUID is inactive |
| SessionCarts.VariantOf | core/cart.py:39-41 | a variant with the canonical id that belongs to the product, or none when no such variant exists |
| SessionCarts.FindVariant | core/cart.py:37-41 | a variant id that is not a UUID is a `ValidationError`; otherwise the product's variant whose UUID the id spells, or none (`DoesNotExist`) when the product has no such variant |
| SessionCarts.LinePrice | core/cart.py:35-44 | without a truthy variant id the product's price; with one, an error exactly when it is not a UUID, else the effective price of the product's variant with that UUID, or the product's price when the product has no such variant |
| SessionCarts.VariantNamed | core/cart.py:109-112 | the variant whose canonical id is the given string, or none when no variant has it |
| SessionCarts.ItemViews | core/cart.py:97-132 | the views are of exactly the lines whose stored product id is some product's id, in cart order; each carries that product, the variant named by a truthy variant id (none otherwise) and price times quantity |
| SessionCarts.ItemViewsCover | core/cart.py:114-132 | every line whose product exists gets a view, and every view is of one of the lines |
| SessionCarts.Cart.constructor | core/cart.py:9-17 | the stored dictionary, or an empty one written to the session (marking it modified) when none or an empty one is stored |
| SessionCarts.Cart.Add | core/cart.py:19-64 | a malformed product or variant id is an error and an id naming no active product a silent return, both with the cart unchanged; otherwise the lines become `Added(...)` for the key built from the given id, with the variant-aware price, and the session is marked modified |
| SessionCarts.Cart.Upsert | core/cart.py:46-62 | the lines become `Added(...)`; unique keys are kept |
| SessionCarts.Cart.Remove | core/cart.py:70-78 | the lines become `Removed(...)` for the derived key; only an actual deletion marks the session modified |
| SessionCarts.Cart.Clear | core/cart.py:80-83 | removes the cart from the session (an error when already gone) and leaves the object's own lines |
| SessionCarts.Cart.Data | core/cart.py:134-142 | the items are the lines whose product exists, in order; emptiness counts entries, and the totals are the item count and the price total over all lines |
| SessionCarts.EmptinessCountsEntries | core/cart.py:141 | a cart with one entry of quantity 0 has no items but is not empty |
| Uuids.Parse | core/models.py:11 | a UUID lookup value names a canonical id (32 lower-case hex digits grouped 8-4-4-4-12), and does so exactly when 32 hex digits remain after removing `urn:`, `uuid:`, surrounding braces and dashes; anything else is the lookup's `ValidationError` |
| Uuids.FormatIsCanonical | core/models.py:11 | any 32 hex digits print as a canonical id |
| Uuids.FormatDigits | core/models.py:11 | the digits of a canonical id are 32 hex digits that print back as that id |
| Uuids.ParseCanonical | core/models.py:11 | a stored id, read back as a lookup value, names itself |
| Uuids.ParseBraced | core/models.py:11 | a canonical id in braces names the same id |
| Uuids.ParseUpperCase | core/models.py:11 | the upper-case spelling of a canonical id names the same id |
| Uuids.ParseRejects | core/cart.py:24 | `"abc"` and the empty string are not UUIDs |
| CoreModels.TotalsAppend | core/models.py:29-35 | `total_items` and `total_price` of a concatenation of items are the sums of the parts' |
| CoreModels.TotalsBounds | core/models.py:29-35 | the item count is 0 exactly when every quantity is 0; with non-negative prices the price total is non-negative |
| CoreModels.Cart.constructor | core/models.py:40-49 | a cart over items with at most one item per product |
| CoreModels.Cart.Clear | core/models.py:37-38 | no items remain and both totals are 0 |
| CoreModels.DefaultSettings | core/models.py:58-70 | the row `objects.create()` inserts is active and has the given id |
| CoreModels.FirstActive | core/models.py:82 | the position of the first active row, with no active row before it, or none when no row is active |
| CoreModels.GetSettingsProperties | core/models.py:79-82 | the settings returned are active; an existing active row is returned with the table unchanged; otherwise exactly one default row is appended; a second call returns the same settings and adds nothing |
| CoreModels.FirstActiveAfterInactive | core/models.py:82 | after only inactive rows, an appended active row is the first active one |
| Orders.OrderNumber | orders/models.py:81 | `f"TS-{n:06d}"` starts with "TS-" and has at least six digits after it |
| Orders.NextOrderNumber | orders/models.py:73-81 | with no last order, or a last order without a number, the new number is TS-001000 |
| Orders.NumberOfOrderNumber | orders/models.py:77-81 | reading the suffix after the last '-' of a generated number gives back the number it was made from |
| Orders.OrderNumbersCountUp | orders/models.py:72-81 | after an order numbered n the next one is numbered n + 1, and distinct numbers make distinct order numbers |
| Orders.UnreadableNumberFails | orders/models.py:77 | a last order number whose suffix is not all digits makes `int()` raise `ValueError` |
| Orders.SaveItem | orders/models.py:129-133 | the saved item's total is quantity times unit price, its name and sku are the product's, and no other field changes |
| Orders.SavedItemsTotal | orders/models.py:94-132 | when every item was saved, the subtotal is the sum of quantity times unit price |
| Orders.Order.constructor | orders/models.py:30-86 | a new order is pending, so it can still be cancelled; it is unnumbered and has no shipping data; 0.0 stands in for the subtotal and total the source leaves unset until `calculate_total` |
| Orders.Order.Save | orders/models.py:72-82 | an order with a number keeps it; one without gets `NextOrderNumber`; every amount, the tracking number and both timestamps stay; an unreadable last number aborts the save with the order unchanged |
| Orders.Order.CalculateTotal | orders/models.py:92-96 | subtotal is the sum of the items' totals and total is subtotal + tax + shipping − discount, which is returned; items, the other amounts, status, number and shipping data unchanged |
| Orders.Order.MarkAsShipped | orders/models.py:84-104 | status shipped, so no longer cancellable; shipped at now; the tracking number is replaced only by a non-empty one; all four amounts stay |
| Orders.Order.MarkAsDelivered | orders/models.py:84-110 | status delivered, so no longer cancellable; delivered at now; shipping data and all four amounts untouched |
| Orders.PriceForOrder | orders/models.py:151-155 | shipping is free exactly when a non-zero threshold is set and reached, else the method's price |
| Orders.ShippingMonotone | orders/models.py:151-155 | a larger order total never pays more shipping |
| Orders.DiscountProperties | orders/models.py:205-217 | a non-zero discount needs a valid coupon whose set minimum is met; a fixed discount is min(value, total); free shipping gives 0; with a non-negative total and a value in range the discount lies between 0 and the total |
| Orders.CanBeUsedByProperties | orders/models.py:195-203 | an invalid coupon is usable by nobody; a valid one by any anonymous visitor and by a signed-in user exactly when their uses are below the per-user limit |
| Orders.Refund.constructor | orders/models.py:263-270 | a new refund is requested and unprocessed |
| Orders.Refund.Approve | orders/models.py:275-280 | status approved with who processed it and when; notes untouched |
| Orders.Refund.Reject | orders/models.py:282-289 | status rejected with who and when; the notes replaced only by non-empty notes |
| Subscriptions.DiscountedPriceProperties | subscriptions/models.py:44-50 | a positive percentage scales the base price by (100 − pct)/100; any other percentage leaves the base price |
| Subscriptions.DiscountedPriceBounds | subscriptions/models.py:44-50 | a percentage up to 100 on a non-negative base price gives a price between 0 and the base price |
| Subscriptions.NextBillingFrom | subscriptions/models.py:57-66 | the next billing date is a real calendar date |
| Subscriptions.NextBillingDate | subscriptions/models.py:52-55 | a missing start date means today, and the result is a real calendar date |
| Subscriptions.NextBillingProperties | subscriptions/models.py:52-66 | the next billing date never precedes the start, is strictly later for a known interval and a positive count, equals the start for an unknown interval, and yearly and quarterly plans bill as 12- and 3-monthly ones |
| Subscriptions.Subscription.constructor | subscriptions/models.py:68-113 | a new subscription is pending, with its plan, price and period (in either order of its two dates), and no pause or cancellation data |
| Subscriptions.Subscription.Pause | subscriptions/models.py:131-137 | from any status: paused at now with the reason and optional resume date; period, billing, plan, price and cancellation data unchanged |
| Subscriptions.Subscription.Resume | subscriptions/models.py:139-148 | a subscription that is not paused is unchanged; a paused one becomes active with pause fields cleared and the next billing date recomputed from today |
| Subscriptions.Subscription.Cancel | subscriptions/models.py:150-158 | the reason is always stored; immediately: cancelled at now; otherwise only the end-of-period flag is set and the status is kept |
| Subscriptions.Subscription.RenewPeriod | subscriptions/models.py:160-165 | the new period starts where the old one ended and ends at the plan's next billing date from there, which becomes the next billing date and is never before the new start; status, plan, price, pause reason, auto-resume date and cancellation reason unchanged |
| Subscriptions.StatusChangeLog | subscriptions/models.py:428-445 | a log entry exactly when a stored row exists with a different status, recording old and new status and "Status changed from X to Y" with display names |
| Subscriptions.ItemTotal | subscriptions/models.py:187-189 | zero quantity gives 0; with a non-negative unit price, one or more items cost at least one unit price |
| Subscriptions.StoredItems | subscriptions/models.py:257-267 | the items stored before the loop stops: one per snapshot line in order while the line's product exists, each with the line's product, variant, quantity and unit price, the product's current name and sku, and total quantity × unit price; all lines are stored exactly when every product exists, and otherwise the first missing product is where it stops |
| Subscriptions.Delivery.constructor | subscriptions/models.py:202-224 | a new delivery is scheduled, with no skip reason and no order |
| Subscriptions.Delivery.Skip | subscriptions/models.py:232-236 | from any status: skipped with the reason; the order, lines and prices unchanged |
| Subscriptions.Delivery.CreateOrder | subscriptions/models.py:238-273 | a linked order is returned with nothing modified; an unreadable last order number aborts with nothing written; otherwise a numbered processing order for the given user and email, with the delivery's totals, address, note and stored items, is written; when every product exists it is linked and the delivery becomes processing, otherwise the call fails with the order written and the delivery unchanged |
| Subscriptions.InitialDelivery | subscriptions/models.py:415-426 | a delivery exactly for a newly created active subscription, on its next billing date, empty, priced at the subscription's price |
| Subscriptions.Discount.constructor | subscriptions/models.py:301-313 | a new discount has used no cycles and is active |
| Subscriptions.Discount.Apply | subscriptions/models.py:340-350 | 0 when invalid; a percentage gives amount × value / 100; a fixed amount gives the smaller of value and amount; other kinds give 0 |
| Subscriptions.Discount.UseCycle | subscriptions/models.py:352-360 | one more cycle used; the discount stays active exactly when it was and no set limit is reached, and once the limit is reached it is invalid on every day |
| Calendar.DaysInMonth | subscriptions/models.py:60 | months have 28 to 31 days, and 29 exactly for February of a leap year |
| Calendar.MonthIndexOrder | subscriptions/models.py:60 | a date in a later month is strictly later |
| Calendar.NextDay | subscriptions/models.py:58 | the following day is a valid date strictly after the given one |
| Calendar.AddDays | subscriptions/models.py:58 | adding days gives a valid date |
| Calendar.AddDaysTwice | subscriptions/models.py:58 | adding days in two steps is adding their sum |
| Calendar.AddDaysLater | subscriptions/models.py:58 | adding days never moves backwards, and a positive number moves strictly forward |
| Calendar.NotAfterTransitive | subscriptions/models.py:52-66 | calendar order is transitive, strictly so when the first step is strict |
| Calendar.AddWeeks | subscriptions/models.py:58 | `relativedelta(weeks=n)` gives a valid date |
| Calendar.AddMonths | subscriptions/models.py:60-62 | the month moves by exactly n, the day is kept when the target month has it and otherwise becomes that month's last day |
| Calendar.AddYears | subscriptions/models.py:64 | the year moves by n, the month is kept, and the day too except 29 February in a non-leap target year, which becomes the 28th |
| Calendar.YearsAreMonths | subscriptions/models.py:60-64 | adding n years is adding 12·n months, clamping included |
| Calendar.AddMonthsLater | subscriptions/models.py:60-62 | adding months never moves backwards, and a positive number moves strictly forward |
| Products.InStockIsAlias | products/models.py:114-123 | `in_stock` equals `is_in_stock`, which holds for unmanaged stock and otherwise exactly when the quantity is positive |
| Products.LowStockAndInStock | products/models.py:125-129 | unmanaged stock is never low; low stock implies managed stock; a managed, out-of-stock product with a non-negative threshold is low |
| Products.UniqueIdsOfSubset | core/models.py:11 | a selection of rows of a table with unique primary keys has unique ids |
| Products.UniqueIdsAppend | core/models.py:11 | two id-unique lists whose ids do not overlap concatenate to an id-unique list |
| Products.FindProduct | ai_recommendations/services.py:279 | `objects.get(id=...)`: a found product is in the table with that id; none means no product has it |
| Products.FindProductFinds | core/models.py:11 | with unique ids, looking up a product's id finds that product |
| Products.DiscountPercentage | products/models.py:131-135 | 0 unless a (truthy) compare-at price exceeds the price; then within half a point of the exact percentage saved, and between 0 and 100 for a non-negative price |
| Products.SaveProduct | products/models.py:104-109 | an empty slug becomes the name's slug, an empty short description the description's first 500 characters; filled fields and all other fields are kept |
| Products.SaveProductIdempotent | products/models.py:104-109 | saving twice stores the same row as saving once |
| Products.EffectivePrice | products/models.py:187-189 | the variant's own price when it is set and non-zero, else the product's price |
| Products.VariantStockIgnoresManageStock | products/models.py:191-193 | a variant with no stock is out of stock even when its product does not manage stock and is therefore in stock |
| Products.ClearOtherPrimaries | products/models.py:167-169 | same keys; no other image of the product stays primary; each row is kept or only loses its primary flag |
| Products.WithDefaultAlt | products/models.py:170-171 | an empty alt text becomes "<product name> image"; a given one is kept |
| Products.ImagesSavedRows | products/models.py:166-172 | saving stores the row (with its default alt text) under its id, keeps all other keys, and every other row is kept or, for a primary save, only loses its primary flag |
| Products.ImagesSavedOnlyPrimary | products/models.py:166-169 | after saving a primary image no other image of that product is primary |
| Products.ImagesSavedKeepsInvariants | products/models.py:166-172 | saving keeps every row under its own key and at most one primary image per product |
| Products.ImageTable.constructor | products/models.py:152-158 | an empty image table satisfies the invariants |
| Products.ImageTable.Save | products/models.py:166-172 | the table becomes `ImagesSaved` of the old one and the invariants are kept |
| Users.FullNameProperties | users/models.py:47-48 | the username is used exactly when first and last name are both blank; otherwise the full name is non-empty with no surrounding whitespace |
| Users.FullNameWords | users/models.py:47-48 | single-word first and last names come back from the full name as exactly those two words |
| Users.FullAddressAllParts | users/models.py:114-123 | an address with no empty part prints all six parts, in order, joined with ", " |
| Users.FullAddressBlank | users/models.py:114-123 | an address whose parts are all empty prints as the empty string |
| Users.FullAddressNoLine2 | users/models.py:114-123 | an empty second line contributes nothing, not even a separator |
| Users.ClearOtherDefaults | users/models.py:127-132 | clearing the other defaults keeps every row of the table |
| Users.SavedKeys | users/models.py:125-133 | saving an address stores it under its key and keeps every other key |
| Users.SavedOnlyDefault | users/models.py:125-133 | a saved default address is the only default of its user and address type |
| Users.SavedOthers | users/models.py:127-133 | rows of other users or types are untouched, and rows of the same owner lose at most their default flag |
| Users.SavedKeepsInvariants | users/models.py:125-133 | saving keeps every row under its own key and at most one default per user and address type |
| Users.AddressBook.constructor | users/models.py:80-106 | an empty address table satisfies both table invariants |
| Users.AddressBook.Save | users/models.py:125-133 | the new table is the saved table, the invariants are kept, and a saved default is the only one of its user and type |
| Users.SaveAsWritten | users/models.py:106-133 | when saving succeeds against the `unique_together` constraint the table is the intended saved table |
| Users.Home | users/models.py:87-102 | the example address is a default one under key "a1" |
| Users.Work | users/models.py:87-102 | the second example address belongs to the same user and type under key "a2" |
| Users.TwoAddresses | users/models.py:106 | the example table is keyed by id with one default per user and type |
| Users.SaveAsWrittenRejectsNonDefault | users/models.py:106-133 | a second non-default address of the same user and type is refused with `IntegrityError` |
| Users.SaveAsWrittenRejectsPromotion | users/models.py:106-133 | promoting a second address to default is refused, although the intended result keeps one default per user and type |
| Users.Message.constructor | users/models.py:195-228 | a new message is unread with no read time |
| Users.Message.MarkAsRead | users/models.py:230-247 | only an unread message becomes read at `now`, and a `message_read` activity is logged exactly when it also has a recipient |
| Users.Message.Archive | users/models.py:249-252 | a message becomes archived from any status and keeps its read time |
| Users.Notification.constructor | users/models.py:276-300 | a new notification is unread with no read time |
| Users.Notification.MarkAsRead | users/models.py:302-307 | the notification ends read; the first call records `now` and later calls keep the recorded time |
| Blog.BlogPost.constructor | blog/models.py:104-118 | a new post has an empty slug, no publication time and empty SEO fields |
| Blog.BlogPost.Save | blog/models.py:104-118 | empty slug and SEO fields are filled from the title (first 60 characters) and the excerpt (first 160); a published post without a time gets `now` and is then published; a saved post is settled, so saving again changes nothing |
| Blog.ReadingMinutesProperties | blog/models.py:127-131 | reading time is at least a minute, within half a minute of words / 200 from 100 words on, with ties rounded to even (500 words give 2, 300 give 2, 100 give 1) |
| Blog.ReadingTimeOfText | blog/models.py:127-131 | any text reads in at least a minute, and text with no words in exactly one |
| Blog.BlogComment.constructor | blog/models.py:147-158 | a new comment is pending with the given author, name and email |
| Blog.BlogComment.Save | blog/models.py:171-177 | with a signed-in author, an empty name becomes the author's full name and an empty email the author's email; otherwise both are kept |
| Blog.BlogComment.Approve | blog/models.py:171-186 | the comment becomes approved from any status and is saved: with a signed-in author an empty name becomes the author's full name and an empty email the author's email, otherwise both are kept |
| Blog.BlogComment.Reject | blog/models.py:171-191 | the comment becomes rejected from any status and is saved: with a signed-in author an empty name becomes the author's full name and an empty email the author's email, otherwise both are kept |
| Blog.Recipe.constructor | blog/models.py:232-238 | a new recipe has an empty slug and the given times |
| Blog.Recipe.Save | blog/models.py:270-278 | an empty slug comes from the title; a missing or zero total time becomes preparation plus cooking time when preparation is not zero, and is then at least each part; otherwise the total is kept |
| Dashboard.WidgetTable.constructor | dashboard/models.py:5-32 | an empty widget table satisfies its invariants |
| Dashboard.WidgetTable.Save | dashboard/models.py:32 | saving fails with `IntegrityError`, leaving the table unchanged, exactly when another row has the same user and widget type; otherwise the row is stored under its key, and one widget per user and type remains |
| Dashboard.WriteCompletion | dashboard/models.py:68-74 | only the completion columns are written; every other column of the stored row is kept |
| Dashboard.AdminNote.constructor | dashboard/models.py:38-56 | the note in memory and in storage are the given note |
| Dashboard.AdminNote.MarkCompleted | dashboard/models.py:64-68 | the note is completed at `now` and only the two completion columns are persisted |
| Dashboard.AdminNote.MarkIncomplete | dashboard/models.py:70-74 | the note is incomplete with no completion time, only those columns are persisted, and a note never completed is left unchanged |
| Dashboard.AuditText | dashboard/models.py:103-104 | the text starts with the user's email, or "Unknown - " when the user is gone, and ends with the model name |
| Text.StripLeft | users/models.py:48 | the result is a suffix of the input that does not start with whitespace |
| Text.StripLeftRemovesSpace | users/models.py:48 | what left stripping removes is all whitespace |
| Text.StripRight | users/models.py:48 | the result is a prefix of the input that does not end with whitespace |
| Text.StripRightRemovesSpace | users/models.py:48 | what right stripping removes is all whitespace |
| Text.StripProperties | users/models.py:48 | `strip()` gives the empty string exactly for all-whitespace input, otherwise a string with no whitespace at either end, and is idempotent |
| Text.Words | blog/models.py:130 | `split()` yields non-empty words without whitespace |
| Text.WordsOfJoin | blog/models.py:130 | splitting words joined with single spaces gives back those words |
| Text.WordsEmpty | blog/models.py:127-131 | `split()` finds no words exactly in all-whitespace text |
| Text.NonEmpty | users/models.py:123 | the kept parts are non-empty and no more than the given parts |
| Text.JoinSkipsEmpty | users/models.py:123 | an empty part changes nothing in the joined result |
| Text.NonEmptyOfBlanks | users/models.py:123 | only empty parts leave nothing |
| Text.NonEmptyKeepsAll | users/models.py:123 | no empty part keeps every part |
| Text.Truncate | blog/models.py:114-116 | slicing `[:n]` gives the prefix of length min(n, length) |
| Text.NatToString | orders/models.py:81 | a number prints as a non-empty string of digits |
| Text.DigitsOfNat | orders/models.py:77-81 | reading the printed digits gives back the number |
| Text.Zeros | orders/models.py:81 | k padding characters, all '0' |
| Text.LeadingZeros | orders/models.py:77-81 | leading zeros do not change the value of a digit string |
| Text.ZeroPad | orders/models.py:81 | `:06d` gives at least the width in digits whose value is the number |
| Text.ParseNatDigits | orders/models.py:77 | `int()` of a non-empty string of ASCII digits is its decimal value, both by the direct reading and by the general one |
| Text.ParseNatIsGrouped | orders/models.py:77 | reading plain digits directly gives what the general reading (strip, one `+`, underscore-grouped digits) gives |
| Text.ParseNatIgnoresSpace | orders/models.py:77 | whitespace around a number does not change what `int()` reads |
| Text.ParseNatPlus | orders/models.py:77 | one leading `+` does not change what `int()` reads |
| Text.ParseNatUnderscore | orders/models.py:77 | `int("1_0")` is 10 |
| Text.ParseNatDoubleUnderscore | orders/models.py:77 | `int("1__0")` is refused |
| Text.LastSegmentIsSuffix | orders/models.py:77 | the last segment is a suffix of the string, preceded by the separator unless it is the whole string |
| Text.LastSegment | orders/models.py:77 | `split('-')[-1]` is no longer than the string and holds no separator |
| Text.LastSegmentAfter | orders/models.py:77 | the last segment of a prefix, a separator and a separator-free tail is the tail |
| Numeric.RoundHalfEven | blog/models.py:131 | `round()` is within 0.5 of its argument, and an exact tie goes to the even integer |
| Numeric.PercentageBounds | subscriptions/models.py:47-49 | a percentage between 0 and 100 of a non-negative amount lies between 0 and the amount |
| Ordering.KeyDescIsTotalPreorder | ai_recommendations/services.py:96 | ordering by a descending key is a total preorder |
| Ordering.SortBy | ai_recommendations/services.py:96 | `order_by` keeps the length |
| Ordering.SortByPermutes | ai_recommendations/services.py:96 | `order_by` is a permutation of the rows |
| Ordering.SortBySorted | ai_recommendations/services.py:96 | `order_by` yields rows in the requested order |
| Ordering.SortByDistinct | ai_recommendations/services.py:96 | `order_by` introduces no repeats |
| Ordering.Prefix | ai_recommendations/services.py:96 | slicing `[:n]` keeps the first min(n, length) rows in order |
| Ordering.Filter | ai_recommendations/services.py:187 | `filter` keeps only rows satisfying the condition |
| Ordering.FilterMembers | ai_recommendations/services.py:187 | `filter` keeps exactly the rows of the queryset that satisfy the condition |
| Ordering.FilterSubMultiset | ai_recommendations/services.py:187 | `filter` adds no rows |
| Ordering.FilterDistinct | ai_recommendations/services.py:187 | filtering introduces no repeats |
| Ordering.PrefixPrecedesRest | ai_recommendations/services.py:96 | in a sorted queryset every row of a slice comes no later than any row outside it |
| Ordering.Top | ai_recommendations/services.py:96 | `order_by(...)[:n]` has min(n, length) rows |
| Ordering.TopMembers | ai_recommendations/services.py:96 | the top rows are rows of the queryset |
| Ordering.TopOfFilter | ai_recommendations/services.py:110 | the top rows of a filtered queryset are rows of the queryset |
| Ordering.TopSorted | ai_recommendations/services.py:96 | the top rows come in the requested order |
| Ordering.TopPrecedesRest | ai_recommendations/services.py:96 | every row kept by the slice comes no later than any row it drops |
| Ordering.IndexOf | ai_recommendations/services.py:402 | the position found holds the row, no earlier position does, and it lies within the sequence exactly when the row is present |
| Ordering.IndexOfDistinct | ai_recommendations/services.py:402 | in a sequence without repeats each row is found at its own position |
| Ordering.Range | ai_recommendations/services.py:401-402 | the positions 0 to n-1 in order, without repeats |

## Left out

- Database and ORM behaviour is not modelled: queries, transactions, signals, migrations and concurrent writers. Querysets are sequences, and a signal handler is an explicit call.
- When the database leaves the order of ties open, the model keeps input order (`Ordering.SortBy` is stable). A missing average rating sorts last, as SQLite, the configured database (setup.py:59), orders NULLs in a descending sort.
- Floating point is not modelled. Scores, weights and prices are exact `real` numbers, `Decimal` and `float` alike. `round()` is banker's rounding on the exact value (`Numeric.RoundHalfEven`).
- `slugify(title)` is a parameter, because Django's Unicode slug rules are not part of this model. The clock (`timezone.now()`, `date.today()`) is a parameter too.
- Text.ParseNat: accepts only ASCII digits. Python's `int()` also accepts other Unicode decimal digits. Surrounding whitespace (Python's full whitespace set, `Text.IsSpace`), one leading `+` and single underscores between digits are modelled. A leading `-` is not, because the order-number suffix it reads never holds one.
- Session persistence, the request object and templates are not modelled. The session cart is the dictionary itself, with flags for "stored in the session" and `session.modified`.
- SessionCarts.ItemViews: returns new views and leaves the cart's lines alone. `Cart.__iter__` works on `self.cart.copy()`, a shallow copy, so it writes `product`, `variant`, `total_price` and the two URLs into the session's own line dictionaries (core/cart.py:114-131). Those extra keys, and the image URL `add` stores (core/cart.py:53), are not modelled.
- Uuids.Parse: models `uuid.UUID(hex=...)` for spellings made of hex digits, dashes, braces and the `urn:`/`uuid:` prefixes. The final `int(hex, 16)` step also accepts surrounding whitespace, a `+` sign, a `0x` prefix and underscores inside the 32 characters; the model refuses those spellings.
- `get_homepage_recommendations`, `get_product_recommendations`, `get_cart_recommendations` and `get_category_recommendations` (ai_recommendations/services.py:19-89) are not modelled. They read the request, call one modelled selector or the tracking call, and wrap the result in a dictionary with a title.
- `Subscription.days_until_next_billing`, `Subscription.is_active`, `SubscriptionPause.end_pause` and `SubscriptionNotification.mark_as_read` are not modelled. They lie outside the subscription rules covered here.
- `Address.get_full_name`, `Message.thread`, `User.update_last_active` and `User.get_admin_permissions` are not modelled. They are one-line formatting or database reads.
- `Order.mark_as_shipped` and `mark_as_delivered` end with `save()`. The model does not re-run order numbering there, because the order already has its number by then.
- Subscriptions.Delivery.CreateOrder: the order row and the items stored before a missing product are returned in `written`; the model does not roll them back, as the source has no transaction around the call.
- The stray module ai_recommendation/models.py is byte-identical to ai_recommendations/models.py. One module, `Recommendations`, models both, and its rows cite the first file.
- Service.IncrementalMatchesRecompute: assumes a chronological log. The incremental update stamps `last_interaction` with the latest event, while `update_scores` takes the maximum `created_at`. The two agree only when events arrive in time order. The model also uses one clock value for the event's `created_at` (ai_recommendations/services.py:249) and for the later `timezone.now()` reads of the incremental path (ai_recommendations/services.py:283-284, 290). In the source those reads come slightly later, so its timestamps run a little ahead of the recompute's. Buckets, total and count are unaffected.
- Service.UpdateInteraction: looks the product up by exact id string through `Products.FindProduct`, not through `Uuids.Parse`. In the source a malformed `object_id` would raise `ValidationError`, which the `except Product.DoesNotExist` at ai_recommendations/services.py:316 does not catch. The callers in that file pass `str(product.id)` and `str(category.id)` (lines 43 and 80), which are always canonical UUIDs, so no reachable behaviour differs.
- Selectors.Popular: ranks by each product's own order-item count (`Products.Product.orderItemCount`). As written, `order_count=Count('orderitem')` is annotated beside `Avg('reviews__rating')` and `Count('reviews')` (ai_recommendations/services.py:233-237). The joins multiply each count by the other: a product with 3 order items and 2 reviews counts 6 order items, and ranks above one with 5 order items and no reviews. The frequently-bought-together count (ai_recommendations/services.py:190) has no second join and is modelled by the same field.
- Selectors.Popular: the annotation `review_count=` has the name of the read-only property `Product.review_count` (products/models.py:144-146). Assigning the annotation to each fetched product would raise `AttributeError` whenever the result is non-empty. The model does not include this failure; the query already fails earlier, as the Findings show.
- Selectors properties assume catalogue ids are unique (`Products.UniqueIds`), as a primary key guarantees.

## Findings

| source | as written | input that shows it | evidently intended | confidence | as-written member | corrected member |
|---|---|---|---|---|---|---|
| ai_recommendations/services.py:227 | the popularity selector filters products with `is_in_stock=True`, but `is_in_stock` is a Python property, not a column, so Django raises `FieldError` | any call to `_get_popular_products`, for example with an empty catalogue and limit 8 | keep only products that are in stock as `Product.is_in_stock` defines it (products/models.py:114-118) | not executed | Selectors.PopularAsWritten | Selectors.PopularProperties |
| ai_recommendations/services.py:165 | the category fill of `_get_similar_products` filters with `is_in_stock=True` and raises `FieldError`; the fill runs whenever the similarity rows give fewer than `limit` products | a product with no similarity rows and limit 6 | fill from the sellable products of the category | not executed | Selectors.SimilarAsWritten | Selectors.SimilarProperties |
| ai_recommendations/services.py:187 | `_get_frequently_bought_together` filters with `is_in_stock=True` and always raises `FieldError` | any cart, even an empty one | the top sellable products sharing a category with the cart | not executed | Selectors.FrequentlyBoughtTogetherAsWritten | Selectors.FrequentlyBoughtTogetherProperties |
| ai_recommendations/services.py:202 | `_get_trending_in_category` filters with `is_in_stock=True` and always raises `FieldError` | any category, with limit 4 | the sellable products of the category with the highest daily trend score | not executed | Selectors.TrendingInCategoryAsWritten | Selectors.TrendingInCategoryProperties |
| users/models.py:106 | `unique_together = ('user', 'address_type', 'is_default')` allows only one non-default address per user and type, and `save` (lines 125-133) clears the old default to `False` before writing the new one | saving a second non-default billing address of one user; or promoting the second of two billing addresses to default | at most one default address per user and type, with any number of non-default ones | not executed | Users.SaveAsWrittenRejectsPromotion | Users.SavedKeepsInvariants |
