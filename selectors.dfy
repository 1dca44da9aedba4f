/**
 * The product selectors of `RecommendationService`
 * (ai_recommendations/services.py): personalised, similar-to-product,
 * frequently-bought-together, trending-in-category and the popularity list
 * they fall back on. Querysets are sequences in catalogue order; where the
 * database leaves the order of ties open, the model keeps input order.
 *
 * Each selector is a function; what it guarantees is stated by the lemma
 * beside it, so that callers reason about the value and not its proof.
 */
module Selectors {
  import opened Wrappers
  import opened Products
  import opened Recommendations
  import Ordering

  /** Active and in stock: what every selector demands of a product it returns. */
  predicate Sellable(p: Product) {
    p.isActive && IsInStock(p)
  }

  // ---------------------------------------------------------------------
  // Popularity

  /** A rating may sort ahead of another when the other is missing or not larger. */
  predicate RatingAtLeast(a: Option<real>, b: Option<real>) {
    b.None? || (a.Some? && a.value >= b.value)
  }

  /**
   * `order_by('-is_featured', '-order_count', '-avg_rating', '-view_count')`:
   * `a` may come before `b`.
   */
  predicate MorePopular(a: Product, b: Product) {
    if a.isFeatured != b.isFeatured then a.isFeatured
    else if a.orderItemCount != b.orderItemCount then a.orderItemCount > b.orderItemCount
    else if a.averageRating != b.averageRating then RatingAtLeast(a.averageRating, b.averageRating)
    else a.viewCount >= b.viewCount
  }

  function ByPopularity(): (Product, Product) -> bool {
    (a: Product, b: Product) => MorePopular(a, b)
  }

  lemma PopularityIsTotalPreorder()
    ensures Ordering.TotalPreorder(ByPopularity())
  {
  }

  /** A row of the `_get_popular_products` queryset: sellable and not excluded. */
  predicate PopularEligible(p: Product, exclude: seq<ProductId>) {
    Sellable(p) && p.id !in exclude
  }

  function PopularPool(catalog: seq<Product>, exclude: seq<ProductId>): seq<Product> {
    Ordering.Filter(catalog, (p: Product) => PopularEligible(p, exclude))
  }

  /** `_get_popular_products(limit, exclude_ids)`. */
  function Popular(catalog: seq<Product>, limit: nat, exclude: seq<ProductId>): seq<Product> {
    Ordering.Top(PopularPool(catalog, exclude), ByPopularity(), limit)
  }

  /**
   * The popularity list holds `limit` products, or every eligible one when
   * there are fewer; each is a sellable catalogue product outside `exclude`.
   */
  lemma PopularProperties(catalog: seq<Product>, limit: nat, exclude: seq<ProductId>)
    ensures var r := Popular(catalog, limit, exclude);
      var eligible := PopularPool(catalog, exclude);
      && |r| == (if limit <= |eligible| then limit else |eligible|)
      && (forall i :: 0 <= i < |r| ==> r[i] in catalog && Sellable(r[i]) && r[i].id !in exclude)
  {
    var keep := (p: Product) => PopularEligible(p, exclude);
    Ordering.FilterMembers(catalog, keep);
    Ordering.TopMembers(PopularPool(catalog, exclude), ByPopularity(), limit);
  }

  /** No id occurs twice in the popularity list when the catalogue's ids are unique. */
  lemma PopularUnique(catalog: seq<Product>, limit: nat, exclude: seq<ProductId>)
    requires UniqueIds(catalog)
    ensures UniqueIds(Popular(catalog, limit, exclude))
  {
    var keep := (p: Product) => PopularEligible(p, exclude);
    Ordering.TopOfFilter(catalog, keep, ByPopularity(), limit);
    UniqueIdsOfSubset(Popular(catalog, limit, exclude), catalog);
  }

  /** Every eligible product is in the pool the list is cut from. */
  lemma PopularPoolComplete(catalog: seq<Product>, exclude: seq<ProductId>, p: Product)
    requires p in catalog && PopularEligible(p, exclude)
    ensures p in PopularPool(catalog, exclude)
  {
    Ordering.FilterMembers(catalog, (p: Product) => PopularEligible(p, exclude));
  }

  /** The popularity list is ordered most popular first. */
  lemma PopularSorted(catalog: seq<Product>, limit: nat, exclude: seq<ProductId>)
    ensures Ordering.SortedBy(Popular(catalog, limit, exclude), ByPopularity())
  {
    PopularityIsTotalPreorder();
    Ordering.TopSorted(PopularPool(catalog, exclude), ByPopularity(), limit);
  }

  /** No eligible product left out of the list is more popular than one in it. */
  lemma PopularIsTop(catalog: seq<Product>, limit: nat, exclude: seq<ProductId>, x: Product, y: Product)
    requires x in Popular(catalog, limit, exclude)
    requires y in catalog && PopularEligible(y, exclude) && y !in Popular(catalog, limit, exclude)
    ensures MorePopular(x, y)
  {
    PopularPoolComplete(catalog, exclude, y);
    PopularityIsTotalPreorder();
    Ordering.TopPrecedesRest(PopularPool(catalog, exclude), ByPopularity(), limit, x, y);
  }

  // ---------------------------------------------------------------------
  // Similarity rows

  /** A `ProductSimilarity` row, with both products loaded. */
  datatype SimilarityRow = SimilarityRow(product1: Product, product2: Product, score: real, similarityType: string)

  /** `Q(product_1=p) | Q(product_2=p)`. */
  predicate Touches(r: SimilarityRow, pid: ProductId) {
    r.product1.id == pid || r.product2.id == pid
  }

  function ByScore(): (SimilarityRow, SimilarityRow) -> bool {
    Ordering.ByKeyDesc((r: SimilarityRow) => r.score)
  }

  /** `ProductSimilarity.objects.filter(Q(product_1=p) | Q(product_2=p))`. */
  function TouchingRows(rows: seq<SimilarityRow>, pid: ProductId): seq<SimilarityRow> {
    Ordering.Filter(rows, (r: SimilarityRow) => Touches(r, pid))
  }

  /** The rows touching `pid`, by descending similarity score, at most `n`. */
  function TopSimilar(rows: seq<SimilarityRow>, pid: ProductId, n: nat): seq<SimilarityRow> {
    Ordering.Top(TouchingRows(rows, pid), ByScore(), n)
  }

  /** `n` rows touching the product, or all of them when there are fewer. */
  lemma TopSimilarProperties(rows: seq<SimilarityRow>, pid: ProductId, n: nat)
    ensures var r, touching := TopSimilar(rows, pid, n), TouchingRows(rows, pid);
      && |r| == (if n <= |touching| then n else |touching|)
      && (forall i :: 0 <= i < |r| ==> r[i] in rows && Touches(r[i], pid))
  {
    Ordering.FilterMembers(rows, (r: SimilarityRow) => Touches(r, pid));
    Ordering.TopMembers(TouchingRows(rows, pid), ByScore(), n);
  }

  /** No row touching the product that is left out scores higher than a kept one. */
  lemma TopSimilarIsTop(rows: seq<SimilarityRow>, pid: ProductId, n: nat, x: SimilarityRow, y: SimilarityRow)
    requires x in TopSimilar(rows, pid, n)
    requires y in rows && Touches(y, pid) && y !in TopSimilar(rows, pid, n)
    ensures x.score >= y.score
  {
    Ordering.FilterMembers(rows, (r: SimilarityRow) => Touches(r, pid));
    Ordering.KeyDescIsTotalPreorder((r: SimilarityRow) => r.score);
    Ordering.TopPrecedesRest(TouchingRows(rows, pid), ByScore(), n, x, y);
  }

  /** The similarity rows come best score first. */
  lemma TopSimilarSorted(rows: seq<SimilarityRow>, pid: ProductId, n: nat)
    ensures Ordering.SortedBy(TopSimilar(rows, pid, n), ByScore())
  {
    Ordering.KeyDescIsTotalPreorder((r: SimilarityRow) => r.score);
    Ordering.TopSorted(TouchingRows(rows, pid), ByScore(), n);
  }

  /** The product on the far side of a row from `pid`. */
  function Other(r: SimilarityRow, pid: ProductId): Product {
    if r.product1.id == pid then r.product2 else r.product1
  }

  function Others(rows: seq<SimilarityRow>, pid: ProductId): (r: seq<Product>)
    ensures |r| == |rows|
    ensures forall i :: 0 <= i < |rows| ==> r[i] == Other(rows[i], pid)
  {
    seq(|rows|, i requires 0 <= i < |rows| => Other(rows[i], pid))
  }

  // ---------------------------------------------------------------------
  // Personalised recommendations

  function ByTotalScore(): (Interaction, Interaction) -> bool {
    Ordering.ByKeyDesc((x: Interaction) => x.totalScore)
  }

  /** `UserProductInteraction.objects.filter(user=u).order_by('-total_score')[:20]`. */
  function TopInteractions(interactions: seq<Interaction>, u: UserId): seq<Interaction> {
    Ordering.Top(Ordering.Filter(interactions, (x: Interaction) => x.user == u), ByTotalScore(), 20)
  }

  /**
   * At most twenty of the user's own rows, best score first; empty exactly
   * when the user has no interaction row.
   */
  lemma TopInteractionsProperties(interactions: seq<Interaction>, u: UserId)
    ensures var r := TopInteractions(interactions, u);
      && |r| <= 20
      && (forall i :: 0 <= i < |r| ==> r[i] in interactions && r[i].user == u)
      && (r == [] <==> forall i :: 0 <= i < |interactions| ==> interactions[i].user != u)
  {
    var mine := Ordering.Filter(interactions, (x: Interaction) => x.user == u);
    Ordering.FilterMembers(interactions, (x: Interaction) => x.user == u);
    Ordering.TopMembers(mine, ByTotalScore(), 20);
  }

  /** The user's interactions come best total score first. */
  lemma TopInteractionsSorted(interactions: seq<Interaction>, u: UserId)
    ensures Ordering.SortedBy(TopInteractions(interactions, u), ByTotalScore())
  {
    var mine := Ordering.Filter(interactions, (x: Interaction) => x.user == u);
    Ordering.KeyDescIsTotalPreorder((x: Interaction) => x.totalScore);
    Ordering.TopSorted(mine, ByTotalScore(), 20);
  }

  function ProductsOf(xs: seq<Interaction>): (r: seq<ProductId>)
    ensures |r| == |xs|
    ensures forall i :: 0 <= i < |xs| ==> r[i] == xs[i].product
  {
    seq(|xs|, i requires 0 <= i < |xs| => xs[i].product)
  }

  /** A neighbour the personalised pass may take: not interacted with, and sellable. */
  predicate Admissible(x: Product, interacted: seq<ProductId>) {
    x.id !in interacted && Sellable(x)
  }

  /** Every product of `r` is one the personalised pass may take. */
  predicate AllAdmissible(r: seq<Product>, interacted: seq<ProductId>) {
    forall i :: 0 <= i < |r| ==> Admissible(r[i], interacted)
  }

  /** The five most similar neighbours of one seed product. */
  function Neighbours(rows: seq<SimilarityRow>, seed: ProductId): seq<Product> {
    Others(TopSimilar(rows, seed, 5), seed)
  }

  /** The neighbours of each seed in turn: the order the nested loops visit them. */
  function Candidates(seeds: seq<ProductId>, rows: seq<SimilarityRow>): seq<Product> {
    if seeds == [] then []
    else Candidates(seeds[..|seeds| - 1], rows) + Neighbours(rows, seeds[|seeds| - 1])
  }

  /**
   * The admissible candidates in visiting order, each product once: what the
   * personalised pass appends when no limit stops it.
   */
  function Picks(cands: seq<Product>, interacted: seq<ProductId>): seq<Product> {
    if cands == [] then []
    else
      var prev := Picks(cands[..|cands| - 1], interacted);
      var x := cands[|cands| - 1];
      if Admissible(x, interacted) && x.id !in Ids(prev) then prev + [x] else prev
  }

  /** The picks are admissible candidates with pairwise different ids. */
  lemma {:induction false} PicksProperties(cands: seq<Product>, interacted: seq<ProductId>)
    ensures var r := Picks(cands, interacted);
      && |r| <= |cands|
      && (forall i :: 0 <= i < |r| ==> r[i] in cands && Admissible(r[i], interacted))
      && UniqueIds(r)
  {
    if cands != [] {
      var init := cands[..|cands| - 1];
      var x := cands[|cands| - 1];
      PicksProperties(init, interacted);
      var prev := Picks(init, interacted);
      assert forall i :: 0 <= i < |prev| ==> prev[i] in cands by {
        forall i | 0 <= i < |prev|
          ensures prev[i] in cands
        {
          var k :| 0 <= k < |init| && init[k] == prev[i];
          assert cands[k] == prev[i];
        }
      }
      if Admissible(x, interacted) && x.id !in Ids(prev) {
        UniqueIdsAppend(prev, [x]);
      }
    }
  }

  /** One more candidate: appended when admissible and its id is new. */
  lemma PicksSnoc(c: seq<Product>, x: Product, interacted: seq<ProductId>)
    ensures Picks(c + [x], interacted) ==
      if Admissible(x, interacted) && x.id !in Ids(Picks(c, interacted)) then Picks(c, interacted) + [x]
      else Picks(c, interacted)
  {
    assert (c + [x])[..|c + [x]| - 1] == c;
  }

  /** Visiting more candidates only appends to the picks. */
  lemma {:induction false} PicksExtend(a: seq<Product>, b: seq<Product>, interacted: seq<ProductId>)
    ensures Picks(a, interacted) <= Picks(a + b, interacted)
  {
    if b != [] {
      var b' := b[..|b| - 1];
      assert (a + b)[..|a + b| - 1] == a + b';
      PicksExtend(a, b', interacted);
    } else {
      assert a + b == a;
    }
  }

  /** Every admissible candidate is picked, or a product with its id was picked before it. */
  lemma {:induction false} PicksComplete(cands: seq<Product>, interacted: seq<ProductId>, x: Product)
    requires x in cands && Admissible(x, interacted)
    ensures x.id in Ids(Picks(cands, interacted))
  {
    var prev := cands[..|cands| - 1];
    var last := cands[|cands| - 1];
    var p := Picks(prev, interacted);
    if x in prev {
      PicksComplete(prev, interacted, x);
      var k :| 0 <= k < |p| && Ids(p)[k] == x.id;
      if Admissible(last, interacted) && last.id !in Ids(p) {
        assert Ids(p + [last])[k] == x.id;
      }
    } else {
      assert x == last;
      if x.id !in Ids(p) {
        assert Ids(p + [x])[|p|] == x.id;
      }
    }
  }

  /** The picks among the neighbours of the five best-scored interactions, at most `limit`. */
  function SeedPicks(top: seq<Interaction>, rows: seq<SimilarityRow>, limit: nat): seq<Product> {
    Ordering.Prefix(Picks(Candidates(ProductsOf(Ordering.Prefix(top, 5)), rows), ProductsOf(top)), limit)
  }

  lemma SeedPicksProperties(top: seq<Interaction>, rows: seq<SimilarityRow>, limit: nat)
    ensures var r := SeedPicks(top, rows, limit);
      && |r| <= limit
      && UniqueIds(r)
      && AllAdmissible(r, ProductsOf(top))
  {
    var all := Picks(Candidates(ProductsOf(Ordering.Prefix(top, 5)), rows), ProductsOf(top));
    PicksProperties(Candidates(ProductsOf(Ordering.Prefix(top, 5)), rows), ProductsOf(top));
    Ordering.PrefixSubMultiset(all, limit);
    UniqueIdsOfSubset(Ordering.Prefix(all, limit), all);
  }

  /**
   * The tail of `_get_personalized_recommendations`: fewer than `limit`
   * picks are padded with popular products that are neither picked nor
   * among the interacted ones.
   */
  function PadPicks(picks: seq<Product>, interacted: seq<ProductId>, limit: nat, catalog: seq<Product>): seq<Product> {
    if |picks| < limit then picks + Popular(catalog, limit - |picks|, Ids(picks) + interacted)
    else picks
  }

  /**
   * What `_get_personalized_recommendations` returns, stated without its
   * loops: a user without interactions gets the popularity list; otherwise
   * the seed picks of the twenty best-scored interactions, padded.
   */
  function PersonalizedResult(u: UserId, limit: nat, interactions: seq<Interaction>,
                              rows: seq<SimilarityRow>, catalog: seq<Product>): seq<Product>
  {
    var top := TopInteractions(interactions, u);
    if top == [] then Popular(catalog, limit, [])
    else PadPicks(SeedPicks(top, rows, limit), ProductsOf(top), limit, catalog)
  }

  /** The candidates of a prefix of the seeds are a prefix of all candidates. */
  lemma {:induction false} CandidatesPrefix(seeds: seq<ProductId>, rows: seq<SimilarityRow>, s: nat)
    requires s <= |seeds|
    ensures Candidates(seeds[..s], rows) <= Candidates(seeds, rows)
  {
    if s < |seeds| {
      var prev := seeds[..|seeds| - 1];
      assert prev[..s] == seeds[..s];
      CandidatesPrefix(prev, rows, s);
    } else {
      assert seeds[..s] == seeds;
    }
  }

  lemma CandidatesSnoc(seeds: seq<ProductId>, rows: seq<SimilarityRow>, s: nat)
    requires s < |seeds|
    ensures Candidates(seeds[..s + 1], rows) == Candidates(seeds[..s], rows) + Neighbours(rows, seeds[s])
  {
    assert seeds[..s + 1][..s] == seeds[..s];
  }

  /** The picks of a prefix of the candidates are a prefix of all picks. */
  lemma PicksOfPrefix(x: seq<Product>, all: seq<Product>, interacted: seq<ProductId>)
    requires x <= all
    ensures Picks(x, interacted) <= Picks(all, interacted)
  {
    PicksExtend(x, all[|x|..], interacted);
    assert x + all[|x|..] == all;
  }

  /** Picks made part-way through one seed's neighbours are a prefix of all picks. */
  lemma PartialScan(seeds: seq<ProductId>, rows: seq<SimilarityRow>, s: nat, taken: nat, interacted: seq<ProductId>)
    requires s < |seeds| && taken <= |Neighbours(rows, seeds[s])|
    ensures Picks(Candidates(seeds[..s], rows) + Neighbours(rows, seeds[s])[..taken], interacted)
      <= Picks(Candidates(seeds, rows), interacted)
  {
    var done := Candidates(seeds[..s], rows);
    var nb := Neighbours(rows, seeds[s]);
    CandidatesSnoc(seeds, rows, s);
    CandidatesPrefix(seeds, rows, s + 1);
    Ordering.ConcatPrefix(done, nb, taken);
    PicksOfPrefix(done + nb[..taken], Candidates(seeds, rows), interacted);
  }

  /**
   * The inner loop of the personalised pass over one seed's neighbours:
   * appends each admissible new product and stops once `limit` are held.
   */
  method ScanNeighbours(nb: seq<Product>, interacted: seq<ProductId>, limit: nat,
                        rec0: seq<Product>, ghost before: seq<Product>)
    returns (rec: seq<Product>, ghost taken: nat)
    requires rec0 == Picks(before, interacted)
    ensures taken <= |nb|
    ensures rec == Picks(before + nb[..taken], interacted)
    ensures taken < |nb| ==> |rec| >= limit
  {
    rec := rec0;
    var j := 0;
    ghost var seen := before;
    assert before + nb[..0] == before;
    while j < |nb|
      invariant 0 <= j <= |nb|
      invariant seen == before + nb[..j]
      invariant rec == Picks(seen, interacted)
    {
      var x := nb[j];
      PicksSnoc(seen, x, interacted);
      Ordering.ConcatSnoc(before, nb, j);
      seen := seen + [x];
      if x.id !in interacted && x.id !in Ids(rec) && x.isActive && IsInStock(x) {
        rec := rec + [x];
        if |rec| >= limit {
          return rec, j + 1;
        }
      }
      j := j + 1;
    }
    assert nb[..j] == nb;
    taken := j;
  }

  /**
   * The outer loop of the personalised pass: the picks it gathers are a
   * prefix of all picks, and all of them unless `limit` stopped it.
   */
  method CollectPicks(seeds: seq<ProductId>, rows: seq<SimilarityRow>, interacted: seq<ProductId>, limit: nat)
    returns (rec: seq<Product>)
    ensures rec <= Picks(Candidates(seeds, rows), interacted)
    ensures |rec| >= limit || rec == Picks(Candidates(seeds, rows), interacted)
  {
    rec := [];
    var s := 0;
    while s < |seeds|
      invariant 0 <= s <= |seeds|
      invariant rec == Picks(Candidates(seeds[..s], rows), interacted)
    {
      var nb := Neighbours(rows, seeds[s]);
      ghost var taken;
      rec, taken := ScanNeighbours(nb, interacted, limit, rec, Candidates(seeds[..s], rows));
      PartialScan(seeds, rows, s, taken, interacted);
      if |rec| >= limit {
        return;
      }
      assert nb[..taken] == nb;
      CandidatesSnoc(seeds, rows, s);
      s := s + 1;
    }
    assert seeds[..s] == seeds;
  }

  /** Cutting held picks at `limit` agrees with cutting all picks there. */
  lemma CutPicks(rec: seq<Product>, all: seq<Product>, limit: nat)
    requires rec <= all
    requires |rec| >= limit || rec == all
    ensures Ordering.Prefix(rec, limit) == Ordering.Prefix(all, limit)
  {
  }

  /**
   * Padding the held picks and then cutting at `limit` gives the padded cut
   * of all picks, whenever the held picks are all of them or reach `limit`.
   */
  lemma PadAfterCut(held: seq<Product>, all: seq<Product>, interacted: seq<ProductId>, limit: nat, catalog: seq<Product>)
    requires held <= all
    requires |held| >= limit || held == all
    ensures var padded := if |held| < limit then held + Popular(catalog, limit - |held|, Ids(held) + interacted) else held;
      Ordering.Prefix(padded, limit) == PadPicks(Ordering.Prefix(all, limit), interacted, limit, catalog)
  {
    if |held| < limit {
      var padded := held + Popular(catalog, limit - |held|, Ids(held) + interacted);
      assert Ordering.Prefix(padded, limit) == padded;
      assert Ordering.Prefix(all, limit) == held;
    } else {
      var cut := Ordering.Prefix(all, limit);
      assert cut == all[..limit] == held[..limit];
      assert |cut| == limit;
    }
  }

  /** `_get_personalized_recommendations(user, limit)`, with its nested append-and-break loops. */
  method Personalized(u: UserId, limit: nat, interactions: seq<Interaction>,
                      rows: seq<SimilarityRow>, catalog: seq<Product>) returns (r: seq<Product>)
    ensures r == PersonalizedResult(u, limit, interactions, rows, catalog)
  {
    var top := TopInteractions(interactions, u);
    if top == [] {
      return Popular(catalog, limit, []);
    }
    var interacted := ProductsOf(top);
    var rec := CollectPicks(ProductsOf(Ordering.Prefix(top, 5)), rows, interacted, limit);
    ghost var all := Picks(Candidates(ProductsOf(Ordering.Prefix(top, 5)), rows), interacted);
    PadAfterCut(rec, all, interacted, limit, catalog);
    if |rec| < limit {
      var popular := Popular(catalog, limit - |rec|, Ids(rec) + interacted);
      rec := rec + popular;
    }
    r := Ordering.Prefix(rec, limit);
  }

  /** Padding reaches at most `limit` and adds only products the pass may take. */
  lemma PadPicksProperties(picks: seq<Product>, interacted: seq<ProductId>, limit: nat, catalog: seq<Product>)
    requires |picks| <= limit && AllAdmissible(picks, interacted)
    ensures var r := PadPicks(picks, interacted, limit, catalog);
      |r| <= limit && AllAdmissible(r, interacted)
  {
    if |picks| < limit {
      var fill := Popular(catalog, limit - |picks|, Ids(picks) + interacted);
      PopularProperties(catalog, limit - |picks|, Ids(picks) + interacted);
      var r := picks + fill;
      forall i | 0 <= i < |r|
        ensures Admissible(r[i], interacted)
      {
        if i >= |picks| {
          assert r[i] == fill[i - |picks|];
        }
      }
    }
  }

  /** Padding repeats no id when neither the picks nor the catalogue do. */
  lemma PadPicksUnique(picks: seq<Product>, interacted: seq<ProductId>, limit: nat, catalog: seq<Product>)
    requires UniqueIds(picks) && UniqueIds(catalog)
    ensures UniqueIds(PadPicks(picks, interacted, limit, catalog))
  {
    if |picks| < limit {
      var fill := Popular(catalog, limit - |picks|, Ids(picks) + interacted);
      PopularProperties(catalog, limit - |picks|, Ids(picks) + interacted);
      PopularUnique(catalog, limit - |picks|, Ids(picks) + interacted);
      UniqueIdsAppend(picks, fill);
    }
  }

  /**
   * The personalised list is at most `limit` long and contains only
   * sellable products, none of them among the user's top-20 interacted
   * products.
   */
  lemma PersonalizedProperties(u: UserId, limit: nat, interactions: seq<Interaction>,
                               rows: seq<SimilarityRow>, catalog: seq<Product>)
    ensures var r := PersonalizedResult(u, limit, interactions, rows, catalog);
      |r| <= limit && AllAdmissible(r, ProductsOf(TopInteractions(interactions, u)))
  {
    var top := TopInteractions(interactions, u);
    if top == [] {
      PopularProperties(catalog, limit, []);
    } else {
      SeedPicksProperties(top, rows, limit);
      PadPicksProperties(SeedPicks(top, rows, limit), ProductsOf(top), limit, catalog);
    }
  }

  /** The personalised list has no two products with one id when the catalogue has none. */
  lemma PersonalizedUnique(u: UserId, limit: nat, interactions: seq<Interaction>,
                           rows: seq<SimilarityRow>, catalog: seq<Product>)
    requires UniqueIds(catalog)
    ensures UniqueIds(PersonalizedResult(u, limit, interactions, rows, catalog))
  {
    var top := TopInteractions(interactions, u);
    if top == [] {
      PopularUnique(catalog, limit, []);
    } else {
      SeedPicksProperties(top, rows, limit);
      PadPicksUnique(SeedPicks(top, rows, limit), ProductsOf(top), limit, catalog);
    }
  }

  /** A user with no interactions gets exactly the popularity list. */
  lemma PersonalizedColdStart(u: UserId, limit: nat, interactions: seq<Interaction>,
                              rows: seq<SimilarityRow>, catalog: seq<Product>)
    requires forall i :: 0 <= i < |interactions| ==> interactions[i].user != u
    ensures PersonalizedResult(u, limit, interactions, rows, catalog) == Popular(catalog, limit, [])
  {
    TopInteractionsProperties(interactions, u);
  }

  // ---------------------------------------------------------------------
  // Similar products

  function ByViews(): (Product, Product) -> bool {
    Ordering.ByKeyDesc((p: Product) => p.viewCount as real)
  }

  /** A row of the category fill: sellable, in the category, not excluded. */
  predicate FillEligible(p: Product, category: CategoryId, exclude: seq<ProductId>) {
    p.categoryId == category && Sellable(p) && p.id !in exclude
  }

  /** `Product.objects.filter(category=c, is_active=True, <in stock>).exclude(id__in=exclude)`. */
  function FillPool(catalog: seq<Product>, category: CategoryId, exclude: seq<ProductId>): seq<Product> {
    Ordering.Filter(catalog, (p: Product) => FillEligible(p, category, exclude))
  }

  /** The category fill: the pool `.order_by('-view_count')[:n]`. */
  function CategoryFill(catalog: seq<Product>, category: CategoryId, exclude: seq<ProductId>, n: nat): seq<Product> {
    Ordering.Top(FillPool(catalog, category, exclude), ByViews(), n)
  }

  /**
   * The fill holds `n` eligible products, or every eligible one when there
   * are fewer; each is a sellable catalogue product of the category outside
   * `exclude`.
   */
  lemma CategoryFillProperties(catalog: seq<Product>, category: CategoryId, exclude: seq<ProductId>, n: nat)
    ensures var r, eligible := CategoryFill(catalog, category, exclude, n), FillPool(catalog, category, exclude);
      && |r| == (if n <= |eligible| then n else |eligible|)
      && (forall i :: 0 <= i < |r| ==> r[i] in catalog && FillEligible(r[i], category, exclude))
  {
    Ordering.FilterMembers(catalog, (p: Product) => FillEligible(p, category, exclude));
    Ordering.TopMembers(FillPool(catalog, category, exclude), ByViews(), n);
  }

  /** No eligible product left out of the fill has more views than one in it. */
  lemma CategoryFillIsTop(catalog: seq<Product>, category: CategoryId, exclude: seq<ProductId>, n: nat,
                          x: Product, y: Product)
    requires x in CategoryFill(catalog, category, exclude, n)
    requires y in catalog && FillEligible(y, category, exclude) && y !in CategoryFill(catalog, category, exclude, n)
    ensures x.viewCount >= y.viewCount
  {
    Ordering.FilterMembers(catalog, (p: Product) => FillEligible(p, category, exclude));
    Ordering.KeyDescIsTotalPreorder((p: Product) => p.viewCount as real);
    Ordering.TopPrecedesRest(FillPool(catalog, category, exclude), ByViews(), n, x, y);
  }

  /** No id occurs twice when the catalogue's ids are unique. */
  lemma CategoryFillUnique(catalog: seq<Product>, category: CategoryId, exclude: seq<ProductId>, n: nat)
    requires UniqueIds(catalog)
    ensures UniqueIds(CategoryFill(catalog, category, exclude, n))
  {
    var keep := (p: Product) => FillEligible(p, category, exclude);
    Ordering.TopOfFilter(catalog, keep, ByViews(), n);
    UniqueIdsOfSubset(CategoryFill(catalog, category, exclude, n), catalog);
  }

  /** The category fill comes most viewed first. */
  lemma CategoryFillSorted(catalog: seq<Product>, category: CategoryId, exclude: seq<ProductId>, n: nat)
    ensures Ordering.SortedBy(CategoryFill(catalog, category, exclude, n), ByViews())
  {
    Ordering.KeyDescIsTotalPreorder((p: Product) => p.viewCount as real);
    Ordering.TopSorted(FillPool(catalog, category, exclude), ByViews(), n);
  }

  /** What the similarity loop of `_get_similar_products` keeps from a row's far side. */
  predicate SimilarKeeps(x: Product, seed: Product) {
    Sellable(x) && x.id != seed.id
  }

  function KeepFor(seed: Product): Product -> bool {
    (x: Product) => SimilarKeeps(x, seed)
  }

  /** The far sides of the top `2 * limit` rows that the loop keeps, in order, repeats included. */
  function SimilarCandidates(seed: Product, limit: nat, rows: seq<SimilarityRow>): seq<Product> {
    Ordering.Filter(Others(TopSimilar(rows, seed.id, 2 * limit), seed.id), KeepFor(seed))
  }

  /**
   * The tail of `_get_similar_products`: fewer than `limit` picks are
   * padded with same-category products by views, excluding the seed and
   * the picks.
   */
  function PadSimilar(picks: seq<Product>, seed: Product, limit: nat, catalog: seq<Product>): seq<Product> {
    if |picks| < limit then picks + CategoryFill(catalog, seed.categoryId, Ids(picks) + [seed.id], limit - |picks|)
    else picks
  }

  /** What `_get_similar_products` returns: the first `limit` kept far sides, padded. */
  function SimilarResult(seed: Product, limit: nat, rows: seq<SimilarityRow>, catalog: seq<Product>): seq<Product> {
    PadSimilar(Ordering.Prefix(SimilarCandidates(seed, limit, rows), limit), seed, limit, catalog)
  }

  /**
   * The loop of `_get_similar_products` over the similarity rows: the far
   * sides it keeps are a prefix of all kept far sides, and all of them
   * unless `limit` stopped it.
   */
  method CollectSimilar(sims: seq<SimilarityRow>, seed: Product, limit: nat) returns (rec: seq<Product>)
    ensures rec <= Ordering.Filter(Others(sims, seed.id), KeepFor(seed))
    ensures |rec| >= limit || rec == Ordering.Filter(Others(sims, seed.id), KeepFor(seed))
  {
    ghost var others := Others(sims, seed.id);
    rec := [];
    var i := 0;
    while i < |sims|
      invariant 0 <= i <= |sims|
      invariant rec == Ordering.Filter(others[..i], KeepFor(seed))
      invariant rec == [] || |rec| < limit
    {
      var x := Other(sims[i], seed.id);
      Ordering.FilterSnoc(others, i, KeepFor(seed));
      if x.isActive && IsInStock(x) && x.id != seed.id {
        rec := rec + [x];
        if |rec| >= limit {
          Ordering.FilterOfPrefix(others, i + 1, KeepFor(seed));
          return;
        }
      }
      i := i + 1;
    }
    assert others[..i] == others;
  }

  /** `_get_similar_products(product, limit)`. */
  method Similar(seed: Product, limit: nat, rows: seq<SimilarityRow>, catalog: seq<Product>) returns (r: seq<Product>)
    ensures r == SimilarResult(seed, limit, rows, catalog)
  {
    var sims := TopSimilar(rows, seed.id, 2 * limit);
    var rec := CollectSimilar(sims, seed, limit);
    CutPicks(rec, SimilarCandidates(seed, limit, rows), limit);
    if |rec| < limit {
      var fill := CategoryFill(catalog, seed.categoryId, Ids(rec) + [seed.id], limit - |rec|);
      rec := rec + fill;
    }
    r := Ordering.Prefix(rec, limit);
  }

  /**
   * The similarity picks come first and the category fill tops them up to
   * `limit`, or as far as the eligible category products reach; the list
   * never holds the seed, holds only sellable products, and its fill
   * repeats no pick.
   */
  lemma SimilarProperties(seed: Product, limit: nat, rows: seq<SimilarityRow>, catalog: seq<Product>)
    ensures var picks := Ordering.Prefix(SimilarCandidates(seed, limit, rows), limit);
      var r, eligible := SimilarResult(seed, limit, rows, catalog), FillPool(catalog, seed.categoryId, Ids(picks) + [seed.id]);
      && |r| == (if limit <= |picks| + |eligible| then limit else |picks| + |eligible|)
      && r[..|picks|] == picks
      && (forall i :: 0 <= i < |r| ==> r[i].id != seed.id && Sellable(r[i]))
      && (forall i, j :: 0 <= i < |picks| <= j < |r| ==> r[j].id != r[i].id)
  {
    var picks := Ordering.Prefix(SimilarCandidates(seed, limit, rows), limit);
    assert forall i :: 0 <= i < |picks| ==> SimilarKeeps(picks[i], seed);
    PadSimilarProperties(seed, limit, picks, catalog);
  }

  /**
   * Padding the similarity picks: the fill tops the picks up to `limit` or
   * as far as the eligible products reach; it is sellable, never the seed,
   * never a pick.
   */
  lemma PadSimilarProperties(seed: Product, limit: nat, picks: seq<Product>, catalog: seq<Product>)
    requires |picks| <= limit
    requires forall i :: 0 <= i < |picks| ==> SimilarKeeps(picks[i], seed)
    ensures var r, eligible := PadSimilar(picks, seed, limit, catalog), FillPool(catalog, seed.categoryId, Ids(picks) + [seed.id]);
      && |r| == (if limit <= |picks| + |eligible| then limit else |picks| + |eligible|)
      && r[..|picks|] == picks
      && (forall i :: 0 <= i < |r| ==> r[i].id != seed.id && Sellable(r[i]))
      && (forall i, j :: 0 <= i < |picks| <= j < |r| ==> r[j].id != r[i].id)
  {
    if |picks| < limit {
      var exclude := Ids(picks) + [seed.id];
      var fill := CategoryFill(catalog, seed.categoryId, exclude, limit - |picks|);
      CategoryFillProperties(catalog, seed.categoryId, exclude, limit - |picks|);
      var r := picks + fill;
      assert r[..|picks|] == picks;
      forall i | 0 <= i < |r|
        ensures r[i].id != seed.id && Sellable(r[i])
      {
        if i >= |picks| {
          assert r[i] == fill[i - |picks|];
          assert exclude[|picks|] == seed.id;
        }
      }
      forall i, j | 0 <= i < |picks| <= j < |r|
        ensures r[j].id != r[i].id
      {
        assert r[j] == fill[j - |picks|];
        assert exclude[i] == picks[i].id;
      }
    }
  }

  /** No eligible category product left out of the padded list has more views than one the fill added. */
  lemma PadSimilarIsTop(seed: Product, limit: nat, picks: seq<Product>, catalog: seq<Product>, x: Product, y: Product)
    requires x in PadSimilar(picks, seed, limit, catalog) && x !in picks
    requires y in catalog && FillEligible(y, seed.categoryId, Ids(picks) + [seed.id])
    requires y !in PadSimilar(picks, seed, limit, catalog)
    ensures x.viewCount >= y.viewCount
  {
    if |picks| < limit {
      var exclude := Ids(picks) + [seed.id];
      var fill := CategoryFill(catalog, seed.categoryId, exclude, limit - |picks|);
      assert x in fill && y !in fill;
      CategoryFillIsTop(catalog, seed.categoryId, exclude, limit - |picks|, x, y);
    }
  }

  /**
   * `_get_similar_products` does not remove repeats: two similarity rows
   * pairing the seed with one product list that product twice.
   */
  lemma SimilarMayRepeat(seed: Product, b: Product, catalog: seq<Product>)
    requires seed.id == "a" && b.id == "b" && Sellable(b)
    ensures SimilarResult(seed, 2, [SimilarityRow(seed, b, 0.9, "content"), SimilarityRow(b, seed, 0.8, "content")], catalog)
      == [b, b]
  {
    var r0 := SimilarityRow(seed, b, 0.9, "content");
    var r1 := SimilarityRow(b, seed, 0.8, "content");
    var rows := [r0, r1];
    var touches := (r: SimilarityRow) => Touches(r, seed.id);
    assert rows[1..] == [r1] && [r1][1..] == [];
    assert Ordering.Filter([r1], touches) == [r1];
    assert Ordering.Filter(rows, touches) == rows;
    assert Ordering.SortBy([r1], ByScore()) == [r1];
    assert Ordering.SortBy(rows, ByScore()) == rows;
    assert TopSimilar(rows, seed.id, 4) == rows;
    var others := Others(rows, seed.id);
    assert others == [b, b];
    assert others[1..] == [b] && [b][1..] == [];
    assert Ordering.Filter([b], KeepFor(seed)) == [b];
    assert Ordering.Filter(others, KeepFor(seed)) == [b, b];
  }

  // ---------------------------------------------------------------------
  // Frequently bought together

  /** The categories of the products whose ids are given. */
  function InputCategories(catalog: seq<Product>, productIds: seq<ProductId>): set<CategoryId> {
    set p | p in catalog && p.id in productIds :: p.categoryId
  }

  /** `order_by('-purchase_count', '-view_count')`: `a` may come before `b`. */
  predicate BoughtMoreOften(a: Product, b: Product) {
    a.orderItemCount > b.orderItemCount || (a.orderItemCount == b.orderItemCount && a.viewCount >= b.viewCount)
  }

  function ByPurchases(): (Product, Product) -> bool {
    (a: Product, b: Product) => BoughtMoreOften(a, b)
  }

  lemma PurchasesIsTotalPreorder()
    ensures Ordering.TotalPreorder(ByPurchases())
  {
  }

  /** A row of the frequently-bought-together queryset. */
  predicate TogetherEligible(p: Product, cats: set<CategoryId>, productIds: seq<ProductId>) {
    p.categoryId in cats && Sellable(p) && p.id !in productIds
  }

  /** The queryset `_get_frequently_bought_together` cuts its list from. */
  function TogetherPool(productIds: seq<ProductId>, catalog: seq<Product>): seq<Product> {
    var cats := InputCategories(catalog, productIds);
    Ordering.Filter(catalog, (p: Product) => TogetherEligible(p, cats, productIds))
  }

  /** `_get_frequently_bought_together(product_ids, limit)`. */
  function FrequentlyBoughtTogether(productIds: seq<ProductId>, limit: nat, catalog: seq<Product>): seq<Product> {
    Ordering.Top(TogetherPool(productIds, catalog), ByPurchases(), limit)
  }

  /**
   * `limit` products, or every eligible one when there are fewer: sellable
   * catalogue products that share a category with some input product and
   * are not inputs themselves.
   */
  lemma FrequentlyBoughtTogetherProperties(productIds: seq<ProductId>, limit: nat, catalog: seq<Product>)
    ensures var r, eligible := FrequentlyBoughtTogether(productIds, limit, catalog), TogetherPool(productIds, catalog);
      && |r| == (if limit <= |eligible| then limit else |eligible|)
      && (forall i :: 0 <= i < |r| ==> r[i] in catalog && r[i].id !in productIds && Sellable(r[i]))
      && (forall i :: 0 <= i < |r| ==>
            exists q :: q in catalog && q.id in productIds && q.categoryId == r[i].categoryId)
  {
    var cats := InputCategories(catalog, productIds);
    Ordering.FilterMembers(catalog, (p: Product) => TogetherEligible(p, cats, productIds));
    Ordering.TopMembers(TogetherPool(productIds, catalog), ByPurchases(), limit);
  }

  /**
   * No product left out that shares a category with an input and is not
   * an input itself was bought more often than one in the list.
   */
  lemma FrequentlyBoughtTogetherIsTop(productIds: seq<ProductId>, limit: nat, catalog: seq<Product>, x: Product, y: Product)
    requires x in FrequentlyBoughtTogether(productIds, limit, catalog)
    requires y in catalog && Sellable(y) && y.id !in productIds
    requires exists q :: q in catalog && q.id in productIds && q.categoryId == y.categoryId
    requires y !in FrequentlyBoughtTogether(productIds, limit, catalog)
    ensures BoughtMoreOften(x, y)
  {
    var cats := InputCategories(catalog, productIds);
    assert y.categoryId in cats;
    Ordering.FilterMembers(catalog, (p: Product) => TogetherEligible(p, cats, productIds));
    PurchasesIsTotalPreorder();
    Ordering.TopPrecedesRest(TogetherPool(productIds, catalog), ByPurchases(), limit, x, y);
  }

  /** No id occurs twice when the catalogue's ids are unique. */
  lemma FrequentlyBoughtTogetherUnique(productIds: seq<ProductId>, limit: nat, catalog: seq<Product>)
    requires UniqueIds(catalog)
    ensures UniqueIds(FrequentlyBoughtTogether(productIds, limit, catalog))
  {
    var cats := InputCategories(catalog, productIds);
    var keep := (p: Product) => TogetherEligible(p, cats, productIds);
    Ordering.TopOfFilter(catalog, keep, ByPurchases(), limit);
    UniqueIdsOfSubset(FrequentlyBoughtTogether(productIds, limit, catalog), catalog);
  }

  /** Frequently bought together comes most purchased first. */
  lemma FrequentlyBoughtTogetherSorted(productIds: seq<ProductId>, limit: nat, catalog: seq<Product>)
    ensures Ordering.SortedBy(FrequentlyBoughtTogether(productIds, limit, catalog), ByPurchases())
  {
    PurchasesIsTotalPreorder();
    Ordering.TopSorted(TogetherPool(productIds, catalog), ByPurchases(), limit);
  }

  // ---------------------------------------------------------------------
  // Trending in a category

  /** The daily score of a product's `TrendingProduct` row, 0 when it has none. */
  function DailyOf(daily: map<ProductId, real>, p: Product): real {
    if p.id in daily then daily[p.id] else 0.0
  }

  function ByDaily(daily: map<ProductId, real>): (Product, Product) -> bool {
    Ordering.ByKeyDesc((p: Product) => DailyOf(daily, p))
  }

  /** A row of the trending query: sellable, in the category, with a trending row. */
  predicate HotEligible(p: Product, category: CategoryId, daily: map<ProductId, real>) {
    p.categoryId == category && Sellable(p) && p.id in daily
  }

  /** The rows of the first query of `_get_trending_in_category`. */
  function HotPool(category: CategoryId, catalog: seq<Product>, daily: map<ProductId, real>): seq<Product> {
    Ordering.Filter(catalog, (p: Product) => HotEligible(p, category, daily))
  }

  /** The first query of `_get_trending_in_category`, by daily score, at most `limit`. */
  function Hot(category: CategoryId, limit: nat, catalog: seq<Product>, daily: map<ProductId, real>): seq<Product> {
    Ordering.Top(HotPool(category, catalog, daily), ByDaily(daily), limit)
  }

  /**
   * `limit` trending products, or all of them when there are fewer: sellable
   * catalogue products of the category with a trending row.
   */
  lemma HotProperties(category: CategoryId, limit: nat, catalog: seq<Product>, daily: map<ProductId, real>)
    ensures var r, eligible := Hot(category, limit, catalog, daily), HotPool(category, catalog, daily);
      && |r| == (if limit <= |eligible| then limit else |eligible|)
      && (forall i :: 0 <= i < |r| ==> r[i] in catalog && HotEligible(r[i], category, daily))
  {
    Ordering.FilterMembers(catalog, (p: Product) => HotEligible(p, category, daily));
    Ordering.TopMembers(HotPool(category, catalog, daily), ByDaily(daily), limit);
  }

  /** No trending product of the category left out has a higher daily score than one kept. */
  lemma HotIsTop(category: CategoryId, limit: nat, catalog: seq<Product>, daily: map<ProductId, real>, x: Product, y: Product)
    requires x in Hot(category, limit, catalog, daily)
    requires y in catalog && HotEligible(y, category, daily) && y !in Hot(category, limit, catalog, daily)
    ensures x.id in daily && daily[x.id] >= daily[y.id]
  {
    Ordering.FilterMembers(catalog, (p: Product) => HotEligible(p, category, daily));
    Ordering.TopMembers(HotPool(category, catalog, daily), ByDaily(daily), limit);
    Ordering.KeyDescIsTotalPreorder((p: Product) => DailyOf(daily, p));
    Ordering.TopPrecedesRest(HotPool(category, catalog, daily), ByDaily(daily), limit, x, y);
  }

  /** No id occurs twice when the catalogue's ids are unique. */
  lemma HotUnique(category: CategoryId, limit: nat, catalog: seq<Product>, daily: map<ProductId, real>)
    requires UniqueIds(catalog)
    ensures UniqueIds(Hot(category, limit, catalog, daily))
  {
    var keep := (p: Product) => HotEligible(p, category, daily);
    Ordering.TopOfFilter(catalog, keep, ByDaily(daily), limit);
    UniqueIdsOfSubset(Hot(category, limit, catalog, daily), catalog);
  }

  /** The trending products of a category come best daily score first. */
  lemma HotSorted(category: CategoryId, limit: nat, catalog: seq<Product>, daily: map<ProductId, real>)
    ensures Ordering.SortedBy(Hot(category, limit, catalog, daily), ByDaily(daily))
  {
    Ordering.KeyDescIsTotalPreorder((p: Product) => DailyOf(daily, p));
    Ordering.TopSorted(HotPool(category, catalog, daily), ByDaily(daily), limit);
  }

  /**
   * The second half of `_get_trending_in_category`: fewer than `limit`
   * trending products are padded with the category's other sellable
   * products by views.
   */
  function PadCategory(hot: seq<Product>, category: CategoryId, limit: nat, catalog: seq<Product>): seq<Product> {
    if |hot| >= limit then hot
    else hot + CategoryFill(catalog, category, Ids(hot), limit - |hot|)
  }

  /** `_get_trending_in_category(category, limit)`. */
  function TrendingInCategory(category: CategoryId, limit: nat, catalog: seq<Product>,
                              daily: map<ProductId, real>): seq<Product>
  {
    PadCategory(Hot(category, limit, catalog, daily), category, limit, catalog)
  }

  /** Every product of `r` is a sellable catalogue product of the category. */
  predicate InCategory(r: seq<Product>, category: CategoryId, catalog: seq<Product>) {
    forall i :: 0 <= i < |r| ==> r[i] in catalog && r[i].categoryId == category && Sellable(r[i])
  }

  /**
   * Padding keeps the trending products first and tops them up to `limit`,
   * or as far as the category's other eligible products reach.
   */
  lemma PadCategoryProperties(hot: seq<Product>, category: CategoryId, limit: nat, catalog: seq<Product>)
    requires |hot| <= limit
    ensures var r, eligible := PadCategory(hot, category, limit, catalog), FillPool(catalog, category, Ids(hot));
      && |r| == (if limit <= |hot| + |eligible| then limit else |hot| + |eligible|)
      && r[..|hot|] == hot
  {
    if |hot| < limit {
      var fill := CategoryFill(catalog, category, Ids(hot), limit - |hot|);
      CategoryFillProperties(catalog, category, Ids(hot), limit - |hot|);
      assert (hot + fill)[..|hot|] == hot;
    }
  }

  /** No eligible category product left out has more views than one the padding added. */
  lemma PadCategoryIsTop(hot: seq<Product>, category: CategoryId, limit: nat, catalog: seq<Product>, x: Product, y: Product)
    requires x in PadCategory(hot, category, limit, catalog) && x !in hot
    requires y in catalog && FillEligible(y, category, Ids(hot)) && y !in PadCategory(hot, category, limit, catalog)
    ensures x.viewCount >= y.viewCount
  {
    if |hot| < limit {
      var fill := CategoryFill(catalog, category, Ids(hot), limit - |hot|);
      assert x in fill && y !in fill;
      CategoryFillIsTop(catalog, category, Ids(hot), limit - |hot|, x, y);
    }
  }

  /** Padding adds only sellable catalogue products of the category. */
  lemma PadCategoryMembers(hot: seq<Product>, category: CategoryId, limit: nat, catalog: seq<Product>)
    requires InCategory(hot, category, catalog)
    ensures InCategory(PadCategory(hot, category, limit, catalog), category, catalog)
  {
    if |hot| < limit {
      var fill := CategoryFill(catalog, category, Ids(hot), limit - |hot|);
      CategoryFillProperties(catalog, category, Ids(hot), limit - |hot|);
      var r := hot + fill;
      forall i | 0 <= i < |r|
        ensures r[i] in catalog && r[i].categoryId == category && Sellable(r[i])
      {
        if i >= |hot| {
          assert r[i] == fill[i - |hot|];
        }
      }
    }
  }

  /** Padding repeats no id when neither the trending products nor the catalogue do. */
  lemma PadCategoryUnique(hot: seq<Product>, category: CategoryId, limit: nat, catalog: seq<Product>)
    requires UniqueIds(hot) && UniqueIds(catalog)
    ensures UniqueIds(PadCategory(hot, category, limit, catalog))
  {
    if |hot| < limit {
      var fill := CategoryFill(catalog, category, Ids(hot), limit - |hot|);
      CategoryFillProperties(catalog, category, Ids(hot), limit - |hot|);
      CategoryFillUnique(catalog, category, Ids(hot), limit - |hot|);
      assert forall i :: 0 <= i < |fill| ==> fill[i].id !in Ids(hot);
      UniqueIdsAppend(hot, fill);
    }
  }

  /**
   * The trending products come first, `limit` of them or all there are; the
   * category's other eligible products top the list up to `limit`, or as far
   * as they reach.
   */
  lemma TrendingInCategoryProperties(category: CategoryId, limit: nat, catalog: seq<Product>,
                                     daily: map<ProductId, real>)
    ensures var hot, r := Hot(category, limit, catalog, daily), TrendingInCategory(category, limit, catalog, daily);
      var trending, eligible := HotPool(category, catalog, daily), FillPool(catalog, category, Ids(hot));
      && |hot| == (if limit <= |trending| then limit else |trending|)
      && |r| == (if limit <= |hot| + |eligible| then limit else |hot| + |eligible|)
      && r[..|hot|] == hot
  {
    HotProperties(category, limit, catalog, daily);
    PadCategoryProperties(Hot(category, limit, catalog, daily), category, limit, catalog);
  }

  /** Only sellable catalogue products of the category. */
  lemma TrendingInCategoryMembers(category: CategoryId, limit: nat, catalog: seq<Product>,
                                  daily: map<ProductId, real>)
    ensures InCategory(TrendingInCategory(category, limit, catalog, daily), category, catalog)
  {
    var hot := Hot(category, limit, catalog, daily);
    HotProperties(category, limit, catalog, daily);
    assert InCategory(hot, category, catalog);
    PadCategoryMembers(hot, category, limit, catalog);
  }

  /** Each id at most once when the catalogue's ids are unique. */
  lemma TrendingInCategoryUnique(category: CategoryId, limit: nat, catalog: seq<Product>,
                                 daily: map<ProductId, real>)
    requires UniqueIds(catalog)
    ensures UniqueIds(TrendingInCategory(category, limit, catalog, daily))
  {
    HotUnique(category, limit, catalog, daily);
    PadCategoryUnique(Hot(category, limit, catalog, daily), category, limit, catalog);
  }

  // ---------------------------------------------------------------------
  // The `is_in_stock=True` queryset filter

  /**
   * The names a `Product` queryset filter can resolve: its model fields and
   * reverse relations. `is_in_stock` is a Python property, not among them.
   */
  const ProductFields: set<string> := {
    "id", "created_at", "updated_at", "name", "slug", "description", "short_description",
    "category", "category_id", "brand", "brand_id", "price", "compare_at_price", "cost_price",
    "sku", "stock_quantity", "low_stock_threshold", "manage_stock", "weight", "dimensions",
    "ingredients", "nutritional_info", "allergens", "features", "is_active", "is_featured",
    "is_digital", "requires_shipping", "seo_title", "seo_description", "view_count",
    "images", "variants", "reviews", "orderitem", "trending_data"
  }

  /** Django resolves each filter keyword to a field, raising `FieldError` on an unknown one. */
  function ResolveFilter(fields: seq<string>): (r: Result<seq<string>>)
    ensures r.Ok? <==> forall i :: 0 <= i < |fields| ==> fields[i] in ProductFields
    ensures r.Ok? ==> r.value == fields
  {
    if fields == [] then Ok([])
    else if fields[0] !in ProductFields then Err("FieldError: Cannot resolve keyword '" + fields[0] + "' into field")
    else match ResolveFilter(fields[1..])
      case Err(e) => Err(e)
      case Ok(_) => Ok(fields)
  }

  /**
   * As written, the popular, category-fill, frequently-bought-together and
   * trending queries filter on `is_in_stock`, so each raises before returning;
   * the same filter on the `stock_quantity` field resolves.
   */
  lemma InStockFilterRaises()
    ensures ResolveFilter(["is_active", "is_in_stock"]).Err?
    ensures ResolveFilter(["category", "is_active", "is_in_stock"]).Err?
    ensures ResolveFilter(["category_id", "is_active", "is_in_stock"]).Err?
    ensures ResolveFilter(["category", "is_active", "is_in_stock", "trending_data"]).Err?
    ensures ResolveFilter(["category", "is_active", "stock_quantity"]).Ok?
  {
    assert "is_in_stock" !in ProductFields;
    assert "is_in_stock" == ["is_active", "is_in_stock"][1];
    assert "is_in_stock" == ["category", "is_active", "is_in_stock"][2];
    assert "is_in_stock" == ["category_id", "is_active", "is_in_stock"][2];
    assert "is_in_stock" == ["category", "is_active", "is_in_stock", "trending_data"][2];
  }

  /**
   * `_get_popular_products` as written: the queryset raises `FieldError`
   * for every input.
   */
  function PopularAsWritten(catalog: seq<Product>, limit: nat, exclude: seq<ProductId>): (r: Result<seq<Product>>)
    ensures r.Err?
  {
    InStockFilterRaises();
    match ResolveFilter(["is_active", "is_in_stock"])
    case Err(e) => Err(e)
    case Ok(_) => Ok(Popular(catalog, limit, exclude))
  }

  /**
   * `_get_similar_products` as written: the category fill's queryset raises
   * `FieldError`, so a call fails exactly when the similarity picks fall
   * short of `limit`, and otherwise returns the picks alone.
   */
  function SimilarAsWritten(seed: Product, limit: nat, rows: seq<SimilarityRow>, catalog: seq<Product>): (r: Result<seq<Product>>)
    ensures var picks := Ordering.Prefix(SimilarCandidates(seed, limit, rows), limit);
      && (r.Err? <==> |picks| < limit)
      && (r.Ok? ==> r.value == picks)
  {
    InStockFilterRaises();
    var picks := Ordering.Prefix(SimilarCandidates(seed, limit, rows), limit);
    if |picks| < limit then
      match ResolveFilter(["category", "is_active", "is_in_stock"])
      case Err(e) => Err(e)
      case Ok(_) => Ok(SimilarResult(seed, limit, rows, catalog))
    else Ok(SimilarResult(seed, limit, rows, catalog))
  }

  /** `_get_frequently_bought_together` as written: its queryset raises `FieldError` for every input. */
  function FrequentlyBoughtTogetherAsWritten(productIds: seq<ProductId>, limit: nat, catalog: seq<Product>): (r: Result<seq<Product>>)
    ensures r.Err?
  {
    InStockFilterRaises();
    match ResolveFilter(["category_id", "is_active", "is_in_stock"])
    case Err(e) => Err(e)
    case Ok(_) => Ok(FrequentlyBoughtTogether(productIds, limit, catalog))
  }

  /** `_get_trending_in_category` as written: its first queryset raises `FieldError` for every input. */
  function TrendingInCategoryAsWritten(category: CategoryId, limit: nat, catalog: seq<Product>,
                                       daily: map<ProductId, real>): (r: Result<seq<Product>>)
    ensures r.Err?
  {
    InStockFilterRaises();
    match ResolveFilter(["category", "is_active", "is_in_stock", "trending_data"])
    case Err(e) => Err(e)
    case Ok(_) => Ok(TrendingInCategory(category, limit, catalog, daily))
  }
}
