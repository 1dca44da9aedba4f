/**
 * The catalogue: products, their variants and images (products/models.py).
 *
 * A product row is a value. The aggregates that the recommendation queries
 * annotate on it (`Count('orderitem')`, `Avg('reviews__rating')`) are carried
 * as plain fields, supplied by the caller.
 */
module Products {
  import opened Wrappers
  import opened Numeric
  import Ordering

  type ProductId = string
  type CategoryId = string

  datatype Product = Product(
    id: ProductId,
    name: string,
    slug: string,
    description: string,
    shortDescription: string,
    categoryId: CategoryId,
    price: real,
    compareAtPrice: Option<real>,
    sku: string,
    stockQuantity: int,
    lowStockThreshold: int,
    manageStock: bool,
    isActive: bool,
    isFeatured: bool,
    viewCount: nat,
    orderItemCount: nat,   // Count('orderitem'), supplied
    averageRating: Option<real>  // Avg('reviews__rating'), supplied; None without reviews
  )

  /** `Product.is_in_stock`: unmanaged stock is always available. */
  predicate IsInStock(p: Product) {
    !p.manageStock || p.stockQuantity > 0
  }

  /** `Product.in_stock`, the template alias of `is_in_stock`. */
  predicate InStock(p: Product) {
    IsInStock(p)
  }

  lemma InStockIsAlias(p: Product)
    ensures InStock(p) == IsInStock(p)
    ensures !p.manageStock ==> IsInStock(p)
    ensures p.manageStock ==> (IsInStock(p) <==> p.stockQuantity > 0)
  {
  }

  /** `Product.is_low_stock`. */
  predicate IsLowStock(p: Product) {
    p.manageStock && p.stockQuantity <= p.lowStockThreshold
  }

  /**
   * Unmanaged stock is never low; a managed product that is out of stock is
   * low whenever its threshold is not negative.
   */
  lemma LowStockAndInStock(p: Product)
    ensures !p.manageStock ==> !IsLowStock(p)
    ensures p.manageStock && !IsInStock(p) && p.lowStockThreshold >= 0 ==> IsLowStock(p)
    ensures IsLowStock(p) ==> p.manageStock
  {
  }

  /** The ids of a list of products, in order. */
  function Ids(ps: seq<Product>): (r: seq<ProductId>)
    ensures |r| == |ps|
    ensures forall i :: 0 <= i < |ps| ==> r[i] == ps[i].id
  {
    if ps == [] then [] else Ids(ps[..|ps| - 1]) + [ps[|ps| - 1].id]
  }

  /** Primary keys are unique in a product table. */
  ghost predicate UniqueIds(ps: seq<Product>) {
    forall i, j :: 0 <= i < j < |ps| ==> ps[i].id != ps[j].id
  }

  /** Any selection of rows from a table with unique ids has unique ids. */
  lemma UniqueIdsOfSubset(r: seq<Product>, s: seq<Product>)
    requires multiset(r) <= multiset(s)
    ensures UniqueIds(s) ==> UniqueIds(r)
  {
    if UniqueIds(s) {
      forall i, j | 0 <= i < j < |r|
        ensures r[i].id != r[j].id
      {
        if r[i].id == r[j].id {
          assert r[i] in multiset(s) && r[j] in multiset(s);
          var a :| 0 <= a < |s| && s[a] == r[i];
          var b :| 0 <= b < |s| && s[b] == r[j];
          assert a == b;
          Ordering.CountTwo(r, i, j);
          assert Ordering.Distinct(s);
          Ordering.CountAtMostOne(s, r[i]);
          assert false;
        }
      }
    }
  }

  lemma UniqueIdsAppend(a: seq<Product>, b: seq<Product>)
    requires UniqueIds(a) && UniqueIds(b)
    requires forall i :: 0 <= i < |b| ==> b[i].id !in Ids(a)
    ensures UniqueIds(a + b)
  {
    forall i, j | 0 <= i < j < |a + b|
      ensures (a + b)[i].id != (a + b)[j].id
    {
      if i < |a| && j >= |a| {
        assert Ids(a)[i] == a[i].id;
      }
    }
  }

  /** A product looked up by primary key, whatever its state (`Product.objects.get(id=...)`, `filter(id__in=...)`). */
  function FindProduct(catalog: seq<Product>, id: ProductId): (r: Option<Product>)
    ensures r.Some? ==> r.value in catalog && r.value.id == id
    ensures r.None? ==> forall i :: 0 <= i < |catalog| ==> catalog[i].id != id
  {
    if catalog == [] then None
    else if catalog[0].id == id then Some(catalog[0])
    else FindProduct(catalog[1..], id)
  }

  /** With unique ids, looking a product up by its id finds that product. */
  lemma {:induction false} FindProductFinds(catalog: seq<Product>, p: Product)
    requires UniqueIds(catalog) && p in catalog
    ensures FindProduct(catalog, p.id) == Some(p)
  {
    if catalog[0] != p {
      assert catalog[0].id != p.id by {
        var j :| 0 <= j < |catalog| && catalog[j] == p;
      }
      FindProductFinds(catalog[1..], p);
    }
  }

  /** `Decimal` truthiness: a missing or zero amount counts as unset. */
  predicate IsSetAmount(a: Option<real>) {
    a.Some? && a.value != 0.0
  }

  /** `Product.discount_percentage`: percent saved against the compare-at price, rounded. */
  function DiscountPercentage(p: Product): (r: int)
    ensures !(IsSetAmount(p.compareAtPrice) && p.compareAtPrice.value > p.price) ==> r == 0
    ensures IsSetAmount(p.compareAtPrice) && p.compareAtPrice.value > p.price && p.price >= 0.0 ==>
      0 <= r <= 100
    ensures IsSetAmount(p.compareAtPrice) && p.compareAtPrice.value > p.price ==>
      var exact := (p.compareAtPrice.value - p.price) / p.compareAtPrice.value * 100.0;
      exact - 0.5 <= r as real <= exact + 0.5
  {
    if IsSetAmount(p.compareAtPrice) && p.compareAtPrice.value > p.price then
      var c := p.compareAtPrice.value;
      var exact := (c - p.price) / c * 100.0;
      if p.price >= 0.0 then
        FractionBelowOne(c - p.price, c);
        RoundHalfEven(exact)
      else RoundHalfEven(exact)
    else 0
  }

  lemma FractionBelowOne(a: real, c: real)
    requires 0.0 < a <= c
    ensures 0.0 < a / c * 100.0 <= 100.0
  {
    assert a / c <= 1.0 by {
      assert a / c * c == a;
    }
  }

  /** `Product.save`: fills an empty slug and an empty short description. */
  function SaveProduct(p: Product, slugOfName: string): (r: Product)
    ensures r.slug == if p.slug == "" then slugOfName else p.slug
    ensures p.shortDescription == "" ==>
      r.shortDescription == Ordering.Prefix(p.description, 500) && |r.shortDescription| <= 500
    ensures p.shortDescription != "" ==> r.shortDescription == p.shortDescription
    ensures r == p.(slug := r.slug, shortDescription := r.shortDescription)
  {
    p.(slug := if p.slug == "" then slugOfName else p.slug,
       shortDescription := if p.shortDescription == "" then Ordering.Prefix(p.description, 500)
                           else p.shortDescription)
  }

  /** Saving twice stores the same row as saving once. */
  lemma SaveProductIdempotent(p: Product, slugOfName: string)
    ensures SaveProduct(SaveProduct(p, slugOfName), slugOfName) == SaveProduct(p, slugOfName)
  {
  }

  datatype Variant = Variant(
    id: string,
    productId: ProductId,
    name: string,
    sku: string,
    price: Option<real>,
    stockQuantity: int,
    isActive: bool
  )

  /** `ProductVariant.effective_price`: its own price unless that is missing or zero. */
  function EffectivePrice(v: Variant, productPrice: real): (r: real)
    ensures IsSetAmount(v.price) ==> r == v.price.value
    ensures !IsSetAmount(v.price) ==> r == productPrice
  {
    if IsSetAmount(v.price) then v.price.value else productPrice
  }

  /** `ProductVariant.is_in_stock`: ignores the product's `manage_stock`. */
  predicate VariantInStock(v: Variant) {
    v.stockQuantity > 0
  }

  lemma VariantStockIgnoresManageStock(v: Variant, p: Product)
    requires !p.manageStock && v.stockQuantity <= 0
    ensures IsInStock(p) && !VariantInStock(v)
  {
  }

  datatype ProductImage = ProductImage(
    id: string,
    productId: ProductId,
    isPrimary: bool,
    altText: string,
    order: nat
  )

  /** Every row is stored under its own primary key. */
  ghost predicate KeyedById(rows: map<string, ProductImage>) {
    forall id :: id in rows ==> rows[id].id == id
  }

  /** No product has two primary images. */
  ghost predicate AtMostOnePrimary(rows: map<string, ProductImage>) {
    forall a, b :: a in rows && b in rows && a != b && rows[a].productId == rows[b].productId ==>
      !(rows[a].isPrimary && rows[b].isPrimary)
  }

  /** The queryset update that unsets `is_primary` on a product's other images. */
  function ClearOtherPrimaries(rows: map<string, ProductImage>, img: ProductImage): (r: map<string, ProductImage>)
    ensures r.Keys == rows.Keys
    ensures forall id :: id in r && id != img.id && r[id].productId == img.productId ==> !r[id].isPrimary
    ensures forall id :: id in r ==> r[id] == rows[id] || r[id] == rows[id].(isPrimary := false)
  {
    map id | id in rows ::
      if rows[id].productId == img.productId && rows[id].isPrimary && id != img.id
      then rows[id].(isPrimary := false) else rows[id]
  }

  /** The row `ProductImage.save` writes: an empty alt text becomes "<name> image". */
  function WithDefaultAlt(img: ProductImage, productName: string): (r: ProductImage)
    ensures img.altText != "" ==> r == img
    ensures img.altText == "" ==> r == img.(altText := productName + " image")
  {
    if img.altText == "" then img.(altText := productName + " image") else img
  }

  /**
   * The table after `ProductImage.save`: a primary image first clears the
   * flag on the product's other images; then the row, with its default alt
   * text, is inserted or replaces the row with the same id.
   */
  function ImagesSaved(rows: map<string, ProductImage>, img: ProductImage, productName: string): map<string, ProductImage> {
    (if img.isPrimary then ClearOtherPrimaries(rows, img) else rows)[img.id := WithDefaultAlt(img, productName)]
  }

  /**
   * Saving stores the row under its id and keeps every other key; every
   * other row is unchanged or, when a primary image is saved, loses only
   * its primary flag.
   */
  lemma ImagesSavedRows(rows: map<string, ProductImage>, img: ProductImage, productName: string)
    ensures ImagesSaved(rows, img, productName).Keys == rows.Keys + {img.id}
    ensures ImagesSaved(rows, img, productName)[img.id] == WithDefaultAlt(img, productName)
    ensures forall id :: id in rows && id != img.id ==>
      ImagesSaved(rows, img, productName)[id] == rows[id]
      || (img.isPrimary && ImagesSaved(rows, img, productName)[id] == rows[id].(isPrimary := false))
  {
  }

  /** A saved primary image is its product's only primary image. */
  lemma ImagesSavedOnlyPrimary(rows: map<string, ProductImage>, img: ProductImage, productName: string)
    requires img.isPrimary
    ensures var r := ImagesSaved(rows, img, productName);
      forall id :: id in r && id != img.id && r[id].productId == img.productId ==> !r[id].isPrimary
  {
  }

  /** Saving keeps every row under its own key and at most one primary image per product. */
  lemma ImagesSavedKeepsInvariants(rows: map<string, ProductImage>, img: ProductImage, productName: string)
    requires KeyedById(rows) && AtMostOnePrimary(rows)
    ensures KeyedById(ImagesSaved(rows, img, productName)) && AtMostOnePrimary(ImagesSaved(rows, img, productName))
  {
  }

  /** The image table: the rows `ProductImage.save` reads and writes, by primary key. */
  class ImageTable {
    var rows: map<string, ProductImage>

    ghost predicate Valid()
      reads this
    {
      KeyedById(rows) && AtMostOnePrimary(rows)
    }

    constructor ()
      ensures Valid() && rows == map[]
    {
      rows := map[];
    }

    /** `ProductImage.save`, with the one-primary invariant kept. */
    method Save(img: ProductImage, productName: string)
      requires Valid()
      modifies this
      ensures Valid()
      ensures rows == ImagesSaved(old(rows), img, productName)
    {
      ImagesSavedKeepsInvariants(rows, img, productName);
      var cleared := if img.isPrimary then ClearOtherPrimaries(rows, img) else rows;
      rows := cleared[img.id := WithDefaultAlt(img, productName)];
    }
  }
}
