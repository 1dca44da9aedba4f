/**
 * The session shopping cart (core/cart.py).
 *
 * The cart is the dictionary stored in the session under the cart key: it
 * maps a line key (`product_id`, or `product_id + "_v" + variant_id`) to the
 * line's product and variant ids, quantity, unit price and name. A Python
 * dictionary keeps insertion order, so the model keeps the lines as a
 * sequence with pairwise distinct keys.
 */
module SessionCarts {
  import opened Wrappers
  import opened Products
  import Ordering
  import Uuids

  // ---------------------------------------------------------------------
  // Line keys

  /** `if variant_id:` — neither a missing nor an empty variant id counts. */
  predicate HasVariant(variantId: Option<string>) {
    variantId.Some? && variantId.value != ""
  }

  /** The dictionary key of a product, with its variant when one is given. */
  function LineKey(productId: string, variantId: Option<string>): (k: string)
    ensures |k| >= |productId| && k[..|productId|] == productId
    ensures !HasVariant(variantId) ==> k == productId
  {
    if HasVariant(variantId) then productId + "_v" + variantId.value else productId
  }

  /** Splits a key at its first underscore into the product id and the variant id after `_v`. */
  function SplitKey(k: string): (r: (string, Option<string>))
  {
    var i := FirstUnderscore(k);
    if i == |k| then (k, None)
    else if i + 1 < |k| && k[i + 1] == 'v' then (k[..i], Some(k[i + 2..]))
    else (k, None)
  }

  function FirstUnderscore(k: string): (i: nat)
    ensures i <= |k|
    ensures i < |k| ==> k[i] == '_'
    ensures forall j :: 0 <= j < i ==> k[j] != '_'
  {
    if |k| == 0 then 0
    else if k[0] == '_' then 0
    else 1 + FirstUnderscore(k[1..])
  }

  /**
   * Product ids are UUID strings, which contain no underscore; for those the
   * key determines the product and the (truthy) variant, so distinct
   * (product, variant) pairs never share a line.
   */
  lemma SplitLineKey(productId: string, variantId: Option<string>)
    requires '_' !in productId
    ensures SplitKey(LineKey(productId, variantId)) ==
      (productId, if HasVariant(variantId) then variantId else None)
  {
    var k := LineKey(productId, variantId);
    var i := FirstUnderscore(k);
    if HasVariant(variantId) {
      assert k[|productId|] == '_';
      assert i == |productId|;
      assert k[i + 1] == 'v';
      assert k[..i] == productId;
      assert k[i + 2..] == variantId.value;
    } else {
      assert i == |k|;
    }
  }

  lemma LineKeyInjective(p1: string, v1: Option<string>, p2: string, v2: Option<string>)
    requires '_' !in p1 && '_' !in p2
    requires LineKey(p1, v1) == LineKey(p2, v2)
    ensures p1 == p2
    ensures HasVariant(v1) <==> HasVariant(v2)
    ensures HasVariant(v1) ==> v1 == v2
  {
    SplitLineKey(p1, v1);
    SplitLineKey(p2, v2);
  }

  // ---------------------------------------------------------------------
  // Lines and the sums over them

  /** One cart entry; the price is the decimal string the session stores, read back exactly. */
  datatype Line = Line(
    key: string,
    productId: string,
    variantId: Option<string>,
    quantity: int,
    price: real,
    name: string
  )

  ghost predicate KeysUnique(lines: seq<Line>) {
    forall i, j :: 0 <= i < j < |lines| ==> lines[i].key != lines[j].key
  }

  /** `key in self.cart`, with the position of the entry. */
  function Find(lines: seq<Line>, key: string): (r: Option<nat>)
    ensures r.Some? ==> r.value < |lines| && lines[r.value].key == key
    ensures r.None? ==> forall i :: 0 <= i < |lines| ==> lines[i].key != key
  {
    if |lines| == 0 then None
    else if lines[|lines| - 1].key == key then Some(|lines| - 1)
    else Find(lines[..|lines| - 1], key)
  }

  /** The stored quantity under a key, 0 without an entry. */
  function QuantityOf(lines: seq<Line>, key: string): (q: int)
    ensures KeysUnique(lines) ==>
      forall i :: 0 <= i < |lines| && lines[i].key == key ==> q == lines[i].quantity
    ensures (forall i :: 0 <= i < |lines| ==> lines[i].key != key) ==> q == 0
  {
    match Find(lines, key)
    case Some(i) => lines[i].quantity
    case None => 0
  }

  /** `sum(item['quantity'] for item in self.cart.values())`. */
  function QuantitySum(lines: seq<Line>): int {
    if |lines| == 0 then 0 else QuantitySum(lines[..|lines| - 1]) + lines[|lines| - 1].quantity
  }

  /** `Decimal(item['price']) * item['quantity']`. */
  function LineTotal(l: Line): real {
    l.price * l.quantity as real
  }

  /** `sum(Decimal(item['price']) * item['quantity'] for ...)`. */
  function PriceSum(lines: seq<Line>): real {
    if |lines| == 0 then 0.0 else PriceSum(lines[..|lines| - 1]) + LineTotal(lines[|lines| - 1])
  }

  /** Sums split over a concatenation. */
  lemma {:induction false} SumsAppend(a: seq<Line>, b: seq<Line>)
    ensures QuantitySum(a + b) == QuantitySum(a) + QuantitySum(b)
    ensures PriceSum(a + b) == PriceSum(a) + PriceSum(b)
    decreases |b|
  {
    if |b| > 0 {
      assert (a + b)[..|a + b| - 1] == a + b[..|b| - 1];
      assert (a + b)[|a + b| - 1] == b[|b| - 1];
      SumsAppend(a, b[..|b| - 1]);
    } else {
      assert a + b == a;
    }
  }

  lemma SingleSums(l: Line)
    ensures QuantitySum([l]) == l.quantity && PriceSum([l]) == LineTotal(l)
  {
    assert [l][..0] == [];
  }

  /** Replacing one line changes each sum by that line's difference. */
  lemma SumsUpdate(lines: seq<Line>, i: nat, l: Line)
    requires i < |lines|
    ensures QuantitySum(lines[i := l]) == QuantitySum(lines) - lines[i].quantity + l.quantity
    ensures PriceSum(lines[i := l]) == PriceSum(lines) - LineTotal(lines[i]) + LineTotal(l)
  {
    var before, after, u := lines[..i], lines[i + 1..], lines[i := l];
    assert lines[..i + 1] == before + [lines[i]];
    assert lines == lines[..i + 1] + after;
    assert u[..i + 1] == before + [l];
    assert u[i + 1..] == after;
    assert u == u[..i + 1] + u[i + 1..];
    SumsAppend(before + [lines[i]], after);
    SumsAppend(before + [l], after);
    SumsAppend(before, [lines[i]]);
    SumsAppend(before, [l]);
    SingleSums(l);
    SingleSums(lines[i]);
  }

  /** Deleting one line takes its share out of each sum. */
  lemma SumsDelete(lines: seq<Line>, i: nat)
    requires i < |lines|
    ensures QuantitySum(Without(lines, i)) == QuantitySum(lines) - lines[i].quantity
    ensures PriceSum(Without(lines, i)) == PriceSum(lines) - LineTotal(lines[i])
  {
    var before, at, after := lines[..i], [lines[i]], lines[i + 1..];
    assert lines[..i + 1] == before + at;
    assert lines == lines[..i + 1] + after;
    SumsAppend(before + at, after);
    SumsAppend(before, at);
    SumsAppend(before, after);
    SingleSums(lines[i]);
  }

  // ---------------------------------------------------------------------
  // What `add` and `remove` do to the lines

  /** The quantity after `add`: set to `q` when overriding, else increased by `q`. */
  function NewQuantity(current: int, q: int, overrideQuantity: bool): int {
    if overrideQuantity then q else current + q
  }

  /**
   * The lines after `add`: a missing key is appended with quantity 0 first;
   * then its quantity is set or increased and its price refreshed. An
   * existing line keeps its position, product, variant and name.
   */
  function Added(lines: seq<Line>, key: string, productId: string, variantId: Option<string>,
                 name: string, price: real, q: int, overrideQuantity: bool): (r: seq<Line>)
  {
    match Find(lines, key)
    case None =>
      lines + [Line(key, productId, variantId, NewQuantity(0, q, overrideQuantity), price, name)]
    case Some(i) =>
      lines[i := lines[i].(quantity := NewQuantity(lines[i].quantity, q, overrideQuantity), price := price)]
  }

  /** The lines after `remove`: the entry under the key is deleted, if there is one. */
  function Removed(lines: seq<Line>, key: string): (r: seq<Line>)
  {
    match Find(lines, key)
    case None => lines
    case Some(i) => Without(lines, i)
  }

  /**
   * `add` keeps keys unique, sets or increases exactly the quantity under
   * its key, stores the new price there and leaves every other key's
   * quantity alone.
   */
  lemma AddedProperties(lines: seq<Line>, key: string, productId: string, variantId: Option<string>,
                        name: string, price: real, q: int, overrideQuantity: bool)
    requires KeysUnique(lines)
    ensures var r := Added(lines, key, productId, variantId, name, price, q, overrideQuantity);
      && KeysUnique(r)
      && QuantityOf(r, key) == NewQuantity(QuantityOf(lines, key), q, overrideQuantity)
      && (forall k :: k != key ==> QuantityOf(r, k) == QuantityOf(lines, k))
      && (exists i :: 0 <= i < |r| && r[i].key == key && r[i].price == price)
      && |r| == |lines| + (if Find(lines, key).None? then 1 else 0)
  {
    match Find(lines, key)
    case None =>
      var l := Line(key, productId, variantId, NewQuantity(0, q, overrideQuantity), price, name);
      AppendedKeys(lines, l);
      assert (lines + [l])[|lines|] == l;
    case Some(i) =>
      var l := lines[i].(quantity := NewQuantity(lines[i].quantity, q, overrideQuantity), price := price);
      UpdatedKeys(lines, i, l);
      assert lines[i := l][i] == l;
  }

  /** `add` moves the item count by the change of the quantity under its key. */
  lemma AddedSum(lines: seq<Line>, key: string, productId: string, variantId: Option<string>,
                 name: string, price: real, q: int, overrideQuantity: bool)
    requires KeysUnique(lines)
    ensures var r := Added(lines, key, productId, variantId, name, price, q, overrideQuantity);
      QuantitySum(r) == QuantitySum(lines) - QuantityOf(lines, key)
                        + NewQuantity(QuantityOf(lines, key), q, overrideQuantity)
  {
    match Find(lines, key)
    case None =>
      var l := Line(key, productId, variantId, NewQuantity(0, q, overrideQuantity), price, name);
      SumsAppend(lines, [l]);
      SingleSums(l);
    case Some(i) =>
      var l := lines[i].(quantity := NewQuantity(lines[i].quantity, q, overrideQuantity), price := price);
      SumsUpdate(lines, i, l);
  }

  /** Appending a line under a new key keeps keys unique and other quantities. */
  lemma AppendedKeys(lines: seq<Line>, l: Line)
    requires KeysUnique(lines) && Find(lines, l.key).None?
    ensures KeysUnique(lines + [l])
    ensures QuantityOf(lines + [l], l.key) == l.quantity
    ensures forall k :: k != l.key ==> QuantityOf(lines + [l], k) == QuantityOf(lines, k)
  {
    var r := lines + [l];
    assert r[..|lines|] == lines;
    forall k | k != l.key
      ensures QuantityOf(r, k) == QuantityOf(lines, k)
    {
      assert Find(r, k) == Find(lines, k);
    }
  }

  /** Replacing a line by one with the same key keeps keys unique and other quantities. */
  lemma UpdatedKeys(lines: seq<Line>, i: nat, l: Line)
    requires KeysUnique(lines) && i < |lines| && l.key == lines[i].key
    ensures KeysUnique(lines[i := l])
    ensures QuantityOf(lines[i := l], l.key) == l.quantity
    ensures forall k :: k != l.key ==> QuantityOf(lines[i := l], k) == QuantityOf(lines, k)
  {
    var r := lines[i := l];
    assert forall j :: 0 <= j < |r| ==> r[j].key == lines[j].key;
    forall k | k != l.key
      ensures QuantityOf(r, k) == QuantityOf(lines, k)
    {
      SameKeysFind(lines, r, k);
    }
  }

  /** Lines with the same keys in the same places find every key at the same place. */
  lemma {:induction false} SameKeysFind(a: seq<Line>, b: seq<Line>, k: string)
    requires |a| == |b| && forall j :: 0 <= j < |a| ==> a[j].key == b[j].key
    ensures Find(a, k) == Find(b, k)
    decreases |a|
  {
    if |a| > 0 && a[|a| - 1].key != k {
      SameKeysFind(a[..|a| - 1], b[..|b| - 1], k);
    }
  }

  /**
   * `remove` deletes only its own key: the quantity there becomes 0, every
   * other key keeps its quantity, the item count drops by the removed
   * quantity, and an absent key changes nothing.
   */
  lemma RemovedProperties(lines: seq<Line>, key: string)
    requires KeysUnique(lines)
    ensures var r := Removed(lines, key);
      && KeysUnique(r)
      && QuantityOf(r, key) == 0
      && (forall k :: k != key ==> QuantityOf(r, k) == QuantityOf(lines, k))
      && QuantitySum(r) == QuantitySum(lines) - QuantityOf(lines, key)
      && (Find(lines, key).None? ==> r == lines)
      && (Find(lines, key).Some? ==> |r| == |lines| - 1)
  {
    match Find(lines, key)
    case None =>
    case Some(i) =>
      SumsDelete(lines, i);
      WithoutKeys(lines, i);
      forall k | k != key
        ensures QuantityOf(Without(lines, i), k) == QuantityOf(lines, k)
      {
        WithoutQuantity(lines, i, k);
      }
  }

  /** Deleting a line from uniquely keyed lines keeps them unique and drops its key. */
  lemma WithoutKeys(lines: seq<Line>, i: nat)
    requires KeysUnique(lines) && i < |lines|
    ensures KeysUnique(Without(lines, i))
    ensures forall j :: 0 <= j < |Without(lines, i)| ==> Without(lines, i)[j].key != lines[i].key
  {
    var r := Without(lines, i);
    forall a, b | 0 <= a < b < |r|
      ensures r[a].key != r[b].key
    {
      assert r[a] == lines[if a < i then a else a + 1];
      assert r[b] == lines[if b < i then b else b + 1];
    }
    forall j | 0 <= j < |r|
      ensures r[j].key != lines[i].key
    {
      assert r[j] == lines[if j < i then j else j + 1];
    }
  }

  /** Deleting a line leaves the quantity under every other key. */
  lemma WithoutQuantity(lines: seq<Line>, i: nat, k: string)
    requires KeysUnique(lines) && i < |lines| && k != lines[i].key
    ensures QuantityOf(Without(lines, i), k) == QuantityOf(lines, k)
  {
    var r := Without(lines, i);
    WithoutKeys(lines, i);
    match Find(lines, k)
    case Some(j) =>
      assert r[if j < i then j else j - 1] == lines[j];
    case None =>
      forall j | 0 <= j < |r|
        ensures r[j].key != k
      {
        assert r[j] == lines[if j < i then j else j + 1];
      }
  }

  /** The lines without the one at `i`: `del self.cart[key]`. */
  function Without(lines: seq<Line>, i: nat): (r: seq<Line>)
    requires i < |lines|
    ensures |r| == |lines| - 1
    ensures forall j :: 0 <= j < i ==> r[j] == lines[j]
    ensures forall j :: i <= j < |r| ==> r[j] == lines[j + 1]
  {
    lines[..i] + lines[i + 1..]
  }

  /** Adding a new key and removing it again restores the lines. */
  lemma RemoveUndoesAdd(lines: seq<Line>, key: string, productId: string, variantId: Option<string>,
                        name: string, price: real, q: int, overrideQuantity: bool)
    requires Find(lines, key).None?
    ensures Removed(Added(lines, key, productId, variantId, name, price, q, overrideQuantity), key) == lines
  {
    var r := Added(lines, key, productId, variantId, name, price, q, overrideQuantity);
    assert r[|lines|].key == key;
    assert Find(r, key) == Some(|lines|);
    assert r[..|lines|] == lines;
  }

  // ---------------------------------------------------------------------
  // The cart

  /** The two ways `add` is called: with a product id string, or with a product row. */
  datatype ProductRef = ById(id: string) | ByRow(product: Product)

  /**
   * `Product.objects.get(id=..., is_active=True)` once the id is read: the
   * active product whose (canonical) id it is; `None` is `DoesNotExist`.
   */
  function FindActive(catalog: seq<Product>, id: string): (r: Option<Product>)
    ensures r.Some? ==> r.value in catalog && r.value.id == id && r.value.isActive
    ensures r.None? ==> forall p :: p in catalog && p.id == id ==> !p.isActive
  {
    if |catalog| == 0 then None
    else if catalog[0].id == id && catalog[0].isActive then Some(catalog[0])
    else FindActive(catalog[1..], id)
  }

  /**
   * The product `add` works with and the id string its key is built from.
   * A row is used with its own (canonical) id. An id string is read as a
   * UUID: a malformed one is `ValidationError`, which `add` does not catch;
   * otherwise the active product with that UUID is looked up, and the key
   * keeps the string as it was given. `Ok(None)` is the caught
   * `DoesNotExist`.
   */
  function Resolve(product: ProductRef, catalog: seq<Product>): (r: Result<Option<(Product, string)>>)
    ensures product.ByRow? ==> r == Ok(Some((product.product, product.product.id)))
    ensures product.ById? ==> (r.Err? <==> Uuids.Parse(product.id).None?)
    ensures product.ById? && r.Ok? && r.value.Some? ==>
      && r.value.value.0 in catalog && r.value.value.0.isActive
      && Uuids.Parse(product.id) == Some(r.value.value.0.id)
      && r.value.value.1 == product.id
    ensures product.ById? && r == Ok(None) ==>
      forall p :: p in catalog && Uuids.Parse(product.id) == Some(p.id) ==> !p.isActive
  {
    match product
    case ByRow(row) => Ok(Some((row, row.id)))
    case ById(id) =>
      match Uuids.Parse(id)
      case None => Err("ValidationError")
      case Some(uuid) =>
        match FindActive(catalog, uuid)
        case Some(p) => Ok(Some((p, id)))
        case None => Ok(None)
  }

  /** The variant row with the given (canonical) id that belongs to the product. */
  function VariantOf(variants: seq<Variant>, id: string, productId: ProductId): (r: Option<Variant>)
    ensures r.Some? ==> r.value in variants && r.value.id == id && r.value.productId == productId
    ensures r.None? ==> forall v :: v in variants && v.id == id ==> v.productId != productId
  {
    if |variants| == 0 then None
    else if variants[0].id == id && variants[0].productId == productId then Some(variants[0])
    else VariantOf(variants[1..], id, productId)
  }

  /**
   * `ProductVariant.objects.get(id=variant_id, product=product)`: a
   * malformed id is `ValidationError`, which `add` does not catch;
   * `Ok(None)` is the caught `DoesNotExist`.
   */
  function FindVariant(variants: seq<Variant>, id: string, productId: ProductId): (r: Result<Option<Variant>>)
    ensures r.Err? <==> Uuids.Parse(id).None?
    ensures r.Ok? && r.value.Some? ==>
      r.value.value in variants && Some(r.value.value.id) == Uuids.Parse(id) && r.value.value.productId == productId
    ensures r == Ok(None) ==>
      forall v :: v in variants && Some(v.id) == Uuids.Parse(id) ==> v.productId != productId
  {
    match Uuids.Parse(id)
    case None => Err("ValidationError")
    case Some(uuid) => Ok(VariantOf(variants, uuid, productId))
  }

  /**
   * The unit price `add` stores: without a truthy variant id the product's
   * price; with one, the effective price of the product's variant of that
   * id, or the product's price when the product has no such variant; a
   * malformed variant id is an error.
   */
  function LinePrice(product: Product, variantId: Option<string>, variants: seq<Variant>): (r: Result<real>)
    ensures !HasVariant(variantId) ==> r == Ok(product.price)
    ensures r.Err? <==> HasVariant(variantId) && Uuids.Parse(variantId.value).None?
    ensures HasVariant(variantId) && r.Ok? ==>
      || (exists v :: v in variants && Some(v.id) == Uuids.Parse(variantId.value)
                      && v.productId == product.id && r.value == EffectivePrice(v, product.price))
      || ((forall v :: v in variants && Some(v.id) == Uuids.Parse(variantId.value) ==> v.productId != product.id)
          && r.value == product.price)
  {
    if !HasVariant(variantId) then Ok(product.price)
    else match FindVariant(variants, variantId.value, product.id)
      case Err(e) => Err(e)
      case Ok(Some(v)) => Ok(EffectivePrice(v, product.price))
      case Ok(None) => Ok(product.price)
  }

  /**
   * `variants.get(variant_id)` in `__iter__`: the dictionary is keyed by
   * `str(variant.id)`, so only the canonical spelling finds a variant.
   */
  function VariantNamed(variants: seq<Variant>, id: string): (r: Option<Variant>)
    ensures r.Some? ==> r.value in variants && r.value.id == id
    ensures r.None? ==> forall v :: v in variants ==> v.id != id
  {
    if |variants| == 0 then None
    else if variants[0].id == id then Some(variants[0])
    else VariantNamed(variants[1..], id)
  }

  /** A line as the cart page shows it: the entry with its product, variant and line total. */
  datatype ItemView = ItemView(line: Line, product: Product, variant: Option<Variant>, totalPrice: real)

  /** `get_cart_data()`. */
  datatype CartData = CartData(items: seq<ItemView>, totalPrice: real, totalItems: int, isEmpty: bool)

  /**
   * Whether `__iter__` shows a line: some product's `str(p.id)` equals the
   * stored product id, so an id stored in another spelling is not shown.
   */
  function Shown(catalog: seq<Product>): Line -> bool {
    (l: Line) => FindProduct(catalog, l.productId).Some?
  }

  function LinesOf(views: seq<ItemView>): (r: seq<Line>)
    ensures |r| == |views|
  {
    if views == [] then [] else [views[0].line] + LinesOf(views[1..])
  }

  /**
   * `__iter__`: the entries whose product exists, in the cart's order, each
   * with its product, its variant (only for a truthy variant id) and its
   * line total.
   */
  function ItemViews(lines: seq<Line>, catalog: seq<Product>, variants: seq<Variant>): (r: seq<ItemView>)
    ensures LinesOf(r) == Ordering.Filter(lines, Shown(catalog))
    ensures forall i :: 0 <= i < |r| ==>
      && Some(r[i].product) == FindProduct(catalog, r[i].line.productId)
      && r[i].variant == (if HasVariant(r[i].line.variantId) then VariantNamed(variants, r[i].line.variantId.value) else None)
      && r[i].totalPrice == LineTotal(r[i].line)
  {
    if |lines| == 0 then []
    else
      var rest := ItemViews(lines[1..], catalog, variants);
      match FindProduct(catalog, lines[0].productId)
      case Some(p) =>
        var variant := if HasVariant(lines[0].variantId) then VariantNamed(variants, lines[0].variantId.value) else None;
        var r := [ItemView(lines[0], p, variant, LineTotal(lines[0]))] + rest;
        assert r[1..] == rest;
        r
      case None => rest
  }

  /** Every line whose product exists gets a view, and every view is of one of the lines. */
  lemma ItemViewsCover(lines: seq<Line>, catalog: seq<Product>, variants: seq<Variant>)
    ensures forall i :: 0 <= i < |lines| && FindProduct(catalog, lines[i].productId).Some? ==>
      lines[i] in LinesOf(ItemViews(lines, catalog, variants))
    ensures forall v :: v in ItemViews(lines, catalog, variants) ==> v.line in lines
  {
    var r := ItemViews(lines, catalog, variants);
    Ordering.FilterMembers(lines, Shown(catalog));
    forall v | v in r
      ensures v.line in lines
    {
      var i :| 0 <= i < |r| && r[i] == v;
      LinesOfAt(r, i);
    }
  }

  lemma {:induction false} LinesOfAt(views: seq<ItemView>, i: nat)
    requires i < |views|
    ensures LinesOf(views)[i] == views[i].line
  {
    if i > 0 {
      LinesOfAt(views[1..], i - 1);
    }
  }

  class Cart {
    /** The dictionary this object holds, in insertion order. */
    var lines: seq<Line>
    /** Whether the session still stores the cart under its key. */
    var inSession: bool
    /** `session.modified`. */
    var modified: bool

    ghost predicate Valid()
      reads this
    {
      KeysUnique(lines)
    }

    /**
     * `Cart(request)`: the stored dictionary, or a new empty one written to
     * the session (which marks it modified) when there is none or it is empty.
     */
    constructor (stored: Option<seq<Line>>, sessionModified: bool)
      requires stored.Some? ==> KeysUnique(stored.value)
      ensures Valid() && inSession
      ensures lines == (if stored.Some? then stored.value else [])
      ensures modified == (sessionModified || stored.None? || stored.value == [])
    {
      if stored.None? || stored.value == [] {
        lines := [];
        modified := true;
      } else {
        lines := stored.value;
        modified := sessionModified;
      }
      inSession := true;
    }

    /**
     * `add`: a malformed product or variant id is an error and a product id
     * that names no active product a silent return, both leaving the cart
     * as it was; otherwise the line under the product's key is created if
     * needed, its quantity set (override) or increased, and its price
     * refreshed.
     */
    method Add(product: ProductRef, q: int, variantId: Option<string>, overrideQuantity: bool,
               catalog: seq<Product>, variants: seq<Variant>) returns (r: Result<()>)
      requires Valid()
      modifies this
      ensures Valid()
      ensures match Resolve(product, catalog)
        case Err(_) => r.Err? && unchanged(this)
        case Ok(None) => r == Ok(()) && unchanged(this)
        case Ok(Some((p, pid))) =>
          match LinePrice(p, variantId, variants)
          case Err(_) => r.Err? && unchanged(this)
          case Ok(price) =>
            && r == Ok(())
            && lines == Added(old(lines), LineKey(pid, variantId), pid, variantId, p.name, price, q, overrideQuantity)
            && modified && inSession == old(inSession)
    {
      var resolved := Resolve(product, catalog);
      if resolved.Err? {
        return Err(resolved.error);
      }
      if resolved.value.None? {
        return Ok(());
      }
      var (p, pid) := resolved.value.value;
      var key := LineKey(pid, variantId);
      var price := LinePrice(p, variantId, variants);
      if price.Err? {
        return Err(price.error);
      }
      Upsert(key, pid, variantId, p.name, price.value, q, overrideQuantity);
      modified := true;
      return Ok(());
    }

    /** The dictionary steps of `add` once the product, key and price are known. */
    method Upsert(key: string, pid: string, variantId: Option<string>, name: string, price: real,
                  q: int, overrideQuantity: bool)
      requires Valid()
      modifies this
      ensures Valid()
      ensures lines == Added(old(lines), key, pid, variantId, name, price, q, overrideQuantity)
      ensures modified == old(modified) && inSession == old(inSession)
    {
      AddedProperties(lines, key, pid, variantId, name, price, q, overrideQuantity);
      var at := Find(lines, key);
      if at.None? {
        // A new entry starts at quantity 0 before the quantity step.
        lines := lines + [Line(key, pid, variantId, NewQuantity(0, q, overrideQuantity), price, name)];
      } else {
        var l := lines[at.value];
        lines := lines[at.value := l.(quantity := NewQuantity(l.quantity, q, overrideQuantity), price := price)];
      }
    }

    /** `remove`: deletes the entry under the key, if any; only a deletion marks the session modified. */
    method Remove(productId: string, variantId: Option<string>)
      requires Valid()
      modifies this
      ensures Valid()
      ensures lines == Removed(old(lines), LineKey(productId, variantId))
      ensures modified == (old(modified) || Find(old(lines), LineKey(productId, variantId)).Some?)
      ensures inSession == old(inSession)
    {
      var key := LineKey(productId, variantId);
      var at := Find(lines, key);
      if at.Some? {
        lines := lines[..at.value] + lines[at.value + 1..];
        modified := true;
      }
      RemovedProperties(old(lines), key);
    }

    /**
     * `clear`: deletes the cart from the session. The object keeps its own
     * dictionary, so its totals are unchanged; clearing a cart that is no
     * longer in the session is Python's `KeyError`.
     */
    method Clear() returns (r: Result<()>)
      modifies this
      ensures r.Ok? <==> old(inSession)
      ensures !inSession && lines == old(lines)
      ensures modified == (old(modified) || old(inSession))
    {
      if !inSession {
        return Err("KeyError");
      }
      inSession := false;
      modified := true;
      return Ok(());
    }

    /** `get_total_price()`. */
    function TotalPrice(): real
      reads this
    {
      PriceSum(lines)
    }

    /** `get_total_items()`; `__len__` has the same body. */
    function TotalItems(): int
      reads this
    {
      QuantitySum(lines)
    }

    /** `get_product_quantity()`: the stored quantity, 0 without an entry. */
    function ProductQuantity(productId: string, variantId: Option<string>): int
      reads this
    {
      QuantityOf(lines, LineKey(productId, variantId))
    }

    /**
     * `get_cart_data()`: the items are the shown lines, the totals count
     * every line, and emptiness counts entries, not quantities.
     */
    function Data(catalog: seq<Product>, variants: seq<Variant>): (r: CartData)
      reads this
      ensures r.isEmpty <==> |lines| == 0
      ensures r.totalItems == QuantitySum(lines) && r.totalPrice == PriceSum(lines)
      ensures LinesOf(r.items) == Ordering.Filter(lines, Shown(catalog))
    {
      CartData(ItemViews(lines, catalog, variants), PriceSum(lines), QuantitySum(lines), |lines| == 0)
    }
  }

  /** A cart holding one line of quantity 0 is not empty although it holds no items. */
  lemma EmptinessCountsEntries(l: Line, catalog: seq<Product>)
    requires l.quantity == 0
    ensures QuantitySum([l]) == 0 && |[l]| != 0
  {
    assert [l][..0] == [];
  }
}
