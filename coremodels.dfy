/**
 * The database-backed cart and the site settings (core/models.py).
 */
module CoreModels {
  import opened Wrappers
  import opened Products

  // ---------------------------------------------------------------------
  // Cart and CartItem

  /** A `CartItem` row: the product it refers to and a non-negative quantity. */
  datatype CartItem = CartItem(product: Product, quantity: nat)

  /** `CartItem.total_price`. */
  function ItemTotal(item: CartItem): real {
    item.quantity as real * item.product.price
  }

  /** `sum(item.quantity for item in self.items.all())`. */
  function ItemCount(items: seq<CartItem>): nat {
    if |items| == 0 then 0 else ItemCount(items[..|items| - 1]) + items[|items| - 1].quantity
  }

  /** `sum(item.total_price for item in self.items.all())`. */
  function ItemsPrice(items: seq<CartItem>): real {
    if |items| == 0 then 0.0 else ItemsPrice(items[..|items| - 1]) + ItemTotal(items[|items| - 1])
  }

  /** `unique_together = ('cart', 'product')`. */
  ghost predicate OneItemPerProduct(items: seq<CartItem>) {
    forall i, j :: 0 <= i < j < |items| ==> items[i].product.id != items[j].product.id
  }

  /** Both totals split over a concatenation. */
  lemma {:induction false} TotalsAppend(a: seq<CartItem>, b: seq<CartItem>)
    ensures ItemCount(a + b) == ItemCount(a) + ItemCount(b)
    ensures ItemsPrice(a + b) == ItemsPrice(a) + ItemsPrice(b)
    decreases |b|
  {
    if |b| == 0 {
      assert a + b == a;
    } else {
      assert (a + b)[..|a + b| - 1] == a + b[..|b| - 1];
      assert (a + b)[|a + b| - 1] == b[|b| - 1];
      TotalsAppend(a, b[..|b| - 1]);
    }
  }

  /**
   * The item count is 0 exactly when every quantity is 0, and with
   * non-negative prices the price total is never negative.
   */
  lemma {:induction false} TotalsBounds(items: seq<CartItem>)
    ensures ItemCount(items) == 0 <==> forall i :: 0 <= i < |items| ==> items[i].quantity == 0
    ensures (forall i :: 0 <= i < |items| ==> items[i].product.price >= 0.0) ==> ItemsPrice(items) >= 0.0
  {
    if |items| > 0 {
      var init := items[..|items| - 1];
      TotalsBounds(init);
      assert forall i :: 0 <= i < |init| ==> init[i] == items[i];
    }
  }

  class Cart {
    var items: seq<CartItem>

    ghost predicate Valid()
      reads this
    {
      OneItemPerProduct(items)
    }

    constructor (items0: seq<CartItem>)
      requires OneItemPerProduct(items0)
      ensures Valid() && items == items0
    {
      items := items0;
    }

    /** `Cart.total_items`. */
    function TotalItems(): nat
      reads this
    {
      ItemCount(items)
    }

    /** `Cart.total_price`. */
    function TotalPrice(): real
      reads this
    {
      ItemsPrice(items)
    }

    /** `clear`: deletes every item, so both totals become 0. */
    method Clear()
      modifies this
      ensures Valid()
      ensures items == []
      ensures TotalItems() == 0 && TotalPrice() == 0.0
    {
      items := [];
    }
  }

  // ---------------------------------------------------------------------
  // SiteSettings

  datatype SiteSettings = SiteSettings(
    id: string,
    siteName: string,
    siteDescription: string,
    contactEmail: string,
    contactPhone: string,
    address: string,
    facebookUrl: string,
    twitterUrl: string,
    instagramUrl: string,
    deliveryInfo: string,
    returnsPolicy: string,
    isActive: bool
  )

  /** The row `SiteSettings.objects.create()` inserts: every field at its declared default. */
  function DefaultSettings(id: string): (s: SiteSettings)
    ensures s.isActive && s.id == id
  {
    SiteSettings(id, "Trederwen Springs", "Premium Welsh Spring Water",
      "info@trederwensprings.co.uk", "+44 1234 567890", "Wales, UK", "", "", "",
      "Free delivery on orders over £25", "30-day returns policy", true)
  }

  /** `filter(is_active=True).first()`: the table has no declared ordering; rows are taken in the order `first()` returns them. */
  function FirstActive(rows: seq<SiteSettings>): (r: Option<nat>)
    ensures r.Some? ==> r.value < |rows| && rows[r.value].isActive
    ensures r.Some? ==> forall i :: 0 <= i < r.value ==> !rows[i].isActive
    ensures r.None? ==> forall i :: 0 <= i < |rows| ==> !rows[i].isActive
  {
    if |rows| == 0 then None
    else if rows[0].isActive then Some(0)
    else match FirstActive(rows[1..])
      case Some(i) => Some(i + 1)
      case None => None
  }

  /**
   * `get_settings()`: the first active row, or a freshly created default row
   * when no row is active. Returns the settings and the table afterwards.
   */
  function GetSettings(rows: seq<SiteSettings>, freshId: string): (r: (SiteSettings, seq<SiteSettings>))
  {
    match FirstActive(rows)
    case Some(i) => (rows[i], rows)
    case None =>
      var s := DefaultSettings(freshId);
      (s, rows + [s])
  }

  /**
   * The settings returned are always active; an existing active row is
   * returned without writing, otherwise exactly one default row is added;
   * and a second call returns the same settings without creating another row.
   */
  lemma GetSettingsProperties(rows: seq<SiteSettings>, freshId: string, laterId: string)
    ensures var (s, after) := GetSettings(rows, freshId);
      && s.isActive
      && s in after
      && ((exists i :: 0 <= i < |rows| && rows[i].isActive) ==> after == rows && s in rows)
      && ((forall i :: 0 <= i < |rows| ==> !rows[i].isActive) ==>
            after == rows + [DefaultSettings(freshId)] && s == DefaultSettings(freshId))
      && GetSettings(after, laterId) == (s, after)
  {
    var (s, after) := GetSettings(rows, freshId);
    match FirstActive(rows)
    case Some(i) =>
    case None =>
      assert after[|rows|] == s;
      assert FirstActive(after) == Some(|rows|) by {
        FirstActiveAfterInactive(rows, s);
      }
  }

  lemma FirstActiveAfterInactive(rows: seq<SiteSettings>, s: SiteSettings)
    requires forall i :: 0 <= i < |rows| ==> !rows[i].isActive
    requires s.isActive
    ensures FirstActive(rows + [s]) == Some(|rows|)
  {
    var r := FirstActive(rows + [s]);
    assert (rows + [s])[|rows|].isActive;
  }
}
