/**
 * Orders, their items, shipping methods, coupons and refunds
 * (orders/models.py). Money is exact (`real` for `Decimal`); the clock
 * (`timezone.now()`) is a parameter.
 */
module Orders {
  import opened Wrappers
  import opened Products
  import Text
  import Numeric

  // ---------------------------------------------------------------------
  // Order numbers

  /** `f"TS-{n:06d}"`. */
  function OrderNumber(n: nat): (s: string)
    ensures |s| >= 9 && s[..3] == "TS-"
  {
    "TS-" + Text.ZeroPad(n, 6)
  }

  /** The suffix `int(order_number.split('-')[-1])` reads; `None` is Python's `ValueError`. */
  function NumberOf(orderNumber: string): (r: Option<nat>)
  {
    match Text.ParseNat(Text.LastSegment(orderNumber, '-'))
    case Some(n) => Some(n)
    case None => None
  }

  /**
   * The number `Order.save` assigns to an order without one. `last` is the
   * number of the most recently created order (`None` when there is no
   * order). An empty or missing number starts the sequence at 1000;
   * otherwise the last number's suffix is read and increased by one, and an
   * unreadable suffix is an error.
   */
  function NextOrderNumber(last: Option<string>): (r: Result<string>)
    ensures last.None? || last.value == "" ==> r == Ok(OrderNumber(1000))
  {
    if last.None? || last.value == "" then Ok(OrderNumber(1000))
    else match NumberOf(last.value)
      case Some(n) => Ok(OrderNumber(n + 1))
      case None => Err("ValueError")
  }

  /** Reading back a generated order number gives the number it was made from. */
  lemma NumberOfOrderNumber(n: nat)
    ensures NumberOf(OrderNumber(n)) == Some(n)
  {
    var digits := Text.ZeroPad(n, 6);
    assert OrderNumber(n) == "TS" + ['-'] + digits;
    assert '-' !in digits by {
      assert forall i :: 0 <= i < |digits| ==> Text.IsDigit(digits[i]);
    }
    Text.LastSegmentAfter("TS", '-', digits);
    Text.ParseNatDigits(digits);
  }

  /**
   * Numbers count up from 1000: after an order numbered `n` the next order
   * is numbered `n + 1`, and distinct numbers give distinct order numbers.
   */
  lemma OrderNumbersCountUp(n: nat, m: nat)
    ensures NextOrderNumber(Some(OrderNumber(n))) == Ok(OrderNumber(n + 1))
    ensures OrderNumber(n) == OrderNumber(m) ==> n == m
  {
    NumberOfOrderNumber(n);
    NumberOfOrderNumber(m);
    var s := OrderNumber(n);
    assert s != "";
    assert NumberOf(s) == Some(n);
  }

  /** A suffix that is not all digits makes `save` fail. */
  lemma UnreadableNumberFails()
    ensures NextOrderNumber(Some("TS-ABC")) == Err("ValueError")
  {
    assert "TS-ABC" == "TS" + ['-'] + "ABC";
    Text.LastSegmentAfter("TS", '-', "ABC");
    var t := "ABC";
    assert Text.Strip(t) == t by {
      Text.StripLeftSkips([], t);
      Text.StripRightSkips(t, []);
      assert [] + t == t && t + [] == t;
    }
    assert Text.Unsigned(t) == t by { assert t[0] == 'A' && t[0] != '+'; }
    assert !Text.DigitGroups(t) by { assert !Text.IsDigit(t[0]); }
  }

  // ---------------------------------------------------------------------
  // Order items

  datatype OrderItem = OrderItem(
    productId: ProductId,
    variantId: Option<string>,
    quantity: nat,
    unitPrice: real,
    totalPrice: real,
    productName: string,
    productSku: string
  )

  /** `OrderItem.save`: snapshots the product's name and sku and sets the line total. */
  function SaveItem(item: OrderItem, product: Product): (r: OrderItem)
    ensures r.totalPrice == r.quantity as real * r.unitPrice
    ensures r.productName == product.name && r.productSku == product.sku
    ensures r.(totalPrice := item.totalPrice, productName := item.productName, productSku := item.productSku) == item
  {
    item.(productName := product.name, productSku := product.sku,
          totalPrice := item.quantity as real * item.unitPrice)
  }

  /** `sum(item.total_price for item in self.items.all())`. */
  function ItemsTotal(items: seq<OrderItem>): real {
    if |items| == 0 then 0.0 else ItemsTotal(items[..|items| - 1]) + items[|items| - 1].totalPrice
  }

  /** When every item was saved, the subtotal is the sum of quantity times unit price. */
  function Extended(items: seq<OrderItem>): real {
    if |items| == 0 then 0.0
    else Extended(items[..|items| - 1]) + items[|items| - 1].quantity as real * items[|items| - 1].unitPrice
  }

  lemma {:induction false} SavedItemsTotal(items: seq<OrderItem>)
    requires forall i :: 0 <= i < |items| ==> items[i].totalPrice == items[i].quantity as real * items[i].unitPrice
    ensures ItemsTotal(items) == Extended(items)
  {
    if |items| > 0 {
      SavedItemsTotal(items[..|items| - 1]);
    }
  }

  // ---------------------------------------------------------------------
  // Orders

  datatype OrderStatus = Pending | Processing | Shipped | Delivered | Cancelled | Refunded

  /** `can_be_cancelled`. */
  predicate CanBeCancelled(status: OrderStatus) {
    status == Pending || status == Processing
  }

  class Order {
    var orderNumber: string
    var status: OrderStatus
    var subtotal: real
    var taxAmount: real
    var shippingAmount: real
    var discountAmount: real
    var total: real
    var items: seq<OrderItem>
    var trackingNumber: string
    var shippedAt: Option<int>
    var deliveredAt: Option<int>

    constructor (items0: seq<OrderItem>, tax: real, shipping: real, discount: real)
      ensures orderNumber == "" && status == Pending && items == items0 && CanBeCancelled(status)
      ensures taxAmount == tax && shippingAmount == shipping && discountAmount == discount
      ensures subtotal == 0.0 && total == 0.0
      ensures trackingNumber == "" && shippedAt == None && deliveredAt == None
    {
      orderNumber, status, items := "", Pending, items0;
      taxAmount, shippingAmount, discountAmount := tax, shipping, discount;
      subtotal, total := 0.0, 0.0;
      trackingNumber, shippedAt, deliveredAt := "", None, None;
    }

    /**
     * `save`: an order without a number gets the next one; an order that
     * has a number keeps it. An unreadable last number aborts the save.
     */
    method Save(last: Option<string>) returns (r: Result<()>)
      modifies this
      ensures old(orderNumber) != "" ==> r.Ok? && unchanged(this)
      ensures old(orderNumber) == "" ==>
        match NextOrderNumber(last)
        case Ok(n) => r.Ok? && orderNumber == n
        case Err(e) => r == Err(e) && unchanged(this)
      ensures status == old(status) && items == old(items) && total == old(total)
      ensures subtotal == old(subtotal) && taxAmount == old(taxAmount)
      ensures shippingAmount == old(shippingAmount) && discountAmount == old(discountAmount)
      ensures trackingNumber == old(trackingNumber) && shippedAt == old(shippedAt) && deliveredAt == old(deliveredAt)
    {
      if orderNumber != "" {
        return Ok(());
      }
      var next := NextOrderNumber(last);
      match next {
        case Ok(n) =>
          orderNumber := n;
          r := Ok(());
        case Err(e) =>
          r := Err(e);
      }
    }

    /** `calculate_total`: subtotal from the items, then the total from the four amounts. */
    method CalculateTotal() returns (t: real)
      modifies this
      ensures subtotal == ItemsTotal(items)
      ensures total == subtotal + taxAmount - discountAmount + shippingAmount && t == total
      ensures items == old(items) && taxAmount == old(taxAmount)
      ensures shippingAmount == old(shippingAmount) && discountAmount == old(discountAmount)
      ensures status == old(status) && orderNumber == old(orderNumber)
      ensures trackingNumber == old(trackingNumber) && shippedAt == old(shippedAt) && deliveredAt == old(deliveredAt)
    {
      subtotal := ItemsTotal(items);
      total := subtotal + taxAmount + shippingAmount - discountAmount;
      t := total;
    }

    /**
     * `mark_as_shipped`: a tracking number is stored only when one is
     * given; a shipped order can no longer be cancelled.
     */
    method MarkAsShipped(tracking: Option<string>, now: int)
      modifies this
      ensures status == Shipped && shippedAt == Some(now) && !CanBeCancelled(status)
      ensures trackingNumber == if tracking.Some? && tracking.value != "" then tracking.value else old(trackingNumber)
      ensures deliveredAt == old(deliveredAt) && items == old(items) && total == old(total)
      ensures orderNumber == old(orderNumber)
      ensures subtotal == old(subtotal) && taxAmount == old(taxAmount)
      ensures shippingAmount == old(shippingAmount) && discountAmount == old(discountAmount)
    {
      status := Shipped;
      shippedAt := Some(now);
      if tracking.Some? && tracking.value != "" {
        trackingNumber := tracking.value;
      }
    }

    /** `mark_as_delivered`: a delivered order can no longer be cancelled. */
    method MarkAsDelivered(now: int)
      modifies this
      ensures status == Delivered && deliveredAt == Some(now) && !CanBeCancelled(status)
      ensures shippedAt == old(shippedAt) && trackingNumber == old(trackingNumber)
      ensures items == old(items) && total == old(total) && orderNumber == old(orderNumber)
      ensures subtotal == old(subtotal) && taxAmount == old(taxAmount)
      ensures shippingAmount == old(shippingAmount) && discountAmount == old(discountAmount)
    {
      status := Delivered;
      deliveredAt := Some(now);
    }
  }

  // ---------------------------------------------------------------------
  // Shipping

  datatype ShippingMethod = ShippingMethod(name: string, price: real, freeShippingThreshold: Option<real>)

  /**
   * `get_price_for_order`: free when a threshold is set and reached. A
   * threshold of 0 is falsy in Python and counts as no threshold.
   */
  function PriceForOrder(m: ShippingMethod, orderTotal: real): (r: real)
    ensures r == 0.0 || r == m.price
    ensures IsSetAmount(m.freeShippingThreshold) && orderTotal >= m.freeShippingThreshold.value ==> r == 0.0
    ensures !IsSetAmount(m.freeShippingThreshold) ==> r == m.price
    ensures IsSetAmount(m.freeShippingThreshold) && orderTotal < m.freeShippingThreshold.value ==> r == m.price
  {
    if IsSetAmount(m.freeShippingThreshold) && orderTotal >= m.freeShippingThreshold.value then 0.0
    else m.price
  }

  /** Spending more never makes shipping dearer (for a method with a non-negative price). */
  lemma ShippingMonotone(m: ShippingMethod, t1: real, t2: real)
    requires t1 <= t2 && m.price >= 0.0
    ensures PriceForOrder(m, t2) <= PriceForOrder(m, t1)
  {
  }

  // ---------------------------------------------------------------------
  // Coupons

  /** The `DISCOUNT_TYPES` choices that coupons and subscription discounts share. */
  datatype DiscountType = Percentage | FixedAmount | FreeShipping | OtherType(name: string)

  datatype Coupon = Coupon(
    code: string,
    discountType: DiscountType,
    discountValue: real,
    minimumOrderAmount: Option<real>,
    usageLimit: Option<nat>,
    usageCount: nat,
    userUsageLimit: nat,
    validFrom: int,
    validUntil: int,
    isActive: bool
  )

  /** `is_valid`: active, inside its window, and below a usage limit when one is set (0 included). */
  predicate CouponValid(c: Coupon, now: int) {
    c.isActive && c.validFrom <= now <= c.validUntil
    && (c.usageLimit.None? || c.usageCount < c.usageLimit.value)
  }

  /** Who is checking out: an anonymous visitor, or a signed-in user with their past uses of this coupon. */
  datatype Customer = Anonymous | SignedIn(usesOfCoupon: nat)

  /** `can_be_used_by_user`. */
  predicate CanBeUsedBy(c: Coupon, who: Customer, now: int) {
    CouponValid(c, now) && (who.SignedIn? ==> who.usesOfCoupon < c.userUsageLimit)
  }

  /**
   * `calculate_discount`: nothing for an invalid coupon or below a set
   * (non-zero) minimum; a percentage of the total; a fixed amount capped at
   * the total; nothing for free shipping.
   */
  function CalculateDiscount(c: Coupon, orderTotal: real, now: int): (r: real)
  {
    if !CouponValid(c, now) then 0.0
    else if IsSetAmount(c.minimumOrderAmount) && orderTotal < c.minimumOrderAmount.value then 0.0
    else match c.discountType
      case Percentage => orderTotal * c.discountValue / 100.0
      case FixedAmount => if c.discountValue <= orderTotal then c.discountValue else orderTotal
      case _ => 0.0
  }

  /**
   * A discount is only granted by a valid coupon whose minimum is met; a
   * fixed discount never exceeds the total or the coupon's value; with a non-negative total and a
   * value in range the discount lies between 0 and the total.
   */
  lemma DiscountProperties(c: Coupon, orderTotal: real, now: int)
    ensures CalculateDiscount(c, orderTotal, now) != 0.0 ==> CouponValid(c, now)
    ensures CalculateDiscount(c, orderTotal, now) != 0.0 && IsSetAmount(c.minimumOrderAmount) ==>
      orderTotal >= c.minimumOrderAmount.value
    ensures c.discountType == FixedAmount ==>
      CalculateDiscount(c, orderTotal, now) <= orderTotal || CalculateDiscount(c, orderTotal, now) == 0.0
    ensures c.discountType == FixedAmount && CalculateDiscount(c, orderTotal, now) != 0.0 ==>
      CalculateDiscount(c, orderTotal, now) <= c.discountValue
    ensures c.discountType == FreeShipping ==> CalculateDiscount(c, orderTotal, now) == 0.0
    ensures orderTotal >= 0.0 && 0.0 <= c.discountValue && (c.discountType == Percentage ==> c.discountValue <= 100.0) ==>
      0.0 <= CalculateDiscount(c, orderTotal, now) <= orderTotal
  {
    if c.discountType == Percentage && orderTotal >= 0.0 && 0.0 <= c.discountValue <= 100.0 {
      Numeric.PercentageBounds(orderTotal, c.discountValue);
    }
  }

  /** Who may use a coupon: nobody when it is invalid, anyone anonymous, a user below their limit. */
  lemma CanBeUsedByProperties(c: Coupon, who: Customer, now: int)
    ensures !CouponValid(c, now) ==> !CanBeUsedBy(c, who, now)
    ensures CouponValid(c, now) && who.Anonymous? ==> CanBeUsedBy(c, who, now)
    ensures CouponValid(c, now) && who.SignedIn? ==>
      (CanBeUsedBy(c, who, now) <==> who.usesOfCoupon < c.userUsageLimit)
  {
  }

  // ---------------------------------------------------------------------
  // Refunds

  datatype RefundStatus = Requested | RefundProcessing | Approved | Rejected | Completed

  class Refund {
    var status: RefundStatus
    var processedBy: Option<string>
    var processedAt: Option<int>
    var adminNotes: string
    var amount: real

    constructor (amount0: real)
      ensures status == Requested && processedBy == None && processedAt == None
      ensures adminNotes == "" && amount == amount0
    {
      status, processedBy, processedAt, adminNotes, amount := Requested, None, None, "", amount0;
    }

    /** `approve`: from any status; records who processed it and when. */
    method Approve(processor: Option<string>, now: int)
      modifies this
      ensures status == Approved && processedBy == processor && processedAt == Some(now)
      ensures adminNotes == old(adminNotes) && amount == old(amount)
    {
      status, processedBy, processedAt := Approved, processor, Some(now);
    }

    /** `reject`: like `approve`, and stores the notes only when some are given. */
    method Reject(processor: Option<string>, notes: string, now: int)
      modifies this
      ensures status == Rejected && processedBy == processor && processedAt == Some(now)
      ensures adminNotes == if notes != "" then notes else old(adminNotes)
      ensures amount == old(amount)
    {
      status, processedBy, processedAt := Rejected, processor, Some(now);
      if notes != "" {
        adminNotes := notes;
      }
    }
  }
}
