/**
 * Subscription plans, subscriptions, their deliveries and discounts
 * (subscriptions/models.py). Dates are `Calendar.Date`; instants are
 * integers; "now" and "today" are parameters.
 */
module Subscriptions {
  import opened Wrappers
  import opened Calendar
  import Orders
  import Products
  import Numeric

  // ---------------------------------------------------------------------
  // Plans

  datatype BillingInterval = Weekly | Monthly | Quarterly | Yearly | OtherInterval(name: string)

  datatype Plan = Plan(
    name: string,
    billingInterval: BillingInterval,
    intervalCount: nat,
    basePrice: real,
    discountPercentage: real
  )

  /** `discounted_price`: the base price less its percentage, when the percentage is positive. */
  function DiscountedPrice(p: Plan): (r: real)
  {
    if p.discountPercentage > 0.0 then p.basePrice - p.basePrice * p.discountPercentage / 100.0
    else p.basePrice
  }

  /**
   * A positive percentage scales the base price by `(100 - pct) / 100`; any
   * other percentage leaves it.
   */
  lemma DiscountedPriceProperties(p: Plan)
    ensures p.discountPercentage > 0.0 ==>
      DiscountedPrice(p) == p.basePrice * (100.0 - p.discountPercentage) / 100.0
    ensures p.discountPercentage <= 0.0 ==> DiscountedPrice(p) == p.basePrice
  {
    var b, d := p.basePrice, p.discountPercentage;
    assert b * (100.0 - d) == b * 100.0 - b * d;
  }

  /** A percentage up to 100 on a non-negative price gives a price between 0 and the base price. */
  lemma DiscountedPriceBounds(p: Plan)
    requires p.basePrice >= 0.0 && p.discountPercentage <= 100.0
    ensures 0.0 <= DiscountedPrice(p) <= p.basePrice
  {
    if p.discountPercentage > 0.0 {
      Numeric.PercentageBounds(p.basePrice, p.discountPercentage);
    }
  }

  /** `get_next_billing_date(start_date)` once the start date is known. */
  function NextBillingFrom(p: Plan, start: Date): (r: Date)
    requires Valid(start)
    ensures Valid(r)
  {
    match p.billingInterval
    case Weekly => AddWeeks(start, p.intervalCount)
    case Monthly => AddMonths(start, p.intervalCount)
    case Quarterly => AddMonths(start, 3 * p.intervalCount)
    case Yearly => AddYears(start, p.intervalCount)
    case OtherInterval(_) => start
  }

  /** `get_next_billing_date(start_date=None)`: a missing start date means today. */
  function NextBillingDate(p: Plan, start: Option<Date>, today: Date): (r: Date)
    requires Valid(start.GetOr(today))
    ensures Valid(r)
  {
    NextBillingFrom(p, start.GetOr(today))
  }

  /**
   * The next billing date never precedes its start, lies strictly after it
   * for a known interval and a positive count, equals it for an unknown
   * interval, and a yearly plan bills as a twelve-monthly one.
   */
  lemma NextBillingProperties(p: Plan, start: Date)
    requires Valid(start)
    ensures NotAfter(start, NextBillingFrom(p, start))
    ensures !p.billingInterval.OtherInterval? && p.intervalCount > 0 ==> NextBillingFrom(p, start) != start
    ensures p.billingInterval.OtherInterval? ==> NextBillingFrom(p, start) == start
    ensures p.billingInterval == Yearly ==>
      NextBillingFrom(p, start) == NextBillingFrom(p.(billingInterval := Monthly, intervalCount := 12 * p.intervalCount), start)
    ensures p.billingInterval == Quarterly ==>
      NextBillingFrom(p, start) == NextBillingFrom(p.(billingInterval := Monthly, intervalCount := 3 * p.intervalCount), start)
  {
    match p.billingInterval
    case Weekly => AddDaysLater(start, 7 * p.intervalCount);
    case Monthly => AddMonthsLater(start, p.intervalCount);
    case Quarterly => AddMonthsLater(start, 3 * p.intervalCount);
    case Yearly =>
      YearsAreMonths(start, p.intervalCount);
      AddMonthsLater(start, 12 * p.intervalCount);
    case OtherInterval(_) =>
  }

  // ---------------------------------------------------------------------
  // Subscriptions

  datatype Status = Active | Paused | Cancelled | Expired | Pending

  class Subscription {
    var plan: Plan
    var status: Status
    var currentPeriodStart: Date
    var currentPeriodEnd: Date
    var nextBillingDate: Date
    var price: real
    var pausedAt: Option<int>
    var pauseReason: string
    var autoResumeDate: Option<Date>
    var cancelledAt: Option<int>
    var cancellationReason: string
    var cancelAtPeriodEnd: bool

    /** Dates are real dates, and a paused subscription records when. */
    ghost predicate Valid()
      reads this
    {
      Calendar.Valid(currentPeriodStart) && Calendar.Valid(currentPeriodEnd) && Calendar.Valid(nextBillingDate)
      && (status == Paused ==> pausedAt.Some?)
    }

    constructor (plan0: Plan, start: Date, end: Date, next: Date, price0: real)
      requires Calendar.Valid(start) && Calendar.Valid(end) && Calendar.Valid(next)
      ensures Valid() && status == Pending && plan == plan0 && price == price0
      ensures currentPeriodStart == start && currentPeriodEnd == end && nextBillingDate == next
      ensures pausedAt == None && pauseReason == "" && autoResumeDate == None
      ensures cancelledAt == None && cancellationReason == "" && !cancelAtPeriodEnd
    {
      plan, status, price := plan0, Pending, price0;
      currentPeriodStart, currentPeriodEnd, nextBillingDate := start, end, next;
      pausedAt, pauseReason, autoResumeDate := None, "", None;
      cancelledAt, cancellationReason, cancelAtPeriodEnd := None, "", false;
    }

    /** `pause`: from any status; records when, why and the optional resume date. */
    method Pause(reason: string, autoResume: Option<Date>, now: int)
      requires Valid()
      modifies this
      ensures Valid()
      ensures status == Paused && pausedAt == Some(now) && pauseReason == reason && autoResumeDate == autoResume
      ensures currentPeriodStart == old(currentPeriodStart) && currentPeriodEnd == old(currentPeriodEnd)
      ensures nextBillingDate == old(nextBillingDate) && plan == old(plan) && price == old(price)
      ensures cancelledAt == old(cancelledAt) && cancellationReason == old(cancellationReason)
      ensures cancelAtPeriodEnd == old(cancelAtPeriodEnd)
    {
      status := Paused;
      pausedAt := Some(now);
      pauseReason := reason;
      autoResumeDate := autoResume;
    }

    /**
     * `resume`: only a paused subscription changes. It becomes active, its
     * pause fields are cleared and the next billing date is recomputed from
     * today.
     */
    method Resume(today: Date)
      requires Valid() && Calendar.Valid(today)
      modifies this
      ensures Valid()
      ensures old(status) != Paused ==> unchanged(this)
      ensures old(status) == Paused ==>
        && status == Active && pausedAt == None && pauseReason == "" && autoResumeDate == None
        && nextBillingDate == NextBillingDate(plan, Some(today), today)
        && currentPeriodStart == old(currentPeriodStart) && currentPeriodEnd == old(currentPeriodEnd)
        && cancelledAt == old(cancelledAt) && cancelAtPeriodEnd == old(cancelAtPeriodEnd)
        && plan == old(plan) && price == old(price) && cancellationReason == old(cancellationReason)
    {
      if status == Paused {
        status := Active;
        pausedAt := None;
        pauseReason := "";
        autoResumeDate := None;
        nextBillingDate := NextBillingDate(plan, Some(today), today);
      }
    }

    /**
     * `cancel`: always stores the reason. Immediately: the status becomes
     * cancelled with a timestamp. Otherwise only the end-of-period flag is
     * set and the status stays as it was.
     */
    method Cancel(reason: string, immediately: bool, now: int)
      requires Valid()
      modifies this
      ensures Valid()
      ensures cancellationReason == reason
      ensures immediately ==> status == Cancelled && cancelledAt == Some(now) && cancelAtPeriodEnd == old(cancelAtPeriodEnd)
      ensures !immediately ==> status == old(status) && cancelledAt == old(cancelledAt) && cancelAtPeriodEnd
      ensures pausedAt == old(pausedAt) && pauseReason == old(pauseReason) && autoResumeDate == old(autoResumeDate)
      ensures currentPeriodStart == old(currentPeriodStart) && currentPeriodEnd == old(currentPeriodEnd)
      ensures nextBillingDate == old(nextBillingDate) && plan == old(plan) && price == old(price)
    {
      cancellationReason := reason;
      if immediately {
        status := Cancelled;
        cancelledAt := Some(now);
      } else {
        cancelAtPeriodEnd := true;
      }
    }

    /**
     * `renew_period`: the new period starts where the old one ended and
     * ends at the plan's next billing date from there, which is also the
     * next billing date.
     */
    method RenewPeriod()
      requires Valid()
      modifies this
      ensures Valid()
      ensures currentPeriodStart == old(currentPeriodEnd)
      ensures currentPeriodEnd == NextBillingFrom(plan, old(currentPeriodEnd))
      ensures NotAfter(currentPeriodStart, currentPeriodEnd)
      ensures nextBillingDate == currentPeriodEnd
      ensures status == old(status) && plan == old(plan) && price == old(price)
      ensures pausedAt == old(pausedAt) && cancelledAt == old(cancelledAt)
      ensures cancelAtPeriodEnd == old(cancelAtPeriodEnd)
      ensures pauseReason == old(pauseReason) && autoResumeDate == old(autoResumeDate)
      ensures cancellationReason == old(cancellationReason)
    {
      NextBillingProperties(plan, currentPeriodEnd);
      currentPeriodStart := currentPeriodEnd;
      currentPeriodEnd := NextBillingFrom(plan, currentPeriodEnd);
      nextBillingDate := currentPeriodEnd;
    }
  }

  // ---------------------------------------------------------------------
  // Signal handlers, as explicit calls around a save

  /** `STATUS_CHOICES` display names. */
  function StatusDisplay(s: Status): string {
    match s
    case Active => "Active"
    case Paused => "Paused"
    case Cancelled => "Cancelled"
    case Expired => "Expired"
    case Pending => "Pending"
  }

  datatype ChangeLog = ChangeLog(oldStatus: Status, newStatus: Status, description: string)

  /**
   * `log_subscription_changes` (pre-save): a log entry exactly when a stored
   * row exists and its status differs from the one being saved.
   */
  function StatusChangeLog(stored: Option<Status>, status: Status): (r: Option<ChangeLog>)
    ensures r.Some? <==> stored.Some? && stored.value != status
    ensures r.Some? ==> r.value.oldStatus == stored.value && r.value.newStatus == status
    ensures r.Some? ==>
      r.value.description == "Status changed from " + StatusDisplay(stored.value) + " to " + StatusDisplay(status)
  {
    if stored.Some? && stored.value != status then
      Some(ChangeLog(stored.value, status,
        "Status changed from " + StatusDisplay(stored.value) + " to " + StatusDisplay(status)))
    else None
  }

  // ---------------------------------------------------------------------
  // Items and deliveries

  /** `SubscriptionItem.total_price`. */
  function ItemTotal(quantity: nat, unitPrice: real): (r: real)
    ensures quantity == 0 ==> r == 0.0
    ensures unitPrice >= 0.0 && quantity >= 1 ==> r >= unitPrice
  {
    quantity as real * unitPrice
  }

  datatype DeliveryStatus = Scheduled | DeliveryProcessing | DeliveryShipped | Delivered | Skipped | Failed

  /** One entry of a delivery's item snapshot. */
  datatype DeliveryLine = DeliveryLine(
    productId: Products.ProductId,
    variantId: Option<string>,
    quantity: nat,
    unitPrice: real,
    productName: string,
    productSku: string
  )

  /** The order `create_order` writes, with the items `OrderItem.save` stored. */
  datatype CreatedOrder = CreatedOrder(
    orderNumber: string,
    userId: string,
    email: string,
    status: Orders.OrderStatus,
    subtotal: real,
    total: real,
    shippingAddress: string,
    billingAddress: string,
    notes: string,
    items: seq<Orders.OrderItem>
  )

  /** Every snapshot line names a product that still exists. */
  predicate ProductsExist(lines: seq<DeliveryLine>, catalog: seq<Products.Product>) {
    forall i :: 0 <= i < |lines| ==> Products.FindProduct(catalog, lines[i].productId).Some?
  }

  /**
   * The item stored for snapshot line `l` of product `p`: the line's
   * product, variant, quantity and price, the product's current name and sku.
   */
  predicate ItemFor(r: Orders.OrderItem, l: DeliveryLine, p: Products.Product) {
    && r.productId == l.productId && r.variantId == l.variantId && r.quantity == l.quantity
    && r.unitPrice == l.unitPrice && r.totalPrice == l.quantity as real * l.unitPrice
    && r.productName == p.name && r.productSku == p.sku
  }

  /**
   * The items the loop of `create_order` stores. Each
   * `OrderItem.objects.create` runs `OrderItem.save`, which reads the
   * product: the stored name and sku are the product's current ones, not
   * the snapshot's, and the line total is recomputed. The snapshot is JSON,
   * so a line may name a product deleted since; reading it raises, and the
   * loop stops there with the items before it stored.
   */
  function StoredItems(lines: seq<DeliveryLine>, catalog: seq<Products.Product>): (r: seq<Orders.OrderItem>)
    ensures |r| <= |lines|
    ensures forall i :: 0 <= i < |r| ==>
      Products.FindProduct(catalog, lines[i].productId).Some?
      && ItemFor(r[i], lines[i], Products.FindProduct(catalog, lines[i].productId).value)
    ensures |r| == |lines| <==> ProductsExist(lines, catalog)
    ensures |r| < |lines| ==> Products.FindProduct(catalog, lines[|r|].productId).None?
  {
    if |lines| == 0 then []
    else
      var l := lines[0];
      match Products.FindProduct(catalog, l.productId)
      case None => []
      case Some(p) =>
        var item := Orders.OrderItem(l.productId, l.variantId, l.quantity, l.unitPrice, 0.0, l.productName, l.productSku);
        var rest := StoredItems(lines[1..], catalog);
        ProductsExistTail(lines, catalog);
        var r := [Orders.SaveItem(item, p)] + rest;
        assert r[1..] == rest;
        r
  }

  /** With the first line's product present, all products exist exactly when the rest's do. */
  lemma ProductsExistTail(lines: seq<DeliveryLine>, catalog: seq<Products.Product>)
    requires lines != [] && Products.FindProduct(catalog, lines[0].productId).Some?
    ensures ProductsExist(lines, catalog) <==> ProductsExist(lines[1..], catalog)
  {
    if ProductsExist(lines[1..], catalog) {
      forall i | 0 <= i < |lines| ensures Products.FindProduct(catalog, lines[i].productId).Some? {
        if i > 0 { assert lines[i] == lines[1..][i - 1]; }
      }
    }
  }

  class Delivery {
    var status: DeliveryStatus
    var skipReason: string
    var order: Option<CreatedOrder>
    var lines: seq<DeliveryLine>
    var subtotal: real
    var total: real

    constructor (lines0: seq<DeliveryLine>, subtotal0: real, total0: real)
      ensures status == Scheduled && skipReason == "" && order == None
      ensures lines == lines0 && subtotal == subtotal0 && total == total0
    {
      status, skipReason, order := Scheduled, "", None;
      lines, subtotal, total := lines0, subtotal0, total0;
    }

    /** `skip`: from any status. */
    method Skip(reason: string)
      modifies this
      ensures status == Skipped && skipReason == reason
      ensures order == old(order) && lines == old(lines) && subtotal == old(subtotal) && total == old(total)
    {
      status := Skipped;
      skipReason := reason;
    }

    /**
     * `create_order`: a delivery already linked to an order returns it and
     * changes nothing. Otherwise a processing order for the subscriber is
     * created with the delivery's subtotal and total, the subscription's
     * address and one item per snapshot line; the delivery is linked to it
     * and moves to processing. Creating the order numbers it (`Order.save`),
     * and an unreadable last order number aborts before anything is written.
     * A snapshot line whose product no longer exists aborts the item loop:
     * the order and the items before that line stay written, and the
     * delivery is left unlinked. `written` is the order row the call leaves
     * in the database.
     */
    method CreateOrder(lastOrderNumber: Option<string>, userId: string, email: string,
                       address: string, planName: string, catalog: seq<Products.Product>)
      returns (r: Result<CreatedOrder>, written: Option<CreatedOrder>)
      modifies this
      ensures old(order).Some? ==> r == Ok(old(order).value) && written == None && unchanged(this)
      ensures old(order).None? && Orders.NextOrderNumber(lastOrderNumber).Err? ==>
        r.Err? && written == None && unchanged(this)
      ensures old(order).None? && Orders.NextOrderNumber(lastOrderNumber).Ok? ==>
        && written.Some?
        && written.value.orderNumber == Orders.NextOrderNumber(lastOrderNumber).value
        && written.value.userId == userId && written.value.email == email
        && written.value.status == Orders.Processing
        && written.value.subtotal == old(subtotal) && written.value.total == old(total)
        && written.value.shippingAddress == address && written.value.billingAddress == address
        && written.value.notes == "Subscription delivery for " + planName
        && written.value.items == StoredItems(old(lines), catalog)
        && (ProductsExist(old(lines), catalog) ==>
              r == Ok(written.value) && order == written && status == DeliveryProcessing
              && lines == old(lines) && subtotal == old(subtotal) && total == old(total) && skipReason == old(skipReason))
        && (!ProductsExist(old(lines), catalog) ==> r == Err("DoesNotExist") && unchanged(this))
    {
      if order.Some? {
        return Ok(order.value), None;
      }
      var number := Orders.NextOrderNumber(lastOrderNumber);
      if number.Err? {
        return Err(number.error), None;
      }
      var items := StoredItems(lines, catalog);
      var created := CreatedOrder(number.value, userId, email, Orders.Processing, subtotal, total,
                                  address, address, "Subscription delivery for " + planName, items);
      written := Some(created);
      if |items| < |lines| {
        return Err("DoesNotExist"), written;
      }
      order := Some(created);
      status := DeliveryProcessing;
      r := Ok(created);
    }
  }

  /** The delivery `create_initial_delivery` (post-save) schedules. */
  datatype ScheduledDelivery = ScheduledDelivery(scheduledDate: Date, lines: seq<DeliveryLine>, subtotal: real, total: real)

  /**
   * `create_initial_delivery`: only a newly created, active subscription
   * gets one, on its next billing date, empty and priced at the
   * subscription's price.
   */
  function InitialDelivery(created: bool, status: Status, nextBilling: Date, price: real): (r: Option<ScheduledDelivery>)
    ensures r.Some? <==> created && status == Active
    ensures r.Some? ==> r.value.scheduledDate == nextBilling && r.value.lines == []
    ensures r.Some? ==> r.value.subtotal == price && r.value.total == price
  {
    if created && status == Active then Some(ScheduledDelivery(nextBilling, [], price, price)) else None
  }

  // ---------------------------------------------------------------------
  // Discounts

  class Discount {
    var discountType: Orders.DiscountType
    var discountValue: real
    var durationInCycles: Option<nat>
    var cyclesUsed: nat
    var validFrom: Date
    var validUntil: Option<Date>
    var isActive: bool

    constructor (kind: Orders.DiscountType, value: real, duration: Option<nat>, from: Date, until: Option<Date>)
      ensures discountType == kind && discountValue == value && durationInCycles == duration
      ensures cyclesUsed == 0 && validFrom == from && validUntil == until && isActive
    {
      discountType, discountValue, durationInCycles := kind, value, duration;
      cyclesUsed, validFrom, validUntil, isActive := 0, from, until, true;
    }

    /** `if self.duration_in_cycles`: a duration of 0, like none, means permanent. */
    predicate HasCycleLimit()
      reads this
    {
      durationInCycles.Some? && durationInCycles.value != 0
    }

    predicate LimitReached()
      reads this
    {
      HasCycleLimit() && cyclesUsed >= durationInCycles.value
    }

    /** `is_valid`: active, started, not past a set end date, and a set cycle limit not reached. */
    predicate IsValid(today: Date)
      reads this
    {
      isActive && NotAfter(validFrom, today)
      && (validUntil.None? || NotAfter(today, validUntil.value))
      && !LimitReached()
    }

    /** `apply_discount`: a percentage, a fixed amount capped at the amount, or nothing. */
    function Apply(amount: real, today: Date): (r: real)
      reads this
      ensures !IsValid(today) ==> r == 0.0
      ensures IsValid(today) && discountType == Orders.Percentage ==> r == amount * discountValue / 100.0
      ensures IsValid(today) && discountType == Orders.FixedAmount ==>
        r <= amount && r <= discountValue && (r == amount || r == discountValue)
      ensures !discountType.Percentage? && !discountType.FixedAmount? ==> r == 0.0
    {
      if !IsValid(today) then 0.0
      else match discountType
        case Percentage => amount * discountValue / 100.0
        case FixedAmount => if discountValue <= amount then discountValue else amount
        case _ => 0.0
    }

    /**
     * `use_cycle`: one more cycle used; reaching a set limit deactivates the
     * discount, which is then invalid on every day; an inactive discount is
     * never reactivated.
     */
    method UseCycle()
      modifies this
      ensures cyclesUsed == old(cyclesUsed) + 1
      ensures isActive == (old(isActive) && !LimitReached())
      ensures LimitReached() ==> forall d :: !IsValid(d)
      ensures discountType == old(discountType) && discountValue == old(discountValue)
      ensures durationInCycles == old(durationInCycles)
      ensures validFrom == old(validFrom) && validUntil == old(validUntil)
    {
      cyclesUsed := cyclesUsed + 1;
      if HasCycleLimit() && cyclesUsed >= durationInCycles.value {
        isActive := false;
      }
    }
  }
}
