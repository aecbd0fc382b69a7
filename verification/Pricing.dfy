/** The three places that price a purchase: the charge at checkout, a cart line, and the quote the
    storefront shows. Python's floor division agrees with Dafny's for the positive divisor 100. */
module Pricing {
  import opened Prelude
  import opened Calendar

  datatype ProductType = FREE | ONE_TIME | RECURRING | CONTACT

  /** The catalog facts a price depends on; `durations` maps prepaid intervals to a discount %. */
  datatype Offer = Offer(
    product: ProductType, price: nat, interval: Interval, durations: map<nat, int>, pwyw: bool, minPrice: nat)

  datatype DiscountType = PERCENT | FIXED

  datatype Coupon = Coupon(
    active: bool, discountType: DiscountType, value: nat, maxDiscount: nat, usageLimit: nat, usedCount: nat,
    validFrom: Option<int>, validUntil: Option<int>, plans: set<nat>)

  /** `Coupon.compute_discount`. */
  function ComputeDiscount(c: Coupon, amount: int): int
  {
    var discount :=
      match c.discountType
      case PERCENT =>
        var percent := amount * c.value / 100;
        if c.maxDiscount > 0 then Min(percent, c.maxDiscount) else percent
      case FIXED => c.value;
    Min(discount, amount)
  }

  /** `Coupon.is_valid_for`. */
  predicate ValidFor(c: Coupon, plan: nat, now: int)
  {
    && c.active
    && !(c.validFrom.Some? && now < c.validFrom.value)
    && !(c.validUntil.Some? && now > c.validUntil.value)
    && !(c.usageLimit > 0 && c.usedCount >= c.usageLimit)
    && !(c.plans != {} && plan !in c.plans)
  }

  function DurationPercent(offer: Offer, multiplier: nat): int
  {
    if multiplier in offer.durations then offer.durations[multiplier] else 0
  }

  // ---- Checkout ----

  datatype Charge = FreeOrder | ContactOnly | Priced(amount: int, discount: int)

  /** The buyer's named price, for pay-what-you-want plans only. */
  function NamedPrice(offer: Offer, override: Option<int>): int
  {
    if override.Some? && offer.pwyw then Max(override.value, offer.minPrice) else 0
  }

  /** What `checkout` charges. */
  function CheckoutCharge(offer: Offer, plan: nat, coupon: Option<Coupon>, override: Option<int>, multiplier: int, now: int): Charge
  {
    if offer.product == CONTACT then ContactOnly
    else
      var named := NamedPrice(offer, override);
      if offer.product == FREE || (offer.price == 0 && named == 0) then FreeOrder
      else
        var base := if named != 0 then named else offer.price;
        var dm := if offer.interval != NONE then Max(1, multiplier) else 1;
        var price :=
          if dm > 1 then
            var subtotal := base * dm;
            subtotal - subtotal * DurationPercent(offer, dm) / 100
          else base;
        var discount := if coupon.Some? && ValidFor(coupon.value, plan, now) then ComputeDiscount(coupon.value, price) else 0;
        Priced(Max(0, price - discount), discount)
  }

  // ---- Cart ----

  /** The price of a prepaid duration after its own discount. */
  function DurationPrice(offer: Offer, dm: nat): int
  {
    var subtotal := offer.price * dm;
    subtotal - subtotal * DurationPercent(offer, dm) / 100
  }

  /** `compute_cart_line`: (effective price, discount, base price). */
  function CartLine(offer: Offer, plan: nat, coupon: Option<Coupon>, multiplier: nat, now: int): (int, int, int)
  {
    var dm := if offer.interval != NONE then Max(1, multiplier) else 1;
    var base := if dm > 1 then DurationPrice(offer, dm) else offer.price;
    var discount := if coupon.Some? && ValidFor(coupon.value, plan, now) then ComputeDiscount(coupon.value, base) else 0;
    (Max(0, base - discount), discount, base)
  }

  datatype Item = Item(offer: Offer, plan: nat, coupon: Option<Coupon>, multiplier: nat)

  function LinePrice(now: int): Item -> int
  {
    (item: Item) => CartLine(item.offer, item.plan, item.coupon, item.multiplier, now).0
  }

  /** `cart_total`, a running sum over the lines. */
  method CartTotal(items: seq<Item>, now: int) returns (total: int)
    ensures total == Sum(items, LinePrice(now))
  {
    total := 0;
    for i := 0 to |items|
      invariant total == Sum(items[..i], LinePrice(now))
    {
      var (price, _, _) := CartLine(items[i].offer, items[i].plan, items[i].coupon, items[i].multiplier, now);
      SumAppend(items[..i], items[i], LinePrice(now));
      assert items[..i] + [items[i]] == items[..i + 1];
      total := total + price;
    }
    assert items[..|items|] == items;
  }

  // ---- Storefront ----

  /** The quote on the checkout page, by successive updates of the view's local variables. The amounts
      shown beside it are the shortfall against the wallet and the balance left after a covered
      purchase. */
  method StorefrontQuote(offer: Offer, plan: nat, coupon: Option<Coupon>, requested: int, now: int, balance: nat)
    returns (price: int, discount: int, shortfall: int, balanceAfter: int)
    ensures (price, discount) == var line := CartLine(offer, plan, coupon, Max(1, requested), now); (line.0, line.1)
    ensures shortfall == Max(0, price - balance) && (shortfall > 0 <==> balance < price)
    ensures balanceAfter == if balance < price then 0 else balance - price
  {
    var multiplier := 1;
    var percent := 0;
    if offer.interval != NONE {
      multiplier := Max(1, requested);
      percent := DurationPercent(offer, multiplier);
    }
    var base: int := offer.price;
    if offer.interval != NONE && multiplier > 1 {
      var subtotal := base * multiplier;
      var off := subtotal * percent / 100;
      base := subtotal - off;
    }
    discount := 0;
    if coupon.Some? {
      if ValidFor(coupon.value, plan, now) {
        discount := ComputeDiscount(coupon.value, base);
      }
    }
    price := Max(0, base - discount);
    shortfall := Max(0, price - balance);
    balanceAfter := if shortfall == 0 then balance - price else 0;
  }

  // ---- The three agree ----

  /** A plan bought at its listed price is charged what the cart and the quote show exactly when its
      product is not marked FREE while carrying a price that coupons leave above zero. */
  lemma ChargeAgreesIff(offer: Offer, plan: nat, coupon: Option<Coupon>, multiplier: nat, now: int)
    requires offer.product != CONTACT
    ensures var line := CartLine(offer, plan, coupon, multiplier, now);
            (match CheckoutCharge(offer, plan, coupon, None, multiplier, now)
             case FreeOrder => line.0 == 0
             case Priced(amount, discount) => amount == line.0 && discount == line.1
             case ContactOnly => false)
            <==> offer.product != FREE || line.0 == 0
  {
  }

  ghost predicate SaneDurations(offer: Offer)
  {
    forall k :: k in offer.durations ==> 0 <= offer.durations[k] <= 100
  }

  lemma PercentOf(amount: int, percent: int)
    requires amount >= 0 && percent >= 0
    ensures 0 <= amount * percent / 100
    ensures 100 * (amount * percent / 100) <= amount * percent < 100 * (amount * percent / 100) + 100
    ensures percent <= 100 ==> amount * percent / 100 <= amount
  {
  }

  lemma DurationBounds(offer: Offer, dm: nat)
    requires SaneDurations(offer)
    ensures offer.price * dm >= 0 && 0 <= DurationPrice(offer, dm) <= offer.price * dm
    ensures 100 * (offer.price * dm - DurationPrice(offer, dm)) <= offer.price * dm * DurationPercent(offer, dm)
            < 100 * (offer.price * dm - DurationPrice(offer, dm)) + 100
  {
    assert offer.price * dm >= 0;
    PercentOf(offer.price * dm, DurationPercent(offer, dm));
  }

  lemma CouponBounds(c: Coupon, base: int)
    requires base >= 0
    ensures 0 <= ComputeDiscount(c, base) <= base
    ensures c.discountType == PERCENT && c.maxDiscount == 0 && c.value <= 100 ==>
              100 * ComputeDiscount(c, base) <= base * c.value < 100 * ComputeDiscount(c, base) + 100
    ensures c.discountType == FIXED ==> ComputeDiscount(c, base) == Min(c.value, base)
  {
    PercentOf(base, c.value);
  }

  /** With duration discounts in 0..100 every line satisfies 0 <= discount <= base and
      price = base - discount; the base and an uncapped percentage are exact floors, within one
      hundredth from below. */
  lemma LineBounds(offer: Offer, plan: nat, coupon: Option<Coupon>, multiplier: nat, now: int)
    requires SaneDurations(offer)
    ensures var (price, discount, base) := CartLine(offer, plan, coupon, multiplier, now);
            var dm := if offer.interval != NONE then Max(1, multiplier) else 1;
            && 0 <= discount <= base <= offer.price * dm && price == base - discount
            && (dm > 1 ==>
                  100 * (offer.price * dm - base) <= offer.price * dm * DurationPercent(offer, dm)
                  < 100 * (offer.price * dm - base) + 100)
            && (coupon.Some? && ValidFor(coupon.value, plan, now) && coupon.value.discountType == PERCENT
                && coupon.value.maxDiscount == 0 && coupon.value.value <= 100 ==>
                  100 * discount <= base * coupon.value.value < 100 * discount + 100)
            && (coupon.Some? && ValidFor(coupon.value, plan, now) && coupon.value.discountType == FIXED ==>
                  discount == Min(coupon.value.value, base))
  {
    hide DurationPrice, DurationPercent, ComputeDiscount, ValidFor;
    DurationBounds(offer, if offer.interval != NONE then Max(1, multiplier) else 1);
    if coupon.Some? {
      CouponBounds(coupon.value, CartLine(offer, plan, coupon, multiplier, now).2);
    }
  }

  // ---- Coupons and named prices ----

  /** Why a coupon does not count: it is switched off, not yet or no longer valid, used up, or for other
      plans. */
  lemma ValidForIff(c: Coupon, plan: nat, now: int)
    ensures !ValidFor(c, plan, now) <==>
            || !c.active
            || (c.validFrom.Some? && now < c.validFrom.value)
            || (c.validUntil.Some? && c.validUntil.value < now)
            || (c.usageLimit != 0 && c.usageLimit <= c.usedCount)
            || (c.plans != {} && plan !in c.plans)
  {
  }

  /** `d` is within what the coupon grants on `amount`. */
  predicate Grants(c: Coupon, amount: int, d: int)
  {
    && d <= amount
    && match c.discountType
       case PERCENT => 100 * d <= amount * c.value && (c.maxDiscount != 0 ==> d <= c.maxDiscount)
       case FIXED => d <= c.value
  }

  /** A coupon takes off the most that it grants: its percentage rounded down, or its fixed amount, within
      its cap and the price. */
  lemma DiscountIsMost(c: Coupon, amount: int, d: int)
    requires amount >= 0
    ensures Grants(c, amount, ComputeDiscount(c, amount)) && ComputeDiscount(c, amount) >= 0
    ensures Grants(c, amount, d) ==> d <= ComputeDiscount(c, amount)
  {
    PercentOf(amount, c.value);
  }

  /** A cart line without a valid coupon is at full price; with one, the coupon's discount comes off, and
      the price is never negative. */
  lemma LineIff(offer: Offer, plan: nat, coupon: Option<Coupon>, multiplier: nat, now: int)
    ensures var (price, discount, base) := CartLine(offer, plan, coupon, multiplier, now);
            && price == Max(0, base - discount)
            && discount == (if coupon.Some? && ValidFor(coupon.value, plan, now) then ComputeDiscount(coupon.value, base) else 0)
            && (offer.interval == NONE || multiplier <= 1 ==> base == offer.price)
            && (offer.interval != NONE && multiplier > 1 ==>
                  var subtotal := offer.price * multiplier;
                  base == subtotal - subtotal * (if multiplier in offer.durations then offer.durations[multiplier] else 0) / 100)
            && LinePrice(now)(Item(offer, plan, coupon, multiplier)) == price
  {
  }

  /** Pay what you want: for such plans the buyer's price, from the minimum on, takes the place of the
      listed one, with durations and coupons as ever; a named price that comes to nothing, or one for any
      other plan, is not looked at. */
  lemma NamedPriceIff(offer: Offer, plan: nat, coupon: Option<Coupon>, named: int, multiplier: int, now: int)
    ensures var price := if named < offer.minPrice then offer.minPrice else named;
            CheckoutCharge(offer, plan, coupon, Some(named), multiplier, now)
            == CheckoutCharge(if offer.pwyw && price > 0 then offer.(price := price) else offer, plan, coupon, None, multiplier, now)
  {
  }

  /** What the listed price comes to at checkout: nothing to pay for free products and prices of zero, no
      sale for contact products, otherwise the price of the duration less the coupon's discount. */
  lemma ListedPriceIff(offer: Offer, plan: nat, coupon: Option<Coupon>, multiplier: nat, now: int)
    ensures var (price, discount, base) := CartLine(offer, plan, coupon, multiplier, now);
            CheckoutCharge(offer, plan, coupon, None, multiplier, now)
            == match offer.product
               case CONTACT => ContactOnly
               case FREE => FreeOrder
               case _ => if offer.price == 0 then FreeOrder else Priced(price, discount)
  {
  }
}
