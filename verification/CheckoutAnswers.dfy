/** What the callers of checkout, refunds and adjustments are answered, and what is left behind. */
module CheckoutAnswers {
  import opened Prelude
  import opened Keys
  import opened Ledger
  import opened Calendar
  import opened Billing
  import opened Conservation
  import opened BillingInvariants
  import opened Fulfilment
  import opened Funding
  import Lifecycle
  import Pricing

  // ---- Direct checkout ----

  /** A free order: paid at once, never charged or numbered, without coupon and subscription. */
  function FreeOrderOf(p: Purchase): Order
  {
    Order(p.customer, p.plan, 0, 0, None, PAID, false, p.key, None, None, 1, None, WALLET)
  }

  /** A free checkout goes through exactly when everything can be provisioned. It then adds its order, one
      active grant a deliverable and one active license a license key, and no subscription; a seller's
      product earns a row of zeros. Otherwise the database is as it was. */
  lemma FreeCheckoutIff(t: Tables, p: Purchase)
    requires Inv(t)
    ensures var id, (t2, outcome) := |t.orders|, FreeCheckout(t, p);
            && (outcome == Fulfilled(id) <==> Provisionable(t.plans, p.plan))
            && (outcome != Fulfilled(id) ==> t2 == t && outcome.Refused?)
            && (outcome == Fulfilled(id) ==>
                  && t2 == t.(orders := t.orders + [FreeOrderOf(p)], access := t2.access, earnings := t2.earnings)
                  && t2.access.subs == t.access.subs
                  && p.plan < |t.plans| && var plan := t.plans[p.plan];
                     && Granted(t.access, t2.access, FreeOrderOf(p), id, plan.deliverables)
                     && Lifecycle.LicensesIssued(t.access, t2.access, p.customer, None, plan.seats, plan.deliverables)
                     && t2.earnings == t.earnings + (if plan.seller.Some? then [Earning(id, plan.seller.value.id, 0, 0, 0)] else []))
  {
    hide Money, Coupons, Invoices, Lifecycle.Provision, Lifecycle.LicensesIssued;
    if p.plan < |t.plans| {
      var plan := t.plans[p.plan];
      Lifecycle.ProvisionMeaning(t.access, p.customer, |t.orders|, None, plan.seats, plan.deliverables);
      InvEarnings(t);
      NotEarned(t.earnings, t.orders);
    }
  }

  /** The plan's product has a seller who takes static QRIS. */
  predicate QrisReady(t: Tables, plan: nat)
  {
    plan < |t.plans| && t.plans[plan].seller.Some? && t.plans[plan].seller.value.qrisReady
  }

  /** The answers to a purchase at a price under a new key, in every case: QRIS waits for the seller; a
      wallet that was seen to cover the price pays it now; otherwise a payment method is needed, and the
      order waits with a top-up for exactly what is missing, which stays behind, as does the order, if the
      gateway is down. */
  lemma PricedAnswers(t: Tables, p: Purchase, charge: Pricing.Charge, pay: Method, direct: bool, seen: int, up: bool, now: Instant)
    requires !KeyUsed(t.orders, p.key) && RowsExist(t, p) && charge.Priced? && charge.amount >= 0 && charge.discount >= 0
    ensures var id, (t2, outcome) := |t.orders|, Checkout(t, p, charge, pay, direct, seen, up, now);
            var q := p.(amount := charge.amount, discount := charge.discount);
            var missing := charge.amount - if direct then 0 else seen;
            var waiting := t.(orders := t.orders + [NewOrder(q, None, WALLET)]);
            if pay == StaticQris then
              if QrisReady(t, p.plan) then
                outcome == Awaiting(id) && t2 == t.(orders := t.orders + [NewOrder(q, None, QRIS_STATIC)])
              else outcome == Refused(QrisNotAvailable) && t2 == t
            else if !direct && seen >= charge.amount then outcome == Fulfilled(id) || (outcome.Refused? && t2 == t)
            else if pay == Unspecified then outcome == Refused(PaymentMethodRequired) && t2 == t
            else if missing <= 0 then outcome == Refused(InvalidAmount) && t2 == waiting
            else
              var topUp := TopUp(p.customer, missing, 0, AWAITING, if up then Some(id) else None, None);
              outcome == (if up then Awaiting(id) else Refused(GatewayDown)) && t2 == waiting.(topups := t.topups + [topUp])
  {
    hide Fulfil;
  }

  /** The other answers: no contact plan is sold here, no negative price, and nothing that refers to rows
      that do not exist; a free one takes the free branch. */
  lemma OtherAnswers(t: Tables, p: Purchase, charge: Pricing.Charge, pay: Method, direct: bool, seen: int, up: bool, now: Instant)
    requires !KeyUsed(t.orders, p.key)
    ensures var result := Checkout(t, p, charge, pay, direct, seen, up, now);
            && (charge.ContactOnly? ==> result == (t, Refused(ContactPlan)))
            && (!charge.ContactOnly? && !RowsExist(t, p) ==> result == (t, Refused(MissingRow)))
            && (charge.FreeOrder? && RowsExist(t, p) ==> result == FreeCheckout(t, p))
            && (charge.Priced? && RowsExist(t, p) && (charge.amount < 0 || charge.discount < 0) ==> result == (t, Refused(InvalidAmount)))
  {
    hide FreeCheckout, PricedCheckout;
  }

  // ---- Cart ----

  /** The order of a line, pending on a channel. */
  function LineOrder(b: Basket, l: Line, channel: Channel): Order
  {
    NewOrder(PurchaseOf(b, l), Some(b.checkout), channel)
  }

  /** The rows a line refers to exist, and its key is new. */
  predicate LineNew(t: Tables, b: Basket, l: Line)
  {
    RowsExist(t, PurchaseOf(b, l)) && !KeyUsed(t.orders, CartKey(b.cartRow, l.item))
  }

  ghost predicate LinesNew(t: Tables, b: Basket, lines: seq<Line>)
  {
    && (forall k :: 0 <= k < |lines| ==> LineNew(t, b, lines[k]))
    && (forall j, k :: 0 <= j < k < |lines| ==> lines[j].item != lines[k].item)
  }

  ghost predicate Pends(t: Tables, t2: Tables, b: Basket, lines: seq<Line>, channel: Channel)
  {
    && t2 == t.(orders := t2.orders) && |t2.orders| == |t.orders| + |lines| && t.orders <= t2.orders
    && forall k :: 0 <= k < |lines| ==> t2.orders[|t.orders| + k] == LineOrder(b, lines[k], channel)
  }

  lemma PendStep(t: Tables, mid: Tables, b: Basket, front: seq<Line>, l: Line, channel: Channel)
    requires Pends(t, mid, b, front, channel)
    ensures LineNew(mid, b, l) <==> LineNew(t, b, l) && forall j :: 0 <= j < |front| ==> front[j].item != l.item
    ensures LineNew(mid, b, l) ==>
              Pends(t, AddOrder(mid, LineOrder(b, l, channel)), b, front + [l], channel)
  {
    var key, n := CartKey(b.cartRow, l.item), |t.orders|;
    assert forall j :: 0 <= j < |front| ==> mid.orders[n + j].key == CartKey(b.cartRow, front[j].item);
    if KeyUsed(mid.orders, key) {
      var i :| 0 <= i < |mid.orders| && mid.orders[i].key == key;
      if i < n {
        assert t.orders[i].key == key;
      } else {
        assert mid.orders[n + (i - n)].key == CartKey(b.cartRow, front[i - n].item);
      }
    }
    if KeyUsed(t.orders, key) {
      var i :| 0 <= i < n && t.orders[i].key == key;
      assert mid.orders[i].key == key;
    }
    forall j | 0 <= j < |front| && front[j].item == l.item ensures KeyUsed(mid.orders, key) {
      assert mid.orders[n + j].key == key;
    }
  }

  lemma NewSplit(t: Tables, b: Basket, front: seq<Line>, l: Line)
    ensures LinesNew(t, b, front + [l]) <==>
              LinesNew(t, b, front) && LineNew(t, b, l) && forall j :: 0 <= j < |front| ==> front[j].item != l.item
  {
    hide LineNew;
    var lines := front + [l];
    assert lines[|front|] == l && forall k :: 0 <= k < |front| ==> lines[k] == front[k];
    if LinesNew(t, b, front + [l]) {
      assert forall j :: 0 <= j < |front| ==> lines[j].item != lines[|front|].item;
    }
  }

  /** The lines of a cart become pending orders exactly when all they refer to exists and no line was
      ordered before or repeats. */
  lemma {:induction false} PendLinesIff(t: Tables, b: Basket, lines: seq<Line>, channel: Channel)
    ensures PendLines(t, b, lines, channel).Ok? <==> LinesNew(t, b, lines)
    ensures PendLines(t, b, lines, channel).Ok? ==> Pends(t, PendLines(t, b, lines, channel).value, b, lines, channel)
  {
    if lines != [] {
      hide LineNew, LinesNew, Pends;
      var front, l := lines[..|lines| - 1], lines[|lines| - 1];
      assert lines == front + [l];
      PendLinesIff(t, b, front, channel);
      NewSplit(t, b, front, l);
      if PendLines(t, b, front, channel).Ok? {
        PendStep(t, PendLines(t, b, front, channel).value, b, front, l, channel);
        AddLineIff(PendLines(t, b, front, channel).value, b, l, channel);
      }
    }
  }

  lemma AddLineIff(t: Tables, b: Basket, l: Line, channel: Channel)
    ensures AddLine(t, b, l, channel).Ok? <==> LineNew(t, b, l)
    ensures AddLine(t, b, l, channel).Ok? ==> AddLine(t, b, l, channel).value == AddOrder(t, LineOrder(b, l, channel))
  {
  }

  /** All lines are of plans of one and the same seller, who takes static QRIS. */
  ghost predicate SoldByOne(t: Tables, lines: seq<Line>)
  {
    lines != []
    && exists seller: Seller :: seller.qrisReady && forall l :: l in lines ==>
         l.plan < |t.plans| && t.plans[l.plan].seller.Some? && t.plans[l.plan].seller.value.id == seller.id
         && (l == lines[0] ==> t.plans[l.plan].seller.value == seller)
  }

  lemma OneSellerIff(t: Tables, lines: seq<Line>)
    ensures OneReadySeller(t, lines) <==> SoldByOne(t, lines)
  {
    if OneReadySeller(t, lines) {
      var seller := t.plans[lines[0].plan].seller.value;
      assert seller.qrisReady && forall l :: l in lines ==>
         l.plan < |t.plans| && t.plans[l.plan].seller.Some? && t.plans[l.plan].seller.value.id == seller.id
         && (l == lines[0] ==> t.plans[l.plan].seller.value == seller);
    }
    if SoldByOne(t, lines) {
      assert lines[0] in lines;
      assert forall i :: 0 <= i < |lines| ==> lines[i] in lines;
    }
  }

  /** The checked-out items have left the cart, if there is such a cart row. */
  predicate LeftCart(t: Tables, t2: Tables, b: Basket, lines: seq<Line>)
  {
    t2.carts == if b.cartRow in t.carts then t.carts[b.cartRow := t.carts[b.cartRow] - ItemsOf(lines)] else t.carts
  }

  /** A cart that waits: its orders pending under a new checkout that is not completed, its items gone
      from the cart, and everything else as it was but for a top-up. */
  ghost predicate Waits(t: Tables, t2: Tables, b: Basket, lines: seq<Line>, channel: Channel, topups: seq<TopUp>)
  {
    && t2.checkouts == t.checkouts + [false] && LeftCart(t, t2, b, lines) && t2.topups == t.topups + topups
    && Pends(t.(checkouts := t2.checkouts, carts := t2.carts, topups := t2.topups), t2, b, lines, channel)
  }

  /** The answers to a cart checkout that is not paid from the balance, in every case. */
  lemma CartAnswers(t: Tables, customer: nat, cartRow: nat, lines: seq<Line>, pay: Method, seen: int, up: bool, now: Instant)
    ensures var b := Basket(customer, cartRow, |t.checkouts|);
            var (t2, failure) := CheckoutCart(t, customer, cartRow, lines, pay, seen, up, now);
            var missing := Sum(lines, LineAmount()) - seen;
            if lines == [] then failure == Some(EmptyCart) && t2 == t
            else if pay == StaticQris then
              && (failure.None? <==> SoldByOne(t, lines) && LinesNew(t, b, lines))
              && (failure == Some(QrisNotAvailable) <==> !SoldByOne(t, lines))
              && (if failure.None? then Waits(t, t2, b, lines, QRIS_STATIC, []) else t2 == t)
            else if missing > 0 then
              && (failure == Some(PaymentMethodRequired) <==> pay == Unspecified)
              && (failure.None? <==> pay == Gateway && LinesNew(t, b, lines) && up)
              && (failure == Some(GatewayDown) <==> pay == Gateway && LinesNew(t, b, lines) && !up)
              && (if failure.None? then
                    Waits(t, t2, b, lines, WALLET, [TopUp(customer, missing, 0, AWAITING, None, Some(b.checkout))])
                  else t2 == t)
            else (t2, failure) == CartFromBalance(t, b, lines, now)
  {
    hide CartFromBalance, PendLines, OneReadySeller, SoldByOne, LinesNew, ItemsOf;
    var b := Basket(customer, cartRow, |t.checkouts|);
    var begun := t.(checkouts := t.checkouts + [false]);
    OneSellerIff(t, lines);
    PendLinesIff(begun, b, lines, WALLET);
    PendLinesIff(begun, b, lines, QRIS_STATIC);
    SameNew(t, begun, b, lines);
    PendFailures(begun, b, lines, WALLET);
    PendFailures(begun, b, lines, QRIS_STATIC);
  }

  lemma SameNew(t: Tables, t2: Tables, b: Basket, lines: seq<Line>)
    requires t2.plans == t.plans && t2.orders == t.orders && t2.coupons == t.coupons
    ensures LinesNew(t2, b, lines) <==> LinesNew(t, b, lines)
  {
  }

  lemma {:induction false} PendFailures(t: Tables, b: Basket, lines: seq<Line>, channel: Channel)
    ensures var r := PendLines(t, b, lines, channel);
            r.Err? ==> r.error == DuplicateKey || r.error == MissingRow
  {
    if lines != [] {
      PendFailures(t, b, lines[..|lines| - 1], channel);
    }
  }

  // ---- Top-ups, refunds, adjustments ----

  /** A top-up is opened exactly for a positive amount and a bonus that is not negative. */
  lemma NewTopUpIff(t: Tables, customer: nat, amount: int, bonus: int)
    ensures NewTopUp(t, customer, amount, bonus)
            == if amount >= 1 && bonus > -1 then
                 Some(t.(topups := t.topups + [TopUp(customer, amount, bonus, AWAITING, None, None)]))
               else None
  {
  }

  /** A customer's refund request is taken exactly for a PAID order of the customer's own, with a reason,
      and if no request was seen before. */
  lemma RequestIff(t: Tables, customer: nat, order: nat, reason: string, existing: bool)
    ensures var t2 := RequestRefund(t, customer, order, reason, existing);
            && (t2 != t <==>
                  && order < |t.orders| && t.orders[order].customer == customer && t.orders[order].status == PAID
                  && reason != "" && !existing)
            && (t2 != t ==> t2 == t.(refunds := t.refunds + [Refund(customer, Some(order), REQUESTED)]))
  {
    assert t.refunds + [Refund(customer, Some(order), REQUESTED)] != t.refunds;
  }

  /** A refund is rejected exactly while it is requested, with a note, and nothing else changes. */
  lemma RejectionIff(t: Tables, r: nat, note: string)
    ensures var t2 := RejectRefund(t, r, note);
            && (t2 != t <==> r < |t.refunds| && t.refunds[r].status == REQUESTED && note != "")
            && (t2 != t ==> r < |t.refunds| && t2 == t.(refunds := t.refunds[r := t.refunds[r].(status := REJECTED)]))
  {
    if r < |t.refunds| {
      assert t.refunds[r := t.refunds[r].(status := REJECTED)][r].status == REJECTED;
    }
  }

  /** A manual credit under a new token raises the customer's balance by exactly its amount, if it is
      positive, has a reason, and the customer a wallet; otherwise, and under a used token, nothing moves. */
  lemma ManualCreditIff(t: Tables, customer: nat, amount: int, reason: string, token: string)
    requires Inv(t)
    ensures var t2 := ManualCredit(t, customer, amount, reason, token);
            var counts := amount > 0 && reason != "" && customer in t.books.balances && !Recorded(t.books.entries, AdjustmentRef(token));
            && t2 == t.(books := t2.books)
            && (forall c :: BalanceOf(t2.books, c) == BalanceOf(t.books, c) + if counts && c == customer then amount else 0)
            && |t2.books.entries| == |t.books.entries| + if counts then 1 else 0
  {
    hide Coupons, Invoices, Earnings, Recorded;
    PostEffect(t.books, Request(customer, Crediting, amount, ADJUSTMENT, AdjustmentRef(token)));
  }

  // ---- The rows themselves ----

  /** The order of a purchase, field by field: pending, unpaid, with its coupon only if that takes
      something off. A cart line's carries the cart's key for its item. */
  lemma OrderRows(p: Purchase, b: Basket, l: Line, channel: Channel)
    ensures NewOrder(p, None, channel)
            == Order(p.customer, p.plan, p.amount, p.discount, if p.discount == 0 then None else p.coupon,
                     PENDING, false, p.key, None, None, p.duration, None, channel)
    ensures LineOrder(b, l, channel)
            == Order(b.customer, l.plan, l.amount, l.discount, if l.discount == 0 then None else l.coupon,
                     PENDING, false, CartKey(b.cartRow, l.item), None, None, l.duration, Some(b.checkout), channel)
  {
  }

  /** A cart keeps exactly the items that no line checked out. */
  lemma LeftCartIff(t: Tables, t2: Tables, b: Basket, lines: seq<Line>)
    requires LeftCart(t, t2, b, lines)
    ensures t2.carts.Keys == t.carts.Keys
    ensures forall cart :: cart in t.carts && cart != b.cartRow ==> t2.carts[cart] == t.carts[cart]
    ensures b.cartRow in t.carts ==>
              forall item :: item in t2.carts[b.cartRow] <==>
                item in t.carts[b.cartRow] && forall k :: 0 <= k < |lines| ==> lines[k].item != item
  {
  }
}
