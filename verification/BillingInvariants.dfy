/** What every run of billing keeps: conservation of money, coupon caps, invoice numbers, and rows that
    only move forward. */
module BillingInvariants {
  import opened Prelude
  import opened Keys
  import opened Ledger
  import opened Calendar
  import opened Billing
  import opened Conservation
  import Lifecycle
  import Pricing

  // ---- Coupons ----

  /** A numbered order that carries a discount under coupon `k`. */
  function Redeemed(k: nat): Order -> int
  {
    (o: Order) => if o.invoice.Some? && UsesCoupon(o) && o.coupon == Some(k) then 1 else 0
  }

  /** How often a coupon has been counted after `n` redemptions. */
  function Counted(limit: nat, n: int): int { if limit == 0 then n else Min(limit, n) }

  ghost predicate CouponExact(c: CouponRow, k: nat, os: seq<Order>)
  {
    c.used == Counted(c.limit, Sum(os, Redeemed(k)))
  }

  ghost predicate Coupons(cs: seq<CouponRow>, os: seq<Order>)
  {
    && (forall k :: 0 <= k < |cs| ==> CouponExact(cs[k], k, os))
    && (forall i :: 0 <= i < |os| && os[i].coupon.Some? ==> os[i].coupon.value < |cs|)
  }

  // ---- Invoices ----

  ghost predicate Numbered(os: seq<Order>, n: nat)
  {
    exists i :: 0 <= i < |os| && os[i].invoice == Some(n)
  }

  ghost predicate DistinctInvoices(os: seq<Order>)
  {
    forall i, j :: 0 <= i < j < |os| && os[i].invoice.Some? ==> os[i].invoice != os[j].invoice
  }

  /** The numbers in use are exactly 1..n, each used once. */
  ghost predicate Invoices(os: seq<Order>)
  {
    DistinctInvoices(os) && forall n: nat :: Numbered(os, n) <==> 1 <= n <= MaxInvoice(os)
  }

  lemma {:induction false} MaxInvoiceMeaning(os: seq<Order>)
    ensures forall n: nat :: Numbered(os, n) ==> n <= MaxInvoice(os)
    ensures MaxInvoice(os) > 0 ==> Numbered(os, MaxInvoice(os))
  {
    if os != [] {
      var front := os[..|os| - 1];
      MaxInvoiceMeaning(front);
      forall n: nat | Numbered(os, n) ensures n <= MaxInvoice(os) {
        var i :| 0 <= i < |os| && os[i].invoice == Some(n);
        if i < |front| {
          assert front[i].invoice == Some(n);
          assert Numbered(front, n);
        }
      }
      if MaxInvoice(os) > 0 && Numbered(front, MaxInvoice(os)) {
        var i :| 0 <= i < |front| && front[i].invoice == Some(MaxInvoice(os));
        assert os[i].invoice == Some(MaxInvoice(os));
      }
    }
  }

  lemma SameNumbers(os: seq<Order>, os2: seq<Order>)
    requires |os| <= |os2|
    requires forall i :: 0 <= i < |os| ==> os2[i].invoice == os[i].invoice
    requires forall i :: |os| <= i < |os2| ==> os2[i].invoice.None?
    requires Invoices(os)
    ensures Invoices(os2)
  {
    forall n: nat ensures Numbered(os2, n) <==> Numbered(os, n) {
      if Numbered(os, n) {
        var i :| 0 <= i < |os| && os[i].invoice == Some(n);
        assert os2[i].invoice == Some(n);
      }
    }
    MaxInvoiceMeaning(os);
    MaxInvoiceMeaning(os2);
  }

  lemma NextNumber(os: seq<Order>, id: nat, o: Order)
    requires Invoices(os) && id < |os| && os[id].invoice.None? && o.invoice == Some(MaxInvoice(os) + 1)
    ensures Invoices(os[id := o])
  {
    var os2, m := os[id := o], MaxInvoice(os) + 1;
    MaxInvoiceMeaning(os);
    MaxInvoiceMeaning(os2);
    forall n: nat ensures Numbered(os2, n) <==> Numbered(os, n) || n == m {
      if Numbered(os, n) {
        var i :| 0 <= i < |os| && os[i].invoice == Some(n);
        assert os2[i].invoice == Some(n);
      }
      assert os2[id].invoice == Some(m);
    }
    assert Numbered(os2, m);
    forall i, j | 0 <= i < j < |os2| && os2[i].invoice.Some? ensures os2[i].invoice != os2[j].invoice {
      if i == id && os[j].invoice.Some? {
        assert Numbered(os, os[j].invoice.value);
      } else if j == id {
        assert Numbered(os, os[i].invoice.value);
      }
    }
  }

  // ---- Coupon steps ----

  ghost predicate SameCoupon(o: Order, p: Order)
  {
    p.coupon == o.coupon && p.discount == o.discount && p.invoice == o.invoice
  }

  lemma SameRedemptions(cs: seq<CouponRow>, os: seq<Order>, os2: seq<Order>)
    requires Coupons(cs, os) && |os| <= |os2|
    requires forall i :: 0 <= i < |os| ==> SameCoupon(os[i], os2[i])
    requires forall i :: |os| <= i < |os2| ==>
               os2[i].invoice.None? && (os2[i].coupon.Some? ==> os2[i].coupon.value < |cs|)
    ensures Coupons(cs, os2)
  {
    forall k | 0 <= k < |cs| ensures CouponExact(cs[k], k, os2) {
      SumPadded(os, os2, Redeemed(k));
    }
  }

  lemma NextRedemption(cs: seq<CouponRow>, os: seq<Order>, id: nat, o: Order, path: Path)
    requires Coupons(cs, os) && id < |os| && os[id].invoice.None? && o.invoice.Some?
    requires o.coupon == os[id].coupon && o.discount == os[id].discount
    requires UseCoupon(cs, os[id], path).Some?
    ensures Coupons(UseCoupon(cs, os[id], path).value, os[id := o])
  {
    var cs2 := UseCoupon(cs, os[id], path).value;
    forall k | 0 <= k < |cs2| ensures CouponExact(cs2[k], k, os[id := o]) {
      assert CouponExact(cs[k], k, os);
      SumUpdate(os, id, o, Redeemed(k));
    }
  }

  lemma NewCouponUnused(cs: seq<CouponRow>, os: seq<Order>, limit: nat)
    requires Coupons(cs, os)
    ensures Coupons(cs + [CouponRow(limit, 0)], os)
  {
    var cs2 := cs + [CouponRow(limit, 0)];
    forall k | 0 <= k < |cs2| ensures CouponExact(cs2[k], k, os) {
      if k < |cs| {
        assert CouponExact(cs[k], k, os);
      } else {
        SumPadded([], os, Redeemed(k));
      }
    }
  }

  // ---- Seller earnings ----

  ghost predicate EarnedFrom(e: Earning, os: seq<Order>)
  {
    e.order < |os| && os[e.order].status != PENDING && e.gross == os[e.order].amount && e.commission + e.net == e.gross
  }

  /** At most one earning an order, of its amount, shared between platform and seller. */
  ghost predicate Earnings(earnings: seq<Earning>, os: seq<Order>)
  {
    && (forall k :: 0 <= k < |earnings| ==> EarnedFrom(earnings[k], os))
    && (forall k, l :: 0 <= k < l < |earnings| ==> earnings[k].order != earnings[l].order)
  }

  lemma EarningsStay(earnings: seq<Earning>, os: seq<Order>, os2: seq<Order>)
    requires Earnings(earnings, os) && OrdersGrow(os, os2)
    ensures Earnings(earnings, os2)
  {
  }

  lemma EarningAdded(earnings: seq<Earning>, os: seq<Order>, id: nat, o: Order, plan: Plan, path: Path)
    requires Earnings(earnings, os) && id < |os| && os[id].status != PENDING && o.amount == os[id].amount
    ensures Earnings(RecordEarning(earnings, id, o, plan, path), os)
  {
  }

  // ---- Rows move forward ----

  ghost predicate OrderGrows(o: Order, p: Order)
  {
    && p == o.(status := p.status, charged := p.charged, sub := p.sub, invoice := p.invoice)
    && (o.charged ==> p.charged)
    && (o.invoice.Some? ==> p.invoice == o.invoice)
    && (p.status == PENDING ==> p == o)
  }

  ghost predicate TopUpGrows(u: TopUp, v: TopUp)
  {
    && v == u.(status := v.status, order := v.order, cart := v.cart)
    && (u.status == SETTLED ==> v.status == SETTLED)
    && (v.status == AWAITING ==> u.status == AWAITING)
  }

  ghost predicate OrdersGrow(os: seq<Order>, os2: seq<Order>)
  {
    |os| <= |os2| && forall i :: 0 <= i < |os| ==> OrderGrows(os[i], os2[i])
  }

  ghost predicate TopUpsGrow(us: seq<TopUp>, us2: seq<TopUp>)
  {
    |us| <= |us2| && forall i :: 0 <= i < |us| ==> TopUpGrows(us[i], us2[i])
  }

  /** Entries are appended, amounts and invoice numbers never change, PAID top-ups and debited orders
      stay so, and wallets stay open. */
  ghost predicate Grows(t: Tables, t2: Tables)
  {
    && t.books.entries <= t2.books.entries
    && t.books.balances.Keys <= t2.books.balances.Keys
    && OrdersGrow(t.orders, t2.orders) && TopUpsGrow(t.topups, t2.topups)
    && t.hooks.Keys <= t2.hooks.Keys && |t.checkouts| <= |t2.checkouts|
  }

  lemma GrowsTrans(a: Tables, b: Tables, c: Tables)
    requires Grows(a, b) && Grows(b, c)
    ensures Grows(a, c)
  {
  }

  // ---- The invariant ----

  ghost predicate Inv(t: Tables)
  {
    && Money(t.books, t.topups, t.orders, t.refunds) && Coupons(t.coupons, t.orders) && Invoices(t.orders)
    && Earnings(t.earnings, t.orders) && CartsKnown(t.orders, |t.checkouts|) && DistinctKeys(t.orders)
  }

  /** One idempotency key names at most one order. */
  ghost predicate DistinctKeys(os: seq<Order>)
  {
    forall i, j :: 0 <= i < j < |os| ==> os[i].key != os[j].key
  }

  lemma KeysStay(os: seq<Order>, os2: seq<Order>)
    requires DistinctKeys(os) && OrdersGrow(os, os2) && |os2| == |os|
    ensures DistinctKeys(os2)
  {
    forall i, j | 0 <= i < j < |os2| ensures os2[i].key != os2[j].key {
      assert OrderGrows(os[i], os2[i]) && OrderGrows(os[j], os2[j]);
    }
  }

  lemma KeyAdded(os: seq<Order>, o: Order)
    requires DistinctKeys(os) && !KeyUsed(os, o.key)
    ensures DistinctKeys(os + [o])
  {
  }

  ghost predicate CartsKnown(os: seq<Order>, n: nat)
  {
    forall i :: 0 <= i < |os| && os[i].cart.Some? ==> os[i].cart.value < n
  }

  /** Every top-up keeps its status. */
  ghost predicate Quiet(us: seq<TopUp>, us2: seq<TopUp>)
  {
    forall i :: 0 <= i < |us| && i < |us2| ==> us2[i].status == us[i].status
  }

  /** What every step but the outcome of a payment does. */
  ghost predicate Kept(t: Tables, t2: Tables)
  {
    Inv(t2) && Grows(t, t2) && Quiet(t.topups, t2.topups)
  }

  lemma KeptTrans(a: Tables, b: Tables, c: Tables)
    requires Kept(a, b) && Kept(b, c)
    ensures Kept(a, c)
  {
    GrowsTrans(a, b, c);
  }

  lemma InsertKeeps(t: Tables, o: Order)
    requires Inv(t) && Fresh(o) && (o.coupon.Some? ==> o.coupon.value < |t.coupons|)
    requires (o.cart.Some? ==> o.cart.value < |t.checkouts|) && !KeyUsed(t.orders, o.key)
    ensures Kept(t, AddOrder(t, o))
  {
    MoneyOrders(t.books, t.topups, t.orders, t.orders + [o], t.refunds);
    SameRedemptions(t.coupons, t.orders, t.orders + [o]);
    SameNumbers(t.orders, t.orders + [o]);
    EarningsStay(t.earnings, t.orders, t.orders + [o]);
    KeyAdded(t.orders, o);
  }

  lemma StatusKeeps(t: Tables, id: nat, status: OrderStatus)
    requires Inv(t) && id < |t.orders| && status != PENDING
    ensures Kept(t, t.(orders := t.orders[id := t.orders[id].(status := status)]))
  {
    var os2 := t.orders[id := t.orders[id].(status := status)];
    MoneyOrders(t.books, t.topups, t.orders, os2, t.refunds);
    SameRedemptions(t.coupons, t.orders, os2);
    SameNumbers(t.orders, os2);
    EarningsStay(t.earnings, t.orders, os2);
    KeysStay(t.orders, os2);
  }

  lemma PendingFresh(t: Tables, id: nat)
    requires Inv(t) && id < |t.orders| && t.orders[id].status == PENDING
    ensures Fresh(t.orders[id])
  {
  }

  lemma FulfilKeeps(t: Tables, id: nat, path: Path, now: Instant)
    requires Inv(t) && id < |t.orders| && t.orders[id].status == PENDING && Fulfil(t, id, path, now).Ok?
    ensures Kept(t, Fulfil(t, id, path, now).value)
  {
    hide Accounts, Sound, Post, Coupons, Invoices, MaxInvoice, Lifecycle.Provision, WithSubscription, RecordEarning, UseCoupon;
    PendingFresh(t, id);
    var o, t2 := t.orders[id], Fulfil(t, id, path, now).value;
    var p := t2.orders[id];
    NextRedemption(t.coupons, t.orders, id, p, path);
    NextNumber(t.orders, id, p);
    EarningsStay(t.earnings, t.orders, t2.orders);
    EarningAdded(t.earnings, t2.orders, id, o, t.plans[o.plan], path);
    KeysStay(t.orders, t2.orders);
    if Debits(o, path) {
      MoneyCharge(t.books, t.topups, t.orders, t.refunds, id, p);
    } else {
      MoneyPaid(t.books, t.topups, t.orders, t.refunds, id, p);
    }
  }

  /** An order fulfilled without a debit. */
  lemma MoneyPaid(b: Books, us: seq<TopUp>, os: seq<Order>, rs: seq<Refund>, id: nat, p: Order)
    requires Money(b, us, os, rs) && id < |os| && SameMoney(os[id], p) && p.status != PENDING
    ensures Money(b, us, os[id := p], rs)
  {
    MoneyOrders(b, us, os, os[id := p], rs);
  }

  // ---- Completing, confirming, rejecting ----

  lemma CompleteKeeps(t: Tables, id: nat, now: Instant)
    requires Inv(t)
    ensures CompletePending(t, id, now).Ok? ==> Kept(t, CompletePending(t, id, now).value)
    ensures ConfirmManual(t, id, now).Ok? ==> Kept(t, ConfirmManual(t, id, now).value)
  {
    hide Inv, Fulfil;
    if id < |t.orders| && t.orders[id].status == PENDING {
      if Fulfil(t, id, FromTopUp, now).Ok? { FulfilKeeps(t, id, FromTopUp, now); }
      if Fulfil(t, id, FromSeller, now).Ok? { FulfilKeeps(t, id, FromSeller, now); }
    }
  }

  lemma {:induction false} CompleteAllKeeps(t: Tables, ids: seq<nat>, seller: bool, now: Instant)
    requires Inv(t)
    ensures Kept(t, CompleteAll(t, ids, seller, now).0)
    decreases |ids|
  {
    hide Inv, Grows, CompletePending, ConfirmManual;
    SelfKept(t);
    if ids != [] {
      CompleteKeeps(t, ids[0], now);
      match (if seller then ConfirmManual(t, ids[0], now) else CompletePending(t, ids[0], now))
      case Err(_) =>
      case Ok(next) =>
        CompleteAllKeeps(next, ids[1..], seller, now);
        KeptTrans(t, next, CompleteAll(t, ids, seller, now).0);
    }
  }

  lemma SelfKept(t: Tables)
    requires Inv(t)
    ensures Kept(t, t)
  {
  }

  /** Changes outside the money tables. */
  ghost predicate SameRows(t: Tables, t2: Tables)
  {
    && t2.books == t.books && t2.coupons == t.coupons && t2.orders == t.orders && t2.topups == t.topups
    && t2.refunds == t.refunds && t2.earnings == t.earnings && t.hooks.Keys <= t2.hooks.Keys
    && |t.checkouts| <= |t2.checkouts|
  }

  lemma SameRowsKept(t: Tables, t2: Tables, t3: Tables)
    requires Kept(t, t2) && SameRows(t2, t3)
    ensures Kept(t, t3)
  {
  }

  lemma CompleteCartKeeps(t: Tables, cart: nat, seller: bool, now: Instant)
    requires Inv(t)
    ensures Kept(t, CompleteCart(t, cart, seller, now).0)
  {
    hide Inv, Grows, CompleteAll;
    CompleteAllKeeps(t, PendingOf(t.orders, cart), seller, now);
    SameRowsKept(t, CompleteAll(t, PendingOf(t.orders, cart), seller, now).0, CompleteCart(t, cart, seller, now).0);
  }

  lemma {:induction false} RejectAllKeeps(t: Tables, ids: seq<nat>)
    requires Inv(t)
    ensures Kept(t, RejectAll(t, ids))
    decreases |ids|
  {
    hide Inv, Grows;
    SelfKept(t);
    if ids != [] {
      if ids[0] < |t.orders| { StatusKeeps(t, ids[0], FAILED); }
      RejectAllKeeps(RejectManual(t, ids[0]), ids[1..]);
      KeptTrans(t, RejectManual(t, ids[0]), RejectAll(t, ids));
    }
  }

  // ---- Renewal ----

  lemma RenewKeeps(t: Tables, s: nat, copyEnd: Instant)
    requires Inv(t)
    ensures RenewSub(t, s, copyEnd).Ok? ==> Kept(t, RenewSub(t, s, copyEnd).value.0)
  {
    hide Inv, Grows, Post, KeyUsed, NextPeriodEnd, Seconds, RenewAccess, Lifecycle.Linked;
    SelfKept(t);
    if RenewSub(t, s, copyEnd).Ok? && RenewSub(t, s, copyEnd).value.0 != t {
      var t2 := RenewSub(t, s, copyEnd).value.0;
      var id := |t.orders|;
      var o := t2.orders[id];
      ChargedInsertKeeps(t, t2, o);
    }
  }

  /** A renewal's order, inserted already debited and never numbered. */
  lemma ChargedInsertKeeps(t: Tables, t2: Tables, o: Order)
    requires Inv(t) && o.charged && o.status == PAID && o.invoice.None? && o.coupon.None? && o.cart.None?
    requires !KeyUsed(t.orders, o.key)
    requires Post(t.books, ChargeRequest(o, |t.orders|)).1.Ok?
    requires t2 == t.(books := Post(t.books, ChargeRequest(o, |t.orders|)).0, orders := t.orders + [o], access := t2.access)
    ensures Kept(t, t2)
  {
    hide Accounts, Sound, Post, Coupons, Invoices, Earnings;
    var id := |t.orders|;
    var pending := o.(charged := false);
    InsertKeeps(t, pending);
    var mid := AddOrder(t, pending);
    MoneyCharge(mid.books, mid.topups, mid.orders, mid.refunds, id, o);
    assert mid.orders[id := o] == t2.orders;
    SameRedemptions(t.coupons, t.orders, t2.orders);
    SameNumbers(t.orders, t2.orders);
    EarningsStay(t.earnings, t.orders, t2.orders);
    KeyAdded(t.orders, o);
  }

  lemma {:induction false} RenewAllKeeps(t: Tables, ids: seq<nat>, copies: seq<Lifecycle.Sub>)
    requires Inv(t)
    ensures Kept(t, RenewAll(t, ids, copies))
    decreases |ids|
  {
    hide Inv, Grows, RenewSub;
    SelfKept(t);
    if ids != [] {
      if ids[0] < |copies| { RenewKeeps(t, ids[0], copies[ids[0]].periodEnd); }
      var next := RenewNext(t, ids[0], copies);
      RenewAllKeeps(next, ids[1..], copies);
      KeptTrans(t, next, RenewAll(t, ids, copies));
    }
  }

  // ---- Top-ups ----

  lemma TopUpsKeep(t: Tables, us2: seq<TopUp>)
    requires Inv(t) && TopUpsGrow(t.topups, us2)
    requires forall i :: 0 <= i < |t.topups| ==> SameFunding(t.topups[i], us2[i])
    requires forall i :: |t.topups| <= i < |us2| ==> us2[i].status != SETTLED && us2[i].amount > 0
    ensures Inv(t.(topups := us2)) && Grows(t, t.(topups := us2))
    ensures Quiet(t.topups, us2) ==> Kept(t, t.(topups := us2))
  {
    MoneyTopUps(t.books, t.topups, us2, t.orders, t.refunds);
  }

  lemma TopUpRowKeeps(t: Tables, id: nat)
    requires Inv(t)
    ensures forall order, cart :: Kept(t, LinkTopUp(t, id, order, cart))
    ensures forall c, amount, bonus :: NewTopUp(t, c, amount, bonus).Some? ==> Kept(t, NewTopUp(t, c, amount, bonus).value)
  {
    hide Inv;
    SelfKept(t);
    forall order, cart ensures Kept(t, LinkTopUp(t, id, order, cart)) {
      if id < |t.topups| {
        TopUpsKeep(t, t.topups[id := t.topups[id].(order := order, cart := cart)]);
      }
    }
    forall c, amount, bonus | NewTopUp(t, c, amount, bonus).Some? ensures Kept(t, NewTopUp(t, c, amount, bonus).value) {
      TopUpsKeep(t, t.topups + [TopUp(c, amount, bonus, AWAITING, None, None)]);
    }
  }

  /** A payment that fails or expires. */
  lemma FailureKeeps(t: Tables, id: nat, status: TopUpStatus)
    requires Inv(t) && id < |t.topups| && t.topups[id].status == AWAITING && status != SETTLED && status != AWAITING
    ensures Inv(SetTopUp(t, id, status)) && Grows(t, SetTopUp(t, id, status))
  {
    hide Inv;
    TopUpsKeep(t, t.topups[id := t.topups[id].(status := status)]);
  }

  lemma CreditKeeps(t: Tables, id: nat)
    requires Inv(t) && id < |t.topups| && t.topups[id].status != SETTLED
    ensures CreditTopUp(t, id).Ok? <==> t.topups[id].customer in t.books.balances
    ensures CreditTopUp(t, id).Ok? ==>
              var t2 := CreditTopUp(t, id).value;
              && Inv(t2) && Grows(t, t2)
              && t2.topups == t.topups[id := t.topups[id].(status := SETTLED)] && t2.hooks == t.hooks
  {
    hide Accounts, Sound, Coupons, Invoices, CreditTopUp;
    CreditOnce(t, id);
  }

  lemma AfterCreditKeeps(t: Tables, u: TopUp, now: Instant)
    requires Inv(t)
    ensures Kept(t, AfterCredit(t, u, now).0)
  {
    hide Inv, Grows, CompletePending, CompleteCart, RenewAll;
    SelfKept(t);
    var t1 := t;
    if u.order.Some? {
      CompleteKeeps(t, u.order.value, now);
      match CompletePending(t, u.order.value, now) {
        case Err(_) => return;
        case Ok(after) => t1 := after;
      }
    }
    var t2 := t1;
    SelfKept(t1);
    if u.cart.Some? {
      CompleteCartKeeps(t1, u.cart.value, false, now);
      t2 := CompleteCart(t1, u.cart.value, false, now).0;
    }
    KeptTrans(t, t1, t2);
    RenewAllKeeps(t2, LapsedOf(t2.access.subs, u.customer), t2.access.subs);
    KeptTrans(t, t2, RenewAll(t2, LapsedOf(t2.access.subs, u.customer), t2.access.subs));
  }

  /** A completed payment for top-up `id`, of its amount, under a key not yet recorded. */
  predicate Confirms(t: Tables, op: Op, id: nat)
  {
    op.DoWebhook? && op.event == Completed && op.topup == id && id < |t.topups| && op.key !in t.hooks
    && (t.topups[id].amount == op.amount || t.topups[id].amount == op.net)
  }

  /** The failure that a step reports for top-up `i`, if any. */
  function FailureOf(t: Tables, op: Op, i: nat): Option<TopUpStatus>
  {
    if op.DoWebhook? && op.topup == i && op.key !in t.hooks && op.event == Declined then Some(DECLINED)
    else if op.DoWebhook? && op.topup == i && op.key !in t.hooks && op.event == Lapsed then Some(EXPIRED)
    else if op.DoRecheck? && op.topup == i && op.overdue then Some(EXPIRED)
    else None
  }

  /** The status of a top-up after any step: PAID is final, a confirmation pays even after a failure,
      and the first failure sticks. */
  function StatusAfter(t: Tables, op: Op, i: nat): TopUpStatus
    requires i < |t.topups|
  {
    var u := t.topups[i];
    if u.status == SETTLED || (Confirms(t, op, i) && u.customer in t.books.balances) then SETTLED
    else if u.status == AWAITING && FailureOf(t, op, i).Some? then FailureOf(t, op, i).value
    else u.status
  }

  ghost predicate Settles(t: Tables, t2: Tables, op: Op)
  {
    forall i :: 0 <= i < |t.topups| && i < |t2.topups| ==> t2.topups[i].status == StatusAfter(t, op, i)
  }

  lemma QuietSettles(t: Tables, t2: Tables, op: Op)
    requires Kept(t, t2) && forall i :: 0 <= i < |t.topups| ==> StatusAfter(t, op, i) == t.topups[i].status
    ensures Settles(t, t2, op)
  {
    hide StatusAfter, Inv;
  }

  lemma ConfirmedSettles(t: Tables, mid: Tables, t2: Tables, op: Op, id: nat)
    requires id < |t.topups| && mid.topups == t.topups[id := t.topups[id].(status := SETTLED)]
    requires Confirms(t, op, id) && t.topups[id].customer in t.books.balances && Kept(mid, t2)
    ensures Settles(t, t2, op)
  {
    hide Inv;
  }

  /** The delivery credits its top-up. */
  predicate Credits(t: Tables, op: Op)
  {
    op.DoWebhook? && Confirms(t, op, op.topup)
    && t.topups[op.topup].status != SETTLED && t.topups[op.topup].customer in t.books.balances
  }

  /** The step fails its top-up. */
  predicate Fails(t: Tables, op: Op)
  {
    (op.DoWebhook? || op.DoRecheck?) && op.topup < |t.topups| && t.topups[op.topup].status == AWAITING
    && FailureOf(t, op, op.topup).Some?
  }

  /** A step that reports a failure. */
  lemma FailedKeeps(t: Tables, op: Op)
    requires Inv(t) && Fails(t, op)
    ensures Inv(Step(t, op)) && Grows(t, Step(t, op)) && Settles(t, Step(t, op), op)
  {
    hide Inv, Grows;
    SelfKept(t);
    var status := FailureOf(t, op, op.topup).value;
    if op.DoWebhook? {
      var processed := t.(hooks := t.hooks[op.key := true]);
      SameRowsKept(t, t, processed);
      FailureKeeps(processed, op.topup, status);
      GrowsTrans(t, processed, SetTopUp(processed, op.topup, status));
    } else {
      FailureKeeps(t, op.topup, status);
    }
  }

  /** Any other delivery or re-check. */
  lemma QuietPaymentKeeps(t: Tables, op: Op)
    requires Inv(t) && (op.DoWebhook? || op.DoRecheck?) && !Credits(t, op) && !Fails(t, op)
    ensures Kept(t, Step(t, op))
  {
    hide Inv, Grows, Quiet, CreditTopUp, AfterCredit;
    SelfKept(t);
    if op.DoWebhook? {
      var recorded := t.(hooks := t.hooks[op.key := false]);
      SameRowsKept(t, t, recorded);
      SameRowsKept(t, t, t.(hooks := t.hooks[op.key := true]));
      SameRowsKept(t, recorded, recorded.(hooks := recorded.hooks[op.key := true]));
      if op.topup < |t.topups| && t.topups[op.topup].status != SETTLED {
        CreditKeeps(recorded, op.topup);
      }
    }
  }

  /** The delivery that credits. */
  lemma ConfirmedKeeps(t: Tables, op: Op)
    requires Inv(t) && Credits(t, op)
    ensures Inv(Step(t, op)) && Grows(t, Step(t, op)) && Settles(t, Step(t, op), op)
  {
    hide Inv, Grows, CreditTopUp, AfterCredit, Settles;
    SelfKept(t);
    var recorded := t.(hooks := t.hooks[op.key := false]);
    SameRowsKept(t, t, recorded);
    CreditKeeps(recorded, op.topup);
    var credited := CreditTopUp(recorded, op.topup).value;
    GrowsTrans(t, recorded, credited);
    SelfKept(credited);
    AfterCreditKeeps(credited, t.topups[op.topup], op.now);
    var done := AfterCredit(credited, t.topups[op.topup], op.now).0;
    SameRowsKept(credited, done, done.(hooks := done.hooks[op.key := true]));
    GrowsTrans(t, credited, Step(t, op));
    ConfirmedSettles(t, credited, Step(t, op), op, op.topup);
  }

  // ---- Checkout ----

  lemma NewOrderKeeps(t: Tables, p: Purchase, cart: Option<nat>, channel: Channel)
    requires Inv(t) && RowsExist(t, p) && (cart.Some? ==> cart.value < |t.checkouts|) && !KeyUsed(t.orders, p.key)
    ensures Kept(t, AddOrder(t, NewOrder(p, cart, channel)))
  {
    hide Inv, Grows;
    InsertKeeps(t, NewOrder(p, cart, channel));
  }

  lemma PricedCheckoutKeeps(t: Tables, p: Purchase, pay: Method, direct: bool, seen: int, gatewayUp: bool, now: Instant)
    requires Inv(t) && RowsExist(t, p) && !KeyUsed(t.orders, p.key)
    ensures Kept(t, PricedCheckout(t, p, pay, direct, seen, gatewayUp, now).0)
  {
    hide Inv, Grows, Fulfil;
    SelfKept(t);
    NewOrderKeeps(t, p, None, QRIS_STATIC);
    NewOrderKeeps(t, p, None, WALLET);
    var id := |t.orders|;
    var added := AddOrder(t, NewOrder(p, None, WALLET));
    if Fulfil(added, id, FromBalance, now).Ok? {
      FulfilKeeps(added, id, FromBalance, now);
      KeptTrans(t, added, Fulfil(added, id, FromBalance, now).value);
    }
    var delta := if direct then p.amount else p.amount - seen;
    TopUpRowKeeps(added, |t.topups|);
    if NewTopUp(added, p.customer, delta, 0).Some? {
      var funded := NewTopUp(added, p.customer, delta, 0).value;
      KeptTrans(t, added, funded);
      TopUpRowKeeps(funded, |t.topups|);
      KeptTrans(t, funded, LinkTopUp(funded, |t.topups|, Some(id), None));
    }
  }

  lemma FreeCheckoutKeeps(t: Tables, p: Purchase)
    requires Inv(t) && !KeyUsed(t.orders, p.key)
    ensures Kept(t, FreeCheckout(t, p).0)
  {
    hide Inv, Grows, Lifecycle.Provision, RecordEarning;
    SelfKept(t);
    var t2 := FreeCheckout(t, p).0;
    if t2 != t {
      var o := t2.orders[|t.orders|];
      InsertKeeps(t, o);
      FreeEarningKept(t, o, t2);
    }
  }

  lemma FreeEarningKept(t: Tables, o: Order, t2: Tables)
    requires Kept(t, AddOrder(t, o)) && o.status == PAID && o.plan < |t.plans|
    requires t2 == AddOrder(t, o).(access := t2.access, earnings := RecordEarning(t.earnings, |t.orders|, o, t.plans[o.plan], FromBalance))
    ensures Kept(t, t2)
  {
    hide Money, Coupons, Invoices, RecordEarning, Earnings;
    EarningAdded(t.earnings, t2.orders, |t.orders|, o, t.plans[o.plan], FromBalance);
  }

  lemma CheckoutKeeps(t: Tables, p: Purchase, charge: Pricing.Charge, pay: Method, direct: bool, seen: int,
                      gatewayUp: bool, now: Instant)
    requires Inv(t)
    ensures Kept(t, Checkout(t, p, charge, pay, direct, seen, gatewayUp, now).0)
  {
    hide Inv, Grows, FreeCheckout, PricedCheckout, FindKey;
    SelfKept(t);
    if !KeyUsed(t.orders, p.key) { FreeCheckoutKeeps(t, p); }
    if !KeyUsed(t.orders, p.key) && RowsExist(t, p) && charge.Priced? && charge.amount >= 0 && charge.discount >= 0 {
      PricedCheckoutKeeps(t, p.(amount := charge.amount, discount := charge.discount), pay, direct, seen, gatewayUp, now);
    }
  }

  lemma AddLineKeeps(t: Tables, b: Basket, l: Line, channel: Channel)
    requires Inv(t) && b.checkout < |t.checkouts|
    ensures AddLine(t, b, l, channel).Ok? ==> Kept(t, AddLine(t, b, l, channel).value)
  {
    hide Inv, Grows, KeyUsed;
    if RowsExist(t, PurchaseOf(b, l)) && !KeyUsed(t.orders, PurchaseOf(b, l).key) {
      NewOrderKeeps(t, PurchaseOf(b, l), Some(b.checkout), channel);
    }
  }

  lemma CheckoutsGrow(t: Tables, t2: Tables)
    requires Grows(t, t2)
    ensures |t.checkouts| <= |t2.checkouts|
  {
  }

  lemma {:induction false} LinesKeep(t: Tables, b: Basket, lines: seq<Line>, channel: Channel, now: Instant)
    requires Inv(t) && b.checkout < |t.checkouts|
    ensures FulfilLines(t, b, lines, now).Ok? ==> Kept(t, FulfilLines(t, b, lines, now).value)
    ensures PendLines(t, b, lines, channel).Ok? ==> Kept(t, PendLines(t, b, lines, channel).value)
  {
    hide Inv, Grows, FulfilLine, AddLine;
    SelfKept(t);
    if lines != [] {
      var front, l := lines[..|lines| - 1], lines[|lines| - 1];
      LinesKeep(t, b, front, channel, now);
      if FulfilLines(t, b, lines, now).Ok? {
        var mid := FulfilLines(t, b, front, now).value;
        CheckoutsGrow(t, mid);
        LineFulfilKeeps(mid, b, l, now);
        KeptTrans(t, mid, FulfilLines(t, b, lines, now).value);
      }
      if PendLines(t, b, lines, channel).Ok? {
        var mid := PendLines(t, b, front, channel).value;
        CheckoutsGrow(t, mid);
        AddLineKeeps(mid, b, l, channel);
        KeptTrans(t, mid, PendLines(t, b, lines, channel).value);
      }
    }
  }

  lemma LineFulfilKeeps(t: Tables, b: Basket, l: Line, now: Instant)
    requires Inv(t) && b.checkout < |t.checkouts|
    ensures FulfilLine(t, b, l, now).Ok? ==> Kept(t, FulfilLine(t, b, l, now).value)
  {
    hide Inv, Grows, Fulfil, KeyUsed, RowsExist;
    AddLineKeeps(t, b, l, WALLET);
    if FulfilLine(t, b, l, now).Ok? {
      var added := AddLine(t, b, l, WALLET).value;
      FulfilKeeps(added, |t.orders|, FromCart, now);
      KeptTrans(t, added, FulfilLine(t, b, l, now).value);
    }
  }

  lemma CheckoutCartKeeps(t: Tables, customer: nat, cartRow: nat, lines: seq<Line>, pay: Method, seen: int,
                          gatewayUp: bool, now: Instant)
    requires Inv(t)
    ensures Kept(t, CheckoutCart(t, customer, cartRow, lines, pay, seen, gatewayUp, now).0)
  {
    hide Inv, Grows, FulfilLines, PendLines, OneReadySeller;
    SelfKept(t);
    var b := Basket(customer, cartRow, |t.checkouts|);
    var done, waiting := t.(checkouts := t.checkouts + [true]), t.(checkouts := t.checkouts + [false]);
    SameRowsKept(t, t, done);
    SameRowsKept(t, t, waiting);
    LinesKeep(done, b, lines, WALLET, now);
    if FulfilLines(done, b, lines, now).Ok? {
      var after := FulfilLines(done, b, lines, now).value;
      KeptTrans(t, done, after);
      SameRowsKept(t, after, EmptyCartOf(after, b, lines));
    }
    LinesKeep(waiting, b, lines, QRIS_STATIC, now);
    if PendLines(waiting, b, lines, QRIS_STATIC).Ok? {
      var after := PendLines(waiting, b, lines, QRIS_STATIC).value;
      KeptTrans(t, waiting, after);
      SameRowsKept(t, after, EmptyCartOf(after, b, lines));
    }
    CartShortKeeps(t, b, lines, seen, gatewayUp, now);
  }

  lemma CartShortKeeps(t: Tables, b: Basket, lines: seq<Line>, seen: int, gatewayUp: bool, now: Instant)
    requires Inv(t) && b.checkout == |t.checkouts|
    ensures Kept(t, CartShort(t, b, lines, seen, gatewayUp).0)
  {
    hide Inv, Grows, PendLines;
    SelfKept(t);
    var waiting := t.(checkouts := t.checkouts + [false]);
    SameRowsKept(t, t, waiting);
    LinesKeep(waiting, b, lines, WALLET, now);
    if PendLines(waiting, b, lines, WALLET).Ok? {
      var pending := PendLines(waiting, b, lines, WALLET).value;
      KeptTrans(t, waiting, pending);
      TopUpRowKeeps(pending, 0);
      if NewTopUp(pending, b.customer, Sum(lines, LineAmount()) - seen, 0).Some? {
        var funded := NewTopUp(pending, b.customer, Sum(lines, LineAmount()) - seen, 0).value;
        KeptTrans(t, pending, funded);
        TopUpRowKeeps(funded, |t.topups|);
        var linked := LinkTopUp(funded, |t.topups|, None, Some(b.checkout));
        KeptTrans(t, funded, linked);
        SameRowsKept(t, linked, EmptyCartOf(linked, b, lines));
      }
    }
  }

  // ---- Refunds and adjustments ----

  lemma RefundKeeps(t: Tables, r: nat, note: string)
    requires Inv(t)
    ensures Kept(t, ApproveRefund(t, r)) && Kept(t, RejectRefund(t, r, note))
  {
    hide Sound, Linked, AllBalanced, Post, Coupons, Invoices;
    SelfKept(t);
    if r < |t.refunds| && t.refunds[r].status == REQUESTED {
      MoneyRefunds(t.books, t.topups, t.orders, t.refunds, t.refunds[r := t.refunds[r].(status := REJECTED)]);
      var row, request := t.refunds[r], RefundRequest(t.orders, t.refunds, r);
      if Post(t.books, request).1.Ok? {
        MoneyRefund(t.books, t.topups, t.orders, t.refunds, r);
        var credited := t.(books := Post(t.books, request).0, refunds := t.refunds[r := row.(status := APPROVED)]);
        assert Kept(t, credited);
        StatusKeeps(credited, row.order.value, REFUNDED);
        KeptTrans(t, credited, credited.(orders := credited.orders[row.order.value := credited.orders[row.order.value].(status := REFUNDED)]));
      }
    }
  }

  lemma RequestKeeps(t: Tables, customer: nat, order: nat, reason: string, existing: bool)
    requires Inv(t)
    ensures Kept(t, RequestRefund(t, customer, order, reason, existing))
  {
    hide Sound, Linked, AllBalanced, Coupons, Invoices;
    SelfKept(t);
    if order < |t.orders| {
      MoneyRefunds(t.books, t.topups, t.orders, t.refunds, t.refunds + [Refund(customer, Some(order), REQUESTED)]);
    }
  }

  lemma AdjustKeeps(t: Tables, customer: nat, amount: int, reason: string, token: string)
    requires Inv(t)
    ensures Kept(t, ManualCredit(t, customer, amount, reason, token))
  {
    hide Accounts, Sound, Post, Coupons, Invoices;
    SelfKept(t);
    MoneyAdjust(t.books, t.topups, t.orders, t.refunds, Request(customer, Crediting, amount, ADJUSTMENT, AdjustmentRef(token)));
  }

  lemma OpenWalletKeeps(t: Tables, c: nat)
    requires Inv(t)
    ensures Kept(t, Step(t, OpenWallet(c)))
  {
    hide Accounts, Coupons, Invoices;
    SelfKept(t);
    if c !in t.books.balances {
      NothingRecorded(t.books.entries, c);
      assert Sound(t.books.(balances := t.books.balances[c := 0]));
    }
  }

  // ---- Every run ----

  /** Changes by code outside billing. */
  predicate Outside(op: Op) { op.SetAccess? || op.SetPlans? || op.OpenWallet? || op.NewCoupon? }

  lemma OutsideKeeps(t: Tables, op: Op)
    requires Inv(t) && Outside(op)
    ensures Kept(t, Step(t, op))
  {
    hide Money, Invoices, Coupons;
    SelfKept(t);
    match op
    case OpenWallet(c) => OpenWalletKeeps(t, c);
    case NewCoupon(limit) => NewCouponUnused(t.coupons, t.orders, limit);
    case _ =>
  }

  lemma ServiceKeeps(t: Tables, op: Op)
    requires Inv(t) && !Outside(op) && !op.DoWebhook? && !op.DoRecheck?
    ensures Kept(t, Step(t, op))
  {
    hide Inv, Grows, Checkout, CheckoutCart, Webhook, NewTopUp, LinkTopUp, CompletePending, ConfirmManual, CompleteCart,
         RejectAll, RenewSub, RequestRefund, ApproveRefund, RejectRefund, ManualCredit, PendingOf;
    SelfKept(t);
    match op
    case DoCheckout(p, charge, pay, direct, seen, up, now) => CheckoutKeeps(t, p, charge, pay, direct, seen, up, now);
    case DoCheckoutCart(c, cartRow, lines, pay, seen, up, now) => CheckoutCartKeeps(t, c, cartRow, lines, pay, seen, up, now);
    case DoInitiateTopUp(c, amount, bonus) => TopUpRowKeeps(t, 0);
    case DoLink(topup, order, cart) => TopUpRowKeeps(t, topup);
    case DoComplete(order, now) => CompleteKeeps(t, order, now);
    case DoMarkCompleted(cart) => SameRowsKept(t, t, MarkCompleted(t, cart));
    case DoConfirm(order, now) => CompleteKeeps(t, order, now);
    case DoConfirmCart(cart, now) => CompleteCartKeeps(t, cart, true, now);
    case DoReject(order) => RejectAllKeeps(t, [order]); RejectOne(t, order);
    case DoRejectCart(cart) => RejectAllKeeps(t, PendingOf(t.orders, cart));
    case DoRenew(s, end) => RenewKeeps(t, s, end);
    case DoRequestRefund(c, order, reason, existing) => RequestKeeps(t, c, order, reason, existing);
    case DoApproveRefund(r) => RefundKeeps(t, r, "");
    case DoRejectRefund(r, note) => RefundKeeps(t, r, note);
    case DoManualCredit(c, amount, reason, token) => AdjustKeeps(t, c, amount, reason, token);
  }

  lemma RejectOne(t: Tables, id: nat)
    ensures RejectAll(t, [id]) == RejectManual(t, id)
  {
  }

  /** A step of any kind keeps the invariant, moves rows forward only, and gives every top-up the
      status it should have. */
  lemma StepKeeps(t: Tables, op: Op)
    requires Inv(t)
    ensures Inv(Step(t, op)) && Grows(t, Step(t, op)) && Settles(t, Step(t, op), op)
  {
    hide Inv, Grows, Step, Settles;
    if Credits(t, op) {
      ConfirmedKeeps(t, op);
    } else if Fails(t, op) {
      FailedKeeps(t, op);
    } else {
      if Outside(op) { OutsideKeeps(t, op); }
      else if op.DoWebhook? || op.DoRecheck? { QuietPaymentKeeps(t, op); }
      else { ServiceKeeps(t, op); }
      QuietSettles(t, Step(t, op), op);
    }
  }

  /** Step `i` of a run. */
  ghost predicate StepAt(ts: seq<Tables>, ops: seq<Op>, i: nat)
    requires i < |ops| && |ts| == |ops| + 1
  {
    ts[i + 1] == Step(ts[i], ops[i])
  }

  /** The states `ts` a database goes through under `ops`. */
  ghost predicate IsRun(ts: seq<Tables>, ops: seq<Op>)
  {
    |ts| == |ops| + 1 && forall i :: 0 <= i < |ops| ==> StepAt(ts, ops, i)
  }

  lemma {:induction false} RunKeeps(ts: seq<Tables>, ops: seq<Op>, i: nat, j: nat)
    requires IsRun(ts, ops) && i <= j < |ts| && Inv(ts[i])
    ensures Inv(ts[j]) && Grows(ts[i], ts[j])
    decreases j
  {
    hide Inv, Grows, Step, Settles;
    if i == j {
      SelfKept(ts[i]);
    } else {
      RunKeeps(ts, ops, i, j - 1);
      assert StepAt(ts, ops, j - 1);
      StepKeeps(ts[j - 1], ops[j - 1]);
      GrowsTrans(ts[i], ts[j - 1], ts[j]);
    }
  }

  function Empty(): Tables
  {
    Tables(Books(map[], []), Lifecycle.Access([], [], []), [], [], [], [], [], [], map[], [], map[])
  }

  lemma EmptyInv()
    ensures Inv(Empty())
  {
  }

  function BalanceOf(b: Books, c: nat): int { if c in b.balances then b.balances[c] else 0 }

  /** A run of a database that starts empty, up to its `k`-th state. */
  ghost predicate Reaches(ts: seq<Tables>, ops: seq<Op>, k: nat)
  {
    IsRun(ts, ops) && ts[0] == Empty() && k < |ts|
  }

  lemma ReachedInv(ts: seq<Tables>, ops: seq<Op>, k: nat)
    requires Reaches(ts, ops, k)
    ensures Inv(ts[k])
  {
    hide Inv, StepAt;
    EmptyInv();
    RunKeeps(ts, ops, 0, k);
  }

  /** Conservation, in every state of every run: a customer's balance is never negative, and equals
      paid top-ups with bonus, plus manual adjustments, plus approved refunds, minus every order that
      carries a ledger entry. */
  lemma EveryRunConserves(ts: seq<Tables>, ops: seq<Op>, k: nat, c: nat)
    requires Reaches(ts, ops, k)
    ensures BalanceOf(ts[k].books, c) >= 0
    ensures BalanceOf(ts[k].books, c)
            == Sum(ts[k].topups, PaidTo(c)) + Sum(ts[k].books.entries, AdjustedFor(c))
               + Sum(ts[k].refunds, RefundedTo(c, ts[k].orders)) - Sum(ts[k].orders, ChargedTo(c))
  {
    hide IsRun, Linked, Shaped, Described, RunningBalance;
    ReachedInv(ts, ops, k);
    assert Balanced(ts[k].books.entries, ts[k].topups, ts[k].orders, ts[k].refunds, c);
    if c !in ts[k].books.balances {
      NothingRecorded(ts[k].books.entries, c);
    }
  }

  /** In every state of every run a reference is in the ledger exactly when its row is paid: PAID
      top-ups (and their bonus, if any), debited orders, approved refunds. Each entry moves the amount
      of its row on the wallet of that row's customer, and the ledger itself is sound. */
  lemma EveryRunLinks(ts: seq<Tables>, ops: seq<Op>, k: nat, i: nat)
    requires Reaches(ts, ops, k)
    ensures var t := ts[k];
            && Sound(t.books)
            && (Recorded(t.books.entries, TopUpRef(i)) <==> i < |t.topups| && t.topups[i].status == SETTLED)
            && (Recorded(t.books.entries, BonusRef(i)) <==>
                  i < |t.topups| && t.topups[i].status == SETTLED && t.topups[i].bonus > 0)
            && (Recorded(t.books.entries, OrderRef(i)) <==> i < |t.orders| && t.orders[i].charged)
            && (Recorded(t.books.entries, RefundRef(i)) <==> i < |t.refunds| && t.refunds[i].status == APPROVED)
            && (i < |t.books.entries| ==> Describes(t.books.entries[i], t.topups, t.orders, t.refunds))
  {
    hide IsRun, Sound, Recorded, Shaped, AllBalanced;
    ReachedInv(ts, ops, k);
  }

  /** Invoice numbers are always exactly 1..n, no number twice, and pending orders have none. */
  lemma EveryRunNumbers(ts: seq<Tables>, ops: seq<Op>, k: nat, n: nat, i: nat, j: nat)
    requires Reaches(ts, ops, k)
    ensures var os := ts[k].orders;
            && (Numbered(os, n) <==> 1 <= n <= MaxInvoice(os))
            && (i < j < |os| && os[i].invoice.Some? ==> os[i].invoice != os[j].invoice)
            && (i < |os| && os[i].status == PENDING ==> os[i].invoice.None? && !os[i].charged)
  {
    hide IsRun, Sound, Linked, AllBalanced, Numbered, MaxInvoice, Coupons;
    ReachedInv(ts, ops, k);
  }

  /** No purchase, cart line or renewal period is ever ordered twice: a key names at most one order. */
  lemma EveryRunOrdersOnce(ts: seq<Tables>, ops: seq<Op>, k: nat, i: nat, j: nat)
    requires Reaches(ts, ops, k) && i < |ts[k].orders| && j < |ts[k].orders|
    ensures ts[k].orders[i].key == ts[k].orders[j].key ==> i == j
  {
    hide IsRun, Money, Invoices, Coupons, Earnings;
    ReachedInv(ts, ops, k);
  }

  /** A coupon is counted once per numbered order that used it, up to its limit and never beyond. */
  lemma EveryRunCounts(ts: seq<Tables>, ops: seq<Op>, k: nat, c: nat)
    requires Reaches(ts, ops, k) && c < |ts[k].coupons|
    ensures var coupon := ts[k].coupons[c];
            && coupon.used == Counted(coupon.limit, Sum(ts[k].orders, Redeemed(c)))
            && (coupon.limit > 0 ==> coupon.used <= coupon.limit)
  {
    hide IsRun, Money, Invoices;
    ReachedInv(ts, ops, k);
    assert CouponExact(ts[k].coupons[c], c, ts[k].orders);
  }

  /** An order earns its seller at most once: its own amount, split into commission and net. */
  lemma EveryRunShares(ts: seq<Tables>, ops: seq<Op>, k: nat, i: nat, j: nat)
    requires Reaches(ts, ops, k) && i < |ts[k].earnings| && j < |ts[k].earnings|
    ensures EarnedFrom(ts[k].earnings[i], ts[k].orders)
    ensures i != j ==> ts[k].earnings[i].order != ts[k].earnings[j].order
  {
    hide IsRun, Money, Invoices, Coupons;
    ReachedInv(ts, ops, k);
  }

  /** From any state of a run to any later one, entries stay, an order keeps its amount and its invoice
      number, and a paid top-up stays paid. */
  lemma LaterStatesGrow(ts: seq<Tables>, ops: seq<Op>, j: nat, k: nat)
    requires Reaches(ts, ops, k) && j <= k
    ensures Grows(ts[j], ts[k])
  {
    hide Inv, Grows, StepAt;
    ReachedInv(ts, ops, j);
    RunKeeps(ts, ops, j, k);
  }
}
