/** All or nothing: exactly when a purchase paid from the balance succeeds, and exactly what it does. */
module Fulfilment {
  import opened Prelude
  import opened Keys
  import opened Ledger
  import opened Calendar
  import opened Billing
  import opened Conservation
  import opened BillingInvariants
  import Lifecycle
  import Pricing

  /** The plan exists and a provisioner is registered for everything it delivers. */
  predicate Provisionable(plans: seq<Plan>, plan: nat)
  {
    plan < |plans| && forall d :: d in plans[plan].deliverables ==> Lifecycle.Registered(d.kind)
  }

  predicate CouponRoom(coupons: seq<CouponRow>, o: Order)
  {
    UsesCoupon(o) && o.coupon.value < |coupons| ==>
      coupons[o.coupon.value].limit == 0 || coupons[o.coupon.value].used < coupons[o.coupon.value].limit
  }

  /** The wallet can pay the amount; paying nothing needs no wallet. */
  predicate Covers(b: Books, c: nat, amount: int)
  {
    amount > 0 ==> c in b.balances && b.balances[c] >= amount
  }

  lemma DebitEffect(b: Books, r: Request)
    requires Sound(b) && r.side == Debiting && !r.kind.UnknownType? && !Recorded(b.entries, r.ref)
    ensures Post(b, r).1.Ok? <==> r.amount > 0 && r.wallet in b.balances && b.balances[r.wallet] >= r.amount
    ensures Post(b, r).1.Ok? ==> Post(b, r).0.balances == b.balances[r.wallet := b.balances[r.wallet] - r.amount]
    ensures Post(b, r).1 == Err(InsufficientBalance) <==>
              r.amount > 0 && r.wallet in b.balances && b.balances[r.wallet] < r.amount
    ensures Post(b, r).1.Err? ==> Post(b, r).0 == b
  {
  }

  /** What one fulfilled order does to its own row and to every balance. */
  ghost predicate OrderPaid(t: Tables, t2: Tables, id: nat, path: Path)
    requires id < |t.orders| && |t2.orders| == |t.orders|
  {
    var o, p := t.orders[id], t2.orders[id];
    && t2.orders == t.orders[id := p]
    && p == o.(status := PAID, charged := Debits(o, path), sub := p.sub, invoice := Some(MaxInvoice(t.orders) + 1))
    && (forall c :: BalanceOf(t2.books, c) == BalanceOf(t.books, c) - if c == o.customer && path != FromSeller then o.amount else 0)
    && t2.books.balances.Keys == t.books.balances.Keys
  }

  /** One active grant per deliverable, in order, after the grants already there. */
  ghost predicate Granted(a: Lifecycle.Access, a2: Lifecycle.Access, o: Order, id: nat, ds: seq<Lifecycle.Deliverable>)
  {
    && |a2.grants| == |a.grants| + |ds| && a2.grants[..|a.grants|] == a.grants
    && forall k :: 0 <= k < |ds| ==>
         a2.grants[|a.grants| + k] == Lifecycle.Grant(o.customer, id, o.sub, ds[k].kind, Lifecycle.Granted)
  }

  /** The ACTIVE subscription for the prepaid periods from now. */
  function NewSub(o: Order, plan: Plan, now: Instant): Lifecycle.Sub
  {
    var end := now.(date := if plan.interval == MONTHLY then AddMonths(now.date, o.duration) else AddYears(now.date, o.duration));
    Lifecycle.Sub(o.customer, o.plan, Lifecycle.ACTIVE, end, true)
  }

  /** A recurring plan adds its subscription, a one-time plan none. */
  ghost predicate Subscribed(a: Lifecycle.Access, a2: Lifecycle.Access, o: Order, plan: Plan, now: Instant)
  {
    if plan.interval == NONE then o.sub == None && a2.subs == a.subs
    else
      o.sub == Some(|a.subs|) && a2.subs == a.subs + [NewSub(o, plan, now)]
  }

  /** The order's coupon, if it has one with room, is counted once more; no other changes. */
  ghost predicate CouponCounted(cs: seq<CouponRow>, cs2: seq<CouponRow>, o: Order)
  {
    && |cs2| == |cs|
    && forall k :: 0 <= k < |cs| ==>
         cs2[k] == if UsesCoupon(o) && o.coupon == Some(k) && CouponRoom(cs, o) then CouponRow(cs[k].limit, cs[k].used + 1) else cs[k]
  }

  ghost predicate FulfilEffect(t: Tables, t2: Tables, id: nat, path: Path, now: Instant)
    requires id < |t.orders| && t.orders[id].plan < |t.plans|
  {
    var plan := t.plans[t.orders[id].plan];
    && |t2.orders| == |t.orders|
    && OrderPaid(t, t2, id, path)
    && Subscribed(t.access, t2.access, t2.orders[id], plan, now)
    && Granted(t.access, t2.access, t2.orders[id], id, plan.deliverables)
    && Lifecycle.LicensesIssued(t.access, t2.access, t.orders[id].customer, t2.orders[id].sub, plan.seats, plan.deliverables)
    && t2.earnings == RecordEarning(t.earnings, id, t.orders[id], t.plans[t.orders[id].plan], path)
    && CouponCounted(t.coupons, t2.coupons, t.orders[id]) && t2.plans == t.plans
    && t2.topups == t.topups && t2.refunds == t.refunds && t2.carts == t.carts
    && t2.checkouts == t.checkouts && t2.hooks == t.hooks
  }

  lemma ChargeIff(t: Tables, id: nat, path: Path)
    requires Inv(t) && id < |t.orders| && t.orders[id].status == PENDING
    ensures var o, r := t.orders[id], Charge(t.books, t.orders[id], id, path);
            && (r.Ok? <==> (path == FromTopUp ==> o.amount > 0) && (path != FromSeller ==> Covers(t.books, o.customer, o.amount)))
            && (r == Err(InsufficientBalance) <==>
                  path != FromSeller && o.amount > 0 && o.customer in t.books.balances && t.books.balances[o.customer] < o.amount)
            && (r.Ok? ==>
                  && r.value.balances.Keys == t.books.balances.Keys
                  && forall c :: BalanceOf(r.value, c)
                       == BalanceOf(t.books, c) - if c == o.customer && path != FromSeller then o.amount else 0)
  {
    hide Sound, Accounts, Post, Recorded, Coupons, Invoices, Earnings;
    PendingFresh(t, id);
    Unrecorded(t.books.entries, t.topups, t.orders, t.refunds);
    DebitEffect(t.books, ChargeRequest(t.orders[id], id));
  }

  lemma SubscriptionRows(a: Lifecycle.Access, o: Order, plan: Plan, now: Instant)
    ensures var (a2, sub) := WithSubscription(a, o, plan, now);
            a2.grants == a.grants && a2.licenses == a.licenses && Subscribed(a, a2, o.(sub := sub), plan, now)
  {
    hide AddMonths, AddYears;
  }

  /** Exactly when a pending order can be fulfilled, and the whole effect when it is. */
  lemma FulfilIff(t: Tables, id: nat, path: Path, now: Instant)
    requires Inv(t) && id < |t.orders| && t.orders[id].status == PENDING
    ensures Fulfil(t, id, path, now).Ok? <==>
              && Provisionable(t.plans, t.orders[id].plan)
              && (path == FromBalance ==> CouponRoom(t.coupons, t.orders[id]))
              && (path == FromTopUp ==> t.orders[id].amount > 0)
              && (path != FromSeller ==> Covers(t.books, t.orders[id].customer, t.orders[id].amount))
    ensures Fulfil(t, id, path, now).Ok? ==> FulfilEffect(t, Fulfil(t, id, path, now).value, id, path, now)
    ensures Fulfil(t, id, path, now) == Err(FromLedger(InsufficientBalance)) ==>
              path != FromSeller && t.orders[id].amount > 0 && t.orders[id].customer in t.books.balances
              && t.books.balances[t.orders[id].customer] < t.orders[id].amount
  {
    hide Inv, Charge, MaxInvoice, Lifecycle.Provision, WithSubscription, RecordEarning, Covers, Subscribed;
    var o := t.orders[id];
    ChargeIff(t, id, path);
    PendingFresh(t, id);
    if o.plan < |t.plans| {
      var plan := t.plans[o.plan];
      var (a, sub) := WithSubscription(t.access, o, plan, now);
      SubscriptionRows(t.access, o, plan, now);
      Lifecycle.ProvisionMeaning(a, o.customer, id, sub, plan.seats, plan.deliverables);
      if Fulfil(t, id, path, now).Ok? {
        SameBase(t.access, a, Fulfil(t, id, path, now).value, id, sub, plan, now, o);
      }
    }
  }

  /** The subscription row is added before the grants, which do not depend on it. */
  lemma SameBase(a: Lifecycle.Access, mid: Lifecycle.Access, t2: Tables, id: nat, sub: Option<nat>, plan: Plan, now: Instant, o: Order)
    requires mid.grants == a.grants && mid.licenses == a.licenses && t2.access.subs == mid.subs
    requires Subscribed(a, mid, o.(sub := sub), plan, now)
    requires Lifecycle.LicensesIssued(mid, t2.access, o.customer, sub, plan.seats, plan.deliverables)
    requires id < |t2.orders| && t2.orders[id].sub == sub && t2.orders[id].customer == o.customer
    requires t2.orders[id].plan == o.plan && t2.orders[id].duration == o.duration
    ensures Lifecycle.LicensesIssued(a, t2.access, o.customer, sub, plan.seats, plan.deliverables)
    ensures Subscribed(a, t2.access, t2.orders[id], plan, now)
  {
    hide AddMonths, AddYears;
    assert forall l :: Lifecycle.IssuedFor(mid, l, o.customer, sub, plan.seats, plan.deliverables)
                   <==> Lifecycle.IssuedFor(a, l, o.customer, sub, plan.seats, plan.deliverables);
  }

  // ---- Direct checkout ----

  /** A priced checkout paid from a balance read as `seen` goes through exactly when the plan can be
      provisioned, the coupon has room and the wallet really covers the price. Anything else, the
      coupon cap included, leaves the database as it was. */
  lemma BalanceCheckoutIff(t: Tables, p: Purchase, charge: Pricing.Charge, pay: Method, seen: int, up: bool, now: Instant)
    requires Inv(t) && !KeyUsed(t.orders, p.key) && RowsExist(t, p)
    requires charge.Priced? && charge.amount >= 0 && charge.discount >= 0 && pay != StaticQris && seen >= charge.amount
    ensures var o := NewOrder(p.(amount := charge.amount, discount := charge.discount), None, WALLET);
            var (t2, outcome) := Checkout(t, p, charge, pay, false, seen, up, now);
            && (outcome == Fulfilled(|t.orders|) <==>
                  Provisionable(t.plans, p.plan) && CouponRoom(t.coupons, o) && Covers(t.books, p.customer, charge.amount))
            && (outcome == Fulfilled(|t.orders|) ==> FulfilEffect(AddOrder(t, o), t2, |t.orders|, FromBalance, now))
            && (outcome != Fulfilled(|t.orders|) ==> t2 == t)
  {
    hide Inv, Fulfil, Covers, Provisionable, CouponRoom, FulfilEffect;
    var q := p.(amount := charge.amount, discount := charge.discount);
    NewOrderKeeps(t, q, None, WALLET);
    FulfilIff(AddOrder(t, NewOrder(q, None, WALLET)), |t.orders|, FromBalance, now);
  }

  lemma {:induction false} FoundOnly(os: seq<Order>, i: nat)
    requires DistinctKeys(os) && i < |os|
    ensures FindKey(os, os[i].key) == Some(i)
  {
    var last := |os| - 1;
    if i < last {
      FoundOnly(os[..last], i);
    }
  }

  /** A checkout repeated under its key returns the one order it made and changes nothing; the key in
      other hands, or for another plan, is refused. */
  lemma ReplayedCheckout(t: Tables, i: nat, p: Purchase, charge: Pricing.Charge, pay: Method, direct: bool, seen: int,
                         up: bool, now: Instant)
    requires Inv(t) && i < |t.orders| && t.orders[i].key == p.key && !charge.ContactOnly?
    ensures Checkout(t, p, charge, pay, direct, seen, up, now) ==
            (t, if t.orders[i].customer == p.customer && t.orders[i].plan == p.plan then Existing(i) else Refused(KeyReused))
  {
    hide Money, Coupons, Invoices, Earnings, FreeCheckout, PricedCheckout;
    FoundOnly(t.orders, i);
  }

  // ---- Cart ----

  predicate LineReady(t: Tables, b: Basket, l: Line)
  {
    RowsExist(t, PurchaseOf(b, l)) && Provisionable(t.plans, l.plan) && !KeyUsed(t.orders, CartKey(b.cartRow, l.item))
  }

  ghost predicate LinesReady(t: Tables, b: Basket, lines: seq<Line>)
  {
    && (forall k :: 0 <= k < |lines| ==> LineReady(t, b, lines[k]))
    && (forall j, k :: 0 <= j < k < |lines| ==> lines[j].item != lines[k].item)
  }

  function Delivers(plans: seq<Plan>): Line -> int
  {
    (l: Line) => if l.plan < |plans| then |plans[l.plan].deliverables| else 0
  }

  function Recurs(plans: seq<Plan>): Line -> int
  {
    (l: Line) => if l.plan < |plans| && plans[l.plan].interval != NONE then 1 else 0
  }

  /** The line uses coupon `k`. */
  function Redeems(k: nat): Line -> int
  {
    (l: Line) => if l.coupon == Some(k) && l.discount > 0 then 1 else 0
  }

  /** What seller and platform together earn from a line: all of it, if its product has a seller whose
      commission does not exceed the price. */
  function Shared(plans: seq<Plan>): Line -> int
  {
    (l: Line) =>
      if l.plan < |plans| && plans[l.plan].seller.Some? && Commission(l.amount, plans[l.plan].seller.value.rate) <= l.amount
      then l.amount else 0
  }

  function Share(): Earning -> int { (e: Earning) => e.commission + e.net }

  /** The order of line `k`, paid, with the next invoice number. */
  ghost predicate LinePaid(t: Tables, o: Order, b: Basket, l: Line, k: nat)
  {
    var n := NewOrder(PurchaseOf(b, l), Some(b.checkout), WALLET);
    o == n.(status := PAID, charged := l.amount > 0, sub := o.sub, invoice := Some(MaxInvoice(t.orders) + 1 + k))
  }

  ghost predicate CartOrders(t: Tables, t2: Tables, b: Basket, lines: seq<Line>)
  {
    && |t2.orders| == |t.orders| + |lines| && t2.orders[..|t.orders|] == t.orders
    && (forall k :: 0 <= k < |lines| ==> LinePaid(t, t2.orders[|t.orders| + k], b, lines[k], k))
    && MaxInvoice(t2.orders) == MaxInvoice(t.orders) + |lines|
  }

  ghost predicate CartMoney(t: Tables, t2: Tables, b: Basket, lines: seq<Line>)
  {
    && (forall c :: BalanceOf(t2.books, c) == BalanceOf(t.books, c) - if c == b.customer then Sum(lines, LineAmount()) else 0)
    && t2.books.balances.Keys == t.books.balances.Keys
    && Sum(t2.earnings, Share()) == Sum(t.earnings, Share()) + Sum(lines, Shared(t.plans))
  }

  /** Every coupon counts the lines that use it, as far as its limit allows. */
  ghost predicate CartCoupons(cs: seq<CouponRow>, cs2: seq<CouponRow>, lines: seq<Line>)
  {
    && |cs2| == |cs|
    && forall k: nat :: k < |cs| ==>
         cs2[k].limit == cs[k].limit && cs2[k].used == Counted(cs[k].limit, cs[k].used + Sum(lines, Redeems(k)))
  }

  /** Deliverable `d` of order `id`, whose grants start at position `at`: its active grant, and for a
      license key its active license. */
  ghost predicate DeliveredAt(a2: Lifecycle.Access, o: Order, id: nat, at: int, plan: Plan, d: nat)
    requires d < |plan.deliverables|
  {
    var item := plan.deliverables[d];
    && 0 <= at + d < |a2.grants|
    && a2.grants[at + d] == Lifecycle.Grant(o.customer, id, o.sub, item.kind, Lifecycle.Granted)
    && (item.kind == Lifecycle.LICENSE_KEY ==>
          Lifecycle.License(o.customer, o.sub, at + d, Lifecycle.Granted, Lifecycle.SeatLimit(item, plan.seats)) in a2.licenses)
  }

  /** Subscription row `row` is that of the order, if its plan recurs. */
  ghost predicate SubscribedAt(a2: Lifecycle.Access, o: Order, plan: Plan, now: Instant, row: int)
  {
    if plan.interval == NONE then o.sub == None
    else 0 <= row < |a2.subs| && o.sub == Some(row) && a2.subs[row] == NewSub(o, plan, now)
  }

  /** Everything order `id` buys: its subscription as row `row`, its grants from position `at` on. */
  ghost predicate Bought(a2: Lifecycle.Access, o: Order, id: nat, plan: Plan, now: Instant, row: int, at: int)
  {
    SubscribedAt(a2, o, plan, now, row) && forall d: nat :: d < |plan.deliverables| ==> DeliveredAt(a2, o, id, at, plan, d)
  }

  /** Line `k` of a cart has bought everything, behind what the lines before it bought. */
  ghost predicate LineDelivered(a: Lifecycle.Access, a2: Lifecycle.Access, os: seq<Order>, n: nat, lines: seq<Line>,
                                plans: seq<Plan>, now: Instant, k: nat)
    requires k < |lines|
  {
    && n + k < |os| && lines[k].plan < |plans|
    && Bought(a2, os[n + k], n + k, plans[lines[k].plan], now,
              |a.subs| + Sum(lines[..k], Recurs(plans)), |a.grants| + Sum(lines[..k], Delivers(plans)))
  }

  /** The license is that of a license-key grant from position `from` on. */
  ghost predicate Backed(a: Lifecycle.Access, l: Lifecycle.License, from: nat)
  {
    && from <= l.grant < |a.grants|
    && var g := a.grants[l.grant];
       g.kind == Lifecycle.LICENSE_KEY && g.customer == l.customer && g.sub == l.sub
  }

  /** The licenses added are for grants added, at most one each. */
  ghost predicate OnlyBacked(a: Lifecycle.Access, a2: Lifecycle.Access)
  {
    && (forall i :: |a.licenses| <= i < |a2.licenses| ==> Backed(a2, a2.licenses[i], |a.grants|))
    && (forall i, j :: |a.licenses| <= i < j < |a2.licenses| ==> a2.licenses[i].grant < a2.licenses[j].grant)
  }

  /** The tables of a cart's access: what was there stays, every line has its subscription, grants and
      licenses, and nothing else is added. */
  ghost predicate CartAccess(a: Lifecycle.Access, a2: Lifecycle.Access, os: seq<Order>, n: nat, lines: seq<Line>,
                             plans: seq<Plan>, now: Instant)
  {
    && a.subs <= a2.subs && a.grants <= a2.grants && a.licenses <= a2.licenses
    && |a2.subs| == |a.subs| + Sum(lines, Recurs(plans)) && |a2.grants| == |a.grants| + Sum(lines, Delivers(plans))
    && (forall k: nat :: k < |lines| ==> LineDelivered(a, a2, os, n, lines, plans, now, k))
    && OnlyBacked(a, a2)
  }

  ghost predicate CartEffect(t: Tables, t2: Tables, b: Basket, lines: seq<Line>, now: Instant)
  {
    && CartOrders(t, t2, b, lines) && CartMoney(t, t2, b, lines)
    && CartAccess(t.access, t2.access, t2.orders, |t.orders|, lines, t.plans, now)
    && CartCoupons(t.coupons, t2.coupons, lines) && t2.plans == t.plans && t2.topups == t.topups && t2.refunds == t.refunds
    && t2.carts == t.carts && t2.checkouts == t.checkouts && t2.hooks == t.hooks
  }

  lemma LineAmounts(lines: seq<Line>)
    ensures Sum(lines, LineAmount()) >= 0
  {
  }

  lemma NotEarned(earnings: seq<Earning>, os: seq<Order>)
    requires Earnings(earnings, os)
    ensures forall e :: e in earnings ==> e.order != |os|
  {
    forall e | e in earnings ensures e.order != |os| {
      var k :| 0 <= k < |earnings| && earnings[k] == e;
      assert EarnedFrom(earnings[k], os);
    }
  }

  lemma AddedShare(earnings: seq<Earning>, os: seq<Order>, plans: seq<Plan>, o: Order, l: Line)
    requires Earnings(earnings, os) && o.plan == l.plan < |plans| && o.amount == l.amount
    ensures Sum(RecordEarning(earnings, |os|, o, plans[o.plan], FromCart), Share()) == Sum(earnings, Share()) + Shared(plans)(l)
  {
    hide Commission, Earnings, Sum;
    NotEarned(earnings, os);
    var after := RecordEarning(earnings, |os|, o, plans[o.plan], FromCart);
    if after != earnings {
      SumAppend(earnings, after[|earnings|], Share());
    }
  }

  lemma InsertedMax(os: seq<Order>, o: Order)
    requires o.invoice.None?
    ensures MaxInvoice(os + [o]) == MaxInvoice(os)
  {
  }

  lemma NextMax(os: seq<Order>, o: Order, p: Order)
    requires p.invoice == Some(MaxInvoice(os) + 1)
    ensures MaxInvoice((os + [o])[|os| := p]) == MaxInvoice(os) + 1
  {
  }

  lemma SumOne<T>(x: T, f: T -> int)
    ensures Sum([x], f) == f(x)
  {
  }

  /** One line succeeds exactly when it is ready and covered, with the effect of a one-line cart. */
  lemma LineIff(t: Tables, b: Basket, l: Line, now: Instant)
    requires Inv(t) && b.checkout < |t.checkouts|
    ensures FulfilLine(t, b, l, now).Ok? <==> LineReady(t, b, l) && Covers(t.books, b.customer, l.amount)
    ensures FulfilLine(t, b, l, now).Ok? ==> CartEffect(t, FulfilLine(t, b, l, now).value, b, [l], now)
  {
    hide Inv, Grows, Fulfil, Covers, Provisionable, KeyUsed, MaxInvoice, CartEffect, RecordEarning;
    AddLineKeeps(t, b, l, WALLET);
    if AddLine(t, b, l, WALLET).Ok? {
      var added := AddLine(t, b, l, WALLET).value;
      FulfilIff(added, |t.orders|, FromCart, now);
      if FulfilLine(t, b, l, now).Ok? {
        LineEffect(t, added, FulfilLine(t, b, l, now).value, b, l, now);
      }
    }
  }

  lemma InvEarnings(t: Tables)
    requires Inv(t)
    ensures Earnings(t.earnings, t.orders)
  {
  }

  lemma LineEffect(t: Tables, added: Tables, t2: Tables, b: Basket, l: Line, now: Instant)
    requires Inv(t) && RowsExist(t, PurchaseOf(b, l)) && added == AddOrder(t, NewOrder(PurchaseOf(b, l), Some(b.checkout), WALLET))
    requires FulfilEffect(added, t2, |t.orders|, FromCart, now)
    ensures CartEffect(t, t2, b, [l], now)
  {
    hide Inv, MaxInvoice, RecordEarning, UsesCoupon, Subscribed, Granted, CouponCounted, CartAccess, CartCoupons,
      Lifecycle.LicensesIssued;
    var o := added.orders[|t.orders|];
    InsertedMax(t.orders, o);
    NextMax(t.orders, o, t2.orders[|t.orders|]);
    SumOne(l, LineAmount());
    SumOne(l, Shared(t.plans));
    assert Earnings(t.earnings, t.orders) by { InvEarnings(t); }
    AddedShare(t.earnings, t.orders, t.plans, o, l);
    LineAccess(t.access, t2.access, t2.orders, |t.orders|, l, t.plans, now);
    assert Coupons(t.coupons, t.orders) by { InvCoupons(t); }
    LineCoupons(t.coupons, t.orders, t2.coupons, o, l);
  }

  lemma InvCoupons(t: Tables)
    requires Inv(t)
    ensures Coupons(t.coupons, t.orders)
  {
  }

  lemma LineCoupons(cs: seq<CouponRow>, os: seq<Order>, cs2: seq<CouponRow>, o: Order, l: Line)
    requires Coupons(cs, os) && CouponCounted(cs, cs2, o)
    requires o.discount == l.discount && o.coupon == if l.discount > 0 then l.coupon else None
    ensures CartCoupons(cs, cs2, [l])
  {
    forall k: nat | k < |cs|
      ensures cs2[k].limit == cs[k].limit && cs2[k].used == Counted(cs[k].limit, cs[k].used + Sum([l], Redeems(k)))
    {
      SumOne(l, Redeems(k));
    }
  }

  /** One fulfilled order in the terms of a cart. */
  lemma LineAccess(a: Lifecycle.Access, a2: Lifecycle.Access, os: seq<Order>, n: nat, l: Line, plans: seq<Plan>, now: Instant)
    requires n < |os| && os[n].plan == l.plan < |plans|
    requires var plan := plans[l.plan];
             Subscribed(a, a2, os[n], plan, now) && Granted(a, a2, os[n], n, plan.deliverables)
             && Lifecycle.LicensesIssued(a, a2, os[n].customer, os[n].sub, plan.seats, plan.deliverables)
    ensures CartAccess(a, a2, os, n, [l], plans, now)
  {
    hide Lifecycle.SeatLimit, NewSub;
    var o, plan, lines := os[n], plans[l.plan], [l];
    SumOne(l, Recurs(plans));
    SumOne(l, Delivers(plans));
    assert lines[..0] == [];
    forall d: nat | d < |plan.deliverables| ensures DeliveredAt(a2, o, n, |a.grants|, plan, d) {
      if plan.deliverables[d].kind == Lifecycle.LICENSE_KEY {
        assert Lifecycle.LicenseFor(a, o.customer, o.sub, plan.seats, plan.deliverables, d) in a2.licenses;
      }
    }
    assert LineDelivered(a, a2, os, n, lines, plans, now, 0);
    forall i | |a.licenses| <= i < |a2.licenses| ensures Backed(a2, a2.licenses[i], |a.grants|) {
      assert Lifecycle.IssuedFor(a, a2.licenses[i], o.customer, o.sub, plan.seats, plan.deliverables);
    }
  }

  /** What a line bought stays when more is added. */
  lemma LineStays(a: Lifecycle.Access, mid: Lifecycle.Access, a2: Lifecycle.Access, os: seq<Order>, os2: seq<Order>, n: nat,
                  front: seq<Line>, l: Line, plans: seq<Plan>, now: Instant, k: nat)
    requires k < |front| && LineDelivered(a, mid, os, n, front, plans, now, k) && os <= os2
    requires mid.subs <= a2.subs && mid.grants <= a2.grants && mid.licenses <= a2.licenses
    ensures LineDelivered(a, a2, os2, n, front + [l], plans, now, k)
  {
    hide Bought;
    assert (front + [l])[..k] == front[..k] && os2[n + k] == os[n + k];
    BoughtStays(mid, a2, os[n + k], n + k, plans[front[k].plan], now,
                |a.subs| + Sum(front[..k], Recurs(plans)), |a.grants| + Sum(front[..k], Delivers(plans)));
  }

  lemma BoughtStays(a: Lifecycle.Access, a2: Lifecycle.Access, o: Order, id: nat, plan: Plan, now: Instant, row: int, at: int)
    requires Bought(a, o, id, plan, now, row, at) && a.subs <= a2.subs && a.grants <= a2.grants && a.licenses <= a2.licenses
    ensures Bought(a2, o, id, plan, now, row, at)
  {
    hide Lifecycle.SeatLimit, NewSub;
    forall d: nat | d < |plan.deliverables| ensures DeliveredAt(a2, o, id, at, plan, d) {
      assert DeliveredAt(a, o, id, at, plan, d);
    }
  }

  lemma LineAdded(a: Lifecycle.Access, mid: Lifecycle.Access, a2: Lifecycle.Access, os: seq<Order>, n: nat,
                  front: seq<Line>, l: Line, plans: seq<Plan>, now: Instant)
    requires LineDelivered(mid, a2, os, n + |front|, [l], plans, now, 0)
    requires |mid.subs| == |a.subs| + Sum(front, Recurs(plans)) && |mid.grants| == |a.grants| + Sum(front, Delivers(plans))
    ensures LineDelivered(a, a2, os, n, front + [l], plans, now, |front|)
  {
    hide Bought;
    var lines, one := front + [l], [l];
    assert lines[..|front|] == front && one[..0] == [] && lines[|front|] == one[0];
    assert Sum(one[..0], Recurs(plans)) == 0 && Sum(one[..0], Delivers(plans)) == 0;
  }

  lemma BackedAdds(a: Lifecycle.Access, mid: Lifecycle.Access, a2: Lifecycle.Access)
    requires OnlyBacked(a, mid) && OnlyBacked(mid, a2) && |a.licenses| <= |mid.licenses| && |a.grants| <= |mid.grants|
    requires mid.grants <= a2.grants && mid.licenses <= a2.licenses
    ensures OnlyBacked(a, a2)
  {
    forall i | |a.licenses| <= i < |a2.licenses|
      ensures Backed(a2, a2.licenses[i], |a.grants|) && (i < |mid.licenses| ==> a2.licenses[i].grant < |mid.grants|)
    {
      if i < |mid.licenses| {
        assert Backed(mid, mid.licenses[i], |a.grants|);
      } else {
        assert Backed(a2, a2.licenses[i], |mid.grants|);
      }
    }
    forall i, j | |a.licenses| <= i < j < |a2.licenses| ensures a2.licenses[i].grant < a2.licenses[j].grant {
      if i < |mid.licenses| <= j {
        assert Backed(a2, a2.licenses[j], |mid.grants|);
      }
    }
  }

  lemma AccessAdds(a: Lifecycle.Access, mid: Lifecycle.Access, a2: Lifecycle.Access, os: seq<Order>, os2: seq<Order>, n: nat,
                   front: seq<Line>, l: Line, plans: seq<Plan>, now: Instant)
    requires CartAccess(a, mid, os, n, front, plans, now) && CartAccess(mid, a2, os2, n + |front|, [l], plans, now)
    requires os <= os2
    ensures CartAccess(a, a2, os2, n, front + [l], plans, now)
  {
    hide LineDelivered, OnlyBacked;
    SumOne(l, Recurs(plans));
    SumOne(l, Delivers(plans));
    SumAppend(front, l, Recurs(plans));
    SumAppend(front, l, Delivers(plans));
    BackedAdds(a, mid, a2);
    forall k: nat | k < |front| + 1 ensures LineDelivered(a, a2, os2, n, front + [l], plans, now, k) {
      if k < |front| {
        LineStays(a, mid, a2, os, os2, n, front, l, plans, now, k);
      } else {
        LineAdded(a, mid, a2, os2, n, front, l, plans, now);
      }
    }
  }

  lemma CouponsAdd(cs: seq<CouponRow>, mid: seq<CouponRow>, cs2: seq<CouponRow>, front: seq<Line>, l: Line)
    requires CartCoupons(cs, mid, front) && CartCoupons(mid, cs2, [l])
    ensures CartCoupons(cs, cs2, front + [l])
  {
    forall k: nat | k < |cs|
      ensures cs2[k].limit == cs[k].limit && cs2[k].used == Counted(cs[k].limit, cs[k].used + Sum(front + [l], Redeems(k)))
    {
      SumOne(l, Redeems(k));
      SumAppend(front, l, Redeems(k));
    }
  }

  lemma OrdersAdd(t: Tables, mid: Tables, t2: Tables, b: Basket, front: seq<Line>, l: Line)
    requires CartOrders(t, mid, b, front) && CartOrders(mid, t2, b, [l])
    ensures CartOrders(t, t2, b, front + [l])
  {
    hide MaxInvoice;
    var lines, n, m := front + [l], |t.orders|, |mid.orders|;
    forall k | 0 <= k < |lines| ensures LinePaid(t, t2.orders[n + k], b, lines[k], k) {
      if k < |front| {
        assert t2.orders[..m][n + k] == mid.orders[n + k];
      } else {
        assert t2.orders[m + 0] == t2.orders[n + k];
      }
    }
    assert t2.orders[..m][..n] == t2.orders[..n];
  }

  lemma MoneyAdds(t: Tables, mid: Tables, t2: Tables, b: Basket, front: seq<Line>, l: Line)
    requires CartMoney(t, mid, b, front) && CartMoney(mid, t2, b, [l]) && mid.plans == t.plans
    ensures CartMoney(t, t2, b, front + [l])
  {
    SumOne(l, LineAmount());
    SumOne(l, Shared(t.plans));
    SumAppend(front, l, LineAmount());
    SumAppend(front, l, Shared(t.plans));
  }

  /** Effects add up. */
  lemma CartEffects(t: Tables, mid: Tables, t2: Tables, b: Basket, front: seq<Line>, l: Line, now: Instant)
    requires CartEffect(t, mid, b, front, now) && CartEffect(mid, t2, b, [l], now)
    ensures CartEffect(t, t2, b, front + [l], now)
  {
    hide CartMoney, CartAccess, CartCoupons, LinePaid, MaxInvoice;
    OrdersAdd(t, mid, t2, b, front, l);
    MoneyAdds(t, mid, t2, b, front, l);
    AccessAdds(t.access, mid.access, t2.access, mid.orders, t2.orders, |t.orders|, front, l, t.plans, now);
    CouponsAdd(t.coupons, mid.coupons, t2.coupons, front, l);
  }

  /** A line is ready after the others exactly when it was ready before and repeats none of them. */
  lemma StillReady(t: Tables, mid: Tables, b: Basket, front: seq<Line>, l: Line, now: Instant)
    requires CartEffect(t, mid, b, front, now)
    ensures LineReady(mid, b, l) <==> LineReady(t, b, l) && forall j :: 0 <= j < |front| ==> front[j].item != l.item
  {
    hide MaxInvoice, Provisionable, CartMoney, CartAccess;
    var key, n := CartKey(b.cartRow, l.item), |t.orders|;
    forall j | 0 <= j < |front| ensures mid.orders[n + j].key == CartKey(b.cartRow, front[j].item) {
      assert LinePaid(t, mid.orders[n + j], b, front[j], j);
    }
    forall i | 0 <= i < n ensures mid.orders[i] == t.orders[i] {
      assert mid.orders[..n][i] == mid.orders[i];
    }
    if KeyUsed(mid.orders, key) {
      var i :| 0 <= i < |mid.orders| && mid.orders[i].key == key;
      if i >= n {
        var j := i - n;
        assert mid.orders[n + j].key == CartKey(b.cartRow, front[j].item);
      }
    }
    if KeyUsed(t.orders, key) {
      var i :| 0 <= i < n && t.orders[i].key == key;
      assert mid.orders[i].key == key;
    }
    forall j | 0 <= j < |front| && front[j].item == l.item ensures KeyUsed(mid.orders, key) {
      assert mid.orders[n + j].key == key;
    }
  }

  lemma ReadySplit(t: Tables, b: Basket, front: seq<Line>, l: Line)
    ensures LinesReady(t, b, front + [l]) <==>
              LinesReady(t, b, front) && LineReady(t, b, l) && forall j :: 0 <= j < |front| ==> front[j].item != l.item
  {
    hide LineReady;
    var lines := front + [l];
    assert lines[|front|] == l && forall k :: 0 <= k < |front| ==> lines[k] == front[k];
    if LinesReady(t, b, front + [l]) {
      assert forall j :: 0 <= j < |front| ==> lines[j].item != lines[|front|].item;
    }
  }

  /** The lines of a cart go through exactly when every line is ready, no line repeats, and the wallet
      really covers the total; the wallet then falls by exactly that total, every line has its paid
      order with the next invoice numbers, its subscription, its grants in order and its licenses, and
      every coupon counts the lines that use it. */
  lemma {:induction false} FulfilLinesIff(t: Tables, b: Basket, lines: seq<Line>, now: Instant)
    requires Inv(t) && b.checkout < |t.checkouts|
    ensures FulfilLines(t, b, lines, now).Ok? <==>
              LinesReady(t, b, lines) && Covers(t.books, b.customer, Sum(lines, LineAmount()))
    ensures FulfilLines(t, b, lines, now).Ok? ==> CartEffect(t, FulfilLines(t, b, lines, now).value, b, lines, now)
  {
    hide Inv, Grows, FulfilLine, CartEffect, LineReady, LinesReady, MaxInvoice;
    if lines != [] {
      var front, l := lines[..|lines| - 1], lines[|lines| - 1];
      assert lines == front + [l];
      FulfilLinesIff(t, b, front, now);
      LineAmounts(front);
      SumAppend(front, l, LineAmount());
      ReadySplit(t, b, front, l);
      if FulfilLines(t, b, front, now).Ok? {
        var mid := FulfilLines(t, b, front, now).value;
        LinesKeep(t, b, front, WALLET, now);
        CheckoutsGrow(t, mid);
        LineIff(mid, b, l, now);
        StillReady(t, mid, b, front, l, now);
        CoversSplit(t, mid, b, front, l, now);
        if FulfilLines(t, b, lines, now).Ok? {
          CartEffects(t, mid, FulfilLines(t, b, lines, now).value, b, front, l, now);
        }
      }
    } else {
      ReadyNone(t, b);
      NoEffect(t, b, lines, now);
    }
  }

  lemma ReadyNone(t: Tables, b: Basket)
    ensures LinesReady(t, b, [])
  {
  }

  lemma NoEffect(t: Tables, b: Basket, lines: seq<Line>, now: Instant)
    requires Inv(t) && lines == []
    ensures CartEffect(t, t, b, lines, now)
  {
    hide Inv;
    InvCoupons(t);
    assert Sum(lines, LineAmount()) == Sum(lines, Shared(t.plans)) == Sum(lines, Delivers(t.plans)) == 0;
    assert Sum(lines, Recurs(t.plans)) == 0 && forall k: nat :: Sum(lines, Redeems(k)) == 0;
  }

  lemma CoversSplit(t: Tables, mid: Tables, b: Basket, front: seq<Line>, l: Line, now: Instant)
    requires CartEffect(t, mid, b, front, now) && Covers(t.books, b.customer, Sum(front, LineAmount()))
    ensures Covers(mid.books, b.customer, l.amount) <==> Covers(t.books, b.customer, Sum(front, LineAmount()) + l.amount)
  {
    hide CartOrders, CartAccess, CartCoupons;
    LineAmounts(front);
    var c := b.customer;
    assert BalanceOf(mid.books, c) == BalanceOf(t.books, c) - Sum(front, LineAmount());
  }

  /** Every product has a seller whose commission is at most the price. */
  ghost predicate AllSold(plans: seq<Plan>, lines: seq<Line>)
  {
    forall k :: 0 <= k < |lines| ==>
      lines[k].plan < |plans| && plans[lines[k].plan].seller.Some? && plans[lines[k].plan].seller.value.rate <= 100
  }

  lemma SharedAll(plans: seq<Plan>, lines: seq<Line>)
    requires AllSold(plans, lines)
    ensures Sum(lines, Shared(plans)) == Sum(lines, LineAmount())
  {
    forall k | 0 <= k < |lines| ensures Shared(plans)(lines[k]) == LineAmount()(lines[k]) {
      Pricing.PercentOf(lines[k].amount, plans[lines[k].plan].seller.value.rate);
    }
    SumCongruence(lines, lines, Shared(plans), LineAmount());
  }

  /** A cart paid from a balance read as `seen` is all or nothing. It succeeds exactly when every line
      is ready and the wallet really covers the total. On success each line has its paid order,
      subscription, grants and licenses, the lines leave the cart, the wallet falls by exactly the
      total, every coupon counts its lines, and where every product has a seller the new commissions and nets sum
      to that total. On failure only the checkout row, created before the transaction, remains. */
  lemma CartCheckoutIff(t: Tables, customer: nat, cartRow: nat, lines: seq<Line>, pay: Method, seen: int, up: bool, now: Instant)
    requires Inv(t) && lines != [] && pay != StaticQris && seen >= Sum(lines, LineAmount())
    ensures var b := Basket(customer, cartRow, |t.checkouts|);
            var (t2, failure) := CheckoutCart(t, customer, cartRow, lines, pay, seen, up, now);
            var begun := t.(checkouts := t.checkouts + [true]);
            && (failure.None? <==> LinesReady(t, b, lines) && Covers(t.books, customer, Sum(lines, LineAmount())))
            && (failure.Some? ==> t2 == begun)
            && (failure.None? ==>
                  && CartEffect(begun, t2.(carts := t.carts), b, lines, now)
                  && t2.carts.Keys == t.carts.Keys && (forall other :: other in t.carts && other != cartRow ==> t2.carts[other] == t.carts[other])
                  && (cartRow in t.carts ==>
                        forall item :: item in t2.carts[cartRow] <==>
                          item in t.carts[cartRow] && forall k :: 0 <= k < |lines| ==> lines[k].item != item)
                  && (AllSold(t.plans, lines) ==>
                        Sum(t2.earnings, Share()) - Sum(t.earnings, Share())
                        == BalanceOf(t.books, customer) - BalanceOf(t2.books, customer)))
  {
    hide Inv, Grows, FulfilLines, CartOrders, CartAccess, CartCoupons, LineReady;
    var b := Basket(customer, cartRow, |t.checkouts|);
    var begun := t.(checkouts := t.checkouts + [true]);
    SelfKept(t);
    SameRowsKept(t, t, begun);
    FulfilLinesIff(begun, b, lines, now);
    SameReady(t, begun, b, lines);
    if AllSold(t.plans, lines) {
      SharedAll(t.plans, lines);
    }
  }

  lemma SameReady(t: Tables, t2: Tables, b: Basket, lines: seq<Line>)
    requires t2.plans == t.plans && t2.orders == t.orders && t2.coupons == t.coupons
    ensures LinesReady(t2, b, lines) <==> LinesReady(t, b, lines)
  {
  }

  // ---- Renewal ----

  /** A row of a recurring plan. */
  predicate Recurring(t: Tables, s: nat)
  {
    s < |t.access.subs| && t.access.subs[s].plan < |t.plans| && t.plans[t.access.subs[s].plan].interval != NONE
  }

  /** A renewal that is neither done already nor cancelled, from a copy ending at `copyEnd`. */
  predicate CanRenew(t: Tables, s: nat, copyEnd: Instant)
  {
    && Recurring(t, s) && Lifecycle.Linked(t.access)
    && !KeyUsed(t.orders, RenewalKey(s, Seconds(copyEnd))) && t.access.subs[s].status != Lifecycle.CANCELLED
  }

  ghost predicate RenewEffect(t: Tables, t2: Tables, s: nat, copyEnd: Instant, price: nat)
    requires s < |t.access.subs|
  {
    var row := t.access.subs[s];
    && t2.orders == t.orders + [Order(row.customer, row.plan, price, 0, None, PAID, true, RenewalKey(s, Seconds(copyEnd)),
                                      Some(s), None, 1, None, WALLET)]
    && (forall c :: BalanceOf(t2.books, c) == BalanceOf(t.books, c) - if c == row.customer then price else 0)
    && t2.books.balances.Keys == t.books.balances.Keys
    && row.plan < |t.plans| && Lifecycle.Linked(t.access)
    && t2 == t.(books := t2.books, orders := t2.orders, access := t2.access)
    && var next := NextPeriodEnd(copyEnd, t.plans[row.plan].interval);
       && next.Some? && t2.access == Lifecycle.Renew(t.access, s, next.value)
       && t2.access.subs == t.access.subs[s := row.(periodEnd := next.value, status := Lifecycle.ACTIVE)]
  }

  function PriceOf(t: Tables, s: nat): nat
    requires s < |t.access.subs| && t.access.subs[s].plan < |t.plans|
  {
    t.plans[t.access.subs[s].plan].price
  }

  /** The wallet exists and holds less than the price. */
  predicate Short(t: Tables, s: nat)
    requires s < |t.access.subs| && t.access.subs[s].plan < |t.plans|
  {
    var c := t.access.subs[s].customer;
    PriceOf(t, s) > 0 && c in t.books.balances && t.books.balances[c] < PriceOf(t, s)
  }

  /** A renewal charges exactly when it is due, the plan costs something and the wallet covers it; it
      then takes the price once, records one order under the period's key, and advances the row. A
      period already paid counts as renewed; a cancelled row, or a wallet that is merely short, is
      refused. Whatever does not charge changes nothing. */
  lemma RenewIff(t: Tables, s: nat, copyEnd: Instant)
    requires Inv(t)
    ensures var r := RenewSub(t, s, copyEnd);
            && (r.Ok? && r.value.0 != t <==>
                  CanRenew(t, s, copyEnd) && PriceOf(t, s) > 0 && Covers(t.books, t.access.subs[s].customer, PriceOf(t, s)))
            && (r.Ok? && r.value.0 != t ==> r.value.1 && RenewEffect(t, r.value.0, s, copyEnd, PriceOf(t, s)))
            && (r == Ok((t, true)) <==> Recurring(t, s) && KeyUsed(t.orders, RenewalKey(s, Seconds(copyEnd))))
            && (r == Ok((t, false)) <==>
                  Recurring(t, s) && !KeyUsed(t.orders, RenewalKey(s, Seconds(copyEnd)))
                  && (t.access.subs[s].status == Lifecycle.CANCELLED || Short(t, s)))
  {
    hide Sound, Accounts, Post, Recorded, Coupons, Invoices, Earnings, KeyUsed, NextPeriodEnd, Seconds, Lifecycle.Linked;
    Unrecorded(t.books.entries, t.topups, t.orders, t.refunds);
    if s < |t.access.subs| && t.access.subs[s].plan < |t.plans| {
      NextExistsIff(copyEnd, t.plans[t.access.subs[s].plan].interval);
      DebitEffect(t.books, Request(t.access.subs[s].customer, Debiting, PriceOf(t, s), PURCHASE, OrderRef(|t.orders|)));
    }
  }

  lemma NextExistsIff(end: Instant, interval: Interval)
    ensures NextPeriodEnd(end, interval).Some? <==> interval != NONE
  {
  }

  /** The rows a top-up's renewal loop visits are exactly the customer's auto-renewing ones in GRACE or
      SUSPENDED, newest first, each once. */
  lemma {:induction false} LapsedOfMeaning(subs: seq<Lifecycle.Sub>, c: nat)
    ensures forall s :: s in LapsedOf(subs, c) <==> 0 <= s < |subs| && Renewable(subs[s], c)
    ensures forall s :: s in LapsedOf(subs, c) <==>
              && 0 <= s < |subs| && subs[s].customer == c && subs[s].autoRenew
              && (subs[s].status == Lifecycle.GRACE || subs[s].status == Lifecycle.SUSPENDED)
    ensures forall j, k :: 0 <= j < k < |LapsedOf(subs, c)| ==> LapsedOf(subs, c)[j] > LapsedOf(subs, c)[k]
  {
    if subs != [] {
      var last := |subs| - 1;
      LapsedOfMeaning(subs[..last], c);
      var rest := LapsedOf(subs[..last], c);
      var head := if Renewable(subs[last], c) then [last] else [];
      assert LapsedOf(subs, c) == head + rest;
      assert forall s :: s in head + rest <==> s in head || s in rest;
      assert forall k :: 0 <= k < |rest| ==> rest[k] in rest;
    }
  }

  /** One turn of the renewal job, with nothing in between its charge and its update. It counts as
      charged what it charges and what is paid already, and then changes nothing; it moves a row to
      GRACE exactly when the row is ACTIVE, its period unpaid and the wallet merely short.
      `RenewalConcurrency.GracedIff` lets anything happen in between. */
  lemma DueTurnIff(t: Tables, s: nat, copies: seq<Lifecycle.Sub>)
    requires Inv(t) && s < |copies|
    ensures var (t2, turn) := DueNext(t, s, copies);
            var end := copies[s].periodEnd;
            var used := KeyUsed(t.orders, RenewalKey(s, Seconds(end)));
            var pays := CanRenew(t, s, end) && PriceOf(t, s) > 0 && Covers(t.books, t.access.subs[s].customer, PriceOf(t, s));
            && (turn == Charged <==> (Recurring(t, s) && used) || pays)
            && (turn == Charged && used ==> t2 == t)
            && (turn == Charged && !used ==> RenewEffect(t, t2, s, end, PriceOf(t, s)))
            && (turn == MovedToGrace <==>
                  Recurring(t, s) && !used && t.access.subs[s].status == Lifecycle.ACTIVE && Short(t, s))
            && (turn == MovedToGrace ==>
                  t2 == t.(access := Lifecycle.SetSub(t.access, s, t.access.subs[s].(status := Lifecycle.GRACE))))
            && (turn == Skipped <==>
                  Recurring(t, s) && !used && t.access.subs[s].status != Lifecycle.ACTIVE
                  && (t.access.subs[s].status == Lifecycle.CANCELLED || Short(t, s)))
            && (turn == Skipped || turn == Failed ==> t2 == t)
  {
    hide Inv, RenewSub, RenewEffect, Covers, KeyUsed, Seconds, Lifecycle.Linked;
    RenewIff(t, s, copies[s].periodEnd);
  }

  // ---- Earnings, manual confirmation, refunds ----

  /** A platform-paid order of a seller's product earns once: the commission is the rate's share rounded
      down, the seller gets the rest, and nothing is recorded when the rate exceeds 100 and the share
      with it, when the money went to the seller directly, or when the order has earned already. */
  lemma EarningIff(earnings: seq<Earning>, id: nat, o: Order, plan: Plan, path: Path)
    ensures var after := RecordEarning(earnings, id, o, plan, path);
            && (after != earnings <==>
                  && path != FromSeller && plan.seller.Some? && (forall e :: e in earnings ==> e.order != id)
                  && o.amount * plan.seller.value.rate < 100 * o.amount + 100)
            && (after != earnings ==>
                  && |after| == |earnings| + 1 && after[..|earnings|] == earnings
                  && var e := after[|earnings|];
                     && e.order == id && e.seller == plan.seller.value.id && e.gross == o.amount
                     && e.commission + e.net == o.amount
                     && 100 * e.commission <= o.amount * plan.seller.value.rate < 100 * e.commission + 100)
  {
    if plan.seller.Some? {
      Pricing.PercentOf(o.amount, plan.seller.value.rate);
    }
  }

  /** The seller's confirmation fulfils exactly the orders that await it and can be provisioned. No
      wallet moves and nothing is earned: the money went to the seller directly. */
  lemma ManualConfirmationIff(t: Tables, id: nat, now: Instant)
    requires Inv(t) && id < |t.orders|
    ensures var o, r := t.orders[id], ConfirmManual(t, id, now);
            && (r.Ok? && r.value != t <==> AwaitsSeller(o) && Provisionable(t.plans, o.plan))
            && (r.Ok? && r.value != t ==>
                  FulfilEffect(t, r.value, id, FromSeller, now) && r.value.earnings == t.earnings
                  && r.value.books == t.books)
            && (r.Err? <==> AwaitsSeller(o) && !Provisionable(t.plans, o.plan))
  {
    hide Inv, Provisionable, MaxInvoice, Granted, Subscribed, Lifecycle.LicensesIssued, Lifecycle.Provision, WithSubscription;
    if AwaitsSeller(t.orders[id]) {
      FulfilIff(t, id, FromSeller, now);
    }
  }

  /** A refund is approved exactly when it is still requested, its order cost something and the customer
      has a wallet. The wallet then rises by exactly the order's amount, the order is REFUNDED, the
      refund APPROVED, and nothing else changes. */
  lemma RefundIff(t: Tables, r: nat)
    requires Inv(t) && r < |t.refunds|
    ensures t.refunds[r].order.Some? && t.refunds[r].order.value < |t.orders|
    ensures var row, t2 := t.refunds[r], ApproveRefund(t, r);
            var i := row.order.value;
            && (t2 != t <==> row.status == REQUESTED && t.orders[i].amount > 0 && row.customer in t.books.balances)
            && (t2 != t ==>
                  && (forall c :: BalanceOf(t2.books, c)
                                  == BalanceOf(t.books, c) + if c == row.customer then t.orders[i].amount else 0)
                  && t2 == t.(books := t2.books, orders := t.orders[i := t.orders[i].(status := REFUNDED)],
                              refunds := t.refunds[r := row.(status := APPROVED)]))
  {
    hide Sound, Accounts, Post, Recorded, Coupons, Invoices, Earnings;
    RefundShaped(t, r);
    Unrecorded(t.books.entries, t.topups, t.orders, t.refunds);
    if t.refunds[r].status == REQUESTED && t.orders[t.refunds[r].order.value].amount > 0 {
      CreditEffect(t.books, RefundRequest(t.orders, t.refunds, r));
    }
  }

  lemma RefundShaped(t: Tables, r: nat)
    requires Inv(t) && r < |t.refunds|
    ensures t.refunds[r].order.Some? && t.refunds[r].order.value < |t.orders|
  {
    hide Sound, Linked, AllBalanced, Described, Coupons, Invoices, Earnings;
  }

  // ---- Access ----

  /** The lifecycle event that fulfilling order `id` is. */
  function PurchaseEvent(t: Tables, id: nat, now: Instant): Lifecycle.Event
    requires id < |t.orders| && t.orders[id].plan < |t.plans|
  {
    var o, plan := t.orders[id], t.plans[t.orders[id].plan];
    match FirstPeriodEnd(now, plan.interval, o.duration)
    case None => Lifecycle.BoughtOnce(o.customer, id, plan.seats, plan.deliverables)
    case Some(end) => Lifecycle.Bought(o.customer, o.plan, id, end, plan.seats, plan.deliverables)
  }

  /** To subscriptions, grants and licenses a fulfilled order is that event, so they stay in step. */
  lemma PurchasesAreEvents(t: Tables, id: nat, path: Path, now: Instant)
    requires Lifecycle.Lockstep(t.access) && Fulfil(t, id, path, now).Ok?
    ensures var after := Fulfil(t, id, path, now).value.access;
            after == Lifecycle.Apply(t.access, PurchaseEvent(t, id, now)) && Lifecycle.Lockstep(after)
  {
    hide Charge, UseCoupon, RecordEarning, MaxInvoice, Lifecycle.Provision, Lifecycle.Lockstep, FirstPeriodEnd;
    Lifecycle.ApplyLockstepIff(t.access, PurchaseEvent(t, id, now));
  }

  /** A charged renewal is a renewal event, a move to GRACE a downgrade; every turn of the renewal job
      keeps subscriptions, grants and licenses in step. */
  lemma RenewalsAreEvents(t: Tables, s: nat, copies: seq<Lifecycle.Sub>)
    requires Lifecycle.Lockstep(t.access)
    ensures var (t2, turn) := DueNext(t, s, copies);
            && Lifecycle.Lockstep(t2.access)
            && (turn == MovedToGrace ==> t2.access == Lifecycle.Apply(t.access, Lifecycle.Downgraded(s)))
            && (turn == Charged && t2.access != t.access ==>
                  s < |t.access.subs| && t.access.subs[s].plan < |t.plans| && s < |copies|
                  && var next := NextPeriodEnd(copies[s].periodEnd, t.plans[t.access.subs[s].plan].interval);
                     next.Some? && t2.access == Lifecycle.Apply(t.access, Lifecycle.Renewed(s, next.value)))
  {
    hide Lifecycle.Lockstep, Post, KeyUsed, Seconds, NextPeriodEnd, Lifecycle.Cascade, Lifecycle.Paired;
    Lifecycle.ApplyLockstepIff(t.access, Lifecycle.Downgraded(s));
    if s < |copies| && s < |t.access.subs| && t.access.subs[s].plan < |t.plans| {
      var next := NextPeriodEnd(copies[s].periodEnd, t.plans[t.access.subs[s].plan].interval);
      if next.Some? {
        Lifecycle.ApplyLockstepIff(t.access, Lifecycle.Renewed(s, next.value));
      }
    }
  }
}
