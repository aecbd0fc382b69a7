/** The billing services as they run: row by row, loop by loop, with rollback to a savepoint. Each is
    proved equal to its specification in module Billing. */
module BillingService {
  import opened Prelude
  import opened Keys
  import opened Ledger
  import opened Calendar
  import opened Lifecycle
  import opened LifecycleService
  import opened Billing
  import Pricing

  // ---- Facts the loops need ----

  lemma {:induction false} ProvisionLinked(a: Access, customer: nat, order: nat, sub: Option<nat>, seats: nat, ds: seq<Deliverable>)
    requires Linked(a) && Provision(a, customer, order, sub, seats, ds).Some?
    ensures Linked(Provision(a, customer, order, sub, seats, ds).value)
  {
    if ds != [] {
      ProvisionLinked(a, customer, order, sub, seats, ds[..|ds| - 1]);
    }
  }

  lemma FulfilLinked(t: Tables, id: nat, path: Path, now: Instant)
    requires Linked(t.access) && Fulfil(t, id, path, now).Ok?
    ensures Linked(Fulfil(t, id, path, now).value.access)
  {
    hide Charge, UseCoupon, RecordEarning, MaxInvoice, Linked, Provision;
    var o := t.orders[id];
    var plan := t.plans[o.plan];
    var (a, sub) := WithSubscription(t.access, o, plan, now);
    assert Linked(a) by { SubsLinked(t.access, a); }
    ProvisionLinked(a, o.customer, id, sub, plan.seats, plan.deliverables);
  }

  lemma SubsLinked(a: Access, b: Access)
    requires Linked(a) && b.grants == a.grants && b.licenses == a.licenses
    ensures Linked(b)
  {
  }

  lemma {:induction false} LinesFail(t: Tables, b: Basket, lines: seq<Line>, k: nat, channel: Channel, now: Instant)
    requires k <= |lines|
    ensures FulfilLines(t, b, lines[..k], now).Err? ==> FulfilLines(t, b, lines, now) == FulfilLines(t, b, lines[..k], now)
    ensures PendLines(t, b, lines[..k], channel).Err? ==> PendLines(t, b, lines, channel) == PendLines(t, b, lines[..k], channel)
  {
    hide FulfilLine, AddLine;
    if k == |lines| {
      assert lines[..k] == lines;
    } else {
      assert lines[..|lines| - 1][..k] == lines[..k];
      LinesFail(t, b, lines[..|lines| - 1], k, channel, now);
    }
  }

  lemma LapsedSplit(subs: seq<Sub>, i: nat, customer: nat)
    requires i < |subs|
    ensures LapsedOf(subs[..i + 1], customer) == (if Renewable(subs[i], customer) then [i] else []) + LapsedOf(subs[..i], customer)
  {
    assert subs[..i + 1][..i] == subs[..i];
  }

  lemma LapsedNone(customer: nat)
    ensures LapsedOf([], customer) == []
  {
  }

  // ---- The database ----

  class Database {
    const wallets: WalletService
    const access: AccessTables
    var plans: seq<Plan>
    var coupons: seq<CouponRow>
    var orders: seq<Order>
    var topups: seq<TopUp>
    var refunds: seq<Refund>
    var earnings: seq<Earning>
    var carts: map<nat, set<nat>>
    var checkouts: seq<bool>
    var hooks: map<string, bool>

    function Now(): Tables
      reads this, wallets, access
    {
      Tables(wallets.Now(), access.Rows(), plans, coupons, orders, topups, refunds, earnings, carts, checkouts, hooks)
    }

    ghost predicate Valid()
      reads this, wallets, access
    {
      Linked(access.Rows())
    }

    constructor ()
      ensures Valid() && fresh(wallets) && fresh(access)
      ensures Now() == Tables(Books(map[], []), Access([], [], []), [], [], [], [], [], [], map[], [], map[])
    {
      wallets := new WalletService();
      access := new AccessTables();
      plans, coupons, orders, topups, refunds, earnings := [], [], [], [], [], [];
      carts, checkouts, hooks := map[], [], map[];
    }

    /** Rolls a transaction back. */
    method Restore(saved: Tables)
      modifies this, wallets, access
      ensures Now() == saved
    {
      wallets.balances, wallets.entries := saved.books.balances, saved.books.entries;
      access.subs, access.grants, access.licenses := saved.access.subs, saved.access.grants, saved.access.licenses;
      plans, coupons, orders, topups := saved.plans, saved.coupons, saved.orders, saved.topups;
      refunds, earnings, carts := saved.refunds, saved.earnings, saved.carts;
      checkouts, hooks := saved.checkouts, saved.hooks;
    }

    // ---- Steps of a fulfilment ----

    /** `_assign_invoice_number`: one above the highest in use, unless there is one already. */
    method AssignInvoiceNumber(id: nat)
      requires id < |orders|
      modifies this`orders
      ensures orders == old(orders)[id := old(orders)[id].(invoice :=
                if old(orders)[id].invoice.Some? then old(orders)[id].invoice else Some(MaxInvoice(old(orders)) + 1))]
    {
      if orders[id].invoice.Some? {
        return;
      }
      var last := 0;
      for i := 0 to |orders|
        invariant last == MaxInvoice(orders[..i])
      {
        assert orders[..i + 1][..i] == orders[..i];
        if orders[i].invoice.Some? && orders[i].invoice.value > last {
          last := orders[i].invoice.value;
        }
      }
      assert orders[..|orders|] == orders;
      orders := orders[id := orders[id].(invoice := Some(last + 1))];
    }

    /** The conditional UPDATE of a coupon's counter: whether a row changed, or none should have. */
    method IncrementCouponUsage(id: nat, path: Path) returns (ok: bool)
      requires id < |orders|
      modifies this`coupons
      ensures match UseCoupon(old(coupons), orders[id], path)
              case Some(after) => ok && coupons == after
              case None => !ok && coupons == old(coupons)
    {
      var o := orders[id];
      if !UsesCoupon(o) || o.coupon.value >= |coupons| {
        return true;
      }
      var c := coupons[o.coupon.value];
      if c.limit == 0 || c.used < c.limit {
        coupons := coupons[o.coupon.value := c.(used := c.used + 1)];
        return true;
      }
      return path != FromBalance;
    }

    /** `_create_subscription`, for recurring plans. */
    method CreateSubscription(id: nat, plan: Plan, now: Instant) returns (sub: Option<nat>)
      requires id < |orders|
      modifies access`subs
      ensures (access.Rows(), sub) == WithSubscription(old(access.Rows()), orders[id], plan, now)
    {
      var end := FirstPeriodEnd(now, plan.interval, orders[id].duration);
      if end.None? {
        return None;
      }
      sub := Some(|access.subs|);
      access.subs := access.subs + [Sub(orders[id].customer, orders[id].plan, ACTIVE, end.value, true)];
    }

    /** `_record_seller_earning`: get or create, with errors only logged. */
    method RecordSellerEarning(id: nat, plan: Plan, path: Path)
      requires id < |orders|
      modifies this`earnings
      ensures earnings == RecordEarning(old(earnings), id, orders[id], plan, path)
    {
      if path == FromSeller || plan.seller.None? {
        return;
      }
      var gross := orders[id].amount;
      var commission := Commission(gross, plan.seller.value.rate);
      var k := 0;
      while k < |earnings|
        invariant 0 <= k <= |earnings|
        invariant forall j :: 0 <= j < k ==> earnings[j].order != id
      {
        if earnings[k].order == id {
          assert earnings[k] in earnings;
          return;
        }
        k := k + 1;
      }
      if commission <= gross {
        earnings := earnings + [Earning(id, plan.seller.value.id, gross, commission, gross - commission)];
      }
    }

    /** The coupon's counter and the debit; after a failure the caller rolls back. */
    method TakePayment(id: nat, path: Path) returns (failure: Option<Failure>)
      requires id < |orders|
      modifies this`coupons, wallets
      ensures match UseCoupon(old(coupons), orders[id], path)
              case None => failure == Some(CouponLimit)
              case Some(counted) =>
                match Charge(old(wallets.Now()), orders[id], id, path)
                case Err(e) => failure == Some(FromLedger(e))
                case Ok(books) => failure.None? && coupons == counted && wallets.Now() == books
    {
      hide Post, UseCoupon;
      var counted := IncrementCouponUsage(id, path);
      if !counted {
        return Some(CouponLimit);
      }
      if Debits(orders[id], path) {
        var result := wallets.Debit(orders[id].customer, orders[id].amount, PURCHASE, OrderRef(id));
        if result.Err? {
          return Some(FromLedger(result.error));
        }
      }
      return None;
    }

    /** The paid order's subscription, grants, earning and invoice number; after a failure the caller
        rolls back. */
    method DeliverOrder(id: nat, plan: Plan, path: Path, now: Instant) returns (failure: Option<Failure>)
      requires id < |orders|
      modifies this`orders, this`earnings, access
      ensures var o, (a, sub) := old(orders)[id], WithSubscription(old(access.Rows()), old(orders)[id], plan, now);
              match Provision(a, o.customer, id, sub, plan.seats, plan.deliverables)
              case None => failure == Some(NoProvisioner)
              case Some(after) =>
                && failure.None? && access.Rows() == after
                && earnings == RecordEarning(old(earnings), id, o, plan, path)
                && orders == old(orders)[id := o.(status := PAID, charged := Debits(o, path), sub := sub,
                     invoice := if o.invoice.Some? then o.invoice else Some(MaxInvoice(old(orders)) + 1))]
    {
      hide Provision, WithSubscription, RecordEarning, MaxInvoice;
      var sub := CreateSubscription(id, plan, now);
      var provisioned := access.ProvisionOrder(orders[id].customer, id, sub, plan.seats, plan.deliverables);
      if !provisioned {
        return Some(NoProvisioner);
      }
      RecordSellerEarning(id, plan, path);
      AssignInvoiceNumber(id);
      orders := orders[id := orders[id].(status := PAID, charged := Debits(orders[id], path), sub := sub)];
      return None;
    }

    /** The transaction shared by the paying services. */
    method FulfilOrder(id: nat, path: Path, now: Instant) returns (failure: Option<Failure>)
      requires Valid()
      modifies this, wallets, access
      ensures Valid()
      ensures match Fulfil(old(Now()), id, path, now)
              case Ok(after) => failure.None? && Now() == after
              case Err(e) => failure == Some(e) && Now() == old(Now())
    {
      hide Charge, Provision, WithSubscription, UseCoupon, RecordEarning, MaxInvoice, Linked, Debits;
      if id >= |orders| || orders[id].plan >= |plans| {
        return Some(MissingRow);
      }
      ghost var was := Now();
      var saved := Now();
      failure := TakePayment(id, path);
      if failure.None? {
        failure := DeliverOrder(id, plans[orders[id].plan], path, now);
      }
      if failure.Some? {
        Restore(saved);
        return;
      }
      FulfilLinked(was, id, path, now);
    }

    // ---- Completing and confirming ----

    /** `complete_pending_order`. */
    method CompletePendingOrder(id: nat, now: Instant) returns (failure: Option<Failure>)
      requires Valid()
      modifies this, wallets, access
      ensures Valid()
      ensures match CompletePending(old(Now()), id, now)
              case Ok(after) => failure.None? && Now() == after
              case Err(e) => failure == Some(e) && Now() == old(Now())
    {
      hide Fulfil, Linked;
      if id >= |orders| {
        return Some(MissingRow);
      }
      if orders[id].status != PENDING {
        return None;
      }
      failure := FulfilOrder(id, FromTopUp, now);
      if failure == Some(FromLedger(InsufficientBalance)) {
        failure := None;
      }
    }

    /** `confirm_manual_payment`. */
    method ConfirmManualPayment(id: nat, now: Instant) returns (failure: Option<Failure>)
      requires Valid()
      modifies this, wallets, access
      ensures Valid()
      ensures match ConfirmManual(old(Now()), id, now)
              case Ok(after) => failure.None? && Now() == after
              case Err(e) => failure == Some(e) && Now() == old(Now())
    {
      hide Fulfil, Linked;
      if id >= |orders| {
        return Some(MissingRow);
      }
      if !AwaitsSeller(orders[id]) {
        return None;
      }
      failure := FulfilOrder(id, FromSeller, now);
    }

    /** `reject_manual_payment`. */
    method RejectManualPayment(id: nat)
      modifies this`orders
      ensures Now() == RejectManual(old(Now()), id)
    {
      if id < |orders| && AwaitsSeller(orders[id]) {
        orders := orders[id := orders[id].(status := FAILED)];
      }
    }

    /** The query for a cart's pending orders, newest first. */
    method PendingOrders(cart: nat) returns (ids: seq<nat>)
      ensures ids == PendingOf(orders, cart)
    {
      ids := [];
      var i := |orders|;
      assert orders[..i] == orders;
      while i > 0
        invariant 0 <= i <= |orders|
        invariant ids + PendingOf(orders[..i], cart) == PendingOf(orders, cart)
      {
        assert orders[..i][..i - 1] == orders[..i - 1];
        i := i - 1;
        if orders[i].cart == Some(cart) && orders[i].status == PENDING {
          ids := ids + [i];
        }
      }
    }

    /** `complete_cart_checkout`, or with `seller` `confirm_cart_manual_payment`. */
    method CompleteCartCheckout(cart: nat, seller: bool, now: Instant) returns (failure: Option<Failure>)
      requires Valid()
      modifies this, wallets, access
      ensures Valid()
      ensures (Now(), failure) == CompleteCart(old(Now()), cart, seller, now)
    {
      hide CompletePending, ConfirmManual, Linked, PendingOf;
      ghost var was := Now();
      var ids := PendingOrders(cart);
      var k := 0;
      while k < |ids|
        invariant 0 <= k <= |ids| && Valid()
        invariant CompleteAll(was, ids, seller, now) == CompleteAll(Now(), ids[k..], seller, now)
      {
        assert ids[k..][1..] == ids[k + 1..];
        if seller {
          failure := ConfirmManualPayment(ids[k], now);
        } else {
          failure := CompletePendingOrder(ids[k], now);
        }
        if failure.Some? {
          return;
        }
        k := k + 1;
      }
      if cart < |checkouts| {
        checkouts := checkouts[cart := true];
      }
      failure := None;
    }

    /** The seller's rejection of a cart: every pending line in turn. */
    method RejectCart(cart: nat)
      modifies this`orders
      ensures Now() == RejectAll(old(Now()), PendingOf(old(orders), cart))
    {
      hide RejectManual, PendingOf;
      ghost var was := Now();
      var ids := PendingOrders(cart);
      var k := 0;
      while k < |ids|
        invariant 0 <= k <= |ids|
        invariant RejectAll(was, ids) == RejectAll(Now(), ids[k..])
        invariant wallets.Now() == was.books && access.Rows() == was.access
      {
        assert ids[k..][1..] == ids[k + 1..];
        RejectManualPayment(ids[k]);
        k := k + 1;
      }
    }

    // ---- Renewal ----

    /** The unique-key lookup on orders. */
    method FindOrder(key: OrderKey) returns (found: Option<nat>)
      ensures found == FindKey(orders, key)
    {
      var i := |orders|;
      assert orders[..i] == orders;
      while i > 0
        invariant 0 <= i <= |orders|
        invariant FindKey(orders[..i], key) == FindKey(orders, key)
      {
        assert orders[..i][..i - 1] == orders[..i - 1];
        i := i - 1;
        if orders[i].key == key {
          return Some(i);
        }
      }
      return None;
    }

    /** `renew_subscription` from a copy of the row whose period ended at `copyEnd`. */
    method RenewSubscription(s: nat, copyEnd: Instant) returns (r: Result<bool, Failure>)
      requires Valid()
      modifies this, wallets, access
      ensures Valid()
      ensures match RenewSub(old(Now()), s, copyEnd)
              case Ok((after, paid)) => r == Ok(paid) && Now() == after
              case Err(e) => r == Err(e) && Now() == old(Now())
    {
      hide Post, NextPeriodEnd, Seconds, FindKey, Linked, Cascade;
      if s >= |access.subs| || access.subs[s].plan >= |plans| {
        return Err(MissingRow);
      }
      var saved := Now();
      var key := RenewalKey(s, Seconds(copyEnd));
      var plan := plans[access.subs[s].plan];
      var nextEnd := NextPeriodEnd(copyEnd, plan.interval);
      if nextEnd.None? {
        return Err(NonRecurring);
      }
      var renewed := FindOrder(key);
      if renewed.Some? {
        return Ok(true);
      }
      if access.subs[s].status == CANCELLED {
        return Ok(false);
      }
      var id := |orders|;
      var customer := access.subs[s].customer;
      orders := orders + [Order(customer, access.subs[s].plan, plan.price, 0, None, PENDING, false, key, Some(s), None, 1, None, WALLET)];
      var result := wallets.Debit(customer, plan.price, PURCHASE, OrderRef(id));
      if result.Err? {
        Restore(saved);
        return if result.error == InsufficientBalance then Ok(false) else Err(FromLedger(result.error));
      }
      orders := orders[id := orders[id].(status := PAID, charged := true)];
      access.AdvanceSubscription(s, nextEnd.value);
      RenewLinked(saved.access, s, nextEnd.value);
      return Ok(true);
    }

    /** The query for a customer's lapsed auto-renewing subscriptions, newest first. */
    method LapsedSubscriptions(customer: nat) returns (ids: seq<nat>)
      ensures ids == LapsedOf(access.subs, customer)
    {
      hide LapsedOf;
      var rows := access.subs;
      ids := [];
      var i := |rows|;
      assert rows[..i] == rows;
      while i > 0
        invariant 0 <= i <= |rows|
        invariant ids + LapsedOf(rows[..i], customer) == LapsedOf(rows, customer)
      {
        LapsedSplit(rows, i - 1, customer);
        i := i - 1;
        if Renewable(rows[i], customer) {
          ids := ids + [i];
        }
      }
      LapsedNone(customer);
    }

    /** `try_renew_grace_subscriptions`: errors are logged, never raised. */
    method TryRenewGrace(customer: nat)
      requires Valid()
      modifies this, wallets, access
      ensures Valid()
      ensures Now() == RenewAll(old(Now()), LapsedOf(old(access.subs), customer), old(access.subs))
    {
      hide RenewSub, LapsedOf, Linked;
      ghost var was := Now();
      var copies := access.subs;
      var ids := LapsedSubscriptions(customer);
      var k := 0;
      while k < |ids|
        invariant 0 <= k <= |ids| && Valid()
        invariant RenewAll(was, ids, copies) == RenewAll(Now(), ids[k..], copies)
      {
        assert ids[k..][1..] == ids[k + 1..];
        if ids[k] < |copies| {
          var _ := RenewSubscription(ids[k], copies[ids[k]].periodEnd);
        }
        k := k + 1;
      }
    }

    // ---- Top-ups ----

    /** `initiate_topup` up to the gateway call. */
    method InitiateTopUp(customer: nat, amount: int, bonus: int) returns (ok: bool)
      modifies this`topups
      ensures match NewTopUp(old(Now()), customer, amount, bonus)
              case Some(after) => ok && Now() == after
              case None => !ok && Now() == old(Now())
    {
      if amount <= 0 || bonus < 0 {
        return false;
      }
      topups := topups + [TopUp(customer, amount, bonus, AWAITING, None, None)];
      return true;
    }

    /** Saves what a top-up pays for. */
    method SaveLink(id: nat, order: Option<nat>, cart: Option<nat>)
      modifies this`topups
      ensures Now() == LinkTopUp(old(Now()), id, order, cart)
    {
      if id < |topups| {
        topups := topups[id := topups[id].(order := order, cart := cart)];
      }
    }

    /** Both credits and the PAID status, in one transaction. */
    method CreditConfirmed(id: nat) returns (failure: Option<LedgerError>)
      requires id < |topups|
      modifies this, wallets, access
      ensures match CreditTopUp(old(Now()), id)
              case Ok(after) => failure.None? && Now() == after
              case Err(e) => failure == Some(e) && Now() == old(Now())
    {
      hide Post;
      var saved := Now();
      var u := topups[id];
      var first := wallets.Credit(u.customer, u.amount, TOPUP, TopUpRef(id));
      if first.Err? {
        Restore(saved);
        return Some(first.error);
      }
      if u.bonus > 0 {
        var second := wallets.Credit(u.customer, u.bonus, BONUS, BonusRef(id));
        if second.Err? {
          Restore(saved);
          return Some(second.error);
        }
      }
      topups := topups[id := u.(status := SETTLED)];
      return None;
    }

    /** `_apply_topup_success`. */
    method ApplyTopUpSuccess(id: nat, cut: bool, now: Instant) returns (failure: Option<Failure>)
      requires Valid() && id < |topups|
      modifies this, wallets, access
      ensures Valid()
      ensures (Now(), failure) == ApplyTopUp(old(Now()), id, cut, now)
    {
      hide CreditTopUp, CompletePending, CompleteCart, RenewAll, LapsedOf, Linked;
      if topups[id].status == SETTLED {
        return None;
      }
      var u := topups[id];
      ghost var was := Now();
      CreditAccess(was, id);
      var error := CreditConfirmed(id);
      if error.Some? {
        return Some(FromLedger(error.value));
      }
      if cut {
        return Some(Interrupted);
      }
      if u.order.Some? {
        failure := CompletePendingOrder(u.order.value, now);
        if failure.Some? {
          return;
        }
      }
      if u.cart.Some? {
        failure := CompleteCartCheckout(u.cart.value, false, now);
        if failure.Some? {
          return;
        }
      }
      TryRenewGrace(u.customer);
      return None;
    }

    /** `process_webhook_payload`. */
    method ProcessWebhook(key: string, event: Billing.Event, topup: nat, amount: int, net: int, cut: bool, now: Instant)
      returns (failure: Option<Failure>)
      requires Valid()
      modifies this, wallets, access
      ensures Valid()
      ensures (Now(), failure) == Webhook(old(Now()), key, event, topup, amount, net, cut, now)
    {
      hide ApplyTopUp, Linked;
      if key in hooks {
        return None;
      }
      hooks := hooks[key := false];
      assert hooks[key := true] == old(hooks)[key := true];
      match event {
        case Test =>
          hooks := hooks[key := true];
          return None;
        case Other =>
          return None;
        case _ =>
      }
      if topup >= |topups| {
        return Some(TopUpNotFound);
      }
      if event == Declined || event == Billing.Lapsed {
        if topups[topup].status == AWAITING {
          topups := topups[topup := topups[topup].(status := if event == Declined then DECLINED else EXPIRED)];
        }
        hooks := hooks[key := true];
        return None;
      }
      if topups[topup].amount != amount && topups[topup].amount != net {
        return None;
      }
      failure := ApplyTopUpSuccess(topup, cut, now);
      if failure.None? {
        hooks := hooks[key := true];
      }
    }

    /** `recheck_topup_status`. */
    method RecheckTopUp(id: nat, overdue: bool)
      modifies this`topups
      ensures Now() == Recheck(old(Now()), id, overdue)
    {
      if id < |topups| && topups[id].status == AWAITING && overdue {
        topups := topups[id := topups[id].(status := EXPIRED)];
      }
    }

    /** `process_due_renewals`, over the ids its query selected, with nothing else between the two
        transactions of a turn. */
    method ProcessDueRenewals(ids: seq<nat>) returns (turns: seq<Turn>)
      requires Valid()
      modifies this, wallets, access
      ensures Valid()
      ensures (Now(), turns) == DueAll(old(Now()), ids, old(access.subs))
    {
      hide RenewSub, DueNext, Linked;
      ghost var was := Now();
      var copies := access.subs;
      turns := [];
      var k := 0;
      while k < |ids|
        invariant 0 <= k <= |ids| && Valid()
        invariant DueAll(was, ids, copies).0 == DueAll(Now(), ids[k..], copies).0
        invariant DueAll(was, ids, copies).1 == turns + DueAll(Now(), ids[k..], copies).1
      {
        assert ids[k..][1..] == ids[k + 1..];
        var turn := DueRenewal(ids[k], copies);
        turns := turns + [turn];
        k := k + 1;
      }
      assert DueAll(was, ids, copies).1 == turns;
    }

    method DueRenewal(s: nat, copies: seq<Sub>) returns (turn: Turn)
      requires Valid()
      modifies this, wallets, access
      ensures Valid()
      ensures (Now(), turn) == DueNext(old(Now()), s, copies)
    {
      hide Linked, RenewSub;
      if s >= |copies| {
        return Failed;
      }
      RefusedRow(Now(), s, copies[s].periodEnd);
      var r := RenewSubscription(s, copies[s].periodEnd);
      if r.Err? {
        return Failed;
      }
      if r.value {
        return Charged;
      }
      var updated := MoveToGrace(s);
      return if updated then MovedToGrace else Skipped;
    }

    /** The job's conditional update, a transaction of its own. */
    method MoveToGrace(s: nat) returns (updated: bool)
      requires Valid() && s < |access.subs|
      modifies access
      ensures Valid() && Now() == old(Now()).(access := Downgrade(old(access.Rows()), s))
      ensures updated <==> old(access.subs[s].status) == ACTIVE
    {
      hide Linked;
      updated := access.subs[s].status == ACTIVE;
      if updated {
        SubsLinked(access.Rows(), Downgrade(access.Rows(), s));
        access.subs := access.subs[s := access.subs[s].(status := GRACE)];
      }
    }

    // ---- Checkout ----

    method InsertOrder(o: Order)
      modifies this`orders
      ensures Now() == AddOrder(old(Now()), o)
    {
      orders := orders + [o];
    }

    /** A free plan. */
    method CheckoutFree(p: Purchase) returns (outcome: Outcome)
      requires Valid()
      modifies this, wallets, access
      ensures Valid()
      ensures (Now(), outcome) == FreeCheckout(old(Now()), p)
    {
      hide Provision, RecordEarning, Linked;
      var id := |orders|;
      if p.plan >= |plans| {
        return Refused(MissingRow);
      }
      var saved := Now();
      var plan := plans[p.plan];
      InsertOrder(Order(p.customer, p.plan, 0, 0, None, PAID, false, p.key, None, None, 1, None, WALLET));
      var provisioned := access.ProvisionOrder(p.customer, id, None, plan.seats, plan.deliverables);
      if !provisioned {
        Restore(saved);
        return Refused(NoProvisioner);
      }
      ProvisionLinked(saved.access, p.customer, id, None, plan.seats, plan.deliverables);
      RecordSellerEarning(id, plan, FromBalance);
      return Fulfilled(id);
    }

    /** A purchase at a positive or zero price. */
    method CheckoutPriced(p: Purchase, pay: Method, direct: bool, seen: int, gatewayUp: bool, now: Instant)
      returns (outcome: Outcome)
      requires Valid() && p.plan < |plans|
      modifies this, wallets, access
      ensures Valid()
      ensures (Now(), outcome) == PricedCheckout(old(Now()), p, pay, direct, seen, gatewayUp, now)
    {
      hide Fulfil, Linked;
      var id, saved := |orders|, Now();
      if pay == StaticQris {
        var seller := plans[p.plan].seller;
        if seller.None? || !seller.value.qrisReady {
          return Refused(QrisNotAvailable);
        }
        InsertOrder(NewOrder(p, None, QRIS_STATIC));
        return Awaiting(id);
      }
      if !direct && seen >= p.amount {
        InsertOrder(NewOrder(p, None, WALLET));
        var failure := FulfilOrder(id, FromBalance, now);
        if failure.Some? {
          Restore(saved);
          return Refused(failure.value);
        }
        return Fulfilled(id);
      }
      if pay == Unspecified {
        return Refused(PaymentMethodRequired);
      }
      InsertOrder(NewOrder(p, None, WALLET));
      var topup := |topups|;
      var delta := if direct then p.amount else p.amount - seen;
      var ok := InitiateTopUp(p.customer, delta, 0);
      if !ok {
        return Refused(InvalidAmount);
      }
      if !gatewayUp {
        return Refused(GatewayDown);
      }
      SaveLink(topup, Some(id), None);
      return Awaiting(id);
    }

    /** `checkout`, given the charge it computed. */
    method CheckoutPlan(p: Purchase, charge: Pricing.Charge, pay: Method, direct: bool, seen: int, gatewayUp: bool, now: Instant)
      returns (outcome: Outcome)
      requires Valid()
      modifies this, wallets, access
      ensures Valid()
      ensures (Now(), outcome) == Checkout(old(Now()), p, charge, pay, direct, seen, gatewayUp, now)
    {
      hide FreeCheckout, PricedCheckout, Linked;
      if charge.ContactOnly? {
        return Refused(ContactPlan);
      }
      var existing := FindOrder(p.key);
      if existing.Some? {
        var o := orders[existing.value];
        return if o.customer != p.customer || o.plan != p.plan then Refused(KeyReused) else Existing(existing.value);
      }
      if !RowsExist(Now(), p) {
        return Refused(MissingRow);
      }
      if charge.FreeOrder? {
        outcome := CheckoutFree(p);
        return;
      }
      if charge.amount < 0 || charge.discount < 0 {
        return Refused(InvalidAmount);
      }
      outcome := CheckoutPriced(p.(amount := charge.amount, discount := charge.discount), pay, direct, seen, gatewayUp, now);
    }

    // ---- Cart checkout ----

    /** Inserts the order of one line. */
    method InsertLine(b: Basket, l: Line, channel: Channel) returns (failure: Option<Failure>)
      modifies this`orders
      ensures match AddLine(old(Now()), b, l, channel)
              case Ok(after) => failure.None? && Now() == after
              case Err(e) => failure == Some(e) && Now() == old(Now())
    {
      var p := PurchaseOf(b, l);
      var existing := FindOrder(p.key);
      if existing.Some? {
        return Some(DuplicateKey);
      }
      if !RowsExist(Now(), p) {
        return Some(MissingRow);
      }
      InsertOrder(NewOrder(p, Some(b.checkout), channel));
      return None;
    }

    /** Leaves one pending order a line; after a failure the caller rolls back. */
    method PendEveryLine(b: Basket, lines: seq<Line>, channel: Channel, now: Instant) returns (failure: Option<Failure>)
      modifies this`orders
      ensures match PendLines(old(Now()), b, lines, channel)
              case Ok(after) => failure.None? && Now() == after
              case Err(e) => failure == Some(e)
    {
      hide AddLine;
      ghost var was := Now();
      var k := 0;
      while k < |lines|
        invariant 0 <= k <= |lines|
        invariant PendLines(was, b, lines[..k], channel) == Ok(Now())
      {
        assert lines[..k + 1][..k] == lines[..k];
        failure := InsertLine(b, lines[k], channel);
        if failure.Some? {
          LinesFail(was, b, lines, k + 1, channel, now);
          return;
        }
        k := k + 1;
      }
      assert lines[..k] == lines;
      return None;
    }

    /** The loop of a cart paid from the balance; after a failure the caller rolls back. */
    method FulfilEveryLine(b: Basket, lines: seq<Line>, now: Instant) returns (failure: Option<Failure>)
      requires Valid()
      modifies this, wallets, access
      ensures match FulfilLines(old(Now()), b, lines, now)
              case Ok(after) => failure.None? && Now() == after && Valid()
              case Err(e) => failure == Some(e)
    {
      hide AddLine, Fulfil, Linked;
      ghost var was := Now();
      var k := 0;
      while k < |lines|
        invariant 0 <= k <= |lines| && Valid()
        invariant FulfilLines(was, b, lines[..k], now) == Ok(Now())
      {
        assert lines[..k + 1][..k] == lines[..k];
        failure := FulfilOneLine(b, lines[k], now);
        if failure.Some? {
          LinesFail(was, b, lines, k + 1, WALLET, now);
          return;
        }
        k := k + 1;
      }
      assert lines[..k] == lines;
      return None;
    }

    method FulfilOneLine(b: Basket, l: Line, now: Instant) returns (failure: Option<Failure>)
      requires Valid()
      modifies this, wallets, access
      ensures match FulfilLine(old(Now()), b, l, now)
              case Ok(after) => failure.None? && Now() == after && Valid()
              case Err(e) => failure == Some(e)
    {
      hide AddLine, Fulfil, Linked;
      var id := |orders|;
      AddLineAccess(Now(), b, l);
      failure := InsertLine(b, l, WALLET);
      if failure.Some? {
        return;
      }
      failure := FulfilOrder(id, FromCart, now);
    }

    method EmptyCart(b: Basket, lines: seq<Line>)
      modifies this`carts
      ensures Now() == EmptyCartOf(old(Now()), b, lines)
    {
      if b.cartRow in carts {
        carts := carts[b.cartRow := carts[b.cartRow] - ItemsOf(lines)];
      }
    }

    /** The running total of the lines. */
    method TotalOf(lines: seq<Line>) returns (total: int)
      ensures total == Sum(lines, LineAmount())
    {
      total := 0;
      for k := 0 to |lines|
        invariant total == Sum(lines[..k], LineAmount())
      {
        assert lines[..k + 1] == lines[..k] + [lines[k]];
        SumAppend(lines[..k], lines[k], LineAmount());
        total := total + lines[k].amount;
      }
      assert lines[..|lines|] == lines;
    }

    /** A cart paid from the balance. */
    method PayCart(b: Basket, lines: seq<Line>, now: Instant) returns (failure: Option<Failure>)
      requires Valid()
      modifies this, wallets, access
      ensures Valid()
      ensures (Now(), failure) == CartFromBalance(old(Now()), b, lines, now)
    {
      hide FulfilLines, Linked;
      checkouts := checkouts + [true];
      var saved := Now();
      failure := FulfilEveryLine(b, lines, now);
      if failure.Some? {
        Restore(saved);
        return;
      }
      EmptyCart(b, lines);
    }

    /** A cart waiting for one combined top-up. */
    method FundCart(b: Basket, lines: seq<Line>, seen: int, gatewayUp: bool, now: Instant) returns (failure: Option<Failure>)
      requires Valid()
      modifies this, wallets, access
      ensures Valid()
      ensures (Now(), failure) == CartShort(old(Now()), b, lines, seen, gatewayUp)
    {
      hide PendLines, Linked;
      var saved := Now();
      checkouts := checkouts + [false];
      failure := PendEveryLine(b, lines, WALLET, now);
      if failure.Some? {
        Restore(saved);
        return;
      }
      var total := TotalOf(lines);
      var topup := |saved.topups|;
      PendingAccess(saved.(checkouts := saved.checkouts + [false]), b, lines, WALLET);
      var ok := InitiateTopUp(b.customer, total - seen, 0);
      if !ok || !gatewayUp {
        Restore(saved);
        return Some(if ok then GatewayDown else InvalidAmount);
      }
      SaveLink(topup, None, Some(b.checkout));
      EmptyCart(b, lines);
    }

    /** A cart waiting for its seller. */
    method AwaitSeller(b: Basket, lines: seq<Line>, now: Instant) returns (failure: Option<Failure>)
      requires Valid()
      modifies this, wallets, access
      ensures Valid()
      ensures (Now(), failure) == CartQris(old(Now()), b, lines)
    {
      hide PendLines, Linked, OneReadySeller;
      if !OneReadySeller(Now(), lines) {
        return Some(QrisNotAvailable);
      }
      var saved := Now();
      checkouts := checkouts + [false];
      failure := PendEveryLine(b, lines, QRIS_STATIC, now);
      if failure.Some? {
        Restore(saved);
        return;
      }
      EmptyCart(b, lines);
    }

    /** `checkout_cart`. */
    method CheckOutCart(customer: nat, cartRow: nat, lines: seq<Line>, pay: Method, seen: int, gatewayUp: bool, now: Instant)
      returns (failure: Option<Failure>)
      requires Valid()
      modifies this, wallets, access
      ensures Valid()
      ensures (Now(), failure) == CheckoutCart(old(Now()), customer, cartRow, lines, pay, seen, gatewayUp, now)
    {
      hide CartQris, CartFromBalance, CartShort, Linked;
      var b := Basket(customer, cartRow, |checkouts|);
      if |lines| == 0 {
        return Some(Failure.EmptyCart);
      }
      if pay == StaticQris {
        failure := AwaitSeller(b, lines, now);
        return;
      }
      var total := TotalOf(lines);
      if seen >= total {
        failure := PayCart(b, lines, now);
        return;
      }
      if pay == Unspecified {
        return Some(PaymentMethodRequired);
      }
      failure := FundCart(b, lines, seen, gatewayUp, now);
    }

    // ---- Refunds and adjustments ----

    /** `refund_approve`. */
    method ApproveRefundRequest(r: nat) returns (ok: bool)
      modifies this, wallets
      ensures Now() == ApproveRefund(old(Now()), r)
      ensures ok <==> Now() != old(Now())
    {
      hide Post;
      if r >= |refunds| || refunds[r].status != REQUESTED {
        return false;
      }
      var row := refunds[r];
      if row.order.None? || row.order.value >= |orders| {
        return false;
      }
      var amount := orders[row.order.value].amount;
      if amount == 0 {
        return false;
      }
      FailedPost(wallets.Now(), Request(row.customer, Crediting, amount, ADJUSTMENT, RefundRef(r)));
      var result := wallets.Credit(row.customer, amount, ADJUSTMENT, RefundRef(r));
      if result.Err? {
        return false;
      }
      orders := orders[row.order.value := orders[row.order.value].(status := REFUNDED)];
      refunds := refunds[r := row.(status := APPROVED)];
      assert refunds[r] != old(refunds)[r];
      return true;
    }

    /** `refund_reject`. */
    method RejectRefundRequest(r: nat, note: string)
      modifies this`refunds
      ensures Now() == RejectRefund(old(Now()), r, note)
    {
      if |note| > 0 && r < |refunds| && refunds[r].status == REQUESTED {
        refunds := refunds[r := refunds[r].(status := REJECTED)];
      }
    }

    /** `manual_credit`. */
    method CreditManually(customer: nat, amount: int, reason: string, token: string)
      modifies wallets
      ensures Now() == ManualCredit(old(Now()), customer, amount, reason, token)
    {
      hide Post;
      if amount <= 0 || |reason| == 0 {
        return;
      }
      var _ := wallets.Credit(customer, amount, ADJUSTMENT, AdjustmentRef(token));
    }
  }

  /** A renewal refused changes nothing. */
  lemma RefusedRow(t: Tables, s: nat, copyEnd: Instant)
    ensures RenewSub(t, s, copyEnd).Ok? ==> s < |t.access.subs|
    ensures RenewSub(t, s, copyEnd).Ok? && !RenewSub(t, s, copyEnd).value.1 ==> RenewSub(t, s, copyEnd).value.0 == t
  {
    hide Post, KeyUsed, NextPeriodEnd, Seconds, RenewAccess, Linked;
  }

  lemma FailedPost(b: Books, r: Request)
    ensures Post(b, r).1.Err? ==> Post(b, r).0 == b
  {
  }

  lemma AddLineAccess(t: Tables, b: Basket, l: Line)
    ensures AddLine(t, b, l, WALLET).Ok? ==> AddLine(t, b, l, WALLET).value.access == t.access
  {
  }

  lemma {:induction false} PendingAccess(t: Tables, b: Basket, lines: seq<Line>, channel: Channel)
    ensures PendLines(t, b, lines, channel).Ok? ==>
              var t2 := PendLines(t, b, lines, channel).value;
              t2 == t.(orders := t2.orders)
  {
    if lines != [] {
      PendingAccess(t, b, lines[..|lines| - 1], channel);
    }
  }

  lemma CreditAccess(t: Tables, id: nat)
    requires id < |t.topups|
    ensures CreditTopUp(t, id).Ok? ==> CreditTopUp(t, id).value.access == t.access
  {
  }

  lemma RenewLinked(a: Access, s: nat, nextEnd: Instant)
    requires Linked(a) && s < |a.subs|
    ensures Linked(Renew(a, s, nextEnd))
  {
  }
}
