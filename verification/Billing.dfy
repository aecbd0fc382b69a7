/** Orders, top-ups and refunds around the wallet: what each billing service does to the database.

    Every function is one service call. Rows read before a transaction may be stale, so balances and
    prices computed from them arrive as arguments. */
module Billing {
  import opened Prelude
  import opened Keys
  import opened Ledger
  import opened Calendar
  import opened Lifecycle
  import Pricing

  /** `seller` is the product's seller, if any: the commission rate in percent, and static QRIS ready. */
  datatype Seller = Seller(id: nat, rate: nat, qrisReady: bool)

  datatype Plan = Plan(price: nat, interval: Interval, deliverables: seq<Deliverable>, seats: nat, seller: Option<Seller>)

  datatype OrderStatus = PENDING | PAID | FAILED | REFUNDED

  datatype Channel = WALLET | GATEWAY | QRIS_STATIC

  /** `charged` says that the order carries a ledger entry. */
  datatype Order = Order(
    customer: nat, plan: nat, amount: nat, discount: nat, coupon: Option<nat>, status: OrderStatus, charged: bool,
    key: OrderKey, sub: Option<nat>, invoice: Option<nat>, duration: nat, cart: Option<nat>, channel: Channel)

  datatype TopUpStatus = AWAITING | SETTLED | EXPIRED | DECLINED

  datatype TopUp = TopUp(customer: nat, amount: nat, bonus: nat, status: TopUpStatus, order: Option<nat>, cart: Option<nat>)

  datatype RefundStatus = REQUESTED | APPROVED | REJECTED

  datatype Refund = Refund(customer: nat, order: Option<nat>, status: RefundStatus)

  /** `limit` 0 is unlimited. */
  datatype CouponRow = CouponRow(limit: nat, used: nat)

  datatype Earning = Earning(order: nat, seller: nat, gross: nat, commission: nat, net: nat)

  /** The database. Primary keys are positions; `carts` holds the item ids of each cart, `checkouts`
      whether each cart checkout is completed, and `hooks` whether each recorded webhook was processed. */
  datatype Tables = Tables(
    books: Books, access: Access, plans: seq<Plan>, coupons: seq<CouponRow>, orders: seq<Order>,
    topups: seq<TopUp>, refunds: seq<Refund>, earnings: seq<Earning>, carts: map<nat, set<nat>>,
    checkouts: seq<bool>, hooks: map<string, bool>)

  datatype Failure =
    | FromLedger(error: LedgerError) | CouponLimit | NoProvisioner | MissingRow | DuplicateKey
    | ContactPlan | KeyReused | QrisNotAvailable | PaymentMethodRequired | GatewayDown | EmptyCart
    | NonRecurring | TopUpNotFound | InvalidAmount | Interrupted

  // ---- Fulfilling an order ----

  /** Which service fulfils the order: direct checkout, a cart line, the completion of a top-up, or the
      seller's confirmation of a static QRIS payment. */
  datatype Path = FromBalance | FromCart | FromTopUp | FromSeller

  predicate UsesCoupon(o: Order) { o.coupon.Some? && o.discount > 0 }

  /** The conditional increment of `used_count`; only direct checkout insists that it happens. */
  function UseCoupon(coupons: seq<CouponRow>, o: Order, path: Path): Option<seq<CouponRow>>
  {
    if !UsesCoupon(o) || o.coupon.value >= |coupons| then Some(coupons)
    else
      var c := coupons[o.coupon.value];
      if c.limit == 0 || c.used < c.limit then Some(coupons[o.coupon.value := c.(used := c.used + 1)])
      else if path == FromBalance then None
      else Some(coupons)
  }

  function ChargeRequest(o: Order, id: nat): Request
  {
    Request(o.customer, Debiting, o.amount, PURCHASE, OrderRef(id))
  }

  /** Zero-amount orders skip the debit, except when completing a top-up, where it is refused. */
  predicate Debits(o: Order, path: Path)
  {
    path == FromTopUp || (path != FromSeller && o.amount > 0)
  }

  function Charge(books: Books, o: Order, id: nat, path: Path): Result<Books, LedgerError>
  {
    if !Debits(o, path) then Ok(books)
    else
      var (after, result) := Post(books, ChargeRequest(o, id));
      if result.Err? then Err(result.error) else Ok(after)
  }

  /** The highest invoice number in use, or 0. */
  function MaxInvoice(orders: seq<Order>): nat
  {
    if orders == [] then 0
    else
      var rest := MaxInvoice(orders[..|orders| - 1]);
      var last := orders[|orders| - 1].invoice;
      if last.Some? && last.value > rest then last.value else rest
  }

  /** The subscription row a recurring plan creates. */
  function WithSubscription(a: Access, o: Order, plan: Plan, now: Instant): (Access, Option<nat>)
  {
    match FirstPeriodEnd(now, plan.interval, o.duration)
    case None => (a, None)
    case Some(end) => (a.(subs := a.subs + [Sub(o.customer, o.plan, ACTIVE, end, true)]), Some(|a.subs|))
  }

  /** The platform's share, rounded down. */
  function Commission(gross: nat, rate: nat): nat { gross * rate / 100 }

  /** One earning row per order; a negative net is refused by its column and only logged. */
  function RecordEarning(earnings: seq<Earning>, id: nat, o: Order, plan: Plan, path: Path): seq<Earning>
  {
    if path == FromSeller || plan.seller.None? then earnings
    else
      var commission := Commission(o.amount, plan.seller.value.rate);
      if commission > o.amount || exists e :: e in earnings && e.order == id then earnings
      else earnings + [Earning(id, plan.seller.value.id, o.amount, commission, o.amount - commission)]
  }

  /** The transaction body shared by the four services; any failure undoes all of it. */
  function Fulfil(t: Tables, id: nat, path: Path, now: Instant): Result<Tables, Failure>
  {
    if id >= |t.orders| || t.orders[id].plan >= |t.plans| then Err(MissingRow)
    else
      var o := t.orders[id];
      var plan := t.plans[o.plan];
      match UseCoupon(t.coupons, o, path)
      case None => Err(CouponLimit)
      case Some(coupons) =>
        match Charge(t.books, o, id, path)
        case Err(e) => Err(FromLedger(e))
        case Ok(books) =>
          var (withSub, sub) := WithSubscription(t.access, o, plan, now);
          match Provision(withSub, o.customer, id, sub, plan.seats, plan.deliverables)
          case None => Err(NoProvisioner)
          case Some(access) =>
            var paid := o.(status := PAID, charged := Debits(o, path), sub := sub,
                           invoice := if o.invoice.Some? then o.invoice else Some(MaxInvoice(t.orders) + 1));
            Ok(t.(books := books, coupons := coupons, access := access, orders := t.orders[id := paid],
                  earnings := RecordEarning(t.earnings, id, o, plan, path)))
  }

  // ---- Completing pending orders ----

  /** `complete_pending_order`: a wallet that cannot pay leaves the order pending; other failures are
      raised. */
  function CompletePending(t: Tables, id: nat, now: Instant): Result<Tables, Failure>
  {
    if id >= |t.orders| then Err(MissingRow)
    else if t.orders[id].status != PENDING then Ok(t)
    else match Fulfil(t, id, FromTopUp, now)
      case Err(FromLedger(InsufficientBalance)) => Ok(t)
      case other => other
  }

  predicate AwaitsSeller(o: Order) { o.status == PENDING && o.channel == QRIS_STATIC }

  /** `confirm_manual_payment`. */
  function ConfirmManual(t: Tables, id: nat, now: Instant): Result<Tables, Failure>
  {
    if id >= |t.orders| then Err(MissingRow)
    else if !AwaitsSeller(t.orders[id]) then Ok(t)
    else Fulfil(t, id, FromSeller, now)
  }

  /** `reject_manual_payment`. */
  function RejectManual(t: Tables, id: nat): Tables
  {
    if id < |t.orders| && AwaitsSeller(t.orders[id]) then
      t.(orders := t.orders[id := t.orders[id].(status := FAILED)])
    else t
  }

  /** The pending orders of a cart checkout, newest first as the order table is sorted. */
  function PendingOf(orders: seq<Order>, cart: nat): seq<nat>
  {
    if orders == [] then []
    else
      var last := |orders| - 1;
      (if orders[last].cart == Some(cart) && orders[last].status == PENDING then [last] else []) + PendingOf(orders[..last], cart)
  }

  /** Runs one completing service over a list of orders; an exception stops the loop, keeping what was
      committed before it. */
  function CompleteAll(t: Tables, ids: seq<nat>, seller: bool, now: Instant): (Tables, Option<Failure>)
    decreases |ids|
  {
    if ids == [] then (t, None)
    else
      match (if seller then ConfirmManual(t, ids[0], now) else CompletePending(t, ids[0], now))
      case Err(e) => (t, Some(e))
      case Ok(next) => CompleteAll(next, ids[1..], seller, now)
  }

  function MarkCompleted(t: Tables, cart: nat): Tables
  {
    if cart < |t.checkouts| then t.(checkouts := t.checkouts[cart := true]) else t
  }

  /** `complete_cart_checkout`, or with `seller` `confirm_cart_manual_payment`. */
  function CompleteCart(t: Tables, cart: nat, seller: bool, now: Instant): (Tables, Option<Failure>)
  {
    match CompleteAll(t, PendingOf(t.orders, cart), seller, now)
    case (after, Some(e)) => (after, Some(e))
    case (after, None) => (MarkCompleted(after, cart), None)
  }

  /** The seller's rejection of every pending line of a cart. */
  function RejectAll(t: Tables, ids: seq<nat>): Tables
    decreases |ids|
  {
    if ids == [] then t else RejectAll(RejectManual(t, ids[0]), ids[1..])
  }

  // ---- Renewal, one whole call ----

  predicate KeyUsed(orders: seq<Order>, key: OrderKey)
  {
    exists i :: 0 <= i < |orders| && orders[i].key == key
  }

  /** `renew_subscription` from a copy of the row whose period ended at `copyEnd`. */
  function RenewSub(t: Tables, s: nat, copyEnd: Instant): Result<(Tables, bool), Failure>
  {
    if s >= |t.access.subs| || t.access.subs[s].plan >= |t.plans| then Err(MissingRow)
    else
      var row := t.access.subs[s];
      var plan := t.plans[row.plan];
      var key := RenewalKey(s, Seconds(copyEnd));
      match NextPeriodEnd(copyEnd, plan.interval)
      case None => Err(NonRecurring)
      case Some(nextEnd) =>
        if KeyUsed(t.orders, key) then Ok((t, true))
        else if row.status == CANCELLED then Ok((t, false))
        else
          var id := |t.orders|;
          var o := Order(row.customer, row.plan, plan.price, 0, None, PAID, true, key, Some(s), None, 1, None, WALLET);
          var (books, result) := Post(t.books, ChargeRequest(o, id));
          match result
          case Err(InsufficientBalance) => Ok((t, false))
          case Err(e) => Err(FromLedger(e))
          case Ok(_) =>
            if !Linked(t.access) then Err(MissingRow)
            else Ok((t.(books := books, orders := t.orders + [o], access := RenewAccess(t.access, s, nextEnd)), true))
  }

  /** The row update and cascade of `Lifecycle.Renew`. */
  function RenewAccess(a: Access, s: nat, nextEnd: Instant): (b: Access)
    requires s < |a.subs| && Linked(a)
    ensures b == Renew(a, s, nextEnd)
  {
    a.(subs := a.subs[s := a.subs[s].(periodEnd := nextEnd, status := ACTIVE)],
       grants := seq(|a.grants|, i requires 0 <= i < |a.grants| =>
         if LiveLicense(s)(a.grants[i]) then a.grants[i].(status := Granted) else a.grants[i]),
       licenses := seq(|a.licenses|, i requires 0 <= i < |a.licenses| =>
         var g := a.grants[a.licenses[i].grant];
         if LiveLicense(s)(g) && g.kind == LICENSE_KEY then a.licenses[i].(status := Granted) else a.licenses[i]))
  }

  predicate Renewable(row: Sub, customer: nat)
  {
    row.customer == customer && (row.status == GRACE || row.status == SUSPENDED) && row.autoRenew
  }

  /** The customer's lapsed auto-renewing subscriptions, newest first. */
  function LapsedOf(subs: seq<Sub>, customer: nat): seq<nat>
  {
    if subs == [] then []
    else
      var last := |subs| - 1;
      (if Renewable(subs[last], customer) then [last] else []) + LapsedOf(subs[..last], customer)
  }

  /** One turn of `try_renew_grace_subscriptions`: errors never stop its loop. */
  function RenewNext(t: Tables, s: nat, copies: seq<Sub>): Tables
  {
    if s >= |copies| then t
    else match RenewSub(t, s, copies[s].periodEnd) case Err(_) => t case Ok((after, _)) => after
  }

  /** The loop, over copies of the rows read when it began. */
  function RenewAll(t: Tables, ids: seq<nat>, copies: seq<Sub>): Tables
    decreases |ids|
  {
    if ids == [] then t else RenewAll(RenewNext(t, ids[0], copies), ids[1..], copies)
  }

  /** One turn of `process_due_renewals`: a failed charge moves an ACTIVE row to GRACE, an exception is
      counted and skipped. The third component says what was counted. */
  function DueNext(t: Tables, s: nat, copies: seq<Sub>): (Tables, Turn)
  {
    if s >= |copies| then (t, Failed)
    else match RenewSub(t, s, copies[s].periodEnd)
      case Err(_) => (t, Failed)
      case Ok((after, true)) => (after, Charged)
      case Ok((after, false)) =>
        if s < |after.access.subs| && after.access.subs[s].status == ACTIVE then (after.(access := Downgrade(after.access, s)), MovedToGrace) else (after, Skipped)
  }

  datatype Turn = Charged | MovedToGrace | Skipped | Failed

  /** The whole job, over the subscriptions its query selected, from copies read when it began. */
  function DueAll(t: Tables, ids: seq<nat>, copies: seq<Sub>): (Tables, seq<Turn>)
    decreases |ids|
  {
    if ids == [] then (t, [])
    else
      var (mid, turn) := DueNext(t, ids[0], copies);
      var (after, turns) := DueAll(mid, ids[1..], copies);
      (after, [turn] + turns)
  }

  // ---- Top-ups ----

  function AmountRequest(u: TopUp, id: nat): Request { Request(u.customer, Crediting, u.amount, TOPUP, TopUpRef(id)) }

  function BonusRequest(u: TopUp, id: nat): Request { Request(u.customer, Crediting, u.bonus, BONUS, BonusRef(id)) }

  /** The credits of a confirmed top-up: both or neither. */
  function CreditPosts(b: Books, u: TopUp, id: nat): Result<Books, LedgerError>
  {
    var (b1, r1) := Post(b, AmountRequest(u, id));
    if r1.Err? then Err(r1.error)
    else if u.bonus == 0 then Ok(b1)
    else
      var (b2, r2) := Post(b1, BonusRequest(u, id));
      if r2.Err? then Err(r2.error) else Ok(b2)
  }

  /** The credits are committed together with the PAID status. */
  function CreditTopUp(t: Tables, id: nat): Result<Tables, LedgerError>
    requires id < |t.topups|
  {
    var u := t.topups[id];
    match CreditPosts(t.books, u, id)
    case Err(e) => Err(e)
    case Ok(b) => Ok(t.(books := b, topups := t.topups[id := u.(status := SETTLED)]))
  }

  /** The linked order, then the linked cart. */
  function CompleteFunded(t: Tables, u: TopUp, now: Instant): (Tables, Option<Failure>)
  {
    var (t1, e1) :=
      if u.order.Some? then
        match CompletePending(t, u.order.value, now) case Err(e) => (t, Some(e)) case Ok(after) => (after, None)
      else (t, None);
    if e1.Some? then (t1, e1) else if u.cart.Some? then CompleteCart(t1, u.cart.value, false, now) else (t1, None)
  }

  /** What follows the commit: the linked order and cart, then lapsed subscriptions; an exception stops
      the rest. */
  function AfterCredit(t: Tables, u: TopUp, now: Instant): (Tables, Option<Failure>)
  {
    var (done, failure) := CompleteFunded(t, u, now);
    if failure.Some? then (done, failure)
    else (RenewAll(done, LapsedOf(done.access.subs, u.customer), done.access.subs), None)
  }

  /** `_apply_topup_success`; `cut` stops it between its credit and what follows. */
  function ApplyTopUp(t: Tables, id: nat, cut: bool, now: Instant): (Tables, Option<Failure>)
    requires id < |t.topups|
  {
    if t.topups[id].status == SETTLED then (t, None)
    else match CreditTopUp(t, id)
      case Err(e) => (t, Some(FromLedger(e)))
      case Ok(credited) => if cut then (credited, Some(Interrupted)) else AfterCredit(credited, t.topups[id], now)
  }

  datatype Event = Completed | Declined | Lapsed | Test | Other

  /** `process_webhook_payload`: the record of the key is committed first. */
  function Webhook(t: Tables, key: string, event: Event, topup: nat, amount: int, net: int, cut: bool, now: Instant): (Tables, Option<Failure>)
  {
    if key in t.hooks then (t, None)
    else
      var recorded := t.(hooks := t.hooks[key := false]);
      if event == Test then (t.(hooks := t.hooks[key := true]), None)
      else if event == Other then (recorded, None)
      else if topup >= |t.topups| then (recorded, Some(TopUpNotFound))
      else if event == Declined || event == Lapsed then
        (SetTopUp(t.(hooks := t.hooks[key := true]), topup, if event == Declined then DECLINED else EXPIRED), None)
      else if t.topups[topup].amount != amount && t.topups[topup].amount != net then (recorded, None)
      else match ApplyTopUp(recorded, topup, cut, now)
        case (after, Some(e)) => (after, Some(e))
        case (after, None) => (after.(hooks := after.hooks[key := true]), None)
  }

  /** The conditional update of a pending top-up. */
  function SetTopUp(t: Tables, id: nat, status: TopUpStatus): Tables
    requires id < |t.topups|
  {
    if t.topups[id].status == AWAITING then t.(topups := t.topups[id := t.topups[id].(status := status)]) else t
  }

  /** `recheck_topup_status`; `overdue` says whether the payment window has passed. */
  function Recheck(t: Tables, id: nat, overdue: bool): Tables
  {
    if id < |t.topups| && overdue then SetTopUp(t, id, EXPIRED) else t
  }

  /** `initiate_topup`, up to the gateway call: the row is kept even if the gateway then fails. */
  function NewTopUp(t: Tables, customer: nat, amount: int, bonus: int): Option<Tables>
  {
    if amount <= 0 || bonus < 0 then None
    else Some(t.(topups := t.topups + [TopUp(customer, amount, bonus, AWAITING, None, None)]))
  }

  /** Linking a top-up to what it funds. */
  function LinkTopUp(t: Tables, id: nat, order: Option<nat>, cart: Option<nat>): Tables
  {
    if id < |t.topups| then t.(topups := t.topups[id := t.topups[id].(order := order, cart := cart)]) else t
  }

  // ---- Direct checkout ----

  function FindKey(orders: seq<Order>, key: OrderKey): (found: Option<nat>)
    ensures found.Some? <==> KeyUsed(orders, key)
    ensures found.Some? ==> found.value < |orders| && orders[found.value].key == key
  {
    if orders == [] then None
    else
      var last := |orders| - 1;
      if orders[last].key == key then Some(last)
      else
        var found := FindKey(orders[..last], key);
        assert forall i :: 0 <= i < last ==> orders[i] == orders[..last][i];
        found
  }

  /** A purchase about to become an order. */
  datatype Purchase = Purchase(
    customer: nat, plan: nat, key: OrderKey, amount: nat, discount: nat, coupon: Option<nat>, duration: nat)

  /** The foreign keys of the order to be inserted. */
  predicate RowsExist(t: Tables, p: Purchase)
  {
    p.plan < |t.plans| && (p.coupon.Some? ==> p.coupon.value < |t.coupons|)
  }

  function NewOrder(p: Purchase, cart: Option<nat>, channel: Channel): Order
  {
    Order(p.customer, p.plan, p.amount, p.discount, if p.discount > 0 then p.coupon else None,
          PENDING, false, p.key, None, None, p.duration, cart, channel)
  }

  function AddOrder(t: Tables, o: Order): Tables
  {
    t.(orders := t.orders + [o])
  }

  /** How the buyer pays: nothing chosen, static QRIS, or a gateway method. */
  datatype Method = Unspecified | StaticQris | Gateway

  /** What the caller sees. */
  datatype Outcome = Existing(order: nat) | Fulfilled(order: nat) | Awaiting(order: nat) | Refused(failure: Failure)

  /** A free plan: paid at once, provisioned without a subscription, never numbered. */
  function FreeCheckout(t: Tables, p: Purchase): (Tables, Outcome)
  {
    var id := |t.orders|;
    if p.plan >= |t.plans| then (t, Refused(MissingRow))
    else
      var plan := t.plans[p.plan];
      var o := Order(p.customer, p.plan, 0, 0, None, PAID, false, p.key, None, None, 1, None, WALLET);
      match Provision(t.access, p.customer, id, None, plan.seats, plan.deliverables)
      case None => (t, Refused(NoProvisioner))
      case Some(access) =>
        (AddOrder(t, o).(access := access, earnings := RecordEarning(t.earnings, id, o, plan, FromBalance)), Fulfilled(id))
  }

  /** A purchase at a positive or zero price. */
  function PricedCheckout(t: Tables, p: Purchase, pay: Method, direct: bool, seen: int, gatewayUp: bool, now: Instant):
    (Tables, Outcome)
    requires p.plan < |t.plans|
  {
    var id := |t.orders|;
    if pay == StaticQris then
      if t.plans[p.plan].seller.None? || !t.plans[p.plan].seller.value.qrisReady then (t, Refused(QrisNotAvailable))
      else (AddOrder(t, NewOrder(p, None, QRIS_STATIC)), Awaiting(id))
    else if !direct && seen >= p.amount then
      match Fulfil(AddOrder(t, NewOrder(p, None, WALLET)), id, FromBalance, now)
      case Err(e) => (t, Refused(e))
      case Ok(after) => (after, Fulfilled(id))
    else if pay == Unspecified then (t, Refused(PaymentMethodRequired))
    else
      var added := AddOrder(t, NewOrder(p, None, WALLET));
      match NewTopUp(added, p.customer, if direct then p.amount else p.amount - seen, 0)
      case None => (added, Refused(InvalidAmount))
      case Some(funded) =>
        if gatewayUp then (LinkTopUp(funded, |t.topups|, Some(id), None), Awaiting(id)) else (funded, Refused(GatewayDown))
  }

  /** `checkout`, given the charge it computed. `seen` is the balance read before any transaction,
      `direct` whether the plan is paid at the gateway only, `gatewayUp` whether the gateway answers. */
  function Checkout(t: Tables, p: Purchase, charge: Pricing.Charge, pay: Method, direct: bool, seen: int,
                    gatewayUp: bool, now: Instant): (Tables, Outcome)
  {
    if charge.ContactOnly? then (t, Refused(ContactPlan))
    else match FindKey(t.orders, p.key)
      case Some(i) =>
        if t.orders[i].customer != p.customer || t.orders[i].plan != p.plan then (t, Refused(KeyReused)) else (t, Existing(i))
      case None =>
        if !RowsExist(t, p) then (t, Refused(MissingRow))
        else if charge.FreeOrder? then FreeCheckout(t, p)
        else if charge.amount < 0 || charge.discount < 0 then (t, Refused(InvalidAmount))
        else PricedCheckout(t, p.(amount := charge.amount, discount := charge.discount), pay, direct, seen, gatewayUp, now)
  }

  // ---- Cart checkout ----

  /** A priced cart line. */
  datatype Line = Line(item: nat, plan: nat, amount: nat, discount: nat, coupon: Option<nat>, duration: nat)

  function LineAmount(): Line -> int { (l: Line) => l.amount }

  /** Whose cart is checked out, and under which checkout row. */
  datatype Basket = Basket(customer: nat, cartRow: nat, checkout: nat)

  function PurchaseOf(b: Basket, l: Line): Purchase
  {
    Purchase(b.customer, l.plan, CartKey(b.cartRow, l.item), l.amount, l.discount, l.coupon, l.duration)
  }

  function AddLine(t: Tables, b: Basket, l: Line, channel: Channel): Result<Tables, Failure>
  {
    var p := PurchaseOf(b, l);
    if KeyUsed(t.orders, p.key) then Err(DuplicateKey)
    else if !RowsExist(t, p) then Err(MissingRow)
    else Ok(AddOrder(t, NewOrder(p, Some(b.checkout), channel)))
  }

  /** One line paid from the balance: its order inserted and fulfilled. */
  function FulfilLine(t: Tables, b: Basket, l: Line, now: Instant): Result<Tables, Failure>
  {
    match AddLine(t, b, l, WALLET)
    case Err(e) => Err(e)
    case Ok(added) => Fulfil(added, |t.orders|, FromCart, now)
  }

  /** Every line in turn. */
  function FulfilLines(t: Tables, b: Basket, lines: seq<Line>, now: Instant): Result<Tables, Failure>
  {
    if lines == [] then Ok(t)
    else match FulfilLines(t, b, lines[..|lines| - 1], now)
      case Err(e) => Err(e)
      case Ok(mid) => FulfilLine(mid, b, lines[|lines| - 1], now)
  }

  /** The orders of every line, left pending. */
  function PendLines(t: Tables, b: Basket, lines: seq<Line>, channel: Channel): Result<Tables, Failure>
  {
    if lines == [] then Ok(t)
    else match PendLines(t, b, lines[..|lines| - 1], channel)
      case Err(e) => Err(e)
      case Ok(mid) => AddLine(mid, b, lines[|lines| - 1], channel)
  }

  function ItemsOf(lines: seq<Line>): set<nat>
  {
    set l | l in lines :: l.item
  }

  /** The lines checked out leave the cart. */
  function EmptyCartOf(t: Tables, b: Basket, lines: seq<Line>): Tables
  {
    if b.cartRow in t.carts then t.(carts := t.carts[b.cartRow := t.carts[b.cartRow] - ItemsOf(lines)]) else t
  }

  /** `checkout_cart` when the balance seen covers the total. The COMPLETED checkout row is created
      before the transaction and outlives its failure. */
  function CartFromBalance(t: Tables, b: Basket, lines: seq<Line>, now: Instant): (Tables, Option<Failure>)
  {
    var begun := t.(checkouts := t.checkouts + [true]);
    match FulfilLines(begun, b, lines, now)
    case Err(e) => (begun, Some(e))
    case Ok(after) => (EmptyCartOf(after, b, lines), None)
  }

  /** `checkout_cart` otherwise: pending orders funded by one top-up, all in one transaction. */
  function CartShort(t: Tables, b: Basket, lines: seq<Line>, seen: int, gatewayUp: bool): (Tables, Option<Failure>)
  {
    match PendLines(t.(checkouts := t.checkouts + [false]), b, lines, WALLET)
    case Err(e) => (t, Some(e))
    case Ok(pending) =>
      match NewTopUp(pending, b.customer, Sum(lines, LineAmount()) - seen, 0)
      case None => (t, Some(InvalidAmount))
      case Some(funded) =>
        if gatewayUp then (EmptyCartOf(LinkTopUp(funded, |t.topups|, None, Some(b.checkout)), b, lines), None)
        else (t, Some(GatewayDown))
  }

  /** Static QRIS for a cart whose every line belongs to one ready seller. */
  function CartQris(t: Tables, b: Basket, lines: seq<Line>): (Tables, Option<Failure>)
  {
    if !OneReadySeller(t, lines) then (t, Some(QrisNotAvailable))
    else match PendLines(t.(checkouts := t.checkouts + [false]), b, lines, QRIS_STATIC)
      case Err(e) => (t, Some(e))
      case Ok(pending) => (EmptyCartOf(pending, b, lines), None)
  }

  predicate OneReadySeller(t: Tables, lines: seq<Line>)
  {
    lines != []
    && (forall i :: 0 <= i < |lines| ==> lines[i].plan < |t.plans| && t.plans[lines[i].plan].seller.Some?)
    && (forall i :: 0 <= i < |lines| ==>
          t.plans[lines[i].plan].seller.value.id == t.plans[lines[0].plan].seller.value.id)
    && t.plans[lines[0].plan].seller.value.qrisReady
  }

  function CheckoutCart(t: Tables, customer: nat, cartRow: nat, lines: seq<Line>, pay: Method, seen: int,
                        gatewayUp: bool, now: Instant): (Tables, Option<Failure>)
  {
    var b := Basket(customer, cartRow, |t.checkouts|);
    if lines == [] then (t, Some(EmptyCart))
    else if pay == StaticQris then CartQris(t, b, lines)
    else if seen >= Sum(lines, LineAmount()) then CartFromBalance(t, b, lines, now)
    else if pay == Unspecified then (t, Some(PaymentMethodRequired))
    else CartShort(t, b, lines, seen, gatewayUp)
  }

  // ---- Refunds and adjustments ----

  /** The dashboard's refund request for a paid order of the customer. `existing` is what an earlier
      read found; nothing in the database stops two requests that race. */
  function RequestRefund(t: Tables, customer: nat, order: nat, reason: string, existing: bool): Tables
  {
    if order >= |t.orders| || t.orders[order].customer != customer || t.orders[order].status != PAID then t
    else if existing || reason == "" then t
    else t.(refunds := t.refunds + [Refund(customer, Some(order), REQUESTED)])
  }

  /** `refund_approve`. */
  function ApproveRefund(t: Tables, r: nat): Tables
  {
    if r >= |t.refunds| || t.refunds[r].status != REQUESTED || t.refunds[r].order.None?
       || t.refunds[r].order.value >= |t.orders| then t
    else
      var row := t.refunds[r];
      var o := t.orders[row.order.value];
      if o.amount == 0 then t
      else
        var (books, result) := Post(t.books, Request(row.customer, Crediting, o.amount, ADJUSTMENT, RefundRef(r)));
        if result.Err? then t
        else t.(books := books, orders := t.orders[row.order.value := o.(status := REFUNDED)],
                refunds := t.refunds[r := row.(status := APPROVED)])
  }

  /** `refund_reject`; a note is required. */
  function RejectRefund(t: Tables, r: nat, note: string): Tables
  {
    if note == "" || r >= |t.refunds| || t.refunds[r].status != REQUESTED then t
    else t.(refunds := t.refunds[r := t.refunds[r].(status := REJECTED)])
  }

  /** `manual_credit` under a random token; a reason is required. */
  function ManualCredit(t: Tables, customer: nat, amount: int, reason: string, token: string): Tables
  {
    if amount <= 0 || reason == "" then t
    else t.(books := Post(t.books, Request(customer, Crediting, amount, ADJUSTMENT, AdjustmentRef(token))).0)
  }

  // ---- Runs ----

  /** Everything that can happen. A webhook may be cut after its credit, and the commits that follow
      it then happen later, in any order, mixed with anything else. The last four stand for all code
      outside billing: lifecycle jobs and sellers, catalog edits, new customers, new coupons. */
  datatype Op =
    | DoCheckout(p: Purchase, charge: Pricing.Charge, pay: Method, direct: bool, seen: int, gatewayUp: bool, now: Instant)
    | DoCheckoutCart(customer: nat, cartRow: nat, lines: seq<Line>, pay: Method, seen: int, gatewayUp: bool, now: Instant)
    | DoInitiateTopUp(customer: nat, amount: int, bonus: int)
    | DoWebhook(key: string, event: Event, topup: nat, amount: int, net: int, cut: bool, now: Instant)
    | DoLink(topup: nat, forOrder: Option<nat>, forCart: Option<nat>)
    | DoRecheck(topup: nat, overdue: bool)
    | DoComplete(order: nat, now: Instant)
    | DoMarkCompleted(cart: nat)
    | DoConfirm(order: nat, now: Instant)
    | DoConfirmCart(cart: nat, now: Instant)
    | DoReject(order: nat)
    | DoRejectCart(cart: nat)
    | DoRenew(sub: nat, copyEnd: Instant)
    | DoRequestRefund(customer: nat, order: nat, reason: string, existing: bool)
    | DoApproveRefund(refund: nat)
    | DoRejectRefund(refund: nat, note: string)
    | DoManualCredit(customer: nat, amount: int, reason: string, token: string)
    | SetAccess(access: Access)
    | SetPlans(plans: seq<Plan>)
    | OpenWallet(customer: nat)
    | NewCoupon(limit: nat)

  function Step(t: Tables, op: Op): Tables
  {
    match op
    case DoCheckout(p, charge, pay, direct, seen, up, now) => Checkout(t, p, charge, pay, direct, seen, up, now).0
    case DoCheckoutCart(c, cartRow, lines, pay, seen, up, now) => CheckoutCart(t, c, cartRow, lines, pay, seen, up, now).0
    case DoInitiateTopUp(c, amount, bonus) => (match NewTopUp(t, c, amount, bonus) case None => t case Some(after) => after)
    case DoWebhook(key, event, topup, amount, net, cut, now) => Webhook(t, key, event, topup, amount, net, cut, now).0
    case DoLink(topup, order, cart) => LinkTopUp(t, topup, order, cart)
    case DoRecheck(topup, overdue) => Recheck(t, topup, overdue)
    case DoComplete(order, now) => (match CompletePending(t, order, now) case Err(_) => t case Ok(after) => after)
    case DoMarkCompleted(cart) => MarkCompleted(t, cart)
    case DoConfirm(order, now) => (match ConfirmManual(t, order, now) case Err(_) => t case Ok(after) => after)
    case DoConfirmCart(cart, now) => CompleteCart(t, cart, true, now).0
    case DoReject(order) => RejectManual(t, order)
    case DoRejectCart(cart) => RejectAll(t, PendingOf(t.orders, cart))
    case DoRenew(s, end) => (match RenewSub(t, s, end) case Err(_) => t case Ok((after, _)) => after)
    case DoRequestRefund(c, order, reason, existing) => RequestRefund(t, c, order, reason, existing)
    case DoApproveRefund(r) => ApproveRefund(t, r)
    case DoRejectRefund(r, note) => RejectRefund(t, r, note)
    case DoManualCredit(c, amount, reason, token) => ManualCredit(t, c, amount, reason, token)
    case SetAccess(access) => t.(access := access)
    case SetPlans(plans) => t.(plans := plans)
    case OpenWallet(c) => if c in t.books.balances then t else t.(books := t.books.(balances := t.books.balances[c := 0]))
    case NewCoupon(limit) => t.(coupons := t.coupons + [CouponRow(limit, 0)])
  }
}
