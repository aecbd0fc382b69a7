/** From a gateway payment to a paid order: when a top-up is credited, and which of the orders it funds
    are then paid. */
module Funding {
  import opened Prelude
  import opened Keys
  import opened Ledger
  import opened Calendar
  import opened Billing
  import opened Conservation
  import opened BillingInvariants
  import opened Fulfilment
  import opened Renewals
  import Lifecycle

  // ---- Crediting ----

  /** What the ledger credited for top-up `id`. */
  function CreditedFor(id: nat): Entry -> int
  {
    (e: Entry) => if e.ref == TopUpRef(id) || e.ref == BonusRef(id) then e.amount else 0
  }

  function Under(ref: Ref): Entry -> int
  {
    (e: Entry) => if e.ref == ref then e.amount else 0
  }

  lemma {:induction false} SumUnder(es: seq<Entry>, ref: Ref, amount: int)
    requires DistinctRefs(es) && forall k :: 0 <= k < |es| && es[k].ref == ref ==> es[k].amount == amount
    ensures Sum(es, Under(ref)) == if Recorded(es, ref) then amount else 0
  {
    if es != [] {
      var front, e := es[..|es| - 1], es[|es| - 1];
      assert es == front + [e];
      SumUnder(front, ref, amount);
      RecordedAppend(front, e);
      assert e.ref == ref ==> !Recorded(front, ref);
    }
  }

  lemma {:induction false} SumOfBoth(es: seq<Entry>, id: nat)
    ensures Sum(es, CreditedFor(id)) == Sum(es, Under(TopUpRef(id))) + Sum(es, Under(BonusRef(id)))
  {
    if es != [] {
      SumOfBoth(es[..|es| - 1], id);
    }
  }

  /** A top-up is credited its amount plus bonus once it is paid, and nothing before. */
  lemma CreditedExactly(t: Tables, id: nat)
    requires Inv(t) && id < |t.topups|
    ensures Sum(t.books.entries, CreditedFor(id))
            == if t.topups[id].status == SETTLED then t.topups[id].amount + t.topups[id].bonus else 0
  {
    hide AllBalanced, Coupons, Invoices, Earnings, RunningBalance;
    var es, u := t.books.entries, t.topups[id];
    assert forall k :: 0 <= k < |es| ==> Describes(es[k], t.topups, t.orders, t.refunds);
    SumUnder(es, TopUpRef(id), u.amount);
    SumUnder(es, BonusRef(id), u.bonus);
    SumOfBoth(es, id);
  }

  /** Some delivery among the first `n` of the run confirms the top-up. */
  ghost predicate SomeConfirmation(ts: seq<Tables>, ops: seq<Op>, n: nat, id: nat)
    requires n <= |ops| < |ts|
  {
    exists k :: 0 <= k < n && Confirms(ts[k], ops[k], id)
  }

  lemma {:induction false} SettledIff(ts: seq<Tables>, ops: seq<Op>, n: nat, id: nat)
    requires IsRun(ts, ops) && n < |ts| && Inv(ts[0])
    requires id < |ts[0].topups| && ts[0].topups[id].status != SETTLED && ts[0].topups[id].customer in ts[0].books.balances
    ensures id < |ts[n].topups|
    ensures ts[n].topups[id].status == SETTLED <==> SomeConfirmation(ts, ops, n, id)
  {
    hide Inv, Step, Settles, Confirms;
    RunKeeps(ts, ops, 0, n);
    if n > 0 {
      SettledIff(ts, ops, n - 1, id);
      RunKeeps(ts, ops, 0, n - 1);
      assert StepAt(ts, ops, n - 1);
      StepKeeps(ts[n - 1], ops[n - 1]);
      assert TopUpGrows(ts[0].topups[id], ts[n - 1].topups[id]);
      StepSettles(ts[n - 1], ops[n - 1], ts[n], id);
    }
  }

  lemma StepSettles(t: Tables, op: Op, t2: Tables, id: nat)
    requires Settles(t, t2, op) && Grows(t, t2) && id < |t.topups| && t.topups[id].customer in t.books.balances
    ensures t2.topups[id].status == SETTLED <==> t.topups[id].status == SETTLED || Confirms(t, op, id)
  {
  }

  /** Order-insensitive, exactly-once crediting. Take any run of anything at all: deliveries in any
      order and number, expiries, purchases, renewals, refunds. An unpaid top-up of a customer with a
      wallet is PAID at its end exactly when some delivery completed the payment, with the right
      amount, under a key not recorded before it; then the ledger credits amount plus bonus once in
      all, and otherwise nothing. */
  lemma TopUpRunIff(ts: seq<Tables>, ops: seq<Op>, id: nat)
    requires IsRun(ts, ops) && Inv(ts[0])
    requires id < |ts[0].topups| && ts[0].topups[id].status != SETTLED && ts[0].topups[id].customer in ts[0].books.balances
    ensures var last := ts[|ops|];
            && id < |last.topups|
            && (last.topups[id].status == SETTLED <==> SomeConfirmation(ts, ops, |ops|, id))
            && Sum(last.books.entries, CreditedFor(id))
               == if SomeConfirmation(ts, ops, |ops|, id) then ts[0].topups[id].amount + ts[0].topups[id].bonus else 0
  {
    hide Inv, StepAt, SomeConfirmation;
    SettledIff(ts, ops, |ops|, id);
    RunKeeps(ts, ops, 0, |ops|);
    assert TopUpGrows(ts[0].topups[id], ts[|ops|].topups[id]);
    CreditedExactly(ts[|ops|], id);
  }

  /** The first failure reported for a top-up sticks: whatever follows, only a confirmation leaves it. */
  lemma {:induction false} FailureSticks(ts: seq<Tables>, ops: seq<Op>, j: nat, k: nat, id: nat)
    requires IsRun(ts, ops) && Inv(ts[0]) && j <= k < |ts|
    requires id < |ts[j].topups| && ts[j].topups[id].customer in ts[j].books.balances
    requires ts[j].topups[id].status == DECLINED || ts[j].topups[id].status == EXPIRED
    ensures id < |ts[k].topups|
    ensures ts[k].topups[id].status == ts[j].topups[id].status || ts[k].topups[id].status == SETTLED
    ensures ts[k].topups[id].status == SETTLED <==> exists i :: j <= i < k && Confirms(ts[i], ops[i], id)
    decreases k
  {
    hide Inv, Step, Confirms;
    RunKeeps(ts, ops, 0, j);
    RunKeeps(ts, ops, j, k);
    if j < k {
      FailureSticks(ts, ops, j, k - 1, id);
      RunKeeps(ts, ops, j, k - 1);
      assert StepAt(ts, ops, k - 1);
      StepKeeps(ts[k - 1], ops[k - 1]);
      assert TopUpGrows(ts[j].topups[id], ts[k - 1].topups[id]);
    }
  }

  /** A key, once recorded, makes every later delivery under it a no-op: a gateway's retry is ignored
      even if the first delivery found no top-up. */
  lemma RetriesAreIgnored(ts: seq<Tables>, ops: seq<Op>, first: nat, again: nat)
    requires IsRun(ts, ops) && Inv(ts[0]) && first < again < |ops|
    requires ops[first].DoWebhook? && ops[again].DoWebhook? && ops[again].key == ops[first].key
    ensures ts[again + 1] == ts[again]
  {
    hide Inv, Step;
    var op := ops[first];
    RunKeeps(ts, ops, 0, first);
    assert StepAt(ts, ops, first) && StepAt(ts, ops, again);
    StepKeeps(ts[first], op);
    StepRecords(ts[first], op);
    RunKeeps(ts, ops, first + 1, again);
    StepIgnores(ts[again], ops[again]);
  }

  lemma StepRecords(t: Tables, op: Op)
    requires Inv(t) && op.DoWebhook?
    ensures op.key in Step(t, op).hooks
  {
    hide Inv, Webhook;
    KeyRecorded(t, op.key, op.event, op.topup, op.amount, op.net, op.cut, op.now);
  }

  lemma StepIgnores(t: Tables, op: Op)
    requires op.DoWebhook? && op.key in t.hooks
    ensures Step(t, op) == t
  {
  }

  lemma HooksGrow(t: Tables, t2: Tables)
    requires Grows(t, t2)
    ensures t.hooks.Keys <= t2.hooks.Keys
  {
  }

  lemma KeyRecorded(t: Tables, key: string, event: Event, topup: nat, amount: int, net: int, cut: bool, now: Instant)
    requires Inv(t)
    ensures key in Webhook(t, key, event, topup, amount, net, cut, now).0.hooks
  {
    hide Inv, Grows, Quiet, ApplyTopUp;
    var recorded := t.(hooks := t.hooks[key := false]);
    SelfKept(t);
    SameRowsKept(t, t, recorded);
    if topup < |t.topups| {
      AppliedHooks(recorded, topup, cut, now);
    }
  }

  lemma AppliedHooks(t: Tables, id: nat, cut: bool, now: Instant)
    requires Inv(t) && id < |t.topups|
    ensures t.hooks.Keys <= ApplyTopUp(t, id, cut, now).0.hooks.Keys
  {
    hide Inv, Grows, Quiet, AfterCredit, CreditTopUp;
    if t.topups[id].status != SETTLED {
      CreditKeeps(t, id);
      if CreditTopUp(t, id).Ok? {
        var credited := CreditTopUp(t, id).value;
        AfterCreditKeeps(credited, t.topups[id], now);
        HooksGrow(credited, AfterCredit(credited, t.topups[id], now).0);
      }
    }
  }

  // ---- Completing the orders of a cart ----

  /** The wallet can pay the order, and everything it delivers can be provisioned. */
  predicate Payable(t: Tables, o: Order)
  {
    Provisionable(t.plans, o.plan) && o.amount > 0 && Covers(t.books, o.customer, o.amount)
  }

  /** Only the balance is missing. */
  predicate MerelyShort(t: Tables, o: Order)
  {
    o.plan < |t.plans| && o.amount > 0 && o.customer in t.books.balances && t.books.balances[o.customer] < o.amount
  }

  /** Paid and debited now, or exactly as it was. */
  ghost predicate PaidOrUntouched(o: Order, p: Order)
  {
    p == o || (o.status == PENDING && p.status == PAID && p.charged && OrderGrows(o, p))
  }

  ghost predicate EachPaidOrUntouched(t: Tables, t2: Tables, ids: seq<nat>)
  {
    && |t2.orders| == |t.orders|
    && (forall i :: 0 <= i < |t.orders| ==> PaidOrUntouched(t.orders[i], t2.orders[i]))
    && (forall i :: 0 <= i < |t.orders| && i !in ids ==> t2.orders[i] == t.orders[i])
    && t2.plans == t.plans && t2.topups == t.topups && t2.refunds == t.refunds
  }

  /** Completing one pending order: paid exactly when payable, left pending when the balance is merely
      short, and otherwise an exception; an order of amount 0 always raises. */
  lemma CompletionIff(t: Tables, id: nat, now: Instant)
    requires Inv(t) && id < |t.orders| && t.orders[id].status == PENDING
    ensures var o, r := t.orders[id], CompletePending(t, id, now);
            && (Payable(t, o) ==> r.Ok? && FulfilEffect(t, r.value, id, FromTopUp, now))
            && (!Payable(t, o) ==> r.Err? || r.value == t)
            && (r.Err? <==> !Payable(t, o) && !MerelyShort(t, o))
  {
    hide Inv, Fulfil, FulfilEffect;
    FulfilIff(t, id, FromTopUp, now);
    ShortLeft(t, id, now);
  }

  /** A wallet that is merely short is reported as such. */
  lemma ShortLeft(t: Tables, id: nat, now: Instant)
    requires Inv(t) && id < |t.orders| && t.orders[id].status == PENDING
    ensures MerelyShort(t, t.orders[id]) ==> Fulfil(t, id, FromTopUp, now) == Err(FromLedger(InsufficientBalance))
    ensures Fulfil(t, id, FromTopUp, now) == Err(FromLedger(InsufficientBalance)) ==> MerelyShort(t, t.orders[id])
  {
    hide Inv, Charge, Lifecycle.Provision, WithSubscription;
    ChargeIff(t, id, FromTopUp);
  }

  lemma CompletionTouches(t: Tables, id: nat, now: Instant)
    requires Inv(t) && CompletePending(t, id, now).Ok?
    ensures EachPaidOrUntouched(t, CompletePending(t, id, now).value, [id])
  {
    hide Inv, Fulfil, MaxInvoice, Provisionable, Covers, Subscribed, Lifecycle.LicensesIssued;
    if t.orders[id].status == PENDING {
      PendingFresh(t, id);
      CompletionIff(t, id, now);
    }
  }

  /** The completion loop, whatever happens to the wallet or in the loop: each of its orders is paid
      and debited or pending and untouched, and every balance falls by exactly what its newly paid
      orders cost. */
  lemma {:induction false} EachCompleted(t: Tables, ids: seq<nat>, now: Instant)
    requires Inv(t)
    ensures var t2 := CompleteAll(t, ids, false, now).0;
            && EachPaidOrUntouched(t, t2, ids)
            && forall c :: BalanceOf(t.books, c) - BalanceOf(t2.books, c) == Sum(t2.orders, ChargedTo(c)) - Sum(t.orders, ChargedTo(c))
    decreases |ids|
  {
    hide Inv, CompletePending, PaidOrUntouched, BalanceOf;
    UntouchedSelf(t);
    if ids != [] && CompletePending(t, ids[0], now).Ok? {
      var mid := CompletePending(t, ids[0], now).value;
      CompletionTouches(t, ids[0], now);
      CompleteKeeps(t, ids[0], now);
      EachCompleted(mid, ids[1..], now);
      TouchedTrans(t, mid, CompleteAll(t, ids, false, now).0, ids);
      CompletionCost(t, ids[0], now);
    }
  }

  lemma UntouchedSelf(t: Tables)
    ensures EachPaidOrUntouched(t, t, [])
  {
  }

  lemma TouchedTrans(t: Tables, mid: Tables, t2: Tables, ids: seq<nat>)
    requires ids != [] && EachPaidOrUntouched(t, mid, [ids[0]]) && EachPaidOrUntouched(mid, t2, ids[1..])
    ensures EachPaidOrUntouched(t, t2, ids)
  {
  }

  lemma CompletionCost(t: Tables, id: nat, now: Instant)
    requires Inv(t) && CompletePending(t, id, now).Ok?
    ensures var t2 := CompletePending(t, id, now).value;
            forall c :: BalanceOf(t.books, c) - BalanceOf(t2.books, c) == Sum(t2.orders, ChargedTo(c)) - Sum(t.orders, ChargedTo(c))
  {
    hide Inv, Fulfil, MaxInvoice, Provisionable, Covers, Granted, BalanceOf, Subscribed, Lifecycle.LicensesIssued;
    if t.orders[id].status == PENDING {
      PendingFresh(t, id);
      CompletionIff(t, id, now);
      var t2 := CompletePending(t, id, now).value;
      if t2 != t {
        forall c ensures Sum(t2.orders, ChargedTo(c)) == Sum(t.orders, ChargedTo(c)) + if c == t.orders[id].customer then t.orders[id].amount else 0 {
          SumUpdate(t.orders, id, t2.orders[id], ChargedTo(c));
        }
      }
    }
  }

  // ---- A short cart is funded ----

  function AmountAt(os: seq<Order>): nat -> int
  {
    (i: nat) => if i < |os| then os[i].amount else 0
  }

  /** Pending orders of one customer, all of positive amount and all provisionable. */
  ghost predicate Queue(t: Tables, ids: seq<nat>, c: nat)
  {
    && (forall k :: 0 <= k < |ids| ==> ids[k] < |t.orders| && Queued(t, t.orders[ids[k]], c))
    && (forall j, k :: 0 <= j < k < |ids| ==> ids[j] != ids[k])
    && c in t.books.balances
  }

  ghost predicate Queued(t: Tables, o: Order, c: nat)
  {
    o.status == PENDING && o.customer == c && o.amount > 0 && Provisionable(t.plans, o.plan)
  }

  ghost predicate AllPaid(t: Tables, ids: seq<nat>)
  {
    forall i :: i in ids ==> i < |t.orders| && t.orders[i].status == PAID && t.orders[i].charged
  }

  lemma SumFirst(ids: seq<nat>, f: nat -> int)
    requires ids != []
    ensures Sum(ids, f) == f(ids[0]) + Sum(ids[1..], f)
  {
    assert ids == [ids[0]] + ids[1..];
    SumConcat([ids[0]], ids[1..], f);
    SumOne(ids[0], f);
  }

  lemma {:induction false} QueueSum(t: Tables, ids: seq<nat>, c: nat)
    requires Queue(t, ids, c)
    ensures Sum(ids, AmountAt(t.orders)) >= 0 && (ids != [] ==> Sum(ids, AmountAt(t.orders)) > 0)
  {
    SumBounds(ids, AmountAt(t.orders));
    if ids != [] {
      assert AmountAt(t.orders)(ids[0]) > 0;
    }
  }

  /** One turn of the loop: the order is paid if the balance covers it, and left alone otherwise. */
  lemma TurnDecides(t: Tables, id: nat, c: nat, now: Instant)
    requires Inv(t) && id < |t.orders| && Queued(t, t.orders[id], c) && c in t.books.balances
    ensures CompletePending(t, id, now).Ok?
    ensures var mid, amount, balance := CompletePending(t, id, now).value, t.orders[id].amount, t.books.balances[c];
            && EachPaidOrUntouched(t, mid, [id]) && Inv(mid) && Grows(t, mid)
            && |mid.orders| == |t.orders| && c in mid.books.balances
            && (balance < amount ==> mid == t)
            && (balance >= amount ==>
                  mid.orders[id].status == PAID && mid.orders[id].charged && mid.books.balances[c] == balance - amount)
  {
    hide Inv, CompletePending, EachPaidOrUntouched, Granted, MaxInvoice, Subscribed, Lifecycle.LicensesIssued;
    CompletionIff(t, id, now);
    CompleteKeeps(t, id, now);
    CompletionTouches(t, id, now);
    var mid := CompletePending(t, id, now).value;
    if t.books.balances[c] >= t.orders[id].amount {
      assert BalanceOf(mid.books, c) == BalanceOf(t.books, c) - t.orders[id].amount;
    }
  }

  /** Over a queue of pending orders the loop never fails, and it pays all of them exactly when the
      balance covers their sum. */
  lemma {:induction false} QueuePaidIff(t: Tables, ids: seq<nat>, c: nat, now: Instant)
    requires Inv(t) && Queue(t, ids, c)
    ensures CompleteAll(t, ids, false, now).1.None?
    ensures AllPaid(CompleteAll(t, ids, false, now).0, ids) <==> t.books.balances[c] >= Sum(ids, AmountAt(t.orders))
    decreases |ids|
  {
    QueueSum(t, ids, c);
    if ids != [] {
      var id, rest := ids[0], ids[1..];
      assert Queued(t, t.orders[id], c);
      hide Inv, CompletePending, EachPaidOrUntouched, Queue, Queued, AllPaid, Grows;
      SumFirst(ids, AmountAt(t.orders));
      TurnDecides(t, id, c, now);
      var mid := CompletePending(t, id, now).value;
      RestQueued(t, mid, ids, c);
      QueueSum(mid, rest, c);
      EachCompleted(mid, rest, now);
      QueuePaidIff(mid, rest, c, now);
      HeadDecides(t, mid, CompleteAll(t, ids, false, now).0, ids, c);
      if mid == t {
        StillPending(t, id, c);
      }
    } else {
      assert t.books.balances[c] >= 0;
    }
  }

  lemma StillPending(t: Tables, id: nat, c: nat)
    requires id < |t.orders| && Queued(t, t.orders[id], c)
    ensures t.orders[id].status != PAID && t.orders[id].amount > 0
  {
  }

  /** A cart is marked COMPLETED whenever its loop ends without an exception. So it may still owe
      payment: exactly when the balance does not cover what was pending. */
  lemma CompletedCartOwesIff(t: Tables, cart: nat, c: nat, now: Instant)
    requires Inv(t) && cart < |t.checkouts| && Queue(t, PendingOf(t.orders, cart), c)
    ensures var (t2, failure) := CompleteCart(t, cart, false, now);
            && failure.None? && cart < |t2.checkouts| && t2.checkouts[cart]
            && (AllPaid(t2, PendingOf(t.orders, cart)) <==> t.books.balances[c] >= Sum(PendingOf(t.orders, cart), AmountAt(t.orders)))
  {
    hide Inv, CompleteAll, Queue, PendingOf;
    var ids := PendingOf(t.orders, cart);
    QueuePaidIff(t, ids, c, now);
    CompleteAllKeeps(t, ids, false, now);
    CheckoutsGrow(t, CompleteAll(t, ids, false, now).0);
  }

  lemma RestQueued(t: Tables, mid: Tables, ids: seq<nat>, c: nat)
    requires ids != [] && Queue(t, ids, c) && EachPaidOrUntouched(t, mid, [ids[0]]) && Grows(t, mid)
    ensures Queue(mid, ids[1..], c)
    ensures Sum(ids[1..], AmountAt(mid.orders)) == Sum(ids[1..], AmountAt(t.orders))
  {
    forall k | 0 <= k < |ids[1..]| ensures ids[1..][k] < |mid.orders| && mid.orders[ids[1..][k]] == t.orders[ids[k + 1]] {
      assert ids[1..][k] == ids[k + 1] && ids[k + 1] !in [ids[0]];
    }
    SumCongruence(ids[1..], ids[1..], AmountAt(mid.orders), AmountAt(t.orders));
  }

  lemma HeadDecides(t: Tables, mid: Tables, t2: Tables, ids: seq<nat>, c: nat)
    requires ids != [] && Queue(t, ids, c) && Queue(mid, ids[1..], c)
    requires EachPaidOrUntouched(mid, t2, ids[1..]) && |mid.orders| == |t.orders|
    ensures AllPaid(t2, ids) <==>
              AllPaid(t2, ids[1..]) && mid.orders[ids[0]].status == PAID && mid.orders[ids[0]].charged
  {
  }

  // ---- The queue of a cart ----

  lemma {:induction false} PendingOfMeaning(os: seq<Order>, cart: nat)
    ensures forall i :: i in PendingOf(os, cart) <==> 0 <= i < |os| && os[i].cart == Some(cart) && os[i].status == PENDING
    ensures forall j, k :: 0 <= j < k < |PendingOf(os, cart)| ==> PendingOf(os, cart)[j] > PendingOf(os, cart)[k]
  {
    if os != [] {
      var last := |os| - 1;
      PendingOfMeaning(os[..last], cart);
      var rest := PendingOf(os[..last], cart);
      var head := if os[last].cart == Some(cart) && os[last].status == PENDING then [last] else [];
      assert PendingOf(os, cart) == head + rest;
      assert forall i :: i in head + rest <==> i in head || i in rest;
      assert forall k :: 0 <= k < |rest| ==> rest[k] in rest;
    }
  }

  function PendingAmount(cart: nat): Order -> int
  {
    (o: Order) => if o.cart == Some(cart) && o.status == PENDING then o.amount else 0
  }

  lemma {:induction false} QueueTotal(os: seq<Order>, cart: nat)
    ensures Sum(PendingOf(os, cart), AmountAt(os)) == Sum(os, PendingAmount(cart))
  {
    if os != [] {
      var last := |os| - 1;
      var front := os[..last];
      var rest := PendingOf(front, cart);
      QueueTotal(front, cart);
      PendingOfMeaning(front, cart);
      forall k | 0 <= k < |rest| ensures AmountAt(os)(rest[k]) == AmountAt(front)(rest[k]) {
        assert rest[k] in rest;
      }
      SumCongruence<nat, nat>(rest, rest, AmountAt(os), AmountAt(front));
      if os[last].cart == Some(cart) && os[last].status == PENDING {
        assert PendingOf(os, cart) == [last] + rest;
        SumConcat<nat>([last], rest, AmountAt(os));
        SumOne<nat>(last, AmountAt(os));
      } else {
        assert PendingOf(os, cart) == rest;
      }
    }
  }

  /** The order left pending for a line. */
  function PendingLine(b: Basket, l: Line): Order
  {
    NewOrder(PurchaseOf(b, l), Some(b.checkout), WALLET)
  }

  lemma {:induction false} LinesPend(t: Tables, b: Basket, lines: seq<Line>)
    requires PendLines(t, b, lines, WALLET).Ok?
    ensures var t2 := PendLines(t, b, lines, WALLET).value;
            && |t2.orders| == |t.orders| + |lines| && t2 == t.(orders := t2.orders)
            && (forall i :: 0 <= i < |t.orders| ==> t2.orders[i] == t.orders[i])
            && (forall k :: 0 <= k < |lines| ==> t2.orders[|t.orders| + k] == PendingLine(b, lines[k]))
  {
    hide KeyUsed, RowsExist;
    if lines != [] {
      LinesPend(t, b, lines[..|lines| - 1]);
    }
  }

  lemma CartQueue(os: seq<Order>, os1: seq<Order>, b: Basket, lines: seq<Line>)
    requires |os1| == |os| + |lines| && CartsKnown(os, b.checkout)
    requires forall i :: 0 <= i < |os| ==> os1[i] == os[i]
    requires forall k :: 0 <= k < |lines| ==> os1[|os| + k] == PendingLine(b, lines[k])
    ensures forall i :: i in PendingOf(os1, b.checkout) <==> |os| <= i < |os1|
    ensures Sum(PendingOf(os1, b.checkout), AmountAt(os1)) == Sum(lines, LineAmount())
  {
    var f, added := PendingAmount(b.checkout), os1[|os|..];
    PendingOfMeaning(os1, b.checkout);
    forall i | 0 <= i < |os1| ensures os1[i].cart == Some(b.checkout) && os1[i].status == PENDING <==> |os| <= i {
      if |os| <= i {
        assert os1[|os| + (i - |os|)] == PendingLine(b, lines[i - |os|]);
      }
    }
    QueueTotal(os1, b.checkout);
    assert os1 == os + added;
    SumConcat(os, added, f);
    SumPadded([], os, f);
    SumCongruence(added, lines, f, LineAmount());
  }

  lemma InvCarts(t: Tables)
    requires Inv(t)
    ensures CartsKnown(t.orders, |t.checkouts|)
  {
  }

  /** What a short cart leaves behind: one pending order a line, and one top-up for the shortfall. */
  lemma ShortCartOpens(t: Tables, b: Basket, lines: seq<Line>, seen: int)
    requires Inv(t) && b.checkout == |t.checkouts| && CartShort(t, b, lines, seen, true).1.None?
    ensures var t1, n := CartShort(t, b, lines, seen, true).0, |t.orders|;
            && Sum(lines, LineAmount()) > seen
            && t1.topups == t.topups + [TopUp(b.customer, Sum(lines, LineAmount()) - seen, 0, AWAITING, None, Some(b.checkout))]
            && |t1.orders| == n + |lines| && t1.books == t.books
            && (forall k :: 0 <= k < |lines| ==> t1.orders[n + k] == PendingLine(b, lines[k]))
            && (forall i :: i in PendingOf(t1.orders, b.checkout) <==> n <= i < |t1.orders|)
            && Sum(PendingOf(t1.orders, b.checkout), AmountAt(t1.orders)) == Sum(lines, LineAmount())
  {
    hide Inv, PendLines, PendingOf;
    InvCarts(t);
    var begun := t.(checkouts := t.checkouts + [false]);
    LinesPend(begun, b, lines);
    var pending := PendLines(begun, b, lines, WALLET).value;
    CartQueue(t.orders, pending.orders, b, lines);
  }

  lemma {:induction false} RenewalsAppend(t: Tables, ids: seq<nat>, copies: seq<Lifecycle.Sub>)
    ensures t.orders <= RenewAll(t, ids, copies).orders
    decreases |ids|
  {
    hide Post, KeyUsed, NextPeriodEnd, Seconds, RenewAccess, Lifecycle.Linked;
    if ids != [] {
      RenewalsAppend(RenewNext(t, ids[0], copies), ids[1..], copies);
    }
  }

  /** The loop and what follows it, after the credit. */
  lemma CreditPaysQueue(t: Tables, u: TopUp, cart: nat, now: Instant)
    requires Inv(t) && u.order.None? && u.cart == Some(cart) && Queue(t, PendingOf(t.orders, cart), u.customer)
    ensures AllPaid(AfterCredit(t, u, now).0, PendingOf(t.orders, cart)) <==>
              t.books.balances[u.customer] >= Sum(PendingOf(t.orders, cart), AmountAt(t.orders))
  {
    hide Inv, CompleteAll, Queue, RenewAll, PendingOf, LapsedOf;
    var ids := PendingOf(t.orders, cart);
    QueuePaidIff(t, ids, u.customer, now);
    EachCompleted(t, ids, now);
    var done := CompleteCart(t, cart, false, now).0;
    RenewalsAppend(done, LapsedOf(done.access.subs, u.customer), done.access.subs);
    QueueInRange(t, ids, u.customer);
  }

  lemma QueueInRange(t: Tables, ids: seq<nat>, c: nat)
    requires Queue(t, ids, c)
    ensures forall k :: 0 <= k < |ids| ==> ids[k] < |t.orders|
  {
  }

  /** The delivery that confirms a cart's top-up, uncut: afterwards all its pending orders are paid
      exactly when the balance with the credit covers them. */
  lemma DeliveryPaysQueue(t: Tables, op: Op, cart: nat)
    requires Inv(t) && Credits(t, op) && !op.cut
    requires t.topups[op.topup].order.None? && t.topups[op.topup].cart == Some(cart)
    requires Queue(t, PendingOf(t.orders, cart), t.topups[op.topup].customer)
    ensures var u := t.topups[op.topup];
            AllPaid(Step(t, op), PendingOf(t.orders, cart)) <==>
              t.books.balances[u.customer] + u.amount + u.bonus >= Sum(PendingOf(t.orders, cart), AmountAt(t.orders))
  {
    hide Inv, Grows, CreditTopUp, AfterCredit, Queue, PendingOf;
    var u := t.topups[op.topup];
    var recorded := t.(hooks := t.hooks[op.key := false]);
    SelfKept(t);
    SameRowsKept(t, t, recorded);
    CreditKeeps(recorded, op.topup);
    CreditedTables(recorded, op.topup);
    var credited := CreditTopUp(recorded, op.topup).value;
    QueueCredited(t, credited, PendingOf(t.orders, cart), u.customer);
    CreditPaysQueue(credited, u, cart, op.now);
  }

  lemma CreditedTables(t: Tables, id: nat)
    requires Inv(t) && id < |t.topups| && t.topups[id].status != SETTLED && t.topups[id].customer in t.books.balances
    ensures CreditTopUp(t, id).Ok?
    ensures var t2, u := CreditTopUp(t, id).value, t.topups[id];
            && t2.orders == t.orders && t2.plans == t.plans
            && t2.books.balances == t.books.balances[u.customer := t.books.balances[u.customer] + u.amount + u.bonus]
  {
    hide Sound, Accounts, CreditTopUp, Coupons, Invoices, Earnings;
    CreditOnce(t, id);
  }

  lemma QueueCredited(t: Tables, t2: Tables, ids: seq<nat>, c: nat)
    requires Queue(t, ids, c) && t2.orders == t.orders && t2.plans == t.plans && c in t2.books.balances
    ensures Queue(t2, ids, c)
  {
  }

  /** A short cart still waiting for its payment: the pending orders of checkout `cart` are exactly
      `n .. n + |lines|`, every line costs something and can be provisioned, and `op` is the delivery
      that pays for its still unpaid top-up. */
  ghost predicate StillWaiting(t: Tables, cart: nat, n: nat, lines: seq<Line>, op: Op)
  {
    && Credits(t, op) && !op.cut
    && t.topups[op.topup].order.None? && t.topups[op.topup].cart == Some(cart)
    && (forall i :: i in PendingOf(t.orders, cart) <==> n <= i < n + |lines|)
    && (forall k :: 0 <= k < |lines| ==> lines[k].amount > 0 && Provisionable(t.plans, lines[k].plan))
  }

  ghost predicate LinesPaid(os: seq<Order>, n: nat, lines: seq<Line>)
  {
    n + |lines| <= |os| && forall i: nat :: n <= i < n + |lines| ==> os[i].status == PAID && os[i].charged
  }

  lemma WaitingQueue(t1: Tables, t2: Tables, b: Basket, n: nat, lines: seq<Line>, op: Op)
    requires OrdersGrow(t1.orders, t2.orders) && |t1.orders| == n + |lines| && StillWaiting(t2, b.checkout, n, lines, op)
    requires forall k :: 0 <= k < |lines| ==> t1.orders[n + k] == PendingLine(b, lines[k])
    requires forall i :: i in PendingOf(t1.orders, b.checkout) <==> n <= i < |t1.orders|
    requires t2.topups[op.topup].customer == b.customer
    ensures Queue(t2, PendingOf(t2.orders, b.checkout), b.customer)
    ensures Sum(PendingOf(t2.orders, b.checkout), AmountAt(t2.orders)) == Sum(PendingOf(t1.orders, b.checkout), AmountAt(t1.orders))
  {
    hide Confirms, Provisionable, PendingOf;
    var cart := b.checkout;
    PendingOfMeaning(t1.orders, cart);
    PendingOfMeaning(t2.orders, cart);
    var ids := PendingOf(t2.orders, cart);
    forall k | 0 <= k < |ids| ensures ids[k] < |t2.orders| && Queued(t2, t2.orders[ids[k]], b.customer) {
      assert ids[k] in ids;
      assert OrderGrows(t1.orders[ids[k]], t2.orders[ids[k]]);
      assert t1.orders[n + (ids[k] - n)] == PendingLine(b, lines[ids[k] - n]);
    }
    QueueTotal(t1.orders, cart);
    QueueTotal(t2.orders, cart);
    SameQueueAmounts(t1.orders, t2.orders, cart);
    SumPadded(t1.orders, t2.orders, PendingAmount(cart));
  }

  lemma SameQueueAmounts(os1: seq<Order>, os2: seq<Order>, cart: nat)
    requires OrdersGrow(os1, os2) && forall i :: i in PendingOf(os1, cart) <==> i in PendingOf(os2, cart)
    ensures forall i :: 0 <= i < |os1| ==> PendingAmount(cart)(os2[i]) == PendingAmount(cart)(os1[i])
    ensures forall i :: |os1| <= i < |os2| ==> PendingAmount(cart)(os2[i]) == 0
  {
    hide PendingOf;
    PendingOfMeaning(os1, cart);
    PendingOfMeaning(os2, cart);
    forall i | 0 <= i < |os1| ensures PendingAmount(cart)(os2[i]) == PendingAmount(cart)(os1[i]) {
      assert OrderGrows(os1[i], os2[i]);
      assert i in PendingOf(os1, cart) <==> i in PendingOf(os2, cart);
    }
    forall i | |os1| <= i < |os2| ensures PendingAmount(cart)(os2[i]) == 0 {
      assert i !in PendingOf(os1, cart);
    }
  }

  lemma PaidQueue(t: Tables, cart: nat, n: nat, lines: seq<Line>, t3: Tables)
    requires forall i :: i in PendingOf(t.orders, cart) <==> n <= i < n + |lines|
    requires n + |lines| <= |t3.orders|
    ensures AllPaid(t3, PendingOf(t.orders, cart)) <==> LinesPaid(t3.orders, n, lines)
  {
    hide PendingOf;
    var ids := PendingOf(t.orders, cart);
    if AllPaid(t3, ids) {
      forall i: nat | n <= i < n + |lines| ensures t3.orders[i].status == PAID && t3.orders[i].charged {
        assert i in ids;
      }
    }
  }

  /** A short cart is funded by its one top-up. Whatever happens after its checkout, if its orders and
      top-up are still waiting when the payment arrives as the last step of the run, that one delivery
      pays every line, before any lapsed subscription can take the money, exactly when the wallet still
      holds at least what it held at checkout. */
  lemma ShortCartFunded(t: Tables, b: Basket, lines: seq<Line>, seen: int, ts: seq<Tables>, ops: seq<Op>)
    requires Inv(t) && b.checkout == |t.checkouts| && IsRun(ts, ops) && ops != []
    requires CartShort(t, b, lines, seen, true) == (ts[0], None)
    requires StillWaiting(ts[|ops| - 1], b.checkout, |t.orders|, lines, ops[|ops| - 1]) && ops[|ops| - 1].topup == |t.topups|
    ensures var before := ts[|ops| - 1].books.balances;
            b.customer in before && (LinesPaid(ts[|ops|].orders, |t.orders|, lines) <==> before[b.customer] >= seen)
  {
    hide Inv, Step, CartShort, PendingOf, Confirms, Queue, Settles;
    var last := |ops| - 1;
    var n, t2, op := |t.orders|, ts[last], ops[last];
    CartShortKeeps(t, b, lines, seen, true, op.now);
    ShortCartOpens(t, b, lines, seen);
    RunKeeps(ts, ops, 0, last);
    assert TopUpGrows(ts[0].topups[op.topup], t2.topups[op.topup]);
    WaitingQueue(ts[0], t2, b, n, lines, op);
    DeliveryPaysQueue(t2, op, b.checkout);
    StepKeeps(t2, op);
    assert StepAt(ts, ops, last);
    PaidQueue(t2, b.checkout, n, lines, ts[|ops|]);
  }

  // ---- Top-up-and-buy ----

  /** What a purchase beyond the balance leaves behind: its pending order, and one top-up for exactly
      what is missing, or for the whole price when the plan is paid at the gateway only. */
  lemma ShortPurchaseOpens(t: Tables, p: Purchase, direct: bool, seen: int, now: Instant)
    requires p.plan < |t.plans| && (if direct then p.amount > 0 else seen < p.amount)
    ensures var (t2, outcome) := PricedCheckout(t, p, Gateway, direct, seen, true, now);
            && outcome == Awaiting(|t.orders|)
            && t2 == t.(orders := t.orders + [NewOrder(p, None, WALLET)],
                        topups := t.topups + [TopUp(p.customer, if direct then p.amount else p.amount - seen, 0,
                                                    AWAITING, Some(|t.orders|), None)])
  {
  }

  /** The single order behind a top-up, after the credit. */
  lemma CreditPaysOrder(t: Tables, u: TopUp, i: nat, now: Instant)
    requires Inv(t) && u.order == Some(i) && u.cart.None? && i < |t.orders| && Queued(t, t.orders[i], u.customer)
    requires u.customer in t.books.balances
    ensures var os := AfterCredit(t, u, now).0.orders;
            i < |os| && (os[i].status == PAID && os[i].charged <==> t.books.balances[u.customer] >= t.orders[i].amount)
  {
    hide Inv, CompletePending, RenewAll, LapsedOf;
    TurnDecides(t, i, u.customer, now);
    var mid := CompletePending(t, i, now).value;
    RenewalsAppend(mid, LapsedOf(mid.access.subs, u.customer), mid.access.subs);
    StillPending(t, i, u.customer);
  }

  /** The uncut delivery that confirms the top-up behind a waiting order pays that order, before any
      lapsed subscription can take the money, exactly when the balance with the credit covers it. */
  lemma DeliveryPaysOrder(t: Tables, op: Op, i: nat)
    requires Inv(t) && Credits(t, op) && !op.cut && t.topups[op.topup].order == Some(i) && t.topups[op.topup].cart.None?
    requires i < |t.orders| && Queued(t, t.orders[i], t.topups[op.topup].customer)
    ensures i < |Step(t, op).orders|
    ensures var u, o := t.topups[op.topup], Step(t, op).orders[i];
            o.status == PAID && o.charged <==> t.books.balances[u.customer] + u.amount + u.bonus >= t.orders[i].amount
  {
    hide Inv, Grows, CreditTopUp, AfterCredit, Queued, Provisionable;
    var u := t.topups[op.topup];
    var recorded := t.(hooks := t.hooks[op.key := false]);
    SelfKept(t);
    SameRowsKept(t, t, recorded);
    CreditKeeps(recorded, op.topup);
    CreditedTables(recorded, op.topup);
    var credited := CreditTopUp(recorded, op.topup).value;
    QueuedCredited(t, credited, t.orders[i], u.customer);
    CreditPaysOrder(credited, u, i, op.now);
  }

  lemma QueuedCredited(t: Tables, t2: Tables, o: Order, c: nat)
    requires Queued(t, o, c) && t2.plans == t.plans
    ensures Queued(t2, o, c)
  {
  }

  /** A purchase beyond the balance is funded by its one top-up. Whatever happens after its checkout, if
      its order and top-up are still waiting when the payment arrives as the last step of the run, that
      delivery pays the order exactly when the wallet still holds at least what it held at checkout. */
  lemma ShortPurchaseFunded(t: Tables, p: Purchase, seen: int, now: Instant, ts: seq<Tables>, ops: seq<Op>)
    requires Inv(t) && RowsExist(t, p) && !KeyUsed(t.orders, p.key) && seen < p.amount && p.amount > 0
    requires IsRun(ts, ops) && ops != [] && ts[0] == PricedCheckout(t, p, Gateway, false, seen, true, now).0
    requires Credits(ts[|ops| - 1], ops[|ops| - 1]) && !ops[|ops| - 1].cut && ops[|ops| - 1].topup == |t.topups|
    requires |t.orders| < |ts[|ops| - 1].orders| && ts[|ops| - 1].orders[|t.orders|].status == PENDING
    requires Provisionable(ts[|ops| - 1].plans, p.plan)
    requires ts[|ops| - 1].topups[|t.topups|].order == Some(|t.orders|) && ts[|ops| - 1].topups[|t.topups|].cart.None?
    ensures |t.orders| < |ts[|ops|].orders|
    ensures var o, before := ts[|ops|].orders[|t.orders|], ts[|ops| - 1].books.balances;
            p.customer in before && (o.status == PAID && o.charged <==> before[p.customer] >= seen)
  {
    hide Inv, Step, PricedCheckout, Confirms, Provisionable, Settles;
    var last, i := |ops| - 1, |t.orders|;
    PricedCheckoutKeeps(t, p, Gateway, false, seen, true, now);
    ShortPurchaseOpens(t, p, false, seen, now);
    RunKeeps(ts, ops, 0, last);
    assert TopUpGrows(ts[0].topups[|t.topups|], ts[last].topups[|t.topups|]);
    assert OrderGrows(ts[0].orders[i], ts[last].orders[i]);
    DeliveryPaysOrder(ts[last], ops[last], i);
    assert StepAt(ts, ops, last);
  }

  // ---- A top-up renews ----

  /** The tables once a confirmed top-up is credited. */
  function Credited(t: Tables, op: Op): Tables
    requires op.DoWebhook? && op.topup < |t.topups|
  {
    var recorded := t.(hooks := t.hooks[op.key := false]);
    match CreditTopUp(recorded, op.topup) case Ok(after) => after case Err(_) => recorded
  }

  lemma CreditedIs(t: Tables, op: Op)
    requires Inv(t) && Credits(t, op)
    ensures op.topup < |t.topups|
    ensures var t2, u := Credited(t, op), t.topups[op.topup];
            && Inv(t2) && t2.orders == t.orders && t2.plans == t.plans && t2.access == t.access
            && u.customer in t.books.balances
            && t2.books.balances == t.books.balances[u.customer := t.books.balances[u.customer] + u.amount + u.bonus]
  {
    hide Inv, Grows, CreditTopUp;
    var recorded := t.(hooks := t.hooks[op.key := false]);
    SelfKept(t);
    SameRowsKept(t, t, recorded);
    CreditKeeps(recorded, op.topup);
    CreditedTables(recorded, op.topup);
    CreditLeavesAccess(recorded, op.topup);
  }

  lemma CreditLeavesAccess(t: Tables, id: nat)
    requires id < |t.topups|
    ensures CreditTopUp(t, id).Ok? ==> CreditTopUp(t, id).value.access == t.access
  {
    hide CreditPosts;
  }

  /** The uncut delivery that confirms a top-up, once the linked order and cart have had their share:
      of the customer's lapsed auto-renewing rows, newest first, each is renewed exactly when what the
      ones before it left in the wallet covers it. */
  lemma DeliveryRenewsIff(t: Tables, op: Op)
    requires Inv(t) && Credits(t, op) && !op.cut
    ensures op.topup < |t.topups|
    ensures var u := t.topups[op.topup];
            var (done, failure) := CompleteFunded(Credited(t, op), u, op.now);
            var ids, copies, t2 := LapsedOf(done.access.subs, u.customer), done.access.subs, Step(t, op);
            failure.None? ==> After(done, t2.(hooks := done.hooks), ids, copies, false, |ids|)
  {
    hide Inv, Grows, CreditTopUp, CompleteFunded, After, RenewAll, LapsedOf;
    CreditedIs(t, op);
    var u := t.topups[op.topup];
    CompleteFundedKeeps(Credited(t, op), u, op.now);
    var done := CompleteFunded(Credited(t, op), u, op.now).0;
    LapsedRenewedIff(done, u.customer);
    AfterHooks(done, RenewAll(done, LapsedOf(done.access.subs, u.customer), done.access.subs), Step(t, op).hooks,
               LapsedOf(done.access.subs, u.customer));
    DeliveryIs(t, op);
  }

  lemma AfterHooks(t: Tables, m: Tables, hooks: map<string, bool>, ids: seq<nat>)
    requires After(t, m, ids, t.access.subs, false, |ids|)
    ensures m.(hooks := t.hooks) == m
  {
    hide MoneyAfter, RowsAfter, KeysAfter;
  }

  lemma CompleteFundedKeeps(t: Tables, u: TopUp, now: Instant)
    requires Inv(t)
    ensures Inv(CompleteFunded(t, u, now).0)
  {
    hide Inv, Grows, CompletePending, CompleteCart;
    if u.order.Some? {
      CompleteKeeps(t, u.order.value, now);
    }
    var t1 := if u.order.Some? && CompletePending(t, u.order.value, now).Ok? then CompletePending(t, u.order.value, now).value else t;
    if u.cart.Some? {
      CompleteCartKeeps(t1, u.cart.value, false, now);
    }
  }

  /** Such a delivery is its credit and what follows. */
  lemma DeliveryIs(t: Tables, op: Op)
    requires Inv(t) && Credits(t, op) && !op.cut
    ensures op.topup < |t.topups|
    ensures var (after, failure) := AfterCredit(Credited(t, op), t.topups[op.topup], op.now);
            Step(t, op) == if failure.None? then after.(hooks := after.hooks[op.key := true]) else after
  {
    hide Inv, Grows, CreditTopUp, AfterCredit;
    var recorded := t.(hooks := t.hooks[op.key := false]);
    SelfKept(t);
    SameRowsKept(t, t, recorded);
    CreditedTables(recorded, op.topup);
  }

  lemma SameDue(t: Tables, t2: Tables, c: nat)
    requires AllDue(t, c) && t2.orders == t.orders && t2.plans == t.plans && t2.access == t.access
    ensures AllDue(t2, c) && Sum(LapsedOf(t2.access.subs, c), PriceAt(t2)) == Sum(LapsedOf(t.access.subs, c), PriceAt(t))
  {
    hide KeyUsed, Seconds, Lifecycle.Linked;
    SumCongruence<nat, nat>(LapsedOf(t.access.subs, c), LapsedOf(t.access.subs, c), PriceAt(t2), PriceAt(t));
  }

  /** A plain top-up, linked to no order and no cart: if it makes the wallet cover every lapsed
      subscription of its customer, each of them is ACTIVE afterwards with its next period end and its
      period's key used, and the wallet holds exactly what is left. */
  lemma TopUpRenews(t: Tables, op: Op)
    requires Inv(t) && Credits(t, op) && !op.cut
    requires t.topups[op.topup].order.None? && t.topups[op.topup].cart.None? && AllDue(t, t.topups[op.topup].customer)
    requires var u := t.topups[op.topup];
             Sum(LapsedOf(t.access.subs, u.customer), PriceAt(t)) <= t.books.balances[u.customer] + u.amount + u.bonus
    ensures var u, t2 := t.topups[op.topup], Step(t, op);
            && (forall s: nat :: s < |t.access.subs| && Renewable(t.access.subs[s], u.customer) ==>
                  t.access.subs[s].plan < |t.plans| && Renewed(t, t2, s))
            && BalanceOf(t2.books, u.customer)
               == t.books.balances[u.customer] + u.amount + u.bonus - Sum(LapsedOf(t.access.subs, u.customer), PriceAt(t))
  {
    hide Inv, Step, Credited, RenewAll, LapsedOf, AllDue, KeyUsed, Seconds;
    var u := t.topups[op.topup];
    CreditedIs(t, op);
    var credited := Credited(t, op);
    SameDue(t, credited, u.customer);
    CoveredLapsedRenewed(credited, u.customer);
    DeliveryIs(t, op);
    var after := AfterCredit(credited, u, op.now).0;
    assert after == RenewAll(credited, LapsedOf(credited.access.subs, u.customer), credited.access.subs);
    forall s: nat | s < |t.access.subs| && Renewable(t.access.subs[s], u.customer)
      ensures t.access.subs[s].plan < |t.plans| && Renewed(t, Step(t, op), s)
    {
      assert Renewed(credited, after, s);
    }
  }

  // ---- The loops over a cart's orders ----

  /** Completing an order that is not pending any more changes nothing, and there is no completing an
      order that does not exist. */
  lemma CompletedStays(t: Tables, id: nat, now: Instant)
    ensures id < |t.orders| && t.orders[id].status != PENDING ==> CompletePending(t, id, now) == Ok(t)
    ensures id >= |t.orders| ==> CompletePending(t, id, now) == Err(MissingRow)
  {
  }

  /** An exception stops the loop with what came before it; otherwise the loop goes on from there. */
  lemma {:induction false} ExceptionStops(t: Tables, first: seq<nat>, second: seq<nat>, seller: bool, now: Instant)
    ensures var (mid, failure) := CompleteAll(t, first, seller, now);
            CompleteAll(t, first + second, seller, now)
            == if failure.Some? then (mid, failure) else CompleteAll(mid, second, seller, now)
    decreases |first|
  {
    hide CompletePending, ConfirmManual;
    if first == [] {
      assert first + second == second;
    } else {
      assert (first + second)[1..] == first[1..] + second;
      var r := if seller then ConfirmManual(t, first[0], now) else CompletePending(t, first[0], now);
      if r.Ok? { ExceptionStops(r.value, first[1..], second, seller, now); }
    }
  }

  /** The checkout is marked COMPLETED exactly when no order of it raised. */
  lemma CompletedIff(t: Tables, cart: nat, seller: bool, now: Instant)
    requires Inv(t) && cart < |t.checkouts|
    ensures var (t2, failure) := CompleteCart(t, cart, seller, now);
            && failure == CompleteAll(t, PendingOf(t.orders, cart), seller, now).1
            && t2.checkouts == if failure.None? then t.checkouts[cart := true] else t.checkouts
  {
    hide Inv, CompleteAll, PendingOf;
    LoopLeavesCheckouts(t, PendingOf(t.orders, cart), seller, now);
  }

  lemma {:induction false} LoopLeavesCheckouts(t: Tables, ids: seq<nat>, seller: bool, now: Instant)
    ensures CompleteAll(t, ids, seller, now).0.checkouts == t.checkouts
    decreases |ids|
  {
    hide Charge, UseCoupon, RecordEarning, MaxInvoice, Lifecycle.Provision, WithSubscription;
    if ids != [] {
      var r := if seller then ConfirmManual(t, ids[0], now) else CompletePending(t, ids[0], now);
      if r.Ok? { LoopLeavesCheckouts(r.value, ids[1..], seller, now); }
    }
  }

  // ---- The seller's confirmation and rejection of a cart ----

  /** The orders that the confirmation comes to before one that awaits it cannot be provisioned. */
  ghost function Confirmable(t: Tables, ids: seq<nat>): nat
  {
    if ids == [] || ids[0] >= |t.orders| || (AwaitsSeller(t.orders[ids[0]]) && !Provisionable(t.plans, t.orders[ids[0]].plan)) then 0
    else 1 + Confirmable(t, ids[1..])
  }

  lemma {:induction false} ConfirmableIff(t: Tables, ids: seq<nat>)
    ensures Confirmable(t, ids) <= |ids|
    ensures Confirmable(t, ids) == |ids| <==>
            forall k :: 0 <= k < |ids| ==>
              ids[k] < |t.orders| && (AwaitsSeller(t.orders[ids[k]]) ==> Provisionable(t.plans, t.orders[ids[k]].plan))
  {
    hide Provisionable;
    if ids != [] {
      ConfirmableIff(t, ids[1..]);
      assert forall k :: 1 <= k < |ids| ==> ids[k] == ids[1..][k - 1];
    }
  }

  lemma {:induction false} SameConfirmable(t: Tables, t2: Tables, ids: seq<nat>, id: nat)
    requires |t2.orders| == |t.orders| && t2.plans == t.plans && id !in ids
    requires forall i :: 0 <= i < |t.orders| && i != id ==> t2.orders[i] == t.orders[i]
    ensures Confirmable(t2, ids) == Confirmable(t, ids)
  {
    hide Provisionable;
    if ids != [] {
      assert ids[0] != id;
      SameConfirmable(t, t2, ids[1..], id);
    }
  }

  /** An awaiting order, confirmed: paid to the seller directly, so without a ledger entry. */
  ghost predicate Confirmed(o: Order, p: Order)
  {
    if AwaitsSeller(o) then p.status == PAID && !p.charged && OrderGrows(o, p) else p == o
  }

  lemma ConfirmStep(t: Tables, id: nat, now: Instant)
    requires Inv(t) && id < |t.orders|
    ensures var r := ConfirmManual(t, id, now);
            && (r.Ok? <==> AwaitsSeller(t.orders[id]) ==> Provisionable(t.plans, t.orders[id].plan))
            && (r.Ok? ==>
                  && Inv(r.value) && |r.value.orders| == |t.orders| && r.value.plans == t.plans
                  && r.value.books == t.books && r.value.earnings == t.earnings
                  && Confirmed(t.orders[id], r.value.orders[id])
                  && forall i :: 0 <= i < |t.orders| && i != id ==> r.value.orders[i] == t.orders[i])
  {
    hide Inv, Provisionable, MaxInvoice, Granted, Subscribed, Lifecycle.LicensesIssued, Lifecycle.Provision, WithSubscription;
    ManualConfirmationIff(t, id, now);
    CompleteKeeps(t, id, now);
    if AwaitsSeller(t.orders[id]) {
      PendingFresh(t, id);
    }
  }

  /** The seller's confirmation of a cart, or of any orders, each once: it raises exactly at the first
      awaiting order that cannot be provisioned. The awaiting orders before that are PAID, the others as
      they were; no wallet moves and nothing is earned. */
  lemma {:induction false} ConfirmedIff(t: Tables, ids: seq<nat>, now: Instant)
    requires Inv(t) && forall j, k :: 0 <= j < k < |ids| ==> ids[j] != ids[k]
    ensures var (t2, failure), n := CompleteAll(t, ids, true, now), Confirmable(t, ids);
            && n <= |ids| && (failure.None? <==> n == |ids|)
            && |t2.orders| == |t.orders| && t2.books == t.books && t2.earnings == t.earnings
            && (forall k :: 0 <= k < n ==> ids[k] < |t.orders| && Confirmed(t.orders[ids[k]], t2.orders[ids[k]]))
            && (forall i :: 0 <= i < |t.orders| && i !in ids[..n] ==> t2.orders[i] == t.orders[i])
    decreases |ids|
  {
    hide Inv, ConfirmManual, Confirmed, AwaitsSeller, Provisionable;
    ConfirmableIff(t, ids);
    if ids != [] {
      if ids[0] < |t.orders| {
        ConfirmStep(t, ids[0], now);
      } else {
        NoOrder(t, ids[0], now);
      }
      if ids[0] < |t.orders| && ConfirmManual(t, ids[0], now).Ok? {
        var mid, n := ConfirmManual(t, ids[0], now).value, Confirmable(t, ids);
        SameConfirmable(t, mid, ids[1..], ids[0]);
        ConfirmedIff(mid, ids[1..], now);
        assert ids[..n] == [ids[0]] + ids[1..][..n - 1];
        assert forall k :: 1 <= k < n ==> ids[k] == ids[1..][k - 1] && ids[k] != ids[0];
        assert ids[0] !in ids[1..][..n - 1];
      }
    }
  }

  lemma NoOrder(t: Tables, id: nat, now: Instant)
    requires id >= |t.orders|
    ensures ConfirmManual(t, id, now).Err?
  {
  }

  /** The seller's rejection fails exactly the orders that await it, and moves no money. */
  lemma {:induction false} RejectedIff(t: Tables, ids: seq<nat>)
    ensures var t2 := RejectAll(t, ids);
            && |t2.orders| == |t.orders| && t2 == t.(orders := t2.orders)
            && forall i: nat :: i < |t.orders| ==>
                 t2.orders[i] ==
                 if i in ids && t.orders[i].status == PENDING && t.orders[i].channel == QRIS_STATIC
                 then t.orders[i].(status := FAILED) else t.orders[i]
    decreases |ids|
  {
    if ids != [] {
      RejectedIff(RejectManual(t, ids[0]), ids[1..]);
      assert forall i: nat :: i in ids <==> i == ids[0] || i in ids[1..];
    }
  }

  // ---- Deliveries on record ----

  /** A delivery's key is on record from then on, and says processed exactly when the delivery was a test,
      a failure report, or a completion whose amount matched and whose follow-ups did not raise. */
  lemma RecordedIff(t: Tables, key: string, event: Event, topup: nat, amount: int, net: int, cut: bool, now: Instant)
    requires Inv(t) && key !in t.hooks
    ensures var (t2, failure) := Webhook(t, key, event, topup, amount, net, cut, now);
            && key in t2.hooks
            && ((event == Completed || event == Declined || event == Lapsed) && topup >= |t.topups| ==>
                  failure == Some(TopUpNotFound))
            && (t2.hooks[key] <==>
                  || event == Test
                  || ((event == Declined || event == Lapsed) && topup < |t.topups|)
                  || (event == Completed && topup < |t.topups| && failure.None?
                      && (t.topups[topup].amount == amount || t.topups[topup].amount == net)))
  {
    hide Inv, ApplyTopUp;
    var recorded := t.(hooks := t.hooks[key := false]);
    if topup < |t.topups| {
      ApplyLeavesHooks(recorded, topup, cut, now);
    }
  }

  lemma ApplyLeavesHooks(t: Tables, id: nat, cut: bool, now: Instant)
    requires id < |t.topups|
    ensures ApplyTopUp(t, id, cut, now).0.hooks == t.hooks
  {
    hide CreditPosts, CompletePending, CompleteCart, RenewAll, LapsedOf;
    if CreditTopUp(t, id).Ok? {
      var credited, u := CreditTopUp(t, id).value, t.topups[id];
      FundedLeavesHooks(credited, u, now);
      var done := CompleteFunded(credited, u, now).0;
      RenewalsLeaveHooks(done, LapsedOf(done.access.subs, u.customer), done.access.subs);
    }
  }

  lemma OrderLeavesHooks(t: Tables, id: nat, now: Instant)
    ensures CompletePending(t, id, now).Ok? ==> CompletePending(t, id, now).value.hooks == t.hooks
    ensures ConfirmManual(t, id, now).Ok? ==> ConfirmManual(t, id, now).value.hooks == t.hooks
  {
    hide Charge, UseCoupon, RecordEarning, MaxInvoice, Lifecycle.Provision, WithSubscription;
  }

  lemma {:induction false} LoopLeavesHooks(t: Tables, ids: seq<nat>, seller: bool, now: Instant)
    ensures CompleteAll(t, ids, seller, now).0.hooks == t.hooks
    decreases |ids|
  {
    hide CompletePending, ConfirmManual;
    if ids != [] {
      OrderLeavesHooks(t, ids[0], now);
      var r := if seller then ConfirmManual(t, ids[0], now) else CompletePending(t, ids[0], now);
      if r.Ok? { LoopLeavesHooks(r.value, ids[1..], seller, now); }
    }
  }

  lemma FundedLeavesHooks(t: Tables, u: TopUp, now: Instant)
    ensures CompleteFunded(t, u, now).0.hooks == t.hooks
  {
    hide CompletePending, CompleteAll, PendingOf;
    if u.order.Some? { OrderLeavesHooks(t, u.order.value, now); }
    var t1 := if u.order.Some? && CompletePending(t, u.order.value, now).Ok? then CompletePending(t, u.order.value, now).value else t;
    if u.cart.Some? { LoopLeavesHooks(t1, PendingOf(t1.orders, u.cart.value), false, now); }
  }

  lemma {:induction false} RenewalsLeaveHooks(t: Tables, ids: seq<nat>, copies: seq<Lifecycle.Sub>)
    ensures RenewAll(t, ids, copies).hooks == t.hooks
    decreases |ids|
  {
    hide Post, KeyUsed, NextPeriodEnd, Seconds, RenewAccess, Lifecycle.Linked;
    if ids != [] {
      RenewalsLeaveHooks(RenewNext(t, ids[0], copies), ids[1..], copies);
    }
  }

  /** A top-up linked to an order and a cart pays for the order first, and unless that raises for the cart
      from what is left. */
  lemma OrderBeforeCart(t: Tables, u: TopUp, now: Instant)
    requires u.order.Some? && u.cart.Some?
    ensures var (mid, failure) := CompleteFunded(t, u.(cart := None), now);
            CompleteFunded(t, u, now)
            == if failure.Some? then (mid, failure) else CompleteFunded(mid, u.(order := None), now)
  {
    hide CompletePending, CompleteCart;
  }
}
