/** Renewal under concurrency.

    Any number of workers run `renew_subscription`, each from a copy of the subscription row read
    at some earlier time. Their steps interleave with each other, with status changes made by other
    jobs, with every other movement of money, and with console extensions. */
module RenewalConcurrency {
  import opened Prelude
  import opened Keys
  import opened Ledger
  import opened Calendar
  import opened Lifecycle

  /** A subscription row; `past` remembers the period ends it has moved on from. */
  datatype Row = Row(wallet: nat, price: int, interval: Interval, status: SubStatus, end: Instant, past: seq<Instant>)

  datatype Phase =
    | Idle
    | Started      // holds a copy, nothing checked
    | Waiting      // the unlocked look-up found no order
    | Locked       // holds the subscription row
    | Checked      // no order under the lock either
    | Returned(renewed: bool)
    | Failed

  /** A worker and its copy of the row. */
  datatype Worker = Worker(phase: Phase, sub: nat, end: Instant)
  {
    predicate Holds() { phase.Locked? || phase.Checked? }
  }

  /** `orders` maps the idempotency key of each renewal order to the order. */
  datatype State = State(rows: seq<Row>, orders: map<OrderKey, nat>, nextOrder: nat, books: Books, workers: map<nat, Worker>)

  datatype Action =
    | Read(worker: nat, sub: nat)
    | LookUp(worker: nat)
    | Lock(worker: nat)
    | Recheck(worker: nat)
    | Charge(worker: nat)
    | Crash(worker: nat)
    | Downgrade(worker: nat)                   // the renewal job's update after a refused charge
    | SetStatus(sub: nat, status: SubStatus)   // suspension, cancellation, seller actions
    | Move(request: Request)                   // top-ups, refunds and adjustments
    | Purchase(request: Request)               // any other order being charged
    | Extend(sub: nat, copyEnd: Instant, copyStatus: SubStatus, days: int)   // console, from the row it had read

  function KeyOf(sub: nat, end: Instant): OrderKey
  {
    RenewalKey(sub, Seconds(end))
  }

  ghost predicate RowFree(s: State, sub: nat)
  {
    forall w :: w in s.workers && s.workers[w].Holds() ==> s.workers[w].sub != sub
  }

  function WithWorker(s: State, w: nat, worker: Worker): State
  {
    s.(workers := s.workers[w := worker])
  }

  function WithPhase(s: State, w: nat, phase: Phase): State
    requires w in s.workers
  {
    WithWorker(s, w, s.workers[w].(phase := phase))
  }

  function SetRow(s: State, sub: nat, row: Row): State
    requires sub < |s.rows|
  {
    s.(rows := s.rows[sub := row])
  }

  function ChargeRequest(s: State, row: Row): Request
  {
    Request(row.wallet, Debiting, row.price, PURCHASE, OrderRef(s.nextOrder))
  }

  /** Creates the order, debits the wallet, and advances the row to the end computed from the
      worker's copy; a refused debit rolls all of it back. */
  function DoCharge(s: State, w: nat): State
    requires w in s.workers && s.workers[w].sub < |s.rows|
  {
    var worker := s.workers[w];
    var row := s.rows[worker.sub];
    var key := KeyOf(worker.sub, worker.end);
    var next := NextPeriodEnd(worker.end, row.interval);
    if key in s.orders || next.None? then WithPhase(s, w, Failed)
    else
      var (books, result) := Post(s.books, ChargeRequest(s, row));
      match result
      case Err(InsufficientBalance) => WithPhase(s, w, Returned(false))
      case Err(_) => WithPhase(s, w, Failed)
      case Ok(_) =>
        var paid := s.(books := books, nextOrder := s.nextOrder + 1);
        var moved := SetRow(paid, worker.sub, row.(end := next.value, status := ACTIVE, past := row.past + [row.end]));
        WithPhase(moved.(orders := moved.orders[key := s.nextOrder]), w, Returned(true))
  }

  /** The phase a worker's look-up, lock or re-check takes it to; a blocked step leaves it. */
  ghost function NextPhase(s: State, a: Action, w: nat): Phase
    requires w in s.workers && s.workers[w].sub < |s.rows|
  {
    var worker := s.workers[w];
    var row := s.rows[worker.sub];
    var key := KeyOf(worker.sub, worker.end);
    match a
    case LookUp(_) =>
      if !worker.phase.Started? then worker.phase
      else if row.interval == NONE then Failed
      else if key in s.orders then Returned(true)
      else Waiting
    case Lock(_) => if worker.phase.Waiting? && RowFree(s, worker.sub) then Locked else worker.phase
    case Recheck(_) =>
      if !worker.phase.Locked? then worker.phase
      else if row.status == CANCELLED then Returned(false)
      else if key in s.orders then Returned(true)
      else Checked
    case Crash(_) => Failed
    case _ => worker.phase
  }

  /** An extension that is accepted and not held up by a lock on its row. */
  ghost predicate Extends(s: State, a: Action)
    requires a.Extend?
  {
    0 < a.days <= 365 && a.sub < |s.rows| && RowFree(s, a.sub)
  }

  /** A worker whose renewal was refused comes to its update, which waits for a lock on the row. */
  ghost predicate Updates(s: State, w: nat)
  {
    && w in s.workers && s.workers[w].sub < |s.rows| && s.workers[w].phase == Returned(false)
    && RowFree(s, s.workers[w].sub)
  }

  /** The conditional update: it looks only at whether the row is ACTIVE. */
  function Graced(s: State, sub: nat): State
    requires sub < |s.rows|
  {
    if s.rows[sub].status == ACTIVE then SetRow(s, sub, s.rows[sub].(status := GRACE)) else s
  }

  ghost function Step(s: State, a: Action): State
  {
    match a
    case Read(w, sub) =>
      if sub < |s.rows| && (w in s.workers ==> !s.workers[w].Holds()) then
        WithWorker(s, w, Worker(Started, sub, s.rows[sub].end))
      else s
    case Downgrade(w) => if Updates(s, w) then WithPhase(Graced(s, s.workers[w].sub), w, Idle) else s
    case SetStatus(sub, status) =>
      if sub < |s.rows| && RowFree(s, sub) then SetRow(s, sub, s.rows[sub].(status := status)) else s
    case Extend(sub, copyEnd, copyStatus, days) =>
      if Extends(s, a) then
        SetRow(s, sub, s.rows[sub].(end := ExtendBy(copyEnd, days), status := if copyStatus == SUSPENDED then ACTIVE else copyStatus))
      else s
    case Move(r) => if r.ref.OrderRef? then s else s.(books := Post(s.books, r).0)
    case Purchase(r) =>
      if r.ref == OrderRef(s.nextOrder) then s.(books := Post(s.books, r).0, nextOrder := s.nextOrder + 1) else s
    case Charge(w) =>
      if w in s.workers && s.workers[w].sub < |s.rows| && s.workers[w].phase.Checked? then DoCharge(s, w) else s
    case _ =>
      if a.worker in s.workers && s.workers[a.worker].sub < |s.rows| then
        WithPhase(s, a.worker, NextPhase(s, a, a.worker))
      else s
  }

  ghost predicate StepAt(states: seq<State>, schedule: seq<Action>, i: nat)
    requires i < |schedule| && |states| == |schedule| + 1
  {
    states[i + 1] == Step(states[i], schedule[i])
  }

  /** The states one schedule of steps goes through from an initial one. */
  ghost predicate IsRun(states: seq<State>, schedule: seq<Action>)
  {
    |states| == |schedule| + 1 && Init(states[0]) && forall i :: 0 <= i < |schedule| ==> StepAt(states, schedule, i)
  }

  ghost predicate Init(s: State)
  {
    && Sound(s.books) && s.orders == map[] && s.workers == map[]
    && (forall i :: 0 <= i < |s.rows| ==> s.rows[i].past == [])
    && forall e :: e in s.books.entries && e.ref.OrderRef? ==> e.ref.order < s.nextOrder
  }

  // ---- With or without extensions: one charge per key ----

  /** Order `id` was charged to the subscription's wallet at the plan's price. */
  ghost predicate ChargedOnce(s: State, sub: nat, id: nat)
  {
    && sub < |s.rows|
    && exists e :: e in s.books.entries && e.ref == OrderRef(id) && e.wallet == s.rows[sub].wallet
                   && e.amount == -s.rows[sub].price
  }

  ghost predicate Billing(s: State)
  {
    && Sound(s.books)
    && (forall e :: e in s.books.entries && e.ref.OrderRef? ==> e.ref.order < s.nextOrder)
    && (forall k :: k in s.orders ==> k.RenewalKey? && s.orders[k] < s.nextOrder && ChargedOnce(s, k.sub, s.orders[k]))
    && (forall k, l :: k in s.orders && l in s.orders && k != l ==> s.orders[k] != s.orders[l])
    && (forall w :: w in s.workers ==> s.workers[w].sub < |s.rows|)
    && (forall w, v :: w in s.workers && v in s.workers && w != v && s.workers[w].Holds() && s.workers[v].Holds() ==>
          s.workers[w].sub != s.workers[v].sub)
  }

  lemma ChargedStays(s: State, s': State, sub: nat, id: nat)
    requires ChargedOnce(s, sub, id)
    requires |s'.rows| == |s.rows| && forall e :: e in s.books.entries ==> e in s'.books.entries
    requires s'.rows[sub].wallet == s.rows[sub].wallet && s'.rows[sub].price == s.rows[sub].price
    ensures ChargedOnce(s', sub, id)
  {
  }

  lemma PostKeepsOrders(books: Books, r: Request, bound: nat)
    requires Sound(books)
    requires forall e :: e in books.entries && e.ref.OrderRef? ==> e.ref.order < bound
    requires r.ref.OrderRef? ==> r.ref.order < bound
    ensures Sound(Post(books, r).0) && forall e :: e in books.entries ==> e in Post(books, r).0.entries
    ensures forall e :: e in Post(books, r).0.entries && e.ref.OrderRef? ==> e.ref.order < bound
  {
    hide Sound;
    PostGrows(books, r);
    PostEffect(books, r);
  }

  /** Steps that only move one worker. */
  lemma WorkerBilling(s: State, w: nat, worker: Worker)
    requires Billing(s) && worker.sub < |s.rows|
    requires worker.Holds() ==> RowFree(s, worker.sub) || (w in s.workers && s.workers[w].Holds() && s.workers[w].sub == worker.sub)
    ensures Billing(WithWorker(s, w, worker))
  {
    hide Sound;
    var s' := WithWorker(s, w, worker);
    forall k | k in s'.orders ensures ChargedOnce(s', k.sub, s'.orders[k]) {
      ChargedStays(s, s', k.sub, s.orders[k]);
    }
  }

  /** Steps that only change the status or the end of a row. */
  lemma RowBilling(s: State, sub: nat, row: Row)
    requires Billing(s) && sub < |s.rows| && row.wallet == s.rows[sub].wallet && row.price == s.rows[sub].price
    ensures Billing(SetRow(s, sub, row))
  {
    hide Sound;
    var s' := SetRow(s, sub, row);
    forall k | k in s'.orders ensures ChargedOnce(s', k.sub, s'.orders[k]) {
      ChargedStays(s, s', k.sub, s.orders[k]);
    }
  }

  /** Steps that only move money. */
  lemma MoneyBilling(s: State, r: Request, next: nat)
    requires Billing(s) && s.nextOrder <= next && (r.ref.OrderRef? ==> r.ref.order < next)
    ensures Billing(s.(books := Post(s.books, r).0, nextOrder := next))
  {
    hide Sound, Post;
    var s' := s.(books := Post(s.books, r).0, nextOrder := next);
    PostKeepsOrders(s.books, r, next);
    forall k | k in s'.orders ensures ChargedOnce(s', k.sub, s'.orders[k]) {
      ChargedStays(s, s', k.sub, s.orders[k]);
    }
  }

  lemma FreshOrder(s: State)
    requires Billing(s)
    ensures !Recorded(s.books.entries, OrderRef(s.nextOrder))
    ensures forall k :: k in s.orders ==> s.orders[k] < s.nextOrder
    ensures Sound(s.books)
  {
  }

  /** A successful charge is a money step, a row step, a new key and a worker step. */
  lemma ChargeBilling(s: State, w: nat)
    requires Billing(s) && w in s.workers && s.workers[w].sub < |s.rows|
    ensures Billing(DoCharge(s, w))
  {
    hide Sound, Post, NextPeriodEnd, Seconds, Billing;
    var s' := DoCharge(s, w);
    var sub := s.workers[w].sub;
    var r := ChargeRequest(s, s.rows[sub]);
    if s'.orders == s.orders {
      WorkerBilling(s, w, s'.workers[w]);
    } else {
      FreshOrder(s);
      PostEffect(s.books, r);
      var paid := s.(books := Post(s.books, r).0, nextOrder := s.nextOrder + 1);
      MoneyBilling(s, r, s.nextOrder + 1);
      var moved := SetRow(paid, sub, s'.rows[sub]);
      RowBilling(paid, sub, s'.rows[sub]);
      NewKeyBilling(moved, KeyOf(sub, s.workers[w].end), s.nextOrder, Post(s.books, r).1.value);
      WorkerBilling(moved.(orders := s'.orders), w, s'.workers[w]);
    }
  }

  lemma NewKeyBilling(s: State, key: OrderKey, id: nat, entry: Entry)
    requires Billing(s) && key.RenewalKey? && key !in s.orders && key.sub < |s.rows| && id < s.nextOrder
    requires forall k :: k in s.orders ==> s.orders[k] != id
    requires entry in s.books.entries && entry.ref == OrderRef(id)
    requires entry.wallet == s.rows[key.sub].wallet && entry.amount == -s.rows[key.sub].price
    ensures Billing(s.(orders := s.orders[key := id]))
  {
  }

  lemma StepBilling(s: State, a: Action)
    requires Billing(s)
    ensures Billing(Step(s, a))
  {
    hide Sound, Post, NextPeriodEnd, Seconds, DoCharge, Billing;
    assert forall w :: w in s.workers ==> s.workers[w].sub < |s.rows| by { BillingWorkers(s); }
    match a
    case Move(r) => if !r.ref.OrderRef? { MoneyBilling(s, r, s.nextOrder); }
    case Purchase(r) => if r.ref == OrderRef(s.nextOrder) { MoneyBilling(s, r, s.nextOrder + 1); }
    case Charge(w) => if w in s.workers && s.workers[w].phase.Checked? { ChargeBilling(s, w); }
    case Read(w, sub) => if sub < |s.rows| { WorkerBilling(s, w, Worker(Started, sub, s.rows[sub].end)); }
    case SetStatus(sub, status) => if sub < |s.rows| { RowBilling(s, sub, s.rows[sub].(status := status)); }
    case Downgrade(w) =>
      if Updates(s, w) {
        var sub := s.workers[w].sub;
        RowBilling(s, sub, Graced(s, sub).rows[sub]);
        WorkerBilling(Graced(s, sub), w, s.workers[w].(phase := Idle));
      }
    case Extend(sub, copyEnd, copyStatus, days) => if Extends(s, a) { RowBilling(s, sub, Step(s, a).rows[sub]); }
    case _ =>
      if a.worker in s.workers {
        WorkerBilling(s, a.worker, s.workers[a.worker].(phase := NextPhase(s, a, a.worker)));
      }
  }

  lemma BillingWorkers(s: State)
    requires Billing(s)
    ensures forall w :: w in s.workers ==> s.workers[w].sub < |s.rows|
  {
  }

  /** Under every interleaving, extensions included, each renewal key is billed by one order, each
      such order by one ledger entry of the plan's price, and no two keys share an order. */
  lemma {:induction false} EveryRunBillsOnce(states: seq<State>, schedule: seq<Action>, k: nat)
    requires IsRun(states, schedule) && k < |states|
    ensures Billing(states[k])
    decreases k
  {
    hide Sound, Step;
    if k > 0 {
      EveryRunBillsOnce(states, schedule, k - 1);
      assert StepAt(states, schedule, k - 1);
      StepBilling(states[k - 1], schedule[k - 1]);
    }
  }

  // ---- Without extensions: the keys used are exactly the past period ends ----

  function Ends(row: Row): seq<Instant> { row.past + [row.end] }

  ghost predicate Chained(row: Row)
  {
    forall i :: 0 <= i < |row.past| ==>
      NextPeriodEnd(Ends(row)[i], row.interval) == Some(Ends(row)[i + 1])
  }

  ghost predicate KeysArePast(s: State)
  {
    && (forall sub, i :: 0 <= sub < |s.rows| && 0 <= i < |s.rows[sub].past| ==> KeyOf(sub, s.rows[sub].past[i]) in s.orders)
    && (forall k :: k in s.orders ==> IsPast(s, k))
  }

  ghost predicate Periods(s: State)
  {
    && Billing(s)
    && KeysArePast(s)
    && (forall i :: 0 <= i < |s.rows| ==> Chained(s.rows[i]))
    && (forall w :: w in s.workers ==> s.workers[w].end in Ends(s.rows[s.workers[w].sub]))
    && (forall w :: w in s.workers && s.workers[w].phase.Checked? ==> KeyOf(s.workers[w].sub, s.workers[w].end) !in s.orders)
  }

  /** A key that is still unused under the lock is that of the current period. */
  lemma UnusedKeyIsCurrent(s: State, w: nat)
    requires Periods(s) && w in s.workers && KeyOf(s.workers[w].sub, s.workers[w].end) !in s.orders
    ensures s.workers[w].end == s.rows[s.workers[w].sub].end
  {
    hide Post, Seconds, NextPeriodEnd, Micros, Sound;
    var row := s.rows[s.workers[w].sub];
    var i :| 0 <= i < |Ends(row)| && Ends(row)[i] == s.workers[w].end;
    assert forall j :: 0 <= j < |row.past| ==> row.past[j] == Ends(row)[j];
  }

  /** The key `k` belongs to a past period of its subscription. */
  ghost predicate IsPast(s: State, k: OrderKey)
  {
    k.RenewalKey? && k.sub < |s.rows|
    && exists i :: 0 <= i < |s.rows[k.sub].past| && k.second == Seconds(s.rows[k.sub].past[i])
  }

  lemma PastStays(s: State, s': State, k: OrderKey)
    requires IsPast(s, k) && |s'.rows| == |s.rows| && s.rows[k.sub].past <= s'.rows[k.sub].past
    ensures IsPast(s', k)
  {
    hide Seconds;
    var i :| 0 <= i < |s.rows[k.sub].past| && k.second == Seconds(s.rows[k.sub].past[i]);
    assert s'.rows[k.sub].past[i] == s.rows[k.sub].past[i];
  }

  lemma SameChain(row: Row, row': Row)
    requires Chained(row) && row'.interval == row.interval && row'.past == row.past && row'.end == row.end
    ensures Ends(row') == Ends(row) && Chained(row')
  {
  }

  lemma AdvanceChained(row: Row, row': Row)
    requires Chained(row) && row'.interval == row.interval && row'.past == row.past + [row.end]
    requires NextPeriodEnd(row.end, row.interval) == Some(row'.end)
    ensures Chained(row')
  {
    hide NextPeriodEnd;
    assert Ends(row') == Ends(row) + [row'.end];
  }

  /** What a successful charge does to subscription `sub`. */
  ghost predicate Advanced(s: State, s': State, sub: nat)
  {
    && |s'.rows| == |s.rows| && sub < |s.rows|
    && (forall i :: 0 <= i < |s.rows| && i != sub ==> s'.rows[i] == s.rows[i])
    && s'.rows[sub].past == s.rows[sub].past + [s.rows[sub].end]
    && s'.rows[sub].interval == s.rows[sub].interval
    && NextPeriodEnd(s.rows[sub].end, s.rows[sub].interval) == Some(s'.rows[sub].end)
    && s'.orders.Keys == s.orders.Keys + {KeyOf(sub, s.rows[sub].end)}
    && (forall v :: v in s'.workers ==>
          v in s.workers && s'.workers[v].sub == s.workers[v].sub && s'.workers[v].end == s.workers[v].end
          && (s'.workers[v].phase.Checked? ==> s.workers[v].phase.Checked? && s.workers[v].sub != sub))
  }

  lemma AdvancedKeys(s: State, s': State, sub: nat)
    requires KeysArePast(s) && Advanced(s, s', sub)
    ensures KeysArePast(s')
  {
    hide Seconds, NextPeriodEnd;
    assert s'.rows[sub].past[|s.rows[sub].past|] == s.rows[sub].end;
    forall k | k in s'.orders ensures IsPast(s', k) {
      if k in s.orders { PastStays(s, s', k); }
    }
    forall t, i | 0 <= t < |s'.rows| && 0 <= i < |s'.rows[t].past| ensures KeyOf(t, s'.rows[t].past[i]) in s'.orders {
      if t != sub || i < |s.rows[sub].past| {
        assert s'.rows[t].past[i] == s.rows[t].past[i];
      }
    }
  }

  lemma AdvancedPeriods(s: State, s': State, sub: nat)
    requires Periods(s) && Billing(s') && Advanced(s, s', sub)
    ensures Periods(s')
  {
    hide Billing, Seconds, NextPeriodEnd, KeysArePast;
    BillingWorkers(s);
    BillingWorkers(s');
    AdvancedKeys(s, s', sub);
    assert Chained(s.rows[sub]);
    AdvanceChained(s.rows[sub], s'.rows[sub]);
    assert Ends(s'.rows[sub]) == Ends(s.rows[sub]) + [s'.rows[sub].end];
    forall v | v in s'.workers ensures s'.workers[v].end in Ends(s'.rows[s'.workers[v].sub]) {
      assert s.workers[v].end in Ends(s.rows[s.workers[v].sub]);
    }
  }

  lemma ChargeAdvances(s: State, w: nat)
    requires Billing(s) && w in s.workers && s.workers[w].phase.Checked?
    requires s.workers[w].end == s.rows[s.workers[w].sub].end
    ensures DoCharge(s, w).orders != s.orders ==> Advanced(s, DoCharge(s, w), s.workers[w].sub)
    ensures DoCharge(s, w).orders == s.orders ==>
              exists phase: Phase :: !phase.Checked? && DoCharge(s, w) == WithPhase(s, w, phase)
  {
    hide Sound, Post, NextPeriodEnd, Seconds;
    var s' := DoCharge(s, w);
    if s'.orders == s.orders {
      assert s' == WithPhase(s, w, s'.workers[w].phase);
    }
  }

  lemma ChargePeriods(s: State, w: nat)
    requires Periods(s) && w in s.workers && s.workers[w].phase.Checked?
    ensures Periods(DoCharge(s, w))
  {
    hide Sound, Post, NextPeriodEnd, Seconds, KeysArePast, Chained, DoCharge, Advanced, Billing;
    BillingWorkers(s);
    ChargeBilling(s, w);
    UnusedKeyIsCurrent(s, w);
    ChargeAdvances(s, w);
    if DoCharge(s, w).orders == s.orders {
      QuietPeriods(s, DoCharge(s, w));
    } else {
      AdvancedPeriods(s, DoCharge(s, w), s.workers[w].sub);
    }
  }

  predicate QuietRow(row: Row, row': Row)
  {
    row'.past == row.past && row'.end == row.end && row'.interval == row.interval
  }

  /** Worker `w` keeps its copy or takes a fresh one, and passes its re-check only on an unused key. */
  ghost predicate QuietWorker(s: State, s': State, w: nat)
    requires w in s'.workers
  {
    var worker := s'.workers[w];
    || (w in s.workers && worker.sub == s.workers[w].sub && worker.end == s.workers[w].end
        && (worker.phase.Checked? ==>
              s.workers[w].phase.Checked? || KeyOf(s.workers[w].sub, s.workers[w].end) !in s.orders))
    || (worker.sub < |s.rows| && worker == Worker(Started, worker.sub, s.rows[worker.sub].end))
  }

  ghost predicate QuietRows(s: State, s': State)
  {
    |s'.rows| == |s.rows| && s'.orders == s.orders && forall i :: 0 <= i < |s.rows| ==> QuietRow(s.rows[i], s'.rows[i])
  }

  lemma QuietKeys(s: State, s': State)
    requires KeysArePast(s) && QuietRows(s, s')
    ensures KeysArePast(s')
  {
    hide Seconds, IsPast;
    forall k | k in s'.orders ensures IsPast(s', k) { QuietPast(s, s', k); }
  }

  lemma QuietPast(s: State, s': State, k: OrderKey)
    requires IsPast(s, k) && QuietRows(s, s')
    ensures IsPast(s', k)
  {
    hide Seconds;
    PastStays(s, s', k);
  }

  /** Steps that leave orders and period ends alone. */
  lemma QuietPeriods(s: State, s': State)
    requires Periods(s) && Billing(s') && QuietRows(s, s')
    requires forall w :: w in s'.workers ==> QuietWorker(s, s', w)
    ensures Periods(s')
  {
    hide Billing, Seconds, NextPeriodEnd, KeysArePast, Chained;
    forall i | 0 <= i < |s.rows| ensures Ends(s'.rows[i]) == Ends(s.rows[i]) && Chained(s'.rows[i]) {
      assert Chained(s.rows[i]);
      SameChain(s.rows[i], s'.rows[i]);
    }
    QuietKeys(s, s');
    BillingWorkers(s');
    BillingWorkers(s);
  }

  /** Steps other than charges and extensions leave orders and period ends alone. */
  lemma StepQuietRows(s: State, a: Action)
    requires !a.Extend? && !a.Charge?
    ensures |Step(s, a).rows| == |s.rows| && Step(s, a).orders == s.orders
    ensures forall i :: 0 <= i < |s.rows| ==> QuietRow(s.rows[i], Step(s, a).rows[i])
  {
  }

  lemma StepQuietWorker(s: State, a: Action, w: nat)
    requires !a.Extend? && !a.Charge? && w in Step(s, a).workers
    ensures QuietWorker(s, Step(s, a), w)
  {
    hide Seconds, Post;
  }

  lemma StepPeriods(s: State, a: Action)
    requires Periods(s) && !a.Extend?
    ensures Periods(Step(s, a))
  {
    hide Billing, Seconds, NextPeriodEnd, DoCharge, KeysArePast, Chained, Step;
    BillingWorkers(s);
    StepBilling(s, a);
    if a.Charge? {
      StepCharge(s, a.worker);
    } else {
      var s' := Step(s, a);
      StepQuietRows(s, a);
      forall w | w in s'.workers ensures QuietWorker(s, s', w) {
        StepQuietWorker(s, a, w);
      }
      QuietPeriods(s, s');
    }
  }

  lemma StepCharge(s: State, w: nat)
    requires Periods(s)
    ensures Periods(Step(s, Charge(w)))
  {
    hide Periods, DoCharge;
    if w in s.workers && s.workers[w].phase.Checked? && s.workers[w].sub < |s.rows| {
      ChargePeriods(s, w);
    }
  }

  lemma RecurringChain(row: Row)
    requires Chained(row) && row.past != []
    ensures row.interval != NONE
  {
    assert NextPeriodEnd(Ends(row)[0], row.interval) == Some(Ends(row)[1]);
  }

  lemma {:induction false} LaterEnds(row: Row, i: nat, j: nat)
    requires Chained(row) && i < j <= |row.past|
    ensures Seconds(Ends(row)[i]) < Seconds(Ends(row)[j])
    decreases j
  {
    hide Seconds, Micros, NextPeriodEnd;
    assert row.interval != NONE by { RecurringChain(row); }
    assert NextPeriodEnd(Ends(row)[j - 1], row.interval) == Some(Ends(row)[j]);
    NextPeriodEndLater(Ends(row)[j - 1], row.interval);
    if i < j - 1 {
      LaterEnds(row, i, j - 1);
    }
  }

  function KeysFor(s: State, sub: nat): set<OrderKey>
  {
    set k | k in s.orders && k.RenewalKey? && k.sub == sub
  }

  ghost function PastKeys(sub: nat, row: Row, n: nat): set<OrderKey>
    requires n <= |row.past|
  {
    set i | 0 <= i < n :: KeyOf(sub, row.past[i])
  }

  lemma {:induction false} CountPast(sub: nat, row: Row, n: nat)
    requires Chained(row) && n <= |row.past|
    ensures |PastKeys(sub, row, n)| == n
  {
    hide Post, Seconds, NextPeriodEnd, Micros, Sound;
    if n > 0 {
      CountPast(sub, row, n - 1);
      var last := KeyOf(sub, row.past[n - 1]);
      forall i | 0 <= i < n - 1 ensures KeyOf(sub, row.past[i]) != last {
        LaterEnds(row, i, n - 1);
        assert Ends(row)[i] == row.past[i] && Ends(row)[n - 1] == row.past[n - 1];
      }
      assert PastKeys(sub, row, n) == PastKeys(sub, row, n - 1) + {last};
    }
  }

  ghost predicate NoExtensions(schedule: seq<Action>)
  {
    forall i :: 0 <= i < |schedule| ==> !schedule[i].Extend?
  }

  lemma {:induction false} RunPeriods(states: seq<State>, schedule: seq<Action>, k: nat)
    requires IsRun(states, schedule) && NoExtensions(schedule) && k < |states|
    ensures Periods(states[k])
    decreases k
  {
    hide Sound, Step, NextPeriodEnd, Seconds;
    if k > 0 {
      RunPeriods(states, schedule, k - 1);
      assert StepAt(states, schedule, k - 1);
      StepPeriods(states[k - 1], schedule[k - 1]);
    }
  }

  /** Without extensions, and however stale the workers' copies: the period ends of a subscription
      form an unbroken chain of billing periods; the keys used are exactly the past ends; and the
      number of charges equals the number of period advances. */
  lemma EveryRunChargesEachPeriodOnce(states: seq<State>, schedule: seq<Action>, k: nat, sub: nat)
    requires IsRun(states, schedule) && NoExtensions(schedule) && k < |states| && sub < |states[k].rows|
    ensures var row := states[k].rows[sub];
            && Chained(row)
            && KeysFor(states[k], sub) == PastKeys(sub, row, |row.past|)
            && |KeysFor(states[k], sub)| == |row.past|
  {
    RunPeriods(states, schedule, k);
    hide IsRun, Billing;
    var row := states[k].rows[sub];
    assert KeysFor(states[k], sub) == PastKeys(sub, row, |row.past|);
    CountPast(sub, row, |row.past|);
  }

  /** A charge leaves everything but its worker's phase as it was exactly when it does not go through:
      refused, it uses up no key, creates no order and moves no money. */
  lemma RefusedChargeUsesNothing(s: State, w: nat)
    requires w in s.workers && s.workers[w].sub < |s.rows|
    ensures DoCharge(s, w) == WithPhase(s, w, DoCharge(s, w).workers[w].phase)
            <==> DoCharge(s, w).workers[w].phase != Returned(true)
  {
    hide Seconds, NextPeriodEnd, Micros;
  }

  // ---- With extensions: when every effect survives ----

  /** Step `a` charges subscription `sub`, and the charge goes through. */
  ghost predicate Charges(s: State, a: Action, sub: nat)
  {
    && a.Charge? && a.worker in s.workers && s.workers[a.worker].sub == sub < |s.rows|
    && s.workers[a.worker].phase.Checked? && Step(s, a).orders != s.orders
  }

  /** The period end that subscription `sub` is owed once step `a` has happened, if `end` was owed
      before it: a charge buys one more period, an extension gives its days. */
  ghost function Owed(s: State, a: Action, sub: nat, end: Instant): Instant
    requires sub < |s.rows|
  {
    if Charges(s, a, sub) && s.rows[sub].interval != NONE then NextPeriodEnd(end, s.rows[sub].interval).value
    else if a.Extend? && a.sub == sub && Extends(s, a) then ExtendBy(end, a.days)
    else end
  }

  /** The guard that is missing: the copy still shows the row's end, or, for a charge, an end with the
      same next one. */
  ghost predicate FromCurrent(s: State, a: Action, sub: nat)
    requires sub < |s.rows|
  {
    && (Charges(s, a, sub) && s.rows[sub].interval != NONE ==>
          var copy := s.workers[a.worker].end;
          copy == s.rows[sub].end || BothClamp(copy, s.rows[sub].end, s.rows[sub].interval))
    && (a.Extend? && a.sub == sub && Extends(s, a) ==> a.copyEnd == s.rows[sub].end)
  }

  lemma ChargeSetsEnd(s: State, w: nat)
    requires w in s.workers && s.workers[w].sub < |s.rows|
    ensures var row, row' := s.rows[s.workers[w].sub], DoCharge(s, w).rows[s.workers[w].sub];
            if DoCharge(s, w).orders == s.orders then DoCharge(s, w).rows == s.rows
            else row.interval != NONE && Some(row'.end) == NextPeriodEnd(s.workers[w].end, row.interval)
                 && row' == row.(end := row'.end, status := ACTIVE, past := row.past + [row.end])
                 && DoCharge(s, w).rows == s.rows[s.workers[w].sub := row']
  {
    hide Seconds, Micros, Post;
  }

  /** Exactly when one step gives a subscription the end it is owed. */
  lemma StepOwedIff(s: State, a: Action, sub: nat)
    requires sub < |s.rows|
    ensures |Step(s, a).rows| == |s.rows| && Step(s, a).rows[sub].interval == s.rows[sub].interval
    ensures Step(s, a).rows[sub].end == Owed(s, a, sub, s.rows[sub].end) <==> FromCurrent(s, a, sub)
  {
    hide Seconds, Micros, Post, DoCharge, NextPeriodEnd, ExtendBy, BothClamp;
    var row := s.rows[sub];
    if a.Charge? && a.worker in s.workers && s.workers[a.worker].sub < |s.rows| && s.workers[a.worker].phase.Checked? {
      ChargeSetsEnd(s, a.worker);
      if Charges(s, a, sub) {
        var copy := s.workers[a.worker].end;
        NextEndsEqualIff(copy, row.end, row.interval);
        NextEndMeaning(row.end, row.interval);
      }
    } else if a.Extend? && a.sub == sub && Extends(s, a) {
      ExtendByInjective(a.copyEnd, row.end, a.days);
    }
  }

  /** The end owed to subscription `sub` after `k` steps: every charge and every extension counts. */
  ghost function OwedAfter(states: seq<State>, schedule: seq<Action>, sub: nat, k: nat): Instant
    requires IsRun(states, schedule) && k < |states| && sub < |states[0].rows|
    decreases k
  {
    if k == 0 then states[0].rows[sub].end
    else if sub < |states[k - 1].rows| then
      Owed(states[k - 1], schedule[k - 1], sub, OwedAfter(states, schedule, sub, k - 1))
    else OwedAfter(states, schedule, sub, k - 1)
  }

  /** Up to step `k`, the row shows the end owed. */
  ghost predicate ShowsOwed(states: seq<State>, schedule: seq<Action>, sub: nat, k: nat)
    requires IsRun(states, schedule) && sub < |states[0].rows|
  {
    forall i: nat :: i <= k && i < |states| ==>
      sub < |states[i].rows| && states[i].rows[sub].end == OwedAfter(states, schedule, sub, i)
  }

  ghost predicate StepFromCurrent(states: seq<State>, schedule: seq<Action>, sub: nat, i: nat)
    requires IsRun(states, schedule) && i < |schedule|
  {
    sub < |states[i].rows| && FromCurrent(states[i], schedule[i], sub)
  }

  /** The first `k` steps worked from current copies. */
  ghost predicate AllFromCurrent(states: seq<State>, schedule: seq<Action>, sub: nat, k: nat)
    requires IsRun(states, schedule)
  {
    forall i: nat :: i < k && i < |schedule| ==> StepFromCurrent(states, schedule, sub, i)
  }

  /** Over any run, with extensions and renewals racing each other: a subscription's end always is its
      first end with every charged period and every extension added, in the order they took effect,
      exactly when each of them worked from a copy that was still current. */
  lemma {:induction false} NothingLostIff(states: seq<State>, schedule: seq<Action>, sub: nat, k: nat)
    requires IsRun(states, schedule) && k < |states| && sub < |states[0].rows|
    ensures ShowsOwed(states, schedule, sub, k) <==> AllFromCurrent(states, schedule, sub, k)
    ensures |states[k].rows| == |states[0].rows|
    decreases k
  {
    hide Step, Owed, OwedAfter, FromCurrent, Sound, ShowsOwed, AllFromCurrent;
    if k > 0 {
      NothingLostIff(states, schedule, sub, k - 1);
      assert StepAt(states, schedule, k - 1);
      StepOwedIff(states[k - 1], schedule[k - 1], sub);
      OwedStep(states, schedule, sub, k);
      CurrentStep(states, schedule, sub, k);
    } else {
      NothingOwed(states, schedule, sub);
    }
  }

  lemma NothingOwed(states: seq<State>, schedule: seq<Action>, sub: nat)
    requires IsRun(states, schedule) && sub < |states[0].rows|
    ensures ShowsOwed(states, schedule, sub, 0) && AllFromCurrent(states, schedule, sub, 0)
  {
  }

  lemma OwedStep(states: seq<State>, schedule: seq<Action>, sub: nat, k: nat)
    requires IsRun(states, schedule) && 0 < k < |states| && sub < |states[0].rows| && sub < |states[k - 1].rows|
    ensures OwedAfter(states, schedule, sub, k)
            == Owed(states[k - 1], schedule[k - 1], sub, OwedAfter(states, schedule, sub, k - 1))
    ensures ShowsOwed(states, schedule, sub, k - 1) ==> states[k - 1].rows[sub].end == OwedAfter(states, schedule, sub, k - 1)
    ensures ShowsOwed(states, schedule, sub, k) <==>
            && ShowsOwed(states, schedule, sub, k - 1)
            && sub < |states[k].rows| && states[k].rows[sub].end == OwedAfter(states, schedule, sub, k)
  {
    hide StepAt, Init, Step, Owed;
  }

  lemma CurrentStep(states: seq<State>, schedule: seq<Action>, sub: nat, k: nat)
    requires IsRun(states, schedule) && 0 < k < |states|
    ensures AllFromCurrent(states, schedule, sub, k) <==>
            AllFromCurrent(states, schedule, sub, k - 1) && StepFromCurrent(states, schedule, sub, k - 1)
  {
    hide StepAt, Init, FromCurrent;
  }

  /** A charge from a copy that an extension of `days` has overtaken: it still moves the end forward
      exactly when the extension is shorter than the period charged, and both count exactly when the
      old and the extended end clamp to the same next one. */
  lemma ChargeAfterExtensionIff(s: State, w: nat, days: nat)
    requires w in s.workers && s.workers[w].sub < |s.rows|
    ensures var row, row' := s.rows[s.workers[w].sub], DoCharge(s, w).rows[s.workers[w].sub];
            DoCharge(s, w).orders != s.orders && row.end == ExtendBy(s.workers[w].end, days) && days > 0 ==>
              && row.interval != NONE
              && (Micros(row.end) < Micros(row'.end) <==> days < PeriodDays(s.workers[w].end, row.interval))
              && (Some(row'.end) == NextPeriodEnd(row.end, row.interval) <==> BothClamp(s.workers[w].end, row.end, row.interval))
  {
    hide Seconds, Micros, Post, DoCharge, NextPeriodEnd, ExtendBy, BothClamp, PeriodDays;
    ChargeSetsEnd(s, w);
    var row := s.rows[s.workers[w].sub];
    if row.interval != NONE {
      ExtensionAgainstPeriod(s.workers[w].end, row.interval, days);
      NextEndsEqualIff(s.workers[w].end, row.end, row.interval);
      ExtendByMeaning(s.workers[w].end, days);
    }
  }

  /** The other order, an extension whose copy shows the end before the last charge: it takes back
      part of a period that is paid for exactly when it is shorter than that period. */
  lemma ExtensionAfterChargeIff(s: State, a: Action)
    requires a.Extend?
    ensures Extends(s, a) ==>
              var row, row' := s.rows[a.sub], Step(s, a).rows[a.sub];
              && |Step(s, a).rows| == |s.rows| && row'.end == ExtendBy(a.copyEnd, a.days)
              && row'.status == (if a.copyStatus == SUSPENDED then ACTIVE else a.copyStatus)
              && (row'.end == ExtendBy(row.end, a.days) <==> a.copyEnd == row.end)
              && (row.interval != NONE && NextPeriodEnd(a.copyEnd, row.interval) == Some(row.end) ==>
                    (Micros(row'.end) < Micros(row.end) <==> a.days < PeriodDays(a.copyEnd, row.interval)))
  {
    hide Micros, NextPeriodEnd, ExtendBy, PeriodDays;
    if Extends(s, a) {
      ExtendByInjective(a.copyEnd, s.rows[a.sub].end, a.days);
      if s.rows[a.sub].interval != NONE {
        ExtensionAgainstPeriod(a.copyEnd, s.rows[a.sub].interval, a.days);
      }
    }
  }

  /** A subscription that one renewal can be charged to. */
  ghost predicate Chargeable(s: State, sub: nat)
  {
    && Init(s) && sub < |s.rows|
    && var row := s.rows[sub];
       row.interval != NONE && row.price > 0 && row.status != CANCELLED
       && row.wallet in s.books.balances && row.price <= s.books.balances[row.wallet]
  }

  /** Both losses happen. First: a worker reads, the console extends, the worker charges; the days
      given are gone. */
  lemma ExtensionLost(s: State, w: nat, sub: nat, days: int)
    requires Chargeable(s, sub) && 0 < days <= 365
    ensures var given := Extend(sub, s.rows[sub].end, s.rows[sub].status, days);
            var t := Step(Step(Step(Step(Step(Step(s, Read(w, sub)), given), LookUp(w)), Lock(w)), Recheck(w)), Charge(w));
            sub < |t.rows| && Some(t.rows[sub].end) == NextPeriodEnd(s.rows[sub].end, s.rows[sub].interval)
  {
    hide Seconds, Micros, Sound, Post, ExtendBy;
    var s1 := Step(s, Read(w, sub));
    var s2 := Step(s1, Extend(sub, s.rows[sub].end, s.rows[sub].status, days));
    var s3 := Step(s2, LookUp(w));
    var s4 := Step(s3, Lock(w));
    var s5 := Step(s4, Recheck(w));
    assert s5.workers[w] == Worker(Checked, sub, s.rows[sub].end);
    PostEffect(s.books, ChargeRequest(s5, s5.rows[sub]));
  }

  /** One worker's renewal with nothing else in between. */
  ghost function Renewing(s: State, w: nat, sub: nat): State
  {
    Step(Step(Step(Step(Step(s, Read(w, sub)), LookUp(w)), Lock(w)), Recheck(w)), Charge(w))
  }

  /** Nobody holds a row, and the current period of subscription `sub` can still be charged for. */
  ghost predicate Due(s: State, sub: nat)
  {
    && Billing(s) && sub < |s.rows| && (forall w :: w in s.workers ==> !s.workers[w].Holds())
    && var row := s.rows[sub];
       && row.interval != NONE && row.price > 0 && row.status != CANCELLED && row.wallet in s.books.balances
       && KeyOf(sub, row.end) !in s.orders
  }

  /** Such a renewal is charged, or refused with no trace but its worker, as the balance has it. */
  lemma RenewingIff(s: State, w: nat, sub: nat)
    requires Due(s, sub)
    ensures var row, t := s.rows[sub], Renewing(s, w, sub);
            var charged := row.price <= s.books.balances[row.wallet];
            && t.workers == s.workers[w := Worker(Returned(charged), sub, row.end)]
            && (!charged ==> t == s.(workers := t.workers))
            && (charged ==>
                  && t.orders == s.orders[KeyOf(sub, row.end) := s.nextOrder] && |t.rows| == |s.rows|
                  && Some(t.rows[sub].end) == NextPeriodEnd(row.end, row.interval) && t.rows[sub].status == ACTIVE)
  {
    hide Seconds, Micros, Sound, Post, NextPeriodEnd, Billing;
    FreshOrder(s);
    var s1 := Step(s, Read(w, sub));
    var s2 := Step(s1, LookUp(w));
    var s3 := Step(s2, Lock(w));
    var s4 := Step(s3, Recheck(w));
    assert s4 == s.(workers := s.workers[w := Worker(Checked, sub, s.rows[sub].end)]);
    NextEndMeaning(s.rows[sub].end, s.rows[sub].interval);
    PostEffect(s.books, ChargeRequest(s4, s4.rows[sub]));
  }

  lemma ChargeableDue(s: State, sub: nat)
    requires Chargeable(s, sub)
    ensures Due(s, sub)
  {
  }

  /** Second: the console reads, a worker charges, the console writes; the period paid for is gone,
      and the key of the end now shown is unused, so that the next renewal charges for it again. */
  lemma RenewalUndone(s: State, w: nat, sub: nat, days: int)
    requires Chargeable(s, sub) && 0 < days <= 365
    ensures var end := s.rows[sub].end;
            var paid := Renewing(s, w, sub);
            var t := Step(paid, Extend(sub, end, s.rows[sub].status, days));
            && paid.orders == map[KeyOf(sub, end) := s.nextOrder]
            && sub < |paid.rows| && Some(paid.rows[sub].end) == NextPeriodEnd(end, s.rows[sub].interval)
            && sub < |t.rows| && t.rows[sub].end == ExtendBy(end, days) && t.orders == paid.orders
            && KeyOf(sub, t.rows[sub].end) !in t.orders
  {
    hide Seconds, Micros, Sound, NextPeriodEnd, ExtendBy, Billing, Renewing;
    ChargeableDue(s, sub);
    RenewingIff(s, w, sub);
    LaterSecond(s.rows[sub].end, days);
  }

  lemma LaterSecond(end: Instant, days: nat)
    requires days > 0
    ensures Seconds(end) < Seconds(ExtendBy(end, days))
  {
    ExtendByMeaning(end, days);
    SecondsGrow(Micros(end), Micros(ExtendBy(end, days)));
  }

  // ---- A refused renewal and its downgrade ----

  /** The steps worker `w` takes itself. */
  predicate TakenBy(a: Action, w: nat)
  {
    !a.SetStatus? && !a.Move? && !a.Purchase? && !a.Extend? && a.worker == w
  }

  lemma WorkerStays(s: State, a: Action, w: nat)
    requires w in s.workers && !TakenBy(a, w)
    ensures w in Step(s, a).workers && Step(s, a).workers[w] == s.workers[w]
  {
    hide Seconds, Post, NextPeriodEnd;
  }

  /** A worker's charge pays for the period after `end`: it uses that key and renews the row. */
  ghost predicate Pays(s: State, s': State, a: Action, sub: nat, end: Instant)
  {
    && Charges(s, a, sub) && KeyOf(sub, end) !in s.orders && KeyOf(sub, end) in s'.orders
    && var copy := s.workers[a.worker].end;
       && KeyOf(sub, copy) == KeyOf(sub, end) && sub < |s'.rows| && s'.rows[sub].status == ACTIVE
       && Some(s'.rows[sub].end) == NextPeriodEnd(copy, s.rows[sub].interval)
  }

  /** A key, once used, stays so, and it comes into use by nothing else than such a charge. */
  lemma UsedByPaying(s: State, a: Action, sub: nat, end: Instant)
    ensures KeyOf(sub, end) in s.orders ==> KeyOf(sub, end) in Step(s, a).orders
    ensures KeyOf(sub, end) !in s.orders && KeyOf(sub, end) in Step(s, a).orders ==> Pays(s, Step(s, a), a, sub, end)
  {
    hide Seconds, Post, NextPeriodEnd;
    if a.Charge? && a.worker in s.workers && s.workers[a.worker].sub < |s.rows| {
      ChargeSetsEnd(s, a.worker);
    }
  }

  /** At step `j` the wallet turns worker `w`'s charge down. */
  ghost predicate RefusedAt(states: seq<State>, schedule: seq<Action>, j: nat, w: nat)
    requires j < |schedule| && |states| == |schedule| + 1
  {
    && schedule[j] == Charge(w) && w in states[j].workers && states[j].workers[w].phase.Checked?
    && w in states[j + 1].workers && states[j + 1].workers[w].phase == Returned(false)
  }

  /** Between steps `j` and `k` worker `w` does nothing. */
  ghost predicate Waits(schedule: seq<Action>, w: nat, j: nat, k: nat)
  {
    forall i: nat :: j < i < k && i < |schedule| ==> !TakenBy(schedule[i], w)
  }

  lemma RefusedUnused(s: State, w: nat)
    requires w in s.workers && s.workers[w].sub < |s.rows| && DoCharge(s, w).workers[w].phase == Returned(false)
    ensures KeyOf(s.workers[w].sub, s.workers[w].end) !in DoCharge(s, w).orders
    ensures DoCharge(s, w).workers[w] == s.workers[w].(phase := Returned(false))
  {
    hide Seconds, NextPeriodEnd, Post;
  }

  /** Since its refusal worker `w` is as it was, and its key is in use exactly if something has paid. */
  lemma {:induction false} PaidSince(states: seq<State>, schedule: seq<Action>, w: nat, j: nat, k: nat)
    requires IsRun(states, schedule) && j < k < |states| && RefusedAt(states, schedule, j, w) && Waits(schedule, w, j, k)
    ensures var sub, end := states[j].workers[w].sub, states[j].workers[w].end;
            && w in states[k].workers && states[k].workers[w] == Worker(Returned(false), sub, end)
            && (KeyOf(sub, end) in states[k].orders <==>
                  exists i: nat :: j < i < k && Pays(states[i], states[i + 1], schedule[i], sub, end))
    decreases k
  {
    hide Step, Pays, DoCharge, Seconds, Init;
    var sub, end := states[j].workers[w].sub, states[j].workers[w].end;
    assert StepAt(states, schedule, k - 1);
    if k == j + 1 {
      EveryRunBillsOnce(states, schedule, j);
      ChargeStep(states[j], w);
      RefusedUnused(states[j], w);
    } else {
      PaidSince(states, schedule, w, j, k - 1);
      WorkerStays(states[k - 1], schedule[k - 1], w);
      UsedByPaying(states[k - 1], schedule[k - 1], sub, end);
      PaysUnused(states[k - 1], states[k], schedule[k - 1], sub, end);
    }
  }

  lemma ChargeStep(s: State, w: nat)
    requires Billing(s) && w in s.workers && s.workers[w].phase.Checked?
    ensures s.workers[w].sub < |s.rows| && Step(s, Charge(w)) == DoCharge(s, w)
  {
    hide Sound, DoCharge;
  }

  lemma PaysUnused(s: State, s': State, a: Action, sub: nat, end: Instant)
    ensures Pays(s, s', a, sub, end) ==> KeyOf(sub, end) !in s.orders && KeyOf(sub, end) in s'.orders
  {
    hide Seconds, NextPeriodEnd, Step;
  }

  /** The renewal job refuses and downgrades in two transactions, and anything may happen in between.
      The update moves the row to GRACE exactly when the row is ACTIVE by then and nobody holds it; and
      it so moves a row whose period is paid for, by an order with its ledger entry, exactly when
      besides something has renewed it since the refusal. */
  lemma GracedIff(states: seq<State>, schedule: seq<Action>, w: nat, j: nat, k: nat)
    requires IsRun(states, schedule) && j < k < |schedule|
    requires RefusedAt(states, schedule, j, w) && Waits(schedule, w, j, k) && schedule[k] == Downgrade(w)
    ensures var sub, end := states[j].workers[w].sub, states[j].workers[w].end;
            var s, t := states[k], states[k + 1];
            && sub < |s.rows|
            && (t.rows != s.rows <==> RowFree(s, sub) && s.rows[sub].status == ACTIVE)
            && (t.rows != s.rows ==> t.rows == s.rows[sub := s.rows[sub].(status := GRACE)])
            && (KeyOf(sub, end) in t.orders <==>
                  exists i: nat :: j < i < k && Pays(states[i], states[i + 1], schedule[i], sub, end))
            && (KeyOf(sub, end) in t.orders ==> ChargedOnce(t, sub, t.orders[KeyOf(sub, end)]))
  {
    hide Pays, DoCharge, Seconds, Init, Sound, ChargedOnce, Recorded;
    PaidSince(states, schedule, w, j, k);
    assert StepAt(states, schedule, k);
    EveryRunBillsOnce(states, schedule, k);
    EveryRunBillsOnce(states, schedule, k + 1);
    BillingWorkers(states[k]);
    var s := states[k];
    if RowFree(s, s.workers[w].sub) && s.rows[s.workers[w].sub].status == ACTIVE {
      assert states[k + 1].rows[s.workers[w].sub].status == GRACE;
    }
  }

  /** That happens: a refused worker, a top-up, another worker's renewal, and then the update. */
  lemma PaidThenGraced(s: State, w: nat, v: nat, sub: nat, topUp: nat)
    requires Due(s, sub) && s.books.balances[s.rows[sub].wallet] < s.rows[sub].price && w != v
    requires !Recorded(s.books.entries, TopUpRef(topUp))
    ensures var row, refused := s.rows[sub], Renewing(s, w, sub);
            var funded := Step(refused, Move(Request(row.wallet, Crediting, row.price, TOPUP, TopUpRef(topUp))));
            var paid := Renewing(funded, v, sub);
            var t := Step(paid, Downgrade(w));
            && refused.rows == s.rows && refused.orders == s.orders && paid.orders.Keys == s.orders.Keys + {KeyOf(sub, row.end)}
            && |t.rows| == |s.rows| && t.rows[sub].status == GRACE && t.orders == paid.orders
            && Some(t.rows[sub].end) == NextPeriodEnd(row.end, row.interval)
  {
    hide Seconds, Micros, Sound, NextPeriodEnd, Billing, Renewing, Post;
    var row, refused := s.rows[sub], Renewing(s, w, sub);
    RenewingIff(s, w, sub);
    WorkerBilling(s, w, Worker(Returned(false), sub, row.end));
    var credit := Request(row.wallet, Crediting, row.price, TOPUP, TopUpRef(topUp));
    MoneyBilling(refused, credit, refused.nextOrder);
    FreshOrder(s);
    PostEffect(s.books, credit);
    NonNegative(s.books, row.wallet);
    RenewingIff(Step(refused, Move(credit)), v, sub);
  }

  lemma NonNegative(books: Books, wallet: nat)
    requires Sound(books) && wallet in books.balances
    ensures books.balances[wallet] >= 0
  {
  }

  // ---- What a worker answers ----

  /** A worker answers that the period is renewed exactly when its key is in use as it looks, or its charge
      goes through; and that it was refused exactly when it finds the row cancelled under the lock, or its
      charge finds the key unused and the wallet short. */
  lemma AnswerIff(s: State, a: Action, w: nat)
    requires Billing(s) && (a == LookUp(w) || a == Recheck(w) || a == Charge(w))
    requires w in s.workers && !s.workers[w].phase.Returned?
    ensures w in Step(s, a).workers && s.workers[w].sub < |s.rows|
    ensures var worker := s.workers[w];
            var row, used, phase := s.rows[worker.sub], KeyOf(worker.sub, worker.end) in s.orders, Step(s, a).workers[w].phase;
            && (phase == Returned(true) <==>
                  || (a == LookUp(w) && worker.phase.Started? && row.interval != NONE && used)
                  || (a == Recheck(w) && worker.phase.Locked? && row.status != CANCELLED && used)
                  || (a == Charge(w) && worker.phase.Checked? && !used && row.interval != NONE && row.price > 0
                      && row.wallet in s.books.balances && row.price <= s.books.balances[row.wallet]))
            && (phase == Returned(false) <==>
                  || (a == Recheck(w) && worker.phase.Locked? && row.status == CANCELLED)
                  || (a == Charge(w) && worker.phase.Checked? && !used && row.interval != NONE && row.price > 0
                      && row.wallet in s.books.balances && s.books.balances[row.wallet] < row.price))
            && (a == LookUp(w) && worker.phase.Started? && row.interval == NONE ==> phase == Failed)
  {
    hide Sound, Seconds, Post, ChargedOnce, Recorded;
    BillingWorkers(s);
    FreshOrder(s);
    var row := s.rows[s.workers[w].sub];
    if row.interval != NONE { NextEndMeaning(s.workers[w].end, row.interval); }
    PostEffect(s.books, ChargeRequest(s, row));
  }
}
