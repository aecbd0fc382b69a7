/** The two renewal loops: which of the subscriptions they visit are renewed, and at what cost. */
module Renewals {
  import opened Prelude
  import opened Keys
  import opened Ledger
  import opened Calendar
  import opened Billing
  import opened Conservation
  import opened BillingInvariants
  import opened Fulfilment
  import Lifecycle

  // ---- What a loop will do, read off the tables it starts from ----

  /** Visit `k` charges: the row can be renewed, and what the visits before it have left in the wallet
      covers the price. */
  ghost predicate Pays(t: Tables, ids: seq<nat>, copies: seq<Lifecycle.Sub>, k: nat)
    requires k < |ids|
    decreases k, 1
  {
    var s := ids[k];
    && s < |copies| && CanRenew(t, s, copies[s].periodEnd) && PriceOf(t, s) > 0
    && var c := t.access.subs[s].customer;
       c in t.books.balances && Spent(t, ids, copies, k, c) + PriceOf(t, s) <= t.books.balances[c]
  }

  /** What the first `k` visits take from the wallet of `c`. */
  ghost function Spent(t: Tables, ids: seq<nat>, copies: seq<Lifecycle.Sub>, k: nat, c: nat): int
    requires k <= |ids|
    decreases k, 0
  {
    if k == 0 then 0
    else
      Spent(t, ids, copies, k - 1, c)
      + if Pays(t, ids, copies, k - 1) && t.access.subs[ids[k - 1]].customer == c then PriceOf(t, ids[k - 1]) else 0
  }

  /** In the renewal job, visit `k` moves its row to GRACE: it is ACTIVE and unpaid, and the wallet has
      become too short. */
  ghost predicate Moves(t: Tables, ids: seq<nat>, copies: seq<Lifecycle.Sub>, k: nat)
    requires k < |ids|
  {
    var s := ids[k];
    && s < |copies| && Recurring(t, s) && !KeyUsed(t.orders, RenewalKey(s, Seconds(copies[s].periodEnd)))
    && t.access.subs[s].status == Lifecycle.ACTIVE && PriceOf(t, s) > 0
    && var c := t.access.subs[s].customer;
       c in t.books.balances && t.books.balances[c] - Spent(t, ids, copies, k, c) < PriceOf(t, s)
  }

  /** The row of visit `k` afterwards; `job` tells the renewal job from the loop after a top-up. */
  ghost function RowAfter(t: Tables, ids: seq<nat>, copies: seq<Lifecycle.Sub>, job: bool, k: nat): Lifecycle.Sub
    requires k < |ids| && ids[k] < |t.access.subs|
  {
    var s := ids[k];
    var row := t.access.subs[s];
    if Pays(t, ids, copies, k) then
      row.(periodEnd := NextPeriodEnd(copies[s].periodEnd, t.plans[row.plan].interval).value, status := Lifecycle.ACTIVE)
    else if job && Moves(t, ids, copies, k) then row.(status := Lifecycle.GRACE)
    else row
  }

  // ---- The loops ----

  /** One visit of either loop. */
  function Visit(t: Tables, s: nat, copies: seq<Lifecycle.Sub>, job: bool): Tables
  {
    if job then DueNext(t, s, copies).0 else RenewNext(t, s, copies)
  }

  function Visits(t: Tables, ids: seq<nat>, copies: seq<Lifecycle.Sub>, job: bool): Tables
  {
    if ids == [] then t else Visit(Visits(t, ids[..|ids| - 1], copies, job), ids[|ids| - 1], copies, job)
  }

  lemma {:induction false} VisitsFirst(t: Tables, ids: seq<nat>, copies: seq<Lifecycle.Sub>, job: bool)
    requires ids != []
    ensures Visits(t, ids, copies, job) == Visits(Visit(t, ids[0], copies, job), ids[1..], copies, job)
  {
    hide Visit;
    if |ids| > 1 {
      VisitsFirst(t, ids[..|ids| - 1], copies, job);
      assert ids[1..][..|ids| - 2] == ids[..|ids| - 1][1..];
    } else {
      assert ids[..0] == [] && ids[1..] == [];
    }
  }

  lemma {:induction false} LoopsVisit(t: Tables, ids: seq<nat>, copies: seq<Lifecycle.Sub>)
    ensures RenewAll(t, ids, copies) == Visits(t, ids, copies, false)
    ensures DueAll(t, ids, copies).0 == Visits(t, ids, copies, true)
    decreases |ids|
  {
    hide RenewNext, DueNext;
    if ids != [] {
      LoopsVisit(Visit(t, ids[0], copies, false), ids[1..], copies);
      LoopsVisit(Visit(t, ids[0], copies, true), ids[1..], copies);
      VisitsFirst(t, ids, copies, false);
      VisitsFirst(t, ids, copies, true);
    }
  }

  // ---- What holds after each visit ----

  ghost predicate MoneyAfter(t: Tables, m: Tables, ids: seq<nat>, copies: seq<Lifecycle.Sub>, k: nat)
    requires k <= |ids|
  {
    && m.books.balances.Keys == t.books.balances.Keys
    && forall c :: BalanceOf(m.books, c) == BalanceOf(t.books, c) - Spent(t, ids, copies, k, c)
  }

  ghost predicate RowsAfter(t: Tables, m: Tables, ids: seq<nat>, copies: seq<Lifecycle.Sub>, job: bool, k: nat)
    requires k <= |ids|
  {
    && |m.access.subs| == |t.access.subs| && (Lifecycle.Linked(m.access) <==> Lifecycle.Linked(t.access))
    && (forall j: nat :: j < k && ids[j] < |t.access.subs| ==> m.access.subs[ids[j]] == RowAfter(t, ids, copies, job, j))
    && (forall s: nat :: s < |t.access.subs| && s !in ids[..k] ==> m.access.subs[s] == t.access.subs[s])
  }

  /** The renewal orders of the visits that charge, and no others, are added. */
  ghost predicate KeysAfter(t: Tables, m: Tables, ids: seq<nat>, copies: seq<Lifecycle.Sub>, k: nat)
    requires k <= |ids|
  {
    && t.orders <= m.orders
    && forall key :: KeyUsed(m.orders, key) <==> KeyUsed(t.orders, key) || PaidKey(t, ids, copies, k, key)
  }

  ghost predicate PaidKey(t: Tables, ids: seq<nat>, copies: seq<Lifecycle.Sub>, k: nat, key: OrderKey)
    requires k <= |ids|
  {
    exists j: nat :: j < k && Pays(t, ids, copies, j) && key == RenewalKey(ids[j], Seconds(copies[ids[j]].periodEnd))
  }

  ghost predicate After(t: Tables, m: Tables, ids: seq<nat>, copies: seq<Lifecycle.Sub>, job: bool, k: nat)
    requires k <= |ids|
  {
    && MoneyAfter(t, m, ids, copies, k) && RowsAfter(t, m, ids, copies, job, k) && KeysAfter(t, m, ids, copies, k)
    && m == t.(books := m.books, orders := m.orders, access := m.access)
  }

  ghost predicate Distinct(ids: seq<nat>)
  {
    forall j, k :: 0 <= j < k < |ids| ==> ids[j] != ids[k]
  }

  /** One visit, from the tables it finds. */
  lemma VisitIff(m: Tables, s: nat, copies: seq<Lifecycle.Sub>, job: bool)
    requires Inv(m) && s < |copies|
    ensures var m2, end := Visit(m, s, copies, job), copies[s].periodEnd;
            if CanRenew(m, s, end) && PriceOf(m, s) > 0 && Covers(m.books, m.access.subs[s].customer, PriceOf(m, s)) then
              RenewEffect(m, m2, s, end, PriceOf(m, s))
            else if job && Recurring(m, s) && !KeyUsed(m.orders, RenewalKey(s, Seconds(end)))
                    && m.access.subs[s].status == Lifecycle.ACTIVE && Short(m, s) then
              m2 == m.(access := Lifecycle.SetSub(m.access, s, m.access.subs[s].(status := Lifecycle.GRACE)))
            else m2 == m
  {
    hide Inv, RenewSub, DueNext, RenewEffect, Recurring, Covers, Short, KeyUsed, Seconds, Lifecycle.Linked;
    RenewIff(m, s, copies[s].periodEnd);
    DueTurnIff(m, s, copies);
  }

  /** What a visit decides depends on its own row and key, which the visits before it leave alone, and
      on its customer's balance. */
  lemma SameDecision(t: Tables, m: Tables, ids: seq<nat>, copies: seq<Lifecycle.Sub>, job: bool, k: nat)
    requires k < |ids| && Distinct(ids) && After(t, m, ids, copies, job, k) && ids[k] < |copies|
    ensures var s, end := ids[k], copies[ids[k]].periodEnd;
            && (CanRenew(m, s, end) <==> CanRenew(t, s, end)) && (Recurring(m, s) <==> Recurring(t, s))
            && (s < |t.access.subs| ==> m.access.subs[s] == t.access.subs[s])
            && (KeyUsed(m.orders, RenewalKey(s, Seconds(end))) <==> KeyUsed(t.orders, RenewalKey(s, Seconds(end))))
            && (Recurring(t, s) ==>
                  var c := t.access.subs[s].customer;
                  && PriceOf(m, s) == PriceOf(t, s) && (c in m.books.balances <==> c in t.books.balances)
                  && (c in m.books.balances ==> m.books.balances[c] == t.books.balances[c] - Spent(t, ids, copies, k, c)))
  {
    hide Seconds, Lifecycle.Linked, KeyUsed, Pays, RowAfter, Spent;
    var s := ids[k];
    assert s !in ids[..k];
    NotPaidYet(t, ids, copies, k);
    if Recurring(t, s) {
      var c := t.access.subs[s].customer;
      assert BalanceOf(m.books, c) == BalanceOf(t.books, c) - Spent(t, ids, copies, k, c);
    }
  }

  lemma NotPaidYet(t: Tables, ids: seq<nat>, copies: seq<Lifecycle.Sub>, k: nat)
    requires k < |ids| && Distinct(ids) && ids[k] < |copies|
    ensures !PaidKey(t, ids, copies, k, RenewalKey(ids[k], Seconds(copies[ids[k]].periodEnd)))
  {
    hide Seconds, Pays;
  }

  lemma PaidStep(t: Tables, ids: seq<nat>, copies: seq<Lifecycle.Sub>, k: nat, key: OrderKey)
    requires k < |ids|
    ensures PaidKey(t, ids, copies, k + 1, key) <==>
              || PaidKey(t, ids, copies, k, key)
              || (Pays(t, ids, copies, k) && key == RenewalKey(ids[k], Seconds(copies[ids[k]].periodEnd)))
  {
    hide Seconds, Pays;
    if Pays(t, ids, copies, k) {
      PaysInRange(t, ids, copies, k);
    }
  }

  lemma PaysInRange(t: Tables, ids: seq<nat>, copies: seq<Lifecycle.Sub>, k: nat)
    requires k < |ids| && Pays(t, ids, copies, k)
    ensures ids[k] < |copies| && ids[k] < |t.access.subs| && Recurring(t, ids[k])
    ensures NextPeriodEnd(copies[ids[k]].periodEnd, t.plans[t.access.subs[ids[k]].plan].interval).Some?
  {
    hide KeyUsed, Seconds, Lifecycle.Linked;
  }

  lemma RowsStep(t: Tables, m: Tables, m2: Tables, ids: seq<nat>, copies: seq<Lifecycle.Sub>, job: bool, k: nat)
    requires k < |ids| && Distinct(ids) && RowsAfter(t, m, ids, copies, job, k)
    requires Lifecycle.Linked(m2.access) <==> Lifecycle.Linked(m.access)
    requires if ids[k] < |t.access.subs| then m2.access.subs == m.access.subs[ids[k] := RowAfter(t, ids, copies, job, k)]
             else m2.access.subs == m.access.subs
    ensures RowsAfter(t, m2, ids, copies, job, k + 1)
  {
    hide Lifecycle.Linked, RowAfter;
    assert forall s: nat :: s in ids[..k + 1] <==> s in ids[..k] || s == ids[k];
  }

  lemma KeysStep(t: Tables, m: Tables, m2: Tables, ids: seq<nat>, copies: seq<Lifecycle.Sub>, k: nat)
    requires k < |ids| && KeysAfter(t, m, ids, copies, k)
    requires if Pays(t, ids, copies, k) then
               exists o :: m2.orders == m.orders + [o] && o.key == RenewalKey(ids[k], Seconds(copies[ids[k]].periodEnd))
             else m2.orders == m.orders
    ensures KeysAfter(t, m2, ids, copies, k + 1)
  {
    hide Seconds, PaidKey, CanRenew, Spent;
    forall key ensures KeyUsed(m2.orders, key) <==> KeyUsed(t.orders, key) || PaidKey(t, ids, copies, k + 1, key) {
      PaidStep(t, ids, copies, k, key);
      if Pays(t, ids, copies, k) {
        var o :| m2.orders == m.orders + [o] && o.key == RenewalKey(ids[k], Seconds(copies[ids[k]].periodEnd));
        KeyAppended(m.orders, o, key);
      }
    }
  }

  lemma KeyAppended(os: seq<Order>, o: Order, key: OrderKey)
    ensures KeyUsed(os + [o], key) <==> KeyUsed(os, key) || o.key == key
  {
    assert (os + [o])[|os|] == o && forall i :: 0 <= i < |os| ==> (os + [o])[i] == os[i];
  }

  lemma RenewLinks(a: Lifecycle.Access, s: nat, next: Instant)
    requires s < |a.subs| && Lifecycle.Linked(a)
    ensures Lifecycle.Linked(Lifecycle.Renew(a, s, next))
  {
  }

  /** So each visit does what was read off the tables at the start. */
  lemma VisitDecides(t: Tables, m: Tables, ids: seq<nat>, copies: seq<Lifecycle.Sub>, job: bool, k: nat)
    requires k < |ids| && Distinct(ids) && Inv(m) && After(t, m, ids, copies, job, k)
    ensures var s, m2 := ids[k], Visit(m, ids[k], copies, job);
            if Pays(t, ids, copies, k) then
              s < |copies| && s < |m.access.subs| && s < |t.access.subs| && t.access.subs[s].plan < |t.plans|
              && m.access.subs[s] == t.access.subs[s] && RenewEffect(m, m2, s, copies[s].periodEnd, PriceOf(t, s))
            else if job && Moves(t, ids, copies, k) then
              s < |m.access.subs| && m.access.subs[s] == t.access.subs[s]
              && m2 == m.(access := Lifecycle.SetSub(m.access, s, m.access.subs[s].(status := Lifecycle.GRACE)))
            else m2 == m
  {
    hide Inv, Visit, After, Seconds, KeyUsed, Lifecycle.Linked, Spent, RenewEffect;
    var s := ids[k];
    if s < |copies| {
      SameDecision(t, m, ids, copies, job, k);
      VisitIff(m, s, copies, job);
    } else {
      SkippedVisit(m, s, copies, job);
    }
  }

  lemma PaidVisit(t: Tables, m: Tables, m2: Tables, ids: seq<nat>, copies: seq<Lifecycle.Sub>, job: bool, k: nat)
    requires k < |ids| && Distinct(ids) && After(t, m, ids, copies, job, k) && Pays(t, ids, copies, k)
    requires ids[k] < |copies| && ids[k] < |m.access.subs| && ids[k] < |t.access.subs| && t.access.subs[ids[k]].plan < |t.plans|
    requires m.access.subs[ids[k]] == t.access.subs[ids[k]]
    requires RenewEffect(m, m2, ids[k], copies[ids[k]].periodEnd, PriceOf(t, ids[k]))
    ensures After(t, m2, ids, copies, job, k + 1)
  {
    hide Seconds, KeyUsed, Lifecycle.Linked, Pays, RowsAfter, KeysAfter, Lifecycle.Renew, NextPeriodEnd;
    PaysInRange(t, ids, copies, k);
    var s := ids[k];
    RenewLinks(m.access, s, NextPeriodEnd(copies[s].periodEnd, m.plans[m.access.subs[s].plan].interval).value);
    RowsStep(t, m, m2, ids, copies, job, k);
    KeysStep(t, m, m2, ids, copies, k);
  }

  lemma UnpaidVisit(t: Tables, m: Tables, m2: Tables, ids: seq<nat>, copies: seq<Lifecycle.Sub>, job: bool, k: nat)
    requires k < |ids| && Distinct(ids) && After(t, m, ids, copies, job, k) && !Pays(t, ids, copies, k)
    requires if job && Moves(t, ids, copies, k) then
               ids[k] < |m.access.subs| && m.access.subs[ids[k]] == t.access.subs[ids[k]]
               && m2 == m.(access := Lifecycle.SetSub(m.access, ids[k], m.access.subs[ids[k]].(status := Lifecycle.GRACE)))
             else m2 == m
    ensures After(t, m2, ids, copies, job, k + 1)
  {
    hide Seconds, KeyUsed, Pays, Moves, KeysAfter;
    if ids[k] < |t.access.subs| && m2 == m {
      assert ids[k] !in ids[..k];
      assert m.access.subs[ids[k] := m.access.subs[ids[k]]] == m.access.subs;
    }
    RowsStep(t, m, m2, ids, copies, job, k);
    KeysStep(t, m, m2, ids, copies, k);
  }

  lemma VisitAfter(t: Tables, m: Tables, ids: seq<nat>, copies: seq<Lifecycle.Sub>, job: bool, k: nat)
    requires k < |ids| && Distinct(ids) && Inv(m) && After(t, m, ids, copies, job, k)
    ensures After(t, Visit(m, ids[k], copies, job), ids, copies, job, k + 1)
  {
    hide Inv, Visit, After, Pays, Moves, RenewEffect;
    VisitDecides(t, m, ids, copies, job, k);
    if Pays(t, ids, copies, k) {
      PaidVisit(t, m, Visit(m, ids[k], copies, job), ids, copies, job, k);
    } else {
      UnpaidVisit(t, m, Visit(m, ids[k], copies, job), ids, copies, job, k);
    }
  }

  /** The loops' visits, all of them: each row charged or moved exactly as its turn's balance has it. */
  lemma {:induction false} VisitsAfter(t: Tables, ids: seq<nat>, copies: seq<Lifecycle.Sub>, job: bool, k: nat)
    requires Inv(t) && Distinct(ids) && k <= |ids|
    ensures Inv(Visits(t, ids[..k], copies, job)) && After(t, Visits(t, ids[..k], copies, job), ids, copies, job, k)
  {
    hide Inv, Visit, After;
    if k > 0 {
      VisitsAfter(t, ids, copies, job, k - 1);
      var m := Visits(t, ids[..k - 1], copies, job);
      assert ids[..k][..k - 1] == ids[..k - 1];
      VisitAfter(t, m, ids, copies, job, k - 1);
      VisitKeeps(m, ids[k - 1], copies, job);
    } else {
      NoVisits(t, ids, copies, job);
    }
  }

  lemma NoVisits(t: Tables, ids: seq<nat>, copies: seq<Lifecycle.Sub>, job: bool)
    ensures After(t, t, ids, copies, job, 0)
  {
  }

  lemma VisitKeeps(t: Tables, s: nat, copies: seq<Lifecycle.Sub>, job: bool)
    requires Inv(t)
    ensures Inv(Visit(t, s, copies, job))
  {
    hide Inv, RenewSub, Grows, DueNext, Short, Covers, Recurring, CanRenew, KeyUsed, RenewEffect;
    if s < |copies| {
      RenewKeeps(t, s, copies[s].periodEnd);
      RenewIff(t, s, copies[s].periodEnd);
      DueTurnIff(t, s, copies);
      OutsideKeeps(t, SetAccess(DueNext(t, s, copies).0.access));
      DueCharges(t, s, copies);
    } else {
      SkippedVisit(t, s, copies, job);
    }
  }

  /** The job's charge is the renewal itself. */
  lemma DueCharges(t: Tables, s: nat, copies: seq<Lifecycle.Sub>)
    requires s < |copies|
    ensures DueNext(t, s, copies).1 == Charged ==>
              RenewSub(t, s, copies[s].periodEnd) == Ok((DueNext(t, s, copies).0, true))
  {
    hide RenewSub;
  }

  lemma SkippedVisit(m: Tables, s: nat, copies: seq<Lifecycle.Sub>, job: bool)
    requires s >= |copies|
    ensures Visit(m, s, copies, job) == m
  {
  }

  // ---- The renewal job ----

  /** Turn `k` is that of the tables the turns before it left. */
  lemma {:induction false} TurnAt(t: Tables, ids: seq<nat>, copies: seq<Lifecycle.Sub>, k: nat)
    requires k < |ids|
    ensures |DueAll(t, ids, copies).1| == |ids|
    ensures DueAll(t, ids, copies).1[k] == DueNext(Visits(t, ids[..k], copies, true), ids[k], copies).1
    decreases |ids|
  {
    hide DueNext, Visit;
    TurnCount(t, ids, copies);
    var mid := Visit(t, ids[0], copies, true);
    VisitIsTurn(t, ids[0], copies);
    if k > 0 {
      TurnAt(mid, ids[1..], copies, k - 1);
      VisitsFirst(t, ids[..k], copies, true);
      assert ids[..k][1..] == ids[1..][..k - 1];
    }
  }

  lemma VisitIsTurn(t: Tables, s: nat, copies: seq<Lifecycle.Sub>)
    ensures Visit(t, s, copies, true) == DueNext(t, s, copies).0
  {
  }

  lemma {:induction false} TurnCount(t: Tables, ids: seq<nat>, copies: seq<Lifecycle.Sub>)
    ensures |DueAll(t, ids, copies).1| == |ids|
    decreases |ids|
  {
    hide DueNext;
    if ids != [] {
      TurnCount(DueNext(t, ids[0], copies).0, ids[1..], copies);
    }
  }

  /** The whole renewal job over distinct subscriptions, from copies of any age, with nothing in between.
      A row counts as charged exactly when its period is paid already or what the rows before it left in
      its wallet covers its price, and it goes to GRACE exactly when it is ACTIVE and unpaid and that is
      too little. Wallets fall by exactly the prices charged, one order is added for each, its row
      advances, and no other row changes. */
  lemma DueAllIff(t: Tables, ids: seq<nat>, copies: seq<Lifecycle.Sub>, k: nat)
    requires Inv(t) && Distinct(ids) && k < |ids|
    ensures var (t2, turns) := DueAll(t, ids, copies);
            && |turns| == |ids| && After(t, t2, ids, copies, true, |ids|)
            && (turns[k] == Charged <==>
                  || Pays(t, ids, copies, k)
                  || (ids[k] < |copies| && Recurring(t, ids[k])
                      && KeyUsed(t.orders, RenewalKey(ids[k], Seconds(copies[ids[k]].periodEnd)))))
            && (turns[k] == MovedToGrace <==> Moves(t, ids, copies, k))
  {
    hide Inv, Visit, After, DueNext, DueAll, RenewEffect, Seconds, KeyUsed, Lifecycle.Linked, Spent;
    LoopsVisit(t, ids, copies);
    VisitsAfter(t, ids, copies, true, |ids|);
    assert ids[..|ids|] == ids;
    TurnAt(t, ids, copies, k);
    VisitsAfter(t, ids, copies, true, k);
    var m := Visits(t, ids[..k], copies, true);
    if ids[k] < |copies| {
      SameDecision(t, m, ids, copies, true, k);
      DueTurnIff(m, ids[k], copies);
    } else {
      NoCopy(m, ids[k], copies);
    }
  }

  lemma NoCopy(t: Tables, s: nat, copies: seq<Lifecycle.Sub>)
    requires s >= |copies|
    ensures DueNext(t, s, copies) == (t, Turn.Failed)
  {
  }

  // ---- After a top-up ----

  /** The loop after a top-up: of the customer's lapsed auto-renewing rows, newest first, each is renewed
      exactly when what the ones before it left in the wallet covers it; nothing else changes. */
  lemma LapsedRenewedIff(t: Tables, c: nat)
    requires Inv(t)
    ensures var ids := LapsedOf(t.access.subs, c);
            After(t, RenewAll(t, ids, t.access.subs), ids, t.access.subs, false, |ids|)
  {
    hide Inv, After;
    var ids := LapsedOf(t.access.subs, c);
    LapsedOfMeaning(t.access.subs, c);
    LoopsVisit(t, ids, t.access.subs);
    VisitsAfter(t, ids, t.access.subs, false, |ids|);
    assert ids[..|ids|] == ids;
  }

  ghost function PriceAt(t: Tables): nat -> int
  {
    (s: nat) => if s < |t.access.subs| && t.access.subs[s].plan < |t.plans| then t.plans[t.access.subs[s].plan].price else 0
  }

  /** Every lapsed row of the customer can be renewed, and costs something. */
  ghost predicate AllDue(t: Tables, c: nat)
  {
    forall s: nat :: s < |t.access.subs| && Renewable(t.access.subs[s], c) ==>
      CanRenew(t, s, t.access.subs[s].periodEnd) && PriceOf(t, s) > 0
  }

  /** A row one period on, ACTIVE, its past period paid for. */
  ghost predicate Renewed(t: Tables, t2: Tables, s: nat)
    requires s < |t.access.subs| && t.access.subs[s].plan < |t.plans|
  {
    var row := t.access.subs[s];
    && KeyUsed(t2.orders, RenewalKey(s, Seconds(row.periodEnd))) && s < |t2.access.subs|
    && t2.access.subs[s].status == Lifecycle.ACTIVE
    && Some(t2.access.subs[s].periodEnd) == NextPeriodEnd(row.periodEnd, t.plans[row.plan].interval)
  }

  lemma {:induction false} AllPay(t: Tables, ids: seq<nat>, c: nat, k: nat)
    requires k <= |ids| && c in t.books.balances && Sum(ids, PriceAt(t)) <= t.books.balances[c]
    requires forall j: nat :: j < |ids| ==>
               ids[j] < |t.access.subs| && t.access.subs[ids[j]].customer == c
               && CanRenew(t, ids[j], t.access.subs[ids[j]].periodEnd) && PriceOf(t, ids[j]) > 0
    ensures forall j: nat :: j < k ==> Pays(t, ids, t.access.subs, j)
    ensures Spent(t, ids, t.access.subs, k, c) == Sum(ids[..k], PriceAt(t))
  {
    hide Seconds, KeyUsed, Lifecycle.Linked;
    if k > 0 {
      AllPay(t, ids, c, k - 1);
      PricesNonNegative(t, ids);
      SumPrefix(ids, k, PriceAt(t));
      assert Pays(t, ids, t.access.subs, k - 1);
    }
  }

  lemma PricesNonNegative(t: Tables, ids: seq<nat>)
    ensures forall i :: 0 <= i < |ids| ==> PriceAt(t)(ids[i]) >= 0
  {
  }

  /** If the wallet covers them all, every lapsed row is renewed, and the wallet falls by exactly the sum
      of their prices. */
  lemma CoveredLapsedRenewed(t: Tables, c: nat)
    requires Inv(t) && AllDue(t, c) && c in t.books.balances
    requires Sum(LapsedOf(t.access.subs, c), PriceAt(t)) <= t.books.balances[c]
    ensures var t2 := RenewAll(t, LapsedOf(t.access.subs, c), t.access.subs);
            && (forall s: nat :: s < |t.access.subs| && Renewable(t.access.subs[s], c) ==>
                  t.access.subs[s].plan < |t.plans| && Renewed(t, t2, s))
            && BalanceOf(t2.books, c) == BalanceOf(t.books, c) - Sum(LapsedOf(t.access.subs, c), PriceAt(t))
  {
    hide Inv, RenewAll, Seconds, KeyUsed, Lifecycle.Linked, LapsedOf, Spent, Pays, PaidKey;
    var ids, subs := LapsedOf(t.access.subs, c), t.access.subs;
    LapsedOfMeaning(subs, c);
    forall j: nat | j < |ids|
      ensures ids[j] < |subs| && subs[ids[j]].customer == c && CanRenew(t, ids[j], subs[ids[j]].periodEnd) && PriceOf(t, ids[j]) > 0
    {
      assert ids[j] in ids;
    }
    AllPay(t, ids, c, |ids|);
    assert ids[..|ids|] == ids;
    LapsedRenewedIff(t, c);
    var t2 := RenewAll(t, ids, subs);
    forall s: nat | s < |subs| && Renewable(subs[s], c) ensures subs[s].plan < |t.plans| && Renewed(t, t2, s) {
      assert s in ids;
      var k: nat :| k < |ids| && ids[k] == s;
      PaysInRange(t, ids, subs, k);
      PaidKeyOf(t, ids, subs, k);
      assert t2.access.subs[ids[k]] == RowAfter(t, ids, subs, false, k);
    }
  }

  lemma PaidKeyOf(t: Tables, ids: seq<nat>, copies: seq<Lifecycle.Sub>, k: nat)
    requires k < |ids| && Pays(t, ids, copies, k)
    ensures ids[k] < |copies| && PaidKey(t, ids, copies, |ids|, RenewalKey(ids[k], Seconds(copies[ids[k]].periodEnd)))
  {
    hide Seconds, CanRenew;
  }
}
