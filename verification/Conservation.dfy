/** Money: every ledger entry belongs to exactly one paid top-up, charged order, approved refund or
    adjustment, and a wallet holds what these say. */
module Conservation {
  import opened Prelude
  import opened Keys
  import opened Ledger
  import opened Billing

  // ---- Money ----

  function PaidTo(c: nat): TopUp -> int
  {
    (u: TopUp) => if u.customer == c && u.status == SETTLED then u.amount + u.bonus else 0
  }

  function AdjustedFor(c: nat): Entry -> int
  {
    (e: Entry) => if e.wallet == c && e.ref.AdjustmentRef? then e.amount else 0
  }

  function RefundedTo(c: nat, orders: seq<Order>): Refund -> int
  {
    (r: Refund) =>
      if r.customer == c && r.status == APPROVED && r.order.Some? && r.order.value < |orders|
      then orders[r.order.value].amount else 0
  }

  function ChargedTo(c: nat): Order -> int
  {
    (o: Order) => if o.customer == c && o.charged then o.amount else 0
  }

  ghost predicate Balanced(es: seq<Entry>, us: seq<TopUp>, os: seq<Order>, rs: seq<Refund>, c: nat)
  {
    Sum(es, AmountIn(c))
    == Sum(us, PaidTo(c)) + Sum(es, AdjustedFor(c)) + Sum(rs, RefundedTo(c, os)) - Sum(os, ChargedTo(c))
  }

  ghost predicate AllBalanced(es: seq<Entry>, us: seq<TopUp>, os: seq<Order>, rs: seq<Refund>)
  {
    forall c :: Balanced(es, us, os, rs, c)
  }

  /** A row carries a ledger entry exactly when its status says so. */
  ghost predicate Linked(es: seq<Entry>, us: seq<TopUp>, os: seq<Order>, rs: seq<Refund>)
  {
    && (forall i: nat :: Recorded(es, TopUpRef(i)) <==> i < |us| && us[i].status == SETTLED)
    && (forall i: nat :: Recorded(es, BonusRef(i)) <==> i < |us| && us[i].status == SETTLED && us[i].bonus > 0)
    && (forall i: nat :: Recorded(es, OrderRef(i)) <==> i < |os| && os[i].charged)
    && (forall i: nat :: Recorded(es, RefundRef(i)) <==> i < |rs| && rs[i].status == APPROVED)
  }

  ghost predicate Shaped(us: seq<TopUp>, os: seq<Order>, rs: seq<Refund>)
  {
    && (forall i :: 0 <= i < |us| ==> us[i].amount > 0)
    && (forall i :: 0 <= i < |os| ==> (os[i].charged ==> os[i].amount > 0) && (os[i].status == PENDING ==> Fresh(os[i])))
    && (forall i :: 0 <= i < |rs| ==> rs[i].order.Some? && rs[i].order.value < |os|)
  }

  /** Neither paid from the ledger nor numbered. */
  predicate Fresh(o: Order) { !o.charged && o.invoice.None? }

  /** The entry moves what its row says, for the customer of that row. */
  ghost predicate Describes(e: Entry, us: seq<TopUp>, os: seq<Order>, rs: seq<Refund>)
  {
    match e.ref
    case TopUpRef(i) => i < |us| && e.wallet == us[i].customer && e.amount == us[i].amount
    case BonusRef(i) => i < |us| && e.wallet == us[i].customer && e.amount == us[i].bonus
    case OrderRef(i) => i < |os| && e.wallet == os[i].customer && e.amount + os[i].amount == 0
    case RefundRef(i) =>
      i < |rs| && e.wallet == rs[i].customer && rs[i].order.Some? && rs[i].order.value < |os|
      && e.amount == os[rs[i].order.value].amount
    case AdjustmentRef(_) => e.amount > 0
  }

  ghost predicate Described(es: seq<Entry>, us: seq<TopUp>, os: seq<Order>, rs: seq<Refund>)
  {
    forall k :: 0 <= k < |es| ==> Describes(es[k], us, os, rs)
  }

  ghost predicate Accounts(es: seq<Entry>, us: seq<TopUp>, os: seq<Order>, rs: seq<Refund>)
  {
    Linked(es, us, os, rs) && Shaped(us, os, rs) && Described(es, us, os, rs) && AllBalanced(es, us, os, rs)
  }

  ghost predicate Money(b: Books, us: seq<TopUp>, os: seq<Order>, rs: seq<Refund>)
  {
    Sound(b) && Accounts(b.entries, us, os, rs)
  }

  /** Rows that contribute what they did, and new rows that contribute nothing. */
  lemma {:induction false} SumPadded<T>(before: seq<T>, after: seq<T>, f: T -> int)
    requires |before| <= |after|
    requires forall i :: 0 <= i < |before| ==> f(after[i]) == f(before[i])
    requires forall i :: |before| <= i < |after| ==> f(after[i]) == 0
    ensures Sum(after, f) == Sum(before, f)
  {
    if |after| > |before| {
      SumPadded(before, after[..|after| - 1], f);
    } else {
      SumCongruence(after, before, f, f);
    }
  }

  lemma RecordedAppend(entries: seq<Entry>, e: Entry)
    ensures forall ref :: Recorded(entries + [e], ref) <==> Recorded(entries, ref) || ref == e.ref
  {
    forall ref ensures Recorded(entries + [e], ref) <==> Recorded(entries, ref) || ref == e.ref {
      var after := entries + [e];
      assert forall i :: 0 <= i < |entries| ==> after[i] == entries[i];
      assert after[|entries|] == e;
    }
  }

  /** A successful first use of a reference appends its entry. */
  lemma Entered(b: Books, r: Request) returns (e: Entry)
    requires Sound(b) && Post(b, r).1.Ok? && !Recorded(b.entries, r.ref)
    ensures Sound(Post(b, r).0) && r.amount > 0
    ensures Post(b, r).0.entries == b.entries + [e] && Post(b, r).0.balances.Keys == b.balances.Keys
    ensures e.wallet == r.wallet && e.amount == r.Signed() && e.ref == r.ref
  {
    PostSound(b, r);
    PostEffect(b, r);
    e := Post(b, r).1.value;
  }

  ghost predicate SameMoney(o: Order, p: Order)
  {
    o.charged == p.charged && o.amount == p.amount && o.customer == p.customer
  }

  /** Orders inserted unpaid, or changed without their money. */
  lemma MoneyOrders(b: Books, us: seq<TopUp>, os: seq<Order>, os2: seq<Order>, rs: seq<Refund>)
    requires Money(b, us, os, rs) && |os| <= |os2| && Shaped(us, os2, rs)
    requires forall i :: 0 <= i < |os| ==> SameMoney(os[i], os2[i])
    requires forall i :: |os| <= i < |os2| ==> !os2[i].charged
    ensures Money(b, us, os2, rs)
  {
    hide Sound;
    forall c ensures Balanced(b.entries, us, os2, rs, c) {
      assert Balanced(b.entries, us, os, rs, c);
      SumPadded(os, os2, ChargedTo(c));
      SumCongruence(rs, rs, RefundedTo(c, os), RefundedTo(c, os2));
    }
  }

  ghost predicate SameFunding(u: TopUp, v: TopUp)
  {
    u.customer == v.customer && u.amount == v.amount && u.bonus == v.bonus && (u.status == SETTLED <==> v.status == SETTLED)
  }

  /** Top-ups inserted unpaid, linked, expired or declined. */
  lemma MoneyTopUps(b: Books, us: seq<TopUp>, us2: seq<TopUp>, os: seq<Order>, rs: seq<Refund>)
    requires Money(b, us, os, rs) && |us| <= |us2| && Shaped(us2, os, rs)
    requires forall i :: 0 <= i < |us| ==> SameFunding(us[i], us2[i])
    requires forall i :: |us| <= i < |us2| ==> us2[i].status != SETTLED
    ensures Money(b, us2, os, rs)
  {
    hide Sound;
    forall c ensures Balanced(b.entries, us2, os, rs, c) {
      assert Balanced(b.entries, us, os, rs, c);
      SumPadded(us, us2, PaidTo(c));
    }
  }

  /** Refunds requested or rejected. */
  lemma MoneyRefunds(b: Books, us: seq<TopUp>, os: seq<Order>, rs: seq<Refund>, rs2: seq<Refund>)
    requires Money(b, us, os, rs) && |rs| <= |rs2| && Shaped(us, os, rs2)
    requires forall i :: 0 <= i < |rs| ==>
               rs2[i].customer == rs[i].customer && rs2[i].order == rs[i].order
               && (rs2[i].status == APPROVED <==> rs[i].status == APPROVED)
    requires forall i :: |rs| <= i < |rs2| ==> rs2[i].status != APPROVED
    ensures Money(b, us, os, rs2)
  {
    hide Sound;
    forall c ensures Balanced(b.entries, us, os, rs2, c) {
      assert Balanced(b.entries, us, os, rs, c);
      SumPadded(rs, rs2, RefundedTo(c, os));
    }
  }

  lemma LinkedEntry(es: seq<Entry>, e: Entry, us: seq<TopUp>, os: seq<Order>, rs: seq<Refund>,
                    us2: seq<TopUp>, os2: seq<Order>, rs2: seq<Refund>)
    requires Linked(es, us, os, rs) && |us2| == |us| && |os2| == |os| && |rs2| == |rs|
    requires match e.ref
             case TopUpRef(i) => i < |us| && us[i].bonus == 0 && us2 == us[i := us[i].(status := SETTLED)] && os2 == os && rs2 == rs
             case BonusRef(i) => false
             case OrderRef(i) => i < |os| && os2[i].charged && os2 == os[i := os2[i]] && us2 == us && rs2 == rs
             case RefundRef(i) => i < |rs| && rs2[i].status == APPROVED && rs2 == rs[i := rs2[i]] && us2 == us && os2 == os
             case AdjustmentRef(_) => us2 == us && os2 == os && rs2 == rs
    ensures Linked(es + [e], us2, os2, rs2)
  {
    RecordedAppend(es, e);
    hide Recorded;
  }

  lemma SumEntry(es: seq<Entry>, e: Entry, c: nat)
    ensures Sum(es + [e], AmountIn(c)) == Sum(es, AmountIn(c)) + if e.wallet == c then e.amount else 0
    ensures Sum(es + [e], AdjustedFor(c))
            == Sum(es, AdjustedFor(c)) + if e.wallet == c && e.ref.AdjustmentRef? then e.amount else 0
  {
  }

  ghost predicate PaidCopy(o: Order, p: Order)
  {
    p.charged && p.customer == o.customer && p.amount == o.amount && p.status != PENDING
  }

  lemma AccountsCharge(es: seq<Entry>, e: Entry, us: seq<TopUp>, os: seq<Order>, rs: seq<Refund>, id: nat, o: Order)
    requires Accounts(es, us, os, rs) && id < |os| && !os[id].charged && PaidCopy(os[id], o) && o.amount > 0
    requires e.wallet == o.customer && e.amount + o.amount == 0 && e.ref == OrderRef(id)
    ensures Accounts(es + [e], us, os[id := o], rs)
  {
    var after, os2 := es + [e], os[id := o];
    LinkedEntry(es, e, us, os, rs, us, os2, rs);
    hide Linked;
    forall c ensures Balanced(after, us, os2, rs, c) {
      assert Balanced(es, us, os, rs, c);
      SumEntry(es, e, c);
      SumUpdate(os, id, o, ChargedTo(c));
      SumCongruence(rs, rs, RefundedTo(c, os), RefundedTo(c, os2));
    }
  }

  lemma AccountsAdjust(es: seq<Entry>, e: Entry, us: seq<TopUp>, os: seq<Order>, rs: seq<Refund>)
    requires Accounts(es, us, os, rs) && e.ref.AdjustmentRef? && e.amount > 0
    ensures Accounts(es + [e], us, os, rs)
  {
    var after := es + [e];
    LinkedEntry(es, e, us, os, rs, us, os, rs);
    hide Linked;
    forall c ensures Balanced(after, us, os, rs, c) {
      assert Balanced(es, us, os, rs, c);
      SumEntry(es, e, c);
    }
  }

  lemma AccountsRefund(es: seq<Entry>, e: Entry, us: seq<TopUp>, os: seq<Order>, rs: seq<Refund>, i: nat)
    requires Accounts(es, us, os, rs) && i < |rs| && rs[i].status != APPROVED
    requires e.wallet == rs[i].customer && e.amount == os[rs[i].order.value].amount && e.ref == RefundRef(i)
    ensures Accounts(es + [e], us, os, rs[i := rs[i].(status := APPROVED)])
  {
    var after, rs2 := es + [e], rs[i := rs[i].(status := APPROVED)];
    LinkedEntry(es, e, us, os, rs, us, os, rs2);
    hide Linked;
    forall c ensures Balanced(after, us, os, rs2, c) {
      assert Balanced(es, us, os, rs, c);
      SumEntry(es, e, c);
      SumUpdate(rs, i, rs2[i], RefundedTo(c, os));
    }
  }

  /** The entries of a credited top-up: the amount, and the bonus if there is one. */
  ghost predicate CreditEntries(u: TopUp, i: nat, added: seq<Entry>)
  {
    && |added| == (if u.bonus > 0 then 2 else 1)
    && added[0].wallet == u.customer && added[0].amount == u.amount && added[0].ref == TopUpRef(i)
    && (u.bonus > 0 ==> added[1].wallet == u.customer && added[1].amount == u.bonus && added[1].ref == BonusRef(i))
  }

  lemma LinkedCredit(es: seq<Entry>, added: seq<Entry>, us: seq<TopUp>, os: seq<Order>, rs: seq<Refund>, i: nat)
    requires Linked(es, us, os, rs) && i < |us| && CreditEntries(us[i], i, added)
    ensures Linked(es + added, us[i := us[i].(status := SETTLED)], os, rs)
  {
    RecordedAppend(es, added[0]);
    if us[i].bonus > 0 {
      RecordedAppend(es + [added[0]], added[1]);
      assert es + [added[0]] + [added[1]] == es + added;
    } else {
      assert es + [added[0]] == es + added;
    }
    hide Recorded;
  }

  lemma AccountsCredit(es: seq<Entry>, added: seq<Entry>, us: seq<TopUp>, os: seq<Order>, rs: seq<Refund>, i: nat)
    requires Accounts(es, us, os, rs) && i < |us| && us[i].status != SETTLED && CreditEntries(us[i], i, added)
    ensures Accounts(es + added, us[i := us[i].(status := SETTLED)], os, rs)
  {
    var after, us2 := es + added, us[i := us[i].(status := SETTLED)];
    LinkedCredit(es, added, us, os, rs, i);
    hide Linked;
    assert added == if us[i].bonus > 0 then [added[0]] + [added[1]] else [added[0]];
    forall c ensures Balanced(after, us2, os, rs, c) {
      assert Balanced(es, us, os, rs, c);
      SumEntry(es, added[0], c);
      if us[i].bonus > 0 {
        SumEntry(es + [added[0]], added[1], c);
        assert es + [added[0]] + [added[1]] == after;
      }
      SumUpdate(us, i, us2[i], PaidTo(c));
    }
  }

  /** Which references are still free. */
  lemma Unrecorded(es: seq<Entry>, us: seq<TopUp>, os: seq<Order>, rs: seq<Refund>)
    requires Accounts(es, us, os, rs)
    ensures forall i :: 0 <= i < |us| && us[i].status != SETTLED ==>
              !Recorded(es, TopUpRef(i)) && !Recorded(es, BonusRef(i))
    ensures forall i :: 0 <= i < |os| && !os[i].charged ==> !Recorded(es, OrderRef(i))
    ensures forall i :: 0 <= i < |rs| && rs[i].status != APPROVED ==> !Recorded(es, RefundRef(i))
    ensures !Recorded(es, OrderRef(|os|))
    ensures forall i :: 0 <= i < |us| ==> us[i].amount > 0
  {
  }

  /** An order debited. */
  lemma MoneyCharge(b: Books, us: seq<TopUp>, os: seq<Order>, rs: seq<Refund>, id: nat, o: Order)
    requires Money(b, us, os, rs) && id < |os| && !os[id].charged && PaidCopy(os[id], o)
    requires Post(b, ChargeRequest(os[id], id)).1.Ok?
    ensures Money(Post(b, ChargeRequest(os[id], id)).0, us, os[id := o], rs)
    ensures b.entries <= Post(b, ChargeRequest(os[id], id)).0.entries
    ensures Post(b, ChargeRequest(os[id], id)).0.balances.Keys == b.balances.Keys
  {
    hide Sound, Post, Recorded, Accounts;
    Unrecorded(b.entries, us, os, rs);
    var e := Entered(b, ChargeRequest(os[id], id));
    AccountsCharge(b.entries, e, us, os, rs, id, o);
  }

  /** A manual adjustment, new or under a token already used. */
  lemma MoneyAdjust(b: Books, us: seq<TopUp>, os: seq<Order>, rs: seq<Refund>, r: Request)
    requires Money(b, us, os, rs) && r.ref.AdjustmentRef? && r.side == Crediting
    ensures Money(Post(b, r).0, us, os, rs)
    ensures b.entries <= Post(b, r).0.entries && Post(b, r).0.balances.Keys == b.balances.Keys
  {
    PostEffect(b, r);
    hide Sound, Post, Recorded, Accounts;
    if Post(b, r).1.Ok? && !Recorded(b.entries, r.ref) {
      var e := Entered(b, r);
      AccountsAdjust(b.entries, e, us, os, rs);
    }
  }

  function RefundRequest(os: seq<Order>, rs: seq<Refund>, i: nat): Request
    requires i < |rs| && rs[i].order.Some? && rs[i].order.value < |os|
  {
    Request(rs[i].customer, Crediting, os[rs[i].order.value].amount, ADJUSTMENT, RefundRef(i))
  }

  /** A refund approved. */
  lemma MoneyRefund(b: Books, us: seq<TopUp>, os: seq<Order>, rs: seq<Refund>, i: nat)
    requires Money(b, us, os, rs) && i < |rs| && rs[i].status != APPROVED
    requires Post(b, RefundRequest(os, rs, i)).1.Ok?
    ensures Money(Post(b, RefundRequest(os, rs, i)).0, us, os, rs[i := rs[i].(status := APPROVED)])
    ensures b.entries <= Post(b, RefundRequest(os, rs, i)).0.entries
    ensures Post(b, RefundRequest(os, rs, i)).0.balances.Keys == b.balances.Keys
  {
    Unrecorded(b.entries, us, os, rs);
    var r := RefundRequest(os, rs, i);
    hide Sound, Post, Recorded, Accounts;
    var e := Entered(b, r);
    AccountsRefund(b.entries, e, us, os, rs, i);
  }

  /** A first use of a reference on an existing wallet always credits. */
  lemma CreditEffect(b: Books, r: Request)
    requires Sound(b) && r.side == Crediting && r.amount > 0 && !r.kind.UnknownType? && !Recorded(b.entries, r.ref)
    ensures Post(b, r).1.Ok? <==> r.wallet in b.balances
    ensures Post(b, r).1.Ok? ==> Post(b, r).0.balances == b.balances[r.wallet := b.balances[r.wallet] + r.amount]
  {
  }

  lemma CreditBooks(b: Books, u: TopUp, id: nat) returns (added: seq<Entry>)
    requires Sound(b) && u.amount > 0 && !Recorded(b.entries, TopUpRef(id)) && !Recorded(b.entries, BonusRef(id))
    ensures CreditPosts(b, u, id).Ok? <==> u.customer in b.balances
    ensures CreditPosts(b, u, id).Ok? ==>
              var after := CreditPosts(b, u, id).value;
              && CreditEntries(u, id, added)
              && Sound(after) && after.entries == b.entries + added
              && after.balances == b.balances[u.customer := b.balances[u.customer] + u.amount + u.bonus]
  {
    var r, q := AmountRequest(u, id), BonusRequest(u, id);
    hide Sound, Post, Recorded;
    added := [];
    CreditEffect(b, r);
    if u.customer in b.balances {
      var e := Entered(b, r);
      added := [e];
      if u.bonus > 0 {
        var mid := Post(b, r).0;
        RecordedAppend(b.entries, e);
        CreditEffect(mid, q);
        var f := Entered(mid, q);
        added := [e, f];
        assert b.entries + [e] + [f] == b.entries + added;
      }
    }
  }

  /** The whole effect of crediting top-up `id`. */
  ghost predicate Credited(t: Tables, t2: Tables, id: nat)
    requires id < |t.topups| && t.topups[id].customer in t.books.balances
  {
    var u := t.topups[id];
    && t2 == t.(books := t2.books, topups := t.topups[id := u.(status := SETTLED)])
    && t2.books.balances == t.books.balances[u.customer := t.books.balances[u.customer] + u.amount + u.bonus]
    && t.books.entries <= t2.books.entries
    && Money(t2.books, t2.topups, t2.orders, t2.refunds)
  }

  /** A confirmed top-up that is not yet paid is credited exactly when the customer has a wallet. */
  lemma CreditOnce(t: Tables, id: nat)
    requires Money(t.books, t.topups, t.orders, t.refunds) && id < |t.topups| && t.topups[id].status != SETTLED
    ensures CreditTopUp(t, id).Ok? <==> t.topups[id].customer in t.books.balances
    ensures CreditTopUp(t, id).Ok? ==> Credited(t, CreditTopUp(t, id).value, id)
  {
    hide Sound, Recorded, Accounts, CreditPosts;
    var u := t.topups[id];
    Unrecorded(t.books.entries, t.topups, t.orders, t.refunds);
    var added := CreditBooks(t.books, u, id);
    if CreditPosts(t.books, u, id).Ok? {
      AccountsCredit(t.books.entries, added, t.topups, t.orders, t.refunds, id);
    }
  }
}
