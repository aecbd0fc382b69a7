/** Subscriptions, the grants issued under them, and the licenses behind license-key grants. */
module Lifecycle {
  import opened Prelude
  import opened Calendar

  datatype SubStatus = ACTIVE | GRACE | SUSPENDED | CANCELLED

  /** Status of a grant or of a license. */
  datatype AccessStatus = Granted | Held | Revoked | Expired

  datatype Kind = LICENSE_KEY | CREDENTIALS | ACCOUNT | DOWNLOAD | ACCESS_LINK | API_KEY | MANUAL | COURSE

  /** What a plan provides; a license deliverable may override the plan's seat limit. */
  datatype Deliverable = Deliverable(kind: Kind, seats: Option<nat>)

  datatype Sub = Sub(customer: nat, plan: nat, status: SubStatus, periodEnd: Instant, autoRenew: bool)

  datatype Grant = Grant(customer: nat, order: nat, sub: Option<nat>, kind: Kind, status: AccessStatus)

  datatype License = License(customer: nat, sub: Option<nat>, grant: nat, status: AccessStatus, seatLimit: nat)

  /** The three tables; primary keys are positions. */
  datatype Access = Access(subs: seq<Sub>, grants: seq<Grant>, licenses: seq<License>)

  /** No provisioner is registered for accounts. */
  predicate Registered(kind: Kind) { kind != ACCOUNT }

  // ---- Provisioning ----

  function SeatLimit(d: Deliverable, planSeats: nat): nat
  {
    if d.seats.Some? && d.seats.value != 0 then d.seats.value else planSeats
  }

  function ProvisionOne(a: Access, customer: nat, order: nat, sub: Option<nat>, planSeats: nat, d: Deliverable): Access
  {
    var grants := a.grants + [Grant(customer, order, sub, d.kind, Granted)];
    if d.kind == LICENSE_KEY then
      a.(grants := grants,
         licenses := a.licenses + [License(customer, sub, |a.grants|, Granted, SeatLimit(d, planSeats))])
    else a.(grants := grants)
  }

  /** Provisions every deliverable of an order; an unregistered type fails the whole order. */
  function Provision(a: Access, customer: nat, order: nat, sub: Option<nat>, planSeats: nat,
                     ds: seq<Deliverable>): Option<Access>
  {
    if ds == [] then Some(a)
    else match Provision(a, customer, order, sub, planSeats, ds[..|ds| - 1])
      case None => None
      case Some(mid) =>
        var d := ds[|ds| - 1];
        if Registered(d.kind) then Some(ProvisionOne(mid, customer, order, sub, planSeats, d)) else None
  }

  /** The license that license-key deliverable `k` of an order gets. */
  function LicenseFor(a: Access, customer: nat, sub: Option<nat>, planSeats: nat, ds: seq<Deliverable>, k: nat): License
    requires k < |ds|
  {
    License(customer, sub, |a.grants| + k, Granted, SeatLimit(ds[k], planSeats))
  }

  /** License `l` is that of the license-key deliverable whose grant it names. */
  ghost predicate IssuedFor(a: Access, l: License, customer: nat, sub: Option<nat>, planSeats: nat, ds: seq<Deliverable>)
  {
    var k := l.grant - |a.grants|;
    0 <= k < |ds| && ds[k].kind == LICENSE_KEY && l == LicenseFor(a, customer, sub, planSeats, ds, k)
  }

  /** Every new license is that of a license-key deliverable, and each such deliverable has one. */
  ghost predicate LicensesIssued(a: Access, b: Access, customer: nat, sub: Option<nat>, planSeats: nat, ds: seq<Deliverable>)
  {
    && a.licenses <= b.licenses
    && (forall l :: |a.licenses| <= l < |b.licenses| ==> IssuedFor(a, b.licenses[l], customer, sub, planSeats, ds))
    && (forall k :: 0 <= k < |ds| && ds[k].kind == LICENSE_KEY ==> LicenseFor(a, customer, sub, planSeats, ds, k) in b.licenses)
    && (forall l, m :: |a.licenses| <= l < m < |b.licenses| ==> b.licenses[l].grant < b.licenses[m].grant)
  }

  /** Accounts are the one type without a provisioner, and a license key's own seat count, if it has one
      and it is not zero, goes before its plan's. */
  lemma ProvisioningTerms(d: Deliverable, planSeats: nat)
    ensures Registered(d.kind) <==> d.kind != ACCOUNT
    ensures SeatLimit(d, planSeats) == match d.seats case Some(n) => (if n > 0 then n else planSeats) case None => planSeats
  {
  }

  /** Provisioning succeeds exactly when every type is registered; then it issues one active grant
      per deliverable, in order, and one active license per license key. */
  lemma {:induction false} ProvisionMeaning(a: Access, customer: nat, order: nat, sub: Option<nat>, planSeats: nat,
                                            ds: seq<Deliverable>)
    ensures Provision(a, customer, order, sub, planSeats, ds).Some? <==> forall d :: d in ds ==> Registered(d.kind)
    ensures Provision(a, customer, order, sub, planSeats, ds).Some? ==>
              var b := Provision(a, customer, order, sub, planSeats, ds).value;
              && b.subs == a.subs && |b.grants| == |a.grants| + |ds| && b.grants[..|a.grants|] == a.grants
              && (forall k :: 0 <= k < |ds| ==>
                    b.grants[|a.grants| + k] == Grant(customer, order, sub, ds[k].kind, Granted))
              && LicensesIssued(a, b, customer, sub, planSeats, ds)
  {
    if ds != [] {
      hide LicensesIssued;
      var front, d := ds[..|ds| - 1], ds[|ds| - 1];
      assert ds == front + [d];
      ProvisionMeaning(a, customer, order, sub, planSeats, front);
      assert forall x :: x in ds <==> x in front || x == d;
      if Provision(a, customer, order, sub, planSeats, ds).Some? {
        var mid := Provision(a, customer, order, sub, planSeats, front).value;
        LicenseAdded(a, mid, ProvisionOne(mid, customer, order, sub, planSeats, d), customer, order, sub, planSeats, front, d);
      }
    } else {
      NoLicense(a, customer, sub, planSeats, ds);
    }
  }

  lemma NoLicense(a: Access, customer: nat, sub: Option<nat>, planSeats: nat, ds: seq<Deliverable>)
    requires ds == []
    ensures LicensesIssued(a, a, customer, sub, planSeats, ds)
  {
  }

  lemma LicenseAdded(a: Access, mid: Access, b: Access, customer: nat, order: nat, sub: Option<nat>, planSeats: nat,
                     front: seq<Deliverable>, d: Deliverable)
    requires LicensesIssued(a, mid, customer, sub, planSeats, front) && |mid.grants| == |a.grants| + |front|
    requires b == ProvisionOne(mid, customer, order, sub, planSeats, d)
    ensures LicensesIssued(a, b, customer, sub, planSeats, front + [d])
  {
    hide SeatLimit;
    var ds := front + [d];
    forall l | |a.licenses| <= l < |b.licenses| ensures IssuedFor(a, b.licenses[l], customer, sub, planSeats, ds) {
      if l < |mid.licenses| {
        assert IssuedFor(a, mid.licenses[l], customer, sub, planSeats, front);
      }
    }
    forall k | 0 <= k < |ds| && ds[k].kind == LICENSE_KEY ensures LicenseFor(a, customer, sub, planSeats, ds, k) in b.licenses {
      if k < |front| {
        assert LicenseFor(a, customer, sub, planSeats, front, k) in mid.licenses;
      } else {
        assert b.licenses[|mid.licenses|] == LicenseFor(a, customer, sub, planSeats, ds, k);
      }
    }
    forall l, m | |a.licenses| <= l < m < |b.licenses| ensures b.licenses[l].grant < b.licenses[m].grant {
      if m == |mid.licenses| {
        assert IssuedFor(a, mid.licenses[l], customer, sub, planSeats, front);
      }
    }
  }

  // ---- Cascades ----

  /** Sets a grant, and the license behind a license key, to `status`. */
  function SetGrant(a: Access, g: nat, status: AccessStatus): Access
    requires g < |a.grants|
  {
    var grants := a.grants[g := a.grants[g].(status := status)];
    if a.grants[g].kind == LICENSE_KEY then a.(grants := grants, licenses := SetLicenses(a.licenses, g, status))
    else a.(grants := grants)
  }

  function SetLicenses(licenses: seq<License>, g: nat, status: AccessStatus): (r: seq<License>)
  {
    seq(|licenses|, i requires 0 <= i < |licenses| =>
      if licenses[i].grant == g then licenses[i].(status := status) else licenses[i])
  }

  /** The non-revoked grants of a subscription. */
  predicate InCascade(g: Grant, sub: nat)
  {
    g.sub == Some(sub) && g.status != Revoked
  }

  /** Every license names a grant. */
  predicate Linked(a: Access)
  {
    forall i :: 0 <= i < |a.licenses| ==> a.licenses[i].grant < |a.grants|
  }

  /** All the grants `chosen` picks, and their licenses, set to `status`. */
  ghost function Cascade(a: Access, chosen: Grant -> bool, status: AccessStatus): Access
    requires Linked(a)
  {
    a.(grants := seq(|a.grants|, i requires 0 <= i < |a.grants| =>
         if chosen(a.grants[i]) then a.grants[i].(status := status) else a.grants[i]),
       licenses := seq(|a.licenses|, i requires 0 <= i < |a.licenses| =>
         var g := a.grants[a.licenses[i].grant];
         if chosen(g) && g.kind == LICENSE_KEY then a.licenses[i].(status := status) else a.licenses[i]))
  }

  function Live(sub: nat): Grant -> bool { (g: Grant) => InCascade(g, sub) }

  /** `renew` does something for license keys only; every other provisioner's is empty. */
  function LiveLicense(sub: nat): Grant -> bool { (g: Grant) => InCascade(g, sub) && g.kind == LICENSE_KEY }

  function HeldUnder(sub: nat): Grant -> bool { (g: Grant) => g.sub == Some(sub) && g.status == Held }

  function SetSub(a: Access, s: nat, row: Sub): Access
    requires s < |a.subs|
  {
    a.(subs := a.subs[s := row])
  }

  /** Success of a renewal: the row advances and license keys are re-activated. */
  ghost function Renew(a: Access, s: nat, nextEnd: Instant): Access
    requires s < |a.subs| && Linked(a)
  {
    SetSub(Cascade(a, LiveLicense(s), Granted), s, a.subs[s].(periodEnd := nextEnd, status := ACTIVE))
  }

  ghost function Suspend(a: Access, s: nat): Access
    requires s < |a.subs| && Linked(a)
  {
    if a.subs[s].status == SUSPENDED then a
    else SetSub(Cascade(a, Live(s), Held), s, a.subs[s].(status := SUSPENDED))
  }

  ghost function Cancel(a: Access, s: nat): Access
    requires s < |a.subs| && Linked(a)
  {
    if a.subs[s].status == CANCELLED then a
    else SetSub(Cascade(a, Live(s), Held), s, a.subs[s].(status := CANCELLED))
  }

  /** The conditional downgrade after a failed charge. */
  function Downgrade(a: Access, s: nat): Access
    requires s < |a.subs|
  {
    if a.subs[s].status == ACTIVE then SetSub(a, s, a.subs[s].(status := GRACE)) else a
  }

  /** A console extension works on the copy of the row read before its transaction and writes
      that copy's status back. */
  ghost function Extend(a: Access, s: nat, copy: Sub, days: nat): Access
    requires s < |a.subs| && Linked(a)
  {
    if !(0 < days <= 365) then a
    else
      var row := a.subs[s].(periodEnd := ExtendBy(copy.periodEnd, days),
                            status := if copy.status == SUSPENDED then ACTIVE else copy.status);
      if copy.status == SUSPENDED then SetSub(Cascade(a, HeldUnder(s), Granted), s, row) else SetSub(a, s, row)
  }

  /** The seller's own actions decide on a copy read without a lock, and touch the row only. */
  function SellerCancel(a: Access, s: nat, copy: Sub): Access
    requires s < |a.subs|
  {
    if Open(copy.status) then SetSub(a, s, a.subs[s].(status := CANCELLED, autoRenew := false)) else a
  }

  function SellerToggleSuspend(a: Access, s: nat, copy: Sub): Access
    requires s < |a.subs|
  {
    match copy.status
    case SUSPENDED => SetSub(a, s, a.subs[s].(status := ACTIVE))
    case CANCELLED => a
    case _ => SetSub(a, s, a.subs[s].(status := SUSPENDED))
  }

  function ToggleRenew(a: Access, s: nat, copy: Sub): Access
    requires s < |a.subs|
  {
    SetSub(a, s, a.subs[s].(autoRenew := !copy.autoRenew))
  }

  // ---- What each action does, row by row ----

  /** Row `s` becomes `row`, the grants `touched` picks take `status`, as do the licenses behind license
      keys among them; nothing else changes. */
  ghost predicate Becomes(a: Access, b: Access, s: nat, row: Sub, touched: set<nat>, status: AccessStatus)
    requires s < |a.subs| && Linked(a)
  {
    && b.subs == a.subs[s := row] && |b.grants| == |a.grants| && |b.licenses| == |a.licenses|
    && (forall g: nat :: g < |a.grants| ==>
          b.grants[g] == if g in touched then a.grants[g].(status := status) else a.grants[g])
    && (forall l: nat :: l < |a.licenses| ==>
          b.licenses[l] ==
          if a.licenses[l].grant in touched && a.grants[a.licenses[l].grant].kind == LICENSE_KEY
          then a.licenses[l].(status := status) else a.licenses[l])
  }

  /** The live grants of a subscription, of any kind. */
  ghost function LiveGrants(a: Access, s: nat): set<nat>
  {
    set g: nat | g < |a.grants| && a.grants[g].sub == Some(s) && a.grants[g].status != Revoked
  }

  ghost function LiveKeys(a: Access, s: nat): set<nat>
  {
    set g: nat | g < |a.grants| && g in LiveGrants(a, s) && a.grants[g].kind == LICENSE_KEY
  }

  ghost function HeldGrants(a: Access, s: nat): set<nat>
  {
    set g: nat | g < |a.grants| && a.grants[g].sub == Some(s) && a.grants[g].status == Held
  }

  /** A paid renewal re-activates the live license keys, and only those. */
  lemma RenewMeaning(a: Access, s: nat, nextEnd: Instant)
    requires s < |a.subs| && Linked(a)
    ensures Becomes(a, Renew(a, s, nextEnd), s, a.subs[s].(periodEnd := nextEnd, status := ACTIVE),
                    LiveKeys(a, s), Granted)
  {
  }

  /** Suspension and cancellation hold every live grant, unless the row has the status already. */
  lemma SuspendMeaning(a: Access, s: nat)
    requires s < |a.subs| && Linked(a)
    ensures if a.subs[s].status == SUSPENDED then Suspend(a, s) == a
            else Becomes(a, Suspend(a, s), s, a.subs[s].(status := SUSPENDED), LiveGrants(a, s), Held)
    ensures if a.subs[s].status == CANCELLED then Cancel(a, s) == a
            else Becomes(a, Cancel(a, s), s, a.subs[s].(status := CANCELLED), LiveGrants(a, s), Held)
  {
  }

  /** An extension is accepted for 1 to 365 days; it ends the row that many days after its copy did, keeps
      the copy's status, and from a SUSPENDED copy makes the row ACTIVE and resumes every held grant. */
  lemma ExtendMeaning(a: Access, s: nat, copy: Sub, days: nat)
    requires s < |a.subs| && Linked(a)
    ensures var b := Extend(a, s, copy, days);
            if days == 0 || days > 365 then b == a
            else
              && s < |b.subs| && Micros(b.subs[s].periodEnd) == Micros(copy.periodEnd) + days * DAY
              && b.subs[s].status == (if copy.status == SUSPENDED then ACTIVE else copy.status)
              && Becomes(a, b, s, a.subs[s].(periodEnd := b.subs[s].periodEnd, status := b.subs[s].status),
                         if copy.status == SUSPENDED then HeldGrants(a, s) else {}, Granted)
  {
    hide ExtendBy, Micros;
    ExtendByMeaning(copy.periodEnd, days);
  }

  /** The seller's actions and an operator's revocation. */
  lemma ManualMeaning(a: Access, s: nat, copy: Sub, g: nat)
    requires s < |a.subs| && g < |a.grants| && Linked(a)
    ensures SellerCancel(a, s, copy) ==
            if copy.status == ACTIVE || copy.status == GRACE then a.(subs := a.subs[s := a.subs[s].(status := CANCELLED, autoRenew := false)])
            else a
    ensures copy.status == CANCELLED ==> SellerToggleSuspend(a, s, copy) == a
    ensures copy.status != CANCELLED ==>
              SellerToggleSuspend(a, s, copy)
              == a.(subs := a.subs[s := a.subs[s].(status := if copy.status == SUSPENDED then ACTIVE else SUSPENDED)])
    ensures ToggleRenew(a, s, copy).subs == a.subs[s := a.subs[s].(autoRenew := !copy.autoRenew)]
    ensures var b := Revoke(a, g);
            && b.subs == a.subs && b.grants == a.grants[g := a.grants[g].(status := Revoked)] && |b.licenses| == |a.licenses|
            && forall l: nat :: l < |a.licenses| ==>
                 b.licenses[l] == if a.licenses[l].grant == g && a.grants[g].kind == LICENSE_KEY
                                  then a.licenses[l].(status := Revoked) else a.licenses[l]
  {
  }

  // ---- The lockstep invariant ----

  predicate Open(status: SubStatus) { status == ACTIVE || status == GRACE }

  ghost predicate Paired(a: Access)
  {
    && (forall l :: 0 <= l < |a.licenses| ==>
          var g := a.licenses[l].grant;
          g < |a.grants| && a.grants[g].kind == LICENSE_KEY
          && a.grants[g].status == a.licenses[l].status && a.grants[g].sub == a.licenses[l].sub)
    && (forall g :: 0 <= g < |a.grants| ==> a.grants[g].sub.Some? ==> a.grants[g].sub.value < |a.subs|)
  }

  ghost predicate Follows(a: Access, g: Grant)
  {
    g.kind == LICENSE_KEY && g.sub.Some? && g.sub.value < |a.subs| && g.status != Revoked ==>
      g.status == if Open(a.subs[g.sub.value].status) then Granted else Held
  }

  /** License and grant agree, and a non-revoked license key is active exactly while its
      subscription is ACTIVE or GRACE. */
  ghost predicate Lockstep(a: Access)
  {
    Paired(a) && forall g :: 0 <= g < |a.grants| ==> Follows(a, a.grants[g])
  }

  lemma CascadeLockstep(a: Access, chosen: Grant -> bool, status: AccessStatus, s: nat, row: Sub)
    requires Lockstep(a) && s < |a.subs| && status != Revoked
    requires forall g: Grant :: chosen(g) ==> InCascade(g, s)
    requires status == if Open(row.status) then Granted else Held
    requires forall g :: 0 <= g < |a.grants| && InCascade(a.grants[g], s) && a.grants[g].kind == LICENSE_KEY ==>
               chosen(a.grants[g]) || a.grants[g].status == status
    ensures Lockstep(SetSub(Cascade(a, chosen, status), s, row))
  {
  }

  /** Revocation by an operator. */
  function Revoke(a: Access, g: nat): Access
    requires g < |a.grants|
  {
    SetGrant(a, g, Revoked)
  }

  /** What happens to the access tables. The copies are the rows the views had read, however long ago. */
  datatype Event =
    | Bought(customer: nat, plan: nat, order: nat, end: Instant, planSeats: nat, ds: seq<Deliverable>)
    | BoughtOnce(customer: nat, order: nat, planSeats: nat, ds: seq<Deliverable>)
    | Renewed(sub: nat, nextEnd: Instant)
    | Downgraded(sub: nat)
    | Suspended(sub: nat)
    | Cancelled(sub: nat)
    | Extended(sub: nat, copy: Sub, days: nat)
    | SellerCancelled(sub: nat, copy: Sub)
    | SellerToggled(sub: nat, copy: Sub)
    | RenewToggled(sub: nat, copy: Sub)
    | GrantRevoked(grant: nat)

  ghost function Apply(a: Access, e: Event): Access
    requires Linked(a)
  {
    match e
    case Bought(c, plan, order, end, seats, ds) =>
      var b := a.(subs := a.subs + [Sub(c, plan, ACTIVE, end, true)]);
      (match Provision(b, c, order, Some(|a.subs|), seats, ds) case Some(after) => after case None => a)
    case BoughtOnce(c, order, seats, ds) =>
      (match Provision(a, c, order, None, seats, ds) case Some(after) => after case None => a)
    case Renewed(s, next) => if s < |a.subs| && a.subs[s].status != CANCELLED then Renew(a, s, next) else a
    case Downgraded(s) => if s < |a.subs| then Downgrade(a, s) else a
    case Suspended(s) => if s < |a.subs| then Suspend(a, s) else a
    case Cancelled(s) => if s < |a.subs| then Cancel(a, s) else a
    case Extended(s, copy, days) => if s < |a.subs| then Extend(a, s, copy, days) else a
    case SellerCancelled(s, copy) => if s < |a.subs| then SellerCancel(a, s, copy) else a
    case SellerToggled(s, copy) => if s < |a.subs| then SellerToggleSuspend(a, s, copy) else a
    case RenewToggled(s, copy) => if s < |a.subs| then ToggleRenew(a, s, copy) else a
    case GrantRevoked(g) => if g < |a.grants| then Revoke(a, g) else a
  }

  lemma {:induction false} ProvisionLockstep(a: Access, customer: nat, order: nat, sub: Option<nat>, planSeats: nat,
                                             ds: seq<Deliverable>)
    requires Lockstep(a) && (sub.Some? ==> sub.value < |a.subs| && Open(a.subs[sub.value].status))
    requires Provision(a, customer, order, sub, planSeats, ds).Some?
    ensures Lockstep(Provision(a, customer, order, sub, planSeats, ds).value)
    ensures Provision(a, customer, order, sub, planSeats, ds).value.subs == a.subs
  {
    if ds != [] {
      var front, d := ds[..|ds| - 1], ds[|ds| - 1];
      ProvisionLockstep(a, customer, order, sub, planSeats, front);
      ProvisionOneLockstep(Provision(a, customer, order, sub, planSeats, front).value, customer, order, sub, planSeats, d);
    }
  }

  lemma ProvisionOneLockstep(a: Access, customer: nat, order: nat, sub: Option<nat>, planSeats: nat, d: Deliverable)
    requires Lockstep(a) && (sub.Some? ==> sub.value < |a.subs| && Open(a.subs[sub.value].status))
    ensures Lockstep(ProvisionOne(a, customer, order, sub, planSeats, d))
  {
    var b := ProvisionOne(a, customer, order, sub, planSeats, d);
    forall g | 0 <= g < |b.grants| ensures Follows(b, b.grants[g]) {
      if g < |a.grants| {
        assert Follows(a, a.grants[g]);
      }
    }
  }

  lemma NewSubLockstep(a: Access, row: Sub)
    requires Lockstep(a)
    ensures Lockstep(a.(subs := a.subs + [row]))
  {
  }

  ghost predicate NoLiveKey(a: Access, s: nat)
  {
    forall g :: 0 <= g < |a.grants| ==> !LiveLicense(s)(a.grants[g])
  }

  /** Writing a row without a cascade keeps license keys in step exactly when it leaves open or shut
      what was open or shut, or there is no live key. */
  lemma RowLockstepIff(a: Access, s: nat, row: Sub)
    requires Lockstep(a) && s < |a.subs|
    ensures Lockstep(SetSub(a, s, row)) <==> Open(row.status) == Open(a.subs[s].status) || NoLiveKey(a, s)
  {
    var b := SetSub(a, s, row);
    if Open(row.status) != Open(a.subs[s].status) {
      forall g | 0 <= g < |a.grants| ensures LiveLicense(s)(a.grants[g]) <==> !Follows(b, b.grants[g]) {
        assert Follows(a, a.grants[g]);
      }
    }
  }

  lemma RevokeLockstep(a: Access, g: nat)
    requires Lockstep(a) && g < |a.grants|
    ensures Lockstep(Revoke(a, g))
  {
  }

  lemma SuspendLockstep(a: Access, s: nat)
    requires Lockstep(a) && s < |a.subs|
    ensures Lockstep(Suspend(a, s)) && Lockstep(Cancel(a, s))
  {
    if a.subs[s].status != SUSPENDED {
      CascadeLockstep(a, Live(s), Held, s, a.subs[s].(status := SUSPENDED));
    }
    if a.subs[s].status != CANCELLED {
      CascadeLockstep(a, Live(s), Held, s, a.subs[s].(status := CANCELLED));
    }
  }

  lemma RenewLockstep(a: Access, s: nat, nextEnd: Instant)
    requires Lockstep(a) && s < |a.subs|
    ensures Lockstep(Renew(a, s, nextEnd))
  {
  }

  /** An extension from a possibly stale copy keeps license keys in step exactly when the copy was
      SUSPENDED, or agrees with the row on whether access is open, or there is no live key. */
  lemma ExtendLockstepIff(a: Access, s: nat, copy: Sub, days: nat)
    requires Lockstep(a) && s < |a.subs| && 0 < days <= 365
    ensures Lockstep(Extend(a, s, copy, days)) <==>
            copy.status == SUSPENDED || Open(copy.status) == Open(a.subs[s].status) || NoLiveKey(a, s)
  {
    var b := Extend(a, s, copy, days);
    if copy.status == SUSPENDED {
      forall g | 0 <= g < |a.grants| && InCascade(a.grants[g], s) && a.grants[g].kind == LICENSE_KEY
        ensures HeldUnder(s)(a.grants[g]) || a.grants[g].status == Granted
      {
        assert Follows(a, a.grants[g]);
      }
      CascadeLockstep(a, HeldUnder(s), Granted, s, b.subs[s]);
    } else {
      RowLockstepIff(a, s, b.subs[s]);
    }
  }

  /** The seller's actions, from copies as old as they may be. */
  lemma SellerLockstepIff(a: Access, s: nat, copy: Sub)
    requires Lockstep(a) && s < |a.subs|
    ensures Lockstep(SellerCancel(a, s, copy)) <==> !Open(copy.status) || !Open(a.subs[s].status) || NoLiveKey(a, s)
    ensures Lockstep(SellerToggleSuspend(a, s, copy)) <==>
            || copy.status == CANCELLED || (copy.status == SUSPENDED <==> Open(a.subs[s].status)) || NoLiveKey(a, s)
  {
    RowLockstepIff(a, s, SellerCancel(a, s, copy).subs[s]);
    RowLockstepIff(a, s, SellerToggleSuspend(a, s, copy).subs[s]);
  }

  /** From a fresh copy: suspending and re-activating alike part a live key from its subscription, and
      so does cancelling what is open. */
  lemma FreshSellerLockstepIff(a: Access, s: nat)
    requires Lockstep(a) && s < |a.subs|
    ensures Lockstep(SellerCancel(a, s, a.subs[s])) <==> !Open(a.subs[s].status) || NoLiveKey(a, s)
    ensures Lockstep(SellerToggleSuspend(a, s, a.subs[s])) <==> a.subs[s].status == CANCELLED || NoLiveKey(a, s)
  {
    SellerLockstepIff(a, s, a.subs[s]);
  }

  /** A write of `status` over row `s` that leaves its live keys in step. */
  ghost predicate InStep(a: Access, s: nat, status: SubStatus)
  {
    s < |a.subs| ==> Open(status) == Open(a.subs[s].status) || NoLiveKey(a, s)
  }

  /** The guard that the unlocked writes lack. */
  ghost predicate KeepsStep(a: Access, e: Event)
  {
    match e
    case Extended(s, copy, days) => 0 < days <= 365 && copy.status != SUSPENDED ==> InStep(a, s, copy.status)
    case SellerCancelled(s, copy) => Open(copy.status) ==> InStep(a, s, CANCELLED)
    case SellerToggled(s, copy) =>
      copy.status != CANCELLED ==> InStep(a, s, if copy.status == SUSPENDED then ACTIVE else SUSPENDED)
    case _ => true
  }

  lemma ApplyLockstepIff(a: Access, e: Event)
    requires Lockstep(a)
    ensures Lockstep(Apply(a, e)) <==> KeepsStep(a, e)
  {
    hide Lockstep, NoLiveKey, Provision, Cascade;
    match e
    case Bought(c, plan, order, end, seats, ds) =>
      var row := Sub(c, plan, ACTIVE, end, true);
      NewSubLockstep(a, row);
      if Provision(a.(subs := a.subs + [row]), c, order, Some(|a.subs|), seats, ds).Some? {
        ProvisionLockstep(a.(subs := a.subs + [row]), c, order, Some(|a.subs|), seats, ds);
      }
    case BoughtOnce(c, order, seats, ds) =>
      if Provision(a, c, order, None, seats, ds).Some? {
        ProvisionLockstep(a, c, order, None, seats, ds);
      }
    case Renewed(s, next) => if s < |a.subs| { RenewLockstep(a, s, next); }
    case Downgraded(s) => if s < |a.subs| { RowLockstepIff(a, s, Downgrade(a, s).subs[s]); }
    case Suspended(s) => if s < |a.subs| { SuspendLockstep(a, s); }
    case Cancelled(s) => if s < |a.subs| { SuspendLockstep(a, s); }
    case Extended(s, copy, days) => if s < |a.subs| && 0 < days <= 365 { ExtendLockstepIff(a, s, copy, days); }
    case SellerCancelled(s, copy) => if s < |a.subs| { SellerLockstepIff(a, s, copy); }
    case SellerToggled(s, copy) => if s < |a.subs| { SellerLockstepIff(a, s, copy); }
    case RenewToggled(s, copy) => if s < |a.subs| { RowLockstepIff(a, s, ToggleRenew(a, s, copy).subs[s]); }
    case GrantRevoked(g) => if g < |a.grants| { RevokeLockstep(a, g); }
  }

  // ---- What no event breaks ----

  lemma {:induction false} ProvisionPaired(a: Access, customer: nat, order: nat, sub: Option<nat>, planSeats: nat,
                                           ds: seq<Deliverable>)
    requires Paired(a) && (sub.Some? ==> sub.value < |a.subs|)
    ensures var r := Provision(a, customer, order, sub, planSeats, ds);
            r.Some? ==> Paired(r.value) && r.value.subs == a.subs
  {
    if ds != [] {
      ProvisionPaired(a, customer, order, sub, planSeats, ds[..|ds| - 1]);
    }
  }

  lemma CascadePaired(a: Access, chosen: Grant -> bool, status: AccessStatus)
    requires Paired(a)
    ensures Paired(Cascade(a, chosen, status)) && |Cascade(a, chosen, status).grants| == |a.grants|
    ensures Cascade(a, chosen, status).subs == a.subs
  {
  }

  lemma PairedLinked(a: Access)
    requires Paired(a)
    ensures Linked(a)
  {
  }

  lemma RowPaired(a: Access, s: nat, row: Sub)
    requires Paired(a) && s < |a.subs|
    ensures Paired(SetSub(a, s, row))
  {
  }

  lemma NewSubPaired(a: Access, row: Sub)
    requires Paired(a)
    ensures Paired(a.(subs := a.subs + [row]))
  {
  }

  lemma RevokePaired(a: Access, g: nat)
    requires Paired(a) && g < |a.grants|
    ensures Paired(Revoke(a, g))
  {
  }

  lemma ApplyPaired(a: Access, e: Event)
    requires Paired(a)
    ensures Paired(Apply(a, e))
  {
    hide Provision, Paired, Cascade, Revoke;
    match e
    case Bought(c, plan, order, end, seats, ds) =>
      NewSubPaired(a, Sub(c, plan, ACTIVE, end, true));
      ProvisionPaired(a.(subs := a.subs + [Sub(c, plan, ACTIVE, end, true)]), c, order, Some(|a.subs|), seats, ds);
    case BoughtOnce(c, order, seats, ds) => ProvisionPaired(a, c, order, None, seats, ds);
    case GrantRevoked(g) => if g < |a.grants| { RevokePaired(a, g); }
    case _ => if e.sub < |a.subs| { RowEventPaired(a, e); }
  }

  lemma RowEventPaired(a: Access, e: Event)
    requires Paired(a) && !e.Bought? && !e.BoughtOnce? && !e.GrantRevoked? && e.sub < |a.subs|
    ensures Paired(Apply(a, e))
  {
    hide Paired, Cascade, ExtendBy;
    var s := e.sub;
    PairedLinked(a);
    CascadePaired(a, LiveLicense(s), Granted);
    CascadePaired(a, Live(s), Held);
    CascadePaired(a, HeldUnder(s), Granted);
    var row := Apply(a, e).subs[s];
    RowPaired(a, s, row);
    RowPaired(Cascade(a, LiveLicense(s), Granted), s, row);
    RowPaired(Cascade(a, Live(s), Held), s, row);
    RowPaired(Cascade(a, HeldUnder(s), Granted), s, row);
  }

  lemma ApplyRevoked(a: Access, e: Event, g: nat)
    requires Paired(a) && g < |a.grants| && a.grants[g].status == Revoked
    ensures g < |Apply(a, e).grants| && Apply(a, e).grants[g].status == Revoked
  {
    match e
    case Bought(c, plan, order, end, seats, ds) =>
      ProvisionMeaning(a.(subs := a.subs + [Sub(c, plan, ACTIVE, end, true)]), c, order, Some(|a.subs|), seats, ds);
      var r := Provision(a.(subs := a.subs + [Sub(c, plan, ACTIVE, end, true)]), c, order, Some(|a.subs|), seats, ds);
      if r.Some? { assert r.value.grants[..|a.grants|][g] == a.grants[g]; }
    case BoughtOnce(c, order, seats, ds) =>
      ProvisionMeaning(a, c, order, None, seats, ds);
      var r := Provision(a, c, order, None, seats, ds);
      if r.Some? { assert r.value.grants[..|a.grants|][g] == a.grants[g]; }
    case _ =>
  }

  // ---- Runs ----

  ghost predicate StepAt(states: seq<Access>, events: seq<Event>, i: nat)
    requires i < |events| && |states| == |events| + 1
  {
    Linked(states[i]) && states[i + 1] == Apply(states[i], events[i])
  }

  /** The states one run passes through, from its first to its last. */
  ghost predicate IsRun(states: seq<Access>, events: seq<Event>)
  {
    |states| == |events| + 1 && forall i: nat :: i < |events| ==> StepAt(states, events, i)
  }

  ghost predicate AllInStep(states: seq<Access>) { forall i: nat :: i < |states| ==> Lockstep(states[i]) }

  ghost predicate AllPaired(states: seq<Access>) { forall i: nat :: i < |states| ==> Paired(states[i]) }

  ghost predicate EachKeepsStep(states: seq<Access>, events: seq<Event>)
    requires |events| <= |states|
  {
    forall i: nat :: i < |events| ==> KeepsStep(states[i], events[i])
  }

  /** A grant revoked in one state is revoked in every later one. */
  ghost predicate RevokedStays(states: seq<Access>, g: nat)
  {
    forall i: nat, j: nat :: i <= j < |states| && g < |states[i].grants| && states[i].grants[g].status == Revoked ==>
      g < |states[j].grants| && states[j].grants[g].status == Revoked
  }

  lemma {:induction false} RunPaired(states: seq<Access>, events: seq<Event>, n: nat)
    requires IsRun(states, events) && Paired(states[0]) && n < |states|
    ensures forall i: nat :: i <= n ==> Paired(states[i])
  {
    hide Paired, Apply;
    if n > 0 {
      RunPaired(states, events, n - 1);
      assert StepAt(states, events, n - 1);
      ApplyPaired(states[n - 1], events[n - 1]);
    }
  }

  lemma {:induction false} RunInStep(states: seq<Access>, events: seq<Event>, n: nat)
    requires IsRun(states, events) && Lockstep(states[0]) && n < |states|
    ensures (forall i: nat :: i <= n ==> Lockstep(states[i])) <==>
            (forall i: nat :: i < n ==> KeepsStep(states[i], events[i]))
  {
    hide Lockstep, Apply, KeepsStep;
    if n > 0 {
      RunInStep(states, events, n - 1);
      assert StepAt(states, events, n - 1);
      if Lockstep(states[n - 1]) { ApplyLockstepIff(states[n - 1], events[n - 1]); }
    }
  }

  lemma {:induction false} RunRevoked(states: seq<Access>, events: seq<Event>, g: nat, i: nat, j: nat)
    requires IsRun(states, events) && AllPaired(states) && i <= j < |states|
    requires g < |states[i].grants| && states[i].grants[g].status == Revoked
    ensures g < |states[j].grants| && states[j].grants[g].status == Revoked
  {
    hide Paired, Apply;
    if i < j {
      RunRevoked(states, events, g, i, j - 1);
      assert StepAt(states, events, j - 1);
      ApplyRevoked(states[j - 1], events[j - 1], g);
    }
  }

  /** Over every run of purchases, renewals, downgrades, suspensions, cancellations, revocations,
      extensions and seller's actions, the last two from copies of any age: license and grant agree
      and a revoked grant stays revoked in every state; and license keys follow their subscription
      in every state exactly when each unlocked write meets its guard. */
  lemma EveryRunFollows(states: seq<Access>, events: seq<Event>, g: nat)
    requires IsRun(states, events) && Lockstep(states[0])
    ensures AllPaired(states) && RevokedStays(states, g)
    ensures AllInStep(states) <==> EachKeepsStep(states, events)
  {
    hide Paired, Apply, KeepsStep;
    RunPaired(states, events, |events|);
    RunInStep(states, events, |events|);
    forall i: nat, j: nat | i <= j < |states| && g < |states[i].grants| && states[i].grants[g].status == Revoked
      ensures g < |states[j].grants| && states[j].grants[g].status == Revoked
    {
      RunRevoked(states, events, g, i, j);
    }
  }

  /** A renewal re-activates a held grant exactly when it is a license key. */
  lemma RenewReactivatesIff(a: Access, s: nat, nextEnd: Instant, g: nat)
    requires Lockstep(a) && s < |a.subs| && g < |a.grants| && a.grants[g].sub == Some(s) && a.grants[g].status == Held
    ensures Renew(a, s, nextEnd).grants[g].status == Granted <==> a.grants[g].kind == LICENSE_KEY
  {
  }

  /** The events that write row `s`. */
  predicate Writes(e: Event, s: nat)
  {
    !e.Bought? && !e.BoughtOnce? && !e.GrantRevoked? && e.sub == s
  }

  lemma OtherRowStays(a: Access, e: Event, s: nat)
    requires Linked(a) && s < |a.subs| && !Writes(e, s)
    ensures s < |Apply(a, e).subs| && Apply(a, e).subs[s] == a.subs[s]
  {
    match e
    case Bought(c, plan, order, end, seats, ds) =>
      ProvisionMeaning(a.(subs := a.subs + [Sub(c, plan, ACTIVE, end, true)]), c, order, Some(|a.subs|), seats, ds);
    case BoughtOnce(c, order, seats, ds) =>
      ProvisionMeaning(a, c, order, None, seats, ds);
    case _ =>
  }

  lemma {:induction false} UnwrittenRowStays(states: seq<Access>, events: seq<Event>, s: nat, n: nat)
    requires IsRun(states, events) && s < |states[0].subs| && n <= |events|
    requires forall i: nat :: i < n ==> !Writes(events[i], s)
    ensures s < |states[n].subs| && states[n].subs[s] == states[0].subs[s]
  {
    hide Apply, Writes;
    if n > 0 {
      UnwrittenRowStays(states, events, s, n - 1);
      assert StepAt(states, events, n - 1);
      OtherRowStays(states[n - 1], events[n - 1], s);
    }
  }

  /** Events outside any cascade take effect as well: a revocation on its grant, the switch of auto-renewal
      on its row, a purchase by adding its subscription and its grants. */
  lemma EventsTakeEffect(a: Access, e: Event)
    requires Linked(a)
    ensures e.GrantRevoked? && e.grant < |a.grants| ==>
              e.grant < |Apply(a, e).grants| && Apply(a, e).grants[e.grant].status == Revoked
    ensures e.RenewToggled? && e.sub < |a.subs| ==>
              e.sub < |Apply(a, e).subs| && Apply(a, e).subs[e.sub].autoRenew == !e.copy.autoRenew
    ensures e.Bought? && (forall d :: d in e.ds ==> d.kind != ACCOUNT) ==>
              Apply(a, e).subs == a.subs + [Sub(e.customer, e.plan, ACTIVE, e.end, true)]
              && |Apply(a, e).grants| == |a.grants| + |e.ds|
    ensures e.BoughtOnce? && (forall d :: d in e.ds ==> d.kind != ACCOUNT) ==>
              Apply(a, e).subs == a.subs && |Apply(a, e).grants| == |a.grants| + |e.ds|
    ensures (e.Bought? || e.BoughtOnce?) && (exists d :: d in e.ds && d.kind == ACCOUNT) ==> Apply(a, e) == a
  {
    hide Cascade, LicensesIssued;
    match e
    case Bought(c, plan, order, end, seats, ds) =>
      ProvisionMeaning(a.(subs := a.subs + [Sub(c, plan, ACTIVE, end, true)]), c, order, Some(|a.subs|), seats, ds);
    case BoughtOnce(c, order, seats, ds) =>
      ProvisionMeaning(a, c, order, None, seats, ds);
    case _ =>
  }

  // ---- CANCELLED ----

  /** An accepted write of row `s` from a copy that is not CANCELLED. */
  predicate Overwrites(e: Event, s: nat)
  {
    match e
    case Extended(sub, copy, days) => sub == s && 0 < days <= 365 && copy.status != CANCELLED
    case SellerToggled(sub, copy) => sub == s && copy.status != CANCELLED
    case _ => false
  }

  /** CANCELLED is meant to be final. It is left by a bare suspension, which looks only at whether the
      row is already SUSPENDED, and by an unlocked write from a copy that is not CANCELLED. */
  lemma CancelledIsLeftIff(a: Access, e: Event, s: nat)
    requires Linked(a) && s < |a.subs| && a.subs[s].status == CANCELLED
    ensures s < |Apply(a, e).subs|
    ensures Apply(a, e).subs[s].status == CANCELLED <==> e != Suspended(s) && !Overwrites(e, s)
  {
    match e
    case Bought(c, plan, order, end, seats, ds) =>
      ProvisionMeaning(a.(subs := a.subs + [Sub(c, plan, ACTIVE, end, true)]), c, order, Some(|a.subs|), seats, ds);
    case BoughtOnce(c, order, seats, ds) =>
      ProvisionMeaning(a, c, order, None, seats, ds);
    case _ =>
  }

  ghost predicate CancelledAt(a: Access, s: nat) { s < |a.subs| && a.subs[s].status == CANCELLED }

  /** Over a whole run it is final exactly when none of these happens. */
  lemma {:induction false} CancelledIsFinalIff(states: seq<Access>, events: seq<Event>, s: nat)
    requires IsRun(states, events) && CancelledAt(states[0], s)
    ensures (forall i: nat :: i < |states| ==> CancelledAt(states[i], s)) <==>
            (forall i: nat :: i < |events| ==> events[i] != Suspended(s) && !Overwrites(events[i], s))
    decreases |events|
  {
    hide Apply, Overwrites;
    var n := |events|;
    if n > 0 {
      var front, before := states[..n], events[..n - 1];
      forall i: nat | i < n - 1 ensures StepAt(front, before, i) { assert StepAt(states, events, i); }
      CancelledIsFinalIff(front, before, s);
      assert StepAt(states, events, n - 1);
      if CancelledAt(states[n - 1], s) { CancelledIsLeftIff(states[n - 1], events[n - 1], s); }
      assert forall i: nat :: i < n ==> front[i] == states[i];
      assert forall i: nat :: i < n - 1 ==> before[i] == events[i];
    }
  }

  /** Two ways back: the console extends from a copy read before the cancellation, and the seller
      re-activates from a copy read while the row was SUSPENDED. */
  lemma CancelledIsRevived(a: Access, s: nat, days: nat)
    requires Linked(a) && s < |a.subs| && 0 < days <= 365
    ensures var b := Apply(a, Cancelled(s));
            && Linked(b) && CancelledAt(b, s)
            && (a.subs[s].status == ACTIVE ==> Apply(b, Extended(s, a.subs[s], days)).subs[s].status == ACTIVE)
            && (a.subs[s].status == SUSPENDED ==> Apply(b, SellerToggled(s, a.subs[s])).subs[s].status == ACTIVE)
  {
  }
}
