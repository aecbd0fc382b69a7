/** The lifecycle services as they run: row updates, the cascade over a subscription's grants, the
    provisioning loop, and the batch jobs. */
module LifecycleService {
  import opened Prelude
  import opened Calendar
  import opened Lifecycle

  /** The job's query, made at the moment `copies` shows, selected row `s`. */
  predicate Selected(copies: seq<Sub>, due: Sub -> bool, s: nat)
  {
    s < |copies| && due(copies[s])
  }

  /** A live grant under a selected row that does not have `status` already. */
  predicate ToHold(a: Access, g: Grant, copies: seq<Sub>, due: Sub -> bool, status: SubStatus)
  {
    && g.sub.Some? && g.sub.value < |a.subs| && g.status != Revoked
    && Selected(copies, due, g.sub.value) && a.subs[g.sub.value].status != status
  }

  /** The statuses a batch job leaves behind once it has come to subscription `n`: every selected one
      so far has taken `status`, with its live grants held; all else is untouched. */
  ghost predicate ClosedUpTo(before: Access, after: Access, copies: seq<Sub>, due: Sub -> bool, status: SubStatus, n: nat)
  {
    && |after.subs| == |before.subs| && |after.grants| == |before.grants|
    && (forall s :: 0 <= s < |before.subs| ==>
          after.subs[s] ==
          if s < n && Selected(copies, due, s) then before.subs[s].(status := status) else before.subs[s])
    && (forall g :: 0 <= g < |before.grants| ==>
          after.grants[g] ==
          if ToHold(before, before.grants[g], copies, due, status) && before.grants[g].sub.value < n
          then before.grants[g].(status := Held) else before.grants[g])
    && Lockstep(after)
  }

  ghost predicate Closed(before: Access, after: Access, copies: seq<Sub>, due: Sub -> bool, status: SubStatus)
  {
    ClosedUpTo(before, after, copies, due, status, |copies|)
  }

  /** One turn of a job: the service looks only at whether the row has `status` already. */
  ghost function Turn(a: Access, s: nat, status: SubStatus): Access
    requires s < |a.subs| && Linked(a)
  {
    if status == SUSPENDED then Suspend(a, s) else Cancel(a, s)
  }

  lemma CloseStep(was: Access, a: Access, copies: seq<Sub>, due: Sub -> bool, status: SubStatus, s: nat)
    requires ClosedUpTo(was, a, copies, due, status, s) && s < |was.subs|
    requires status == SUSPENDED || status == CANCELLED
    ensures ClosedUpTo(was, if Selected(copies, due, s) then Turn(a, s, status) else a, copies, due, status, s + 1)
  {
    if Selected(copies, due, s) {
      SuspendLockstep(a, s);
      var b := Turn(a, s, status);
      forall g | 0 <= g < |was.grants|
        ensures b.grants[g] ==
                if ToHold(was, was.grants[g], copies, due, status) && was.grants[g].sub.value < s + 1
                then was.grants[g].(status := Held) else was.grants[g]
      {
        assert a.subs[s].status != status ==>
            b.grants[g] == if InCascade(a.grants[g], s) then a.grants[g].(status := Held) else a.grants[g];
      }
    }
  }

  lemma ClosedRows(was: Access, a: Access, copies: seq<Sub>, due: Sub -> bool, status: SubStatus, n: nat)
    requires ClosedUpTo(was, a, copies, due, status, n)
    ensures Lockstep(a) && Linked(a) && |a.subs| == |was.subs|
  {
  }

  lemma ClosedNone(a: Access, copies: seq<Sub>, due: Sub -> bool, status: SubStatus)
    requires Lockstep(a)
    ensures ClosedUpTo(a, a, copies, due, status, 0)
  {
  }

  lemma TurnRow(a: Access, s: nat, status: SubStatus)
    requires s < |a.subs| && Linked(a) && (status == SUSPENDED || status == CANCELLED)
    ensures s < |Turn(a, s, status).subs| && Turn(a, s, status).subs[s] == a.subs[s].(status := status)
    ensures a.subs[s].status == status ==> Turn(a, s, status) == a
  {
  }

  lemma TurnHolds(a: Access, s: nat, status: SubStatus, g: nat)
    requires s < |a.subs| && Linked(a) && (status == SUSPENDED || status == CANCELLED) && a.subs[s].status != status
    requires g < |a.grants| && InCascade(a.grants[g], s)
    ensures g < |Turn(a, s, status).grants| && Turn(a, s, status).grants[g].status == Held
  {
  }

  lemma RenewOpens(a: Access, s: nat, nextEnd: Instant, g: nat)
    requires s < |a.subs| && Linked(a) && g < |a.grants| && LiveLicense(s)(a.grants[g])
    ensures var b := Renew(a, s, nextEnd);
            && |b.subs| == |a.subs| && b.subs[s] == a.subs[s].(periodEnd := nextEnd, status := ACTIVE)
            && |b.grants| == |a.grants| && b.grants[g].status == Granted && InCascade(b.grants[g], s)
  {
  }

  lemma LockstepLinked(a: Access)
    requires Lockstep(a)
    ensures Linked(a)
  {
  }

  /** The row whose window `due` describes is closed by a turn although its window is not over. */
  ghost predicate ClosedEarly(a: Access, s: nat, due: Sub -> bool, status: SubStatus)
    requires s < |a.subs| && Linked(a)
  {
    Turn(a, s, status) != a && !due(a.subs[s])
  }

  /** A job's query selected row `s`; then anything happened; then its turn came. The turn closes a row
      whose window is not over exactly when the row is neither due nor closed by now, and then
      something has written the row since the query. */
  lemma ClosedEarlyIff(states: seq<Access>, events: seq<Event>, s: nat, due: Sub -> bool, status: SubStatus)
    requires IsRun(states, events) && Linked(states[|events|]) && (status == SUSPENDED || status == CANCELLED)
    requires s < |states[0].subs| && due(states[0].subs[s]) && s < |states[|events|].subs|
    ensures var a := states[|events|];
            ClosedEarly(a, s, due, status) <==> a.subs[s].status != status && !due(a.subs[s])
    ensures ClosedEarly(states[|events|], s, due, status) ==> exists i: nat :: i < |events| && Writes(events[i], s)
  {
    hide Apply, Turn, Writes;
    TurnRow(states[|events|], s, status);
    if forall i: nat :: i < |events| ==> !Writes(events[i], s) {
      UnwrittenRowStays(states, events, s, |events|);
    }
  }

  /** So a subscription in GRACE that is paid for between the query and its turn is suspended all the
      same, and its license keys are held. */
  lemma PaidThenSuspended(a: Access, s: nat, nextEnd: Instant, now: int, graceDays: int, g: nat)
    requires Lockstep(a) && s < |a.subs| && GraceOver(now, graceDays)(a.subs[s])
    requires g < |a.grants| && LiveLicense(s)(a.grants[g])
    ensures var paid := Renew(a, s, nextEnd);
            && Lockstep(paid) && paid.subs[s].status == ACTIVE && paid.grants[g].status == Granted
            && ClosedEarly(paid, s, GraceOver(now, graceDays), SUSPENDED)
            && var after := Turn(paid, s, SUSPENDED);
               after.subs[s].status == SUSPENDED && after.subs[s].periodEnd == nextEnd && after.grants[g].status == Held
  {
    hide Renew, Turn, Lockstep, Linked;
    LockstepLinked(a);
    RenewLockstep(a, s, nextEnd);
    RenewOpens(a, s, nextEnd, g);
    var paid := Renew(a, s, nextEnd);
    LockstepLinked(paid);
    TurnRow(paid, s, SUSPENDED);
    TurnHolds(paid, s, SUSPENDED, g);
  }

  function GraceOver(now: int, graceDays: int): Sub -> bool
  {
    (row: Sub) => row.status == GRACE && Micros(row.periodEnd) <= now - graceDays * DAY
  }

  function Lapsed(now: int): Sub -> bool
  {
    (row: Sub) =>
      row.status == ACTIVE && !row.autoRenew && Micros(row.periodEnd) <= now
  }

  /** Counts the rows a query selects. */
  function Flag(due: Sub -> bool): Sub -> int
  {
    (row: Sub) => if due(row) then 1 else 0
  }

  /** The grace job's window is over once the given number of days has passed since the period end. */
  lemma GraceOverIff(row: Sub, now: int, graceDays: nat)
    ensures GraceOver(now, graceDays)(row) <==> row.status == GRACE && Micros(ExtendBy(row.periodEnd, graceDays)) <= now
  {
    hide Micros, ExtendBy;
    ExtendByMeaning(row.periodEnd, graceDays);
  }

  /** The cancelling job takes no row that renews itself, none whose period still runs, and none that
      is not ACTIVE. */
  lemma LapsedIff(row: Sub, now: int)
    ensures Lapsed(now)(row) <==> !(row.autoRenew || now < Micros(row.periodEnd) || row.status != ACTIVE)
  {
  }

  ghost function Selection(copies: seq<Sub>, due: Sub -> bool): set<nat>
  {
    set s: nat | s < |copies| && due(copies[s])
  }

  lemma SelectionStep(front: seq<Sub>, row: Sub, due: Sub -> bool)
    ensures Selection(front + [row], due) == Selection(front, due) + if due(row) then {|front|} else {}
    ensures |front| !in Selection(front, due)
  {
    var copies := front + [row];
    assert forall s: nat :: s < |front| ==> copies[s] == front[s];
    assert copies[|front|] == row;
  }

  /** A job counts each row its query selected once. */
  lemma {:induction false} FlagCounts(copies: seq<Sub>, due: Sub -> bool)
    ensures Sum(copies, Flag(due)) == |Selection(copies, due)|
  {
    if copies != [] {
      hide Selection;
      var front, row := copies[..|copies| - 1], copies[|copies| - 1];
      assert copies == front + [row];
      FlagCounts(front, due);
      SelectionStep(front, row, due);
      SumAppend(front, row, Flag(due));
    } else {
      NoSelection(copies, due);
    }
  }

  lemma NoSelection(copies: seq<Sub>, due: Sub -> bool)
    requires copies == []
    ensures Selection(copies, due) == {}
  {
  }

  class AccessTables {
    var subs: seq<Sub>
    var grants: seq<Grant>
    var licenses: seq<License>

    function Rows(): Access
      reads this
    {
      Access(subs, grants, licenses)
    }

    constructor ()
      ensures Rows() == Access([], [], []) && Lockstep(Rows())
    {
      subs, grants, licenses := [], [], [];
    }

    /** A provisioner's update of one grant. */
    method SetGrantStatus(g: nat, status: AccessStatus)
      requires g < |grants|
      modifies this
      ensures Rows() == SetGrant(old(Rows()), g, status)
    {
      grants := grants[g := grants[g].(status := status)];
      if grants[g].kind == LICENSE_KEY {
        var i := 0;
        while i < |licenses|
          invariant 0 <= i <= |licenses| == |old(licenses)|
          invariant forall k :: 0 <= k < i ==> licenses[k] == SetLicenses(old(licenses), g, status)[k]
          invariant licenses[i..] == old(licenses)[i..]
          invariant subs == old(subs) && grants == old(grants)[g := old(grants)[g].(status := status)]
        {
          if licenses[i].grant == g {
            licenses := licenses[i := licenses[i].(status := status)];
          }
          i := i + 1;
        }
      }
    }

    /** Walks the grants a query picked and updates each. */
    method CascadeTo(chosen: Grant -> bool, status: AccessStatus)
      requires Linked(Rows())
      modifies this
      ensures Rows() == Cascade(old(Rows()), chosen, status)
    {
      ghost var was := Rows();
      ghost var goal := Cascade(was, chosen, status);
      var picked := seq(|grants|, i requires 0 <= i < |grants| reads this => chosen(grants[i]));
      var g := 0;
      while g < |picked|
        invariant 0 <= g <= |picked| == |grants| == |was.grants| && |licenses| == |was.licenses| && subs == was.subs
        invariant forall k :: 0 <= k < |picked| ==> picked[k] == chosen(was.grants[k])
        invariant forall k :: 0 <= k < g ==> grants[k] == goal.grants[k]
        invariant forall k :: g <= k < |grants| ==> grants[k] == was.grants[k]
        invariant forall l :: 0 <= l < |licenses| ==>
                    licenses[l] == if was.licenses[l].grant < g then goal.licenses[l] else was.licenses[l]
      {
        if picked[g] {
          SetGrantStatus(g, status);
        }
        g := g + 1;
      }
      assert grants == goal.grants && licenses == goal.licenses;
    }

    /** `suspend_subscription`. */
    method SuspendSubscription(s: nat)
      requires Linked(Rows()) && s < |subs|
      modifies this
      ensures Rows() == Suspend(old(Rows()), s)
    {
      if subs[s].status == SUSPENDED {
        return;
      }
      subs := subs[s := subs[s].(status := SUSPENDED)];
      CascadeTo(Live(s), Held);
    }

    /** `cancel_subscription`. */
    method CancelSubscription(s: nat)
      requires Linked(Rows()) && s < |subs|
      modifies this
      ensures Rows() == Cancel(old(Rows()), s)
    {
      if subs[s].status == CANCELLED {
        return;
      }
      subs := subs[s := subs[s].(status := CANCELLED)];
      CascadeTo(Live(s), Held);
    }

    /** The row update and cascade of a paid renewal. */
    method AdvanceSubscription(s: nat, nextEnd: Instant)
      requires Linked(Rows()) && s < |subs|
      modifies this
      ensures Rows() == Renew(old(Rows()), s, nextEnd)
    {
      subs := subs[s := subs[s].(periodEnd := nextEnd, status := ACTIVE)];
      CascadeTo(LiveLicense(s), Granted);
    }

    /** The console's extension, from the copy of the row the view had read. */
    method ExtendSubscription(s: nat, copy: Sub, days: int) returns (ok: bool)
      requires Linked(Rows()) && s < |subs|
      modifies this
      ensures ok <==> 0 < days <= 365
      ensures Rows() == if ok then Extend(old(Rows()), s, copy, days) else old(Rows())
    {
      if days <= 0 || days > 365 {
        return false;
      }
      var wasSuspended := copy.status == SUSPENDED;
      var end := ExtendBy(copy.periodEnd, days);
      subs := subs[s := subs[s].(periodEnd := end, status := if wasSuspended then ACTIVE else copy.status)];
      if wasSuspended {
        CascadeTo(HeldUnder(s), Granted);
      }
      return true;
    }

    /** The loop over an order's deliverables; an unregistered type undoes what came before it. */
    method ProvisionOrder(customer: nat, order: nat, sub: Option<nat>, planSeats: nat, ds: seq<Deliverable>)
      returns (ok: bool)
      modifies this
      ensures match Provision(old(Rows()), customer, order, sub, planSeats, ds)
              case Some(after) => ok && Rows() == after
              case None => !ok && Rows() == old(Rows())
    {
      var savedGrants, savedLicenses := grants, licenses;
      var i := 0;
      while i < |ds|
        invariant 0 <= i <= |ds|
        invariant Provision(old(Rows()), customer, order, sub, planSeats, ds[..i]) == Some(Rows())
        invariant subs == old(subs)
      {
        assert ds[..i + 1][..i] == ds[..i];
        if !Registered(ds[i].kind) {
          ProvisionMeaning(old(Rows()), customer, order, sub, planSeats, ds);
          grants, licenses := savedGrants, savedLicenses;
          return false;
        }
        var grant := |grants|;
        grants := grants + [Grant(customer, order, sub, ds[i].kind, Granted)];
        if ds[i].kind == LICENSE_KEY {
          licenses := licenses + [License(customer, sub, grant, Granted, SeatLimit(ds[i], planSeats))];
        }
        i := i + 1;
      }
      assert ds[..i] == ds;
      return true;
    }

    /** `process_grace_expirations`: suspends exactly the subscriptions that were in GRACE with their
        window over when the query ran. */
    method ProcessGraceExpirations(now: int, graceDays: int, copies: seq<Sub>) returns (suspended: nat)
      requires Lockstep(Rows()) && |copies| <= |subs|
      modifies this
      ensures Closed(old(Rows()), Rows(), copies, GraceOver(now, graceDays), SUSPENDED)
      ensures suspended == Sum(copies, Flag(GraceOver(now, graceDays)))
    {
      suspended := CloseAll(copies, GraceOver(now, graceDays), SUSPENDED);
    }

    /** `process_expired_non_renewal_subs`: cancels exactly the subscriptions that had lapsed without
        renewal when the query ran. */
    method ProcessExpiredNonRenewalSubs(now: int, copies: seq<Sub>) returns (cancelled: nat)
      requires Lockstep(Rows()) && |copies| <= |subs|
      modifies this
      ensures Closed(old(Rows()), Rows(), copies, Lapsed(now), CANCELLED)
      ensures cancelled == Sum(copies, Flag(Lapsed(now)))
    {
      cancelled := CloseAll(copies, Lapsed(now), CANCELLED);
    }

    /** The loop of both jobs over the subscriptions their query selected, as they were then; each turn
        works on the row as it is now. */
    method CloseAll(copies: seq<Sub>, due: Sub -> bool, status: SubStatus) returns (count: nat)
      requires Lockstep(Rows()) && |copies| <= |subs| && (status == SUSPENDED || status == CANCELLED)
      modifies this
      ensures Closed(old(Rows()), Rows(), copies, due, status)
      ensures count == Sum(copies, Flag(due))
    {
      hide ClosedUpTo, Lockstep, Suspend, Cancel, Linked;
      ghost var was := Rows();
      var s := 0;
      count := 0;
      ClosedNone(was, copies, due, status);
      while s < |copies|
        invariant 0 <= s <= |copies|
        invariant ClosedUpTo(was, Rows(), copies, due, status, s)
        invariant count == Sum(copies[..s], Flag(due))
      {
        ClosedRows(was, Rows(), copies, due, status, s);
        CloseStep(was, Rows(), copies, due, status, s);
        assert copies[..s + 1] == copies[..s] + [copies[s]];
        SumAppend(copies[..s], copies[s], Flag(due));
        if due(copies[s]) {
          if status == SUSPENDED {
            SuspendSubscription(s);
          } else {
            CancelSubscription(s);
          }
          count := count + 1;
        }
        s := s + 1;
      }
      assert copies[..s] == copies;
    }
  }
}
