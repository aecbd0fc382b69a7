/** Seat claims on one license under concurrency.

    Activations read the access status, lock the license row, look for the device, count the seats and
    insert; a token follows. The status may change at any time, except that the license's own waits for
    the lock. The deactivation API is one update without the lock; the dashboard reads a row and later
    saves it. */
module Seats {
  import opened Prelude
  import opened Lifecycle
  import Licensing

  /** An installation row; `id` is its position in the table. */
  datatype Installation = Installation(fingerprint: string, active: bool)

  datatype Phase =
    | Idle
    | Admitted             // the status read permits access
    | Denied
    | Locked               // holds the license row
    | NoneFound            // no active row for the device
    | Counted(seats: nat)  // the seats seen were below the limit
    | Activated(isNew: bool)   // answered with the status read and a token
    | SeatFull
    | Refused              // the unique index on active devices refused the insert
    | RowRead(id: nat)     // dashboard: holds a copy of an active row

  /** A worker, its device, and the status it has read. */
  datatype Worker = Worker(phase: Phase, fingerprint: string, seen: Licensing.Status)
  {
    predicate Holds() { phase.Locked? || phase.NoneFound? || phase.Counted? }
  }

  datatype State = State(license: Licensing.LicenseRow, rows: seq<Installation>, workers: map<nat, Worker>)
  {
    function Limit(): nat { license.seatLimit }

    function Access(): Licensing.Status { Licensing.EffectiveAccess(license) }

    predicate Permits() { Licensing.Permits(Access()) }
  }

  datatype Action =
    | Check(worker: nat, fingerprint: string)
    | Lock(worker: nat)
    | LookUp(worker: nat)
    | Count(worker: nat)
    | Insert(worker: nat)
    | Abort(worker: nat)
    | Deactivate(fingerprint: string)
    | ReadRow(worker: nat, id: nat)
    | SaveRow(worker: nat)
    | SetAccess(status: AccessStatus, grant: Option<AccessStatus>, sub: Option<SubStatus>)

  /** Whether the device has an active row. */
  predicate ActiveRow(rows: seq<Installation>, fingerprint: string)
  {
    exists i :: 0 <= i < |rows| && rows[i] == Installation(fingerprint, true)
  }

  function Seats(rows: seq<Installation>): nat
  {
    if rows == [] then 0 else Seats(rows[..|rows| - 1]) + if rows[|rows| - 1].active then 1 else 0
  }

  function Released(rows: seq<Installation>, fingerprint: string): (r: seq<Installation>)
    ensures |r| == |rows|
    ensures forall i :: 0 <= i < |rows| ==>
              r[i] == if rows[i].fingerprint == fingerprint then rows[i].(active := false) else rows[i]
  {
    seq(|rows|, i requires 0 <= i < |rows| =>
      if rows[i].fingerprint == fingerprint then rows[i].(active := false) else rows[i])
  }

  ghost predicate LockFree(s: State)
  {
    forall w :: w in s.workers ==> !s.workers[w].Holds()
  }

  function WithWorker(s: State, w: nat, worker: Worker): State
  {
    s.(workers := s.workers[w := worker])
  }

  function Moved(s: State, w: nat, phase: Phase): State
    requires w in s.workers
  {
    WithWorker(s, w, s.workers[w].(phase := phase))
  }

  ghost function Step(s: State, a: Action): State
  {
    match a
    case Check(w, fingerprint) =>
      if w in s.workers ==> !s.workers[w].Holds() then
        WithWorker(s, w, Worker(if s.Permits() then Admitted else Denied, fingerprint, s.Access()))
      else s
    case Lock(w) => if w in s.workers && s.workers[w].phase == Admitted && LockFree(s) then Moved(s, w, Locked) else s
    case LookUp(w) =>
      if w in s.workers && s.workers[w].phase == Locked then
        Moved(s, w, if ActiveRow(s.rows, s.workers[w].fingerprint) then Activated(false) else NoneFound)
      else s
    case Count(w) =>
      if w in s.workers && s.workers[w].phase == NoneFound then
        Moved(s, w, if Seats(s.rows) < s.Limit() then Counted(Seats(s.rows)) else SeatFull)
      else s
    case Insert(w) =>
      if w in s.workers && s.workers[w].phase.Counted? then
        if ActiveRow(s.rows, s.workers[w].fingerprint) then Moved(s, w, Refused)
        else
          var left := Moved(s, w, Activated(true));
          left.(rows := s.rows + [Installation(s.workers[w].fingerprint, true)])
      else s
    case Abort(w) => if w in s.workers then Moved(s, w, Idle) else s
    case Deactivate(fingerprint) => s.(rows := Released(s.rows, fingerprint))
    case ReadRow(w, id) =>
      if id < |s.rows| && s.rows[id].active && (w in s.workers ==> !s.workers[w].Holds()) then
        WithWorker(s, w, Worker(RowRead(id), s.rows[id].fingerprint, Licensing.Invalid))
      else s
    case SaveRow(w) =>
      if w in s.workers && s.workers[w].phase.RowRead? && s.workers[w].phase.id < |s.rows| then
        Moved(s.(rows := s.rows[s.workers[w].phase.id := s.rows[s.workers[w].phase.id].(active := false)]), w, Idle)
      else s
    case SetAccess(status, grant, sub) =>
      if status == s.license.status || LockFree(s) then
        s.(license := s.license.(status := status, grant := grant, sub := sub))
      else s
  }

  ghost function Run(s: State, schedule: seq<Action>): State
  {
    if schedule == [] then s else Step(Run(s, schedule[..|schedule| - 1]), schedule[|schedule| - 1])
  }

  /** At most one row per device is active. */
  ghost predicate OnePerDevice(rows: seq<Installation>)
  {
    forall i, j :: 0 <= i < j < |rows| && rows[i].active && rows[j].active ==> rows[i].fingerprint != rows[j].fingerprint
  }

  ghost predicate Inv(s: State)
  {
    && Seats(s.rows) <= s.Limit() && OnePerDevice(s.rows)
    && (forall w :: w in s.workers && s.workers[w].phase.Counted? ==> Seats(s.rows) <= s.workers[w].phase.seats < s.Limit())
    && (forall w :: w in s.workers && (s.workers[w].phase.NoneFound? || s.workers[w].phase.Counted?) ==>
          !ActiveRow(s.rows, s.workers[w].fingerprint))
    && (forall w, v :: w in s.workers && v in s.workers && w != v ==> !(s.workers[w].Holds() && s.workers[v].Holds()))
  }

  lemma {:induction false} FewerSeats(rows: seq<Installation>, fewer: seq<Installation>)
    requires |fewer| == |rows|
    requires forall i :: 0 <= i < |rows| ==> fewer[i].fingerprint == rows[i].fingerprint && (fewer[i].active ==> rows[i].active)
    ensures Seats(fewer) <= Seats(rows)
  {
    if rows != [] {
      FewerSeats(rows[..|rows| - 1], fewer[..|rows| - 1]);
    }
  }

  /** Freeing seats keeps the invariant, whether or not the license row is locked. */
  lemma FreeingInv(s: State, fewer: seq<Installation>)
    requires Inv(s) && |fewer| == |s.rows|
    requires forall i :: 0 <= i < |fewer| ==>
               fewer[i].fingerprint == s.rows[i].fingerprint && (fewer[i].active ==> s.rows[i].active)
    ensures Inv(s.(rows := fewer))
  {
    FewerSeats(s.rows, fewer);
    forall fingerprint | ActiveRow(fewer, fingerprint) ensures ActiveRow(s.rows, fingerprint) {
      var i :| 0 <= i < |fewer| && fewer[i] == Installation(fingerprint, true);
      assert s.rows[i] == Installation(fingerprint, true);
    }
  }

  /** A worker's move keeps the invariant if what its new phase claims is true. */
  lemma WorkerInv(s: State, w: nat, worker: Worker)
    requires Inv(s)
    requires worker.Holds() ==> LockFree(s) || (w in s.workers && s.workers[w].Holds())
    requires worker.phase.Counted? ==> Seats(s.rows) <= worker.phase.seats < s.Limit()
    requires worker.phase.NoneFound? || worker.phase.Counted? ==> !ActiveRow(s.rows, worker.fingerprint)
    ensures Inv(WithWorker(s, w, worker))
  {
  }

  /** Once the inserting worker has let go, nobody holds the lock and the new row breaks no claim. */
  lemma InsertInv(s: State, fingerprint: string)
    requires Inv(s) && LockFree(s) && Seats(s.rows) < s.Limit() && !ActiveRow(s.rows, fingerprint)
    ensures Inv(s.(rows := s.rows + [Installation(fingerprint, true)]))
  {
  }

  lemma StepInv(s: State, a: Action)
    requires Inv(s)
    ensures Inv(Step(s, a))
  {
    hide OnePerDevice, ActiveRow, Seats, Released, Licensing.EffectiveAccess, Licensing.Permits;
    match a
    case Check(w, fingerprint) =>
      WorkerInv(s, w, Worker(if s.Permits() then Admitted else Denied, fingerprint, s.Access()));
    case ReadRow(w, id) =>
      if id < |s.rows| { WorkerInv(s, w, Worker(RowRead(id), s.rows[id].fingerprint, Licensing.Invalid)); }
    case SetAccess(_, _, _) =>
    case Deactivate(fingerprint) => FreeingInv(s, Released(s.rows, fingerprint));
    case SaveRow(w) =>
      if w in s.workers && s.workers[w].phase.RowRead? && s.workers[w].phase.id < |s.rows| {
        var id := s.workers[w].phase.id;
        FreeingInv(s, s.rows[id := s.rows[id].(active := false)]);
        WorkerInv(s.(rows := s.rows[id := s.rows[id].(active := false)]), w, s.workers[w].(phase := Idle));
      }
    case Insert(w) =>
      if w in s.workers && s.workers[w].phase.Counted? {
        WorkerInv(s, w, s.workers[w].(phase := Activated(true)));
        InsertInv(Moved(s, w, Activated(true)), s.workers[w].fingerprint);
      }
    case _ =>
      if a.worker in s.workers { WorkerInv(s, a.worker, Step(s, a).workers[a.worker]); }
  }

  ghost predicate Init(s: State)
  {
    Seats(s.rows) <= s.Limit() && OnePerDevice(s.rows) && s.workers == map[]
  }

  /** However activations, API deactivations and dashboard deactivations interleave, active
      installations never exceed the seat limit, and no device has two. */
  lemma {:induction false} EveryRunIsBounded(s: State, schedule: seq<Action>)
    requires Init(s)
    ensures Inv(Run(s, schedule))
    ensures Seats(Run(s, schedule).rows) <= s.Limit() && OnePerDevice(Run(s, schedule).rows)
  {
    if schedule != [] {
      EveryRunIsBounded(s, schedule[..|schedule| - 1]);
      StepInv(Run(s, schedule[..|schedule| - 1]), schedule[|schedule| - 1]);
    }
    LimitFixed(s, schedule);
  }

  lemma {:induction false} LimitFixed(s: State, schedule: seq<Action>)
    ensures Run(s, schedule).Limit() == s.Limit()
  {
    if schedule != [] {
      LimitFixed(s, schedule[..|schedule| - 1]);
    }
  }

  /** The unique index never has to refuse an activation: the lock already excludes the race. */
  lemma IndexNeverRefuses(s: State, schedule: seq<Action>, w: nat)
    requires Init(s) && w in Run(s, schedule).workers && Run(s, schedule).workers[w].phase.Counted?
    ensures Step(Run(s, schedule), Insert(w)).workers[w].phase == Activated(true)
    ensures Seats(Step(Run(s, schedule), Insert(w)).rows) == Seats(Run(s, schedule).rows) + 1
  {
    EveryRunIsBounded(s, schedule);
    var t := Run(s, schedule);
    assert (t.rows + [Installation(t.workers[w].fingerprint, true)])[..|t.rows|] == t.rows;
  }

  /** Worker `w` starts another call. */
  predicate StartsAnew(a: Action, w: nat)
  {
    (a.Check? || a.ReadRow?) && a.worker == w
  }

  ghost predicate CallOver(s: State, w: nat)
  {
    w in s.workers && (s.workers[w].phase == Activated(false) || s.workers[w].phase == Idle)
  }

  lemma CallStaysOver(s: State, a: Action, w: nat)
    requires CallOver(s, w) && !StartsAnew(a, w)
    ensures CallOver(Step(s, a), w)
  {
  }

  lemma {:induction false} NeverInserts(s: State, schedule: seq<Action>, w: nat)
    requires CallOver(s, w) && forall i :: 0 <= i < |schedule| ==> !StartsAnew(schedule[i], w)
    ensures CallOver(Run(s, schedule), w) && Step(Run(s, schedule), Insert(w)) == Run(s, schedule)
  {
    if schedule != [] {
      NeverInserts(s, schedule[..|schedule| - 1], w);
      CallStaysOver(Run(s, schedule[..|schedule| - 1]), schedule[|schedule| - 1], w);
    }
  }

  /** Re-activating a known device uses no seat: when the device is active as its worker looks it up,
      the worker inserts nothing at any later time, whatever the others do, until it starts another
      call. An unknown device goes on to take a seat if one is free. */
  lemma KnownDeviceUsesNoSeat(s: State, w: nat, schedule: seq<Action>)
    requires w in s.workers && s.workers[w].phase == Locked
    requires forall i :: 0 <= i < |schedule| ==> !StartsAnew(schedule[i], w)
    ensures var looked := Step(s, LookUp(w));
            && looked.rows == s.rows
            && (ActiveRow(s.rows, s.workers[w].fingerprint) ==>
                  CallOver(Run(looked, schedule), w) && Step(Run(looked, schedule), Insert(w)) == Run(looked, schedule))
            && (!ActiveRow(s.rows, s.workers[w].fingerprint) && Seats(s.rows) < s.Limit() ==>
                  Step(Step(looked, Count(w)), Insert(w)).rows == s.rows + [Installation(s.workers[w].fingerprint, true)])
  {
    if ActiveRow(s.rows, s.workers[w].fingerprint) {
      NeverInserts(Step(s, LookUp(w)), schedule, w);
    }
  }

  // ---- Tokens and suspensions ----

  /** The state after the first `i` steps. */
  ghost function At(s: State, schedule: seq<Action>, i: nat): State
    requires i <= |schedule|
  {
    Run(s, schedule[..i])
  }

  lemma NextAt(s: State, schedule: seq<Action>, i: nat)
    requires i < |schedule|
    ensures At(s, schedule, i + 1) == Step(At(s, schedule, i), schedule[i])
  {
    assert schedule[..i + 1][..i] == schedule[..i];
  }

  predicate InCall(phase: Phase)
  {
    phase.Admitted? || phase.Locked? || phase.NoneFound? || phase.Counted? || phase.Activated?
  }

  /** The call of worker `w` is for this device and was told this status. */
  ghost predicate Calls(s: State, w: nat, fingerprint: string, seen: Licensing.Status)
  {
    && w in s.workers && InCall(s.workers[w].phase)
    && s.workers[w].fingerprint == fingerprint && s.workers[w].seen == seen
  }

  /** Step `j` is the check with which the call that runs after `k` steps began: it read a permitting
      status, and the call goes on from there. */
  ghost predicate CheckedAt(s: State, schedule: seq<Action>, w: nat, j: nat, k: nat)
  {
    && j < k <= |schedule| && schedule[j].Check? && At(s, schedule, j).Permits()
    && schedule[j] == Check(w, schedule[j].fingerprint)
    && forall i: nat :: j < i <= k ==> Calls(At(s, schedule, i), w, schedule[j].fingerprint, At(s, schedule, j).Access())
  }

  /** A step keeps a call's device and status, and a call begins with a permitting check. */
  lemma StepInCall(s: State, a: Action, w: nat)
    requires w in Step(s, a).workers && InCall(Step(s, a).workers[w].phase)
    ensures var worker := Step(s, a).workers[w];
            || Calls(s, w, worker.fingerprint, worker.seen)
            || (a == Check(w, worker.fingerprint) && s.Permits() && worker.seen == s.Access())
  {
    hide Seats, ActiveRow, Licensing.EffectiveAccess;
  }

  lemma {:induction false} CheckExists(s: State, schedule: seq<Action>, w: nat, k: nat) returns (j: nat)
    requires Init(s) && k <= |schedule|
    requires w in At(s, schedule, k).workers && InCall(At(s, schedule, k).workers[w].phase)
    ensures CheckedAt(s, schedule, w, j, k)
  {
    hide Seats, ActiveRow, Step, Licensing.EffectiveAccess;
    if k > 0 {
      NextAt(s, schedule, k - 1);
      var before, worker := At(s, schedule, k - 1), At(s, schedule, k).workers[w];
      StepInCall(before, schedule[k - 1], w);
      if Calls(before, w, worker.fingerprint, worker.seen) {
        j := CheckExists(s, schedule, w, k - 1);
        assert Calls(At(s, schedule, k), w, worker.fingerprint, worker.seen);
        assert Calls(before, w, schedule[j].fingerprint, At(s, schedule, j).Access());
      } else {
        j := k - 1;
      }
    }
  }

  /** Step `i` closed the license, and it stayed closed until `k`. If the license's own status was
      changed, nobody held its row. */
  ghost predicate ClosedBy(s: State, schedule: seq<Action>, i: nat, k: nat)
  {
    && i < k <= |schedule| && schedule[i].SetAccess? && At(s, schedule, i).Permits()
    && (schedule[i].status != At(s, schedule, i).license.status ==> LockFree(At(s, schedule, i)))
    && forall m: nat :: i < m <= k ==> !At(s, schedule, m).Permits()
  }

  /** Between the check of worker `w`'s call and `k` the license was closed, and not reopened. */
  ghost predicate ClosedSinceCheck(s: State, schedule: seq<Action>, w: nat, k: nat)
  {
    exists j: nat, i: nat :: CheckedAt(s, schedule, w, j, k) && j < i && ClosedBy(s, schedule, i, k)
  }

  lemma OnlySetAccessCloses(s: State, a: Action)
    requires s.Permits() && !Step(s, a).Permits()
    ensures a.SetAccess? && (a.status != s.license.status ==> LockFree(s))
  {
    hide Seats, ActiveRow, Licensing.EffectiveAccess;
  }

  lemma {:induction false} FindClosing(s: State, schedule: seq<Action>, j: nat, k: nat) returns (i: nat)
    requires j <= k <= |schedule| && At(s, schedule, j).Permits() && !At(s, schedule, k).Permits()
    ensures j <= i && ClosedBy(s, schedule, i, k)
    decreases k
  {
    hide Step, At, Licensing.EffectiveAccess, Licensing.Permits;
    i := k - 1;
    NextAt(s, schedule, i);
    if At(s, schedule, i).Permits() {
      OnlySetAccessCloses(At(s, schedule, i), schedule[i]);
    } else {
      i := FindClosing(s, schedule, j, k - 1);
    }
  }

  /** Worker `w` is answered in step `n`, with a token. */
  ghost predicate IssuesAt(s: State, schedule: seq<Action>, n: nat, w: nat)
  {
    && n < |schedule| && w in At(s, schedule, n).workers && w in At(s, schedule, n + 1).workers
    && !At(s, schedule, n).workers[w].phase.Activated? && At(s, schedule, n + 1).workers[w].phase.Activated?
  }

  /** A token goes out with a permitting status always, for that was checked; and on a license closed by
      then exactly when it was closed between that check and the answer, and not reopened. */
  lemma LateTokenIff(s: State, schedule: seq<Action>, n: nat, w: nat)
    requires Init(s) && IssuesAt(s, schedule, n, w)
    ensures Licensing.Permits(At(s, schedule, n + 1).workers[w].seen)
    ensures !At(s, schedule, n + 1).Permits() <==> ClosedSinceCheck(s, schedule, w, n + 1)
  {
    hide Step, At, Licensing.EffectiveAccess, Licensing.Permits, Init;
    var j := CheckExists(s, schedule, w, n + 1);
    assert Calls(At(s, schedule, n + 1), w, schedule[j].fingerprint, At(s, schedule, j).Access());
    if !At(s, schedule, n + 1).Permits() {
      var i := FindClosing(s, schedule, j, n + 1);
    }
  }

  /** Such tokens exist: whatever closes the license after the check, the device still takes its seat and
      gets a token. */
  lemma LateToken(s: State, w: nat, fingerprint: string, closing: Action)
    requires Init(s) && s.Permits() && Seats(s.rows) < s.Limit() && !ActiveRow(s.rows, fingerprint)
    requires closing.SetAccess? && !Step(s, closing).Permits()
    ensures var checked := Step(Step(s, Check(w, fingerprint)), closing);
            var t := Step(Step(Step(Step(checked, Lock(w)), LookUp(w)), Count(w)), Insert(w));
            && t.workers == map[w := Worker(Activated(true), fingerprint, s.Access())] && !t.Permits()
            && t.rows == s.rows + [Installation(fingerprint, true)]
  {
    hide Seats, ActiveRow, Licensing.EffectiveAccess, Licensing.Permits;
    var s1 := Step(Step(s, Check(w, fingerprint)), closing);
    assert s1.workers == map[w := Worker(Admitted, fingerprint, s.Access())] && s1.license == Step(s, closing).license;
    var s2 := Step(s1, Lock(w));
    var s3 := Step(s2, LookUp(w));
    var s4 := Step(s3, Count(w));
    assert s4 == s1.(workers := map[w := Worker(Counted(Seats(s.rows)), fingerprint, s.Access())]);
  }

  // ---- Refusals and freed seats ----

  /** A device is admitted exactly if the license permits access as its worker checks. */
  lemma AdmissionIff(s: State, w: nat, fingerprint: string)
    requires w in s.workers ==> !s.workers[w].Holds()
    ensures var checked := Step(s, Check(w, fingerprint)).workers[w];
            checked == Worker(if s.Permits() then Admitted else Denied, fingerprint, s.Access())
  {
  }

  /** A new device is turned away exactly if all seats are taken as its worker counts them. */
  lemma SeatFullIff(s: State, w: nat)
    requires w in s.workers && s.workers[w].phase == NoneFound
    ensures w in Step(s, Count(w)).workers
    ensures Step(s, Count(w)).workers[w].phase == SeatFull <==> s.license.seatLimit <= Seats(s.rows)
  {
  }

  lemma {:induction false} OneSeat(rows: seq<Installation>, id: nat)
    requires id < |rows|
    ensures Seats(rows[id := rows[id].(active := false)]) == Seats(rows) - if rows[id].active then 1 else 0
  {
    var n := |rows| - 1;
    if id == n {
      assert rows[id := rows[id].(active := false)][..n] == rows[..n];
    } else {
      assert rows[id := rows[id].(active := false)][..n] == rows[..n][id := rows[id].(active := false)];
      OneSeat(rows[..n], id);
    }
  }

  /** The dashboard frees the row it had read, even if it has been freed since, and the API every row of
      the device; no other row changes. */
  lemma FreedIff(s: State, w: nat, fingerprint: string)
    ensures var after := Step(s, Deactivate(fingerprint)).rows;
            && |after| == |s.rows| && !ActiveRow(after, fingerprint)
            && forall i :: 0 <= i < |s.rows| ==>
                 after[i].fingerprint == s.rows[i].fingerprint
                 && (after[i].active <==> s.rows[i].active && s.rows[i].fingerprint != fingerprint)
    ensures w in s.workers && s.workers[w].phase.RowRead? && s.workers[w].phase.id < |s.rows| ==>
              var id, after := s.workers[w].phase.id, Step(s, SaveRow(w)).rows;
              && after == s.rows[id := Installation(s.rows[id].fingerprint, false)]
              && Seats(after) == Seats(s.rows) - if s.rows[id].active then 1 else 0
  {
    if w in s.workers && s.workers[w].phase.RowRead? && s.workers[w].phase.id < |s.rows| {
      OneSeat(s.rows, s.workers[w].phase.id);
    }
  }

  /** The dashboard reads active rows only, whatever it held before but the license row. */
  lemma ReadIff(s: State, w: nat, id: nat)
    requires w in s.workers && !s.workers[w].Holds() && !s.workers[w].phase.RowRead?
    ensures w in Step(s, ReadRow(w, id)).workers
    ensures Step(s, ReadRow(w, id)).workers[w].phase == RowRead(id) <==> id < |s.rows| && s.rows[id].active
  {
  }

  /** Grant and subscription change at any time; the license's own status only while nobody holds its row. */
  lemma AccessSetIff(s: State, status: AccessStatus, grant: Option<AccessStatus>, sub: Option<SubStatus>)
    ensures var changed := s.(license := s.license.(status := status, grant := grant, sub := sub));
            Step(s, SetAccess(status, grant, sub)) == changed <==> changed == s || status == s.license.status || LockFree(s)
  {
  }

  /** A worker that gives up lets go of the license row. */
  lemma AbortFrees(s: State, w: nat)
    requires Inv(s) && w in s.workers
    ensures w in Step(s, Abort(w)).workers && Step(s, Abort(w)).workers[w].phase == Idle
    ensures s.workers[w].Holds() ==> LockFree(Step(s, Abort(w)))
  {
    hide Seats, ActiveRow, OnePerDevice;
  }
}
