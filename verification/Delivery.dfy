/** The delivery status of an outgoing WhatsApp message, merged from provider webhooks that may be
    repeated and may arrive in any order. */
module Delivery {
  datatype Status = QUEUED | SENT | DELIVERED | READ | FAILED | FALLBACK_SENT

  datatype Event = MessageSent | MessageDelivered | MessageRead | MessageFailed

  /** An outbox row: whether it went out on WhatsApp, and whether it kept an email body and a
      customer to fall back to. */
  datatype Row = Row(status: Status, whatsapp: bool, emailable: bool)

  /** Position in queued < sent < delivered < read. */
  function Rank(status: Status): int
  {
    match status
    case SENT => 1
    case DELIVERED => 2
    case READ => 3
    case _ => 0
  }

  function Reported(e: Event): Status
  {
    match e
    case MessageSent => SENT
    case MessageDelivered => DELIVERED
    case MessageRead => READ
    case MessageFailed => FAILED
  }

  predicate Terminal(status: Status) { status == FAILED || status == FALLBACK_SENT }

  /** A failed WhatsApp message is re-sent as email when there is something to send and someone to
      send it to. */
  predicate FallsBack(row: Row)
  {
    row.whatsapp && row.emailable
  }

  class Outbox {
    var row: Row
    var emails: nat

    constructor (row: Row)
      ensures this.row == row && emails == 0
    {
      this.row, emails := row, 0;
    }

    /** `fallback_delivery_to_email`. */
    method FallbackToEmail() returns (queued: bool)
      modifies this
      ensures queued <==> FallsBack(old(row)) && old(row).status != FALLBACK_SENT
      ensures row == if queued then old(row).(status := FALLBACK_SENT) else old(row)
      ensures emails == old(emails) + if queued then 1 else 0
    {
      if !row.whatsapp {
        return false;
      }
      if row.status == FALLBACK_SENT {
        return false;
      }
      if !row.emailable {
        return false;
      }
      emails := emails + 1;
      row := row.(status := FALLBACK_SENT);
      return true;
    }

    /** `_handle_status`, for a handler that had read `copy`. */
    method HandleStatus(e: Event, copy: Status)
      modifies this
      ensures (row, emails) == Saved(old(row), old(emails), Save(e, copy))
    {
      if copy == FAILED || copy == FALLBACK_SENT {
        return;
      }
      if e == MessageFailed {
        row := row.(status := FAILED);
        var _ := FallbackToEmail();
        return;
      }
      if Rank(Reported(e)) <= Rank(copy) {
        return;
      }
      row := row.(status := Reported(e));
    }

    /** A whole history of webhook calls, one after another. */
    method HandleAll(events: seq<Event>)
      modifies this
      ensures (row, emails) == Merge(old(row), old(emails), events)
      ensures !Terminal(old(row).status) ==>
                row.status == Summary(old(row), events)
                && emails == old(emails) + if MessageFailed in events && FallsBack(old(row)) then 1 else 0
    {
      for i := 0 to |events|
        invariant (row, emails) == Merge(old(row), old(emails), events[..i])
      {
        assert events[..i + 1][..i] == events[..i];
        HandleStatus(events[i], row.status);
      }
      assert events[..|events|] == events;
      if !Terminal(old(row).status) {
        MergeIsSummary(old(row), old(emails), events);
      }
    }
  }

  /** A handler's event, and the status it had read. */
  datatype Save = Save(event: Event, copy: Status)

  /** Whether a handler that has read `status` goes on to save. */
  predicate Acts(status: Status, e: Event)
  {
    !Terminal(status) && (e == MessageFailed || Rank(status) < Rank(Reported(e)))
  }

  /** The row and the number of queued fallback emails after a handler has saved what it decided on
      its copy. */
  function Saved(row: Row, emails: nat, s: Save): (Row, nat)
  {
    if !Acts(s.copy, s.event) then (row, emails)
    else if s.event == MessageFailed && FallsBack(row) then (row.(status := FALLBACK_SENT), emails + 1)
    else (row.(status := Reported(s.event)), emails)
  }

  /** The row and the number of queued fallback emails after one event. */
  function Handle(row: Row, emails: nat, e: Event): (Row, nat)
  {
    if Terminal(row.status) then (row, emails)
    else if e == MessageFailed then
      if FallsBack(row) then (row.(status := FALLBACK_SENT), emails + 1) else (row.(status := FAILED), emails)
    else if Rank(Reported(e)) <= Rank(row.status) then (row, emails)
    else (row.(status := Reported(e)), emails)
  }

  function Merge(row: Row, emails: nat, events: seq<Event>): (Row, nat)
  {
    if events == [] then (row, emails)
    else
      var (mid, sent) := Merge(row, emails, events[..|events| - 1]);
      Handle(mid, sent, events[|events| - 1])
  }

  /** The final status as a function of which events occurred, not of their order or number. */
  function Summary(row: Row, events: seq<Event>): Status
  {
    if MessageFailed in events then if FallsBack(row) then FALLBACK_SENT else FAILED
    else if MessageRead in events || row.status == READ then READ
    else if MessageDelivered in events || row.status == DELIVERED then DELIVERED
    else if MessageSent in events || row.status == SENT then SENT
    else QUEUED
  }

  lemma {:induction false} MergeIsSummary(row: Row, emails: nat, events: seq<Event>)
    requires !Terminal(row.status)
    ensures Merge(row, emails, events).0 == row.(status := Summary(row, events))
    ensures Merge(row, emails, events).1 == emails + if MessageFailed in events && FallsBack(row) then 1 else 0
  {
    if events != [] {
      var front, e := events[..|events| - 1], events[|events| - 1];
      assert events == front + [e];
      MergeIsSummary(row, emails, front);
    }
  }

  /** Any two histories with the same events, in any order and with any repetition, leave the same
      row, and queue at most one email. */
  lemma MergeIsConfluent(row: Row, emails: nat, a: seq<Event>, b: seq<Event>)
    requires !Terminal(row.status)
    requires forall e :: e in a <==> e in b
    ensures Merge(row, emails, a) == Merge(row, emails, b)
    ensures Merge(row, emails, a).1 <= emails + 1
  {
    MergeIsSummary(row, emails, a);
    MergeIsSummary(row, emails, b);
  }

  /** Later events never lower the rank of a live row, and never leave a terminal one. */
  lemma {:induction false} MergeNeverRegresses(row: Row, emails: nat, earlier: seq<Event>, later: seq<Event>)
    ensures var (before, after) := (Merge(row, emails, earlier), Merge(row, emails, earlier + later));
            && (Terminal(before.0.status) ==> after == before)
            && (!Terminal(after.0.status) ==> Rank(before.0.status) <= Rank(after.0.status))
  {
    if later == [] {
      assert earlier + later == earlier;
    } else {
      var front := later[..|later| - 1];
      assert (earlier + later)[..|earlier + later| - 1] == earlier + front;
      MergeNeverRegresses(row, emails, earlier, front);
    }
  }

  // ---- Handlers at once ----

  function SavedAll(row: Row, emails: nat, saves: seq<Save>): (Row, nat)
  {
    if saves == [] then (row, emails)
    else
      var (mid, sent) := SavedAll(row, emails, saves[..|saves| - 1]);
      Saved(mid, sent, saves[|saves| - 1])
  }

  function Events(saves: seq<Save>): (r: seq<Event>)
    ensures |r| == |saves|
  {
    seq(|saves|, i requires 0 <= i < |saves| => saves[i].event)
  }

  /** The guard that the unlocked save lacks: the row still calls for what the copy called for, or it
      already says what will be written and no email goes out. */
  predicate StillRight(row: Row, s: Save)
  {
    || Acts(s.copy, s.event) == Acts(row.status, s.event)
    || (row.status == Reported(s.event) && !(s.event == MessageFailed && FallsBack(row)))
  }

  /** Exactly when a save from a copy is the event handled at once. */
  lemma SavedIff(row: Row, emails: nat, s: Save)
    ensures Saved(row, emails, s) == Handle(row, emails, s.event) <==> StillRight(row, s)
  {
  }

  ghost predicate SequentialUpTo(row: Row, emails: nat, saves: seq<Save>, n: nat)
  {
    forall k: nat :: k <= n && k <= |saves| ==> SavedAll(row, emails, saves[..k]) == Merge(row, emails, Events(saves)[..k])
  }

  ghost predicate RightUpTo(row: Row, emails: nat, saves: seq<Save>, n: nat)
  {
    forall k: nat :: k < n && k < |saves| ==> StillRight(SavedAll(row, emails, saves[..k]).0, saves[k])
  }

  lemma PrefixSteps(row: Row, emails: nat, saves: seq<Save>, n: nat)
    requires 0 < n <= |saves|
    ensures SavedAll(row, emails, saves[..n])
            == var (mid, sent) := SavedAll(row, emails, saves[..n - 1]); Saved(mid, sent, saves[n - 1])
    ensures Merge(row, emails, Events(saves)[..n])
            == var (mid, sent) := Merge(row, emails, Events(saves)[..n - 1]); Handle(mid, sent, saves[n - 1].event)
  {
    hide Saved, Handle;
    assert saves[..n][..n - 1] == saves[..n - 1] && Events(saves)[..n][..n - 1] == Events(saves)[..n - 1];
  }

  lemma UpToSteps(row: Row, emails: nat, saves: seq<Save>, n: nat)
    requires 0 < n <= |saves|
    ensures SequentialUpTo(row, emails, saves, n) <==>
            && SequentialUpTo(row, emails, saves, n - 1)
            && SavedAll(row, emails, saves[..n]) == Merge(row, emails, Events(saves)[..n])
    ensures SequentialUpTo(row, emails, saves, n - 1) ==>
              SavedAll(row, emails, saves[..n - 1]) == Merge(row, emails, Events(saves)[..n - 1])
    ensures RightUpTo(row, emails, saves, n) <==>
            RightUpTo(row, emails, saves, n - 1) && StillRight(SavedAll(row, emails, saves[..n - 1]).0, saves[n - 1])
  {
    hide StillRight, SavedAll, Merge, Events;
  }

  lemma {:induction false} RaceUpTo(row: Row, emails: nat, saves: seq<Save>, n: nat)
    requires n <= |saves|
    ensures SequentialUpTo(row, emails, saves, n) <==> RightUpTo(row, emails, saves, n)
  {
    hide StillRight, Saved, Handle, SavedAll, Merge, SequentialUpTo, RightUpTo;
    if n > 0 {
      RaceUpTo(row, emails, saves, n - 1);
      UpToSteps(row, emails, saves, n);
      PrefixSteps(row, emails, saves, n);
      var (mid, sent) := SavedAll(row, emails, saves[..n - 1]);
      SavedIff(mid, sent, saves[n - 1]);
    } else {
      NoSaves(row, emails, saves);
    }
  }

  lemma NoSaves(row: Row, emails: nat, saves: seq<Save>)
    ensures SequentialUpTo(row, emails, saves, 0) && RightUpTo(row, emails, saves, 0)
  {
  }

  /** Handlers that race leave, after every save, what the same events leave one after another, exactly
      when every save was still right as it was made; then at most one email is queued. */
  lemma RaceIff(row: Row, emails: nat, saves: seq<Save>)
    ensures SequentialUpTo(row, emails, saves, |saves|) <==> RightUpTo(row, emails, saves, |saves|)
    ensures RightUpTo(row, emails, saves, |saves|) && !Terminal(row.status) ==>
              && SavedAll(row, emails, saves).0.status == Summary(row, Events(saves))
              && SavedAll(row, emails, saves).1 <= emails + 1
  {
    hide StillRight, Saved, Handle, Summary;
    RaceUpTo(row, emails, saves, |saves|);
    assert saves[..|saves|] == saves && Events(saves)[..|saves|] == Events(saves);
    if !Terminal(row.status) {
      MergeIsSummary(row, emails, Events(saves));
    }
  }

  /** The failures whose handlers had read a row that was still live. */
  function LiveFailures(saves: seq<Save>): nat
  {
    if saves == [] then 0
    else
      LiveFailures(saves[..|saves| - 1])
      + if saves[|saves| - 1].event == MessageFailed && !Terminal(saves[|saves| - 1].copy) then 1 else 0
  }

  /** However handlers race, there is one email for each of these, and none for a row that cannot fall
      back: at most one exactly when at most one failure's handler had read a live row. */
  lemma {:induction false} EmailsAreLiveFailures(row: Row, emails: nat, saves: seq<Save>)
    ensures var after := SavedAll(row, emails, saves);
            after.1 == emails + (if FallsBack(row) then LiveFailures(saves) else 0) && FallsBack(after.0) == FallsBack(row)
  {
    if saves != [] {
      EmailsAreLiveFailures(row, emails, saves[..|saves| - 1]);
    }
  }

  /** Two failures handled at once queue two emails. */
  lemma TwoEmails(row: Row, emails: nat)
    requires !Terminal(row.status) && FallsBack(row)
    ensures var failure := Save(MessageFailed, row.status);
            SavedAll(row, emails, [failure, failure]).1 == emails + 2
  {
    var failure := Save(MessageFailed, row.status);
    assert [failure, failure][..1] == [failure] && [failure][..0] == [];
    assert LiveFailures([failure][..0]) == 0 && LiveFailures([failure]) == 1;
    EmailsAreLiveFailures(row, emails, [failure, failure]);
  }

  /** A read report and a late delivery report handled at once take a read row back to DELIVERED, which
      `MergeNeverRegresses` excludes for events handled one after another. */
  lemma RankLowered(row: Row, emails: nat)
    requires Rank(row.status) < Rank(DELIVERED) && !Terminal(row.status)
    ensures var saves := [Save(MessageRead, row.status), Save(MessageDelivered, row.status)];
            SavedAll(row, emails, saves[..1]).0.status == READ && SavedAll(row, emails, saves).0.status == DELIVERED
  {
    var saves := [Save(MessageRead, row.status), Save(MessageDelivered, row.status)];
    assert saves[..1][..0] == [];
  }

  /** After a whole history of a live row, one email is queued if a failure was among its events and the
      message had gone out on WhatsApp with an email to fall back to, and none otherwise. */
  lemma FallbackIff(row: Row, emails: nat, events: seq<Event>)
    requires !Terminal(row.status)
    ensures var (after, sent) := Merge(row, emails, events);
            && (sent == emails + 1 <==> MessageFailed in events && row.whatsapp && row.emailable)
            && (sent == emails <==> !(MessageFailed in events && row.whatsapp && row.emailable))
            && (after.status == FALLBACK_SENT <==> MessageFailed in events && row.whatsapp && row.emailable)
            && (after.status == FAILED <==> MessageFailed in events && !(row.whatsapp && row.emailable))
  {
    MergeIsSummary(row, emails, events);
  }
}
