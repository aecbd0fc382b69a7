/** The hourly expiry reminders: 7, 3 and 1 days before a non-renewing subscription ends, at most
    once each, however often the job runs. */
module Reminders {
  import opened Calendar
  import opened Lifecycle

  const MINUTE := 60_000_000

  /** The three marks; the day count is also the suffix of the dedup key. */
  datatype Mark = D7 | D3 | D1
  {
    function Days(): int { match this case D7 => 7 case D3 => 3 case D1 => 1 }
  }

  /** `expiry:<sub>:<period end date>:<mark>`. */
  datatype DedupKey = DedupKey(sub: nat, date: Date, mark: Mark)

  /** `_window`: one hour, closed at its start and open at its end. */
  function Window(now: int, days: int): (int, int)
  {
    (now + days * DAY - 30 * MINUTE, now + days * DAY + 30 * MINUTE)
  }

  predicate InWindow(now: int, days: int, end: int)
  {
    Window(now, days).0 <= end < Window(now, days).1
  }

  predicate Wanted(row: Sub, mark: Mark, now: int)
  {
    row.status == ACTIVE && !row.autoRenew && InWindow(now, mark.Days(), Micros(row.periodEnd))
  }

  function KeyFor(sub: nat, row: Sub, mark: Mark): DedupKey
  {
    DedupKey(sub, row.periodEnd.date, mark)
  }

  function Marks(): seq<Mark> { [D7, D3, D1] }

  /** How many of `sent` are `key`. */
  function Copies(sent: seq<DedupKey>, key: DedupKey): nat
  {
    if sent == [] then 0 else Copies(sent[..|sent| - 1], key) + if sent[|sent| - 1] == key then 1 else 0
  }

  /** The log holds a row for exactly the messages sent, each sent once. */
  ghost predicate SentOnce(log: set<DedupKey>, sent: seq<DedupKey>)
  {
    forall key :: Copies(sent, key) == if key in log then 1 else 0
  }

  /** The keys one run asks for. */
  ghost function Asked(subs: seq<Sub>, now: int): set<DedupKey>
  {
    set s, mark | 0 <= s < |subs| && mark in {D7, D3, D1} && Wanted(subs[s], mark, now) :: KeyFor(s, subs[s], mark)
  }

  ghost function AskedUpTo(subs: seq<Sub>, now: int, m: nat, s: nat): set<DedupKey>
    requires m <= 3 && s <= |subs|
  {
    set i, t | 0 <= i < 3 && 0 <= t < |subs| && (i < m || (i == m && t < s)) && Wanted(subs[t], Marks()[i], now)
      :: KeyFor(t, subs[t], Marks()[i])
  }

  lemma AskedNone(subs: seq<Sub>, now: int)
    ensures AskedUpTo(subs, now, 0, 0) == {}
  {
  }

  lemma AskedGrows(subs: seq<Sub>, now: int, m: nat, s: nat)
    requires m < 3 && s < |subs|
    ensures AskedUpTo(subs, now, m, s + 1) ==
            AskedUpTo(subs, now, m, s) + if Wanted(subs[s], Marks()[m], now) then {KeyFor(s, subs[s], Marks()[m])} else {}
  {
  }

  lemma AskedNextMark(subs: seq<Sub>, now: int, m: nat)
    requires m < 3
    ensures AskedUpTo(subs, now, m, |subs|) == AskedUpTo(subs, now, m + 1, 0)
  {
  }

  lemma AskedAll(subs: seq<Sub>, now: int)
    ensures AskedUpTo(subs, now, 3, 0) == Asked(subs, now)
  {
    hide Wanted;
    assert Marks()[0] == D7 && Marks()[1] == D3 && Marks()[2] == D1;
    forall key | key in Asked(subs, now) ensures key in AskedUpTo(subs, now, 3, 0) {
      var s, mark :| 0 <= s < |subs| && mark in {D7, D3, D1} && Wanted(subs[s], mark, now) && key == KeyFor(s, subs[s], mark);
      var i := if mark == D7 then 0 else if mark == D3 then 1 else 2;
      assert Marks()[i] == mark;
    }
  }

  class ReminderJob {
    var log: set<DedupKey>      // NotificationLog, unique on the key
    var sent: seq<DedupKey>     // messages handed to the channel

    constructor ()
      ensures log == {} && sent == []
    {
      log, sent := {}, [];
    }

    /** `_try_log` and `_send_once`. */
    method SendOnce(key: DedupKey) returns (dispatched: bool)
      requires SentOnce(log, sent)
      modifies this
      ensures SentOnce(log, sent)
      ensures dispatched <==> key !in old(log)
      ensures log == old(log) + {key} && sent == if dispatched then old(sent) + [key] else old(sent)
    {
      if key in log {
        return false;
      }
      log := log + {key};
      sent := sent + [key];
      assert sent[..|sent| - 1] == old(sent);
      return true;
    }

    /** `dispatch_expiry_reminders`: one run of the job. */
    method DispatchExpiryReminders(subs: seq<Sub>, now: int) returns (count: nat)
      requires SentOnce(log, sent)
      modifies this
      ensures SentOnce(log, sent) && old(sent) <= sent
      ensures log == old(log) + Asked(subs, now)
      ensures count == |sent| - |old(sent)|
    {
      hide Wanted, SentOnce, AskedUpTo, Asked;
      count := 0;
      assert AskedUpTo(subs, now, 0, 0) == {} by { AskedNone(subs, now); }
      for m := 0 to 3
        invariant SentOnce(log, sent) && old(sent) <= sent && count == |sent| - |old(sent)|
        invariant log == old(log) + AskedUpTo(subs, now, m, 0)
      {
        for s := 0 to |subs|
          invariant SentOnce(log, sent) && old(sent) <= sent && count == |sent| - |old(sent)|
          invariant log == old(log) + AskedUpTo(subs, now, m, s)
        {
          AskedGrows(subs, now, m, s);
          if Wanted(subs[s], Marks()[m], now) {
            var dispatched := SendOnce(KeyFor(s, subs[s], Marks()[m]));
            if dispatched {
              count := count + 1;
            }
          }
        }
        AskedNextMark(subs, now, m);
      }
      AskedAll(subs, now);
    }
  }

  // ---- Coverage over any number of runs ----

  /** One run of the job: when, and the table it saw. */
  datatype Pass = Pass(now: int, subs: seq<Sub>)

  ghost function LogAfter(passes: seq<Pass>): set<DedupKey>
  {
    if passes == [] then {}
    else LogAfter(passes[..|passes| - 1]) + Asked(passes[|passes| - 1].subs, passes[|passes| - 1].now)
  }

  /** Subscription `s` stays ACTIVE, non-renewing and with the same period end in every pass. */
  ghost predicate Steady(passes: seq<Pass>, s: nat, row: Sub)
  {
    row.status == ACTIVE && !row.autoRenew
    && forall i :: 0 <= i < |passes| ==> s < |passes[i].subs| && passes[i].subs[s] == row
  }

  lemma {:induction false} LoggedIff(passes: seq<Pass>, s: nat, row: Sub, mark: Mark)
    requires Steady(passes, s, row)
    ensures KeyFor(s, row, mark) in LogAfter(passes) <==>
            exists i :: 0 <= i < |passes| && InWindow(passes[i].now, mark.Days(), Micros(row.periodEnd))
  {
    if passes != [] {
      hide Micros, InWindow;
      var front, last := passes[..|passes| - 1], passes[|passes| - 1];
      LoggedIff(front, s, row, mark);
      AskedIff(last.subs, last.now, s, row, mark);
      assert passes == front + [last];
      if exists i :: 0 <= i < |passes| && InWindow(passes[i].now, mark.Days(), Micros(row.periodEnd)) {
        var i :| 0 <= i < |passes| && InWindow(passes[i].now, mark.Days(), Micros(row.periodEnd));
        if i < |front| { assert front[i] == passes[i]; }
      }
    }
  }

  lemma AskedIff(subs: seq<Sub>, now: int, s: nat, row: Sub, mark: Mark)
    requires s < |subs| && subs[s] == row && row.status == ACTIVE && !row.autoRenew
    ensures KeyFor(s, row, mark) in Asked(subs, now) <==> InWindow(now, mark.Days(), Micros(row.periodEnd))
  {
  }

  /** The hour of run times from which a mark is sent: open at its start, closed at its end. */
  lemma WindowOfRuns(now: int, days: int, end: int)
    ensures InWindow(now, days, end) <==> end - days * DAY - 30 * MINUTE < now <= end - days * DAY + 30 * MINUTE
  {
  }

  /** Runs at most an hour apart, from before the hour until after it, hit it. */
  lemma {:induction false} SomeRunHits(passes: seq<Pass>, from: int)
    requires passes != [] && passes[0].now <= from && from + 60 * MINUTE <= passes[|passes| - 1].now
    requires forall i :: 0 < i < |passes| ==> passes[i].now - passes[i - 1].now <= 60 * MINUTE
    ensures exists i :: 0 <= i < |passes| && from < passes[i].now <= from + 60 * MINUTE
  {
    var last := |passes| - 1;
    if last > 0 && passes[last - 1].now > from {
      if passes[last].now > from + 60 * MINUTE {
        if passes[last - 1].now <= from + 60 * MINUTE {
        } else {
          var front := passes[..last];
          SomeRunHits(front, from);
          var i :| 0 <= i < |front| && from < front[i].now <= from + 60 * MINUTE;
          assert passes[i] == front[i];
        }
      }
    }
  }

  /** The moment from which, for an hour, a pass sends the mark. */
  function HourStart(row: Sub, mark: Mark): int
  {
    Micros(row.periodEnd) - mark.Days() * DAY - 30 * MINUTE
  }

  /** No two passes in a row are further apart than `gap`. */
  ghost predicate Regular(passes: seq<Pass>, gap: int)
  {
    forall i :: 0 < i < |passes| ==> passes[i].now - passes[i - 1].now <= gap
  }

  /** The passes reach from before the hour until after it. */
  ghost predicate Span(passes: seq<Pass>, row: Sub, mark: Mark)
  {
    passes != [] && passes[0].now <= HourStart(row, mark) && HourStart(row, mark) + 60 * MINUTE <= passes[|passes| - 1].now
  }

  /** A steady subscription that hourly passes watch over the hour of its mark. */
  ghost predicate Watched(passes: seq<Pass>, s: nat, row: Sub, mark: Mark)
  {
    Steady(passes, s, row) && Span(passes, row, mark) && Regular(passes, 60 * MINUTE)
  }

  /** If the job runs at gaps of at most an hour across the span, each of the three messages of a
      steady non-renewing subscription is logged. */
  lemma {:induction false} EveryMarkIsSent(passes: seq<Pass>, s: nat, row: Sub, mark: Mark)
    requires Watched(passes, s, row, mark)
    ensures KeyFor(s, row, mark) in LogAfter(passes)
  {
    hide Micros;
    var from := HourStart(row, mark);
    SomeRunHits(passes, from);
    var i :| 0 <= i < |passes| && from < passes[i].now <= from + 60 * MINUTE;
    WindowOfRuns(passes[i].now, mark.Days(), Micros(row.periodEnd));
    LoggedIff(passes, s, row, mark);
  }

  /** The windows leave no slack: for every gap longer than an hour there are passes no further apart,
      across the span, that never log the mark. */
  lemma LongerGapMisses(subs: seq<Sub>, s: nat, row: Sub, mark: Mark, gap: int)
    requires s < |subs| && subs[s] == row && row.status == ACTIVE && !row.autoRenew && gap > 60 * MINUTE
    ensures var passes := [Pass(HourStart(row, mark), subs), Pass(HourStart(row, mark) + gap, subs)];
            Steady(passes, s, row) && Span(passes, row, mark) && Regular(passes, gap)
            && KeyFor(s, row, mark) !in LogAfter(passes)
  {
    hide Micros;
    var passes := [Pass(HourStart(row, mark), subs), Pass(HourStart(row, mark) + gap, subs)];
    LoggedIff(passes, s, row, mark);
    WindowOfRuns(passes[0].now, mark.Days(), Micros(row.periodEnd));
    WindowOfRuns(passes[1].now, mark.Days(), Micros(row.periodEnd));
  }

  /** Drives the job through a whole sequence of runs: every message logged was sent exactly once, and
      every mark of a steady subscription watched at hourly gaps was. */
  method RunAll(passes: seq<Pass>) returns (job: ReminderJob)
    ensures fresh(job)
    ensures SentOnce(job.log, job.sent) && job.log == LogAfter(passes)
    ensures forall s: nat, row, mark :: Watched(passes, s, row, mark) ==> Copies(job.sent, KeyFor(s, row, mark)) == 1
  {
    job := new ReminderJob();
    for i := 0 to |passes|
      invariant fresh(job) && SentOnce(job.log, job.sent) && job.log == LogAfter(passes[..i])
    {
      assert passes[..i + 1][..i] == passes[..i];
      var _ := job.DispatchExpiryReminders(passes[i].subs, passes[i].now);
    }
    assert passes[..|passes|] == passes;
    forall s: nat, row, mark | Watched(passes, s, row, mark) ensures KeyFor(s, row, mark) in job.log {
      EveryMarkIsSent(passes, s, row, mark);
    }
  }

  /** In pass `i` row `s` is a non-renewing ACTIVE subscription, and it ends 7, 3 or 1 days from then, as
      the key says, up to half an hour either way. */
  ghost predicate Reminds(passes: seq<Pass>, i: nat, s: nat, key: DedupKey)
  {
    && i < |passes| && s < |passes[i].subs|
    && var row := passes[i].subs[s];
       var ahead := match key.mark case D7 => 7 case D3 => 3 case D1 => 1;
       && row.status == ACTIVE && row.autoRenew == false && key.sub == s && key.date == row.periodEnd.date
       && -1_800_000_000 <= Micros(row.periodEnd) - passes[i].now - ahead * 86_400_000_000 < 1_800_000_000
  }

  /** Over any passes, exactly what is ever reminded of. A row that comes to end on another date has a key
      of its own there. */
  lemma {:induction false} RemindedIff(passes: seq<Pass>, key: DedupKey)
    ensures key in LogAfter(passes) <==> exists i: nat, s: nat :: Reminds(passes, i, s, key)
  {
    if passes != [] {
      hide Micros, Reminds, Asked;
      var n := |passes| - 1;
      RemindedIff(passes[..n], key);
      PassReminds(passes, n, key);
      forall i: nat, s: nat ensures Reminds(passes[..n], i, s, key) <==> Reminds(passes, i, s, key) && i != n {
        EarlierReminds(passes, n, i, s, key);
      }
    } else {
      NobodyReminded(passes, key);
    }
  }

  lemma NobodyReminded(passes: seq<Pass>, key: DedupKey)
    requires passes == []
    ensures forall i: nat, s: nat :: !Reminds(passes, i, s, key)
  {
  }

  lemma EarlierReminds(passes: seq<Pass>, n: nat, i: nat, s: nat, key: DedupKey)
    requires n == |passes| - 1
    ensures Reminds(passes[..n], i, s, key) <==> Reminds(passes, i, s, key) && i != n
  {
    hide Micros;
  }

  lemma PassReminds(passes: seq<Pass>, n: nat, key: DedupKey)
    requires n < |passes|
    ensures key in Asked(passes[n].subs, passes[n].now) <==> exists s: nat :: Reminds(passes, n, s, key)
  {
    hide Micros;
    if s: nat :| Reminds(passes, n, s, key) {
      assert key == KeyFor(s, passes[n].subs[s], key.mark) && Wanted(passes[n].subs[s], key.mark, passes[n].now);
    }
    if key in Asked(passes[n].subs, passes[n].now) {
      var s, mark :| 0 <= s < |passes[n].subs| && mark in {D7, D3, D1} && Wanted(passes[n].subs[s], mark, passes[n].now)
                     && key == KeyFor(s, passes[n].subs[s], mark);
      assert Reminds(passes, n, s, key);
    }
  }
}
