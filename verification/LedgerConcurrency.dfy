/** The wallet service under concurrency.

    Each process is one database transaction that issues credits and debits on one wallet. Its
    steps interleave freely with those of every other process: an unlocked look-up, the row lock,
    the re-check under the lock, the insert, the balance write, and the commit. Rows written by a
    transaction are visible to others only once it commits. */
module LedgerConcurrency {
  import opened Prelude
  import opened Keys
  import opened Ledger

  datatype Phase =
    | Ready        // about to issue the next request, or to commit
    | Locking      // the unlocked look-up found nothing
    | Rechecking   // holds the wallet row
    | Inserting    // the look-up under the lock found nothing
    | Writing      // entry inserted, balance not yet saved
    | Committed
    | RolledBack(reason: Option<LedgerError>)

  datatype Process = Process(
    wallet: nat,
    script: seq<Request>,    // the transaction's requests, in order
    done: nat,               // how many of them have returned
    phase: Phase,
    holds: bool,             // holds the wallet's row lock
    balance: int,            // the balance as read and written by this transaction
    pending: seq<Entry>,     // inserted, not yet committed
    results: seq<Entry>)     // what the requests returned
  {
    predicate Live() { !phase.Committed? && !phase.RolledBack? }

    function Fail(reason: Option<LedgerError>): Process
    {
      this.(phase := RolledBack(reason), holds := false, pending := [])
    }

    function Return(entry: Entry): Process
    {
      this.(phase := Ready, done := done + 1, results := results + [entry])
    }
  }

  datatype State = State(books: Books, procs: map<nat, Process>)

  datatype Action = FastRead | Acquire | Recheck | Insert | Write | Commit | Abort

  function Visible(s: State, p: Process): seq<Entry>
  {
    s.books.entries + p.pending
  }

  ghost predicate LockFree(s: State, pid: nat, wallet: nat)
  {
    forall q :: q in s.procs && q != pid && s.procs[q].holds ==> s.procs[q].wallet != wallet
  }

  ghost predicate RefFree(s: State, pid: nat, ref: Ref)
  {
    forall q :: q in s.procs && q != pid ==> !Recorded(s.procs[q].pending, ref)
  }

  function AfterLookup(s: State, p: Process, missed: Process): Process
    requires p.done < |p.script|
  {
    var r := p.script[p.done];
    match Find(Visible(s, p), r.ref)
    case None => missed
    case Some(e) =>
      match CheckMatch(e, r)
      case Ok(_) => p.Return(e)
      case Err(error) => p.Fail(Some(error))
  }

  function DoFastRead(s: State, p: Process): Process
    requires p.done < |p.script|
  {
    var r := p.script[p.done];
    if !p.phase.Ready? then p
    else if r.amount <= 0 then p.Fail(Some(NonPositiveAmount))
    else if r.kind.UnknownType? then p.Fail(Some(InvalidType))
    else AfterLookup(s, p, p.(phase := Locking))
  }

  /** Locks the wallet row and reads it; waits while another transaction holds it. */
  ghost function DoAcquire(s: State, pid: nat, p: Process): Process
  {
    if !p.phase.Locking? then p
    else if p.wallet !in s.books.balances then p.Fail(Some(NoSuchWallet))
    else if p.holds then p.(phase := Rechecking)
    else if !LockFree(s, pid, p.wallet) then p
    else p.(phase := Rechecking, holds := true, balance := s.books.balances[p.wallet])
  }

  function DoRecheck(s: State, p: Process): Process
    requires p.done < |p.script|
  {
    var r := p.script[p.done];
    if !p.phase.Rechecking? then p
    else
      AfterLookup(s, p,
        if r.side == Debiting && p.balance < r.amount then p.Fail(Some(InsufficientBalance))
        else p.(phase := Inserting))
  }

  /** The unique reference column refuses a committed duplicate and waits for an uncommitted one. */
  ghost function DoInsert(s: State, pid: nat, p: Process): Process
    requires p.done < |p.script|
  {
    var r := p.script[p.done];
    if !p.phase.Inserting? then p
    else if Recorded(s.books.entries, r.ref) then p.Fail(None)
    else if !RefFree(s, pid, r.ref) then p
    else
      var entry := Entry(p.wallet, r.kind, r.Signed(), p.balance + r.Signed(), r.ref);
      p.(phase := Writing, pending := p.pending + [entry], results := p.results + [entry])
  }

  function DoWrite(p: Process): Process
    requires p.done < |p.script|
  {
    if !p.phase.Writing? then p
    else p.(phase := Ready, done := p.done + 1, balance := p.balance + p.script[p.done].Signed())
  }

  function DoCommit(p: Process): Process
  {
    if p.phase.Ready? && p.done == |p.script| then p.(phase := Committed, holds := false, pending := []) else p
  }

  /** The process after its own step; blocked and disabled steps leave it as it is. */
  ghost function Advance(s: State, pid: nat, a: Action): Process
    requires pid in s.procs
  {
    var p := s.procs[pid];
    if !p.Live() then p
    else match a
      case Abort => p.Fail(None)
      case Commit => DoCommit(p)
      case FastRead => if p.done < |p.script| then DoFastRead(s, p) else p
      case Acquire => DoAcquire(s, pid, p)
      case Recheck => if p.done < |p.script| then DoRecheck(s, p) else p
      case Insert => if p.done < |p.script| then DoInsert(s, pid, p) else p
      case Write => if p.done < |p.script| then DoWrite(p) else p
  }

  ghost predicate Commits(s: State, pid: nat, a: Action)
  {
    && a == Commit && pid in s.procs
    && s.procs[pid].phase.Ready? && s.procs[pid].done == |s.procs[pid].script|
  }

  ghost function Perform(s: State, pid: nat, a: Action): State
  {
    if pid !in s.procs then s
    else
      var p := s.procs[pid];
      var books :=
        if Commits(s, pid, a) && p.holds then
          Books(s.books.balances[p.wallet := p.balance], s.books.entries + p.pending)
        else s.books;
      State(books, s.procs[pid := Advance(s, pid, a)])
  }

  /** Runs a schedule: an arbitrary interleaving of arbitrary steps. */
  ghost function Run(s: State, schedule: seq<(nat, Action)>): State
  {
    if schedule == [] then s
    else
      var (pid, a) := schedule[|schedule| - 1];
      Perform(Run(s, schedule[..|schedule| - 1]), pid, a)
  }

  // ---- The invariant ----

  function Finished(p: Process): nat
  {
    if p.phase.Writing? then p.done + 1 else p.done
  }

  function EffectiveBalance(p: Process): int
    requires p.phase.Writing? ==> p.done < |p.script|
  {
    if p.phase.Writing? then p.balance + p.script[p.done].Signed() else p.balance
  }

  /** The books as this transaction sees them. */
  function Overlay(books: Books, p: Process): Books
    requires p.phase.Writing? ==> p.done < |p.script|
  {
    Books(if p.holds then books.balances[p.wallet := EffectiveBalance(p)] else books.balances,
          books.entries + p.pending)
  }

  ghost predicate Shaped(books: Books, p: Process)
  {
    && Finished(p) <= |p.script|
    && (p.phase.Locking? || p.phase.Rechecking? || p.phase.Inserting? ==>
          p.done < |p.script| && p.script[p.done].amount > 0 && !p.script[p.done].kind.UnknownType?)
    && (p.phase.Rechecking? || p.phase.Inserting? || p.phase.Writing? ==> p.holds)
    && (p.holds ==> p.wallet in books.balances)
    && (!p.holds ==> p.pending == [])
    && (p.phase.Inserting? ==>
          && !Recorded(p.pending, p.script[p.done].ref)
          && (p.script[p.done].side == Debiting ==> p.script[p.done].amount <= p.balance))
    && (forall k :: 0 <= k < |p.script| ==> p.script[k].wallet == p.wallet)
  }

  /** What the transaction has done so far is what the sequential service would do from the books
      as they are committed now. */
  ghost predicate InStep(books: Books, p: Process)
  {
    p.Live() ==>
      Shaped(books, p) && PostAll(books, p.script[..Finished(p)]) == Ok((Overlay(books, p), p.results))
  }

  ghost predicate Disjoint(p: Process, q: Process)
  {
    && (p.holds && q.holds ==> p.wallet != q.wallet)
    && forall i, j :: 0 <= i < |p.pending| && 0 <= j < |q.pending| ==> p.pending[i].ref != q.pending[j].ref
  }

  ghost predicate Inv(s: State)
  {
    && Sound(s.books)
    && (forall pid :: pid in s.procs ==> InStep(s.books, s.procs[pid]))
    && (forall pid :: pid in s.procs && !s.procs[pid].Live() ==> !s.procs[pid].holds && s.procs[pid].pending == [])
    && (forall pid, qid :: pid in s.procs && qid in s.procs && pid != qid ==> Disjoint(s.procs[pid], s.procs[qid]))
  }

  ghost predicate Init(s: State)
  {
    && Sound(s.books)
    && forall pid :: pid in s.procs ==>
         var p := s.procs[pid];
         && p.phase.Ready? && p.done == 0 && !p.holds && p.pending == [] && p.results == []
         && forall k :: 0 <= k < |p.script| ==> p.script[k].wallet == p.wallet
  }

  lemma PostAllSnoc(books: Books, script: seq<Request>, k: nat)
    requires k < |script|
    ensures PostAll(books, script[..k + 1]) ==
            match PostAll(books, script[..k])
            case Err(e) => Err(e)
            case Ok((mid, entries)) =>
              var (after, result) := Post(mid, script[k]);
              if result.Err? then Err(result.error) else Ok((after, entries + [result.value]))
  {
    assert script[..k + 1][..k] == script[..k];
  }

  /** Running `script` from `others` appends the same `pending` entries with the same results as from
      `books`, and sets the wallet's balance to the same value if it sets it at all. */
  ghost predicate Framed(books: Books, others: Books, wallet: nat, script: seq<Request>, pending: seq<Entry>)
  {
    && PostAll(books, script).Ok? && PostAll(others, script).Ok?
    && var (after, results) := PostAll(books, script).value;
       var (after', results') := PostAll(others, script).value;
       && results' == results
       && after'.entries == others.entries + pending
       && (pending == [] ==> after.balances == books.balances && after'.balances == others.balances)
       && (pending != [] ==>
             wallet in after.balances && after'.balances == others.balances[wallet := after.balances[wallet]])
  }

  lemma FramedStep(books: Books, others: Books, wallet: nat, script: seq<Request>,
                   foreign: seq<Entry>, earlier: seq<Entry>, pending: seq<Entry>)
    requires Sound(books) && Sound(others) && script != [] && script[|script| - 1].wallet == wallet
    requires others.entries == books.entries + foreign && others.balances.Keys == books.balances.Keys
    requires PostAll(books, script).Ok? && PostAll(books, script).value.0.entries == books.entries + pending
    requires forall i, j :: 0 <= i < |foreign| && 0 <= j < |pending| ==> foreign[i].ref != pending[j].ref
    requires pending != [] ==> wallet in books.balances && others.balances[wallet] == books.balances[wallet]
    requires Framed(books, others, wallet, script[..|script| - 1], earlier)
    requires PostAll(books, script[..|script| - 1]).value.0.entries == books.entries + earlier
    ensures Framed(books, others, wallet, script, pending)
  {
    var front, r := script[..|script| - 1], script[|script| - 1];
    var mid, mid' := PostAll(books, front).value.0, PostAll(others, front).value.0;
    var after, after' := Post(mid, r).0, Post(mid', r).0;
    assert Sound(mid) && mid.balances.Keys == books.balances.Keys by { PostAllSound(books, front); }
    assert Sound(mid') && mid'.balances.Keys == others.balances.Keys by { PostAllSound(others, front); }
    assert pending != [] ==> wallet in mid.balances && mid'.balances[wallet] == mid.balances[wallet];
    assert pending == [] ==> earlier == [] by {
      assert books.entries + earlier <= books.entries + pending by { PostGrows(mid, r); }
    }
    PostFrame(mid, mid', r, books.entries, foreign, earlier, pending);
    assert PostAll(others, script) == Ok((after', PostAll(books, script).value.1));
    if pending != [] {
      FramedBalances(books, others, wallet, mid, mid', after, after', earlier, pending);
    }
  }

  lemma FramedBalances(books: Books, others: Books, wallet: nat, mid: Books, mid': Books,
                       after: Books, after': Books, earlier: seq<Entry>, pending: seq<Entry>)
    requires earlier == [] ==> mid.balances == books.balances && mid'.balances == others.balances
    requires earlier != [] ==> wallet in mid.balances && mid'.balances == others.balances[wallet := mid.balances[wallet]]
    requires pending == earlier ==> after == mid && after' == mid'
    requires pending != earlier ==>
               wallet in after.balances && after'.balances == mid'.balances[wallet := after.balances[wallet]]
    requires pending != []
    ensures wallet in after.balances && after'.balances == others.balances[wallet := after.balances[wallet]]
  {
  }

  /** Entries committed by other transactions do not change what this script does: its hits still
      hit, its inserts still insert, and the balance it works on is protected by the row lock. */
  lemma {:induction false} PostAllFrame(books: Books, others: Books, wallet: nat, script: seq<Request>,
                                        foreign: seq<Entry>, pending: seq<Entry>)
    requires Sound(books) && Sound(others)
    requires others.entries == books.entries + foreign && others.balances.Keys == books.balances.Keys
    requires forall k :: 0 <= k < |script| ==> script[k].wallet == wallet
    requires PostAll(books, script).Ok? && PostAll(books, script).value.0.entries == books.entries + pending
    requires forall i, j :: 0 <= i < |foreign| && 0 <= j < |pending| ==> foreign[i].ref != pending[j].ref
    requires pending != [] ==> wallet in books.balances && others.balances[wallet] == books.balances[wallet]
    ensures Framed(books, others, wallet, script, pending)
  {
    if script == [] {
      assert pending == (books.entries + pending)[|books.entries|..] == [];
    } else {
      var front := script[..|script| - 1];
      var mid := PostAll(books, front).value.0;
      assert books.entries <= mid.entries <= books.entries + pending by {
        PostAllSound(books, front);
        PostGrows(mid, script[|script| - 1]);
      }
      var earlier := SplitAfter(books.entries, mid.entries, pending);
      PostAllFrame(books, others, wallet, front, foreign, earlier);
      FramedStep(books, others, wallet, script, foreign, earlier, pending);
    }
  }

  lemma SplitAfter(base: seq<Entry>, mid: seq<Entry>, pending: seq<Entry>) returns (earlier: seq<Entry>)
    requires base <= mid <= base + pending
    ensures mid == base + earlier && earlier <= pending
  {
    earlier := mid[|base|..];
    assert earlier == (base + pending)[|base|..|mid|] == pending[..|earlier|];
  }

  lemma PostFrameHit(mid: Books, mid': Books, r: Request)
    requires DistinctRefs(mid'.entries) && forall e :: e in mid.entries ==> e in mid'.entries
    requires Recorded(mid.entries, r.ref)
    ensures Post(mid', r) == (mid', Post(mid, r).1) && Post(mid, r).0 == mid
  {
  }

  lemma PostFrameMiss(mid: Books, mid': Books, r: Request)
    requires !Recorded(mid.entries, r.ref) && !Recorded(mid'.entries, r.ref)
    requires r.wallet in mid.balances && r.wallet in mid'.balances
    requires mid'.balances[r.wallet] == mid.balances[r.wallet]
    requires Post(mid, r).1.Ok?
    ensures Post(mid', r).1 == Post(mid, r).1
    ensures Post(mid, r).0.entries == mid.entries + [Post(mid, r).1.value]
    ensures Post(mid', r).0.entries == mid'.entries + [Post(mid, r).1.value]
    ensures r.wallet in Post(mid, r).0.balances
    ensures Post(mid', r).0.balances == mid'.balances[r.wallet := Post(mid, r).0.balances[r.wallet]]
    ensures Post(mid, r).1.value.ref == r.ref
  {
  }

  lemma NotRecordedInserted(base: seq<Entry>, foreign: seq<Entry>, earlier: seq<Entry>, ref: Ref)
    requires !Recorded(base + earlier, ref)
    requires forall i :: 0 <= i < |foreign| ==> foreign[i].ref != ref
    ensures !Recorded(base + foreign + earlier, ref)
  {
    var all := base + foreign + earlier;
    forall i | 0 <= i < |all| ensures all[i].ref != ref {
      if i < |base| {
        assert all[i] == (base + earlier)[i];
      } else if i < |base| + |foreign| {
        assert all[i] == foreign[i - |base|];
      } else {
        assert all[i] == (base + earlier)[i - |foreign|];
      }
    }
  }

  /** One request, framed. */
  lemma PostFrame(mid: Books, mid': Books, r: Request,
                  base: seq<Entry>, foreign: seq<Entry>, earlier: seq<Entry>, pending: seq<Entry>)
    requires Sound(mid) && Sound(mid')
    requires mid.entries == base + earlier && mid'.entries == base + foreign + earlier
    requires mid'.balances.Keys == mid.balances.Keys
    requires Post(mid, r).1.Ok? && Post(mid, r).0.entries == base + pending
    requires forall i, j :: 0 <= i < |foreign| && 0 <= j < |pending| ==> foreign[i].ref != pending[j].ref
    requires pending != earlier ==> r.wallet in mid.balances && mid'.balances[r.wallet] == mid.balances[r.wallet]
    ensures Post(mid', r).1 == Post(mid, r).1
    ensures Post(mid', r).0.entries == base + foreign + pending
    ensures pending == earlier ==> Post(mid', r).0 == mid' && Post(mid, r).0 == mid
    ensures pending != earlier ==>
              && r.wallet in Post(mid, r).0.balances
              && Post(mid', r).0.balances == mid'.balances[r.wallet := Post(mid, r).0.balances[r.wallet]]
  {
    assert pending == (base + pending)[|base|..];
    assert earlier == (base + earlier)[|base|..];
    if Recorded(mid.entries, r.ref) {
      PostFrameHit(mid, mid', r);
    } else {
      PostEffect(mid, r);
      var entry := Post(mid, r).1.value;
      assert base + pending == base + (earlier + [entry]);
      assert pending == (base + (earlier + [entry]))[|base|..] == earlier + [entry];
      assert pending[|earlier|].ref == r.ref;
      NotRecordedInserted(base, foreign, earlier, r.ref);
      PostFrameMiss(mid, mid', r);
    }
  }

  /** What the sequential service would answer to the next request. */
  lemma NextRequest(s: State, p: Process)
    requires p.Live() && InStep(s.books, p) && !p.phase.Writing? && p.done < |p.script|
    ensures PostAll(s.books, p.script[..p.done + 1]) ==
            var (after, result) := Post(Overlay(s.books, p), p.script[p.done]);
            if result.Err? then Err(result.error) else Ok((after, p.results + [result.value]))
  {
    PostAllSnoc(s.books, p.script, p.done);
  }

  lemma LookupStep(s: State, p: Process, missed: Process)
    requires p.Live() && InStep(s.books, p) && !p.phase.Writing? && p.done < |p.script|
    requires p.script[p.done].amount > 0 && !p.script[p.done].kind.UnknownType?
    requires Find(Visible(s, p), p.script[p.done].ref).Some?
    ensures InStep(s.books, AfterLookup(s, p, missed))
    ensures forall error :: AfterLookup(s, p, missed).phase == RolledBack(Some(error)) ==>
              PostAll(s.books, p.script[..p.done + 1]) == Err(error)
  {
    NextRequest(s, p);
    assert Overlay(s.books, p).entries == Visible(s, p);
    var p' := AfterLookup(s, p, missed);
    if p'.Live() {
      assert Overlay(s.books, p') == Overlay(s.books, p);
    }
  }

  lemma InsertStep(s: State, pid: nat, p: Process)
    requires p.Live() && InStep(s.books, p) && p.phase.Inserting? && DoInsert(s, pid, p).phase.Writing?
    ensures InStep(s.books, DoInsert(s, pid, p))
  {
    hide Sound, RefFree, PostAll;
    var r, p' := p.script[p.done], DoInsert(s, pid, p);
    var entry := p'.pending[|p.pending|];
    NextRequest(s, p);
    NotVisible(s, p, r.ref);
    assert Overlay(s.books, p').entries == Overlay(s.books, p).entries + [entry];
    assert Overlay(s.books, p').balances == Overlay(s.books, p).balances[p.wallet := entry.balanceAfter];
  }

  lemma AcquireStep(s: State, pid: nat, p: Process)
    requires p.Live() && InStep(s.books, p)
    ensures InStep(s.books, DoAcquire(s, pid, p))
  {
    var p' := DoAcquire(s, pid, p);
    if p'.Live() && p'.holds && !p.holds {
      assert s.books.balances[p.wallet := s.books.balances[p.wallet]] == s.books.balances;
      assert Overlay(s.books, p') == Overlay(s.books, p);
    }
  }

  lemma FastReadStep(s: State, p: Process)
    requires p.Live() && InStep(s.books, p) && p.done < |p.script|
    ensures InStep(s.books, DoFastRead(s, p))
  {
    var r := p.script[p.done];
    if p.phase.Ready? && r.amount > 0 && !r.kind.UnknownType? {
      if Find(Visible(s, p), r.ref).Some? {
        LookupStep(s, p, p.(phase := Locking));
      } else {
        assert Overlay(s.books, p.(phase := Locking)) == Overlay(s.books, p);
      }
    }
  }

  lemma RecheckStep(s: State, p: Process)
    requires p.Live() && InStep(s.books, p) && p.done < |p.script|
    ensures InStep(s.books, DoRecheck(s, p))
  {
    var r := p.script[p.done];
    if p.phase.Rechecking? {
      if Find(Visible(s, p), r.ref).Some? {
        LookupStep(s, p, if r.side == Debiting && p.balance < r.amount then p.Fail(Some(InsufficientBalance))
                         else p.(phase := Inserting));
      } else {
        PendingVisible(s, p, r.ref);
        assert Overlay(s.books, p.(phase := Inserting)) == Overlay(s.books, p);
      }
    }
  }

  lemma WriteStep(s: State, p: Process)
    requires p.Live() && InStep(s.books, p) && p.phase.Writing?
    ensures InStep(s.books, DoWrite(p))
  {
  }

  /** The stepping process stays in step with the sequential service. */
  lemma OwnStep(s: State, pid: nat, a: Action)
    requires Inv(s) && pid in s.procs && !Commits(s, pid, a)
    ensures InStep(s.books, Advance(s, pid, a))
  {
    var p := s.procs[pid];
    assert InStep(s.books, p);
    if p.Live() {
      match a
      case Abort =>
      case Commit =>
      case Acquire => AcquireStep(s, pid, p);
      case Insert => if p.phase.Inserting? && DoInsert(s, pid, p).phase.Writing? { InsertStep(s, pid, p); }
      case Write => if p.phase.Writing? { WriteStep(s, p); }
      case FastRead => if p.done < |p.script| { FastReadStep(s, p); }
      case Recheck => if p.done < |p.script| { RecheckStep(s, p); }
    }
  }

  lemma NotVisible(s: State, p: Process, ref: Ref)
    requires !Recorded(s.books.entries, ref) && !Recorded(p.pending, ref)
    ensures !Recorded(Visible(s, p), ref)
  {
  }

  lemma PendingVisible(s: State, p: Process, ref: Ref)
    requires !Recorded(Visible(s, p), ref)
    ensures !Recorded(p.pending, ref)
  {
    assert forall i :: 0 <= i < |p.pending| ==> p.pending[i] == Visible(s, p)[|s.books.entries| + i];
  }

  /** A commit installs exactly what the sequential service would have done to the books as they
      are at that moment. */
  lemma CommitIsSequential(s: State, pid: nat)
    requires Inv(s) && Commits(s, pid, Commit)
    ensures PostAll(s.books, s.procs[pid].script) == Ok((Perform(s, pid, Commit).books, s.procs[pid].results))
    ensures Sound(Perform(s, pid, Commit).books)
  {
    var p := s.procs[pid];
    assert p.script[..Finished(p)] == p.script;
    assert InStep(s.books, p);
    if !p.holds {
      assert s.books.entries + p.pending == s.books.entries;
    }
    PostAllSound(s.books, p.script);
  }

  /** A commit by one process leaves every other in step. */
  lemma OtherStep(s: State, pid: nat, q: nat)
    requires Inv(s) && Commits(s, pid, Commit) && q in s.procs && q != pid
    ensures InStep(Perform(s, pid, Commit).books, s.procs[q])
  {
    var p, other := s.procs[pid], s.procs[q];
    assert InStep(s.books, other);
    if other.Live() && p.holds {
      var after := Perform(s, pid, Commit).books;
      CommitIsSequential(s, pid);
      assert after.balances.Keys == s.books.balances.Keys by { assert InStep(s.books, p); }
      assert Disjoint(p, other);
      PostAllFrame(s.books, after, other.wallet, other.script[..Finished(other)], p.pending, other.pending);
      FramedInStep(s.books, after, other);
    }
  }

  lemma FramedInStep(books: Books, after: Books, p: Process)
    requires p.Live() && InStep(books, p) && after.balances.Keys == books.balances.Keys
    requires Framed(books, after, p.wallet, p.script[..Finished(p)], p.pending)
    requires p.holds ==> p.wallet in books.balances && after.balances[p.wallet] == books.balances[p.wallet]
    ensures InStep(after, p)
  {
    var seen := Overlay(books, p);
    if p.holds && p.pending == [] {
      assert seen.balances == books.balances && seen.balances[p.wallet] == EffectiveBalance(p);
    }
    assert Overlay(after, p).balances == PostAll(after, p.script[..Finished(p)]).value.0.balances;
  }

  /** All that a step may change of what other processes depend on. */
  ghost predicate Isolated(s: State, pid: nat, p: Process, p': Process)
  {
    && p'.wallet == p.wallet
    && (!p'.Live() ==> (!p.Live() && p' == p) || (!p'.holds && p'.pending == []))
    && (p'.holds ==> p.holds || LockFree(s, pid, p.wallet))
    && (p'.pending == p.pending || p'.pending == []
        || exists e :: p'.pending == p.pending + [e] && RefFree(s, pid, e.ref))
  }

  lemma AdvanceIsolated(s: State, pid: nat, a: Action)
    requires pid in s.procs
    ensures Isolated(s, pid, s.procs[pid], Advance(s, pid, a))
  {
  }

  lemma IsolatedDisjoint(s: State, pid: nat, p': Process, q: nat)
    requires pid in s.procs && q in s.procs && q != pid
    requires Disjoint(s.procs[pid], s.procs[q]) && Isolated(s, pid, s.procs[pid], p')
    ensures Disjoint(p', s.procs[q]) && Disjoint(s.procs[q], p')
  {
  }

  lemma StaysDisjoint(s: State, pid: nat, a: Action, q: nat)
    requires Inv(s) && pid in s.procs && q in s.procs && q != pid
    ensures Disjoint(Advance(s, pid, a), s.procs[q]) && Disjoint(s.procs[q], Advance(s, pid, a))
  {
    AdvanceIsolated(s, pid, a);
    assert Disjoint(s.procs[pid], s.procs[q]);
    IsolatedDisjoint(s, pid, Advance(s, pid, a), q);
  }

  lemma StepInStep(s: State, pid: nat, a: Action, q: nat)
    requires Inv(s) && pid in s.procs && q in s.procs
    ensures InStep(Perform(s, pid, a).books, Perform(s, pid, a).procs[q])
    ensures Sound(Perform(s, pid, a).books)
  {
    if Commits(s, pid, a) {
      CommitIsSequential(s, pid);
      if q != pid { OtherStep(s, pid, q); }
    } else if q == pid {
      OwnStep(s, pid, a);
    } else {
      assert InStep(s.books, s.procs[q]);
    }
  }

  lemma StepDisjoint(s: State, pid: nat, a: Action, p: nat, q: nat)
    requires Inv(s) && pid in s.procs && p in s.procs && q in s.procs && p != q
    ensures Disjoint(Perform(s, pid, a).procs[p], Perform(s, pid, a).procs[q])
  {
    if p == pid {
      StaysDisjoint(s, pid, a, q);
    } else if q == pid {
      StaysDisjoint(s, pid, a, p);
    } else {
      assert Disjoint(s.procs[p], s.procs[q]);
    }
  }

  /** Every step of every process keeps the invariant. */
  lemma StepInv(s: State, pid: nat, a: Action)
    requires Inv(s)
    ensures Inv(Perform(s, pid, a))
  {
    if pid in s.procs {
      var s' := Perform(s, pid, a);
      AdvanceIsolated(s, pid, a);
      StepInStep(s, pid, a, pid);
      forall q | q in s'.procs ensures InStep(s'.books, s'.procs[q]) {
        StepInStep(s, pid, a, q);
      }
      forall p, q | p in s'.procs && q in s'.procs && p != q ensures Disjoint(s'.procs[p], s'.procs[q]) {
        StepDisjoint(s, pid, a, p, q);
      }
    }
  }

  lemma InitInv(s: State)
    requires Init(s)
    ensures Inv(s)
  {
    forall pid | pid in s.procs ensures InStep(s.books, s.procs[pid]) {
      var p := s.procs[pid];
      assert s.books.entries + p.pending == s.books.entries;
    }
  }

  // ---- The theorems ----

  /** In every reachable state of every interleaving the ledger invariant holds: balances equal
      the sum of their entries, running balances are prefix sums, nothing is negative and no
      reference is recorded twice. */
  lemma {:induction false} EveryRunIsSound(s: State, schedule: seq<(nat, Action)>)
    requires Init(s)
    ensures Inv(Run(s, schedule)) && Sound(Run(s, schedule).books)
  {
    if schedule == [] {
      InitInv(s);
    } else {
      EveryRunIsSound(s, schedule[..|schedule| - 1]);
      StepInv(Run(s, schedule[..|schedule| - 1]), schedule[|schedule| - 1].0, schedule[|schedule| - 1].1);
    }
  }

  /** The scripts committed by a schedule, in commit order. */
  ghost function CommitOrder(s: State, schedule: seq<(nat, Action)>): seq<seq<Request>>
  {
    if schedule == [] then []
    else
      var before := Run(s, schedule[..|schedule| - 1]);
      var (pid, a) := schedule[|schedule| - 1];
      CommitOrder(s, schedule[..|schedule| - 1]) + if Commits(before, pid, a) then [before.procs[pid].script] else []
  }

  /** Runs whole transactions one after the other. */
  function Serial(books: Books, scripts: seq<seq<Request>>): Result<Books, LedgerError>
  {
    if scripts == [] then Ok(books)
    else match Serial(books, scripts[..|scripts| - 1])
      case Err(e) => Err(e)
      case Ok(mid) =>
        match PostAll(mid, scripts[|scripts| - 1])
        case Err(e) => Err(e)
        case Ok((after, _)) => Ok(after)
  }

  /** Every interleaving is equivalent to running its committed transactions one at a time, in
      commit order, with the sequential service. */
  lemma {:induction false} Serializable(s: State, schedule: seq<(nat, Action)>)
    requires Init(s)
    ensures Serial(s.books, CommitOrder(s, schedule)) == Ok(Run(s, schedule).books)
  {
    if schedule != [] {
      var front := schedule[..|schedule| - 1];
      var before := Run(s, front);
      var (pid, a) := schedule[|schedule| - 1];
      Serializable(s, front);
      if Commits(before, pid, a) {
        EveryRunIsSound(s, front);
        CommitIsSequential(before, pid);
        var scripts := CommitOrder(s, schedule);
        assert scripts[..|scripts| - 1] == CommitOrder(s, front);
      } else {
        assert CommitOrder(s, schedule) == CommitOrder(s, front);
      }
    }
  }

  lemma LookupFailure(s: State, p: Process, a: Action, error: LedgerError)
    requires p.Live() && InStep(s.books, p) && p.done < |p.script|
    requires a == FastRead || a == Recheck
    requires (if a == FastRead then DoFastRead(s, p) else DoRecheck(s, p)).phase == RolledBack(Some(error))
    ensures PostAll(s.books, p.script[..p.done + 1]) == Err(error)
  {
    var r := p.script[p.done];
    NextRequest(s, p);
    if r.amount > 0 && !r.kind.UnknownType? {
      if Find(Visible(s, p), r.ref).Some? {
        LookupStep(s, p, p);
        assert AfterLookup(s, p, p).phase == RolledBack(Some(error));
      } else {
        assert Overlay(s.books, p).balances[p.wallet] == p.balance;
      }
    }
  }

  /** Apart from a missing wallet, only a look-up refuses. */
  lemma RefusalIsLookup(s: State, pid: nat, a: Action, error: LedgerError)
    requires pid in s.procs && s.procs[pid].Live() && error != NoSuchWallet
    requires Advance(s, pid, a).phase == RolledBack(Some(error))
    ensures var p := s.procs[pid];
            && p.done < |p.script| && (a == FastRead || a == Recheck)
            && (if a == FastRead then DoFastRead(s, p) else DoRecheck(s, p)).phase == RolledBack(Some(error))
  {
    hide AfterLookup, Find, PostAll;
  }

  /** A process is refused by the service only if the sequential service, from the books committed
      at that moment, refuses with that same error. (A wallet row never disappears, so the missing
      wallet is set aside.) */
  lemma FailureIsSequential(s: State, pid: nat, a: Action, error: LedgerError)
    requires Inv(s) && pid in s.procs && s.procs[pid].Live() && error != NoSuchWallet
    ensures Advance(s, pid, a).phase == RolledBack(Some(error)) ==>
              && s.procs[pid].done < |s.procs[pid].script|
              && PostAll(s.books, s.procs[pid].script[..s.procs[pid].done + 1]) == Err(error)
  {
    hide Advance, InStep, PostAll, DoFastRead, DoRecheck, Sound, Disjoint;
    if Advance(s, pid, a).phase == RolledBack(Some(error)) {
      assert InStep(s.books, s.procs[pid]);
      RefusalIsLookup(s, pid, a, error);
      LookupFailure(s, s.procs[pid], a, error);
    }
  }

  lemma {:induction false} ReplayChangesNothing(books: Books, script: seq<Request>)
    requires Sound(books) && PostAll(books, script).Ok?
    requires forall k :: 0 <= k < |script| ==> Recorded(books.entries, script[k].ref)
    ensures PostAll(books, script).value.0 == books
  {
    if script != [] {
      ReplayChangesNothing(books, script[..|script| - 1]);
      PostEffect(books, script[|script| - 1]);
    }
  }

  /** Once its references are recorded, a transaction replayed by any process, anywhere in a run,
      changes nothing. */
  lemma ReplayedProcessChangesNothing(s: State, pid: nat, a: Action)
    requires Inv(s) && pid in s.procs
    requires forall k :: 0 <= k < |s.procs[pid].script| ==> Recorded(s.books.entries, s.procs[pid].script[k].ref)
    ensures Perform(s, pid, a).books == s.books
  {
    if Commits(s, pid, a) {
      CommitIsSequential(s, pid);
      ReplayChangesNothing(s.books, s.procs[pid].script);
    }
  }

  /** Committed entries are never changed or removed. */
  lemma {:induction false} AppendOnly(s: State, earlier: seq<(nat, Action)>, later: seq<(nat, Action)>)
    requires Init(s)
    ensures Run(s, earlier).books.entries <= Run(s, earlier + later).books.entries
  {
    if later == [] {
      assert earlier + later == earlier;
    } else {
      var front := later[..|later| - 1];
      assert (earlier + later)[..|earlier + later| - 1] == earlier + front;
      AppendOnly(s, earlier, front);
    }
  }

  // ---- Progress ----

  /** Nobody else holds the wallet of process `pid`, or has an uncommitted entry under one of its
      references. */
  ghost predicate Unobstructed(s: State, pid: nat)
    requires pid in s.procs
  {
    var p := s.procs[pid];
    LockFree(s, pid, p.wallet) && forall k :: 0 <= k < |p.script| ==> RefFree(s, pid, p.script[k].ref)
  }

  /** A transaction that has just begun. */
  ghost predicate Begun(p: Process)
  {
    p.phase.Ready? && p.done == 0 && !p.holds
  }

  /** The steps of one request. */
  function Turn(pid: nat): seq<(nat, Action)>
  {
    [(pid, FastRead), (pid, Acquire), (pid, Recheck), (pid, Insert), (pid, Write)]
  }

  function Turns(pid: nat, n: nat): seq<(nat, Action)>
  {
    if n == 0 then [] else Turns(pid, n - 1) + Turn(pid)
  }

  lemma {:induction false} RunConcat(s: State, first: seq<(nat, Action)>, second: seq<(nat, Action)>)
    ensures Run(s, first + second) == Run(Run(s, first), second)
  {
    if second == [] {
      assert first + second == first;
    } else {
      var front := second[..|second| - 1];
      assert (first + second)[..|first + second| - 1] == first + front;
      RunConcat(s, first, front);
    }
  }

  lemma {:induction false} RunInv(s: State, schedule: seq<(nat, Action)>)
    requires Inv(s)
    ensures Inv(Run(s, schedule))
  {
    if schedule != [] {
      RunInv(s, schedule[..|schedule| - 1]);
      StepInv(Run(s, schedule[..|schedule| - 1]), schedule[|schedule| - 1].0, schedule[|schedule| - 1].1);
    }
  }

  /** Process `pid` of `s` replaced. */
  function With(s: State, pid: nat, p: Process): State
  {
    State(s.books, s.procs[pid := p])
  }

  /** What the others allow does not depend on the process itself. */
  lemma SameOthers(s: State, pid: nat, p: Process)
    requires pid in s.procs
    ensures forall wallet :: LockFree(With(s, pid, p), pid, wallet) <==> LockFree(s, pid, wallet)
    ensures forall ref :: RefFree(With(s, pid, p), pid, ref) <==> RefFree(s, pid, ref)
  {
    var t := With(s, pid, p);
    assert forall q :: q != pid ==> (q in t.procs <==> q in s.procs) && (q in s.procs ==> t.procs[q] == s.procs[q]);
    forall wallet ensures LockFree(t, pid, wallet) <==> LockFree(s, pid, wallet) {
    }
    forall ref ensures RefFree(t, pid, ref) <==> RefFree(s, pid, ref) {
    }
  }

  lemma OwnMove(s: State, pid: nat, p: Process, a: Action)
    requires pid in s.procs && a != Commit
    ensures Perform(With(s, pid, p), pid, a) == With(s, pid, Advance(With(s, pid, p), pid, a))
  {
    hide Advance;
  }

  lemma RunSnoc(s: State, schedule: seq<(nat, Action)>, pid: nat, a: Action)
    ensures Run(s, schedule + [(pid, a)]) == Perform(Run(s, schedule), pid, a)
  {
    hide Perform;
    assert (schedule + [(pid, a)])[..|schedule|] == schedule;
  }

  /** The process after the five steps of a turn, if nobody else moves. */
  ghost function AfterTurn(s: State, pid: nat): Process
    requires pid in s.procs
  {
    var p1 := Advance(s, pid, FastRead);
    var p2 := Advance(With(s, pid, p1), pid, Acquire);
    var p3 := Advance(With(s, pid, p2), pid, Recheck);
    var p4 := Advance(With(s, pid, p3), pid, Insert);
    Advance(With(s, pid, p4), pid, Write)
  }

  lemma RunTurn(s: State, pid: nat)
    ensures Run(s, Turn(pid))
            == Perform(Perform(Perform(Perform(Perform(s, pid, FastRead), pid, Acquire), pid, Recheck), pid, Insert), pid, Write)
  {
    hide Perform, Run;
    var r1, r2 := [(pid, FastRead)], [(pid, FastRead), (pid, Acquire)];
    var r3, r4 := r2 + [(pid, Recheck)], r2 + [(pid, Recheck)] + [(pid, Insert)];
    assert [] + [(pid, FastRead)] == r1 && r1 + [(pid, Acquire)] == r2 && r4 + [(pid, Write)] == Turn(pid);
    NoStep(s);
    RunSnoc(s, [], pid, FastRead);
    RunSnoc(s, r1, pid, Acquire);
    RunSnoc(s, r2, pid, Recheck);
    RunSnoc(s, r3, pid, Insert);
    RunSnoc(s, r4, pid, Write);
  }

  lemma TurnRun(s: State, pid: nat)
    requires pid in s.procs
    ensures Run(s, Turn(pid)) == With(s, pid, AfterTurn(s, pid))
  {
    hide Advance, Perform, Run, Turn;
    RunTurn(s, pid);
    assert With(s, pid, s.procs[pid]) == s;
    var p1 := Advance(s, pid, FastRead);
    var p2 := Advance(With(s, pid, p1), pid, Acquire);
    var p3 := Advance(With(s, pid, p2), pid, Recheck);
    var p4 := Advance(With(s, pid, p3), pid, Insert);
    OwnMove(s, pid, s.procs[pid], FastRead);
    OwnMove(s, pid, p1, Acquire);
    OwnMove(s, pid, p2, Recheck);
    OwnMove(s, pid, p3, Insert);
    OwnMove(s, pid, p4, Write);
  }

  lemma NoStep(s: State)
    ensures Run(s, []) == s
  {
  }

  /** A request whose reference is recorded returns in one step, without the lock. */
  lemma ReplayIsFast(s: State, pid: nat)
    requires Inv(s) && pid in s.procs && s.procs[pid].phase.Ready? && s.procs[pid].done < |s.procs[pid].script|
    ensures var p, r := s.procs[pid], s.procs[pid].script[s.procs[pid].done];
            Recorded(Visible(s, p), r.ref) && Post(Overlay(s.books, p), r).1.Ok? ==>
              Advance(s, pid, FastRead) == p.Return(Post(Overlay(s.books, p), r).1.value)
  {
    hide Find, Sound;
    var p := s.procs[pid];
    assert Overlay(s.books, p).entries == Visible(s, p);
  }

  /** Between requests, and once rolled back, a process ignores the steps inside a request. */
  lemma Idles(s: State, pid: nat, p: Process, a: Action)
    requires pid in s.procs && (p.phase.Ready? || !p.Live()) && (a == Acquire || a == Recheck || a == Insert || a == Write)
    ensures Advance(With(s, pid, p), pid, a) == p
  {
  }

  /** The first look-up decides, except for a new reference that is well-formed. */
  lemma FastReadIff(s: State, pid: nat)
    requires Inv(s) && pid in s.procs && s.procs[pid].phase.Ready? && s.procs[pid].done < |s.procs[pid].script|
    ensures var p, r, p1 := s.procs[pid], s.procs[pid].script[s.procs[pid].done], Advance(s, pid, FastRead);
            var result := Post(Overlay(s.books, p), r).1;
            if r.amount > 0 && !r.kind.UnknownType? && !Recorded(Visible(s, p), r.ref) then p1 == p.(phase := Locking)
            else if result.Ok? then p1 == p.Return(result.value)
            else p1 == p.Fail(Some(result.error))
  {
    hide Sound, PostAll;
    var p := s.procs[pid];
    assert Overlay(s.books, p).entries == Visible(s, p);
  }

  /** The rest of the turn for a new reference: lock, look again, insert, write. */
  lemma NewRequestIff(s: State, pid: nat, p: Process)
    requires pid in s.procs && p.phase.Locking? && p.done < |p.script| && Shaped(s.books, p)
    requires p.script[p.done].wallet == p.wallet && !Recorded(Visible(s, p), p.script[p.done].ref)
    requires LockFree(s, pid, p.wallet) && RefFree(s, pid, p.script[p.done].ref)
    ensures var r := p.script[p.done];
            var p2 := Advance(With(s, pid, p), pid, Acquire);
            var p3 := Advance(With(s, pid, p2), pid, Recheck);
            var p4 := Advance(With(s, pid, p3), pid, Insert);
            var p5 := Advance(With(s, pid, p4), pid, Write);
            && p5.script == p.script && p5.wallet == p.wallet
            && match Post(Overlay(s.books, p), r).1
               case Ok(_) => p5.phase.Ready? && p5.done == p.done + 1
               case Err(e) => p5.phase == RolledBack(Some(e))
  {
    hide Sound, PostAll, LockFree, RefFree;
    var r := p.script[p.done];
    assert Overlay(s.books, p).entries == Visible(s, p);
    var p2 := Advance(With(s, pid, p), pid, Acquire);
    SameOthers(s, pid, p);
    var p3 := Advance(With(s, pid, p2), pid, Recheck);
    if p.wallet !in s.books.balances {
      assert p2 == p.Fail(Some(NoSuchWallet));
    } else {
      var balance := if p.holds then p.balance else s.books.balances[p.wallet];
      assert p2 == p.(phase := Rechecking, holds := true, balance := balance);
      assert Visible(With(s, pid, p2), p2) == Visible(s, p);
      assert Overlay(s.books, p).balances[p.wallet] == balance;
      SameOthers(s, pid, p3);
      NotCommitted(s, p, r.ref);
    }
  }

  lemma NotCommitted(s: State, p: Process, ref: Ref)
    requires !Recorded(Visible(s, p), ref)
    ensures !Recorded(s.books.entries, ref)
  {
    assert forall i :: 0 <= i < |s.books.entries| ==> s.books.entries[i] == Visible(s, p)[i];
  }

  /** A turn that nobody obstructs comes to what the sequential service answers. */
  lemma TurnIff(s: State, pid: nat)
    requires Inv(s) && pid in s.procs && s.procs[pid].phase.Ready? && s.procs[pid].done < |s.procs[pid].script|
    requires Unobstructed(s, pid)
    ensures var p, p' := s.procs[pid], AfterTurn(s, pid);
            && p'.wallet == p.wallet && p'.script == p.script
            && match Post(Overlay(s.books, p), p.script[p.done]).1
               case Ok(_) => p'.phase.Ready? && p'.done == p.done + 1
               case Err(e) => p'.phase == RolledBack(Some(e))
  {
    hide Sound, PostAll, Disjoint, Advance, Post, Find, LockFree, RefFree, Recorded;
    var p := s.procs[pid];
    assert InStep(s.books, p);
    FastReadIff(s, pid);
    var p1 := Advance(s, pid, FastRead);
    if p1.phase.Locking? {
      NewRequestIff(s, pid, p1);
    } else {
      Idles(s, pid, p1, Acquire);
      Idles(s, pid, p1, Recheck);
      Idles(s, pid, p1, Insert);
      Idles(s, pid, p1, Write);
    }
  }

  /** After `n` unobstructed turns the transaction has done what the sequential service does with its
      first `n` requests, or is rolled back with that service's error. */
  lemma {:induction false} TurnsIff(s: State, pid: nat, n: nat)
    requires Inv(s) && pid in s.procs && Begun(s.procs[pid]) && Unobstructed(s, pid) && n <= |s.procs[pid].script|
    ensures var p, t := s.procs[pid], Run(s, Turns(pid, n));
            && pid in t.procs && t == With(s, pid, t.procs[pid])
            && t.procs[pid].wallet == p.wallet && t.procs[pid].script == p.script
            && match PostAll(s.books, p.script[..n])
               case Ok(_) => t.procs[pid].phase.Ready? && t.procs[pid].done == n
               case Err(e) => t.procs[pid].phase == RolledBack(Some(e))
  {
    hide Inv, Advance, AfterTurn, Post, LockFree, RefFree, Run, Turn, Overlay;
    if n == 0 {
      NoStep(s);
    } else {
      TurnsIff(s, pid, n - 1);
      var mid, p := Run(s, Turns(pid, n - 1)), s.procs[pid];
      RunConcat(s, Turns(pid, n - 1), Turn(pid));
      RunInv(s, Turns(pid, n - 1));
      TurnRun(mid, pid);
      PostAllSnoc(s.books, p.script, n - 1);
      SameOthers(s, pid, mid.procs[pid]);
      if mid.procs[pid].phase.Ready? {
        ReadyInStep(mid, pid);
        TurnIff(mid, pid);
      } else {
        StaysBack(mid, pid);
      }
    }
  }

  lemma ReadyInStep(s: State, pid: nat)
    requires Inv(s) && pid in s.procs && s.procs[pid].phase.Ready?
    ensures var p := s.procs[pid];
            p.done <= |p.script| && PostAll(s.books, p.script[..p.done]) == Ok((Overlay(s.books, p), p.results))
  {
    hide Sound, Disjoint, PostAll;
    assert InStep(s.books, s.procs[pid]);
  }

  lemma StaysBack(s: State, pid: nat)
    requires pid in s.procs && !s.procs[pid].Live()
    ensures AfterTurn(s, pid) == s.procs[pid]
  {
    var p := s.procs[pid];
    assert With(s, pid, p) == s;
    Idles(s, pid, p, Acquire);
    Idles(s, pid, p, Recheck);
    Idles(s, pid, p, Insert);
    Idles(s, pid, p, Write);
  }

  /** Progress: from any reachable state a transaction that nobody obstructs, given its turns and its
      commit, commits exactly when the sequential service accepts its script, with that service's books
      and results; otherwise it is rolled back with that service's error. */
  lemma UnobstructedIff(s: State, pid: nat)
    requires Inv(s) && pid in s.procs && Begun(s.procs[pid]) && Unobstructed(s, pid)
    ensures var script, t := s.procs[pid].script, Run(s, Turns(pid, |s.procs[pid].script|) + [(pid, Commit)]);
            && pid in t.procs && t.procs == s.procs[pid := t.procs[pid]]
            && match PostAll(s.books, script)
               case Ok((books, results)) =>
                 t.procs[pid].phase.Committed? && t.books == books && t.procs[pid].results == results
               case Err(e) => t.procs[pid].phase == RolledBack(Some(e)) && t.books == s.books
  {
    hide Sound, Disjoint, AfterTurn, Post, LockFree, RefFree, Run, Turns, InStep;
    var p := s.procs[pid];
    var turns := Turns(pid, |p.script|);
    TurnsIff(s, pid, |p.script|);
    assert p.script[..|p.script|] == p.script;
    RunInv(s, turns);
    RunSnoc(s, turns, pid, Commit);
    var mid := Run(s, turns);
    if mid.procs[pid].phase.Ready? {
      CommitIsSequential(mid, pid);
    }
  }

  /** A transaction is rolled back without an answer exactly by its own abort, or by an insert whose
      reference has been committed since it looked. */
  lemma RolledBackSilentlyIff(s: State, pid: nat, a: Action)
    requires pid in s.procs && s.procs[pid].Live()
    ensures var p := s.procs[pid];
            Advance(s, pid, a).phase == RolledBack(None) <==>
              || a == Abort
              || (a == Insert && p.phase.Inserting? && p.done < |p.script|
                  && Recorded(s.books.entries, p.script[p.done].ref))
  {
    hide Find;
  }
}
