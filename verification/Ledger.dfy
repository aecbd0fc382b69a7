/** The wallet service: an append-only ledger with a cached balance per wallet. */
module Ledger {
  import opened Prelude
  import opened Keys

  datatype EntryType = TOPUP | PURCHASE | RENEWAL | REFUND | ADJUSTMENT | BONUS | UnknownType(text: string)

  /** An immutable ledger row; a debit carries a negative amount. */
  datatype Entry = Entry(wallet: nat, kind: EntryType, amount: int, balanceAfter: int, ref: Ref)

  datatype Side = Crediting | Debiting

  /** One call of `credit` or `debit`. */
  datatype Request = Request(wallet: nat, side: Side, amount: int, kind: EntryType, ref: Ref)
  {
    function Signed(): int { if side == Crediting then amount else -amount }
  }

  datatype LedgerError =
    | NonPositiveAmount | InvalidType | NoSuchWallet | InsufficientBalance
    | WalletMismatch | TypeMismatch | DirectionMismatch

  datatype Books = Books(balances: map<nat, int>, entries: seq<Entry>)

  predicate Recorded(entries: seq<Entry>, ref: Ref)
  {
    exists i :: 0 <= i < |entries| && entries[i].ref == ref
  }

  function Find(entries: seq<Entry>, ref: Ref): (found: Option<Entry>)
    ensures found.Some? <==> Recorded(entries, ref)
    ensures found.Some? ==> found.value in entries && found.value.ref == ref
  {
    if entries == [] then None
    else if entries[0].ref == ref then assert entries[0] in entries; Some(entries[0])
    else
      var found := Find(entries[1..], ref);
      assert forall i :: 1 <= i < |entries| ==> entries[i] == entries[1..][i - 1];
      found
  }

  /** A reused reference must name the same wallet, type and direction. */
  function CheckMatch(existing: Entry, r: Request): Result<Entry, LedgerError>
  {
    if existing.wallet != r.wallet then Err(WalletMismatch)
    else if existing.kind != r.kind then Err(TypeMismatch)
    else if (existing.amount > 0) != (r.side == Crediting) then Err(DirectionMismatch)
    else Ok(existing)
  }

  /** Executes one request, undisturbed by others. */
  function Post(books: Books, r: Request): (Books, Result<Entry, LedgerError>)
  {
    if r.amount <= 0 then (books, Err(NonPositiveAmount))
    else if r.kind.UnknownType? then (books, Err(InvalidType))
    else match Find(books.entries, r.ref)
      case Some(existing) => (books, CheckMatch(existing, r))
      case None =>
        if r.wallet !in books.balances then (books, Err(NoSuchWallet))
        else if r.side == Debiting && books.balances[r.wallet] < r.amount then (books, Err(InsufficientBalance))
        else
          var entry := Entry(r.wallet, r.kind, r.Signed(), books.balances[r.wallet] + r.Signed(), r.ref);
          (Books(books.balances[r.wallet := entry.balanceAfter], books.entries + [entry]), Ok(entry))
  }

  /** Executes the requests of one transaction; the first error rolls everything back. */
  function PostAll(books: Books, script: seq<Request>): Result<(Books, seq<Entry>), LedgerError>
  {
    if script == [] then Ok((books, []))
    else match PostAll(books, script[..|script| - 1])
      case Err(e) => Err(e)
      case Ok((mid, entries)) =>
        var (after, result) := Post(mid, script[|script| - 1]);
        if result.Err? then Err(result.error) else Ok((after, entries + [result.value]))
  }

  // ---- What the ledger promises ----

  function AmountIn(wallet: nat): Entry -> int
  {
    (e: Entry) => if e.wallet == wallet then e.amount else 0
  }

  ghost predicate DistinctRefs(entries: seq<Entry>)
  {
    forall i, j :: 0 <= i < j < |entries| ==> entries[i].ref != entries[j].ref
  }

  /** The running balance printed on entry `i` is the sum of the wallet's entries so far. */
  ghost predicate RunningBalance(entries: seq<Entry>, i: nat)
    requires i < |entries|
  {
    entries[i].amount != 0 && entries[i].balanceAfter >= 0
    && entries[i].balanceAfter == Sum(entries[..i + 1], AmountIn(entries[i].wallet))
  }

  ghost predicate Sound(books: Books)
  {
    && (forall w :: w in books.balances ==>
          books.balances[w] >= 0 && books.balances[w] == Sum(books.entries, AmountIn(w)))
    && (forall i :: 0 <= i < |books.entries| ==>
          books.entries[i].wallet in books.balances && RunningBalance(books.entries, i))
    && DistinctRefs(books.entries)
  }

  /** The ledger invariant survives every request. */
  lemma PostSound(books: Books, r: Request)
    requires Sound(books)
    ensures Sound(Post(books, r).0)
  {
    var after := Post(books, r).0;
    if after != books {
      var entry := after.entries[|books.entries|];
      forall w | w in after.balances
        ensures after.balances[w] >= 0 && after.balances[w] == Sum(after.entries, AmountIn(w))
      {
        SumAppend(books.entries, entry, AmountIn(w));
      }
      forall i | 0 <= i < |after.entries|
        ensures after.entries[i].wallet in after.balances && RunningBalance(after.entries, i)
      {
        if i < |books.entries| {
          assert RunningBalance(books.entries, i);
          assert after.entries[..i + 1] == books.entries[..i + 1];
        } else {
          assert after.entries[..i + 1] == after.entries;
        }
      }
    }
  }

  /** Whether an earlier entry under the same reference records the same kind of movement. */
  ghost predicate Agrees(books: Books, r: Request)
  {
    forall e :: e in books.entries && e.ref == r.ref ==>
      e.wallet == r.wallet && e.kind == r.kind && (e.amount > 0 <==> r.side == Crediting)
  }

  lemma FoundIs(entries: seq<Entry>, e: Entry)
    requires DistinctRefs(entries) && e in entries
    ensures Find(entries, e.ref) == Some(e)
  {
    assert forall d :: d in entries && d.ref == e.ref ==> d == e;
  }

  /** Exactly when a request succeeds, and exactly what it then does to the books:
      a first use appends one entry and moves one balance by the signed amount; a replay and
      every failure change nothing. */
  lemma PostEffect(books: Books, r: Request)
    requires Sound(books)
    ensures Post(books, r).1.Ok? <==>
              && r.amount > 0 && !r.kind.UnknownType?
              && Agrees(books, r)
              && (!Recorded(books.entries, r.ref) ==>
                    r.wallet in books.balances && (r.side == Debiting ==> r.amount <= books.balances[r.wallet]))
    ensures Post(books, r).1 == Err(InsufficientBalance) <==>
              && r.amount > 0 && !r.kind.UnknownType? && !Recorded(books.entries, r.ref)
              && r.wallet in books.balances && r.side == Debiting && books.balances[r.wallet] < r.amount
    ensures Post(books, r).1.Err? || Recorded(books.entries, r.ref) ==> Post(books, r).0 == books
    ensures Post(books, r).1.Ok? && Recorded(books.entries, r.ref) ==> Post(books, r).1.value in books.entries
    ensures Post(books, r).1.Ok? && !Recorded(books.entries, r.ref) ==>
              var after := Post(books, r).0;
              && after.entries == books.entries + [Post(books, r).1.value]
              && after.balances == books.balances[r.wallet := books.balances[r.wallet] + r.Signed()]
              && Post(books, r).1.value.amount == r.Signed()
    ensures Post(books, r).1.Ok? ==>
              var e := Post(books, r).1.value;
              e.ref == r.ref && e.wallet == r.wallet && e.kind == r.kind && (e.amount > 0 <==> r.side == Crediting)
  {
    hide RunningBalance, Find, Sum;
    forall e | e in books.entries && e.ref == r.ref ensures Find(books.entries, r.ref) == Some(e) {
      FoundIs(books.entries, e);
    }
  }

  /** Which error a refused request gets, in the order of the checks. */
  lemma PostErrors(books: Books, r: Request)
    requires Sound(books)
    ensures var result, known := Post(books, r).1, Recorded(books.entries, r.ref);
            && (result == Err(NonPositiveAmount) <==> r.amount <= 0)
            && (result == Err(InvalidType) <==> r.amount > 0 && r.kind.UnknownType?)
            && (result == Err(NoSuchWallet) <==>
                  r.amount > 0 && !r.kind.UnknownType? && !known && r.wallet !in books.balances)
            && forall e :: e in books.entries && e.ref == r.ref && r.amount > 0 && !r.kind.UnknownType? ==>
                 && (result == Err(WalletMismatch) <==> e.wallet != r.wallet)
                 && (result == Err(TypeMismatch) <==> e.wallet == r.wallet && e.kind != r.kind)
                 && (result == Err(DirectionMismatch) <==>
                       e.wallet == r.wallet && e.kind == r.kind && (e.amount > 0) != (r.side == Crediting))
  {
    hide RunningBalance, Find, CheckMatch, Sum;
    forall e | e in books.entries && e.ref == r.ref ensures Find(books.entries, r.ref) == Some(e) {
      FoundIs(books.entries, e);
    }
    MatchErrors(r);
  }

  lemma MatchErrors(r: Request)
    ensures forall e :: CheckMatch(e, r) ==
              if e.wallet != r.wallet then Err(WalletMismatch)
              else if e.kind != r.kind then Err(TypeMismatch)
              else if (e.amount > 0) != (r.side == Crediting) then Err(DirectionMismatch)
              else Ok(e)
  {
  }

  lemma PostGrows(books: Books, r: Request)
    requires Sound(books)
    ensures Sound(Post(books, r).0)
    ensures books.entries <= Post(books, r).0.entries
    ensures Post(books, r).0.balances.Keys == books.balances.Keys
    ensures Post(books, r).1.Ok? ==>
              Post(books, r).1.value in Post(books, r).0.entries && Post(books, r).1.value.ref == r.ref
  {
    PostSound(books, r);
    PostEffect(books, r);
  }

  /** A script either fails or only appends entries, and yields one entry per request. */
  lemma {:induction false} PostAllSound(books: Books, script: seq<Request>)
    requires Sound(books)
    ensures PostAll(books, script).Ok? ==>
              var (after, results) := PostAll(books, script).value;
              && Sound(after) && books.entries <= after.entries
              && after.balances.Keys == books.balances.Keys
              && |results| == |script|
              && forall k :: 0 <= k < |script| ==> results[k] in after.entries && results[k].ref == script[k].ref
  {
    hide Sound, Post;
    if script != [] && PostAll(books, script).Ok? {
      var front, r := script[..|script| - 1], script[|script| - 1];
      PostAllSound(books, front);
      var (mid, results) := PostAll(books, front).value;
      PostGrows(mid, r);
      var after := Post(mid, r).0;
      forall k | 0 <= k < |front| ensures results[k] in after.entries && results[k].ref == script[k].ref {
        assert results[k] in mid.entries && front[k] == script[k];
      }
    }
  }

  // ---- The service ----

  class WalletService {
    var balances: map<nat, int>
    var entries: seq<Entry>

    function Now(): Books
      reads this
    {
      Books(balances, entries)
    }

    constructor ()
      ensures Now() == Books(map[], []) && Sound(Now())
    {
      balances, entries := map[], [];
    }

    /** Every customer gets an empty wallet when it is created. */
    method OpenWallet(wallet: nat)
      requires Sound(Now()) && wallet !in balances
      modifies this
      ensures Now() == Books(old(balances)[wallet := 0], old(entries)) && Sound(Now())
    {
      balances := balances[wallet := 0];
      assert forall i :: 0 <= i < |entries| ==> entries[i].wallet in old(balances);
      NothingRecorded(entries, wallet);
    }

    method Lookup(ref: Ref) returns (found: Option<Entry>)
      ensures found == Find(entries, ref)
    {
      var i := 0;
      while i < |entries|
        invariant 0 <= i <= |entries|
        invariant Find(entries, ref) == Find(entries[i..], ref)
      {
        if entries[i].ref == ref {
          return Some(entries[i]);
        }
        assert entries[i..][1..] == entries[i + 1..];
        i := i + 1;
      }
      return None;
    }

    method Credit(wallet: nat, amount: int, kind: EntryType, ref: Ref) returns (r: Result<Entry, LedgerError>)
      modifies this
      ensures (Now(), r) == Post(old(Now()), Request(wallet, Crediting, amount, kind, ref))
    {
      if amount <= 0 {
        return Err(NonPositiveAmount);
      }
      if kind.UnknownType? {
        return Err(InvalidType);
      }
      var existing := Lookup(ref);
      if existing.Some? {
        return CheckMatch(existing.value, Request(wallet, Crediting, amount, kind, ref));
      }
      if wallet !in balances {
        return Err(NoSuchWallet);
      }
      var newBalance := balances[wallet] + amount;
      var entry := Entry(wallet, kind, amount, newBalance, ref);
      entries := entries + [entry];
      balances := balances[wallet := newBalance];
      return Ok(entry);
    }

    method Debit(wallet: nat, amount: int, kind: EntryType, ref: Ref) returns (r: Result<Entry, LedgerError>)
      modifies this
      ensures (Now(), r) == Post(old(Now()), Request(wallet, Debiting, amount, kind, ref))
    {
      if amount <= 0 {
        return Err(NonPositiveAmount);
      }
      if kind.UnknownType? {
        return Err(InvalidType);
      }
      var existing := Lookup(ref);
      if existing.Some? {
        return CheckMatch(existing.value, Request(wallet, Debiting, amount, kind, ref));
      }
      if wallet !in balances {
        return Err(NoSuchWallet);
      }
      if balances[wallet] < amount {
        return Err(InsufficientBalance);
      }
      var newBalance := balances[wallet] - amount;
      var entry := Entry(wallet, kind, -amount, newBalance, ref);
      entries := entries + [entry];
      balances := balances[wallet := newBalance];
      return Ok(entry);
    }
  }

  lemma {:induction false} NothingRecorded(entries: seq<Entry>, wallet: nat)
    requires forall i :: 0 <= i < |entries| ==> entries[i].wallet != wallet
    ensures Sum(entries, AmountIn(wallet)) == 0
  {
    if entries != [] {
      NothingRecorded(entries[..|entries| - 1], wallet);
    }
  }
}
