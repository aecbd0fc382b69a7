/** The fixed-window counters that limit license calls and one-time codes. */
module RateLimits {
  import opened Prelude

  const RATE_WINDOW := 60
  const CODE_WINDOW := 3600
  const SEND_COOLDOWN := 60
  const MAX_SENDS_PER_HOUR := 3
  const MAX_ATTEMPTS := 5

  /** A cache entry: a count, and the time it disappears. */
  datatype Counter = Counter(count: nat, expires: int)

  predicate Alive(c: Option<Counter>, now: int)
  {
    c.Some? && now < c.value.expires
  }

  /** `add(key, 0, window)` then `incr(key)`: a dead counter restarts, a live one keeps its expiry. */
  function Hit(c: Option<Counter>, now: int, window: nat): Counter
  {
    if Alive(c, now) then Counter(c.value.count + 1, c.value.expires) else Counter(1, now + window)
  }

  /** The calls let through, in order, when calls arrive at `times`. */
  function Accepted(times: seq<int>, c: Option<Counter>, limit: nat, window: nat): seq<int>
  {
    if times == [] then []
    else
      var next := Hit(c, times[0], window);
      (if next.count <= limit then [times[0]] else []) + Accepted(times[1..], Some(next), limit, window)
  }

  /** How many of `times` lie in the closed interval from `a` to `b`. */
  function CountIn(times: seq<int>, a: int, b: int): nat
  {
    if times == [] then 0 else (if a <= times[0] <= b then 1 else 0) + CountIn(times[1..], a, b)
  }

  ghost predicate Forward(times: seq<int>)
  {
    forall i, j :: 0 <= i < j < |times| ==> times[i] <= times[j]
  }

  lemma CountInCons(first: seq<int>, rest: seq<int>, a: int, b: int)
    requires |first| <= 1
    ensures CountIn(first + rest, a, b) == CountIn(first, a, b) + CountIn(rest, a, b)
  {
    if first == [] {
      assert first + rest == rest;
    } else {
      assert (first + rest)[1..] == rest && first[1..] == [];
    }
  }

  /** What a counter can still let through between `a` and `a + window`. */
  function Allowance(c: Option<Counter>, limit: nat, window: nat, a: int): int
  {
    if c.None? || c.value.expires <= a then 2 * limit
    else if c.value.expires <= a + window then Max(0, limit - c.value.count) + limit
    else Max(0, limit - c.value.count)
  }

  /** One call spends the allowance it uses. */
  lemma AllowanceSpent(c: Option<Counter>, t: int, limit: nat, window: nat, a: int)
    requires window > 0 && t <= a + window
    ensures var next := Hit(c, t, window);
            (if next.count <= limit && a <= t then 1 else 0) + Allowance(Some(next), limit, window, a)
            <= Allowance(c, limit, window, a)
  {
  }

  lemma {:induction false} AcceptedWithinAllowance(times: seq<int>, c: Option<Counter>, limit: nat, window: nat, a: int)
    requires Forward(times) && window > 0
    ensures CountIn(Accepted(times, c, limit, window), a, a + window) <= Allowance(c, limit, window, a)
    decreases |times|
  {
    if times != [] {
      hide Allowance;
      var t, next := times[0], Hit(c, times[0], window);
      if t > a + window {
        LateCallsDoNotCount(times, c, limit, window, a, t);
        AllowanceNonNegative(c, limit, window, a);
      } else {
        CountInCons(if next.count <= limit then [t] else [], Accepted(times[1..], Some(next), limit, window), a, a + window);
        AcceptedWithinAllowance(times[1..], Some(next), limit, window, a);
        AllowanceSpent(c, t, limit, window, a);
      }
    } else {
      AllowanceNonNegative(c, limit, window, a);
    }
  }

  lemma AllowanceNonNegative(c: Option<Counter>, limit: nat, window: nat, a: int)
    ensures Allowance(c, limit, window, a) >= 0
  {
  }

  lemma {:induction false} LateCallsDoNotCount(times: seq<int>, c: Option<Counter>, limit: nat, window: nat, a: int, t: int)
    requires t > a + window && forall i :: 0 <= i < |times| ==> t <= times[i]
    ensures CountIn(Accepted(times, c, limit, window), a, a + window) == 0
    decreases |times|
  {
    if times != [] {
      var next := Hit(c, times[0], window);
      CountInCons(if next.count <= limit then [times[0]] else [],
                  Accepted(times[1..], Some(next), limit, window), a, a + window);
      LateCallsDoNotCount(times[1..], Some(next), limit, window, a, t);
    }
  }

  /** On a forward clock, however calls arrive, no closed interval of one window's length sees more
      than twice the limit. */
  lemma AtMostTwiceTheLimit(times: seq<int>, limit: nat, window: nat, a: int)
    requires Forward(times) && window > 0
    ensures CountIn(Accepted(times, None, limit, window), a, a + window) <= 2 * limit
  {
    AcceptedWithinAllowance(times, None, limit, window, a);
  }

  /** A window opened by a call at `times[0]` lets through at most the limit before it closes. */
  lemma {:induction false} AtMostTheLimitPerWindow(times: seq<int>, c: Option<Counter>, limit: nat, window: nat)
    requires times != [] && Forward(times) && window > 0 && !Alive(c, times[0])
    ensures CountIn(Accepted(times, c, limit, window), times[0], times[0] + window - 1) <= limit
  {
    var t, next := times[0], Hit(c, times[0], window);
    CountInCons(if next.count <= limit then [t] else [], Accepted(times[1..], Some(next), limit, window), t, t + window - 1);
    RestOfWindow(times[1..], next, limit, window, t);
  }

  lemma {:induction false} RestOfWindow(times: seq<int>, c: Counter, limit: nat, window: nat, start: int)
    requires Forward(times) && c.expires == start + window
    ensures CountIn(Accepted(times, Some(c), limit, window), start, start + window - 1) <= Max(0, limit - c.count)
    decreases |times|
  {
    if times != [] {
      var next := Hit(Some(c), times[0], window);
      CountInCons(if next.count <= limit then [times[0]] else [],
                  Accepted(times[1..], Some(next), limit, window), start, start + window - 1);
      if times[0] < c.expires {
        RestOfWindow(times[1..], next, limit, window, start);
      } else {
        LateCallsDoNotCount(times[1..], Some(next), limit, window, start - 1, times[0]);
        CountInNarrower(Accepted(times[1..], Some(next), limit, window), start - 1, start, start + window - 1);
      }
    }
  }

  lemma {:induction false} CountInNarrower(times: seq<int>, a: int, a': int, b: int)
    requires a <= a'
    ensures CountIn(times, a', b) <= CountIn(times, a, b)
  {
    if times != [] {
      CountInNarrower(times[1..], a, a', b);
    }
  }

  /** `n` calls at the same moment. */
  function Burst(t: int, n: nat): seq<int>
  {
    seq(n, i => t)
  }

  lemma {:induction false} BurstAccepted(t: int, n: nat, rest: seq<int>, c: Counter, limit: nat, window: nat)
    requires t < c.expires && c.count + n <= limit
    ensures Accepted(Burst(t, n) + rest, Some(c), limit, window)
            == Burst(t, n) + Accepted(rest, Some(Counter(c.count + n, c.expires)), limit, window)
  {
    if n > 0 {
      assert (Burst(t, n) + rest)[1..] == Burst(t, n - 1) + rest;
      assert Burst(t, n) == [t] + Burst(t, n - 1);
      BurstAccepted(t, n - 1, rest, c.(count := c.count + 1), limit, window);
    } else {
      assert Burst(t, n) + rest == rest;
    }
  }

  /** A burst of the limit's size on a dead counter passes as a whole. */
  lemma FreshBurstAccepted(t: int, n: nat, rest: seq<int>, c: Option<Counter>, window: nat)
    requires n > 0 && window > 0 && !Alive(c, t)
    ensures Accepted(Burst(t, n) + rest, c, n, window)
            == Burst(t, n) + Accepted(rest, Some(Counter(n, t + window)), n, window)
  {
    assert (Burst(t, n) + rest)[1..] == Burst(t, n - 1) + rest;
    assert Burst(t, n) == [t] + Burst(t, n - 1);
    BurstAccepted(t, n - 1, rest, Counter(1, t + window), n, window);
  }

  lemma {:induction false} AllCounted(times: seq<int>, a: int, b: int)
    requires forall i :: 0 <= i < |times| ==> a <= times[i] <= b
    ensures CountIn(times, a, b) == |times|
  {
    if times != [] {
      AllCounted(times[1..], a, b);
    }
  }

  /** The bound is reached for every limit and every window: by as many calls as allowed at one moment
      and again at the moment its window ends. */
  lemma TwiceTheLimitIsReached(limit: nat, window: nat, a: int)
    requires window > 0
    ensures var calls := Burst(a, limit) + Burst(a + window, limit);
            Forward(calls) && CountIn(Accepted(calls, None, limit, window), a, a + window) == 2 * limit
  {
    if limit > 0 {
      var second := Burst(a + window, limit);
      FreshBurstAccepted(a, limit, second, None, window);
      FreshBurstAccepted(a + window, limit, [], Some(Counter(limit, a + window)), window);
      assert second + [] == second;
      AllCounted(Burst(a, limit), a, a + window);
      AllCounted(second, a, a + window);
      CountInSplit(Burst(a, limit), second, a, a + window);
    }
  }

  // ---- Counting in a window ----

  lemma {:induction false} CountInSplit(s: seq<int>, t: seq<int>, a: int, b: int)
    ensures CountIn(s + t, a, b) == CountIn(s, a, b) + CountIn(t, a, b)
  {
    if s == [] {
      assert s + t == t;
    } else {
      assert (s + t)[1..] == s[1..] + t;
      CountInSplit(s[1..], t, a, b);
    }
  }

  lemma {:induction false} CountFirst(times: seq<int>, n: nat, a: int, b: int)
    requires forall k :: n <= k < |times| ==> b < times[k]
    ensures CountIn(times, a, b) <= n
    decreases |times|
  {
    if times != [] {
      CountFirst(times[1..], if n == 0 then 0 else n - 1, a, b);
    }
  }

  /** More than `n` moments within an interval: some `n + 1` consecutive ones lie in it. */
  lemma {:induction false} FindRun(times: seq<int>, n: nat, a: int, b: int) returns (i: nat)
    requires Forward(times) && CountIn(times, a, b) > n
    ensures i + n < |times| && a <= times[i] && times[i + n] <= b
    decreases |times|
  {
    if a <= times[0] <= b {
      i := 0;
      if |times| <= n || b < times[n] {
        CountFirst(times, n, a, b);
      }
    } else {
      i := FindRun(times[1..], n, a, b);
      i := i + 1;
    }
  }

  lemma {:induction false} RunCounted(times: seq<int>, i: nat, n: nat, a: int, b: int)
    requires Forward(times) && i + n < |times| && a <= times[i] && times[i + n] <= b
    ensures CountIn(times, a, b) > n
    decreases |times|
  {
    if i > 0 {
      RunCounted(times[1..], i - 1, n, a, b);
    } else if n > 0 {
      RunCounted(times[1..], 0, n - 1, a, b);
    }
  }

  /** At most `n` moments in the interval of length `w` from `a`. */
  ghost predicate FewFrom(times: seq<int>, n: nat, w: nat, a: int)
  {
    CountIn(times, a, a + w) <= n
  }

  /** Moment `i` and the `n`-th after it are more than `w` apart. */
  ghost predicate FarApart(times: seq<int>, n: nat, w: nat, i: nat)
  {
    i + n < |times| ==> times[i] + w < times[i + n]
  }

  /** No interval of length `w` holds more than `n` moments exactly when no `n + 1` consecutive ones
      are that close. */
  lemma AtMostInAnyIff(times: seq<int>, n: nat, w: nat)
    requires Forward(times)
    ensures (forall a :: FewFrom(times, n, w, a)) <==> (forall i: nat :: FarApart(times, n, w, i))
  {
    forall i: nat | !FarApart(times, n, w, i) ensures !FewFrom(times, n, w, times[i]) {
      RunCounted(times, i, n, times[i], times[i] + w);
    }
    if a :| !FewFrom(times, n, w, a) {
      var i := FindRun(times, n, a, a + w);
      assert !FarApart(times, n, w, i);
    }
  }

  class RateCache {
    var counters: map<string, Counter>

    constructor ()
      ensures counters == map[]
    {
      counters := map[];
    }

    function Stored(key: string): Option<Counter>
      reads this
    {
      if key in counters then Some(counters[key]) else None
    }

    /** `_check_rate_limit`: true when the caller has exceeded the limit. */
    method CheckRateLimit(key: string, limit: nat, now: int) returns (exceeded: bool)
      modifies this
      ensures counters == old(counters)[key := Hit(old(Stored(key)), now, RATE_WINDOW)]
      ensures exceeded <==> Hit(old(Stored(key)), now, RATE_WINDOW).count > limit
    {
      if key !in counters || counters[key].expires <= now {
        counters := counters[key := Counter(0, now + RATE_WINDOW)];
      }
      var count := counters[key].count + 1;
      counters := counters[key := counters[key].(count := count)];
      return count > limit;
    }

    /** A whole run of calls under one key; the other keys are not disturbed. */
    method Serve(key: string, limit: nat, times: seq<int>) returns (accepted: seq<int>)
      modifies this
      ensures accepted == Accepted(times, old(Stored(key)), limit, RATE_WINDOW)
      ensures forall k :: k != key ==> Stored(k) == old(Stored(k))
    {
      accepted := [];
      for i := 0 to |times|
        invariant accepted + Accepted(times[i..], Stored(key), limit, RATE_WINDOW)
                  == Accepted(times, old(Stored(key)), limit, RATE_WINDOW)
        invariant forall k :: k != key ==> Stored(k) == old(Stored(k))
      {
        assert times[i..][1..] == times[i + 1..];
        var exceeded := CheckRateLimit(key, limit, times[i]);
        if !exceeded {
          accepted := accepted + [times[i]];
        }
      }
    }
  }

  // ---- One-time codes ----

  /** The two cache entries of a number: when its cooldown ends, and the hourly counter. */
  datatype Sender = Sender(cooldown: Option<int>, counter: Option<Counter>)

  /** A code sent: when, when the cache window it was counted in had opened, and its number there. */
  datatype Sent = Sent(at: int, since: int, nth: nat)

  predicate Waiting(s: Sender, now: int)
  {
    s.cooldown.Some? && now < s.cooldown.value
  }

  /** A code goes out: the cooldown is over and the counter, with this request, within its limit. */
  predicate SendsAt(s: Sender, now: int)
  {
    !Waiting(s, now) && Hit(s.counter, now, CODE_WINDOW).count <= MAX_SENDS_PER_HOUR
  }

  /** One request: the cooldown is looked at first, and only then is the counter touched. */
  function Request(s: Sender, now: int): Sender
  {
    if Waiting(s, now) then s
    else Sender(if SendsAt(s, now) then Some(now + SEND_COOLDOWN) else s.cooldown, Some(Hit(s.counter, now, CODE_WINDOW)))
  }

  /** The cache after codes for one number were requested at `times`. */
  function SenderAfter(times: seq<int>): Sender
  {
    if times == [] then Sender(None, None) else Request(SenderAfter(times[..|times| - 1]), times[|times| - 1])
  }

  /** The codes sent. */
  function Sends(times: seq<int>): seq<Sent>
  {
    if times == [] then []
    else
      var s, now := SenderAfter(times[..|times| - 1]), times[|times| - 1];
      var hit := Hit(s.counter, now, CODE_WINDOW);
      Sends(times[..|times| - 1]) + if SendsAt(s, now) then [Sent(now, hit.expires - CODE_WINDOW, hit.count)] else []
  }

  function Moments(sends: seq<Sent>): seq<int>
  {
    seq(|sends|, i requires 0 <= i < |sends| => sends[i].at)
  }

  /** How send `i` stands to the one before: a minute later at least, and either the next of its cache
      window or the first of a new one, opened by itself after that window was over. */
  ghost predicate Chained(sends: seq<Sent>, i: nat)
    requires i < |sends|
  {
    var q := sends[i];
    && 1 <= q.nth <= MAX_SENDS_PER_HOUR && q.since <= q.at < q.since + CODE_WINDOW
    && (q.nth == 1 ==> q.since == q.at)
    && if i == 0 then q.nth == 1
       else
         var p := sends[i - 1];
         && p.at + SEND_COOLDOWN <= q.at
         && ((q.nth == p.nth + 1 && q.since == p.since) || (q.nth == 1 && p.since + CODE_WINDOW <= q.at))
  }

  ghost predicate AllChained(sends: seq<Sent>) { forall i: nat :: i < |sends| ==> Chained(sends, i) }

  /** What the cache remembers of the last send. */
  ghost predicate Remembers(s: Sender, sends: seq<Sent>)
  {
    if sends == [] then s == Sender(None, None)
    else
      var last := sends[|sends| - 1];
      && s.cooldown == Some(last.at + SEND_COOLDOWN) && s.counter.Some?
      && s.counter.value.expires == last.since + CODE_WINDOW
      && last.nth == Min(s.counter.value.count, MAX_SENDS_PER_HOUR)
  }

  lemma {:induction false} SendsChained(times: seq<int>)
    ensures AllChained(Sends(times)) && Remembers(SenderAfter(times), Sends(times))
  {
    if times != [] {
      var front, now := times[..|times| - 1], times[|times| - 1];
      SendsChained(front);
      var before, after := Sends(front), Sends(times);
      forall i: nat | i < |after| ensures Chained(after, i) {
        if i < |before| {
          assert Chained(before, i);
        } else if i > 0 {
          assert Chained(before, i - 1);
        }
      }
    }
  }

  lemma {:induction false} Spaced(sends: seq<Sent>, i: nat, j: nat)
    requires AllChained(sends) && i < j < |sends|
    ensures sends[i].at + SEND_COOLDOWN <= sends[j].at
  {
    assert Chained(sends, j);
    if i < j - 1 {
      Spaced(sends, i, j - 1);
    }
  }

  lemma MomentsForward(sends: seq<Sent>)
    requires AllChained(sends)
    ensures Forward(Moments(sends))
  {
    var moments := Moments(sends);
    forall i, j | 0 <= i < j < |moments| ensures moments[i] <= moments[j] {
      Spaced(sends, i, j);
    }
  }

  /** The send that opened the cache window of send `i`. */
  lemma {:induction false} Opener(sends: seq<Sent>, i: nat) returns (p: nat)
    requires AllChained(sends) && i < |sends|
    ensures p <= i <= p + 2 && sends[p].nth == 1 && sends[p].at == sends[i].since && i - p == sends[i].nth - 1
  {
    assert Chained(sends, i);
    if sends[i].nth == 1 {
      p := i;
    } else {
      p := Opener(sends, i - 1);
    }
  }

  /** A window opens at least an hour after the one before it, hence after the third-last send. */
  lemma WindowLater(sends: seq<Sent>, j: nat, i: nat)
    requires AllChained(sends) && 0 < j < |sends| && sends[j].nth == 1 && i + 3 <= j
    ensures sends[i].at + CODE_WINDOW <= sends[j].at
    ensures i + 3 < j ==> sends[i].at + CODE_WINDOW < sends[j].at
  {
    assert Chained(sends, j);
    var p := Opener(sends, j - 1);
    if i < p { Spaced(sends, i, p); }
  }

  /** Among four consecutive sends, one of the last three opens a new window. */
  lemma OpenerAmong(sends: seq<Sent>, i: nat) returns (j: nat)
    requires AllChained(sends) && i + 3 < |sends|
    ensures i < j <= i + 3 && sends[j].nth == 1
  {
    j := Opener(sends, i + 3);
  }

  lemma SixTakeLonger(sends: seq<Sent>, i: nat)
    requires AllChained(sends) && i + 5 < |sends|
    ensures sends[i].at + CODE_WINDOW < sends[i + 5].at
  {
    var j := Opener(sends, i + 5);
    WindowLater(sends, j, i);
    if j < i + 5 { Spaced(sends, j, i + 5); }
  }

  /** However codes are requested for a number, sends are a minute apart and no hour sees more than
      five: the limit of three holds per cache window, and the first send of a window opens it. */
  lemma CodesAreLimited(times: seq<int>, a: int)
    ensures CountIn(Moments(Sends(times)), a, a + 3600) <= 5
    ensures forall i, j :: 0 <= i < j < |Sends(times)| ==> Sends(times)[i].at + 60 <= Sends(times)[j].at
  {
    hide Chained;
    SendsChained(times);
    var sends := Sends(times);
    MomentsForward(sends);
    forall i: nat ensures FarApart(Moments(sends), 5, CODE_WINDOW, i) {
      if i + 5 < |sends| { SixTakeLonger(sends, i); }
    }
    AtMostInAnyIff(Moments(sends), 5, CODE_WINDOW);
    assert FewFrom(Moments(sends), 5, CODE_WINDOW, a);
    forall i, j | 0 <= i < j < |sends| ensures sends[i].at + SEND_COOLDOWN <= sends[j].at {
      Spaced(sends, i, j);
    }
  }

  /** A new window opens between send `j - 1` and send `j`, both within the hour from `a`. */
  ghost predicate Straddles(sends: seq<Sent>, j: nat, a: int)
  {
    0 < j < |sends| && sends[j].nth == 1 && a <= sends[j - 1].at && sends[j].at <= a + CODE_WINDOW
  }

  /** The sends of the hour from `a` before send `j`, and from it on. */
  ghost function Behind(sends: seq<Sent>, j: nat, a: int): nat
    requires j <= |sends|
  {
    CountIn(Moments(sends[..j]), a, a + CODE_WINDOW)
  }

  ghost function Ahead(sends: seq<Sent>, j: nat, a: int): nat
    requires j <= |sends|
  {
    CountIn(Moments(sends[j..]), a, a + CODE_WINDOW)
  }

  lemma SidesAdd(sends: seq<Sent>, j: nat, a: int)
    requires j <= |sends|
    ensures CountIn(Moments(sends), a, a + CODE_WINDOW) == Behind(sends, j, a) + Ahead(sends, j, a)
  {
    assert Moments(sends) == Moments(sends[..j]) + Moments(sends[j..]);
    CountInSplit(Moments(sends[..j]), Moments(sends[j..]), a, a + CODE_WINDOW);
  }

  /** More than `n` sends behind `j`: the one `n + 1` before it lies in the hour. */
  lemma BehindReaches(sends: seq<Sent>, j: nat, a: int, n: nat)
    requires AllChained(sends) && j <= |sends| && Behind(sends, j, a) > n
    ensures n < j && a <= sends[j - 1 - n].at
  {
    hide Chained;
    MomentsForward(sends);
    assert Forward(Moments(sends[..j])) by {
      assert forall k :: 0 <= k < j ==> Moments(sends[..j])[k] == Moments(sends)[k];
    }
    var i := FindRun(Moments(sends[..j]), n, a, a + CODE_WINDOW);
    assert Moments(sends)[i] <= Moments(sends)[j - 1 - n];
  }

  /** More than `n` sends from `j` on: the one `n` after it lies in the hour. */
  lemma AheadReaches(sends: seq<Sent>, j: nat, a: int, n: nat)
    requires AllChained(sends) && j <= |sends| && Ahead(sends, j, a) > n
    ensures j + n < |sends| && sends[j + n].at <= a + CODE_WINDOW
  {
    hide Chained;
    MomentsForward(sends);
    assert Forward(Moments(sends[j..])) by {
      assert forall k :: 0 <= k < |sends| - j ==> Moments(sends[j..])[k] == Moments(sends)[j + k];
    }
    var i := FindRun(Moments(sends[j..]), n, a, a + CODE_WINDOW);
    assert Moments(sends)[j + n] <= Moments(sends)[j + i + n];
  }

  /** How the sends of an hour can spread over the expiry of a window within it. */
  lemma SidesBounded(sends: seq<Sent>, j: nat, a: int)
    requires AllChained(sends) && Straddles(sends, j, a)
    ensures 1 <= Behind(sends, j, a) <= 3 && 1 <= Ahead(sends, j, a) <= 3
    ensures Behind(sends, j, a) == 3 ==> Ahead(sends, j, a) == 1
  {
    hide Chained;
    Spaced(sends, j - 1, j);
    BothSides(sends, j, a);
    if Behind(sends, j, a) > 3 {
      BehindReaches(sends, j, a, 3);
      WindowLater(sends, j, j - 4);
    }
    if Ahead(sends, j, a) > 3 {
      AheadReaches(sends, j, a, 3);
      var k := OpenerAmong(sends, j);
      HourApart(sends, j, k);
      if k < j + 3 { Spaced(sends, k, j + 3); }
    }
    if Behind(sends, j, a) > 2 && Ahead(sends, j, a) > 1 {
      BehindReaches(sends, j, a, 2);
      AheadReaches(sends, j, a, 1);
      WindowLater(sends, j, j - 3);
      Spaced(sends, j, j + 1);
    }
  }

  lemma BothSides(sends: seq<Sent>, j: nat, a: int)
    requires AllChained(sends) && Straddles(sends, j, a)
    ensures Behind(sends, j, a) >= 1 && Ahead(sends, j, a) >= 1
  {
    hide Chained;
    Spaced(sends, j - 1, j);
    MomentsForward(sends);
    assert forall k :: 0 <= k < j ==> Moments(sends[..j])[k] == Moments(sends)[k];
    assert forall k :: 0 <= k < |sends| - j ==> Moments(sends[j..])[k] == Moments(sends)[j + k];
    RunCounted(Moments(sends[..j]), j - 1, 0, a, a + CODE_WINDOW);
    RunCounted(Moments(sends[j..]), 0, 0, a, a + CODE_WINDOW);
  }

  /** Two sends that each open a window are an hour apart. */
  lemma {:induction false} HourApart(sends: seq<Sent>, i: nat, j: nat)
    requires AllChained(sends) && i < j < |sends| && sends[i].nth == 1 && sends[j].nth == 1
    ensures sends[i].at + CODE_WINDOW <= sends[j].at
  {
    assert Chained(sends, i) && Chained(sends, j);
    var p := Opener(sends, j - 1);
    if p < i {
      assert Chained(sends, j - 1);
      SameWindow(sends, p, i, j - 1);
    } else if i < p {
      Spaced(sends, i, p);
    }
  }

  /** Between a send and the one that opened its window no other window opens. */
  lemma {:induction false} SameWindow(sends: seq<Sent>, p: nat, i: nat, j: nat)
    requires AllChained(sends) && p < i <= j < |sends| && j - p == sends[j].nth - 1
    ensures sends[i].nth == i - p + 1
  {
    assert Chained(sends, j);
    if i < j { SameWindow(sends, p, i, j - 1); }
  }

  /** The limit is documented per rolling hour. Exactly when an hour sees more than three sends: a cache
      window runs out in it, with sends on both sides split 1 + 3, 2 + 2, 2 + 3 or 3 + 1. */
  lemma MoreThanThreeIff(times: seq<int>, a: int)
    ensures var sends := Sends(times);
            CountIn(Moments(sends), a, a + CODE_WINDOW) > MAX_SENDS_PER_HOUR <==>
            exists j: nat :: Straddles(sends, j, a)
              && (Behind(sends, j, a), Ahead(sends, j, a)) in {(1, 3), (2, 2), (2, 3), (3, 1)}
  {
    hide Chained, Sends, Behind, Ahead;
    SendsChained(times);
    var sends := Sends(times);
    MomentsForward(sends);
    if CountIn(Moments(sends), a, a + CODE_WINDOW) > 3 {
      var i := FindRun(Moments(sends), 3, a, a + CODE_WINDOW);
      var j := OpenerAmong(sends, i);
      assert Moments(sends)[i] <= Moments(sends)[j - 1] && Moments(sends)[j] <= Moments(sends)[i + 3];
      assert Straddles(sends, j, a);
      SidesAdd(sends, j, a);
      SidesBounded(sends, j, a);
    }
    forall j: nat | Straddles(sends, j, a)
      ensures CountIn(Moments(sends), a, a + CODE_WINDOW) == Behind(sends, j, a) + Ahead(sends, j, a)
    {
      SidesAdd(sends, j, a);
    }
  }

  /** Exactly which request sends a fourth code within an hour: the cache lets it pass, and the
      third-last send, which the cache has forgotten because its window is over, is not yet an hour old. */
  lemma FourthCodeIff(times: seq<int>, now: int)
    ensures var sends, s := Sends(times), SenderAfter(times);
            var fourth := SendsAt(s, now) && |sends| >= 3 && now - CODE_WINDOW <= sends[|sends| - 3].at;
            && (SendsAt(s, now) && CountIn(Moments(Sends(times + [now])), now - CODE_WINDOW, now) > MAX_SENDS_PER_HOUR
                <==> fourth)
            && (fourth ==> sends[|sends| - 3].at < Hit(s.counter, now, CODE_WINDOW).expires - CODE_WINDOW)
  {
    var sends, s := Sends(times), SenderAfter(times);
    if SendsAt(s, now) {
      assert (times + [now])[..|times|] == times;
      var after := Sends(times + [now]);
      var n := |sends|;
      assert after[n].at == now;
      SendsChained(times + [now]);
      FourthFound(after, n);
    }
  }

  lemma FourthFound(after: seq<Sent>, n: nat)
    requires AllChained(after) && |after| == n + 1
    ensures CountIn(Moments(after), after[n].at - CODE_WINDOW, after[n].at) > 3
            <==> n >= 3 && after[n].at - CODE_WINDOW <= after[n - 3].at
    ensures n >= 3 ==> after[n - 3].at < after[n].since
  {
    hide Chained;
    var now := after[n].at;
    MomentsForward(after);
    if CountIn(Moments(after), now - CODE_WINDOW, now) > 3 {
      var i := FindRun(Moments(after), 3, now - CODE_WINDOW, now);
      assert Moments(after)[i] <= Moments(after)[n - 3];
    }
    if n >= 3 {
      if now - CODE_WINDOW <= after[n - 3].at {
        RunCounted(Moments(after), n - 3, 3, now - CODE_WINDOW, now);
      }
      var p := Opener(after, n);
      Spaced(after, n - 3, p);
    }
  }

  /** A request that is sent as number `nth` of the window opened at `opening`. */
  lemma SendNext(times: seq<int>, now: int, sends: seq<Sent>, opening: int, nth: nat)
    requires Sends(times) == sends && SendsAt(SenderAfter(times), now)
    requires Hit(SenderAfter(times).counter, now, CODE_WINDOW) == Counter(nth, opening + CODE_WINDOW)
    ensures Sends(times + [now]) == sends + [Sent(now, opening, nth)]
    ensures SenderAfter(times + [now]) == Sender(Some(now + SEND_COOLDOWN), Some(Counter(nth, opening + CODE_WINDOW)))
  {
    assert (times + [now])[..|times|] == times;
  }

  lemma NoSends()
    ensures Sends([]) == [] && SenderAfter([]) == Sender(None, None)
  {
  }

  /** Five are reached: one code, then two late in its window and three in the next. */
  lemma FiveCodesInAnHour()
    ensures var sends := Sends([0, 3480, 3540, 3600, 3660, 3720]);
            |sends| == 6 && CountIn(Moments(sends), 3480, 3480 + CODE_WINDOW) == 5
  {
    hide Sends, SenderAfter;
    NoSends();
    SendNext([], 0, [], 0, 1);
    var t1: seq<int>, s1: seq<Sent> := [] + [0], [] + [Sent(0, 0, 1)];
    SendNext(t1, 3480, s1, 0, 2);
    var t2, s2 := t1 + [3480], s1 + [Sent(3480, 0, 2)];
    SendNext(t2, 3540, s2, 0, 3);
    var t3, s3 := t2 + [3540], s2 + [Sent(3540, 0, 3)];
    SendNext(t3, 3600, s3, 3600, 1);
    var t4, s4 := t3 + [3600], s3 + [Sent(3600, 3600, 1)];
    SendNext(t4, 3660, s4, 3600, 2);
    var t5, s5 := t4 + [3660], s4 + [Sent(3660, 3600, 2)];
    SendNext(t5, 3720, s5, 3600, 3);
    assert t5 + [3720] == [0, 3480, 3540, 3600, 3660, 3720];
    assert Moments(s5 + [Sent(3720, 3600, 3)]) == [0] + [3480, 3540, 3600, 3660, 3720];
    CountInSplit([0], [3480, 3540, 3600, 3660, 3720], 3480, 3480 + CODE_WINDOW);
    AllCounted([3480, 3540, 3600, 3660, 3720], 3480, 3480 + CODE_WINDOW);
  }

  /** `request_code`'s use of the cache for one number. */
  class CodeSender {
    var cooldown: Option<int>
    var counter: Option<Counter>

    function State(): Sender
      reads this
    {
      Sender(cooldown, counter)
    }

    constructor ()
      ensures State() == SenderAfter([])
    {
      cooldown, counter := None, None;
    }

    method RequestCode(now: int) returns (sent: bool)
      modifies this
      ensures State() == Request(old(State()), now) && (sent <==> SendsAt(old(State()), now))
    {
      if cooldown.Some? && now < cooldown.value {
        return false;
      }
      if counter.None? || counter.value.expires <= now {
        counter := Some(Counter(0, now + CODE_WINDOW));
      }
      counter := Some(counter.value.(count := counter.value.count + 1));
      if counter.value.count > MAX_SENDS_PER_HOUR {
        return false;
      }
      cooldown := Some(now + SEND_COOLDOWN);
      return true;
    }
  }

  /** A stored code. */
  datatype Code = Code(expires: int, attempts: nat, consumed: bool)

  datatype Verdict = NoCode | TooLate | TooManyAttempts | Incorrect | Verified

  /** `verify_code` on the newest unconsumed code; `right` says whether the guess matches. */
  function Verify(code: Code, now: int, right: bool): (Code, Verdict)
  {
    if code.consumed then (code, NoCode)
    else if now >= code.expires then (code, TooLate)
    else if code.attempts >= MAX_ATTEMPTS then (code, TooManyAttempts)
    else if right then (code.(attempts := code.attempts + 1, consumed := true), Verified)
    else (code.(attempts := code.attempts + 1), Incorrect)
  }

  /** The verdicts on a whole history of guesses. */
  function VerifyAll(code: Code, guesses: seq<(int, bool)>): seq<Verdict>
    decreases |guesses|
  {
    if guesses == [] then []
    else
      var (next, verdict) := Verify(code, guesses[0].0, guesses[0].1);
      [verdict] + VerifyAll(next, guesses[1..])
  }

  /** How many guesses were actually compared with the code. */
  function Compared(verdicts: seq<Verdict>): nat
  {
    if verdicts == [] then 0
    else (if verdicts[0] == Incorrect || verdicts[0] == Verified then 1 else 0) + Compared(verdicts[1..])
  }

  /** At most five guesses are ever compared with a code, and a verified code ends the matter. */
  lemma {:induction false} GuessesAreLimited(code: Code, guesses: seq<(int, bool)>)
    requires code.attempts <= MAX_ATTEMPTS
    ensures Compared(VerifyAll(code, guesses)) <= MAX_ATTEMPTS - code.attempts
    ensures code.consumed ==> Compared(VerifyAll(code, guesses)) == 0
    ensures forall i, j :: 0 <= i < j < |VerifyAll(code, guesses)| && VerifyAll(code, guesses)[i] == Verified ==>
              VerifyAll(code, guesses)[j] == NoCode
    ensures code.consumed ==> forall i :: 0 <= i < |VerifyAll(code, guesses)| ==> VerifyAll(code, guesses)[i] == NoCode
    decreases |guesses|
  {
    if guesses != [] {
      var (next, verdict) := Verify(code, guesses[0].0, guesses[0].1);
      var rest := VerifyAll(next, guesses[1..]);
      GuessesAreLimited(next, guesses[1..]);
      assert ([verdict] + rest)[1..] == rest;
    }
  }

  /** The guesses that come in time. */
  function InTime(code: Code, guesses: seq<(int, bool)>): nat
    decreases |guesses|
  {
    if guesses == [] then 0 else (if guesses[0].0 < code.expires then 1 else 0) + InTime(code, guesses[1..])
  }

  /** Over a whole history, exactly which guess verifies a code: the first right one in time, if fewer
      than five came in time before it. */
  lemma {:induction false} VerifiedIff(code: Code, guesses: seq<(int, bool)>, k: nat)
    requires k < |guesses|
    ensures |VerifyAll(code, guesses)| == |guesses|
    ensures VerifyAll(code, guesses)[k] == Verified <==>
            && !code.consumed && guesses[k].1 && guesses[k].0 < code.expires
            && (forall j :: 0 <= j < k && guesses[j].0 < code.expires ==> !guesses[j].1)
            && code.attempts + InTime(code, guesses[..k]) < 5
    decreases |guesses|
  {
    VerdictCount(code, guesses);
    if k > 0 {
      var next := Verify(code, guesses[0].0, guesses[0].1).0;
      VerifiedIff(next, guesses[1..], k - 1);
      assert guesses[..k][1..] == guesses[1..][..k - 1];
      SameInTime(code, next, guesses[1..][..k - 1]);
      assert forall j :: 0 < j < k ==> guesses[j] == guesses[1..][j - 1];
      assert forall j :: 0 <= j < k - 1 ==> guesses[1..][j] == guesses[j + 1];
    }
  }

  lemma {:induction false} VerdictCount(code: Code, guesses: seq<(int, bool)>)
    ensures |VerifyAll(code, guesses)| == |guesses|
    decreases |guesses|
  {
    if guesses != [] {
      VerdictCount(Verify(code, guesses[0].0, guesses[0].1).0, guesses[1..]);
    }
  }

  lemma {:induction false} SameInTime(code: Code, code': Code, guesses: seq<(int, bool)>)
    requires code'.expires == code.expires
    ensures InTime(code', guesses) == InTime(code, guesses)
    decreases |guesses|
  {
    if guesses != [] {
      SameInTime(code, code', guesses[1..]);
    }
  }

  /** What a guess that does not verify is told, and what it costs. */
  lemma VerdictMeaning(code: Code, now: int, right: bool)
    ensures var (next, verdict) := Verify(code, now, right);
            && (verdict == NoCode <==> code.consumed)
            && (verdict == TooLate <==> !code.consumed && code.expires <= now)
            && (verdict == TooManyAttempts <==> !code.consumed && now < code.expires && MAX_ATTEMPTS <= code.attempts)
            && (verdict == Incorrect ==> !right)
            && (next == code <==> verdict != Incorrect && verdict != Verified)
            && (next != code ==> next == Code(code.expires, code.attempts + 1, verdict == Verified))
  {
  }
}
