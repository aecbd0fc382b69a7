/** The activation API: which answer a device gets, and why. Signatures are ideal: a token is either
    one the server signed or it is forged. Times are whole seconds. */
module Licensing {
  import opened Prelude
  import opened Lifecycle
  import opened Keys
  import opened RateLimits

  /** The statuses joined to a license key: its own, its grant's and its subscription's. */
  datatype LicenseRow = LicenseRow(status: AccessStatus, grant: Option<AccessStatus>, sub: Option<SubStatus>, seatLimit: nat)

  datatype Token = Signed(value: string, issued: int) | Forged

  datatype Status =
    | Active | InGrace | IsRevoked | IsExpired | IsSuspended
    | RateLimited | Invalid | SeatFull | Deactivated
    | InvalidRequest | Unavailable | OperationUnavailable | NotEntitled | Authorized

  datatype Reply = Reply(status: Status, token: Option<Token>)

  datatype Policy = Policy(entitlement: string, required: string)

  /** `seats` holds the fingerprints with an active installation; entitlement values and required
      values are stored lower-cased. */
  datatype Server = Server(
    licenses: map<string, LicenseRow>, seats: map<string, set<string>>, counters: map<string, Counter>,
    policies: map<(string, string), Policy>, entitlements: map<string, map<string, string>>,
    ttl: int, grace: int, maintenance: bool)

  // ---- The access decision ----

  function FromAccess(status: AccessStatus): Status
  {
    match status
    case Revoked => IsRevoked
    case Expired => IsExpired
    case Held => IsSuspended
    case Granted => Active
  }

  /** `_effective_access_status`. */
  function EffectiveAccess(l: LicenseRow): Status
  {
    if l.status != Granted then FromAccess(l.status)
    else if l.grant.Some? && l.grant.value != Granted then FromAccess(l.grant.value)
    else if l.sub == Some(GRACE) then InGrace
    else if l.sub == Some(SUSPENDED) || l.sub == Some(CANCELLED) then IsSuspended
    else Active
  }

  predicate Permits(status: Status) { status == Active || status == InGrace }

  /** Access needs all three records to allow it, and says GRACE exactly for a subscription in grace. */
  lemma PermitsIff(l: LicenseRow)
    ensures Permits(EffectiveAccess(l)) <==>
            l.status == Granted && (l.grant.Some? ==> l.grant.value == Granted) && (l.sub.Some? ==> Open(l.sub.value))
    ensures EffectiveAccess(l) == InGrace <==> Permits(EffectiveAccess(l)) && l.sub == Some(GRACE)
    ensures EffectiveAccess(l) == IsRevoked <==>
            l.status == Revoked || (l.status == Granted && l.grant == Some(Revoked))
    ensures EffectiveAccess(l) == IsExpired <==>
            l.status == Expired || (l.status == Granted && l.grant == Some(Expired))
    ensures EffectiveAccess(l) == IsSuspended <==>
            || l.status == Held || (l.status == Granted && l.grant == Some(Held))
            || (l.status == Granted && (l.grant.Some? ==> l.grant.value == Granted)
                && (l.sub == Some(SUSPENDED) || l.sub == Some(CANCELLED)))
  {
  }

  // ---- Tokens ----

  datatype TokenStatus = Fresh | Stale | TooOld | Bad

  /** What is signed for a license and a device. */
  function TokenText(key: string, fingerprint: string): string
  {
    key + ":" + fingerprint
  }

  function TokenFor(key: string, fingerprint: string, issued: int): Token
  {
    Signed(TokenText(key, fingerprint), issued)
  }

  /** License keys have no colon, so the text names one license and one device. */
  lemma TokenTextInjective(key: string, fingerprint: string, key': string, fingerprint': string)
    requires ':' !in key && ':' !in key'
    ensures TokenText(key, fingerprint) == TokenText(key', fingerprint') <==> key == key' && fingerprint == fingerprint'
  {
    if TokenText(key, fingerprint) == TokenText(key', fingerprint') {
      SplitAtColon(key, fingerprint, key', fingerprint');
    }
  }

  /** `_verify_token`: signature and value first, then age. */
  function VerifyToken(s: Server, token: Token, key: string, fingerprint: string, now: int): TokenStatus
  {
    if token.Forged? || token.value != TokenText(key, fingerprint) then Bad
    else if now - token.issued <= s.ttl then Fresh
    else if now - token.issued <= s.ttl + s.grace then Stale
    else TooOld
  }

  predicate Timely(s: Server, token: Token, key: string, fingerprint: string, now: int)
  {
    var checked := VerifyToken(s, token, key, fingerprint, now);
    checked == Fresh || checked == Stale
  }

  // ---- Rate limits ----

  const LIMIT_ACTIVATE := 10
  const LIMIT_VALIDATE := 60
  const LIMIT_IP := 120
  const LIMIT_OPERATION := 30

  function Stored(s: Server, id: string): Option<Counter>
  {
    if id in s.counters then Some(s.counters[id]) else None
  }

  function Counted(s: Server, id: string, now: int): Server
  {
    s.(counters := s.counters[id := Hit(Stored(s, id), now, RATE_WINDOW)])
  }

  predicate Over(s: Server, id: string, limit: nat, now: int)
  {
    Hit(Stored(s, id), now, RATE_WINDOW).count > limit
  }

  /** Both limits, the key's and then the address's; the second counter is touched only if the first
      lets the call through and an address is known. */
  function Limit(s: Server, id: string, limit: nat, ipId: string, ip: string, now: int): (Server, bool)
  {
    var s1 := Counted(s, id, now);
    if Over(s, id, limit, now) then (s1, true)
    else if ip == "" then (s1, false)
    else (Counted(s1, ipId + ip, now), Over(s1, ipId + ip, LIMIT_IP, now))
  }

  // ---- The operations, each as one atomic call ----

  function Seats(s: Server, key: string): set<string>
  {
    if key in s.seats then s.seats[key] else {}
  }

  function SetSeats(s: Server, key: string, fingerprints: set<string>): Server
  {
    s.(seats := s.seats[key := fingerprints])
  }

  function Activate(s0: Server, key: string, fingerprint: string, ip: string, now: int): (Server, Reply)
  {
    var (s, limited) := Limit(s0, "key:" + key, LIMIT_ACTIVATE, "ip:", ip, now);
    if limited then (s, Reply(RateLimited, None))
    else if key !in s.licenses then (s, Reply(Invalid, None))
    else
      var access := EffectiveAccess(s.licenses[key]);
      if !Permits(access) then (s, Reply(access, None))
      else if fingerprint in Seats(s, key) then (s, Reply(access, Some(TokenFor(key, fingerprint, now))))
      else if !(|Seats(s, key)| < s.licenses[key].seatLimit) then (s, Reply(SeatFull, None))
      else (SetSeats(s, key, Seats(s, key) + {fingerprint}), Reply(access, Some(TokenFor(key, fingerprint, now))))
  }

  function Validate(s0: Server, key: string, fingerprint: string, token: Token, ip: string, now: int): (Server, Reply)
  {
    if s0.maintenance then (s0, Reply(Active, Some(TokenFor(key, fingerprint, now))))
    else
      var (s, limited) := Limit(s0, "key:" + key, LIMIT_VALIDATE, "ip:", ip, now);
      if limited then (s, Reply(RateLimited, None))
      else
        var checked := VerifyToken(s, token, key, fingerprint, now);
        if checked == Bad then (s, Reply(Invalid, None))
        else if key !in s.licenses then (s, Reply(Invalid, None))
        else
          var access := EffectiveAccess(s.licenses[key]);
          if !Permits(access) then (s, Reply(access, None))
          else if checked == TooOld then (s, Reply(IsExpired, None))
          else if fingerprint !in Seats(s, key) then (s, Reply(Deactivated, None))
          else (s, Reply(access, Some(TokenFor(key, fingerprint, now))))
  }

  function Deactivate(s0: Server, key: string, fingerprint: string, now: int): (Server, Reply)
  {
    var s := Counted(s0, "key:" + key, now);
    if Over(s0, "key:" + key, LIMIT_ACTIVATE, now) then (s, Reply(RateLimited, None))
    else if key !in s.licenses then (s, Reply(Invalid, None))
    else (SetSeats(s, key, Seats(s, key) - {fingerprint}), Reply(Deactivated, None))
  }

  /** `operation` arrives trimmed and lower-cased. */
  function AuthorizeOperation(s0: Server, key: string, fingerprint: string, token: Token, product: string,
                              operation: string, requestHash: string, ip: string, now: int): (Server, Reply)
  {
    if operation == "" || |operation| > 100 || |requestHash| > 128 then (s0, Reply(InvalidRequest, None))
    else
      var (s, limited) := Limit(s0, "operation:" + key, LIMIT_OPERATION, "operation-ip:", ip, now);
      if limited then (s, Reply(RateLimited, None))
      else if s.maintenance then (s, Reply(Unavailable, None))
      else if !Timely(s, token, key, fingerprint, now) then (s, Reply(Invalid, None))
      else if key !in s.licenses then (s, Reply(Invalid, None))
      else
        var access := EffectiveAccess(s.licenses[key]);
        if !Permits(access) then (s, Reply(access, None))
        else if fingerprint !in Seats(s, key) then (s, Reply(Deactivated, None))
        else if (product, operation) !in s.policies then (s, Reply(OperationUnavailable, None))
        else
          var policy := s.policies[(product, operation)];
          var held := if key in s.entitlements && policy.entitlement in s.entitlements[key]
                      then s.entitlements[key][policy.entitlement] else "";
          if held != policy.required then (s, Reply(NotEntitled, None)) else (s, Reply(Authorized, None))
  }

  // ---- Gating ----

  predicate Allowed(s: Server, key: string)
  {
    key in s.licenses && Permits(EffectiveAccess(s.licenses[key]))
  }

  lemma LimitTouchesCountersOnly(s: Server, id: string, limit: nat, ipId: string, ip: string, now: int)
    ensures Limit(s, id, limit, ipId, ip, now).0 == s.(counters := Limit(s, id, limit, ipId, ip, now).0.counters)
  {
  }

  /** Exactly when an activation succeeds: never unless license, grant and subscription permit it; and
      what it is told otherwise. */
  lemma ActivateIff(s: Server, key: string, fingerprint: string, ip: string, now: int)
    ensures var reply, limited := Activate(s, key, fingerprint, ip, now).1, Limit(s, "key:" + key, 10, "ip:", ip, now).1;
            && (Permits(reply.status) <==>
                  && !limited && Allowed(s, key)
                  && (fingerprint in Seats(s, key) || |Seats(s, key)| < s.licenses[key].seatLimit))
            && (reply.status == RateLimited <==> limited)
            && (reply.status == Invalid <==> !limited && key !in s.licenses)
            && (reply.status == SeatFull <==>
                  && !limited && Allowed(s, key)
                  && fingerprint !in Seats(s, key) && |Seats(s, key)| >= s.licenses[key].seatLimit)
            && (!limited && key in s.licenses && reply.status != SeatFull ==> reply.status == EffectiveAccess(s.licenses[key]))
  {
    hide Limit;
    LimitTouchesCountersOnly(s, "key:" + key, LIMIT_ACTIVATE, "ip:", ip, now);
  }

  /** A token that the server signed for this license and device, no older than TTL plus grace. */
  predicate Presents(s: Server, token: Token, key: string, fingerprint: string, now: int)
  {
    token.Signed? && token.value == key + ":" + fingerprint && now - token.issued <= s.ttl + Max(0, s.grace)
  }

  /** Exactly when a heartbeat succeeds outside maintenance mode, and what it is told otherwise. */
  lemma ValidateIff(s: Server, key: string, fingerprint: string, token: Token, ip: string, now: int)
    requires !s.maintenance
    ensures var reply, limited := Validate(s, key, fingerprint, token, ip, now).1, Limit(s, "key:" + key, 60, "ip:", ip, now).1;
            && (Permits(reply.status) <==>
                  !limited && Allowed(s, key) && fingerprint in Seats(s, key) && Presents(s, token, key, fingerprint, now))
            && (reply.status == RateLimited <==> limited)
            && (reply.status == Invalid <==>
                  !limited && (token.Forged? || token.value != key + ":" + fingerprint || key !in s.licenses))
            && (reply.status == IsExpired && Allowed(s, key) <==>
                  !limited && Allowed(s, key) && token.Signed? && token.value == key + ":" + fingerprint
                  && now - token.issued > s.ttl + Max(0, s.grace))
            && (reply.status == Deactivated <==>
                  !limited && Allowed(s, key) && fingerprint !in Seats(s, key) && Presents(s, token, key, fingerprint, now))
            && (!limited && reply.status != Invalid && !Allowed(s, key) ==>
                  key in s.licenses && reply.status == EffectiveAccess(s.licenses[key]))
  {
    hide Limit;
    LimitTouchesCountersOnly(s, "key:" + key, LIMIT_VALIDATE, "ip:", ip, now);
  }

  /** In maintenance mode every heartbeat is answered active, and nothing is counted. */
  lemma MaintenanceAdmits(s: Server, key: string, fingerprint: string, token: Token, ip: string, now: int)
    requires s.maintenance
    ensures Validate(s, key, fingerprint, token, ip, now) == (s, Reply(Active, Some(TokenFor(key, fingerprint, now))))
  {
  }

  /** A token signed for another license or device is no good, whatever license and device present it. */
  lemma OtherTokenRefused(s: Server, key: string, fingerprint: string, key': string, fingerprint': string, issued: int,
                          ip: string, now: int)
    requires !s.maintenance && ':' !in key && ':' !in key' && (key != key' || fingerprint != fingerprint')
    requires !Limit(s, "key:" + key, LIMIT_VALIDATE, "ip:", ip, now).1
    ensures Validate(s, key, fingerprint, TokenFor(key', fingerprint', issued), ip, now).1 == Reply(Invalid, None)
  {
    hide Limit, EffectiveAccess;
    TokenTextInjective(key, fingerprint, key', fingerprint');
    ValidateIff(s, key, fingerprint, TokenFor(key', fingerprint', issued), ip, now);
    TokenIff(s, key, fingerprint, TokenFor(key', fingerprint', issued), ip, now);
  }

  /** Exactly when an operation is authorised: additionally its policy must be met, and never in
      maintenance mode. A token that is not for this license and device, or too old, is invalid. */
  lemma AuthorizeIff(s: Server, key: string, fingerprint: string, token: Token, product: string, operation: string,
                     requestHash: string, ip: string, now: int)
    ensures var reply := AuthorizeOperation(s, key, fingerprint, token, product, operation, requestHash, ip, now).1;
            var formed := 0 < |operation| <= 100 && |requestHash| <= 128;
            var limited := Limit(s, "operation:" + key, 30, "operation-ip:", ip, now).1;
            && (reply.status == Authorized <==>
                  && formed && !s.maintenance && !limited && Allowed(s, key)
                  && fingerprint in Seats(s, key) && Presents(s, token, key, fingerprint, now)
                  && (product, operation) in s.policies
                  && var policy := s.policies[(product, operation)];
                     policy.required ==
                     if key in s.entitlements && policy.entitlement in s.entitlements[key]
                     then s.entitlements[key][policy.entitlement] else "")
            && (reply.status == InvalidRequest <==> !formed)
            && (reply.status == RateLimited <==> formed && limited)
            && (reply.status == Unavailable <==> formed && !limited && s.maintenance)
            && (reply.status == Invalid <==>
                  formed && !limited && !s.maintenance && (key !in s.licenses || !Presents(s, token, key, fingerprint, now)))
            && (reply.status == Deactivated <==>
                  formed && !limited && !s.maintenance && Allowed(s, key) && Presents(s, token, key, fingerprint, now)
                  && fingerprint !in Seats(s, key))
            && (reply.status == OperationUnavailable <==>
                  formed && !limited && !s.maintenance && Allowed(s, key) && Presents(s, token, key, fingerprint, now)
                  && fingerprint in Seats(s, key) && (product, operation) !in s.policies)
            && (formed && !limited && !s.maintenance && key in s.licenses && !Allowed(s, key)
                && Presents(s, token, key, fingerprint, now) ==>
                  reply.status == EffectiveAccess(s.licenses[key]))
            && (reply.status == NotEntitled ==> (product, operation) in s.policies)
            && reply.token.None?
  {
    hide Limit;
    LimitTouchesCountersOnly(s, "operation:" + key, LIMIT_OPERATION, "operation-ip:", ip, now);
  }

  /** A token is issued exactly with a permitting answer, for the device that asked, and dated now. */
  lemma TokenIff(s: Server, key: string, fingerprint: string, token: Token, ip: string, now: int)
    ensures var reply := Activate(s, key, fingerprint, ip, now).1;
            reply.token == if Permits(reply.status) then Some(TokenFor(key, fingerprint, now)) else None
    ensures var reply := Validate(s, key, fingerprint, token, ip, now).1;
            reply.token == if Permits(reply.status) then Some(TokenFor(key, fingerprint, now)) else None
  {
    hide Limit, EffectiveAccess;
  }

  // ---- Limits over runs of calls ----

  /** A call is limited exactly when the key's count, this call included, passes its limit, or else the
      known address's count passes 120. The call is counted under the key, and under the address if the
      key lets it through. */
  lemma LimitIff(s: Server, id: string, limit: nat, ipId: string, ip: string, now: int)
    requires id != ipId + ip
    ensures var (after, limited) := Limit(s, id, limit, ipId, ip, now);
            var own, other := Hit(Stored(s, id), now, 60), Hit(Stored(s, ipId + ip), now, 60);
            && (limited <==> own.count > limit || (ip != "" && other.count > 120))
            && Stored(after, id) == Some(own)
            && Stored(after, ipId + ip) == (if own.count <= limit && ip != "" then Some(other) else Stored(s, ipId + ip))
  {
  }

  datatype Call = Call(fingerprint: string, ip: string, now: int)

  /** When activations of one license were answered with anything but a refusal to be served. */
  function Served(s: Server, key: string, calls: seq<Call>): seq<int>
    decreases |calls|
  {
    if calls == [] then []
    else
      var (next, reply) := Activate(s, key, calls[0].fingerprint, calls[0].ip, calls[0].now);
      (if reply.status == RateLimited then [] else [calls[0].now]) + Served(next, key, calls[1..])
  }

  function Times(calls: seq<Call>): seq<int>
  {
    seq(|calls|, i requires 0 <= i < |calls| => calls[i].now)
  }

  lemma OneActivation(s: Server, key: string, call: Call)
    ensures var (next, reply) := Activate(s, key, call.fingerprint, call.ip, call.now);
            var hit := Hit(Stored(s, "key:" + key), call.now, RATE_WINDOW);
            && Stored(next, "key:" + key) == Some(hit)
            && (reply.status != RateLimited ==> hit.count <= LIMIT_ACTIVATE)
  {
    hide EffectiveAccess;
    assert ("key:" + key)[0] == 'k' && ("ip:" + call.ip)[0] == 'i';
    LimitIff(s, "key:" + key, LIMIT_ACTIVATE, "ip:", call.ip, call.now);
  }

  lemma {:induction false} ServedAreAccepted(s: Server, key: string, calls: seq<Call>, a: int, b: int)
    ensures CountIn(Served(s, key, calls), a, b)
            <= CountIn(Accepted(Times(calls), Stored(s, "key:" + key), LIMIT_ACTIVATE, RATE_WINDOW), a, b)
    decreases |calls|
  {
    if calls != [] {
      hide Activate;
      var (next, reply) := Activate(s, key, calls[0].fingerprint, calls[0].ip, calls[0].now);
      OneActivation(s, key, calls[0]);
      ServedAreAccepted(next, key, calls[1..], a, b);
      var hit := Hit(Stored(s, "key:" + key), calls[0].now, RATE_WINDOW);
      assert Times(calls)[1..] == Times(calls[1..]);
      CountInCons(if reply.status == RateLimited then [] else [calls[0].now], Served(next, key, calls[1..]), a, b);
      CountInCons(if hit.count <= LIMIT_ACTIVATE then [calls[0].now] else [],
                  Accepted(Times(calls[1..]), Some(hit), LIMIT_ACTIVATE, RATE_WINDOW), a, b);
    }
  }

  /** However one license is activated, from a fresh counter on no more than twenty calls are served in
      any minute, and no more than ten in the minute that its first call opens. */
  lemma ActivationsAreLimited(s: Server, key: string, calls: seq<Call>, a: int)
    requires Stored(s, "key:" + key).None? && Forward(Times(calls))
    ensures CountIn(Served(s, key, calls), a, a + 60) <= 20
    ensures calls != [] ==> CountIn(Served(s, key, calls), calls[0].now, calls[0].now + 59) <= 10
  {
    ServedAreAccepted(s, key, calls, a, a + RATE_WINDOW);
    AtMostTwiceTheLimit(Times(calls), LIMIT_ACTIVATE, RATE_WINDOW, a);
    if calls != [] {
      ServedAreAccepted(s, key, calls, calls[0].now, calls[0].now + RATE_WINDOW - 1);
      AtMostTheLimitPerWindow(Times(calls), None, LIMIT_ACTIVATE, RATE_WINDOW);
    }
  }

  predicate WithinLimit(s: Server, key: string)
  {
    key in s.licenses ==> |Seats(s, key)| <= s.licenses[key].seatLimit
  }

  /** An activation adds its device to its own license when it succeeds, so a known device takes no
      new seat; nothing else changes. */
  lemma ActivateEffect(s: Server, key: string, fingerprint: string, ip: string, now: int)
    ensures var (after, reply) := Activate(s, key, fingerprint, ip, now);
            && after.licenses == s.licenses
            && (Permits(reply.status) && fingerprint !in Seats(s, key) ==>
                  key in s.licenses && |Seats(s, key)| < s.licenses[key].seatLimit
                  && after.seats == s.seats[key := Seats(s, key) + {fingerprint}])
            && (!Permits(reply.status) || fingerprint in Seats(s, key) ==> after.seats == s.seats)
  {
    hide Limit, EffectiveAccess;
    LimitTouchesCountersOnly(s, "key:" + key, LIMIT_ACTIVATE, "ip:", ip, now);
  }

  /** A deactivation frees the device's seat and is counted; nothing else changes. It is refused only for an unknown key
      or above the limit. */
  lemma DeactivateEffect(s: Server, key: string, fingerprint: string, now: int)
    ensures var (after, reply) := Deactivate(s, key, fingerprint, now);
            && after.licenses == s.licenses
            && (after.seats == if reply.status == Deactivated then s.seats[key := Seats(s, key) - {fingerprint}] else s.seats)
            && reply.token.None? && Stored(after, "key:" + key) == Some(Hit(Stored(s, "key:" + key), now, 60))
            && (reply.status == RateLimited <==> Hit(Stored(s, "key:" + key), now, 60).count > 10)
            && (reply.status == Deactivated <==>
                  key in s.licenses && Hit(Stored(s, "key:" + key), now, 60).count <= 10)
            && (reply.status == Deactivated || reply.status == RateLimited || reply.status == Invalid)
  {
  }

  /** Seats never exceed a license's limit, whatever is called. */
  lemma SeatsBounded(s: Server, key: string, fingerprint: string, ip: string, now: int, other: string)
    requires WithinLimit(s, other)
    ensures WithinLimit(Activate(s, key, fingerprint, ip, now).0, other)
    ensures WithinLimit(Deactivate(s, key, fingerprint, now).0, other)
  {
    hide Activate, Deactivate;
    ActivateEffect(s, key, fingerprint, ip, now);
    DeactivateEffect(s, key, fingerprint, now);
    FewerSeats(Seats(s, key), fingerprint);
  }

  lemma FewerSeats(seats: set<string>, fingerprint: string)
    ensures |seats - {fingerprint}| <= |seats|
  {
  }

  // ---- The heartbeat chain ----

  /** One heartbeat as the server sees it; the server may have changed in between. */
  datatype Beat = Beat(server: Server, now: int, ip: string)

  /** The device is in good standing at this beat. */
  predicate Healthy(b: Beat, key: string, fingerprint: string, ttl: int, grace: int)
  {
    && b.server.ttl == ttl && b.server.grace == grace && !b.server.maintenance
    && Allowed(b.server, key) && fingerprint in Seats(b.server, key)
    && !Limit(b.server, "key:" + key, LIMIT_VALIDATE, "ip:", b.ip, b.now).1
  }

  /** The answers to a sequence of heartbeats; the device keeps its newest token. */
  function Heartbeats(beats: seq<Beat>, key: string, fingerprint: string, token: Token): seq<Reply>
  {
    if beats == [] then []
    else
      var reply := Validate(beats[0].server, key, fingerprint, token, beats[0].ip, beats[0].now).1;
      [reply] + Heartbeats(beats[1..], key, fingerprint, if reply.token.Some? then reply.token.value else token)
  }

  /** Gaps never longer than TTL plus grace, counted from the token's issue. */
  predicate Regular(beats: seq<Beat>, issued: int, ttl: int, grace: int)
  {
    beats == [] || (beats[0].now - issued <= ttl + grace && Regular(beats[1..], beats[0].now, ttl, grace))
  }

  /** A device in good standing whose heartbeats are never further apart than TTL plus grace is never
      refused: each answer permits it and carries a token that restarts the clock. */
  lemma {:induction false} RegularDeviceNeverExpires(beats: seq<Beat>, key: string, fingerprint: string,
                                                     issued: int, ttl: int, grace: int)
    requires ttl >= 0 && grace >= 0
    requires forall i :: 0 <= i < |beats| ==> Healthy(beats[i], key, fingerprint, ttl, grace)
    requires Regular(beats, issued, ttl, grace)
    ensures var replies := Heartbeats(beats, key, fingerprint, TokenFor(key, fingerprint, issued));
            |replies| == |beats|
            && forall i :: 0 <= i < |beats| ==>
                 Permits(replies[i].status) && replies[i].token == Some(TokenFor(key, fingerprint, beats[i].now))
  {
    if beats != [] {
      HealthyBeat(beats[0], key, fingerprint, issued, ttl, grace);
      RegularDeviceNeverExpires(beats[1..], key, fingerprint, beats[0].now, ttl, grace);
    }
  }

  lemma HealthyBeat(b: Beat, key: string, fingerprint: string, issued: int, ttl: int, grace: int)
    requires grace >= 0 && Healthy(b, key, fingerprint, ttl, grace)
    ensures var reply := Validate(b.server, key, fingerprint, TokenFor(key, fingerprint, issued), b.ip, b.now).1;
            if b.now - issued <= ttl + grace
            then Permits(reply.status) && reply.token == Some(TokenFor(key, fingerprint, b.now))
            else reply == Reply(IsExpired, None)
  {
  }

  /** One longer gap, and every answer from then on is `expired`: the stale token is never renewed
      by heartbeats. */
  lemma {:induction false} LongGapExpires(beats: seq<Beat>, key: string, fingerprint: string, issued: int, ttl: int, grace: int)
    requires grace >= 0
    requires forall i :: 0 <= i < |beats| ==>
               Healthy(beats[i], key, fingerprint, ttl, grace) && beats[i].now - issued > ttl + grace
    ensures var replies := Heartbeats(beats, key, fingerprint, TokenFor(key, fingerprint, issued));
            |replies| == |beats| && forall i :: 0 <= i < |beats| ==> replies[i] == Reply(IsExpired, None)
  {
    if beats != [] {
      HealthyBeat(beats[0], key, fingerprint, issued, ttl, grace);
      LongGapExpires(beats[1..], key, fingerprint, issued, ttl, grace);
    }
  }

  /** Re-activation ends it: the activation's token passes the next heartbeat in time. */
  lemma ReactivationRestarts(s: Server, key: string, fingerprint: string, ip: string, now: int, b: Beat, ttl: int, grace: int)
    requires grace >= 0 && Permits(Activate(s, key, fingerprint, ip, now).1.status)
    requires Healthy(b, key, fingerprint, ttl, grace) && b.now - now <= ttl + grace
    ensures var token := Activate(s, key, fingerprint, ip, now).1.token;
            token.Some? && Permits(Validate(b.server, key, fingerprint, token.value, b.ip, b.now).1.status)
  {
    TokenIff(s, key, fingerprint, Forged, ip, now);
    HealthyBeat(b, key, fingerprint, now, ttl, grace);
  }

  // ---- Access over lifecycle runs ----

  /** What the API reads for license `l`. */
  function RowOf(a: Access, l: nat): LicenseRow
    requires l < |a.licenses| && a.licenses[l].grant < |a.grants|
    requires a.licenses[l].sub.Some? ==> a.licenses[l].sub.value < |a.subs|
  {
    var license := a.licenses[l];
    LicenseRow(license.status, Some(a.grants[license.grant].status),
               if license.sub.Some? then Some(a.subs[license.sub.value].status) else None, license.seatLimit)
  }

  /** License `l` opens exactly while it is active and its subscription, if it has one, is ACTIVE or
      GRACE. */
  ghost predicate Decided(a: Access, l: nat)
    requires l < |a.licenses|
  {
    var license := a.licenses[l];
    && license.grant < |a.grants| && (license.sub.Some? ==> license.sub.value < |a.subs|)
    && (Permits(EffectiveAccess(RowOf(a, l))) <==>
          license.status == Granted && (license.sub.Some? ==> Open(a.subs[license.sub.value].status)))
  }

  lemma PairedDecides(a: Access, l: nat)
    requires Paired(a) && l < |a.licenses|
    ensures Decided(a, l)
  {
  }

  lemma InStepFollows(a: Access, l: nat)
    requires Lockstep(a) && l < |a.licenses| && a.licenses[l].status != Revoked && a.licenses[l].sub.Some?
    ensures Decided(a, l)
    ensures Permits(EffectiveAccess(RowOf(a, l))) <==> Open(a.subs[a.licenses[l].sub.value].status)
  {
    assert Follows(a, a.grants[a.licenses[l].grant]);
  }

  /** In every state of every run, seller's actions and stale extensions included, no license opens
      unless its subscription does; and if each unlocked write meets its guard, a license that is not
      revoked opens exactly while its subscription is ACTIVE or GRACE. */
  lemma AccessFollowsSubscription(states: seq<Access>, events: seq<Event>, i: nat, l: nat)
    requires IsRun(states, events) && Lockstep(states[0]) && i < |states| && l < |states[i].licenses|
    ensures Decided(states[i], l)
    ensures var license := states[i].licenses[l];
            EachKeepsStep(states, events) && license.status != Revoked && license.sub.Some? ==>
              (Permits(EffectiveAccess(RowOf(states[i], l))) <==> Open(states[i].subs[license.sub.value].status))
  {
    hide Lockstep, Paired, Apply, KeepsStep, EffectiveAccess;
    EveryRunFollows(states, events, 0);
    PairedDecides(states[i], l);
    if EachKeepsStep(states, events) && states[i].licenses[l].status != Revoked && states[i].licenses[l].sub.Some? {
      InStepFollows(states[i], l);
    }
  }

  /** The seller's actions skip the cascade, yet from a copy of any age they never open what was shut,
      and they close what was open exactly when they cancel or suspend. */
  lemma SellerActionsStillGate(a: Access, s: nat, copy: Sub, l: nat)
    requires Lockstep(a) && s < |a.subs| && l < |a.licenses| && a.licenses[l].sub == Some(s)
    ensures Decided(a, l) && Decided(SellerToggleSuspend(a, s, copy), l) && Decided(SellerCancel(a, s, copy), l)
    ensures Permits(EffectiveAccess(RowOf(SellerCancel(a, s, copy), l))) <==>
            Permits(EffectiveAccess(RowOf(a, l))) && !Open(copy.status)
    ensures Permits(EffectiveAccess(RowOf(SellerToggleSuspend(a, s, copy), l))) <==>
            Permits(EffectiveAccess(RowOf(a, l))) && !Open(copy.status)
  {
    assert Follows(a, a.grants[a.licenses[l].grant]);
  }

  // ---- The service ----

  class ActivationApi {
    var server: Server

    constructor (server: Server)
      ensures this.server == server
    {
      this.server := server;
    }

    method CheckRateLimit(id: string, limit: nat, now: int) returns (exceeded: bool)
      modifies this
      ensures server == Counted(old(server), id, now) && exceeded == Over(old(server), id, limit, now)
    {
      var counter := Hit(Stored(server, id), now, RATE_WINDOW);
      server := server.(counters := server.counters[id := counter]);
      return counter.count > limit;
    }

    method ActivateDevice(key: string, fingerprint: string, ip: string, now: int) returns (reply: Reply)
      modifies this
      ensures (server, reply) == Activate(old(server), key, fingerprint, ip, now)
    {
      var exceeded := CheckRateLimit("key:" + key, LIMIT_ACTIVATE, now);
      if exceeded {
        return Reply(RateLimited, None);
      }
      if ip != "" {
        exceeded := CheckRateLimit("ip:" + ip, LIMIT_IP, now);
        if exceeded {
          return Reply(RateLimited, None);
        }
      }
      if key !in server.licenses {
        return Reply(Invalid, None);
      }
      var access := EffectiveAccess(server.licenses[key]);
      if !Permits(access) {
        return Reply(access, None);
      }
      var seats := Seats(server, key);
      if fingerprint !in seats {
        if |seats| >= server.licenses[key].seatLimit {
          return Reply(SeatFull, None);
        }
        server := server.(seats := server.seats[key := seats + {fingerprint}]);
      }
      return Reply(access, Some(TokenFor(key, fingerprint, now)));
    }

    method ValidateDevice(key: string, fingerprint: string, token: Token, ip: string, now: int) returns (reply: Reply)
      modifies this
      ensures (server, reply) == Validate(old(server), key, fingerprint, token, ip, now)
    {
      if server.maintenance {
        return Reply(Active, Some(TokenFor(key, fingerprint, now)));
      }
      var exceeded := CheckRateLimit("key:" + key, LIMIT_VALIDATE, now);
      if exceeded {
        return Reply(RateLimited, None);
      }
      if ip != "" {
        exceeded := CheckRateLimit("ip:" + ip, LIMIT_IP, now);
        if exceeded {
          return Reply(RateLimited, None);
        }
      }
      var checked := VerifyToken(server, token, key, fingerprint, now);
      if checked == Bad || key !in server.licenses {
        return Reply(Invalid, None);
      }
      var access := EffectiveAccess(server.licenses[key]);
      if !Permits(access) {
        return Reply(access, None);
      }
      if checked == Fresh || checked == Stale {
        if fingerprint !in Seats(server, key) {
          return Reply(Deactivated, None);
        }
        return Reply(access, Some(TokenFor(key, fingerprint, now)));
      }
      return Reply(IsExpired, None);
    }

    method DeactivateDevice(key: string, fingerprint: string, now: int) returns (reply: Reply)
      modifies this
      ensures (server, reply) == Deactivate(old(server), key, fingerprint, now)
    {
      var exceeded := CheckRateLimit("key:" + key, LIMIT_ACTIVATE, now);
      if exceeded {
        return Reply(RateLimited, None);
      }
      if key !in server.licenses {
        return Reply(Invalid, None);
      }
      server := server.(seats := server.seats[key := Seats(server, key) - {fingerprint}]);
      return Reply(Deactivated, None);
    }
  }
}
