/** The per-principal token context of `userContext` (index.js): `auth()`
    answers from the current grant while it is fresh and otherwise shares
    one refresh among all callers. Promises become tickets: refresh #k is
    the k-th call of `refreshAccessToken`, and a caller who must wait is
    handed the ticket of the refresh it is attached to. */
module TokenContexts {
  import opened Wrappers
  import opened Grants

  /** The closure variable `refreshing`: no refresh, refresh #ticket
      running, or refresh #ticket rejected. The source clears it only on
      success, so a rejected refresh stays stored. */
  datatype Marker =
    | Idle
    | InFlight(ticket: nat)
    | Rejected(ticket: nat, error: AuthError)

  /** What one `auth()` call gets: a header at once, or attachment to the
      refresh promise #ticket (already settled or not). */
  datatype Outcome = Immediate(header: AuthHeader) | Attached(ticket: nat)

  /** A context's state. `calls[k]` is the refresh token passed to refresh
      #k (absent when the grant has none, which the source passes on as
      `undefined`), `settled[k]` what refresh #k settled to, `events` the number of
      "refresh" events emitted, `userId` the principal fixed at creation. */
  datatype State = State(
    grant: Grant,
    marker: Marker,
    calls: seq<Option<string>>,
    settled: seq<Result<AuthHeader, AuthError>>,
    events: nat,
    userId: Option<string>)

  /** The context's invariant. At most one refresh is outstanding, and it
      is the one the marker names; it was called with the current grant's
      refresh token. Every settled refresh but a stored rejection
      succeeded, each success emitted one event, and after a success the
      last header is the current grant's. */
  predicate WellFormed(s: State)
  {
    && |s.settled| <= |s.calls| <= |s.settled| + 1
    && (s.marker.InFlight? <==> |s.calls| == |s.settled| + 1)
    && (s.marker.InFlight? ==> s.marker.ticket == |s.settled|)
    && (s.marker.Rejected? ==>
          && 0 < |s.calls|
          && s.marker.ticket == |s.calls| - 1
          && s.settled[s.marker.ticket] == Failure(s.marker.error))
    && (!s.marker.Idle? ==> s.calls[s.marker.ticket] == s.grant.refreshToken)
    && (forall k :: 0 <= k < |s.settled| ==>
          s.settled[k].Success? || (s.marker.Rejected? && k == s.marker.ticket))
    && s.events == |s.settled| - (if s.marker.Rejected? then 1 else 0)
    && (s.marker.Idle? && 0 < |s.settled| ==>
          s.settled[|s.settled| - 1] == Success(BuildAuth(s.grant.accessToken)))
  }

  /** What a caller attached to ticket k receives, once refresh #k has
      settled. */
  function Settlement(s: State, k: nat): (r: Option<Result<AuthHeader, AuthError>>)
  {
    if k < |s.settled| then Some(s.settled[k]) else None
  }

  /** `userContext(oauth2, grant)`: a fresh context around the grant, with
      the principal copied from it. */
  function Initial(g: Grant): (s: State)
    ensures WellFormed(s)
    ensures s.grant == g && s.userId == g.userId
    ensures s.marker == Idle && s.calls == [] && s.settled == [] && s.events == 0
  {
    State(g, Idle, [], [], 0, g.userId)
  }

  /** One `auth()` call at time `now` (milliseconds). */
  function AuthStep(s: State, now: int): (r: (State, Outcome))
    requires WellFormed(s)
    ensures WellFormed(r.0)
    ensures r.1.Immediate? <==> now < s.grant.nextRefresh
    ensures r.1.Immediate? ==> r.0 == s && r.1.header.bearer == s.grant.accessToken
    ensures r.0.grant == s.grant && r.0.userId == s.userId && r.0.events == s.events
    ensures r.0.settled == s.settled
    ensures r.0.calls == if s.grant.nextRefresh <= now && s.marker.Idle?
                         then s.calls + [s.grant.refreshToken] else s.calls
    ensures r.1.Attached? ==> !r.0.marker.Idle? && r.1.ticket == r.0.marker.ticket
    ensures r.1.Attached? ==>
      Settlement(r.0, r.1.ticket) == if s.marker.Rejected? then Some(Failure(s.marker.error)) else None
  {
    if now < s.grant.nextRefresh then
      (s, Immediate(BuildAuth(s.grant.accessToken)))
    else
      match s.marker
      case Idle =>
        (s.(marker := InFlight(|s.calls|), calls := s.calls + [s.grant.refreshToken]), Attached(|s.calls|))
      case InFlight(k) => (s, Attached(k))
      case Rejected(k, _) => (s, Attached(k))
  }

  /** The running refresh resolved with grant g: g replaces the grant, the
      marker is cleared, one event is emitted and every waiter gets g's
      header. */
  function CompleteStep(s: State, g: Grant): (t: State)
    requires WellFormed(s) && s.marker.InFlight?
    ensures WellFormed(t)
    ensures t.grant == g && t.marker == Idle && t.events == s.events + 1
    ensures t.calls == s.calls && t.userId == s.userId
    ensures s.settled <= t.settled && |t.settled| == |s.settled| + 1
    ensures Settlement(t, s.marker.ticket) == Some(Success(BuildAuth(g.accessToken)))
  {
    s.(grant := g, marker := Idle, settled := s.settled + [Success(BuildAuth(g.accessToken))],
       events := s.events + 1)
  }

  /** The running refresh rejected with e: the grant stays, no event is
      emitted, and the rejection stays stored in the marker. */
  function FailStep(s: State, e: AuthError): (t: State)
    requires WellFormed(s) && s.marker.InFlight?
    ensures WellFormed(t)
    ensures t.grant == s.grant && t.marker == Rejected(s.marker.ticket, e) && t.events == s.events
    ensures t.calls == s.calls && t.userId == s.userId
    ensures s.settled <= t.settled && |t.settled| == |s.settled| + 1
    ensures Settlement(t, s.marker.ticket) == Some(Failure(e))
  {
    s.(marker := Rejected(s.marker.ticket, e), settled := s.settled + [Failure(e)])
  }

  /** Something that happens to a context: an `auth()` call, or the
      running refresh settling (transport and `prepairGrant` together). */
  datatype Event = AuthCall(now: int) | RefreshSettled(result: Result<Grant, AuthError>)

  /** One event. A settlement while no refresh runs has no promise to
      settle and changes nothing. */
  function Step(s: State, e: Event): (t: State)
    requires WellFormed(s)
    ensures WellFormed(t)
    ensures t.userId == s.userId
    ensures s.calls <= t.calls && s.settled <= t.settled
    ensures |t.calls| <= |s.calls| + 1
    ensures |s.calls| < |t.calls| ==> s.marker.Idle? && e.AuthCall? && s.grant.nextRefresh <= e.now
    ensures t.grant != s.grant ==> s.marker.InFlight? && e.RefreshSettled? && e.result.Success?
  {
    match e
    case AuthCall(now) => AuthStep(s, now).0
    case RefreshSettled(res) =>
      if !s.marker.InFlight? then s
      else match res
        case Success(g) => CompleteStep(s, g)
        case Failure(err) => FailStep(s, err)
  }

  /** The state after a sequence of events. Whatever happens, the
      invariant holds (so at most one refresh is ever outstanding), the
      principal is the one fixed at creation, and no refresh call or
      settled result is ever taken back. */
  function Run(s: State, evs: seq<Event>): (t: State)
    requires WellFormed(s)
    ensures WellFormed(t)
    ensures t.userId == s.userId
    ensures s.calls <= t.calls && s.settled <= t.settled
    ensures |t.calls| <= |t.settled| + 1
    decreases |evs|
  {
    if evs == [] then s else Run(Step(s, evs[0]), evs[1..])
  }

  /** `auth()` called at each of `times` in turn, before anything settles. */
  function AuthAll(s: State, times: seq<int>): (r: (State, seq<Outcome>))
    requires WellFormed(s)
    ensures WellFormed(r.0) && |r.1| == |times|
    decreases |times|
  {
    if times == [] then (s, [])
    else
      var (s1, o) := AuthStep(s, times[0]);
      var (s2, os) := AuthAll(s1, times[1..]);
      (s2, [o] + os)
  }

  /** Callers arriving while a refresh runs attach to it: nothing changes
      and no refresh call is made. */
  lemma {:induction false} LateCallersAttach(s: State, times: seq<int>)
    requires WellFormed(s) && s.marker.InFlight?
    requires forall i :: 0 <= i < |times| ==> s.grant.nextRefresh <= times[i]
    ensures AuthAll(s, times).0 == s
    ensures forall i :: 0 <= i < |times| ==> AuthAll(s, times).1[i] == Attached(s.marker.ticket)
    decreases |times|
  {
    if times != [] {
      LateCallersAttach(s, times[1..]);
    }
  }

  /** Single flight: any number of callers that find the grant expired
      while no refresh is stored make exactly one refresh call, with the
      current refresh token, and all attach to it; callers that find one
      running make none. */
  lemma ExpiredCallersShareOneRefresh(s: State, times: seq<int>)
    requires WellFormed(s) && !s.marker.Rejected? && 0 < |times|
    requires forall i :: 0 <= i < |times| ==> s.grant.nextRefresh <= times[i]
    ensures AuthAll(s, times).0.grant == s.grant
    ensures AuthAll(s, times).0.calls == if s.marker.Idle? then s.calls + [s.grant.refreshToken] else s.calls
    ensures AuthAll(s, times).0.marker == InFlight(|s.settled|)
    ensures forall i :: 0 <= i < |times| ==> AuthAll(s, times).1[i] == Attached(|s.settled|)
  {
    if s.marker.InFlight? {
      LateCallersAttach(s, times);
    } else {
      var s1 := AuthStep(s, times[0]).0;
      LateCallersAttach(s1, times[1..]);
    }
  }

  /** When the shared refresh resolves with g, every one of those callers
      gets g's header, the context holds g and one event is emitted. */
  lemma {:induction false} WaitersShareRefreshedHeader(s: State, times: seq<int>, g: Grant)
    requires WellFormed(s) && !s.marker.Rejected? && 0 < |times|
    requires forall i :: 0 <= i < |times| ==> s.grant.nextRefresh <= times[i]
    ensures AuthAll(s, times).0.marker.InFlight?
    ensures CompleteStep(AuthAll(s, times).0, g).grant == g
    ensures CompleteStep(AuthAll(s, times).0, g).events == s.events + 1
    ensures forall i :: 0 <= i < |times| ==>
      AuthAll(s, times).1[i] == Attached(|s.settled|) &&
      Settlement(CompleteStep(AuthAll(s, times).0, g), |s.settled|) == Some(Success(BuildAuth(g.accessToken)))
  {
    ExpiredCallersShareOneRefresh(s, times);
  }

  /** When the shared refresh rejects with e, every one of those callers is
      rejected with e and the old grant stays. */
  lemma {:induction false} WaitersShareFailure(s: State, times: seq<int>, e: AuthError)
    requires WellFormed(s) && !s.marker.Rejected? && 0 < |times|
    requires forall i :: 0 <= i < |times| ==> s.grant.nextRefresh <= times[i]
    ensures AuthAll(s, times).0.marker.InFlight?
    ensures FailStep(AuthAll(s, times).0, e).grant == s.grant
    ensures FailStep(AuthAll(s, times).0, e).events == s.events
    ensures forall i :: 0 <= i < |times| ==>
      AuthAll(s, times).1[i] == Attached(|s.settled|) &&
      Settlement(FailStep(AuthAll(s, times).0, e), |s.settled|) == Some(Failure(e))
  {
    ExpiredCallersShareOneRefresh(s, times);
  }

  /** A stored rejection is final: no later event changes the context, so
      no refresh is ever called again and every later expired caller is
      rejected with the stored failure. */
  lemma {:induction false} RejectedIsFinal(s: State, evs: seq<Event>)
    requires WellFormed(s) && s.marker.Rejected?
    ensures Run(s, evs) == s
    decreases |evs|
  {
    if evs != [] {
      assert Step(s, evs[0]) == s;
      RejectedIsFinal(s, evs[1..]);
    }
  }

  /** A refresh whose response token cannot be decoded rejects the refresh:
      the context keeps its grant and stores the decode failure. */
  lemma UndecodableRefreshKeepsGrant(s: State, t: RawResponse, now: int, gid: string, decode: string -> Option<Claims>)
    requires WellFormed(s) && s.marker.InFlight?
    requires decode(t.accessToken).None?
    ensures var u := Step(s, RefreshSettled(PrepareGrant(t, now, gid, decode)));
      u.grant == s.grant && u.marker == Rejected(s.marker.ticket, DecodeError)
  {
  }

  /** A grant with a one-hour lifetime issued at time 0 is served as is
      until 1 799 999 ms; at 1 800 000 ms it counts as expired and one
      refresh is called with its refresh token. */
  lemma HalfLifeBoundary(t: RawResponse, gid: string, decode: string -> Option<Claims>)
    requires t.expiresIn == 3600 && decode(t.accessToken).Some?
    ensures PrepareGrant(t, 0, gid, decode).Success?
    ensures var s := Initial(PrepareGrant(t, 0, gid, decode).value);
      && AuthStep(s, 1799999).1 == Immediate(BuildAuth(t.accessToken))
      && AuthStep(s, 1800000).1 == Attached(0)
      && AuthStep(s, 1800000).0.calls == [t.refreshToken]
  {
  }

  /** The context object of `userContext`. Its fields are the state above;
      `userId` is set once at creation. */
  class TokenContext {
    var grant: Grant
    var marker: Marker
    var calls: seq<Option<string>>
    var settled: seq<Result<AuthHeader, AuthError>>
    var events: nat
    const userId: Option<string>

    function Snapshot(): (s: State)
      reads this
    {
      State(grant, marker, calls, settled, events, userId)
    }

    predicate Valid()
      reads this
    {
      WellFormed(Snapshot())
    }

    constructor (g: Grant)
      ensures Valid() && Snapshot() == Initial(g)
    {
      grant, marker, calls, settled, events := g, Idle, [], [], 0;
      userId := g.userId;
    }

    /** `auth()` at time `now`. */
    method Auth(now: int) returns (o: Outcome)
      requires Valid()
      modifies this
      ensures Valid()
      ensures (Snapshot(), o) == AuthStep(old(Snapshot()), now)
    {
      if now < grant.nextRefresh {
        return Immediate(BuildAuth(grant.accessToken));
      }
      if marker.Idle? {
        marker := InFlight(|calls|);
        calls := calls + [grant.refreshToken];
      }
      o := Attached(marker.ticket);
    }

    /** The running refresh resolved with g. */
    method CompleteRefresh(g: Grant) returns (h: AuthHeader)
      requires Valid() && marker.InFlight?
      modifies this
      ensures Valid()
      ensures Snapshot() == CompleteStep(old(Snapshot()), g)
      ensures h == BuildAuth(g.accessToken)
    {
      grant := g;
      marker := Idle;
      events := events + 1;
      h := BuildAuth(g.accessToken);
      settled := settled + [Success(h)];
    }

    /** The running refresh rejected with e. */
    method FailRefresh(e: AuthError)
      requires Valid() && marker.InFlight?
      modifies this
      ensures Valid()
      ensures Snapshot() == FailStep(old(Snapshot()), e)
    {
      marker := Rejected(marker.ticket, e);
      settled := settled + [Failure(e)];
    }

    /** What a caller attached to ticket k has received, if anything. */
    function Waiter(k: nat): (r: Option<Result<AuthHeader, AuthError>>)
      reads this
      requires Valid()
      ensures r.Some? <==> k < |settled|
      ensures r.Some? && r.value.Failure? ==> marker == Rejected(k, r.value.error)
      ensures marker.Rejected? && k == marker.ticket ==> r == Some(Failure(marker.error))
      ensures marker.Idle? && k + 1 == |settled| ==> r == Some(Success(BuildAuth(grant.accessToken)))
    {
      Settlement(Snapshot(), k)
    }
  }
}
