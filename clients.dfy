/** The client object of `OAuth2Client` (index.js): the token requests it
    builds and the shared client-credentials context that `getClientAuth`
    creates once and reuses. */
module Clients {
  import opened Wrappers
  import opened Grants
  import opened TokenContexts

  /** The closure variable `clientGrant`: never assigned, or the promise of
      the client context while the client grant is being fetched, once it
      resolved, or once it rejected. A rejection stays stored. */
  datatype Slot<C> = Unset | Fetching | Ready(ctx: C) | FetchFailed(error: AuthError)

  /** `clientGrant` together with the number of `getClientAccessToken`
      calls made so far. */
  datatype ClientState = ClientState(slot: Slot<State>, fetches: nat)

  /** What one `getClientAuth()` call gets: nothing yet (its continuation
      runs `auth()` on the context once the client grant is in), the
      outcome of `auth()` on the shared context, or the stored rejection. */
  datatype ClientOutcome = AwaitingClient | ContextAuth(outcome: Outcome) | ClientRejected(error: AuthError)

  /** The client grant is fetched once: from the first call on the slot is
      assigned, and exactly one fetch has been made. */
  predicate ClientWellFormed(c: ClientState)
  {
    && c.fetches == (if c.slot.Unset? then 0 else 1)
    && (c.slot.Ready? ==> WellFormed(c.slot.ctx))
  }

  /** A freshly built `OAuth2Client`. */
  function ClientInitial(): (c: ClientState)
    ensures ClientWellFormed(c) && c.slot == Unset && c.fetches == 0
  {
    ClientState(Unset, 0)
  }

  /** One `getClientAuth()` call at time `now`. */
  function ClientAuthStep(c: ClientState, now: int): (r: (ClientState, ClientOutcome))
    requires ClientWellFormed(c)
    ensures ClientWellFormed(r.0) && r.0.fetches == 1
    ensures c.fetches < r.0.fetches <==> c.slot.Unset?
    ensures c.slot.Unset? || c.slot.Fetching? ==> r == (ClientState(Fetching, 1), AwaitingClient)
    ensures c.slot.Ready? ==>
      r.0.slot.Ready? && r.1.ContextAuth? && (r.0.slot.ctx, r.1.outcome) == AuthStep(c.slot.ctx, now)
    ensures c.slot.FetchFailed? ==> r == (c, ClientRejected(c.slot.error))
  {
    match c.slot
    case Unset => (ClientState(Fetching, c.fetches + 1), AwaitingClient)
    case Fetching => (c, AwaitingClient)
    case Ready(ctx) =>
      var (ctx', o) := AuthStep(ctx, now);
      (c.(slot := Ready(ctx')), ContextAuth(o))
    case FetchFailed(e) => (c, ClientRejected(e))
  }

  /** The client-credentials fetch settled: a grant becomes the shared
      context (`userContext`), a rejection is stored. */
  function ClientFetchStep(c: ClientState, res: Result<Grant, AuthError>): (t: ClientState)
    requires ClientWellFormed(c) && c.slot.Fetching?
    ensures ClientWellFormed(t) && t.fetches == c.fetches
    ensures res.Success? ==> t.slot == Ready(Initial(res.value))
    ensures res.Failure? ==> t.slot == FetchFailed(res.error)
  {
    match res
    case Success(g) => c.(slot := Ready(Initial(g)))
    case Failure(e) => c.(slot := FetchFailed(e))
  }

  /** Something that happens to a client: a `getClientAuth()` call, the
      client fetch settling, or an event of the shared context. */
  datatype ClientEvent =
    | ClientAuthCall(now: int)
    | ClientFetchSettled(result: Result<Grant, AuthError>)
    | SharedContext(event: Event)

  function ClientStep(c: ClientState, e: ClientEvent): (t: ClientState)
    requires ClientWellFormed(c)
    ensures ClientWellFormed(t)
    ensures !c.slot.Unset? ==> !t.slot.Unset?
    ensures c.slot.Ready? ==> t.slot.Ready? && t.slot.ctx.userId == c.slot.ctx.userId
  {
    match e
    case ClientAuthCall(now) => ClientAuthStep(c, now).0
    case ClientFetchSettled(res) => if c.slot.Fetching? then ClientFetchStep(c, res) else c
    case SharedContext(ev) => if c.slot.Ready? then c.(slot := Ready(Step(c.slot.ctx, ev))) else c
  }

  /** The client after a sequence of events: `getClientAccessToken` has
      been called at most once, and once the shared context exists it is
      kept, with the same principal, for good. */
  function ClientRun(c: ClientState, evs: seq<ClientEvent>): (t: ClientState)
    requires ClientWellFormed(c)
    ensures ClientWellFormed(t) && t.fetches <= 1
    ensures !c.slot.Unset? ==> !t.slot.Unset? && t.fetches == c.fetches
    ensures c.slot.Ready? ==> t.slot.Ready? && t.slot.ctx.userId == c.slot.ctx.userId
    decreases |evs|
  {
    if evs == [] then c else ClientRun(ClientStep(c, evs[0]), evs[1..])
  }

  /** `getClientAuth()` called at each of `times` in turn. */
  function ClientAuthAll(c: ClientState, times: seq<int>): (r: (ClientState, seq<ClientOutcome>))
    requires ClientWellFormed(c)
    ensures ClientWellFormed(r.0) && |r.1| == |times|
    decreases |times|
  {
    if times == [] then (c, [])
    else
      var (c1, o) := ClientAuthStep(c, times[0]);
      var (c2, os) := ClientAuthAll(c1, times[1..]);
      (c2, [o] + os)
  }

  /** Overlapping first calls: however many `getClientAuth()` calls arrive
      before the client grant is in, one fetch is made and all of them
      wait on it. */
  lemma {:induction false} FirstCallersFetchOnce(c: ClientState, times: seq<int>)
    requires ClientWellFormed(c) && (c.slot.Unset? || c.slot.Fetching?) && 0 < |times|
    ensures ClientAuthAll(c, times).0 == ClientState(Fetching, 1)
    ensures forall i :: 0 <= i < |times| ==> ClientAuthAll(c, times).1[i] == AwaitingClient
    decreases |times|
  {
    if 1 < |times| {
      FirstCallersFetchOnce(ClientAuthStep(c, times[0]).0, times[1..]);
    }
  }

  /** Callers of the shared context while its grant is fresh all get that
      grant's header, and no fetch or refresh is made. */
  lemma {:induction false} FreshClientGrantServesAll(c: ClientState, times: seq<int>)
    requires ClientWellFormed(c) && c.slot.Ready?
    requires forall i :: 0 <= i < |times| ==> times[i] < c.slot.ctx.grant.nextRefresh
    ensures ClientAuthAll(c, times).0 == c
    ensures forall i :: 0 <= i < |times| ==>
      ClientAuthAll(c, times).1[i] == ContextAuth(Immediate(BuildAuth(c.slot.ctx.grant.accessToken)))
    decreases |times|
  {
    if times != [] {
      FreshClientGrantServesAll(c, times[1..]);
    }
  }

  /** Overlapping first callers share one header: all of them wait on the
      single fetch, and once it resolves with a fresh grant their queued
      continuations (`later`) each get that grant's bearer header from the
      one shared context. */
  lemma {:induction false} OverlappingFirstCallersShareHeader(first: seq<int>, g: Grant, later: seq<int>)
    requires 0 < |first|
    requires forall i :: 0 <= i < |later| ==> later[i] < g.nextRefresh
    ensures ClientAuthAll(ClientInitial(), first).0 == ClientState(Fetching, 1)
    ensures forall i :: 0 <= i < |first| ==> ClientAuthAll(ClientInitial(), first).1[i] == AwaitingClient
    ensures var c := ClientFetchStep(ClientState(Fetching, 1), Success(g));
      && ClientAuthAll(c, later).0 == c
      && forall i :: 0 <= i < |later| ==>
           ClientAuthAll(c, later).1[i] == ContextAuth(Immediate(BuildAuth(g.accessToken)))
  {
    FirstCallersFetchOnce(ClientInitial(), first);
    FreshClientGrantServesAll(ClientFetchStep(ClientState(Fetching, 1), Success(g)), later);
  }

  /** A stored client-fetch rejection is final: nothing changes any more,
      no second fetch is made, and every later call gets the rejection. */
  lemma {:induction false} ClientFailureIsFinal(c: ClientState, evs: seq<ClientEvent>)
    requires ClientWellFormed(c) && c.slot.FetchFailed?
    ensures ClientRun(c, evs) == c
    decreases |evs|
  {
    if evs != [] {
      assert ClientStep(c, evs[0]) == c;
      ClientFailureIsFinal(c, evs[1..]);
    }
  }

  /** The credentials the transport authenticates every token request with. */
  datatype Credentials = Credentials(user: string, pass: string)

  /** A token-endpoint request: path, transport credentials and form. */
  datatype TokenRequest = TokenRequest(path: string, auth: Credentials, form: seq<(string, string)>)

  const TokenPath := "/auth/token"

  /** The object `OAuth2Client(apiKey, keySecret, service)` returns. */
  class OAuth2Client {
    const apiKey: string
    const keySecret: string
    var clientGrant: Slot<TokenContext>
    var fetches: nat

    constructor (apiKey: string, keySecret: string)
      ensures this.apiKey == apiKey && this.keySecret == keySecret
      ensures Valid() && Snapshot() == ClientInitial()
    {
      this.apiKey, this.keySecret := apiKey, keySecret;
      clientGrant, fetches := Unset, 0;
    }

    /** `getClientCredentials()`. */
    function GetClientCredentials(): (cred: Credentials)
      ensures cred.user == apiKey && cred.pass == keySecret
    {
      Credentials(apiKey, keySecret)
    }

    /** The request a flow posts: always to the token endpoint, always with
        the client's own credentials, with the flow's form. */
    function Request(flow: GrantRequest): (r: TokenRequest)
      ensures r.path == TokenPath && r.form == FormFields(flow)
      ensures r.auth == GetClientCredentials()
    {
      TokenRequest(TokenPath, Credentials(apiKey, keySecret), FormFields(flow))
    }

    /** Requests of different flows, or of one flow with different
        parameters, differ. */
    lemma RequestDeterminesFlow(a: GrantRequest, b: GrantRequest)
      requires Request(a) == Request(b)
      ensures a == b
    {
      FormsDetermineRequest(a, b);
    }

    /** `getAccessToken(email, password)`: the password-grant request. */
    function GetAccessToken(email: string, password: string): (r: TokenRequest)
      ensures r == Request(PasswordGrant(email, password))
      ensures r.form[0] == ("grant_type", "password")
    {
      Request(PasswordGrant(email, password))
    }

    /** `refreshAccessToken(token)`: the refresh-grant request; `token` is
        absent when the caller passes `undefined`. */
    function RefreshAccessToken(token: Option<string>): (r: TokenRequest)
      ensures r == Request(RefreshGrant(token))
      ensures r.form[0] == ("grant_type", "refresh_token")
    {
      Request(RefreshGrant(token))
    }

    /** `getClientAccessToken()`: the client-credentials request. */
    function GetClientAccessToken(): (r: TokenRequest)
      ensures r == Request(ClientCredentialsGrant)
      ensures r.form[0] == ("grant_type", "client_credentials")
    {
      Request(ClientCredentialsGrant)
    }

    /** `userContext(grant)`: a fresh context around the grant. */
    method UserContext(g: Grant) returns (ctx: TokenContext)
      ensures fresh(ctx) && ctx.Valid() && ctx.Snapshot() == Initial(g)
    {
      ctx := new TokenContext(g);
    }

    function Frame(): (objs: set<object>)
      reads this
    {
      if clientGrant.Ready? then {clientGrant.ctx} else {}
    }

    function Snapshot(): (c: ClientState)
      reads this, Frame()
    {
      var slot := match clientGrant
        case Unset => Unset
        case Fetching => Fetching
        case Ready(ctx) => Ready(ctx.Snapshot())
        case FetchFailed(e) => FetchFailed(e);
      ClientState(slot, fetches)
    }

    predicate Valid()
      reads this, Frame()
    {
      ClientWellFormed(Snapshot())
    }

    /** `getClientAuth()` at time `now`: the first call starts the client
        fetch; once the shared context exists it is asked for its header. */
    method GetClientAuth(now: int) returns (o: ClientOutcome)
      requires Valid()
      modifies this, Frame()
      ensures Valid()
      ensures old(clientGrant).Ready? ==> clientGrant == old(clientGrant)
      ensures (Snapshot(), o) == ClientAuthStep(old(Snapshot()), now)
    {
      match clientGrant
      case Unset =>
        clientGrant := Fetching;
        fetches := fetches + 1;
        o := AwaitingClient;
      case Fetching =>
        o := AwaitingClient;
      case Ready(ctx) =>
        var out := ctx.Auth(now);
        o := ContextAuth(out);
      case FetchFailed(e) =>
        o := ClientRejected(e);
    }

    /** The client fetch settled with `res`. */
    method SettleClientFetch(res: Result<Grant, AuthError>)
      requires Valid() && clientGrant.Fetching?
      modifies this
      ensures Valid()
      ensures res.Success? ==> clientGrant.Ready? && fresh(clientGrant.ctx)
      ensures Snapshot() == ClientFetchStep(old(Snapshot()), res)
    {
      match res
      case Success(g) =>
        var ctx := UserContext(g);
        clientGrant := Ready(ctx);
      case Failure(e) =>
        clientGrant := FetchFailed(e);
    }
  }
}
