/** Token-endpoint responses and their normalisation into grants
    (`prepairGrant`, `decodeAccessToken`, `buildAuth` and the three grant
    forms of index.js). */
module Grants {
  import opened Wrappers

  /** Claims decoded from an access token. A payload that carries no
      `userId` claim leaves it absent. */
  datatype Claims = Claims(userId: Option<string>)

  /** Why a flow failed: the transport rejected, or the access token could
      not be decoded into a claims object. */
  datatype AuthError = TransportError(cause: string) | DecodeError

  /** The fields of a raw token-endpoint response that the library reads.
      A response without `refresh_token` (typical of the client-credentials
      flow) leaves it absent. */
  datatype RawResponse = RawResponse(accessToken: string, refreshToken: Option<string>, expiresIn: int)

  /** A prepared grant: the raw response stamped with its refresh deadline
      (milliseconds), a fresh grant id and the principal of its token. */
  datatype Grant = Grant(accessToken: string, refreshToken: Option<string>, expiresIn: int,
                         nextRefresh: int, gid: string, userId: Option<string>)

  /** The authorization header handed to callers. */
  datatype AuthHeader = AuthHeader(bearer: string)

  /** `buildAuth`: the bearer header for a token. */
  function BuildAuth(token: string): (h: AuthHeader)
    ensures h.bearer == token
  {
    AuthHeader(token)
  }

  /** The refresh deadline in milliseconds: half of the reported lifetime
      (in seconds) after `now`. */
  function RefreshDeadline(now: int, expiresIn: int): (deadline: int)
    ensures 2 * (deadline - now) == expiresIn * 1000
  {
    now + expiresIn * 500
  }

  /** `decodeAccessToken`: the foreign decoder either yields a claims object
      or the decode counts as failed. */
  function DecodeAccessToken(decode: string -> Option<Claims>, token: string): (r: Result<Claims, AuthError>)
    ensures r.Success? <==> decode(token).Some?
    ensures r.Success? ==> r.value == decode(token).value
    ensures r.Failure? ==> r.error == DecodeError
  {
    match decode(token)
    case None => Failure(DecodeError)
    case Some(claims) => Success(claims)
  }

  /** `prepairGrant` as a value: the grant the stamped response becomes, or
      the decode failure that rejects the whole preparation. */
  function PrepareGrant(t: RawResponse, now: int, gid: string, decode: string -> Option<Claims>): (r: Result<Grant, AuthError>)
    ensures r.Success? <==> decode(t.accessToken).Some?
    ensures r.Failure? ==> r.error == DecodeError
    ensures r.Success? ==>
      && r.value.accessToken == t.accessToken
      && r.value.refreshToken == t.refreshToken
      && r.value.expiresIn == t.expiresIn
      && 2 * (r.value.nextRefresh - now) == t.expiresIn * 1000
      && r.value.gid == gid
      && r.value.userId == decode(t.accessToken).value.userId
  {
    match DecodeAccessToken(decode, t.accessToken)
    case Failure(e) => Failure(e)
    case Success(claims) =>
      Success(Grant(t.accessToken, t.refreshToken, t.expiresIn, RefreshDeadline(now, t.expiresIn), gid, claims.userId))
  }

  /** The response object as the transport hands it over; `prepairGrant`
      stamps it in place before resolving with it. Absent fields are
      JavaScript's `undefined`. */
  class TokenResponse {
    const accessToken: string
    const refreshToken: Option<string>
    const expiresIn: int
    var nextRefresh: Option<int>
    var gid: Option<string>
    var userId: Option<string>

    function Raw(): (raw: RawResponse)
    {
      RawResponse(accessToken, refreshToken, expiresIn)
    }

    constructor (raw: RawResponse)
      ensures Raw() == raw
      ensures nextRefresh == None && gid == None && userId == None
    {
      accessToken, refreshToken, expiresIn := raw.accessToken, raw.refreshToken, raw.expiresIn;
      nextRefresh, gid, userId := None, None, None;
    }

    /** Stamps the deadline and the id first, then reads the principal from
        the decoded token; a decode failure leaves the first two stamps in
        place and rejects. */
    method Prepare(now: int, id: string, decode: string -> Option<Claims>) returns (r: Result<Grant, AuthError>)
      modifies this
      ensures nextRefresh == Some(RefreshDeadline(now, expiresIn)) && gid == Some(id)
      ensures userId == if decode(accessToken).Some? then decode(accessToken).value.userId else old(userId)
      ensures r == PrepareGrant(Raw(), now, id, decode)
      ensures r.Success? ==> r.value == Grant(accessToken, refreshToken, expiresIn, nextRefresh.value, gid.value, userId)
    {
      nextRefresh := Some(RefreshDeadline(now, expiresIn));
      gid := Some(id);
      var claims := DecodeAccessToken(decode, accessToken);
      if claims.Failure? {
        return Failure(claims.error);
      }
      userId := claims.value.userId;
      r := Success(Grant(accessToken, refreshToken, expiresIn, nextRefresh.value, id, userId));
    }
  }

  /** The three grant flows, as the form they post to the token endpoint. */
  datatype GrantRequest =
    | PasswordGrant(username: string, password: string)
    | RefreshGrant(refreshToken: Option<string>)
    | ClientCredentialsGrant

  /** The form fields of a grant request, `grant_type` first. An absent
      refresh token contributes no `refresh_token` field. */
  function FormFields(req: GrantRequest): (fields: seq<(string, string)>)
    ensures |fields| > 0 && fields[0].0 == "grant_type"
    ensures fields[0].1 == "password" <==> req.PasswordGrant?
    ensures fields[0].1 == "refresh_token" <==> req.RefreshGrant?
    ensures fields[0].1 == "client_credentials" <==> req.ClientCredentialsGrant?
  {
    match req
    case PasswordGrant(username, password) =>
      [("grant_type", "password"), ("username", username), ("password", password)]
    case RefreshGrant(None) =>
      [("grant_type", "refresh_token")]
    case RefreshGrant(Some(token)) =>
      [("grant_type", "refresh_token"), ("refresh_token", token)]
    case ClientCredentialsGrant =>
      [("grant_type", "client_credentials")]
  }

  /** Distinct requests post distinct forms: the form carries every
      parameter of its flow. */
  lemma FormsDetermineRequest(a: GrantRequest, b: GrantRequest)
    requires FormFields(a) == FormFields(b)
    ensures a == b
  {
  }
}
