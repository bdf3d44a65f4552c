/** The process-wide access-token cache of the client (`get_access_token` and
    `_get_basic_auth_header`): a single slot holding a bearer token and the time at
    which it stops being served from the cache, renewed by an OAuth 2.0 Client
    Credentials exchange (section 4.4 of RFC 6749).

    The clock, the configuration and the reply of the token endpoint are parameters:
    `Acquire` is one call of `get_access_token` as a pure step on the cache's state,
    and `AccessTokenCache.GetAccessToken` performs that step on the mutable slot. */
module TokenCache {
  import opened Wrappers

  /** Seconds subtracted from the declared lifetime, so that a token is renewed before it lapses. */
  const SafetyMargin: int := 30

  /** Lifetime assumed when the token endpoint does not declare `expires_in`. */
  const DefaultLifetime: int := 3600

  /** The application credentials read from the environment when the module is loaded. */
  datatype AppCredentials = AppCredentials(clientId: Option<string>, clientSecret: Option<string>)

  /** Python truthiness of an optional string: present and not empty. */
  predicate Truthy(s: Option<string>) {
    s.Some? && s.value != ""
  }

  predicate Configured(c: AppCredentials) {
    Truthy(c.clientId) && Truthy(c.clientSecret)
  }

  /** Why `get_access_token` raised. */
  datatype AuthError =
    | NotConfigured                              // id or secret unset or empty
    | ExchangeRejected(status: int, body: string) // the token endpoint answered other than 200
    | ExchangeUnreachable                        // the POST itself failed (connection, timeout)
    | MalformedPayload                           // a 200 whose body is not a JSON object
    | InvalidLifetime                            // `expires_in` present but null: `now + None` raises

  /** The `id:secret` string that `_get_basic_auth_header` base64-encodes, or the
      configuration error it raises when either part is unset or empty. */
  function BasicAuthString(c: AppCredentials): (r: Result<string, AuthError>)
    ensures r.Ok? <==> Configured(c)
    ensures r.Err? ==> r.error == NotConfigured
  {
    if !Truthy(c.clientId) || !Truthy(c.clientSecret) then Err(NotConfigured)
    else Ok(c.clientId.value + ":" + c.clientSecret.value)
  }

  /** How the authorization server reads a Basic credential back (section 2 of RFC 7617):
      the user-id ends at the first colon. */
  function SplitAtColon(s: string): (p: (string, string))
    ensures ':' in s ==> s == p.0 + ":" + p.1 && ':' !in p.0
    ensures ':' !in s ==> p == (s, "")
  {
    if s == [] then ("", "")
    else if s[0] == ':' then ("", s[1..])
    else
      var rest := SplitAtColon(s[1..]);
      assert s == [s[0]] + s[1..];
      ([s[0]] + rest.0, rest.1)
  }

  lemma {:induction false} SplitJoin(user: string, pass: string)
    requires ':' !in user
    ensures SplitAtColon(user + ":" + pass) == (user, pass)
  {
    if user == [] {
      assert user + ":" + pass == [':'] + pass;
    } else {
      assert (user + ":" + pass)[1..] == user[1..] + ":" + pass;
      assert (user + ":" + pass)[0] == user[0];
      SplitJoin(user[1..], pass);
      assert [user[0]] + user[1..] == user;
    }
  }

  /** The credential string carries the client id and secret unchanged: the server
      recovers both from it whenever the id has no colon (Spotify ids are hexadecimal). */
  lemma BasicAuthRoundTrip(c: AppCredentials)
    requires Configured(c) && ':' !in c.clientId.value
    ensures BasicAuthString(c).Ok?
    ensures SplitAtColon(BasicAuthString(c).value) == (c.clientId.value, c.clientSecret.value)
  {
    SplitJoin(c.clientId.value, c.clientSecret.value);
  }

  /** The decoded JSON object of a 200 reply from the token endpoint. */
  datatype TokenPayload = TokenPayload(accessToken: Option<string>, expiresIn: Field<int>)

  /** What the POST to the token endpoint produced. */
  datatype ExchangeReply =
    | Reply(status: int, body: string, payload: Option<TokenPayload>)
    | Unreachable

  /** `payload.get("expires_in", 3600)` when it is a number; `None` for a JSON null. */
  function Lifetime(f: Field<int>): (r: Option<int>)
    ensures f.Missing? ==> r == Some(DefaultLifetime)
    ensures r.None? <==> f.Null?
    ensures f.Value? ==> r == Some(f.v)
  {
    match f
    case Missing => Some(DefaultLifetime)
    case Null => None
    case Value(n) => Some(n)
  }

  /** The lifetime a reply declares, when it is a 200 with a usable payload. */
  function ReplyLifetime(reply: ExchangeReply): (r: Option<int>)
    ensures r.Some? ==> reply.Reply? && reply.status == 200 && reply.payload.Some? &&
                        !reply.payload.value.expiresIn.Null?
    ensures reply.Reply? && reply.status == 200 && reply.payload.Some? && reply.payload.value.expiresIn.Missing? ==>
              r == Some(DefaultLifetime)
  {
    if reply.Reply? && reply.status == 200 && reply.payload.Some? then Lifetime(reply.payload.value.expiresIn)
    else None
  }

  /** The two module globals `_ACCESS_TOKEN` and `_ACCESS_TOKEN_EXPIRES_AT`. */
  datatype CacheState = CacheState(token: Option<string>, expiresAt: int)

  /** The cache's state when the module is loaded. */
  const Initial: CacheState := CacheState(None, 0)

  /** The cache-hit test of `get_access_token`. */
  predicate Hit(s: CacheState, now: int) {
    Truthy(s.token) && now < s.expiresAt
  }

  /** One call of `get_access_token`: what it returns or raises, the cache afterwards,
      and whether it sent a request to the token endpoint. */
  datatype Step = Step(result: Result<string, AuthError>, next: CacheState, exchanged: bool)

  function Acquire(s: CacheState, now: int, c: AppCredentials, reply: ExchangeReply): (st: Step)
    // a hit serves the cached token, checks no configuration and changes nothing
    ensures Hit(s, now) ==> st == Step(Ok(s.token.value), s, false)
    // a miss checks the configuration before anything is sent
    ensures !Hit(s, now) && !Configured(c) ==> st == Step(Err(NotConfigured), s, false)
    // exactly the configured misses reach the token endpoint
    ensures st.exchanged <==> !Hit(s, now) && Configured(c)
    // a rejected exchange carries the status and text of the reply
    ensures st.exchanged && reply.Reply? && reply.status != 200 ==>
              st.result == Err(ExchangeRejected(reply.status, reply.body))
    // every failure but the null lifetime leaves both globals as they were
    ensures st.result.Err? && st.result != Err(InvalidLifetime) ==> st.next == s
    // each way an exchange can fail raises its own error
    ensures st.exchanged && reply.Unreachable? ==> st.result == Err(ExchangeUnreachable)
    ensures st.exchanged && reply.Reply? && reply.status == 200 && reply.payload.None? ==>
              st.result == Err(MalformedPayload)
    ensures st.exchanged && reply.Reply? && reply.status == 200 && reply.payload.Some? &&
              reply.payload.value.expiresIn.Null? ==>
              st.result == Err(InvalidLifetime)
    // a null lifetime has already overwritten the token with the payload's, but not the expiry
    ensures st.result == Err(InvalidLifetime) ==>
              st.exchanged && reply.Reply? && reply.status == 200 && reply.payload.Some? &&
              reply.payload.value.expiresIn.Null? &&
              st.next == CacheState(reply.payload.value.accessToken, s.expiresAt)
    // a successful exchange stores the new token and `now + expires_in - 30`
    ensures st.exchanged && st.result.Ok? ==>
              reply.Reply? && reply.status == 200 && reply.payload.Some? &&
              ReplyLifetime(reply).Some? &&
              st.next == CacheState(reply.payload.value.accessToken, now + ReplyLifetime(reply).value - SafetyMargin) &&
              st.result.value == reply.payload.value.accessToken.GetOr("")
    // a 200 with a usable payload always succeeds
    ensures st.exchanged && ReplyLifetime(reply).Some? ==> st.result.Ok?
    // a non-empty token handed out is the one now in the cache
    ensures st.result.Ok? && st.result.value != "" ==> st.next.token == Some(st.result.value)
  {
    if Hit(s, now) then Step(Ok(s.token.value), s, false)
    else match BasicAuthString(c)
      case Err(e) => Step(Err(e), s, false)
      case Ok(_) =>
        match reply
        case Unreachable => Step(Err(ExchangeUnreachable), s, true)
        case Reply(status, body, payload) =>
          if status != 200 then Step(Err(ExchangeRejected(status, body)), s, true)
          else match payload
            case None => Step(Err(MalformedPayload), s, true)
            case Some(p) =>
              match Lifetime(p.expiresIn)
              case None => Step(Err(InvalidLifetime), CacheState(p.accessToken, s.expiresAt), true)
              case Some(n) => Step(Ok(p.accessToken.GetOr("")), CacheState(p.accessToken, now + n - SafetyMargin), true)
  }

  /** Two calls at the same instant return the same token, and the second sends nothing,
      provided the first produced a non-empty token that outlives the safety margin. */
  lemma AcquireIdempotent(s: CacheState, now: int, c: AppCredentials, reply: ExchangeReply,
                          c2: AppCredentials, reply2: ExchangeReply)
    requires Acquire(s, now, c, reply).result.Ok? && Acquire(s, now, c, reply).result.value != ""
    requires Acquire(s, now, c, reply).exchanged ==> ReplyLifetime(reply).value > SafetyMargin
    ensures var st := Acquire(s, now, c, reply);
            Acquire(st.next, now, c2, reply2) == Step(st.result, st.next, false)
  {
  }

  /** After a successful exchange at `t0` that declared lifetime `L`, a later configured
      call renews the token exactly when its clock has reached `t0 + L - 30`, even though
      the token itself is still valid for up to 30 more seconds. */
  lemma RenewalWindow(s: CacheState, t0: int, c: AppCredentials, reply: ExchangeReply,
                      now: int, c2: AppCredentials, reply2: ExchangeReply)
    requires Acquire(s, t0, c, reply).exchanged
    requires Acquire(s, t0, c, reply).result.Ok? && Acquire(s, t0, c, reply).result.value != ""
    requires Configured(c2)
    ensures ReplyLifetime(reply).Some?
    ensures Acquire(Acquire(s, t0, c, reply).next, now, c2, reply2).exchanged
            <==> now >= t0 + ReplyLifetime(reply).value - SafetyMargin
  {
  }

  /** A 200 without `access_token` returns the empty string, and every later call is a
      miss, whatever expiry was stored. */
  lemma EmptyTokenNeverHits(s: CacheState, now: int, c: AppCredentials, reply: ExchangeReply, later: int)
    requires Acquire(s, now, c, reply).exchanged
    requires reply.Reply? && reply.status == 200 && reply.payload.Some?
    requires reply.payload.value.accessToken.None?
    requires !reply.payload.value.expiresIn.Null?
    ensures Acquire(s, now, c, reply).result == Ok("")
    ensures !Hit(Acquire(s, now, c, reply).next, later)
  {
  }

  /** The mutable single slot: `_ACCESS_TOKEN` and `_ACCESS_TOKEN_EXPIRES_AT`. */
  class AccessTokenCache {
    var token: Option<string>
    var expiresAt: int
    /** Number of requests sent to the token endpoint so far. */
    ghost var exchanges: nat

    constructor ()
      ensures State() == Initial && exchanges == 0
    {
      token := None;
      expiresAt := 0;
      exchanges := 0;
    }

    function State(): CacheState
      reads this
    {
      CacheState(token, expiresAt)
    }

    /** `get_access_token`, with the clock, the configuration and the token endpoint's
        reply passed in. */
    method GetAccessToken(now: int, creds: AppCredentials, reply: ExchangeReply)
      returns (r: Result<string, AuthError>)
      modifies this
      ensures var st := Acquire(old(State()), now, creds, reply);
              r == st.result && State() == st.next &&
              exchanges == old(exchanges) + (if st.exchanged then 1 else 0)
    {
      if token.Some? && token.value != "" && now < expiresAt {
        return Ok(token.value);
      }
      var header := BasicAuthString(creds);
      if header.Err? {
        return Err(header.error);
      }
      exchanges := exchanges + 1;
      if reply.Unreachable? {
        return Err(ExchangeUnreachable);
      }
      if reply.status != 200 {
        return Err(ExchangeRejected(reply.status, reply.body));
      }
      if reply.payload.None? {
        return Err(MalformedPayload);
      }
      var payload := reply.payload.value;
      token := payload.accessToken;
      var expiresIn := Lifetime(payload.expiresIn);
      if expiresIn.None? {
        return Err(InvalidLifetime);
      }
      expiresAt := now + expiresIn.value - SafetyMargin;
      return Ok(token.GetOr(""));
    }
  }
}
