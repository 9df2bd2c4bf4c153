/** The token service and the authorization guard (middleware/jwt.go).

    HS512 signing and `jwt.Parse` are foreign: signing is a parameter
    `signer` that yields the signed string or None on a library error, and
    parsing is represented by its outcome, a `ParsedToken`. Time is the
    integer `now` in epoch seconds. */
module Middleware {
  import opened Common
  import opened Effects

  const Issuer: string := "Gambler Backend Service"
  const Hour: int := 60 * 60
  const AccessLifetime: int := 24 * Hour
  const RefreshLifetime: int := 24 * 7 * Hour

  /** The registered claims a token is signed over. */
  datatype RegisteredClaims = RegisteredClaims(
    expiresAt: int, issuedAt: int, notBefore: int, issuer: string, subject: string)

  function ClaimsFor(username: string, now: int, lifetime: int): RegisteredClaims {
    RegisteredClaims(now + lifetime, now, now, Issuer, username)
  }

  function AccessClaims(username: string, now: int): RegisteredClaims {
    ClaimsFor(username, now, AccessLifetime)
  }

  function RefreshClaims(username: string, now: int): RegisteredClaims {
    ClaimsFor(username, now, RefreshLifetime)
  }

  /** The `Jwt` pair handed to clients. */
  datatype TokenPair = TokenPair(accessToken: string, refreshToken: string)

  /** Go's `(*Jwt, int)` result of `Sign`. */
  datatype SignOutcome = SignOutcome(tokens: Option<TokenPair>, code: Code)

  /** The two claim sets differ only in their expiry: one day for the access
      token, seven for the refresh token; both are issued to `username` by the
      service, valid from `now`. */
  lemma SignedClaimsLifetimes(username: string, now: int)
    ensures AccessClaims(username, now).expiresAt == now + 86400
    ensures RefreshClaims(username, now).expiresAt == now + 604800
    ensures RefreshClaims(username, now).expiresAt - now == 7 * (AccessClaims(username, now).expiresAt - now)
    ensures RefreshClaims(username, now) == AccessClaims(username, now).(expiresAt := now + 604800)
    ensures var c := AccessClaims(username, now);
      c.subject == username && c.issuer == "Gambler Backend Service" && c.issuedAt == now && c.notBefore == now
  {
  }

  function Sign(username: string, now: int, signer: RegisteredClaims -> Option<string>): (r: SignOutcome)
    ensures r.tokens.Some? <==> r.code == NoError
    ensures r.code == NoError || r.code == JwtFailedToSign
    ensures r.tokens.Some? <==>
      signer(AccessClaims(username, now)).Some? && signer(RefreshClaims(username, now)).Some?
    ensures r.tokens.Some? ==>
      r.tokens.value == TokenPair(signer(AccessClaims(username, now)).value,
                                  signer(RefreshClaims(username, now)).value)
  {
    match signer(AccessClaims(username, now))
    case None => SignOutcome(None, JwtFailedToSign)
    case Some(access) =>
      match signer(RefreshClaims(username, now))
      case None => SignOutcome(None, JwtFailedToSign)
      case Some(refresh) => SignOutcome(Some(TokenPair(access, refresh)), NoError)
  }

  /** What the claims accessors of a parsed token answer: `GetSubject` and
      `GetExpirationTime`, None standing for an accessor error. */
  datatype Claims = Claims(subject: Option<string>, expiry: Option<int>)

  /** What `jwt.Parse` made of a token string: a parse error, or a token with
      the library's validity flag, the raw `exp` entry and the claims. */
  datatype ParsedToken =
    | Unparseable
    | Parsed(valid: bool, rawExp: int, claims: Claims)

  /** Go's `(jwt.Claims, int)` result of `Decode`. */
  datatype Decoded = Decoded(claims: Option<Claims>, code: Code)

  function Decode(parsed: ParsedToken, now: int): (r: Decoded)
    ensures r.claims.Some? <==> r.code == NoError
    ensures r.code in {NoError, JwtFailedToDecode, JwtInvalid, JwtExpired}
    ensures parsed.Unparseable? <==> r.code == JwtFailedToDecode
    ensures parsed.Parsed? && !parsed.valid ==>
      (r.code == JwtExpired <==> now > parsed.rawExp) &&
      (r.code == JwtInvalid <==> now <= parsed.rawExp)
    ensures r.code == NoError <==> parsed.Parsed? && parsed.valid
    ensures r.claims.Some? ==> r.claims.value == parsed.claims
  {
    if parsed.Unparseable? then Decoded(None, JwtFailedToDecode)
    else if !parsed.valid then
      var expireIn := now - parsed.rawExp;
      if expireIn > 0 then Decoded(None, JwtExpired) else Decoded(None, JwtInvalid)
    else Decoded(Some(parsed.claims), NoError)
  }

  /** A token whose expiry lies in the past is reported expired, never invalid;
      one expiring exactly now is still reported invalid. */
  lemma DecodeExpiryBoundary(claims: Claims, exp: int, now: int)
    ensures exp < now ==> Decode(Parsed(false, exp, claims), now).code == JwtExpired
    ensures exp == now ==> Decode(Parsed(false, exp, claims), now).code == JwtInvalid
  {
  }

  const BearerPrefix: string := "Bearer "

  /** The first `Authorization` value, if the header is present with a value. */
  function FirstAuthorization(headers: Headers): Option<string> {
    if "Authorization" in headers && |headers["Authorization"]| > 0
    then Some(headers["Authorization"][0])
    else None
  }

  /** How far the header checks shared by the guard and `Login` get. */
  datatype Bearer = NoHeaders | NoAuthorization | NotBearer | Token(token: string)

  function ExtractBearer(headers: Headers): (r: Bearer)
    ensures r.NoHeaders? <==> |headers| == 0
    ensures r.NoAuthorization? <==> |headers| != 0 && FirstAuthorization(headers).None?
    ensures r.NotBearer? <==>
      |headers| != 0 && FirstAuthorization(headers).Some? &&
      !HasPrefix(FirstAuthorization(headers).value, BearerPrefix)
    ensures r.Token? ==> BearerPrefix + r.token == FirstAuthorization(headers).value
  {
    if |headers| == 0 then NoHeaders
    else match FirstAuthorization(headers)
      case None => NoAuthorization
      case Some(h) =>
        if HasPrefix(h, BearerPrefix) then Token(TrimPrefix(h, BearerPrefix)) else NotBearer
  }

  /** Presenting `"Bearer " + t` hands exactly `t` on. */
  lemma BearerRoundTrip(headers: Headers, t: string)
    requires FirstAuthorization(headers) == Some(BearerPrefix + t)
    ensures ExtractBearer(headers) == Token(t)
  {
    TrimPrefixInverts(BearerPrefix, t);
  }

  /** The request locals the guard reads and writes. */
  datatype Locals = Locals(isAuthorized: Option<bool>, expireIn: Option<int>, claims: Option<Claims>)

  const FreshLocals: Locals := Locals(None, None, None)

  /** Only the guard writes these locals, and it writes all three together. */
  predicate Consistent(l: Locals) {
    l.isAuthorized.Some? ==> l.expireIn.Some? && l.claims.Some?
  }

  /** The memoised short-circuit: an earlier success whose expiry is still ahead. */
  predicate Memoised(l: Locals, now: int) {
    l.isAuthorized.Some? && l.expireIn.Some? && l.isAuthorized.value && now - l.expireIn.value < 0
  }

  /** The guard either calls the next handler with the (possibly updated)
      locals or stops the request. */
  datatype GuardStep = Next(locals: Locals) | Stop(outcome: Outcome<()>)

  datatype GuardRun = GuardRun(step: GuardStep, trace: seq<Event>)

  /** The guard's reaction to a decode result, as written. */
  function AfterDecode(d: Decoded): GuardStep {
    if d.code == JwtFailedToDecode then Stop(Reply(401, "Failed to decode token", None))
    else if d.code == JwtInvalid then Stop(Reply(401, "Invalid token", None))
    else match d.claims
      case None => Stop(Crash(NilDereference))
      case Some(c) =>
        match c.expiry
        case None => Stop(Reply(401, "Invalid token", None))
        case Some(exp) => Next(Locals(Some(true), Some(exp), Some(c)))
  }

  /** `JwtGuardHandler`, as written. */
  function Guard(locals: Locals, headers: Headers, now: int, parsed: ParsedToken): (r: GuardRun)
    ensures Memoised(locals, now) ==> r == GuardRun(Next(locals), [])
    ensures !Memoised(locals, now) && |headers| == 0 ==>
      r == GuardRun(Stop(Reply(400, "Bad Request, no headers", None)), [])
    ensures !Memoised(locals, now) && |headers| != 0 && FirstAuthorization(headers).None? ==>
      r == GuardRun(Stop(Crash(IndexOutOfRange)), [])
    ensures !Memoised(locals, now) && ExtractBearer(headers).NotBearer? ==>
      r == GuardRun(Stop(Reply(400, "Bad Request, invalid token", None)), [])
    ensures r.trace != [] <==> !Memoised(locals, now) && ExtractBearer(headers).Token?
    ensures r.trace != [] ==> exists t :: r.trace == [DecodeToken(t)] && BearerPrefix + t == FirstAuthorization(headers).value
    ensures r.trace != [] && parsed.Unparseable? ==>
      r.step == Stop(Reply(401, "Failed to decode token", None))
    ensures r.trace != [] && parsed.Parsed? && !parsed.valid ==>
      r.step == (if now > parsed.rawExp then Stop(Crash(NilDereference))
                 else Stop(Reply(401, "Invalid token", None)))
    ensures r.trace != [] && parsed.Parsed? && parsed.valid ==>
      r.step == (if parsed.claims.expiry.Some?
                 then Next(Locals(Some(true), parsed.claims.expiry, Some(parsed.claims)))
                 else Stop(Reply(401, "Invalid token", None)))
    ensures r.step.Next? ==> r.step.locals.isAuthorized == Some(true) && r.step.locals.expireIn.Some?
    ensures r.step.Next? && Consistent(locals) ==> Consistent(r.step.locals)
  {
    if Memoised(locals, now) then GuardRun(Next(locals), [])
    else match ExtractBearer(headers)
      case NoHeaders => GuardRun(Stop(Reply(400, "Bad Request, no headers", None)), [])
      case NoAuthorization => GuardRun(Stop(Crash(IndexOutOfRange)), [])
      case NotBearer => GuardRun(Stop(Reply(400, "Bad Request, invalid token", None)), [])
      case Token(token) => GuardRun(AfterDecode(Decode(parsed, now)), [DecodeToken(token)])
  }

  /** Once the guard has let a request through, running it again on the same
      locals before the recorded expiry proceeds at once, whatever the headers
      and the token now say, and decodes nothing. */
  lemma GuardIdempotent(locals: Locals, headers: Headers, now: int, parsed: ParsedToken,
                        headers': Headers, later: int, parsed': ParsedToken)
    requires Guard(locals, headers, now, parsed).step.Next?
    requires later < Guard(locals, headers, now, parsed).step.locals.expireIn.value
    ensures var l := Guard(locals, headers, now, parsed).step.locals;
      Guard(l, headers', later, parsed') == GuardRun(Next(l), [])
  {
  }

  /** A memo that is absent, negative or past its expiry is ignored entirely:
      the guard behaves as on fresh locals. */
  lemma GuardExpiredMemoReverifies(locals: Locals, headers: Headers, now: int, parsed: ParsedToken)
    requires !Memoised(locals, now)
    ensures Guard(locals, headers, now, parsed) == Guard(FreshLocals, headers, now, parsed)
  {
  }

  /** A guard run that starts from fresh locals and lets the request through
      leaves claims for the handlers behind it. */
  lemma GuardLeavesClaims(headers: Headers, now: int, parsed: ParsedToken)
    requires Guard(FreshLocals, headers, now, parsed).step.Next?
    ensures Guard(FreshLocals, headers, now, parsed).step.locals.claims.Some?
  {
  }

  /** As written, a request whose headers lack `Authorization` panics on `[0]`. */
  lemma GuardMissingAuthorizationPanics()
    ensures Guard(FreshLocals, map["Host" := ["localhost"]], 0, Unparseable).step
         == Stop(Crash(IndexOutOfRange))
  {
  }

  /** As written, an expired token has no reply of its own and reaches the
      expiry accessor with nil claims. */
  lemma GuardExpiredTokenPanics()
    ensures Guard(FreshLocals, map["Authorization" := ["Bearer t"]], 100,
                  Parsed(false, 50, Claims(Some("alice"), Some(50)))).step
         == Stop(Crash(NilDereference))
  {
  }

  /** The guard's reaction to a decode result as evidently intended: an
      expired token gets its own 408 reply, as `Login` gives it. */
  function AfterDecodeIntended(d: Decoded): GuardStep
    requires d.code in {NoError, JwtFailedToDecode, JwtInvalid, JwtExpired}
    requires d.claims.Some? <==> d.code == NoError
  {
    if d.code == JwtFailedToDecode then Stop(Reply(401, "Failed to decode token", None))
    else if d.code == JwtInvalid then Stop(Reply(401, "Invalid token", None))
    else if d.code == JwtExpired then Stop(Reply(408, "Unauthorized, token expired", None))
    else match d.claims.value.expiry
      case None => Stop(Reply(401, "Invalid token", None))
      case Some(exp) => Next(Locals(Some(true), Some(exp), Some(d.claims.value)))
  }

  /** `JwtGuardHandler` as evidently intended: a missing `Authorization`
      header is a bad request and an expired token is answered with 408. It
      never panics, and wherever the guard as written does not panic the two
      agree. */
  function GuardIntended(locals: Locals, headers: Headers, now: int, parsed: ParsedToken): (r: GuardRun)
    ensures r.step.Stop? ==> r.step.outcome.Reply?
    ensures !Memoised(locals, now) && |headers| != 0 && FirstAuthorization(headers).None? ==>
      r == GuardRun(Stop(Reply(400, "Bad Request, invalid token", None)), [])
    ensures !Memoised(locals, now) && ExtractBearer(headers).Token? &&
            parsed.Parsed? && !parsed.valid && now > parsed.rawExp ==>
      r.step == Stop(Reply(408, "Unauthorized, token expired", None))
    ensures var g := Guard(locals, headers, now, parsed);
      !(g.step.Stop? && g.step.outcome.Crash?) ==> r == g
  {
    if Memoised(locals, now) then GuardRun(Next(locals), [])
    else match ExtractBearer(headers)
      case NoHeaders => GuardRun(Stop(Reply(400, "Bad Request, no headers", None)), [])
      case NoAuthorization => GuardRun(Stop(Reply(400, "Bad Request, invalid token", None)), [])
      case NotBearer => GuardRun(Stop(Reply(400, "Bad Request, invalid token", None)), [])
      case Token(token) => GuardRun(AfterDecodeIntended(Decode(parsed, now)), [DecodeToken(token)])
  }

  /** The intended guard keeps the memo's idempotence. */
  lemma GuardIntendedIdempotent(locals: Locals, headers: Headers, now: int, parsed: ParsedToken,
                                headers': Headers, later: int, parsed': ParsedToken)
    requires GuardIntended(locals, headers, now, parsed).step.Next?
    ensures var l := GuardIntended(locals, headers, now, parsed).step.locals;
      later < l.expireIn.value ==> GuardIntended(l, headers', later, parsed') == GuardRun(Next(l), [])
  {
  }
}
