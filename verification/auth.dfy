/** The login and registration handlers (routes/auth/service/auth.go) as
    first-failure-wins decision chains. The body parser, the validator,
    bcrypt, the database and the token signer are represented by their
    results, passed in. */
module AuthService {
  import opened Common
  import opened Models
  import opened Effects
  import opened Middleware

  datatype LoginReq = LoginReq(username: string, password: string)

  datatype RegisterReq = RegisterReq(username: string, password: string, email: string, name: string)

  datatype LoginBody = LoginUser(user: User) | LoginInvalid(errs: seq<ValidationError>)

  datatype RegisterBody =
    | RegisterTokens(tokens: TokenPair)
    | RegisterParseError(reason: string)
    | RegisterInvalid(errs: seq<ValidationError>)

  /** `Login`'s reply to a decode error code. */
  function LoginDecodeFailure(code: Code): Outcome<LoginBody> {
    if code == JwtFailedToDecode then Reply(400, "Bad Request, token may in wrong format", None)
    else if code == JwtInvalid then Reply(401, "Unauthorized, invalid token", None)
    else if code == JwtExpired then Reply(408, "Unauthorized, token expired", None)
    else Reply(500, "Internal server error", None)
  }

  /** `Login`'s reply to the user lookup. */
  function LoginLookup(fetched: Fetched<User>): Outcome<LoginBody> {
    if fetched.code == NoError then Reply(200, "Login success", Some(LoginUser(fetched.value)))
    else if fetched.code == DbRecNotFound then Reply(404, "User not found", None)
    else Reply(500, "Internal server error", None)
  }

  /** `Login`: the user is identified by the subject of the presented access
      token, not by the credentials in the body, which are only parsed and
      validated. */
  function Login(req: Parsed<LoginReq>, errs: seq<ValidationError>, headers: Headers, now: int,
                 parsed: ParsedToken, fetched: Fetched<User>): (r: Run<LoginBody>)
    // body checks come first and touch nothing
    ensures req.ParseFailed? ==> r == Run(Reply(400, "[Parser] Bad request", None), [])
    ensures req.ParseOk? && Rejects(errs) ==>
      r == Run(Reply(400, "[Validator] Bad request", Some(LoginInvalid(errs))), [])
    // then the header checks, still before any decode
    ensures PassesBody(req, errs) && |headers| == 0 ==>
      r == Run(Reply(400, "Bad Request, no headers", None), [])
    ensures PassesBody(req, errs) && |headers| != 0 && FirstAuthorization(headers).None? ==>
      r == Run(Crash(IndexOutOfRange), [])
    ensures PassesBody(req, errs) && ExtractBearer(headers).NotBearer? ==>
      r == Run(Reply(400, "Bad Request, invalid token", None), [])
    // a token is decoded only once body and headers have passed, and it is the header minus the prefix
    ensures r.trace != [] <==> PassesBody(req, errs) && ExtractBearer(headers).Token?
    ensures r.trace != [] ==>
      exists t :: r.trace[0] == DecodeToken(t) && BearerPrefix + t == FirstAuthorization(headers).value
    // decode errors
    ensures r.trace != [] && parsed.Unparseable? ==>
      r.outcome == Reply(400, "Bad Request, token may in wrong format", None) && |r.trace| == 1
    ensures r.trace != [] && parsed.Parsed? && !parsed.valid && now <= parsed.rawExp ==>
      r.outcome == Reply(401, "Unauthorized, invalid token", None) && |r.trace| == 1
    ensures r.trace != [] && parsed.Parsed? && !parsed.valid && now > parsed.rawExp ==>
      r.outcome == Reply(408, "Unauthorized, token expired", None) && |r.trace| == 1
    // the subject and the database
    ensures r.trace != [] && parsed.Parsed? && parsed.valid && parsed.claims.subject.None? ==>
      r.outcome == Reply(500, "Internal server error, failed to get user id", None) && |r.trace| == 1
    ensures r.trace != [] && parsed.Parsed? && parsed.valid && parsed.claims.subject.Some? ==>
      |r.trace| == 2 && r.trace[1] == FetchUser(parsed.claims.subject.value)
    ensures |r.trace| == 2 && fetched.code == DbRecNotFound ==>
      r.outcome == Reply(404, "User not found", None)
    ensures |r.trace| == 2 && fetched.code != NoError && fetched.code != DbRecNotFound ==>
      r.outcome == Reply(500, "Internal server error", None)
    // success exactly when every step succeeded, and then with the looked-up user
    ensures r.outcome.Reply? && r.outcome.status == 200 <==>
      |r.trace| == 2 && fetched.code == NoError
    ensures r.outcome.Reply? && r.outcome.status == 200 ==>
      r.outcome.body == Some(LoginUser(fetched.value))
  {
    if req.ParseFailed? then Run(Reply(400, "[Parser] Bad request", None), [])
    else if Rejects(errs) then Run(Reply(400, "[Validator] Bad request", Some(LoginInvalid(errs))), [])
    else match ExtractBearer(headers)
      case NoHeaders => Run(Reply(400, "Bad Request, no headers", None), [])
      case NoAuthorization => Run(Crash(IndexOutOfRange), [])
      case NotBearer => Run(Reply(400, "Bad Request, invalid token", None), [])
      case Token(accessToken) =>
        var d := Decode(parsed, now);
        var decoded := [DecodeToken(accessToken)];
        if d.code != NoError then Run(LoginDecodeFailure(d.code), decoded)
        else match d.claims.value.subject
          case None => Run(Reply(500, "Internal server error, failed to get user id", None), decoded)
          case Some(userId) => Run(LoginLookup(fetched), decoded + [FetchUser(userId)])
  }

  /** The guard and `Login` map the same decode results to different replies:
      an unparseable token is 401 at the guard but 400 at login, and an
      expired token crashes the guard but is 408 at login. */
  lemma GuardAndLoginDisagreeOnDecode(locals: Locals, req: Parsed<LoginReq>, errs: seq<ValidationError>,
                                      headers: Headers, now: int, parsed: ParsedToken, fetched: Fetched<User>)
    requires PassesBody(req, errs) && !Memoised(locals, now) && ExtractBearer(headers).Token?
    ensures parsed.Unparseable? ==>
      Guard(locals, headers, now, parsed).step.outcome.status == 401 &&
      Login(req, errs, headers, now, parsed, fetched).outcome.status == 400
    ensures parsed.Parsed? && !parsed.valid && now > parsed.rawExp ==>
      Guard(locals, headers, now, parsed).step.outcome.Crash? &&
      Login(req, errs, headers, now, parsed, fetched).outcome.status == 408
    ensures parsed.Parsed? && !parsed.valid && now <= parsed.rawExp ==>
      Guard(locals, headers, now, parsed).step.outcome.status == 401 &&
      Login(req, errs, headers, now, parsed, fetched).outcome.status == 401
  {
  }

  function NewUser(req: RegisterReq, hash: seq<byte>): User {
    User(req.username, hash, req.email, req.name)
  }

  /** `Register`: hash the password, create the user, then sign a token pair
      for the new username. `hashed` is bcrypt's result, `dbCode` the result
      of `CreateUser`, `signer` the signing primitive. */
  function Register(req: Parsed<RegisterReq>, errs: seq<ValidationError>, hashed: Option<seq<byte>>,
                    dbCode: Code, now: int, signer: RegisteredClaims -> Option<string>): (r: Run<RegisterBody>)
    ensures req.ParseFailed? ==>
      r == Run(Reply(400, "[Parser] Bad request: " + req.reason, Some(RegisterParseError(req.reason))), [])
    ensures req.ParseOk? && Rejects(errs) ==>
      r == Run(Reply(400, "[Validator] Bad request", Some(RegisterInvalid(errs))), [])
    ensures PassesBody(req, errs) && hashed.None? ==>
      r == Run(Reply(500, "[Hash] Internal server error", None), [])
    // the user is written only after body and hash succeeded, and is written first
    ensures r.trace != [] <==> PassesBody(req, errs) && hashed.Some?
    ensures r.trace != [] ==> r.trace[0] == InsertUser(NewUser(req.req, hashed.value))
    ensures r.trace != [] && dbCode == DbDupKey ==>
      r.outcome == Reply(409, "User already exists", None) && |r.trace| == 1
    ensures r.trace != [] && dbCode != NoError && dbCode != DbDupKey ==>
      r.outcome == Reply(500, "Internal server error", None) && |r.trace| == 1
    // tokens are signed only after a successful write, for the new username
    ensures forall i | 0 <= i < |r.trace| && r.trace[i].SignTokens? ::
      i == 1 && dbCode == NoError && r.trace[i].subject == req.req.username
    ensures r.trace != [] && dbCode == NoError ==> |r.trace| == 2 && r.trace[1].SignTokens?
    ensures |r.trace| == 2 && Sign(req.req.username, now, signer).code != NoError ==>
      r.outcome == Reply(500, "Internal server error, failed to sign key", None)
    ensures r.outcome.Reply? && r.outcome.status == 200 <==>
      |r.trace| == 2 && Sign(req.req.username, now, signer).code == NoError
    ensures r.outcome.Reply? && r.outcome.status == 200 ==>
      r.outcome.body == Some(RegisterTokens(TokenPair(
        signer(AccessClaims(req.req.username, now)).value,
        signer(RefreshClaims(req.req.username, now)).value)))
  {
    match req
    case ParseFailed(reason) =>
      Run(Reply(400, "[Parser] Bad request: " + reason, Some(RegisterParseError(reason))), [])
    case ParseOk(rq) =>
      if Rejects(errs) then Run(Reply(400, "[Validator] Bad request", Some(RegisterInvalid(errs))), [])
      else match hashed
        case None => Run(Reply(500, "[Hash] Internal server error", None), [])
        case Some(hash) =>
          var user := NewUser(rq, hash);
          var created := [InsertUser(user)];
          if dbCode != NoError then
            if dbCode == DbDupKey then Run(Reply(409, "User already exists", None), created)
            else Run(Reply(500, "Internal server error", None), created)
          else
            var s := Sign(user.username, now, signer);
            var signed := created + [SignTokens(user.username)];
            if s.code != NoError then
              if s.code == JwtFailedToSign then
                Run(Reply(500, "Internal server error, failed to sign key", None), signed)
              else Run(Reply(500, "Internal server error", None), signed)
            else Run(Reply(200, "Register success", Some(RegisterTokens(s.tokens.value))), signed)
  }
}
