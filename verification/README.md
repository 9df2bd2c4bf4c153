# Gambler backend: token guard, auth chains and bet handlers in Dafny

This project models the decision logic inside the Fiber handlers of the
gambler backend: the token service and authorization guard
(`middleware/jwt.go`), the `Login` and `Register` chains
(`routes/auth/service/auth.go`), bet listing, creation and lookup
(`routes/bets/service/bets.go`) and the minimal bet-creation variant
(`routes/root/service/root.go`).

Every handler becomes a pure function. Its inputs are the request data plus
the results of the libraries it calls:

- the body parser, as `Parsed<T>`;
- the validator's report, as `seq<ValidationError>`;
- `jwt.Parse`, as a `ParsedToken`;
- the signing primitive, as a function from claims to an optional string;
- bcrypt, as an optional hash;
- database and cache calls, as `Fetched(value, code)` or a bare `Code`.

Each handler returns its reply together with an effect log (`Effects.Event`).
The log records which token was decoded and which user or bet was read or
written. It also records when tokens were signed and which frame was
broadcast. Go's `-1` "no error" value is `Code.NoError`. The `tools.*`
error codes are distinct constructors of `Code`.

Two Go panics are explicit outcomes (`Outcome.Crash`):

- indexing a missing `Authorization` header;
- calling the expiry accessor on the nil claims that an expired token leaves behind.

Modules, one per source file: `Common` (shared vocabulary), `Models` and
`Effects` (records and effect log), `Middleware` (`jwt.go`), `AuthService`
(`auth.go`), `BetsService` (`bets.go`), `RootService` (`root.go`).

Behaviour of the code worth noting:

- Listing type 0 ("active") returns the whole cached list, not the Open bets (`BetsService.ActiveListingIsUnfiltered`).
- The guard has no reply for an expired token: it crashes (`Middleware.GuardExpiredTokenPanics`). Only `Login` answers 408.
- `Register` answers 200, not 201, on success.
- None of the modelled handlers refreshes the bet cache after a write. `CreateBet` writes to the database and broadcasts, nothing more.

## Model

| member | source | states |
|---|---|---|
| Common.TrimPrefixInverts | middleware/jwt.go:92-99 | Prefixing a token with `Bearer ` and then checking and trimming that prefix gives the token back |
| Middleware.SignedClaimsLifetimes | middleware/jwt.go:18-32 | The access claims expire 86400 s after `now` and the refresh claims 604800 s after, which is 7 times the access lifetime. The two claim sets are otherwise identical: subject is the username, issuer is "Gambler Backend Service", and issued-at and not-before are both `now` |
| Middleware.Sign | middleware/jwt.go:18-45 | Tokens are returned exactly when the code is "no error", and the only error code is `JWT_FAILED_TO_SIGN`. Signing succeeds exactly when both claim sets sign, and then the pair holds the signed access and refresh claims in that order |
| Middleware.Decode | middleware/jwt.go:47-64 | Claims are present exactly when the code is "no error", and then they are the parsed token's claims. The only codes are no error, failed-to-decode, invalid and expired. A parse error is exactly failed-to-decode. A parsed but not-valid token is expired iff now − exp > 0 and invalid iff not. No error exactly for a valid token |
| Middleware.DecodeExpiryBoundary | middleware/jwt.go:54-61 | A not-valid token whose exp is in the past is expired. One whose exp equals now is invalid |
| Middleware.ExtractBearer | middleware/jwt.go:83-99 | No headers is recognised exactly when the header map is empty. Missing `Authorization` is recognised exactly when headers exist but the header has no value. A wrong prefix is recognised exactly when the first value lacks `Bearer `. The extracted token t satisfies `"Bearer " + t ==` the header value |
| Middleware.BearerRoundTrip | middleware/jwt.go:91-99 | A header `"Bearer " + t` hands exactly t to decoding |
| Middleware.Guard | middleware/jwt.go:66-131 | A live memo (authorized and now < expireIn) proceeds with the locals unchanged and no decode. Otherwise: no headers gives 400; a missing `Authorization` panics; a wrong prefix gives 400. Only then is the header minus its prefix decoded. Decode failure or an invalid token gives 401. An expired token panics on nil claims. A valid token whose expiry accessor fails gives 401. A valid token with an expiry proceeds, storing the claims, `isAuthorized = true` and `expireIn = exp`. The guard keeps the consistency of the locals |
| Middleware.GuardIdempotent | middleware/jwt.go:70-130 | After the guard has let a request through, running it again on the resulting locals before the stored expiry proceeds unchanged, whatever the headers and token, and decodes nothing |
| Middleware.GuardExpiredMemoReverifies | middleware/jwt.go:70-79 | If the memo is absent, false or expired, the guard behaves exactly as on fresh locals |
| Middleware.GuardLeavesClaims | middleware/jwt.go:127-130 | A guard that starts from fresh locals and proceeds leaves claims in the locals for the handlers behind it |
| Middleware.GuardMissingAuthorizationPanics | middleware/jwt.go:83-91 | As written, a request whose only header is `Host` panics on the missing `Authorization` value |
| Middleware.GuardExpiredTokenPanics | middleware/jwt.go:101-118 | As written, a parsed, not-valid token with exp in the past panics instead of getting a reply |
| Middleware.GuardIntended | middleware/jwt.go:66-131 | Corrected guard. It never panics: a missing `Authorization` gives 400 and an expired token gives 408. On every input where the written guard does not panic, it agrees with it |
| Middleware.GuardIntendedIdempotent | middleware/jwt.go:70-79 | The corrected guard keeps the short-circuit's idempotence |
| AuthService.Login | routes/auth/service/auth.go:29-125 | The checks run in a fixed order: parse 400, validate 400, no headers 400, missing `Authorization` panic, wrong prefix 400, with no decode before any of them. The decoded token is the header minus `Bearer `. Decode failure gives 400, invalid 401, expired 408. A token whose subject accessor fails gives 500. The user is looked up by the subject: not found gives 404, any other DB error 500. 200 is returned exactly when every step succeeds, with the looked-up user as body |
| AuthService.GuardAndLoginDisagreeOnDecode | routes/auth/service/auth.go:66-93 | For the same unparseable token the guard answers 401 and `Login` 400. For an expired token the guard panics and `Login` answers 408. Both answer 401 for an invalid token |
| AuthService.Register | routes/auth/service/auth.go:127-206 | Parse, validation and hash failures reply 400/400/500 with no effect. Otherwise the new user is written first. A duplicate key gives 409 and any other DB error 500, and no tokens are signed in either case. Tokens are signed only after a successful write, with subject = the new username. A sign failure gives 500 after the user already exists. 200 is returned exactly when signing succeeds, with the access/refresh pair as body |
| BetsService.DispatchRoundTrip | routes/bets/service/bets.go:29-43 | Types 1, 2 and 3 select the Pending, Closed and Cancelled listings, and each listing is reached by its own type. An absent type and any integer other than 1, 2 or 3 go to the active listing |
| BetsService.SelectKeepsStatus | routes/bets/service/bets.go:53-99 | The status filter returns only bets of the requested status and is no longer than the cache |
| BetsService.SelectKeepsCounts | routes/bets/service/bets.go:53-99 | Every cached bet of the requested status is kept, as many times as the cache holds it. No other bet is kept |
| BetsService.SelectKeepsOrder | routes/bets/service/bets.go:53-99 | The filter's result is a subsequence of the cache, so cache order is kept |
| BetsService.SelectIsStatusFilter | routes/bets/service/bets.go:53-99 | The filter result is exactly the cached bets of that status, in cache order, with multiplicities |
| BetsService.CollectWithStatus | routes/bets/service/bets.go:60-64 | The append loop of the three status listings computes exactly the reference filter, and so the exact status filter of the cache |
| BetsService.StatusFiltersPartition | routes/bets/service/bets.go:53-99 | The lengths of the Open, Pending, Closed and Cancelled filters of any list add up to the length of the list |
| BetsService.ActiveListingCoversAllStatuses | routes/bets/service/bets.go:29-99 | With a working cache, the type-0 listing is as long as the Open bets of the cache plus the type-1, type-2 and type-3 listings together: it returns every cached bet, not only the Open ones |
| BetsService.GetAllBets | routes/bets/service/bets.go:29-99 | A cache error gives 500 with no data and the cache's code. Otherwise the reply is 200: the active listing returns the whole cache unfiltered, and the other listings return exactly the cached bets of their status in cache order |
| BetsService.ActiveListingIsUnfiltered | routes/bets/service/bets.go:45-51 | A cache holding only a Pending bet still lists it under type 0, while the Open filter of that cache is empty |
| BetsService.CreateBet | routes/bets/service/bets.go:101-141 | Parse and validation failures give 400, and an unreadable subject gives 401 with `JWT_INVALID`, all with no effect. Otherwise the first effect is the DB write of an Open bet. Its author is the parsed subject, its options, name and description are the request's, its end is the parsed timestamp, and its seed wager is on the requested option. A failed write gives 500 and nothing is broadcast. A successful write is followed by exactly one frame `[BET_UPDATE, WEBSOCKET_VERSION, 255]` and then 200 with the bet |
| BetsService.GetBet | routes/bets/service/bets.go:143-158 | The bet is looked up by the parsed id. A DB error gives 500 with that code, and a nil bet gives 404 with `DB_REC_NOTFOUND`. 200 is returned exactly when a bet came back without error, with that bet as data |
| RootService.CreateBet | routes/root/service/root.go:21-72 | Parse and validation failures give 400 before any DB call. Otherwise exactly one write happens, of an Open bet with no wagers and with the request's options, name and description. A duplicate key gives 409 and any other error 500. 201 with the bet is returned exactly when the write succeeds. This variant never broadcasts |

## Left out

- HS512 signing and the internals of `jwt.Parse`: the signer is a parameter and the parse is represented by its outcome (parse error, or validity flag, raw `exp`, claims). The model does not decide whether the library can actually hand back a parsed token that is not valid, nor whether the `int64` assertions on `exp` succeed.
- The claims accessors `GetSubject` and `GetExpirationTime`: their answers are part of the parsed claims, with None standing for an accessor error. A token without `exp`, on which the library answers with no date and no error, is not distinguished.
- Middleware.Guard: an accessor error is the only expiry failure modelled. For a valid token without `exp`, the library answers with no date and no error. The guard then panics on `exp.Unix()` at middleware/jwt.go:129. That third panic is not modelled.
- AuthService.Login: an accessor error is the only subject failure modelled. For a valid token without `sub`, the library answers `""` with no error. The handler then looks up the empty username and can answer 404, 500 or 200. That path is not modelled.
- Middleware.Sign: every claim uses one `now`. The source reads the clock separately for each field, so the stamps can differ by the time between those reads.
- Middleware.Decode: `now - exp` is unbounded integer arithmetic. Go's `int64` wrap-around is not modelled.
- bcrypt hashing: the hash is an input, and only its failure branch is modelled.
- Fiber request handling: the body parser and the validator tags are inputs. `QueryInt` is an optional integer defaulting to 0. The reply is reduced to status, message and body for `GlobalErrorHandlerResp`, and to status, data and code for `tools.ReturnData`.
- Database and cache behaviour (`handlers.DB`, `handlers.Cache.GetAllBet`): only the results are modelled, as values or codes.
- Websocket fan-out and all concurrency: a broadcast is one entry in the effect log. The values of `BET_UPDATE` and `WEBSOCKET_VERSION` are not part of this model and enter as a `WsConstants` parameter.
- `tools.ParseUInt` and `tools.ParseTimestamp` are not part of this model. They enter as function parameters.
- The float `InputBet` stake is not modelled. The seed wager records only the user and the option.
- Logging and `rand.NewSource`: they have no effect on the outcome.
- BetsService.CreateBet: takes the claims the guard stored rather than an optional value. The panic that the `jwt.Claims` type assertion on absent locals would cause is not modelled. `Middleware.GuardLeavesClaims` shows the guard always leaves claims when it proceeds.
- Bet status transitions after creation: the modelled files contain no code for them, so only the Open status at creation is modelled.
- The `else` branch of `Login`'s decode mapping (500) is modelled in `LoginDecodeFailure`, but the modelled `Decode` never yields a code that reaches it.
- `Register` signs the username as subject, while bets `CreateBet` reads the subject through `ParseUInt`. Whether that yields a user id depends on `ParseUInt`, which lies outside the modelled files.

## Findings

| source | as written | input that shows it | evidently intended | confidence | as-written member | corrected member |
|---|---|---|---|---|---|---|
| middleware/jwt.go:91 | `headers["Authorization"][0]` is indexed after only checking that some header exists | a request whose only header is `Host` | answer 400 "invalid token" like any other malformed credential | high for the panic; not executed | Middleware.GuardMissingAuthorizationPanics | Middleware.GuardIntended |
| middleware/jwt.go:101-118 | a `JWT_EXPIRED` decode result has no branch and falls through to `claims.GetExpirationTime()` on nil claims | a parsed, not-valid token with exp = 50 presented at now = 100 | a distinct expired reply (408, as `Login` gives) so clients know to refresh | medium: depends on the library returning such a token; not executed | Middleware.GuardExpiredTokenPanics | Middleware.GuardIntended |
