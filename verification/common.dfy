/** Vocabulary shared by every handler: Go's integer error codes, the reply
    envelope, request-body parsing and validation outcomes, and the string
    prefix helpers the bearer-header checks rely on. */
module Common {

  datatype Option<+T> = None | Some(value: T)

  /** One octet of a websocket frame or of a password hash. */
  newtype byte = x: int | 0 <= x < 256

  /** The integer codes the handlers pass around. Go spells "no error" as -1 and
      the failures as named constants of the `tools` package; the numeric values
      are not part of this model, only that the constants are pairwise distinct. */
  datatype Code =
    | NoError               // -1
    | JwtFailedToSign
    | JwtFailedToDecode
    | JwtInvalid
    | JwtExpired
    | DbDupKey
    | DbRecNotFound
    | OtherCode(n: int)     // any further code a collaborator may report

  /** What a Go runtime panic inside a handler would be caused by. */
  datatype Panic =
    | IndexOutOfRange       // `[0]` on an absent or empty header slice
    | NilDereference        // a method call on nil claims

  /** How a handler ends: a reply in the shape of `GlobalErrorHandlerResp`
      (its `Code` always equals the status, `Success` is true exactly for the
      success replies), or a panic. */
  datatype Outcome<+B> =
    | Reply(status: int, message: string, body: Option<B>)
    | Crash(cause: Panic)

  /** What Fiber's body parser made of the request body. */
  datatype Parsed<+T> = ParseOk(req: T) | ParseFailed(reason: string)

  /** One entry of the validator's report. */
  datatype ValidationError = ValidationError(failed: bool, detail: string)

  /** The handlers reject a body only when the validator returns at least one
      entry and the first one is flagged. */
  predicate Rejects(errs: seq<ValidationError>) {
    |errs| > 0 && errs[0].failed
  }

  /** The body was parsed and the validator did not reject it. */
  predicate PassesBody<T>(req: Parsed<T>, errs: seq<ValidationError>) {
    req.ParseOk? && !Rejects(errs)
  }

  /** A Go `(value, code)` pair as returned by a database or cache call. */
  datatype Fetched<+T> = Fetched(value: T, code: Code)

  /** The request headers as Fiber hands them out: name to list of values. */
  type Headers = map<string, seq<string>>

  predicate HasPrefix(s: string, p: string) {
    |p| <= |s| && s[..|p|] == p
  }

  /** Go's `strings.TrimPrefix`. */
  function TrimPrefix(s: string, p: string): (r: string)
    ensures HasPrefix(s, p) ==> p + r == s
    ensures !HasPrefix(s, p) ==> r == s
  {
    if HasPrefix(s, p) then s[|p|..] else s
  }

  /** Prefixing and trimming are inverse. */
  lemma TrimPrefixInverts(p: string, t: string)
    ensures HasPrefix(p + t, p)
    ensures TrimPrefix(p + t, p) == t
  {
  }

  /** `a` is obtained from `b` by deleting elements, keeping the order. */
  predicate IsSubsequence<T(==)>(a: seq<T>, b: seq<T>)
    decreases |b|
  {
    |a| == 0 ||
    (|b| > 0 &&
     if a[0] == b[0] then IsSubsequence(a[1..], b[1..]) else IsSubsequence(a, b[1..]))
  }
}
