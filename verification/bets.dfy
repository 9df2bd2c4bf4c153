/** Bet listing, creation and lookup (routes/bets/service/bets.go).
    The cache, the database and the websocket broadcaster are represented
    by their results; the broadcast is recorded in the effect log. */
module BetsService {
  import opened Common
  import opened Models
  import opened Effects
  import opened Middleware

  /** What `tools.ReturnData` is given: status, data, error code. */
  datatype Data = BetList(bets: seq<Bet>) | OneBet(bet: Bet) | Errors(errs: seq<ValidationError>)

  datatype Returned = Returned(status: int, data: Option<Data>, err: Code)

  datatype BetRun = BetRun(returned: Returned, trace: seq<Event>)

  // ---------------------------------------------------------------------
  // Listing

  /** The four listings behind `GetAllBetsHandler`. */
  datatype Listing = AllActive | AllPending | AllClosed | AllCancelled

  /** The `type` query parameter. `query` is None when the parameter is absent
      or not an integer, where Fiber's `QueryInt` falls back to 0. */
  function ListingFor(query: Option<int>): Listing {
    var t := if query.Some? then query.value else 0;
    if t == 1 then AllPending
    else if t == 2 then AllClosed
    else if t == 3 then AllCancelled
    else AllActive
  }

  /** The canonical `type` value that selects a listing. */
  function TypeOf(l: Listing): int {
    match l
    case AllActive => 0
    case AllPending => 1
    case AllClosed => 2
    case AllCancelled => 3
  }

  /** Every listing is reachable through its canonical type, and every other
      query, absent or not, lands on the unfiltered active listing. */
  lemma DispatchRoundTrip(l: Listing, query: Option<int>)
    ensures ListingFor(Some(TypeOf(l))) == l
    ensures ListingFor(query) == AllActive <==> query.None? || query.value !in {1, 2, 3}
    ensures query.Some? && query.value in {1, 2, 3} ==> TypeOf(ListingFor(query)) == query.value
  {
  }

  /** The bets of `bets` with status `s`, in cache order. */
  ghost predicate IsStatusFilter(r: seq<Bet>, bets: seq<Bet>, s: BetStatus) {
    && (forall i | 0 <= i < |r| :: r[i].status == s)
    && (forall b: Bet | b.status == s :: multiset(r)[b] == multiset(bets)[b])
    && IsSubsequence(r, bets)
  }

  /** The status filter as a reference definition. */
  function Select(bets: seq<Bet>, s: BetStatus): seq<Bet> {
    if |bets| == 0 then []
    else if bets[0].status == s then [bets[0]] + Select(bets[1..], s)
    else Select(bets[1..], s)
  }

  lemma {:induction false} SelectKeepsStatus(bets: seq<Bet>, s: BetStatus)
    ensures |Select(bets, s)| <= |bets|
    ensures forall i | 0 <= i < |Select(bets, s)| :: Select(bets, s)[i].status == s
    decreases |bets|
  {
    if |bets| > 0 {
      SelectKeepsStatus(bets[1..], s);
    }
  }

  lemma {:induction false} SelectKeepsCounts(bets: seq<Bet>, s: BetStatus)
    ensures forall b: Bet :: multiset(Select(bets, s))[b] == if b.status == s then multiset(bets)[b] else 0
    decreases |bets|
  {
    if |bets| > 0 {
      SelectKeepsCounts(bets[1..], s);
      assert bets == [bets[0]] + bets[1..];
      assert multiset(bets) == multiset{bets[0]} + multiset(bets[1..]);
      if bets[0].status == s {
        assert multiset(Select(bets, s)) == multiset{bets[0]} + multiset(Select(bets[1..], s));
      }
    }
  }

  lemma {:induction false} SelectKeepsOrder(bets: seq<Bet>, s: BetStatus)
    ensures IsSubsequence(Select(bets, s), bets)
    decreases |bets|
  {
    if |bets| > 0 {
      SelectKeepsOrder(bets[1..], s);
      var rest := Select(bets[1..], s);
      if bets[0].status == s {
        assert ([bets[0]] + rest)[1..] == rest;
      } else {
        SelectKeepsStatus(bets[1..], s);
      }
    }
  }

  /** `Select` keeps exactly the bets of the wanted status, each as often as
      the cache holds it, in cache order. */
  lemma SelectIsStatusFilter(bets: seq<Bet>, s: BetStatus)
    ensures |Select(bets, s)| <= |bets|
    ensures IsStatusFilter(Select(bets, s), bets, s)
    ensures forall b: Bet | b.status != s :: multiset(Select(bets, s))[b] == 0
  {
    SelectKeepsStatus(bets, s);
    SelectKeepsCounts(bets, s);
    SelectKeepsOrder(bets, s);
  }

  lemma {:induction false} SelectAppend(a: seq<Bet>, x: Bet, s: BetStatus)
    ensures Select(a + [x], s) == Select(a, s) + (if x.status == s then [x] else [])
    decreases |a|
  {
    if |a| == 0 {
      assert a + [x] == [x];
    } else {
      assert (a + [x])[0] == a[0];
      assert (a + [x])[1..] == a[1..] + [x];
      SelectAppend(a[1..], x, s);
    }
  }

  /** The loop of `GetAllPendingBets`, `GetAllClosedBets` and
      `GetAllCancelledBets`: append each cached bet of the wanted status. */
  method CollectWithStatus(bets: seq<Bet>, s: BetStatus) returns (res: seq<Bet>)
    ensures res == Select(bets, s)
    ensures IsStatusFilter(res, bets, s)
  {
    res := [];
    var i := 0;
    while i < |bets|
      invariant 0 <= i <= |bets|
      invariant res == Select(bets[..i], s)
    {
      SelectAppend(bets[..i], bets[i], s);
      assert bets[..i + 1] == bets[..i] + [bets[i]];
      if bets[i].status == s {
        res := res + [bets[i]];
      }
      i := i + 1;
    }
    assert bets[..|bets|] == bets;
    SelectIsStatusFilter(bets, s);
  }

  /** Each bet has exactly one of the four statuses, so the four status
      filters together have the length of the whole list. */
  lemma {:induction false} StatusFiltersPartition(bets: seq<Bet>)
    ensures |Select(bets, Open)| + |Select(bets, Pending)| + |Select(bets, Closed)|
            + |Select(bets, Cancelled)| == |bets|
    decreases |bets|
  {
    if |bets| > 0 {
      StatusFiltersPartition(bets[1..]);
    }
  }

  /** `GetAllBetsHandler` and the four listings it dispatches to. `cache` is
      the result of `Cache.GetAllBet`. The active listing applies no filter. */
  function GetAllBets(query: Option<int>, cache: Fetched<seq<Bet>>): (r: Returned)
    ensures cache.code != NoError ==> r == Returned(500, None, cache.code)
    ensures cache.code == NoError ==> r.status == 200 && r.err == NoError && r.data.Some? && r.data.value.BetList?
    ensures cache.code == NoError && ListingFor(query) == AllActive ==> r.data == Some(BetList(cache.value))
    ensures cache.code == NoError && ListingFor(query) == AllPending ==>
      IsStatusFilter(r.data.value.bets, cache.value, Pending)
    ensures cache.code == NoError && ListingFor(query) == AllClosed ==>
      IsStatusFilter(r.data.value.bets, cache.value, Closed)
    ensures cache.code == NoError && ListingFor(query) == AllCancelled ==>
      IsStatusFilter(r.data.value.bets, cache.value, Cancelled)
  {
    if cache.code != NoError then Returned(500, None, cache.code)
    else
      SelectIsStatusFilter(cache.value, Pending);
      SelectIsStatusFilter(cache.value, Closed);
      SelectIsStatusFilter(cache.value, Cancelled);
      match ListingFor(query)
      case AllActive => Returned(200, Some(BetList(cache.value)), NoError)
      case AllPending => Returned(200, Some(BetList(Select(cache.value, Pending))), NoError)
      case AllClosed => Returned(200, Some(BetList(Select(cache.value, Closed))), NoError)
      case AllCancelled => Returned(200, Some(BetList(Select(cache.value, Cancelled))), NoError)
  }

  /** The active listing (type 0) is as long as the Pending, Closed and
      Cancelled listings together plus the Open bets of the cache: it returns
      every cached bet, not only the Open ones. */
  lemma ActiveListingCoversAllStatuses(cache: seq<Bet>)
    ensures var active := GetAllBets(Some(0), Fetched(cache, NoError)).data.value.bets;
      |active| == |Select(cache, Open)|
                  + |GetAllBets(Some(1), Fetched(cache, NoError)).data.value.bets|
                  + |GetAllBets(Some(2), Fetched(cache, NoError)).data.value.bets|
                  + |GetAllBets(Some(3), Fetched(cache, NoError)).data.value.bets|
  {
    StatusFiltersPartition(cache);
  }

  /** The default listing is not an Open filter: a cache holding only a
      Pending bet still lists it under type 0. */
  lemma ActiveListingIsUnfiltered(b: Bet)
    requires b.status == Pending
    ensures GetAllBets(None, Fetched([b], NoError)).data == Some(BetList([b]))
    ensures Select([b], Open) == []
  {
  }

  // ---------------------------------------------------------------------
  // Creation and lookup

  datatype CreateBetReq = CreateBetReq(
    name: string, description: string, options: seq<string>, inputOption: string, endsAt: string)

  /** The values of `tools.BET_UPDATE` and `tools.WEBSOCKET_VERSION`. */
  datatype WsConstants = WsConstants(betUpdate: byte, version: byte)

  /** The three-byte "bets changed" frame. */
  function UpdateFrame(ws: WsConstants): seq<byte> {
    [ws.betUpdate, ws.version, 255]
  }

  /** `CreateBet`. `claims` are the claims the guard left in the locals;
      `parseUInt` and `parseTimestamp` stand for the `tools` helpers;
      `dbCode` is the result of the database write. */
  function CreateBet(req: Parsed<CreateBetReq>, errs: seq<ValidationError>, claims: Claims,
                     parseUInt: string -> nat, parseTimestamp: string -> int,
                     dbCode: Code, ws: WsConstants): (r: BetRun)
    ensures req.ParseFailed? ==> r == BetRun(Returned(400, None, NoError), [])
    ensures req.ParseOk? && Rejects(errs) ==> r == BetRun(Returned(400, Some(Errors(errs)), NoError), [])
    ensures PassesBody(req, errs) && claims.subject.None? ==>
      r == BetRun(Returned(401, None, JwtInvalid), [])
    // the write comes first, with an Open bet by the token's subject carrying the requested options
    ensures r.trace != [] <==> PassesBody(req, errs) && claims.subject.Some?
    ensures r.trace != [] ==>
      r.trace[0].InsertBetWithWager? &&
      var bet := r.trace[0].bet;
      && bet.status == Open
      && bet.wagers == []
      && bet.author == parseUInt(claims.subject.value)
      && r.trace[0].userId == bet.author
      && r.trace[0].option == req.req.inputOption
      && bet.name == req.req.name
      && bet.description == req.req.description
      && bet.options == req.req.options
      && bet.endsAt == Some(parseTimestamp(req.req.endsAt))
    // a failed write is reported and nothing is broadcast
    ensures r.trace != [] && dbCode != NoError ==>
      r == BetRun(Returned(500, None, dbCode), [r.trace[0]])
    // a successful write is followed by exactly one update frame, then the reply
    ensures r.trace != [] && dbCode == NoError ==>
      r == BetRun(Returned(200, Some(OneBet(r.trace[0].bet)), NoError), [r.trace[0], Broadcast(UpdateFrame(ws))])
    ensures BroadcastCount(r.trace) == (if r.returned.status == 200 then 1 else 0)
  {
    match req
    case ParseFailed(_) => BetRun(Returned(400, None, NoError), [])
    case ParseOk(rq) =>
      if Rejects(errs) then BetRun(Returned(400, Some(Errors(errs)), NoError), [])
      else match claims.subject
        case None => BetRun(Returned(401, None, JwtInvalid), [])
        case Some(userIdString) =>
          var userId := parseUInt(userIdString);
          var bet := Bet(rq.name, rq.description, rq.options, Open, Some(parseTimestamp(rq.endsAt)), userId, []);
          var written := [InsertBetWithWager(bet, userId, rq.inputOption)];
          if dbCode != NoError then BetRun(Returned(500, None, dbCode), written)
          else BetRun(Returned(200, Some(OneBet(bet)), NoError), written + [Broadcast(UpdateFrame(ws))])
  }

  /** `GetBet`. `fetched` is the result of `DB.GetBetByID`, whose bet may be
      nil even without an error code. */
  function GetBet(idParam: string, parseUInt: string -> nat, fetched: Fetched<Option<Bet>>): (r: BetRun)
    ensures r.trace == [FetchBet(parseUInt(idParam))]
    ensures fetched.code != NoError ==> r.returned == Returned(500, None, fetched.code)
    ensures fetched.code == NoError && fetched.value.None? ==>
      r.returned == Returned(404, None, DbRecNotFound)
    ensures r.returned.status == 200 <==> fetched.code == NoError && fetched.value.Some?
    ensures r.returned.status == 200 ==> r.returned == Returned(200, Some(OneBet(fetched.value.value)), NoError)
  {
    var lookup := [FetchBet(parseUInt(idParam))];
    if fetched.code != NoError then BetRun(Returned(500, None, fetched.code), lookup)
    else match fetched.value
      case None => BetRun(Returned(404, None, DbRecNotFound), lookup)
      case Some(bet) => BetRun(Returned(200, Some(OneBet(bet)), NoError), lookup)
  }
}
