/** The minimal bet-creation variant (routes/root/service/root.go): no author,
    no end time, no seed wager, and no broadcast. */
module RootService {
  import opened Common
  import opened Models
  import opened Effects

  datatype CreateBetReq = CreateBetReq(name: string, description: string, options: seq<string>)

  datatype CreateBody = Created(bet: Bet) | Invalid(errs: seq<ValidationError>)

  /** `CreateBet`. `dbCode` is the result of the database write. */
  function CreateBet(req: Parsed<CreateBetReq>, errs: seq<ValidationError>, dbCode: Code): (r: Run<CreateBody>)
    ensures req.ParseFailed? ==> r == Run(Reply(400, "[Parser] Bad request", None), [])
    ensures req.ParseOk? && Rejects(errs) ==>
      r == Run(Reply(400, "[Validator] Bad request", Some(Invalid(errs))), [])
    // the database is reached only with a parsed, valid body, and then with an Open bet without wagers
    ensures r.trace != [] <==> PassesBody(req, errs)
    ensures r.trace != [] ==>
      |r.trace| == 1 && r.trace[0].InsertBet? &&
      var bet := r.trace[0].bet;
      && bet.status == Open
      && bet.wagers == []
      && bet.options == req.req.options
      && bet.name == req.req.name
      && bet.description == req.req.description
    ensures r.trace != [] && dbCode == DbDupKey ==> r.outcome == Reply(409, "User already exists", None)
    ensures r.trace != [] && dbCode != NoError && dbCode != DbDupKey ==>
      r.outcome == Reply(500, "Internal server error", None)
    ensures r.outcome.Reply? && r.outcome.status == 201 <==> r.trace != [] && dbCode == NoError
    ensures r.outcome.Reply? && r.outcome.status == 201 ==>
      r.outcome == Reply(201, "Bet created", Some(Created(r.trace[0].bet)))
    // this variant never notifies the live clients
    ensures BroadcastCount(r.trace) == 0
  {
    match req
    case ParseFailed(_) => Run(Reply(400, "[Parser] Bad request", None), [])
    case ParseOk(rq) =>
      if Rejects(errs) then Run(Reply(400, "[Validator] Bad request", Some(Invalid(errs))), [])
      else
        var bet := Bet(rq.name, rq.description, rq.options, Open, None, 0, []);
        var written := [InsertBet(bet)];
        if dbCode != NoError then
          if dbCode == DbDupKey then Run(Reply(409, "User already exists", None), written)
          else Run(Reply(500, "Internal server error", None), written)
        else Run(Reply(201, "Bet created", Some(Created(bet))), written)
  }
}
