/** The persisted records the handlers build and return. */
module Models {
  import opened Common

  datatype BetStatus = Open | Pending | Closed | Cancelled

  /** A user's stake on one option of a bet (the `UserBet` model); the staked
      amount is a float in the program and is not modelled. */
  datatype Wager = Wager(userId: nat, option: string)

  /** A bet as the handlers construct it. `endsAt` is None where the struct
      literal leaves the timestamp at Go's zero time, and `author` is 0 where it
      leaves the author unset. The identifier is assigned by the database and
      does not appear before the write. */
  datatype Bet = Bet(
    name: string,
    description: string,
    options: seq<string>,
    status: BetStatus,
    endsAt: Option<int>,
    author: nat,
    wagers: seq<Wager>)

  datatype User = User(username: string, password: seq<byte>, email: string, name: string)
}

/** The calls into collaborators that a handler makes, in order. A handler
    returns this log beside its reply, so that "what happened before what"
    and "what never happened" can be stated about it. */
module Effects {
  import opened Common
  import opened Models

  datatype Event =
    | DecodeToken(token: string)                              // middleware.Decode
    | FetchUser(username: string)                             // DB.GetUserByUsername
    | InsertUser(user: User)                                  // DB.CreateUser
    | SignTokens(subject: string)                             // middleware.Sign
    | InsertBet(bet: Bet)                                     // DB.CreateBet, minimal variant
    | InsertBetWithWager(bet: Bet, userId: nat, option: string) // DB.CreateBet with a seed wager
    | FetchBet(id: nat)                                       // DB.GetBetByID
    | Broadcast(frame: seq<byte>)                             // WebSocket.SendMessageToAll

  /** A handler's reply together with its effect log. */
  datatype Run<+B> = Run(outcome: Outcome<B>, trace: seq<Event>)

  /** Number of broadcasts in a log. */
  function BroadcastCount(trace: seq<Event>): (n: nat)
    ensures n <= |trace|
    ensures n == 0 <==> forall i | 0 <= i < |trace| :: !trace[i].Broadcast?
  {
    if |trace| == 0 then 0
    else (if trace[0].Broadcast? then 1 else 0) + BroadcastCount(trace[1..])
  }
}
