/**
 * The route table: one request constructor per state-changing route, and
 * the database as it stands after a sequence of requests.
 */
module Server {
  import opened Wrappers
  import opened Coercion
  import opened Accounts
  import Ledger

  datatype Request =
    | LoadReq(id: UserId)
    | RateReq(id: UserId, commission: Option<int>, stars: Option<int>, hotel: Option<string>)
    | WithdrawReq(id: UserId, amount: Option<int>)
    | BankReq(id: UserId, bankName: Option<JsValue>, accountHolder: Option<JsValue>,
               accountNumber: Option<JsValue>, ifsc: Option<JsValue>)
    | AddAmountReq(id: UserId, amount: Option<int>)
    | SetCanRateReq(id: UserId, flag: Option<JsValue>)
    | ResetReq
    | ProcessReq(id: UserId)

  /** A request and the clock reading its handler stamps history entries with. */
  datatype Call = Call(request: Request, time: Timestamp)

  function Handle(users: Ledger.Users, req: Request, now: Timestamp): Ledger.Response {
    match req
    case LoadReq(id) => Ledger.Load(users, id)
    case RateReq(id, commission, stars, hotel) => Ledger.SubmitRating(users, id, commission, stars, hotel, now)
    case WithdrawReq(id, amount) => Ledger.RequestWithdraw(users, id, amount, now)
    case BankReq(id, bankName, holder, number, ifsc) => Ledger.SaveBank(users, id, bankName, holder, number, ifsc)
    case AddAmountReq(id, amount) => Ledger.AddAmount(users, id, amount, now)
    case SetCanRateReq(id, flag) => Ledger.SetCanRate(users, id, flag)
    case ResetReq => Ledger.Response(Ledger.ResetRatings(users), Ledger.Ok)
    case ProcessReq(id) => Ledger.ProcessWithdraw(users, id, now)
  }

  /** The database after the calls, one after another. */
  function Run(users: Ledger.Users, calls: seq<Call>): Ledger.Users
    decreases |calls|
  {
    if |calls| == 0 then users
    else Run(Handle(users, calls[0].request, calls[0].time).users, calls[1..])
  }
}
