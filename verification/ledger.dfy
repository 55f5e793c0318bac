/**
 * The rule bodies of the server's state-changing routes, each a pure
 * read-modify-write over the user map. A route that rejects a request does
 * not save the database, so its response carries the user map it was given.
 * The admin routes are modelled as if their token check had passed.
 */
module Ledger {
  import opened Wrappers
  import opened Coercion
  import opened Accounts

  type Users = map<UserId, Account>

  datatype Error =
    | MissingUserId
    | MissingParams
    | RatingDisabled
    | DailyCapReached
    | BalanceTooLow
    | InvalidAmount
    | NotEnoughEarnings
    | UserNotFound
    | NoPendingWithdraw
  {
    /** The `message` field the route answers with. */
    function Message(): string {
      match this
      case MissingUserId => "Missing userId"
      case MissingParams => "Missing params"
      case RatingDisabled => "Rating disabled by admin"
      case DailyCapReached => "Max 25 ratings done today"
      case BalanceTooLow => "Balance must be \U{2265} \U{20B9}8500 to give ratings"
      case InvalidAmount => "Invalid amount"
      case NotEnoughEarnings => "Not enough earnings"
      case UserNotFound => "User not found"
      case NoPendingWithdraw => "No pending withdraw for user"
    }
  }

  datatype Status = Ok | Err(error: Error)

  /** The user map after the route, and whether it succeeded. */
  datatype Response = Response(users: Users, status: Status)

  /** The account a route works on: the stored one, or a new one. */
  function AccountOf(users: Users, id: UserId): Account {
    if id in users then users[id] else NewAccount()
  }

  /** `users'` differs from `users` at most in the account of `id`, which it holds. */
  ghost predicate OnlyTouches(users: Users, users': Users, id: UserId) {
    && users'.Keys == users.Keys + {id}
    && forall u :: u in users && u != id ==> users'[u] == users[u]
  }

  /** `createUserIfMissing`: store a default account for an unseen id. */
  function CreateUserIfMissing(users: Users, id: UserId): (r: Users)
    ensures r.Keys == users.Keys + {id}
    ensures id in users ==> r == users
    ensures id !in users ==> OnlyTouches(users, r, id)
    ensures id !in users ==>
      && r[id].totalEarned == 0
      && r[id].ratingsDone == 0
      && r[id].history == []
      && r[id].pendingWithdraw == 0
      && r[id].bankDetails == NoBankDetails
      && r[id].balance == StartingBalance
      && r[id].canRate
  {
    if id in users then users else users[id := NewAccount()]
  }

  /** `GET /load/:userId`: create the account if needed, save, and return it. */
  function Load(users: Users, id: UserId): (r: Response)
    ensures r.status == Ok
    ensures id in r.users && r.users[id] == AccountOf(users, id)
    ensures id in users ==> r.users == users
    ensures OnlyTouches(users, r.users, id)
  {
    Response(CreateUserIfMissing(users, id), Ok)
  }

  /** The three per-account conditions a rating must pass. */
  predicate Eligible(a: Account) {
    a.canRate && a.ratingsDone < DailyCap && a.balance >= BalanceFloor
  }

  /** The history record a successful rating appends. */
  function RatingEntry(commission: Option<int>, stars: Option<int>, hotel: Option<string>, now: Timestamp): Entry {
    Rating(now, TextOr(hotel, "Unknown"), IntOrZero(stars), IntOrZero(commission))
  }

  /**
   * `POST /rating`. The checks run in order and the first failure answers:
   * missing id, rating disabled, cap reached, balance below the floor.
   */
  function SubmitRating(users: Users, id: UserId, commission: Option<int>, stars: Option<int>,
                        hotel: Option<string>, now: Timestamp): (r: Response)
    ensures r.status.Err? ==> r.users == users
    ensures id == "" ==> r.status == Err(MissingUserId)
    ensures id != "" && !AccountOf(users, id).canRate ==> r.status == Err(RatingDisabled)
    ensures id != "" && AccountOf(users, id).canRate && AccountOf(users, id).ratingsDone >= DailyCap
            ==> r.status == Err(DailyCapReached)
    ensures id != "" && AccountOf(users, id).canRate && AccountOf(users, id).ratingsDone < DailyCap
            && AccountOf(users, id).balance < BalanceFloor
            ==> r.status == Err(BalanceTooLow)
    ensures r.status == Ok <==> id != "" && Eligible(AccountOf(users, id))
    ensures r.status == Ok ==> OnlyTouches(users, r.users, id)
    ensures r.status == Ok ==>
      var a, a', c := AccountOf(users, id), r.users[id], IntOrZero(commission);
      && a'.totalEarned == a.totalEarned + c
      && a'.balance == a.balance + c
      && a'.ratingsDone == a.ratingsDone + 1
      && a'.history == a.history + [Rating(now, TextOr(hotel, "Unknown"), IntOrZero(stars), c)]
      && a'.pendingWithdraw == a.pendingWithdraw
      && a'.bankDetails == a.bankDetails
      && a'.canRate == a.canRate
  {
    if id == "" then Response(users, Err(MissingUserId))
    else
      var a := AccountOf(users, id);
      if !a.canRate then Response(users, Err(RatingDisabled))
      else if a.ratingsDone >= DailyCap then Response(users, Err(DailyCapReached))
      else if a.balance < BalanceFloor then Response(users, Err(BalanceTooLow))
      else
        var c := IntOrZero(commission);
        var a' := a.(totalEarned := a.totalEarned + c,
                     ratingsDone := a.ratingsDone + 1,
                     balance := a.balance + c,
                     history := a.history + [RatingEntry(commission, stars, hotel, now)]);
        Response(users[id := a'], Ok)
  }

  /**
   * `POST /withdraw`: move `amount` from earnings into the pending payout.
   * `amount` is `None` when the field is absent.
   */
  function RequestWithdraw(users: Users, id: UserId, amount: Option<int>, now: Timestamp): (r: Response)
    ensures r.status.Err? ==> r.users == users
    ensures id == "" || amount.None? ==> r.status == Err(MissingParams)
    ensures id != "" && amount.Some? && amount.value <= 0 ==> r.status == Err(InvalidAmount)
    ensures id != "" && amount.Some? && 0 < amount.value && amount.value > AccountOf(users, id).totalEarned
            ==> r.status == Err(NotEnoughEarnings)
    ensures r.status == Ok <==>
      id != "" && amount.Some? && 0 < amount.value <= AccountOf(users, id).totalEarned
    ensures r.status == Ok ==> OnlyTouches(users, r.users, id)
    ensures r.status == Ok ==>
      var a, a', amt := AccountOf(users, id), r.users[id], amount.value;
      && a'.totalEarned == a.totalEarned - amt
      && a'.pendingWithdraw == a.pendingWithdraw + amt
      && a'.totalEarned + a'.pendingWithdraw == a.totalEarned + a.pendingWithdraw
      && a'.totalEarned >= 0
      && a'.history == a.history + [WithdrawRequest(now, amt)]
      && a'.balance == a.balance
      && a'.ratingsDone == a.ratingsDone
      && a'.bankDetails == a.bankDetails
      && a'.canRate == a.canRate
  {
    if id == "" || amount.None? then Response(users, Err(MissingParams))
    else
      var a := AccountOf(users, id);
      var amt := amount.value;
      if amt <= 0 then Response(users, Err(InvalidAmount))
      else if amt > a.totalEarned then Response(users, Err(NotEnoughEarnings))
      else
        var a' := a.(totalEarned := a.totalEarned - amt,
                     pendingWithdraw := a.pendingWithdraw + amt,
                     history := a.history + [WithdrawRequest(now, amt)]);
        Response(users[id := a'], Ok)
  }

  /** `POST /bank`: replace the payout details of the account. */
  function SaveBank(users: Users, id: UserId, bankName: Option<JsValue>, accountHolder: Option<JsValue>,
                    accountNumber: Option<JsValue>, ifsc: Option<JsValue>): (r: Response)
    ensures r.status.Err? ==> r.users == users
    ensures r.status == Ok <==> id != ""
    ensures r.status.Err? ==> r.status.error == MissingUserId
    ensures r.status == Ok ==>
      && OnlyTouches(users, r.users, id)
      && r.users[id] == AccountOf(users, id).(bankDetails := BankDetails(bankName, accountHolder, accountNumber, ifsc))
  {
    if id == "" then Response(users, Err(MissingUserId))
    else
      var a := AccountOf(users, id);
      Response(users[id := a.(bankDetails := BankDetails(bankName, accountHolder, accountNumber, ifsc))], Ok)
  }

  /** `POST /admin/addAmount`: credit the account; the amount is not validated. */
  function AddAmount(users: Users, id: UserId, amount: Option<int>, now: Timestamp): (r: Response)
    ensures r.status.Err? ==> r.users == users
    ensures r.status == Ok <==> id != "" && amount.Some?
    ensures r.status.Err? ==> r.status.error == MissingParams
    ensures r.status == Ok ==> OnlyTouches(users, r.users, id)
    ensures r.status == Ok ==>
      var a, a', amt := AccountOf(users, id), r.users[id], amount.value;
      && a'.totalEarned == a.totalEarned + amt
      && a'.balance == a.balance + amt
      && a'.history == a.history + [AdminAdd(now, amt, "Added by admin")]
      && a'.pendingWithdraw == a.pendingWithdraw
      && a'.ratingsDone == a.ratingsDone
      && a'.bankDetails == a.bankDetails
      && a'.canRate == a.canRate
  {
    if id == "" || amount.None? then Response(users, Err(MissingParams))
    else
      var a := AccountOf(users, id);
      var amt := amount.value;
      var a' := a.(totalEarned := a.totalEarned + amt,
                   balance := a.balance + amt,
                   history := a.history + [AdminAdd(now, amt, "Added by admin")]);
      Response(users[id := a'], Ok)
  }

  /** `POST /admin/setCanRate`: set the per-user rating flag to `!!flag`. */
  function SetCanRate(users: Users, id: UserId, flag: Option<JsValue>): (r: Response)
    ensures r.status.Err? ==> r.users == users
    ensures r.status == Ok <==> id != "" && flag.Some?
    ensures r.status.Err? ==> r.status.error == MissingParams
    ensures r.status == Ok ==>
      && OnlyTouches(users, r.users, id)
      && r.users[id] == AccountOf(users, id).(canRate := Truthy(flag.value))
  {
    if id == "" || flag.None? then Response(users, Err(MissingParams))
    else Response(users[id := AccountOf(users, id).(canRate := Truthy(flag.value))], Ok)
  }

  /** `POST /admin/resetRatings`: zero the rating counter of every stored user. */
  function ResetRatings(users: Users): (r: Users)
    ensures r.Keys == users.Keys
    ensures forall u :: u in users ==> r[u] == users[u].(ratingsDone := 0)
  {
    map u | u in users :: users[u].(ratingsDone := 0)
  }

  /**
   * `POST /admin/processWithdraw`: settle the whole pending amount of a
   * stored user. It never creates an account.
   */
  function ProcessWithdraw(users: Users, id: UserId, now: Timestamp): (r: Response)
    ensures r.status.Err? ==> r.users == users
    ensures id == "" ==> r.status == Err(MissingUserId)
    ensures id != "" && id !in users ==> r.status == Err(UserNotFound)
    ensures id != "" && id in users && users[id].pendingWithdraw <= 0 ==> r.status == Err(NoPendingWithdraw)
    ensures r.status == Ok <==> id != "" && id in users && users[id].pendingWithdraw > 0
    ensures r.status == Ok ==> r.users.Keys == users.Keys && OnlyTouches(users, r.users, id)
    ensures r.status == Ok ==>
      var a, a' := users[id], r.users[id];
      && a'.history == a.history + [WithdrawProcessed(now, a.pendingWithdraw, "Processed by admin")]
      && a'.pendingWithdraw == 0
      && a'.totalEarned == a.totalEarned
      && a'.balance == a.balance
      && a'.ratingsDone == a.ratingsDone
      && a'.bankDetails == a.bankDetails
      && a'.canRate == a.canRate
  {
    if id == "" then Response(users, Err(MissingUserId))
    else if id !in users then Response(users, Err(UserNotFound))
    else
      var a := users[id];
      var amt := a.pendingWithdraw;
      if amt <= 0 then Response(users, Err(NoPendingWithdraw))
      else
        var a' := a.(history := a.history + [WithdrawProcessed(now, amt, "Processed by admin")],
                     pendingWithdraw := 0);
        Response(users[id := a'], Ok)
  }
}
