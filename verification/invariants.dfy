/**
 * Properties of the ledger across routes: what every request preserves,
 * and how pairs of requests relate.
 */
module Invariants {
  import opened Wrappers
  import opened Coercion
  import opened Accounts
  import opened Ledger
  import opened Listings
  import Server

  ghost predicate AllConsistent(users: Users) {
    forall u :: u in users ==> Consistent(users[u])
  }

  ghost predicate AllWithinCap(users: Users) {
    forall u :: u in users ==> WithinCap(users[u])
  }

  /** No account has a negative amount pending. */
  ghost predicate AllPendingNonNegative(users: Users) {
    forall u :: u in users ==> users[u].pendingWithdraw >= 0
  }

  ghost predicate AllNonNegative(users: Users) {
    forall u :: u in users ==> NonNegative(users[u])
  }

  /** No user disappears and no history loses or changes an entry. */
  ghost predicate Extends(users: Users, users': Users) {
    && users.Keys <= users'.Keys
    && forall u :: u in users ==> users[u].history <= users'[u].history
  }

  /** The request carries no negative money amount (a withdraw needs none: it rejects them). */
  predicate NonNegativeInputs(req: Server.Request) {
    match req
    case RateReq(_, commission, _, _) => IntOrZero(commission) >= 0
    case AddAmountReq(_, amount) => amount.GetOr(0) >= 0
    case _ => true
  }

  /** A route that only rewrites one account keeps the store consistent if that account is. */
  lemma TouchKeepsConsistent(users: Users, users': Users, id: UserId)
    requires AllConsistent(users)
    requires OnlyTouches(users, users', id) && Consistent(users'[id])
    ensures AllConsistent(users')
  {
  }

  lemma RatingKeepsConsistent(users: Users, id: UserId, commission: Option<int>, stars: Option<int>,
                              hotel: Option<string>, now: Timestamp)
    requires AllConsistent(users)
    ensures AllConsistent(SubmitRating(users, id, commission, stars, hotel, now).users)
  {
    var r := SubmitRating(users, id, commission, stars, hotel, now);
    if r.status == Ok {
      HistoryAppend(AccountOf(users, id).history, RatingEntry(commission, stars, hotel, now));
      TouchKeepsConsistent(users, r.users, id);
    }
  }

  lemma WithdrawKeepsConsistent(users: Users, id: UserId, amount: Option<int>, now: Timestamp)
    requires AllConsistent(users)
    ensures AllConsistent(RequestWithdraw(users, id, amount, now).users)
  {
    var r := RequestWithdraw(users, id, amount, now);
    if r.status == Ok {
      HistoryAppend(AccountOf(users, id).history, WithdrawRequest(now, amount.value));
      TouchKeepsConsistent(users, r.users, id);
    }
  }

  lemma AddAmountKeepsConsistent(users: Users, id: UserId, amount: Option<int>, now: Timestamp)
    requires AllConsistent(users)
    ensures AllConsistent(AddAmount(users, id, amount, now).users)
  {
    var r := AddAmount(users, id, amount, now);
    if r.status == Ok {
      HistoryAppend(AccountOf(users, id).history, AdminAdd(now, amount.value, "Added by admin"));
      TouchKeepsConsistent(users, r.users, id);
    }
  }

  lemma ProcessKeepsConsistent(users: Users, id: UserId, now: Timestamp)
    requires AllConsistent(users)
    ensures AllConsistent(ProcessWithdraw(users, id, now).users)
  {
    var r := ProcessWithdraw(users, id, now);
    if r.status == Ok {
      HistoryAppend(users[id].history, WithdrawProcessed(now, users[id].pendingWithdraw, "Processed by admin"));
      TouchKeepsConsistent(users, r.users, id);
    }
  }

  /** Every route keeps every account's counters in agreement with its history. */
  lemma HandleKeepsConsistent(users: Users, req: Server.Request, now: Timestamp)
    requires AllConsistent(users)
    ensures AllConsistent(Server.Handle(users, req, now).users)
  {
    match req
    case LoadReq(id) =>
    case RateReq(id, commission, stars, hotel) =>
      RatingKeepsConsistent(users, id, commission, stars, hotel, now);
    case WithdrawReq(id, amount) =>
      WithdrawKeepsConsistent(users, id, amount, now);
    case BankReq(id, bankName, holder, number, ifsc) =>
      var r := SaveBank(users, id, bankName, holder, number, ifsc);
      if r.status == Ok {
        TouchKeepsConsistent(users, r.users, id);
      }
    case AddAmountReq(id, amount) =>
      AddAmountKeepsConsistent(users, id, amount, now);
    case SetCanRateReq(id, flag) =>
      var r := SetCanRate(users, id, flag);
      if r.status == Ok {
        TouchKeepsConsistent(users, r.users, id);
      }
    case ResetReq =>
    case ProcessReq(id) =>
      ProcessKeepsConsistent(users, id, now);
  }

  /** No route lets a rating counter past the daily cap. */
  lemma HandleKeepsCap(users: Users, req: Server.Request, now: Timestamp)
    requires AllWithinCap(users)
    ensures AllWithinCap(Server.Handle(users, req, now).users)
  {
  }

  /** With non-negative amounts, no money counter ever goes negative. */
  lemma HandleKeepsNonNegative(users: Users, req: Server.Request, now: Timestamp)
    requires AllNonNegative(users)
    requires NonNegativeInputs(req)
    ensures AllNonNegative(Server.Handle(users, req, now).users)
  {
  }

  /** Routes only add users and only append to histories. */
  lemma HandleExtends(users: Users, req: Server.Request, now: Timestamp)
    ensures Extends(users, Server.Handle(users, req, now).users)
  {
  }

  /**
   * Whatever the amounts, no route makes a pending amount negative: a
   * withdraw request adds only a positive amount and a settlement sets it to 0.
   */
  lemma HandleKeepsPendingNonNegative(users: Users, req: Server.Request, now: Timestamp)
    requires AllPendingNonNegative(users)
    ensures AllPendingNonNegative(Server.Handle(users, req, now).users)
  {
  }

  /** The invariants hold after any sequence of requests from a state where they hold. */
  lemma {:induction false} RunKeepsInvariants(users: Users, calls: seq<Server.Call>)
    requires AllConsistent(users) && AllWithinCap(users) && AllPendingNonNegative(users)
    ensures AllConsistent(Server.Run(users, calls)) && AllWithinCap(Server.Run(users, calls))
    ensures AllPendingNonNegative(Server.Run(users, calls))
    ensures Extends(users, Server.Run(users, calls))
    decreases |calls|
  {
    if |calls| != 0 {
      var next := Server.Handle(users, calls[0].request, calls[0].time).users;
      HandleKeepsConsistent(users, calls[0].request, calls[0].time);
      HandleKeepsCap(users, calls[0].request, calls[0].time);
      HandleKeepsPendingNonNegative(users, calls[0].request, calls[0].time);
      HandleExtends(users, calls[0].request, calls[0].time);
      RunKeepsInvariants(next, calls[1..]);
    }
  }

  /** With non-negative amounts in every request, no money counter ever goes negative. */
  lemma {:induction false} RunKeepsNonNegative(users: Users, calls: seq<Server.Call>)
    requires AllNonNegative(users)
    requires forall i :: 0 <= i < |calls| ==> NonNegativeInputs(calls[i].request)
    ensures AllNonNegative(Server.Run(users, calls))
    decreases |calls|
  {
    if |calls| != 0 {
      HandleKeepsNonNegative(users, calls[0].request, calls[0].time);
      assert forall i :: 0 <= i < |calls[1..]| ==> calls[1..][i] == calls[i + 1];
      RunKeepsNonNegative(Server.Handle(users, calls[0].request, calls[0].time).users, calls[1..]);
    }
  }

  /** From the empty store, every reachable account has a non-negative pending amount. */
  lemma ReachablePendingNonNegative(calls: seq<Server.Call>, id: UserId)
    requires id in Server.Run(map[], calls)
    ensures Server.Run(map[], calls)[id].pendingWithdraw >= 0
  {
    RunKeepsInvariants(map[], calls);
  }

  /** The per-user ratings listing only grows: earlier rows stay, in order, at the front. */
  lemma HandleExtendsCreditRows(users: Users, req: Server.Request, now: Timestamp, uid: UserId)
    requires uid in users
    ensures var users' := Server.Handle(users, req, now).users;
      uid in users' && CreditRows(uid, users[uid].history) <= CreditRows(uid, users'[uid].history)
  {
    var users' := Server.Handle(users, req, now).users;
    HandleExtends(users, req, now);
    CreditRowsPrefix(uid, users[uid].history, users'[uid].history);
  }

  /** `createUserIfMissing` is idempotent. */
  lemma CreateUserIdempotent(users: Users, id: UserId)
    ensures CreateUserIfMissing(CreateUserIfMissing(users, id), id) == CreateUserIfMissing(users, id)
  {
  }

  /** Loading twice stores and returns the same account as loading once. */
  lemma LoadIdempotent(users: Users, id: UserId)
    ensures Load(Load(users, id).users, id) == Load(users, id)
  {
  }

  /** A user the store has never seen can always rate. */
  lemma NewUserCanRate(users: Users, id: UserId, commission: Option<int>, stars: Option<int>,
                       hotel: Option<string>, now: Timestamp)
    requires id != "" && id !in users
    ensures SubmitRating(users, id, commission, stars, hotel, now).status == Ok
  {
  }

  /** After the admin clears a user's flag, every rating of that user is refused. */
  lemma DisabledUserCannotRate(users: Users, id: UserId, flag: JsValue, commission: Option<int>,
                               stars: Option<int>, hotel: Option<string>, now: Timestamp)
    requires id != "" && !Truthy(flag)
    ensures var users' := SetCanRate(users, id, Some(flag)).users;
      SubmitRating(users', id, commission, stars, hotel, now) == Response(users', Err(RatingDisabled))
  {
  }

  /** After a reset, only the flag and the balance floor can refuse a stored user's rating. */
  lemma ResetLiftsCap(users: Users, id: UserId, commission: Option<int>, stars: Option<int>,
                      hotel: Option<string>, now: Timestamp)
    requires id != "" && id in users
    ensures SubmitRating(ResetRatings(users), id, commission, stars, hotel, now).status == Ok
            <==> users[id].canRate && users[id].balance >= BalanceFloor
  {
  }

  lemma ResetIdempotent(users: Users)
    ensures ResetRatings(ResetRatings(users)) == ResetRatings(users)
  {
  }

  /**
   * A withdraw request settled by the admin: nothing stays pending, the
   * history gains the request and a settlement of everything that was
   * pending, and earnings drop by the amount while the balance stays.
   */
  lemma WithdrawThenProcess(users: Users, id: UserId, amt: int, t1: Timestamp, t2: Timestamp)
    requires id != "" && 0 < amt <= AccountOf(users, id).totalEarned
    requires AccountOf(users, id).pendingWithdraw >= 0
    ensures var r1 := RequestWithdraw(users, id, Some(amt), t1);
      var r2 := ProcessWithdraw(r1.users, id, t2);
      var a, a' := AccountOf(users, id), r2.users[id];
      && r1.status == Ok && r2.status == Ok
      && a'.pendingWithdraw == 0
      && a'.history == a.history + [WithdrawRequest(t1, amt),
                                    WithdrawProcessed(t2, a.pendingWithdraw + amt, "Processed by admin")]
      && a'.totalEarned == a.totalEarned - amt
      && a'.balance == a.balance
  {
  }

  /** For a consistent account the settled amount is exactly the unsettled requests. */
  lemma ProcessSettlesRequests(users: Users, id: UserId, now: Timestamp)
    requires id in users && Consistent(users[id])
    requires ProcessWithdraw(users, id, now).status == Ok
    ensures var h' := ProcessWithdraw(users, id, now).users[id].history;
      Settled(h') == Requested(h')
  {
    HistoryAppend(users[id].history, WithdrawProcessed(now, users[id].pendingWithdraw, "Processed by admin"));
  }

  /**
   * Neither the rating route nor the admin credit route bounds its amount,
   * so a negative commission or credit can take a new account's balance
   * below zero.
   */
  lemma NegativeAmountsOverdraw()
    ensures var r := SubmitRating(map[], "u", Some(-9001), None, None, "t");
      r.status == Ok && r.users["u"].balance == -1
    ensures var r := AddAmount(map[], "u", Some(-9001), "t");
      r.status == Ok && r.users["u"].balance == -1 && r.users["u"].totalEarned == -9001
  {
  }
}
