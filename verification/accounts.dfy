/**
 * The per-user account record of the ledger and its append-only history.
 */
module Accounts {
  import opened Wrappers
  import opened Coercion

  /** `new Date().toLocaleString()`: kept opaque, supplied by the caller. */
  type Timestamp = string

  type UserId = string

  /** Balance a lazily created account starts with. */
  const StartingBalance: int := 9000
  /** Ratings a user may submit before an admin reset. */
  const DailyCap: int := 25
  /** Smallest balance that still allows a rating. */
  const BalanceFloor: int := 8500

  /** Payout destination as saved by `/bank`: each field is stored exactly as sent, or is absent. */
  datatype BankDetails = BankDetails(
    bankName: Option<JsValue>,
    accountHolder: Option<JsValue>,
    accountNumber: Option<JsValue>,
    ifsc: Option<JsValue>)

  /** The `{}` every new account starts with. */
  const NoBankDetails := BankDetails(None, None, None, None)

  /** One history record; the constructor is the record's `type` tag. */
  datatype Entry =
    | Rating(time: Timestamp, hotel: string, stars: int, amount: int)
    | WithdrawRequest(time: Timestamp, amount: int)
    | AdminAdd(time: Timestamp, amount: int, note: string)
    | WithdrawProcessed(time: Timestamp, amount: int, note: string)
  {
    /** The kinds the admin ratings listing reports, and the ones that credit the user. */
    predicate IsCredit() {
      Rating? || AdminAdd?
    }
  }

  datatype Account = Account(
    totalEarned: int,
    ratingsDone: int,
    history: seq<Entry>,
    pendingWithdraw: int,
    bankDetails: BankDetails,
    balance: int,
    canRate: bool)

  /** The record `createUserIfMissing` stores for an unseen user. */
  function NewAccount(): Account {
    Account(0, 0, [], 0, NoBankDetails, StartingBalance, true)
  }

  /** Sum of the amounts of the `rating` and `admin_add` entries of `h`. */
  function Credited(h: seq<Entry>): int {
    if |h| == 0 then 0
    else Credited(h[..|h| - 1]) + (if h[|h| - 1].IsCredit() then h[|h| - 1].amount else 0)
  }

  /** Sum of the amounts of the `withdraw_request` entries of `h`. */
  function Requested(h: seq<Entry>): int {
    if |h| == 0 then 0
    else Requested(h[..|h| - 1]) + (if h[|h| - 1].WithdrawRequest? then h[|h| - 1].amount else 0)
  }

  /** Sum of the amounts of the `withdraw_processed` entries of `h`. */
  function Settled(h: seq<Entry>): int {
    if |h| == 0 then 0
    else Settled(h[..|h| - 1]) + (if h[|h| - 1].WithdrawProcessed? then h[|h| - 1].amount else 0)
  }

  /** Appending one entry adds its amount to exactly the running sum of its kind. */
  lemma HistoryAppend(h: seq<Entry>, e: Entry)
    ensures Credited(h + [e]) == Credited(h) + (if e.IsCredit() then e.amount else 0)
    ensures Requested(h + [e]) == Requested(h) + (if e.WithdrawRequest? then e.amount else 0)
    ensures Settled(h + [e]) == Settled(h) + (if e.WithdrawProcessed? then e.amount else 0)
  {
    assert (h + [e])[..|h|] == h;
  }

  /**
   * The account's counters agree with its history: earnings are credits less
   * withdraw requests, the pending amount is requests not yet settled, and the
   * balance is the starting balance plus every credit.
   */
  ghost predicate Consistent(a: Account) {
    && a.totalEarned == Credited(a.history) - Requested(a.history)
    && a.pendingWithdraw == Requested(a.history) - Settled(a.history)
    && a.balance == StartingBalance + Credited(a.history)
  }

  /** The rating counter never passes the daily cap. */
  ghost predicate WithinCap(a: Account) {
    0 <= a.ratingsDone <= DailyCap
  }

  /** No money counter is negative. */
  ghost predicate NonNegative(a: Account) {
    a.totalEarned >= 0 && a.pendingWithdraw >= 0 && a.balance >= 0
  }
}
