# Rating-platform account ledger

A Dafny model of the account rules of the hotel-rating reward server
(`server.js`). Users earn a commission per hotel rating, request withdrawals
of their earnings, and an admin credits accounts, toggles a user's right to
rate, resets the daily rating counters and settles pending withdrawals.

The store is a `map<string, Account>`. Every route is a pure function from
that map (plus the request fields and an opaque clock reading) to a
`Response(users, status)`. A route that rejects a request does not save the
database. Its response therefore carries the map it was given, even where the
handler created an account in memory first (`/rating`, `/withdraw`).

Modules:

- `Wrappers` (`wrappers.dfy`) holds `Option`.
- `Coercion` (`coercion.dfy`) holds the JavaScript coercions the handlers use:
  `!!v`, `parseInt(x) || 0` and `s || "Unknown"`.
- `Accounts` (`accounts.dfy`) holds the account record and the history entry
  variants. It also defines the history sums and the `Consistent` predicate:
  - earnings equal credits less withdraw requests;
  - the pending amount equals requests less settlements;
  - the balance equals 9000 plus all credits.
- `Ledger` (`ledger.dfy`) holds `createUserIfMissing` and the rule bodies of
  `/load`, `/rating`, `/withdraw`, `/bank`, `/admin/addAmount`,
  `/admin/setCanRate`, `/admin/resetRatings` and `/admin/processWithdraw`.
- `Listings` (`listings.dfy`) holds `/admin/ratings` and `/admin/withdraws`.
  The order in which `for (const uid in db.users)` visits the users is an
  explicit parameter `ids`.
- `Server` (`server.dfy`) holds the request type, the dispatcher `Handle` and
  `Run`, which applies a sequence of requests.
- `Invariants` (`invariants.dfy`) holds the properties that span routes.

Request-field conventions:

- A missing `userId` (`!userId`) is the empty string.
- A field whose `typeof` is `"undefined"` is `None`.
- A `parseInt` result is `Some(n)`, or `None` when it gave NaN.

Behaviour of the code worth knowing:

- The code clamps no amount. `/rating` credits a negative commission as
  given, and `/admin/addAmount` credits a negative amount as given.
  `Invariants.NegativeAmountsOverdraw` shows both taking a new account to a
  balance of -1. Non-negativity is proved only for requests with non-negative
  amounts (`Invariants.HandleKeepsNonNegative`).
- `admin/admin.js` calls `/admin/cutAmount` (:69), `/admin/settings` (:88),
  `/admin/toggleRating` (:96) and `/admin/toggleWithdraw` (:100). `server.js`
  defines none of them, so the model has none of them.
- A withdraw request lowers `totalEarned` and raises `pendingWithdraw`, but
  leaves `balance` unchanged (`server.js:144-146`).

## Model

| member | source | states |
|---|---|---|
| `Ledger.CreateUserIfMissing` | server.js:59-71 | An unseen id gets an account with 0 earned, 0 ratings, empty history, 0 pending, empty bank details, balance 9000 and rating allowed; no other account changes. A stored id leaves the map as it is. |
| `Ledger.Load` | server.js:91-97 | Always succeeds. It returns the stored account, or a newly created one that is then stored. Nothing else changes. |
| `Ledger.SubmitRating` | server.js:100-129 | Checks run in order and the first failure answers: missing id, rating disabled, 25 ratings reached, balance below 8500. A rejection stores nothing. It succeeds iff the id is present and the account is eligible. On success, earnings and balance grow by the commission (0 if unparsable) and the counter by 1. One rating entry is appended, with stars defaulting to 0 and hotel to "Unknown". Pending amount, bank details and flag are kept, and other users are untouched. |
| `Ledger.RequestWithdraw` | server.js:132-150 | Missing fields are rejected first. Then an amount <= 0 is rejected, then an amount above the earnings. A rejection stores nothing. On success the amount moves from earnings to pending, so their sum is kept and earnings stay >= 0. The balance is unchanged and one withdraw_request entry is appended. |
| `Ledger.SaveBank` | server.js:153-162 | A missing id is rejected with "Missing userId" and stores nothing; otherwise it succeeds. The four fields are stored exactly as sent, whatever their JSON type, or absent. It replaces only the bank details of that account, creating the account if needed. |
| `Ledger.AddAmount` | server.js:200-215 | Succeeds iff id and amount are present. It adds the amount to both earnings and balance and appends one admin_add entry with note "Added by admin". Nothing else changes. |
| `Ledger.SetCanRate` | server.js:218-227 | Succeeds iff id and flag are present. It sets only the rating flag, to the JavaScript truthiness of the input. |
| `Ledger.ResetRatings` | server.js:230-237 | Keeps the same users. Each user's rating counter becomes 0 and every other field is kept. |
| `Ledger.ProcessWithdraw` | server.js:268-284 | A missing id is rejected, then an unknown user ("not found", no account is created), then a pending amount <= 0. On success one withdraw_processed entry for the whole prior pending amount is appended and pending becomes 0. Earnings, balance and all else are kept. |
| `Listings.CreditRows` | server.js:245-249 | A row is in one user's filtered history iff it is a rating or admin_add entry of that history, tagged with that user. |
| `Listings.RatingsListing` | server.js:240-252 | A row is in the ratings listing iff it tags a visited user with one of that user's rating or admin_add entries. |
| `Listings.CreditRowsAppend` | server.js:243-250 | Filtering keeps append order: the rows of a concatenated history are the rows of its first part followed by those of its second part. |
| `Listings.CreditRowsPrefix` | server.js:245-249 | When one history is a prefix of another, its filtered rows are a prefix of the other's rows. |
| `Listings.RatingsListingPerUser` | server.js:242-250 | Over distinct visited users, one user's rows in the ratings listing are exactly that user's filtered history, in append order. A user who is not visited has no rows. |
| `Listings.WithdrawsListing` | server.js:255-265 | A row is in the withdraw listing iff it names a visited user with pending > 0, with that pending amount and those bank details. The listing has no more rows than there are visited ids. |
| `Listings.WithdrawsListingDistinct` | server.js:257-263 | With distinct visited users, no user has two withdraw rows. |
| `Listings.WithdrawsListingExact` | server.js:258-263 | When every stored user is visited once, a user has a withdraw row iff the user is stored with pending > 0. |
| `Accounts.HistoryAppend` | server.js:124 | Appending an entry adds its amount to exactly the running sum of its kind: credits, withdraw requests or settlements. |
| `Invariants.RatingKeepsConsistent` | server.js:112-124 | A rating keeps every account consistent with its history: the commission is credited to earnings and balance and recorded as a credit entry. |
| `Invariants.WithdrawKeepsConsistent` | server.js:144-146 | A withdraw request keeps every account consistent: the amount leaves earnings, joins the pending amount and is recorded as a request. |
| `Invariants.AddAmountKeepsConsistent` | server.js:209-211 | An admin credit keeps every account consistent: the amount is credited to earnings and balance and recorded as a credit entry. |
| `Invariants.ProcessKeepsConsistent` | server.js:276-281 | A settlement keeps every account consistent: the whole pending amount is recorded as settled and pending becomes 0. |
| `Invariants.HandleKeepsConsistent` | server.js:100-284 | Every route keeps each account's earnings, pending amount and balance in agreement with its history. |
| `Invariants.HandleKeepsCap` | server.js:108-114 | No route takes a rating counter outside 0..25. |
| `Invariants.HandleKeepsNonNegative` | server.js:140-145 | With non-negative commission and credit amounts, no route makes earnings, pending amount or balance negative. |
| `Invariants.HandleExtends` | server.js:100-284 | Routes never remove users, and every history only gains entries at its end. |
| `Invariants.HandleKeepsPendingNonNegative` | server.js:141-145 | Whatever the amounts, no route makes a pending amount negative. A withdraw adds only a positive amount, and a settlement sets the pending amount to 0 (server.js:281). |
| `Invariants.RunKeepsInvariants` | server.js:86-284 | After any sequence of requests, consistency, the cap and non-negative pending amounts still hold, and all earlier history is kept. |
| `Invariants.RunKeepsNonNegative` | server.js:112-145 | If every request in a sequence carries non-negative commission and credit amounts, no money counter goes negative at any point. |
| `Invariants.ReachablePendingNonNegative` | server.js:141-145 | Every account reachable from the empty store has a non-negative pending amount. This is the premise of `Invariants.WithdrawThenProcess`. |
| `Invariants.HandleExtendsCreditRows` | server.js:240-250 | Each user's rows in the ratings listing only grow at the end, whatever request runs. |
| `Invariants.CreateUserIdempotent` | server.js:59-71 | Creating a missing user twice is the same as creating it once. |
| `Invariants.LoadIdempotent` | server.js:91-97 | Loading twice gives the same store and account as loading once. |
| `Invariants.NewUserCanRate` | server.js:105-110 | A rating by a user who is not yet stored always passes the three checks. |
| `Invariants.DisabledUserCannotRate` | server.js:218-227 | After the flag is set to a falsy value, every rating by that user is refused with "Rating disabled by admin", and nothing is stored. |
| `Invariants.ResetLiftsCap` | server.js:230-237 | After a reset, a stored user's rating succeeds iff the user's flag is set and the balance is at least 8500. |
| `Invariants.ResetIdempotent` | server.js:232-234 | Resetting twice equals resetting once. |
| `Invariants.WithdrawThenProcess` | server.js:132-284 | For an account whose pending amount is non-negative (every reachable account, by `Invariants.ReachablePendingNonNegative`), a valid withdraw request followed by settlement leaves nothing pending. The history gains the request and then a settlement of the prior pending amount plus the request. Earnings drop by the amount and the balance is unchanged. |
| `Invariants.ProcessSettlesRequests` | server.js:276-281 | For a stored account that is consistent (no other account matters), after settlement the settled total equals the requested total. |
| `Invariants.NegativeAmountsOverdraw` | server.js:112-115 | A commission of -9001, or an admin credit of -9001, on a new account leaves a balance of -1. |

## Left out

- HTTP routing, CORS, static serving, `/test`, `app.listen` and status codes are transport. A response is `Ok` or `Err(error)`, and `Error.Message` gives the route's message text.
- The database file helpers `ensureDB`, `loadDB` and `saveDB` are file I/O. The store is an in-memory map that is passed in and returned.
- Admin login, logout and the token check use randomness and header parsing. The admin routes are modelled as if the token check had passed.
- `/admin/users` only returns the map unchanged.
- `/admin/stats` reads a different file and has no ledger rules.
- Timestamps are opaque strings supplied by the caller.
- `parseInt` string parsing is not modelled: callers pass `Option<int>`.
- Ledger.RequestWithdraw: an amount that parses to NaN is not modelled; the model accepts only well-formed integers.
  - The source lets NaN through both guards (server.js:141-142). It saves `totalEarned`, `pendingWithdraw` and the entry's `amount` as null, because `JSON.stringify` writes NaN as null (server.js:56).
  - Arithmetic then reads null as 0, so later credits start from 0.
  - `/admin/withdraws` skips the user (server.js:260), and `/admin/processWithdraw` answers "No pending withdraw for user" (server.js:276-277). Any earlier pending amount is silently lost.
- Ledger.AddAmount: likewise, a NaN amount is not modelled. The source saves `totalEarned`, `balance` and the entry's `amount` as null. Since `null < 8500` holds, every later rating by that user is refused with the balance message (server.js:110).
- Non-string request values for `userId` and `hotel` are not modelled. The `canRate` field and the four `/bank` fields (`bankName`, `accountHolder`, `accountNumber`, `ifsc`) cover every value `express.json` can deliver: booleans, `null`, strings, arrays, objects and finite numbers. The exception is strings with unpaired UTF-16 surrogates, which a Dafny `string` cannot hold; the same holds for `userId` and `hotel`. The ledger only tests these strings for equality and emptiness. A number is the finite double `JSON.parse` produced. An overflowing literal arrives as Infinity, which is not modelled; it would be truthy.
- Ledger.CreateUserIfMissing: ids that name members inherited from `Object.prototype` (`"constructor"`, `"toString"`, `"__proto__"`, `"hasOwnProperty"`, ...) are not modelled. In the source `db.users[userId]` is truthy for them, so no account is created (server.js:60).
  - `/rating` answers "Rating disabled by admin".
  - `/admin/processWithdraw` answers "No pending withdraw for user".
  - `/withdraw` with an amount <= 0 answers "Invalid amount" (server.js:141) before writing anything, as the model does. With an amount > 0 it throws at `history.push`.
  - `/admin/addAmount` throws at `history.push`.
  - For `"__proto__"` the record is `Object.prototype` itself. `/bank` then assigns `Object.prototype.bankDetails` (server.js:159), and `/admin/setCanRate` assigns `Object.prototype.canRate` (server.js:224). `/withdraw` and `/admin/addAmount` assign `totalEarned`, `pendingWithdraw` and `balance` there before they throw (server.js:144-145, 209-210).
  - Those writes last until the process restarts. From then on `createUserIfMissing` skips ids such as `"bankDetails"`, and the `for...in` loops at server.js:232, 243 and 258 also visit the new keys.
  - So a request sequence falls outside `Server.Run` and `Invariants.RunKeepsInvariants` from the first request that names such an id, until the process restarts. The model treats such ids like any other unseen id and creates a fresh account.
- Accounts.Consistent: JavaScript numbers are IEEE doubles, while the model's integers are exact. The sums at server.js:113-115, 144-145 and 209-210 round once a value passes 2^53. `Consistent`, `Invariants.RunKeepsInvariants` and the other arithmetic contracts describe the source only while every amount and every running sum stays within plus or minus 2^53.
- Ledger.Load: it accepts the empty id, which the Express route `/load/:userId` never delivers. So `Server.Handle` can store an account under `""`, which no source route can create.
- Listings.RatingsListing: JavaScript's key order (integer-like keys first, then insertion order) is not modelled. The visiting order is a parameter, and the properties hold for every order.
- Listings.WithdrawsListing: likewise, the visiting order is a parameter. Accounts without `bankDetails` (the `|| null` branch) cannot arise in the model, because every account has bank details.
- Concurrent requests are not modelled. Each request is one atomic step.
- `admin/admin.js` is DOM code that calls routes this server does not have.
