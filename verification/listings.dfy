/**
 * The two admin read-only queries. Both walk the stored users in the order
 * `for (const uid in db.users)` visits them; that order is a parameter here
 * (`ids`), so every property holds whatever order the store yields.
 */
module Listings {
  import opened Accounts
  import opened Ledger

  /** One row of `/admin/ratings`: a history entry tagged with its owner. */
  datatype RatingRow = RatingRow(userId: UserId, entry: Entry)

  /** One row of `/admin/withdraws`. */
  datatype WithdrawRow = WithdrawRow(userId: UserId, pendingWithdraw: int, bank: BankDetails)

  /** `ids` lists no user twice. */
  ghost predicate Distinct(ids: seq<UserId>) {
    forall i, j :: 0 <= i < j < |ids| ==> ids[i] != ids[j]
  }

  /** `ids` visits every stored user exactly once. */
  ghost predicate Enumerates(ids: seq<UserId>, users: Users) {
    Distinct(ids) && forall u :: u in ids <==> u in users
  }

  /** The credit entries of one history, tagged with `uid`, in append order. */
  function CreditRows(uid: UserId, h: seq<Entry>): (r: seq<RatingRow>)
    ensures |r| <= |h|
    ensures forall row :: row in r <==> row.userId == uid && row.entry in h && row.entry.IsCredit()
  {
    if |h| == 0 then []
    else
      assert h == h[..|h| - 1] + [h[|h| - 1]];
      CreditRows(uid, h[..|h| - 1]) + (if h[|h| - 1].IsCredit() then [RatingRow(uid, h[|h| - 1])] else [])
  }

  /** `GET /admin/ratings`: every user's credit rows, user after user. */
  function RatingsListing(users: Users, ids: seq<UserId>): (r: seq<RatingRow>)
    requires forall u :: u in ids ==> u in users
    ensures forall row :: row in r <==>
      row.userId in ids && row.entry in users[row.userId].history && row.entry.IsCredit()
  {
    if |ids| == 0 then []
    else CreditRows(ids[0], users[ids[0]].history) + RatingsListing(users, ids[1..])
  }

  /** `GET /admin/withdraws`: the users with money pending, with their bank details. */
  function WithdrawsListing(users: Users, ids: seq<UserId>): (r: seq<WithdrawRow>)
    requires forall u :: u in ids ==> u in users
    ensures |r| <= |ids|
    ensures forall row :: row in r <==>
      && row.userId in ids
      && users[row.userId].pendingWithdraw > 0
      && row == WithdrawRow(row.userId, users[row.userId].pendingWithdraw, users[row.userId].bankDetails)
  {
    if |ids| == 0 then []
    else
      var u := users[ids[0]];
      var rest := WithdrawsListing(users, ids[1..]);
      if u.pendingWithdraw > 0 then [WithdrawRow(ids[0], u.pendingWithdraw, u.bankDetails)] + rest
      else rest
  }

  /** The rows of `rows` that belong to `uid`, in order. */
  function RowsOf(rows: seq<RatingRow>, uid: UserId): seq<RatingRow> {
    if |rows| == 0 then []
    else (if rows[0].userId == uid then [rows[0]] else []) + RowsOf(rows[1..], uid)
  }

  lemma {:induction false} RowsOfAppend(a: seq<RatingRow>, b: seq<RatingRow>, uid: UserId)
    ensures RowsOf(a + b, uid) == RowsOf(a, uid) + RowsOf(b, uid)
    decreases |a|
  {
    if |a| == 0 {
      assert a + b == b;
    } else {
      var first := if a[0].userId == uid then [a[0]] else [];
      assert (a + b)[0] == a[0];
      assert (a + b)[1..] == a[1..] + b;
      assert RowsOf(a + b, uid) == first + RowsOf(a[1..] + b, uid);
      RowsOfAppend(a[1..], b, uid);
      assert RowsOf(a, uid) == first + RowsOf(a[1..], uid);
    }
  }

  /** Filtering preserves history order: the rows of a longer history extend those of its prefix. */
  lemma {:induction false} CreditRowsAppend(uid: UserId, h1: seq<Entry>, h2: seq<Entry>)
    ensures CreditRows(uid, h1 + h2) == CreditRows(uid, h1) + CreditRows(uid, h2)
    decreases |h2|
  {
    if |h2| == 0 {
      assert h1 + h2 == h1;
    } else {
      var h2' := h2[..|h2| - 1];
      assert (h1 + h2)[..|h1 + h2| - 1] == h1 + h2';
      assert (h1 + h2)[|h1 + h2| - 1] == h2[|h2| - 1];
      CreditRowsAppend(uid, h1, h2');
    }
  }

  /** A longer history never loses or reorders the rows of its prefix. */
  lemma CreditRowsPrefix(uid: UserId, h: seq<Entry>, h': seq<Entry>)
    requires h <= h'
    ensures CreditRows(uid, h) <= CreditRows(uid, h')
  {
    assert h' == h + h'[|h|..];
    CreditRowsAppend(uid, h, h'[|h|..]);
  }

  lemma {:induction false} RowsOfCreditRows(v: UserId, h: seq<Entry>, uid: UserId)
    ensures RowsOf(CreditRows(v, h), uid) == if v == uid then CreditRows(v, h) else []
    decreases |h|
  {
    if |h| != 0 {
      var h' := h[..|h| - 1];
      var last := if h[|h| - 1].IsCredit() then [RatingRow(v, h[|h| - 1])] else [];
      RowsOfAppend(CreditRows(v, h'), last, uid);
      RowsOfCreditRows(v, h', uid);
      assert RowsOf(last, uid) == if v == uid then last else [] by {
        if |last| == 1 {
          assert last[1..] == [];
        }
      }
    }
  }

  /** Dropping the first id keeps the rest distinct and free of that id. */
  lemma DistinctTail(ids: seq<UserId>)
    requires Distinct(ids) && |ids| != 0
    ensures Distinct(ids[1..]) && ids[0] !in ids[1..]
  {
    var rest := ids[1..];
    forall i, j | 0 <= i < j < |rest| ensures rest[i] != rest[j] {
      assert rest[i] == ids[i + 1] && rest[j] == ids[j + 1];
    }
    forall k | 0 <= k < |rest| ensures rest[k] != ids[0] {
      assert rest[k] == ids[k + 1];
    }
  }

  /**
   * Per user, the ratings listing is exactly that user's credit entries in
   * the order they were appended; a user not visited has no rows.
   */
  lemma {:induction false} RatingsListingPerUser(users: Users, ids: seq<UserId>, uid: UserId)
    requires forall u :: u in ids ==> u in users
    requires Distinct(ids)
    ensures uid in ids ==> RowsOf(RatingsListing(users, ids), uid) == CreditRows(uid, users[uid].history)
    ensures uid !in ids ==> RowsOf(RatingsListing(users, ids), uid) == []
    decreases |ids|
  {
    if |ids| != 0 {
      var rest := ids[1..];
      DistinctTail(ids);
      RowsOfAppend(CreditRows(ids[0], users[ids[0]].history), RatingsListing(users, rest), uid);
      RowsOfCreditRows(ids[0], users[ids[0]].history, uid);
      RatingsListingPerUser(users, rest, uid);
    }
  }

  /** No user has two rows in `rows`. */
  ghost predicate DistinctUsers(rows: seq<WithdrawRow>) {
    forall i, j :: 0 <= i < j < |rows| ==> rows[i].userId != rows[j].userId
  }

  /** Each user appears at most once in the withdraw listing. */
  lemma {:induction false} WithdrawsListingDistinct(users: Users, ids: seq<UserId>)
    requires forall u :: u in ids ==> u in users
    requires Distinct(ids)
    ensures DistinctUsers(WithdrawsListing(users, ids))
    decreases |ids|
  {
    if |ids| != 0 {
      var rest := ids[1..];
      DistinctTail(ids);
      WithdrawsListingDistinct(users, rest);
      var tail := WithdrawsListing(users, rest);
      forall k | 0 <= k < |tail| ensures tail[k].userId != ids[0] {
        assert tail[k] in tail;
      }
      var r := WithdrawsListing(users, ids);
      if users[ids[0]].pendingWithdraw > 0 {
        assert r == [WithdrawRow(ids[0], users[ids[0]].pendingWithdraw, users[ids[0]].bankDetails)] + tail;
        forall i, j | 0 <= i < j < |r| ensures r[i].userId != r[j].userId {
          assert r[j] == tail[j - 1];
          if i > 0 {
            assert r[i] == tail[i - 1];
            assert tail[i - 1].userId != tail[j - 1].userId;
          } else {
            assert r[i].userId == ids[0];
            assert tail[j - 1].userId != ids[0];
          }
        }
      }
    }
  }

  /** Over a full enumeration, a user has a withdraw row exactly when money is pending for it. */
  lemma WithdrawsListingExact(users: Users, ids: seq<UserId>, uid: UserId)
    requires Enumerates(ids, users)
    ensures (exists row :: row in WithdrawsListing(users, ids) && row.userId == uid)
            <==> uid in users && users[uid].pendingWithdraw > 0
  {
    if uid in users && users[uid].pendingWithdraw > 0 {
      var row := WithdrawRow(uid, users[uid].pendingWithdraw, users[uid].bankDetails);
      assert row in WithdrawsListing(users, ids);
    }
  }
}
