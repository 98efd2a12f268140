/**
 * The four SQLite tables of the payment service (user addresses, deposits,
 * withdrawals and user balances) as an in-memory ledger. Each statement's
 * conflict behaviour (INSERT OR REPLACE, INSERT OR IGNORE, UPDATE ... WHERE,
 * and the ON CONFLICT upsert) is a pure function on the table it touches;
 * the `Ledger` class holds the tables and applies them.
 */
module Database {
  import opened Wrappers

  datatype AddressRow = AddressRow(address: string, encryptedPrivateKey: string)

  datatype Deposit = Deposit(
    id: nat, userId: string, address: string, txid: string, amount: real,
    status: string, blockNumber: Option<int>, confirmedAt: Option<int>)

  datatype Withdrawal = Withdrawal(
    id: nat, userId: string, toAddress: string, amount: real, fee: real,
    netAmount: real, txid: Option<string>, status: string, processedAt: Option<int>)

  datatype BalanceRow = BalanceRow(balance: real, locked: real)

  /** The part of the ledger that withdrawal processing reads and writes. */
  datatype Books = Books(withdrawals: seq<Withdrawal>, balances: map<string, BalanceRow>)

  /** All four tables plus the AUTOINCREMENT counters of the two id columns. */
  datatype LedgerState = LedgerState(
    addresses: map<string, AddressRow>,
    deposits: seq<Deposit>, depositSeq: nat,
    withdrawals: seq<Withdrawal>, withdrawalSeq: nat,
    balances: map<string, BalanceRow>)

  function BooksOf(s: LedgerState): Books {
    Books(s.withdrawals, s.balances)
  }

  /** `s` with its withdrawals and balances replaced by `b`. */
  function WithBooks(s: LedgerState, b: Books): (r: LedgerState)
    ensures BooksOf(r) == b
  {
    s.(withdrawals := b.withdrawals, balances := b.balances)
  }

  /** `getUserDeposits`' default `LIMIT`. */
  const DEFAULT_DEPOSIT_LIMIT: int := 50

  // ---------------------------------------------------------------- user_addresses

  /** The UNIQUE constraint on `address`. */
  predicate UniqueAddresses(rows: map<string, AddressRow>) {
    forall u, v :: u in rows && v in rows && u != v ==> rows[u].address != rows[v].address
  }

  /**
   * `INSERT OR REPLACE` keyed by `user_id`: the user's previous row is
   * replaced, and REPLACE also deletes another user's row that holds the
   * same address.
   */
  function SavedAddress(rows: map<string, AddressRow>, userId: string, address: string, key: string)
    : (r: map<string, AddressRow>)
    ensures userId in r && r[userId] == AddressRow(address, key)
    ensures forall u :: u in r && u != userId ==> u in rows && r[u] == rows[u] && rows[u].address != address
    ensures forall u :: u in rows && u != userId && rows[u].address != address ==> u in r
    ensures UniqueAddresses(rows) ==> UniqueAddresses(r)
  {
    (map u | u in rows && u != userId && rows[u].address != address :: rows[u])[userId := AddressRow(address, key)]
  }

  // ---------------------------------------------------------------- deposits

  predicate HasTxid(ds: seq<Deposit>, txid: string) {
    exists k :: 0 <= k < |ds| && ds[k].txid == txid
  }

  /** Ids strictly increase in insertion order and never pass the AUTOINCREMENT counter; txids are UNIQUE. */
  predicate DepositsWellFormed(ds: seq<Deposit>, counter: nat) {
    && (forall k :: 0 <= k < |ds| ==> 0 < ds[k].id <= counter)
    && (forall a, b :: 0 <= a < b < |ds| ==> ds[a].id < ds[b].id)
    && (forall a, b :: 0 <= a < b < |ds| ==> ds[a].txid != ds[b].txid)
  }

  /**
   * `INSERT OR IGNORE INTO deposits`: a txid already present leaves the
   * table and the counter as they were; otherwise a `pending` row with the
   * next id is appended.
   */
  function InsertDepositOrIgnore(
    ds: seq<Deposit>, counter: nat, userId: string, address: string, txid: string,
    amount: real, blockNumber: Option<int>): (seq<Deposit>, nat)
  {
    if HasTxid(ds, txid) then (ds, counter)
    else (ds + [Deposit(counter + 1, userId, address, txid, amount, "pending", blockNumber, None)], counter + 1)
  }

  /** A known txid changes nothing; otherwise one `pending` row is appended under the next id. */
  lemma InsertDepositOrIgnoreEffect(
    ds: seq<Deposit>, counter: nat, userId: string, address: string, txid: string,
    amount: real, blockNumber: Option<int>)
    ensures var r := InsertDepositOrIgnore(ds, counter, userId, address, txid, amount, blockNumber);
      && (HasTxid(ds, txid) ==> r == (ds, counter))
      && (!HasTxid(ds, txid) ==>
            && r.1 == counter + 1 && |r.0| == |ds| + 1 && r.0[..|ds|] == ds
            && r.0[|ds|].status == "pending" && r.0[|ds|].txid == txid && r.0[|ds|].userId == userId
            && r.0[|ds|].amount == amount && r.0[|ds|].confirmedAt.None?)
  {
  }

  /** The insertion keeps ids increasing, below the counter, and txids UNIQUE. */
  lemma InsertKeepsWellFormed(
    ds: seq<Deposit>, counter: nat, userId: string, address: string, txid: string,
    amount: real, blockNumber: Option<int>)
    requires DepositsWellFormed(ds, counter)
    ensures var (r, next) := InsertDepositOrIgnore(ds, counter, userId, address, txid, amount, blockNumber);
      DepositsWellFormed(r, next)
  {
  }

  /** `UPDATE deposits SET status = ?, confirmed_at = ? WHERE txid = ?`. */
  function DepositStatusSet(ds: seq<Deposit>, txid: string, status: string, confirmedAt: Option<int>): seq<Deposit> {
    seq(|ds|, k requires 0 <= k < |ds| =>
      if ds[k].txid == txid then ds[k].(status := status, confirmedAt := confirmedAt) else ds[k])
  }

  /**
   * Exactly the rows with that txid get the new status and time, and
   * nothing else about any row changes; an unknown txid changes nothing.
   */
  lemma DepositStatusSetEffect(ds: seq<Deposit>, txid: string, status: string, confirmedAt: Option<int>)
    ensures var r := DepositStatusSet(ds, txid, status, confirmedAt);
      && |r| == |ds|
      && (forall k :: 0 <= k < |ds| && ds[k].txid != txid ==> r[k] == ds[k])
      && (forall k :: 0 <= k < |ds| && ds[k].txid == txid ==>
            r[k].status == status && r[k].confirmedAt == confirmedAt
            && r[k].(status := ds[k].status, confirmedAt := ds[k].confirmedAt) == ds[k])
      && (!HasTxid(ds, txid) ==> r == ds)
  {
  }

  /** A status update changes neither ids nor txids. */
  lemma DepositStatusSetKeepsWellFormed(ds: seq<Deposit>, txid: string, status: string, confirmedAt: Option<int>, counter: nat)
    requires DepositsWellFormed(ds, counter)
    ensures DepositsWellFormed(DepositStatusSet(ds, txid, status, confirmedAt), counter)
  {
  }

  /** The rows of `userId`, newest (last inserted) first. */
  function NewestFirst(ds: seq<Deposit>, userId: string): seq<Deposit> {
    if ds == [] then []
    else
      var last := ds[|ds| - 1];
      (if last.userId == userId then [last] else []) + NewestFirst(ds[..|ds| - 1], userId)
  }

  /** Only rows of the table, and only the user's. */
  lemma {:induction false} NewestFirstSound(ds: seq<Deposit>, userId: string)
    ensures var r := NewestFirst(ds, userId);
      |r| <= |ds| && forall k :: 0 <= k < |r| ==> r[k].userId == userId && r[k] in ds
  {
    if ds != [] {
      var init := ds[..|ds| - 1];
      NewestFirstSound(init, userId);
      var last := ds[|ds| - 1];
      var rest := NewestFirst(init, userId);
      var r := (if last.userId == userId then [last] else []) + rest;
      assert NewestFirst(ds, userId) == r;
      forall k | 0 <= k < |r| ensures r[k].userId == userId && r[k] in ds {
        if last.userId == userId && k == 0 {
        } else {
          var j := if last.userId == userId then k - 1 else k;
          assert r[k] == rest[j];
          var i :| 0 <= i < |init| && init[i] == rest[j];
          assert ds[i] == init[i];
        }
      }
    }
  }

  /** SQLite `LIMIT`: a negative limit means no limit. */
  function Limited<T>(s: seq<T>, limit: int): (r: seq<T>)
    ensures 0 <= limit ==> |r| == Min(limit, |s|)
    ensures limit < 0 ==> r == s
    ensures |r| <= |s| && r == s[..|r|]
  {
    if 0 <= limit < |s| then s[..limit] else s
  }

  /** `SELECT * FROM deposits WHERE user_id = ? ORDER BY created_at DESC LIMIT ?`. */
  function UserDeposits(ds: seq<Deposit>, userId: string, limit: int): seq<Deposit> {
    Limited(NewestFirst(ds, userId), limit)
  }

  /** The confirmed-deposit sum of `checkUserDeposits` (a filter and a left-to-right `reduce`). */
  function ConfirmedTotal(ds: seq<Deposit>): real {
    if ds == [] then 0.0
    else (if ds[0].status == "confirmed" then ds[0].amount else 0.0) + ConfirmedTotal(ds[1..])
  }

  lemma {:induction false} ConfirmedTotalConcat(a: seq<Deposit>, b: seq<Deposit>)
    ensures ConfirmedTotal(a + b) == ConfirmedTotal(a) + ConfirmedTotal(b)
  {
    if a != [] {
      assert (a + b)[1..] == a[1..] + b;
      ConfirmedTotalConcat(a[1..], b);
    } else {
      assert a + b == b;
    }
  }

  /** Every row of the user is listed, so with no limit the query is complete. */
  lemma {:induction false} NewestFirstComplete(ds: seq<Deposit>, userId: string, d: Deposit)
    requires d in ds && d.userId == userId
    ensures d in NewestFirst(ds, userId)
  {
    var last := ds[|ds| - 1];
    if d != last {
      assert ds == ds[..|ds| - 1] + [last];
      NewestFirstComplete(ds[..|ds| - 1], userId, d);
    }
  }

  predicate IdsDescending(ds: seq<Deposit>) {
    forall a, b :: 0 <= a < b < |ds| ==> ds[a].id > ds[b].id
  }

  /** With ids increasing in insertion order the query lists ids in decreasing order. */
  lemma {:induction false} NewestFirstDescending(ds: seq<Deposit>, userId: string, counter: nat)
    requires DepositsWellFormed(ds, counter)
    ensures IdsDescending(NewestFirst(ds, userId))
  {
    if ds != [] {
      var init := ds[..|ds| - 1];
      assert DepositsWellFormed(init, counter);
      NewestFirstDescending(init, userId, counter);
      NewestFirstSound(init, userId);
      var rest := NewestFirst(init, userId);
      var last := ds[|ds| - 1];
      forall k | 0 <= k < |rest| ensures rest[k].id < last.id {
        var j :| 0 <= j < |init| && init[j] == rest[k];
      }
      assert NewestFirst(ds, userId) == (if last.userId == userId then [last] else []) + rest;
      if last.userId == userId {
        var r := [last] + rest;
        forall a, b | 0 <= a < b < |r| ensures r[a].id > r[b].id {
          assert r[b] == rest[b - 1];
          if a > 0 {
            assert r[a] == rest[a - 1];
          }
        }
      }
    }
  }

  /** A new row of the user goes to the head of the list. */
  lemma NewestFirstAppend(ds: seq<Deposit>, d: Deposit, userId: string)
    ensures NewestFirst(ds + [d], userId) == (if d.userId == userId then [d] else []) + NewestFirst(ds, userId)
  {
    assert (ds + [d])[..|ds|] == ds;
  }

  /**
   * With `limit` at least 0 and more rows than `limit`, the confirmed sum
   * over the query result misses exactly the confirmed amounts of the
   * older rows past the limit.
   */
  lemma LimitHidesOlderDeposits(ds: seq<Deposit>, userId: string, limit: int)
    requires 0 <= limit < |NewestFirst(ds, userId)|
    ensures var all := NewestFirst(ds, userId);
      ConfirmedTotal(UserDeposits(ds, userId, limit)) == ConfirmedTotal(all) - ConfirmedTotal(all[limit..])
  {
    var all := NewestFirst(ds, userId);
    assert all == all[..limit] + all[limit..];
    ConfirmedTotalConcat(all[..limit], all[limit..]);
  }

  /**
   * The query returns only the user's rows, at most `limit` of them, newest
   * first; with no limit, or no more rows than the limit, it returns all of
   * them.
   */
  lemma UserDepositsMeaning(ds: seq<Deposit>, counter: nat, userId: string, limit: int)
    requires DepositsWellFormed(ds, counter)
    ensures var rows := UserDeposits(ds, userId, limit);
      && (0 <= limit ==> |rows| <= limit)
      && (forall k :: 0 <= k < |rows| ==> rows[k].userId == userId && rows[k] in ds)
      && (limit < 0 || |NewestFirst(ds, userId)| <= limit ==> forall d :: d in ds && d.userId == userId ==> d in rows)
      && IdsDescending(rows)
  {
    var rows := UserDeposits(ds, userId, limit);
    NewestFirstSound(ds, userId);
    forall d | d in ds && d.userId == userId && (limit < 0 || |NewestFirst(ds, userId)| <= limit)
      ensures d in rows
    {
      NewestFirstComplete(ds, userId, d);
    }
    NewestFirstDescending(ds, userId, counter);
    var all := NewestFirst(ds, userId);
    forall a, b | 0 <= a < b < |rows| ensures rows[a].id > rows[b].id {
      assert rows[a] == all[a] && rows[b] == all[b];
    }
  }

  // ---------------------------------------------------------------- withdrawals

  /** Ids strictly increase in insertion order and never pass the AUTOINCREMENT counter. */
  predicate WithdrawalsWellFormed(ws: seq<Withdrawal>, counter: nat) {
    && (forall k :: 0 <= k < |ws| ==> 0 < ws[k].id <= counter)
    && (forall a, b :: 0 <= a < b < |ws| ==> ws[a].id < ws[b].id)
  }

  /** `INSERT INTO withdrawals`: status and txid take their column defaults. */
  function NewWithdrawal(id: nat, userId: string, toAddress: string, amount: real, fee: real, netAmount: real)
    : (w: Withdrawal)
    ensures w.status == "pending" && w.txid.None? && w.processedAt.None?
  {
    Withdrawal(id, userId, toAddress, amount, fee, netAmount, None, "pending", None)
  }

  /** `UPDATE withdrawals SET status = ?, txid = ?, processed_at = ? WHERE id = ?`. */
  function WithdrawalStatusSet(
    ws: seq<Withdrawal>, id: nat, status: string, txid: Option<string>, processedAt: Option<int>)
    : seq<Withdrawal>
  {
    seq(|ws|, k requires 0 <= k < |ws| =>
      if ws[k].id == id then ws[k].(status := status, txid := txid, processedAt := processedAt) else ws[k])
  }

  /** Exactly the row with that id gets the new status, txid and time; nothing else changes. */
  lemma WithdrawalStatusSetEffect(
    ws: seq<Withdrawal>, id: nat, status: string, txid: Option<string>, processedAt: Option<int>)
    ensures var r := WithdrawalStatusSet(ws, id, status, txid, processedAt);
      && |r| == |ws|
      && (forall k :: 0 <= k < |ws| && ws[k].id != id ==> r[k] == ws[k])
      && (forall k :: 0 <= k < |ws| && ws[k].id == id ==>
            r[k].status == status && r[k].txid == txid && r[k].processedAt == processedAt
            && r[k].(status := ws[k].status, txid := ws[k].txid, processedAt := ws[k].processedAt) == ws[k])
  {
  }

  /** A status update changes no id. */
  lemma WithdrawalStatusSetKeepsWellFormed(
    ws: seq<Withdrawal>, id: nat, status: string, txid: Option<string>, processedAt: Option<int>, counter: nat)
    requires WithdrawalsWellFormed(ws, counter)
    ensures WithdrawalsWellFormed(WithdrawalStatusSet(ws, id, status, txid, processedAt), counter)
  {
  }

  /** `SELECT * FROM withdrawals WHERE status = "pending" ORDER BY created_at ASC`. */
  function Pending(ws: seq<Withdrawal>): seq<Withdrawal> {
    if ws == [] then []
    else
      var last := ws[|ws| - 1];
      Pending(ws[..|ws| - 1]) + (if last.status == "pending" then [last] else [])
  }

  /** Only rows of the table, and only pending ones. */
  lemma {:induction false} PendingSound(ws: seq<Withdrawal>)
    ensures var r := Pending(ws);
      |r| <= |ws| && forall k :: 0 <= k < |r| ==> r[k].status == "pending" && r[k] in ws
  {
    if ws != [] {
      var init := ws[..|ws| - 1];
      PendingSound(init);
      var last := ws[|ws| - 1];
      var rest := Pending(init);
      var r := rest + (if last.status == "pending" then [last] else []);
      assert Pending(ws) == r;
      forall k | 0 <= k < |r| ensures r[k].status == "pending" && r[k] in ws {
        if k < |rest| {
          assert r[k] == rest[k];
          var i :| 0 <= i < |init| && init[i] == rest[k];
          assert ws[i] == init[i];
        }
      }
    }
  }

  /** Every pending row is listed. */
  lemma {:induction false} PendingComplete(ws: seq<Withdrawal>, w: Withdrawal)
    requires w in ws && w.status == "pending"
    ensures w in Pending(ws)
  {
    var last := ws[|ws| - 1];
    if w != last {
      assert ws == ws[..|ws| - 1] + [last];
      PendingComplete(ws[..|ws| - 1], w);
    }
  }

  predicate IdsAscending(ws: seq<Withdrawal>) {
    forall a, b :: 0 <= a < b < |ws| ==> ws[a].id < ws[b].id
  }

  /** The pending rows come in insertion order, so their ids increase. */
  lemma {:induction false} PendingAscending(ws: seq<Withdrawal>, counter: nat)
    requires WithdrawalsWellFormed(ws, counter)
    ensures IdsAscending(Pending(ws))
  {
    if ws != [] {
      var init := ws[..|ws| - 1];
      assert WithdrawalsWellFormed(init, counter);
      PendingAscending(init, counter);
      PendingSound(init);
      var rest := Pending(init);
      var last := ws[|ws| - 1];
      forall k | 0 <= k < |rest| ensures rest[k].id < last.id {
        var j :| 0 <= j < |init| && init[j] == rest[k];
      }
      assert Pending(ws) == rest + (if last.status == "pending" then [last] else []);
      if last.status == "pending" {
        var r := rest + [last];
        forall a, b | 0 <= a < b < |r| ensures r[a].id < r[b].id {
          assert r[a] == rest[a];
          if b < |rest| {
            assert r[b] == rest[b];
          }
        }
      }
    }
  }

  /** The query returns exactly the pending rows, in ascending id order. */
  lemma PendingMeaning(ws: seq<Withdrawal>, counter: nat)
    requires WithdrawalsWellFormed(ws, counter)
    ensures forall w :: w in Pending(ws) <==> w in ws && w.status == "pending"
    ensures IdsAscending(Pending(ws))
  {
    PendingSound(ws);
    forall w | w in ws && w.status == "pending" ensures w in Pending(ws) {
      PendingComplete(ws, w);
    }
    PendingAscending(ws, counter);
  }

  // ---------------------------------------------------------------- user_balances

  /** `getUserBalance`: a user without a row reads as balance 0 and locked 0. */
  function BalanceOf(rows: map<string, BalanceRow>, userId: string): (b: BalanceRow)
    ensures userId !in rows ==> b == BalanceRow(0.0, 0.0)
    ensures userId in rows ==> b == rows[userId]
  {
    if userId in rows then rows[userId] else BalanceRow(0.0, 0.0)
  }

  /**
   * `INSERT ... ON CONFLICT(user_id) DO UPDATE SET balance = balance + ?`:
   * a new row is `{amount, 0}`, an existing one gains `amount` and keeps
   * its locked part. Either way it reads as the default row plus `amount`.
   */
  function AddedTo(rows: map<string, BalanceRow>, userId: string, amount: real): (r: map<string, BalanceRow>)
    ensures r.Keys == rows.Keys + {userId}
    ensures userId !in rows ==> r[userId] == BalanceRow(amount, 0.0)
    ensures BalanceOf(r, userId) == BalanceRow(BalanceOf(rows, userId).balance + amount, BalanceOf(rows, userId).locked)
    ensures forall v :: v != userId ==> BalanceOf(r, v) == BalanceOf(rows, v)
  {
    if userId in rows then rows[userId := BalanceRow(rows[userId].balance + amount, rows[userId].locked)]
    else rows[userId := BalanceRow(amount, 0.0)]
  }

  // ---------------------------------------------------------------- the ledger

  predicate WellFormed(s: LedgerState) {
    && UniqueAddresses(s.addresses)
    && DepositsWellFormed(s.deposits, s.depositSeq)
    && WithdrawalsWellFormed(s.withdrawals, s.withdrawalSeq)
  }

  class Ledger {
    var addresses: map<string, AddressRow>
    var deposits: seq<Deposit>
    var depositSeq: nat
    var withdrawals: seq<Withdrawal>
    var withdrawalSeq: nat
    var balances: map<string, BalanceRow>

    function State(): LedgerState
      reads this
    {
      LedgerState(addresses, deposits, depositSeq, withdrawals, withdrawalSeq, balances)
    }

    predicate Valid()
      reads this
    {
      WellFormed(State())
    }

    /** `initTables` on an empty database file. */
    constructor ()
      ensures Valid()
      ensures State() == LedgerState(map[], [], 0, [], 0, map[])
    {
      addresses, deposits, depositSeq := map[], [], 0;
      withdrawals, withdrawalSeq, balances := [], 0, map[];
    }

    method SaveUserAddress(userId: string, address: string, encryptedPrivateKey: string)
      modifies this
      requires Valid()
      ensures Valid()
      ensures State() == old(State()).(addresses := SavedAddress(old(addresses), userId, address, encryptedPrivateKey))
    {
      addresses := SavedAddress(addresses, userId, address, encryptedPrivateKey);
    }

    /** `recordDeposit`; `inserted` is false when the txid was already recorded. */
    method RecordDeposit(userId: string, address: string, txid: string, amount: real, blockNumber: Option<int>)
      returns (inserted: bool)
      modifies this
      requires Valid()
      ensures Valid()
      ensures inserted <==> !HasTxid(old(deposits), txid)
      ensures var (ds, counter) := InsertDepositOrIgnore(old(deposits), old(depositSeq), userId, address, txid, amount, blockNumber);
        State() == old(State()).(deposits := ds, depositSeq := counter)
    {
      inserted := !HasTxid(deposits, txid);
      InsertKeepsWellFormed(deposits, depositSeq, userId, address, txid, amount, blockNumber);
      var (ds, counter) := InsertDepositOrIgnore(deposits, depositSeq, userId, address, txid, amount, blockNumber);
      deposits, depositSeq := ds, counter;
    }

    /** `updateDepositStatus`; `changes` counts the rows with that txid. */
    method UpdateDepositStatus(txid: string, status: string, confirmedAt: Option<int>) returns (changes: nat)
      modifies this
      requires Valid()
      ensures Valid()
      ensures changes == (if HasTxid(old(deposits), txid) then 1 else 0)
      ensures State() == old(State()).(deposits := DepositStatusSet(old(deposits), txid, status, confirmedAt))
    {
      changes := if HasTxid(deposits, txid) then 1 else 0;
      DepositStatusSetKeepsWellFormed(deposits, txid, status, confirmedAt, depositSeq);
      deposits := DepositStatusSet(deposits, txid, status, confirmedAt);
    }

    /** `getUserDeposits(userId, limit)`; `UserDepositsMeaning` says what the rows are. */
    method GetUserDeposits(userId: string, limit: int) returns (rows: seq<Deposit>)
      ensures rows == UserDeposits(deposits, userId, limit)
    {
      rows := UserDeposits(deposits, userId, limit);
    }

    /** `recordWithdrawal`; returns the new row's id. */
    method RecordWithdrawal(userId: string, toAddress: string, amount: real, fee: real, netAmount: real)
      returns (id: nat)
      modifies this
      requires Valid()
      ensures Valid()
      ensures id == old(withdrawalSeq) + 1
      ensures State() == old(State()).(
        withdrawals := old(withdrawals) + [NewWithdrawal(id, userId, toAddress, amount, fee, netAmount)],
        withdrawalSeq := id)
    {
      id := withdrawalSeq + 1;
      withdrawals := withdrawals + [NewWithdrawal(id, userId, toAddress, amount, fee, netAmount)];
      withdrawalSeq := id;
    }

    /** `updateWithdrawalStatus`; an omitted txid or time is written as NULL. */
    method UpdateWithdrawalStatus(id: nat, status: string, txid: Option<string>, processedAt: Option<int>)
      returns (changes: nat)
      modifies this
      requires Valid()
      ensures Valid()
      ensures changes <= 1
      ensures changes == 1 <==> exists k :: 0 <= k < |old(withdrawals)| && old(withdrawals)[k].id == id
      ensures State() == old(State()).(withdrawals := WithdrawalStatusSet(old(withdrawals), id, status, txid, processedAt))
    {
      changes := if exists k :: 0 <= k < |withdrawals| && withdrawals[k].id == id then 1 else 0;
      WithdrawalStatusSetKeepsWellFormed(withdrawals, id, status, txid, processedAt, withdrawalSeq);
      withdrawals := WithdrawalStatusSet(withdrawals, id, status, txid, processedAt);
    }

    /** `getPendingWithdrawals`; `PendingMeaning` says what the rows are. */
    method GetPendingWithdrawals() returns (rows: seq<Withdrawal>)
      ensures rows == Pending(withdrawals)
    {
      rows := Pending(withdrawals);
    }

    /** `getUserBalance`: reads only. */
    method GetUserBalance(userId: string) returns (row: BalanceRow)
      ensures userId !in balances ==> row == BalanceRow(0.0, 0.0)
      ensures userId in balances ==> row == balances[userId]
    {
      row := BalanceOf(balances, userId);
    }

    /** `updateUserBalance`: INSERT OR REPLACE of both columns; an omitted locked part is 0. */
    method UpdateUserBalance(userId: string, balance: real, lockedBalance: Option<real>)
      modifies this
      requires Valid()
      ensures Valid()
      ensures State() == old(State()).(balances := old(balances)[userId :=
        BalanceRow(balance, if lockedBalance.Some? then lockedBalance.value else 0.0)])
    {
      var locked := if lockedBalance.Some? then lockedBalance.value else 0.0;
      balances := balances[userId := BalanceRow(balance, locked)];
    }

    /** `addToUserBalance`. */
    method AddToUserBalance(userId: string, amount: real)
      modifies this
      requires Valid()
      ensures Valid()
      ensures State() == old(State()).(balances := AddedTo(old(balances), userId, amount))
    {
      balances := AddedTo(balances, userId, amount);
    }
  }
}
