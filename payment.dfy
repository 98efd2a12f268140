/**
 * The payment service over the ledger: withdrawal requests with balance
 * locking, balance-difference deposit detection, and the batched drain of
 * pending withdrawals guarded by a re-entry flag. The USDT balance oracle
 * and the outcome of each USDT transfer are parameters.
 */
module Payment {
  import opened Wrappers
  import opened Database
  import Tron

  /** The constructor's fixed configuration. */
  const WITHDRAWAL_BATCH_SIZE: nat := 10
  const WITHDRAWAL_FEE: real := 1.0
  const MIN_WITHDRAWAL: real := 1.0

  datatype RequestError = InvalidAddress | BelowMinimum | InsufficientBalance | TooSmallAfterFees

  datatype Receipt = Receipt(withdrawalId: nat, amount: real, fee: real, netAmount: real)

  /** What `sendUSDT` did for one withdrawal: it reported success, reported failure, or threw. */
  datatype TransferOutcome = Sent(txid: string, at: int) | Declined(error: string) | Threw

  // ---------------------------------------------------------------- requests

  /** Availability as the request computes it. */
  function Available(b: BalanceRow): real {
    b.balance - b.locked
  }

  /** The validation chain of `requestWithdrawal`, in its order; `None` accepts. */
  function RequestVerdict(toAddress: Tron.JsValue, amount: real, b: BalanceRow): Option<RequestError> {
    if !Tron.IsValidAddress(toAddress) then Some(InvalidAddress)
    else if amount < MIN_WITHDRAWAL then Some(BelowMinimum)
    else if b.balance - b.locked < amount then Some(InsufficientBalance)
    else if amount - WITHDRAWAL_FEE <= 0.0 then Some(TooSmallAfterFees)
    else None
  }

  /**
   * A request is accepted exactly when every check passes, and each
   * rejection names the first check that fails.
   */
  lemma RequestChecksInOrder(toAddress: Tron.JsValue, amount: real, b: BalanceRow)
    ensures RequestVerdict(toAddress, amount, b).None? <==>
      Tron.IsValidAddress(toAddress) && MIN_WITHDRAWAL <= amount <= Available(b) && amount - WITHDRAWAL_FEE > 0.0
    ensures RequestVerdict(toAddress, amount, b) == Some(InvalidAddress) <==> !Tron.IsValidAddress(toAddress)
    ensures RequestVerdict(toAddress, amount, b) == Some(BelowMinimum) <==>
      Tron.IsValidAddress(toAddress) && amount < MIN_WITHDRAWAL
    ensures RequestVerdict(toAddress, amount, b) == Some(InsufficientBalance) <==>
      Tron.IsValidAddress(toAddress) && MIN_WITHDRAWAL <= amount && Available(b) < amount
    ensures RequestVerdict(toAddress, amount, b) == Some(TooSmallAfterFees) <==>
      Tron.IsValidAddress(toAddress) && MIN_WITHDRAWAL <= amount <= Available(b) && amount - WITHDRAWAL_FEE <= 0.0
  {
  }

  /** Every accepted request pays out more than nothing after the fee. */
  lemma AcceptedNetIsPositive(toAddress: Tron.JsValue, amount: real, b: BalanceRow)
    requires RequestVerdict(toAddress, amount, b).None?
    ensures amount > WITHDRAWAL_FEE && amount - WITHDRAWAL_FEE > 0.0 && amount <= Available(b)
  {
  }

  /**
   * The balance row an accepted request writes: the amount leaves the
   * balance and is also added to the locked part, so availability (balance
   * minus locked) drops by twice the amount.
   */
  function Locked(b: BalanceRow, amount: real): (r: BalanceRow)
    ensures r.balance + r.locked == b.balance + b.locked
    ensures Available(r) == Available(b) - 2.0 * amount
  {
    BalanceRow(b.balance - amount, b.locked + amount)
  }

  /** After a successful transfer: the locked amount is dropped, the balance kept. */
  function Settled(b: BalanceRow, amount: real): (r: BalanceRow)
    ensures r.balance + r.locked == b.balance + b.locked - amount
  {
    BalanceRow(b.balance, b.locked - amount)
  }

  /** After a failed transfer: the amount goes back from locked to balance. */
  function Released(b: BalanceRow, amount: real): (r: BalanceRow)
    ensures r.balance + r.locked == b.balance + b.locked
  {
    BalanceRow(b.balance + amount, b.locked - amount)
  }

  /**
   * A failed transfer restores the pair as it was before the request; a
   * successful one leaves the locked part as it was and the balance lower
   * by the amount.
   */
  lemma RequestThenResolve(b: BalanceRow, amount: real)
    ensures Released(Locked(b, amount), amount) == b
    ensures Settled(Locked(b, amount), amount) == BalanceRow(b.balance - amount, b.locked)
  {
  }

  /** A request of exactly the minimum clears the minimum check and then fails the fee check. */
  lemma ExactlyMinimumIsTooSmall(toAddress: Tron.JsValue, b: BalanceRow)
    requires Tron.IsValidAddress(toAddress) && Available(b) >= MIN_WITHDRAWAL
    ensures RequestVerdict(toAddress, MIN_WITHDRAWAL, b) == Some(TooSmallAfterFees)
  {
  }

  function Sum(xs: seq<real>): real {
    if xs == [] then 0.0 else xs[0] + Sum(xs[1..])
  }

  /** The rows left by a run of accepted requests of the given amounts. */
  function LockAll(b: BalanceRow, amounts: seq<real>): BalanceRow
    decreases |amounts|
  {
    if amounts == [] then b else LockAll(Locked(b, amounts[0]), amounts[1..])
  }

  /** Each request of the run passes the balance check (availability at least its amount). */
  predicate EachCovered(b: BalanceRow, amounts: seq<real>)
    decreases |amounts|
  {
    amounts == [] || (amounts[0] <= Available(b) && EachCovered(Locked(b, amounts[0]), amounts[1..]))
  }

  /**
   * Every accepted request costs twice its amount of availability, while
   * balance plus locked stays what it was.
   */
  lemma {:induction false} RepeatedLocksCostDouble(b: BalanceRow, amounts: seq<real>)
    ensures Available(LockAll(b, amounts)) == Available(b) - 2.0 * Sum(amounts)
    ensures LockAll(b, amounts).balance + LockAll(b, amounts).locked == b.balance + b.locked
    decreases |amounts|
  {
    if amounts != [] {
      RepeatedLocksCostDouble(Locked(b, amounts[0]), amounts[1..]);
    }
  }

  /**
   * From balance 10 with nothing locked, a request of 6 is accepted and
   * leaves balance 4 below locked 6; a follow-up request for the remaining
   * 4 is refused as not covered.
   */
  lemma LockLeavesBalanceBelowLocked(toAddress: Tron.JsValue)
    requires Tron.IsValidAddress(toAddress)
    ensures RequestVerdict(toAddress, 6.0, BalanceRow(10.0, 0.0)).None?
    ensures Locked(BalanceRow(10.0, 0.0), 6.0) == BalanceRow(4.0, 6.0)
    ensures RequestVerdict(toAddress, 4.0, Locked(BalanceRow(10.0, 0.0), 6.0)) == Some(InsufficientBalance)
  {
    RequestChecksInOrder(toAddress, 6.0, BalanceRow(10.0, 0.0));
    RequestChecksInOrder(toAddress, 4.0, BalanceRow(4.0, 6.0));
  }

  // ---------------------------------------------------------------- deposits

  /** The placeholder txid `deposit_<userId>_<Date.now()>`; `stamp` is the decimal clock reading. */
  function DepositTxid(userId: string, stamp: string): string {
    "deposit_" + userId + "_" + stamp
  }

  /**
   * The tables after `processDeposit`: the row is inserted (or ignored on a
   * known txid), the row with that txid is marked confirmed, and the amount
   * is credited in either case. The clock reading `now` is written as the
   * block number as well as the confirmation time.
   */
  function DepositProcessed(s: LedgerState, userId: string, address: string, txid: string, amount: real, now: int)
    : LedgerState
  {
    var (ds, counter) := InsertDepositOrIgnore(s.deposits, s.depositSeq, userId, address, txid, amount, Some(now));
    s.(deposits := DepositStatusSet(ds, txid, "confirmed", Some(now)), depositSeq := counter,
       balances := AddedTo(s.balances, userId, amount))
  }

  /** What `DepositProcessed` changes besides the deposits table: only the credit. */
  lemma DepositProcessedCredits(s: LedgerState, userId: string, address: string, txid: string, amount: real, now: int)
    ensures var r := DepositProcessed(s, userId, address, txid, amount, now);
      && r.addresses == s.addresses && r.withdrawals == s.withdrawals && r.withdrawalSeq == s.withdrawalSeq
      && BalanceOf(r.balances, userId).balance == BalanceOf(s.balances, userId).balance + amount
      && (forall v :: v != userId ==> BalanceOf(r.balances, v) == BalanceOf(s.balances, v))
  {
  }

  /** A known txid adds no row; an unknown one adds exactly one row, already confirmed. */
  lemma DepositProcessedRows(s: LedgerState, userId: string, address: string, txid: string, amount: real, now: int)
    ensures var r := DepositProcessed(s, userId, address, txid, amount, now);
      && (HasTxid(s.deposits, txid) ==> |r.deposits| == |s.deposits|)
      && (!HasTxid(s.deposits, txid) ==>
            r.deposits == s.deposits + [Deposit(s.depositSeq + 1, userId, address, txid, amount, "confirmed", Some(now), Some(now))])
  {
    if HasTxid(s.deposits, txid) {
      DepositStatusSetEffect(s.deposits, txid, "confirmed", Some(now));
    } else {
      var ds := s.deposits + [Deposit(s.depositSeq + 1, userId, address, txid, amount, "pending", Some(now), None)];
      DepositStatusSetEffect(ds, txid, "confirmed", Some(now));
      var confirmed := DepositStatusSet(ds, txid, "confirmed", Some(now));
      var d := Deposit(s.depositSeq + 1, userId, address, txid, amount, "confirmed", Some(now), Some(now));
      forall k | 0 <= k < |ds| ensures confirmed[k] == (s.deposits + [d])[k] {
        if k < |s.deposits| {
          assert ds[k] == s.deposits[k];
        }
      }
      assert confirmed == s.deposits + [d];
    }
  }

  /** The confirmed sum `checkUserDeposits` compares the oracle against. */
  function ScannedTotal(s: LedgerState, userId: string, limit: int): real {
    ConfirmedTotal(UserDeposits(s.deposits, userId, limit))
  }

  /** Below the limit, a new row of the user adds its confirmed amount to the scanned sum. */
  lemma ScanAfterAppend(ds: seq<Deposit>, d: Deposit, userId: string, limit: int)
    requires d.userId == userId && |NewestFirst(ds, userId)| < limit
    ensures ConfirmedTotal(UserDeposits(ds + [d], userId, limit))
      == (if d.status == "confirmed" then d.amount else 0.0) + ConfirmedTotal(UserDeposits(ds, userId, limit))
  {
    NewestFirstAppend(ds, d, userId);
    var all := NewestFirst(ds, userId);
    assert ([d] + all)[1..] == all;
  }

  /** At the limit, a new row of the user pushes the oldest scanned row out of the window. */
  lemma ScanAfterAppendAtLimit(ds: seq<Deposit>, d: Deposit, userId: string, limit: int)
    requires d.userId == userId && 0 < limit <= |NewestFirst(ds, userId)|
    ensures var oldest := NewestFirst(ds, userId)[limit - 1];
      ConfirmedTotal(UserDeposits(ds + [d], userId, limit))
      == (if d.status == "confirmed" then d.amount else 0.0) + ConfirmedTotal(UserDeposits(ds, userId, limit))
         - (if oldest.status == "confirmed" then oldest.amount else 0.0)
  {
    NewestFirstAppend(ds, d, userId);
    var all := NewestFirst(ds, userId);
    var kept := all[..limit - 1];
    var oldest := all[limit - 1];
    assert UserDeposits(ds, userId, limit) == kept + [oldest];
    ConfirmedTotalConcat(kept, [oldest]);
    assert ConfirmedTotal([oldest]) == (if oldest.status == "confirmed" then oldest.amount else 0.0) by {
      assert [oldest][1..] == [];
    }
    assert UserDeposits(ds + [d], userId, limit) == [d] + kept;
    assert ([d] + kept)[1..] == kept;
  }

  /** Below the limit, processing a deposit of an unknown txid adds its amount to the scanned sum. */
  lemma ScanAfterDeposit(s: LedgerState, userId: string, address: string, txid: string, amount: real, now: int, limit: int)
    requires !HasTxid(s.deposits, txid) && |NewestFirst(s.deposits, userId)| < limit
    ensures ScannedTotal(DepositProcessed(s, userId, address, txid, amount, now), userId, limit)
      == amount + ScannedTotal(s, userId, limit)
  {
    var d := Deposit(s.depositSeq + 1, userId, address, txid, amount, "confirmed", Some(now), Some(now));
    DepositProcessedRows(s, userId, address, txid, amount, now);
    ScanAfterAppend(s.deposits, d, userId, limit);
  }

  /** At the limit, it also pushes the oldest scanned row out of the window. */
  lemma ScanAfterDepositAtLimit(s: LedgerState, userId: string, address: string, txid: string, amount: real, now: int, limit: int)
    requires !HasTxid(s.deposits, txid) && 0 < limit <= |NewestFirst(s.deposits, userId)|
    ensures var oldest := NewestFirst(s.deposits, userId)[limit - 1];
      ScannedTotal(DepositProcessed(s, userId, address, txid, amount, now), userId, limit)
      == amount + ScannedTotal(s, userId, limit) - (if oldest.status == "confirmed" then oldest.amount else 0.0)
  {
    var d := Deposit(s.depositSeq + 1, userId, address, txid, amount, "confirmed", Some(now), Some(now));
    DepositProcessedRows(s, userId, address, txid, amount, now);
    ScanAfterAppendAtLimit(s.deposits, d, userId, limit);
  }

  /**
   * With fewer rows than the query limit, a scan that credits the
   * difference brings the scanned sum up to the oracle's value, so a second
   * scan with the same value credits nothing.
   */
  lemma RescanCreditsNothing(s: LedgerState, userId: string, address: string, txid: string, oracle: real, now: int, limit: int)
    requires !HasTxid(s.deposits, txid)
    requires |NewestFirst(s.deposits, userId)| < limit
    requires oracle > ScannedTotal(s, userId, limit)
    ensures ScannedTotal(DepositProcessed(s, userId, address, txid, oracle - ScannedTotal(s, userId, limit), now), userId, limit) == oracle
  {
    ScanAfterDeposit(s, userId, address, txid, oracle - ScannedTotal(s, userId, limit), now, limit);
  }

  /**
   * With the limit already reached and the oldest row in the window a
   * confirmed positive deposit, crediting the difference pushes that row
   * out of the window, so the next scan with the same oracle value credits
   * again.
   */
  lemma RescanPastLimitCreditsAgain(s: LedgerState, userId: string, address: string, txid: string, oracle: real, now: int, limit: int)
    requires !HasTxid(s.deposits, txid)
    requires 0 < limit <= |NewestFirst(s.deposits, userId)|
    requires var oldest := NewestFirst(s.deposits, userId)[limit - 1];
      oldest.status == "confirmed" && oldest.amount > 0.0
    requires oracle > ScannedTotal(s, userId, limit)
    ensures ScannedTotal(DepositProcessed(s, userId, address, txid, oracle - ScannedTotal(s, userId, limit), now), userId, limit) < oracle
  {
    ScanAfterDepositAtLimit(s, userId, address, txid, oracle - ScannedTotal(s, userId, limit), now, limit);
  }

  // ---------------------------------------------------------------- withdrawal drain

  /** One withdrawal of a batch, handled against the current books. */
  function Resolve(b: Books, w: Withdrawal, outcome: TransferOutcome): (r: Books)
    ensures outcome.Threw? ==> r == b
  {
    match outcome
    case Sent(txid, at) =>
      var ws := WithdrawalStatusSet(b.withdrawals, w.id, "completed", Some(txid), Some(at));
      var row := BalanceOf(b.balances, w.userId);
      Books(ws, b.balances[w.userId := BalanceRow(row.balance, row.locked - w.amount)])
    case Declined(_) =>
      var ws := WithdrawalStatusSet(b.withdrawals, w.id, "failed", None, None);
      var row := BalanceOf(b.balances, w.userId);
      Books(ws, b.balances[w.userId := BalanceRow(row.balance + w.amount, row.locked - w.amount)])
    case Threw => b
  }

  /**
   * A successful transfer marks the row completed with its txid and drops
   * the locked amount; a failed one marks it failed and moves the amount
   * back to the balance. No other row and no other user changes.
   */
  lemma ResolveEffect(b: Books, w: Withdrawal, outcome: TransferOutcome)
    ensures var r := Resolve(b, w, outcome);
      && (outcome.Sent? ==> BalanceOf(r.balances, w.userId) == Settled(BalanceOf(b.balances, w.userId), w.amount))
      && (outcome.Declined? ==> BalanceOf(r.balances, w.userId) == Released(BalanceOf(b.balances, w.userId), w.amount))
      && (forall v :: v != w.userId ==> BalanceOf(r.balances, v) == BalanceOf(b.balances, v))
      && |r.withdrawals| == |b.withdrawals|
      && (forall k :: 0 <= k < |b.withdrawals| && b.withdrawals[k].id != w.id ==> r.withdrawals[k] == b.withdrawals[k])
      && (forall k :: 0 <= k < |b.withdrawals| && b.withdrawals[k].id == w.id ==>
            match outcome
            case Sent(txid, at) =>
              r.withdrawals[k] == b.withdrawals[k].(status := "completed", txid := Some(txid), processedAt := Some(at))
            case Declined(_) =>
              r.withdrawals[k] == b.withdrawals[k].(status := "failed", txid := None, processedAt := None)
            case Threw => r.withdrawals[k] == b.withdrawals[k])
  {
    match outcome
    case Sent(txid, at) => WithdrawalStatusSetEffect(b.withdrawals, w.id, "completed", Some(txid), Some(at));
    case Declined(_) => WithdrawalStatusSetEffect(b.withdrawals, w.id, "failed", None, None);
    case Threw =>
  }

  /** The withdrawals handled one after another, in list order. */
  function ResolveAll(b: Books, ws: seq<Withdrawal>, transfer: Withdrawal -> TransferOutcome): Books
  {
    if ws == [] then b
    else
      var k := |ws| - 1;
      Resolve(ResolveAll(b, ws[..k], transfer), ws[k], transfer(ws[k]))
  }

  /** Handling a list in two consecutive parts is handling it in one go. */
  lemma {:induction false} ResolveAllConcat(b: Books, xs: seq<Withdrawal>, ys: seq<Withdrawal>, transfer: Withdrawal -> TransferOutcome)
    ensures ResolveAll(b, xs + ys, transfer) == ResolveAll(ResolveAll(b, xs, transfer), ys, transfer)
  {
    if ys == [] {
      assert xs + ys == xs;
    } else {
      var k := |ys| - 1;
      assert (xs + ys)[..|xs| + k] == xs + ys[..k];
      ResolveAllConcat(b, xs, ys[..k], transfer);
    }
  }

  /** A withdrawal whose transfer throws is skipped and the rest are still handled. */
  lemma ThrewIsSkipped(b: Books, xs: seq<Withdrawal>, w: Withdrawal, ys: seq<Withdrawal>, transfer: Withdrawal -> TransferOutcome)
    requires transfer(w) == Threw
    ensures ResolveAll(b, xs + [w] + ys, transfer) == ResolveAll(b, xs + ys, transfer)
  {
    ResolveAllConcat(b, xs + [w], ys, transfer);
    ResolveAllConcat(b, xs, ys, transfer);
    assert (xs + [w])[..|xs|] == xs;
  }

  /** Handling a list touches only the rows of its withdrawals and the balances of their users. */
  lemma {:induction false} ResolveAllFrame(b: Books, ws: seq<Withdrawal>, transfer: Withdrawal -> TransferOutcome)
    ensures var r := ResolveAll(b, ws, transfer);
      && |r.withdrawals| == |b.withdrawals|
      && (forall k :: 0 <= k < |b.withdrawals| && (forall j :: 0 <= j < |ws| ==> ws[j].id != b.withdrawals[k].id) ==>
            r.withdrawals[k] == b.withdrawals[k])
      && (forall v :: (forall j :: 0 <= j < |ws| ==> ws[j].userId != v) ==> BalanceOf(r.balances, v) == BalanceOf(b.balances, v))
  {
    if ws != [] {
      var k := |ws| - 1;
      ResolveAllFrame(b, ws[..k], transfer);
      ResolveEffect(ResolveAll(b, ws[..k], transfer), ws[k], transfer(ws[k]));
    }
  }

  lemma SliceSplit<T>(s: seq<T>, i: int, j: int)
    requires 0 <= i <= j <= |s|
    ensures s[..i] + s[i..j] == s[..j]
  {
  }

  /** Handling a prefix and then the next slice is handling the longer prefix. */
  lemma ResolvePrefixThenSlice(b: Books, ws: seq<Withdrawal>, i: int, j: int, transfer: Withdrawal -> TransferOutcome)
    requires 0 <= i <= j <= |ws|
    ensures ResolveAll(ResolveAll(b, ws[..i], transfer), ws[i..j], transfer) == ResolveAll(b, ws[..j], transfer)
  {
    ResolveAllConcat(b, ws[..i], ws[i..j], transfer);
    SliceSplit(ws, i, j);
  }

  /** Replacing the books twice keeps only the second replacement. */
  lemma WithBooksTwice(s: LedgerState, a: Books, b: Books)
    ensures WithBooks(WithBooks(s, a), b) == WithBooks(s, b)
  {
  }

  /** `bs` has no empty slice and every slice holds `size` rows except possibly the last. */
  predicate Chunked(bs: seq<seq<Withdrawal>>, size: nat) {
    && (forall k :: 0 <= k < |bs| ==> 0 < |bs[k]| <= size)
    && (forall k :: 0 <= k < |bs| - 1 ==> |bs[k]| == size)
  }

  predicate AllFull(bs: seq<seq<Withdrawal>>, size: nat) {
    forall k :: 0 <= k < |bs| ==> |bs[k]| == size
  }

  /** After full slices, one more non-empty slice keeps the cut well formed. */
  lemma ChunkedAppend(bs: seq<seq<Withdrawal>>, x: seq<Withdrawal>, size: nat)
    requires Chunked(bs, size) && AllFull(bs, size) && 0 < |x| <= size
    ensures Chunked(bs + [x], size)
    ensures |x| == size ==> AllFull(bs + [x], size)
  {
    assert forall k :: 0 <= k < |bs| ==> (bs + [x])[k] == bs[k];
  }

  function Flatten(bs: seq<seq<Withdrawal>>): seq<Withdrawal> {
    if bs == [] then [] else Flatten(bs[..|bs| - 1]) + bs[|bs| - 1]
  }

  lemma FlattenAppend(bs: seq<seq<Withdrawal>>, x: seq<Withdrawal>)
    ensures Flatten(bs + [x]) == Flatten(bs) + x
  {
    assert (bs + [x])[..|bs|] == bs;
  }

  // ---------------------------------------------------------------- the service

  class PaymentService {
    const db: Ledger
    var processingWithdrawals: bool

    constructor (db: Ledger)
      ensures this.db == db && !processingWithdrawals
    {
      this.db := db;
      processingWithdrawals := false;
    }

    /** `requestWithdrawal`: the check chain, then one pending row and the balance lock. */
    method RequestWithdrawal(userId: string, toAddress: Tron.JsValue, amount: real) returns (r: Result<Receipt, RequestError>)
      modifies db
      requires db.Valid()
      ensures db.Valid()
      ensures var b := BalanceOf(old(db.balances), userId);
        && (r.Failure? <==> RequestVerdict(toAddress, amount, b).Some?)
        && (r.Failure? ==> RequestVerdict(toAddress, amount, b) == Some(r.error) && db.State() == old(db.State()))
        && (r.Success? ==>
              && toAddress.Str?
              && r.value == Receipt(old(db.withdrawalSeq) + 1, amount, WITHDRAWAL_FEE, amount - WITHDRAWAL_FEE)
              && db.State() == old(db.State()).(
                   withdrawals := old(db.withdrawals)
                     + [NewWithdrawal(r.value.withdrawalId, userId, toAddress.s, amount, WITHDRAWAL_FEE, amount - WITHDRAWAL_FEE)],
                   withdrawalSeq := r.value.withdrawalId,
                   balances := old(db.balances)[userId := Locked(b, amount)]))
    {
      if !Tron.IsValidAddress(toAddress) {
        return Failure(InvalidAddress);
      }
      if amount < MIN_WITHDRAWAL {
        return Failure(BelowMinimum);
      }
      var userBalance := db.GetUserBalance(userId);
      var availableBalance := userBalance.balance - userBalance.locked;
      if availableBalance < amount {
        return Failure(InsufficientBalance);
      }
      var netAmount := amount - WITHDRAWAL_FEE;
      if netAmount <= 0.0 {
        return Failure(TooSmallAfterFees);
      }
      var withdrawalId := db.RecordWithdrawal(userId, toAddress.s, amount, WITHDRAWAL_FEE, netAmount);
      db.UpdateUserBalance(userId, userBalance.balance - amount, Some(userBalance.locked + amount));
      r := Success(Receipt(withdrawalId, amount, WITHDRAWAL_FEE, netAmount));
    }

    /** `processDeposit`: always reports success (database errors are not modelled). */
    method ProcessDeposit(userId: string, address: string, txid: string, amount: real, now: int) returns (ok: bool)
      modifies db
      requires db.Valid()
      ensures db.Valid()
      ensures ok && db.State() == DepositProcessed(old(db.State()), userId, address, txid, amount, now)
    {
      var _ := db.RecordDeposit(userId, address, txid, amount, Some(now));
      var _ := db.UpdateDepositStatus(txid, "confirmed", Some(now));
      db.AddToUserBalance(userId, amount);
      ok := true;
    }

    /**
     * `checkUserDeposits`: `oracle` is the address's USDT balance, `None`
     * when the lookup threw (the error is caught and nothing is written).
     * Only a strictly larger balance than the scanned confirmed sum is
     * credited, and exactly by the difference.
     */
    method CheckUserDeposits(userId: string, address: string, oracle: Option<real>, stamp: string, now: int)
      modifies db
      requires db.Valid()
      ensures db.Valid()
      ensures oracle.None? || oracle.value <= ScannedTotal(old(db.State()), userId, DEFAULT_DEPOSIT_LIMIT) ==> db.State() == old(db.State())
      ensures oracle.Some? && oracle.value > ScannedTotal(old(db.State()), userId, DEFAULT_DEPOSIT_LIMIT) ==>
        db.State() == DepositProcessed(old(db.State()), userId, address, DepositTxid(userId, stamp),
                                       oracle.value - ScannedTotal(old(db.State()), userId, DEFAULT_DEPOSIT_LIMIT), now)
    {
      if oracle.None? {
        return;
      }
      ghost var s0 := db.State();
      var currentBalance := oracle.value;
      var userBalance := db.GetUserBalance(userId);
      var deposits := db.GetUserDeposits(userId, DEFAULT_DEPOSIT_LIMIT);
      var totalDeposited := ConfirmedTotal(deposits);
      assert db.State() == s0 && totalDeposited == ScannedTotal(s0, userId, DEFAULT_DEPOSIT_LIMIT);
      if currentBalance > totalDeposited {
        var newAmount := currentBalance - totalDeposited;
        var faketxid := DepositTxid(userId, stamp);
        var _ := ProcessDeposit(userId, address, faketxid, newAmount, now);
      }
    }

    /** The `try` body of `processBatchWithdrawals` for one withdrawal, given what `sendUSDT` did. */
    method ProcessOneWithdrawal(withdrawal: Withdrawal, result: TransferOutcome)
      modifies db
      requires db.Valid()
      ensures db.Valid()
      ensures db.State() == WithBooks(old(db.State()), Resolve(BooksOf(old(db.State())), withdrawal, result))
    {
      match result {
        case Sent(txid, at) =>
          var _ := db.UpdateWithdrawalStatus(withdrawal.id, "completed", Some(txid), Some(at));
          var userBalance := db.GetUserBalance(withdrawal.userId);
          db.UpdateUserBalance(withdrawal.userId, userBalance.balance, Some(userBalance.locked - withdrawal.amount));
        case Declined(_) =>
          var _ := db.UpdateWithdrawalStatus(withdrawal.id, "failed", None, None);
          var userBalance := db.GetUserBalance(withdrawal.userId);
          db.UpdateUserBalance(withdrawal.userId, userBalance.balance + withdrawal.amount,
                               Some(userBalance.locked - withdrawal.amount));
        case Threw =>
      }
    }

    /** `processBatchWithdrawals`: every withdrawal of the batch, in order, against fresh balance reads. */
    method ProcessBatchWithdrawals(withdrawals: seq<Withdrawal>, transfer: Withdrawal -> TransferOutcome)
      modifies db
      requires db.Valid()
      ensures db.Valid()
      ensures db.State() == WithBooks(old(db.State()), ResolveAll(BooksOf(old(db.State())), withdrawals, transfer))
    {
      ghost var s0 := db.State();
      for k := 0 to |withdrawals|
        invariant db.Valid()
        invariant db.State() == WithBooks(s0, ResolveAll(BooksOf(s0), withdrawals[..k], transfer))
      {
        assert withdrawals[..k + 1][..k] == withdrawals[..k];
        var withdrawal := withdrawals[k];
        var result := transfer(withdrawal);
        ProcessOneWithdrawal(withdrawal, result);
      }
      assert withdrawals[..|withdrawals|] == withdrawals;
    }

    /**
     * The batch loop of `processWithdrawals`: consecutive slices of
     * `WITHDRAWAL_BATCH_SIZE` rows of the snapshot, the last one possibly
     * shorter. `batches` records the slices.
     */
    method ProcessInBatches(pendingWithdrawals: seq<Withdrawal>, transfer: Withdrawal -> TransferOutcome)
      returns (ghost batches: seq<seq<Withdrawal>>)
      modifies db
      requires db.Valid()
      ensures db.Valid()
      ensures Flatten(batches) == pendingWithdrawals
      ensures Chunked(batches, WITHDRAWAL_BATCH_SIZE)
      ensures db.State() == WithBooks(old(db.State()), ResolveAll(BooksOf(old(db.State())), pendingWithdrawals, transfer))
    {
      ghost var s0 := db.State();
      batches := [];
      var n := |pendingWithdrawals|;
      var i := 0;
      while i < n
        invariant 0 <= i && i == WITHDRAWAL_BATCH_SIZE * |batches|
        invariant db.Valid()
        invariant Flatten(batches) == pendingWithdrawals[..Min(i, n)]
        invariant Chunked(batches, WITHDRAWAL_BATCH_SIZE)
        invariant i < n ==> AllFull(batches, WITHDRAWAL_BATCH_SIZE)
        invariant db.State() == WithBooks(s0, ResolveAll(BooksOf(s0), pendingWithdrawals[..Min(i, n)], transfer))
        decreases n - i
      {
        var end := Min(i + WITHDRAWAL_BATCH_SIZE, n);
        var batch := pendingWithdrawals[i..end];
        ghost var done := ResolveAll(BooksOf(s0), pendingWithdrawals[..i], transfer);
        ProcessBatchWithdrawals(batch, transfer);
        WithBooksTwice(s0, done, ResolveAll(done, batch, transfer));
        ResolvePrefixThenSlice(BooksOf(s0), pendingWithdrawals, i, end, transfer);
        SliceSplit(pendingWithdrawals, i, end);
        FlattenAppend(batches, batch);
        ChunkedAppend(batches, batch, WITHDRAWAL_BATCH_SIZE);
        batches := batches + [batch];
        i := i + WITHDRAWAL_BATCH_SIZE;
      }
      assert pendingWithdrawals[..Min(i, n)] == pendingWithdrawals;
    }

    /**
     * `processWithdrawals`: a call while another is running returns at
     * once; otherwise the pending rows are read once and handled in
     * consecutive batches, and the flag is cleared at the end.
     */
    method ProcessWithdrawals(transfer: Withdrawal -> TransferOutcome) returns (ghost batches: seq<seq<Withdrawal>>)
      modifies this, db
      requires db.Valid()
      ensures db.Valid()
      ensures processingWithdrawals == old(processingWithdrawals)
      ensures old(processingWithdrawals) ==> batches == [] && db.State() == old(db.State())
      ensures !old(processingWithdrawals) ==>
        && Flatten(batches) == Pending(old(db.withdrawals))
        && Chunked(batches, WITHDRAWAL_BATCH_SIZE)
        && db.State() == WithBooks(old(db.State()),
                                   ResolveAll(BooksOf(old(db.State())), Pending(old(db.withdrawals)), transfer))
    {
      batches := [];
      if processingWithdrawals {
        return;
      }
      processingWithdrawals := true;
      var pendingWithdrawals := db.GetPendingWithdrawals();
      if |pendingWithdrawals| == 0 {
        processingWithdrawals := false;
        return;
      }
      batches := ProcessInBatches(pendingWithdrawals, transfer);
      processingWithdrawals := false;
    }
  }
}
