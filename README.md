# MRC investment platform: user routes and USDT payment service

The system is a small investment web application. Users register with
security questions, log in, subscribe to one of sixteen VIP plans and
withdraw their plan's fixed daily profit once every 24 hours. After two
withdrawals a *referral gate* closes. It opens again only when a user they
referred subscribes to a plan of at least the same rank. A password can be
reset by answering three of the four security questions. Beside the user
routes runs a USDT (TRC20) payment service over an SQLite ledger:

- per-user deposit addresses;
- deposit detection by comparing the address's balance with the sum of
  the confirmed deposits;
- withdrawal requests that lock part of the balance;
- a batched drain of the pending withdrawals.

This project models, in Dafny:

- **`Server`** (`server.dfy`): the register, login, password reset,
  profile, withdrawal timer, subscribe, daily withdrawal and withdrawal
  history routes, as methods of a `UserStore` class over the user list.
- **Supporting modules** for the server routes:
  - `Plans`: the `PLANS` table and `getPlanLevel`;
  - `Eligibility`: the three withdrawal gates and the cooldown hours;
  - `Referrals`: the subscribe and referral credit step;
  - `Security`: the 3-of-4 answer check;
  - `Display`: the history address mask and the account id;
  - `Records`: the user record and `findIndex`;
  - `JsString`: the JavaScript string built-ins the routes use.
- **`Database`** (`database.dfy`): the four tables. Each SQL statement is a
  pure function with its conflict behaviour. A `Ledger` class holds the
  tables and runs the statements.
- **`Payment`** (`payment.dfy`): the `PaymentService` class.
  - Requests: `requestWithdrawal`.
  - Deposits: `processDeposit` and `checkUserDeposits`.
  - Drain: `processWithdrawals` with `processBatchWithdrawals`.
- **`Tron`** (`tron.dfy`): the service's configuration, the address check
  and the address derivation of the TRON service.

## Parameters

The external effects of the source become parameters of the model:

- the current time, in milliseconds;
- generated ids and referral codes;
- the client IP;
- bcrypt's hash and compare results;
- the SHA-256 digest behind a generated address;
- the address balance oracle, where `None` means the lookup threw;
- the outcome of each USDT transfer;
- the decimal clock stamp in placeholder txids.

## Behaviour the model keeps as written

Several behaviours are modelled as the code has them, and the lemmas prove
their effect:

- **Referral code at registration.** The registration handler declares a
  new `referralCode` that shadows the request's code. The referrer lookup
  therefore uses the new user's own freshly generated code. `ReferredBy`
  models this, and its contract says `referredBy` is either absent or that
  generated code.
- **Double lock on withdrawal requests.** An accepted withdrawal request
  takes the amount off the balance and also adds it to the locked part. So
  availability (balance minus locked) drops by twice the amount.
  `Payment.RepeatedLocksCostDouble` and `Payment.LockLeavesBalanceBelowLocked`
  state this.
- **`processDeposit` and known txids.** It credits the balance even when
  the txid is already recorded (`INSERT OR IGNORE`).
  `Payment.DepositProcessedCredits` states this.
- **`checkUserDeposits` and the 50-row limit.** It sums only the newest 50
  deposits (`LIMIT 50`). Below that limit, a second scan with the same
  balance credits nothing (`Payment.RescanCreditsNothing`). At the limit,
  the new row pushes a confirmed row out of the window, so the next scan
  credits again (`Payment.RescanPastLimitCreditsAgain`).
- **Timer and `/me` agree.** `/api/withdrawal-timer` and `/api/me` compute
  `canWithdraw` in different ways, yet both equal
  `Eligibility.CanWithdraw`. For a destination that is non-empty and
  starts with `T` and a known user, `/api/withdraw-daily` succeeds exactly
  when it holds.

## Model

| member | source | states |
|---|---|---|
| JsString.TrimStart | MRCF455/MF16/MRC/F16-THE-END/F16/server.js:235-236 | the result is a suffix of the input; it starts with a non-white-space character; everything dropped is white space |
| JsString.TrimEnd | MRCF455/MF16/MRC/F16-THE-END/F16/server.js:235-236 | the result is a prefix of the input; it ends with a non-white-space character; everything dropped is white space |
| JsString.ToLower | MRCF455/MF16/MRC/F16-THE-END/F16/server.js:264 | lower-casing keeps the length, leaves no A–Z letter, leaves every other character unchanged and maps each A–Z letter to the a–z letter at the same offset |
| JsString.Clamp | MRCF455/MF16/MRC/F16-THE-END/F16/server.js:634 | `substring` clamps positions into 0..length |
| JsString.Substring | MRCF455/MF16/MRC/F16-THE-END/F16/server.js:634 | in-range arguments give the slice; arguments covering the whole string give the whole string; the result is never longer than the input |
| JsString.SliceFrom | MRCF455/MF16/MRC/F16-THE-END/F16/server.js:634 | a negative start counts back from the end, capped at the length |
| JsString.PadStart | MRCF455/MF16/MRC/F16-THE-END/F16/server.js:787 | the length is max(n, \|s\|); `s` is the suffix; every padding character is the fill |
| JsString.BeforeFirst | MRCF455/MF16/MRC/F16-THE-END/F16/server.js:219 | `split('@')[0]` is the longest prefix without the separator |
| JsString.LeadingDigits | MRCF455/MF16/MRC/F16-THE-END/F16/server.js:380 | the longest prefix of digits in the radix, as `parseInt` reads them |
| Records.FindIndex | MRCF455/MF16/MRC/F16-THE-END/F16/server.js:461 | the first index satisfying the predicate, or none when no record does |
| Plans.GetPlanLevel | MRCF455/MF16/MRC/F16-THE-END/F16/server.js:508-515 | the level is at most 15, and 0 for an unknown name |
| Plans.PlanLevelsAreRanks | MRCF455/MF16/MRC/F16-THE-END/F16/server.js:98-115 | the sixteen plans get levels 0..15 in order; `PLANS` and `levels` name the same plans |
| Plans.PlanAtItsLevel | MRCF455/MF16/MRC/F16-THE-END/F16/server.js:508-515 | every known plan sits at the rank its level gives |
| Plans.ProfitIncreasesWithRank | MRCF455/MF16/MRC/F16-THE-END/F16/server.js:98-115 | daily profit strictly increases with rank |
| Plans.LevelOrderIsProfitOrder | MRCF455/MF16/MRC/F16-THE-END/F16/server.js:475-479 | on known plans, level order and profit order agree in both directions |
| Plans.PaidPlansAreTheKnownNonInertOnes | MRCF455/MF16/MRC/F16-THE-END/F16/server.js:454 | `PLANS[plan]` is truthy exactly for known plans other than VIP_0 |
| Eligibility.MeCanWithdraw | MRCF455/MF16/MRC/F16-THE-END/F16/server.js:430-443 | the `/me` expression holds iff all three gates pass |
| Eligibility.Ceil | MRCF455/MF16/MRC/F16-THE-END/F16/server.js:607 | `Math.ceil`: x <= c < x + 1 |
| Eligibility.HoursLeftIsLeastWait | MRCF455/MF16/MRC/F16-THE-END/F16/server.js:603-608 | the reported hours are the least whole hours after which 24 h have passed |
| Eligibility.HoursLeftWithinCooldown | MRCF455/MF16/MRC/F16-THE-END/F16/server.js:603-608 | within the cooldown the reported wait is 1..24 hours |
| Eligibility.OneMinuteShortReportsOneHour | MRCF455/MF16/MRC/F16-THE-END/F16/server.js:607 | 23 h 59 min after a withdrawal, 1 hour is reported |
| Eligibility.GateFailure | MRCF455/MF16/MRC/F16-THE-END/F16/server.js:589-610 | no gate fails iff CanWithdraw; the plan gate is checked first, then the referral gate, then the cooldown with its hours; each error is stated iff the conditions that produce it hold |
| Eligibility.DailyWithdrawalKeepsGateConsistent | MRCF455/MF16/MRC/F16-THE-END/F16/server.js:661-668 | a withdrawal that passed the gates keeps the gate bookkeeping consistent; the gate closes iff it was the second withdrawal |
| Eligibility.DailyWithdrawalTouchesOnlyItsFields | MRCF455/MF16/MRC/F16-THE-END/F16/server.js:612-668 | only trc20, history (one entry appended), lastWithdrawalAt, dayCounter and the gate change |
| Eligibility.TwoWithdrawalsThenGate | MRCF455/MF16/MRC/F16-THE-END/F16/server.js:661-668 | a fresh subscriber can withdraw, withdraw again a day later, and is then gated |
| Referrals.ReferrerIndex | MRCF455/MF16/MRC/F16-THE-END/F16/server.js:472-474 | the referrer found is a valid index |
| Referrals.Subscribed | MRCF455/MF16/MRC/F16-THE-END/F16/server.js:467-497 | subscribing keeps the number of users |
| Referrals.SubscribeFrame | MRCF455/MF16/MRC/F16-THE-END/F16/server.js:469 | the subscriber gets the plan and nothing else of its record changes; of the referrer only the referrals, the gate and the day counter change (and the plan, when it is its own referrer); no other record changes |
| Referrals.ReferrerIndexIgnoresPlan | MRCF455/MF16/MRC/F16-THE-END/F16/server.js:469-473 | setting the plan first does not change which record is the referrer |
| Referrals.FindIndexSameCodes | MRCF455/MF16/MRC/F16-THE-END/F16/server.js:473 | a referral-code lookup depends only on the codes |
| Referrals.ReferralAppendedOnlyWhenQualifying | MRCF455/MF16/MRC/F16-THE-END/F16/server.js:475-494 | a referral list changes only on the referrer, only by one entry for the subscriber, and only when the plan level is at least the referrer's and no entry existed |
| Referrals.ReferralCreditedWhenQualifying | MRCF455/MF16/MRC/F16-THE-END/F16/server.js:475-494 | conversely, a referrer ranking no higher than the new plan and holding no entry for the subscriber gets exactly that entry, and a pending gate is cleared with the day counter reset to 0 |
| Referrals.SubscribeKeepsReferralsDistinct | MRCF455/MF16/MRC/F16-THE-END/F16/server.js:481 | at most one referral entry per referred user is kept |
| Referrals.GateClearedOnlyByNewReferral | MRCF455/MF16/MRC/F16-THE-END/F16/server.js:489-493 | a pending gate is cleared, with the counter reset, only by a newly appended referral |
| Referrals.SubscribeKeepsGatesConsistent | MRCF455/MF16/MRC/F16-THE-END/F16/server.js:467-497 | every record's gate bookkeeping stays consistent |
| Referrals.SecondSubscribeAddsNoEntry | MRCF455/MF16/MRC/F16-THE-END/F16/server.js:481 | subscribing again never credits the referrer a second time |
| Referrals.IdsKept | MRCF455/MF16/MRC/F16-THE-END/F16/server.js:467-497 | no id changes |
| Security.AnswerChecks | MRCF455/MF16/MRC/F16-THE-END/F16/server.js:376-381 | exactly four checks |
| Security.CountTrue | MRCF455/MF16/MRC/F16-THE-END/F16/server.js:383 | the count is at most the number of checks |
| Security.ThreeOfFourMeansAtMostOneWrong | MRCF455/MF16/MRC/F16-THE-END/F16/server.js:383-389 | at least three of four hold iff no two fail |
| Security.UnparsedDepositNeverMatches | MRCF455/MF16/MRC/F16-THE-END/F16/server.js:380 | a stored first deposit that did not parse never matches |
| Security.NoAnswersNeverReset | MRCF455/MF16/MRC/F16-THE-END/F16/server.js:376-389 | an empty answer list never allows a reset |
| Display.MaskAsWrittenShowsWholeAddress | MRCF455/MF16/MRC/F16-THE-END/F16/server.js:634 | as written, the masked text ends with the entire address |
| Display.MaskAsWrittenExample | MRCF455/MF16/MRC/F16-THE-END/F16/server.js:634 | a 34-character address gives 47 characters, with the whole address at the end |
| Display.MaskShowsHeadAndTailOnly | MRCF455/MF16/MRC/F16-THE-END/F16/server.js:634 | the intended mask is 21 characters: the first 10, `...`, the last 8 |
| Display.AccountId | MRCF455/MF16/MRC/F16-THE-END/F16/server.js:787 | `MRC-` then zeros, then the id, to at least five characters |
| Tron.ClassRunIff | MRCF455/MF16/MRC/F16-THE-END/F16/services/tronService.js:28 | `[A-Za-z1-9]{n}$` matches iff the length is n and every character is in the class |
| Tron.IsValidAddressIff | MRCF455/MF16/MRC/F16-THE-END/F16/services/tronService.js:21-29 | valid iff a string of 34 characters, `T` first, the rest in `[A-Za-z1-9]` |
| Tron.RejectsFalsyAndNonStrings | MRCF455/MF16/MRC/F16-THE-END/F16/services/tronService.js:22-26 | null, undefined, non-strings and `""` are rejected |
| Tron.RejectsZeroOrWrongLength | MRCF455/MF16/MRC/F16-THE-END/F16/services/tronService.js:28 | an address with `0` or of the wrong length is rejected |
| Tron.MainnetContractIsValid | MRCF455/MF16/MRC/F16-THE-END/F16/services/tronService.js:8-10 | the mainnet USDT contract passes the check |
| Tron.NewTronService | MRCF455/MF16/MRC/F16-THE-END/F16/services/tronService.js:5-13 | network defaults to mainnet; the mainnet contract is chosen iff the network is mainnet; the company address has its default |
| Tron.GenerateUserAddress | MRCF455/MF16/MRC/F16-THE-END/F16/services/tronService.js:32-35 | `T` followed by the first 33 digest characters |
| Tron.GeneratedAddressValidIffNoZero | MRCF455/MF16/MRC/F16-THE-END/F16/services/tronService.js:32-35 | for a hex digest, the generated address is valid iff its 33 digits have no `0` |
| Tron.SomeGeneratedAddressIsInvalid | MRCF455/MF16/MRC/F16-THE-END/F16/services/tronService.js:32-35 | an all-zero digest gives an address the service's own check rejects |
| Server.ReferredBy | MRCF455/MF16/MRC/F16-THE-END/F16/server.js:206-227 | `referredBy` is set iff the code is non-empty and its first holder was never seen at the client IP; it is then the generated code |
| Server.Rehashed | MRCF455/MF16/MRC/F16-THE-END/F16/server.js:284-289 | without a record of that id nothing changes; otherwise the first such record gets the new hash, its plain-text password is dropped (always on login, when truthy on reset), no other field of it changes and every other record stays as it was |
| Server.UserStore.constructor | MRCF455/MF16/MRC/F16-THE-END/F16/server.js:146-160 | the store holds the user list read from the file |
| Server.UserStore.Register | MRCF455/MF16/MRC/F16-THE-END/F16/server.js:184-254 | each rejection iff its check fails first, with nothing changed; on success, exactly one record with the stated defaults is appended |
| Server.UserStore.Login | MRCF455/MF16/MRC/F16-THE-END/F16/server.js:256-310 | stored hash first, then the legacy plain-text password; a legacy match is re-hashed and its plain text dropped (`Rehashed`); otherwise the list is unchanged |
| Server.UserStore.ResetPasswordSecurity | MRCF455/MF16/MRC/F16-THE-END/F16/server.js:356-416 | missing fields fail first, then a password under 6 characters, then a missing user or missing questions (404), then fewer than 3 matching answers (400); succeeds iff the fields are present, the password has 6 or more characters, the user and questions exist and 3 of 4 answers match; returns the count (3..4) and, through `Rehashed`, sets the new hash and drops a truthy plain-text password, changing nothing else |
| Server.UserStore.Me | MRCF455/MF16/MRC/F16-THE-END/F16/server.js:422-447 | `canWithdraw` equals the gate predicate; nextEligibleAt, the profit and the plan default; every other field copied from the record |
| Server.UserStore.WithdrawalTimer | MRCF455/MF16/MRC/F16-THE-END/F16/server.js:519-567 | `canWithdraw` equals the gate predicate; the last withdrawal, plan and gate are the record's, and `subscriptionTime` is the current time |
| Server.UserStore.Subscribe | MRCF455/MF16/MRC/F16-THE-END/F16/server.js:451-506 | rejects exactly the unsubscribable plans and unknown users, unchanged; otherwise the list becomes `Subscribed`; gate consistency is preserved |
| Server.UserStore.WithdrawDaily | MRCF455/MF16/MRC/F16-THE-END/F16/server.js:571-682 | address check first; success iff the gates pass; each failure names the first failing gate, with nothing changed; success updates only the caller's record; gate consistency is preserved |
| Server.UserStore.WithdrawalHistory | MRCF455/MF16/MRC/F16-THE-END/F16/server.js:618-640 | one view per history entry, in order, with the address masked as written: the whole address follows the `...` |
| Database.WithBooks | MRCF455/MF16/MRC/F16-THE-END/F16/services/databaseService.js:15-66 | replacing the books yields exactly those books |
| Database.SavedAddress | MRCF455/MF16/MRC/F16-THE-END/F16/services/databaseService.js:86-97 | INSERT OR REPLACE: the user's row is the new one; another user holding the same address loses its row; the UNIQUE constraint is kept |
| Database.InsertDepositOrIgnoreEffect | MRCF455/MF16/MRC/F16-THE-END/F16/services/databaseService.js:100-111 | a known txid changes nothing; otherwise one pending row is appended under the next id |
| Database.InsertKeepsWellFormed | MRCF455/MF16/MRC/F16-THE-END/F16/services/databaseService.js:100-111 | ids stay increasing and below the counter; txids stay unique |
| Database.DepositStatusSetEffect | MRCF455/MF16/MRC/F16-THE-END/F16/services/databaseService.js:114-125 | rows with the txid get the status and time; no other row or field changes |
| Database.DepositStatusSetKeepsWellFormed | MRCF455/MF16/MRC/F16-THE-END/F16/services/databaseService.js:114-125 | the update keeps the table well formed |
| Database.NewestFirstSound | MRCF455/MF16/MRC/F16-THE-END/F16/services/databaseService.js:128-139 | the query lists only the user's rows of the table |
| Database.Limited | MRCF455/MF16/MRC/F16-THE-END/F16/services/databaseService.js:128-139 | `LIMIT n` keeps the first min(n, length) rows; a negative limit keeps all |
| Database.ConfirmedTotalConcat | MRCF455/MF16/MRC/F16-THE-END/F16/services/paymentService.js:85-87 | the confirmed sum is additive over concatenation |
| Database.NewestFirstComplete | MRCF455/MF16/MRC/F16-THE-END/F16/services/databaseService.js:128-139 | every row of the user is listed |
| Database.NewestFirstDescending | MRCF455/MF16/MRC/F16-THE-END/F16/services/databaseService.js:128-139 | rows come in decreasing id order |
| Database.NewestFirstAppend | MRCF455/MF16/MRC/F16-THE-END/F16/services/databaseService.js:128-139 | a new row of the user goes to the head of the list |
| Database.LimitHidesOlderDeposits | MRCF455/MF16/MRC/F16-THE-END/F16/services/databaseService.js:128-139 | past the limit the oldest rows are not returned |
| Database.UserDepositsMeaning | MRCF455/MF16/MRC/F16-THE-END/F16/services/databaseService.js:128-139 | the result is the user's rows, newest first, at most `limit` of them when the limit is non-negative |
| Database.NewWithdrawal | MRCF455/MF16/MRC/F16-THE-END/F16/services/databaseService.js:142-153 | a new row is pending, with no txid and no processing time |
| Database.WithdrawalStatusSetEffect | MRCF455/MF16/MRC/F16-THE-END/F16/services/databaseService.js:156-167 | exactly the row with that id gets the new status, txid and time |
| Database.WithdrawalStatusSetKeepsWellFormed | MRCF455/MF16/MRC/F16-THE-END/F16/services/databaseService.js:156-167 | the update changes no id |
| Database.PendingSound | MRCF455/MF16/MRC/F16-THE-END/F16/services/databaseService.js:170-180 | only pending rows of the table are listed |
| Database.PendingComplete | MRCF455/MF16/MRC/F16-THE-END/F16/services/databaseService.js:170-180 | every pending row is listed |
| Database.PendingAscending | MRCF455/MF16/MRC/F16-THE-END/F16/services/databaseService.js:170-180 | pending rows come in increasing id order |
| Database.PendingMeaning | MRCF455/MF16/MRC/F16-THE-END/F16/services/databaseService.js:170-180 | a row is listed iff it is pending; the list is ascending |
| Database.BalanceOf | MRCF455/MF16/MRC/F16-THE-END/F16/services/databaseService.js:183-194 | a user without a row reads as 0 / 0 |
| Database.AddedTo | MRCF455/MF16/MRC/F16-THE-END/F16/services/databaseService.js:211-224 | the upsert adds to the balance, keeps the locked part, creates a row when missing and touches no other user |
| Database.Ledger.constructor | MRCF455/MF16/MRC/F16-THE-END/F16/services/databaseService.js:15-66 | empty, well-formed tables |
| Database.Ledger.SaveUserAddress | MRCF455/MF16/MRC/F16-THE-END/F16/services/databaseService.js:86-97 | only the address table changes, to `SavedAddress` |
| Database.Ledger.RecordDeposit | MRCF455/MF16/MRC/F16-THE-END/F16/services/databaseService.js:100-111 | inserted iff the txid is new; only the deposits and their counter change |
| Database.Ledger.UpdateDepositStatus | MRCF455/MF16/MRC/F16-THE-END/F16/services/databaseService.js:114-125 | the change count; only the deposits change |
| Database.Ledger.GetUserDeposits | MRCF455/MF16/MRC/F16-THE-END/F16/services/databaseService.js:128-139 | the rows of the query |
| Database.Ledger.RecordWithdrawal | MRCF455/MF16/MRC/F16-THE-END/F16/services/databaseService.js:142-153 | the next id; one pending row is appended |
| Database.Ledger.UpdateWithdrawalStatus | MRCF455/MF16/MRC/F16-THE-END/F16/services/databaseService.js:156-167 | changes is 1 iff the id exists; only the withdrawals change |
| Database.Ledger.GetPendingWithdrawals | MRCF455/MF16/MRC/F16-THE-END/F16/services/databaseService.js:170-180 | the pending rows |
| Database.Ledger.GetUserBalance | MRCF455/MF16/MRC/F16-THE-END/F16/services/databaseService.js:183-194 | the stored row, or 0 / 0 when there is none |
| Database.Ledger.UpdateUserBalance | MRCF455/MF16/MRC/F16-THE-END/F16/services/databaseService.js:197-208 | the user's row is replaced; an omitted locked part is 0 |
| Database.Ledger.AddToUserBalance | MRCF455/MF16/MRC/F16-THE-END/F16/services/databaseService.js:211-224 | only the balances change, to `AddedTo` |
| Payment.RequestChecksInOrder | MRCF455/MF16/MRC/F16-THE-END/F16/services/paymentService.js:135-170 | accepted iff every check passes; each rejection iff its check is the first to fail |
| Payment.AcceptedNetIsPositive | MRCF455/MF16/MRC/F16-THE-END/F16/services/paymentService.js:160-170 | an accepted amount exceeds the fee and is covered by availability |
| Payment.Locked | MRCF455/MF16/MRC/F16-THE-END/F16/services/paymentService.js:182-186 | balance plus locked is kept; availability drops by twice the amount |
| Payment.Settled | MRCF455/MF16/MRC/F16-THE-END/F16/services/paymentService.js:270-276 | a successful transfer removes the amount from balance plus locked |
| Payment.Released | MRCF455/MF16/MRC/F16-THE-END/F16/services/paymentService.js:290-296 | a failed transfer keeps balance plus locked |
| Payment.RequestThenResolve | MRCF455/MF16/MRC/F16-THE-END/F16/services/paymentService.js:182-186 | a failure restores the row as before the request; a success leaves balance minus the amount |
| Payment.ExactlyMinimumIsTooSmall | MRCF455/MF16/MRC/F16-THE-END/F16/services/paymentService.js:10-14 | a request of exactly the minimum fails the fee check |
| Payment.RepeatedLocksCostDouble | MRCF455/MF16/MRC/F16-THE-END/F16/services/paymentService.js:182-186 | a run of requests costs twice their sum of availability |
| Payment.LockLeavesBalanceBelowLocked | MRCF455/MF16/MRC/F16-THE-END/F16/services/paymentService.js:160-186 | from 10 / 0, a request of 6 is accepted, leaving 4 / 6, and a request of 4 is then refused |
| Payment.DepositProcessedCredits | MRCF455/MF16/MRC/F16-THE-END/F16/services/paymentService.js:102-129 | the user is credited the amount even for a known txid; no other user, address or withdrawal changes |
| Payment.DepositProcessedRows | MRCF455/MF16/MRC/F16-THE-END/F16/services/paymentService.js:102-129 | a fresh txid appends one confirmed row; a known one adds no row |
| Payment.ScanAfterAppend | MRCF455/MF16/MRC/F16-THE-END/F16/services/paymentService.js:78-99 | below the limit, a new confirmed row adds its amount to the scan |
| Payment.ScanAfterAppendAtLimit | MRCF455/MF16/MRC/F16-THE-END/F16/services/paymentService.js:78-99 | at the limit, the new row displaces the oldest row of the window |
| Payment.ScanAfterDeposit | MRCF455/MF16/MRC/F16-THE-END/F16/services/paymentService.js:89-95 | below the limit, crediting a fresh deposit raises the scan by its amount |
| Payment.ScanAfterDepositAtLimit | MRCF455/MF16/MRC/F16-THE-END/F16/services/paymentService.js:89-95 | at the limit, the scan rises by the amount minus the displaced row |
| Payment.RescanCreditsNothing | MRCF455/MF16/MRC/F16-THE-END/F16/services/paymentService.js:78-99 | below the limit, after crediting the difference the scan equals the oracle, so a rescan credits nothing |
| Payment.RescanPastLimitCreditsAgain | MRCF455/MF16/MRC/F16-THE-END/F16/services/paymentService.js:78-99 | at the limit, the scan stays below the oracle, so a rescan credits again |
| Payment.Resolve | MRCF455/MF16/MRC/F16-THE-END/F16/services/paymentService.js:303-305 | a thrown transfer leaves the books untouched |
| Payment.ResolveEffect | MRCF455/MF16/MRC/F16-THE-END/F16/services/paymentService.js:254-307 | success settles the row (completed, with txid and time); decline marks it failed with no txid or time and releases; each matching row differs from before only in those fields; no other row or user changes |
| Payment.ResolveAllConcat | MRCF455/MF16/MRC/F16-THE-END/F16/services/paymentService.js:239-245 | handling a list equals handling its halves in turn |
| Payment.ThrewIsSkipped | MRCF455/MF16/MRC/F16-THE-END/F16/services/paymentService.js:303-305 | a withdrawal whose transfer throws is skipped without effect |
| Payment.ResolveAllFrame | MRCF455/MF16/MRC/F16-THE-END/F16/services/paymentService.js:254-307 | users without a withdrawal in the list keep their balances |
| Payment.PaymentService.constructor | MRCF455/MF16/MRC/F16-THE-END/F16/services/paymentService.js:10-14 | the service starts over the given ledger, not processing |
| Payment.PaymentService.RequestWithdrawal | MRCF455/MF16/MRC/F16-THE-END/F16/services/paymentService.js:132-211 | rejections as `RequestVerdict`, with nothing changed; acceptance records one pending row and writes the `Locked` row; the receipt's net is the amount minus the fee |
| Payment.PaymentService.ProcessDeposit | MRCF455/MF16/MRC/F16-THE-END/F16/services/paymentService.js:102-129 | always true; the ledger becomes `DepositProcessed` |
| Payment.PaymentService.CheckUserDeposits | MRCF455/MF16/MRC/F16-THE-END/F16/services/paymentService.js:78-99 | nothing changes unless the oracle exceeds the scanned sum; then exactly the difference is processed as a deposit |
| Payment.PaymentService.ProcessOneWithdrawal | MRCF455/MF16/MRC/F16-THE-END/F16/services/paymentService.js:258-305 | the ledger becomes `Resolve` of the withdrawal |
| Payment.PaymentService.ProcessBatchWithdrawals | MRCF455/MF16/MRC/F16-THE-END/F16/services/paymentService.js:254-307 | the batch is handled in order |
| Payment.PaymentService.ProcessInBatches | MRCF455/MF16/MRC/F16-THE-END/F16/services/paymentService.js:237-246 | the batches concatenate to the snapshot; each is full except possibly the last; the effect is the whole list handled in order |
| Payment.PaymentService.ProcessWithdrawals | MRCF455/MF16/MRC/F16-THE-END/F16/services/paymentService.js:223-251 | a call while processing changes nothing; otherwise the pending snapshot is drained in batches of 10, and the flag is cleared afterwards |

## Left out

- `withDataLock`, and the concurrency between requests: each route body runs atomically on the in-memory user list.
- Payment.PaymentService.RequestWithdrawal, Payment.PaymentService.CheckUserDeposits, Payment.PaymentService.ProcessDeposit and Payment.PaymentService.ProcessWithdrawals: each runs atomically on the ledger. In the source, `requestWithdrawal` reads the balance (services/paymentService.js:151) and writes absolute `balance` and `locked_balance` values after several `await`s (173-186). `/api/withdraw` and `/api/checkDeposits` run outside `withDataLock` (server.js:844-866, 914-918). The 30-second deposit scan and the 60-second drain (services/paymentService.js:48-57, 215-219) interleave with both routes. The model does not capture these interleavings: two concurrent requests that both pass the availability check and overdraw, and a credit or settlement that lands between the read and the write and is overwritten by the stale row.
- HTTP, sessions, Socket.IO events, the payment service's emitted events, the static pages and the demo and mock routes. Only the route bodies named above are modelled.
- Reading and writing `data.json` (`readData`, `writeDataSync`). The store's list is that file's user array.
- Floating-point rounding and NaN. Amounts are exact reals, and the hour arithmetic is exact.
- Time values as ISO strings. Times are integers of milliseconds.
- Non-ASCII case mapping in `toLowerCase`. Only ASCII letters are mapped.
- UTF-16 code units. JavaScript's `.length` and string positions count UTF-16 code units, but the model's strings count Unicode characters. So `JsString.Substring`, `JsString.SliceFrom`, `JsString.PadStart` and `Display.AccountId` differ from the source on characters outside the Basic Multilingual Plane.
- Server.UserStore.ResetPasswordSecurity: the 6-character minimum counts Unicode characters. The source counts UTF-16 code units, so `"abcd😀"` has length 6 there and passes, while the model counts 5 and returns `PasswordTooShort`.
- Plan names that are prototype properties of the `PLANS` object, such as `toString`.
- SQLite's `created_at` ordering, which the model takes to be insertion order.
- The `lastID` and `changes` values beyond what the methods return. Database errors, and the reject paths of the promises.
- `getDepositAddress`, `checkAllDeposits`, `getAllUserAddresses`, `getUserTransactions` and `getUserAddress`: the model covers only the named operations.
- The mock transfer, `monitorPayments`, `getTransactionDetails` and the timers, including the delay between batches.
- `getUSDTBalance`: the TRON service has no such method, so as shipped that call always throws. The oracle parameter covers both outcomes.
- The key generation and encryption behind `generateUserAddress`. The SHA-256 digest is a parameter.
- The `app.get` route registered inside the daily withdrawal handler. The source registers it only inside the locked body, after the gate checks of server.js:589-610. So `/api/withdrawal-history` does not exist until a daily withdrawal has passed the gates since start-up, and it is registered again on every such withdrawal. The model leaves out this registration and treats the route as always available. Its body is modelled separately as `Server.UserStore.WithdrawalHistory`, with the mask as written.
- Payment.RescanCreditsNothing: stated for any limit, and the service uses `DEFAULT_DEPOSIT_LIMIT` (50).
- Payment.RescanPastLimitCreditsAgain: stated for any positive limit, and the service uses `DEFAULT_DEPOSIT_LIMIT` (50).

## Findings

| source | as written | input that shows it | evidently intended | confidence | as-written member | corrected member |
|---|---|---|---|---|---|---|
| MRCF455/MF16/MRC/F16-THE-END/F16/server.js:634 | `w.address.substring(-8)` clamps -8 to 0 and appends the whole address | address `TR7NHqjeKQxGTCi8q8ZY4pL8otSzgjLj6t` gives 47 characters ending with the full address | `w.address.slice(-8)`: the first 10 and the last 8 characters | not executed | Display.MaskAddressAsWritten (Display.MaskAsWrittenShowsWholeAddress, Display.MaskAsWrittenExample), used by Server.UserStore.WithdrawalHistory | Display.MaskAddress (Display.MaskShowsHeadAndTailOnly) |
