/**
 * The daily-profit withdrawal gates: the plan gate, the referral gate and
 * the 24-hour cooldown, as `/api/me`, `/api/withdrawal-timer` and
 * `/api/withdraw-daily` each evaluate them, and the record update of a
 * successful daily withdrawal.
 */
module Eligibility {
  import opened Wrappers
  import opened Records
  import opened Plans

  const HOUR_MS: int := 3600000
  /** `24 * 60 * 60 * 1000`. */
  const DAY_MS: int := 86400000

  /** The three gates, all of which must pass. */
  predicate CanWithdraw(u: User, now: int) {
    && u.plan != "VIP_0"
    && !u.pendingReferralGate
    && (u.lastWithdrawalAt.None? || now - u.lastWithdrawalAt.value >= DAY_MS)
  }

  /** `nextEligibleAt` of `/api/me`: a day after the last withdrawal, or now. */
  function NextEligibleAt(u: User, now: int): int {
    if u.lastWithdrawalAt.Some? then u.lastWithdrawalAt.value + DAY_MS else now
  }

  /** The `canWithdraw` expression of `/api/me`. */
  function MeCanWithdraw(u: User, now: int): (ok: bool)
    ensures ok <==> CanWithdraw(u, now)
  {
    now >= NextEligibleAt(u, now) && !u.pendingReferralGate && u.plan != "VIP_0"
  }

  /** `timeDiff / (1000 * 60 * 60)`, exactly. */
  function HoursPassed(elapsed: int): real {
    elapsed as real / 3600000.0
  }

  /** `Math.ceil`. */
  function Ceil(x: real): (c: int)
    ensures x <= c as real < x + 1.0
  {
    -((-x).Floor)
  }

  /** The `hoursLeft` a cooldown rejection reports: `Math.ceil(24 - hoursPassed)`. */
  function HoursLeft(elapsed: int): int {
    Ceil(24.0 - HoursPassed(elapsed))
  }

  /** `HoursLeft` is the least number of whole hours after which a day has elapsed. */
  lemma HoursLeftIsLeastWait(elapsed: int)
    ensures elapsed + HoursLeft(elapsed) * HOUR_MS >= DAY_MS
    ensures elapsed + (HoursLeft(elapsed) - 1) * HOUR_MS < DAY_MS
  {
    var h := HoursLeft(elapsed);
    assert 24.0 - HoursPassed(elapsed) <= h as real < 25.0 - HoursPassed(elapsed);
    assert (elapsed + h * HOUR_MS) as real == elapsed as real + h as real * 3600000.0;
  }

  /** Within the cooldown the reported wait lies in 1..24 hours. */
  lemma HoursLeftWithinCooldown(elapsed: int)
    requires 0 <= elapsed < DAY_MS
    ensures 1 <= HoursLeft(elapsed) <= 24
  {
    HoursLeftIsLeastWait(elapsed);
  }

  /** 23 h 59 min after a withdrawal the rejection reports 1 hour left. */
  lemma OneMinuteShortReportsOneHour()
    ensures HoursLeft(DAY_MS - 60000) == 1
  {
    HoursLeftWithinCooldown(DAY_MS - 60000);
    HoursLeftIsLeastWait(DAY_MS - 60000);
  }

  /** The errors of `/api/withdraw-daily`, in the order it checks them. */
  datatype WithdrawDailyError =
    | InvalidAddress
    | UserNotFound
    | NoPlan
    | ReferralGatePending
    | Cooldown(hoursLeft: int)

  /** The first gate that fails, in the route's order (plan, referral gate, cooldown). */
  function GateFailure(u: User, now: int): (e: Option<WithdrawDailyError>)
    ensures e.None? <==> CanWithdraw(u, now)
    ensures e.Some? ==> e.value in {NoPlan, ReferralGatePending} || e.value.Cooldown?
    ensures e == Some(NoPlan) <==> u.plan == "VIP_0"
    ensures e == Some(ReferralGatePending) <==> u.plan != "VIP_0" && u.pendingReferralGate
    ensures (e.Some? && e.value.Cooldown?) <==>
      u.plan != "VIP_0" && !u.pendingReferralGate && u.lastWithdrawalAt.Some? && now - u.lastWithdrawalAt.value < DAY_MS
    ensures e.Some? && e.value.Cooldown? ==>
      u.lastWithdrawalAt.Some? && e.value.hoursLeft == HoursLeft(now - u.lastWithdrawalAt.value)
  {
    if u.plan == "VIP_0" then Some(NoPlan)
    else if u.pendingReferralGate then Some(ReferralGatePending)
    else if u.lastWithdrawalAt.Some? && now - u.lastWithdrawalAt.value < DAY_MS then
      Some(Cooldown(HoursLeft(now - u.lastWithdrawalAt.value)))
    else None
  }

  /** The destination check made before the lock: `!trc20 || !trc20.startsWith('T')`. */
  predicate AcceptableDestination(trc20: string) {
    trc20 != "" && trc20[0] == 'T'
  }

  /** The plan's daily profit, `PLANS[user.plan]`, absent for a name not in the table. */
  function DailyProfit(plan: string): Option<real> {
    if plan in PLANS then Some(PLANS[plan]) else None
  }

  /** The history entry a successful daily withdrawal appends. */
  function DailyProfitEntry(u: User, address: string, now: int, entryId: string): HistoryEntry {
    HistoryEntry(entryId, "daily_profit", DailyProfit(u.plan), address, "completed", now, now)
  }

  /** The caller's record after a successful daily withdrawal. */
  function AfterDailyWithdrawal(u: User, address: string, now: int, entryId: string): User {
    var counted := u.(
      trc20 := Some(address),
      withdrawalHistory := u.withdrawalHistory + [DailyProfitEntry(u, address, now, entryId)],
      lastWithdrawalAt := Some(now),
      dayCounter := u.dayCounter + 1);
    if counted.dayCounter == 2 then counted.(pendingReferralGate := true) else counted
  }

  /** A withdrawal that passed the gates keeps the gate bookkeeping consistent, and closes the gate exactly at the second one. */
  lemma DailyWithdrawalKeepsGateConsistent(u: User, address: string, now: int, entryId: string)
    requires GateConsistent(u) && CanWithdraw(u, now)
    ensures GateConsistent(AfterDailyWithdrawal(u, address, now, entryId))
    ensures AfterDailyWithdrawal(u, address, now, entryId).pendingReferralGate <==> u.dayCounter == 1
  {
  }

  /** Only the fields a daily withdrawal is meant to touch change. */
  lemma DailyWithdrawalTouchesOnlyItsFields(u: User, address: string, now: int, entryId: string)
    requires !u.pendingReferralGate
    ensures var v := AfterDailyWithdrawal(u, address, now, entryId);
      && v.trc20 == Some(address) && v.lastWithdrawalAt == Some(now)
      && v.dayCounter == u.dayCounter + 1
      && v.pendingReferralGate == (u.dayCounter + 1 == 2)
      && v.withdrawalHistory == u.withdrawalHistory + [HistoryEntry(entryId, "daily_profit", DailyProfit(u.plan), address, "completed", now, now)]
      && v.(trc20 := u.trc20, lastWithdrawalAt := u.lastWithdrawalAt, dayCounter := u.dayCounter,
            pendingReferralGate := u.pendingReferralGate, withdrawalHistory := u.withdrawalHistory) == u
  {
  }

  /**
   * The scenario of a subscriber with no referral: the first withdrawal is
   * allowed, one a minute short of a day later is not, one a full day later
   * is, and after it the gate blocks every further withdrawal.
   */
  lemma TwoWithdrawalsThenGate(u: User, a: string, t0: int, id1: string, id2: string)
    requires u.plan == "VIP_2" && u.dayCounter == 0 && !u.pendingReferralGate && u.lastWithdrawalAt.None?
    ensures CanWithdraw(u, t0)
    ensures var u1 := AfterDailyWithdrawal(u, a, t0, id1);
      && u1.dayCounter == 1
      && GateFailure(u1, t0 + DAY_MS - 60000) == Some(Cooldown(1))
      && CanWithdraw(u1, t0 + DAY_MS)
      && var u2 := AfterDailyWithdrawal(u1, a, t0 + DAY_MS, id2);
         && u2.dayCounter == 2 && u2.pendingReferralGate
         && forall t :: GateFailure(u2, t) == Some(ReferralGatePending)
  {
    OneMinuteShortReportsOneHour();
  }
}
