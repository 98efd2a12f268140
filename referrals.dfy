/**
 * The referral ledger of `/api/subscribe`: setting the subscriber's plan,
 * crediting the referrer once per referred user when the new plan ranks at
 * least as high as the referrer's, and clearing the referrer's gate.
 */
module Referrals {
  import opened Wrappers
  import opened Records
  import opened Plans

  /** The plan names `/api/subscribe` accepts: `!plan || !PLANS[plan] || plan === "VIP_0"` fails. */
  predicate SubscribablePlan(plan: string) {
    !(plan == "" || !HasProfit(plan) || plan == "VIP_0")
  }

  /** `ipHistory[ipHistory.length - 1]`, absent for an empty history. */
  function LastIp(ips: seq<string>): Option<string> {
    if ips == [] then None else Some(ips[|ips| - 1])
  }

  /** `referrals.find(r => r.userId === id)` found something. */
  predicate HasReferralFor(rs: seq<Referral>, id: string) {
    exists k :: 0 <= k < |rs| && rs[k].userId == id
  }

  /** The referrer's record after a new referral entry: the entry is appended and a pending gate is cleared. */
  function Credit(referrer: User, entry: Referral): User {
    var r := referrer.(referrals := referrer.referrals + [entry]);
    if r.pendingReferralGate then r.(pendingReferralGate := false, dayCounter := 0) else r
  }

  /** The index of the subscriber's referrer, looked up after the subscriber's plan is set. */
  function ReferrerIndex(users: seq<User>, i: nat): (j: Option<nat>)
    requires i < |users|
    ensures j.Some? ==> j.value < |users|
  {
    var user := users[i];
    if Truthy(user.referredBy) then FindIndex(users, HasReferralCode(user.referredBy.value)) else None
  }

  /** Whether the referrer at `j` receives a new entry for the subscriber at `i`. */
  predicate Qualifies(users: seq<User>, i: nat, j: nat, plan: string)
    requires i < |users| && j < |users|
  {
    GetPlanLevel(plan) >= GetPlanLevel(users[j].plan) && !HasReferralFor(users[j].referrals, users[i].id)
  }

  /** The whole user list after user `i` subscribes to `plan` at time `now`. */
  function Subscribed(users: seq<User>, i: nat, plan: string, now: int): (r: seq<User>)
    requires i < |users|
    ensures |r| == |users|
  {
    var withPlan := users[i := users[i].(plan := plan)];
    match ReferrerIndex(withPlan, i)
    case None => withPlan
    case Some(j) =>
      if Qualifies(withPlan, i, j, plan) then
        withPlan[j := Credit(withPlan[j], Referral(users[i].id, plan, LastIp(users[i].ipHistory), now))]
      else withPlan
  }

  /**
   * The subscriber's plan is set; records other than the subscriber's and
   * its referrer's do not change. Of the subscriber only the plan changes,
   * and of the referrer only its referrals, gate and day counter (and its
   * plan, when it is the subscriber itself).
   */
  lemma SubscribeFrame(users: seq<User>, i: nat, plan: string, now: int)
    requires i < |users|
    ensures Subscribed(users, i, plan, now)[i].plan == plan
    ensures forall k :: 0 <= k < |users| && k != i && ReferrerIndex(users, i) != Some(k) ==>
      Subscribed(users, i, plan, now)[k] == users[k]
    ensures ReferrerIndex(users, i) != Some(i) ==>
      Subscribed(users, i, plan, now)[i].(plan := users[i].plan) == users[i]
    ensures ReferrerIndex(users, i).Some? ==>
      var k := ReferrerIndex(users, i).value;
      var r := Subscribed(users, i, plan, now);
      r[k].(plan := if k == i then users[k].plan else r[k].plan,
            referrals := users[k].referrals,
            pendingReferralGate := users[k].pendingReferralGate,
            dayCounter := users[k].dayCounter) == users[k]
  {
    ReferrerIndexIgnoresPlan(users, i, plan);
  }

  /** Setting the subscriber's plan first does not change which record is its referrer. */
  lemma ReferrerIndexIgnoresPlan(users: seq<User>, i: nat, plan: string)
    requires i < |users|
    ensures ReferrerIndex(users[i := users[i].(plan := plan)], i) == ReferrerIndex(users, i)
  {
    if Truthy(users[i].referredBy) {
      FindIndexSameCodes(users, users[i := users[i].(plan := plan)], users[i].referredBy.value);
    }
  }

  /** Changing fields other than `referralCode` does not move a referral-code lookup. */
  lemma {:induction false} FindIndexSameCodes(a: seq<User>, b: seq<User>, code: string)
    requires |a| == |b|
    requires forall k :: 0 <= k < |a| ==> a[k].referralCode == b[k].referralCode
    ensures FindIndex(a, HasReferralCode(code)) == FindIndex(b, HasReferralCode(code))
  {
    if a != [] {
      FindIndexSameCodes(a[1..], b[1..], code);
    }
  }

  /**
   * A record's referral list changes only by one appended entry for the
   * subscriber, on its referrer, when the new plan ranks at least as high
   * and the referrer held no entry for the subscriber before.
   */
  lemma ReferralAppendedOnlyWhenQualifying(users: seq<User>, i: nat, plan: string, now: int, k: nat)
    requires i < |users| && k < |users|
    ensures var r := Subscribed(users, i, plan, now);
      r[k].referrals != users[k].referrals ==>
        && ReferrerIndex(users, i) == Some(k)
        && r[k].referrals == users[k].referrals + [Referral(users[i].id, plan, LastIp(users[i].ipHistory), now)]
        && !HasReferralFor(users[k].referrals, users[i].id)
        && GetPlanLevel(plan) >= GetPlanLevel(if k == i then plan else users[k].plan)
  {
    ReferrerIndexIgnoresPlan(users, i, plan);
  }

  /**
   * Conversely, when the subscriber's referrer ranks no higher than the new
   * plan and holds no entry for the subscriber yet, it receives exactly
   * that entry, and a pending gate is cleared with the counter reset.
   */
  lemma ReferralCreditedWhenQualifying(users: seq<User>, i: nat, plan: string, now: int, k: nat)
    requires i < |users| && k < |users|
    requires ReferrerIndex(users, i) == Some(k)
    requires GetPlanLevel(plan) >= GetPlanLevel(if k == i then plan else users[k].plan)
    requires !HasReferralFor(users[k].referrals, users[i].id)
    ensures var r := Subscribed(users, i, plan, now);
      && r[k].referrals == users[k].referrals + [Referral(users[i].id, plan, LastIp(users[i].ipHistory), now)]
      && (users[k].pendingReferralGate ==> !r[k].pendingReferralGate && r[k].dayCounter == 0)
  {
    ReferrerIndexIgnoresPlan(users, i, plan);
  }

  /** Distinct referred users stay distinct in every referral list: at most one entry per referred user. */
  lemma SubscribeKeepsReferralsDistinct(users: seq<User>, i: nat, plan: string, now: int, k: nat)
    requires i < |users| && k < |users|
    requires DistinctReferred(users[k].referrals)
    ensures DistinctReferred(Subscribed(users, i, plan, now)[k].referrals)
  {
    ReferralAppendedOnlyWhenQualifying(users, i, plan, now, k);
    var r := Subscribed(users, i, plan, now);
    if r[k].referrals != users[k].referrals {
      var rs := r[k].referrals;
      forall a, b | 0 <= a < b < |rs| ensures rs[a].userId != rs[b].userId {
        if b == |rs| - 1 {
          assert rs[a] == users[k].referrals[a];
        }
      }
    }
  }

  /**
   * A gate is cleared, with the day counter reset to 0, only on a record
   * that receives a new referral entry in this step while its gate was
   * pending; otherwise gate and counter are unchanged.
   */
  lemma GateClearedOnlyByNewReferral(users: seq<User>, i: nat, plan: string, now: int, k: nat)
    requires i < |users| && k < |users|
    ensures var r := Subscribed(users, i, plan, now);
      if users[k].pendingReferralGate && r[k].referrals != users[k].referrals
      then !r[k].pendingReferralGate && r[k].dayCounter == 0
      else r[k].pendingReferralGate == users[k].pendingReferralGate && r[k].dayCounter == users[k].dayCounter
  {
    ReferrerIndexIgnoresPlan(users, i, plan);
  }

  /** Subscribing keeps every record's gate bookkeeping consistent. */
  lemma SubscribeKeepsGatesConsistent(users: seq<User>, i: nat, plan: string, now: int, k: nat)
    requires i < |users| && k < |users|
    requires GateConsistent(users[k])
    ensures GateConsistent(Subscribed(users, i, plan, now)[k])
  {
    GateClearedOnlyByNewReferral(users, i, plan, now, k);
  }

  /** Subscribing twice for the same referred user never credits the referrer twice. */
  lemma SecondSubscribeAddsNoEntry(users: seq<User>, i: nat, plan1: string, plan2: string, t1: int, t2: int)
    requires i < |users|
    ensures var once := Subscribed(users, i, plan1, t1);
      var twice := Subscribed(once, i, plan2, t2);
      forall k :: 0 <= k < |users| && HasReferralFor(once[k].referrals, users[i].id) ==>
        twice[k].referrals == once[k].referrals
  {
    var once := Subscribed(users, i, plan1, t1);
    assert once[i].id == users[i].id by { SubscribeFrame(users, i, plan1, t1); IdsKept(users, i, plan1, t1); }
    forall k | 0 <= k < |users| && HasReferralFor(once[k].referrals, users[i].id)
      ensures Subscribed(once, i, plan2, t2)[k].referrals == once[k].referrals
    {
      ReferralAppendedOnlyWhenQualifying(once, i, plan2, t2, k);
    }
  }

  /** Subscribing changes no record's id. */
  lemma IdsKept(users: seq<User>, i: nat, plan: string, now: int)
    requires i < |users|
    ensures forall k :: 0 <= k < |users| ==> Subscribed(users, i, plan, now)[k].id == users[k].id
  {
  }
}
