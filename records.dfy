/** The user record of the JSON user store and the lookups the routes perform on it. */
module Records {
  import opened Wrappers

  /** The stored answers: school and pet lower-cased and trimmed, the plan as typed, the deposit parsed. */
  datatype SecurityAnswers = SecurityAnswers(school: string, pet: string, plan: string, firstDeposit: Option<int>)

  /** An achieved referral: who subscribed, to which plan, from which address, when (ms). */
  datatype Referral = Referral(userId: string, plan: string, ip: Option<string>, createdAt: int)

  /** One entry of a user's withdrawal history; `amount` is absent when the plan has no profit entry. */
  datatype HistoryEntry = HistoryEntry(
    id: string, kind: string, amount: Option<real>, address: string,
    status: string, createdAt: int, processedAt: int)

  /**
   * A user record. `legacyPassword` is the plain-text `password` field of
   * old records; timestamps are milliseconds since the epoch.
   */
  datatype User = User(
    id: string,
    username: string,
    email: string,
    phone: string,
    passwordHash: Option<string>,
    legacyPassword: Option<string>,
    plan: string,
    balance: real,
    trc20: Option<string>,
    referralCode: string,
    referredBy: Option<string>,
    referrals: seq<Referral>,
    ipHistory: seq<string>,
    lastWithdrawalAt: Option<int>,
    dayCounter: int,
    pendingReferralGate: bool,
    registeredAt: int,
    securityQuestions: Option<SecurityAnswers>,
    withdrawalHistory: seq<HistoryEntry>)

  /** `Array.prototype.findIndex`: the first index whose record satisfies `p`. */
  function FindIndex(users: seq<User>, p: User -> bool): (r: Option<nat>)
    ensures r.Some? ==> r.value < |users| && p(users[r.value])
    ensures r.Some? ==> forall k :: 0 <= k < r.value ==> !p(users[k])
    ensures r.None? ==> forall k :: 0 <= k < |users| ==> !p(users[k])
  {
    if users == [] then None
    else if p(users[0]) then Some(0)
    else match FindIndex(users[1..], p)
      case None => None
      case Some(k) => Some(k + 1)
  }

  /** `u => u.id === id`. */
  function HasId(id: string): User -> bool {
    (u: User) => u.id == id
  }

  /** `u => u.referralCode === code`. */
  function HasReferralCode(code: string): User -> bool {
    (u: User) => u.referralCode == code
  }

  /** The gate bookkeeping that registration establishes and every later step keeps. */
  predicate GateConsistent(u: User) {
    0 <= u.dayCounter <= 2 && (u.pendingReferralGate <==> u.dayCounter == 2)
  }

  /** No two referral entries of one referrer name the same referred user. */
  predicate DistinctReferred(rs: seq<Referral>) {
    forall a, b :: 0 <= a < b < |rs| ==> rs[a].userId != rs[b].userId
  }
}
