/**
 * The user routes of the web server over the in-memory snapshot of the
 * JSON user store. Each route body that runs under the server's data lock
 * is one method that reads and rewrites `users`; the clock, generated ids
 * and codes, the client address and bcrypt are parameters.
 */
module Server {
  import opened Wrappers
  import opened Records
  import opened Plans
  import opened Eligibility
  import opened Referrals
  import opened Security
  import Display
  import JsString

  /** The `securityQuestions` object of a registration request. */
  datatype SecurityForm = SecurityForm(school: string, pet: string, plan: string, firstDeposit: string)

  /** The registration request body; `""` stands for a missing or falsy field. */
  datatype RegisterRequest = RegisterRequest(
    username: string, email: string, phone: string, password: string,
    referralCode: string, securityQuestions: Option<SecurityForm>)

  /** The rejections of the account, profile and subscription routes. */
  datatype ApiError =
    | MissingCredentials
    | MissingSecurityAnswers
    | DuplicateEmail
    | InvalidCredentials
    | MissingFields
    | PasswordTooShort
    | NoAccountOrQuestions
    | TooFewCorrectAnswers
    | NoSuchUser
    | InvalidPlan

  datatype LoginView = LoginView(id: string, email: string, plan: string)

  datatype MeView = MeView(
    id: string, email: string, plan: string, trc20: Option<string>, dayCounter: int,
    pendingReferralGate: bool, lastWithdrawalAt: Option<int>, nextEligibleAt: int,
    canWithdraw: bool, dailyProfit: real, referralCode: string)

  datatype TimerView = TimerView(
    canWithdraw: bool, lastWithdrawal: Option<int>, subscriptionTime: int,
    plan: string, pendingReferralGate: bool)

  datatype Payout = Payout(amount: Option<real>, address: string)

  datatype HistoryView = HistoryView(
    id: string, kind: string, amount: Option<real>, address: string,
    status: string, createdAt: int, processedAt: int)

  /** `u => u.email && u.email.toLowerCase() === email.toLowerCase()`. */
  function EmailMatches(email: string): User -> bool {
    (u: User) => u.email != "" && JsString.ToLower(u.email) == JsString.ToLower(email)
  }

  /** Every security answer of the form is present and truthy. */
  predicate FormComplete(form: Option<SecurityForm>) {
    form.Some? && form.value.school != "" && form.value.pet != "" && form.value.plan != "" && form.value.firstDeposit != ""
  }

  /** The first user holding `code` exists and has never been seen at `ip`. */
  predicate FirstHolderUnseenFrom(users: seq<User>, code: string, ip: string) {
    exists k :: 0 <= k < |users| && users[k].referralCode == code && ip !in users[k].ipHistory
      && forall l :: 0 <= l < k ==> users[l].referralCode != code
  }

  /**
   * The `referredBy` registration stores. The lookup uses `code`, the new
   * user's own freshly generated code (it shadows the request's code), and
   * is honoured only when the first user holding it has never been seen at
   * `clientIP`.
   */
  function ReferredBy(users: seq<User>, code: string, clientIP: string): (r: Option<string>)
    ensures r.None? || r == Some(code)
    ensures r.Some? <==> code != "" && FirstHolderUnseenFrom(users, code, clientIP)
  {
    if code == "" then None
    else match FindIndex(users, HasReferralCode(code))
      case None => None
      case Some(k) => if clientIP !in users[k].ipHistory then Some(code) else None
  }

  /** The record registration appends. */
  function NewUser(
    req: RegisterRequest, form: SecurityForm, clientIP: string, passwordHash: string,
    code: string, id: string, now: int, referredBy: Option<string>): User
  {
    User(
      id := id,
      username := if req.username != "" then req.username else JsString.BeforeFirst(req.email, '@'),
      email := req.email,
      phone := req.phone,
      passwordHash := Some(passwordHash),
      legacyPassword := None,
      plan := "VIP_0",
      balance := 0.0,
      trc20 := None,
      referralCode := code,
      referredBy := referredBy,
      referrals := [],
      ipHistory := [clientIP],
      lastWithdrawalAt := None,
      dayCounter := 0,
      pendingReferralGate := false,
      registeredAt := now,
      securityQuestions := Some(SecurityAnswers(
        Normalise(form.school), Normalise(form.pet), form.plan, JsString.ParseInt(form.firstDeposit))),
      withdrawalHistory := [])
  }

  /** The first record with the given id gets the new hash and loses its plain-text password. */
  function Rehashed(users: seq<User>, id: string, hash: string, dropFalsyLegacy: bool): (r: seq<User>)
    ensures |r| == |users|
    ensures FindIndex(users, HasId(id)).None? ==> r == users
    ensures FindIndex(users, HasId(id)).Some? ==> var j := FindIndex(users, HasId(id)).value;
      && r[j].passwordHash == Some(hash)
      && (dropFalsyLegacy ==> r[j].legacyPassword.None?)
      && (!dropFalsyLegacy ==> r[j].legacyPassword == if Truthy(users[j].legacyPassword) then None else users[j].legacyPassword)
      && r[j].(passwordHash := users[j].passwordHash, legacyPassword := users[j].legacyPassword) == users[j]
      && forall k :: 0 <= k < |users| && k != j ==> r[k] == users[k]
  {
    match FindIndex(users, HasId(id))
    case None => users
    case Some(j) =>
      var u := users[j];
      users[j := u.(passwordHash := Some(hash),
                    legacyPassword := if dropFalsyLegacy || Truthy(u.legacyPassword) then None else u.legacyPassword)]
  }

  predicate AllGatesConsistent(users: seq<User>) {
    forall k :: 0 <= k < |users| ==> GateConsistent(users[k])
  }

  class UserStore {
    /** `data.users`, in file order. */
    var users: seq<User>

    constructor (initial: seq<User>)
      ensures users == initial
    {
      users := initial;
    }

    /** `POST /api/register`: validation, then the locked duplicate check and insertion. */
    method Register(
      req: RegisterRequest, clientIP: string, passwordHash: string,
      generatedCode: string, newId: string, now: int)
      returns (r: Result<string, ApiError>)
      modifies this
      ensures r == Failure(MissingCredentials) <==> req.email == "" || req.password == ""
      ensures r == Failure(MissingSecurityAnswers) <==>
        req.email != "" && req.password != "" && !FormComplete(req.securityQuestions)
      ensures r == Failure(DuplicateEmail) <==>
        req.email != "" && req.password != "" && FormComplete(req.securityQuestions)
        && FindIndex(old(users), EmailMatches(req.email)).Some?
      ensures r.Failure? ==> r.error in {MissingCredentials, MissingSecurityAnswers, DuplicateEmail} && users == old(users)
      ensures r.Success? ==>
        && r.value == generatedCode && req.securityQuestions.Some?
        && users == old(users) + [NewUser(req, req.securityQuestions.value, clientIP, passwordHash,
                                          generatedCode, newId, now, ReferredBy(old(users), generatedCode, clientIP))]
      ensures r.Success? ==> var u := users[|users| - 1];
        && u.plan == "VIP_0" && u.referrals == [] && u.ipHistory == [clientIP]
        && u.dayCounter == 0 && !u.pendingReferralGate && u.lastWithdrawalAt.None?
        && (u.referredBy.None? || u.referredBy == Some(generatedCode))
        && GateConsistent(u)
    {
      if req.email == "" || req.password == "" {
        return Failure(MissingCredentials);
      }
      if !FormComplete(req.securityQuestions) {
        return Failure(MissingSecurityAnswers);
      }
      if FindIndex(users, EmailMatches(req.email)).Some? {
        return Failure(DuplicateEmail);
      }
      // The request's referral code is shadowed by the freshly generated one.
      var referralCode := generatedCode;
      var referrerValid := false;
      if referralCode != "" {
        var referrer := FindIndex(users, HasReferralCode(referralCode));
        if referrer.Some? && clientIP !in users[referrer.value].ipHistory {
          referrerValid := true;
        }
      }
      var newUser := NewUser(req, req.securityQuestions.value, clientIP, passwordHash, referralCode, newId, now,
                             if referrerValid then Some(referralCode) else None);
      users := users + [newUser];
      r := Success(referralCode);
    }

    /**
     * `POST /api/login`. `hashMatches` is bcrypt's verdict on the stored
     * hash; a record with only a plain-text password that matches is
     * upgraded to `newHash` under the lock.
     */
    method Login(email: string, password: string, hashMatches: bool, newHash: string)
      returns (r: Result<LoginView, ApiError>)
      modifies this
      ensures email == "" || password == "" ==> r == Failure(MissingCredentials) && users == old(users)
      ensures email != "" && password != "" && FindIndex(old(users), EmailMatches(email)).None? ==>
        r == Failure(InvalidCredentials) && users == old(users)
      ensures email != "" && password != "" && FindIndex(old(users), EmailMatches(email)).Some? ==>
        var u := old(users)[FindIndex(old(users), EmailMatches(email)).value];
        var legacyMatch := !Truthy(u.passwordHash) && Truthy(u.legacyPassword) && u.legacyPassword.value == password;
        && (r.Success? <==> if Truthy(u.passwordHash) then hashMatches else legacyMatch)
        && (r.Failure? ==> r.error == InvalidCredentials)
        && (r.Success? ==> r.value == LoginView(u.id, u.email, u.plan))
        && users == if legacyMatch then Rehashed(old(users), u.id, newHash, true) else old(users)
    {
      if email == "" || password == "" {
        return Failure(MissingCredentials);
      }
      var found := FindIndex(users, EmailMatches(email));
      if found.None? {
        return Failure(InvalidCredentials);
      }
      var user := users[found.value];
      var validPassword := false;
      if Truthy(user.passwordHash) {
        validPassword := hashMatches;
      } else if Truthy(user.legacyPassword) && user.legacyPassword.value == password {
        validPassword := true;
        var userIndex := FindIndex(users, HasId(user.id));
        if userIndex.Some? {
          var j := userIndex.value;
          users := users[j := users[j].(passwordHash := Some(newHash), legacyPassword := None)];
        }
      }
      if !validPassword {
        return Failure(InvalidCredentials);
      }
      r := Success(LoginView(user.id, user.email, user.plan));
    }

    /** `POST /api/reset-password-security`: three of the four answers must match. */
    method ResetPasswordSecurity(email: string, answers: Option<seq<string>>, newPassword: string, newHash: string)
      returns (r: Result<nat, ApiError>)
      modifies this
      ensures email == "" || answers.None? || newPassword == "" ==> r == Failure(MissingFields)
      ensures email != "" && answers.Some? && newPassword != "" && |newPassword| < 6 ==> r == Failure(PasswordTooShort)
      ensures r.Failure? ==> users == old(users)
      ensures email != "" && answers.Some? && |newPassword| >= 6 &&
        (FindIndex(old(users), EmailMatches(email)).None? ||
         old(users)[FindIndex(old(users), EmailMatches(email)).value].securityQuestions.None?)
        ==> r == Failure(NoAccountOrQuestions)
      ensures email != "" && answers.Some? && |newPassword| >= 6 &&
        FindIndex(old(users), EmailMatches(email)).Some? &&
        (var u := old(users)[FindIndex(old(users), EmailMatches(email)).value];
         u.securityQuestions.Some? && CountTrue(AnswerChecks(answers.value, u.securityQuestions.value)) < 3)
        ==> r == Failure(TooFewCorrectAnswers)
      ensures r.Success? <==>
        && email != "" && answers.Some? && |newPassword| >= 6
        && FindIndex(old(users), EmailMatches(email)).Some?
        && var u := old(users)[FindIndex(old(users), EmailMatches(email)).value];
           u.securityQuestions.Some? && ResetAllowed(answers.value, u.securityQuestions.value)
      ensures r.Success? ==>
        var u := old(users)[FindIndex(old(users), EmailMatches(email)).value];
        && 3 <= r.value <= 4
        && r.value == CountTrue(AnswerChecks(answers.value, u.securityQuestions.value))
        && users == Rehashed(old(users), u.id, newHash, false)
    {
      if email == "" || answers.None? || newPassword == "" {
        return Failure(MissingFields);
      }
      if |newPassword| < 6 {
        return Failure(PasswordTooShort);
      }
      var found := FindIndex(users, EmailMatches(email));
      if found.None? || users[found.value].securityQuestions.None? {
        return Failure(NoAccountOrQuestions);
      }
      var user := users[found.value];
      var correctAnswers := AnswerChecks(answers.value, user.securityQuestions.value);
      var correctCount := CountTrue(correctAnswers);
      if correctCount < 3 {
        return Failure(TooFewCorrectAnswers);
      }
      var userIndex := FindIndex(users, HasId(user.id));
      if userIndex.Some? {
        var j := userIndex.value;
        var updated := users[j].(passwordHash := Some(newHash));
        if Truthy(updated.legacyPassword) {
          updated := updated.(legacyPassword := None);
        }
        users := users[j := updated];
      }
      r := Success(correctCount);
    }

    /** `GET /api/me`. */
    method Me(userId: string, now: int) returns (r: Result<MeView, ApiError>)
      ensures FindIndex(users, HasId(userId)).None? <==> r == Failure(NoSuchUser)
      ensures r.Failure? ==> r.error == NoSuchUser
      ensures r.Success? ==> var u := users[FindIndex(users, HasId(userId)).value];
        && r.value.canWithdraw == CanWithdraw(u, now)
        && r.value.dailyProfit == (if HasProfit(u.plan) then PLANS[u.plan] else 0.0)
        && r.value.nextEligibleAt == (if u.lastWithdrawalAt.Some? then u.lastWithdrawalAt.value + DAY_MS else now)
        && r.value.plan == (if u.plan != "" then u.plan else "VIP_0")
        && r.value.dayCounter == u.dayCounter && r.value.pendingReferralGate == u.pendingReferralGate
        && r.value.id == u.id && r.value.email == u.email && r.value.trc20 == u.trc20
        && r.value.lastWithdrawalAt == u.lastWithdrawalAt && r.value.referralCode == u.referralCode
    {
      var found := FindIndex(users, HasId(userId));
      if found.None? {
        return Failure(NoSuchUser);
      }
      var user := users[found.value];
      var nextEligibleAt := NextEligibleAt(user, now);
      r := Success(MeView(
        id := user.id,
        email := user.email,
        plan := if user.plan != "" then user.plan else "VIP_0",
        trc20 := user.trc20,
        dayCounter := user.dayCounter,
        pendingReferralGate := user.pendingReferralGate,
        lastWithdrawalAt := user.lastWithdrawalAt,
        nextEligibleAt := nextEligibleAt,
        canWithdraw := MeCanWithdraw(user, now),
        dailyProfit := if HasProfit(user.plan) then PLANS[user.plan] else 0.0,
        referralCode := user.referralCode));
    }

    /**
     * `GET /api/withdrawal-timer`. The record has no subscription or
     * creation date, so `subscriptionTime` is always the current time.
     */
    method WithdrawalTimer(userId: string, now: int) returns (r: Result<TimerView, ApiError>)
      ensures FindIndex(users, HasId(userId)).None? <==> r == Failure(NoSuchUser)
      ensures r.Failure? ==> r.error == NoSuchUser
      ensures r.Success? ==> var u := users[FindIndex(users, HasId(userId)).value];
        && r.value.canWithdraw == CanWithdraw(u, now)
        && r.value.lastWithdrawal == u.lastWithdrawalAt
        && r.value.plan == u.plan && r.value.pendingReferralGate == u.pendingReferralGate
        && r.value.subscriptionTime == now
    {
      var found := FindIndex(users, HasId(userId));
      if found.None? {
        return Failure(NoSuchUser);
      }
      var user := users[found.value];
      var canWithdraw := true;
      var lastWithdrawal: Option<int> := None;
      if user.lastWithdrawalAt.Some? {
        var timeDiff := now - user.lastWithdrawalAt.value;
        var hoursPassed := timeDiff as real / 3600000.0;
        if hoursPassed < 24.0 {
          canWithdraw := false;
        }
        lastWithdrawal := user.lastWithdrawalAt;
      }
      if user.plan == "VIP_0" {
        canWithdraw := false;
      }
      if user.pendingReferralGate {
        canWithdraw := false;
      }
      r := Success(TimerView(canWithdraw, lastWithdrawal, now, user.plan, user.pendingReferralGate));
    }

    /** `POST /api/subscribe`: plan validation, then the locked plan change and referral credit. */
    method Subscribe(userId: string, plan: string, now: int) returns (r: Result<(), ApiError>)
      modifies this
      ensures !SubscribablePlan(plan) ==> r == Failure(InvalidPlan)
      ensures SubscribablePlan(plan) && FindIndex(old(users), HasId(userId)).None? ==> r == Failure(NoSuchUser)
      ensures r.Success? <==> SubscribablePlan(plan) && FindIndex(old(users), HasId(userId)).Some?
      ensures r.Failure? ==> users == old(users)
      ensures r.Success? ==> users == Subscribed(old(users), FindIndex(old(users), HasId(userId)).value, plan, now)
      ensures AllGatesConsistent(old(users)) ==> AllGatesConsistent(users)
    {
      if plan == "" || !HasProfit(plan) || plan == "VIP_0" {
        return Failure(InvalidPlan);
      }
      var userIndex := FindIndex(users, HasId(userId));
      if userIndex.None? {
        return Failure(NoSuchUser);
      }
      ghost var before := users;
      var i := userIndex.value;
      var user := users[i];
      user := user.(plan := plan);
      users := users[i := user];
      if Truthy(user.referredBy) {
        var found := FindIndex(users, HasReferralCode(user.referredBy.value));
        if found.Some? {
          var j := found.value;
          var referrer := users[j];
          var referrerPlanLevel := GetPlanLevel(referrer.plan);
          var newUserPlanLevel := GetPlanLevel(plan);
          if newUserPlanLevel >= referrerPlanLevel {
            if !HasReferralFor(referrer.referrals, user.id) {
              referrer := referrer.(referrals := referrer.referrals + [Referral(user.id, plan, LastIp(user.ipHistory), now)]);
              if referrer.pendingReferralGate {
                referrer := referrer.(pendingReferralGate := false, dayCounter := 0);
              }
              users := users[j := referrer];
            }
          }
        }
      }
      assert users == Subscribed(before, i, plan, now);
      forall k | 0 <= k < |before| && AllGatesConsistent(before) ensures GateConsistent(users[k]) {
        SubscribeKeepsGatesConsistent(before, i, plan, now, k);
      }
      r := Success(());
    }

    /**
     * `POST /api/withdraw-daily`: the destination check before the lock,
     * then under the lock the plan, referral-gate and cooldown gates in
     * that order, then the payout bookkeeping.
     */
    method WithdrawDaily(userId: string, trc20: string, now: int, entryId: string)
      returns (r: Result<Payout, WithdrawDailyError>)
      modifies this
      ensures !AcceptableDestination(trc20) ==> r == Failure(InvalidAddress)
      ensures AcceptableDestination(trc20) && FindIndex(old(users), HasId(userId)).None? ==> r == Failure(UserNotFound)
      ensures AcceptableDestination(trc20) && FindIndex(old(users), HasId(userId)).Some? ==>
        var u := old(users)[FindIndex(old(users), HasId(userId)).value];
        && (r.Success? <==> CanWithdraw(u, now))
        && (r.Failure? ==> Some(r.error) == GateFailure(u, now))
      ensures r.Failure? ==> users == old(users)
      ensures r.Success? ==>
        && AcceptableDestination(trc20) && FindIndex(old(users), HasId(userId)).Some?
        && var i := FindIndex(old(users), HasId(userId)).value;
        && users == old(users)[i := AfterDailyWithdrawal(old(users)[i], trc20, now, entryId)]
        && r.value == Payout(DailyProfit(old(users)[i].plan), trc20)
      ensures AllGatesConsistent(old(users)) ==> AllGatesConsistent(users)
    {
      if trc20 == "" || trc20[0] != 'T' {
        return Failure(InvalidAddress);
      }
      var userIndex := FindIndex(users, HasId(userId));
      if userIndex.None? {
        return Failure(UserNotFound);
      }
      var i := userIndex.value;
      var user := users[i];
      if user.plan == "VIP_0" {
        return Failure(NoPlan);
      }
      if user.pendingReferralGate {
        return Failure(ReferralGatePending);
      }
      if user.lastWithdrawalAt.Some? {
        var timeDiff := now - user.lastWithdrawalAt.value;
        var hoursPassed := timeDiff as real / 3600000.0;
        if hoursPassed < 24.0 {
          var hoursLeft := Ceil(24.0 - hoursPassed);
          return Failure(Cooldown(hoursLeft));
        }
      }
      ghost var before := users;
      user := user.(trc20 := Some(trc20));
      var dailyProfit := DailyProfit(user.plan);
      user := user.(withdrawalHistory := user.withdrawalHistory
        + [HistoryEntry(entryId, "daily_profit", dailyProfit, trc20, "completed", now, now)]);
      user := user.(lastWithdrawalAt := Some(now));
      user := user.(dayCounter := user.dayCounter + 1);
      if user.dayCounter == 2 {
        user := user.(pendingReferralGate := true);
      }
      users := users[i := user];
      if AllGatesConsistent(before) {
        DailyWithdrawalKeepsGateConsistent(before[i], trc20, now, entryId);
      }
      r := Success(Payout(dailyProfit, trc20));
    }

    /**
     * `GET /api/withdrawal-history`, with the address masked as written
     * (`substring(-8)`, which shows the whole address after the `...`).
     */
    method WithdrawalHistory(userId: string) returns (r: Result<seq<HistoryView>, ApiError>)
      ensures FindIndex(users, HasId(userId)).None? <==> r == Failure(NoSuchUser)
      ensures r.Failure? ==> r.error == NoSuchUser
      ensures r.Success? ==> var h := users[FindIndex(users, HasId(userId)).value].withdrawalHistory;
        && |r.value| == |h|
        && forall k :: 0 <= k < |h| ==>
             r.value[k] == HistoryView(h[k].id, h[k].kind, h[k].amount, Display.MaskAddressAsWritten(h[k].address),
                                       h[k].status, h[k].createdAt, h[k].processedAt)
    {
      var found := FindIndex(users, HasId(userId));
      if found.None? {
        return Failure(NoSuchUser);
      }
      var history := users[found.value].withdrawalHistory;
      var views: seq<HistoryView> := [];
      for k := 0 to |history|
        invariant |views| == k
        invariant forall m :: 0 <= m < k ==>
          views[m] == HistoryView(history[m].id, history[m].kind, history[m].amount, Display.MaskAddressAsWritten(history[m].address),
                                  history[m].status, history[m].createdAt, history[m].processedAt)
      {
        var w := history[k];
        views := views + [HistoryView(w.id, w.kind, w.amount, Display.MaskAddressAsWritten(w.address), w.status, w.createdAt, w.processedAt)];
      }
      r := Success(views);
    }
  }
}
