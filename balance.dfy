/**
 * The `credits-balance` handler: a GET that tells the caller what it has left. A signed-in user
 * gets the wallet balance, the end of the current UTC week, the image quota left this week and
 * the configured limits and budget; a demo visitor gets its demo session (created or reset on the
 * way) and the fixed demo limits. Any failing read answers 500 `BALANCE_FETCH_FAILED`.
 */
module Balance {
  import opened Outcome
  import opened Json
  import opened Types
  import opened Identity
  import opened Store
  import opened Pricing
  import opened Orchestration

  const FAILURE_CODE: string := "BALANCE_FETCH_FAILED"

  // ---- the end of the week ----

  /** `daysUntilSunday`: none on a Sunday, otherwise seven minus the weekday. */
  function DaysUntilSunday(day: nat): (d: nat)
    requires day < 7
    ensures d < 7
    ensures (day + d) % 7 == 0
  {
    if day == 0 then 0 else 7 - day
  }

  /** `endOfWeekIso`: the last millisecond (23:59:59.999 UTC) of the coming Sunday, today if a Sunday. */
  function EndOfWeek(now: int): int {
    DayStart(now) + DaysUntilSunday(UtcWeekday(now)) * DAY_MS + DAY_MS - 1
  }

  /** Counting back to Monday and forward to Sunday spans the six days of the rest of the week. */
  lemma DaysAroundWeek(day: nat)
    requires day < 7
    ensures DaysUntilSunday(day) + DistanceToMonday(day) == 6
  {
  }

  /**
   * The week end is the last millisecond of a Sunday, it is not before `now` and less than seven
   * days after it, and the next millisecond opens the week after the one the image counter
   * counts from.
   */
  lemma {:induction false} EndOfWeekIsSundayNight(now: int)
    ensures var e := EndOfWeek(now);
            && now <= e < now + 7 * DAY_MS
            && e % DAY_MS == DAY_MS - 1
            && UtcWeekday(e) == 0
            && e + 1 == WeekStart(now) + 7 * DAY_MS
  {
    var day := now / DAY_MS;
    var wd := UtcWeekday(now);
    var d := DaysUntilSunday(wd);
    assert DayStart(now) == day * DAY_MS;
    var e := EndOfWeek(now);
    assert e == (day + d) * DAY_MS + (DAY_MS - 1);
    assert e / DAY_MS == day + d && e % DAY_MS == DAY_MS - 1;
    assert (day + 4) % 7 == wd;
    assert (day + d + 4) % 7 == (wd + d) % 7;
    DaysAroundWeek(wd);
    assert WeekStart(now) == (day - DistanceToMonday(wd)) * DAY_MS;
  }

  // ---- the answers ----

  /** `Math.max(0, limit - used)`. */
  function QuotaLeft(limit: int, used: int): (r: int)
    ensures r >= 0 && r >= limit - used
    ensures r == 0 || r == limit - used
  {
    if limit - used > 0 then limit - used else 0
  }

  /** The nine keys both answers carry. */
  const BALANCE_KEYS: set<string> :=
    {"creditsRemaining", "periodEnd", "imageQuotaRemaining", "weeklyImageLimit", "dailyMessageLimit",
     "softUsdCap", "budgetConsumedUsd", "budgetPeriodDays", "isDemo"}

  /** The signed-in user's answer. */
  function UserBalance(balance: int, limits: UsageLimits, budget: BudgetStatus, weeklyUsed: nat, now: int): (p: Payload)
    ensures p.Keys == BALANCE_KEYS
    ensures p["isDemo"] == JBool(false)
  {
    map["creditsRemaining" := JInt(balance),
        "periodEnd" := JInt(EndOfWeek(now)),
        "imageQuotaRemaining" := JInt(QuotaLeft(limits.weeklyImages, weeklyUsed)),
        "weeklyImageLimit" := JInt(limits.weeklyImages),
        "dailyMessageLimit" := JInt(limits.dailyMessages),
        "softUsdCap" := JReal(limits.softUsdCap),
        "budgetConsumedUsd" := JReal(budget.totalUsd),
        "budgetPeriodDays" := JInt(budget.periodDays),
        "isDemo" := JBool(false)]
  }

  /** The demo visitor's answer: the session's own figures, the fixed demo limits, no budget. */
  function DemoBalance(s: DemoSession): (p: Payload)
    ensures p.Keys == BALANCE_KEYS
    ensures p["isDemo"] == JBool(true)
    ensures p["creditsRemaining"] == JInt(s.creditsRemaining) && p["imageQuotaRemaining"] == JInt(s.imagesRemaining)
    ensures p["periodEnd"] == JInt(s.expiresAt)
    ensures p["weeklyImageLimit"] == JInt(1) && p["dailyMessageLimit"] == JInt(60)
    ensures p["softUsdCap"] == JNull && p["budgetConsumedUsd"] == JNull && p["budgetPeriodDays"] == JNull
  {
    map["creditsRemaining" := JInt(s.creditsRemaining),
        "periodEnd" := JInt(s.expiresAt),
        "imageQuotaRemaining" := JInt(s.imagesRemaining),
        "weeklyImageLimit" := JInt(1),
        "dailyMessageLimit" := JInt(60),
        "softUsdCap" := JNull,
        "budgetConsumedUsd" := JNull,
        "budgetPeriodDays" := JNull,
        "isDemo" := JBool(true)]
  }

  /**
   * The quota the user is shown is positive exactly when the image handler's weekly check would
   * let a request through: both count the user's committed image entries since `WeekStart`.
   */
  lemma QuotaAgreesWithImageGate(t: Tables, userId: string, limits: UsageLimits, budget: BudgetStatus, now: int)
    ensures var used := CountCommitted(t.ledger, ByUser(userId), ImageOp, WeekStart(now));
            var p := UserBalance(Balance(t, userId), limits, budget, used, now);
            && (p["imageQuotaRemaining"].i > 0 <==> used < limits.weeklyImages)
            && (p["imageQuotaRemaining"].i == 0 <==> used >= limits.weeklyImages)
  {
  }

  /** The first failing read of the user path, in the order of the `Promise.all` list. */
  function UserReadError(env: Env): (r: Option<string>)
    ensures r.None? <==> BalanceRead !in env.faults && Limits(env).Ok? && Budget(env).Ok? && UsageRead !in env.faults
  {
    if BalanceRead in env.faults then Some("Unable to read wallet balance: " + env.faults[BalanceRead])
    else if Limits(env).Err? then Some(Limits(env).message)
    else if Budget(env).Err? then Some(Budget(env).message)
    else if UsageRead in env.faults then Some("Unable to compute weekly image usage: " + env.faults[UsageRead])
    else None
  }

  /** A store error of the demo path, as `getOrCreateDemoSession` raises it. */
  function SessionError(t: Tables, fingerprint: string, env: Env): (r: Option<string>)
    ensures SessionRead in env.faults ==> r == Some("Unable to read demo session: " + env.faults[SessionRead])
    ensures SessionRead !in env.faults && fingerprint in t.sessions && t.sessions[fingerprint].expiresAt > env.now ==> r.None?
  {
    if SessionRead in env.faults then Some("Unable to read demo session: " + env.faults[SessionRead])
    else if SessionWrite !in env.faults then None
    else if fingerprint !in t.sessions then Some("Unable to create demo session: " + env.faults[SessionWrite])
    else if t.sessions[fingerprint].expiresAt <= env.now then Some("Unable to reset demo session: " + env.faults[SessionWrite])
    else None
  }

  /**
   * `credits-balance`: after the method check, the user path only reads; the demo path may create
   * or reset the visitor's session and changes nothing else. No path touches a wallet or the
   * ledger.
   */
  method HandleBalance(store: CreditStore, req: HttpRequest, env: Env) returns (resp: Response)
    modifies store
    ensures MethodGate(req.httpMethod, "GET").Some? ==>
              resp == MethodGate(req.httpMethod, "GET").value && store.State() == old(store.State())
    ensures store.State().wallets == old(store.State()).wallets && store.State().ledger == old(store.State()).ledger
    ensures MethodGate(req.httpMethod, "GET").None? ==>
              var id := ResolveIdentity(req.headers, env.uuid, env.auth);
              && (id.userId.Some? ==>
                    store.State() == old(store.State())
                    && (UserReadError(env).Some? ==> resp == FailureResponse(FAILURE_CODE, UserReadError(env).value))
                    && (UserReadError(env).None? ==>
                          resp == JsonResponse(200, UserBalance(
                                    Balance(old(store.State()), id.userId.value), Limits(env).value, Budget(env).value,
                                    CountCommitted(old(store.State()).ledger, ByUser(id.userId.value), ImageOp,
                                                   WeekStart(env.now)),
                                    env.now))))
              && (id.userId.None? ==>
                    var e := SessionError(old(store.State()), id.deviceFingerprint, env);
                    var (t2, s) := FetchSession(old(store.State()), id.deviceFingerprint, env.now);
                    && (e.Some? ==> store.State() == old(store.State()) && resp == FailureResponse(FAILURE_CODE, e.value))
                    && (e.None? ==> store.State() == t2 && resp == JsonResponse(200, DemoBalance(s))))
  {
    var gate := MethodGate(req.httpMethod, "GET");
    if gate.Some? {
      return gate.value;
    }
    var id := ResolveIdentity(req.headers, env.uuid, env.auth);
    if id.userId.Some? {
      var userId := id.userId.value;
      var balance := store.GetUserCreditsBalance(userId, FaultAt(env, BalanceRead));
      if balance.Err? {
        return FailureResponse(FAILURE_CODE, balance.message);
      }
      var limits := Limits(env);
      if limits.Err? {
        return FailureResponse(FAILURE_CODE, limits.message);
      }
      var budget := Budget(env);
      if budget.Err? {
        return FailureResponse(FAILURE_CODE, budget.message);
      }
      var weekly := store.GetWeeklyImageUsage(userId, env.now, FaultAt(env, UsageRead));
      if weekly.Err? {
        return FailureResponse(FAILURE_CODE, weekly.message);
      }
      return JsonResponse(200, UserBalance(balance.value, limits.value, budget.value, weekly.value, env.now));
    }
    var demo := store.GetOrCreateDemoSession(id.deviceFingerprint, env.now, FaultAt(env, SessionRead),
                                             FaultAt(env, SessionWrite));
    if demo.Err? {
      return FailureResponse(FAILURE_CODE, demo.message);
    }
    resp := JsonResponse(200, DemoBalance(demo.value));
  }
}
