/**
 * `_shared/pricing.ts`: the post-processing of the pricing, reservation, commit, limits and budget
 * calls, the UTC day and week windows of the usage counters, and the class `CreditStore` whose
 * methods are the wrappers that read and change the credit tables. What a stored procedure does to
 * the tables is the assumed transition of module `Procedures`; what the wrappers do with its
 * answer is modelled from the TypeScript.
 */
module Pricing {
  import opened Outcome
  import opened Json
  import opened Types
  import opened Store
  import opened Procedures

  /** What a query or RPC hands back as `data`: null, an array of rows, or a single row. */
  datatype Rows<T> = NoRows | RowArray(items: seq<T>) | RowObject(row: T)

  /** The `{ data, error }` pair of a Supabase call: an error, or the data. */
  datatype RpcReply<T> = RpcError(message: string) | RpcOk(data: T)

  /** `firstRow`: null for null, the first element (or null) of an array, the value itself otherwise. */
  function FirstRow<T>(v: Rows<T>): (r: Option<T>)
    ensures v.NoRows? ==> r.None?
    ensures v.RowArray? ==> (r.Some? <==> |v.items| > 0) && (r.Some? ==> r.value == v.items[0])
    ensures v.RowObject? ==> r == Some(v.row)
  {
    match v
    case NoRows => None
    case RowArray(items) => if |items| > 0 then Some(items[0]) else None
    case RowObject(row) => Some(row)
  }

  // ---- price ----

  /** `Number(x)` of the RPC's answer: a finite value, or NaN / an infinity. */
  datatype JsNumber = Finite(v: real) | NotFinite

  /** `Math.round`: the nearest integer, halves rounded up. */
  function JsRound(v: real): (n: int)
    ensures n as real - 0.5 <= v < n as real + 0.5
  {
    (v + 0.5).Floor
  }

  /**
   * `getEffectivePriceCredits` after the RPC: an RPC error or a non-finite value raises, a missing
   * value counts as 0, otherwise the value rounded and clamped at 0.
   */
  function PriceCredits(reply: RpcReply<Option<JsNumber>>): (r: Result<nat>)
    ensures reply.RpcError? ==> r == Err("Unable to calculate price credits: " + reply.message)
    ensures reply == RpcOk(None) ==> r == Ok(0)
    ensures reply == RpcOk(Some(NotFinite)) ==> r == Err("Invalid price credits value")
    ensures reply.RpcOk? && reply.data.Some? && reply.data.value.Finite? ==>
              var v := reply.data.value.v;
              && r.Ok?
              && (v < 0.5 ==> r.value == 0)
              && (v >= 0.5 ==> r.value as real - 0.5 <= v < r.value as real + 0.5)
  {
    match reply
    case RpcError(m) => Err("Unable to calculate price credits: " + m)
    case RpcOk(data) =>
      var n := OrElse(data, Finite(0.0));
      if n.NotFinite? then Err("Invalid price credits value")
      else
        var rounded := JsRound(n.v);
        Ok(if rounded < 0 then 0 else rounded)
  }

  // ---- reservation results ----

  /** `ReserveResult`: `imagesRemaining` and `demoSessionId` are only set by the demo wrapper. */
  datatype ReserveResult = ReserveResult(
    success: bool, errorCode: Option<string>, creditsRemaining: int,
    imagesRemaining: Option<int>, demoSessionId: Option<nat>)

  /** `reserveUserCredits` after the RPC: errors and empty results raise; fields pass through. */
  function MapUserReserve(reply: RpcReply<Rows<UserReserveRow>>): (r: Result<ReserveResult>)
    ensures reply.RpcError? ==> r == Err("Unable to reserve user credits: " + reply.message)
    ensures reply.RpcOk? && FirstRow(reply.data).None? ==> r == Err("Empty reserve_user_credits result")
    ensures reply.RpcOk? && FirstRow(reply.data).Some? ==>
              var row := FirstRow(reply.data).value;
              r == Ok(ReserveResult(row.success, row.errorCode, row.balance, None, None))
  {
    match reply
    case RpcError(m) => Err("Unable to reserve user credits: " + m)
    case RpcOk(data) =>
      match FirstRow(data)
      case None => Err("Empty reserve_user_credits result")
      case Some(row) => Ok(ReserveResult(row.success, row.errorCode, row.balance, None, None))
  }

  /** `reserveDemoCredits` after the RPC. */
  function MapDemoReserve(reply: RpcReply<Rows<DemoReserveRow>>): (r: Result<ReserveResult>)
    ensures reply.RpcError? ==> r == Err("Unable to reserve demo credits: " + reply.message)
    ensures reply.RpcOk? && FirstRow(reply.data).None? ==> r == Err("Empty reserve_demo_credits result")
    ensures reply.RpcOk? && FirstRow(reply.data).Some? ==>
              var row := FirstRow(reply.data).value;
              r == Ok(ReserveResult(row.success, row.errorCode, row.creditsRemaining,
                                    Some(row.imagesRemaining), row.demoSessionId))
  {
    match reply
    case RpcError(m) => Err("Unable to reserve demo credits: " + m)
    case RpcOk(data) =>
      match FirstRow(data)
      case None => Err("Empty reserve_demo_credits result")
      case Some(row) =>
        Ok(ReserveResult(row.success, row.errorCode, row.creditsRemaining, Some(row.imagesRemaining), row.demoSessionId))
  }

  /** `commitLedger` after the RPC: it succeeds only when the answer is exactly `true`. */
  function CommitOutcome(reply: RpcReply<Option<Json>>): (r: Result<()>)
    ensures r.Ok? <==> reply == RpcOk(Some(JBool(true)))
    ensures reply.RpcError? ==> r == Err("Unable to commit ledger request: " + reply.message)
    ensures reply.RpcOk? && r.Err? ==> r == Err("Unable to commit ledger request: unknown error")
  {
    match reply
    case RpcError(m) => Err("Unable to commit ledger request: " + m)
    case RpcOk(data) =>
      if data == Some(JBool(true)) then Ok(()) else Err("Unable to commit ledger request: unknown error")
  }

  // ---- limits and budget ----

  datatype UsageLimits = UsageLimits(weeklyImages: int, dailyMessages: int, softUsdCap: real, periodDays: int)

  /** A `usage_limits` row; a null column is `None`. */
  datatype LimitsRow = LimitsRow(
    weeklyImages: Option<int>, dailyMessages: Option<int>, softUsdCap: Option<real>, periodDays: Option<int>)

  const DEFAULT_LIMITS: UsageLimits := UsageLimits(2, 60, 2.5, 84)

  /** `getUsageLimits`: a query error raises; each missing value takes its default. */
  function LimitsFrom(reply: RpcReply<Option<LimitsRow>>): (r: Result<UsageLimits>)
    ensures reply.RpcError? ==> r == Err("Unable to read usage limits: " + reply.message)
    ensures reply == RpcOk(None) ==> r == Ok(UsageLimits(2, 60, 2.5, 84))
    ensures reply.RpcOk? && reply.data.Some? ==>
              var row := reply.data.value;
              r.Ok?
              && (row.weeklyImages.None? ==> r.value.weeklyImages == 2)
              && (row.weeklyImages.Some? ==> r.value.weeklyImages == row.weeklyImages.value)
              && (row.dailyMessages.None? ==> r.value.dailyMessages == 60)
              && (row.dailyMessages.Some? ==> r.value.dailyMessages == row.dailyMessages.value)
              && (row.softUsdCap.None? ==> r.value.softUsdCap == 2.5)
              && (row.softUsdCap.Some? ==> r.value.softUsdCap == row.softUsdCap.value)
              && (row.periodDays.None? ==> r.value.periodDays == 84)
              && (row.periodDays.Some? ==> r.value.periodDays == row.periodDays.value)
  {
    match reply
    case RpcError(m) => Err("Unable to read usage limits: " + m)
    case RpcOk(None) => Ok(DEFAULT_LIMITS)
    case RpcOk(Some(row)) =>
      Ok(UsageLimits(OrElse(row.weeklyImages, 2), OrElse(row.dailyMessages, 60),
                     OrElse(row.softUsdCap, 2.5), OrElse(row.periodDays, 84)))
  }

  datatype BudgetStatus = BudgetStatus(totalUsd: real, softUsdCap: real, periodDays: int, withinCap: bool)

  /** A row of `get_user_budget_status`; a null column is `None`. */
  datatype BudgetRow = BudgetRow(
    totalUsd: Option<real>, softUsdCap: Option<real>, periodDays: Option<int>, withinCap: Option<bool>)

  /** `getUserBudgetStatus`: an RPC error raises; with no row the caller is within the cap. */
  function BudgetFrom(reply: RpcReply<Rows<BudgetRow>>): (r: Result<BudgetStatus>)
    ensures reply.RpcError? ==> r == Err("Unable to read budget status: " + reply.message)
    ensures reply.RpcOk? ==> r.Ok?
    ensures reply.RpcOk? && FirstRow(reply.data).None? ==> r == Ok(BudgetStatus(0.0, 2.5, 84, true))
    ensures reply.RpcOk? && FirstRow(reply.data).Some? ==>
              var row := FirstRow(reply.data).value;
              && r.value.withinCap == OrElse(row.withinCap, true)
              && (row.totalUsd.None? ==> r.value.totalUsd == 0.0)
              && (row.totalUsd.Some? ==> r.value.totalUsd == row.totalUsd.value)
              && (row.softUsdCap.None? ==> r.value.softUsdCap == 2.5)
              && (row.softUsdCap.Some? ==> r.value.softUsdCap == row.softUsdCap.value)
              && (row.periodDays.None? ==> r.value.periodDays == 84)
              && (row.periodDays.Some? ==> r.value.periodDays == row.periodDays.value)
  {
    match reply
    case RpcError(m) => Err("Unable to read budget status: " + m)
    case RpcOk(data) =>
      var row := FirstRow(data);
      if row.None? then Ok(BudgetStatus(0.0, 2.5, 84, true))
      else
        var b := row.value;
        Ok(BudgetStatus(OrElse(b.totalUsd, 0.0), OrElse(b.softUsdCap, 2.5), OrElse(b.periodDays, 84),
                        OrElse(b.withinCap, true)))
  }

  // ---- UTC windows ----

  /**
   * `setUTCHours(0, 0, 0, 0)` on the instant `now`: midnight UTC of the same day. Dafny's `%` is
   * Euclidean, so this also holds before 1970.
   */
  function DayStart(now: int): (d: int)
    ensures d <= now < d + DAY_MS && d % DAY_MS == 0
  {
    now - now % DAY_MS
  }

  /** `getUTCDay()`: 0 for Sunday up to 6 for Saturday; 1 January 1970 was a Thursday (4). */
  function UtcWeekday(now: int): (day: nat)
    ensures day < 7
  {
    (now / DAY_MS + 4) % 7
  }

  /** `distanceToMonday`: 6 on Sunday, otherwise the weekday minus one. */
  function DistanceToMonday(day: nat): (d: nat)
    requires day < 7
    ensures d < 7
    ensures (day + 7 - d) % 7 == 1
  {
    if day == 0 then 6 else day - 1
  }

  /** `getWeeklyImageUsage`'s window start: the day start moved back to Monday. */
  function WeekStart(now: int): int {
    DayStart(now) - DistanceToMonday(UtcWeekday(now)) * DAY_MS
  }

  /**
   * The week window starts at midnight UTC of the most recent Monday: it is a Monday midnight, it
   * is at most `now` and less than seven days before it, and no later Monday midnight is at most
   * `now`.
   */
  lemma {:induction false} WeekStartIsLastMonday(now: int)
    ensures var w := WeekStart(now);
            && w <= now < w + 7 * DAY_MS
            && w % DAY_MS == 0
            && UtcWeekday(w) == 1
            && forall m: int :: m % DAY_MS == 0 && UtcWeekday(m) == 1 && m <= now ==> m <= w
  {
    var day := now / DAY_MS;
    var d := DistanceToMonday(UtcWeekday(now));
    assert DayStart(now) == day * DAY_MS;
    var wday := day - d;
    var w := WeekStart(now);
    assert w == wday * DAY_MS;
    assert w / DAY_MS == wday;
    assert (wday + 4) % 7 == 1;
    forall m: int | m % DAY_MS == 0 && UtcWeekday(m) == 1 && m <= now
      ensures m <= w
    {
      var mday := m / DAY_MS;
      assert m == mday * DAY_MS;
      assert mday <= day;
      MondaysAreAWeekApart(mday, wday, day);
    }
  }

  /** Two Monday day numbers at most six days apart below the same day are the same day. */
  lemma MondaysAreAWeekApart(mday: int, wday: int, day: int)
    requires (mday + 4) % 7 == 1 && (wday + 4) % 7 == 1
    requires mday <= day && wday <= day < wday + 7
    ensures mday <= wday
  {
  }

  /** The day window starts at midnight UTC of the current day, within the week window. */
  lemma DayWithinWeek(now: int)
    ensures WeekStart(now) <= DayStart(now) <= now
  {
  }

  /** The credit tables, with the wrappers of `_shared/pricing.ts` as methods. */
  class CreditStore {
    var wallets: map<string, int>
    var ledger: map<string, LedgerEntry>
    var sessions: map<string, DemoSession>
    var nextSessionId: nat

    constructor ()
      ensures State() == Tables(map[], map[], map[], 0)
    {
      wallets, ledger, sessions, nextSessionId := map[], map[], map[], 0;
    }

    function State(): Tables
      reads this
    {
      Tables(wallets, ledger, sessions, nextSessionId)
    }

    method SetState(t: Tables)
      modifies this
      ensures State() == t
    {
      wallets, ledger, sessions, nextSessionId := t.wallets, t.ledger, t.sessions, t.nextSessionId;
    }

    /**
     * `reserveUserCredits`: on an RPC error it raises and nothing changed; otherwise the tables take
     * the assumed transition and the answer's fields come back unchanged.
     */
    method ReserveUserCredits(userId: string, requestId: string, op: Operation, mode: ChatMode, model: string,
                              tier: ModelTier, credits: nat, now: int, fault: Option<string>)
      returns (r: Result<ReserveResult>)
      modifies this
      ensures fault.Some? ==> State() == old(State()) && r == Err("Unable to reserve user credits: " + fault.value)
      ensures fault.None? ==>
                var (t2, row) := ReserveUser(old(State()), userId, requestId, op, mode, model, tier, credits, now);
                State() == t2 && r == Ok(ReserveResult(row.success, row.errorCode, row.balance, None, None))
    {
      if fault.Some? {
        return MapUserReserve(RpcError(fault.value));
      }
      var (t2, row) := ReserveUser(State(), userId, requestId, op, mode, model, tier, credits, now);
      SetState(t2);
      r := MapUserReserve(RpcOk(RowObject(row)));
    }

    /** `reserveDemoCredits`, likewise over the device's demo session. */
    method ReserveDemoCredits(fingerprint: string, requestId: string, op: Operation, mode: ChatMode, model: string,
                              tier: ModelTier, credits: nat, isImage: bool, now: int, fault: Option<string>)
      returns (r: Result<ReserveResult>)
      modifies this
      ensures fault.Some? ==> State() == old(State()) && r == Err("Unable to reserve demo credits: " + fault.value)
      ensures fault.None? ==>
                var (t2, row) := ReserveDemo(old(State()), fingerprint, requestId, op, mode, model, tier, credits, isImage, now);
                State() == t2
                && r == Ok(ReserveResult(row.success, row.errorCode, row.creditsRemaining,
                                         Some(row.imagesRemaining), row.demoSessionId))
    {
      if fault.Some? {
        return MapDemoReserve(RpcError(fault.value));
      }
      var (t2, row) := ReserveDemo(State(), fingerprint, requestId, op, mode, model, tier, credits, isImage, now);
      SetState(t2);
      r := MapDemoReserve(RpcOk(RowObject(row)));
    }

    /** `commitLedger`: succeeds exactly when the procedure answered `true`, i.e. the entry was pending. */
    method CommitLedger(requestId: string, usage: Usage, fault: Option<string>) returns (r: Result<()>)
      modifies this
      ensures fault.Some? ==> State() == old(State()) && r == Err("Unable to commit ledger request: " + fault.value)
      ensures fault.None? ==>
                var (t2, accepted) := Commit(old(State()), requestId, usage);
                State() == t2 && (r.Ok? <==> accepted)
                && (r.Err? ==> r == Err("Unable to commit ledger request: unknown error"))
    {
      if fault.Some? {
        return CommitOutcome(RpcError(fault.value));
      }
      var (t2, accepted) := Commit(State(), requestId, usage);
      SetState(t2);
      r := CommitOutcome(RpcOk(Some(JBool(accepted))));
    }

    /**
     * `rollbackLedger`: the answer is ignored and nothing is raised, whatever the RPC reports; a
     * reported error leaves the tables (and so a pending entry) as they were.
     */
    method RollbackLedger(requestId: string, reason: string, fault: Option<string>)
      modifies this
      ensures fault.Some? ==> State() == old(State())
      ensures fault.None? ==> State() == Rollback(old(State()), requestId)
    {
      if fault.None? {
        SetState(Rollback(State(), requestId));
      }
    }

    /**
     * `getOrCreateDemoSession`: a read error raises; a failed insert or reset raises and writes
     * nothing; otherwise the session is created, reset or returned as `FetchSession` says.
     */
    method GetOrCreateDemoSession(fingerprint: string, now: int, readFault: Option<string>, writeFault: Option<string>)
      returns (r: Result<DemoSession>)
      modifies this
      ensures readFault.Some? ==> State() == old(State()) && r == Err("Unable to read demo session: " + readFault.value)
      ensures readFault.None? && writeFault.Some? && fingerprint !in old(sessions) ==>
                State() == old(State()) && r == Err("Unable to create demo session: " + writeFault.value)
      ensures readFault.None? && writeFault.Some? && fingerprint in old(sessions) && old(sessions)[fingerprint].expiresAt <= now ==>
                State() == old(State()) && r == Err("Unable to reset demo session: " + writeFault.value)
      ensures r.Ok? ==> (State(), r.value) == FetchSession(old(State()), fingerprint, now)
      ensures readFault.None? && (writeFault.None? || (fingerprint in old(sessions) && old(sessions)[fingerprint].expiresAt > now))
              ==> r.Ok?
    {
      if readFault.Some? {
        return Err("Unable to read demo session: " + readFault.value);
      }
      if fingerprint !in sessions {
        if writeFault.Some? {
          return Err("Unable to create demo session: " + writeFault.value);
        }
      } else if sessions[fingerprint].expiresAt <= now {
        if writeFault.Some? {
          return Err("Unable to reset demo session: " + writeFault.value);
        }
      }
      var (t2, s) := FetchSession(State(), fingerprint, now);
      SetState(t2);
      r := Ok(s);
    }

    /** `getUserCreditsBalance`. */
    method GetUserCreditsBalance(userId: string, fault: Option<string>) returns (r: Result<int>)
      ensures fault.Some? ==> r == Err("Unable to read wallet balance: " + fault.value)
      ensures fault.None? ==> r.Ok? && (userId in wallets ==> r.value == wallets[userId])
                              && (userId !in wallets ==> r.value == 0)
    {
      if fault.Some? {
        return Err("Unable to read wallet balance: " + fault.value);
      }
      r := Ok(Balance(State(), userId));
    }

    /** `getWeeklyImageUsage`: the user's committed image entries since the week start. */
    method GetWeeklyImageUsage(userId: string, now: int, fault: Option<string>) returns (r: Result<nat>)
      ensures fault.Some? ==> r == Err("Unable to compute weekly image usage: " + fault.value)
      ensures fault.None? ==> r.Ok? && r.value == CountCommitted(ledger, ByUser(userId), ImageOp, WeekStart(now))
    {
      if fault.Some? {
        return Err("Unable to compute weekly image usage: " + fault.value);
      }
      r := Ok(CountCommitted(ledger, ByUser(userId), ImageOp, WeekStart(now)));
    }

    /** `getDailyChatUsageForUser`: the user's committed chat entries since midnight UTC. */
    method GetDailyChatUsageForUser(userId: string, now: int, fault: Option<string>) returns (r: Result<nat>)
      ensures fault.Some? ==> r == Err("Unable to compute daily chat usage: " + fault.value)
      ensures fault.None? ==> r.Ok? && r.value == CountCommitted(ledger, ByUser(userId), ChatOp, DayStart(now))
    {
      if fault.Some? {
        return Err("Unable to compute daily chat usage: " + fault.value);
      }
      r := Ok(CountCommitted(ledger, ByUser(userId), ChatOp, DayStart(now)));
    }

    /** `getDailyChatUsageForDemo`: the demo session's committed chat entries since midnight UTC. */
    method GetDailyChatUsageForDemo(sessionId: nat, now: int, fault: Option<string>) returns (r: Result<nat>)
      ensures fault.Some? ==> r == Err("Unable to compute daily demo chat usage: " + fault.value)
      ensures fault.None? ==> r.Ok? && r.value == CountCommitted(ledger, BySession(sessionId), ChatOp, DayStart(now))
    {
      if fault.Some? {
        return Err("Unable to compute daily demo chat usage: " + fault.value);
      }
      r := Ok(CountCommitted(ledger, BySession(sessionId), ChatOp, DayStart(now)));
    }
  }
}
