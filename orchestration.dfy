/**
 * What the three generation handlers (`ai-chat`, `ai-image`, `ai-audio`) share: the world a request
 * meets (auth oracle, clock, store errors, the rows the store answers, the generation backend),
 * the log of the steps a handler takes, the order those steps must come in, and the common tail
 * after a granted reservation: generate, then commit and save, or roll back on any error.
 */
module Orchestration {
  import opened Outcome
  import opened Text
  import opened Json
  import opened Types
  import opened Identity
  import opened Idempotency
  import opened Store
  import Procedures
  import opened Pricing
  import opened Gemini

  /** The store calls that can report an error (`{ error }` from Supabase). */
  datatype Fault =
    | CacheRead | CacheWrite | LimitsRead | BudgetRead | UsageRead | PriceRead
    | SessionRead | SessionWrite | ReserveCall | CommitCall | RollbackCall | BalanceRead

  /**
   * The request as the handler sees it: the method, the headers the identity resolver reads, and
   * the body as `req.json()` parses it (an error message when it does not parse).
   */
  datatype HttpRequest = HttpRequest(httpMethod: string, headers: Headers, body: Result<Json>)

  /**
   * Everything outside the handler: `auth.getUser`, `crypto.randomUUID()`, the clock (ms since the
   * epoch), the store calls that fail and their messages, the `usage_limits` row, the
   * `get_user_budget_status` answer, the price lookup, and the generation backend's answer to each
   * request payload.
   */
  datatype Env = Env(
    auth: string -> AuthReply,
    uuid: string,
    now: int,
    faults: map<Fault, string>,
    limits: Option<LimitsRow>,
    budget: Rows<BudgetRow>,
    price: (Operation, ChatMode, ModelTier) -> Option<JsNumber>,
    gen: GenRequest -> GenReply)

  function FaultAt(env: Env, f: Fault): (r: Option<string>)
    ensures r.Some? <==> f in env.faults
    ensures r.Some? ==> r.value == env.faults[f]
  {
    if f in env.faults then Some(env.faults[f]) else None
  }

  /** A store query's answer: its error when the call fails, else the data. */
  function Reply<T>(env: Env, f: Fault, data: T): (r: RpcReply<T>)
    ensures f in env.faults ==> r == RpcError(env.faults[f])
    ensures f !in env.faults ==> r == RpcOk(data)
  {
    if f in env.faults then RpcError(env.faults[f]) else RpcOk(data)
  }

  /** The usage limits every handler but the audio one reads. */
  function Limits(env: Env): Result<UsageLimits> {
    LimitsFrom(Reply(env, LimitsRead, env.limits))
  }

  function Budget(env: Env): Result<BudgetStatus> {
    BudgetFrom(Reply(env, BudgetRead, env.budget))
  }

  function Price(env: Env, op: Operation, mode: ChatMode, tier: ModelTier): Result<nat> {
    PriceCredits(Reply(env, PriceRead, env.price(op, mode, tier)))
  }

  /**
   * The method check the handlers open with: `OPTIONS` gets the CORS preflight answer and any
   * method but `allowed` gets 405.
   */
  function MethodGate(httpMethod: string, allowed: string): (r: Option<Response>)
    ensures httpMethod == "OPTIONS" ==> r == Some(Preflight)
    ensures httpMethod != "OPTIONS" && httpMethod != allowed ==> r == Some(ErrorResponse(405, "METHOD_NOT_ALLOWED"))
    ensures r.None? <==> httpMethod != "OPTIONS" && httpMethod == allowed
  {
    if httpMethod == "OPTIONS" then Some(Preflight)
    else if httpMethod != allowed then Some(ErrorResponse(405, "METHOD_NOT_ALLOWED"))
    else None
  }

  /**
   * `await req.json()` followed by the handler's first property read `body.<firstField>`: a body
   * that does not parse throws, and so does the JSON `null` (reading a property of `null`).
   * Any other value reads as an object or as one without the property.
   */
  function ParsedBody(req: HttpRequest, firstField: string): (r: Result<Json>)
    ensures req.body.Err? ==> r == Err(req.body.message)
    ensures req.body == Ok(JNull) ==> r == Err("Cannot read properties of null (reading '" + firstField + "')")
    ensures r.Ok? <==> req.body.Ok? && req.body.value != JNull
    ensures r.Ok? ==> r == req.body
  {
    match req.body
    case Err(m) => Err(m)
    case Ok(JNull) => Err("Cannot read properties of null (reading '" + firstField + "')")
    case Ok(v) => Ok(v)
  }

  /** `String(body.<name> ?? '').trim()`. */
  function TrimmedField(body: Json, name: string): (r: string)
    ensures r == [] || (!IsSpace(r[0]) && !IsSpace(r[|r| - 1]))
  {
    Trim(ToJsString(FieldOr(body, name, JStr(""))))
  }

  /** `{ ...cached, idempotentReplay: true }`. */
  function ReplayPayload(cached: Payload): (r: Payload)
    ensures r.Keys == cached.Keys + {"idempotentReplay"}
    ensures r["idempotentReplay"] == JBool(true)
    ensures forall k :: k in cached && k != "idempotentReplay" ==> r[k] == cached[k]
  {
    cached["idempotentReplay" := JBool(true)]
  }

  /**
   * The replay check: the cached payload of (endpoint, scope key, idempotency key) comes back with
   * status 200 and the replay flag; a cache error becomes the handler's 500 with `code`; a miss
   * lets the request go on.
   */
  method CheckReplay(cache: IdempotencyTable, env: Env, key: CacheKey, code: string)
    returns (hit: Option<Response>)
    ensures CacheRead in env.faults ==>
              hit == Some(FailureResponse(code, "Failed to query idempotency cache: " + env.faults[CacheRead]))
    ensures CacheRead !in env.faults && key in cache.rows ==> hit == Some(JsonResponse(200, ReplayPayload(cache.rows[key])))
    ensures CacheRead !in env.faults && key !in cache.rows ==> hit.None?
  {
    var cached := cache.Get(key.endpoint, key.scopeKey, key.idempotencyKey, FaultAt(env, CacheRead));
    if cached.Err? {
      return Some(FailureResponse(code, cached.message));
    }
    if cached.value.Some? {
      return Some(JsonResponse(200, ReplayPayload(cached.value.value)));
    }
    return None;
  }

  /** The 402 answer of the chat and image handlers to a refused reservation. */
  function RefusalPayload(r: ReserveResult, isDemo: bool): (p: Payload)
    ensures p.Keys == {"error", "creditsRemaining", "imageQuotaRemaining", "isDemo"}
    ensures r.errorCode.None? ==> p["error"] == JStr("INSUFFICIENT_CREDITS")
    ensures r.errorCode.Some? ==> p["error"] == JStr(r.errorCode.value)
    ensures p["creditsRemaining"] == JInt(r.creditsRemaining)
    ensures p["imageQuotaRemaining"] == OptionalInt(r.imagesRemaining)
    ensures p["isDemo"] == JBool(isDemo)
  {
    map["error" := JStr(OrElse(r.errorCode, "INSUFFICIENT_CREDITS")),
        "creditsRemaining" := JInt(r.creditsRemaining),
        "imageQuotaRemaining" := OptionalInt(r.imagesRemaining),
        "isDemo" := JBool(isDemo)]
  }

  /**
   * One step of a handler. The first seven only read (the demo session fetch may also create or
   * reset the session); the last five are the metering protocol's effects.
   */
  datatype Event =
    | Identify | CacheGet | ReadLimits | ReadBudget | CountUsage | QuotePrice | GetSession
    | Reserve(requestId: string, granted: bool)
    | Generate(request: GenRequest)
    | Commit(requestId: string, accepted: bool)
    | Save(key: CacheKey)
    | Rollback(requestId: string)

  predicate IsCheck(e: Event) {
    !(e.Reserve? || e.Generate? || e.Commit? || e.Save? || e.Rollback?)
  }

  predicate AllChecks(log: seq<Event>) {
    forall i :: 0 <= i < |log| ==> IsCheck(log[i])
  }

  lemma ChecksConcat(a: seq<Event>, b: seq<Event>)
    requires AllChecks(a) && AllChecks(b)
    ensures AllChecks(a + b)
  {
    assert forall i :: |a| <= i < |a + b| ==> (a + b)[i] == b[i - |a|];
  }

  /** No check comes after a reservation. */
  predicate ChecksBeforeReserve(log: seq<Event>) {
    forall i, j :: 0 <= i < j < |log| && log[i].Reserve? ==> !IsCheck(log[j])
  }

  /** The only reservation is the one of `requestId`. */
  predicate ReservesOnly(log: seq<Event>, requestId: string) {
    forall i :: 0 <= i < |log| && log[i].Reserve? ==> log[i].requestId == requestId
  }

  /** Generation is called only after the reservation was granted. */
  predicate GenerateOnlyAfterGrant(log: seq<Event>, requestId: string) {
    forall j :: 0 <= j < |log| && log[j].Generate? ==> Reserve(requestId, true) in log[..j]
  }

  /** The cache is written only after commit returned. */
  predicate SaveOnlyAfterCommit(log: seq<Event>, requestId: string) {
    forall j :: 0 <= j < |log| && log[j].Save? ==> Commit(requestId, true) in log[..j]
  }

  /** A failure after a granted reservation ends with its rollback. */
  predicate RollbackOnFailure(log: seq<Event>, requestId: string, status: int) {
    status == 500 && Reserve(requestId, true) in log ==> |log| > 0 && log[|log| - 1] == Rollback(requestId)
  }

  /** A rollback happens only as the last step of a failure, after the grant. */
  predicate RollbackOnlyOnFailure(log: seq<Event>, requestId: string, status: int) {
    forall j :: 0 <= j < |log| && log[j].Rollback? ==>
      status == 500 && j == |log| - 1 && log[j] == Rollback(requestId) && Reserve(requestId, true) in log[..j]
  }

  /** The metering protocol a handler's log follows, for request id `requestId` and final status. */
  predicate Protocol(log: seq<Event>, requestId: string, status: int) {
    && ChecksBeforeReserve(log)
    && ReservesOnly(log, requestId)
    && GenerateOnlyAfterGrant(log, requestId)
    && SaveOnlyAfterCommit(log, requestId)
    && RollbackOnFailure(log, requestId, status)
    && RollbackOnlyOnFailure(log, requestId, status)
  }

  /**
   * The four ways the work after a granted reservation ends: generation fails; commit fails;
   * the save fails after the commit; or all succeed.
   */
  predicate SettleTrace(tail: seq<Event>, requestId: string, request: GenRequest, key: CacheKey, status: int) {
    || (status == 500 && tail == [Generate(request), Rollback(requestId)])
    || (status == 500 && tail == [Generate(request), Commit(requestId, false), Rollback(requestId)])
    || (status == 500 && tail == [Generate(request), Commit(requestId, true), Save(key), Rollback(requestId)])
    || (status == 200 && tail == [Generate(request), Commit(requestId, true), Save(key)])
  }

  /** What the settle traces have in common, stated on the trace alone. */
  predicate EffectsOnly(tail: seq<Event>) {
    forall i :: 0 <= i < |tail| ==> !IsCheck(tail[i]) && !tail[i].Reserve?
  }

  predicate SavesAfterCommit(tail: seq<Event>, requestId: string) {
    forall j :: 0 <= j < |tail| && tail[j].Save? ==> Commit(requestId, true) in tail[..j]
  }

  predicate RollsBackLast(tail: seq<Event>, requestId: string, status: int) {
    && (forall j :: 0 <= j < |tail| && tail[j].Rollback? ==> status == 500 && j == |tail| - 1 && tail[j] == Rollback(requestId))
    && (status == 500 ==> |tail| > 0 && tail[|tail| - 1] == Rollback(requestId))
  }

  lemma SettleTraceFacts(tail: seq<Event>, requestId: string, request: GenRequest, key: CacheKey, status: int)
    requires SettleTrace(tail, requestId, request, key, status)
    ensures EffectsOnly(tail) && SavesAfterCommit(tail, requestId) && RollsBackLast(tail, requestId, status)
    ensures forall i :: 0 <= i < |tail| && tail[i].Generate? ==> tail[i].request == request
  {
    if |tail| == 4 {
      assert tail[..3][1] == Commit(requestId, true);
    } else if |tail| == 3 && tail[1] == Commit(requestId, true) {
      assert tail[..2][1] == Commit(requestId, true);
    }
  }

  /** A log made of checks only follows the protocol, whatever the status. */
  lemma ChecksOnlyProtocol(log: seq<Event>, requestId: string, status: int)
    requires AllChecks(log)
    ensures Protocol(log, requestId, status)
  {
    assert forall i :: 0 <= i < |log| ==> log[i] != Reserve(requestId, true);
  }

  /** Checks followed by a refused (or failed) reservation follow the protocol. */
  lemma RefusedProtocol(pre: seq<Event>, requestId: string, status: int)
    requires AllChecks(pre)
    ensures Protocol(pre + [Reserve(requestId, false)], requestId, status)
  {
    var log := pre + [Reserve(requestId, false)];
    assert forall i :: 0 <= i < |pre| ==> log[i] == pre[i];
    assert forall i :: 0 <= i < |log| ==> log[i] != Reserve(requestId, true);
  }

  /** The order facts of checks, then one granted reservation, then effects. */
  lemma {:induction false} GrantedOrder(pre: seq<Event>, requestId: string, tail: seq<Event>)
    requires AllChecks(pre) && EffectsOnly(tail)
    ensures var log := pre + [Reserve(requestId, true)] + tail;
            && ChecksBeforeReserve(log) && ReservesOnly(log, requestId) && GenerateOnlyAfterGrant(log, requestId)
  {
    var n := |pre|;
    var log := pre + [Reserve(requestId, true)] + tail;
    assert forall i :: 0 <= i < n ==> log[i] == pre[i];
    assert forall i :: n < i < |log| ==> log[i] == tail[i - n - 1];
    forall j | n < j <= |log|
      ensures Reserve(requestId, true) in log[..j]
    {
      assert log[..j][n] == Reserve(requestId, true);
    }
  }

  /** Saves and rollbacks of the tail keep their order facts inside the whole log. */
  lemma {:induction false} GrantedSettle(pre: seq<Event>, requestId: string, tail: seq<Event>, status: int)
    requires AllChecks(pre) && EffectsOnly(tail)
    requires SavesAfterCommit(tail, requestId) && RollsBackLast(tail, requestId, status)
    ensures var log := pre + [Reserve(requestId, true)] + tail;
            && SaveOnlyAfterCommit(log, requestId)
            && RollbackOnFailure(log, requestId, status)
            && RollbackOnlyOnFailure(log, requestId, status)
  {
    var n := |pre|;
    var log := pre + [Reserve(requestId, true)] + tail;
    assert forall i :: 0 <= i < n ==> log[i] == pre[i];
    assert forall i :: n < i < |log| ==> log[i] == tail[i - n - 1];
    forall j | 0 <= j < |log| && log[j].Save?
      ensures Commit(requestId, true) in log[..j]
    {
      var k := j - n - 1;
      assert tail[k].Save?;
      var m :| 0 <= m < k && tail[..k][m] == Commit(requestId, true);
      assert log[..j][m + n + 1] == Commit(requestId, true);
    }
    forall j | 0 <= j < |log| && log[j].Rollback?
      ensures Reserve(requestId, true) in log[..j]
    {
      assert log[..j][n] == Reserve(requestId, true);
    }
  }

  /** Checks, a granted reservation, then one of the settle traces, follow the protocol. */
  lemma GrantedProtocol(pre: seq<Event>, requestId: string, request: GenRequest, key: CacheKey,
                        tail: seq<Event>, status: int)
    requires AllChecks(pre)
    requires SettleTrace(tail, requestId, request, key, status)
    ensures Protocol(pre + [Reserve(requestId, true)] + tail, requestId, status)
  {
    SettleTraceFacts(tail, requestId, request, key, status);
    GrantedOrder(pre, requestId, tail);
    GrantedSettle(pre, requestId, tail, status);
  }

  /**
   * The common tail of the three handlers once the reservation of `requestId` is granted: call
   * the generation backend with `request`, read its answer with `call`, commit the usage `usage`
   * derives from the result, build the payload with `respond`, save it under `key`, and answer
   * 200 with it. Any error on the way rolls the reservation back (with `reason`, which only the
   * log records) and answers 500 with `code` and the error's message.
   */
  method Settle<R>(cache: IdempotencyTable, store: CreditStore, env: Env, key: CacheKey, requestId: string,
                   reason: string, code: string, request: GenRequest, call: GenReply -> Result<R>,
                   usage: R -> Usage, respond: R -> Payload)
    returns (resp: Response, tail: seq<Event>)
    modifies cache, store
    ensures resp.JsonResponse? && SettleTrace(tail, requestId, request, key, resp.status)
    ensures var outcome := call(env.gen(request));
            var t0 := old(store.State());
            && (Commit(requestId, true) in tail <==>
                  outcome.Ok? && CommitCall !in env.faults && Procedures.Commit(t0, requestId, usage(outcome.value)).1)
            && (Commit(requestId, true) in tail ==>
                  store.State() == Procedures.Commit(t0, requestId, usage(outcome.value)).0)
            && (Commit(requestId, true) !in tail ==>
                  store.State() == if RollbackCall in env.faults then t0 else Procedures.Rollback(t0, requestId))
            && (resp.status == 200 <==> Commit(requestId, true) in tail && CacheWrite !in env.faults)
            && (resp.status == 200 ==>
                  resp.payload == respond(outcome.value)
                  && cache.rows == Upsert(old(cache.rows), key, resp.payload))
            && (resp.status != 200 ==> cache.rows == old(cache.rows))
            && (outcome.Err? ==> resp == FailureResponse(code, outcome.message))
    ensures resp.status == 500 ==> exists message :: resp == FailureResponse(code, message)
  {
    var t0 := store.State();
    var outcome := call(env.gen(request));
    if outcome.Err? {
      store.RollbackLedger(requestId, reason, FaultAt(env, RollbackCall));
      resp, tail := FailureResponse(code, outcome.message), [Generate(request), Rollback(requestId)];
      return;
    }
    var committed := store.CommitLedger(requestId, usage(outcome.value), FaultAt(env, CommitCall));
    if committed.Err? {
      store.RollbackLedger(requestId, reason, FaultAt(env, RollbackCall));
      resp := FailureResponse(code, committed.message);
      tail := [Generate(request), Commit(requestId, false), Rollback(requestId)];
      return;
    }
    var payload := respond(outcome.value);
    var saved := cache.Save(key.endpoint, key.scopeKey, key.idempotencyKey, payload, FaultAt(env, CacheWrite));
    if saved.Err? {
      Procedures.TerminalIsFinal(store.State(), requestId, usage(outcome.value));
      store.RollbackLedger(requestId, reason, FaultAt(env, RollbackCall));
      resp := FailureResponse(code, saved.message);
      tail := [Generate(request), Commit(requestId, true), Save(key), Rollback(requestId)];
      return;
    }
    resp, tail := JsonResponse(200, payload), [Generate(request), Commit(requestId, true), Save(key)];
  }

  /**
   * What the reservation wrapper answers when its call works, and the tables after it: the user's
   * `reserve_user_credits` row, or the device's `reserve_demo_credits` row (with its image quota
   * and session id), as the wrapper passes it on.
   */
  function Reservation(t: Tables, id: RequestIdentity, requestId: string, op: Operation, mode: ChatMode,
                       model: string, tier: ModelTier, credits: nat, isImage: bool, now: int)
    : (r: (Tables, ReserveResult))
    ensures !r.1.success ==> r.0.ledger == t.ledger && r.0.wallets == t.wallets
    ensures r.1.success ==> Live(r.0, requestId)
    ensures id.userId.Some? ==> r.1.imagesRemaining.None? && r.1.creditsRemaining == Balance(r.0, id.userId.value)
    ensures id.userId.None? ==> r.1.imagesRemaining.Some? && r.0.wallets == t.wallets
  {
    if id.userId.Some? then
      Procedures.ReserveUserOutcome(t, id.userId.value, requestId, op, mode, model, tier, credits, now);
      var (t2, row) := Procedures.ReserveUser(t, id.userId.value, requestId, op, mode, model, tier, credits, now);
      (t2, ReserveResult(row.success, row.errorCode, row.balance, None, None))
    else
      var (t2, row) := Procedures.ReserveDemo(t, id.deviceFingerprint, requestId, op, mode, model, tier, credits, isImage, now);
      (t2, ReserveResult(row.success, row.errorCode, row.creditsRemaining, Some(row.imagesRemaining), row.demoSessionId))
  }

  /**
   * How the settle tail after a grant from tables `t1` ends, for the model call `request` read with
   * `call` and committed with `usage`: the answer is a 200 exactly when the model answered, the
   * commit call worked and was accepted, and the cache write worked; an accepted commit leaves the
   * committed tables; otherwise the reservation is rolled back, unless the rollback call failed.
   */
  ghost predicate SettledFrom<R>(env: Env, requestId: string, t1: Tables, request: GenRequest,
                                 call: GenReply -> Result<R>, usage: R -> Usage,
                                 resp: Response, log: seq<Event>, t2: Tables) {
    var outcome := call(env.gen(request));
    && (resp.JsonResponse? && resp.status == 200 <==>
          outcome.Ok? && CommitCall !in env.faults && CacheWrite !in env.faults
          && Procedures.Commit(t1, requestId, usage(outcome.value)).1)
    && (Commit(requestId, true) in log ==> outcome.Ok? && t2 == Procedures.Commit(t1, requestId, usage(outcome.value)).0)
    && (Commit(requestId, true) !in log ==>
          t2 == if RollbackCall in env.faults then t1 else Procedures.Rollback(t1, requestId))
  }

  /**
   * What follows a reservation that answered `row` and left tables `t1`: the grant is logged
   * exactly when the row succeeded; a refused row answers `refusal` and changes nothing more; a
   * granted one is settled as above.
   */
  ghost predicate AfterReserve<R>(env: Env, requestId: string, t1: Tables, row: ReserveResult, refusal: Response,
                                  request: GenRequest, call: GenReply -> Result<R>, usage: R -> Usage,
                                  resp: Response, log: seq<Event>, t2: Tables) {
    && (Reserve(requestId, true) in log <==> row.success)
    && (!row.success ==> resp == refusal && t2 == t1)
    && (row.success ==> SettledFrom(env, requestId, t1, request, call, usage, resp, log, t2))
  }

  /**
   * What a reservation step leaves behind, from a state `t` with nothing pending: at most the
   * entry of `requestId` is pending in `t1`, and rolling it back gives every user the balance
   * they had in `t`.
   */
  ghost predicate Reversible(t: Tables, t1: Tables, requestId: string) {
    NoPending(t) ==> PendingAtMost(t1, requestId) && SameBalances(Procedures.Rollback(t1, requestId), t)
  }

  /** A step that touched neither ledger nor wallets is trivially reversible. */
  lemma UnchangedReversible(t: Tables, t1: Tables, requestId: string)
    requires t1.ledger == t.ledger && t1.wallets == t.wallets
    ensures Reversible(t, t1, requestId)
  {
    if NoPending(t) {
      assert Procedures.Rollback(t1, requestId) == t1;
    }
  }

  /** A user reservation from a state with nothing pending is reversible. */
  lemma UserReserveReversible(t: Tables, userId: string, requestId: string, op: Operation, mode: ChatMode,
                              model: string, tier: ModelTier, credits: nat, now: int)
    ensures Reversible(t, Procedures.ReserveUser(t, userId, requestId, op, mode, model, tier, credits, now).0, requestId)
  {
    if NoPending(t) {
      Procedures.ReservePendsOnlyItself(t, userId, "", requestId, op, mode, model, tier, credits, false, now);
      Procedures.RollbackRestoresUser(t, userId, requestId, op, mode, model, tier, credits, now);
    }
  }

  /** A demo reservation from a state with nothing pending is reversible: it never touches a wallet. */
  lemma DemoReserveReversible(t: Tables, fingerprint: string, requestId: string, op: Operation, mode: ChatMode,
                              model: string, tier: ModelTier, credits: nat, isImage: bool, now: int)
    ensures Reversible(t, Procedures.ReserveDemo(t, fingerprint, requestId, op, mode, model, tier, credits, isImage, now).0,
                       requestId)
  {
    if NoPending(t) {
      Procedures.ReservePendsOnlyItself(t, "", fingerprint, requestId, op, mode, model, tier, credits, isImage, now);
      Procedures.RollbackRestoresDemo(t, fingerprint, requestId, op, mode, model, tier, credits, isImage, now);
    }
  }

  /** Fetching a demo session first changes neither ledger nor wallets, so reversibility carries over. */
  lemma ReversibleAfterFetch(t: Tables, fingerprint: string, now: int, t2: Tables, requestId: string)
    requires Reversible(FetchSession(t, fingerprint, now).0, t2, requestId)
    ensures Reversible(t, t2, requestId)
  {
    var t1 := FetchSession(t, fingerprint, now).0;
    assert NoPending(t) ==> NoPending(t1);
  }

  /**
   * After a reversible reservation and the settle tail (commit accepted, or rolled back),
   * nothing is pending; without an accepted commit every balance is what it was before.
   */
  lemma SettledState(t: Tables, t1: Tables, t2: Tables, requestId: string, u: Usage, accepted: bool)
    requires NoPending(t) && Reversible(t, t1, requestId)
    requires accepted ==> Procedures.Commit(t1, requestId, u).1 && t2 == Procedures.Commit(t1, requestId, u).0
    requires !accepted ==> t2 == Procedures.Rollback(t1, requestId)
    ensures NoPending(t2)
    ensures !accepted ==> SameBalances(t2, t)
  {
    Procedures.SettleClearsPending(t1, requestId, u);
  }

  /**
   * What a handler knows once the body passed its 400 checks: the validated input, who asks, and
   * the cache key and ledger request id derived from the idempotency key.
   */
  datatype Intake<I> = Intake(input: I, id: RequestIdentity, key: CacheKey, requestId: string)

  function IntakeOf<I>(endpoint: string, input: I, idempotencyKey: string, req: HttpRequest, env: Env): Intake<I> {
    var id := ResolveIdentity(req.headers, env.uuid, env.auth);
    Intake(input, id, CacheKey(endpoint, id.scopeKey, idempotencyKey), BuildRequestId(endpoint, id.scopeKey, idempotencyKey))
  }

  /**
   * What every generating handler promises once its intake is known, on the tables and cache rows
   * before (`t`, `rows`) and after (`t2`, `rows2`): the ledger protocol; a saved answer replayed
   * with nothing changed; the model asked only `request`; the cache gaining at most this
   * response's payload, and only on 200; ledger and wallets untouched without a granted
   * reservation; and, when the rollback call works, nothing left pending and nobody charged
   * without an accepted commit.
   */
  ghost predicate Served<I>(k: Intake<I>, env: Env, request: GenRequest, resp: Response, log: seq<Event>,
                            t: Tables, t2: Tables, rows: map<CacheKey, Payload>, rows2: map<CacheKey, Payload>) {
    && |log| >= 2 && log[..2] == [Identify, CacheGet]
    && Protocol(log, k.requestId, StatusOf(resp))
    && (CacheRead !in env.faults && k.key in rows ==>
          resp == JsonResponse(200, ReplayPayload(rows[k.key])) && log == [Identify, CacheGet] && t2 == t && rows2 == rows)
    && (forall i :: 0 <= i < |log| && log[i].Generate? ==> log[i].request == request)
    && (rows2 == rows || (resp.JsonResponse? && resp.status == 200 && rows2 == Upsert(rows, k.key, resp.payload)))
    && (Reserve(k.requestId, true) !in log ==> t2.ledger == t.ledger && t2.wallets == t.wallets)
    && (NoPending(t) && RollbackCall !in env.faults ==>
          NoPending(t2) && (Commit(k.requestId, true) !in log ==> SameBalances(t2, t)))
  }

  /** The cache lookup answered (a hit, or a read error): the handler stops after two reads. */
  lemma ReplayServed<I>(k: Intake<I>, env: Env, request: GenRequest, resp: Response, t: Tables,
                        rows: map<CacheKey, Payload>)
    requires CacheRead !in env.faults && k.key in rows ==> resp == JsonResponse(200, ReplayPayload(rows[k.key]))
    ensures Served(k, env, request, resp, [Identify, CacheGet], t, t, rows, rows)
  {
    ChecksOnlyProtocol([Identify, CacheGet], k.requestId, StatusOf(resp));
  }

  /**
   * A log that opens with the two reads, follows the protocol and holds neither a grant nor a
   * model call, after a cache miss that changed neither ledger nor wallets nor the cache.
   */
  lemma QuietServed<I>(k: Intake<I>, env: Env, request: GenRequest, resp: Response, log: seq<Event>,
                       t: Tables, t2: Tables, rows: map<CacheKey, Payload>)
    requires !(CacheRead !in env.faults && k.key in rows)
    requires |log| >= 2 && log[..2] == [Identify, CacheGet] && Protocol(log, k.requestId, StatusOf(resp))
    requires forall i :: 0 <= i < |log| ==> log[i] != Reserve(k.requestId, true) && !log[i].Generate? && !log[i].Commit?
    requires t2.ledger == t.ledger && t2.wallets == t.wallets
    ensures Served(k, env, request, resp, log, t, t2, rows, rows)
  {
    assert NoPending(t) ==> NoPending(t2);
  }

  /** A cache miss followed by a refusal: checks, perhaps a refused reservation, and nothing else. */
  lemma RefusedServed<I>(k: Intake<I>, env: Env, request: GenRequest, resp: Response, checks: seq<Event>,
                         attempted: bool, t: Tables, t2: Tables, rows: map<CacheKey, Payload>)
    requires !(CacheRead !in env.faults && k.key in rows)
    requires AllChecks(checks)
    requires t2.ledger == t.ledger && t2.wallets == t.wallets
    ensures var pre := [Identify, CacheGet] + checks;
            var log := if attempted then pre + [Reserve(k.requestId, false)] else pre;
            && Served(k, env, request, resp, log, t, t2, rows, rows)
            && Reserve(k.requestId, true) !in log
            && (!attempted ==> AllChecks(log))
  {
    var pre := [Identify, CacheGet] + checks;
    ChecksConcat([Identify, CacheGet], checks);
    assert pre[..2] == [Identify, CacheGet];
    if attempted {
      var log := pre + [Reserve(k.requestId, false)];
      assert log[..2] == [Identify, CacheGet];
      RefusedProtocol(pre, k.requestId, StatusOf(resp));
      assert forall i :: 0 <= i < |log| ==> log[i] == Reserve(k.requestId, false) || IsCheck(log[i]);
      QuietServed(k, env, request, resp, log, t, t2, rows);
    } else {
      ChecksOnlyProtocol(pre, k.requestId, StatusOf(resp));
      QuietServed(k, env, request, resp, pre, t, t2, rows);
    }
  }

  /**
   * A cache miss followed by a granted reservation and one of the settle traces: `t` is the state
   * before the admission, `t1` the one after the reversible reservation, `t2` the one the settle
   * tail left, committed with `u` when the commit was accepted and rolled back (unless the
   * rollback call failed) when it was not.
   */
  lemma GrantedServed<I>(k: Intake<I>, env: Env, request: GenRequest, resp: Response, checks: seq<Event>,
                         tail: seq<Event>, t: Tables, t1: Tables, t2: Tables, u: Usage,
                         rows: map<CacheKey, Payload>, rows2: map<CacheKey, Payload>)
    requires !(CacheRead !in env.faults && k.key in rows)
    requires AllChecks(checks) && Reversible(t, t1, k.requestId)
    requires SettleTrace(tail, k.requestId, request, k.key, StatusOf(resp))
    requires Commit(k.requestId, true) in tail ==>
               Procedures.Commit(t1, k.requestId, u).1 && t2 == Procedures.Commit(t1, k.requestId, u).0
    requires Commit(k.requestId, true) !in tail ==>
               t2 == if RollbackCall in env.faults then t1 else Procedures.Rollback(t1, k.requestId)
    requires rows2 == rows || (resp.JsonResponse? && resp.status == 200 && rows2 == Upsert(rows, k.key, resp.payload))
    ensures var log := [Identify, CacheGet] + checks + [Reserve(k.requestId, true)] + tail;
            && Served(k, env, request, resp, log, t, t2, rows, rows2) && Reserve(k.requestId, true) in log
            && (Commit(k.requestId, true) in log <==> Commit(k.requestId, true) in tail)
  {
    GrantedLog(k.requestId, request, k.key, checks, tail, StatusOf(resp));
    if NoPending(t) && RollbackCall !in env.faults {
      SettledState(t, t1, t2, k.requestId, u, Commit(k.requestId, true) in tail);
    }
  }

  /** The log of a granted request: the two reads, the checks, the grant, then a settle trace. */
  lemma GrantedLog(requestId: string, request: GenRequest, key: CacheKey, checks: seq<Event>, tail: seq<Event>,
                   status: int)
    requires AllChecks(checks) && SettleTrace(tail, requestId, request, key, status)
    ensures var log := [Identify, CacheGet] + checks + [Reserve(requestId, true)] + tail;
            && |log| >= 2 && log[..2] == [Identify, CacheGet]
            && Protocol(log, requestId, status)
            && (forall i :: 0 <= i < |log| && log[i].Generate? ==> log[i].request == request)
            && Reserve(requestId, true) in log
            && (Commit(requestId, true) in log <==> Commit(requestId, true) in tail)
  {
    var pre := [Identify, CacheGet] + checks;
    ChecksConcat([Identify, CacheGet], checks);
    var log := pre + [Reserve(requestId, true)] + tail;
    assert log[..2] == [Identify, CacheGet];
    assert log[|pre|] == Reserve(requestId, true);
    GrantedProtocol(pre, requestId, request, key, tail, status);
    SettleTraceFacts(tail, requestId, request, key, status);
    assert forall i :: 0 <= i < |log| ==> log[i] == Reserve(requestId, true) || IsCheck(log[i]) || log[i] in tail;
    assert Commit(requestId, true) in tail ==> Commit(requestId, true) in log;
  }

  /**
   * A cache miss followed by a granted reservation: the settle tail after the checks and the
   * grant. `t` is the state before the admission, which left behind a reversible reservation.
   */
  method SettleServed<I, R>(cache: IdempotencyTable, store: CreditStore, env: Env, k: Intake<I>, checks: seq<Event>,
                            ghost t: Tables, reason: string, code: string, request: GenRequest,
                            call: GenReply -> Result<R>, usage: R -> Usage, respond: R -> Payload)
    returns (resp: Response, log: seq<Event>)
    requires !(CacheRead !in env.faults && k.key in cache.rows)
    requires AllChecks(checks) && Reversible(t, store.State(), k.requestId)
    modifies cache, store
    ensures Served(k, env, request, resp, log, t, store.State(), old(cache.rows), cache.rows)
    ensures Reserve(k.requestId, true) in log
    ensures resp.JsonResponse? && resp.status == 200 ==>
              call(env.gen(request)).Ok? && resp.payload == respond(call(env.gen(request)).value)
    ensures SettledFrom(env, k.requestId, old(store.State()), request, call, usage, resp, log, store.State())
  {
    ghost var t1 := store.State();
    ghost var rows := cache.rows;
    var tail;
    resp, tail := Settle(cache, store, env, k.key, k.requestId, reason, code, request, call, usage, respond);
    log := [Identify, CacheGet] + checks + [Reserve(k.requestId, true)] + tail;
    ghost var outcome := call(env.gen(request));
    GrantedServed(k, env, request, resp, checks, tail, t, t1, store.State(),
                  if outcome.Ok? then usage(outcome.value) else NO_USAGE, rows, cache.rows);
  }
}
