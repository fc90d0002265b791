/**
 * The chat handler (`ai-chat/index.ts`): validate the body, replay a cached answer, apply the
 * soft-cap downgrade and the daily message limit, price and reserve, then generate, commit and
 * save, rolling the reservation back on any error after it was granted.
 */
module Chat {
  import opened Outcome
  import opened Text
  import opened Json
  import opened Types
  import opened Config
  import opened Identity
  import opened Idempotency
  import opened Store
  import Procedures
  import opened Pricing
  import opened Gemini
  import opened SystemPrompt
  import opened Orchestration

  const ENDPOINT: string := "ai-chat"
  const FAILURE_CODE: string := "AI_CHAT_FAILED"
  const ROLLBACK_REASON: string := "GEMINI_CHAT_ERROR"
  const FALLBACK_REPLY: string := "Disculpa, no pude generar una respuesta útil en este momento."
  const DAILY_LIMIT_CODE: string := "DAILY_MESSAGE_LIMIT_REACHED"

  // ---- body validation ----

  /** `isChatMode`: the value is one of the four mode names, as a string. */
  function ChatModeOf(v: Option<Json>): (r: Option<ChatMode>)
    ensures r.Some? ==> v == Some(JStr(ModeName(r.value)))
    ensures r.None? ==> forall m: ChatMode :: v != Some(JStr(ModeName(m)))
  {
    if v == Some(JStr("mentor")) then Some(Mentor)
    else if v == Some(JStr("researcher")) then Some(Researcher)
    else if v == Some(JStr("coach")) then Some(Coach)
    else if v == Some(JStr("visionary")) then Some(Visionary)
    else None
  }

  /** One element of `history` kept by `normalizeHistory`: an object with a known role and string content. */
  function HistoryItemOf(v: Json): (r: Option<ChatHistoryItem>)
    ensures r.Some? <==> (Field(v, "role") == Some(JStr("user")) || Field(v, "role") == Some(JStr("assistant")))
                         && Field(v, "content").Some? && Field(v, "content").value.JStr?
    ensures r.Some? ==> r.value.content == Field(v, "content").value.s
                        && (r.value.role == AssistantRole <==> Field(v, "role") == Some(JStr("assistant")))
  {
    var role := Field(v, "role");
    var content := Field(v, "content");
    if content.None? || !content.value.JStr? then None
    else if role == Some(JStr("user")) then Some(ChatHistoryItem(UserRole, content.value.s))
    else if role == Some(JStr("assistant")) then Some(ChatHistoryItem(AssistantRole, content.value.s))
    else None
  }

  /** The `filter` and `map` of `normalizeHistory`. */
  function ValidHistory(items: seq<Json>): (r: seq<ChatHistoryItem>)
    ensures |r| <= |items|
  {
    if items == [] then []
    else
      var head := HistoryItemOf(items[0]);
      (if head.Some? then [head.value] else []) + ValidHistory(items[1..])
  }

  /** Filtering distributes over concatenation: each element is kept or dropped on its own. */
  lemma {:induction false} ValidHistoryConcat(a: seq<Json>, b: seq<Json>)
    ensures ValidHistory(a + b) == ValidHistory(a) + ValidHistory(b)
  {
    if a != [] {
      assert (a + b)[0] == a[0];
      assert ValidHistory(a + b) == (if HistoryItemOf(a[0]).Some? then [HistoryItemOf(a[0]).value] else [])
                                    + ValidHistory((a + b)[1..]);
      assert (a + b)[1..] == a[1..] + b;
      ValidHistoryConcat(a[1..], b);
      assert ValidHistory(a) == (if HistoryItemOf(a[0]).Some? then [HistoryItemOf(a[0]).value] else [])
                                + ValidHistory(a[1..]);
    } else {
      assert a + b == b;
    }
  }

  /**
   * `normalizeHistory`: anything but an array is no history; of an array, the valid items are
   * kept in order and only the last 8 of them.
   */
  function NormalizeHistory(history: Option<Json>): (r: seq<ChatHistoryItem>)
    ensures |r| <= 8
    ensures !(history.Some? && history.value.JArr?) ==> r == []
    ensures history.Some? && history.value.JArr? ==>
              var valid := ValidHistory(history.value.items);
              |r| == (if |valid| <= 8 then |valid| else 8) && r == valid[|valid| - |r|..]
  {
    if history.Some? && history.value.JArr? then TakeLast(ValidHistory(history.value.items), 8) else []
  }

  /** What the handler keeps of a valid body. */
  datatype ChatInput = ChatInput(
    mode: ChatMode, message: string, idempotencyKey: string, deepDive: bool, history: seq<ChatHistoryItem>)

  /**
   * The three 400 checks, in order: the mode, then the trimmed message, then the trimmed
   * idempotency key. `Err` carries the error code.
   */
  function ValidateChat(body: Json): (r: Result<ChatInput>)
    ensures ChatModeOf(Field(body, "mode")).None? ==> r == Err("INVALID_MODE")
    ensures ChatModeOf(Field(body, "mode")).Some? && TrimmedField(body, "message") == "" ==> r == Err("EMPTY_MESSAGE")
    ensures (ChatModeOf(Field(body, "mode")).Some? && TrimmedField(body, "message") != ""
             && TrimmedField(body, "idempotencyKey") == "") ==> r == Err("MISSING_IDEMPOTENCY_KEY")
    ensures r.Ok? <==> ChatModeOf(Field(body, "mode")).Some? && TrimmedField(body, "message") != ""
                       && TrimmedField(body, "idempotencyKey") != ""
    ensures r.Ok? ==> && Some(JStr(ModeName(r.value.mode))) == Field(body, "mode")
                      && r.value.message == TrimmedField(body, "message")
                      && r.value.idempotencyKey == TrimmedField(body, "idempotencyKey")
                      && r.value.deepDive == Truthy(Field(body, "deepDive"))
                      && r.value.history == NormalizeHistory(Field(body, "history"))
  {
    var mode := ChatModeOf(Field(body, "mode"));
    if mode.None? then Err("INVALID_MODE")
    else
      var message := TrimmedField(body, "message");
      if message == "" then Err("EMPTY_MESSAGE")
      else
        var key := TrimmedField(body, "idempotencyKey");
        if key == "" then Err("MISSING_IDEMPOTENCY_KEY")
        else Ok(ChatInput(mode.value, message, key, Truthy(Field(body, "deepDive")), NormalizeHistory(Field(body, "history"))))
  }

  // ---- mode, tier and soft-cap downgrade ----

  datatype ChatPlan = ChatPlan(mode: ChatMode, tier: ModelTier, downgraded: bool)

  /**
   * The effective mode and tier: deep dive only for a requested researcher with `deepDive`; a
   * caller outside the soft cap is moved to mentor on the stable tier and flagged as downgraded.
   */
  function PlanChat(requested: ChatMode, deepDive: bool, withinCap: bool): (p: ChatPlan)
    ensures p.downgraded <==> !withinCap
    ensures !withinCap ==> p.mode == Mentor && p.tier == Stable
    ensures withinCap ==> p.mode == requested
    ensures p.tier == DeepDive <==> withinCap && requested == Researcher && deepDive
    ensures p.tier == Stable || p.tier == DeepDive
  {
    if !withinCap then ChatPlan(Mentor, Stable, true)
    else ChatPlan(requested, if requested == Researcher && deepDive then DeepDive else Stable, false)
  }

  /** The deep-dive model is used exactly for a requested researcher with `deepDive` inside the cap. */
  lemma PlanModel(requested: ChatMode, deepDive: bool, withinCap: bool)
    ensures var p := PlanChat(requested, deepDive, withinCap);
            GetTextModel(p.mode, p.tier) == RESEARCH_DEEP_DIVE_MODEL <==> withinCap && requested == Researcher && deepDive
    ensures var p := PlanChat(requested, deepDive, withinCap);
            TextPayload(GetTextModel(p.mode, p.tier), [], "", "", p.mode == Researcher).googleSearch
            <==> withinCap && requested == Researcher
  {
  }

  /** The plan of a request: demo callers have no budget, users are downgraded outside the cap. */
  function PlanFor(input: ChatInput, id: RequestIdentity, env: Env): (p: ChatPlan)
    ensures id.userId.None? ==> p.mode == input.mode && !p.downgraded
    ensures id.userId.Some? ==> (p.downgraded <==> !(Budget(env).Ok? && Budget(env).value.withinCap))
    ensures p.downgraded ==> p.mode == Mentor && p.tier == Stable
    ensures p.tier == DeepDive <==> !p.downgraded && input.mode == Researcher && input.deepDive
  {
    PlanChat(input.mode, input.deepDive, id.userId.None? || (Budget(env).Ok? && Budget(env).value.withinCap))
  }

  /**
   * The generation request, with the system instruction of each mode given by `instruction`
   * (the handler passes `BuildSystemInstruction`): search is on exactly in researcher mode.
   */
  function ChatRequest(input: ChatInput, plan: ChatPlan, instruction: ChatMode -> string): (r: GenRequest)
    ensures r.TextRequest? && (r.googleSearch <==> plan.mode == Researcher)
    ensures r.model == GetTextModel(plan.mode, plan.tier) && r.systemInstruction == instruction(plan.mode)
    ensures r.contents == ToContents(input.history, input.message)
  {
    TextPayload(GetTextModel(plan.mode, plan.tier), input.history, input.message,
                instruction(plan.mode), plan.mode == Researcher)
  }

  // ---- the answer ----

  function SourceJson(s: GroundingSource): Json {
    JObj(map["title" := JStr(s.title), "uri" := JStr(s.uri)])
  }

  function SourcesJson(sources: seq<GroundingSource>): (r: Json)
    ensures r.JArr? && |r.items| == |sources|
  {
    JArr(seq(|sources|, i requires 0 <= i < |sources| => SourceJson(sources[i])))
  }

  /** What commit records: the token counts and grounded queries, no images. */
  function ChatUsage(r: TextResult): (u: Usage)
    ensures u.tokensIn == r.usage.promptTokenCount && u.tokensOut == r.usage.candidatesTokenCount
    ensures u.groundedQueries == r.groundedQueries && u.imageCount == 0
  {
    Usage(r.usage.promptTokenCount, r.usage.candidatesTokenCount, r.groundedQueries, 0)
  }

  /** The 200 payload, also the one saved for replay. */
  function ChatPayload(r: TextResult, credits: nat, remaining: int, model: string, plan: ChatPlan, isDemo: bool)
    : (p: Payload)
    ensures p.Keys == {"assistantMessage", "sources", "usage", "creditsCharged", "creditsRemaining", "modelUsed",
                       "modeUsed", "downgradedBySoftCap", "isDemo"}
    ensures p["assistantMessage"] == JStr(if r.text == "" then FALLBACK_REPLY else r.text)
    ensures p["creditsCharged"] == JInt(credits) && p["creditsRemaining"] == JInt(remaining)
    ensures p["modelUsed"] == JStr(model) && p["modeUsed"] == JStr(ModeName(plan.mode))
    ensures p["downgradedBySoftCap"] == JBool(plan.downgraded) && p["isDemo"] == JBool(isDemo)
  {
    map["assistantMessage" := JStr(if r.text == "" then FALLBACK_REPLY else r.text),
        "sources" := SourcesJson(r.sources),
        "usage" := JObj(map["inputTokens" := JInt(r.usage.promptTokenCount),
                            "outputTokens" := JInt(r.usage.candidatesTokenCount),
                            "totalTokens" := JInt(r.usage.totalTokenCount),
                            "groundedQueries" := JInt(r.groundedQueries)]),
        "creditsCharged" := JInt(credits),
        "creditsRemaining" := JInt(remaining),
        "modelUsed" := JStr(model),
        "modeUsed" := JStr(ModeName(plan.mode)),
        "downgradedBySoftCap" := JBool(plan.downgraded),
        "isDemo" := JBool(isDemo)]
  }

  // ---- limit checks and the reservation ----

  datatype Admission =
    | Refused(response: Response)
    | Admitted(plan: ChatPlan, model: string, credits: nat, reserved: ReserveResult)

  /** The 429 of a demo session at its daily limit. */
  function DemoLimitPayload(s: DemoSession): (p: Payload)
    ensures p.Keys == {"error", "creditsRemaining", "imageQuotaRemaining", "isDemo"}
    ensures p["error"] == JStr(DAILY_LIMIT_CODE) && p["isDemo"] == JBool(true)
    ensures p["creditsRemaining"] == JInt(s.creditsRemaining) && p["imageQuotaRemaining"] == JInt(s.imagesRemaining)
  {
    map["error" := JStr(DAILY_LIMIT_CODE), "creditsRemaining" := JInt(s.creditsRemaining),
        "imageQuotaRemaining" := JInt(s.imagesRemaining), "isDemo" := JBool(true)]
  }

  const USER_LIMIT_PAYLOAD: Payload := map["error" := JStr(DAILY_LIMIT_CODE), "creditsRemaining" := JNull]

  /** What every admission promises about the tables, whoever the caller is. */
  ghost predicate AdmissionFrame(a: Admission, t: Tables, t1: Tables, id: RequestIdentity) {
    a.Refused? ==> && t1.ledger == t.ledger && t1.wallets == t.wallets
                   && a.response.JsonResponse? && a.response.status in {402, 429, 500}
                   && (a.response.status == 402 ==>
                         exists r: ReserveResult :: !r.success && a.response.payload == RefusalPayload(r, id.isDemo))
  }

  /** The tables a chat reservation is sent from: a demo device's session is fetched first. */
  function ReserveBase(t: Tables, id: RequestIdentity, now: int): (t1: Tables)
    ensures t1.ledger == t.ledger && t1.wallets == t.wallets
    ensures id.userId.Some? ==> t1 == t
  {
    if id.userId.Some? then t else FetchSession(t, id.deviceFingerprint, now).0
  }

  /** The reservation a planned chat request sends for `credits`, answered with its call working. */
  function ChatReservation(t: Tables, input: ChatInput, id: RequestIdentity, env: Env, requestId: string,
                           credits: nat): (Tables, ReserveResult) {
    var plan := PlanFor(input, id, env);
    Reservation(ReserveBase(t, id, env.now), id, requestId, ChatOp, plan.mode, GetTextModel(plan.mode, plan.tier),
                plan.tier, credits, false, env.now)
  }

  /**
   * Getting the device's session works: the read, and the write too when the session has to be
   * created or reset (a live session is returned without one).
   */
  predicate SessionReadable(t: Tables, fingerprint: string, env: Env) {
    && SessionRead !in env.faults
    && (SessionWrite !in env.faults || (fingerprint in t.sessions && t.sessions[fingerprint].expiresAt > env.now))
  }

  /** A demo device whose reads before the count work, with its session's count at or over the daily limit. */
  predicate DemoAtLimit(t: Tables, input: ChatInput, id: RequestIdentity, env: Env, limits: UsageLimits) {
    && id.userId.None?
    && Price(env, ChatOp, input.mode, PlanFor(input, id, env).tier).Ok?
    && SessionReadable(t, id.deviceFingerprint, env) && UsageRead !in env.faults
    && CountCommitted(t.ledger, BySession(FetchSession(t, id.deviceFingerprint, env.now).1.id), ChatOp,
                      DayStart(env.now)) >= limits.dailyMessages
  }

  /**
   * Every read before a chat reservation works and lets it through, for the limits `limits`: the
   * budget of a user or the session of a demo device, the day's count below the limit, and the
   * price of the plan.
   */
  predicate ReadsPass(t: Tables, input: ChatInput, id: RequestIdentity, env: Env, limits: UsageLimits) {
    var plan := PlanFor(input, id, env);
    && UsageRead !in env.faults && Price(env, ChatOp, plan.mode, plan.tier).Ok?
    && if id.userId.Some? then
         Budget(env).Ok?
         && CountCommitted(t.ledger, ByUser(id.userId.value), ChatOp, DayStart(env.now)) < limits.dailyMessages
       else
         SessionReadable(t, id.deviceFingerprint, env)
         && CountCommitted(t.ledger, BySession(FetchSession(t, id.deviceFingerprint, env.now).1.id), ChatOp,
                           DayStart(env.now)) < limits.dailyMessages
  }

  /**
   * When every read passes and the reservation call works, the reservation is sent: the request
   * is admitted exactly when the row succeeds, with that row, and refused with its 402 otherwise.
   */
  ghost predicate ReservedAsPlanned(a: Admission, attempted: bool, t: Tables, t2: Tables, input: ChatInput,
                                    id: RequestIdentity, env: Env, requestId: string, limits: UsageLimits) {
    ReadsPass(t, input, id, env, limits) && ReserveCall !in env.faults ==>
      var plan := PlanFor(input, id, env);
      var (t1, row) := ChatReservation(t, input, id, env, requestId, Price(env, ChatOp, plan.mode, plan.tier).value);
      && attempted && t2 == t1
      && (a.Admitted? <==> row.success)
      && (a.Admitted? ==> a.reserved == row)
      && (a.Refused? ==> a.response == JsonResponse(402, RefusalPayload(row, id.isDemo)))
  }

  /**
   * The reservation of a planned chat request, by the user or by the demo device, and the 402 of
   * a refused one.
   */
  method ReserveChat(store: CreditStore, id: RequestIdentity, env: Env, requestId: string, plan: ChatPlan,
                     model: string, credits: nat)
    returns (a: Admission)
    modifies store
    ensures AdmissionFrame(a, old(store.State()), store.State(), id)
    ensures a.Admitted? ==> a.plan == plan && a.model == model && a.credits == credits && a.reserved.success
    ensures a.Admitted? && id.userId.Some? ==>
              store.State() == Procedures.ReserveUser(old(store.State()), id.userId.value, requestId, ChatOp,
                                                      plan.mode, model, plan.tier, credits, env.now).0
    ensures a.Admitted? && id.userId.None? ==>
              store.State() == Procedures.ReserveDemo(old(store.State()), id.deviceFingerprint, requestId, ChatOp,
                                                      plan.mode, model, plan.tier, credits, false, env.now).0
    ensures ReserveCall in env.faults ==>
              a.Refused? && a.response.JsonResponse? && a.response.status == 500 && store.State() == old(store.State())
    ensures ReserveCall !in env.faults ==>
              var (t1, row) := Reservation(old(store.State()), id, requestId, ChatOp, plan.mode, model, plan.tier,
                                           credits, false, env.now);
              && store.State() == t1
              && (a.Admitted? <==> row.success)
              && (a.Admitted? ==> a.reserved == row)
              && (a.Refused? ==> a.response == JsonResponse(402, RefusalPayload(row, id.isDemo)))
  {
    var reserved;
    if id.userId.Some? {
      reserved := store.ReserveUserCredits(id.userId.value, requestId, ChatOp, plan.mode, model, plan.tier,
                                           credits, env.now, FaultAt(env, ReserveCall));
    } else {
      reserved := store.ReserveDemoCredits(id.deviceFingerprint, requestId, ChatOp, plan.mode, model, plan.tier,
                                           credits, false, env.now, FaultAt(env, ReserveCall));
    }
    if reserved.Err? {
      a := Refused(FailureResponse(FAILURE_CODE, reserved.message));
    } else if !reserved.value.success {
      a := Refused(JsonResponse(402, RefusalPayload(reserved.value, id.isDemo)));
    } else {
      a := Admitted(plan, model, credits, reserved.value);
    }
  }

  /**
   * The user branch after the limits were read: the budget (which may downgrade), the daily
   * count (which may refuse with 429), the price and the user reservation.
   */
  method AdmitUser(store: CreditStore, input: ChatInput, id: RequestIdentity, env: Env, requestId: string,
                   limits: UsageLimits)
    returns (a: Admission, checks: seq<Event>, attempted: bool)
    requires id.userId.Some?
    modifies store
    ensures AllChecks(checks) && (a.Admitted? ==> attempted)
    ensures AdmissionFrame(a, old(store.State()), store.State(), id)
    ensures a.Admitted? ==>
              && a.plan == PlanFor(input, id, env)
              && a.model == GetTextModel(a.plan.mode, a.plan.tier)
              && Price(env, ChatOp, a.plan.mode, a.plan.tier) == Ok(a.credits)
              && a.reserved.success
              && store.State() == Procedures.ReserveUser(old(store.State()), id.userId.value, requestId, ChatOp,
                                                         a.plan.mode, a.model, a.plan.tier, a.credits, env.now).0
    ensures Budget(env).Ok? && UsageRead !in env.faults
            && CountCommitted(old(store.State()).ledger, ByUser(id.userId.value), ChatOp, DayStart(env.now))
               >= limits.dailyMessages
            ==> a == Refused(JsonResponse(429, USER_LIMIT_PAYLOAD)) && !attempted
    ensures Budget(env).Err? ==> a == Refused(FailureResponse(FAILURE_CODE, Budget(env).message)) && !attempted
    ensures ReservedAsPlanned(a, attempted, old(store.State()), store.State(), input, id, env, requestId, limits)
  {
    attempted := false;
    var budget := Budget(env);
    if budget.Err? {
      return Refused(FailureResponse(FAILURE_CODE, budget.message)), [ReadBudget], false;
    }
    var daily := store.GetDailyChatUsageForUser(id.userId.value, env.now, FaultAt(env, UsageRead));
    if daily.Err? {
      return Refused(FailureResponse(FAILURE_CODE, daily.message)), [ReadBudget, CountUsage], false;
    }
    if daily.value >= limits.dailyMessages {
      return Refused(JsonResponse(429, USER_LIMIT_PAYLOAD)), [ReadBudget, CountUsage], false;
    }
    var plan := PlanChat(input.mode, input.deepDive, budget.value.withinCap);
    var model := GetTextModel(plan.mode, plan.tier);
    checks := [ReadBudget, CountUsage, QuotePrice];
    var price := Price(env, ChatOp, plan.mode, plan.tier);
    if price.Err? {
      a := Refused(FailureResponse(FAILURE_CODE, price.message));
      return;
    }
    attempted := true;
    a := ReserveChat(store, id, env, requestId, plan, model, price.value);
  }

  /**
   * The demo branch's reads after the limits: the price of the plan, the device's session (got,
   * created or reset) and the session's count for the day, which may refuse with 429.
   */
  method DemoReads(store: CreditStore, input: ChatInput, id: RequestIdentity, env: Env, limits: UsageLimits)
    returns (refusal: Option<Response>, checks: seq<Event>, credits: nat)
    requires id.userId.None?
    modifies store
    ensures AllChecks(checks)
    ensures refusal.Some? ==>
              && store.State().ledger == old(store.State()).ledger && store.State().wallets == old(store.State()).wallets
              && refusal.value.JsonResponse? && refusal.value.status in {429, 500}
    ensures refusal.None? ==>
              && store.State() == ReserveBase(old(store.State()), id, env.now)
              && Price(env, ChatOp, PlanFor(input, id, env).mode, PlanFor(input, id, env).tier) == Ok(credits)
    ensures DemoAtLimit(old(store.State()), input, id, env, limits) ==>
              refusal == Some(JsonResponse(429, DemoLimitPayload(FetchSession(old(store.State()), id.deviceFingerprint, env.now).1)))
    ensures ReadsPass(old(store.State()), input, id, env, limits) ==> refusal.None?
  {
    var plan := PlanChat(input.mode, input.deepDive, true);
    var price := Price(env, ChatOp, plan.mode, plan.tier);
    if price.Err? {
      return Some(FailureResponse(FAILURE_CODE, price.message)), [QuotePrice], 0;
    }
    credits := price.value;
    var session := store.GetOrCreateDemoSession(id.deviceFingerprint, env.now, FaultAt(env, SessionRead),
                                                FaultAt(env, SessionWrite));
    if session.Err? {
      return Some(FailureResponse(FAILURE_CODE, session.message)), [QuotePrice, GetSession], credits;
    }
    checks := [QuotePrice, GetSession, CountUsage];
    var daily := store.GetDailyChatUsageForDemo(session.value.id, env.now, FaultAt(env, UsageRead));
    if daily.Err? {
      refusal := Some(FailureResponse(FAILURE_CODE, daily.message));
    } else if daily.value >= limits.dailyMessages {
      refusal := Some(JsonResponse(429, DemoLimitPayload(session.value)));
    } else {
      refusal := None;
    }
  }

  /** The demo branch after the limits were read: its reads, then the device's reservation. */
  method AdmitDemo(store: CreditStore, input: ChatInput, id: RequestIdentity, env: Env, requestId: string,
                   limits: UsageLimits)
    returns (a: Admission, checks: seq<Event>, attempted: bool)
    requires id.userId.None?
    modifies store
    ensures AllChecks(checks) && (a.Admitted? ==> attempted)
    ensures AdmissionFrame(a, old(store.State()), store.State(), id)
    ensures a.Admitted? ==>
              && a.plan == PlanFor(input, id, env)
              && a.model == GetTextModel(a.plan.mode, a.plan.tier)
              && Price(env, ChatOp, a.plan.mode, a.plan.tier) == Ok(a.credits)
              && a.reserved.success
              && store.State()
                 == Procedures.ReserveDemo(FetchSession(old(store.State()), id.deviceFingerprint, env.now).0,
                                           id.deviceFingerprint, requestId, ChatOp, a.plan.mode, a.model,
                                           a.plan.tier, a.credits, false, env.now).0
    ensures DemoAtLimit(old(store.State()), input, id, env, limits) ==>
              a == Refused(JsonResponse(429, DemoLimitPayload(FetchSession(old(store.State()), id.deviceFingerprint, env.now).1)))
              && !attempted
    ensures ReservedAsPlanned(a, attempted, old(store.State()), store.State(), input, id, env, requestId, limits)
  {
    var refusal, credits;
    refusal, checks, credits := DemoReads(store, input, id, env, limits);
    if refusal.Some? {
      return Refused(refusal.value), checks, false;
    }
    attempted := true;
    var plan := PlanChat(input.mode, input.deepDive, true);
    a := ReserveChat(store, id, env, requestId, plan, GetTextModel(plan.mode, plan.tier), credits);
  }

  /**
   * Everything between the cache miss and the model call — the usage limits, then the user or the
   * demo branch. `checks` lists the reads made; `attempted` says whether a reservation was sent.
   */
  method Admit(store: CreditStore, input: ChatInput, id: RequestIdentity, env: Env, requestId: string)
    returns (a: Admission, checks: seq<Event>, attempted: bool)
    modifies store
    ensures AllChecks(checks) && (a.Admitted? ==> attempted)
    ensures AdmissionFrame(a, old(store.State()), store.State(), id)
    ensures Reversible(old(store.State()), store.State(), requestId)
    ensures a.Admitted? ==>
              && a.plan == PlanFor(input, id, env)
              && a.model == GetTextModel(a.plan.mode, a.plan.tier)
              && Price(env, ChatOp, a.plan.mode, a.plan.tier) == Ok(a.credits)
              && a.reserved.success
    ensures Limits(env).Err? ==> a == Refused(FailureResponse(FAILURE_CODE, Limits(env).message)) && !attempted
    ensures (id.userId.Some? && Limits(env).Ok? && Budget(env).Ok? && UsageRead !in env.faults
             && CountCommitted(old(store.State()).ledger, ByUser(id.userId.value), ChatOp, DayStart(env.now))
                >= Limits(env).value.dailyMessages)
            ==> a == Refused(JsonResponse(429, USER_LIMIT_PAYLOAD)) && !attempted
    ensures Limits(env).Ok? && DemoAtLimit(old(store.State()), input, id, env, Limits(env).value) ==>
              a == Refused(JsonResponse(429, DemoLimitPayload(FetchSession(old(store.State()), id.deviceFingerprint, env.now).1)))
              && !attempted
    ensures Limits(env).Ok? ==>
              ReservedAsPlanned(a, attempted, old(store.State()), store.State(), input, id, env, requestId, Limits(env).value)
  {
    ghost var t := store.State();
    var limits := Limits(env);
    if limits.Err? {
      UnchangedReversible(t, t, requestId);
      return Refused(FailureResponse(FAILURE_CODE, limits.message)), [ReadLimits], false;
    }
    var rest;
    if id.userId.Some? {
      a, rest, attempted := AdmitUser(store, input, id, env, requestId, limits.value);
      if a.Admitted? {
        UserReserveReversible(t, id.userId.value, requestId, ChatOp, a.plan.mode, a.model, a.plan.tier, a.credits, env.now);
      }
    } else {
      a, rest, attempted := AdmitDemo(store, input, id, env, requestId, limits.value);
      if a.Admitted? {
        DemoReserveReversible(FetchSession(t, id.deviceFingerprint, env.now).0, id.deviceFingerprint, requestId, ChatOp,
                              a.plan.mode, a.model, a.plan.tier, a.credits, false, env.now);
        ReversibleAfterFetch(t, id.deviceFingerprint, env.now, store.State(), requestId);
      }
    }
    if a.Refused? {
      UnchangedReversible(t, store.State(), requestId);
    }
    ChecksConcat([ReadLimits], rest);
    checks := [ReadLimits] + rest;
  }

  // ---- the handler ----

  /** The intake of a POST whose body passes the 400 checks, and none for any other request. */
  function ChatIntake(req: HttpRequest, env: Env): Option<Intake<ChatInput>> {
    if MethodGate(req.httpMethod, "POST").Some? then None
    else
      var body := ParsedBody(req, "mode");
      if body.Err? then None
      else
        var input := ValidateChat(body.value);
        if input.Err? then None
        else Some(IntakeOf(ENDPOINT, input.value, input.value.idempotencyKey, req, env))
  }

  /** The generation request of an intake, as planned. */
  function PlannedRequest(k: Intake<ChatInput>, env: Env, instruction: ChatMode -> string): GenRequest {
    ChatRequest(k.input, PlanFor(k.input, k.id, env), instruction)
  }

  /**
   * The handler after the intake: the replay check, the admission and the settle tail. Besides
   * what every handler promises, a user or a demo device at the daily limit gets its 429 with
   * nothing reserved, and a fresh 200 carries the model's answer with the plan, price and model of
   * the admission.
   */
  method ServeChat(cache: IdempotencyTable, store: CreditStore, k: Intake<ChatInput>, env: Env,
                 instruction: ChatMode -> string)
    returns (resp: Response, log: seq<Event>)
    modifies cache, store
    ensures Served(k, env, PlannedRequest(k, env, instruction), resp, log, old(store.State()), store.State(), old(cache.rows), cache.rows)
    ensures (k.id.userId.Some? && CacheRead !in env.faults && k.key !in old(cache.rows)
             && Limits(env).Ok? && Budget(env).Ok? && UsageRead !in env.faults
             && CountCommitted(old(store.State()).ledger, ByUser(k.id.userId.value), ChatOp, DayStart(env.now))
                >= Limits(env).value.dailyMessages)
            ==> resp == JsonResponse(429, USER_LIMIT_PAYLOAD) && AllChecks(log)
    ensures (CacheRead !in env.faults && k.key !in old(cache.rows)
             && Limits(env).Ok? && DemoAtLimit(old(store.State()), k.input, k.id, env, Limits(env).value))
            ==> resp == JsonResponse(429, DemoLimitPayload(FetchSession(old(store.State()), k.id.deviceFingerprint, env.now).1))
                && AllChecks(log)
    ensures FreshAnswer(k, env, instruction, resp, log)
    ensures CacheRead !in env.faults && k.key !in old(cache.rows) ==>
              Metered(k, env, instruction, old(store.State()), resp, log, store.State())
  {
    ghost var t := store.State();
    var hit := CheckReplay(cache, env, k.key, FAILURE_CODE);
    if hit.Some? {
      resp, log := hit.value, [Identify, CacheGet];
      assert forall i :: 0 <= i < |log| ==> !log[i].Reserve?;
      ReplayServed(k, env, PlannedRequest(k, env, instruction), resp, t, cache.rows);
      return;
    }
    resp, log := AnswerChat(cache, store, k, env, instruction);
  }

  /**
   * A fresh 200 (one after a granted reservation) carries the model's answer with the plan, the
   * price and the model of the admission; only the remaining balance is the reservation's.
   */
  ghost predicate FreshAnswer(k: Intake<ChatInput>, env: Env, instruction: ChatMode -> string, resp: Response, log: seq<Event>) {
    var plan := PlanFor(k.input, k.id, env);
    (Reserve(k.requestId, true) in log && resp.JsonResponse? && resp.status == 200) ==>
      && CallText(env.gen(PlannedRequest(k, env, instruction))).Ok?
      && Price(env, ChatOp, plan.mode, plan.tier).Ok?
      && exists remaining :: resp.payload == ChatPayload(CallText(env.gen(PlannedRequest(k, env, instruction))).value,
                                                         Price(env, ChatOp, plan.mode, plan.tier).value,
                                                         remaining, GetTextModel(plan.mode, plan.tier),
                                                         plan, k.id.isDemo)
  }

  /**
   * On a cache miss, when the limits and every read before the reservation pass and the
   * reservation call works: the request is granted exactly when the reservation row succeeds; a
   * refused row answers 402 with that row; a granted one answers 200 exactly when the model, the
   * commit and the cache write work and the commit is accepted, and an accepted commit records
   * the chat usage of the answer.
   */
  ghost predicate Metered(k: Intake<ChatInput>, env: Env, instruction: ChatMode -> string, t: Tables,
                          resp: Response, log: seq<Event>, t2: Tables) {
    Limits(env).Ok? && ReadsPass(t, k.input, k.id, env, Limits(env).value) && ReserveCall !in env.faults ==>
      var plan := PlanFor(k.input, k.id, env);
      var (t1, row) := ChatReservation(t, k.input, k.id, env, k.requestId, Price(env, ChatOp, plan.mode, plan.tier).value);
      AfterReserve(env, k.requestId, t1, row, JsonResponse(402, RefusalPayload(row, k.id.isDemo)),
                   PlannedRequest(k, env, instruction), CallText, ChatUsage, resp, log, t2)
  }

  /** The handler after a cache miss: the admission, then a refusal or the admitted branch. */
  method AnswerChat(cache: IdempotencyTable, store: CreditStore, k: Intake<ChatInput>, env: Env,
                 instruction: ChatMode -> string)
    returns (resp: Response, log: seq<Event>)
    requires !(CacheRead !in env.faults && k.key in cache.rows)
    modifies cache, store
    ensures Served(k, env, PlannedRequest(k, env, instruction), resp, log, old(store.State()), store.State(), old(cache.rows), cache.rows)
    ensures (k.id.userId.Some? && Limits(env).Ok? && Budget(env).Ok? && UsageRead !in env.faults
             && CountCommitted(old(store.State()).ledger, ByUser(k.id.userId.value), ChatOp, DayStart(env.now))
                >= Limits(env).value.dailyMessages)
            ==> resp == JsonResponse(429, USER_LIMIT_PAYLOAD) && AllChecks(log)
    ensures Limits(env).Ok? && DemoAtLimit(old(store.State()), k.input, k.id, env, Limits(env).value) ==>
              resp == JsonResponse(429, DemoLimitPayload(FetchSession(old(store.State()), k.id.deviceFingerprint, env.now).1))
              && AllChecks(log)
    ensures FreshAnswer(k, env, instruction, resp, log)
    ensures Metered(k, env, instruction, old(store.State()), resp, log, store.State())
  {
    ghost var t := store.State();
    var a, checks, attempted := Admit(store, k.input, k.id, env, k.requestId);
    if a.Refused? {
      resp := a.response;
      log := if attempted then [Identify, CacheGet] + checks + [Reserve(k.requestId, false)] else [Identify, CacheGet] + checks;
      RefusedServed(k, env, PlannedRequest(k, env, instruction), resp, checks, attempted, t, store.State(), cache.rows);
      return;
    }
    resp, log := ChargeChat(cache, store, k, env, instruction, a, checks, t);
    if resp.JsonResponse? && resp.status == 200 {
      ghost var plan := PlanFor(k.input, k.id, env);
      assert plan == a.plan && GetTextModel(plan.mode, plan.tier) == a.model;
      assert Price(env, ChatOp, plan.mode, plan.tier).value == a.credits;
      assert resp.payload == ChatPayload(CallText(env.gen(PlannedRequest(k, env, instruction))).value, a.credits,
                                         a.reserved.creditsRemaining, a.model, plan, k.id.isDemo);
    }
  }

  /** The admitted branch: the model call, the commit, the cache write and the answer. */
  method ChargeChat(cache: IdempotencyTable, store: CreditStore, k: Intake<ChatInput>, env: Env,
                    instruction: ChatMode -> string, a: Admission,
                    checks: seq<Event>, ghost t: Tables)
    returns (resp: Response, log: seq<Event>)
    requires !(CacheRead !in env.faults && k.key in cache.rows)
    requires AllChecks(checks) && Reversible(t, store.State(), k.requestId)
    requires a.Admitted? && a.plan == PlanFor(k.input, k.id, env) && a.model == GetTextModel(a.plan.mode, a.plan.tier)
    requires Price(env, ChatOp, a.plan.mode, a.plan.tier) == Ok(a.credits)
    modifies cache, store
    ensures Served(k, env, PlannedRequest(k, env, instruction), resp, log, t, store.State(), old(cache.rows), cache.rows)
    ensures Reserve(k.requestId, true) in log
    ensures resp.JsonResponse? && resp.status == 200 ==>
              && CallText(env.gen(PlannedRequest(k, env, instruction))).Ok?
              && resp.payload == ChatPayload(CallText(env.gen(PlannedRequest(k, env, instruction))).value, a.credits,
                                             a.reserved.creditsRemaining, a.model, a.plan, k.id.isDemo)
    ensures SettledFrom(env, k.requestId, old(store.State()), PlannedRequest(k, env, instruction), CallText, ChatUsage,
                        resp, log, store.State())
  {
    resp, log := SettleServed(cache, store, env, k, checks, t, ROLLBACK_REASON, FAILURE_CODE, PlannedRequest(k, env, instruction),
                              CallText, ChatUsage,
                              r => ChatPayload(r, a.credits, a.reserved.creditsRemaining, a.model, a.plan, k.id.isDemo));
  }

  /**
   * The `ai-chat` handler. Requests rejected before the identity is resolved read and change
   * nothing; every other request is served as above.
   */
  method HandleChat(cache: IdempotencyTable, store: CreditStore, req: HttpRequest, env: Env)
    returns (resp: Response, log: seq<Event>)
    modifies cache, store
    ensures MethodGate(req.httpMethod, "POST").Some? ==> resp == MethodGate(req.httpMethod, "POST").value
    ensures MethodGate(req.httpMethod, "POST").None? && ParsedBody(req, "mode").Err? ==>
              resp == FailureResponse(FAILURE_CODE, ParsedBody(req, "mode").message)
    ensures (MethodGate(req.httpMethod, "POST").None? && ParsedBody(req, "mode").Ok?
             && ValidateChat(ParsedBody(req, "mode").value).Err?)
            ==> resp == ErrorResponse(400, ValidateChat(ParsedBody(req, "mode").value).message)
    ensures ChatIntake(req, env).None? ==> log == [] && unchanged(cache, store)
    ensures ChatIntake(req, env).Some? ==>
              var k := ChatIntake(req, env).value;
              Served(k, env, PlannedRequest(k, env, BuildSystemInstruction), resp, log, old(store.State()), store.State(),
                     old(cache.rows), cache.rows)
    ensures ChatIntake(req, env).Some? ==> FreshAnswer(ChatIntake(req, env).value, env, BuildSystemInstruction, resp, log)
    ensures ChatIntake(req, env).Some? ==>
              var k := ChatIntake(req, env).value;
              (k.id.userId.Some? && CacheRead !in env.faults && k.key !in old(cache.rows)
               && Limits(env).Ok? && Budget(env).Ok? && UsageRead !in env.faults
               && CountCommitted(old(store.State()).ledger, ByUser(k.id.userId.value), ChatOp, DayStart(env.now))
                  >= Limits(env).value.dailyMessages)
              ==> resp == JsonResponse(429, USER_LIMIT_PAYLOAD) && AllChecks(log)
    ensures ChatIntake(req, env).Some? ==>
              var k := ChatIntake(req, env).value;
              (CacheRead !in env.faults && k.key !in old(cache.rows)
               && Limits(env).Ok? && DemoAtLimit(old(store.State()), k.input, k.id, env, Limits(env).value))
              ==> resp == JsonResponse(429, DemoLimitPayload(FetchSession(old(store.State()), k.id.deviceFingerprint, env.now).1))
                  && AllChecks(log)
    ensures ChatIntake(req, env).Some? && CacheRead !in env.faults && ChatIntake(req, env).value.key !in old(cache.rows) ==>
              Metered(ChatIntake(req, env).value, env, BuildSystemInstruction, old(store.State()), resp, log, store.State())
  {
    var gate := MethodGate(req.httpMethod, "POST");
    if gate.Some? {
      return gate.value, [];
    }
    var body := ParsedBody(req, "mode");
    if body.Err? {
      return FailureResponse(FAILURE_CODE, body.message), [];
    }
    var input := ValidateChat(body.value);
    if input.Err? {
      return ErrorResponse(400, input.message), [];
    }
    resp, log := ServeChat(cache, store, IntakeOf(ENDPOINT, input.value, input.value.idempotencyKey, req, env), env,
                           BuildSystemInstruction);
  }
}
