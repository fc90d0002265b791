/**
 * The image handler (`ai-image/index.ts`): validate the prompt, replay a cached answer, price the
 * image, block users outside the soft cap or over the weekly image limit, reserve (credits for a
 * user, the session's image quota for a demo device), then generate, commit and save, rolling the
 * reservation back on any error after it was granted.
 */
module Image {
  import opened Outcome
  import opened Text
  import opened Json
  import opened Types
  import opened Identity
  import opened Idempotency
  import opened Store
  import opened Pricing
  import opened Gemini
  import opened Orchestration

  const ENDPOINT: string := "ai-image"
  const FAILURE_CODE: string := "AI_IMAGE_FAILED"
  const ROLLBACK_REASON: string := "GEMINI_IMAGE_ERROR"
  const SOFT_CAP_CODE: string := "SOFT_CAP_REACHED_IMAGE_BLOCKED"
  const WEEKLY_LIMIT_CODE: string := "WEEKLY_IMAGE_LIMIT_REACHED"

  // ---- body validation ----

  /** `isQuality`, with the default: only the exact string `high_quality` asks for the high tier. */
  function QualityOf(v: Option<Json>): (r: ModelTier)
    ensures r == HighQuality <==> v == Some(JStr("high_quality"))
    ensures r == Standard || r == HighQuality
  {
    if v == Some(JStr("high_quality")) then HighQuality else Standard
  }

  /** What the handler keeps of a valid body. */
  datatype ImageInput = ImageInput(prompt: string, idempotencyKey: string, quality: ModelTier)

  /** The two 400 checks, in order: the trimmed prompt, then the trimmed idempotency key. */
  function ValidateImage(body: Json): (r: Result<ImageInput>)
    ensures TrimmedField(body, "prompt") == "" ==> r == Err("EMPTY_PROMPT")
    ensures TrimmedField(body, "prompt") != "" && TrimmedField(body, "idempotencyKey") == "" ==>
              r == Err("MISSING_IDEMPOTENCY_KEY")
    ensures r.Ok? <==> TrimmedField(body, "prompt") != "" && TrimmedField(body, "idempotencyKey") != ""
    ensures r.Ok? ==> && r.value.prompt == TrimmedField(body, "prompt")
                      && r.value.idempotencyKey == TrimmedField(body, "idempotencyKey")
                      && r.value.quality == QualityOf(Field(body, "quality"))
  {
    var prompt := TrimmedField(body, "prompt");
    if prompt == "" then Err("EMPTY_PROMPT")
    else
      var key := TrimmedField(body, "idempotencyKey");
      if key == "" then Err("MISSING_IDEMPOTENCY_KEY")
      else Ok(ImageInput(prompt, key, QualityOf(Field(body, "quality"))))
  }

  /** The generation request: the prompt for the quality's image model. */
  function ImageRequestOf(input: ImageInput): (r: GenRequest)
    ensures r.ImageRequest? && r.model == GetImageModel(input.quality)
  {
    ImagePayload(GetImageModel(input.quality), input.prompt)
  }

  // ---- the answer ----

  /** What the commit records: the token counts, no grounded queries and one image. */
  function ImageUsage(r: ImageResult): (u: Usage)
    ensures u.tokensIn == r.usage.promptTokenCount && u.tokensOut == r.usage.candidatesTokenCount
    ensures u.groundedQueries == 0 && u.imageCount == 1
  {
    Usage(r.usage.promptTokenCount, r.usage.candidatesTokenCount, 0, 1)
  }

  /** The 200 payload. A demo device pays with its image quota, so it is charged 0 credits. */
  function ImageAnswer(r: ImageResult, credits: nat, reserved: ReserveResult, model: string, isDemo: bool): (p: Payload)
    ensures p.Keys == {"imageUrlOrBase64", "usage", "creditsCharged", "creditsRemaining", "imageQuotaRemaining",
                       "modelUsed", "modeUsed", "isDemo"}
    ensures p["imageUrlOrBase64"] == JStr(r.imageDataUrl)
    ensures p["creditsCharged"] == JInt(if isDemo then 0 else credits)
    ensures p["creditsRemaining"] == JInt(reserved.creditsRemaining)
    ensures p["imageQuotaRemaining"] == OptionalInt(reserved.imagesRemaining)
    ensures p["modelUsed"] == JStr(model) && p["modeUsed"] == JStr("visionary") && p["isDemo"] == JBool(isDemo)
  {
    map["imageUrlOrBase64" := JStr(r.imageDataUrl),
        "usage" := JObj(map["inputTokens" := JInt(r.usage.promptTokenCount),
                            "outputTokens" := JInt(r.usage.candidatesTokenCount),
                            "totalTokens" := JInt(r.usage.totalTokenCount),
                            "imageCount" := JInt(1)]),
        "creditsCharged" := JInt(if isDemo then 0 else credits),
        "creditsRemaining" := JInt(reserved.creditsRemaining),
        "imageQuotaRemaining" := OptionalInt(reserved.imagesRemaining),
        "modelUsed" := JStr(model),
        "modeUsed" := JStr("visionary"),
        "isDemo" := JBool(isDemo)]
  }

  // ---- limit checks and the reservation ----

  datatype Admission =
    | Refused(response: Response)
    | Admitted(model: string, credits: nat, reserved: ReserveResult)

  const SOFT_CAP_PAYLOAD: Payload := map["error" := JStr(SOFT_CAP_CODE), "creditsRemaining" := JNull]

  /** The 429 of a user at the weekly image limit. */
  function WeeklyLimitPayload(limit: int): (p: Payload)
    ensures p.Keys == {"error", "weeklyImageLimit", "imageQuotaRemaining"}
    ensures p["error"] == JStr(WEEKLY_LIMIT_CODE) && p["weeklyImageLimit"] == JInt(limit)
    ensures p["imageQuotaRemaining"] == JInt(0)
  {
    map["error" := JStr(WEEKLY_LIMIT_CODE), "weeklyImageLimit" := JInt(limit), "imageQuotaRemaining" := JInt(0)]
  }

  /** What every admission promises about the tables and the refusal it may answer with. */
  ghost predicate AdmissionFrame(a: Admission, t: Tables, t1: Tables, id: RequestIdentity) {
    a.Refused? ==> && t1.ledger == t.ledger && t1.wallets == t.wallets
                   && a.response.JsonResponse? && a.response.status in {402, 403, 429, 500}
                   && (a.response.status == 402 ==>
                         exists r: ReserveResult :: !r.success && a.response.payload == RefusalPayload(r, id.isDemo))
  }

  /**
   * Every read before an image reservation works and lets it through: the limits and the price,
   * and for a signed-in user the budget within the soft cap and the week's images below the limit.
   */
  predicate ReadsPass(t: Tables, input: ImageInput, id: RequestIdentity, env: Env) {
    && Limits(env).Ok? && Price(env, ImageOp, Visionary, input.quality).Ok?
    && (id.userId.Some? ==>
          && Budget(env).Ok? && Budget(env).value.withinCap && UsageRead !in env.faults
          && CountCommitted(t.ledger, ByUser(id.userId.value), ImageOp, WeekStart(env.now)) < Limits(env).value.weeklyImages)
  }

  /** A signed-in user whose limits and price are read, with a budget read over the soft cap. */
  predicate OverSoftCap(input: ImageInput, id: RequestIdentity, env: Env) {
    && id.userId.Some? && Limits(env).Ok? && Price(env, ImageOp, Visionary, input.quality).Ok?
    && Budget(env).Ok? && !Budget(env).value.withinCap
  }

  /** A signed-in user within the cap whose committed images this week already reach the limit. */
  predicate AtWeeklyLimit(t: Tables, input: ImageInput, id: RequestIdentity, env: Env) {
    && id.userId.Some? && Limits(env).Ok? && Price(env, ImageOp, Visionary, input.quality).Ok?
    && Budget(env).Ok? && Budget(env).value.withinCap && UsageRead !in env.faults
    && CountCommitted(t.ledger, ByUser(id.userId.value), ImageOp, WeekStart(env.now)) >= Limits(env).value.weeklyImages
  }

  /** The image reservation for `credits`, answered with its call working. */
  function ImageReservation(t: Tables, input: ImageInput, id: RequestIdentity, env: Env, requestId: string,
                            credits: nat): (Tables, ReserveResult) {
    Reservation(t, id, requestId, ImageOp, Visionary, GetImageModel(input.quality), input.quality, credits, true, env.now)
  }

  /** The reservation call of either kind, and the 402 of a refused one. */
  method ReserveImage(store: CreditStore, input: ImageInput, id: RequestIdentity, env: Env, requestId: string,
                      credits: nat)
    returns (a: Admission)
    modifies store
    ensures AdmissionFrame(a, old(store.State()), store.State(), id)
    ensures Reversible(old(store.State()), store.State(), requestId)
    ensures a.Admitted? ==> a.model == GetImageModel(input.quality) && a.credits == credits && a.reserved.success
    ensures ReserveCall in env.faults ==>
              a.Refused? && a.response.JsonResponse? && a.response.status == 500 && store.State() == old(store.State())
    ensures ReserveCall !in env.faults ==>
              var (t1, row) := ImageReservation(old(store.State()), input, id, env, requestId, credits);
              && store.State() == t1
              && (a.Admitted? <==> row.success)
              && (a.Admitted? ==> a.reserved == row)
              && (a.Refused? ==> a.response == JsonResponse(402, RefusalPayload(row, id.isDemo)))
  {
    ghost var t := store.State();
    var model := GetImageModel(input.quality);
    var reserved;
    if id.userId.Some? {
      reserved := store.ReserveUserCredits(id.userId.value, requestId, ImageOp, Visionary, model, input.quality,
                                           credits, env.now, FaultAt(env, ReserveCall));
      UserReserveReversible(t, id.userId.value, requestId, ImageOp, Visionary, model, input.quality, credits, env.now);
    } else {
      reserved := store.ReserveDemoCredits(id.deviceFingerprint, requestId, ImageOp, Visionary, model, input.quality,
                                           credits, true, env.now, FaultAt(env, ReserveCall));
      DemoReserveReversible(t, id.deviceFingerprint, requestId, ImageOp, Visionary, model, input.quality, credits,
                            true, env.now);
    }
    if reserved.Err? {
      a := Refused(FailureResponse(FAILURE_CODE, reserved.message));
    } else if !reserved.value.success {
      a := Refused(JsonResponse(402, RefusalPayload(reserved.value, id.isDemo)));
    } else {
      a := Admitted(model, credits, reserved.value);
    }
    if a.Refused? {
      UnchangedReversible(t, store.State(), requestId);
    }
  }

  /**
   * The checks only a signed-in user meets, after the limits and the price: the budget, refused
   * with 403 over the soft cap, then the week's image count, refused with 429 at the limit.
   */
  method UserChecks(store: CreditStore, userId: string, weeklyImages: int, env: Env)
    returns (refusal: Option<Response>, checks: seq<Event>)
    ensures checks == [ReadBudget] || checks == [ReadBudget, CountUsage]
    ensures refusal.Some? ==> refusal.value.JsonResponse? && refusal.value.status in {403, 429, 500}
    ensures Budget(env).Err? ==> refusal == Some(FailureResponse(FAILURE_CODE, Budget(env).message))
    ensures Budget(env).Ok? && !Budget(env).value.withinCap ==> refusal == Some(JsonResponse(403, SOFT_CAP_PAYLOAD))
    ensures (Budget(env).Ok? && Budget(env).value.withinCap && UsageRead in env.faults) ==>
              refusal == Some(FailureResponse(FAILURE_CODE, "Unable to compute weekly image usage: " + env.faults[UsageRead]))
    ensures (Budget(env).Ok? && Budget(env).value.withinCap && UsageRead !in env.faults) ==>
              && (refusal.Some? <==> CountCommitted(store.ledger, ByUser(userId), ImageOp, WeekStart(env.now)) >= weeklyImages)
              && (refusal.Some? ==> refusal == Some(JsonResponse(429, WeeklyLimitPayload(weeklyImages))))
  {
    var budget := Budget(env);
    if budget.Err? {
      return Some(FailureResponse(FAILURE_CODE, budget.message)), [ReadBudget];
    }
    if !budget.value.withinCap {
      return Some(JsonResponse(403, SOFT_CAP_PAYLOAD)), [ReadBudget];
    }
    checks := [ReadBudget, CountUsage];
    var weekly := store.GetWeeklyImageUsage(userId, env.now, FaultAt(env, UsageRead));
    if weekly.Err? {
      return Some(FailureResponse(FAILURE_CODE, weekly.message)), checks;
    }
    if weekly.value >= weeklyImages {
      return Some(JsonResponse(429, WeeklyLimitPayload(weeklyImages))), checks;
    }
    refusal := None;
  }

  /**
   * The reads before the reservation: the usage limits, the price of the quality, and the checks
   * of a signed-in user. No refusal means the request may reserve `credits`.
   */
  method Screen(store: CreditStore, input: ImageInput, id: RequestIdentity, env: Env)
    returns (refusal: Option<Response>, credits: nat, checks: seq<Event>)
    ensures AllChecks(checks)
    ensures refusal.Some? ==> refusal.value.JsonResponse? && refusal.value.status in {403, 429, 500}
    ensures refusal.None? ==> Price(env, ImageOp, Visionary, input.quality) == Ok(credits)
    ensures refusal.None? <==> ReadsPass(store.State(), input, id, env)
    ensures Limits(env).Err? ==> refusal == Some(FailureResponse(FAILURE_CODE, Limits(env).message))
    ensures (Limits(env).Ok? && Price(env, ImageOp, Visionary, input.quality).Err?) ==>
              refusal == Some(FailureResponse(FAILURE_CODE, Price(env, ImageOp, Visionary, input.quality).message))
    ensures (id.userId.Some? && Limits(env).Ok? && Price(env, ImageOp, Visionary, input.quality).Ok?
             && Budget(env).Ok? && !Budget(env).value.withinCap)
            ==> refusal == Some(JsonResponse(403, SOFT_CAP_PAYLOAD))
    ensures (id.userId.Some? && Limits(env).Ok? && Price(env, ImageOp, Visionary, input.quality).Ok?
             && Budget(env).Ok? && Budget(env).value.withinCap && UsageRead !in env.faults
             && CountCommitted(store.ledger, ByUser(id.userId.value), ImageOp, WeekStart(env.now))
                >= Limits(env).value.weeklyImages)
            ==> refusal == Some(JsonResponse(429, WeeklyLimitPayload(Limits(env).value.weeklyImages)))
  {
    credits := 0;
    var limits := Limits(env);
    if limits.Err? {
      return Some(FailureResponse(FAILURE_CODE, limits.message)), 0, [ReadLimits];
    }
    var price := Price(env, ImageOp, Visionary, input.quality);
    if price.Err? {
      return Some(FailureResponse(FAILURE_CODE, price.message)), 0, [ReadLimits, QuotePrice];
    }
    checks := [ReadLimits, QuotePrice];
    credits := price.value;
    refusal := None;
    if id.userId.Some? {
      var more;
      refusal, more := UserChecks(store, id.userId.value, limits.value.weeklyImages, env);
      checks := checks + more;
    }
  }

  /** Everything between the cache miss and the model call — the reads, then the reservation. */
  method Admit(store: CreditStore, input: ImageInput, id: RequestIdentity, env: Env, requestId: string)
    returns (a: Admission, checks: seq<Event>, attempted: bool)
    modifies store
    ensures AllChecks(checks) && (a.Admitted? ==> attempted)
    ensures AdmissionFrame(a, old(store.State()), store.State(), id)
    ensures Reversible(old(store.State()), store.State(), requestId)
    ensures a.Admitted? ==>
              && a.model == GetImageModel(input.quality)
              && Price(env, ImageOp, Visionary, input.quality) == Ok(a.credits)
              && a.reserved.success
    ensures Limits(env).Err? ==> a == Refused(FailureResponse(FAILURE_CODE, Limits(env).message)) && !attempted
    ensures (id.userId.Some? && Limits(env).Ok? && Price(env, ImageOp, Visionary, input.quality).Ok?
             && Budget(env).Ok? && !Budget(env).value.withinCap)
            ==> a == Refused(JsonResponse(403, SOFT_CAP_PAYLOAD)) && !attempted
    ensures (id.userId.Some? && Limits(env).Ok? && Price(env, ImageOp, Visionary, input.quality).Ok?
             && Budget(env).Ok? && Budget(env).value.withinCap && UsageRead !in env.faults
             && CountCommitted(old(store.State()).ledger, ByUser(id.userId.value), ImageOp, WeekStart(env.now))
                >= Limits(env).value.weeklyImages)
            ==> a == Refused(JsonResponse(429, WeeklyLimitPayload(Limits(env).value.weeklyImages))) && !attempted
    ensures ReadsPass(old(store.State()), input, id, env) && ReserveCall !in env.faults ==>
              var (t1, row) := ImageReservation(old(store.State()), input, id, env, requestId,
                                                Price(env, ImageOp, Visionary, input.quality).value);
              && attempted && store.State() == t1
              && (a.Admitted? <==> row.success)
              && (a.Admitted? ==> a.reserved == row)
              && (a.Refused? ==> a.response == JsonResponse(402, RefusalPayload(row, id.isDemo)))
  {
    var refusal, credits;
    refusal, credits, checks := Screen(store, input, id, env);
    if refusal.Some? {
      UnchangedReversible(store.State(), store.State(), requestId);
      return Refused(refusal.value), checks, false;
    }
    attempted := true;
    a := ReserveImage(store, input, id, env, requestId, credits);
  }

  // ---- the handler ----

  /** The intake of a POST whose body passes the 400 checks, and none for any other request. */
  function ImageIntake(req: HttpRequest, env: Env): Option<Intake<ImageInput>> {
    if MethodGate(req.httpMethod, "POST").Some? then None
    else
      var body := ParsedBody(req, "prompt");
      if body.Err? then None
      else
        var input := ValidateImage(body.value);
        if input.Err? then None
        else Some(IntakeOf(ENDPOINT, input.value, input.value.idempotencyKey, req, env))
  }

  /**
   * A fresh 200 (one after a granted reservation) carries the generated image, the price (0 for a
   * demo device) and the quality's model; only the remaining balances are the reservation's.
   */
  ghost predicate FreshAnswer(k: Intake<ImageInput>, env: Env, resp: Response, log: seq<Event>) {
    (Reserve(k.requestId, true) in log && resp.JsonResponse? && resp.status == 200) ==>
      && CallImage(env.gen(ImageRequestOf(k.input))).Ok?
      && Price(env, ImageOp, Visionary, k.input.quality).Ok?
      && exists reserved :: resp.payload == ImageAnswer(CallImage(env.gen(ImageRequestOf(k.input))).value,
                                                        Price(env, ImageOp, Visionary, k.input.quality).value,
                                                        reserved, GetImageModel(k.input.quality), k.id.isDemo)
  }

  /**
   * On a cache miss, when every read before the reservation passes and the reservation call
   * works: the request is granted exactly when the reservation row succeeds; a refused row
   * answers 402 with that row; a granted one answers 200 exactly when the model, the commit and
   * the cache write work and the commit is accepted, and an accepted commit records one image.
   */
  ghost predicate Metered(k: Intake<ImageInput>, env: Env, t: Tables, resp: Response, log: seq<Event>, t2: Tables) {
    ReadsPass(t, k.input, k.id, env) && ReserveCall !in env.faults ==>
      var (t1, row) := ImageReservation(t, k.input, k.id, env, k.requestId,
                                        Price(env, ImageOp, Visionary, k.input.quality).value);
      AfterReserve(env, k.requestId, t1, row, JsonResponse(402, RefusalPayload(row, k.id.isDemo)),
                   ImageRequestOf(k.input), CallImage, ImageUsage, resp, log, t2)
  }

  /** The handler after the intake: the replay check, then the admission and the settle tail. */
  method ServeImage(cache: IdempotencyTable, store: CreditStore, k: Intake<ImageInput>, env: Env)
    returns (resp: Response, log: seq<Event>)
    modifies cache, store
    ensures Served(k, env, ImageRequestOf(k.input), resp, log, old(store.State()), store.State(), old(cache.rows), cache.rows)
    ensures FreshAnswer(k, env, resp, log)
    ensures CacheRead !in env.faults && k.key !in old(cache.rows) ==>
              Metered(k, env, old(store.State()), resp, log, store.State())
    ensures CacheRead !in env.faults && k.key !in old(cache.rows) && OverSoftCap(k.input, k.id, env) ==>
              resp == JsonResponse(403, SOFT_CAP_PAYLOAD) && AllChecks(log)
    ensures CacheRead !in env.faults && k.key !in old(cache.rows) && AtWeeklyLimit(old(store.State()), k.input, k.id, env) ==>
              resp == JsonResponse(429, WeeklyLimitPayload(Limits(env).value.weeklyImages)) && AllChecks(log)
  {
    ghost var t := store.State();
    var hit := CheckReplay(cache, env, k.key, FAILURE_CODE);
    if hit.Some? {
      resp, log := hit.value, [Identify, CacheGet];
      assert forall i :: 0 <= i < |log| ==> !log[i].Reserve?;
      ReplayServed(k, env, ImageRequestOf(k.input), resp, t, cache.rows);
      return;
    }
    resp, log := AnswerImage(cache, store, k, env);
  }

  /** The handler after a cache miss: the admission, then a refusal or the admitted branch. */
  method AnswerImage(cache: IdempotencyTable, store: CreditStore, k: Intake<ImageInput>, env: Env)
    returns (resp: Response, log: seq<Event>)
    requires !(CacheRead !in env.faults && k.key in cache.rows)
    modifies cache, store
    ensures Served(k, env, ImageRequestOf(k.input), resp, log, old(store.State()), store.State(), old(cache.rows), cache.rows)
    ensures FreshAnswer(k, env, resp, log)
    ensures Metered(k, env, old(store.State()), resp, log, store.State())
    ensures OverSoftCap(k.input, k.id, env) ==> resp == JsonResponse(403, SOFT_CAP_PAYLOAD) && AllChecks(log)
    ensures AtWeeklyLimit(old(store.State()), k.input, k.id, env) ==>
              resp == JsonResponse(429, WeeklyLimitPayload(Limits(env).value.weeklyImages)) && AllChecks(log)
  {
    ghost var t := store.State();
    var a, checks, attempted := Admit(store, k.input, k.id, env, k.requestId);
    if a.Refused? {
      resp := a.response;
      log := if attempted then [Identify, CacheGet] + checks + [Reserve(k.requestId, false)] else [Identify, CacheGet] + checks;
      RefusedServed(k, env, ImageRequestOf(k.input), resp, checks, attempted, t, store.State(), cache.rows);
      return;
    }
    resp, log := ChargeImage(cache, store, k, env, a, checks, t);
  }

  /** The admitted branch: the model call, the commit, the cache write and the answer. */
  method ChargeImage(cache: IdempotencyTable, store: CreditStore, k: Intake<ImageInput>, env: Env, a: Admission,
                     checks: seq<Event>, ghost t: Tables)
    returns (resp: Response, log: seq<Event>)
    requires !(CacheRead !in env.faults && k.key in cache.rows)
    requires AllChecks(checks) && Reversible(t, store.State(), k.requestId)
    requires a.Admitted? && a.model == GetImageModel(k.input.quality)
    requires Price(env, ImageOp, Visionary, k.input.quality) == Ok(a.credits)
    modifies cache, store
    ensures Served(k, env, ImageRequestOf(k.input), resp, log, t, store.State(), old(cache.rows), cache.rows)
    ensures FreshAnswer(k, env, resp, log)
    ensures Reserve(k.requestId, true) in log
    ensures SettledFrom(env, k.requestId, old(store.State()), ImageRequestOf(k.input), CallImage, ImageUsage,
                        resp, log, store.State())
  {
    resp, log := SettleServed(cache, store, env, k, checks, t, ROLLBACK_REASON, FAILURE_CODE, ImageRequestOf(k.input),
                              CallImage, ImageUsage, r => ImageAnswer(r, a.credits, a.reserved, a.model, k.id.isDemo));
    if resp.JsonResponse? && resp.status == 200 {
      assert resp.payload == ImageAnswer(CallImage(env.gen(ImageRequestOf(k.input))).value, a.credits, a.reserved,
                                         a.model, k.id.isDemo);
    }
  }

  /**
   * The `ai-image` handler. Requests rejected before the identity is resolved read and change
   * nothing; on a cache miss an admitted request is generated, committed and saved.
   */
  method HandleImage(cache: IdempotencyTable, store: CreditStore, req: HttpRequest, env: Env)
    returns (resp: Response, log: seq<Event>)
    modifies cache, store
    ensures MethodGate(req.httpMethod, "POST").Some? ==> resp == MethodGate(req.httpMethod, "POST").value
    ensures MethodGate(req.httpMethod, "POST").None? && ParsedBody(req, "prompt").Err? ==>
              resp == FailureResponse(FAILURE_CODE, ParsedBody(req, "prompt").message)
    ensures (MethodGate(req.httpMethod, "POST").None? && ParsedBody(req, "prompt").Ok?
             && ValidateImage(ParsedBody(req, "prompt").value).Err?)
            ==> resp == ErrorResponse(400, ValidateImage(ParsedBody(req, "prompt").value).message)
    ensures ImageIntake(req, env).None? ==> log == [] && unchanged(cache, store)
    ensures ImageIntake(req, env).Some? ==>
              var k := ImageIntake(req, env).value;
              Served(k, env, ImageRequestOf(k.input), resp, log, old(store.State()), store.State(), old(cache.rows), cache.rows)
    ensures ImageIntake(req, env).Some? ==> FreshAnswer(ImageIntake(req, env).value, env, resp, log)
    ensures ImageIntake(req, env).Some? && CacheRead !in env.faults && ImageIntake(req, env).value.key !in old(cache.rows) ==>
              Metered(ImageIntake(req, env).value, env, old(store.State()), resp, log, store.State())
    ensures ImageIntake(req, env).Some? ==>
              var k := ImageIntake(req, env).value;
              && (CacheRead !in env.faults && k.key !in old(cache.rows) && OverSoftCap(k.input, k.id, env) ==>
                    resp == JsonResponse(403, SOFT_CAP_PAYLOAD) && AllChecks(log))
              && (CacheRead !in env.faults && k.key !in old(cache.rows) && AtWeeklyLimit(old(store.State()), k.input, k.id, env) ==>
                    resp == JsonResponse(429, WeeklyLimitPayload(Limits(env).value.weeklyImages)) && AllChecks(log))
  {
    var gate := MethodGate(req.httpMethod, "POST");
    if gate.Some? {
      return gate.value, [];
    }
    var body := ParsedBody(req, "prompt");
    if body.Err? {
      return FailureResponse(FAILURE_CODE, body.message), [];
    }
    var input := ValidateImage(body.value);
    if input.Err? {
      return ErrorResponse(400, input.message), [];
    }
    resp, log := ServeImage(cache, store, IntakeOf(ENDPOINT, input.value, input.value.idempotencyKey, req, env), env);
  }
}
