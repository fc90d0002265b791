/**
 * The audio handler (`ai-audio/index.ts`): validate the text, replay a cached answer, price the
 * narration as a mentor chat on the stable tier, reserve, then synthesise, commit and save,
 * rolling the reservation back on any error after it was granted. No usage limit is read.
 */
module Audio {
  import opened Outcome
  import opened Text
  import opened Json
  import opened Types
  import opened Config
  import opened Identity
  import opened Idempotency
  import opened Store
  import opened Pricing
  import opened Gemini
  import opened Orchestration

  const ENDPOINT: string := "ai-audio"
  const FAILURE_CODE: string := "AI_AUDIO_FAILED"
  const ROLLBACK_REASON: string := "GEMINI_AUDIO_ERROR"

  // ---- body validation ----

  /** What the handler keeps of a valid body; `voiceName` is passed on as sent. */
  datatype AudioInput = AudioInput(text: string, idempotencyKey: string, voiceName: Option<Json>)

  /** The two 400 checks, in order: the trimmed text, then the trimmed idempotency key. */
  function ValidateAudio(body: Json): (r: Result<AudioInput>)
    ensures TrimmedField(body, "text") == "" ==> r == Err("EMPTY_TEXT")
    ensures TrimmedField(body, "text") != "" && TrimmedField(body, "idempotencyKey") == "" ==>
              r == Err("MISSING_IDEMPOTENCY_KEY")
    ensures r.Ok? <==> TrimmedField(body, "text") != "" && TrimmedField(body, "idempotencyKey") != ""
    ensures r.Ok? ==> && r.value.text == TrimmedField(body, "text")
                      && r.value.idempotencyKey == TrimmedField(body, "idempotencyKey")
                      && r.value.voiceName == Field(body, "voiceName")
  {
    var text := TrimmedField(body, "text");
    var key := TrimmedField(body, "idempotencyKey");
    if text == "" then Err("EMPTY_TEXT")
    else if key == "" then Err("MISSING_IDEMPOTENCY_KEY")
    else Ok(AudioInput(text, key, Field(body, "voiceName")))
  }

  /** The generation request: the text for the speech model, with the requested voice. */
  function AudioRequestOf(input: AudioInput): (r: GenRequest)
    ensures r.AudioRequest? && r.model == TTS_MODEL && r.modalities == ["AUDIO"]
  {
    AudioPayload(TTS_MODEL, input.text, input.voiceName)
  }

  // ---- the answer ----

  /** What the commit records: the token counts, no grounded queries and no image. */
  function AudioUsage(r: AudioResult): (u: Usage)
    ensures u.tokensIn == r.usage.promptTokenCount && u.tokensOut == r.usage.candidatesTokenCount
    ensures u.groundedQueries == 0 && u.imageCount == 0
  {
    Usage(r.usage.promptTokenCount, r.usage.candidatesTokenCount, 0, 0)
  }

  /** The 200 payload: the audio, its MIME type, the token counts and the charge. */
  function AudioAnswer(r: AudioResult, credits: nat, remaining: int): (p: Payload)
    ensures p.Keys == {"audioBase64", "mimeType", "usage", "creditsCharged", "creditsRemaining", "modelUsed"}
    ensures p["audioBase64"] == JStr(r.audioBase64) && p["mimeType"] == JStr(r.mimeType)
    ensures p["creditsCharged"] == JInt(credits) && p["creditsRemaining"] == JInt(remaining)
    ensures p["modelUsed"] == JStr(TTS_MODEL)
  {
    map["audioBase64" := JStr(r.audioBase64),
        "mimeType" := JStr(r.mimeType),
        "usage" := JObj(map["inputTokens" := JInt(r.usage.promptTokenCount),
                            "outputTokens" := JInt(r.usage.candidatesTokenCount),
                            "totalTokens" := JInt(r.usage.totalTokenCount)]),
        "creditsCharged" := JInt(credits),
        "creditsRemaining" := JInt(remaining),
        "modelUsed" := JStr(TTS_MODEL)]
  }

  /** The 402 of a refused reservation: unlike chat and image, no image quota and no demo flag. */
  function AudioRefusal(r: ReserveResult): (p: Payload)
    ensures p.Keys == {"error", "creditsRemaining"}
    ensures p["error"] == JStr(if r.errorCode.Some? then r.errorCode.value else "INSUFFICIENT_CREDITS")
    ensures p["creditsRemaining"] == JInt(r.creditsRemaining)
  {
    map["error" := JStr(if r.errorCode.Some? then r.errorCode.value else "INSUFFICIENT_CREDITS"),
        "creditsRemaining" := JInt(r.creditsRemaining)]
  }

  // ---- the reservation ----

  datatype Admission =
    | Refused(response: Response)
    | Admitted(credits: nat, reserved: ReserveResult)

  /** What every admission promises about the tables and the refusal it may answer with. */
  ghost predicate AdmissionFrame(a: Admission, t: Tables, t1: Tables) {
    a.Refused? ==> && t1.ledger == t.ledger && t1.wallets == t.wallets
                   && a.response.JsonResponse? && a.response.status in {402, 500}
                   && (a.response.status == 402 ==>
                         exists r: ReserveResult :: !r.success && a.response.payload == AudioRefusal(r))
  }

  /** The narration's reservation for `credits`, priced as a mentor chat on the stable tier, answered with its call working. */
  function AudioReservation(t: Tables, id: RequestIdentity, env: Env, requestId: string, credits: nat)
    : (Tables, ReserveResult) {
    Reservation(t, id, requestId, ChatOp, Mentor, TTS_MODEL, Stable, credits, false, env.now)
  }

  /** Everything between the cache miss and the model call — the price, then the reservation. */
  method Admit(store: CreditStore, id: RequestIdentity, env: Env, requestId: string)
    returns (a: Admission, checks: seq<Event>, attempted: bool)
    modifies store
    ensures AllChecks(checks) && (a.Admitted? ==> attempted)
    ensures AdmissionFrame(a, old(store.State()), store.State())
    ensures Reversible(old(store.State()), store.State(), requestId)
    ensures a.Admitted? ==> Price(env, ChatOp, Mentor, Stable) == Ok(a.credits) && a.reserved.success
    ensures Price(env, ChatOp, Mentor, Stable).Err? ==>
              a == Refused(FailureResponse(FAILURE_CODE, Price(env, ChatOp, Mentor, Stable).message)) && !attempted
    ensures Price(env, ChatOp, Mentor, Stable).Ok? && ReserveCall in env.faults ==>
              a.Refused? && a.response.JsonResponse? && a.response.status == 500 && store.State() == old(store.State())
    ensures Price(env, ChatOp, Mentor, Stable).Ok? && ReserveCall !in env.faults ==>
              var (t1, row) := AudioReservation(old(store.State()), id, env, requestId, Price(env, ChatOp, Mentor, Stable).value);
              && attempted && store.State() == t1
              && (a.Admitted? <==> row.success)
              && (a.Admitted? ==> a.reserved == row)
              && (a.Refused? ==> a.response == JsonResponse(402, AudioRefusal(row)))
  {
    ghost var t := store.State();
    checks := [QuotePrice];
    var price := Price(env, ChatOp, Mentor, Stable);
    if price.Err? {
      UnchangedReversible(t, t, requestId);
      return Refused(FailureResponse(FAILURE_CODE, price.message)), checks, false;
    }
    attempted := true;
    var reserved;
    if id.userId.Some? {
      reserved := store.ReserveUserCredits(id.userId.value, requestId, ChatOp, Mentor, TTS_MODEL, Stable,
                                           price.value, env.now, FaultAt(env, ReserveCall));
      UserReserveReversible(t, id.userId.value, requestId, ChatOp, Mentor, TTS_MODEL, Stable, price.value, env.now);
    } else {
      reserved := store.ReserveDemoCredits(id.deviceFingerprint, requestId, ChatOp, Mentor, TTS_MODEL, Stable,
                                           price.value, false, env.now, FaultAt(env, ReserveCall));
      DemoReserveReversible(t, id.deviceFingerprint, requestId, ChatOp, Mentor, TTS_MODEL, Stable, price.value,
                            false, env.now);
    }
    if reserved.Err? {
      a := Refused(FailureResponse(FAILURE_CODE, reserved.message));
    } else if !reserved.value.success {
      a := Refused(JsonResponse(402, AudioRefusal(reserved.value)));
    } else {
      a := Admitted(price.value, reserved.value);
    }
    if a.Refused? {
      UnchangedReversible(t, store.State(), requestId);
    }
  }

  // ---- the handler ----

  /** The intake of a POST whose body passes the 400 checks, and none for any other request. */
  function AudioIntake(req: HttpRequest, env: Env): Option<Intake<AudioInput>> {
    if MethodGate(req.httpMethod, "POST").Some? then None
    else
      var body := ParsedBody(req, "text");
      if body.Err? then None
      else
        var input := ValidateAudio(body.value);
        if input.Err? then None
        else Some(IntakeOf(ENDPOINT, input.value, input.value.idempotencyKey, req, env))
  }

  /** A fresh 200 (one after a granted reservation) carries the narration and the price. */
  ghost predicate FreshAnswer(k: Intake<AudioInput>, env: Env, resp: Response, log: seq<Event>) {
    (Reserve(k.requestId, true) in log && resp.JsonResponse? && resp.status == 200) ==>
      && CallAudio(env.gen(AudioRequestOf(k.input))).Ok?
      && Price(env, ChatOp, Mentor, Stable).Ok?
      && exists remaining :: resp.payload == AudioAnswer(CallAudio(env.gen(AudioRequestOf(k.input))).value,
                                                         Price(env, ChatOp, Mentor, Stable).value, remaining)
  }

  /**
   * On a cache miss, when the price is known and the reservation call works: the request is
   * granted exactly when the reservation row succeeds; a refused row answers 402 with that row; a
   * granted one answers 200 exactly when the model, the commit and the cache write work and the
   * commit is accepted, and an accepted commit records the narration's token counts.
   */
  ghost predicate Metered(k: Intake<AudioInput>, env: Env, t: Tables, resp: Response, log: seq<Event>, t2: Tables) {
    Price(env, ChatOp, Mentor, Stable).Ok? && ReserveCall !in env.faults ==>
      var (t1, row) := AudioReservation(t, k.id, env, k.requestId, Price(env, ChatOp, Mentor, Stable).value);
      AfterReserve(env, k.requestId, t1, row, JsonResponse(402, AudioRefusal(row)),
                   AudioRequestOf(k.input), CallAudio, AudioUsage, resp, log, t2)
  }

  /** The admitted branch: the model call, the commit, the cache write and the answer. */
  method ChargeAudio(cache: IdempotencyTable, store: CreditStore, k: Intake<AudioInput>, env: Env, a: Admission,
                     checks: seq<Event>, ghost t: Tables)
    returns (resp: Response, log: seq<Event>)
    requires !(CacheRead !in env.faults && k.key in cache.rows)
    requires AllChecks(checks) && Reversible(t, store.State(), k.requestId)
    requires a.Admitted? && Price(env, ChatOp, Mentor, Stable) == Ok(a.credits)
    modifies cache, store
    ensures Served(k, env, AudioRequestOf(k.input), resp, log, t, store.State(), old(cache.rows), cache.rows)
    ensures FreshAnswer(k, env, resp, log)
    ensures Reserve(k.requestId, true) in log
    ensures SettledFrom(env, k.requestId, old(store.State()), AudioRequestOf(k.input), CallAudio, AudioUsage,
                        resp, log, store.State())
  {
    resp, log := SettleServed(cache, store, env, k, checks, t, ROLLBACK_REASON, FAILURE_CODE, AudioRequestOf(k.input),
                              CallAudio, AudioUsage, r => AudioAnswer(r, a.credits, a.reserved.creditsRemaining));
    if resp.JsonResponse? && resp.status == 200 {
      assert resp.payload == AudioAnswer(CallAudio(env.gen(AudioRequestOf(k.input))).value, a.credits,
                                         a.reserved.creditsRemaining);
    }
  }

  /** The handler after a cache miss: the admission, then a refusal or the admitted branch. */
  method AnswerAudio(cache: IdempotencyTable, store: CreditStore, k: Intake<AudioInput>, env: Env)
    returns (resp: Response, log: seq<Event>)
    requires !(CacheRead !in env.faults && k.key in cache.rows)
    modifies cache, store
    ensures Served(k, env, AudioRequestOf(k.input), resp, log, old(store.State()), store.State(), old(cache.rows), cache.rows)
    ensures FreshAnswer(k, env, resp, log)
    ensures Metered(k, env, old(store.State()), resp, log, store.State())
  {
    ghost var t := store.State();
    var a, checks, attempted := Admit(store, k.id, env, k.requestId);
    if a.Refused? {
      resp := a.response;
      log := if attempted then [Identify, CacheGet] + checks + [Reserve(k.requestId, false)] else [Identify, CacheGet] + checks;
      RefusedServed(k, env, AudioRequestOf(k.input), resp, checks, attempted, t, store.State(), cache.rows);
      return;
    }
    resp, log := ChargeAudio(cache, store, k, env, a, checks, t);
  }

  /** The handler after the intake: the replay check, then the admission and the settle tail. */
  method ServeAudio(cache: IdempotencyTable, store: CreditStore, k: Intake<AudioInput>, env: Env)
    returns (resp: Response, log: seq<Event>)
    modifies cache, store
    ensures Served(k, env, AudioRequestOf(k.input), resp, log, old(store.State()), store.State(), old(cache.rows), cache.rows)
    ensures FreshAnswer(k, env, resp, log)
    ensures CacheRead !in env.faults && k.key !in old(cache.rows) ==>
              Metered(k, env, old(store.State()), resp, log, store.State())
  {
    ghost var t := store.State();
    var hit := CheckReplay(cache, env, k.key, FAILURE_CODE);
    if hit.Some? {
      resp, log := hit.value, [Identify, CacheGet];
      assert forall i :: 0 <= i < |log| ==> !log[i].Reserve?;
      ReplayServed(k, env, AudioRequestOf(k.input), resp, t, cache.rows);
      return;
    }
    resp, log := AnswerAudio(cache, store, k, env);
  }

  /**
   * The `ai-audio` handler. Requests rejected before the identity is resolved read and change
   * nothing; on a cache miss an admitted request is synthesised, committed and saved.
   */
  method HandleAudio(cache: IdempotencyTable, store: CreditStore, req: HttpRequest, env: Env)
    returns (resp: Response, log: seq<Event>)
    modifies cache, store
    ensures MethodGate(req.httpMethod, "POST").Some? ==> resp == MethodGate(req.httpMethod, "POST").value
    ensures MethodGate(req.httpMethod, "POST").None? && ParsedBody(req, "text").Err? ==>
              resp == FailureResponse(FAILURE_CODE, ParsedBody(req, "text").message)
    ensures (MethodGate(req.httpMethod, "POST").None? && ParsedBody(req, "text").Ok?
             && ValidateAudio(ParsedBody(req, "text").value).Err?)
            ==> resp == ErrorResponse(400, ValidateAudio(ParsedBody(req, "text").value).message)
    ensures AudioIntake(req, env).None? ==> log == [] && unchanged(cache, store)
    ensures AudioIntake(req, env).Some? ==>
              var k := AudioIntake(req, env).value;
              Served(k, env, AudioRequestOf(k.input), resp, log, old(store.State()), store.State(), old(cache.rows), cache.rows)
    ensures AudioIntake(req, env).Some? ==> FreshAnswer(AudioIntake(req, env).value, env, resp, log)
    ensures AudioIntake(req, env).Some? && CacheRead !in env.faults && AudioIntake(req, env).value.key !in old(cache.rows) ==>
              Metered(AudioIntake(req, env).value, env, old(store.State()), resp, log, store.State())
  {
    var gate := MethodGate(req.httpMethod, "POST");
    if gate.Some? {
      return gate.value, [];
    }
    var body := ParsedBody(req, "text");
    if body.Err? {
      return FailureResponse(FAILURE_CODE, body.message), [];
    }
    var input := ValidateAudio(body.value);
    if input.Err? {
      return ErrorResponse(400, input.message), [];
    }
    resp, log := ServeAudio(cache, store, IntakeOf(ENDPOINT, input.value, input.value.idempotencyKey, req, env), env);
  }
}
