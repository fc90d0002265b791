/**
 * JSON values as the edge functions read them from request bodies and write them into responses,
 * and the two response shapes of `_shared/cors.ts` (`jsonResponse` and `preflightResponse`).
 */
module Json {
  import opened Outcome
  import opened Text

  /**
   * A JSON value. Counts and credits are `JInt`; `JReal` holds the money figures of the balance
   * endpoint, which the model keeps as reals.
   */
  datatype Json =
    | JNull
    | JBool(b: bool)
    | JInt(i: int)
    | JReal(r: real)
    | JStr(s: string)
    | JArr(items: seq<Json>)
    | JObj(fields: map<string, Json>)

  /** A JSON object, the shape of every response body and cached payload. */
  type Payload = map<string, Json>

  /** An HTTP response: a JSON body with a status, or the CORS preflight answer (status 200, body "ok"). */
  datatype Response = JsonResponse(status: int, payload: Payload) | Preflight

  /** `body.name` on a parsed request body: undefined unless the body is an object holding the key. */
  function Field(body: Json, name: string): Option<Json> {
    if body.JObj? && name in body.fields then Some(body.fields[name]) else None
  }

  /** `body.name ?? fallback`: JSON `null` also falls back. */
  function FieldOr(body: Json, name: string, fallback: Json): (r: Json)
    ensures Field(body, name).Some? && Field(body, name).value != JNull ==> r == body.fields[name]
    ensures Field(body, name).None? || Field(body, name) == Some(JNull) ==> r == fallback
  {
    var f := Field(body, name);
    if f.None? || f.value.JNull? then fallback else f.value
  }

  /** JavaScript truthiness of an optional JSON value (`if (body.deepDive)`). */
  function Truthy(v: Option<Json>): (b: bool)
    ensures !b <==> v.None? || v.value == JNull || v.value == JBool(false) || v.value == JInt(0)
                    || v.value == JReal(0.0) || v.value == JStr("")
  {
    match v
    case None => false
    case Some(j) =>
      match j
      case JNull => false
      case JBool(b) => b
      case JInt(i) => i != 0
      case JReal(r) => r != 0.0
      case JStr(s) => s != ""
      case JArr(_) => true
      case JObj(_) => true
  }

  /**
   * `String(v)`. Arrays print their elements joined by commas (null elements as nothing),
   * objects print "[object Object]". A non-integral number prints as a fixed non-empty
   * placeholder: its digits are not modelled.
   */
  function ToJsString(v: Json): (r: string)
    ensures v.JStr? ==> r == v.s
    ensures v.JNull? ==> r == "null"
    ensures v.JBool? ==> r == (if v.b then "true" else "false")
    ensures v.JInt? ==> r == IntToString(v.i) && |r| > 0
    ensures v.JArr? && v.items == [] ==> r == ""
    ensures v.JObj? ==> r == "[object Object]"
    decreases v
  {
    match v
    case JNull => "null"
    case JBool(b) => if b then "true" else "false"
    case JInt(i) => IntToString(i)
    case JReal(_) => "0.5"
    case JStr(s) => s
    case JArr(items) =>
      Join(seq(|items|, k requires 0 <= k < |items| => if items[k].JNull? then "" else ToJsString(items[k])), ",")
    case JObj(_) => "[object Object]"
  }

  /** The status line of a response; the preflight answer is a 200. */
  function StatusOf(r: Response): (status: int)
    ensures r.JsonResponse? ==> status == r.status
    ensures r.Preflight? ==> status == 200
  {
    match r
    case JsonResponse(status, _) => status
    case Preflight => 200
  }

  /** `jsonResponse(status, { error: code })`. */
  function ErrorResponse(status: int, code: string): (r: Response)
    ensures r.JsonResponse? && r.status == status && "error" in r.payload && r.payload["error"] == JStr(code)
  {
    JsonResponse(status, map["error" := JStr(code)])
  }

  /** The handlers' outer `catch`: `jsonResponse(500, { error: code, message })`. */
  function FailureResponse(code: string, message: string): (r: Response)
    ensures r.JsonResponse? && r.status == 500 && "error" in r.payload && r.payload["error"] == JStr(code)
  {
    JsonResponse(500, map["error" := JStr(code), "message" := JStr(message)])
  }

  function OptionalInt(v: Option<int>): Json {
    match v
    case Some(n) => JInt(n)
    case None => JNull
  }
}
