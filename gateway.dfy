/**
 * The React client's API gateway (pc_builder/src/api/apiService.js): every
 * fetch outcome becomes one uniform result record, failures carry a
 * user-facing message chosen from a fixed table, the chat call retries once
 * on the legacy endpoint, and the save payload is normalised.
 *
 * The network is an oracle: a fetch outcome is an input, and a method that
 * issues requests takes a transport function from (call number, call) to
 * outcome, so that the two calls of a retry may be answered differently.
 */
module Gateway {
  import opened Wrappers
  import opened Json
  import opened Text

  /** What `response.json()` produced: a value, or the text of the error it threw. */
  datatype Body = Parsed(value: Json) | Unparseable(reason: string)

  /** A completed fetch. `ok` is derived from the status, as the Fetch standard defines it. */
  datatype Response = Response(status: nat, body: Body) {
    predicate Ok() {
      200 <= status <= 299
    }
  }

  /** The outcome of `fetch`: a response, or the message of the error it threw. */
  datatype Outcome = Delivered(response: Response) | Failed(reason: string)

  /** The record `{ success, status?, data?, message?, error? }`; an absent field is `None`. */
  datatype ApiResult = ApiResult(
    success: bool,
    status: Option<nat>,
    data: Option<Json>,
    message: Option<Json>,
    error: Option<string>)

  /** One request handed to the transport: endpoint path, HTTP method (`verb`) and JSON body. */
  datatype Call = Call(endpoint: string, verb: string, body: Option<Json>)

  /** How an awaited gateway call ended for its caller: a result, or an exception. */
  datatype Settlement = Resolved(result: ApiResult) | Raised

  const AuthRequiredMessage := "인증이 필요합니다. 다시 로그인해주세요."
  const ForbiddenMessage := "접근 권한이 없습니다."
  const NotFoundMessage := "요청한 리소스를 찾을 수 없습니다."
  const ServerErrorMessage := "서버 오류가 발생했습니다. 잠시 후 다시 시도해주세요."
  const NetworkErrorMessage := "네트워크 오류가 발생했습니다. 인터넷 연결을 확인해주세요."

  /** `ENDPOINTS.CHAT` and `ENDPOINTS.ESTIMATE` of the client configuration. */
  const ChatEndpoint := "/api/chat"
  const EstimateEndpoint := "/api/estimate"

  /** The endpoint the chat call falls back to. */
  const LegacyChatEndpoint := "/api/ai/chat"

  /** The title a saved estimate gets when it has none. */
  const DefaultEstimateTitle := "AI 추천 견적"

  /**
   * `getErrorMessage(error)`: the first of "401", "403", "404", "500" that
   * occurs in the error's text picks the message; anything else is a
   * network error.
   */
  function ErrorMessageFor(text: string): string {
    if Contains(text, "401") then AuthRequiredMessage
    else if Contains(text, "403") then ForbiddenMessage
    else if Contains(text, "404") then NotFoundMessage
    else if Contains(text, "500") then ServerErrorMessage
    else NetworkErrorMessage
  }

  /** The message table read as a lookup on the status number. */
  function StatusTable(status: nat): string {
    if status == 401 then AuthRequiredMessage
    else if status == 403 then ForbiddenMessage
    else if status == 404 then NotFoundMessage
    else if status == 500 then ServerErrorMessage
    else NetworkErrorMessage
  }

  /** The message for a failed status: `getErrorMessage(new Error(String(status)))`. */
  function StatusMessage(status: nat): string {
    ErrorMessageFor(Decimal(status))
  }

  lemma StatusLiterals()
    ensures Decimal(401) == "401" && Decimal(403) == "403"
    ensures Decimal(404) == "404" && Decimal(500) == "500"
  {
    assert Decimal(40) == Decimal(4) + [Digit(0)];
    assert Decimal(50) == Decimal(5) + [Digit(0)];
  }

  /**
   * For every status below 1000 (all statuses fetch reports) the substring
   * tests of the table are exact comparisons of the status.
   */
  lemma {:induction false} StatusMessageIsTable(status: nat)
    requires status <= 999
    ensures StatusMessage(status) == StatusTable(status)
  {
    StatusLiterals();
    ThreeDigitContains(status, 401);
    ThreeDigitContains(status, 403);
    ThreeDigitContains(status, 404);
    ThreeDigitContains(status, 500);
  }

  /** `data` after `response.clone().json()`: `null` when decoding threw. */
  function DataOf(b: Body): Json {
    if b.Parsed? then b.value else JNull
  }

  /**
   * `request(endpoint, options)`: the total mapping from a fetch outcome to
   * the result record. It never throws.
   */
  function Request(outcome: Outcome): (r: ApiResult)
    ensures r.success <==> outcome.Delivered? && outcome.response.Ok()
    ensures r.status == (if outcome.Delivered? then Some(outcome.response.status) else None)
    ensures outcome.Delivered? ==>
      && r.data == Some(DataOf(outcome.response.body))
      && r.error == None
      && var own := Get(r.data, "message");
         r.message == (if Truthy(own) then own
                       else if r.success then None
                       else Str(StatusMessage(outcome.response.status)))
    ensures outcome.Failed? ==>
      && r.data == None
      && r.error == Some(outcome.reason)
      && r.message == Str(ErrorMessageFor(outcome.reason))
    ensures !r.success ==> Truthy(r.message)
  {
    match outcome
    case Delivered(resp) =>
      var data := DataOf(resp.body);
      var fallback := if resp.Ok() then None else Str(StatusMessage(resp.status));
      ApiResult(resp.Ok(), Some(resp.status), Some(data), Or(Get(Some(data), "message"), fallback), None)
    case Failed(reason) =>
      ApiResult(false, None, None, Str(ErrorMessageFor(reason)), Some(reason))
  }

  /**
   * A failed response whose body names no message of its own carries the
   * table's message for its status, chosen by plain comparison.
   */
  lemma {:induction false} FailedStatusMessage(resp: Response)
    requires !resp.Ok() && resp.status <= 999
    requires !Truthy(Get(Some(DataOf(resp.body)), "message"))
    ensures Request(Delivered(resp)).message == Str(StatusTable(resp.status))
    ensures resp.status == 404 ==> Request(Delivered(resp)).message == Str(NotFoundMessage)
  {
    StatusMessageIsTable(resp.status);
  }

  /** The retry condition of `sendChatMessage`. */
  predicate NeedsRetry(r: ApiResult) {
    !r.success && (r.status == Some(404) || r.status == Some(405))
  }

  /** `{ session_id, messages: [{ role: 'user', content: message }] }`. */
  function ChatBody(message: Json, sessionId: string): Json {
    JObj(map[
      "session_id" := JStr(sessionId),
      "messages" := JArr([JObj(map["role" := JStr("user"), "content" := message])])])
  }

  /**
   * The calls `sendChatMessage` makes for `message`: a POST of the chat body
   * to the chat endpoint, then a second POST of the same body to the legacy
   * endpoint exactly when the first came back as a 404 or 405 response.
   */
  predicate ChatCalls(calls: seq<Call>, message: Json, sessionId: string, transport: (nat, Call) -> Outcome) {
    && 1 <= |calls| <= 2
    && calls[0] == Call(ChatEndpoint, "POST", Some(ChatBody(message, sessionId)))
    && (|calls| == 2 <==>
          var first := transport(0, calls[0]);
          first.Delivered? && (first.response.status == 404 || first.response.status == 405))
    && (|calls| == 2 ==> calls[1] == Call(LegacyChatEndpoint, "POST", calls[0].body))
  }

  /** `ChatCalls`, and `res` is the result `request` makes of the last call's outcome. */
  predicate ChatExchange(calls: seq<Call>, message: Json, sessionId: string, transport: (nat, Call) -> Outcome, res: ApiResult) {
    && ChatCalls(calls, message, sessionId, transport)
    && res == Request(transport(|calls| - 1, calls[|calls| - 1]))
  }

  /**
   * `sendChatMessage(message, sessionId)`: one POST to the chat endpoint,
   * and a second one with the same body to the legacy endpoint exactly when
   * the first came back as a 404 or 405 response. The result is that of the
   * last call.
   */
  method SendChatMessage(message: Json, sessionId: string, transport: (nat, Call) -> Outcome)
    returns (res: ApiResult, calls: seq<Call>)
    ensures ChatExchange(calls, message, sessionId, transport, res)
  {
    var body := ChatBody(message, sessionId);
    var first := Call(ChatEndpoint, "POST", Some(body));
    calls := [first];
    res := Request(transport(0, first));
    if NeedsRetry(res) {
      var second := Call(LegacyChatEndpoint, "POST", Some(body));
      calls := calls + [second];
      res := Request(transport(1, second));
    }
  }

  /**
   * `requirements.query || requirements`. Reading a property of `null`
   * throws, which is `None` here.
   */
  function EstimateQuery(requirements: Json): Option<Json> {
    if requirements == JNull then None
    else Some(Or(Get(Some(requirements), "query"), Some(requirements)).value)
  }

  /**
   * `requestEstimate(requirements, sessionId)`: the chat call for the
   * requirement's `query` when that is truthy, else for the requirement
   * itself; a `null` requirement rejects before any request is made.
   */
  method RequestEstimate(requirements: Json, sessionId: string, transport: (nat, Call) -> Outcome)
    returns (s: Settlement, calls: seq<Call>)
    ensures requirements == JNull <==> s == Raised
    ensures s == Raised ==> calls == []
    ensures s.Resolved? ==>
      var q := Get(Some(requirements), "query");
      var sent := if Truthy(q) then q.value else requirements;
      && ChatExchange(calls, sent, sessionId, transport, s.result)
  {
    var query := EstimateQuery(requirements);
    if query == None {
      s, calls := Raised, [];
    } else {
      var res;
      res, calls := SendChatMessage(query.value, sessionId, transport);
      s := Resolved(res);
    }
  }

  /** `Math.round`: the nearest integer, halves rounded up. */
  function Round(x: real): (n: int)
    ensures x - 0.5 < n as real <= x + 0.5
    ensures x == x.Floor as real ==> n == x.Floor
  {
    (x + 0.5).Floor
  }

  /** The `totalPrice` sent on save: a numeric `total_price`, else a numeric `totalPrice`, rounded; else 0. */
  function SavedTotal(e: Json): int {
    match (Get(Some(e), "total_price"), Get(Some(e), "totalPrice"))
    case (Some(JNum(x)), _) => Round(x)
    case (_, Some(JNum(y))) => Round(y)
    case _ => 0
  }

  /** The payload `saveEstimate(estimateObject, sessionId)` posts. */
  function SavePayload(e: Json, sessionId: string): (p: Json)
    ensures p.JObj? && p.fields.Keys == {"session_id", "title", "totalPrice", "estimate"}
    ensures p.fields["session_id"] == JStr(sessionId)
    ensures p.fields["estimate"] == e
    ensures var t := Get(Some(e), "title");
      p.fields["title"] == if Truthy(t) then t.value else JStr(DefaultEstimateTitle)
    ensures p.fields["totalPrice"].JNum? && p.fields["totalPrice"].n == p.fields["totalPrice"].n.Floor as real
    ensures var tp := Get(Some(e), "total_price");
      tp.Some? && tp.value.JNum? ==>
        && tp.value.n - 0.5 < p.fields["totalPrice"].n <= tp.value.n + 0.5
        && (tp.value.n == tp.value.n.Floor as real ==> p.fields["totalPrice"] == tp.value)
    ensures var tp, alt := Get(Some(e), "total_price"), Get(Some(e), "totalPrice");
      !(tp.Some? && tp.value.JNum?) && !(alt.Some? && alt.value.JNum?) ==> p.fields["totalPrice"] == JNum(0.0)
    ensures var tp, alt := Get(Some(e), "total_price"), Get(Some(e), "totalPrice");
      !(tp.Some? && tp.value.JNum?) && alt.Some? && alt.value.JNum? ==>
        && alt.value.n - 0.5 < p.fields["totalPrice"].n <= alt.value.n + 0.5
        && (alt.value.n == alt.value.n.Floor as real ==> p.fields["totalPrice"] == alt.value)
  {
    var title := Or(Get(Some(e), "title"), Str(DefaultEstimateTitle)).value;
    JObj(map[
      "session_id" := JStr(sessionId),
      "title" := title,
      "totalPrice" := JNum(SavedTotal(e) as real),
      "estimate" := e])
  }

  /**
   * `saveEstimate(estimateObject, sessionId)`: one POST of the payload to the
   * save endpoint, which the client configuration does not define; it is a
   * parameter here.
   */
  function SaveCall(e: Json, sessionId: string, saveEndpoint: string): Call {
    Call(saveEndpoint, "POST", Some(SavePayload(e, sessionId)))
  }

  /**
   * `deleteEstimate(id)`: a body-less DELETE of `ESTIMATE + "/" + id`, from
   * which the id can be read back.
   */
  function DeleteCall(id: string): (c: Call)
    ensures c.verb == "DELETE" && c.body == None
    ensures |c.endpoint| == |EstimateEndpoint| + 1 + |id|
    ensures c.endpoint[..|EstimateEndpoint| + 1] == EstimateEndpoint + "/"
    ensures c.endpoint[|EstimateEndpoint| + 1..] == id
  {
    Call(EstimateEndpoint + "/" + id, "DELETE", None)
  }
}
