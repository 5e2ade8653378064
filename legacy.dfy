/**
 * The API service of the legacy single page (script.js, class APIService)
 * and its canned keyword replies. It shares the fetch outcome, the result
 * record and the message table with the React gateway, but reads a
 * response differently: a non-2xx status is thrown as an error, and a 2xx
 * body that says `success: false` is a failure too.
 */
module LegacyApi {
  import opened Wrappers
  import opened Json
  import opened Text
  import opened Gateway

  /** The text of the error thrown for a non-2xx response. */
  const HttpErrorPrefix := "HTTP error! status: "

  function HttpErrorText(status: nat): string {
    HttpErrorPrefix + Decimal(status)
  }

  /** The failure record built in the `catch` of `request`. */
  function CaughtFailure(reason: string): ApiResult {
    ApiResult(false, None, None, Str(ErrorMessageFor(reason)), Some(reason))
  }

  /** `data && data.success === false`. */
  predicate SaysFailure(data: Json) {
    Truthy(Some(data)) && Get(Some(data), "success") == Some(JBool(false))
  }

  /**
   * `request(endpoint, options)`: a thrown fetch, a non-2xx status and an
   * undecodable body all end in the `catch` branch; a decoded 2xx body is
   * a failure exactly when it says `success: false`.
   */
  function LegacyRequest(outcome: Outcome): (r: ApiResult)
    ensures r.status == None
    ensures r.success <==>
      outcome.Delivered? && outcome.response.Ok() && outcome.response.body.Parsed?
      && !SaysFailure(outcome.response.body.value)
    ensures outcome.Delivered? && !outcome.response.Ok() ==>
      r == CaughtFailure(HttpErrorText(outcome.response.status))
    ensures outcome.Delivered? && outcome.response.Ok() && outcome.response.body.Parsed? ==>
      r == ApiResult(r.success, None, Some(outcome.response.body.value), None, None)
    ensures outcome.Delivered? && outcome.response.Ok() && outcome.response.body.Unparseable? ==>
      r == CaughtFailure(outcome.response.body.reason)
    ensures outcome.Failed? ==> r == CaughtFailure(outcome.reason)
  {
    match outcome
    case Failed(reason) => CaughtFailure(reason)
    case Delivered(resp) =>
      if !resp.Ok() then CaughtFailure(HttpErrorText(resp.status))
      else match resp.body
        case Unparseable(reason) => CaughtFailure(reason)
        case Parsed(data) =>
          ApiResult(!SaysFailure(data), None, Some(data), None, None)
  }

  lemma PrefixHasNoDigit()
    ensures forall i :: 0 <= i < |HttpErrorPrefix| ==> !IsDigit(HttpErrorPrefix[i])
  {
  }

  /**
   * The words of the thrown error do not disturb the table: for a status
   * below 1000 the message is the table's entry for that status, the same
   * one the React gateway shows for a failed response without a message.
   */
  lemma {:induction false} HttpErrorMessage(status: nat)
    requires status <= 999
    ensures ErrorMessageFor(HttpErrorText(status)) == StatusTable(status)
    ensures ErrorMessageFor(HttpErrorText(status)) == StatusMessage(status)
  {
    PrefixHasNoDigit();
    var d := Decimal(status);
    ContainsAfterDigitFreePrefix(HttpErrorPrefix, d, "401");
    ContainsAfterDigitFreePrefix(HttpErrorPrefix, d, "403");
    ContainsAfterDigitFreePrefix(HttpErrorPrefix, d, "404");
    ContainsAfterDigitFreePrefix(HttpErrorPrefix, d, "500");
    StatusMessageIsTable(status);
  }

  /**
   * Both gateways report a failed status below 1000 with the same message,
   * when the React one finds no message of the server's own in the body.
   */
  lemma {:induction false} GatewaysAgreeOnFailedStatus(resp: Response)
    requires !resp.Ok() && resp.status <= 999
    requires !Truthy(Get(Some(DataOf(resp.body)), "message"))
    ensures !LegacyRequest(Delivered(resp)).success && !Request(Delivered(resp)).success
    ensures LegacyRequest(Delivered(resp)).message == Request(Delivered(resp)).message
  {
    HttpErrorMessage(resp.status);
    FailedStatusMessage(resp);
  }

  /** The system prompt sent with every chat request. */
  const SystemPrompt := "당신은 PC 견적 전문가입니다. 사용자의 요청에 따라 적절한 PC 견적을 제공해주세요."

  /** The chat-completion body of `sendChatMessage(message)`. */
  function LegacyChatBody(message: Json): Json {
    JObj(map[
      "model" := JStr("gpt-4o-mini"),
      "messages" := JArr([
        JObj(map["role" := JStr("system"), "content" := JStr(SystemPrompt)]),
        JObj(map["role" := JStr("user"), "content" := message])]),
      "max_tokens" := JNum(1000.0),
      "temperature" := JNum(0.7)])
  }

  /**
   * `requestEstimate(requirements)`: one chat request for the requirement's
   * `query` when that is truthy, else for the requirement itself; a `null`
   * requirement throws before any request. The transport answers the call.
   */
  function LegacyRequestEstimate(requirements: Json, transport: Call -> Outcome): (s: Settlement)
    ensures s == Raised <==> requirements == JNull
    ensures s.Resolved? ==>
      var q := Get(Some(requirements), "query");
      var sent := if Truthy(q) then q.value else requirements;
      s.result == LegacyRequest(transport(Call(ChatEndpoint, "POST", Some(LegacyChatBody(sent)))))
  {
    match EstimateQuery(requirements)
    case None => Raised
    case Some(query) => Resolved(LegacyRequest(transport(Call(ChatEndpoint, "POST", Some(LegacyChatBody(query))))))
  }

  // ---------------------------------------------------------------------
  // Canned replies

  /** The keywords of `getAIResponse`, in the order they are tried. */
  const Keywords: seq<string> := ["롤", "게임", "저가", "고사양"]

  /** The canned reply of each keyword, at the keyword's position. */
  const Answers: seq<string> := [
    "롤(리그 오브 레전드)을 위한 PC 견적을 추천드릴게요!<br><br>💻 **추천 사양**<br>• CPU: AMD Ryzen 5 5600G<br>• GPU: GTX 1660 Super<br>• RAM: 16GB DDR4<br>• SSD: 500GB NVMe<br><br>💰 **예상 가격: 80만원**<br><br>이 사양으로 롤을 고화질로 원활하게 즐길 수 있습니다!",
    "게임용 PC 견적을 추천드릴게요!<br><br>🎮 **추천 사양**<br>• CPU: Intel i5-12400F<br>• GPU: RTX 3060<br>• RAM: 16GB DDR4<br>• SSD: 1TB NVMe<br><br>💰 **예상 가격: 120만원**<br><br>최신 게임들을 고화질로 즐길 수 있는 사양입니다!",
    "저가형 PC 견적을 추천드릴게요!<br><br>💡 **추천 사양**<br>• CPU: AMD Ryzen 3 3200G<br>• GPU: 내장 그래픽<br>• RAM: 8GB DDR4<br>• SSD: 250GB<br><br>💰 **예상 가격: 40만원**<br><br>일반적인 업무와 가벼운 게임에 적합합니다!",
    "고사양 PC 견적을 추천드릴게요!<br><br>🚀 **추천 사양**<br>• CPU: Intel i7-13700K<br>• GPU: RTX 4070<br>• RAM: 32GB DDR5<br>• SSD: 2TB NVMe<br><br>💰 **예상 가격: 250만원**<br><br>최고급 게임과 작업에 최적화된 사양입니다!"
  ]

  /** The reply when no keyword occurs: a template around the message. */
  function DefaultReply(message: string): string {
    "\"" + message + DefaultReplyTail
  }

  const DefaultReplyTail := "\"에 대한 PC 견적을 분석하고 있습니다...<br><br>💻 **추천 사양**<br>• CPU: AMD Ryzen 5 5600X<br>• GPU: RTX 3060<br>• RAM: 16GB DDR4<br>• SSD: 500GB NVMe<br><br>💰 **예상 가격: 100만원**<br><br>더 구체적인 요구사항을 알려주시면 더 정확한 견적을 제공해드릴 수 있습니다!"

  /** Entry `i` is the first entry of the table whose keyword occurs in the message. */
  predicate FirstMatch(message: string, i: int) {
    && 0 <= i < |Keywords|
    && Contains(message, Keywords[i])
    && forall j :: 0 <= j < i ==> !Contains(message, Keywords[j])
  }

  /** No keyword of the table occurs in the message. */
  predicate NoKeyword(message: string) {
    forall i :: 0 <= i < |Keywords| ==> !Contains(message, Keywords[i])
  }

  /**
   * `getAIResponse(userMessage)`: the reply of the first keyword, in table
   * order, that occurs in the message; the default reply when none does.
   */
  method GetAIResponse(message: string) returns (reply: string)
    ensures forall i :: FirstMatch(message, i) ==> reply == Answers[i]
    ensures NoKeyword(message) ==> reply == DefaultReply(message)
  {
    for k := 0 to |Keywords|
      invariant forall j :: 0 <= j < k ==> !Contains(message, Keywords[j])
    {
      if Contains(message, Keywords[k]) {
        return Answers[k];
      }
    }
    return DefaultReply(message);
  }
}
