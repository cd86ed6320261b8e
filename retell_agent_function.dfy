/** The `retell-agent` edge function of supabase/functions/retell-agent/index.ts: how a request
    is routed and answered. The calls to the Retell API are not made here: each is recorded in
    the reply, and how it would settle is a parameter. */
module RetellAgentFunction {
  import opened Wrappers
  import Text

  /** A JSON value. JSON has no `undefined`: an absent key stands for it. */
  datatype JsValue = JsNull | JsBool(b: bool) | JsNum(n: int) | JsStr(s: string)
                   | JsArray(items: seq<JsValue>) | JsObject(fields: map<string, JsValue>)

  /** JavaScript truthiness. */
  predicate Truthy(v: JsValue) {
    match v
    case JsNull => false
    case JsBool(b) => b
    case JsNum(n) => n != 0
    case JsStr(s) => s != ""
    case _ => true
  }

  type Fields = map<string, JsValue>

  /** `obj.key`: None when the key is absent. */
  function Get(fields: Fields, key: string): (r: Option<JsValue>)
    ensures r.Some? <==> key in fields
  {
    if key in fields then Some(fields[key]) else None
  }

  predicate TruthyField(fields: Fields, key: string) {
    key in fields && Truthy(fields[key])
  }

  /** The request body after `req.json()`: a JSON object, or a parse error with its message. */
  datatype Body = Parsed(fields: Fields) | Unparsable(message: string)

  /** `verb` is the HTTP method. */
  datatype Request = Request(verb: string, url: string, body: Body)

  /** How one `fetch` to the Retell API settles: a parsed JSON object, an HTTP error status with
      the response text, or a failure of the fetch itself. */
  datatype Fetched = Responded(data: Fields) | HttpError(status: int, text: string)
                   | FetchFailed(message: string)

  /** The outcome of each Retell API call the function may make. */
  datatype Services = Services(
    deletePhone: Fetched,
    createPhone: Fetched,
    createLlm: Fetched,
    createAgent: Fetched,
    deleteAgent: Fetched,
    deleteLlm: Fetched)

  /** A Retell API call, with the values it is made with. */
  datatype ApiCall =
    | DeletePhoneNumber(phone: string)
    | CreatePhoneNumber(areaCode: Option<JsValue>, inboundAgentId: Option<JsValue>,
                        outboundAgentId: Option<JsValue>, nickname: Option<JsValue>)
    | CreateRetellLlm(prompt: JsValue)
    | CreateAgent(llmId: Option<JsValue>)
    | DeleteAgent(agent: JsValue)
    | DeleteRetellLlm(id: JsValue)

  datatype Outcome = Done(data: Fields) | Failed(message: string)

  /** `makeRetellRequest`: a DELETE that succeeds yields `{ success: true }`, any other success
      the parsed response; every failure is rethrown with the `RetellAI request failed: ` prefix,
      an HTTP failure first being described with its status and text. */
  function RetellRequest(f: Fetched, isDelete: bool): (r: Outcome)
    ensures f.Responded? <==> r.Done?
    ensures r.Failed? ==> RequestFailedPrefix <= r.message
  {
    match f
    case Responded(data) => Done(if isDelete then map["success" := JsBool(true)] else data)
    case HttpError(status, text) =>
      Failed(RequestFailedPrefix + "RetellAI API error (" + Text.IntToString(status) + "): " + text)
    case FetchFailed(m) => Failed(RequestFailedPrefix + m)
  }

  const RequestFailedPrefix := "RetellAI request failed: "

  /** The response body. */
  datatype Payload =
    | PlainText(text: string)
    | ErrorJson(error: string)
    | MessageJson(message: string)
    | SuccessJson(message: string)
    | DataJson(data: Fields)
    | IdsJson(llmId: Option<JsValue>, agentId: Option<JsValue>)

  datatype Reply = Reply(status: int, payload: Payload, headers: map<string, string>, calls: seq<ApiCall>)

  const CorsHeaders: map<string, string> := map[
    "Access-Control-Allow-Origin" := "*",
    "Access-Control-Allow-Headers" := "authorization, x-client-info, apikey, content-type",
    "Access-Control-Allow-Methods" := "POST, DELETE, OPTIONS"
  ]

  const JsonHeaders: map<string, string> := CorsHeaders["Content-Type" := "application/json"]

  function Json(status: int, payload: Payload, calls: seq<ApiCall>): (r: Reply)
    ensures r.headers == JsonHeaders && r.status == status && r.calls == calls
  {
    Reply(status, payload, JsonHeaders, calls)
  }

  /** What every reply of the function satisfies: it answers with 200, 400 or 500, makes at
      most two API calls, and makes none when it refuses the request with 400. */
  predicate Shape(r: Reply) {
    (r.status == 200 || r.status == 400 || r.status == 500) &&
    |r.calls| <= 2 &&
    (r.status == 400 ==> r.calls == [])
  }

  /** The JSON headers are the CORS headers plus the content type. */
  lemma JsonHeadersKeepCors()
    ensures forall key | key in CorsHeaders :: key in JsonHeaders && JsonHeaders[key] == CorsHeaders[key]
  {
  }

  // ---- DELETE .../delete-phone/<number> ---------------------------------------------------

  const DeletePhoneSep := "/delete-phone/"

  /** `url.split('/delete-phone/')[1]`: the text after the first occurrence of the separator up
      to the next one, or `undefined` when the separator does not occur. */
  function PhoneFromUrl(url: string): (r: Option<string>)
    ensures r.None? <==> !Text.Contains(url, DeletePhoneSep)
  {
    Text.ContainsAt(url, DeletePhoneSep);
    var i := Text.FindFrom(url, DeletePhoneSep, 0);
    if i < 0 then None
    else
      var start := i + |DeletePhoneSep|;
      var j := Text.FindFrom(url, DeletePhoneSep, start);
      Some(url[start..if j < 0 then |url| else j])
  }

  /** The separator starts with `/`, so it does not occur where no `/` follows. */
  lemma SeparatorNeedsSlash(url: string, from: nat)
    requires forall k | from <= k < |url| :: url[k] != '/'
    ensures forall k | from <= k :: !Text.OccursAt(url, DeletePhoneSep, k)
  {
    forall k | from <= k ensures !Text.OccursAt(url, DeletePhoneSep, k) {
      if k + |DeletePhoneSep| <= |url| {
        assert url[k..k + |DeletePhoneSep|][0] == url[k];
      }
    }
  }

  /** A number without `/` placed after the first separator is read back exactly. */
  lemma PhoneFromUrlRoundTrip(prefix: string, phone: string)
    requires forall k | 0 <= k < |prefix| :: !Text.OccursAt(prefix + DeletePhoneSep + phone, DeletePhoneSep, k)
    requires '/' !in phone
    ensures PhoneFromUrl(prefix + DeletePhoneSep + phone) == Some(phone)
  {
    var url := prefix + DeletePhoneSep + phone;
    var n := |DeletePhoneSep|;
    assert Text.OccursAt(url, DeletePhoneSep, |prefix|) by {
      assert url[|prefix|..|prefix| + n] == DeletePhoneSep;
    }
    var i := Text.FindFrom(url, DeletePhoneSep, 0);
    assert i == |prefix|;
    var j := Text.FindFrom(url, DeletePhoneSep, i + n);
    assert forall k | i + n <= k < |url| :: url[k] == phone[k - i - n];
    SeparatorNeedsSlash(url, i + n);
    assert url[i + n..|url|] == phone;
    assert PhoneFromUrl(url) == Some(url[i + n..|url|]);
  }

  function DeletePhone(url: string, svc: Services): (r: Reply)
    ensures r.headers == JsonHeaders && Shape(r)
  {
    var phone := PhoneFromUrl(url);
    if phone.None? || phone.value == "" then Json(400, ErrorJson("Phone number is required"), [])
    else
      var calls := [DeletePhoneNumber(phone.value)];
      match RetellRequest(svc.deletePhone, true)
      case Done(_) =>
        Json(200, MessageJson("Phone number " + phone.value + " deleted successfully"), calls)
      case Failed(m) => Json(500, ErrorJson("Error deleting phone number: " + m), calls)
  }

  // ---- POST .../create-phone ---------------------------------------------------------------

  /** `area_code === undefined || (typeof area_code === 'number' && String(area_code).length === 3)`
      for integer area codes. */
  predicate AreaCodeAccepted(areaCode: Option<JsValue>) {
    areaCode.None? || (areaCode.value.JsNum? && |Text.IntToString(areaCode.value.n)| == 3)
  }

  /** An area code is accepted when it is absent or a number printed with three characters:
      100 to 999, or -99 to -10. */
  lemma AreaCodeAcceptedIff(areaCode: Option<JsValue>)
    ensures AreaCodeAccepted(areaCode) <==>
              areaCode.None? ||
              (areaCode.value.JsNum? &&
               (100 <= areaCode.value.n <= 999 || -99 <= areaCode.value.n <= -10))
  {
    if areaCode.Some? && areaCode.value.JsNum? {
      Text.IntToStringLength3(areaCode.value.n);
    }
  }

  function CreatePhone(body: Body, svc: Services): (r: Reply)
    ensures r.headers == JsonHeaders && Shape(r)
  {
    match body
    case Unparsable(m) => Json(400, ErrorJson("Error processing request: " + m), [])
    case Parsed(fields) =>
      var areaCode := Get(fields, "area_code");
      if !AreaCodeAccepted(areaCode) then
        Json(400, ErrorJson("If area_code is provided, it must be a 3-digit number."), [])
      else
        var calls := [CreatePhoneNumber(areaCode, Get(fields, "inbound_agent_id"),
                                        Get(fields, "outbound_agent_id"), Get(fields, "nickname"))];
        match RetellRequest(svc.createPhone, false)
        case Done(data) => Json(200, DataJson(data), calls)
        case Failed(m) => Json(500, ErrorJson("Error from Retell API: " + m), calls)
  }

  predicate IsCreatePhoneUrl(url: string) {
    Text.EndsWith(url, "/create-phone") || Text.EndsWith(url, "/retell-agent/create-phone")
  }

  /** The second spelling of the create-phone route adds nothing: it ends with the first. */
  lemma CreatePhoneUrlIsSuffix(url: string)
    ensures IsCreatePhoneUrl(url) <==> Text.EndsWith(url, "/create-phone")
  {
    if Text.EndsWith(url, "/retell-agent/create-phone") {
      Text.EndsWithSuffix(url, "/retell-agent/create-phone", "/create-phone");
    }
  }

  // ---- every other request -----------------------------------------------------------------

  /** The POST with a prompt: create the LLM, then the agent that uses it; a failure of either
      call is answered by the outer `catch` with its message. */
  function CreateLlmAndAgent(prompt: JsValue, svc: Services): (r: Reply)
    ensures r.headers == JsonHeaders && Shape(r) && r.status != 400
  {
    match RetellRequest(svc.createLlm, false)
    case Failed(m) => Json(500, ErrorJson(m), [CreateRetellLlm(prompt)])
    case Done(llm) =>
      var llmId := Get(llm, "llm_id");
      var calls := [CreateRetellLlm(prompt), CreateAgent(llmId)];
      match RetellRequest(svc.createAgent, false)
      case Failed(m) => Json(500, ErrorJson(m), calls)
      case Done(agent) => Json(200, IdsJson(llmId, Get(agent, "agent_id")), calls)
  }

  /** A DELETE without the phone route: the agent when an agent id is given, otherwise the LLM
      when an LLM id is given. */
  function DeleteAgentOrLlm(fields: Fields, svc: Services): (r: Reply)
    ensures r.headers == JsonHeaders && Shape(r)
  {
    if TruthyField(fields, "agentId") then
      var calls := [DeleteAgent(fields["agentId"])];
      match RetellRequest(svc.deleteAgent, true)
      case Done(_) => Json(200, SuccessJson("Agent deleted successfully"), calls)
      case Failed(m) => Json(500, ErrorJson(m), calls)
    else if TruthyField(fields, "llmId") then
      var calls := [DeleteRetellLlm(fields["llmId"])];
      match RetellRequest(svc.deleteLlm, true)
      case Done(_) => Json(200, SuccessJson("LLM deleted successfully"), calls)
      case Failed(m) => Json(500, ErrorJson(m), calls)
    else Json(400, ErrorJson("Missing required field: agentId or llmId"), [])
  }

  /** The general route: an unparsable body counts as `{}`. */
  function General(verb: string, body: Body, svc: Services): (r: Reply)
    ensures r.headers == JsonHeaders && Shape(r)
  {
    var fields := if body.Parsed? then body.fields else map[];
    if verb == "POST" && TruthyField(fields, "prompt") then CreateLlmAndAgent(fields["prompt"], svc)
    else if verb == "DELETE" then DeleteAgentOrLlm(fields, svc)
    else Json(400, ErrorJson("Invalid request"), [])
  }

  /** The request handler: OPTIONS first, then the phone deletion, then the phone creation, then
      the general route. Every reply carries the CORS headers, answers with 200, 400 or 500, and
      makes at most two API calls. */
  function Handle(req: Request, svc: Services): (r: Reply)
    ensures forall key | key in CorsHeaders :: key in r.headers && r.headers[key] == CorsHeaders[key]
    ensures Shape(r)
  {
    JsonHeadersKeepCors();
    if req.verb == "OPTIONS" then Reply(200, PlainText("ok"), CorsHeaders, [])
    else if req.verb == "DELETE" && Text.Contains(req.url, DeletePhoneSep) then DeletePhone(req.url, svc)
    else if req.verb == "POST" && IsCreatePhoneUrl(req.url) then CreatePhone(req.body, svc)
    else General(req.verb, req.body, svc)
  }

  // ---- properties of the routing -----------------------------------------------------------

  /** OPTIONS is answered `ok` with the CORS headers, whatever the url and body. */
  lemma OptionsAnsweredFirst(req: Request, svc: Services)
    requires req.verb == "OPTIONS"
    ensures Handle(req, svc) == Reply(200, PlainText("ok"), CorsHeaders, [])
  {
  }

  /** A phone deletion without a number after the separator is refused before any call,
      whatever the body. */
  lemma DeletePhoneNeedsNumber(prefix: string, body: Body, svc: Services)
    requires forall k | 0 <= k < |prefix| :: !Text.OccursAt(prefix + DeletePhoneSep, DeletePhoneSep, k)
    ensures Handle(Request("DELETE", prefix + DeletePhoneSep, body), svc) ==
            Json(400, ErrorJson("Phone number is required"), [])
  {
    assert prefix + DeletePhoneSep + "" == prefix + DeletePhoneSep;
    PhoneFromUrlRoundTrip(prefix, "");
    Text.ContainsAt(prefix + DeletePhoneSep, DeletePhoneSep);
  }

  /** A phone deletion deletes the number taken from the url, whatever the body, and reports
      it by name; a failed deletion answers 500 with the request's message after a fixed
      prefix. */
  lemma DeletePhoneReply(prefix: string, phone: string, body: Body, svc: Services)
    requires forall k | 0 <= k < |prefix| :: !Text.OccursAt(prefix + DeletePhoneSep + phone, DeletePhoneSep, k)
    requires '/' !in phone && phone != ""
    ensures svc.deletePhone.Responded? ==>
              Handle(Request("DELETE", prefix + DeletePhoneSep + phone, body), svc) ==
              Json(200, MessageJson("Phone number " + phone + " deleted successfully"), [DeletePhoneNumber(phone)])
    ensures !svc.deletePhone.Responded? ==>
              Handle(Request("DELETE", prefix + DeletePhoneSep + phone, body), svc) ==
              Json(500, ErrorJson("Error deleting phone number: " + RetellRequest(svc.deletePhone, true).message),
                   [DeletePhoneNumber(phone)])
  {
    PhoneFromUrlRoundTrip(prefix, phone);
  }

  /** A create-phone request with an area code that is present but not a three-character number
      is refused before any call. */
  lemma BadAreaCodeRefused(url: string, fields: Fields, svc: Services)
    requires IsCreatePhoneUrl(url)
    requires !AreaCodeAccepted(Get(fields, "area_code"))
    ensures Handle(Request("POST", url, Parsed(fields)), svc) ==
            Json(400, ErrorJson("If area_code is provided, it must be a 3-digit number."), [])
  {
  }

  /** A create-phone request whose body does not parse is refused with the parser's message
      before any call. */
  lemma CreatePhoneUnparsable(url: string, message: string, svc: Services)
    requires IsCreatePhoneUrl(url)
    ensures Handle(Request("POST", url, Unparsable(message)), svc) ==
            Json(400, ErrorJson("Error processing request: " + message), [])
  {
  }

  /** A create-phone request with an accepted area code creates one number with the four fields
      of the body, and answers with the API's data, or 500 with the request's message after a
      fixed prefix. */
  lemma CreatePhoneReply(url: string, fields: Fields, svc: Services)
    requires IsCreatePhoneUrl(url)
    requires AreaCodeAccepted(Get(fields, "area_code"))
    ensures var r := Handle(Request("POST", url, Parsed(fields)), svc);
            r.calls == [CreatePhoneNumber(Get(fields, "area_code"), Get(fields, "inbound_agent_id"),
                                          Get(fields, "outbound_agent_id"), Get(fields, "nickname"))] &&
            (svc.createPhone.Responded? ==> r.status == 200 && r.payload == DataJson(svc.createPhone.data)) &&
            (!svc.createPhone.Responded? ==>
               r.status == 500 &&
               r.payload == ErrorJson("Error from Retell API: " + RetellRequest(svc.createPhone, false).message))
  {
  }

  /** Outside the phone routes an unparsable body is handled as the empty object. */
  lemma UnparsableBodyIsEmpty(req: Request, message: string, svc: Services)
    requires req.verb != "OPTIONS"
    requires !(req.verb == "DELETE" && Text.Contains(req.url, DeletePhoneSep))
    requires !(req.verb == "POST" && IsCreatePhoneUrl(req.url))
    ensures Handle(req.(body := Unparsable(message)), svc) == Handle(req.(body := Parsed(map[])), svc)
  {
  }

  /** A DELETE naming an agent deletes only the agent, even when an LLM id is given too, and
      answers with the fixed success message or 500 with the request's bare message. */
  lemma AgentIdTakesPrecedence(url: string, fields: Fields, svc: Services)
    requires !Text.Contains(url, DeletePhoneSep)
    requires TruthyField(fields, "agentId")
    ensures var r := Handle(Request("DELETE", url, Parsed(fields)), svc);
            r.calls == [DeleteAgent(fields["agentId"])] &&
            (svc.deleteAgent.Responded? ==> r.status == 200 && r.payload == SuccessJson("Agent deleted successfully")) &&
            (!svc.deleteAgent.Responded? ==>
               r.status == 500 && r.payload == ErrorJson(RetellRequest(svc.deleteAgent, true).message))
  {
  }

  /** A DELETE naming an LLM and no agent deletes only the LLM, and answers with the fixed
      success message or 500 with the request's bare message. */
  lemma LlmIdDeletesLlm(url: string, fields: Fields, svc: Services)
    requires !Text.Contains(url, DeletePhoneSep)
    requires !TruthyField(fields, "agentId") && TruthyField(fields, "llmId")
    ensures var r := Handle(Request("DELETE", url, Parsed(fields)), svc);
            r.calls == [DeleteRetellLlm(fields["llmId"])] &&
            (svc.deleteLlm.Responded? ==> r.status == 200 && r.payload == SuccessJson("LLM deleted successfully")) &&
            (!svc.deleteLlm.Responded? ==>
               r.status == 500 && r.payload == ErrorJson(RetellRequest(svc.deleteLlm, true).message))
  {
  }

  /** A DELETE naming neither an agent nor an LLM is refused before any call. */
  lemma DeleteNeedsAnId(url: string, fields: Fields, svc: Services)
    requires !Text.Contains(url, DeletePhoneSep)
    requires !TruthyField(fields, "agentId") && !TruthyField(fields, "llmId")
    ensures Handle(Request("DELETE", url, Parsed(fields)), svc) ==
            Json(400, ErrorJson("Missing required field: agentId or llmId"), [])
  {
  }

  /** A request that is neither OPTIONS, nor DELETE, nor a create-phone POST, nor a POST with a
      prompt is an invalid request. */
  lemma InvalidRequest(req: Request, svc: Services)
    requires req.verb != "OPTIONS" && req.verb != "DELETE"
    requires !(req.verb == "POST" && IsCreatePhoneUrl(req.url))
    requires !(req.verb == "POST" && req.body.Parsed? && TruthyField(req.body.fields, "prompt"))
    ensures Handle(req, svc) == Json(400, ErrorJson("Invalid request"), [])
  {
  }

  /** A POST with a prompt whose two calls succeed answers with both ids, the LLM's id being the
      one the agent was created with. */
  lemma PromptCreatesLlmThenAgent(url: string, fields: Fields, svc: Services)
    requires !IsCreatePhoneUrl(url)
    requires TruthyField(fields, "prompt")
    requires svc.createLlm.Responded? && svc.createAgent.Responded?
    ensures var r := Handle(Request("POST", url, Parsed(fields)), svc);
            r.status == 200 &&
            r.calls == [CreateRetellLlm(fields["prompt"]), CreateAgent(Get(svc.createLlm.data, "llm_id"))] &&
            r.payload == IdsJson(Get(svc.createLlm.data, "llm_id"), Get(svc.createAgent.data, "agent_id"))
  {
  }

  /** A POST with a prompt whose LLM creation fails answers 500 with the bare message and makes
      no agent; when the agent creation fails instead, both calls were made and its message is
      answered. */
  lemma PromptFailureAnswersMessage(url: string, fields: Fields, svc: Services)
    requires !IsCreatePhoneUrl(url)
    requires TruthyField(fields, "prompt")
    ensures !svc.createLlm.Responded? ==>
              Handle(Request("POST", url, Parsed(fields)), svc) ==
              Json(500, ErrorJson(RetellRequest(svc.createLlm, false).message), [CreateRetellLlm(fields["prompt"])])
    ensures svc.createLlm.Responded? && !svc.createAgent.Responded? ==>
              Handle(Request("POST", url, Parsed(fields)), svc) ==
              Json(500, ErrorJson(RetellRequest(svc.createAgent, false).message),
                   [CreateRetellLlm(fields["prompt"]), CreateAgent(Get(svc.createLlm.data, "llm_id"))])
  {
  }
}
