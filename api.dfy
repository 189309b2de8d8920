/**
 * The request bodies the REST client sends to the backend, and the error a
 * failed call reports. The transport itself is not modelled: each body is
 * what `JSON.stringify` receives (a key holding `undefined` is left out of
 * the JSON, so such keys are simply absent here).
 */
module Api {
  import opened Wrappers
  import opened JsValues
  import opened Text

  const DefaultAgentId := "rotunda-frontend-agent"

  // ---------------------------------------------------------------- apiCall

  /**
   * Why a call failed: the value handed to `new Error(...)`, or the
   * `TypeError` raised by reading `data.detail` when the error body is the
   * JSON `null`.
   */
  datatype CallError = Thrown(value: Json) | NullBodyTypeError

  /**
   * The outcome of a call once the response has arrived: the parsed body on
   * success; on a non-OK status, the first truthy of `detail`, `message` and
   * `error`, else `API Error: <status>`. A body that does not parse counts as
   * `{}`; a `null` body cannot be read and fails with a `TypeError`.
   */
  function ApiCallResult(ok: bool, status: nat, parsed: Option<Json>): (r: Result<Json, CallError>)
    ensures ok ==> r == Success(parsed.GetOr(JObj(map[])))
    ensures !ok && parsed == Some(JNull) ==> r == Failure(NullBodyTypeError)
    ensures !ok && parsed != Some(JNull) ==> r.Failure? && r.error.Thrown? && Truthy(r.error.value)
    ensures !ok && TruthyProp(Prop(parsed.GetOr(JObj(map[])), "detail")) ==>
              r == Failure(Thrown(Prop(parsed.GetOr(JObj(map[])), "detail").value))
    ensures !ok && !TruthyProp(Prop(parsed.GetOr(JObj(map[])), "detail"))
            && TruthyProp(Prop(parsed.GetOr(JObj(map[])), "message")) ==>
              r == Failure(Thrown(Prop(parsed.GetOr(JObj(map[])), "message").value))
    ensures !ok && !TruthyProp(Prop(parsed.GetOr(JObj(map[])), "detail"))
            && !TruthyProp(Prop(parsed.GetOr(JObj(map[])), "message"))
            && TruthyProp(Prop(parsed.GetOr(JObj(map[])), "error")) ==>
              r == Failure(Thrown(Prop(parsed.GetOr(JObj(map[])), "error").value))
    ensures !ok && parsed.None? ==> r == Failure(Thrown(JStr("API Error: " + Decimal(status))))
  {
    var data := parsed.GetOr(JObj(map[]));
    if ok then Success(data)
    else if data == JNull then Failure(NullBodyTypeError)
    else
      var alts := [Prop(data, "detail"), Prop(data, "message"), Prop(data, "error")];
      assert HoldsAt(alts, Truthy, 0) <==> TruthyProp(Prop(data, "detail"));
      assert HoldsAt(alts, Truthy, 1) <==> TruthyProp(Prop(data, "message"));
      assert HoldsAt(alts, Truthy, 2) <==> TruthyProp(Prop(data, "error"));
      Failure(Thrown(FirstTruthy(alts, Truthy).GetOr(JStr("API Error: " + Decimal(status)))))
  }

  /** The fallback applies when the body can be read and none of the three error fields is truthy. */
  lemma ApiErrorFallback(status: nat, parsed: Option<Json>)
    ensures var data := parsed.GetOr(JObj(map[]));
            (ApiCallResult(false, status, parsed) == Failure(Thrown(JStr("API Error: " + Decimal(status)))))
            <== (data != JNull && !TruthyProp(Prop(data, "detail")) && !TruthyProp(Prop(data, "message"))
                 && !TruthyProp(Prop(data, "error")))
  {
    var data := parsed.GetOr(JObj(map[]));
    var alts := [Prop(data, "detail"), Prop(data, "message"), Prop(data, "error")];
    assert forall i :: 0 <= i < 3 ==> (HoldsAt(alts, Truthy, i) <==> TruthyProp(alts[i]));
  }

  /** `message` is used when `detail` is falsy, whatever `error` holds. */
  lemma ApiErrorMessageBeforeError(status: nat, detail: Json, message: string, error: Json)
    requires !Truthy(detail) && message != ""
    ensures ApiCallResult(false, status, Some(JObj(map["detail" := detail, "message" := JStr(message), "error" := error])))
            == Failure(Thrown(JStr(message)))
  {
  }

  /**
   * The message of `new Error(value)`, which is `String(value)`: an array
   * joins its elements with commas (a `null` element giving the empty
   * string) and an object reads `[object Object]`.
   */
  function ErrorText(v: Json): (r: string)
    ensures v.JStr? ==> r == v.s
    ensures v.JObj? ==> r == "[object Object]"
    ensures v == JArr([]) ==> r == ""
    decreases v, 1, 0
  {
    match v
    case JNull => "null"
    case JBool(b) => if b then "true" else "false"
    case JNum(n) => if n < 0 then "-" + Decimal(-n) else Decimal(n)
    case JStr(s) => s
    case JArr(items) => JoinedText(v, 0)
    case JObj(_) => "[object Object]"
  }

  /** The elements of the array `v` from index `i` on, converted by `String` and joined with commas. */
  function JoinedText(v: Json, i: nat): string
    requires v.JArr? && i <= |v.items|
    decreases v, 0, |v.items| - i
  {
    if i == |v.items| then ""
    else
      var item := if v.items[i] == JNull then "" else ErrorText(v.items[i]);
      if i + 1 == |v.items| then item else item + "," + JoinedText(v, i + 1)
  }

  /**
   * The message of the `TypeError` raised by reading a property of `null`.
   * Its wording depends on the JavaScript engine; this is the V8 text.
   */
  const NullBodyTypeErrorText := "Cannot read properties of null (reading 'detail')"

  /** The message a failed call reports to its caller: `String` of the thrown value, or the `TypeError`'s own text. */
  function ReportedMessage(e: CallError): (r: string)
    ensures e.Thrown? ==> r == ErrorText(e.value)
    ensures e.NullBodyTypeError? ==> r == NullBodyTypeErrorText && r != ""
  {
    if e.Thrown? then ErrorText(e.value) else NullBodyTypeErrorText
  }

  /**
   * A truthy error value can still give an empty message: an empty
   * `detail` array is truthy, so it wins, and `String([])` is "".
   */
  lemma EmptyDetailArrayMessage(status: nat, message: string)
    ensures var r := ApiCallResult(false, status, Some(JObj(map["detail" := JArr([]), "message" := JStr(message)])));
            r.Failure? && ReportedMessage(r.error) == ""
  {
  }

  /** A validation error whose `detail` is a list of objects reports "[object Object]", not its text. */
  lemma ValidationDetailMessage(status: nat, entry: map<string, Json>)
    ensures var r := ApiCallResult(false, status, Some(JObj(map["detail" := JArr([JObj(entry)])])));
            r.Failure? && ReportedMessage(r.error) == "[object Object]"
  {
    assert JoinedText(JArr([JObj(entry)]), 0) == ErrorText(JObj(entry));
  }

  // ---------------------------------------------------------------- chat

  /** The options `chat` destructures; `None` is an option left undefined. */
  datatype ChatOptions = ChatOptions(agentId: Option<string>, stripeEnabled: Option<bool>, slackEnabled: Option<bool>,
                                     calEnabled: Option<bool>, calUrl: Option<Json>)

  const ChatKeys := {"message", "agentId", "StripeEnabled", "SlackEnabled", "CalEnabled", "CalUrl"}

  /**
   * The body of `chat`: the message and agent id, the three integration
   * flags under their capitalised names (false unless given) and the
   * calendar URL (null unless given).
   */
  function ChatBody(message: string, opts: ChatOptions): (r: JsonObject)
    ensures r.Keys == ChatKeys
    ensures r["message"] == JStr(message)
    ensures r["agentId"] == JStr(opts.agentId.GetOr(DefaultAgentId))
    ensures r["StripeEnabled"] == JBool(opts.stripeEnabled == Some(true))
    ensures r["SlackEnabled"] == JBool(opts.slackEnabled == Some(true))
    ensures r["CalEnabled"] == JBool(opts.calEnabled == Some(true))
    ensures r["CalUrl"] == opts.calUrl.GetOr(JNull)
  {
    map[
      "message" := JStr(message),
      "agentId" := JStr(opts.agentId.GetOr(DefaultAgentId)),
      "StripeEnabled" := JBool(opts.stripeEnabled.GetOr(false)),
      "SlackEnabled" := JBool(opts.slackEnabled.GetOr(false)),
      "CalEnabled" := JBool(opts.calEnabled.GetOr(false)),
      "CalUrl" := opts.calUrl.GetOr(JNull)
    ]
  }

  // ---------------------------------------------------------------- single-expression bodies

  /** The body of `enrichLead`. */
  function EnrichLeadBody(leadData: JsonObject, agentId: Option<string>): (r: JsonObject)
    ensures r.Keys == {"lead_data", "agentId"}
    ensures r["lead_data"] == JObj(leadData) && r["agentId"] == JStr(agentId.GetOr(DefaultAgentId))
  {
    map["lead_data" := JObj(leadData), "agentId" := JStr(agentId.GetOr(DefaultAgentId))]
  }

  /** The body of `resolveEmailComplaint`; an omitted customer info defaults to `{}`. */
  function ResolveComplaintBody(emailContent: string, customerInfo: Option<Json>, agentId: Option<string>): (r: JsonObject)
    ensures r.Keys == {"email_content", "customer_info", "agentId"}
    ensures r["email_content"] == JStr(emailContent)
    ensures customerInfo.Some? ==> r["customer_info"] == customerInfo.value
    ensures customerInfo.None? ==> r["customer_info"] == JObj(map[])
    ensures r["agentId"] == JStr(agentId.GetOr(DefaultAgentId))
  {
    map["email_content" := JStr(emailContent), "customer_info" := customerInfo.GetOr(JObj(map[])),
        "agentId" := JStr(agentId.GetOr(DefaultAgentId))]
  }

  // ---------------------------------------------------------------- salesForecast, marketingAnalysis

  /**
   * The body of `salesForecast`: query and agent id always, and
   * `historical_data` exactly when the data passed is truthy (an omitted
   * argument defaults to null).
   */
  method SalesForecastBody(query: string, historicalData: Json, agentId: Option<string>) returns (payload: JsonObject)
    ensures payload.Keys == {"query", "agentId"} + (if Truthy(historicalData) then {"historical_data"} else {})
    ensures payload["query"] == JStr(query) && payload["agentId"] == JStr(agentId.GetOr(DefaultAgentId))
    ensures "historical_data" in payload ==> payload["historical_data"] == historicalData
  {
    payload := map["query" := JStr(query), "agentId" := JStr(agentId.GetOr(DefaultAgentId))];
    if Truthy(historicalData) {
      payload := payload["historical_data" := historicalData];
    }
  }

  /** The body of `marketingAnalysis`: query and agent id always, and `campaign_data` exactly when the data passed is truthy. */
  method MarketingAnalysisBody(query: string, campaignData: Json, agentId: Option<string>) returns (payload: JsonObject)
    ensures payload.Keys == {"query", "agentId"} + (if Truthy(campaignData) then {"campaign_data"} else {})
    ensures payload["query"] == JStr(query) && payload["agentId"] == JStr(agentId.GetOr(DefaultAgentId))
    ensures "campaign_data" in payload ==> payload["campaign_data"] == campaignData
  {
    payload := map["query" := JStr(query), "agentId" := JStr(agentId.GetOr(DefaultAgentId))];
    if Truthy(campaignData) {
      payload := payload["campaign_data" := campaignData];
    }
  }

  // ---------------------------------------------------------------- retrieveEmails

  /** The options `retrieveEmails` destructures; `None` is an option left undefined. */
  datatype RetrieveOptions = RetrieveOptions(
    emailAddress: Option<string>, password: Option<string>,
    imapServer: Option<string>, imapPort: Option<int>, folder: Option<string>, limit: Option<int>,
    unreadOnly: Option<bool>, agentId: Option<string>, useGmailApi: Option<bool>,
    gmailCredentialsPath: Option<string>, gmailTokenPath: Option<string>)

  const DefaultImapServer := "imap.gmail.com"
  const DefaultImapPort := 993
  const DefaultFolder := "INBOX"
  const DefaultLimit := 10

  const EmailRequired := "email_address is required"
  const PasswordRequired := "password is required when not using Gmail API"

  /** The eight fields every retrieval body carries. */
  const BaseKeys := {"email_address", "imap_server", "imap_port", "folder", "limit", "unread_only", "agentId", "use_gmail_api"}

  predicate UsesGmail(o: RetrieveOptions) {
    o.useGmailApi == Some(true)
  }

  /** The options pass validation: an address, and a password unless the Gmail API is used. */
  predicate RetrieveAccepts(o: RetrieveOptions) {
    Present(o.emailAddress) && (Present(o.password) || UsesGmail(o))
  }

  /**
   * The body of `retrieveEmails`, or the error it throws before any request.
   * Undefined options take their defaults; the password is sent exactly when
   * IMAP is used and a password is given (Gmail mode never sends one); the
   * Gmail credential and token paths are sent exactly when truthy.
   */
  method RetrieveEmailsBody(o: RetrieveOptions) returns (r: Result<JsonObject, string>)
    ensures !Present(o.emailAddress) ==> r == Failure(EmailRequired)
    ensures Present(o.emailAddress) && !Present(o.password) && !UsesGmail(o) ==> r == Failure(PasswordRequired)
    ensures r.Success? <==> RetrieveAccepts(o)
    ensures r.Success? ==> r.value.Keys == BaseKeys
                                         + (if !UsesGmail(o) && Present(o.password) then {"password"} else {})
                                         + (if Present(o.gmailCredentialsPath) then {"gmail_credentials_path"} else {})
                                         + (if Present(o.gmailTokenPath) then {"gmail_token_path"} else {})
    ensures r.Success? ==> r.value["email_address"] == JStr(o.emailAddress.value)
    ensures r.Success? ==> r.value["imap_server"] == JStr(o.imapServer.GetOr(DefaultImapServer))
    ensures r.Success? ==> r.value["imap_port"] == JNum(o.imapPort.GetOr(DefaultImapPort))
    ensures r.Success? ==> r.value["folder"] == JStr(o.folder.GetOr(DefaultFolder))
    ensures r.Success? ==> r.value["limit"] == JNum(o.limit.GetOr(DefaultLimit))
    ensures r.Success? ==> r.value["unread_only"] == JBool(o.unreadOnly != Some(false))
    ensures r.Success? ==> r.value["agentId"] == JStr(o.agentId.GetOr(DefaultAgentId))
    ensures r.Success? ==> r.value["use_gmail_api"] == JBool(UsesGmail(o))
    ensures r.Success? && "password" in r.value ==> r.value["password"] == JStr(o.password.value)
    ensures r.Success? && "gmail_credentials_path" in r.value ==> r.value["gmail_credentials_path"] == JStr(o.gmailCredentialsPath.value)
    ensures r.Success? && "gmail_token_path" in r.value ==> r.value["gmail_token_path"] == JStr(o.gmailTokenPath.value)
  {
    var useGmailApi := o.useGmailApi.GetOr(false);
    if !Present(o.emailAddress) {
      return Failure(EmailRequired);
    }
    if !Present(o.password) && !useGmailApi {
      return Failure(PasswordRequired);
    }
    var payload := map[
      "email_address" := JStr(o.emailAddress.value),
      "imap_server" := JStr(o.imapServer.GetOr(DefaultImapServer)),
      "imap_port" := JNum(o.imapPort.GetOr(DefaultImapPort)),
      "folder" := JStr(o.folder.GetOr(DefaultFolder)),
      "limit" := JNum(o.limit.GetOr(DefaultLimit)),
      "unread_only" := JBool(o.unreadOnly.GetOr(true)),
      "agentId" := JStr(o.agentId.GetOr(DefaultAgentId)),
      "use_gmail_api" := JBool(useGmailApi)
    ];
    if !useGmailApi && Present(o.password) {
      payload := payload["password" := JStr(o.password.value)];
    }
    if Present(o.gmailCredentialsPath) {
      payload := payload["gmail_credentials_path" := JStr(o.gmailCredentialsPath.value)];
    }
    if Present(o.gmailTokenPath) {
      payload := payload["gmail_token_path" := JStr(o.gmailTokenPath.value)];
    }
    return Success(payload);
  }
}
