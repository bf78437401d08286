/**
  The StackVerify client: configuration, request construction, the five
  domain operations and the normalization of the server's answer. The
  transport (`fetch`) and `encodeURIComponent` are parameters.
 */
module StackVerify {
  import opened Wrappers
  import opened JsValue
  import opened Strings

  // =====================================================================
  // Configuration
  // =====================================================================

  const DefaultBaseUrl: string := "https://api.stackverify.site/api"
  const TestKeyPrefix: string := "sk_test_"

  datatype Mode = Test | Live

  /** The string stored in `this.mode`. */
  function ModeName(m: Mode): (r: string)
    ensures r == "test" || r == "live"
    ensures r == "test" <==> m == Test
  {
    match m
    case Test => "test"
    case Live => "live"
  }

  /** The fields of a constructed client; they never change afterwards. */
  datatype Config = Config(apiKey: string, baseUrl: string, mode: Mode)

  /** The options object handed to the constructor; `Undefined` where a key
      is not given. */
  datatype ClientOptions = ClientOptions(apiKey: Value, baseUrl: Value)

  datatype ConfigError =
    | ApiKeyRequired          // "StackVerify: apiKey is required"
    | NotAString(field: string) // TypeError: a string method called on a non-string

  function ModeOf(apiKey: string): Mode {
    if StartsWith(apiKey, TestKeyPrefix) then Test else Live
  }

  /** `this.mode` is "test" exactly for keys that begin with "sk_test_", and
      "live" for every other key. */
  lemma ModeStringOfKey(apiKey: string)
    ensures ModeName(ModeOf(apiKey)) ==
      if |apiKey| >= 8 && apiKey[..8] == "sk_test_" then "test" else "live"
  {
  }

  /** What every client the constructor returns satisfies. */
  predicate ValidConfig(c: Config) {
    && c.apiKey != ""
    && !EndsWithSlash(c.baseUrl)
    && c.mode == ModeOf(c.apiKey)
  }

  /** `new StackVerify({ apiKey, baseUrl })`. A falsy apiKey is rejected
      first; `baseUrl.replace` fails on a non-string baseUrl and
      `apiKey.startsWith` on a non-string apiKey. */
  function New(opts: ClientOptions): (r: Result<Config, ConfigError>)
    ensures !Truthy(opts.apiKey) <==> r == Failure(ApiKeyRequired)
    ensures r.Success? <==>
      Truthy(opts.apiKey) && opts.apiKey.Str? && (opts.baseUrl.Undefined? || opts.baseUrl.Str?)
    ensures r.Success? ==>
      && Str(r.value.apiKey) == opts.apiKey
      && r.value.baseUrl ==
           StripTrailingSlashes(if opts.baseUrl.Undefined? then DefaultBaseUrl else opts.baseUrl.s)
      && (r.value.mode == Test <==> StartsWith(r.value.apiKey, TestKeyPrefix))
      && ValidConfig(r.value)
  {
    if !Truthy(opts.apiKey) then Failure(ApiKeyRequired)
    else
      var baseUrl := if opts.baseUrl.Undefined? then Str(DefaultBaseUrl) else opts.baseUrl;
      if !baseUrl.Str? then Failure(NotAString("baseUrl"))
      else if !opts.apiKey.Str? then Failure(NotAString("apiKey"))
      else
        var key := opts.apiKey.s;
        Success(Config(key, StripTrailingSlashes(baseUrl.s), ModeOf(key)))
  }

  /** For a string or missing key, construction fails exactly when the key is
      missing or empty, and otherwise stores the key as given. */
  lemma NewFailsExactlyOnMissingKey(key: Option<string>, baseUrl: Option<string>)
    ensures var opts := ClientOptions(
              if key.Some? then Str(key.value) else Undefined,
              if baseUrl.Some? then Str(baseUrl.value) else Undefined);
      && (New(opts).Failure? <==> key.None? || key.value == "")
      && (New(opts).Success? ==> New(opts).value.apiKey == key.value)
      && (New(opts).Success? ==>
            (New(opts).value.mode == Test <==>
               |key.value| >= 8 && key.value[..8] == "sk_test_"))
  {
  }

  /** Building a client again from a client's own apiKey and baseUrl gives
      the same client: base-URL normalization is idempotent. */
  lemma NewIdempotent(opts: ClientOptions)
    requires New(opts).Success?
    ensures var c := New(opts).value;
      New(ClientOptions(Str(c.apiKey), Str(c.baseUrl))) == Success(c)
  {
  }

  /** The trailing-slash example: "https://x/api///" becomes "https://x/api". */
  lemma TrailingSlashesExample(key: string)
    requires key != ""
    ensures New(ClientOptions(Str(key), Str("https://x/api///"))).Success?
    ensures New(ClientOptions(Str(key), Str("https://x/api///"))).value.baseUrl == "https://x/api"
  {
    StripUnique("https://x/api", "///");
    assert "https://x/api" + "///" == "https://x/api///";
  }

  // =====================================================================
  // Requests
  // =====================================================================

  /** The JSON body of `sendSMS`, one field per key of the serialized object. */
  datatype Body =
    | SmsBody(recipients: Value, body: Value, sender_id: Value, templateId: Value, scheduleAt: Value)
    | CampaignBody(name: Value, channel: Value, subject: Value, html_body: Value,
                   text_body: Value, contact_list_id: Value, sending_domain_id: Value,
                   status: Value, scheduled_at: Value)

  /** The `options` argument of `_request`; `None` where a key is absent. */
  datatype RequestOptions = RequestOptions(
    verb: Option<string>,
    body: Option<Body>,
    headers: Option<map<string, string>>)

  /** The URL and init object handed to `fetch`. */
  datatype Request = Request(
    verb: string,
    url: string,
    headers: map<string, string>,
    body: Option<Body>)

  function DefaultHeaders(apiKey: string): (h: map<string, string>)
    ensures h.Keys == {"Content-Type", "Authorization"}
    ensures h["Content-Type"] == "application/json"
    ensures h["Authorization"] == "Bearer " + apiKey
  {
    map["Content-Type" := "application/json", "Authorization" := "Bearer " + apiKey]
  }

  /** `fetch(baseUrl + path, { method: "GET", headers: defaults, ...options })`:
      every key the options carry overrides the default of the same name. */
  function BuildRequest(c: Config, path: string, opts: RequestOptions): (req: Request)
    ensures req.url == c.baseUrl + path && c.baseUrl <= req.url
    ensures opts.verb.None? ==> req.verb == "GET"
    ensures opts.verb.Some? ==> req.verb == opts.verb.value
    ensures opts.headers.None? ==> req.headers == DefaultHeaders(c.apiKey)
    ensures opts.headers.Some? ==> req.headers == opts.headers.value
    ensures req.body == opts.body
  {
    Request(
      opts.verb.GetOr("GET"),
      c.baseUrl + path,
      opts.headers.GetOr(DefaultHeaders(c.apiKey)),
      opts.body)
  }

  /** The spread lets a caller of `_request` that passes `headers` replace the
      defaults wholesale, Authorization included. No domain operation does. */
  lemma CallerHeadersReplaceDefaults(c: Config, path: string)
    ensures "Authorization" !in
      BuildRequest(c, path, RequestOptions(None, None, Some(map["X-Trace" := "1"]))).headers
  {
  }

  /** The argument errors the domain operations raise before any request. */
  datatype ArgError =
    | NotNonEmptyArray(operation: string, field: string)
    | EitherRequired(operation: string, first: string, second: string)
    | Required(operation: string, field: string)

  /** The text of the JavaScript Error each argument error is thrown as. */
  function ArgErrorMessage(e: ArgError): (m: string)
    ensures StartsWith(m, e.operation + ": ")
    ensures e.Required? ==> EndsWith(m, " is required")
    ensures e.EitherRequired? ==> EndsWith(m, " is required")
    ensures e.NotNonEmptyArray? ==> EndsWith(m, " must be a non-empty array")
  {
    match e
    case NotNonEmptyArray(op, f) => op + ": " + f + " must be a non-empty array"
    case EitherRequired(op, a, b) => op + ": " + a + " or " + b + " is required"
    case Required(op, f) => op + ": " + f + " is required"
  }

  // =====================================================================
  // Domain operations
  // =====================================================================

  datatype SmsArgs = SmsArgs(
    recipients: Value, body: Value, sender_id: Value, templateId: Value, scheduleAt: Value)

  const SendSmsPath: string := "/v1/sms/send"

  /** `sendSMS`: recipients must be a non-empty array, then body or
      templateId must be truthy, then sender_id must be truthy; the first
      failing check decides the error. */
  function SendSms(c: Config, a: SmsArgs): (r: Result<Request, ArgError>)
    ensures r.Success? <==>
      IsNonEmptyArray(a.recipients) && (Truthy(a.body) || Truthy(a.templateId)) && Truthy(a.sender_id)
    ensures !IsNonEmptyArray(a.recipients) ==>
      r == Failure(NotNonEmptyArray("sendSMS", "recipients"))
    ensures IsNonEmptyArray(a.recipients) && !Truthy(a.body) && !Truthy(a.templateId) ==>
      r == Failure(EitherRequired("sendSMS", "body", "templateId"))
    ensures IsNonEmptyArray(a.recipients) && (Truthy(a.body) || Truthy(a.templateId))
            && !Truthy(a.sender_id) ==>
      r == Failure(Required("sendSMS", "sender_id"))
    ensures r.Success? ==> r.value == Request(
      "POST", c.baseUrl + SendSmsPath, DefaultHeaders(c.apiKey),
      Some(SmsBody(a.recipients, a.body, a.sender_id, a.templateId, a.scheduleAt)))
  {
    if !IsNonEmptyArray(a.recipients) then
      Failure(NotNonEmptyArray("sendSMS", "recipients"))
    else if !Truthy(a.body) && !Truthy(a.templateId) then
      Failure(EitherRequired("sendSMS", "body", "templateId"))
    else if !Truthy(a.sender_id) then
      Failure(Required("sendSMS", "sender_id"))
    else
      Success(BuildRequest(c, SendSmsPath, RequestOptions(
        Some("POST"),
        Some(SmsBody(a.recipients, a.body, a.sender_id, a.templateId, a.scheduleAt)),
        None)))
  }

  const SmsStatusPrefix: string := "/v1/sms/status/"

  /** `getSMSStatus(messageId)`; `enc` is `encodeURIComponent`. */
  function GetSmsStatus(c: Config, messageId: Value, enc: Value -> string): (r: Result<Request, ArgError>)
    ensures r.Failure? <==> !Truthy(messageId)
    ensures r.Failure? ==> r.error == Required("getSMSStatus", "messageId")
    ensures r.Success? ==> r.value == Request(
      "GET", c.baseUrl + SmsStatusPrefix + enc(messageId), DefaultHeaders(c.apiKey), None)
  {
    if !Truthy(messageId) then Failure(Required("getSMSStatus", "messageId"))
    else Success(BuildRequest(c, SmsStatusPrefix + enc(messageId), RequestOptions(None, None, None)))
  }

  const DomainPrefix: string := "/domains/"

  /** `getDomainStatus(domainId)`. */
  function GetDomainStatus(c: Config, domainId: Value, enc: Value -> string): (r: Result<Request, ArgError>)
    ensures r.Failure? <==> !Truthy(domainId)
    ensures r.Failure? ==> r.error == Required("getDomainStatus", "domainId")
    ensures r.Success? ==> r.value == Request(
      "GET", c.baseUrl + DomainPrefix + enc(domainId), DefaultHeaders(c.apiKey), None)
  {
    if !Truthy(domainId) then Failure(Required("getDomainStatus", "domainId"))
    else Success(BuildRequest(c, DomainPrefix + enc(domainId), RequestOptions(None, None, None)))
  }

  datatype CampaignArgs = CampaignArgs(
    name: Value, subject: Value, html_body: Value, text_body: Value,
    contact_list_id: Value, sending_domain_id: Value, status: Value, scheduled_at: Value)

  const CampaignsPath: string := "/campaigns"

  /** A destructuring default: it applies only when the value is `undefined`. */
  function Default(v: Value, d: Value): Value {
    if v.Undefined? then d else v
  }

  /** `createEmailCampaign`: the error names the first falsy field among
      name, subject, contact_list_id and sending_domain_id; on success the
      body has channel "email", status defaulting to "draft" and
      scheduled_at defaulting to null. */
  function CreateEmailCampaign(c: Config, a: CampaignArgs): (r: Result<Request, ArgError>)
    ensures r.Success? <==>
      Truthy(a.name) && Truthy(a.subject) && Truthy(a.contact_list_id) && Truthy(a.sending_domain_id)
    ensures !Truthy(a.name) ==>
      r == Failure(Required("createEmailCampaign", "name"))
    ensures Truthy(a.name) && !Truthy(a.subject) ==>
      r == Failure(Required("createEmailCampaign", "subject"))
    ensures Truthy(a.name) && Truthy(a.subject) && !Truthy(a.contact_list_id) ==>
      r == Failure(Required("createEmailCampaign", "contact_list_id"))
    ensures Truthy(a.name) && Truthy(a.subject) && Truthy(a.contact_list_id)
            && !Truthy(a.sending_domain_id) ==>
      r == Failure(Required("createEmailCampaign", "sending_domain_id"))
    ensures r.Success? ==>
      && r.value.verb == "POST"
      && r.value.url == c.baseUrl + CampaignsPath
      && r.value.headers == DefaultHeaders(c.apiKey)
      && r.value.body.Some?
      && var b := r.value.body.value;
         && b.CampaignBody?
         && b.channel == Str("email")
         && b.name == a.name && b.subject == a.subject
         && b.html_body == a.html_body && b.text_body == a.text_body
         && b.contact_list_id == a.contact_list_id
         && b.sending_domain_id == a.sending_domain_id
         && (a.status.Undefined? ==> b.status == Str("draft"))
         && (!a.status.Undefined? ==> b.status == a.status)
         && (a.scheduled_at.Undefined? ==> b.scheduled_at == Null)
         && (!a.scheduled_at.Undefined? ==> b.scheduled_at == a.scheduled_at)
  {
    var status := Default(a.status, Str("draft"));
    var scheduledAt := Default(a.scheduled_at, Null);
    if !Truthy(a.name) then Failure(Required("createEmailCampaign", "name"))
    else if !Truthy(a.subject) then Failure(Required("createEmailCampaign", "subject"))
    else if !Truthy(a.contact_list_id) then Failure(Required("createEmailCampaign", "contact_list_id"))
    else if !Truthy(a.sending_domain_id) then Failure(Required("createEmailCampaign", "sending_domain_id"))
    else
      Success(BuildRequest(c, CampaignsPath, RequestOptions(
        Some("POST"),
        Some(CampaignBody(a.name, Str("email"), a.subject, a.html_body, a.text_body,
                          a.contact_list_id, a.sending_domain_id, status, scheduledAt)),
        None)))
  }

  const StartSuffix: string := "/start"

  /** `startCampaign(campaignId)`: a POST without a body. */
  function StartCampaign(c: Config, campaignId: Value, enc: Value -> string): (r: Result<Request, ArgError>)
    ensures r.Failure? <==> !Truthy(campaignId)
    ensures r.Failure? ==> r.error == Required("startCampaign", "campaignId")
    ensures r.Success? ==> r.value == Request(
      "POST", c.baseUrl + CampaignsPath + "/" + enc(campaignId) + StartSuffix,
      DefaultHeaders(c.apiKey), None)
  {
    if !Truthy(campaignId) then Failure(Required("startCampaign", "campaignId"))
    else Success(BuildRequest(c, CampaignsPath + "/" + enc(campaignId) + StartSuffix,
                              RequestOptions(Some("POST"), None, None)))
  }

  /** The invocation of one domain operation with its arguments. */
  datatype Call =
    | SendSmsCall(sms: SmsArgs)
    | SmsStatusCall(messageId: Value)
    | DomainStatusCall(domainId: Value)
    | CreateCampaignCall(campaign: CampaignArgs)
    | StartCampaignCall(campaignId: Value)

  function Dispatch(c: Config, call: Call, enc: Value -> string): Result<Request, ArgError> {
    match call
    case SendSmsCall(a) => SendSms(c, a)
    case SmsStatusCall(id) => GetSmsStatus(c, id, enc)
    case DomainStatusCall(id) => GetDomainStatus(c, id, enc)
    case CreateCampaignCall(a) => CreateEmailCampaign(c, a)
    case StartCampaignCall(id) => StartCampaign(c, id, enc)
  }

  /** The argument errors the five operations can raise. */
  const RaisedErrors: set<ArgError> := {
    NotNonEmptyArray("sendSMS", "recipients"),
    EitherRequired("sendSMS", "body", "templateId"),
    Required("sendSMS", "sender_id"),
    Required("getSMSStatus", "messageId"),
    Required("getDomainStatus", "domainId"),
    Required("createEmailCampaign", "name"),
    Required("createEmailCampaign", "subject"),
    Required("createEmailCampaign", "contact_list_id"),
    Required("createEmailCampaign", "sending_domain_id"),
    Required("startCampaign", "campaignId")
  }

  /** Every failing call raises one of the known argument errors. */
  lemma DispatchRaisesKnownErrors(c: Config, call: Call, enc: Value -> string)
    ensures Dispatch(c, call, enc).Failure? ==> Dispatch(c, call, enc).error in RaisedErrors
  {
  }

  /** The length of a message and its first character, read off the error. */
  function MessageKey(e: ArgError): (int, char)
    requires e.operation != ""
  {
    var n := |e.operation| + 2 + match e
      case NotNonEmptyArray(_, f) => |f| + 26
      case EitherRequired(_, a, b) => |a| + 4 + |b| + 12
      case Required(_, f) => |f| + 12;
    (n, e.operation[0])
  }

  lemma MessageHasKey(e: ArgError)
    requires e.operation != ""
    ensures var m := ArgErrorMessage(e); |m| > 0 && (|m|, m[0]) == MessageKey(e)
  {
  }

  /** The raised errors have pairwise distinct keys. */
  lemma RaisedKeysDistinct(e1: ArgError, e2: ArgError)
    requires e1 in RaisedErrors && e2 in RaisedErrors
    requires MessageKey(e1) == MessageKey(e2)
    ensures e1 == e2
  {
  }

  /** The message texts tell the raised errors apart: equal texts mean the
      same operation and field. */
  lemma ArgErrorMessagesDistinct(e1: ArgError, e2: ArgError)
    requires e1 in RaisedErrors && e2 in RaisedErrors
    requires ArgErrorMessage(e1) == ArgErrorMessage(e2)
    ensures e1 == e2
  {
    MessageHasKey(e1);
    MessageHasKey(e2);
    RaisedKeysDistinct(e1, e2);
  }

  /** Every request a domain operation builds carries the JSON content type
      and the bearer token, uses GET or POST, and goes to the base URL
      followed by a path that starts with '/'; for a constructed client that
      join has exactly one slash. */
  lemma EveryRequestIsAuthorized(c: Config, call: Call, enc: Value -> string)
    ensures Dispatch(c, call, enc).Success? ==>
      var req := Dispatch(c, call, enc).value;
      && req.headers == DefaultHeaders(c.apiKey)
      && req.headers["Authorization"] == "Bearer " + c.apiKey
      && req.headers["Content-Type"] == "application/json"
      && (req.verb == "GET" || req.verb == "POST")
      && c.baseUrl < req.url
      && req.url[|c.baseUrl|] == '/'
      && (ValidConfig(c) && |c.baseUrl| > 0 ==> req.url[|c.baseUrl| - 1] != '/')
  {
  }

  // =====================================================================
  // Routes: the endpoint a request reaches, read back from method and path
  // =====================================================================

  datatype Route =
    | SendSmsRoute
    | SmsStatusRoute(messageSegment: string)
    | DomainStatusRoute(domainSegment: string)
    | CreateCampaignRoute
    | StartCampaignRoute(campaignSegment: string)

  /** The endpoint table: which operation a method and path address, and the
      encoded id segment inside the path. */
  function ParseRoute(verb: string, path: string): Option<Route> {
    if verb == "POST" && path == SendSmsPath then Some(SendSmsRoute)
    else if verb == "GET" && StartsWith(path, SmsStatusPrefix) then
      Some(SmsStatusRoute(path[|SmsStatusPrefix|..]))
    else if verb == "GET" && StartsWith(path, DomainPrefix) then
      Some(DomainStatusRoute(path[|DomainPrefix|..]))
    else if verb == "POST" && path == CampaignsPath then Some(CreateCampaignRoute)
    else if verb == "POST" && |path| >= |CampaignsPath| + 1 + |StartSuffix|
            && StartsWith(path, CampaignsPath + "/") && EndsWith(path, StartSuffix) then
      Some(StartCampaignRoute(path[|CampaignsPath| + 1..|path| - |StartSuffix|]))
    else None
  }

  function RouteOf(call: Call, enc: Value -> string): Route {
    match call
    case SendSmsCall(_) => SendSmsRoute
    case SmsStatusCall(id) => SmsStatusRoute(enc(id))
    case DomainStatusCall(id) => DomainStatusRoute(enc(id))
    case CreateCampaignCall(_) => CreateCampaignRoute
    case StartCampaignCall(id) => StartCampaignRoute(enc(id))
  }

  /** Each operation reaches its own endpoint, and the encoded id is exactly
      the id segment of the path: reading the route back from the request
      recovers the operation and `enc(id)`. */
  lemma {:induction false} RequestRouteRoundTrip(c: Config, call: Call, enc: Value -> string)
    requires Dispatch(c, call, enc).Success?
    ensures var req := Dispatch(c, call, enc).value;
      && c.baseUrl <= req.url
      && ParseRoute(req.verb, req.url[|c.baseUrl|..]) == Some(RouteOf(call, enc))
  {
    var req := Dispatch(c, call, enc).value;
    var path := req.url[|c.baseUrl|..];
    match call
    case SendSmsCall(_) =>
      assert path == SendSmsPath;
    case SmsStatusCall(id) =>
      assert path == SmsStatusPrefix + enc(id);
      assert path[..|SmsStatusPrefix|] == SmsStatusPrefix;
      assert path[|SmsStatusPrefix|..] == enc(id);
    case DomainStatusCall(id) =>
      assert path == DomainPrefix + enc(id);
      assert path[..|DomainPrefix|] == DomainPrefix;
      assert !StartsWith(path, SmsStatusPrefix) by { assert path[1] == 'd'; }
      assert path[|DomainPrefix|..] == enc(id);
    case CreateCampaignCall(_) =>
      assert path == CampaignsPath;
    case StartCampaignCall(id) =>
      var e := enc(id);
      assert path == CampaignsPath + "/" + e + StartSuffix;
      assert path != CampaignsPath by { assert |path| > |CampaignsPath|; }
      assert path[..|CampaignsPath| + 1] == CampaignsPath + "/";
      assert path[|path| - |StartSuffix|..] == StartSuffix;
      assert path[|CampaignsPath| + 1..|path| - |StartSuffix|] == e;
  }

  /** Two successful calls that produce the same method and URL are the same
      operation with the same encoded id. */
  lemma DistinctOperationsDoNotCollide(c: Config, call1: Call, call2: Call, enc: Value -> string)
    requires Dispatch(c, call1, enc).Success? && Dispatch(c, call2, enc).Success?
    requires Dispatch(c, call1, enc).value.verb == Dispatch(c, call2, enc).value.verb
    requires Dispatch(c, call1, enc).value.url == Dispatch(c, call2, enc).value.url
    ensures RouteOf(call1, enc) == RouteOf(call2, enc)
  {
    RequestRouteRoundTrip(c, call1, enc);
    RequestRouteRoundTrip(c, call2, enc);
  }

  // =====================================================================
  // Responses
  // =====================================================================

  /** What the transport reports: `res.ok`, `res.status`, and the result of
      `res.json()` (`None` when the body did not parse). */
  datatype HttpResponse = HttpResponse(ok: bool, status: nat, parsed: Option<Value>)

  /** The fields the client attaches to the Error it throws for a non-ok
      response; `message` is the value handed to the Error constructor. */
  datatype ApiError = ApiError(
    message: Value, status: nat, code: Value, retryAfter: Value, response: Value)

  const GenericPrefix: string := "StackVerify API error ("

  /** `StackVerify API error (${status})`. */
  function GenericErrorMessage(status: nat): string {
    GenericPrefix + DecimalString(status) + ")"
  }

  /** The generic message names the status: reading the numeral between the
      parentheses gives the status back. */
  lemma GenericMessageNamesStatus(status: nat)
    ensures var m := GenericErrorMessage(status);
      && |m| > |GenericPrefix| + 1
      && m[..|GenericPrefix|] == GenericPrefix
      && m[|m| - 1] == ')'
      && AllDigits(m[|GenericPrefix|..|m| - 1])
      && ParseDecimal(m[|GenericPrefix|..|m| - 1]) == status
  {
    var m := GenericErrorMessage(status);
    assert m[|GenericPrefix|..|m| - 1] == DecimalString(status);
    ParseDecimalString(status);
  }

  /** `data`: the parsed body, or `null` when parsing failed. */
  function ResponseData(res: HttpResponse): Value {
    res.parsed.GetOr(Null)
  }

  /** The tail of `_request`: an ok response yields its data; any other
      response an error whose message is the body's truthy `message` or the
      generic text (so it is always truthy), whose code and retry_after are
      the body's truthy `error` and `retry_after` or null, and which keeps
      the status and the whole data. */
  function Normalize(res: HttpResponse): (r: Result<Value, ApiError>)
    ensures r.Success? <==> res.ok
    ensures r.Success? ==> r.value == ResponseData(res)
    ensures r.Failure? ==>
      var data := ResponseData(res);
      var e := r.error;
      && e.status == res.status
      && e.response == data
      && Truthy(e.message)
      && (Truthy(Get(data, "message")) ==> e.message == Get(data, "message"))
      && (!Truthy(Get(data, "message")) ==> e.message == Str(GenericErrorMessage(res.status)))
      && (e.code == Null || Truthy(e.code))
      && (Truthy(Get(data, "error")) ==> e.code == Get(data, "error"))
      && (!Truthy(Get(data, "error")) ==> e.code == Null)
      && (e.retryAfter == Null || Truthy(e.retryAfter))
      && (Truthy(Get(data, "retry_after")) ==> e.retryAfter == Get(data, "retry_after"))
      && (!Truthy(Get(data, "retry_after")) ==> e.retryAfter == Null)
  {
    var data := ResponseData(res);
    if res.ok then Success(data)
    else Failure(ApiError(
      Or(Get(data, "message"), Str(GenericErrorMessage(res.status))),
      res.status,
      Or(Get(data, "error"), Null),
      Or(Get(data, "retry_after"), Null),
      data))
  }

  /** A body with message "bad sender", error "invalid_sender" and
      retry_after 30 is reported with exactly those fields. */
  lemma BadSenderExample(status: nat)
    ensures var data := Obj(map["message" := Str("bad sender"), "error" := Str("invalid_sender"),
                                "retry_after" := Num(30.0)]);
      Normalize(HttpResponse(false, status, Some(data))) ==
        Failure(ApiError(Str("bad sender"), status, Str("invalid_sender"), Num(30.0), data))
  {
  }

  /** Falsy fields fall back: a zero retry_after and an empty error become
      null, and an empty message becomes the generic text. */
  lemma FalsyFieldsFallBack(status: nat)
    ensures var data := Obj(map["message" := Str(""), "error" := Str(""), "retry_after" := Num(0.0)]);
      Normalize(HttpResponse(false, status, Some(data))) ==
        Failure(ApiError(Str(GenericErrorMessage(status)), status, Null, Null, data))
  {
  }

  // =====================================================================
  // One call end to end
  // =====================================================================

  /** What the transport does with a request: answers it, or rejects. */
  datatype HttpResult = Received(response: HttpResponse) | NetworkFailure

  datatype ClientError =
    | InvalidArgument(arg: ArgError)
    | Api(api: ApiError)
    | Transport

  /** The result of a call together with every request handed to the
      transport while it ran. */
  datatype Outcome = Outcome(result: Result<Value, ClientError>, sent: seq<Request>)

  /** A domain operation followed by `_request`: validation either fails
      with nothing sent, or exactly one request is sent and its response
      normalized. */
  function Execute(c: Config, call: Call, enc: Value -> string, fetch: Request -> HttpResult): (o: Outcome)
    ensures o.sent == [] <==> Dispatch(c, call, enc).Failure?
    ensures Dispatch(c, call, enc).Failure? ==>
      o.result == Failure(InvalidArgument(Dispatch(c, call, enc).error))
    ensures Dispatch(c, call, enc).Success? ==>
      var req := Dispatch(c, call, enc).value;
      && o.sent == [req]
      && (fetch(req).NetworkFailure? ==> o.result == Failure(Transport))
      && (fetch(req).Received? ==>
            match Normalize(fetch(req).response)
            case Success(data) => o.result == Success(data)
            case Failure(e) => o.result == Failure(Api(e)))
  {
    match Dispatch(c, call, enc)
    case Failure(e) => Outcome(Failure(InvalidArgument(e)), [])
    case Success(req) =>
      match fetch(req)
      case NetworkFailure => Outcome(Failure(Transport), [req])
      case Received(res) =>
        match Normalize(res)
        case Success(data) => Outcome(Success(data), [req])
        case Failure(e) => Outcome(Failure(Api(e)), [req])
  }

  /** Missing recipients are reported before the transport is touched,
      whatever the other fields hold. */
  lemma EmptyRecipientsSendNothing(c: Config, a: SmsArgs, enc: Value -> string, fetch: Request -> HttpResult)
    requires a.recipients == Arr([])
    ensures Execute(c, SendSmsCall(a), enc, fetch) ==
      Outcome(Failure(InvalidArgument(NotNonEmptyArray("sendSMS", "recipients"))), [])
  {
  }
}
