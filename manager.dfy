/** The text.ru client: the check-request payload, the three remote operations
    and the rules by which their decoded JSON responses become a result or an
    error. */
module Api {
  import opened Php
  import opened Model

  /** Form fields of a form-encoded POST request. */
  type Form = map<string, string>

  /** One request handed to the injected HTTP client. */
  datatype Request = Request(httpMethod: string, uri: string, form: Form)

  /** What the injected HTTP client answers: a response body, or a transport
      failure with its message and code. */
  datatype Response = Delivered(body: string) | Failed(message: string, code: int)

  /** The two kinds of failure a caller can see. A remote error carries the
      decoded `error_desc` (or its default) and `error_code`. */
  datatype ApiError =
    | RemoteError(desc: Value, code: Value)
    | TransportError(message: string, exceptionCode: int)

  datatype Outcome<T> = Ok(value: T) | Fail(error: ApiError)

  const ApiMethod: string := "POST"
  const ApiUri: string := "https://api.text.ru/"
  const ApiUriPost: string := ApiUri + "post"
  const ApiUriAccount: string := ApiUri + "account"

  /** Description used when an error response has no `error_desc`. */
  const UnknownDesc: string := "_unknown_"

  /** The payload `prepareCheckData` builds, stated field by field: `text` and
      `userkey` always; `callback` only for a non-empty callback URL;
      `visible = "vis_on"` only for a public result; `copying = "noadd"` only
      when no visual report is wanted; `exceptdomain` only for a non-empty
      domain list, holding the domains joined by single spaces. No other key. */
  ghost predicate IsCheckPayload(
    data: Form, apiKey: string, text: string, resultCallback: Option<string>,
    isResultPublic: bool, hasResultVisualReport: bool, excludedDomains: seq<string>)
  {
    && data.Keys <= {"text", "userkey", "callback", "visible", "copying", "exceptdomain"}
    && "text" in data && data["text"] == text
    && "userkey" in data && data["userkey"] == apiKey
    && ("callback" in data <==> !IsEmpty(resultCallback))
    && ("callback" in data ==> data["callback"] == resultCallback.value)
    && ("visible" in data <==> isResultPublic)
    && ("visible" in data ==> data["visible"] == "vis_on")
    && ("copying" in data <==> !hasResultVisualReport)
    && ("copying" in data ==> data["copying"] == "noadd")
    && ("exceptdomain" in data <==> |excludedDomains| != 0)
    && ("exceptdomain" in data ==> data["exceptdomain"] == Implode(" ", excludedDomains))
  }

  /** The error-envelope rule every operation applies to the decoded body: an
      `error_code` that is set makes the call fail with `error_desc`, or
      "_unknown_" when that is not set, and with the code. */
  function ErrorEnvelope(v: Value): Option<ApiError>
  {
    if IsSet(v, "error_code")
    then Some(RemoteError(Coalesce(v, "error_desc", JStr(UnknownDesc)), Field(v, "error_code")))
    else None
  }

  /** The decoded response of a check submission: an error, or `text_uid`. */
  function CheckResponse(v: Value): Outcome<Value>
  {
    match ErrorEnvelope(v)
    case Some(e) => Fail(e)
    case None => Ok(Field(v, "text_uid"))
  }

  /** The decoded response of an account query: an error, or `size` cast to an
      integer. */
  function SymbolsResponse(php: Runtime, v: Value): Outcome<int>
  {
    match ErrorEnvelope(v)
    case Some(e) => Fail(e)
    case None => Ok(php.intCast(Field(v, "size")))
  }

  /** `$seoResult`: the second decode of the string in `seo_check`, or an
      empty array when `seo_check` is not set. Decoding a non-string scalar
      can only give a scalar, which has no keys; it is modelled as null. */
  function SeoResult(php: Runtime, v: Value): Value
  {
    if IsSet(v, "seo_check") then
      match Field(v, "seo_check")
      case JStr(s) => php.jsonDecode(s)
      case _ => JNull
    else JList([])
  }

  /** `water_percent` of the decoded `seo_check`, or 0 when either is missing. */
  function WaterPercent(php: Runtime, v: Value): Value
  {
    Coalesce(SeoResult(php, v), "water_percent", JInt(0))
  }

  /** `parseResult` after its first `json_decode`. */
  function ParseDecoded(php: Runtime, v: Value, textId: Option<string>): Outcome<CheckResult>
  {
    match ErrorEnvelope(v)
    case Some(e) => Fail(e)
    case None =>
      Ok(CheckResult(
        if textId.Some? then JStr(textId.value) else Field(v, "uid"),
        php.floatCast(Field(v, "text_unique")),
        WaterPercent(php, v)))
  }

  /** `parseResult($requestContent, $textId)`: decode the body and interpret it.
      It reads no client state, so a caller holding a callback body can use it
      without polling. */
  function ParseResult(php: Runtime, requestContent: string, textId: Option<string>): Outcome<CheckResult>
  {
    ParseDecoded(php, php.jsonDecode(requestContent), textId)
  }

  /** A transport failure surfaces with its own message and code; a delivered
      body goes on to be decoded. */
  function TransportFailure<T>(response: Response): Outcome<T>
    requires response.Failed?
  {
    Fail(TransportError(response.message, response.code))
  }

  /** The client: an API key and an injected HTTP client, both fixed at
      construction. Every operation makes exactly one request; the ghost
      out-parameter `sent` is that request. */
  class Manager {
    const apiKey: string
    const client: Request -> Response

    constructor (apiKey: string, client: Request -> Response)
      ensures this.apiKey == apiKey && this.client == client
    {
      this.apiKey := apiKey;
      this.client := client;
    }

    /** Builds the check-request payload from two mandatory and four
        conditional fields. */
    method PrepareCheckData(
      text: string, resultCallback: Option<string>, isResultPublic: bool,
      hasResultVisualReport: bool, excludedDomains: seq<string>)
      returns (data: Form)
      ensures IsCheckPayload(data, apiKey, text, resultCallback, isResultPublic,
                             hasResultVisualReport, excludedDomains)
    {
      data := map["text" := text, "userkey" := apiKey];
      if !IsEmpty(resultCallback) {
        data := data["callback" := resultCallback.value];
      }
      if isResultPublic {
        data := data["visible" := "vis_on"];
      }
      if !hasResultVisualReport {
        data := data["copying" := "noadd"];
      }
      if |excludedDomains| != 0 {
        data := data["exceptdomain" := Implode(" ", excludedDomains)];
      }
    }

    /** Submits a text: posts the payload and returns the text's identifier,
        or the remote or transport error. */
    method Check(
      php: Runtime, text: string, resultCallback: Option<string>, isResultPublic: bool,
      hasResultVisualReport: bool, excludedDomains: seq<string>)
      returns (r: Outcome<Value>, ghost sent: Request)
      ensures sent.httpMethod == ApiMethod && sent.uri == ApiUriPost
      ensures IsCheckPayload(sent.form, apiKey, text, resultCallback, isResultPublic,
                             hasResultVisualReport, excludedDomains)
      ensures client(sent).Failed? ==> r == Fail(TransportError(client(sent).message, client(sent).code))
      ensures client(sent).Delivered? ==> r == CheckResponse(php.jsonDecode(client(sent).body))
    {
      var data := PrepareCheckData(text, resultCallback, isResultPublic,
                                   hasResultVisualReport, excludedDomains);
      var request := Request(ApiMethod, ApiUriPost, data);
      sent := request;
      var response := client(request);
      if response.Failed? {
        r := TransportFailure(response);
      } else {
        r := CheckResponse(php.jsonDecode(response.body));
      }
    }

    /** Polls for the result of a submitted text: posts `uid`, `userkey` and
        `jsonvisible = "detail"`, and parses the body with the caller's
        identifier. */
    method TryGetResult(php: Runtime, textId: string)
      returns (r: Outcome<CheckResult>, ghost sent: Request)
      ensures sent == Request(ApiMethod, ApiUriPost,
                              map["uid" := textId, "userkey" := apiKey, "jsonvisible" := "detail"])
      ensures client(sent).Failed? ==> r == Fail(TransportError(client(sent).message, client(sent).code))
      ensures client(sent).Delivered? ==> r == ParseResult(php, client(sent).body, Some(textId))
    {
      var request := Request(ApiMethod, ApiUriPost,
                             map["uid" := textId, "userkey" := apiKey, "jsonvisible" := "detail"]);
      sent := request;
      var response := client(request);
      if response.Failed? {
        r := TransportFailure(response);
      } else {
        r := ParseResult(php, response.body, Some(textId));
      }
    }

    /** Queries the remaining character quota of the account. */
    method GetAvailableSymbols(php: Runtime)
      returns (r: Outcome<int>, ghost sent: Request)
      ensures sent == Request(ApiMethod, ApiUriAccount,
                              map["method" := "get_packages_info", "userkey" := apiKey])
      ensures client(sent).Failed? ==> r == Fail(TransportError(client(sent).message, client(sent).code))
      ensures client(sent).Delivered? ==> r == SymbolsResponse(php, php.jsonDecode(client(sent).body))
    {
      var request := Request(ApiMethod, ApiUriAccount,
                             map["method" := "get_packages_info", "userkey" := apiKey]);
      sent := request;
      var response := client(request);
      if response.Failed? {
        r := TransportFailure(response);
      } else {
        r := SymbolsResponse(php, php.jsonDecode(response.body));
      }
    }
  }
}
