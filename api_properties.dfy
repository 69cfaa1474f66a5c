/** What the client promises about its request payload and about how each
    operation reads a decoded response. */
module ApiProperties {
  import opened Php
  import opened Model
  import opened Api

  // ---------------------------------------------------------------------------
  // The check-request payload

  /** The field-by-field description leaves nothing open: at most one payload
      meets it for given arguments. */
  lemma PayloadUnique(
    d1: Form, d2: Form, apiKey: string, text: string, resultCallback: Option<string>,
    isResultPublic: bool, hasResultVisualReport: bool, excludedDomains: seq<string>)
    requires IsCheckPayload(d1, apiKey, text, resultCallback, isResultPublic,
                            hasResultVisualReport, excludedDomains)
    requires IsCheckPayload(d2, apiKey, text, resultCallback, isResultPublic,
                            hasResultVisualReport, excludedDomains)
    ensures d1 == d2
  {
  }

  /** `check` with only a text (no callback, private result, visual report
      flag at its public default of false, no excluded domains) sends exactly
      `text`, `userkey` and `copying = "noadd"`. */
  lemma PayloadOfDefaults(data: Form, apiKey: string, text: string)
    ensures IsCheckPayload(data, apiKey, text, None, false, false, [])
        <==> data == map["text" := text, "userkey" := apiKey, "copying" := "noadd"]
  {
    var expected := map["text" := text, "userkey" := apiKey, "copying" := "noadd"];
    assert IsCheckPayload(expected, apiKey, text, None, false, false, []);
    if IsCheckPayload(data, apiKey, text, None, false, false, []) {
      PayloadUnique(data, expected, apiKey, text, None, false, false, []);
    }
  }

  /** The payload of the unit test for `check`: all four optional fields set,
      the two domains joined by one space. */
  lemma PayloadOfUnitTest()
    ensures IsCheckPayload(
      map["text" := "Some text", "userkey" := "apikey",
          "callback" := "http://test.com/process-result", "copying" := "noadd",
          "visible" := "vis_on", "exceptdomain" := "test.com mail.ru"],
      "apikey", "Some text", Some("http://test.com/process-result"), true, false,
      ["test.com", "mail.ru"])
  {
    assert Implode(" ", ["test.com", "mail.ru"]) == "test.com mail.ru";
  }

  /** `exceptdomain` carries the domain list losslessly: splitting it on the
      space gives back the excluded domains in order, when none contains a
      space. */
  lemma ExceptDomainsRecoverable(
    data: Form, apiKey: string, text: string, resultCallback: Option<string>,
    isResultPublic: bool, hasResultVisualReport: bool, excludedDomains: seq<string>)
    requires IsCheckPayload(data, apiKey, text, resultCallback, isResultPublic,
                            hasResultVisualReport, excludedDomains)
    requires |excludedDomains| != 0
    requires forall i :: 0 <= i < |excludedDomains| ==> ' ' !in excludedDomains[i]
    ensures "exceptdomain" in data && Explode(' ', data["exceptdomain"]) == excludedDomains
  {
    ExplodeImplode(' ', excludedDomains);
  }

  // ---------------------------------------------------------------------------
  // The error envelope

  /** An error response as the service sends it: `error_code`, and optionally
      `error_desc`. */
  function ErrorBody(code: Value, desc: Option<Value>): Value
  {
    JObj(map["error_code" := code] + (if desc.Some? then map["error_desc" := desc.value] else map[]))
  }

  /** Reading an error response gives back its code, and its description or
      "_unknown_" when it has none. */
  lemma ErrorEnvelopeOfErrorBody(code: Value, desc: Option<Value>)
    requires code != JNull
    ensures ErrorEnvelope(ErrorBody(code, desc))
         == Some(RemoteError(if desc.Some? && desc.value != JNull then desc.value else JStr("_unknown_"), code))
  {
  }

  /** The same rule for every operation: once `error_code` is set, `check`,
      `tryGetResult`, `parseResult` and `getAvailableSymbols` all fail with the
      same remote error, whatever else the body holds. */
  lemma RemoteErrorUniform(php: Runtime, body: string, textId: Option<string>)
    requires IsSet(php.jsonDecode(body), "error_code")
    ensures var v := php.jsonDecode(body);
            var e := RemoteError(Coalesce(v, "error_desc", JStr("_unknown_")), Field(v, "error_code"));
            && CheckResponse(v) == Fail(e)
            && SymbolsResponse(php, v) == Fail(e)
            && ParseResult(php, body, textId) == Fail(e)
  {
  }

  /** Without a set `error_code` no operation reports a remote error: `check`
      returns `text_uid` and `getAvailableSymbols` returns `size` cast to an
      integer. */
  lemma SuccessProjections(php: Runtime, body: string, textId: Option<string>)
    requires !IsSet(php.jsonDecode(body), "error_code")
    ensures var v := php.jsonDecode(body);
            && CheckResponse(v) == Ok(Field(v, "text_uid"))
            && SymbolsResponse(php, v) == Ok(php.intCast(Field(v, "size")))
            && ParseResult(php, body, textId).Ok?
  {
  }

  /** An `error_code` that is present but null does not count as an error. */
  lemma NullErrorCodeIsNoError(fields: map<string, Value>)
    ensures ErrorEnvelope(JObj(fields["error_code" := JNull])) == None
  {
  }

  /** Examples: a bad key is reported with its code and description by all
      three operations, and a missing description reads "_unknown_". */
  lemma RemoteErrorExamples(php: Runtime, body: string, bare: string)
    requires php.jsonDecode(body) == JObj(map["error_code" := JInt(101), "error_desc" := JStr("Bad key")])
    requires php.jsonDecode(bare) == JObj(map["error_code" := JInt(101)])
    ensures CheckResponse(php.jsonDecode(body)) == Fail(RemoteError(JStr("Bad key"), JInt(101)))
    ensures SymbolsResponse(php, php.jsonDecode(body)) == Fail(RemoteError(JStr("Bad key"), JInt(101)))
    ensures ParseResult(php, body, None) == Fail(RemoteError(JStr("Bad key"), JInt(101)))
    ensures ParseResult(php, bare, Some("12345")) == Fail(RemoteError(JStr("_unknown_"), JInt(101)))
  {
  }

  // ---------------------------------------------------------------------------
  // Parsing a check result

  /** `waterPercent` is `water_percent` of the second-level decode of
      `seo_check`, and 0 when `seo_check` is not set or its decode has no
      set `water_percent`. */
  lemma WaterPercentRule(php: Runtime, v: Value)
    ensures !IsSet(v, "seo_check") ==> WaterPercent(php, v) == JInt(0)
    ensures forall s :: Field(v, "seo_check") == JStr(s) ==>
              WaterPercent(php, v) == Coalesce(php.jsonDecode(s), "water_percent", JInt(0))
  {
  }

  /** An explicit text identifier replaces the response's `uid` and changes
      nothing else; without one, `uid` is used. */
  lemma TextIdRule(php: Runtime, body: string, textId: string)
    ensures var withId := ParseResult(php, body, Some(textId));
            var withoutId := ParseResult(php, body, None);
            && withId.Ok? == withoutId.Ok?
            && (withId.Fail? ==> withId == withoutId)
            && (withId.Ok? ==> withId.value == withoutId.value.(textId := JStr(textId)))
            && (withoutId.Ok? ==> withoutId.value.textId == Field(php.jsonDecode(body), "uid"))
  {
  }

  /** `uniquePercent` is the float cast of `text_unique`. */
  lemma UniquePercentRule(php: Runtime, body: string, textId: Option<string>)
    requires ParseResult(php, body, textId).Ok?
    ensures ParseResult(php, body, textId).value.uniquePercent
         == php.floatCast(Field(php.jsonDecode(body), "text_unique"))
  {
  }

  /** A result response as the service sends it: `uid`, `text_unique` and a
      JSON-encoded `seo_check`. */
  function ResultBody(uid: Value, textUnique: Value, seoCheck: string): Value
  {
    JObj(map["uid" := uid, "text_unique" := textUnique, "seo_check" := JStr(seoCheck)])
  }

  /** Reading a result response gives its identifier (unless the caller
      supplies one), its cast uniqueness and the water percentage from the
      doubly-encoded `seo_check`. */
  lemma ParseResultBody(php: Runtime, uid: Value, textUnique: Value, seoCheck: string, textId: Option<string>)
    ensures ParseDecoded(php, ResultBody(uid, textUnique, seoCheck), textId)
         == Ok(CheckResult(
              if textId.Some? then JStr(textId.value) else uid,
              php.floatCast(textUnique),
              Coalesce(php.jsonDecode(seoCheck), "water_percent", JInt(0))))
  {
  }

  /** Examples from the unit tests: a result body with an integer `uid`, and
      the same body without `uid` polled with an explicit identifier. */
  lemma ParseResultExamples(php: Runtime, body: string, bodyNoUid: string, seo: string)
    requires php.jsonDecode(body)
          == JObj(map["uid" := JInt(12345), "text_unique" := JFloat(12.5), "seo_check" := JStr(seo)])
    requires php.jsonDecode(bodyNoUid) == JObj(map["text_unique" := JFloat(12.5), "seo_check" := JStr(seo)])
    requires php.jsonDecode(seo) == JObj(map["water_percent" := JInt(7)])
    requires php.floatCast(JFloat(12.5)) == 12.5
    ensures ParseResult(php, body, None) == Ok(CheckResult(JInt(12345), 12.5, JInt(7)))
    ensures ParseResult(php, bodyNoUid, Some("12345")) == Ok(CheckResult(JStr("12345"), 12.5, JInt(7)))
  {
  }

  /** Examples from the unit tests for `check` and `getAvailableSymbols`. */
  lemma SuccessExamples(php: Runtime, checkBody: string, accountBody: string)
    requires php.jsonDecode(checkBody) == JObj(map["text_uid" := JStr("12345")])
    requires php.jsonDecode(accountBody) == JObj(map["size" := JInt(115)])
    requires php.intCast(JInt(115)) == 115
    ensures CheckResponse(php.jsonDecode(checkBody)) == Ok(JStr("12345"))
    ensures SymbolsResponse(php, php.jsonDecode(accountBody)) == Ok(115)
  {
  }
}
