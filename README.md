# text.ru uniqueness-check client, modelled in Dafny

The library is a thin client for the text.ru API. A `Manager` holds an API key
and an injected HTTP client. It offers three remote operations: `check`
submits a text, `tryGetResult` polls for its result, and `getAvailableSymbols`
reads the account's remaining character quota. It also offers `parseResult`,
which reads a result body without a network call. The model covers the parts
of this that make decisions:

- the check-request payload (`prepareCheckData`), built imperatively as a map;
- the error-envelope rule shared by all operations;
- the success projections (`text_uid`, `size`, and the three fields of
  `parseResult`, including the doubly-encoded `seo_check` and the `textId`
  override);
- the `CheckResult` value object.

Files:

- `php.dfy` (module `Php`): the PHP runtime pieces the client relies on. It
  defines decoded JSON values (`Value`), reading a key (`Field`), `isset`
  (`IsSet`), `??` (`Coalesce`), `empty` of a nullable string (`IsEmpty`), and
  `implode` (`Implode`). `Explode` is defined as its partner. `Runtime`
  bundles `json_decode`, `(float)` and `(int)` as uninterpreted functions.
- `check_result.dfy` (module `Model`): `CheckResult`, an immutable datatype
  whose destructors are the three getters.
- `manager.dfy` (module `Api`): requests, responses, errors, the response
  rules as functions, and class `Manager`. In that class the network
  operations are methods. Each returns its outcome and, as a ghost
  out-parameter, the one request it sent.
- `api_properties.dfy` (module `ApiProperties`): lemmas about the payload and
  about how responses are read, including the unit tests' examples.

Where the code behaves differently from what its docblocks and the API description suggest, the model follows the code:

- An error is recognised with `isset`, so an `error_code` that is present but
  null is not an error.
- `waterPercent` is passed on without the `(float)` cast that `text_unique`
  gets, so its default is the integer 0.
- A body that is not valid JSON does not raise a transport error.
  `json_decode` returns null, and a missing key then reads as null. So `check`
  on such a body succeeds with a null identifier.

## Model

| member | source | states |
|---|---|---|
| `Api.Manager.constructor` | src/Api/Manager.php:36-40 | the manager keeps the API key and the HTTP client it was given |
| `Api.Manager.PrepareCheckData` | src/Api/Manager.php:95-125 | the payload has `text` = text and `userkey` = the API key; `callback` exactly when the callback is non-empty (null, "" and "0" count as empty), with its value; `visible = "vis_on"` exactly when public; `copying = "noadd"` exactly when no visual report is wanted; `exceptdomain` exactly when domains are given, with the domains joined by single spaces; no other key |
| `Api.Manager.Check` | src/Api/Manager.php:51-84 | sends one POST to `https://api.text.ru/post` whose form is the payload above, forwarding all five arguments; a transport failure is reported with its message and code; otherwise the result is the error envelope or `text_uid` of the decoded body |
| `Api.Manager.TryGetResult` | src/Api/Manager.php:133-150 | sends one POST to `https://api.text.ru/post` with exactly `uid`, `userkey` and `jsonvisible = "detail"`; a transport failure is reported with its message and code; otherwise the body is parsed with the caller's own text id |
| `Api.Manager.GetAvailableSymbols` | src/Api/Manager.php:182-205 | sends one POST to `https://api.text.ru/account` with exactly `method = "get_packages_info"` and `userkey`; a transport failure is reported with its message and code; otherwise the result is the error envelope or `size` cast to an integer |
| `ApiProperties.PayloadUnique` | src/Api/Manager.php:103-122 | the field-by-field payload description determines the payload completely |
| `ApiProperties.PayloadOfDefaults` | src/Api/Manager.php:51-67 | with only a text, `check` sends exactly `text`, `userkey` and `copying = "noadd"`, because it forwards its own default `false` for the visual-report flag |
| `ApiProperties.PayloadOfUnitTest` | tests/Unit/ManagerTest.php:41-54 | the unit test's six-field map is the payload for its arguments, with `["test.com", "mail.ru"]` joined to `"test.com mail.ru"` |
| `ApiProperties.ExceptDomainsRecoverable` | src/Api/Manager.php:120-122 | splitting `exceptdomain` on spaces gives back the excluded domains in order, when none contains a space |
| `Php.ExplodeImplode` | src/Api/Manager.php:121 | joining pieces with a one-character glue and splitting on it again gives the pieces back, when there is at least one piece and none contains the glue |
| `ApiProperties.ErrorEnvelopeOfErrorBody` | src/Api/Manager.php:75-77 | an error response with a set `error_code` is read back as a remote error with that code, and with its `error_desc`, or `"_unknown_"` when it has none |
| `ApiProperties.RemoteErrorUniform` | src/Api/Manager.php:163-165 | once `error_code` is set, check, account query and result parsing all fail with the same description and code, whatever else the body holds |
| `ApiProperties.NullErrorCodeIsNoError` | src/Api/Manager.php:196-198 | an `error_code` that is present but null is not an error |
| `ApiProperties.SuccessProjections` | src/Api/Manager.php:196-200 | without a set `error_code`, check returns `text_uid`, the account query returns `(int)size`, and parsing succeeds |
| `ApiProperties.RemoteErrorExamples` | src/Api/Manager.php:163-164 | `{"error_code":101,"error_desc":"Bad key"}` fails every operation with 101 and "Bad key"; without `error_desc` the description is "_unknown_" |
| `ApiProperties.WaterPercentRule` | src/Api/Manager.php:167-168 | `waterPercent` is 0 when `seo_check` is not set; otherwise it is the second decode's `water_percent`, or 0 when that is not set |
| `ApiProperties.TextIdRule` | src/Api/Manager.php:170-172 | an explicit text id replaces the response `uid` and changes nothing else in the outcome; without one the response `uid` is used |
| `ApiProperties.UniquePercentRule` | src/Api/Manager.php:174 | `uniquePercent` is the float cast of `text_unique` |
| `ApiProperties.ParseResultBody` | src/Api/Manager.php:159-175 | a result response with `uid`, `text_unique` and an encoded `seo_check` is read back as the matching `CheckResult` |
| `ApiProperties.ParseResultExamples` | tests/Unit/ManagerTest.php:83-89 | the test bodies give `CheckResult(12345, 12.5, 7)`, from the response `uid`, or from an explicit id when the body has no `uid` |
| `ApiProperties.SuccessExamples` | tests/Unit/ManagerTest.php:94-104 | `{"text_uid":"12345"}` makes check return "12345"; `{"size":115}` makes the account query return 115 |
| `Model.CheckResultFields` | src/Api/Model/CheckResult.php:28-57 | each getter returns the constructor argument, and two results are equal exactly when their fields are |

## Left out

- The HTTP transport (Guzzle `request`, `getBody`, `getContents`) is foreign code. The client is a function from request to response, fixed at construction. So the model gives the same answer to the same request each time. It does not model a service whose answers change over time, such as a result that is not ready on the first poll.
- `json_decode`, the `(float)` cast and the `(int)` cast are library code and are uninterpreted (`Php.Runtime`). The examples state only what they need of them.
- Exception chaining is not modelled: the `previous` cause and the wrapping of an exception into a new `ApiException`. The wrap keeps message and code unchanged, so the model reports the pair directly as `RemoteError` or `TransportError`. A PHP error other than a transport failure (for example a `TypeError`) is not modelled.
- `Api.ApiError.RemoteError` carries the decoded `error_desc` and `error_code` as they are. The exception constructor would coerce them to string and integer; that coercion is not modelled.
- PHP's dynamic typing is not modelled. The text, callback, domains and the polled text id are strings, as the docblocks declare. The tests' integer `12345` as a text id is outside the model. A response `uid` may still be any decoded value.
- Reading a key of a decoded string uses PHP's string-offset rules. That case is modelled as null, like any value that is not a keyed array.
- Decoding a `seo_check` that is an array raises a TypeError on newer PHP versions. The model treats every non-string `seo_check` as decoding to something without keys, so the water percentage is 0.
- Default arguments are not modelled. `PayloadOfDefaults` states the `check` defaults. `prepareCheckData`'s own default of `true` for the visual-report flag is never used, because `check` always forwards the flag.
- The unit tests mock requests with `'body'` where the code sends `'form_params'`. The model follows the code.
- `parseResult` is pure because Dafny functions are: the same body always gives the same result. No separate lemma states this.
