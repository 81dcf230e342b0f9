# Facebook PHP SDK v4: error classification and facade rules, in Dafny

This project models two parts of the Facebook PHP SDK (version 4.1.0-dev):

- **`FacebookRequestException::create`** and its accessors
  (`RequestException.dfy`, module `FacebookRequestException`). The classifier
  normalises a decoded Graph API error payload: a top-level `code` without an
  `error.code` is wrapped as `{error: payload}`. It then picks one of six
  exception kinds (Authorization, Server, Throttle, Permission, Client, Other)
  by a first-match chain on the integer `error.code`. The subclasses become a
  `Category`. The exception is a record holding the category, the message and
  code read from the payload, the raw body, the normalised payload and the
  HTTP status. The rule chain is also written as a table (`RuleTable`,
  `FirstMatch`). The rules are proved pairwise disjoint, so any reordering of
  the table gives the same classification.
- **The `Facebook` facade** (`Facebook.dfy`, module `FacebookFacade`). The
  constructor's validation and defaulting is the pure function
  `ResolveConfig`. It reads a configuration array and an environment map that
  stands in for `getenv`. The class `Facebook` holds the state the constructor
  builds, plus `lastResponse`. Its methods model lazy installation of the URL
  detection handler, request building with `?:` defaulting,
  `get`/`post`/`delete`, single and batch sending, and pagination. Sending,
  `GraphList::getPaginationRequest` and `getGraphList` are inputs:
  - the transport is a function parameter that either returns a response or
    raises an SDK error, modelled as a `Result`;
  - a `GraphList` carries the request it derives for each direction;
  - building a list from a response is a function parameter that receives the
    subclass name and may also raise.

  The object invariant `Valid()` (through `SettingsValid`) holds for every
  facade `New` builds: truthy credentials, a default token that is a token
  object or null, and configured handlers that implement their interfaces.

`Php.dfy` holds the PHP value model: `Value`, truthiness, `isset` and
`instanceof`. `FacebookTests.dfy` restates the scenarios of
`tests/FacebookTest.php` over the model. `Wrappers.dfy` holds `Option` and
`Result`.

## Model

| member | source | states |
|---|---|---|
| `FacebookRequestException.ErrorEntry` | src/Facebook/FacebookRequestException.php:116-122 | `isset($data['error'][$key])`: a value exactly when `error` is an array holding a non-null entry `key`, and then that entry |
| `FacebookRequestException.Normalise` | src/Facebook/FacebookRequestException.php:79-82 | afterwards `error.code` is set iff a code was set at `error.code` or top level; it is the original `error.code`, else the top-level `code`; the payload is either unchanged or wrapped whole |
| `FacebookRequestException.CodeOf` | src/Facebook/FacebookRequestException.php:83 | the code is present iff `error.code` is set to an integer, and is that integer |
| `FacebookRequestException.Classify` | src/Facebook/FacebookRequestException.php:85-110 | Authorization iff code in {102,190,100}; Server iff in {1,2}; Throttle iff in {4,17,341}; Permission iff 10 or 200..299; Client iff 506; everything else, an absent code included, is Other |
| `FacebookRequestException.RequestException.Get` | src/Facebook/FacebookRequestException.php:116-122 | `error.<key>` of the stored payload when it is set, otherwise the given default |
| `FacebookRequestException.RequestException.SubErrorCode` | src/Facebook/FacebookRequestException.php:140-143 | `error.error_subcode` when set, else -1 |
| `FacebookRequestException.RequestException.ErrorType` | src/Facebook/FacebookRequestException.php:150-153 | `error.type` when set, else the empty string |
| `FacebookRequestException.NewException` | src/Facebook/FacebookRequestException.php:57-65 | raw body, payload and status are stored exactly as given (so `getRawResponse`, `getResponse` and `getHttpStatusCode` return them); message is `error.message` or "Unknown Exception"; code is `error.code` or -1 |
| `FacebookRequestException.Create` | src/Facebook/FacebookRequestException.php:77-111 | the stored payload is the normalised one; raw body and status are passed through |
| `FacebookRequestException.CreateReadsErrorCodeThenTopLevelCode` | src/Facebook/FacebookRequestException.php:79-110 | the category and code come from `error.code` when set, else from top-level `code`; with neither, the category is Other and the code -1 |
| `FacebookRequestException.UnwrappedPayloadCreatesAsWrapped` | src/Facebook/FacebookRequestException.php:79-82 | a payload with top-level `code` and no `error.code` yields the same exception as `{error: payload}`, and stores the wrapped form |
| `FacebookRequestException.WrappedPayloadUnchanged` | src/Facebook/FacebookRequestException.php:80 | a payload that already has `error.code` is not changed by normalisation |
| `FacebookRequestException.NormaliseIdempotent` | src/Facebook/FacebookRequestException.php:79-82 | normalising twice equals normalising once |
| `FacebookRequestException.FirstMatch` | src/Facebook/FacebookRequestException.php:85-110 | first-match table lookup: None iff no rule matches; otherwise the category of a matching rule that no earlier rule precedes |
| `FacebookRequestException.RuleTableDisjoint` | src/Facebook/FacebookRequestException.php:85-108 | no code satisfies two of the five rules |
| `FacebookRequestException.ClassifyIsFirstMatch` | src/Facebook/FacebookRequestException.php:85-110 | the if-chain equals first-match lookup in the rule table, falling back to Other |
| `FacebookRequestException.FirstMatchFindsTheMatchingRule` | src/Facebook/FacebookRequestException.php:85-110 | in a disjoint table, lookup returns the category of the rule that matches |
| `FacebookRequestException.FirstMatchOrderIrrelevant` | src/Facebook/FacebookRequestException.php:85-110 | any permutation of a disjoint table gives the same lookup for every code |
| `FacebookRequestException.ClassifyIgnoresRuleOrder` | src/Facebook/FacebookRequestException.php:85-110 | checking the five rules in any order classifies every integer code as `create` does |
| `FacebookRequestException.BoomIsAuthorization` | src/Facebook/FacebookRequestException.php:57-88 | `{"error":{"message":"Boom","code":190}}` with status 400 is Authorization with message "Boom", sub-code -1 and type "" |
| `FacebookFacade.GetEnv` | src/Facebook/Facebook.php:129-131 | `getenv`: the variable's string, or `false` when it is unset |
| `FacebookFacade.ConfiguredOrEnv` | src/Facebook/Facebook.php:129-131 | the configured value when set, otherwise the environment lookup |
| `FacebookFacade.ResolveHttpClientHandler` | src/Facebook/Facebook.php:151-167 | accepted iff unset, an instance of the client interface, or exactly "curl", "stream" or "guzzle"; otherwise an invalid-argument error |
| `FacebookFacade.ResolveUrlDetectionHandler` | src/Facebook/Facebook.php:172-180 | accepted iff unset or an instance of the URL detection interface |
| `FacebookFacade.ResolvePersistentDataHandler` | src/Facebook/Facebook.php:182-195 | accepted iff unset, an instance of the persistent-data interface, or exactly "session" or "memory" |
| `FacebookFacade.ResolveDefaultAccessToken` | src/Facebook/Facebook.php:197-206 | accepted iff unset, a string or a token object; the stored default is a token or nothing |
| `FacebookFacade.ResolveConfig` | src/Facebook/Facebook.php:127-211 | every successful resolution satisfies the facade invariant: truthy app id and secret, a default token that is a token object or null, and configured HTTP, persistent-data and URL handlers that are instances of their interfaces |
| `FacebookFacade.AppIdRequired` | src/Facebook/Facebook.php:129-137 | construction fails with the missing-app-id SDK error iff the configured id is falsy or, with none configured, the environment variable is unset, "" or "0" |
| `FacebookFacade.AppSecretRequired` | src/Facebook/Facebook.php:139-147 | it fails with the missing-secret SDK error iff the id is present and the secret, configured or from the environment, is falsy |
| `FacebookFacade.ConstructionSucceedsIffEveryOptionAccepted` | src/Facebook/Facebook.php:127-211 | construction succeeds iff both credentials are present and each of the four handler/token options is acceptable |
| `FacebookFacade.ReportsFirstRejectedOption` | src/Facebook/Facebook.php:151-206 | with credentials present, the error raised is that of the first unacceptable option in constructor order |
| `FacebookFacade.ResolvedSettings` | src/Facebook/Facebook.php:149-210 | on success: the app is the resolved id and secret; beta is on only for exactly `true`; the graph version is the configured one or "v2.2"; a string token is wrapped, while a token object or no token leaves the default null; named handlers map to their implementations and configured instances are installed as given (HTTP client, persistent data); `ca_bundle` reaches the client, or null; a URL handler is kept iff configured |
| `FacebookFacade.Coalesce` | src/Facebook/Facebook.php:450-451 | `?:`: a truthy argument is kept, a falsy one replaced by the fallback |
| `FacebookFacade.CoalesceIdempotent` | src/Facebook/Facebook.php:450-452 | defaulting again (as `request` does after `sendRequest`) changes nothing |
| `FacebookFacade.GraphList.PaginationRequest` | src/Facebook/Facebook.php:414 | the derived request for "next" or "previous" |
| `FacebookFacade.Facebook.constructor` | src/Facebook/Facebook.php:149-210 | from settings satisfying the invariant, the fields are those settings, no response is recorded, and `Valid()` holds |
| `FacebookFacade.Facebook.New` | src/Facebook/Facebook.php:127-211 | fails with the resolved error, or yields a fresh, valid facade whose state is the resolved settings |
| `FacebookFacade.Facebook.GetUrlDetectionHandler` | src/Facebook/Facebook.php:248-255 | on a valid facade (where a set handler is an instance, so the `instanceof` test is a test for "set"): a configured handler is returned unchanged; otherwise the default handler is installed and returned; afterwards the field holds the returned handler and the invariant still holds |
| `FacebookFacade.Facebook.Request` | src/Facebook/Facebook.php:498-517 | the request carries the app, method, endpoint, params and eTag as given; a falsy token or version is replaced by the configured default, and a truthy one is kept |
| `FacebookFacade.Facebook.SendRequest` | src/Facebook/Facebook.php:442-454 | sends exactly the request `request` builds from the same arguments and returns what sending returns; a response is recorded as the last response, and a raised error leaves the last response unchanged |
| `FacebookFacade.Facebook.SendBatchRequest` | src/Facebook/Facebook.php:467-482 | sends the batch with the defaulted token and version; a batch response is returned and recorded, a raised error leaves the last response unchanged |
| `FacebookFacade.Facebook.Get` | src/Facebook/Facebook.php:303-316 | sends method GET with empty params |
| `FacebookFacade.Facebook.Post` | src/Facebook/Facebook.php:331-345 | sends method POST with the given params |
| `FacebookFacade.Facebook.Delete` | src/Facebook/Facebook.php:359-372 | sends method DELETE with empty params |
| `FacebookFacade.Facebook.GetPaginationResults` | src/Facebook/Facebook.php:412-426 | with no pagination request it returns null and leaves the last response alone; a raised send error propagates with the last response unchanged; otherwise it records the response and builds the page with the original subclass name, propagating an error there and returning null iff the page is empty |
| `FacebookFacade.Facebook.NextPage` | src/Facebook/Facebook.php:383-386 | pagination in the "next" direction |
| `FacebookFacade.Facebook.PreviousPage` | src/Facebook/Facebook.php:397-400 | pagination in the "previous" direction |
| `FacebookTests.InstantiatingWithoutAppIdFails` | tests/FacebookTest.php:67-73 | no app id and no environment fallback gives the SDK error |
| `FacebookTests.InstantiatingWithoutAppSecretFails` | tests/FacebookTest.php:78-84 | no app secret gives the SDK error |
| `FacebookTests.AppIdFromEnvironment` | src/Facebook/Facebook.php:129-131 | an app id supplied only by FACEBOOK_APP_ID is accepted |
| `FacebookTests.InvalidHttpClientHandlerFails` | tests/FacebookTest.php:89-95 | "foo_handler" as HTTP client is an invalid argument |
| `FacebookTests.NamedHttpClientHandlersCanBeForced` | tests/FacebookTest.php:97-125 | "curl", "stream" and "guzzle" install those clients |
| `FacebookTests.InvalidPersistentDataHandlerFails` | tests/FacebookTest.php:130-136 | "foo_handler" as persistent-data handler is an invalid argument |
| `FacebookTests.MemoryPersistentDataHandlerCanBeForced` | tests/FacebookTest.php:138-146 | "memory" installs the in-memory handler |
| `FacebookTests.InvalidUrlDetectionHandlerFails` | tests/FacebookTest.php:151-157 | a string URL detection handler is an invalid argument |
| `FacebookTests.AccessTokenThatIsNotStringOrTokenFails` | tests/FacebookTest.php:168-174 | the integer 123 as default token is an invalid argument |
| `FacebookTests.AccessTokenObjectIsNotStored` | src/Facebook/Facebook.php:197-206 | a token object as default token is accepted and leaves the default token null |
| `FacebookTests.UrlHandlerDefaultsToTheFacebookImplementation` | tests/FacebookTest.php:159-163 | with none configured, the default URL handler is returned, and the same one again on the next call |
| `FacebookTests.NewRequestDefaultsToTheProperConfig` | tests/FacebookTest.php:176-201 | given handler instances are kept, beta is on, and a request built with no token or version carries app 1337/foo_secret, token foo_token and version v1337 |
| `FacebookTests.PaginationReturnsProperResponse` | tests/FacebookTest.php:203-233 | the next page of a list with an after-cursor is a two-item list with the original subclass name and first item Foo, and the last response has status 1337 |
| `FacebookTests.PaginationWithoutCursorReturnsNothing` | src/Facebook/Facebook.php:414-417 | with no request in that direction the result is null and no response is recorded |
| `FacebookTests.FailedSendKeepsLastResponse` | src/Facebook/Facebook.php:450-453 | after a successful GET and a POST whose send raises, the last response is still the GET's |

## Left out

- HTTP transports (curl, stream, Guzzle) and `FacebookClient` sending are network I/O whose sources are not part of this model. A deterministic function parameter stands in for them; it returns a response or an SDK error, but which requests fail, and why, is up to that parameter. The client object itself is reduced to the handler choice, the beta flag and the CA bundle.
- `getenv` is a lookup in an `Env` map given as input.
- `GraphList::getPaginationRequest` derives a request from cursors or from `next`/`previous` URLs. Its source is not part of this model, so a `GraphList` carries the derived requests as data.
- `FacebookResponse::getGraphList`, node materialisation and response decoding are not part of this model. A function parameter receives the response and the subclass name instead.
- `getRedirectLoginHelper`, `fileToUpload` and `videoToUpload` only construct objects of classes that are not part of this model, and the last two touch the filesystem.
- The getters `getApp`, `getClient`, `getLastResponse`, `getDefaultAccessToken` and `getDefaultGraphVersion` only return a field. In the model they are the class's fields.
- `convertToArray` (stdClass to array) is the identity, because payloads are maps from the start.
- FacebookRequestException.CodeOf: only an integer at `error.code` is a code; any other value is treated as absent and classifies as Other. PHP's loose comparison differs in two cases. A numeric string equal to a rule's constant, or inside 200..299, classifies as Other in the model; PHP matches that rule (`"190"` is Authorization). A `true` code also classifies as Other in the model; PHP compares a bool with an int by turning the int into a bool, so `true == 102` holds and PHP gives Authorization. JSON error codes are integers on the wire.
- Php.Value has no float. A JSON number with a fraction or exponent (such as `190.0`), in a payload or as a message or code, cannot be represented, and neither can a float configuration value.
- FacebookFacade.Facebook.Request and FacebookFacade.ResolveConfig: the SDK objects these build are taken to be constructed successfully and to hold their arguments. Those objects are `FacebookApp`, `FacebookClient`, `FacebookRequest`, `FacebookBatchRequest`, `AccessToken`, the named HTTP clients, the persistent-data handlers and `FacebookUrlDetectionHandler`; their sources are not part of this model. `request` is documented to throw `FacebookSDKException`, and the constructor builds all of these objects, yet `Request` is total here and `ResolveConfig` fails only with the six `ConfigError`s. A failure while sending is covered, because the transport may fail on any request.
- FacebookRequestException.NewException: the model keeps the payload's value as the message and code. PHP's `Exception` constructor converts them instead: an int or bool message becomes a string, and a numeric string or bool code becomes an int (`"190"` becomes 190). The arrays, objects and non-numeric string codes that PHP rejects are accepted by the model.
- PHP arrays are modelled as string-keyed maps: key order and integer keys are not modelled. A batch's requests are a sequence, so named batch entries are not modelled.
- Each new default URL detection handler is a distinct PHP object. The model represents it by one value, `DefaultUrlDetection`, so object identity across facades is not modelled.
