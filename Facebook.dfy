/**
 * The `Facebook` facade: its constructor validates a configuration array
 * (with an environment fallback for the app credentials) and fills in
 * defaults; its request methods substitute the configured access token and
 * Graph version for falsy arguments; its pagination methods fetch a
 * neighbouring page of a Graph list. Sending is done by a transport given
 * as a function, and the pagination request a list derives, and the list a
 * response materialises, are inputs.
 */
module FacebookFacade {
  import opened Wrappers
  import opened Php

  const DefaultGraphVersion: string := "v2.2"
  const AppIdEnvName: string := "FACEBOOK_APP_ID"
  const AppSecretEnvName: string := "FACEBOOK_APP_SECRET"

  /** The process environment, name to value. */
  type Env = map<string, string>

  /** `getenv($name)`: the variable's value, or `false` when it is not set. */
  function GetEnv(env: Env, name: string): (r: Value)
    ensures name in env ==> r == Str(env[name])
    ensures name !in env ==> r == Bool(false)
  {
    if name in env then Str(env[name]) else Bool(false)
  }

  /** `isset($config[$key]) ? $config[$key] : getenv($name)`. */
  function ConfiguredOrEnv(config: Dict, key: string, env: Env, name: string): (r: Value)
    ensures IsSet(config, key) ==> r == config[key]
    ensures !IsSet(config, key) ==> r == GetEnv(env, name)
  {
    if IsSet(config, key) then config[key] else GetEnv(env, name)
  }

  datatype App = App(id: Value, secret: Value)

  /** The HTTP client handed to the client service; `AutoDetect` when none is configured. */
  datatype HttpClientHandler = AutoDetect | GivenHttpClient(handler: Value) | Curl | Stream | Guzzle

  datatype Client = Client(handler: HttpClientHandler, enableBeta: bool, caBundle: Value)

  datatype PersistentDataHandler = NoPersistentData | GivenPersistentData(handler: Value) | Session | Memory

  datatype UrlDetectionHandler = DefaultUrlDetection | GivenUrlDetection(handler: Value)

  /** Why construction fails: the first two are SDK errors, the rest invalid arguments. */
  datatype ConfigError =
    | MissingAppId
    | MissingAppSecret
    | InvalidHttpClientHandler
    | InvalidUrlDetectionHandler
    | InvalidPersistentDataHandler
    | InvalidDefaultAccessToken
  {
    predicate IsSdkError() {
      MissingAppId? || MissingAppSecret?
    }
  }

  /** The state the constructor builds. */
  datatype Settings = Settings(
    app: App,
    client: Client,
    urlDetectionHandler: Option<UrlDetectionHandler>,
    persistentDataHandler: PersistentDataHandler,
    defaultAccessToken: Value,
    defaultGraphVersion: Value)

  /**
   * What every constructed facade satisfies: truthy credentials, a default
   * token that is a token object or null, and handlers that are either the
   * SDK's own or instances of their interface.
   */
  predicate SettingsValid(s: Settings) {
    && Truthy(s.app.id) && Truthy(s.app.secret)
    && (s.defaultAccessToken.Null? || s.defaultAccessToken.AccessToken?)
    && (s.client.handler.GivenHttpClient? ==> InstanceOf(s.client.handler.handler, HttpClientInterface))
    && (s.persistentDataHandler.GivenPersistentData? ==>
          InstanceOf(s.persistentDataHandler.handler, PersistentDataInterface))
    && (s.urlDetectionHandler.Some? && s.urlDetectionHandler.value.GivenUrlDetection? ==>
          InstanceOf(s.urlDetectionHandler.value.handler, UrlDetectionInterface))
  }

  // Each option on its own: when it is acceptable.

  ghost predicate HttpClientHandlerAccepted(config: Dict) {
    IsSet(config, "http_client_handler") ==>
      var h := config["http_client_handler"];
      InstanceOf(h, HttpClientInterface) || h == Str("curl") || h == Str("stream") || h == Str("guzzle")
  }

  ghost predicate UrlDetectionHandlerAccepted(config: Dict) {
    !IsSet(config, "url_detection_handler") || InstanceOf(config["url_detection_handler"], UrlDetectionInterface)
  }

  ghost predicate PersistentDataHandlerAccepted(config: Dict) {
    IsSet(config, "persistent_data_handler") ==>
      var h := config["persistent_data_handler"];
      InstanceOf(h, PersistentDataInterface) || h == Str("session") || h == Str("memory")
  }

  ghost predicate DefaultAccessTokenAccepted(config: Dict) {
    !IsSet(config, "default_access_token") ||
    config["default_access_token"].Str? || config["default_access_token"].AccessToken?
  }

  function ResolveHttpClientHandler(config: Dict): (r: Result<HttpClientHandler, ConfigError>)
    ensures r.Success? <==> HttpClientHandlerAccepted(config)
    ensures r.Failure? ==> r.error == InvalidHttpClientHandler
  {
    if !IsSet(config, "http_client_handler") then Success(AutoDetect)
    else
      var h := config["http_client_handler"];
      if InstanceOf(h, HttpClientInterface) then Success(GivenHttpClient(h))
      else if h == Str("curl") then Success(Curl)
      else if h == Str("stream") then Success(Stream)
      else if h == Str("guzzle") then Success(Guzzle)
      else Failure(InvalidHttpClientHandler)
  }

  function ResolveUrlDetectionHandler(config: Dict): (r: Result<Option<UrlDetectionHandler>, ConfigError>)
    ensures r.Success? <==> UrlDetectionHandlerAccepted(config)
    ensures r.Failure? ==> r.error == InvalidUrlDetectionHandler
  {
    if !IsSet(config, "url_detection_handler") then Success(None)
    else if InstanceOf(config["url_detection_handler"], UrlDetectionInterface) then
      Success(Some(GivenUrlDetection(config["url_detection_handler"])))
    else Failure(InvalidUrlDetectionHandler)
  }

  function ResolvePersistentDataHandler(config: Dict): (r: Result<PersistentDataHandler, ConfigError>)
    ensures r.Success? <==> PersistentDataHandlerAccepted(config)
    ensures r.Failure? ==> r.error == InvalidPersistentDataHandler
  {
    if !IsSet(config, "persistent_data_handler") then Success(NoPersistentData)
    else
      var h := config["persistent_data_handler"];
      if InstanceOf(h, PersistentDataInterface) then Success(GivenPersistentData(h))
      else if h == Str("session") then Success(Session)
      else if h == Str("memory") then Success(Memory)
      else Failure(InvalidPersistentDataHandler)
  }

  /** A string is wrapped as a token; a token object is accepted but not stored. */
  function ResolveDefaultAccessToken(config: Dict): (r: Result<Value, ConfigError>)
    ensures r.Success? <==> DefaultAccessTokenAccepted(config)
    ensures r.Failure? ==> r.error == InvalidDefaultAccessToken
    ensures r.Success? ==> r.value.Null? || r.value.AccessToken?
  {
    if !IsSet(config, "default_access_token") then Success(Null)
    else if config["default_access_token"].Str? then Success(AccessToken(config["default_access_token"].s))
    else if config["default_access_token"].AccessToken? then Success(Null)
    else Failure(InvalidDefaultAccessToken)
  }

  /** The constructor's checks and defaults, in the order the constructor makes them. */
  function ResolveConfig(config: Dict, env: Env): (r: Result<Settings, ConfigError>)
    ensures r.Success? ==> SettingsValid(r.value)
  {
    var appId := ConfiguredOrEnv(config, "app_id", env, AppIdEnvName);
    if !Truthy(appId) then Failure(MissingAppId)
    else
      var appSecret := ConfiguredOrEnv(config, "app_secret", env, AppSecretEnvName);
      if !Truthy(appSecret) then Failure(MissingAppSecret)
      else
        var httpClientHandler :- ResolveHttpClientHandler(config);
        var enableBeta := IsSet(config, "enable_beta_mode") && config["enable_beta_mode"] == Bool(true);
        var caBundle := if IsSet(config, "ca_bundle") then config["ca_bundle"] else Null;
        var urlDetectionHandler :- ResolveUrlDetectionHandler(config);
        var persistentDataHandler :- ResolvePersistentDataHandler(config);
        var defaultAccessToken :- ResolveDefaultAccessToken(config);
        var graphVersion :=
          if IsSet(config, "default_graph_version") then config["default_graph_version"] else Str(DefaultGraphVersion);
        Success(Settings(
          App(appId, appSecret),
          Client(httpClientHandler, enableBeta, caBundle),
          urlDetectionHandler,
          persistentDataHandler,
          defaultAccessToken,
          graphVersion))
  }

  /**
   * The app id is missing exactly when the configured one is falsy, or, with
   * none configured, the environment variable is unset, empty or "0". A
   * configured falsy id does not fall back to the environment.
   */
  lemma AppIdRequired(config: Dict, env: Env)
    ensures ResolveConfig(config, env) == Failure(MissingAppId) <==>
      if IsSet(config, "app_id") then !Truthy(config["app_id"])
      else AppIdEnvName !in env || env[AppIdEnvName] == "" || env[AppIdEnvName] == "0"
  {
  }

  /** The secret is checked, the same way, only once the app id is present. */
  lemma AppSecretRequired(config: Dict, env: Env)
    ensures ResolveConfig(config, env) == Failure(MissingAppSecret) <==>
      Truthy(ConfiguredOrEnv(config, "app_id", env, AppIdEnvName)) &&
      (if IsSet(config, "app_secret") then !Truthy(config["app_secret"])
       else AppSecretEnvName !in env || env[AppSecretEnvName] == "" || env[AppSecretEnvName] == "0")
  {
  }

  /** Construction succeeds exactly when the credentials are present and every option is acceptable. */
  lemma ConstructionSucceedsIffEveryOptionAccepted(config: Dict, env: Env)
    ensures ResolveConfig(config, env).Success? <==>
      && Truthy(ConfiguredOrEnv(config, "app_id", env, AppIdEnvName))
      && Truthy(ConfiguredOrEnv(config, "app_secret", env, AppSecretEnvName))
      && HttpClientHandlerAccepted(config)
      && UrlDetectionHandlerAccepted(config)
      && PersistentDataHandlerAccepted(config)
      && DefaultAccessTokenAccepted(config)
  {
  }

  /** With valid credentials, the error reported is that of the first unacceptable option, in constructor order. */
  lemma ReportsFirstRejectedOption(config: Dict, env: Env)
    requires Truthy(ConfiguredOrEnv(config, "app_id", env, AppIdEnvName))
    requires Truthy(ConfiguredOrEnv(config, "app_secret", env, AppSecretEnvName))
    ensures !HttpClientHandlerAccepted(config) ==>
      ResolveConfig(config, env) == Failure(InvalidHttpClientHandler)
    ensures HttpClientHandlerAccepted(config) && !UrlDetectionHandlerAccepted(config) ==>
      ResolveConfig(config, env) == Failure(InvalidUrlDetectionHandler)
    ensures HttpClientHandlerAccepted(config) && UrlDetectionHandlerAccepted(config) && !PersistentDataHandlerAccepted(config) ==>
      ResolveConfig(config, env) == Failure(InvalidPersistentDataHandler)
    ensures
      (HttpClientHandlerAccepted(config) && UrlDetectionHandlerAccepted(config) && PersistentDataHandlerAccepted(config)
       && !DefaultAccessTokenAccepted(config)) ==>
      ResolveConfig(config, env) == Failure(InvalidDefaultAccessToken)
  {
  }

  /** The state built on success: the credentials, the chosen handlers and the defaults. */
  lemma ResolvedSettings(config: Dict, env: Env)
    requires ResolveConfig(config, env).Success?
    ensures var s := ResolveConfig(config, env).value;
      && s.app == App(ConfiguredOrEnv(config, "app_id", env, AppIdEnvName),
                      ConfiguredOrEnv(config, "app_secret", env, AppSecretEnvName))
      // beta mode only for exactly `true`
      && (s.client.enableBeta <==> "enable_beta_mode" in config && config["enable_beta_mode"] == Bool(true))
      // the configured Graph version, or v2.2
      && s.defaultGraphVersion ==
           (if IsSet(config, "default_graph_version") then config["default_graph_version"] else Str("v2.2"))
      // a string token is wrapped; a token object, or none, leaves the default unset
      && (IsSet(config, "default_access_token") && config["default_access_token"].Str? ==>
            s.defaultAccessToken == AccessToken(config["default_access_token"].s))
      && (!(IsSet(config, "default_access_token") && config["default_access_token"].Str?) ==>
            s.defaultAccessToken == Null)
      // a named HTTP client is the one installed; an instance is used as given
      && (IsSet(config, "http_client_handler") && config["http_client_handler"] == Str("curl") ==> s.client.handler == Curl)
      && (IsSet(config, "http_client_handler") && config["http_client_handler"] == Str("stream") ==> s.client.handler == Stream)
      && (IsSet(config, "http_client_handler") && config["http_client_handler"] == Str("guzzle") ==> s.client.handler == Guzzle)
      && (!IsSet(config, "http_client_handler") ==> s.client.handler == AutoDetect)
      && (IsSet(config, "http_client_handler") && InstanceOf(config["http_client_handler"], HttpClientInterface) ==>
            s.client.handler == GivenHttpClient(config["http_client_handler"]))
      // the CA bundle reaches the client, or null when none is configured
      && s.client.caBundle == (if IsSet(config, "ca_bundle") then config["ca_bundle"] else Null)
      && (IsSet(config, "persistent_data_handler") && config["persistent_data_handler"] == Str("memory") ==>
            s.persistentDataHandler == Memory)
      && (IsSet(config, "persistent_data_handler") && config["persistent_data_handler"] == Str("session") ==>
            s.persistentDataHandler == Session)
      && (IsSet(config, "persistent_data_handler") && InstanceOf(config["persistent_data_handler"], PersistentDataInterface) ==>
            s.persistentDataHandler == GivenPersistentData(config["persistent_data_handler"]))
      && (!IsSet(config, "persistent_data_handler") ==> s.persistentDataHandler == NoPersistentData)
      // a URL detection handler is kept only when one was configured
      && (s.urlDetectionHandler.Some? <==> IsSet(config, "url_detection_handler"))
      && (s.urlDetectionHandler.Some? ==> s.urlDetectionHandler.value == GivenUrlDetection(config["url_detection_handler"]))
  {
  }

  /** PHP's `$arg ?: $fallback`. */
  function Coalesce(arg: Value, fallback: Value): (r: Value)
    ensures Truthy(arg) ==> r == arg
    ensures !Truthy(arg) ==> r == fallback
  {
    if Truthy(arg) then arg else fallback
  }

  /** Substituting the default a second time changes nothing. */
  lemma CoalesceIdempotent(arg: Value, fallback: Value)
    ensures Coalesce(Coalesce(arg, fallback), fallback) == Coalesce(arg, fallback)
  {
  }

  /** A single Graph request, as `FacebookRequest` is built. */
  datatype FacebookRequest = FacebookRequest(
    app: App,
    accessToken: Value,
    httpMethod: string,
    endpoint: string,
    params: Dict,
    eTag: Value,
    graphVersion: Value)

  /** A batch of requests sent as one. */
  datatype BatchRequest = BatchRequest(app: App, requests: seq<FacebookRequest>, accessToken: Value, graphVersion: Value)

  datatype Response = Response(httpStatusCode: int, body: string)

  datatype BatchResponse = BatchResponse(responses: seq<Response>)

  datatype LastResponse = Single(response: Response) | Batch(batch: BatchResponse)

  /** A `FacebookSDKException` raised while sending a request or building a list from its response. */
  datatype SdkError = SdkError(message: string)

  /** The client's sending of one request, which may raise. */
  type Transport = FacebookRequest -> Result<Response, SdkError>

  /** `getGraphList($subClassName, false)` on a response, which may raise. */
  type Materialise = (Response, string) -> Result<GraphList, SdkError>

  datatype Direction = Next | Previous

  /**
   * A page of a Graph list: its items, the node subclass applied to them, and
   * the requests it derives for its neighbouring pages (None when it has no
   * cursor or URL in that direction).
   */
  datatype GraphList = GraphList(
    items: seq<Value>,
    subClassName: string,
    nextPageRequest: Option<FacebookRequest>,
    previousPageRequest: Option<FacebookRequest>)
  {
    /** `getPaginationRequest($direction)`. */
    function PaginationRequest(direction: Direction): (r: Option<FacebookRequest>)
      ensures direction == Next ==> r == nextPageRequest
      ensures direction == Previous ==> r == previousPageRequest
    {
      match direction
      case Next => nextPageRequest
      case Previous => previousPageRequest
    }
  }

  class Facebook {
    var app: App
    var client: Client
    var urlDetectionHandler: Option<UrlDetectionHandler>
    var persistentDataHandler: PersistentDataHandler
    var defaultAccessToken: Value
    var defaultGraphVersion: Value
    var lastResponse: Option<LastResponse>

    /** The configuration-derived part of the state. */
    function CurrentSettings(): Settings
      reads this
    {
      Settings(app, client, urlDetectionHandler, persistentDataHandler, defaultAccessToken, defaultGraphVersion)
    }

    /** The object invariant: the state is one the constructor can build. */
    predicate Valid()
      reads this
    {
      SettingsValid(CurrentSettings())
    }

    constructor (s: Settings)
      requires SettingsValid(s)
      ensures Valid()
      ensures CurrentSettings() == s && lastResponse == None
    {
      app := s.app;
      client := s.client;
      urlDetectionHandler := s.urlDetectionHandler;
      persistentDataHandler := s.persistentDataHandler;
      defaultAccessToken := s.defaultAccessToken;
      defaultGraphVersion := s.defaultGraphVersion;
      lastResponse := None;
    }

    /** `new Facebook($config)`, with `getenv` reading `env`; an exception becomes a Failure. */
    static method New(config: Dict, env: Env) returns (r: Result<Facebook, ConfigError>)
      ensures ResolveConfig(config, env).Failure? ==> r == Failure(ResolveConfig(config, env).error)
      ensures ResolveConfig(config, env).Success? ==>
        r.Success? && fresh(r.value) && r.value.Valid() &&
        r.value.CurrentSettings() == ResolveConfig(config, env).value && r.value.lastResponse == None
    {
      var resolved := ResolveConfig(config, env);
      if resolved.Failure? {
        return Failure(resolved.error);
      }
      var fb := new Facebook(resolved.value);
      return Success(fb);
    }

    /**
     * `getUrlDetectionHandler`: installs the default handler on first use, then
     * keeps it. Under Valid() the field holds an instance exactly when it is
     * set, so testing for None is the `instanceof` test.
     */
    method GetUrlDetectionHandler() returns (h: UrlDetectionHandler)
      requires Valid()
      modifies this`urlDetectionHandler
      ensures Valid()
      ensures urlDetectionHandler == Some(h)
      ensures old(urlDetectionHandler).Some? ==> h == old(urlDetectionHandler).value
      ensures old(urlDetectionHandler).None? ==> h == DefaultUrlDetection
    {
      if urlDetectionHandler.None? {
        urlDetectionHandler := Some(DefaultUrlDetection);
      }
      h := urlDetectionHandler.value;
    }

    /** `request`: a falsy token or version is replaced by the configured default. */
    function Request(httpMethod: string, endpoint: string, params: Dict, accessToken: Value, eTag: Value, graphVersion: Value)
      : (r: FacebookRequest)
      reads this`app, this`defaultAccessToken, this`defaultGraphVersion
      ensures r.app == app && r.httpMethod == httpMethod && r.endpoint == endpoint && r.params == params && r.eTag == eTag
      ensures Truthy(accessToken) ==> r.accessToken == accessToken
      ensures !Truthy(accessToken) ==> r.accessToken == defaultAccessToken
      ensures Truthy(graphVersion) ==> r.graphVersion == graphVersion
      ensures !Truthy(graphVersion) ==> r.graphVersion == defaultGraphVersion
    {
      FacebookRequest(
        app,
        Coalesce(accessToken, defaultAccessToken),
        httpMethod,
        endpoint,
        params,
        eTag,
        Coalesce(graphVersion, defaultGraphVersion))
    }

    /**
     * `sendRequest`: builds the request with the defaults and sends it. The
     * response is recorded only when sending returns; when it raises, the
     * last response is left as it was.
     */
    method SendRequest(
      httpMethod: string, endpoint: string, params: Dict, accessToken: Value, eTag: Value, graphVersion: Value,
      transport: Transport)
      returns (r: Result<Response, SdkError>)
      modifies this`lastResponse
      ensures r == transport(Request(httpMethod, endpoint, params, accessToken, eTag, graphVersion))
      ensures r.Success? ==> lastResponse == Some(Single(r.value))
      ensures r.Failure? ==> lastResponse == old(lastResponse)
    {
      var token := Coalesce(accessToken, defaultAccessToken);
      var version := Coalesce(graphVersion, defaultGraphVersion);
      CoalesceIdempotent(accessToken, defaultAccessToken);
      CoalesceIdempotent(graphVersion, defaultGraphVersion);
      var request := Request(httpMethod, endpoint, params, token, eTag, version);
      r := transport(request);
      if r.Success? {
        lastResponse := Some(Single(r.value));
      }
    }

    /** `sendBatchRequest`: the batch carries the defaulted token and version. */
    method SendBatchRequest(
      requests: seq<FacebookRequest>, accessToken: Value, graphVersion: Value,
      transport: BatchRequest -> Result<BatchResponse, SdkError>)
      returns (r: Result<BatchResponse, SdkError>)
      modifies this`lastResponse
      ensures var sent := BatchRequest(app, requests, Coalesce(accessToken, defaultAccessToken),
                                       Coalesce(graphVersion, defaultGraphVersion));
        && (Truthy(accessToken) ==> sent.accessToken == accessToken)
        && (!Truthy(accessToken) ==> sent.accessToken == defaultAccessToken)
        && (Truthy(graphVersion) ==> sent.graphVersion == graphVersion)
        && (!Truthy(graphVersion) ==> sent.graphVersion == defaultGraphVersion)
        && r == transport(sent)
      ensures r.Success? ==> lastResponse == Some(Batch(r.value))
      ensures r.Failure? ==> lastResponse == old(lastResponse)
    {
      var token := Coalesce(accessToken, defaultAccessToken);
      var version := Coalesce(graphVersion, defaultGraphVersion);
      r := transport(BatchRequest(app, requests, token, version));
      if r.Success? {
        lastResponse := Some(Batch(r.value));
      }
    }

    /** `get`: a GET with no parameters. */
    method Get(endpoint: string, accessToken: Value, eTag: Value, graphVersion: Value, transport: Transport)
      returns (r: Result<Response, SdkError>)
      modifies this`lastResponse
      ensures var sent := Request("GET", endpoint, map[], accessToken, eTag, graphVersion);
        sent.httpMethod == "GET" && sent.params == map[] && r == transport(sent)
      ensures r.Success? ==> lastResponse == Some(Single(r.value))
      ensures r.Failure? ==> lastResponse == old(lastResponse)
    {
      r := SendRequest("GET", endpoint, map[], accessToken, eTag, graphVersion, transport);
    }

    /** `post`: a POST carrying the given parameters. */
    method Post(
      endpoint: string, params: Dict, accessToken: Value, eTag: Value, graphVersion: Value, transport: Transport)
      returns (r: Result<Response, SdkError>)
      modifies this`lastResponse
      ensures var sent := Request("POST", endpoint, params, accessToken, eTag, graphVersion);
        sent.httpMethod == "POST" && sent.params == params && r == transport(sent)
      ensures r.Success? ==> lastResponse == Some(Single(r.value))
      ensures r.Failure? ==> lastResponse == old(lastResponse)
    {
      r := SendRequest("POST", endpoint, params, accessToken, eTag, graphVersion, transport);
    }

    /** `delete`: a DELETE with no parameters. */
    method Delete(endpoint: string, accessToken: Value, eTag: Value, graphVersion: Value, transport: Transport)
      returns (r: Result<Response, SdkError>)
      modifies this`lastResponse
      ensures var sent := Request("DELETE", endpoint, map[], accessToken, eTag, graphVersion);
        sent.httpMethod == "DELETE" && sent.params == map[] && r == transport(sent)
      ensures r.Success? ==> lastResponse == Some(Single(r.value))
      ensures r.Failure? ==> lastResponse == old(lastResponse)
    {
      r := SendRequest("DELETE", endpoint, map[], accessToken, eTag, graphVersion, transport);
    }

    /**
     * `getPaginationResults`: without a pagination request nothing is sent and
     * nothing changes. Otherwise the request is sent; if sending raises, the
     * error propagates and the last response is unchanged. If it returns, the
     * response is recorded and its list is built with the original subclass
     * name; an error there propagates, and an empty page yields None.
     */
    method GetPaginationResults(list: GraphList, direction: Direction, transport: Transport, materialise: Materialise)
      returns (r: Result<Option<GraphList>, SdkError>)
      modifies this`lastResponse
      ensures list.PaginationRequest(direction).None? ==> r == Success(None) && lastResponse == old(lastResponse)
      ensures list.PaginationRequest(direction).Some? ==>
        PageFetched(transport(list.PaginationRequest(direction).value), list.subClassName, materialise,
                    old(lastResponse), lastResponse, r)
    {
      var request := list.PaginationRequest(direction);
      if request.None? {
        return Success(None);
      }
      var sent := transport(request.value);
      if sent.Failure? {
        return Failure(sent.error);
      }
      lastResponse := Some(Single(sent.value));
      var fetched := materialise(sent.value, list.subClassName);
      if fetched.Failure? {
        return Failure(fetched.error);
      }
      r := Success(if |fetched.value.items| > 0 then Some(fetched.value) else None);
    }

    /** `next`. */
    method NextPage(list: GraphList, transport: Transport, materialise: Materialise)
      returns (r: Result<Option<GraphList>, SdkError>)
      modifies this`lastResponse
      ensures list.nextPageRequest.None? ==> r == Success(None) && lastResponse == old(lastResponse)
      ensures list.nextPageRequest.Some? ==>
        PageFetched(transport(list.nextPageRequest.value), list.subClassName, materialise,
                    old(lastResponse), lastResponse, r)
    {
      r := GetPaginationResults(list, Next, transport, materialise);
    }

    /** `previous`. */
    method PreviousPage(list: GraphList, transport: Transport, materialise: Materialise)
      returns (r: Result<Option<GraphList>, SdkError>)
      modifies this`lastResponse
      ensures list.previousPageRequest.None? ==> r == Success(None) && lastResponse == old(lastResponse)
      ensures list.previousPageRequest.Some? ==>
        PageFetched(transport(list.previousPageRequest.value), list.subClassName, materialise,
                    old(lastResponse), lastResponse, r)
    {
      r := GetPaginationResults(list, Previous, transport, materialise);
    }
  }

  /**
   * The outcome of sending a pagination request: `sent` is what sending
   * returned, `before` and `after` the last response around the call, and
   * `r` the page returned.
   */
  predicate PageFetched(
    sent: Result<Response, SdkError>, subClassName: string, materialise: Materialise,
    before: Option<LastResponse>, after: Option<LastResponse>, r: Result<Option<GraphList>, SdkError>)
  {
    if sent.Failure? then
      r == Failure(sent.error) && after == before
    else
      var fetched := materialise(sent.value, subClassName);
      && after == Some(Single(sent.value))
      && (fetched.Failure? ==> r == Failure(fetched.error))
      && (fetched.Success? ==>
            && r.Success?
            && (r.value.Some? <==> |fetched.value.items| > 0)
            && (r.value.Some? ==> r.value.value == fetched.value))
  }
}
