/**
 * The facade's test scenarios, restated over the model: each configuration
 * the tests build, and what construction, request building and pagination
 * must then do. The environment is empty except where a scenario supplies
 * the app id through it.
 */
module FacebookTests {
  import opened Wrappers
  import opened Php
  import opened FacebookFacade

  const BaseConfig: Dict := map["app_id" := Str("1337"), "app_secret" := Str("foo_secret")]

  lemma InstantiatingWithoutAppIdFails()
    ensures ResolveConfig(map["app_secret" := Str("foo_secret")], map[]) == Failure(MissingAppId)
    ensures MissingAppId.IsSdkError()
  {
  }

  lemma InstantiatingWithoutAppSecretFails()
    ensures ResolveConfig(map["app_id" := Str("foo_id")], map[]) == Failure(MissingAppSecret)
    ensures MissingAppSecret.IsSdkError()
  {
  }

  /** An id that only the environment supplies is accepted. */
  lemma AppIdFromEnvironment()
    ensures ResolveConfig(map["app_secret" := Str("foo_secret")], map[AppIdEnvName := "1337"]).Success?
  {
  }

  lemma InvalidHttpClientHandlerFails()
    ensures ResolveConfig(BaseConfig["http_client_handler" := Str("foo_handler")], map[])
      == Failure(InvalidHttpClientHandler)
    ensures !InvalidHttpClientHandler.IsSdkError()
  {
  }

  lemma NamedHttpClientHandlersCanBeForced()
    ensures ResolveConfig(BaseConfig["http_client_handler" := Str("curl")], map[]).value.client.handler == Curl
    ensures ResolveConfig(BaseConfig["http_client_handler" := Str("stream")], map[]).value.client.handler == Stream
    ensures ResolveConfig(BaseConfig["http_client_handler" := Str("guzzle")], map[]).value.client.handler == Guzzle
  {
  }

  lemma InvalidPersistentDataHandlerFails()
    ensures ResolveConfig(BaseConfig["persistent_data_handler" := Str("foo_handler")], map[])
      == Failure(InvalidPersistentDataHandler)
  {
  }

  lemma MemoryPersistentDataHandlerCanBeForced()
    ensures ResolveConfig(BaseConfig["persistent_data_handler" := Str("memory")], map[]).value.persistentDataHandler
      == Memory
  {
  }

  lemma InvalidUrlDetectionHandlerFails()
    ensures ResolveConfig(BaseConfig["url_detection_handler" := Str("foo_handler")], map[])
      == Failure(InvalidUrlDetectionHandler)
  {
  }

  lemma AccessTokenThatIsNotStringOrTokenFails()
    ensures ResolveConfig(BaseConfig["default_access_token" := Int(123)], map[]) == Failure(InvalidDefaultAccessToken)
  {
  }

  /** A token object in the configuration is accepted, and the default token stays unset. */
  lemma AccessTokenObjectIsNotStored()
    ensures ResolveConfig(BaseConfig["default_access_token" := AccessToken("foo_token")], map[]).value.defaultAccessToken
      == Null
  {
  }

  method UrlHandlerDefaultsToTheFacebookImplementation() returns (first: UrlDetectionHandler, second: UrlDetectionHandler)
    ensures first == DefaultUrlDetection && second == first
  {
    var r := Facebook.New(BaseConfig, map[]);
    var fb := r.value;
    first := fb.GetUrlDetectionHandler();
    second := fb.GetUrlDetectionHandler();
  }

  method NewRequestDefaultsToTheProperConfig() returns (fb: Facebook, request: FacebookRequest)
    ensures fb.client == Client(GivenHttpClient(Object(1, {HttpClientInterface})), true, Null)
    ensures fb.persistentDataHandler == GivenPersistentData(Object(2, {PersistentDataInterface}))
    ensures fb.urlDetectionHandler == Some(GivenUrlDetection(Object(3, {UrlDetectionInterface})))
    ensures request.app == App(Str("1337"), Str("foo_secret"))
    ensures request.accessToken == AccessToken("foo_token") && request.graphVersion == Str("v1337")
  {
    var config := BaseConfig[
      "default_access_token" := Str("foo_token")][
      "http_client_handler" := Object(1, {HttpClientInterface})][
      "persistent_data_handler" := Object(2, {PersistentDataInterface})][
      "url_detection_handler" := Object(3, {UrlDetectionInterface})][
      "enable_beta_mode" := Bool(true)][
      "default_graph_version" := Str("v1337")];
    var r := Facebook.New(config, map[]);
    assert ResolveConfig(config, map[]).Success?;
    fb := r.value;
    request := fb.Request("FOO_VERB", "/foo", map[], Null, Null, Null);
  }

  /**
   * The next page of a list with an after-cursor. The list built from the
   * response is a stub that yields the two decoded nodes whatever the body
   * is, so "first item Foo" is what the stub supplies, not a decoding result;
   * what the facade contributes is the subclass name, the empty-page test and
   * the recorded response.
   */
  method PaginationReturnsProperResponse()
    returns (page: Result<Option<GraphList>, SdkError>, last: Option<LastResponse>)
    ensures page.Success? && page.value.Some?
    ensures |page.value.value.items| == 2 && page.value.value.subClassName == "\\Facebook\\GraphNodes\\GraphUser"
    ensures page.value.value.items[0] == Arr(map["id" := Str("123"), "name" := Str("Foo")])
    ensures last.Some? && last.value.Single? && last.value.response.httpStatusCode == 1337
  {
    var r := Facebook.New(BaseConfig["http_client_handler" := Object(1, {HttpClientInterface})], map[]);
    var fb := r.value;
    var original := FacebookRequest(fb.app, Str("foo_token"), "GET", "", map[], Null, Null);
    var nextRequest := original.(endpoint := "/1337/photos?after=bar_after_cursor");
    var list := GraphList([], "\\Facebook\\GraphNodes\\GraphUser", Some(nextRequest), None);
    var foo := Arr(map["id" := Str("123"), "name" := Str("Foo")]);
    var bar := Arr(map["id" := Str("1337"), "name" := Str("Bar")]);
    page := fb.NextPage(
      list,
      (request: FacebookRequest) =>
        Success(Response(1337, "{\"data\":[{\"id\":\"123\",\"name\":\"Foo\"},{\"id\":\"1337\",\"name\":\"Bar\"}]}")),
      (response: Response, subClassName: string) => Success(GraphList([foo, bar], subClassName, None, None)));
    last := fb.lastResponse;
  }

  /** A list with no request in the asked direction yields no page and sends nothing. */
  method PaginationWithoutCursorReturnsNothing()
    returns (page: Result<Option<GraphList>, SdkError>, last: Option<LastResponse>)
    ensures page == Success(None) && last.None?
  {
    var r := Facebook.New(BaseConfig, map[]);
    var fb := r.value;
    var list := GraphList([Int(1)], "", None, None);
    page := fb.PreviousPage(
      list,
      (request: FacebookRequest) => Success(Response(200, "")),
      (response: Response, subClassName: string) => Success(GraphList([Int(2)], subClassName, None, None)));
    last := fb.lastResponse;
  }

  /** A send that raises leaves the response of the previous successful send recorded. */
  method FailedSendKeepsLastResponse()
    returns (first: Result<Response, SdkError>, second: Result<Response, SdkError>, last: Option<LastResponse>)
    ensures first == Success(Response(200, "{}")) && second == Failure(SdkError("timeout"))
    ensures last == Some(Single(Response(200, "{}")))
  {
    var r := Facebook.New(BaseConfig, map[]);
    var fb := r.value;
    first := fb.Get("/me", Null, Null, Null, (request: FacebookRequest) => Success(Response(200, "{}")));
    second := fb.Post("/me/feed", map[], Null, Null, Null, (request: FacebookRequest) => Failure(SdkError("timeout")));
    last := fb.lastResponse;
  }
}
