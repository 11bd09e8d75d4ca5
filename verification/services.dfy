/**
 * The dispatcher (`RestClientService`): one HTTP client per configured service,
 * refreshed bearer tokens kept on that client, every call wrapped so that failures
 * surface as `RestRequestFailedException`.
 */
module Services {
  import opened Wrappers
  import opened Text
  import opened Exceptions
  import opened Http
  import opened Configurations

  /** The verb of a call; `Post` and `Put` carry their payload as JSON text (`application/json`). */
  datatype HttpMethod = Get | Delete | Post(payload: string) | Put(payload: string)

  /** A call handed to a service's HTTP client: verb, endpoint text and the client's default headers at that moment. */
  datatype Dispatched = Dispatched(verb: HttpMethod, endpoint: string, headers: HeaderMap)

  /** The token POST of the dispatcher: endpoint text, the token client's headers and the URL-encoded form. */
  datatype ServiceTokenPost = ServiceTokenPost(uri: string, headers: HeaderMap, form: seq<(string, string)>)

  /** The POST made by a token update (if any), its outcome, and the options afterwards. */
  datatype TokenUpdateOutcome = TokenUpdateOutcome(post: Option<ServiceTokenPost>, result: Result<(), Error>, options: RestClientOptions)

  /** What one call does: the response or exception, the token POST and call made, and the options afterwards. */
  datatype CallOutcome = CallOutcome(
    result: Result<HttpResponse, Error>,
    tokenPost: Option<ServiceTokenPost>,
    call: Option<Dispatched>,
    options: RestClientOptions)

  /** `ConfigureHeaders` of the dispatcher, as a value: a fresh client holding each configured header once. */
  function ClientHeaders(headers: Option<CiMap<string>>): HeaderMap {
    if headers.None? then map[] else HeadersFrom(headers.value)
  }

  /** A service setting after `InitializeServices`: fresh clients holding only the configured headers. */
  function InitializedSetting(s: RestClientServiceSetting): (r: RestClientServiceSetting)
    ensures r.baseAddress == s.baseAddress && r.defaultRequestHeaders == s.defaultRequestHeaders
    ensures r.nextTimeUpdateToken == s.nextTimeUpdateToken
    ensures forall name ::
              Lookup(r.client, name) ==
                (if Lookup(s.defaultRequestHeaders, name).Some? then Some(Values([Lookup(s.defaultRequestHeaders, name).value])) else None)
    ensures r.tokenRequest.Some? <==> s.tokenRequest.Some?
    ensures r.tokenRequest.Some? ==> r.tokenRequest.value == s.tokenRequest.value.(client := r.tokenRequest.value.client)
    ensures r.tokenRequest.Some? ==>
              forall name ::
                Lookup(r.tokenRequest.value.client, name) ==
                  (if Lookup(s.tokenRequest.value.defaultRequestHeaders, name).Some?
                   then Some(Values([Lookup(s.tokenRequest.value.defaultRequestHeaders, name).value])) else None)
  {
    var tokenRequest :=
      if s.tokenRequest.None? then None
      else Some(s.tokenRequest.value.(client := HeadersFrom(s.tokenRequest.value.defaultRequestHeaders)));
    s.(client := HeadersFrom(s.defaultRequestHeaders), tokenRequest := tokenRequest)
  }

  /** The options after `InitializeServices`: every service initialised, the same names, the same retry tuning. */
  function Initialized(o: RestClientOptions): RestClientOptions {
    var services := map k | k in o.services :: InitializedSetting(o.services[k]);
    assert services.Keys == o.services.Keys;
    o.(services := services)
  }

  /** Initialising twice is initialising once: nothing of a previous initialisation survives or accumulates. */
  lemma InitializeIsIdempotent(o: RestClientOptions)
    ensures Initialized(Initialized(o)) == Initialized(o)
  {
  }

  /**
   * Re-initialising drops a token already set on a service's client but keeps the
   * refresh deadline: a later call before that deadline goes out with no token
   * unless the configured headers carry one.
   */
  lemma InitializeDropsTokenButKeepsDeadline(o: RestClientOptions, name: string)
    requires Lookup(o.services, name).Some?
    ensures var s := Lookup(Initialized(o).services, name);
      && s.Some?
      && s.value.nextTimeUpdateToken == Lookup(o.services, name).value.nextTimeUpdateToken
      && (HasAuthorization(s.value.client) <==> Lookup(Lookup(o.services, name).value.defaultRequestHeaders, AuthorizationName).Some?)
  {
  }

  /** `NeedsTokenRefresh`: the service is configured and the clock is strictly past its refresh deadline. */
  function NeedsTokenRefresh(options: RestClientOptions, serviceName: string, now: int): (r: bool)
    ensures r <==> Lookup(options.services, serviceName).Some? && now > Lookup(options.services, serviceName).value.nextTimeUpdateToken
  {
    var s := Lookup(options.services, serviceName);
    s.Some? && now > s.value.nextTimeUpdateToken
  }

  /** A service fresh from configuration (deadline `DateTime.MinValue`) needs a refresh at any later instant. */
  lemma FreshServiceNeedsRefresh(options: RestClientOptions, serviceName: string, now: int)
    requires Lookup(options.services, serviceName).Some?
    requires Lookup(options.services, serviceName).value.nextTimeUpdateToken == MinTime
    requires now > MinTime
    ensures NeedsTokenRefresh(options, serviceName, now)
  {
  }

  /** The endpoint text of the dispatcher's token POST: base address and path concatenated, a null part printing as nothing. */
  function TokenEndpoint(t: TokenSetting): (uri: string)
    ensures t.baseAddress.Some? ==> t.baseAddress.value.text <= uri
    ensures t.path.Some? ==> |t.path.value| <= |uri| && uri[|uri| - |t.path.value|..] == t.path.value
    ensures t.baseAddress.None? && t.path.Some? ==> uri == t.path.value
    ensures |uri| == (if t.baseAddress.Some? then |t.baseAddress.value.text| else 0) + (if t.path.Some? then |t.path.value| else 0)
  {
    (if t.baseAddress.Some? then t.baseAddress.value.text else "") + (if t.path.Some? then t.path.value else "")
  }

  /**
   * The dispatcher's `RequestTokenAsync` outcome: the token response, or `null` when
   * the body deserialises to `null` (it is not checked here).
   */
  function ServiceTokenReply(reply: TokenReply): (r: Result<Option<TokenResponseDto>, Error>)
    ensures reply.TokenUnreachable? ==> r == Failure(TransportError)
    ensures reply.TokenAnswer? && !IsSuccessStatusCode(reply.statusCode) ==> r == Failure(ApiError("Error acquiring token"))
    ensures r.Success? <==> reply.TokenAnswer? && IsSuccessStatusCode(reply.statusCode) && !reply.payload.Malformed?
    ensures r.Success? ==> (r.value.None? <==> reply.payload.JsonNull?)
    ensures r.Success? && r.value.Some? ==> r.value.value == reply.payload.dto
  {
    match reply
    case TokenUnreachable => Failure(TransportError)
    case TokenAnswer(status, _, payload) =>
      if !IsSuccessStatusCode(status) then Failure(ApiError("Error acquiring token"))
      else match payload
        case JsonNull => Success(None)
        case Malformed => Failure(JsonError)
        case Parsed(dto) => Success(Some(dto))
  }

  /** Replaces the setting stored under the service's name. */
  function WithSetting(options: RestClientOptions, serviceName: string, s: RestClientServiceSetting): RestClientOptions {
    options.(services := Insert(options.services, serviceName, s))
  }

  /**
   * `UpdateTokenAsync`: nothing happens when the service's token path is null or
   * empty; otherwise the token is posted as a form, the client's headers are reset
   * to the configured ones (before the response is dereferenced), then the token
   * becomes its `Authorization` and the deadline moves to now plus `expires_in`.
   */
  function TokenUpdate(options: RestClientOptions, serviceName: string, now: int, reply: TokenReply): TokenUpdateOutcome {
    var found := Lookup(options.services, serviceName);
    if found.None? then
      TokenUpdateOutcome(None, Failure(InvalidOperation("Service " + serviceName + " not configured.")), options)
    else if found.value.tokenRequest.None? || IsNullOrEmpty(found.value.tokenRequest.value.path) then
      TokenUpdateOutcome(None, Success(()), options)
    else
      var s := found.value;
      var t := s.tokenRequest.value;
      var post := Some(ServiceTokenPost(TokenEndpoint(t), t.client, GetTokenRequestBody(t)));
      match ServiceTokenReply(reply)
      case Failure(e) => TokenUpdateOutcome(post, Failure(e), options)
      case Success(token) =>
        var (result, updated) := ApplyToken(s, token, now);
        TokenUpdateOutcome(post, result, WithSetting(options, serviceName, updated))
  }

  /**
   * The end of `UpdateTokenAsync`, once the token response has arrived: the client's
   * headers are reset to the configured ones, then a `null` response fails on
   * dereference and an empty token type is refused by the header; otherwise the
   * token becomes the client's `Authorization` and the deadline moves to now plus
   * `expires_in`.
   */
  function ApplyToken(s: RestClientServiceSetting, token: Option<TokenResponseDto>, now: int)
    : (r: (Result<(), Error>, RestClientServiceSetting))
    ensures r.1.baseAddress == s.baseAddress && r.1.defaultRequestHeaders == s.defaultRequestHeaders
    ensures r.1.tokenRequest == s.tokenRequest
    ensures r.0.Success? <==> token.Some? && !IsNullOrEmpty(token.value.tokenType)
    ensures token.None? ==> r.0 == Failure(NullReference)
    ensures r.0.Failure? ==> r.1 == s.(client := HeadersFrom(s.defaultRequestHeaders))
    ensures r.0.Success? ==>
      && r.1.nextTimeUpdateToken == now + token.value.expireIn
      && Lookup(r.1.client, AuthorizationName) == Some(Credentials(AuthHeader(token.value.tokenType.value, token.value.accessToken)))
      && forall k :: !EqualsIgnoreCase(k, AuthorizationName) ==> Lookup(r.1.client, k) == Lookup(HeadersFrom(s.defaultRequestHeaders), k)
  {
    var reset := s.(client := ClientHeaders(Some(s.defaultRequestHeaders)));
    if token.None? then (Failure(NullReference), reset)
    else match MakeAuthHeader(token.value.tokenType, token.value.accessToken)
      case Failure(e) => (Failure(e), reset)
      case Success(header) =>
        (Success(()), reset.(client := SetAuthorization(reset.client, header), nextTimeUpdateToken := now + token.value.expireIn))
  }

  /**
   * A successful refresh leaves the service's client holding the configured headers
   * plus the new token as `Authorization`, and moves the deadline to now plus
   * `expires_in`; the token client, every other service and the retry tuning are
   * left as they were.
   */
  lemma TokenUpdateSuccess(options: RestClientOptions, serviceName: string, now: int, reply: TokenReply)
    requires Lookup(options.services, serviceName).Some?
    requires TokenUpdate(options, serviceName, now, reply).post.Some?
    requires TokenUpdate(options, serviceName, now, reply).result.Success?
    ensures var u := TokenUpdate(options, serviceName, now, reply);
      var before := Lookup(options.services, serviceName).value;
      var after := Lookup(u.options.services, serviceName);
      && reply.TokenAnswer? && reply.payload.Parsed?
      && after.Some?
      && after.value == before.(client := after.value.client, nextTimeUpdateToken := after.value.nextTimeUpdateToken)
      && after.value.nextTimeUpdateToken == now + reply.payload.dto.expireIn
      && Lookup(after.value.client, AuthorizationName) ==
           Some(Credentials(AuthHeader(reply.payload.dto.tokenType.value, reply.payload.dto.accessToken)))
      && (forall k :: !EqualsIgnoreCase(k, AuthorizationName) ==>
            Lookup(after.value.client, k) == (if Lookup(before.defaultRequestHeaders, k).Some?
                                               then Some(Values([Lookup(before.defaultRequestHeaders, k).value])) else None))
      && (forall k :: !EqualsIgnoreCase(k, serviceName) ==> Lookup(u.options.services, k) == Lookup(options.services, k))
      && u.options.httpClientDelay == options.httpClientDelay && u.options.httpClientRetry == options.httpClientRetry
  {
    var before := Lookup(options.services, serviceName).value;
    forall k | !EqualsIgnoreCase(k, AuthorizationName)
      ensures Lookup(HeadersFrom(before.defaultRequestHeaders), k) ==
        (if Lookup(before.defaultRequestHeaders, k).Some? then Some(Values([Lookup(before.defaultRequestHeaders, k).value])) else None)
    {
      HeadersFromLookup(before.defaultRequestHeaders, k);
    }
  }

  /** A refresh that fails after the token response arrived still leaves the client reset to the configured headers, without a token. */
  lemma TokenUpdateFailureAfterReset(options: RestClientOptions, serviceName: string, now: int, reply: TokenReply)
    requires Lookup(options.services, serviceName).Some?
    requires TokenUpdate(options, serviceName, now, reply).result.Failure?
    requires ServiceTokenReply(reply).Success?
    requires TokenUpdate(options, serviceName, now, reply).post.Some?
    ensures var u := TokenUpdate(options, serviceName, now, reply);
      var before := Lookup(options.services, serviceName).value;
      && (u.result.error == NullReference <==> reply.payload.JsonNull?)
      && Lookup(u.options.services, serviceName) == Some(before.(client := HeadersFrom(before.defaultRequestHeaders)))
  {
  }

  /** A token setting without a path never triggers a token POST, whatever the clock and the network do. */
  lemma PathlessTokenSettingNeverPosts(options: RestClientOptions, serviceName: string, now: int, reply: TokenReply)
    requires Lookup(options.services, serviceName).Some?
    requires var s := Lookup(options.services, serviceName).value; s.tokenRequest.Some? && IsNullOrEmpty(s.tokenRequest.value.path)
    ensures TokenUpdate(options, serviceName, now, reply) == TokenUpdateOutcome(None, Success(()), options)
  {
  }

  /** A refresh never touches the token client's headers, so the guard on its `Authorization` stays as it was. */
  lemma TokenUpdateKeepsTokenClient(options: RestClientOptions, serviceName: string, now: int, reply: TokenReply)
    requires Lookup(options.services, serviceName).Some?
    ensures var after := Lookup(TokenUpdate(options, serviceName, now, reply).options.services, serviceName);
      after.Some? && after.value.tokenRequest == Lookup(options.services, serviceName).value.tokenRequest
  {
  }

  /** The condition under which a call refreshes the token first. */
  predicate WillRefresh(options: RestClientOptions, serviceName: string, now: int) {
    var s := Lookup(options.services, serviceName);
    && s.Some?
    && s.value.tokenRequest.Some?
    && NeedsTokenRefresh(options, serviceName, now)
    && !HasAuthorization(s.value.tokenRequest.value.client)
  }

  /** The token update a call performs before it is sent: `UpdateTokenAsync` when the refresh condition holds, nothing otherwise. */
  function RefreshIfDue(options: RestClientOptions, serviceName: string, now: int, reply: TokenReply): TokenUpdateOutcome {
    if WillRefresh(options, serviceName, now) then TokenUpdate(options, serviceName, now, reply)
    else TokenUpdateOutcome(None, Success(()), options)
  }

  /** Any exception raised once the service is found comes out wrapped. */
  function Wrap(e: Error): (r: Error)
    ensures r.RestRequestFailed? && r.statusCode.None? && r.inner == Some(e)
  {
    RestRequestFailed(None, "Error executing HTTP call", Some(e))
  }

  /**
   * `InvokeCallAsync`: an unknown service is refused unwrapped; otherwise the token
   * is refreshed first when the service has a token setting, its deadline has
   * passed and the token client has no `Authorization`; then the call goes to the
   * base address followed by the path, through the service's client.
   */
  function InvokeOutcome(options: RestClientOptions, service: string, path: string, verb: HttpMethod,
                         now: int, tokenReply: TokenReply, reply: CallReply): CallOutcome
  {
    var found := Lookup(options.services, service);
    if found.None? then
      CallOutcome(Failure(InvalidOperation("Service " + service + " not found.")), None, None, options)
    else
      var u := RefreshIfDue(options, service, now, tokenReply);
      if u.result.Failure? then CallOutcome(Failure(Wrap(u.result.error)), u.post, None, u.options)
      else
        TokenUpdateKeepsTokenClient(options, service, now, tokenReply);
        var call := Dispatched(verb, found.value.baseAddress.text + path, Lookup(u.options.services, service).value.client);
        match reply
        case Unreachable => CallOutcome(Failure(Wrap(TransportError)), u.post, Some(call), u.options)
        case Answered(response) => CallOutcome(Success(response), u.post, Some(call), u.options)
  }

  /** An unknown service is refused with the one exception that is not wrapped; nothing is sent and nothing changes. */
  lemma UnknownServiceIsRefused(options: RestClientOptions, service: string, path: string, verb: HttpMethod,
                                now: int, tokenReply: TokenReply, reply: CallReply)
    requires Lookup(options.services, service).None?
    ensures InvokeOutcome(options, service, path, verb, now, tokenReply, reply) ==
              CallOutcome(Failure(InvalidOperation("Service " + service + " not found.")), None, None, options)
  {
  }

  /** For a known service, every failure is a `RestRequestFailedException` wrapping the cause, and a response of any status is returned as is. */
  lemma KnownServiceFailuresAreWrapped(options: RestClientOptions, service: string, path: string, verb: HttpMethod,
                                       now: int, tokenReply: TokenReply, reply: CallReply)
    requires Lookup(options.services, service).Some?
    ensures var c := InvokeOutcome(options, service, path, verb, now, tokenReply, reply);
      && (c.result.Failure? ==> c.result.error.RestRequestFailed? && c.result.error.message == "Error executing HTTP call"
                                && c.result.error.inner.Some?)
      && (reply.Answered? && c.call.Some? ==> c.result == Success(reply.response))
  {
  }

  /** The call goes to the service's base address text followed by the path, with the requested verb, through the service's client. */
  lemma CallGoesToBasePlusPath(options: RestClientOptions, service: string, path: string, verb: HttpMethod,
                               now: int, tokenReply: TokenReply, reply: CallReply)
    requires Lookup(options.services, service).Some?
    ensures var c := InvokeOutcome(options, service, path, verb, now, tokenReply, reply);
      && (c.call.Some? <==> !WillRefresh(options, service, now) || TokenUpdate(options, service, now, tokenReply).result.Success?)
      && (c.call.Some? ==>
            && c.call.value.endpoint == Lookup(options.services, service).value.baseAddress.text + path
            && c.call.value.verb == verb
            && c.call.value.headers == Lookup(c.options.services, service).value.client)
  {
    if WillRefresh(options, service, now) {
      TokenUpdateKeepsTokenClient(options, service, now, tokenReply);
    }
  }

  /** A service without a token path is called with its client as it is: no token POST, and the options do not change. */
  lemma CallWithoutTokenPath(options: RestClientOptions, service: string, path: string, verb: HttpMethod,
                             now: int, tokenReply: TokenReply, reply: CallReply)
    requires Lookup(options.services, service).Some?
    requires var s := Lookup(options.services, service).value; s.tokenRequest.None? || IsNullOrEmpty(s.tokenRequest.value.path)
    ensures var c := InvokeOutcome(options, service, path, verb, now, tokenReply, reply);
      && c.tokenPost.None?
      && c.options == options
      && c.call.Some?
      && c.call.value.headers == Lookup(options.services, service).value.client
  {
    if Lookup(options.services, service).value.tokenRequest.Some? {
      PathlessTokenSettingNeverPosts(options, service, now, tokenReply);
    }
  }

  /** A token POST happens exactly when the refresh condition holds and the token setting has a path. */
  lemma TokenPostOnlyWhenDue(options: RestClientOptions, service: string, path: string, verb: HttpMethod,
                             now: int, tokenReply: TokenReply, reply: CallReply)
    ensures InvokeOutcome(options, service, path, verb, now, tokenReply, reply).tokenPost.Some? <==>
      WillRefresh(options, service, now) && !IsNullOrEmpty(Lookup(options.services, service).value.tokenRequest.value.path)
  {
  }

  /**
   * After a successful refresh the call itself carries the new token and otherwise
   * exactly the configured default headers, at the base address followed by the path.
   */
  lemma {:induction false} CallCarriesFreshToken(options: RestClientOptions, service: string, path: string, verb: HttpMethod,
                                                 now: int, tokenReply: TokenReply, reply: CallReply)
    requires Lookup(options.services, service).Some?
    requires var c := InvokeOutcome(options, service, path, verb, now, tokenReply, reply); c.tokenPost.Some? && c.call.Some?
    ensures var c := InvokeOutcome(options, service, path, verb, now, tokenReply, reply);
      var s := Lookup(options.services, service).value;
      && c.call.value.endpoint == s.baseAddress.text + path
      && c.call.value.verb == verb
      && Lookup(c.call.value.headers, AuthorizationName) ==
           Some(Credentials(AuthHeader(tokenReply.payload.dto.tokenType.value, tokenReply.payload.dto.accessToken)))
      && (forall k :: !EqualsIgnoreCase(k, AuthorizationName) ==>
            Lookup(c.call.value.headers, k) == (if Lookup(s.defaultRequestHeaders, k).Some?
                                                 then Some(Values([Lookup(s.defaultRequestHeaders, k).value])) else None))
  {
    TokenUpdateSuccess(options, service, now, tokenReply);
  }

  /**
   * The dispatcher's side of the expiry instant: it refreshes a service only once the
   * clock is strictly past its deadline, not when the clock equals it. The handler's
   * side, and the disagreement of the two, is `Integration.ExpiryInstantDisagreement`.
   */
  lemma ExpiryBoundaryDiffers(options: RestClientOptions, serviceName: string)
    requires Lookup(options.services, serviceName).Some?
    ensures var deadline := Lookup(options.services, serviceName).value.nextTimeUpdateToken;
      && !NeedsTokenRefresh(options, serviceName, deadline)
      && NeedsTokenRefresh(options, serviceName, deadline + 1)
  {
  }

  /** `ParseResponse`: a non-success status becomes a `RestRequestFailedException` with that status and the body; otherwise the body is handed to the deserialiser. */
  function ParseResponse(response: HttpResponse): (r: Result<string, Error>)
    ensures r.Success? <==> IsSuccessStatusCode(response.statusCode)
    ensures r.Success? ==> r.value == response.body
    ensures r.Failure? ==> r.error == RestRequestFailed(Some(response.statusCode), response.body, None)
  {
    if !IsSuccessStatusCode(response.statusCode) then Failure(RestRequestFailed(Some(response.statusCode), response.body, None))
    else Success(response.body)
  }

  /** The dispatcher and its options; every service's client lives inside the options. */
  class RestClientService {
    var options: RestClientOptions

    /** The constructor keeps the options and initialises every service's clients. */
    constructor (options: RestClientOptions)
      ensures this.options == Initialized(options)
    {
      this.options := options;
      new;
      InitializeServices();
    }

    /** `InitializeServices`: gives each service (and its token setting) a client holding the configured headers. */
    method InitializeServices()
      modifies this
      ensures options == Initialized(old(options))
    {
      ghost var original := options;
      var pending := options.services.Keys;
      while pending != {}
        invariant pending <= original.services.Keys
        invariant options == original.(services := options.services)
        invariant options.services.Keys == original.services.Keys
        invariant forall k :: k in original.services ==>
          options.services[k] == if k in pending then original.services[k] else InitializedSetting(original.services[k])
        decreases pending
      {
        var name :| name in pending;
        assert Canon(name) == name;
        var initialized := InitializeSetting(options.services[name]);
        options := options.(services := options.services[name := initialized]);
        pending := pending - {name};
      }
    }

    /** One pass of the loop in `InitializeServices`: a new client for the service and, when it has one, for its token setting. */
    static method InitializeSetting(s: RestClientServiceSetting) returns (r: RestClientServiceSetting)
      ensures r == InitializedSetting(s)
    {
      var client := ConfigureHeaders(Some(s.defaultRequestHeaders));
      var tokenRequest := s.tokenRequest;
      if tokenRequest.Some? {
        var tokenClient := ConfigureHeaders(Some(tokenRequest.value.defaultRequestHeaders));
        tokenRequest := Some(tokenRequest.value.(client := tokenClient));
      }
      r := s.(client := client, tokenRequest := tokenRequest);
    }

    /** `ConfigureHeaders` of the dispatcher: a cleared client, then each configured header added; none when the dictionary is null. */
    static method ConfigureHeaders(headers: Option<CiMap<string>>) returns (client: HeaderMap)
      ensures client == ClientHeaders(headers)
    {
      client := map[];
      if headers.Some? {
        var pending := headers.value.Keys;
        while pending != {}
          invariant pending <= headers.value.Keys
          invariant client == HeadersFrom(headers.value - pending)
          decreases pending
        {
          var name :| name in pending;
          assert Canon(name) == name && name !in client;
          assert ItemsOf(client, name) + [headers.value[name]] == [headers.value[name]];
          client := AddHeader(client, name, headers.value[name]);
          assert headers.value - (pending - {name}) == (headers.value - pending)[name := headers.value[name]];
          pending := pending - {name};
        }
        assert headers.value - {} == headers.value;
      }
    }

    /** The end of `UpdateTokenAsync`: reset the client's headers, then set the token and the deadline. */
    static method ApplyTokenTo(s: RestClientServiceSetting, token: Option<TokenResponseDto>, now: int)
      returns (result: Result<(), Error>, updated: RestClientServiceSetting)
      ensures (result, updated) == ApplyToken(s, token, now)
    {
      var client := ConfigureHeaders(Some(s.defaultRequestHeaders));
      updated := s.(client := client);
      if token.None? {
        return Failure(NullReference), updated;
      }
      var header := MakeAuthHeader(token.value.tokenType, token.value.accessToken);
      if header.Failure? {
        return Failure(header.error), updated;
      }
      updated := updated.(client := SetAuthorization(updated.client, header.value),
                          nextTimeUpdateToken := now + token.value.expireIn);
      result := Success(());
    }

    /** `UpdateTokenAsync` on the current options. */
    method UpdateToken(serviceName: string, now: int, reply: TokenReply) returns (result: Result<(), Error>, post: Option<ServiceTokenPost>)
      modifies this
      ensures TokenUpdateOutcome(post, result, options) == TokenUpdate(old(options), serviceName, now, reply)
    {
      post := None;
      var found := Lookup(options.services, serviceName);
      if found.None? {
        return Failure(InvalidOperation("Service " + serviceName + " not configured.")), None;
      }
      if found.value.tokenRequest.None? || IsNullOrEmpty(found.value.tokenRequest.value.path) {
        return Success(()), None;
      }
      var s := found.value;
      var t := s.tokenRequest.value;
      post := Some(ServiceTokenPost(TokenEndpoint(t), t.client, GetTokenRequestBody(t)));
      var token := ServiceTokenReply(reply);
      if token.Failure? {
        return Failure(token.error), post;
      }
      var updated;
      result, updated := ApplyTokenTo(s, token.value, now);
      options := WithSetting(options, serviceName, updated);
    }

    /** The guarded refresh at the start of `InvokeCallAsync`. */
    method RefreshToken(service: string, now: int, tokenReply: TokenReply) returns (result: Result<(), Error>, post: Option<ServiceTokenPost>)
      modifies this
      ensures TokenUpdateOutcome(post, result, options) == RefreshIfDue(old(options), service, now, tokenReply)
    {
      if WillRefresh(options, service, now) {
        result, post := UpdateToken(service, now, tokenReply);
      } else {
        result, post := Success(()), None;
      }
    }

    /**
     * `InvokeCallAsync` and the public `Get`, `Delete`, `Post` and `Put` that route
     * through it (one attempt; retries are not modelled).
     */
    method InvokeCall(service: string, path: string, verb: HttpMethod, now: int, tokenReply: TokenReply, reply: CallReply)
      returns (result: Result<HttpResponse, Error>, tokenPost: Option<ServiceTokenPost>, call: Option<Dispatched>)
      modifies this
      ensures CallOutcome(result, tokenPost, call, options) ==
                InvokeOutcome(old(options), service, path, verb, now, tokenReply, reply)
    {
      tokenPost, call := None, None;
      var found := Lookup(options.services, service);
      if found.None? {
        return Failure(InvalidOperation("Service " + service + " not found.")), None, None;
      }
      ghost var before := options;
      var updated;
      updated, tokenPost := RefreshToken(service, now, tokenReply);
      if updated.Failure? {
        return Failure(Wrap(updated.error)), tokenPost, None;
      }
      TokenUpdateKeepsTokenClient(before, service, now, tokenReply);
      var client := Lookup(options.services, service).value.client;
      call := Some(Dispatched(verb, found.value.baseAddress.text + path, client));
      match reply
      case Unreachable => result := Failure(Wrap(TransportError));
      case Answered(response) => result := Success(response);
    }

    /** The typed `Get<T>`, `Delete<T>`, `Post<T>` and `Put<T>`: the call, then `ParseResponse` on its response. */
    method InvokeAndParse(service: string, path: string, verb: HttpMethod, now: int, tokenReply: TokenReply, reply: CallReply)
      returns (result: Result<string, Error>)
      modifies this
      ensures var c := InvokeOutcome(old(options), service, path, verb, now, tokenReply, reply);
        && options == c.options
        && (c.result.Failure? ==> result == Failure(c.result.error))
        && (c.result.Success? ==> result == ParseResponse(c.result.value))
    {
      var response, _, _ := InvokeCall(service, path, verb, now, tokenReply, reply);
      if response.Failure? {
        return Failure(response.error);
      }
      result := ParseResponse(response.value);
    }

    /** `RefreshConfigurationOptions`: a null argument is refused and changes nothing; otherwise the new options are initialised and kept. */
    method RefreshConfigurationOptions(newOptions: Option<RestClientOptions>) returns (result: Result<(), Error>)
      modifies this
      ensures newOptions.None? ==> result == Failure(ArgumentNull("options")) && options == old(options)
      ensures newOptions.Some? ==> result == Success(()) && options == Initialized(newOptions.value)
    {
      if newOptions.None? {
        return Failure(ArgumentNull("options"));
      }
      options := newOptions.value;
      InitializeServices();
      result := Success(());
    }
  }
}
