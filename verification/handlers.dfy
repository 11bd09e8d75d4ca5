/**
 * The OAuth token handler: a message handler that, for a service with a token
 * setting, attaches a cached bearer token to each outgoing request and fetches a
 * new one when the cached token has expired.
 */
module Handlers {
  import opened Wrappers
  import opened Text
  import opened Exceptions
  import opened Http
  import opened Configurations

  /** A cached token: the `Authorization` value to attach and the instant (in seconds) it stops being valid. */
  datatype TokenState = TokenState(header: AuthHeader, expiresAt: int)

  /** The token cache: one dictionary, keyed by service name ignoring case, shared by every handler instance. */
  class TokenCache {
    var entries: CiMap<TokenState>

    constructor ()
      ensures entries == map[]
    {
      entries := map[];
    }
  }

  /** `GetValidToken`: the cached token of the service while the clock is strictly before its expiry. */
  function GetValidToken(entries: CiMap<TokenState>, serviceName: string, now: int): (r: Option<TokenState>)
    ensures r.Some? <==> Lookup(entries, serviceName).Some? && now < Lookup(entries, serviceName).value.expiresAt
    ensures r.Some? ==> r.value == Lookup(entries, serviceName).value
  {
    var state := Lookup(entries, serviceName);
    if state.Some? && now < state.value.expiresAt then state else None
  }

  /** A token just stored for a service is returned, under any spelling of the name, exactly until its expiry. */
  lemma StoredTokenValidity(entries: CiMap<TokenState>, serviceName: string, state: TokenState, spelling: string, now: int)
    requires EqualsIgnoreCase(spelling, serviceName)
    ensures GetValidToken(Insert(entries, serviceName, state), spelling, now) ==
              (if now < state.expiresAt then Some(state) else None)
  {
    LookupIgnoresCase(Insert(entries, serviceName, state), spelling, serviceName);
  }

  /** The body of a token request: the fields and the media type of the content. */
  datatype TokenContent =
    | JsonContent(fields: seq<(string, string)>, mediaType: string)
    | FormContent(fields: seq<(string, string)>, mediaType: string)

  /**
   * `CreateTokenContent`: the four token-request fields, as a JSON object when the
   * configured content type is `application/json` ignoring case, and URL-encoded
   * otherwise; a URL-encoded body carries the configured type only when it differs
   * from the form type ignoring case.
   */
  function CreateTokenContent(t: TokenSetting): (c: TokenContent)
    ensures c.fields == GetTokenRequestBody(t)
    ensures c.JsonContent? <==> EqualsIgnoreCase(t.contentType, JsonMediaType)
    ensures EqualsIgnoreCase(c.mediaType, t.contentType)
    ensures c.JsonContent? ==> c.mediaType == t.contentType
    ensures c.FormContent? ==>
      c.mediaType == (if EqualsIgnoreCase(t.contentType, DefaultContentType) then DefaultContentType else t.contentType)
  {
    var body := GetTokenRequestBody(t);
    if EqualsIgnoreCase(t.contentType, JsonMediaType) then JsonContent(body, t.contentType)
    else if !EqualsIgnoreCase(t.contentType, DefaultContentType) then FormContent(body, t.contentType)
    else FormContent(body, DefaultContentType)
  }

  /** The default content type yields a URL-encoded body with the form media type. */
  lemma DefaultContentIsForm(t: TokenSetting)
    requires t.contentType == DefaultContentType
    ensures CreateTokenContent(t) == FormContent(GetTokenRequestBody(t), DefaultContentType)
  {
    assert !EqualsIgnoreCase(DefaultContentType, JsonMediaType) by {
      assert |DefaultContentType| != |JsonMediaType|;
    }
  }

  /** The POST the handler sends for a token: the base address, the relative path, the client headers and the content. */
  datatype TokenPost = TokenPost(baseAddress: Uri, relativeUri: string, headers: HeaderMap, content: TokenContent)

  /** The POST made (if the request got that far) and the token obtained or the exception thrown. */
  datatype TokenFetch = TokenFetch(post: Option<TokenPost>, result: Result<TokenState, Error>)

  /**
   * `new Uri(baseAddress, path)`: a null base throws `ArgumentNullException`, a relative
   * base `ArgumentOutOfRangeException` (an `ArgumentException`), and a null path counts as empty.
   */
  function TokenUri(t: TokenSetting): (r: Result<(Uri, string), Error>)
    ensures t.baseAddress.None? ==> r == Failure(ArgumentNull("baseUri"))
    ensures t.baseAddress.Some? && !t.baseAddress.value.isAbsolute ==> r == Failure(ArgumentError)
    ensures r.Success? <==> t.baseAddress.Some? && t.baseAddress.value.isAbsolute
    ensures r.Success? ==> r.value.0 == t.baseAddress.value
    ensures r.Success? && t.path.Some? ==> r.value.1 == t.path.value
    ensures r.Success? && t.path.None? ==> r.value.1 == ""
  {
    if t.baseAddress.None? then Failure(ArgumentNull("baseUri"))
    else if !t.baseAddress.value.isAbsolute then Failure(ArgumentError)
    else Success((t.baseAddress.value, if t.path.Some? then t.path.value else ""))
  }

  /**
   * What the network's answer to the token POST turns into: an unreachable endpoint
   * and a non-success status fail, so does a `null` or malformed body and an empty
   * token type; otherwise the token type and access token, valid for `expires_in`
   * seconds from now.
   */
  function TokenFromReply(reply: TokenReply, now: int): (r: Result<TokenState, Error>)
    ensures reply.TokenUnreachable? ==> r == Failure(TransportError)
    ensures reply.TokenAnswer? && !IsSuccessStatusCode(reply.statusCode) ==> r == Failure(ApiError("Error acquiring token"))
    ensures reply.TokenAnswer? && IsSuccessStatusCode(reply.statusCode) && reply.payload.JsonNull? ==>
      r == Failure(ApiError("Unable to deserialize token response"))
    ensures r.Success? <==>
      reply.TokenAnswer? && IsSuccessStatusCode(reply.statusCode) && reply.payload.Parsed? && !IsNullOrEmpty(reply.payload.dto.tokenType)
    ensures r.Success? ==>
      r.value == TokenState(AuthHeader(reply.payload.dto.tokenType.value, reply.payload.dto.accessToken), now + reply.payload.dto.expireIn)
  {
    match reply
    case TokenUnreachable => Failure(TransportError)
    case TokenAnswer(status, _, payload) =>
      if !IsSuccessStatusCode(status) then Failure(ApiError("Error acquiring token"))
      else match payload
        case JsonNull => Failure(ApiError("Unable to deserialize token response"))
        case Malformed => Failure(JsonError)
        case Parsed(dto) =>
          var header :- MakeAuthHeader(dto.tokenType, dto.accessToken);
          Success(TokenState(header, now + dto.expireIn))
  }

  /**
   * `RequestTokenAsync`: the token endpoint must resolve from the base address and
   * path; the POST carries the setting's default headers and the token content; a
   * non-success status and a `null` body are `ApiException`s; otherwise the token
   * type and access token form the header, valid for `expires_in` seconds from now.
   */
  function AcquireToken(t: TokenSetting, now: int, reply: TokenReply): (f: TokenFetch)
    ensures t.baseAddress.None? ==> f == TokenFetch(None, Failure(ArgumentNull("baseUri")))
    ensures t.baseAddress.Some? && !t.baseAddress.value.isAbsolute ==> f == TokenFetch(None, Failure(ArgumentError))
    ensures f.post.Some? <==> t.baseAddress.Some? && t.baseAddress.value.isAbsolute
    ensures f.post.Some? ==>
      && f.post.value.baseAddress == t.baseAddress.value
      && (t.path.Some? ==> f.post.value.relativeUri == t.path.value)
      && (t.path.None? ==> f.post.value.relativeUri == "")
      && f.post.value.headers == HeadersFrom(t.defaultRequestHeaders)
      && f.post.value.content == CreateTokenContent(t)
      && f.post.value.content.fields == GetTokenRequestBody(t)
    ensures f.post.Some? && reply.TokenUnreachable? ==> f.result == Failure(TransportError)
    ensures f.post.Some? && reply.TokenAnswer? && !IsSuccessStatusCode(reply.statusCode) ==>
      f.result == Failure(ApiError("Error acquiring token"))
    ensures f.post.Some? && reply.TokenAnswer? && IsSuccessStatusCode(reply.statusCode) && reply.payload.JsonNull? ==>
      f.result == Failure(ApiError("Unable to deserialize token response"))
    ensures f.result.Success? <==>
      && f.post.Some? && reply.TokenAnswer? && IsSuccessStatusCode(reply.statusCode)
      && reply.payload.Parsed? && !IsNullOrEmpty(reply.payload.dto.tokenType)
    ensures f.result.Success? ==>
      f.result.value == TokenState(AuthHeader(reply.payload.dto.tokenType.value, reply.payload.dto.accessToken),
                                   now + reply.payload.dto.expireIn)
  {
    match TokenUri(t)
    case Failure(e) => TokenFetch(None, Failure(e))
    case Success((base, relative)) =>
      TokenFetch(Some(TokenPost(base, relative, HeadersFrom(t.defaultRequestHeaders), CreateTokenContent(t))),
                 TokenFromReply(reply, now))
  }

  /** `RequestTokenAsync` on a fresh client: configure its headers, resolve the endpoint, build the content and post. */
  method RequestToken(t: TokenSetting, now: int, reply: TokenReply) returns (f: TokenFetch)
    ensures f == AcquireToken(t, now, reply)
  {
    var headers := ReplaceHeaders(t.defaultRequestHeaders);
    var endpoint := TokenUri(t);
    if endpoint.Failure? {
      return TokenFetch(None, Failure(endpoint.error));
    }
    var content := CreateTokenContent(t);
    var post := TokenPost(endpoint.value.0, endpoint.value.1, headers, content);
    f := TokenFetch(Some(post), TokenFromReply(reply, now));
  }

  /** Setting `request.Headers.Authorization`. */
  function Authorize(request: HttpRequest, header: AuthHeader): (r: HttpRequest)
    ensures r.requestUri == request.requestUri && r.content == request.content
    ensures Lookup(r.headers, AuthorizationName) == Some(Credentials(header))
    ensures forall k :: !EqualsIgnoreCase(k, AuthorizationName) ==> Lookup(r.headers, k) == Lookup(request.headers, k)
  {
    request.(headers := SetAuthorization(request.headers, header))
  }

  /** What one call of `SendAsync` does: the request handed to the inner handler (or the exception), the token POST made, and the new cache. */
  datatype Dispatch = Dispatch(forwarded: Result<HttpRequest, Error>, post: Option<TokenPost>, entries: CiMap<TokenState>)

  /** The service's token setting, when the options are available and configure the service with one. */
  function TokenSettingOf(options: Option<RestClientOptions>, serviceName: string): Option<TokenSetting> {
    if options.None? then None
    else
      var setting := Lookup(options.value.services, serviceName);
      if setting.None? then None else setting.value.tokenRequest
  }

  /** `SendAsync`, as a function of the cache before the call. */
  function SendOutcome(entries: CiMap<TokenState>, serviceName: string, request: HttpRequest,
                       options: Option<RestClientOptions>, now: int, reply: TokenReply): Dispatch
  {
    if options.None? then
      Dispatch(Failure(InvalidOperation("RestClient options not available.")), None, entries)
    else if Lookup(options.value.services, serviceName).None? then
      Dispatch(Failure(InvalidOperation("Service " + serviceName + " is not configured.")), None, entries)
    else if Lookup(options.value.services, serviceName).value.tokenRequest.None? then
      Dispatch(Success(request), None, entries)
    else
      var cached := GetValidToken(entries, serviceName, now);
      if cached.Some? then
        Dispatch(Success(Authorize(request, cached.value.header)), None, entries)
      else
        var fetch := AcquireToken(Lookup(options.value.services, serviceName).value.tokenRequest.value, now, reply);
        if fetch.result.Failure? then Dispatch(Failure(fetch.result.error), fetch.post, entries)
        else Dispatch(Success(Authorize(request, fetch.result.value.header)), fetch.post,
                      Insert(entries, serviceName, fetch.result.value))
  }

  /**
   * The handler fails with `InvalidOperationException` when the options are missing
   * or do not name the service, and forwards the request untouched when the service
   * has no token setting; in none of these cases is a token requested.
   */
  lemma SendWithoutTokenSetting(entries: CiMap<TokenState>, serviceName: string, request: HttpRequest,
                                options: Option<RestClientOptions>, now: int, reply: TokenReply)
    requires TokenSettingOf(options, serviceName).None?
    ensures var d := SendOutcome(entries, serviceName, request, options, now, reply);
      && d.post.None? && d.entries == entries
      && (d.forwarded.Success? <==> options.Some? && Lookup(options.value.services, serviceName).Some?)
      && (d.forwarded.Success? ==> d.forwarded.value == request)
      && (d.forwarded.Failure? ==> d.forwarded.error.InvalidOperation?)
  {
  }

  /**
   * With a token setting, a forwarded request carries exactly the token the cache
   * now holds for the service, and nothing else of the request changes; a request
   * that is not forwarded leaves the cache as it was.
   */
  lemma SendAttachesCachedToken(entries: CiMap<TokenState>, serviceName: string, request: HttpRequest,
                                options: Option<RestClientOptions>, now: int, reply: TokenReply)
    requires TokenSettingOf(options, serviceName).Some?
    ensures var d := SendOutcome(entries, serviceName, request, options, now, reply);
      && (d.forwarded.Failure? ==> d.entries == entries)
      && (d.forwarded.Success? ==>
            && Lookup(d.entries, serviceName).Some?
            && d.forwarded.value == Authorize(request, Lookup(d.entries, serviceName).value.header))
  {
  }

  /** A valid cached token is attached as it is: no token is requested and the cache does not change. */
  lemma SendReusesValidToken(entries: CiMap<TokenState>, serviceName: string, request: HttpRequest,
                             options: Option<RestClientOptions>, now: int, reply: TokenReply)
    requires TokenSettingOf(options, serviceName).Some?
    requires GetValidToken(entries, serviceName, now).Some?
    ensures SendOutcome(entries, serviceName, request, options, now, reply) ==
              Dispatch(Success(Authorize(request, Lookup(entries, serviceName).value.header)), None, entries)
  {
  }

  /**
   * Without a valid cached token, one token is requested; on success it is stored
   * under the service's name, holding the token type and access token and expiring
   * `expires_in` seconds from now; a non-success status or a `null` body raises
   * `ApiException` and caches nothing.
   */
  lemma SendFetchesWhenNoValidToken(entries: CiMap<TokenState>, serviceName: string, request: HttpRequest,
                                    options: Option<RestClientOptions>, now: int, reply: TokenReply)
    requires TokenSettingOf(options, serviceName).Some?
    requires GetValidToken(entries, serviceName, now).None?
    requires TokenUri(TokenSettingOf(options, serviceName).value).Success?
    ensures var d := SendOutcome(entries, serviceName, request, options, now, reply);
      && d.post.Some?
      && d.post.value.content == CreateTokenContent(TokenSettingOf(options, serviceName).value)
      && (reply.TokenAnswer? && !IsSuccessStatusCode(reply.statusCode) ==>
            d == Dispatch(Failure(ApiError("Error acquiring token")), d.post, entries))
      && (reply.TokenAnswer? && IsSuccessStatusCode(reply.statusCode) && reply.payload.JsonNull? ==>
            d == Dispatch(Failure(ApiError("Unable to deserialize token response")), d.post, entries))
      && (d.forwarded.Success? ==>
            var state := TokenState(AuthHeader(reply.payload.dto.tokenType.value, reply.payload.dto.accessToken),
                                    now + reply.payload.dto.expireIn);
            && d.entries == Insert(entries, serviceName, state)
            && d.forwarded.value == Authorize(request, state.header))
  {
  }

  /** A call changes no other service's cache entry. */
  lemma SendKeepsOtherServices(entries: CiMap<TokenState>, serviceName: string, request: HttpRequest,
                               options: Option<RestClientOptions>, now: int, reply: TokenReply, other: string)
    requires !EqualsIgnoreCase(other, serviceName)
    ensures Lookup(SendOutcome(entries, serviceName, request, options, now, reply).entries, other) == Lookup(entries, other)
  {
  }

  /** A token is requested exactly when the service has a token setting and no valid cached token, and its endpoint resolves. */
  lemma SendPostsOnlyWithoutValidToken(entries: CiMap<TokenState>, serviceName: string, request: HttpRequest,
                                       options: Option<RestClientOptions>, now: int, reply: TokenReply)
    ensures var d := SendOutcome(entries, serviceName, request, options, now, reply);
      d.post.Some? <==>
        && TokenSettingOf(options, serviceName).Some?
        && GetValidToken(entries, serviceName, now).None?
        && TokenUri(TokenSettingOf(options, serviceName).value).Success?
  {
  }

  /**
   * A token fetched with a positive lifetime is reused, without a new POST, by every
   * later call for the same service (under any spelling of its name) until it expires.
   */
  lemma {:induction false} FetchedTokenIsReused(entries: CiMap<TokenState>, serviceName: string, request: HttpRequest,
                                                options: Option<RestClientOptions>, now: int, reply: TokenReply,
                                                spelling: string, request2: HttpRequest, later: int, reply2: TokenReply)
    requires TokenSettingOf(options, serviceName).Some?
    requires EqualsIgnoreCase(spelling, serviceName)
    requires SendOutcome(entries, serviceName, request, options, now, reply).post.Some?
    requires SendOutcome(entries, serviceName, request, options, now, reply).forwarded.Success?
    requires now <= later < now + reply.payload.dto.expireIn
    ensures var d := SendOutcome(entries, serviceName, request, options, now, reply);
      var d2 := SendOutcome(d.entries, spelling, request2, options, later, reply2);
      && d2.post.None?
      && d2.entries == d.entries
      && d2.forwarded == Success(Authorize(request2, Lookup(d.entries, serviceName).value.header))
  {
    var d := SendOutcome(entries, serviceName, request, options, now, reply);
    SendPostsOnlyWithoutValidToken(entries, serviceName, request, options, now, reply);
    SendFetchesWhenNoValidToken(entries, serviceName, request, options, now, reply);
    var state := TokenState(AuthHeader(reply.payload.dto.tokenType.value, reply.payload.dto.accessToken),
                            now + reply.payload.dto.expireIn);
    StoredTokenValidity(entries, serviceName, state, spelling, later);
    LookupIgnoresCase(options.value.services, spelling, serviceName);
    LookupIgnoresCase(d.entries, spelling, serviceName);
    SendReusesValidToken(d.entries, spelling, request2, options, later, reply2);
  }

  /** A token whose lifetime is zero or negative is attached once and never reused: the next call requests another. */
  lemma {:induction false} ExpiredOnArrivalIsNotReused(entries: CiMap<TokenState>, serviceName: string, request: HttpRequest,
                                                       options: Option<RestClientOptions>, now: int, reply: TokenReply,
                                                       request2: HttpRequest, later: int, reply2: TokenReply)
    requires TokenSettingOf(options, serviceName).Some?
    requires SendOutcome(entries, serviceName, request, options, now, reply).post.Some?
    requires SendOutcome(entries, serviceName, request, options, now, reply).forwarded.Success?
    requires reply.payload.dto.expireIn <= 0 && now <= later
    ensures var d := SendOutcome(entries, serviceName, request, options, now, reply);
      SendOutcome(d.entries, serviceName, request2, options, later, reply2).post.Some?
  {
    var d := SendOutcome(entries, serviceName, request, options, now, reply);
    SendPostsOnlyWithoutValidToken(entries, serviceName, request, options, now, reply);
    SendFetchesWhenNoValidToken(entries, serviceName, request, options, now, reply);
    var state := TokenState(AuthHeader(reply.payload.dto.tokenType.value, reply.payload.dto.accessToken),
                            now + reply.payload.dto.expireIn);
    StoredTokenValidity(entries, serviceName, state, serviceName, later);
    SendPostsOnlyWithoutValidToken(d.entries, serviceName, request2, options, later, reply2);
  }

  /**
   * The handler for one named service. Its token cache is the dictionary shared by
   * every instance; the lock around the refresh only serialises concurrent callers,
   * so the second look at the cache inside it finds what the first one found.
   */
  class OAuthTokenHandler {
    const serviceName: string
    const cache: TokenCache

    constructor (serviceName: string, cache: TokenCache)
      ensures this.serviceName == serviceName && this.cache == cache
    {
      this.serviceName := serviceName;
      this.cache := cache;
    }

    /** `SendAsync`: the request passed on to the inner handler, or the exception thrown, and the token POST made. */
    method Send(request: HttpRequest, options: Option<RestClientOptions>, now: int, reply: TokenReply)
      returns (forwarded: Result<HttpRequest, Error>, post: Option<TokenPost>)
      modifies cache
      ensures Dispatch(forwarded, post, cache.entries) ==
                SendOutcome(old(cache.entries), serviceName, request, options, now, reply)
    {
      post := None;
      if options.None? {
        return Failure(InvalidOperation("RestClient options not available.")), None;
      }
      var setting := Lookup(options.value.services, serviceName);
      if setting.None? {
        return Failure(InvalidOperation("Service " + serviceName + " is not configured.")), None;
      }
      if setting.value.tokenRequest.None? {
        return Success(request), None;
      }
      var state := GetValidToken(cache.entries, serviceName, now);
      if state.None? {
        state := GetValidToken(cache.entries, serviceName, now);
        if state.None? {
          var fetch := RequestToken(setting.value.tokenRequest.value, now, reply);
          post := fetch.post;
          if fetch.result.Failure? {
            return Failure(fetch.result.error), post;
          }
          state := Some(fetch.result.value);
          cache.entries := Insert(cache.entries, serviceName, fetch.result.value);
        }
      }
      forwarded := Success(Authorize(request, state.value.header));
    }
  }
}
