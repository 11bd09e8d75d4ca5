/**
 * What the three components would do together with settings built by the configurator.
 * The configurator's object initializer fills a token setting's token URL but names
 * neither its base address nor its path, which the record declares `required`, so the
 * initializer as written is rejected by the C# compiler. The model assumes those two
 * members could be omitted and are then null; every consequence below rests on that
 * assumption, not on behaviour of the program as it builds. Settings built by the
 * service-collection extension do set both members and are not affected.
 */
module Integration {
  import opened Wrappers
  import opened Text
  import opened Exceptions
  import opened Http
  import opened Configurations
  import opened Configurator
  import opened Handlers
  import opened Services

  /** Under that assumption, a token setting built by the configurator has no base address and no path. */
  lemma ConfiguredTokenSettingHasNoEndpoint(auth: AuthDefinition, keyPrefix: string)
    requires NormalizeTokenSetting(auth, keyPrefix).Success?
    requires NormalizeTokenSetting(auth, keyPrefix).value.Some?
    ensures var t := NormalizeTokenSetting(auth, keyPrefix).value.value;
      t.baseAddress.None? && t.path.None? && t.tokenUrl.Some?
  {
  }

  /** Under that assumption, the handler cannot fetch a token for a configured token setting: resolving its endpoint throws `ArgumentNullException`. */
  lemma ConfiguredTokenSettingCannotBeFetched(auth: AuthDefinition, keyPrefix: string, now: int, reply: TokenReply)
    requires NormalizeTokenSetting(auth, keyPrefix).Success?
    requires NormalizeTokenSetting(auth, keyPrefix).value.Some?
    ensures AcquireToken(NormalizeTokenSetting(auth, keyPrefix).value.value, now, reply) ==
              TokenFetch(None, Failure(ArgumentNull("baseUri")))
  {
  }

  /**
   * Under the same assumption, a service whose setting came from the configurator with
   * authentication enabled:
   * every request through the handler that finds no valid cached token fails before
   * any token is requested, and leaves the cache alone.
   */
  lemma {:induction false} HandlerFailsForConfiguredAuth(def: ServiceDefinition, path: string, options: RestClientOptions,
                                                         entries: CiMap<TokenState>, serviceName: string,
                                                         request: HttpRequest, now: int, reply: TokenReply)
    requires CreateServiceSetting(def, path).Success?
    requires CreateServiceSetting(def, path).value.tokenRequest.Some?
    requires Lookup(options.services, serviceName) == Some(CreateServiceSetting(def, path).value)
    requires GetValidToken(entries, serviceName, now).None?
    ensures SendOutcome(entries, serviceName, request, Some(options), now, reply) ==
              Dispatch(Failure(ArgumentNull("baseUri")), None, entries)
  {
    var t := CreateServiceSetting(def, path).value.tokenRequest.value;
    assert t.baseAddress.None?;
  }

  /**
   * Under the same assumption, the dispatcher never requests a token for a configured
   * service: the token path is null, so the update is skipped and the call goes out with the configured
   * headers only.
   */
  lemma {:induction false} DispatcherNeverFetchesForConfiguredService(def: ServiceDefinition, path: string,
                                                                     options: RestClientOptions, service: string,
                                                                     callPath: string, verb: HttpMethod, now: int,
                                                                     tokenReply: TokenReply, reply: CallReply)
    requires CreateServiceSetting(def, path).Success?
    requires Lookup(options.services, service) == Some(InitializedSetting(CreateServiceSetting(def, path).value))
    ensures var c := InvokeOutcome(options, service, callPath, verb, now, tokenReply, reply);
      && c.tokenPost.None?
      && c.options == options
      && c.call.Some?
      && c.call.value.headers == HeadersFrom(CreateServiceSetting(def, path).value.defaultRequestHeaders)
  {
    var s := CreateServiceSetting(def, path).value;
    var init := InitializedSetting(s);
    assert init.client == HeadersFrom(s.defaultRequestHeaders);
    assert init.tokenRequest.None? || init.tokenRequest.value.path.None?;
    CallWithoutTokenPath(options, service, callPath, verb, now, tokenReply, reply);
  }

  /**
   * At a service's deadline the two components disagree; this holds for any settings,
   * without the assumption above. A token stored with that deadline as its expiry is
   * no longer handed out by the handler (expired at equality), while the dispatcher
   * does not yet refresh the service (only once the clock is strictly past it).
   */
  lemma ExpiryInstantDisagreement(options: RestClientOptions, serviceName: string,
                                  entries: CiMap<TokenState>, header: AuthHeader)
    requires Lookup(options.services, serviceName).Some?
    ensures var deadline := Lookup(options.services, serviceName).value.nextTimeUpdateToken;
      && GetValidToken(Insert(entries, serviceName, TokenState(header, deadline)), serviceName, deadline).None?
      && !NeedsTokenRefresh(options, serviceName, deadline)
      && NeedsTokenRefresh(options, serviceName, deadline + 1)
  {
    var deadline := Lookup(options.services, serviceName).value.nextTimeUpdateToken;
    StoredTokenValidity(entries, serviceName, TokenState(header, deadline), serviceName, deadline);
    ExpiryBoundaryDiffers(options, serviceName);
  }
}
