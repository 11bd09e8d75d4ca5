# RestClient — a Dafny model of the token handler, the dispatcher and the configurator

RestClient is a .NET library that calls named REST services. Each service has a base
address, default request headers and, optionally, an OAuth client-credentials token
setting. This project models and proves properties of its core:

- **The token handler** (`OAuthTokenHandler`, module `Handlers`). This is a delegating handler with one token cache
  that every instance shares, keyed by service name ignoring case. `SendAsync` does the following:
  - refuses a service that is not configured;
  - forwards requests for services without a token setting untouched;
  - otherwise attaches a cached token while the clock is strictly before its expiry, or else posts a token
    request, stores the new token under that service only, and attaches it.

  The cache is a `class TokenCache` whose `entries` field `OAuthTokenHandler.Send` updates. `Send` is proved
  equal to the pure function `SendOutcome`, and the lemmas are stated about `SendOutcome`.
- **The older dispatcher** (`RestClientService`, module `Services`). This is a class holding the options. Each
  service has a refresh deadline (`nextTimeUpdateToken`) and an HTTP client, modelled by its default headers
  (`client`). A call does the following:
  - refuses an unknown service unwrapped;
  - refreshes the token when the service has a token setting, the clock is strictly past the deadline and the
    token client has no `Authorization`;
  - sends to the base address text followed by the path;
  - wraps every other failure in `RestRequestFailedException`.

  Every method (`InitializeServices`, `UpdateToken`, `RefreshToken`, `InvokeCall`, `InvokeAndParse`,
  `RefreshConfigurationOptions`) is proved equal to a pure function of the old options: `Initialized`,
  `TokenUpdate`, `RefreshIfDue` and `InvokeOutcome`.
- **The configurator** (`RestClientServiceConfigurator`, module `Configurator`). It validates the bound
  configuration and builds the case-insensitive service dictionary:
  - it requires non-blank strings and absolute URIs;
  - an absent `Auth` block, or one with type `None`, gives no token setting;
  - it fills the defaults (the grant type, the content type, and `SendRequestBody = true`);
  - it rejects a name configured twice (ignoring case) and an empty list.

  The `BuildServiceSettings` loop is a method proved equal to the function `ServiceSettingsOf`.
- **`TokenSetting.GetTokenRequestBody`** (module `Configurations`). It builds the fixed four-field body of the
  client-credentials grant (section 4.4.2 of RFC 6749), next to the configuration records as datatypes.

Case-insensitive dictionaries (`StringComparer.OrdinalIgnoreCase`) are maps whose keys are stored in a canonical
form (`Text.Canon`). Every lookup and insert canonicalises the key, and `Text.CanonMatchesComparer` proves that
two keys share a slot exactly when the comparer calls them equal.

The environment is supplied as parameters:
- the clock is an integer `now`, in seconds, fixed for the duration of one call, with `DateTime.MinValue` as 0;
- the network's answer to a token POST is a `TokenReply`: unreachable, or a status, a body and what
  deserialising it gives (`null`, a DTO, or malformed);
- the answer to a service call is a `CallReply`.

The records disagree about `TokenSetting`. The configurator sets `TokenUrl`, `AuthenticationType`, `Audience`
and `SendRequestBody` on it (`RestClient/ServiceDefinition/RestClientServiceConfigurator.cs:194-208`), and the
dispatcher uses its `Client` (`RestClient/Services/RestClientService.cs:55`). The declared `TokenSetting` has
none of these. Both consumers read `BaseAddress` and `Path`, which the configurator never sets. Both are declared
`required` (`RestClient/Configurations/BaseRestClientSetting.cs:6`, `RestClient/Configurations/TokenSetting.cs:7`),
so the configurator's initializer as written does not compile. The service-collection extension
(`Extensions/ServiceCollectionExtensions.cs:48-58`) builds its token setting with both members set.

The model's `TokenSetting` carries the union of these fields, with `baseAddress` and `path` optional. For the
configurator's settings, the model assumes the two `required` members could be left out and are then null. This
is an assumption of the model, not behaviour of the program as it builds. The module `Integration` proves what
would follow from it:
- a token setting built by the configurator makes the handler throw `ArgumentNullException` for `baseUri` before
  any token is requested;
- the dispatcher skips its token update for such a setting, because the path is null.

## Model

| member | source | states |
|---|---|---|
| Text.CanonMatchesComparer | RestClient/Handlers/OAuthTokenHandler.cs:22 | two names reach the same dictionary slot if and only if they are equal ignoring case |
| Text.Lookup | RestClient/Configurations/RestClientOptions.cs:5 | `TryGetValue` finds a value exactly when the canonical key is stored, and returns the value stored there |
| Text.Insert | RestClient/Handlers/OAuthTokenHandler.cs:66 | after `m[key] = v` the key (any spelling) finds `v`, every key not equal to it ignoring case finds what it found before, and exactly one slot is added or overwritten |
| Text.LookupIgnoresCase | RestClient/Configurations/RestClientOptions.cs:5 | two spellings equal ignoring case find the same entry |
| Http.AddHeader | RestClient/Services/RestClientService.cs:67 | `Add` appends the value to those held under the name and leaves every other header as it was |
| Http.RemoveHeader | RestClient/Handlers/OAuthTokenHandler.cs:132 | `Remove` empties the name and leaves every other header as it was |
| Http.SetAuthorization | RestClient/Services/RestClientService.cs:96 | assigning `Authorization` replaces that header with the credentials and leaves every other header as it was |
| Http.HeadersFromLookup | RestClient/Services/RestClientService.cs:61-69 | a collection built from a header dictionary holds each configured header under any spelling of its name, with exactly its one configured value, and nothing else |
| Http.ReplaceHeaders | RestClient/Handlers/OAuthTokenHandler.cs:127-135 | the clear, remove and add loop leaves the client holding exactly the configured headers, each once |
| Http.MakeAuthHeader | RestClient/Handlers/OAuthTokenHandler.cs:105 | an authentication header is built exactly when the scheme is neither null nor empty, holding that scheme and parameter; otherwise `ArgumentException` |
| Configurations.NewTokenSetting | RestClient/Configurations/TokenSetting.cs:5-12 | a token setting created without a content type has `application/x-www-form-urlencoded`, empty header dictionaries, and the given endpoint and credentials |
| Configurations.GetTokenRequestBody | RestClient/Configurations/TokenSetting.cs:14-20 | the body has exactly the fields `client_id`, `client_secret`, `grant_type` and `scope`, in that order, each holding its setting's value |
| Configurations.TokenRequestBodyHasNoOtherField | RestClient/Configurations/TokenSetting.cs:14-20 | no field other than the four is present |
| Configurations.TokenRequestBodyIsUnconditional | RestClient/Configurations/TokenSetting.cs:16-19 | the body depends only on the four credential fields; the client credentials are always sent, whatever else the setting says |
| Configurator.CopyIgnoreCase | RestClient/ServiceDefinition/RestClientServiceConfigurator.cs:150-152 | copying a dictionary with the case-insensitive comparer succeeds exactly when no two keys are equal ignoring case, keeps every value under any spelling of its key and adds nothing; otherwise `ArgumentException` |
| Configurator.GetRequiredString | RestClient/ServiceDefinition/RestClientServiceConfigurator.cs:233-241 | a null, empty or white-space value is refused with the "must be provided" message for the key; any other value is returned unchanged |
| Configurator.GetRequiredUri | RestClient/ServiceDefinition/RestClientServiceConfigurator.cs:250-263 | a null URI gets the "must be provided" message and a relative one gets the "must be a valid absolute URI" message; an absolute URI is returned unchanged |
| Configurator.NormalizeTokenSetting | RestClient/ServiceDefinition/RestClientServiceConfigurator.cs:174-209 | type `None` gives no token setting; otherwise it succeeds exactly when the token URL is absolute and the client id, secret, scope and audience are non-blank (and the header keys are distinct ignoring case); the result then holds those values, the grant type and content type or their defaults when blank, `SendRequestBody` or `true`, and the headers copied ignoring case, with nothing added |
| Configurator.NormalizeEnabledAuth | RestClient/ServiceDefinition/RestClientServiceConfigurator.cs:181-209 | for an `Auth` block whose type is not `None`: succeeds exactly when the block is complete (absolute token URL, non-blank client id, secret, scope and audience, header keys distinct ignoring case), and the setting then holds what `NormalizeTokenSetting` promises, with a non-blank grant type and content type |
| Configurator.CopyOrEmpty | RestClient/ServiceDefinition/RestClientServiceConfigurator.cs:190-192 | a null header dictionary becomes an empty one; otherwise every configured header is found under its name ignoring case with its value, and the copy holds no other key |
| Configurator.CreateServiceSetting | RestClient/ServiceDefinition/RestClientServiceConfigurator.cs:147-166 | succeeds exactly when the base URL is absolute and the headers and `Auth` block are valid; then it holds that base address, the headers copied ignoring case with nothing added (empty when null), no token setting when `Auth` is absent or `None` and the normalised one otherwise, deadline `DateTime.MinValue` and no client headers |
| Configurator.AddService | RestClient/ServiceDefinition/RestClientServiceConfigurator.cs:85-94 | one child is added exactly when it binds, has a non-blank name not yet present (ignoring case) and a valid definition, and the entry is the setting created from it; a present name gives "configured more than once" |
| Configurator.AddedKeeps | RestClient/ServiceDefinition/RestClientServiceConfigurator.cs:83-95 | a successful loop adds exactly one entry per child and keeps every entry it started with |
| Configurator.AddedServices | RestClient/ServiceDefinition/RestClientServiceConfigurator.cs:83-95 | after a successful loop every child is registered under its name, ignoring case, with the setting created from its definition |
| Configurator.SucceededWithFreshNames | RestClient/ServiceDefinition/RestClientServiceConfigurator.cs:88-91 | a successful loop only met names that were neither already present nor used by an earlier child |
| Configurator.AddedNamesAreFresh | RestClient/ServiceDefinition/RestClientServiceConfigurator.cs:81-91 | after a successful loop every child was named, no name was already present, and no two names are equal ignoring case |
| Configurator.AddedChildrenValid | RestClient/ServiceDefinition/RestClientServiceConfigurator.cs:83-95 | after a successful loop every child was bound, had a non-blank name and a valid definition |
| Configurator.AddServicesSplit | RestClient/ServiceDefinition/RestClientServiceConfigurator.cs:83-95 | once the children of a prefix were all added, the loop over the whole list is the loop over the rest, started from what the prefix built |
| Configurator.DuplicateAfterPrefix | RestClient/ServiceDefinition/RestClientServiceConfigurator.cs:88-91 | when every child before a child was added and an earlier one has its name ignoring case, the loop throws `InvalidOperationException` "Service '<name>' is configured more than once." for that child's name |
| Configurator.DuplicateNamesFail | RestClient/ServiceDefinition/RestClientServiceConfigurator.cs:81-91 | two children whose names are equal ignoring case make the loop fail; when every child before the second was added, the failure is `InvalidOperationException` "Service '<name>' is configured more than once." with the second child's name |
| Configurator.KnownNameFails | RestClient/ServiceDefinition/RestClientServiceConfigurator.cs:88-91 | a child whose name is already present (ignoring case) makes the loop fail |
| Configurator.ValidChildrenSucceed | RestClient/ServiceDefinition/RestClientServiceConfigurator.cs:83-95 | children that all bind and validate, with names distinct ignoring case and not yet present, are all added |
| Configurator.BuiltServicesMatchChildren | RestClient/ServiceDefinition/RestClientServiceConfigurator.cs:78-103 | a successful build has at least one service, exactly one per child, each registered under its validated name |
| Configurator.DuplicateNamesRejected | RestClient/ServiceDefinition/RestClientServiceConfigurator.cs:78-103 | a section with two names equal ignoring case never builds |
| Configurator.DuplicateNameError | RestClient/ServiceDefinition/RestClientServiceConfigurator.cs:88-91 | in a present section, a child whose name repeats an earlier one ignoring case, once every child before it was added, makes the build throw `InvalidOperationException` "Service '<name>' is configured more than once." with that child's name |
| Configurator.EmptySectionError | RestClient/ServiceDefinition/RestClientServiceConfigurator.cs:97-100 | a present section without children makes the build throw `InvalidOperationException` "Configuration section 'RestClient:Services' must define at least one service." |
| Configurator.ValidSectionAccepted | RestClient/ServiceDefinition/RestClientServiceConfigurator.cs:78-103 | a non-empty section whose children all validate, with distinct names, always builds |
| Configurator.BuildServiceSettings | RestClient/ServiceDefinition/RestClientServiceConfigurator.cs:78-103 | the loop returns what `ServiceSettingsOf` specifies (missing section, unbound child, blank or duplicate name, invalid definition, empty list), and on success one entry per child, at least one; the duplicate-name and empty-list errors are stated by `DuplicateNameError` and `EmptySectionError` |
| Handlers.TokenCache.constructor | RestClient/Handlers/OAuthTokenHandler.cs:22 | the shared cache starts empty |
| Handlers.GetValidToken | RestClient/Handlers/OAuthTokenHandler.cs:79-82 | a token is returned if and only if one is cached for the service (ignoring case) and the clock is strictly before its expiry, and it is the cached one |
| Handlers.StoredTokenValidity | RestClient/Handlers/OAuthTokenHandler.cs:66 | a token just stored is returned under any spelling of the name exactly while the clock is before its expiry |
| Handlers.CreateTokenContent | RestClient/Handlers/OAuthTokenHandler.cs:109-125 | the content always carries the request body; it is JSON exactly when the content type equals `application/json` ignoring case, keeping that type; otherwise it is form-urlencoded, and the media type is overridden only when it differs from `application/x-www-form-urlencoded` ignoring case |
| Handlers.DefaultContentIsForm | RestClient/Handlers/OAuthTokenHandler.cs:118-124 | the default content type gives a form body with the form media type |
| Handlers.TokenUri | RestClient/Handlers/OAuthTokenHandler.cs:89 | resolving the token URI throws `ArgumentNullException` (`baseUri`) for a null base address and `ArgumentOutOfRangeException` (an `ArgumentException`) for a relative one; otherwise it is the base address with the path, a null path counting as empty |
| Handlers.TokenFromReply | RestClient/Handlers/OAuthTokenHandler.cs:94-106 | an unreachable endpoint fails with `HttpRequestException`, and a non-success status and a `null` body with `ApiException`; a token results exactly when a 2xx answer parses with a non-empty token type, and it holds the token type, the access token and now plus `expires_in` |
| Handlers.AcquireToken | RestClient/Handlers/OAuthTokenHandler.cs:84-107 | no base address throws `ArgumentNullException`, a relative one `ArgumentOutOfRangeException` (an `ArgumentException`), and neither posts; otherwise the POST goes to the base address and path (null path as empty) with the setting's headers and the content `CreateTokenContent` builds, whose fields are the request body; a non-success status and a null body are `ApiException`s; a token results exactly when a 2xx answer parses with a non-empty token type, and it holds the token type, access token and now plus `expires_in` |
| Handlers.RequestToken | RestClient/Handlers/OAuthTokenHandler.cs:84-107 | the steps (configure a fresh client's headers, resolve the URI, build the content, post) give what `AcquireToken` specifies |
| Handlers.Authorize | RestClient/Handlers/OAuthTokenHandler.cs:75 | setting the request's `Authorization` changes only that header, not the URI or content |
| Handlers.SendWithoutTokenSetting | RestClient/Handlers/OAuthTokenHandler.cs:44-53 | missing options or an unknown service throw `InvalidOperationException`, and a service without a token setting is forwarded unchanged; none of these posts or changes the cache |
| Handlers.SendAttachesCachedToken | RestClient/Handlers/OAuthTokenHandler.cs:55-76 | with a token setting, a forwarded request carries exactly the token the cache then holds for the service; a failed call leaves the cache unchanged |
| Handlers.SendReusesValidToken | RestClient/Handlers/OAuthTokenHandler.cs:55-56 | a valid cached token is attached as is, with no POST and no cache change |
| Handlers.SendFetchesWhenNoValidToken | RestClient/Handlers/OAuthTokenHandler.cs:62-67 | with no valid token one POST with the token content is made; non-success and null answers throw `ApiException` and cache nothing; on success the new token is stored under the service and attached |
| Handlers.SendKeepsOtherServices | RestClient/Handlers/OAuthTokenHandler.cs:66 | a call changes no other service's cache entry |
| Handlers.SendPostsOnlyWithoutValidToken | RestClient/Handlers/OAuthTokenHandler.cs:55-67 | a token POST happens if and only if the service has a token setting, no valid cached token, and a resolvable endpoint |
| Handlers.FetchedTokenIsReused | RestClient/Handlers/OAuthTokenHandler.cs:55-66 | a fetched token is reused without a POST by every later call, under any spelling of the name, until `now + expires_in` |
| Handlers.ExpiredOnArrivalIsNotReused | RestClient/Handlers/OAuthTokenHandler.cs:105-106 | a token with `expires_in <= 0` is attached once, and the next call for the service requests another |
| Handlers.OAuthTokenHandler.constructor | RestClient/Handlers/OAuthTokenHandler.cs:30-40 | the handler keeps its service name and the shared cache |
| Handlers.OAuthTokenHandler.Send | RestClient/Handlers/OAuthTokenHandler.cs:42-77 | the forwarded request or exception, the POST and the new cache are those `SendOutcome` gives for the old cache |
| Services.InitializedSetting | RestClient/Services/RestClientService.cs:48-58 | initialising keeps the address, headers and deadline, gives the service and its token setting clients holding exactly their configured headers, and keeps the token setting otherwise |
| Services.InitializeIsIdempotent | RestClient/Services/RestClientService.cs:46-59 | initialising twice equals initialising once |
| Services.InitializeDropsTokenButKeepsDeadline | RestClient/Services/RestClientService.cs:46-59 | re-initialising keeps the refresh deadline, but the client has an `Authorization` only if the configured headers carry one |
| Services.NeedsTokenRefresh | RestClient/Services/RestClientService.cs:80-84 | a refresh is needed if and only if the service is known and the clock is strictly past its deadline |
| Services.FreshServiceNeedsRefresh | RestClient/Services/RestClientService.cs:80-84 | a service whose deadline is `DateTime.MinValue` needs a refresh at any later instant |
| Services.ExpiryBoundaryDiffers | RestClient/Services/RestClientService.cs:83 | at the deadline itself no refresh is needed, one second later it is |
| Services.TokenEndpoint | RestClient/Services/RestClientService.cs:107 | the token endpoint text is the base address followed by the path and nothing else: it starts with the one, ends with the other, and is exactly as long as both together (a null part printing as nothing) |
| Services.ServiceTokenReply | RestClient/Services/RestClientService.cs:110-118 | an unreachable endpoint and a non-success status fail (`HttpRequestException`, `ApiException`); a 2xx answer yields its deserialised DTO, or nothing for `null`, or a `JsonException` |
| Services.ApplyToken | RestClient/Services/RestClientService.cs:95-97 | the client is reset to the configured headers; a null token fails with `NullReferenceException` and an empty token type with `ArgumentException`; otherwise the token becomes `Authorization`, the deadline becomes now plus `expires_in`, and the other headers are the configured ones |
| Services.TokenUpdateSuccess | RestClient/Services/RestClientService.cs:86-98 | a successful update leaves the service's client holding the configured headers plus the new token, the deadline at now plus `expires_in`, and every other service and the retry tuning unchanged |
| Services.TokenUpdateFailureAfterReset | RestClient/Services/RestClientService.cs:94-97 | an update that fails after the token answer arrived still leaves the client reset to the configured headers |
| Services.PathlessTokenSettingNeverPosts | RestClient/Services/RestClientService.cs:91-92 | an update for a token setting with a null or empty path posts nothing and changes nothing |
| Services.TokenUpdateKeepsTokenClient | RestClient/Services/RestClientService.cs:86-98 | an update never touches the token setting or its client |
| Services.Wrap | RestClient/Services/RestClientService.cs:137-141 | a failure inside the call becomes a `RestRequestFailedException` wrapping the cause |
| Services.UnknownServiceIsRefused | RestClient/Services/RestClientService.cs:123-124 | an unknown service throws the unwrapped `InvalidOperationException`, with no POST, no call and no change |
| Services.KnownServiceFailuresAreWrapped | RestClient/Services/RestClientService.cs:126-141 | for a known service every failure is the wrapping `RestRequestFailedException`, and an answered call returns the response whatever its status |
| Services.CallGoesToBasePlusPath | RestClient/Services/RestClientService.cs:128-135 | the call is made if and only if no refresh was due or the refresh succeeded; it goes to the base address text followed by the path, with the requested verb, through the service's current client |
| Services.CallWithoutTokenPath | RestClient/Services/RestClientService.cs:128-135 | a service without a token path is called with its client as is, with no POST and no change to the options |
| Services.TokenPostOnlyWhenDue | RestClient/Services/RestClientService.cs:128-131 | a token POST happens if and only if the service has a token setting, its deadline has passed, its token client has no `Authorization`, and its token path is non-empty |
| Services.CallCarriesFreshToken | RestClient/Services/RestClientService.cs:128-135 | after a successful refresh the call carries the new token and otherwise exactly the configured headers |
| Services.ParseResponse | RestClient/Services/RestClientService.cs:71-78 | a non-success status throws `RestRequestFailedException` with that status code and the body text; a 2xx body goes to the deserialiser |
| Services.RestClientService.constructor | RestClient/Services/RestClientService.cs:28-44 | the dispatcher holds the options with every service initialised |
| Services.RestClientService.InitializeServices | RestClient/Services/RestClientService.cs:46-59 | the loop over the services leaves the options equal to `Initialized` of the old ones |
| Services.RestClientService.InitializeSetting | RestClient/Services/RestClientService.cs:48-58 | one pass of that loop gives `InitializedSetting` |
| Services.RestClientService.ConfigureHeaders | RestClient/Services/RestClientService.cs:61-69 | the clear-then-add loop leaves the client holding exactly the given headers, or none when the dictionary is null |
| Services.RestClientService.ApplyTokenTo | RestClient/Services/RestClientService.cs:95-97 | the header reset and token assignment give what `ApplyToken` specifies |
| Services.RestClientService.UpdateToken | RestClient/Services/RestClientService.cs:86-98 | the POST, result and new options are those of `TokenUpdate` on the old options |
| Services.RestClientService.RefreshToken | RestClient/Services/RestClientService.cs:128-132 | the guarded refresh gives what `RefreshIfDue` specifies |
| Services.RestClientService.InvokeCall | RestClient/Services/RestClientService.cs:121-142 | the result, POST, call and new options are those of `InvokeOutcome` on the old options |
| Services.RestClientService.InvokeAndParse | RestClient/Services/RestClientService.cs:144-179 | a typed call returns `ParseResponse` of the response, or the call's exception |
| Services.RestClientService.RefreshConfigurationOptions | RestClient/Services/RestClientService.cs:181-185 | null options throw `ArgumentNullException` and change nothing; otherwise the new options are kept, initialised |
| Integration.ConfiguredTokenSettingHasNoEndpoint | RestClient/ServiceDefinition/RestClientServiceConfigurator.cs:194-208 | a token setting built by the configurator has neither a base address nor a path |
| Integration.ConfiguredTokenSettingCannotBeFetched | RestClient/Handlers/OAuthTokenHandler.cs:89 | the handler cannot fetch a token for such a setting: resolving the endpoint throws `ArgumentNullException` for `baseUri` and nothing is posted |
| Integration.HandlerFailsForConfiguredAuth | RestClient/Handlers/OAuthTokenHandler.cs:55-66 | every handler call for a configured authenticated service without a valid cached token fails that way and leaves the cache alone |
| Integration.DispatcherNeverFetchesForConfiguredService | RestClient/Services/RestClientService.cs:91-92 | the dispatcher never posts for a configured service: the call goes out with the configured headers only, and the options do not change |
| Integration.ExpiryInstantDisagreement | RestClient/Handlers/OAuthTokenHandler.cs:80 | at a service's deadline the handler no longer returns a token stored with that expiry, while the dispatcher does not yet refresh the service (it does one second later) |

## Left out

- Retries: the Polly policy with decorrelated-jitter back-off (`RestClientService.cs:34-41`) is a foreign library with random, floating-point delays. Each call is modelled as a single attempt, so the public wrappers differ only in the verb.
- Concurrency: the per-service `SemaphoreSlim` and the `ConcurrentDictionary` of locks are not modelled. The lock is a no-op and the double check is a sequential re-read, so "one refresh in flight" is not stated.
- Real HTTP, JSON and logging: requests are not sent, bodies are not serialised, and nothing is logged. The network's answer and the deserialiser's result are parameters. JSON and form encoding of the token body are kept only as a tag on the content.
- Time: the clock is an integer number of seconds, read once per call. `DateTime` and `DateTimeOffset` ranges, the overflow of `AddSeconds`, and 32-bit wrap-around of `expires_in` are not modelled.
- Dependency injection and bootstrapping are not part of this model: `Configure` and `GetServiceConfiguration` in `RestClientServiceConfigurator.cs:18-59`, `ServiceExtensions.cs`, `Extensions/ServiceCollectionExtensions.cs` and `Program.cs`. `GetHttpClientOptions` only reads two numbers. The top-level `GetRequiredSection` is modelled only for the `Services` section.
- `OAuthHandler.cs`, `TuyaOAuthHandler.cs`, `Constants.cs` and `IRestClientService.cs` only fix a service name, a constant or a signature, and are not part of this model.
- Configurator.NormalizeTokenSetting: the configurator's settings are modelled as if the `required` members `BaseAddress` and `Path` could be omitted from its initializer (`RestClientServiceConfigurator.cs:194-208`), leaving them null. As written, that initializer does not compile. Token settings built by the service-collection extension set both members, and the Integration lemmas do not apply to them.
- The service-collection extension replaces `RestClientOptions.Services` with a case-sensitive `Dictionary` (`Extensions/ServiceCollectionExtensions.cs:42-43`). The model treats the services as always keyed ignoring case, as the declaration at `RestClientOptions.cs:5` and the configurator do.
- `RestClientServiceSetting` declares no `Client` property, yet the dispatcher assigns one (`RestClientService.cs:50`). The model adds the field `client` to the service setting as well as to the token setting.
- The values of `TokenSetting.DefaultGrantType` and `TokenSetting.DefaultContentType` are not declared in the source. The model assumes `client_credentials`, the grant type of section 4.4.2 of RFC 6749, and `application/x-www-form-urlencoded`, the initial value of `TokenSetting.ContentType` (RestClient/Configurations/TokenSetting.cs:12).
- Case folding covers ASCII letters only. `OrdinalIgnoreCase` on other characters is not modelled.
- Header names, header values and media types are not validated, so header-format exceptions are not modelled. `Uri` is reduced to its text and whether it is absolute. The relative path of the handler's token URI is kept as given, not resolved against the base.
- Constructors: their null-argument guards (`ArgumentNullException` for a missing factory, logger or options) are not modelled. Their arguments are non-null by construction.
- `RestClientServiceSetting.AuthenticationHeaderValue` is declared but never read or written by the core, so it is not modelled.
- Aliasing: the options hold records, not shared objects. An `HttpClient` or setting object shared by two services, or by the handler and the dispatcher, is not modelled.
- Services.TokenUpdate: the second lookup and the `TokenRequest` null check in the dispatcher's `RequestTokenAsync` (`RestClientService.cs:102-105`) are not modelled separately. Its caller has already checked both, so they cannot fail.
- Services.TokenEndpoint: the POST target is the concatenated text. Whether that text forms a valid URI is not modelled, so its `UriFormatException` is left out.
- Services.ParseResponse: only the status check is stated. Deserialising a 2xx body into `T` is left to the caller, as a `JsonException` or a value.
