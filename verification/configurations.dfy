/** The configuration records of the client: per-service settings, token settings and the token response. */
module Configurations {
  import opened Wrappers
  import opened Text
  import opened Http

  /**
   * How a service authenticates. The client's own code only distinguishes `None`;
   * every other member of the enumeration is carried as `AuthEnabled(name)`.
   */
  datatype AuthenticationType = AuthNone | AuthEnabled(name: string)

  /** Media type of a token request when none is configured. */
  const DefaultContentType: string := "application/x-www-form-urlencoded"

  /** Grant type of a token request when none is configured (client credentials, section 4.4.2 of RFC 6749). */
  const DefaultGrantType: string := "client_credentials"

  const JsonMediaType: string := "application/json"

  /** Instants are whole seconds; 0 is `DateTime.MinValue`, the value of a timestamp nobody set. */
  const MinTime: int := 0

  /**
   * Everything the client reads from or writes to a token setting: the fields the
   * token handler uses (`baseAddress`, `path`), the fields the configurator fills
   * (`tokenUrl`, `authenticationType`, `audience`, `sendRequestBody`), the
   * client-credential fields both use, and the default headers of the HTTP client
   * the dispatcher keeps for token requests (`client`).
   */
  datatype TokenSetting = TokenSetting(
    baseAddress: Option<Uri>,
    defaultRequestHeaders: CiMap<string>,
    path: Option<string>,
    grantType: string,
    clientId: string,
    scope: string,
    clientSecret: string,
    contentType: string,
    tokenUrl: Option<Uri>,
    authenticationType: AuthenticationType,
    audience: Option<string>,
    sendRequestBody: bool,
    client: HeaderMap)

  /**
   * A token setting built by an object initializer that sets the required members
   * and leaves every other property at its initial value.
   */
  function NewTokenSetting(baseAddress: Uri, path: string, grantType: string, clientId: string,
                           scope: string, clientSecret: string): (t: TokenSetting)
    ensures t.contentType == DefaultContentType
    ensures t.defaultRequestHeaders == map[] && t.client == map[]
    ensures t.baseAddress == Some(baseAddress) && t.path == Some(path)
    ensures t.grantType == grantType && t.clientId == clientId && t.scope == scope && t.clientSecret == clientSecret
  {
    TokenSetting(Some(baseAddress), map[], Some(path), grantType, clientId, scope, clientSecret,
                 DefaultContentType, None, AuthNone, None, false, map[])
  }

  /** The value stored under `key` in an ordered list of body fields, if any. */
  function FieldValue(body: seq<(string, string)>, key: string): Option<string> {
    if body == [] then None
    else if body[0].0 == key then Some(body[0].1)
    else FieldValue(body[1..], key)
  }

  /** The names of the body fields, in order. */
  function FieldNames(body: seq<(string, string)>): seq<string> {
    seq(|body|, i requires 0 <= i < |body| => body[i].0)
  }

  /**
   * The form of a client-credentials token request (section 4.4.2 of RFC 6749, with
   * the client authenticating in the body as in section 2.3.1): exactly the four
   * fields, each carrying its setting, whatever the other settings say.
   */
  function GetTokenRequestBody(t: TokenSetting): (body: seq<(string, string)>)
    ensures FieldNames(body) == ["client_id", "client_secret", "grant_type", "scope"]
    ensures FieldValue(body, "client_id") == Some(t.clientId)
    ensures FieldValue(body, "client_secret") == Some(t.clientSecret)
    ensures FieldValue(body, "grant_type") == Some(t.grantType)
    ensures FieldValue(body, "scope") == Some(t.scope)
  {
    var last := [("grant_type", t.grantType), ("scope", t.scope)];
    var body := [("client_id", t.clientId), ("client_secret", t.clientSecret)] + last;
    assert body[1..][1..] == last;
    assert FieldValue(body, "grant_type") == FieldValue(last, "grant_type");
    assert FieldValue(body, "scope") == FieldValue(last, "scope") == FieldValue(last[1..], "scope");
    body
  }

  /** No field name other than the four is present. */
  lemma TokenRequestBodyHasNoOtherField(t: TokenSetting, key: string)
    requires key !in {"client_id", "client_secret", "grant_type", "scope"}
    ensures FieldValue(GetTokenRequestBody(t), key) == None
  {
    var body := GetTokenRequestBody(t);
    var last := [("grant_type", t.grantType), ("scope", t.scope)];
    assert body[1..][1..] == last;
    assert FieldValue(body, key) == FieldValue(last, key);
    assert last[1..][1..] == [];
    assert FieldValue(last, key) == FieldValue(last[1..], key) == FieldValue(last[1..][1..], key);
  }

  /**
   * The body depends on the four credential fields only: audience, authentication
   * type, `SendRequestBody` and content type never add, drop or change a field.
   */
  lemma TokenRequestBodyIsUnconditional(t: TokenSetting, u: TokenSetting)
    requires t.clientId == u.clientId && t.clientSecret == u.clientSecret
    requires t.grantType == u.grantType && t.scope == u.scope
    ensures GetTokenRequestBody(t) == GetTokenRequestBody(u)
  {
  }

  /** The settings of one service; `client` is the default headers of the HTTP client the dispatcher keeps for it. */
  datatype RestClientServiceSetting = RestClientServiceSetting(
    baseAddress: Uri,
    defaultRequestHeaders: CiMap<string>,
    nextTimeUpdateToken: int,
    tokenRequest: Option<TokenSetting>,
    client: HeaderMap)

  /** The options: services by case-insensitive name, and the retry tuning. */
  datatype RestClientOptions = RestClientOptions(
    services: CiMap<RestClientServiceSetting>,
    httpClientDelay: real,
    httpClientRetry: int)

  /** A token response: `access_token`, `expires_in` (seconds) and `token_type`; a missing string is null. */
  datatype TokenResponseDto = TokenResponseDto(accessToken: Option<string>, expireIn: int, tokenType: Option<string>)

  /** What deserialising a response body yields: `null`, a value, or a `JsonException`. */
  datatype Payload = JsonNull | Parsed(dto: TokenResponseDto) | Malformed

  /** The network's answer to a token request: none (`HttpRequestException`), or a status, a body and its deserialisation. */
  datatype TokenReply = TokenUnreachable | TokenAnswer(statusCode: int, body: string, payload: Payload)
}
