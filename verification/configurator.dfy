/**
 * Turns the bound configuration into validated service settings: a case-insensitive
 * map from service name to settings, with required values checked, absolute URIs
 * enforced and token-request defaults filled in.
 */
module Configurator {
  import opened Wrappers
  import opened Text
  import opened Exceptions
  import opened Http
  import opened Configurations

  /** The `Auth` block of a service definition as bound from configuration; absent values are null. */
  datatype AuthDefinition = AuthDefinition(
    authType: AuthenticationType,
    tokenUrl: Option<Uri>,
    grantType: Option<string>,
    scope: Option<string>,
    audience: Option<string>,
    clientId: Option<string>,
    clientSecret: Option<string>,
    sendRequestBody: Option<bool>,
    defaultRequestHeaders: Option<map<string, string>>,
    contentType: Option<string>)

  /** One service definition as bound from configuration. */
  datatype ServiceDefinition = ServiceDefinition(
    name: Option<string>,
    baseUrl: Option<Uri>,
    defaultRequestHeaders: Option<map<string, string>>,
    auth: Option<AuthDefinition>)

  /** A child of the services section: its configuration path and what binding it yields (null when it cannot be bound). */
  datatype ServiceSection = ServiceSection(path: string, definition: Option<ServiceDefinition>)

  /**
   * The `Services` section under the section at `parentPath`: its scalar value, if
   * any, and its children in configuration order.
   */
  datatype ServicesSection = ServicesSection(parentPath: string, value: Option<string>, children: seq<ServiceSection>)

  const ConfigurationSectionName: string := "RestClient"

  /** `IConfigurationSection.Exists()`: the section has a value or at least one child. */
  predicate Exists(section: ServicesSection) {
    section.value.Some? || |section.children| > 0
  }

  /** No two keys of `m` are equal ignoring case. */
  predicate DistinctIgnoringCase(m: map<string, string>) {
    forall a, b :: a in m && b in m && Canon(a) == Canon(b) ==> a == b
  }

  /**
   * `new Dictionary<string, string>(source, StringComparer.OrdinalIgnoreCase)`: fails
   * with `ArgumentException` when two source keys are equal ignoring case.
   */
  function CopyIgnoreCase(source: map<string, string>): (r: Result<CiMap<string>, Error>)
    ensures r.Success? <==> DistinctIgnoringCase(source)
    ensures r.Success? ==> forall k :: k in source ==> Lookup(r.value, k) == Some(source[k])
    ensures r.Success? ==> forall k :: k in r.value ==> exists a :: a in source && Canon(a) == k
    ensures r.Failure? ==> r.error == ArgumentError
  {
    if !DistinctIgnoringCase(source) then Failure(ArgumentError)
    else
      var copy := map a | a in source :: Canon(a) := source[a];
      assert forall k :: k in copy ==> Canon(k) == k by {
        forall k | k in copy ensures Canon(k) == k {
          var a :| a in source && Canon(a) == k;
          CanonIdempotent(a);
        }
      }
      Success(copy)
  }

  /** The message of every "missing value" configuration error. */
  function MissingValue(key: string): string {
    "Configuration value '" + key + "' must be provided."
  }

  /** `GetRequiredString`: the value itself, unless it is null, empty or only white space. */
  function GetRequiredString(value: Option<string>, key: string): (r: Result<string, Error>)
    ensures r.Success? <==> !IsNullOrWhiteSpace(value)
    ensures r.Success? ==> r.value == value.value
    ensures r.Success? ==> exists i :: 0 <= i < |r.value| && !IsWhiteSpace(r.value[i])
    ensures r.Failure? ==> r.error == InvalidOperation(MissingValue(key))
  {
    if IsNullOrWhiteSpace(value) then Failure(InvalidOperation(MissingValue(key))) else Success(value.value)
  }

  /** `GetRequiredUri`: the value itself, unless it is null or not absolute. */
  function GetRequiredUri(value: Option<Uri>, key: string): (r: Result<Uri, Error>)
    ensures r.Success? <==> value.Some? && value.value.isAbsolute
    ensures r.Success? ==> r.value == value.value && r.value.isAbsolute
    ensures value.None? ==> r == Failure(InvalidOperation(MissingValue(key)))
    ensures value.Some? && !value.value.isAbsolute ==>
      r == Failure(InvalidOperation("Configuration value '" + key + "' must be a valid absolute URI."))
  {
    if value.None? then Failure(InvalidOperation(MissingValue(key)))
    else if !value.value.isAbsolute then
      Failure(InvalidOperation("Configuration value '" + key + "' must be a valid absolute URI."))
    else Success(value.value)
  }

  /** The configured string when it is not blank, the default otherwise. */
  function OrDefault(value: Option<string>, default: string): string {
    if IsNullOrWhiteSpace(value) then default else value.value
  }

  /** `copy` holds the entries of `source` under their names ignoring case and nothing else; it is empty for a null source. */
  predicate HeadersCopied(copy: CiMap<string>, source: Option<map<string, string>>) {
    && (source.None? ==> copy == map[])
    && (source.Some? ==>
          && (forall k :: k in source.value ==> Lookup(copy, k) == Some(source.value[k]))
          && (forall k :: k in copy ==> exists a :: a in source.value && Canon(a) == k))
  }

  /** A dictionary copied with the case-insensitive comparer, or an empty one when the source is null. */
  function CopyOrEmpty(source: Option<map<string, string>>): (r: Result<CiMap<string>, Error>)
    ensures r.Success? ==> HeadersCopied(r.value, source)
  {
    if source.None? then Success(map[]) else CopyIgnoreCase(source.value)
  }

  /** Everything an enabled `Auth` block needs to normalise without error. */
  predicate AuthComplete(auth: AuthDefinition) {
    && auth.tokenUrl.Some? && auth.tokenUrl.value.isAbsolute
    && !IsNullOrWhiteSpace(auth.clientId)
    && !IsNullOrWhiteSpace(auth.clientSecret)
    && !IsNullOrWhiteSpace(auth.scope)
    && !IsNullOrWhiteSpace(auth.audience)
    && (auth.defaultRequestHeaders.Some? ==> DistinctIgnoringCase(auth.defaultRequestHeaders.value))
  }

  /** What a token setting normalised from an enabled `Auth` block holds. */
  predicate NormalizedFrom(t: TokenSetting, auth: AuthDefinition) {
    && t.tokenUrl == auth.tokenUrl
    && t.authenticationType == auth.authType
    && Some(t.clientId) == auth.clientId
    && Some(t.clientSecret) == auth.clientSecret
    && Some(t.scope) == auth.scope
    && t.audience == auth.audience
    && t.grantType == OrDefault(auth.grantType, DefaultGrantType)
    && t.contentType == OrDefault(auth.contentType, DefaultContentType)
    && t.sendRequestBody == (if auth.sendRequestBody.Some? then auth.sendRequestBody.value else true)
    && HeadersCopied(t.defaultRequestHeaders, auth.defaultRequestHeaders)
    && t.baseAddress.None? && t.path.None?
    && t.client == map[]
  }

  /**
   * `NormalizeTokenSetting`: no token setting when authentication is `None`;
   * otherwise the token URL must be absolute, client id, secret, scope and audience
   * must not be blank, and blank grant type and content type take their defaults.
   */
  function NormalizeTokenSetting(auth: AuthDefinition, keyPrefix: string): (r: Result<Option<TokenSetting>, Error>)
    ensures auth.authType == AuthNone ==> r == Success(None)
    ensures r.Success? <==> auth.authType == AuthNone || AuthComplete(auth)
    ensures r.Success? && auth.authType != AuthNone ==> r.value.Some? && NormalizedFrom(r.value.value, auth)
    ensures r.Success? && r.value.Some? ==>
      !IsNullOrWhiteSpace(Some(r.value.value.grantType)) && !IsNullOrWhiteSpace(Some(r.value.value.contentType))
  {
    if auth.authType == AuthNone then Success(None)
    else
      var t :- NormalizeEnabledAuth(auth, keyPrefix);
      Success(Some(t))
  }

  /** The part of `NormalizeTokenSetting` for an `Auth` block whose type is not `None`. */
  function NormalizeEnabledAuth(auth: AuthDefinition, keyPrefix: string): (r: Result<TokenSetting, Error>)
    ensures r.Success? <==> AuthComplete(auth)
    ensures r.Success? ==> NormalizedFrom(r.value, auth)
    ensures r.Success? ==> !IsNullOrWhiteSpace(Some(r.value.grantType)) && !IsNullOrWhiteSpace(Some(r.value.contentType))
  {
    var tokenUrl :- GetRequiredUri(auth.tokenUrl, keyPrefix + ":TokenUrl");
    var clientId :- GetRequiredString(auth.clientId, keyPrefix + ":ClientId");
    var clientSecret :- GetRequiredString(auth.clientSecret, keyPrefix + ":ClientSecret");
    var scope :- GetRequiredString(auth.scope, keyPrefix + ":Scope");
    var audience :- GetRequiredString(auth.audience, keyPrefix + ":Audience");
    var headers :- CopyOrEmpty(auth.defaultRequestHeaders);
    assert !IsWhiteSpace(DefaultGrantType[0]) && !IsWhiteSpace(DefaultContentType[0]);
    var t := TokenSetting(
      baseAddress := None,
      defaultRequestHeaders := headers,
      path := None,
      grantType := OrDefault(auth.grantType, DefaultGrantType),
      clientId := clientId,
      scope := scope,
      clientSecret := clientSecret,
      contentType := OrDefault(auth.contentType, DefaultContentType),
      tokenUrl := Some(tokenUrl),
      authenticationType := auth.authType,
      audience := Some(audience),
      sendRequestBody := if auth.sendRequestBody.Some? then auth.sendRequestBody.value else true,
      client := map[]);
    assert NormalizedFrom(t, auth);
    Success(t)
  }

  /** Everything a bound service definition needs to become a setting without error (its name aside). */
  predicate DefinitionComplete(d: ServiceDefinition) {
    && d.baseUrl.Some? && d.baseUrl.value.isAbsolute
    && (d.defaultRequestHeaders.Some? ==> DistinctIgnoringCase(d.defaultRequestHeaders.value))
    && (d.auth.Some? ==> d.auth.value.authType == AuthNone || AuthComplete(d.auth.value))
  }

  /**
   * `CreateServiceSetting`: an absolute base address, the default headers copied
   * case-insensitively (empty when absent), and a token setting exactly when an
   * `Auth` block is present and its type is not `None`.
   */
  function CreateServiceSetting(d: ServiceDefinition, configurationPath: string): (r: Result<RestClientServiceSetting, Error>)
    ensures r.Success? <==> DefinitionComplete(d)
    ensures r.Success? ==> Some(r.value.baseAddress) == d.baseUrl && r.value.baseAddress.isAbsolute
    ensures r.Success? ==> (r.value.tokenRequest.None? <==> d.auth.None? || d.auth.value.authType == AuthNone)
    ensures r.Success? && r.value.tokenRequest.Some? ==> NormalizedFrom(r.value.tokenRequest.value, d.auth.value)
    ensures r.Success? ==> HeadersCopied(r.value.defaultRequestHeaders, d.defaultRequestHeaders)
    ensures r.Success? ==> r.value.nextTimeUpdateToken == MinTime && r.value.client == map[]
  {
    var baseAddress :- GetRequiredUri(d.baseUrl, configurationPath + ":BaseUrl");
    var headers :- CopyOrEmpty(d.defaultRequestHeaders);
    var tokenSetting :- if d.auth.None? then Success(None) else NormalizeTokenSetting(d.auth.value, configurationPath + ":Auth");
    Success(RestClientServiceSetting(baseAddress, headers, MinTime, tokenSetting, map[]))
  }

  function UnboundMessage(path: string): string {
    "Configuration for '" + path + "' could not be bound."
  }

  function DuplicateMessage(name: string): string {
    "Service '" + name + "' is configured more than once."
  }

  /** The child is bound and carries a name. */
  predicate Named(child: ServiceSection) {
    child.definition.Some? && child.definition.value.name.Some?
  }

  /** The name a named child declares. */
  function NameOf(child: ServiceSection): string
    requires Named(child)
  {
    child.definition.value.name.value
  }

  /** No two named children have names equal ignoring case. */
  predicate NamesDistinct(children: seq<ServiceSection>) {
    forall i, j :: 0 <= i < j < |children| && Named(children[i]) && Named(children[j]) ==>
      !EqualsIgnoreCase(NameOf(children[i]), NameOf(children[j]))
  }

  /** A child that binds, has a non-blank name and a complete definition. */
  predicate ChildValid(child: ServiceSection) {
    Named(child) && !IsNullOrWhiteSpace(Some(NameOf(child))) && DefinitionComplete(child.definition.value)
  }

  /**
   * One pass of the loop in `BuildServiceSettings`: the child must bind, carry a
   * non-blank name not yet taken (ignoring case) and a valid definition; its setting
   * is then added under its name.
   */
  function AddService(child: ServiceSection, services: CiMap<RestClientServiceSetting>)
    : (r: Result<CiMap<RestClientServiceSetting>, Error>)
    ensures r.Success? <==> ChildValid(child) && Lookup(services, NameOf(child)).None?
    ensures r.Success? ==>
      r.value == Insert(services, NameOf(child), CreateServiceSetting(child.definition.value, child.path).value)
    ensures Named(child) && Lookup(services, NameOf(child)).Some? && !IsNullOrWhiteSpace(Some(NameOf(child))) ==>
      r == Failure(InvalidOperation(DuplicateMessage(NameOf(child))))
  {
    if child.definition.None? then Failure(InvalidOperation(UnboundMessage(child.path)))
    else
      var name :- GetRequiredString(child.definition.value.name, child.path + ":Name");
      if Lookup(services, name).Some? then Failure(InvalidOperation(DuplicateMessage(name)))
      else
        var setting :- CreateServiceSetting(child.definition.value, child.path);
        Success(Insert(services, name, setting))
  }

  /** The loop of `BuildServiceSettings`: adds the children in order to the services found so far. */
  function AddServices(children: seq<ServiceSection>, services: CiMap<RestClientServiceSetting>)
    : Result<CiMap<RestClientServiceSetting>, Error>
    decreases |children|
  {
    if children == [] then Success(services)
    else
      var next :- AddService(children[0], services);
      AddServices(children[1..], next)
  }

  /** What `BuildServiceSettings` returns or throws for a services section. */
  function ServiceSettingsOf(section: ServicesSection): Result<CiMap<RestClientServiceSetting>, Error> {
    if !Exists(section) then
      Failure(InvalidOperation("Configuration section '" + section.parentPath + ":Services' must be provided."))
    else
      var services :- AddServices(section.children, map[]);
      if |services| == 0 then
        Failure(InvalidOperation("Configuration section '" + ConfigurationSectionName + ":Services' must define at least one service."))
      else Success(services)
  }

  /** The child's entry in `m` is the setting created from its definition, found under its name ignoring case. */
  predicate Registered(m: CiMap<RestClientServiceSetting>, child: ServiceSection) {
    && Named(child)
    && Lookup(m, NameOf(child)).Some?
    && CreateServiceSetting(child.definition.value, child.path) == Success(Lookup(m, NameOf(child)).value)
  }

  /** A successful run adds one new entry per child and keeps the entries it started with. */
  lemma {:induction false} AddedKeeps(children: seq<ServiceSection>, services: CiMap<RestClientServiceSetting>)
    requires AddServices(children, services).Success?
    ensures |AddServices(children, services).value| == |services| + |children|
    ensures forall k :: k in services ==>
      k in AddServices(children, services).value && AddServices(children, services).value[k] == services[k]
    decreases |children|
  {
    if children != [] {
      var name := NameOf(children[0]);
      var next := AddService(children[0], services).value;
      assert |next| == |services| + 1 by {
        assert next.Keys == services.Keys + {Canon(name)};
      }
      AddedKeeps(children[1..], next);
      forall k | k in services ensures k in next && next[k] == services[k] {
        assert k != Canon(name);
      }
    }
  }

  /** A successful run registers every child under its name, ignoring case. */
  lemma {:induction false} AddedServices(children: seq<ServiceSection>, services: CiMap<RestClientServiceSetting>)
    requires AddServices(children, services).Success?
    ensures forall i :: 0 <= i < |children| ==> Registered(AddServices(children, services).value, children[i])
    decreases |children|
  {
    if children != [] {
      var name := NameOf(children[0]);
      var next := AddService(children[0], services).value;
      AddedServices(children[1..], next);
      AddedKeeps(children[1..], next);
      var result := AddServices(children, services).value;
      forall i | 0 <= i < |children| ensures Registered(result, children[i]) {
        if i == 0 {
          assert Canon(name) in next;
        } else {
          assert children[i] == children[1..][i - 1];
        }
      }
    }
  }

  /** One step of a successful run: the first child was new and named, and the rest succeed from the services it adds. */
  lemma FirstAdded(children: seq<ServiceSection>, services: CiMap<RestClientServiceSetting>)
    returns (next: CiMap<RestClientServiceSetting>)
    requires children != [] && AddServices(children, services).Success?
    ensures Named(children[0]) && Canon(NameOf(children[0])) !in services
    ensures ChildValid(children[0])
    ensures next.Keys == services.Keys + {Canon(NameOf(children[0]))}
    ensures AddServices(children[1..], next).Success?
  {
    next := AddService(children[0], services).value;
  }

  /** Every child is named, and its canonical name is neither in `taken` nor used by an earlier child. */
  predicate FreshNames(children: seq<ServiceSection>, taken: set<string>)
    decreases |children|
  {
    children == [] ||
    (Named(children[0]) && Canon(NameOf(children[0])) !in taken &&
     FreshNames(children[1..], taken + {Canon(NameOf(children[0]))}))
  }

  /** A successful run only met fresh names. */
  lemma {:induction false} SucceededWithFreshNames(children: seq<ServiceSection>, services: CiMap<RestClientServiceSetting>)
    requires AddServices(children, services).Success?
    ensures FreshNames(children, services.Keys)
    decreases |children|
  {
    if children != [] {
      var next := FirstAdded(children, services);
      SucceededWithFreshNames(children[1..], next);
    }
  }

  /** A successful run only met children that bind, carry a non-blank name and a complete definition. */
  lemma {:induction false} AddedChildrenValid(children: seq<ServiceSection>, services: CiMap<RestClientServiceSetting>)
    requires AddServices(children, services).Success?
    ensures forall i :: 0 <= i < |children| ==> ChildValid(children[i])
    decreases |children|
  {
    if children != [] {
      var next := FirstAdded(children, services);
      var rest := children[1..];
      AddedChildrenValid(rest, next);
      assert forall i :: 0 < i < |children| ==> children[i] == rest[i - 1];
    }
  }

  /** When the first child is added, the run goes on from the services it produced. */
  lemma AddedStep(children: seq<ServiceSection>, services: CiMap<RestClientServiceSetting>)
    returns (next: CiMap<RestClientServiceSetting>)
    requires children != [] && AddService(children[0], services).Success?
    ensures next == AddService(children[0], services).value
    ensures AddServices(children, services) == AddServices(children[1..], next)
  {
    next := AddService(children[0], services).value;
  }

  /** The first child of `a + b` is that of `a`, and the rest is the rest of `a` followed by `b`. */
  lemma HeadOfConcat(a: seq<ServiceSection>, b: seq<ServiceSection>)
    requires a != []
    ensures (a + b)[0] == a[0] && (a + b)[1..] == a[1..] + b
  {
  }

  /** Running the children of `a + b` is running those of `a`, then those of `b` on what `a` built. */
  lemma {:induction false} AddServicesSplit(a: seq<ServiceSection>, b: seq<ServiceSection>, services: CiMap<RestClientServiceSetting>)
    requires AddServices(a, services).Success?
    ensures AddServices(a + b, services) == AddServices(b, AddServices(a, services).value)
    decreases |a|
  {
    if a == [] {
      assert a + b == b;
    } else {
      HeadOfConcat(a, b);
      var next := AddedStep(a, services);
      var next' := AddedStep(a + b, services);
      AddServicesSplit(a[1..], b, next);
    }
  }

  /** Fresh names, spelled out: none is taken, and no two share a canonical form. */
  lemma {:induction false} FreshNamesDistinct(children: seq<ServiceSection>, taken: set<string>)
    requires FreshNames(children, taken)
    ensures forall i :: 0 <= i < |children| ==> Named(children[i]) && Canon(NameOf(children[i])) !in taken
    ensures forall i, j :: 0 <= i < j < |children| && Named(children[i]) && Named(children[j]) ==>
      Canon(NameOf(children[i])) != Canon(NameOf(children[j]))
    decreases |children|
  {
    if children != [] {
      var rest := children[1..];
      var first := Canon(NameOf(children[0]));
      FreshNamesDistinct(rest, taken + {first});
      forall i | 0 <= i < |children| ensures Named(children[i]) && Canon(NameOf(children[i])) !in taken {
        if i > 0 {
          assert children[i] == rest[i - 1];
        }
      }
      forall i, j | 0 <= i < j < |children| && Named(children[i]) && Named(children[j])
        ensures Canon(NameOf(children[i])) != Canon(NameOf(children[j]))
      {
        assert children[j] == rest[j - 1];
        if i > 0 {
          assert children[i] == rest[i - 1];
        }
      }
    }
  }

  /** A successful run only met names that were new: none was among the services, and no two share a canonical form. */
  lemma AddedNamesAreFresh(children: seq<ServiceSection>, services: CiMap<RestClientServiceSetting>)
    requires AddServices(children, services).Success?
    ensures forall i :: 0 <= i < |children| ==> Named(children[i]) && Canon(NameOf(children[i])) !in services
    ensures forall i, j :: 0 <= i < j < |children| && Named(children[i]) && Named(children[j]) ==>
      Canon(NameOf(children[i])) != Canon(NameOf(children[j]))
  {
    SucceededWithFreshNames(children, services);
    FreshNamesDistinct(children, services.Keys);
  }

  /**
   * A child whose name equals an earlier child's, ignoring case, is met by the
   * "configured more than once" error once the children before it were all added.
   */
  lemma DuplicateAfterPrefix(children: seq<ServiceSection>, services: CiMap<RestClientServiceSetting>, i: nat, j: nat)
    requires i < j < |children| && Named(children[i]) && Named(children[j])
    requires EqualsIgnoreCase(NameOf(children[i]), NameOf(children[j]))
    requires AddServices(children[..j], services).Success?
    ensures AddServices(children, services) == Failure(InvalidOperation(DuplicateMessage(NameOf(children[j]))))
  {
    var prefix := children[..j];
    var mid := AddServices(prefix, services).value;
    AddedServices(prefix, services);
    AddedChildrenValid(prefix, services);
    assert prefix[i] == children[i];
    LookupIgnoresCase(mid, NameOf(children[i]), NameOf(children[j]));
    BlankIgnoresCase(NameOf(children[i]), NameOf(children[j]));
    assert AddService(children[j], mid) == Failure(InvalidOperation(DuplicateMessage(NameOf(children[j]))));
    assert children == prefix + children[j..];
    AddServicesSplit(prefix, children[j..], services);
    assert children[j..][0] == children[j];
  }

  /**
   * Two children whose names are equal ignoring case make the run fail; when every
   * child before the second was added, the failure is the "configured more than once"
   * error for the second one's name.
   */
  lemma DuplicateNamesFail(children: seq<ServiceSection>, services: CiMap<RestClientServiceSetting>, i: nat, j: nat)
    requires i < j < |children| && Named(children[i]) && Named(children[j])
    requires EqualsIgnoreCase(NameOf(children[i]), NameOf(children[j]))
    ensures AddServices(children, services).Failure?
    ensures AddServices(children[..j], services).Success? ==>
      AddServices(children, services) == Failure(InvalidOperation(DuplicateMessage(NameOf(children[j]))))
  {
    if AddServices(children[..j], services).Success? {
      DuplicateAfterPrefix(children, services, i, j);
    } else {
      CanonMatchesComparer(NameOf(children[i]), NameOf(children[j]));
      if AddServices(children, services).Success? {
        AddedNamesAreFresh(children, services);
        assert false;
      }
    }
  }

  /** A child whose name (ignoring case) is already among the services makes the run fail. */
  lemma KnownNameFails(children: seq<ServiceSection>, services: CiMap<RestClientServiceSetting>, j: nat)
    requires j < |children| && Named(children[j])
    requires Lookup(services, NameOf(children[j])).Some?
    ensures AddServices(children, services).Failure?
  {
    if AddServices(children, services).Success? {
      AddedNamesAreFresh(children, services);
      assert false;
    }
  }

  /** Children that all bind and validate, with names distinct ignoring case and not yet present, are all added. */
  lemma {:induction false} ValidChildrenSucceed(children: seq<ServiceSection>, services: CiMap<RestClientServiceSetting>)
    requires forall i :: 0 <= i < |children| ==> ChildValid(children[i])
    requires NamesDistinct(children)
    requires forall i :: 0 <= i < |children| && Named(children[i]) ==> Lookup(services, NameOf(children[i])).None?
    ensures AddServices(children, services).Success?
    decreases |children|
  {
    if children != [] {
      var name := NameOf(children[0]);
      var next := AddService(children[0], services).value;
      forall i | 0 <= i < |children| - 1 && Named(children[1..][i])
        ensures Lookup(next, NameOf(children[1..][i])).None?
      {
        assert children[1..][i] == children[i + 1];
        assert !EqualsIgnoreCase(NameOf(children[i + 1]), name);
      }
      forall i, j | 0 <= i < j < |children| - 1 && Named(children[1..][i]) && Named(children[1..][j])
        ensures !EqualsIgnoreCase(NameOf(children[1..][i]), NameOf(children[1..][j]))
      {
        assert children[1..][i] == children[i + 1] && children[1..][j] == children[j + 1];
      }
      ValidChildrenSucceed(children[1..], next);
    }
  }

  /** On success the services are one per child (at least one), each the setting created from that child's definition. */
  lemma BuiltServicesMatchChildren(section: ServicesSection)
    requires ServiceSettingsOf(section).Success?
    ensures |ServiceSettingsOf(section).value| == |section.children| >= 1
    ensures forall i :: 0 <= i < |section.children| ==> Registered(ServiceSettingsOf(section).value, section.children[i])
  {
    AddedKeeps(section.children, map[]);
    AddedServices(section.children, map[]);
  }

  /** Two children whose names are equal ignoring case make the whole build fail. */
  lemma DuplicateNamesRejected(section: ServicesSection)
    requires !NamesDistinct(section.children)
    ensures ServiceSettingsOf(section).Failure?
  {
    var children := section.children;
    var i, j :| 0 <= i < j < |children| && Named(children[i]) && Named(children[j]) &&
                EqualsIgnoreCase(NameOf(children[i]), NameOf(children[j]));
    DuplicateNamesFail(children, map[], i, j);
  }

  /**
   * In a present section, the first child whose name repeats an earlier one (ignoring
   * case), after all children before it were added, makes the build throw "Service
   * '<name>' is configured more than once."
   */
  lemma DuplicateNameError(section: ServicesSection, i: nat, j: nat)
    requires Exists(section)
    requires i < j < |section.children| && Named(section.children[i]) && Named(section.children[j])
    requires EqualsIgnoreCase(NameOf(section.children[i]), NameOf(section.children[j]))
    requires AddServices(section.children[..j], map[]).Success?
    ensures ServiceSettingsOf(section) == Failure(InvalidOperation(DuplicateMessage(NameOf(section.children[j]))))
  {
    DuplicateAfterPrefix(section.children, map[], i, j);
  }

  /** A present section without children makes the build throw "must define at least one service". */
  lemma EmptySectionError(section: ServicesSection)
    requires Exists(section) && section.children == []
    ensures ServiceSettingsOf(section) ==
      Failure(InvalidOperation("Configuration section '" + ConfigurationSectionName + ":Services' must define at least one service."))
  {
    assert AddServices(section.children, map[]) == Success(map[]);
  }

  /** A non-empty list of children that all validate, with names distinct ignoring case, always builds. */
  lemma ValidSectionAccepted(section: ServicesSection)
    requires |section.children| > 0 && NamesDistinct(section.children)
    requires forall i :: 0 <= i < |section.children| ==> ChildValid(section.children[i])
    ensures ServiceSettingsOf(section).Success?
  {
    ValidChildrenSucceed(section.children, map[]);
    AddedKeeps(section.children, map[]);
  }

  /**
   * `BuildServiceSettings`: requires the services section, adds each child in order
   * (rejecting unbindable children, blank names and names already present ignoring
   * case), and refuses an empty result.
   */
  method BuildServiceSettings(section: ServicesSection) returns (r: Result<CiMap<RestClientServiceSetting>, Error>)
    ensures r == ServiceSettingsOf(section)
    ensures r.Success? ==> |r.value| == |section.children| >= 1
  {
    if !Exists(section) {
      return Failure(InvalidOperation("Configuration section '" + section.parentPath + ":Services' must be provided."));
    }
    var services: CiMap<RestClientServiceSetting> := map[];
    var i := 0;
    while i < |section.children|
      invariant 0 <= i <= |section.children|
      invariant AddServices(section.children, map[]) == AddServices(section.children[i..], services)
    {
      var child := section.children[i];
      assert section.children[i..][1..] == section.children[i + 1..];
      if child.definition.None? {
        return Failure(InvalidOperation(UnboundMessage(child.path)));
      }
      var name :- GetRequiredString(child.definition.value.name, child.path + ":Name");
      if Lookup(services, name).Some? {
        return Failure(InvalidOperation(DuplicateMessage(name)));
      }
      var setting :- CreateServiceSetting(child.definition.value, child.path);
      services := Insert(services, name, setting);
      i := i + 1;
    }
    assert section.children[i..] == [];
    AddedKeeps(section.children, map[]);
    if |services| == 0 {
      return Failure(InvalidOperation("Configuration section '" + ConfigurationSectionName + ":Services' must define at least one service."));
    }
    return Success(services);
  }
}
