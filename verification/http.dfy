/** The parts of HTTP the client touches: URIs, header collections, status codes and replies. */
module Http {
  import opened Wrappers
  import opened Text
  import opened Exceptions

  /** `System.Uri`, reduced to its string form and whether it is absolute (parsing is not modelled). */
  datatype Uri = Uri(text: string, isAbsolute: bool)

  /** `AuthenticationHeaderValue`: a scheme and an optional parameter. */
  datatype AuthHeader = AuthHeader(scheme: string, parameter: Option<string>)

  /** One entry of a header collection: the values added under a name, or a typed Authorization value. */
  datatype HeaderValue = Values(items: seq<string>) | Credentials(auth: AuthHeader)

  /** A header collection (`HttpRequestHeaders`); header names are case-insensitive. */
  type HeaderMap = CiMap<HeaderValue>

  const AuthorizationName: string := "Authorization"

  /** The values currently held under a header name. */
  function ItemsOf(h: HeaderMap, name: string): seq<string> {
    var v := Lookup(h, name);
    if v.Some? && v.value.Values? then v.value.items else []
  }

  /** `HttpHeaders.Add(name, value)`: appends the value to those held under the name. */
  function AddHeader(h: HeaderMap, name: string, value: string): (r: HeaderMap)
    ensures Lookup(r, name) == Some(Values(ItemsOf(h, name) + [value]))
    ensures forall k :: !EqualsIgnoreCase(k, name) ==> Lookup(r, k) == Lookup(h, k)
  {
    Insert(h, name, Values(ItemsOf(h, name) + [value]))
  }

  /** `HttpHeaders.Remove(name)`. */
  function RemoveHeader(h: HeaderMap, name: string): (r: HeaderMap)
    ensures Lookup(r, name) == None
    ensures forall k :: !EqualsIgnoreCase(k, name) ==> Lookup(r, k) == Lookup(h, k)
  {
    forall k | !EqualsIgnoreCase(k, name)
      ensures Canon(k) != Canon(name)
    {
      CanonMatchesComparer(k, name);
    }
    h - {Canon(name)}
  }

  /** Assigning the `Authorization` property replaces whatever the collection held under that name. */
  function SetAuthorization(h: HeaderMap, auth: AuthHeader): (r: HeaderMap)
    ensures Lookup(r, AuthorizationName) == Some(Credentials(auth))
    ensures forall k :: !EqualsIgnoreCase(k, AuthorizationName) ==> Lookup(r, k) == Lookup(h, k)
  {
    Insert(h, AuthorizationName, Credentials(auth))
  }

  /** The `Authorization` property is non-null. */
  predicate HasAuthorization(h: HeaderMap) {
    Lookup(h, AuthorizationName).Some?
  }

  /** The collection holding each configured header once, under the configured value. */
  function HeadersFrom(m: CiMap<string>): HeaderMap {
    map k | k in m :: Values([m[k]])
  }

  /** Every configured header is found, under any spelling of its name, with exactly its configured value. */
  lemma HeadersFromLookup(m: CiMap<string>, name: string)
    ensures Lookup(HeadersFrom(m), name) == (if Lookup(m, name).Some? then Some(Values([Lookup(m, name).value])) else None)
  {
  }

  /**
   * `ConfigureHeaders` of the token handler and of the configurator: clears the
   * client's default headers, then removes and adds each configured header; the
   * client ends up holding each configured header once, with its value.
   */
  method ReplaceHeaders(headers: CiMap<string>) returns (client: HeaderMap)
    ensures client == HeadersFrom(headers)
  {
    client := map[];
    var pending := headers.Keys;
    while pending != {}
      invariant pending <= headers.Keys
      invariant client == HeadersFrom(headers - pending)
      decreases pending
    {
      var name :| name in pending;
      ghost var before := client;
      assert Canon(name) == name;
      client := RemoveHeader(client, name);
      assert ItemsOf(client, name) + [headers[name]] == [headers[name]];
      client := AddHeader(client, name, headers[name]);
      assert client == before[name := Values([headers[name]])];
      assert headers - (pending - {name}) == (headers - pending)[name := headers[name]];
      pending := pending - {name};
    }
    assert headers - {} == headers;
  }

  /** `new AuthenticationHeaderValue(scheme, parameter)`: the scheme must be neither null nor empty. */
  function MakeAuthHeader(scheme: Option<string>, parameter: Option<string>): (r: Result<AuthHeader, Error>)
    ensures r.Success? <==> !IsNullOrEmpty(scheme)
    ensures r.Success? ==> r.value.scheme == scheme.value && r.value.parameter == parameter
    ensures r.Failure? ==> r.error == ArgumentError
  {
    if IsNullOrEmpty(scheme) then Failure(ArgumentError) else Success(AuthHeader(scheme.value, parameter))
  }

  /** `HttpResponseMessage.IsSuccessStatusCode`. */
  predicate IsSuccessStatusCode(status: int) {
    200 <= status <= 299
  }

  /** A response: its status code and body text. */
  datatype HttpResponse = HttpResponse(statusCode: int, body: string)

  /** What the network does with a request: no answer (`HttpRequestException`), or a response. */
  datatype CallReply = Unreachable | Answered(response: HttpResponse)

  /** An outgoing request as a delegating handler sees it. */
  datatype HttpRequest = HttpRequest(requestUri: string, headers: HeaderMap, content: Option<string>)
}
