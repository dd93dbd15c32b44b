/**
 * `NetworkRequestProtocol`: a caller's request descriptor and the default
 * `makeRequest`, which turns it into a `URLRequest` or throws, in a fixed order:
 * bad URL, then body serialisation, then reachability.
 */
module NetworkRequests {
  import opened Wrappers
  import opened Bytes
  import opened HTTPHeaderFields
  import opened NetworkErrors

  /** A URL; `valid` is what `URL.isValid` answers (host, scheme, `canOpenURL`), an input here. */
  datatype Url = Url(address: string, valid: bool)

  /** Body parameters together with what JSON serialisation makes of them (bytes or a thrown error). */
  datatype BodyParameters = BodyParameters(serialized: Result<Bytes, NSError>)

  /**
   * What a descriptor supplies: the URL its components produce (if any), the raw
   * value of its HTTP method, optional headers and body parameters, the API key
   * and whether the cached response is to be purged.
   */
  datatype RequestDescriptor = RequestDescriptor(
    urlComponentsUrl: Option<Url>,
    httpMethod: string,
    httpHeaderFields: Option<NetworkHTTPHeaderField>,
    httpBodyParameters: Option<BodyParameters>,
    apiKey: Option<string>,
    clearCache: bool)

  /** A request as the session sees it; `headers` is keyed on folded names, one entry per header. */
  datatype URLRequest = URLRequest(url: Url, httpMethod: string, headers: map<string, string>, httpBody: Option<Bytes>)

  /** What `makeRequest` throws: one of the library's errors, or a serialisation error passed on unchanged. */
  datatype Thrown = NetworkFailure(error: NetworkError) | SerializationFailure(cause: NSError)

  /** A descriptor that overrides only the URL and the method: the protocol's defaults for the rest. */
  function DefaultDescriptor(url: Option<Url>, httpMethod: string): (d: RequestDescriptor)
    ensures d.urlComponentsUrl == url && d.httpMethod == httpMethod
    ensures d.httpHeaderFields.None? && d.httpBodyParameters.None? && d.apiKey.None? && !d.clearCache
  {
    RequestDescriptor(url, httpMethod, None, None, None, false)
  }

  /** `order` is the order in which the header dictionary enumerates its keys: each key once. */
  ghost predicate EnumeratesKeys(order: seq<NetworkHTTPHeaderKey>, headerFields: Option<NetworkHTTPHeaderField>)
  {
    && (forall i, j :: 0 <= i < j < |order| ==> order[i] != order[j])
    && (forall k :: k in order <==> headerFields.Some? && k in headerFields.value.fields)
  }

  /**
   * The header map after `setValue(_:forHTTPHeaderField:)` for each key in
   * `order`, in turn, keyed on the folded name: a later key whose name differs
   * only in case replaces the earlier value.
   */
  function SetHeaders(order: seq<NetworkHTTPHeaderKey>, fields: map<NetworkHTTPHeaderKey, NetworkHTTPHeaderValue>): (r: map<string, string>)
    requires forall k :: k in order ==> k in fields
    ensures forall k :: k in order ==> HeaderName(k) in r
  {
    if order == [] then map[]
    else
      var last := order[|order| - 1];
      SetHeaders(order[..|order| - 1], fields)[HeaderName(last) := ValueDescription(fields[last])]
  }

  /** Every key's folded name is set, and nothing else is. */
  lemma {:induction false} SetHeadersNames(order: seq<NetworkHTTPHeaderKey>, fields: map<NetworkHTTPHeaderKey, NetworkHTTPHeaderValue>)
    requires forall k :: k in order ==> k in fields
    ensures SetHeaders(order, fields).Keys == set k | k in order :: HeaderName(k)
  {
    if order != [] {
      var front, last := order[..|order| - 1], order[|order| - 1];
      assert order == front + [last];
      SetHeadersNames(front, fields);
      assert (set k | k in order :: HeaderName(k))
             == (set k | k in front :: HeaderName(k)) + {HeaderName(last)};
    }
  }

  /**
   * A name that no later key folds to carries the value of its key: when two
   * keys name the same header, the one enumerated last wins.
   */
  lemma {:induction false} SetHeadersValue(order: seq<NetworkHTTPHeaderKey>, fields: map<NetworkHTTPHeaderKey, NetworkHTTPHeaderValue>, i: nat)
    requires forall k :: k in order ==> k in fields
    requires i < |order|
    requires forall j :: i < j < |order| ==> HeaderName(order[j]) != HeaderName(order[i])
    ensures HeaderName(order[i]) in SetHeaders(order, fields)
    ensures SetHeaders(order, fields)[HeaderName(order[i])] == ValueDescription(fields[order[i]])
  {
    if i < |order| - 1 {
      var front := order[..|order| - 1];
      assert forall k :: k in front ==> k in order;
      SetHeadersValue(front, fields, i);
    }
  }

  /** `Content-Type` set from the named key and then from a lower-case custom key is one header, holding the later value. */
  lemma CaseInsensitiveOverride(fields: map<NetworkHTTPHeaderKey, NetworkHTTPHeaderValue>)
    requires ContentType in fields && NetworkHTTPHeaderKey.Other("content-type") in fields
    ensures SetHeaders([ContentType, NetworkHTTPHeaderKey.Other("content-type")], fields)
              == map["content-type" := ValueDescription(fields[NetworkHTTPHeaderKey.Other("content-type")])]
  {
    var custom := NetworkHTTPHeaderKey.Other("content-type");
    var order := [ContentType, custom];
    assert HeaderName(ContentType) == "content-type";
    assert HeaderName(custom) == "content-type";
    assert order[..1] == [ContentType] && [ContentType][..0] == [];
    var first := SetHeaders([ContentType], fields);
    assert first == SetHeaders([], fields)[HeaderName(ContentType) := ValueDescription(fields[ContentType])];
    assert SetHeaders(order, fields) == first["content-type" := ValueDescription(fields[custom])];
  }

  /** `makeBody`: no parameters, no body; otherwise the serialised parameters or the serialiser's error. */
  function MakeBody(parameters: Option<BodyParameters>): (r: Result<Option<Bytes>, NSError>)
    ensures parameters.None? ==> r == Success(None)
    ensures parameters.Some? && parameters.value.serialized.Success? ==> r == Success(Some(parameters.value.serialized.value))
    ensures parameters.Some? && parameters.value.serialized.Failure? ==> r == Failure(parameters.value.serialized.error)
  {
    match parameters
    case None => Success(None)
    case Some(p) =>
      match p.serialized
      case Success(json) => Success(Some(json))
      case Failure(e) => Failure(e)
  }

  /** `manageInternetConnectivityBasedOnCache`: the no-internet error exactly when the network is unreachable. */
  function ManageInternetConnectivity(isInternetReachable: bool): (r: Option<NetworkError>)
    ensures r.Some? <==> !isInternetReachable
    ensures r.Some? ==> r.value == NoInternetError()
  {
    if isInternetReachable then None else Some(NoInternetError())
  }

  /** The result of `makeRequest` and whether it purged the shared URL cache on the way. */
  datatype BuildOutcome = BuildOutcome(result: Result<URLRequest, Thrown>, cachePurged: bool)

  /** The specification of the default `makeRequest`. */
  function BuildRequest(d: RequestDescriptor, order: seq<NetworkHTTPHeaderKey>, isInternetReachable: bool): (r: BuildOutcome)
    requires EnumeratesKeys(order, d.httpHeaderFields)
    // a missing or invalid URL throws bad-url before anything else happens
    ensures (d.urlComponentsUrl.None? || !d.urlComponentsUrl.value.valid)
              ==> r == BuildOutcome(Failure(NetworkFailure(BadUrlError())), false)
    // a serialisation error is rethrown unchanged, before the cache and the reachability check
    ensures (d.urlComponentsUrl.Some? && d.urlComponentsUrl.value.valid && MakeBody(d.httpBodyParameters).Failure?)
              ==> r == BuildOutcome(Failure(SerializationFailure(MakeBody(d.httpBodyParameters).error)), false)
    // no-internet is thrown only once the URL and the body have succeeded
    ensures (r.result.Failure? && r.result.error == NetworkFailure(NoInternetError()))
              ==> !isInternetReachable && d.urlComponentsUrl.Some? && d.urlComponentsUrl.value.valid
                  && MakeBody(d.httpBodyParameters).Success?
    ensures r.result.Success? <==>
              (d.urlComponentsUrl.Some? && d.urlComponentsUrl.value.valid
               && MakeBody(d.httpBodyParameters).Success? && isInternetReachable)
    ensures r.result.Success? ==>
              && r.result.value.url == d.urlComponentsUrl.value
              && r.result.value.httpMethod == d.httpMethod
              && r.result.value.httpBody == MakeBody(d.httpBodyParameters).value
              && r.result.value.headers == (if d.httpHeaderFields.None? then map[] else SetHeaders(order, d.httpHeaderFields.value.Headers()))
    // the cache is purged only when asked for, and only once the URL and body have succeeded
    ensures r.cachePurged <==>
              (d.clearCache && d.urlComponentsUrl.Some? && d.urlComponentsUrl.value.valid
               && MakeBody(d.httpBodyParameters).Success?)
  {
    if d.urlComponentsUrl.None? || !d.urlComponentsUrl.value.valid then
      BuildOutcome(Failure(NetworkFailure(BadUrlError())), false)
    else
      var headers := if d.httpHeaderFields.None? then map[] else SetHeaders(order, d.httpHeaderFields.value.Headers());
      match MakeBody(d.httpBodyParameters)
      case Failure(e) => BuildOutcome(Failure(SerializationFailure(e)), false)
      case Success(body) =>
        var request := URLRequest(d.urlComponentsUrl.value, d.httpMethod, headers, body);
        match ManageInternetConnectivity(isInternetReachable)
        case None => BuildOutcome(Success(request), d.clearCache)
        case Some(e) => BuildOutcome(Failure(NetworkFailure(e)), d.clearCache)
  }

  /**
   * The default `makeRequest`, step by step: resolve the URL, set the method,
   * set each header in the dictionary's enumeration order, attach the body,
   * purge the cache if asked, then check reachability.
   */
  method MakeRequest(d: RequestDescriptor, order: seq<NetworkHTTPHeaderKey>, isInternetReachable: bool)
    returns (r: Result<URLRequest, Thrown>, cachePurged: bool)
    requires EnumeratesKeys(order, d.httpHeaderFields)
    ensures BuildOutcome(r, cachePurged) == BuildRequest(d, order, isInternetReachable)
  {
    if d.urlComponentsUrl.None? || !d.urlComponentsUrl.value.valid {
      return Failure(NetworkFailure(BadUrlError())), false;
    }
    var request := URLRequest(d.urlComponentsUrl.value, "GET", map[], None);
    request := request.(httpMethod := d.httpMethod);

    if d.httpHeaderFields.Some? {
      var fields := d.httpHeaderFields.value.Headers();
      for i := 0 to |order|
        invariant request.headers == SetHeaders(order[..i], fields)
        invariant request.url == d.urlComponentsUrl.value && request.httpMethod == d.httpMethod && request.httpBody.None?
      {
        assert order[..i + 1][..i] == order[..i];
        request := request.(headers := request.headers[HeaderName(order[i]) := ValueDescription(fields[order[i]])]);
      }
      assert order[..|order|] == order;
    }

    var body := MakeBody(d.httpBodyParameters);
    if body.Failure? {
      return Failure(SerializationFailure(body.error)), false;
    }
    request := request.(httpBody := body.value);

    cachePurged := ClearCacheForRequest(d);
    var isReachableError := ManageInternetConnectivity(isInternetReachable);
    if isReachableError.None? {
      return Success(request), cachePurged;
    }
    return Failure(NetworkFailure(isReachableError.value)), cachePurged;
  }

  /** `clearCacheForRequest`: whether the cached response for the request is removed. */
  function ClearCacheForRequest(d: RequestDescriptor): (purge: bool)
    ensures purge <==> d.clearCache
  {
    d.clearCache
  }

  /** A descriptor that keeps every default builds a bare request: no headers, no body, no cache purge. */
  lemma DefaultsBuildBareRequest(url: Url, httpMethod: string)
    requires url.valid
    ensures BuildRequest(DefaultDescriptor(Some(url), httpMethod), [], true)
              == BuildOutcome(Success(URLRequest(url, httpMethod, map[], None)), false)
  {
  }

  /** The headers of a successful build: each key's folded name is set, and a name no other key folds to carries its key's value. */
  lemma BuiltHeaders(d: RequestDescriptor, order: seq<NetworkHTTPHeaderKey>, isInternetReachable: bool)
    requires EnumeratesKeys(order, d.httpHeaderFields)
    requires BuildRequest(d, order, isInternetReachable).result.Success?
    ensures var h := BuildRequest(d, order, isInternetReachable).result.value.headers;
            && (d.httpHeaderFields.None? ==> h == map[])
            && (forall k :: k in order ==> HeaderName(k) in h)
            && (forall name :: name in h ==> exists k :: k in order && HeaderName(k) == name)
            && (forall k :: k in order && (forall k' :: k' in order && k' != k ==> HeaderName(k') != HeaderName(k))
                  ==> h[HeaderName(k)] == ValueDescription(d.httpHeaderFields.value.fields[k]))
  {
    if d.httpHeaderFields.Some? {
      var fields := d.httpHeaderFields.value.fields;
      SetHeadersNames(order, fields);
      forall k | k in order && (forall k' :: k' in order && k' != k ==> HeaderName(k') != HeaderName(k))
        ensures SetHeaders(order, fields)[HeaderName(k)] == ValueDescription(fields[k])
      {
        var i :| 0 <= i < |order| && order[i] == k;
        forall j | i < j < |order| ensures HeaderName(order[j]) != HeaderName(order[i]) {
          assert order[j] in order && order[j] != k;
        }
        SetHeadersValue(order, fields, i);
      }
    }
  }
}
