/**
 * KunaClient's request construction: GetUrl, which builds an endpoint's URL and, as a
 * side effect, decides where POST parameters go; ConstructRequest, which routes the
 * parameters into the query string or the body, signs them for v2 URLs and attaches
 * authentication headers for v3 URLs; and the endpoint operations that shape their
 * parameters and hand them to ConstructRequest.
 */
module Kuna {
  import opened Text
  import opened Http
  import opened Shaping

  /** The host of the versioned API; a version tag and the endpoint follow it. */
  const ApiHost := "https://api.kuna.io/"

  const AllTradesEndpoint := "trades"
  const MyTradesEndpoint := "trades/my"
  const OrderBookV2Endpoint := "depth"
  const CandlesHistoryEndpoint := "tv/history"

  /** The URL of an endpoint of API version `version`. */
  function VersionedUrl(version: string, endpoint: string): string {
    ApiHost + "v" + version + "/" + endpoint
  }

  /** A versioned URL carries its version marker, so "v3" URLs are routed to header signing. */
  lemma VersionedUrlNamesVersion(version: string, endpoint: string)
    ensures Contains(VersionedUrl(version, endpoint), "v" + version)
  {
    var url := VersionedUrl(version, endpoint);
    var marker := "v" + version;
    assert url[|ApiHost|..|ApiHost| + |marker|] == marker;
    assert OccursAt(url, marker, |ApiHost|);
    ContainsIff(url, marker);
  }

  /**
   * A version-3 URL contains the v2 marker exactly when its endpoint does: the fixed
   * part never routes a request to parameter signing, but an endpoint built from caller
   * data (a market name, say) can.
   */
  lemma V3UrlHasV2OnlyInEndpoint(endpoint: string)
    ensures Contains(VersionedUrl("3", endpoint), "v2") <==> Contains(endpoint, "v2")
  {
    var head := ApiHost + "v3/";
    assert VersionedUrl("3", endpoint) == head + endpoint;
    V3HeadLacksV2();
    ContainsPairConcat(head, endpoint, 'v', '2');
  }

  /** The fixed part of a version-3 URL has no v2 marker. */
  lemma V3HeadLacksV2()
    ensures !Contains(ApiHost + "v3/", "v2")
  {
    assert 'v' !in ApiHost;
    PairAbsentWithoutFirst(ApiHost, 'v', '2');
    VersionMarkerLacksV2();
    ContainsPairConcat(ApiHost, "v3/", 'v', '2');
  }

  /** "v3/" has no v2 marker. */
  lemma VersionMarkerLacksV2()
    ensures !Contains("v3/", "v2")
  {
    assert "v3/" == "v" + "3/";
    assert !Contains("v", "v2");
    PairAbsentWithoutFirst("3/", 'v', '2');
    ContainsPairConcat("v", "3/", 'v', '2');
  }

  /** Appending a query string to a URI keeps every marker the URI already contains. */
  lemma {:induction false} QueryKeepsMarker(uri: string, query: string, marker: string)
    requires Contains(uri, marker)
    ensures Contains(uri + "?" + query, marker)
  {
    assert uri + "?" + query == uri + ("?" + query);
    ContainsAppend(uri, "?" + query, marker);
  }

  /** The `foreach` over the provider's headers: each is added to the request, in order. */
  method AddHeaders(request: Request, headers: seq<(string, string)>) returns (result: Request)
    ensures result == request.(headers := request.headers + headers)
  {
    result := request;
    for i := 0 to |headers|
      invariant result == request.(headers := request.headers + headers[..i])
    {
      result := result.(headers := result.headers + [headers[i]]);
      assert headers[..i + 1] == headers[..i] + [headers[i]];
    }
    assert headers[..|headers|] == headers;
  }

  /**
   * The client: a base address and optional authentication provider fixed at
   * construction, the library helpers it calls, and the mutable parameter position that
   * GetUrl writes and ConstructRequest reads.
   */
  class KunaClient {
    /** The configured base address of the unversioned (v2) endpoints. */
    const baseAddress: string
    /** Present exactly when the options carried API credentials. */
    const authProvider: Option<AuthProvider>
    /** The base library's CreateParamString(true, MultipleValues). */
    const createParamString: Params -> string
    /** The PathAndQuery of a URI. */
    const pathAndQuery: string -> string
    /** The array serialization the base client passes along with each request. */
    const arraySerialization: ArraySerialization
    var postParametersPosition: PostParameters
    var requestBodyFormat: RequestBodyFormat

    /** KunaClient(options): parameters in the URI and JSON bodies until GetUrl says otherwise. */
    constructor (
      baseAddress: string, authProvider: Option<AuthProvider>, createParamString: Params -> string,
      pathAndQuery: string -> string, arraySerialization: ArraySerialization)
      ensures this.baseAddress == baseAddress
      ensures this.authProvider == authProvider
      ensures this.createParamString == createParamString && this.pathAndQuery == pathAndQuery
      ensures this.arraySerialization == arraySerialization
      ensures postParametersPosition == InUri && requestBodyFormat == Json
    {
      this.baseAddress := baseAddress;
      this.authProvider := authProvider;
      this.createParamString := createParamString;
      this.pathAndQuery := pathAndQuery;
      this.arraySerialization := arraySerialization;
      postParametersPosition := InUri;
      requestBodyFormat := Json;
    }

    /**
     * GetUrl: a versioned endpoint lives under the API host and sends its POST parameters
     * in the body; an unversioned one lives under the base address and sends them in the
     * URI. Nothing else about the client changes.
     */
    method GetUrl(endpoint: string, version: Option<string>) returns (uri: string)
      modifies this`postParametersPosition
      ensures postParametersPosition == (if version.Some? then InBody else InUri)
      ensures version.Some? ==> uri == VersionedUrl(version.value, endpoint)
      ensures version.None? ==> uri == baseAddress + endpoint
    {
      if version.Some? {
        postParametersPosition := InBody;
      } else {
        postParametersPosition := InUri;
      }
      uri := if version.None? then baseAddress + endpoint else VersionedUrl(version.value, endpoint);
    }

    /** Parameters are signed into the query only for v2 URLs of signed calls with credentials. */
    predicate SignsParameters(uri: string, signed: bool) {
      Contains(uri, "v2") && authProvider.Some? && signed
    }

    /**
     * The parameters a request carries: the provider's signed dictionary when
     * SignsParameters holds, the caller's dictionary otherwise.
     */
    function SentParameters(
      uri: string, httpMethod: HttpMethod, parameters: Params, signed: bool, arraySerialization: ArraySerialization): Params
      reads this
    {
      if SignsParameters(uri, signed)
      then authProvider.value.addAuthenticationToParameters(
        pathAndQuery(uri), httpMethod, parameters, signed, postParametersPosition, arraySerialization)
      else parameters
    }

    /** The headers the provider adds to a request whose final URI is `uri`, if any. */
    function AuthHeaders(
      uri: string, httpMethod: HttpMethod, parameters: Params, signed: bool, arraySerialization: ArraySerialization)
      : seq<(string, string)>
      reads this
    {
      if Contains(uri, "v3") && authProvider.Some?
      then authProvider.value.addAuthenticationToHeaders(
        uri, httpMethod, parameters, signed, postParametersPosition, arraySerialization)
      else []
    }

    /**
     * ConstructRequest. Missing parameters are an empty dictionary. The placement follows
     * the field postParametersPosition, never the `postParameterPosition` argument: the
     * parameters go into the query string when the method is GET or DELETE or the field
     * says in-URI, and there are any; into the body when the method is POST or PUT and
     * the field does not say in-URI; never into both. Authentication headers are added
     * whenever the final URI contains "v3" and there is a provider, signed or not.
     */
    method ConstructRequest(
      uri: string, httpMethod: HttpMethod, parameters: Option<Params>, signed: bool,
      postParameterPosition: PostParameters, arraySerialization: ArraySerialization, requestId: int)
      returns (request: Request)
      ensures request.httpMethod == httpMethod && request.id == requestId
      ensures request.accept == JsonContentHeader
      ensures request.parametersSigned <==> SignsParameters(uri, signed)
      ensures var given := if parameters.Some? then parameters.value else map[];
        var sent := SentParameters(uri, httpMethod, given, signed, arraySerialization);
        && (!request.parametersSigned ==> sent == given)
        && (request.query.Some? <==> QueryPlacement(httpMethod, postParametersPosition) && sent != map[])
        && (request.query.Some? ==>
              request.query.value == createParamString(sent) && request.uri == uri + "?" + request.query.value)
        && (request.query.None? ==> request.uri == uri)
        && (request.body.Some? <==> BodyPlacement(httpMethod, postParametersPosition))
        && (request.body.Some? ==> request.body.value == Body(ContentType(requestBodyFormat), sent))
        && request.headers == AuthHeaders(request.uri, httpMethod, sent, signed, arraySerialization)
      ensures request.query.None? || request.body.None?
      ensures authProvider.None? ==> request.headers == [] && !request.parametersSigned
    {
      var ps := if parameters.None? then map[] else parameters.value;
      var signedParameters;
      ps, signedParameters := SignForV2(uri, httpMethod, ps, signed, arraySerialization);
      var uriString, query := AppendQuery(uri, httpMethod, ps);
      request := Request(httpMethod, uriString, requestId, "", query, [], None, signedParameters);
      request := request.(accept := JsonContentHeader);
      request := request.(httpMethod := httpMethod);
      request := AttachAuthHeaders(request, uriString, httpMethod, ps, signed, arraySerialization);
      if (httpMethod == Post || httpMethod == Put) && postParametersPosition != InUri {
        request := request.(body := Some(Body(ContentType(requestBodyFormat), ps)));
      }
    }

    /** The v2 step of ConstructRequest: signed calls with credentials get the provider's parameters. */
    method SignForV2(
      uri: string, httpMethod: HttpMethod, parameters: Params, signed: bool, arraySerialization: ArraySerialization)
      returns (ps: Params, signedParameters: bool)
      ensures signedParameters <==> SignsParameters(uri, signed)
      ensures ps == SentParameters(uri, httpMethod, parameters, signed, arraySerialization)
      ensures !signedParameters ==> ps == parameters
    {
      ps := parameters;
      signedParameters := false;
      if Contains(uri, "v2") {
        if authProvider.Some? && signed {
          ps := authProvider.value.addAuthenticationToParameters(
            pathAndQuery(uri), httpMethod, ps, signed, postParametersPosition, arraySerialization);
          signedParameters := true;
        }
      }
    }

    /** The query step of ConstructRequest: non-empty parameters bound for the URI are appended to it. */
    method AppendQuery(uri: string, httpMethod: HttpMethod, ps: Params) returns (uriString: string, query: Option<string>)
      ensures query.Some? <==> QueryPlacement(httpMethod, postParametersPosition) && ps != map[]
      ensures query.Some? ==> query.value == createParamString(ps) && uriString == uri + "?" + query.value
      ensures query.None? ==> uriString == uri
    {
      uriString := uri;
      query := None;
      if (httpMethod == Get || httpMethod == Delete || postParametersPosition == InUri) && ps != map[] {
        var paramString := createParamString(ps);
        uriString := uriString + "?" + paramString;
        query := Some(paramString);
      }
    }

    /** The v3 step of ConstructRequest: with a provider, its headers are added for v3 URIs. */
    method AttachAuthHeaders(
      request: Request, uriString: string, httpMethod: HttpMethod, ps: Params, signed: bool,
      arraySerialization: ArraySerialization)
      returns (result: Request)
      ensures result == request.(headers := request.headers + AuthHeaders(uriString, httpMethod, ps, signed, arraySerialization))
    {
      result := request;
      if Contains(uriString, "v3") {
        if authProvider.Some? {
          var headers := authProvider.value.addAuthenticationToHeaders(
            uriString, httpMethod, ps, signed, postParametersPosition, arraySerialization);
          result := AddHeaders(result, headers);
        }
      }
    }

    /**
     * GetOrdersAsync: a signed POST to the version-3 order path with the optional
     * parameters in the body; the provider's headers are attached whenever there is a
     * provider, and the body is re-signed as for v2 only when the market name itself
     * contains "v2".
     */
    method GetOrdersRequest(
      state: OrderState, market: string, from: Option<int>, to: Option<int>, limit: Option<int32>,
      sortDesc: Option<bool>, requestId: int)
      returns (parameters: Params, request: Request)
      modifies this`postParametersPosition
      ensures postParametersPosition == InBody
      ensures OrdersParametersShape(parameters, from, to, limit, sortDesc)
      ensures request.httpMethod == Post && request.query.None?
      ensures request.uri == VersionedUrl("3", OrdersPath(state, market))
      ensures request.parametersSigned <==> authProvider.Some? && Contains(OrdersPath(state, market), "v2")
      ensures request.body.Some? && request.body.value.contentType == ContentType(requestBodyFormat)
      ensures !request.parametersSigned ==> request.body.value.parameters == parameters
      ensures request.body.value.parameters == SentParameters(request.uri, Post, parameters, true, arraySerialization)
      ensures authProvider.None? ==> request.headers == []
      ensures authProvider.Some? ==>
        request.headers == authProvider.value.addAuthenticationToHeaders(
          request.uri, Post, request.body.value.parameters, true, InBody, arraySerialization)
    {
      var endpoint := BuildOrdersPath(state, market);
      var url := GetUrl(endpoint, Some("3"));
      parameters := OrdersParameters(from, to, limit, sortDesc);
      request := ConstructRequest(url, Post, Some(parameters), true, postParametersPosition, arraySerialization, requestId);
      VersionedUrlNamesVersion("3", endpoint);
      assert "v" + "3" == "v3";
      assert request.uri == url;
      V3UrlHasV2OnlyInEndpoint(endpoint);
    }

    /**
     * GetTradesV2Async: an unsigned GET to the base address with the trade parameters,
     * limit clamped, in the query string.
     */
    method GetTradesV2Request(
      market: string, toDate: Option<int>, fromId: Option<int64>, toId: Option<int64>, limit: int32,
      sort: string, requestId: int)
      returns (parameters: Params, request: Request)
      modifies this`postParametersPosition
      ensures postParametersPosition == InUri
      ensures TradesParametersShape(parameters, market, sort, toDate, fromId, toId, limit)
      ensures request.httpMethod == Get && !request.parametersSigned && request.body.None?
      ensures request.query == Some(createParamString(parameters))
      ensures request.uri == baseAddress + AllTradesEndpoint + "?" + createParamString(parameters)
      ensures request.headers == AuthHeaders(request.uri, Get, parameters, false, arraySerialization)
    {
      parameters := TradesParameters(market, sort, toDate, fromId, toId, limit);
      var url := GetUrl(AllTradesEndpoint, None);
      request := ConstructRequest(url, Get, Some(parameters), false, postParametersPosition, arraySerialization, requestId);
    }

    /**
     * GetMyTradesV2Async: the same parameters as GetTradesV2Async, sent as a signed GET;
     * they are replaced by the provider's signed dictionary when the base address makes
     * the URL a v2 one and there is a provider.
     */
    method GetMyTradesV2Request(
      market: string, toDate: Option<int>, fromId: Option<int64>, toId: Option<int64>, limit: int32,
      sort: string, requestId: int)
      returns (parameters: Params, request: Request)
      modifies this`postParametersPosition
      ensures postParametersPosition == InUri
      ensures TradesParametersShape(parameters, market, sort, toDate, fromId, toId, limit)
      ensures var url := baseAddress + MyTradesEndpoint;
        var sent := SentParameters(url, Get, parameters, true, arraySerialization);
        && request.httpMethod == Get && request.body.None?
        && (request.parametersSigned <==> Contains(url, "v2") && authProvider.Some?)
        && (!request.parametersSigned ==> sent == parameters)
        && (request.query.Some? <==> sent != map[])
        && (request.query.Some? ==> request.uri == url + "?" + createParamString(sent))
        && (request.query.None? ==> request.uri == url)
        && request.headers == AuthHeaders(request.uri, Get, sent, true, arraySerialization)
    {
      parameters := TradesParameters(market, sort, toDate, fromId, toId, limit);
      var url := GetUrl(MyTradesEndpoint, None);
      request := ConstructRequest(url, Get, Some(parameters), true, postParametersPosition, arraySerialization, requestId);
    }

    /**
     * GetOrderBookV2Async(market, limit): an unsigned GET with the market and the limit
     * as given; unlike the trade endpoints, the limit is not clamped.
     */
    method GetOrderBookV2Request(market: string, limit: int32, requestId: int)
      returns (parameters: Params, request: Request)
      modifies this`postParametersPosition
      ensures postParametersPosition == InUri
      ensures parameters.Keys == {"market", "limit"}
      ensures parameters["market"] == Str(market) && parameters["limit"] == Number(limit as int)
      ensures request.httpMethod == Get && !request.parametersSigned && request.body.None?
      ensures request.query == Some(createParamString(parameters))
      ensures request.uri == baseAddress + OrderBookV2Endpoint + "?" + createParamString(parameters)
      ensures request.headers == AuthHeaders(request.uri, Get, parameters, false, arraySerialization)
    {
      parameters := map["market" := Str(market), "limit" := Number(limit as int)];
      var url := GetUrl(OrderBookV2Endpoint, None);
      request := ConstructRequest(url, Get, Some(parameters), false, postParametersPosition, arraySerialization, requestId);
    }

    /**
     * GetCandlesHistoryV2Async, request side: an unsigned GET to the version-3 history
     * endpoint with symbol, resolution and the two instants in seconds in the query
     * string; being a v3 URL, it carries the provider's headers whenever there is a
     * provider, although the call is unsigned. The response is reshaped by
     * TransposeCandles.
     */
    method GetCandlesHistoryV2Request(symbol: string, resolution: int32, from: int, to: int, requestId: int)
      returns (parameters: Params, request: Request)
      modifies this`postParametersPosition
      ensures postParametersPosition == InBody
      ensures parameters == map[
        "symbol" := Str(symbol), "resolution" := Number(resolution as int),
        "from" := Timestamp(from, Seconds), "to" := Timestamp(to, Seconds)]
      ensures request.httpMethod == Get && !request.parametersSigned && request.body.None?
      ensures request.query == Some(createParamString(parameters))
      ensures request.uri == VersionedUrl("3", CandlesHistoryEndpoint) + "?" + createParamString(parameters)
      ensures authProvider.None? ==> request.headers == []
      ensures authProvider.Some? ==>
        request.headers == authProvider.value.addAuthenticationToHeaders(
          request.uri, Get, parameters, false, InBody, arraySerialization)
    {
      parameters := map[
        "symbol" := Str(symbol), "resolution" := Number(resolution as int),
        "from" := Timestamp(from, Seconds), "to" := Timestamp(to, Seconds)];
      var url := GetUrl(CandlesHistoryEndpoint, Some("3"));
      request := ConstructRequest(url, Get, Some(parameters), false, postParametersPosition, arraySerialization, requestId);
      assert "symbol" in parameters;
      VersionedUrlNamesVersion("3", CandlesHistoryEndpoint);
      assert "v" + "3" == "v3";
      QueryKeepsMarker(url, createParamString(parameters), "v3");
    }
  }
}
