/**
 * The request-side vocabulary of the client: HTTP methods, where POST parameters go,
 * parameter values and dictionaries, the outbound request, the authentication
 * provider's two operations and the dual-channel call result.
 */
module Http {

  datatype Option<T> = None | Some(value: T)

  /** .NET's HttpMethod; two methods are equal exactly when their names are. */
  datatype HttpMethod = Get | Post | Put | Delete | Head | Options | Patch | Trace

  /** CryptoExchange.Net's PostParameters: where the parameters of a POST or PUT go. */
  datatype PostParameters = InUri | InBody

  /** CryptoExchange.Net's ArrayParametersSerialization. */
  datatype ArraySerialization = Array | MultipleValues

  /** CryptoExchange.Net's RequestBodyFormat. */
  datatype RequestBodyFormat = Json | FormData

  /** C#'s `int` and `long`. */
  newtype int32 = x: int | -0x8000_0000 <= x < 0x8000_0000
  newtype int64 = x: int | -0x8000_0000_0000_0000 <= x < 0x8000_0000_0000_0000

  /** The unit a timestamp converter writes an instant in. */
  datatype TimeUnit = Milliseconds | Seconds

  /**
   * A value stored in a parameter dictionary. `Timestamp` stands for the JSON text a
   * timestamp converter makes of an instant (kept symbolic: the converters are not part
   * of this model).
   */
  datatype Value = Str(s: string) | Number(n: int) | Timestamp(instant: int, unit: TimeUnit)

  /** A `Dictionary<string, object>` of request parameters. */
  type Params = map<string, Value>

  /** Content types from CryptoExchange.Net's Constants. */
  const JsonContentHeader := "application/json"
  const FormContentHeader := "application/x-www-form-urlencoded"

  /** The content type of a body written in the given format. */
  function ContentType(format: RequestBodyFormat): (contentType: string)
    ensures contentType == JsonContentHeader <==> format == Json
    ensures format == FormData ==> contentType == FormContentHeader
  {
    if format == Json then JsonContentHeader else FormContentHeader
  }

  /** A body: the parameters WriteParamBody serializes and the content type it declares. */
  datatype Body = Body(contentType: string, parameters: Params)

  /**
   * An outbound request as ConstructRequest leaves it. `uri` is the full URI handed to
   * the request factory; `query` is the parameter string appended to it, when one was;
   * `headers` lists the headers added after Accept, in the order they were added;
   * `parametersSigned` records whether the parameters were replaced by the
   * authentication provider's signed dictionary.
   */
  datatype Request = Request(
    httpMethod: HttpMethod,
    uri: string,
    id: int,
    accept: string,
    query: Option<string>,
    headers: seq<(string, string)>,
    body: Option<Body>,
    parametersSigned: bool)

  /**
   * The two operations of KunaAuthenticationProvider the client calls. Their signature
   * computation is not part of this model; each is an arbitrary function of the values
   * the client passes it: (URI or path-and-query, method, parameters, signed, parameter
   * position, array serialization).
   */
  datatype AuthProvider = AuthProvider(
    addAuthenticationToParameters:
      (string, HttpMethod, Params, bool, PostParameters, ArraySerialization) -> Params,
    addAuthenticationToHeaders:
      (string, HttpMethod, Params, bool, PostParameters, ArraySerialization) -> seq<(string, string)>)

  /** An error reported through a call result. */
  datatype Error = Error(code: int, message: string)

  /** The dual-channel result: data and error, either of which may be null. */
  datatype CallResult<T> = CallResult(data: Option<T>, error: Option<Error>) {
    /** A call succeeded when it carries no error. */
    predicate Success() {
      error.None?
    }
  }

  /** Parameters go into the query string for GET and DELETE, and for any method in in-URI mode. */
  predicate QueryPlacement(httpMethod: HttpMethod, position: PostParameters) {
    httpMethod == Get || httpMethod == Delete || position == InUri
  }

  /** Parameters go into the body for POST and PUT when not in in-URI mode. */
  predicate BodyPlacement(httpMethod: HttpMethod, position: PostParameters) {
    (httpMethod == Post || httpMethod == Put) && position != InUri
  }

  /** AddOptionalParameter: the entry is inserted only when the value is non-null. */
  function AddOptional(parameters: Params, key: string, value: Option<Value>): (result: Params)
    ensures key in result <==> key in parameters || value.Some?
    ensures value.Some? ==> result[key] == value.value
    ensures value.None? ==> result == parameters
    ensures forall k :: k in parameters && k != key ==> k in result && result[k] == parameters[k]
    ensures result.Keys <= parameters.Keys + {key}
  {
    if value.Some? then parameters[key := value.value] else parameters
  }
}
