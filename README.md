# Kuna.Net request shaping

A Dafny model of how `KunaClient` (the REST client of the Kuna exchange API) turns an
endpoint call into an outbound HTTP request, with proofs of its routing and shaping
rules.

The model covers these parts of the client:

- **`GetUrl`** builds an endpoint's URL. A versioned endpoint goes under
  `https://api.kuna.io/v<version>/`. An unversioned one goes under the configured base
  address. As a side effect, `GetUrl` writes the client's `postParametersPosition`
  field: `InBody` for versioned URLs and `InUri` otherwise.
- **`ConstructRequest`** routes the parameters. It reads that field and not its own
  `postParameterPosition` argument. The field therefore carries a coupling from
  whichever `GetUrl` ran last. The routing works like this:
  - parameters are replaced by the authentication provider's signed dictionary for
    URIs containing `"v2"`;
  - they go into the query string for GET and DELETE, or when the field says in-URI;
  - they go into the body for POST and PUT otherwise;
  - the provider's headers are attached for URIs containing `"v3"`.
- **The endpoint operations** shape their parameters before handing them on:
  - the order path and optional order parameters of `GetOrdersAsync`;
  - the clamped trade limit of `GetTradesV2Async` and `GetMyTradesV2Async`;
  - the unclamped limit of `GetOrderBookV2Async`;
  - the candle request of `GetCandlesHistoryV2Async` and the loop that transposes its
    columnar response into one candle per timestamp.

Modules:

- `Text` holds `StartsWith`, `EndsWith` and `Contains`, compared character by character,
  with lemmas about where a marker can occur in a concatenation.
- `Http` holds the request vocabulary: methods, parameter position, parameter values and
  dictionaries, the request record, the authentication provider's two operations, and
  the call result.
- `Shaping` holds the per-endpoint path and parameter building and the candle
  transposition.
- `Kuna` holds the class `KunaClient`. Its mutable fields `postParametersPosition` and
  `requestBodyFormat` are written by `GetUrl` and the constructor and read by
  `ConstructRequest`.

Collaborators whose code is not part of this model are function-valued parameters of the
client. Each is arbitrary, so every property proved holds whatever they compute:

- the provider's `AddAuthenticationToParameters` and `AddAuthenticationToHeaders`;
- `CreateParamString`;
- `Uri.PathAndQuery`.

## Model

| member | source | states |
|---|---|---|
| Kuna.KunaClient.constructor | Kuna.Net/KunaClient.cs:26-30 | The client keeps its base address, provider and helpers; parameters start in the URI and bodies start as JSON. |
| Kuna.KunaClient.GetUrl | Kuna.Net/KunaClient.cs:270-282 | With a version: the field becomes `InBody` and the URL is `https://api.kuna.io/v` + version + `/` + endpoint. Without one: the field becomes `InUri` and the URL is base address + endpoint. Only that field changes. |
| Kuna.VersionedUrlNamesVersion | Kuna.Net/KunaClient.cs:280 | A versioned URL contains `"v" + version`, so every version-3 URL takes the header-signing branch. |
| Kuna.V3UrlHasV2OnlyInEndpoint | Kuna.Net/KunaClient.cs:235 | A version-3 URL contains `"v2"` exactly when its endpoint does; the fixed part never triggers parameter signing. |
| Kuna.QueryKeepsMarker | Kuna.Net/KunaClient.cs:243 | Appending `"?"` and a query keeps every marker the URI already contained. |
| Kuna.KunaClient.ConstructRequest | Kuna.Net/KunaClient.cs:229-268 | Missing parameters become an empty dictionary. Parameters are signed iff the URI contains `"v2"`, there is a provider and the call is signed; otherwise they are left as given. The query string is appended iff (GET, DELETE or field `InUri`) and the parameters are non-empty; otherwise the URI is unchanged. A body with the format's content type is written iff POST/PUT and the field is not `InUri`. Query and body are never both present. Headers are the provider's for the final URI when it contains `"v3"`, whatever the signed flag; with no provider there are none and nothing is signed. |
| Kuna.KunaClient.SignForV2 | Kuna.Net/KunaClient.cs:235-239 | The signing step yields the provider's dictionary exactly when the signing condition holds, and the caller's dictionary untouched otherwise. |
| Kuna.KunaClient.AppendQuery | Kuna.Net/KunaClient.cs:241-244 | The query step appends `"?" + CreateParamString(parameters)` exactly when the placement rule holds and the dictionary is non-empty. |
| Kuna.KunaClient.AttachAuthHeaders | Kuna.Net/KunaClient.cs:250-261 | The header step adds the provider's headers, in order, exactly for v3 URIs when there is a provider; nothing else changes. |
| Kuna.AddHeaders | Kuna.Net/KunaClient.cs:255-258 | The header loop appends every header, in order, and changes nothing else in the request. |
| Http.ContentType | Kuna.Net/KunaClient.cs:264 | The body's content type is the JSON header exactly when the body format is JSON, and the form header for a form body. |
| Http.AddOptional | Kuna.Net/KunaClient.cs:79-80 | An optional parameter is inserted exactly when it has a value; every other entry is kept. |
| Shaping.BuildOrdersPath | Kuna.Net/KunaClient.cs:99-110 | The statements that grow the order path compute `OrdersPath`: the endpoint, the market when non-empty, then `hist` for Done or Cancel. |
| Shaping.OrdersPathShape | Kuna.Net/KunaClient.cs:99-110 | The order path starts with endpoint + market. It equals that prefix exactly for states other than Done and Cancel. For those two it ends in `/hist`, adding `hist` after a trailing slash and `/hist` otherwise. |
| Shaping.OrdersPathNoDoubleSlash | Kuna.Net/KunaClient.cs:104-110 | Adding `hist` never creates a doubled slash. |
| Shaping.SortCode | Kuna.Net/KunaClient.cs:121-122 | The sort code is -1 exactly for descending and 1 exactly for ascending. |
| Shaping.OrdersParameters | Kuna.Net/KunaClient.cs:114-122 | `start`, `end`, `limit` and `sort` are each present iff their argument has a value, with the timestamp in milliseconds, the limit as given and the sort code; no other key. |
| Shaping.ClampedLimit | Kuna.Net/KunaClient.cs:81-84 | The trade limit sent is the minimum of the requested limit and 1000, so values up to 1000, negatives included, pass through unchanged. |
| Shaping.TradesParameters | Kuna.Net/KunaClient.cs:74-85 | The trade parameters always hold `market`, `order_by` and the clamped `limit`. `timestamp` (in seconds), `from` and `to` are present iff given. There is no other key. The same statements appear at lines 184-195. |
| Kuna.KunaClient.GetTradesV2Request | Kuna.Net/KunaClient.cs:72-88 | Builds an unsigned GET to base address + `trades` with the shaped parameters in the query string and no body. |
| Kuna.KunaClient.GetMyTradesV2Request | Kuna.Net/KunaClient.cs:182-197 | Builds a signed GET to base address + `trades/my`. The parameters are re-signed iff the base address makes the URL a v2 one and there is a provider. |
| Kuna.KunaClient.GetOrderBookV2Request | Kuna.Net/KunaClient.cs:64-69 | Builds an unsigned GET with exactly `market` and `limit` as given; the limit is not clamped. |
| Kuna.KunaClient.GetOrdersRequest | Kuna.Net/KunaClient.cs:97-125 | Builds a signed POST to the version-3 order path with the parameters in the body and no query. It carries the provider's headers whenever there is a provider. It is re-signed as v2 only when the market name itself contains `"v2"`. The body holds the dictionary actually sent: the provider's signed one when re-signed, the shaped parameters otherwise. |
| Kuna.KunaClient.GetCandlesHistoryV2Request | Kuna.Net/KunaClient.cs:199-202 | Builds an unsigned GET to `v3/tv/history` with symbol, resolution and the two instants in seconds in the query string. Being a v3 URL, it carries the provider's headers although it is unsigned. |
| Shaping.TransposeCandles | Kuna.Net/KunaClient.cs:203-214 | A failed call gives no data and passes its error on. A success without data raises a null reference. A success whose columns are all as long as the closes gives one candle per close, row `i` from index `i` of every column. Otherwise the column indexer raises an argument-out-of-range error. |
| Text.ContainsIff | Kuna.Net/KunaClient.cs:235 | The scanning `Contains` holds exactly when the marker occurs at some index. |
| Text.ContainsPairConcat | Kuna.Net/KunaClient.cs:250 | A two-character marker occurs in `a + b` exactly when it occurs in `a`, in `b`, or across the join. |

## Left out

- `SendRequest`, `RequestFactory.Create`, `WriteParamBody` and the task plumbing belong to the base library, which is not part of this model. The endpoint operations assume `SendRequest` passes its arguments straight to `ConstructRequest`. A body is recorded as the dictionary and content type `WriteParamBody` receives.
- The base library's fail-fast check is not modelled: a signed call on a client without credentials ends with a configuration error before any request is built. The `authProvider.None?` cases of `GetOrdersRequest` and `GetMyTradesV2Request` therefore describe requests that are never sent.
- Calls on one client are assumed not to interleave between `GetUrl` and `ConstructRequest`. The model is sequential. Two concurrent calls on one client share `postParametersPosition`, so one can place its parameters by the other call's version; the model does not capture that.
- The signing and header computation of `KunaAuthenticationProvider` is not modelled. Its two operations are arbitrary functions of the values the client passes them.
- `CreateParamString` and `Uri.PathAndQuery` are arbitrary functions. The normalisation that `new Uri(...)` and `ToString()` apply to URL text is not modelled: a URI is the string it was built from.
- The JSON timestamp converters are not modelled. A serialized instant is the symbolic value `Timestamp(instant, unit)`.
- `Dictionary` insertion order is not modelled; parameters are a map. The duplicate-key exception of `Add` cannot arise in the modelled endpoints, whose keys are distinct.
- Null strings are not modelled: a null market is the empty string, which `GetOrdersAsync` treats alike.
- BuildOrdersPath: the `EndsWith("/")` test compares character by character, while .NET compares it by the current culture. Under culture comparison a market ending in `/` and then an ignorable character (a soft hyphen, say) ends with `/`, and the source appends `hist` with no slash; the model appends `/hist`.
- TransposeCandles: the payload's columns are never null. In the source a success whose `Closes` is null, or whose other columns are null while `Closes` is non-empty, raises a null reference; the model raises it only for a missing payload.
- Default argument values are not modelled; every argument is explicit. The dropped defaults are `limit = 1000` of `GetOrderBookV2Async`, and `limit = 1000` and `sort = "desc"` of `GetTradesV2Async` and `GetMyTradesV2Async`.
- The parameterless constructor takes its defaults from the base class, which is not part of this model.
- `KunaOrderState` members other than `Done` and `Cancel` are one value, `Other`, because the client only tells those two apart.
- `FillPathParameter` is a base-library helper that fills a path template. It is not part of this model, and neither are `GetMarketInfoV2Async` and the symbol overload of `GetOrderBookV2Async`, which call it.
- These endpoints shape requests too but lie outside the modelled core:
  - `PlaceOrderV2Async` and `CancelOrderV2Async`, signed POSTs to unversioned URLs whose parameters therefore go into the query string;
  - `GetMyOrdersV2Async`, `GetOrderInfoV2Async` and `GetOrderTradesAsync`;
  - `GetTickersAsync`, which sends `symbols`, or `ALL` when none are given.
- `GetAccountInfoV2Async`, `GeMarketsV2Async` and `GetCurrenciesV2Async` send no parameters and only forward the result; they are not modelled.
- The private `GetTickers` and `GetOrderBook` overloads only throw `NotImplementedException` and are not modelled.
- Not modelled because they are library formatting and parsing: the decimal formatting of `PlaceOrderV2Async` and the server-time parsing of `GetServerTimeV2Async`.
- Kuna.Net/Objects/V4/KunaOrderV4.cs declares data properties only and is not modelled.
