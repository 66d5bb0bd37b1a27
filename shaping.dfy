/**
 * Per-endpoint request shaping done by KunaClient before a request is sent: the
 * order-history path, the optional parameters of the order query, the trade-limit clamp
 * and the trade parameters, and the transposition of a columnar candle response into
 * one record per timestamp.
 */
module Shaping {
  import opened Text
  import opened Http

  const OrdersEndpoint := "auth/r/orders/"

  /** The largest page the trade endpoints ask for. */
  const MaxTradeLimit: int32 := 1000

  /**
   * KunaOrderState. Only Done and Cancel are told apart by the client; every other
   * member of the enumeration is treated alike and is represented by Other.
   */
  datatype OrderState = Done | Cancel | Other

  /** The states whose orders are listed under the "hist" path. */
  predicate IsHistory(state: OrderState) {
    state == Done || state == Cancel
  }

  /** Appends `segment` to `path` with one separating slash, reusing a trailing one. */
  function JoinSegment(path: string, segment: string): string {
    if EndsWith(path, "/") then path + segment else path + "/" + segment
  }

  /**
   * The path of the order query: the orders endpoint, then the market (null and empty
   * are alike), then "hist" for closed orders.
   */
  function OrdersPath(state: OrderState, market: string): string {
    var prefix := OrdersEndpoint + market;
    if IsHistory(state) then JoinSegment(prefix, "hist") else prefix
  }

  /** The path-building statements of GetOrdersAsync. */
  method BuildOrdersPath(state: OrderState, market: string) returns (endpoint: string)
    ensures endpoint == OrdersPath(state, market)
  {
    endpoint := OrdersEndpoint;
    if market != "" {
      endpoint := endpoint + market;
    }
    if state == Done || state == Cancel {
      if !EndsWith(endpoint, "/") {
        endpoint := endpoint + "/";
      }
      endpoint := endpoint + "hist";
    }
  }

  /**
   * The order path starts with the endpoint and the market; it is exactly that for open
   * orders; for closed orders it ends in "/hist", adding "hist" alone after a trailing
   * slash and "/hist" otherwise.
   */
  lemma OrdersPathShape(state: OrderState, market: string)
    ensures var prefix, path := OrdersEndpoint + market, OrdersPath(state, market);
      && StartsWith(path, prefix)
      && (!IsHistory(state) <==> path == prefix)
      && (IsHistory(state) ==> EndsWith(path, "/hist"))
      && (IsHistory(state) && EndsWith(prefix, "/") ==> path == prefix + "hist")
      && (IsHistory(state) && !EndsWith(prefix, "/") ==> path == prefix + "/hist")
  {
    var prefix := OrdersEndpoint + market;
    var path := OrdersPath(state, market);
    if IsHistory(state) {
      assert |path| > |prefix|;
      if EndsWith(prefix, "/") {
        assert path[|path| - 5..] == prefix[|prefix| - 1..] + "hist";
      } else {
        assert path == prefix + "/hist";
      }
    }
  }

  /** The order path has a doubled slash only when the endpoint and market already do. */
  lemma OrdersPathNoDoubleSlash(state: OrderState, market: string)
    requires !Contains(OrdersEndpoint + market, "//")
    ensures !Contains(OrdersPath(state, market), "//")
  {
    var prefix := OrdersEndpoint + market;
    if IsHistory(state) {
      PairAbsentWithoutFirst("hist", '/', '/');
      if EndsWith(prefix, "/") {
        assert prefix[|prefix| - 1..] == [prefix[|prefix| - 1]];
        ContainsPairConcat(prefix, "hist", '/', '/');
      } else {
        assert prefix != [] ==> prefix[|prefix| - 1..] == [prefix[|prefix| - 1]];
        assert !Contains("/", "//");
        ContainsPairConcat(prefix, "/", '/', '/');
        ContainsPairConcat(prefix + "/", "hist", '/', '/');
      }
    }
  }

  /** The sort code sent to the order query: -1 for descending, 1 for ascending. */
  function SortCode(descending: bool): (code: int)
    ensures code == -1 <==> descending
    ensures code == 1 <==> !descending
  {
    if descending then -1 else 1
  }

  /** The parameters of the order query, each present exactly when its argument is. */
  predicate OrdersParametersShape(
    parameters: Params, from: Option<int>, to: Option<int>, limit: Option<int32>, sortDesc: Option<bool>)
  {
    && parameters.Keys <= {"start", "end", "limit", "sort"}
    && ("start" in parameters <==> from.Some?)
    && (from.Some? ==> parameters["start"] == Timestamp(from.value, Milliseconds))
    && ("end" in parameters <==> to.Some?)
    && (to.Some? ==> parameters["end"] == Timestamp(to.value, Milliseconds))
    && ("limit" in parameters <==> limit.Some?)
    && (limit.Some? ==> parameters["limit"] == Number(limit.value as int))
    && ("sort" in parameters <==> sortDesc.Some?)
    && (sortDesc.Some? ==> parameters["sort"] == Number(SortCode(sortDesc.value)))
  }

  /** The parameter-filling statements of GetOrdersAsync. */
  method OrdersParameters(from: Option<int>, to: Option<int>, limit: Option<int32>, sortDesc: Option<bool>)
    returns (parameters: Params)
    ensures OrdersParametersShape(parameters, from, to, limit, sortDesc)
  {
    parameters := map[];
    if from.Some? {
      parameters := AddOptional(parameters, "start", Some(Timestamp(from.value, Milliseconds)));
    }
    if to.Some? {
      parameters := AddOptional(parameters, "end", Some(Timestamp(to.value, Milliseconds)));
    }
    if limit.Some? {
      parameters := AddOptional(parameters, "limit", Some(Number(limit.value as int)));
    }
    if sortDesc.Some? {
      parameters := AddOptional(parameters, "sort", Some(Number(if sortDesc.value then -1 else 1)));
    }
  }

  /** The page size the trade endpoints send: the requested one, capped at MaxTradeLimit. */
  function ClampedLimit(limit: int32): (sent: int32)
    ensures sent <= MaxTradeLimit && sent <= limit
    ensures sent == limit || sent == MaxTradeLimit
  {
    if limit > MaxTradeLimit then MaxTradeLimit else limit
  }

  /**
   * The parameters of the trade endpoints: market and order always, the timestamp and
   * the id bounds when given, and the clamped limit always.
   */
  predicate TradesParametersShape(
    parameters: Params, market: string, sort: string, toDate: Option<int>,
    fromId: Option<int64>, toId: Option<int64>, limit: int32)
  {
    && parameters.Keys <= {"market", "order_by", "timestamp", "from", "to", "limit"}
    && "market" in parameters && parameters["market"] == Str(market)
    && "order_by" in parameters && parameters["order_by"] == Str(sort)
    && ("timestamp" in parameters <==> toDate.Some?)
    && (toDate.Some? ==> parameters["timestamp"] == Timestamp(toDate.value, Seconds))
    && ("from" in parameters <==> fromId.Some?)
    && (fromId.Some? ==> parameters["from"] == Number(fromId.value as int))
    && ("to" in parameters <==> toId.Some?)
    && (toId.Some? ==> parameters["to"] == Number(toId.value as int))
    && "limit" in parameters && parameters["limit"] == Number(ClampedLimit(limit) as int)
  }

  /** The parameter-building statements shared by GetTradesV2Async and GetMyTradesV2Async. */
  method TradesParameters(
    market: string, sort: string, toDate: Option<int>, fromId: Option<int64>, toId: Option<int64>, limit: int32)
    returns (parameters: Params)
    ensures TradesParametersShape(parameters, market, sort, toDate, fromId, toId, limit)
    ensures parameters != map[]
  {
    parameters := map["market" := Str(market), "order_by" := Str(sort)];
    if toDate.Some? {
      parameters := AddOptional(parameters, "timestamp", Some(Timestamp(toDate.value, Seconds)));
    }
    assert parameters.Keys <= {"market", "order_by", "timestamp"};
    assert parameters["market"] == Str(market) && parameters["order_by"] == Str(sort);
    parameters := AddOptional(parameters, "from", if fromId.Some? then Some(Number(fromId.value as int)) else None);
    parameters := AddOptional(parameters, "to", if toId.Some? then Some(Number(toId.value as int)) else None);
    assert parameters["market"] == Str(market) && parameters["order_by"] == Str(sort);
    var sentLimit := limit;
    if sentLimit > 1000 {
      sentLimit := 1000;
    }
    parameters := AddOptional(parameters, "limit", Some(Number(sentLimit as int)));
  }

  /** The columnar candle payload (TradingView style): one list per field. */
  datatype TradingViewOhclv = TradingViewOhclv(
    timestamps: seq<int>, opens: seq<real>, highs: seq<real>, lows: seq<real>,
    closes: seq<real>, volumes: seq<real>)

  /** One candle: KunaOhclvV2. */
  datatype Candle = Candle(timestamp: int, open: real, high: real, low: real, close: real, volume: real)

  /**
   * The exceptions the transposition loop can raise: a null payload, and the column
   * indexer's ArgumentOutOfRangeException for a row past the end of a column.
   */
  datatype Exception = NullReference | ArgumentOutOfRange

  /** What GetCandlesHistoryV2Async ends with: a call result, or an exception it raised. */
  datatype CandlesOutcome = Returned(result: CallResult<seq<Candle>>) | Threw(exception: Exception)

  /** Every column has an entry for each close price. */
  predicate ColumnsCoverCloses(t: TradingViewOhclv) {
    && |t.closes| <= |t.timestamps|
    && |t.closes| <= |t.opens|
    && |t.closes| <= |t.highs|
    && |t.closes| <= |t.lows|
    && |t.closes| <= |t.volumes|
  }

  /** The candle assembled from row `i` of the columns. */
  function CandleAt(t: TradingViewOhclv, i: nat): Candle
    requires ColumnsCoverCloses(t) && i < |t.closes|
  {
    Candle(t.timestamps[i], t.opens[i], t.highs[i], t.lows[i], t.closes[i], t.volumes[i])
  }

  /**
   * The reshaping loop of GetCandlesHistoryV2Async. A failed call passes its error on with
   * no data; a successful one yields one candle per close price, row by row, provided
   * every column is long enough, and otherwise raises the indexer's exception.
   */
  method TransposeCandles(response: CallResult<TradingViewOhclv>) returns (outcome: CandlesOutcome)
    ensures !response.Success() ==> outcome == Returned(CallResult(None, response.error))
    ensures response.Success() && response.data.None? ==> outcome == Threw(NullReference)
    ensures response.Success() && response.data.Some? && !ColumnsCoverCloses(response.data.value) ==>
      outcome == Threw(ArgumentOutOfRange)
    ensures response.Success() && response.data.Some? && ColumnsCoverCloses(response.data.value) ==>
      var t := response.data.value;
      && outcome.Returned?
      && outcome.result.error.None?
      && outcome.result.data.Some?
      && |outcome.result.data.value| == |t.closes|
      && forall i :: 0 <= i < |t.closes| ==> outcome.result.data.value[i] == CandleAt(t, i)
  {
    var data: Option<seq<Candle>> := None;
    if response.Success() {
      if response.data.None? {
        return Threw(NullReference);
      }
      var t := response.data.value;
      var candles: seq<Candle> := [];
      for i := 0 to |t.closes|
        invariant |candles| == i
        invariant i <= |t.timestamps| && i <= |t.opens| && i <= |t.highs| && i <= |t.lows| && i <= |t.volumes|
        invariant forall k :: 0 <= k < i ==>
          candles[k] == Candle(t.timestamps[k], t.opens[k], t.highs[k], t.lows[k], t.closes[k], t.volumes[k])
      {
        if i >= |t.timestamps| || i >= |t.opens| || i >= |t.highs| || i >= |t.lows| || i >= |t.volumes| {
          return Threw(ArgumentOutOfRange);
        }
        candles := candles + [Candle(t.timestamps[i], t.opens[i], t.highs[i], t.lows[i], t.closes[i], t.volumes[i])];
      }
      data := Some(candles);
    }
    outcome := Returned(CallResult(data, response.error));
  }
}
