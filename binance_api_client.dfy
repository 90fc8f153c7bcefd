/**
 * The client's endpoint table. Each public method of the client is one
 * constructor of `Endpoint`; `Prepare` performs the method's client-side
 * argument checks and builds the parameter object it sends, `ShapeOf` names
 * the response interface the method casts the data to, and `Invoke` runs the
 * whole method against a transport.
 */
module BinanceApiClient {
  import opened JsValues
  import opened ClientConfig
  import opened Utils
  import opened Requests
  import opened OrderTypes

  /** The arguments of createOrder and testOrder, in declaration order. */
  datatype OrderArgs = OrderArgs(
    symbol: string,
    side: OrderSide,
    orderType: OrderType,
    timeInForce: Option<TimeInForce>,
    quantity: Option<real>,
    quoteOrderQty: Option<real>,
    price: Option<real>,
    newClientOrderId: Option<string>,
    stopPrice: Option<real>,
    icebergQty: Option<real>,
    newOrderRespType: Option<OrderResponseType>,
    recvWindow: Option<real>,
    timestamp: Option<real>)

  /** The arguments of newOCOOrder, in declaration order. */
  datatype OcoArgs = OcoArgs(
    symbol: string,
    side: OrderSide,
    quantity: real,
    price: real,
    listClientOrderId: Option<string>,
    limitClientOrderId: Option<string>,
    limitIcebergQty: Option<real>,
    stopClientOrderId: Option<string>,
    stopPrice: Option<real>,
    stopLimitPrice: Option<real>,
    stopIcebergQty: Option<real>,
    stopLimitTimeInForce: Option<TimeInForce>,
    newOrderRespType: Option<OrderResponseType>,
    recvWindow: Option<real>,
    timestamp: Option<real>)

  /** One call of a public client method, with its arguments (`None` = omitted). */
  datatype Endpoint =
    | Ping
    | GetServerTime
    | GetExchangeInfo(symbols: Option<seq<string>>)
    | GetOrderBook(symbol: string, depthLimit: Option<OrderBookLimit>)
    | GetRecentTrades(symbol: string, limit: Option<real>)
    | GetHistoricalTrades(symbol: string, limit: Option<real>, fromId: Option<real>)
    | GetAggregateTrades(symbol: string, limit: Option<real>, fromId: Option<real>,
                         startTime: Option<real>, endTime: Option<real>)
    | GetKLines(symbol: string, interval: KLineInterval, limit: Option<real>,
                startTime: Option<real>, endTime: Option<real>)
    | GetAveragePrice(symbol: string)
    | Get24HourTickerPrice(optSymbol: Option<string>)
    | GetTickerPrice(optSymbol: Option<string>)
    | GetTickerOrderBook(optSymbol: Option<string>)
    | CreateOrder(order: OrderArgs)
    | TestOrder(order: OrderArgs)
    | GetOrder(symbol: string, orderId: Option<real>, origClientOrderId: Option<string>,
               recvWindow: Option<real>, timestamp: Option<real>)
    | CancelOrder(symbol: string, orderId: Option<real>, origClientOrderId: Option<string>,
                  newClientOrderId: Option<string>, recvWindow: Option<real>, timestamp: Option<real>)
    | CancelAllOrders(symbol: string, recvWindow: Option<real>, timestamp: Option<real>)
    | GetOpenOrders(optSymbol: Option<string>, recvWindow: Option<real>, timestamp: Option<real>)
    | GetAllOrders(symbol: string, limit: Option<real>, orderId: Option<real>, startTime: Option<real>,
                   endTime: Option<real>, recvWindow: Option<real>, timestamp: Option<real>)
    | NewOcoOrder(oco: OcoArgs)
    | CancelOcoOrder(symbol: string, orderListId: Option<real>, listClientOrderId: Option<string>,
                     newClientOrderId: Option<string>, recvWindow: Option<real>, timestamp: Option<real>)
    | QueryOcoOrder(orderListId: Option<real>, listClientOrderId: Option<string>,
                    recvWindow: Option<real>, timestamp: Option<real>)
    | QueryAllOcoOrders(fromId: Option<real>, startTime: Option<real>, endTime: Option<real>,
                        limit: Option<real>, recvWindow: Option<real>, timestamp: Option<real>)
    | QueryAllOpenOcoOrders(recvWindow: Option<real>, timestamp: Option<real>)
    | GetAccountInformations(recvWindow: Option<real>, timestamp: Option<real>)
    | GetAccountTradeList(recvWindow: Option<real>, timestamp: Option<real>)
    | StartUserDataStream
    | KeepaliveUserDataStream(listenKey: string)
    | CloseUserDataStream(listenKey: string)

  /** The request each method creates: HTTP method, endpoint path, signed or not. */
  function RequestOf(e: Endpoint): Request {
    match e
    case Ping => Request(Get, "/api/v3/ping", false)
    case GetServerTime => Request(Get, "/api/v3/time", false)
    case GetExchangeInfo(_) => Request(Get, "/api/v3/exchangeInfo", false)
    case GetOrderBook(_, _) => Request(Get, "/api/v3/depth", false)
    case GetRecentTrades(_, _) => Request(Get, "/api/v3/trades", false)
    case GetHistoricalTrades(_, _, _) => Request(Get, "/api/v3/historicalTrades", false)
    case GetAggregateTrades(_, _, _, _, _) => Request(Get, "/api/v3/aggTrades", false)
    case GetKLines(_, _, _, _, _) => Request(Get, "/api/v3/klines", false)
    case GetAveragePrice(_) => Request(Get, "/api/v3/avgPrice", false)
    case Get24HourTickerPrice(_) => Request(Get, "/api/v3/ticker/24hr", false)
    case GetTickerPrice(_) => Request(Get, "/api/v3/ticker/price", false)
    case GetTickerOrderBook(_) => Request(Get, "/api/v3/ticker/bookTicker", false)
    case CreateOrder(_) => Request(Post, "/api/v3/order", true)
    case TestOrder(_) => Request(Post, "/api/v3/order/test", true)
    case GetOrder(_, _, _, _, _) => Request(Get, "/api/v3/order", true)
    case CancelOrder(_, _, _, _, _, _) => Request(Delete, "/api/v3/order", true)
    case CancelAllOrders(_, _, _) => Request(Delete, "/api/v3/openOrders", true)
    case GetOpenOrders(_, _, _) => Request(Get, "/api/v3/openOrders", true)
    case GetAllOrders(_, _, _, _, _, _, _) => Request(Get, "/api/v3/allOrders", true)
    case NewOcoOrder(_) => Request(Post, "/api/v3/order/oco", true)
    case CancelOcoOrder(_, _, _, _, _, _) => Request(Delete, "/api/v3/orderList", true)
    case QueryOcoOrder(_, _, _, _) => Request(Get, "/api/v3/orderList", true)
    case QueryAllOcoOrders(_, _, _, _, _, _) => Request(Get, "/api/v3/allOrderList", true)
    case QueryAllOpenOcoOrders(_, _) => Request(Get, "/api/v3/openOrderList", true)
    case GetAccountInformations(_, _) => Request(Get, "/api/v3/account", true)
    case GetAccountTradeList(_, _) => Request(Get, "/api/v3/rateLimit/order", true)
    case StartUserDataStream => Request(Post, "/api/v3/userDataStream", false)
    case KeepaliveUserDataStream(_) => Request(Put, "/api/v3/userDataStream", false)
    case CloseUserDataStream(_) => Request(Delete, "/api/v3/userDataStream", false)
  }

  // ----- createOrder / testOrder: required arguments per order type -----

  /** The outcome of a client-side argument check. */
  datatype Check = Pass | Fail(message: string)

  const LimitMessage: string := "One of the following argument is undefined: 'timeInForce', 'quantity' or 'price'"
  const MarketMessage: string := "Either 'quantity' or 'quoteOrderQty' must be given"
  const StopMessage: string := "One of the following argument is undefined: 'quantity' or 'stopPrice'"
  const StopLimitMessage: string :=
    "One of the following argument is undefined: 'timeInForce', 'quantity', 'price' or 'stopPrice'"
  const LimitMakerMessage: string := "One of the following argument is undefined: 'quantity' or 'price'"

  /** The optional order arguments whose presence is checked. */
  datatype OrderField = TimeInForceField | QuantityField | QuoteOrderQtyField | PriceField | StopPriceField

  /** Whether the caller supplied the argument `f`. */
  predicate IsGiven(o: OrderArgs, f: OrderField) {
    match f
    case TimeInForceField => o.timeInForce.Some?
    case QuantityField => o.quantity.Some?
    case QuoteOrderQtyField => o.quoteOrderQty.Some?
    case PriceField => o.price.Some?
    case StopPriceField => o.stopPrice.Some?
  }

  /** The arguments each order type must have (MARKET has its own either-or rule instead). */
  function RequiredFields(t: OrderType): set<OrderField> {
    match t
    case Limit => {TimeInForceField, QuantityField, PriceField}
    case Market => {}
    case StopLoss => {QuantityField, StopPriceField}
    case StopLossLimit => {TimeInForceField, QuantityField, PriceField, StopPriceField}
    case TakeProfit => {QuantityField, StopPriceField}
    case TakeProfitLimit => {TimeInForceField, QuantityField, PriceField, StopPriceField}
    case LimitMaker => {QuantityField, PriceField}
  }

  /** The error message each order type reports when its check fails. */
  function MissingMessage(t: OrderType): string {
    match t
    case Limit => LimitMessage
    case Market => MarketMessage
    case StopLoss => StopMessage
    case StopLossLimit => StopLimitMessage
    case TakeProfit => StopMessage
    case TakeProfitLimit => StopLimitMessage
    case LimitMaker => LimitMakerMessage
  }

  /**
   * The acceptance rule as a table: every required argument is given, and a
   * MARKET order has exactly one of `quantity` and `quoteOrderQty`.
   */
  predicate Complete(o: OrderArgs) {
    && (forall f :: f in RequiredFields(o.orderType) ==> IsGiven(o, f))
    && (o.orderType == Market ==> IsGiven(o, QuantityField) != IsGiven(o, QuoteOrderQtyField))
  }

  /** `(a !== undefined && b === undefined) || (a === undefined && b !== undefined)`. */
  function ExactlyOneGiven(aGiven: bool, bGiven: bool): (r: bool)
    ensures r <==> aGiven != bGiven
  {
    (aGiven && bGiven == false) || (aGiven == false && bGiven)
  }

  /** The `switch (type)` that createOrder and testOrder both run before any request. */
  function ValidateOrder(o: OrderArgs): (r: Check)
    ensures r.Pass? <==> Complete(o)
    ensures r.Fail? ==> r.message == MissingMessage(o.orderType)
  {
    assert IsGiven(o, TimeInForceField) == o.timeInForce.Some? && IsGiven(o, PriceField) == o.price.Some?
      && IsGiven(o, QuantityField) == o.quantity.Some? && IsGiven(o, StopPriceField) == o.stopPrice.Some?;
    match o.orderType
    case Limit =>
      if o.timeInForce.None? || o.quantity.None? || o.price.None? then Fail(LimitMessage) else Pass
    case Market =>
      if !ExactlyOneGiven(o.quantity.Some?, o.quoteOrderQty.Some?) then Fail(MarketMessage) else Pass
    case StopLoss =>
      if o.quantity.None? || o.stopPrice.None? then Fail(StopMessage) else Pass
    case StopLossLimit =>
      if o.timeInForce.None? || o.quantity.None? || o.price.None? || o.stopPrice.None? then Fail(StopLimitMessage)
      else Pass
    case TakeProfit =>
      if o.quantity.None? || o.stopPrice.None? then Fail(StopMessage) else Pass
    case TakeProfitLimit =>
      if o.timeInForce.None? || o.quantity.None? || o.price.None? || o.stopPrice.None? then Fail(StopLimitMessage)
      else Pass
    case LimitMaker =>
      if o.quantity.None? || o.price.None? then Fail(LimitMakerMessage) else Pass
  }

  /** The requirements of each order type, spelled out argument by argument. */
  lemma OrderRequirements(o: OrderArgs)
    ensures o.orderType == Limit ==>
      (ValidateOrder(o).Pass? <==> o.timeInForce.Some? && o.quantity.Some? && o.price.Some?)
    ensures o.orderType == Market ==>
      (ValidateOrder(o).Pass? <==> (o.quantity.Some? != o.quoteOrderQty.Some?))
    ensures o.orderType in {StopLoss, TakeProfit} ==>
      (ValidateOrder(o).Pass? <==> o.quantity.Some? && o.stopPrice.Some?)
    ensures o.orderType in {StopLossLimit, TakeProfitLimit} ==>
      (ValidateOrder(o).Pass? <==>
        o.timeInForce.Some? && o.quantity.Some? && o.price.Some? && o.stopPrice.Some?)
    ensures o.orderType == LimitMaker ==>
      (ValidateOrder(o).Pass? <==> o.quantity.Some? && o.price.Some?)
  {
  }

  // ----- "exactly one identifier" checks -----

  const OrderIdMessage: string := "Either 'orderId' or 'origClientOrderId' must be given"
  const OrderListIdMessage: string := "Either 'orderListId' or 'listClientOrderId' must be given"

  /** The identifier check of getOrder and cancelOrder. */
  function CheckOrderIdentifier(orderId: Option<real>, origClientOrderId: Option<string>): (r: Check)
    ensures r.Pass? <==> (orderId.Some? != origClientOrderId.Some?)
    ensures r.Fail? ==> r.message == OrderIdMessage
  {
    if !ExactlyOneGiven(orderId.Some?, origClientOrderId.Some?) then Fail(OrderIdMessage) else Pass
  }

  /** The identifier check of cancelOCOOrder and queryOCOOrder. */
  function CheckOrderListIdentifier(orderListId: Option<real>, listClientOrderId: Option<string>): (r: Check)
    ensures r.Pass? <==> (orderListId.Some? != listClientOrderId.Some?)
    ensures r.Fail? ==> r.message == OrderListIdMessage
  {
    if !ExactlyOneGiven(orderListId.Some?, listClientOrderId.Some?) then Fail(OrderListIdMessage) else Pass
  }

  // ----- parameter records -----

  /** `timestamp !== undefined ? timestamp : Date.now()`, with the clock reading passed in. */
  function Stamp(timestamp: Option<real>, now: nat): Value {
    Num(OrDefault(timestamp, now as real))
  }

  function OptTimeInForce(t: Option<TimeInForce>): Value {
    if t.Some? then Str(t.value.name) else Undefined
  }

  function OptResponseType(t: Option<OrderResponseType>): Value {
    if t.Some? then Str(t.value.Name()) else Undefined
  }

  function OptSymbols(symbols: Option<seq<string>>): Value {
    if symbols.Some? then Arr(seq(|symbols.value|, i requires 0 <= i < |symbols.value| => Str(symbols.value[i])))
    else Undefined
  }

  /** The object createOrder and testOrder send. */
  function OrderParameters(o: OrderArgs, now: nat): Params {
    [ ("symbol", Str(o.symbol)),
      ("side", Str(o.side.Name())),
      ("type", Str(o.orderType.Name())),
      ("timeInForce", OptTimeInForce(o.timeInForce)),
      ("quantity", OptNum(o.quantity)),
      ("quoteOrderQty", OptNum(o.quoteOrderQty)),
      ("price", OptNum(o.price)),
      ("newClientOrderId", OptStr(o.newClientOrderId)),
      ("stopPrice", OptNum(o.stopPrice)),
      ("icebergQty", OptNum(o.icebergQty)),
      ("newOrderRespType", OptResponseType(o.newOrderRespType)),
      ("recvWindow", OptNum(o.recvWindow)),
      ("timestamp", Stamp(o.timestamp, now)) ]
  }

  /** The object newOCOOrder sends. */
  function OcoParameters(o: OcoArgs, now: nat): Params {
    [ ("symbol", Str(o.symbol)),
      ("listClientOrderId", OptStr(o.listClientOrderId)),
      ("side", Str(o.side.Name())),
      ("quantity", Num(o.quantity)),
      ("limitClientOrderId", OptStr(o.limitClientOrderId)),
      ("price", Num(o.price)),
      ("limitIcebergQty", OptNum(o.limitIcebergQty)),
      ("stopClientOrderId", OptStr(o.stopClientOrderId)),
      ("stopPrice", OptNum(o.stopPrice)),
      ("stopLimitPrice", OptNum(o.stopLimitPrice)),
      ("stopIcebergQty", OptNum(o.stopIcebergQty)),
      ("stopLimitTimeInForce", OptTimeInForce(o.stopLimitTimeInForce)),
      ("newOrderRespType", OptResponseType(o.newOrderRespType)),
      ("recvWindow", OptNum(o.recvWindow)),
      ("timestamp", Stamp(o.timestamp, now)) ]
  }

  /** The object each method passes to `call`, for the methods that get as far as the request. */
  function ParametersOf(e: Endpoint, now: nat): Params {
    match e
    case Ping => []
    case GetServerTime => []
    case GetExchangeInfo(symbols) => [("symbols", OptSymbols(symbols))]
    case GetOrderBook(symbol, depthLimit) =>
      [("symbol", Str(symbol)), ("limit", Num(OrDefault(depthLimit, 100) as real))]
    case GetRecentTrades(symbol, limit) =>
      [("symbol", Str(symbol)), ("limit", Num(OrDefault(limit, 500.0)))]
    case GetHistoricalTrades(symbol, limit, fromId) =>
      [("symbol", Str(symbol)), ("limit", Num(OrDefault(limit, 500.0))), ("fromId", OptNum(fromId))]
    case GetAggregateTrades(symbol, limit, fromId, startTime, endTime) =>
      [ ("symbol", Str(symbol)), ("limit", Num(OrDefault(limit, 500.0))), ("fromId", OptNum(fromId)),
        ("startTime", OptNum(startTime)), ("endTime", OptNum(endTime)) ]
    case GetKLines(symbol, interval, limit, startTime, endTime) =>
      [ ("symbol", Str(symbol)), ("interval", Str(interval.name)), ("limit", Num(OrDefault(limit, 500.0))),
        ("startTime", OptNum(startTime)), ("endTime", OptNum(endTime)) ]
    case GetAveragePrice(symbol) => [("symbol", Str(symbol))]
    case Get24HourTickerPrice(optSymbol) => [("symbol", OptStr(optSymbol))]
    case GetTickerPrice(optSymbol) => [("symbol", OptStr(optSymbol))]
    case GetTickerOrderBook(optSymbol) => [("symbol", OptStr(optSymbol))]
    case CreateOrder(o) => OrderParameters(o, now)
    case TestOrder(o) => OrderParameters(o, now)
    case GetOrder(symbol, orderId, origClientOrderId, recvWindow, timestamp) =>
      [ ("symbol", Str(symbol)), ("orderId", OptNum(orderId)), ("origClientOrderId", OptStr(origClientOrderId)),
        ("recvWindow", OptNum(recvWindow)), ("timestamp", Stamp(timestamp, now)) ]
    case CancelOrder(symbol, orderId, origClientOrderId, newClientOrderId, recvWindow, timestamp) =>
      [ ("symbol", Str(symbol)), ("orderId", OptNum(orderId)), ("origClientOrderId", OptStr(origClientOrderId)),
        ("newClientOrderId", OptStr(newClientOrderId)), ("recvWindow", OptNum(recvWindow)),
        ("timestamp", Stamp(timestamp, now)) ]
    case CancelAllOrders(symbol, recvWindow, timestamp) =>
      [("symbol", Str(symbol)), ("recvWindow", OptNum(recvWindow)), ("timestamp", Stamp(timestamp, now))]
    case GetOpenOrders(optSymbol, recvWindow, timestamp) =>
      [("symbol", OptStr(optSymbol)), ("recvWindow", OptNum(recvWindow)), ("timestamp", Stamp(timestamp, now))]
    case GetAllOrders(symbol, limit, _, startTime, endTime, recvWindow, timestamp) =>
      // the orderId argument is accepted but never sent
      [ ("symbol", Str(symbol)), ("limit", Num(OrDefault(limit, 500.0))), ("startTime", OptNum(startTime)),
        ("endTime", OptNum(endTime)), ("recvWindow", OptNum(recvWindow)), ("timestamp", Stamp(timestamp, now)) ]
    case NewOcoOrder(o) => OcoParameters(o, now)
    case CancelOcoOrder(symbol, orderListId, listClientOrderId, newClientOrderId, recvWindow, timestamp) =>
      [ ("symbol", Str(symbol)), ("orderListId", OptNum(orderListId)),
        ("listClientOrderId", OptStr(listClientOrderId)), ("newClientOrderId", OptStr(newClientOrderId)),
        ("recvWindow", OptNum(recvWindow)), ("timestamp", Stamp(timestamp, now)) ]
    case QueryOcoOrder(orderListId, listClientOrderId, recvWindow, timestamp) =>
      [ ("orderListId", OptNum(orderListId)), ("listClientOrderId", OptStr(listClientOrderId)),
        ("recvWindow", OptNum(recvWindow)), ("timestamp", Stamp(timestamp, now)) ]
    case QueryAllOcoOrders(fromId, startTime, endTime, limit, recvWindow, timestamp) =>
      [ ("fromId", OptNum(fromId)), ("startTime", OptNum(startTime)), ("endTime", OptNum(endTime)),
        ("limit", OptNum(limit)), ("recvWindow", OptNum(recvWindow)), ("timestamp", Stamp(timestamp, now)) ]
    case QueryAllOpenOcoOrders(recvWindow, timestamp) =>
      [("recvWindow", OptNum(recvWindow)), ("timestamp", Stamp(timestamp, now))]
    case GetAccountInformations(recvWindow, timestamp) =>
      [("recvWindow", OptNum(recvWindow)), ("timestamp", Stamp(timestamp, now))]
    case GetAccountTradeList(recvWindow, timestamp) =>
      [("recvWindow", OptNum(recvWindow)), ("timestamp", Stamp(timestamp, now))]
    case StartUserDataStream => []
    case KeepaliveUserDataStream(listenKey) => [("listenKey", Str(listenKey))]
    case CloseUserDataStream(listenKey) => [("listenKey", Str(listenKey))]
  }

  /** The check a method runs before building its request (most run none). */
  function PreCheck(e: Endpoint): Check {
    match e
    case CreateOrder(o) => ValidateOrder(o)
    case TestOrder(o) => ValidateOrder(o)
    case GetOrder(_, orderId, origClientOrderId, _, _) => CheckOrderIdentifier(orderId, origClientOrderId)
    case CancelOrder(_, orderId, origClientOrderId, _, _, _) => CheckOrderIdentifier(orderId, origClientOrderId)
    case CancelOcoOrder(_, orderListId, listClientOrderId, _, _, _) =>
      CheckOrderListIdentifier(orderListId, listClientOrderId)
    case QueryOcoOrder(orderListId, listClientOrderId, _, _) =>
      CheckOrderListIdentifier(orderListId, listClientOrderId)
    case _ => Pass
  }

  /** Which calls the client lets through to the transport. */
  predicate Admissible(e: Endpoint) {
    match e
    case CreateOrder(o) => Complete(o)
    case TestOrder(o) => Complete(o)
    case GetOrder(_, orderId, origClientOrderId, _, _) => orderId.Some? != origClientOrderId.Some?
    case CancelOrder(_, orderId, origClientOrderId, _, _, _) => orderId.Some? != origClientOrderId.Some?
    case CancelOcoOrder(_, orderListId, listClientOrderId, _, _, _) => orderListId.Some? != listClientOrderId.Some?
    case QueryOcoOrder(orderListId, listClientOrderId, _, _) => orderListId.Some? != listClientOrderId.Some?
    case _ => true
  }

  /** What a method does before the transport: stop with an error, or send a request. */
  datatype Prepared = Reject(message: string) | Send(request: Request, parameters: Params)

  function Prepare(e: Endpoint, now: nat): (r: Prepared)
    ensures r.Reject? <==> !Admissible(e)
    ensures r.Send? ==> r.request == RequestOf(e) && r.parameters == ParametersOf(e, now)
  {
    var check := PreCheck(e);
    if check.Fail? then Reject(check.message) else Send(RequestOf(e), ParametersOf(e, now))
  }

  /** The timestamp argument of a signed method (`None` when omitted or for an unsigned method). */
  function SuppliedTimestamp(e: Endpoint): Option<real> {
    match e
    case CreateOrder(o) => o.timestamp
    case TestOrder(o) => o.timestamp
    case NewOcoOrder(o) => o.timestamp
    case GetOrder(_, _, _, _, t) => t
    case CancelOrder(_, _, _, _, _, t) => t
    case CancelAllOrders(_, _, t) => t
    case GetOpenOrders(_, _, t) => t
    case GetAllOrders(_, _, _, _, _, _, t) => t
    case CancelOcoOrder(_, _, _, _, _, t) => t
    case QueryOcoOrder(_, _, _, t) => t
    case QueryAllOcoOrders(_, _, _, _, _, t) => t
    case QueryAllOpenOcoOrders(_, t) => t
    case GetAccountInformations(_, t) => t
    case GetAccountTradeList(_, t) => t
    case _ => None
  }

  // ----- response shapes -----

  /** The response interface a method casts the data to (the cast itself checks nothing). */
  datatype Shape =
    | EmptyResponse | ServerTime | ExchangeInfo | OrderBook | Trades | AggregateTrades | KLines | AveragePrice
    | Ticker24h | Ticker24hList | PriceTicker | PriceTickerList | BookTicker | BookTickerList
    | NewOrderResponse(kind: OrderResponseType) | OrderInfo | OrdersOrOcoOrders | Orders
    | NewOcoOrderResponse(kind: OrderResponseType) | OcoOrder | OcoOrders
    | AccountInformation | OrderCountUsages | UserDataStream

  /**
   * createOrder's choice of response type: the requested one, or by default
   * FULL for MARKET and LIMIT orders and ACK for all others.
   */
  function CreateOrderResponseType(t: OrderType, requested: Option<OrderResponseType>): (k: OrderResponseType)
    ensures requested.Some? ==> k == requested.value
    ensures requested.None? ==> (k == Full <==> t in {Market, Limit})
    ensures requested.None? ==> (k == Ack <==> t !in {Market, Limit})
  {
    if requested.None? then
      if t == Market || t == Limit then Full else Ack
    else if requested.value == Ack then Ack
    else if requested.value == Result then Result
    else assert requested.value == Full; Full
  }

  /** newOCOOrder's choice: ACK and RESULT as requested, FULL otherwise (including when omitted). */
  function OcoResponseType(requested: Option<OrderResponseType>): (k: OrderResponseType)
    ensures requested == Some(Ack) ==> k == Ack
    ensures requested == Some(Result) ==> k == Result
    ensures requested != Some(Ack) && requested != Some(Result) ==> k == Full
  {
    if requested == Some(Ack) then Ack
    else if requested == Some(Result) then Result
    else Full
  }

  /**
   * The two selections agree whenever a response type is requested, and when
   * none is, they differ exactly for the order types other than MARKET and LIMIT.
   */
  lemma ResponseTypeSelectionsAgree(t: OrderType, requested: Option<OrderResponseType>)
    ensures requested.Some? ==> CreateOrderResponseType(t, requested) == OcoResponseType(requested)
    ensures requested.None? ==>
      (CreateOrderResponseType(t, requested) != OcoResponseType(requested) <==> t !in {Market, Limit})
  {
  }

  function ShapeOf(e: Endpoint): Shape {
    match e
    case Ping => EmptyResponse
    case GetServerTime => ServerTime
    case GetExchangeInfo(_) => ExchangeInfo
    case GetOrderBook(_, _) => OrderBook
    case GetRecentTrades(_, _) => Trades
    case GetHistoricalTrades(_, _, _) => Trades
    case GetAggregateTrades(_, _, _, _, _) => AggregateTrades
    case GetKLines(_, _, _, _, _) => KLines
    case GetAveragePrice(_) => AveragePrice
    case Get24HourTickerPrice(s) => if s.None? then Ticker24hList else Ticker24h
    case GetTickerPrice(s) => if s.None? then PriceTickerList else PriceTicker
    case GetTickerOrderBook(s) => if s.None? then BookTickerList else BookTicker
    case CreateOrder(o) => NewOrderResponse(CreateOrderResponseType(o.orderType, o.newOrderRespType))
    case TestOrder(_) => EmptyResponse
    case GetOrder(_, _, _, _, _) => OrderInfo
    case CancelOrder(_, _, _, _, _, _) => OrderInfo
    case CancelAllOrders(_, _, _) => OrdersOrOcoOrders
    case GetOpenOrders(_, _, _) => Orders
    case GetAllOrders(_, _, _, _, _, _, _) => Orders
    case NewOcoOrder(o) => NewOcoOrderResponse(OcoResponseType(o.newOrderRespType))
    case CancelOcoOrder(_, _, _, _, _, _) => OcoOrder
    case QueryOcoOrder(_, _, _, _) => OcoOrder
    case QueryAllOcoOrders(_, _, _, _, _, _) => OcoOrders
    case QueryAllOpenOcoOrders(_, _) => OcoOrders
    case GetAccountInformations(_, _) => AccountInformation
    case GetAccountTradeList(_, _) => OrderCountUsages
    case StartUserDataStream => UserDataStream
    case KeepaliveUserDataStream(_) => EmptyResponse
    case CloseUserDataStream(_) => EmptyResponse
  }

  // ----- running a method -----

  /**
   * What a client method resolves to: a `ResponseSuccess` with the data, a
   * `ResponseError` with a message, or a rejected promise.
   */
  datatype ClientResult = ResponseSuccess(shape: Shape, data: Value) | ResponseError(message: Value) | Rejected

  /**
   * One call of a client method: the check, then (if it passes) the request.
   * `sent` is the URL handed to the transport, `None` when no request was made.
   */
  method Invoke(client: Client, rt: Runtime, transport: Transport, now: nat, e: Endpoint)
    returns (sent: Option<string>, result: ClientResult)
    ensures !Admissible(e) ==> sent == None && result == ResponseError(Str(PreCheck(e).message))
    ensures Admissible(e) ==>
      var request := RequestOf(e);
      var url := RequestUrl(client, request, rt, ParametersOf(e, now));
      var t := transport(request.httpMethod, url, client.binanceApiKey);
      && sent == Some(url)
      && (t.Delivered? ==> result == ResponseSuccess(ShapeOf(e), t.data))
      && (t.Failed? && t.response.Some? ==> result == ResponseError(t.response.value))
      && (t.Failed? && t.response.None? ==> result == Rejected)
  {
    var prepared := Prepare(e, now);
    if prepared.Reject? {
      sent, result := None, ResponseError(Str(prepared.message));
      return;
    }
    var parameters := new JsObject(prepared.parameters);
    var url, outcome := Call(prepared.request, client, rt, transport, parameters);
    sent := Some(url);
    match outcome
    case CallError(message) =>
      result := ResponseError(message);
    case RawData(data) =>
      result := ResponseSuccess(ShapeOf(e), data);
    case CallThrew =>
      result := Rejected;
  }

  // ----- properties of the table -----

  /** testOrder accepts, rejects and sends exactly what createOrder does, only to another path. */
  lemma TestOrderMirrorsCreateOrder(o: OrderArgs, now: nat)
    ensures Prepare(TestOrder(o), now) ==
      match Prepare(CreateOrder(o), now)
      case Reject(m) => Reject(m)
      case Send(r, p) => Send(r.(endpoint := "/api/v3/order/test"), p)
    ensures RequestOf(CreateOrder(o)) == Request(Post, "/api/v3/order", true)
  {
  }

  /** The four identifier checks, with the messages they report. */
  lemma IdentifierChecks(e: Endpoint, now: nat)
    ensures (e.GetOrder? || e.CancelOrder?) ==>
      Prepare(e, now) == if e.orderId.Some? == e.origClientOrderId.Some? then Reject(OrderIdMessage)
                         else Send(RequestOf(e), ParametersOf(e, now))
    ensures (e.CancelOcoOrder? || e.QueryOcoOrder?) ==>
      Prepare(e, now) == if e.orderListId.Some? == e.listClientOrderId.Some? then Reject(OrderListIdMessage)
                         else Send(RequestOf(e), ParametersOf(e, now))
  {
  }

  /** Every object a method sends has distinct keys, as a JavaScript object literal must. */
  lemma ParametersDistinct(e: Endpoint, now: nat)
    ensures DistinctKeys(ParametersOf(e, now))
  {
    match e
    case CreateOrder(o) => OrderParametersDistinct(o, now);
    case TestOrder(o) => OrderParametersDistinct(o, now);
    case NewOcoOrder(o) => OcoParametersDistinct(o, now);
    case _ =>
      if RequestOf(e).signed {
        SignedParametersDistinct(e, now);
      } else {
        UnsignedParametersDistinct(e, now);
      }
  }

  lemma UnsignedParametersDistinct(e: Endpoint, now: nat)
    requires !RequestOf(e).signed
    ensures DistinctKeys(ParametersOf(e, now))
  {
  }

  lemma SignedParametersDistinct(e: Endpoint, now: nat)
    requires RequestOf(e).signed && !e.CreateOrder? && !e.TestOrder? && !e.NewOcoOrder?
    ensures DistinctKeys(ParametersOf(e, now))
  {
  }

  lemma OrderParametersDistinct(o: OrderArgs, now: nat)
    ensures DistinctKeys(OrderParameters(o, now))
  {
  }

  lemma OcoParametersDistinct(o: OcoArgs, now: nat)
    ensures DistinctKeys(OcoParameters(o, now))
  {
  }

  /**
   * Every signed method sends a `timestamp`: the supplied one unchanged, or
   * the clock reading when it was omitted. Unsigned methods send none.
   */
  lemma TimestampDefaulting(e: Endpoint, now: nat)
    ensures RequestOf(e).signed ==>
      Lookup(ParametersOf(e, now), "timestamp") == Some(Num(OrDefault(SuppliedTimestamp(e), now as real)))
    ensures !RequestOf(e).signed ==> Lookup(ParametersOf(e, now), "timestamp") == None
  {
    var p := ParametersOf(e, now);
    if RequestOf(e).signed {
      ParametersDistinct(e, now);
      assert p[|p| - 1] == ("timestamp", Stamp(SuppliedTimestamp(e), now));
      LookupAt(p, |p| - 1);
    } else {
      assert "timestamp" !in Keys(p);
      LookupAbsent(p, "timestamp");
    }
  }

  /** getAllOrders accepts an `orderId` but never sends it. */
  lemma GetAllOrdersDropsOrderId(symbol: string, limit: Option<real>, orderId: Option<real>, startTime: Option<real>,
                                 endTime: Option<real>, recvWindow: Option<real>, timestamp: Option<real>, now: nat)
    ensures "orderId" !in Keys(ParametersOf(GetAllOrders(symbol, limit, orderId, startTime, endTime, recvWindow, timestamp), now))
  {
  }

  /**
   * The three ticker methods answer with a list exactly when the request
   * carries no symbol, that is, when its query string is empty.
   */
  lemma TickerShapesFollowSymbol(rt: Runtime, s: Option<string>, now: nat)
    ensures ShapeOf(Get24HourTickerPrice(s)) ==
      if QueryString(rt, ParametersOf(Get24HourTickerPrice(s), now)) == "" then Ticker24hList else Ticker24h
    ensures ShapeOf(GetTickerPrice(s)) ==
      if QueryString(rt, ParametersOf(GetTickerPrice(s), now)) == "" then PriceTickerList else PriceTicker
    ensures ShapeOf(GetTickerOrderBook(s)) ==
      if QueryString(rt, ParametersOf(GetTickerOrderBook(s), now)) == "" then BookTickerList else BookTicker
  {
    QueryEmpty(rt, ParametersOf(Get24HourTickerPrice(s), now));
    QueryEmpty(rt, ParametersOf(GetTickerPrice(s), now));
    QueryEmpty(rt, ParametersOf(GetTickerOrderBook(s), now));
  }

  /**
   * Every signed method that gets as far as the request signs exactly the
   * query string its URL carries, with the client's secret key.
   */
  lemma SignedMethodsSignTheirQuery(client: Client, rt: Runtime, e: Endpoint, now: nat)
    requires RequestOf(e).signed
    ensures var q := QueryString(rt, ParametersOf(e, now));
      RequestUrl(client, RequestOf(e), rt, ParametersOf(e, now)) ==
        client.apiUrl + RequestOf(e).endpoint + "?" + q + "&signature=" + rt.hmacSha256Hex(client.binanceSecretKey, q)
  {
    ParametersDistinct(e, now);
    SignedUrlSignsItsOwnQuery(client, RequestOf(e), rt, ParametersOf(e, now));
  }
}
