/** The market-data and trading records the strategy engine consumes and
    produces. Every per-instrument key is the "vt_symbol", which the trading
    library derives from a record's symbol and exchange; here it is the pair
    itself rather than the two joined by a dot. Prices, volumes and sizes are
    floats in the trading library; here they are integers. */
module Objects {

  /** The instrument key (vt_symbol): a symbol on an exchange. */
  datatype InstrumentKey = InstrumentKey(symbol: string, exchange: string)

  /** Position and order direction. */
  datatype Direction = Long | Short | Net

  datatype OrderType = Limit | Market

  /** Whether an order opens or closes a position. */
  datatype Offset = Open | Close

  /** One market update: the latest traded price at a point in time
      (the datetime is a timestamp here). */
  datatype Tick = Tick(symbol: string, exchange: string, datetime: int, lastPrice: int) {
    function VtSymbol(): InstrumentKey { InstrumentKey(symbol, exchange) }
  }

  /** An instrument definition; `size` is the contract multiplier. */
  datatype Contract = Contract(symbol: string, exchange: string, size: int) {
    function VtSymbol(): InstrumentKey { InstrumentKey(symbol, exchange) }
  }

  /** The position identifier (vt_positionid): one per gateway, instrument
      and direction. */
  datatype PositionKey = PositionKey(gatewayName: string, vtSymbol: InstrumentKey, direction: Direction)

  /** A broker-reported position. */
  datatype Position = Position(symbol: string, exchange: string, direction: Direction,
                               volume: int, gatewayName: string) {
    function VtSymbol(): InstrumentKey { InstrumentKey(symbol, exchange) }
    function VtPositionId(): PositionKey { PositionKey(gatewayName, VtSymbol(), direction) }
  }

  /** The argument of the gateway's `subscribe`. */
  datatype SubscribeRequest = SubscribeRequest(symbol: string, exchange: string) {
    function VtSymbol(): InstrumentKey { InstrumentKey(symbol, exchange) }
  }

  /** The argument of the gateway's `send_order`. */
  datatype OrderRequest = OrderRequest(symbol: string, exchange: string, direction: Direction,
                                       orderType: OrderType, price: int, volume: int,
                                       offset: Offset) {
    function VtSymbol(): InstrumentKey { InstrumentKey(symbol, exchange) }
  }

  /** What a strategy log line reports (its wording is not modelled). */
  datatype LogMsg =
    | BoughtOpen(vtSymbol: InstrumentKey, datetime: int)
    | SoldClose(vtSymbol: InstrumentKey, datetime: int)

  /** The events the engine puts on the event bus: log lines and the
      per-evaluation strategy status. */
  datatype Event =
    | LogEvent(msg: LogMsg, gatewayName: string)
    | StrategyEvent(vtSymbol: InstrumentKey, datetime: int, lastPrice: int, tradingTarget: int)

  /** Gateway name the engine stamps on its own log lines. */
  const StrategyGatewayName: string := "STRATEGY"
}
