/**
 * The order enumerations of the exchange API. Each is a string union in the
 * source; `Name` gives the string that is put on the wire.
 */
module OrderTypes {

  datatype OrderType = Limit | Market | StopLoss | StopLossLimit | TakeProfit | TakeProfitLimit | LimitMaker {
    function Name(): string {
      match this
      case Limit => "LIMIT"
      case Market => "MARKET"
      case StopLoss => "STOP_LOSS"
      case StopLossLimit => "STOP_LOSS_LIMIT"
      case TakeProfit => "TAKE_PROFIT"
      case TakeProfitLimit => "TAKE_PROFIT_LIMIT"
      case LimitMaker => "LIMIT_MAKER"
    }
  }

  datatype OrderResponseType = Ack | Result | Full {
    function Name(): string {
      match this
      case Ack => "ACK"
      case Result => "RESULT"
      case Full => "FULL"
    }
  }

  datatype OrderSide = Buy | Sell {
    function Name(): string {
      match this
      case Buy => "BUY"
      case Sell => "SELL"
    }
  }

  /** The depths the order-book endpoint accepts. */
  type OrderBookLimit = n: nat | n in {5, 10, 20, 50, 100, 500, 1000, 5000} witness 100

  /**
   * Time-in-force and candlestick-interval codes. Their definitions are not
   * part of this model, so each is kept abstract as the string it is sent as.
   */
  datatype TimeInForce = TimeInForce(name: string)

  datatype KLineInterval = KLineInterval(name: string)
}
