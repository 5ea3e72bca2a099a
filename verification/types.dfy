/** Vocabulary shared by every component: the in-process messages and trades. */
module Types {

  type Price = int
  type OrderId = int
  type UserId = int
  type Ticker = string

  datatype Option<+T> = None | Some(value: T)

  datatype Side = Buy | Sell

  function Opposite(side: Side): Side {
    match side
    case Buy => Sell
    case Sell => Buy
  }

  datatype OrderAdd = OrderAdd(orderId: OrderId, userId: UserId, ticker: Ticker,
                               side: Side, price: Price, volume: int)

  datatype OrderCancel = OrderCancel(orderId: OrderId, userId: UserId, ticker: Ticker)

  /** What the gateway hands to the matching thread. */
  datatype Command = Add(order: OrderAdd) | Cancel(cancel: OrderCancel)

  datatype Trade = Trade(makerId: UserId, takerId: UserId,
                         makerOrderId: OrderId, takerOrderId: OrderId,
                         ticker: Ticker, takerSide: Side,
                         executionPrice: Price, volume: int)

  /** What the matching thread publishes. */
  datatype Event = AddEvent(order: OrderAdd) | CancelEvent(cancel: OrderCancel) | TradeEvent(trade: Trade)

  /** The closed list of tradable equities. */
  const INSTRUMENTS: seq<Ticker> := ["AAPL", "GOOG", "MSFT", "AMZN"]

  function Min(a: int, b: int): int {
    if a <= b then a else b
  }

  function Max(a: int, b: int): int {
    if a <= b then b else a
  }
}
