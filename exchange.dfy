/** The values that cross the boundary to the exchange client. The client itself
    (authentication, REST calls, order books) is not modelled: every call it makes
    becomes an oracle parameter of the operation that issues it, and the records
    it hands back become the datatypes below. */
module Exchange {

  /** The result of a fetch: `None` when the client call raised. */
  datatype Option<T> = None | Some(value: T)

  /** An opaque order identifier as returned by the client. */
  type OrderRef = string

  /** The two order sides of the exchange client. */
  datatype Side = Buy | Sell

  /** The answer of the exchange to one limit-order request. */
  datatype Placement = Accepted(order: OrderRef) | Rejected

  /** The fields of a fetched position that the bot reads: `side` ('long' or
      anything else), `contracts`, `notional` and `unrealizedPnl`. */
  datatype Position = Position(side: string, contracts: real, notional: real, unrealizedPnl: real)

  /** A market order of `amount` contracts on `side`. */
  datatype MarketOrder = MarketOrder(side: Side, amount: real)

  /** One request sent to the client and whether it raised (`ok == false`). */
  datatype Attempt<R> = Attempt(request: R, ok: bool)
}
