/** The event payloads and the Postgres tables they end up in. */
module Schemas {
  datatype Side = BUY | SELL
  datatype OrderType = MARKET | LIMIT(price: real)
  datatype Order = Order(id: nat, account: string, symbol: string, side: Side, kind: OrderType, quantity: real)

  /** uuid5 is injective on order ids; ids drawn from uuid4 never collide with them. */
  datatype ExecutionId = Uuid5(order: nat) | Uuid4(serial: nat)
  datatype Execution = Execution(
    id: ExecutionId, order: nat, account: string, symbol: string, side: Side,
    price: real, quantity: real, fee: real)
}
