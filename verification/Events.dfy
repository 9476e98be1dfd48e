/** The order event that travels through the whole exchange, and Go's integer widths. */
module Events {

  const U8: nat := 0x100
  const U32: nat := 0x1_0000_0000
  const U63: nat := 0x8000_0000_0000_0000
  const U64: nat := 0x1_0000_0000_0000_0000

  type uint64 = x: int | 0 <= x < U64
  type uint32 = x: int | 0 <= x < U32
  type uint8 = x: int | 0 <= x < U8

  const BUY: uint8 := 0
  const SELL: uint8 := 1

  datatype OrderEvent = OrderEvent(orderId: uint64, accountId: uint64, price: uint64,
                                   quantity: uint64, assetId: uint32, side: uint8)
}
