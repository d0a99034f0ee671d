/** The values the average-position-price engine receives: order updates and
    executions as the host's event store and live feed deliver them, and the
    Java numeric types they carry. */
module Events {

  /** None stands for a Java `double` NaN, and for an absent map entry. */
  datatype Option<+T> = None | Some(value: T)

  /** A Java `int`. */
  type Int32 = x: int | -0x8000_0000 <= x < 0x8000_0000

  /** `ExecutionInfo.size`: a Java `int` that the host never makes negative. */
  type Size = x: int | 0 <= x < 0x8000_0000

  /** `InstrumentInfo.pips`: the instrument's price step, a positive scale factor. */
  type Pips = r: real | r > 0.0 witness 1.0

  /** Java's `int` addition of two `int`s: the `int` holding the low-order 32
      bits of the exact sum, that is, the one `int` congruent to it modulo
      2^32; a sum that fits is kept as is. The sum of two `int`s is off by at
      most one turn. */
  function Wrap32(x: int): (r: Int32)
    requires -0x1_0000_0000 <= x < 0x1_0000_0000
    ensures (x - r) % 0x1_0000_0000 == 0
    ensures -0x8000_0000 <= x < 0x8000_0000 ==> r == x
  {
    if x >= 0x8000_0000 then x - 0x1_0000_0000
    else if x < -0x8000_0000 then x + 0x1_0000_0000
    else x
  }

  /** `OrderInfoUpdate`: which side an order is on and which instrument owns it. */
  datatype OrderInfoUpdate = OrderInfoUpdate(orderId: string, isBuy: bool, instrumentAlias: string)

  /** `ExecutionInfo`: a fill of `size` units of an order at `price`. */
  datatype ExecutionInfo = ExecutionInfo(orderId: string, price: real, size: Size)

  /** One entry of `OrderUpdatesExecutionsAggregationEvent.orderUpdates`; any
      object that is neither an update nor an execution is `Unrecognized`. */
  datatype OrderEvent =
    | OrderUpdated(update: OrderInfoUpdate)
    | OrderExecuted(execution: ExecutionInfo)
    | Unrecognized
}
