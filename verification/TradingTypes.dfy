/** Words the modules share: sides, purposes, run states and small result types. */
module TradingTypes {

  datatype PositionSide = Long | Short

  datatype OrderSide = Buy | Sell

  datatype Purpose = StopLossOrder | TakeProfitOrder

  /** Kinds of conditional order. */
  datatype AlgoType = StopMarket | TakeProfitMarket | TrailingStopMarket | OtherType

  datatype RunState = Stopped | Running | SafeMode | Degraded | EmergencyStopped

  function OpenSide(side: PositionSide): OrderSide { if side == Long then Buy else Sell }

  function CloseSide(side: PositionSide): OrderSide { if side == Long then Sell else Buy }

  function Signed(side: OrderSide, quantity: real): real { if side == Buy then quantity else -quantity }

  /** The exchange's signed quantity for a local position. */
  function Exposure(side: PositionSide, quantity: real): real { Signed(OpenSide(side), quantity) }
}
