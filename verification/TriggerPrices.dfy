/** Rounding of protective trigger prices, and the agreement between exchange triggers and the
    software exit rules that run beside them. */
module TriggerPrices {
  import opened DecimalUtils
  import opened TradingTypes
  import opened Roi
  import opened PositionExit

  function RoundingFor(side: PositionSide, purpose: Purpose): Rounding {
    if (side == Long) == (purpose == StopLossOrder) then RoundDown else RoundUp
  }

  /** _round_protective_trigger_price. */
  function RoundTrigger(price: real, tick: real, side: PositionSide, purpose: Purpose): real
    requires tick > 0.0
  {
    Quantize(price, tick, RoundingFor(side, purpose))
  }

  /** Distance from the entry price in the direction the order protects: down for a long stop. */
  function Away(side: PositionSide, purpose: Purpose, from: real, to: real): real {
    if (side == Long) == (purpose == StopLossOrder) then from - to else to - from
  }

  /** Rounding moves a trigger by less than one tick and only away from the entry. */
  lemma RoundingMovesAway(price: real, tick: real, side: PositionSide, purpose: Purpose)
    requires tick > 0.0 && price >= 0.0
    ensures 0.0 <= Away(side, purpose, price, RoundTrigger(price, tick, side, purpose)) < tick
    ensures exists n :: RoundTrigger(price, tick, side, purpose) == Multiple(n, tick)
  {
    RoundDownIsGreatestMultiple(price, tick, 0);
    RoundUpIsLeastMultiple(price, tick, 0);
    var n := Steps(price, tick, RoundingFor(side, purpose));
    assert RoundTrigger(price, tick, side, purpose) == Multiple(n, tick);
  }

  /** Only a short target that the fees push below zero is rounded the other way. */
  lemma NegativeTargetRoundsBack(price: real, tick: real)
    requires tick > 0.0 && price < 0.0
    ensures Away(Short, TakeProfitOrder, price, RoundTrigger(price, tick, Short, TakeProfitOrder)) <= 0.0
    ensures RoundTrigger(price, tick, Short, TakeProfitOrder) <= 0.0
  {
    RoundingOfNegatives(price, tick);
  }

  /** When the exchange fires an order: the mark has reached its trigger. */
  predicate Fires(side: PositionSide, purpose: Purpose, trigger: real, mark: real) {
    Away(side, purpose, trigger, mark) >= 0.0
  }

  /** A price that fires the rounded exchange target also makes the software rules take profit. */
  lemma ExchangeTargetImpliesSoftwareTarget(i: RoiPriceInputs, r: RoiPrices, tick: real, mark: real, peak: real,
                                            rules: ExitRules)
    requires ComputeRoiPrices(i) == Ok(r) && i.entryPrice > 0.0 && tick > 0.0 && mark > 0.0
    requires i.takerCommissionRate >= 0.0 && i.estimatedFundingRate >= 0.0
    requires rules.takeProfitRoiPct == i.takeProfitRoiPct
    requires Fires(i.side, TakeProfitOrder, RoundTrigger(r.takeProfitPrice, tick, i.side, TakeProfitOrder), mark)
    ensures EvaluatePositionExit(RoiFromPrices(i.entryPrice, mark, i.quantity, i.leverage, i.side), peak, rules).0
            == Some(TakeProfit)
  {
    PassesUnroundedTarget(r.takeProfitPrice, tick, i.side, mark);
    assert Gain(i.side, i.entryPrice, mark) >= TakeProfitMove(i);
    FeesOnlyRaiseTheTarget(i);
    TakeProfitMoveIs(i);
    ScaledOrder(TakeProfitMove(i), Gain(i.side, i.entryPrice, mark), i.leverage);
    ShareOrder(i.takeProfitRoiPct, TakeProfitTarget(i), i.entryPrice);
    RoiCompare(i.entryPrice, mark, i.quantity, i.leverage, i.side, i.takeProfitRoiPct);
  }

  lemma PassesUnroundedTarget(price: real, tick: real, side: PositionSide, mark: real)
    requires tick > 0.0 && mark > 0.0
    requires Fires(side, TakeProfitOrder, RoundTrigger(price, tick, side, TakeProfitOrder), mark)
    ensures Away(side, TakeProfitOrder, price, mark) >= 0.0
  {
    if price >= 0.0 {
      RoundingMovesAway(price, tick, side, TakeProfitOrder);
    } else if side == Short {
      NegativeTargetRoundsBack(price, tick);
    }
  }

  lemma FeesOnlyRaiseTheTarget(i: RoiPriceInputs)
    requires i.takerCommissionRate >= 0.0 && i.estimatedFundingRate >= 0.0 && i.leverage > 0.0
    ensures TakeProfitTarget(i) >= i.takeProfitRoiPct
    ensures i.stopLossRoiPct >= 0.0 ==> StopLossTarget(i) <= i.stopLossRoiPct
  {
    MulLeq(0.0, 100.0 * FeeFraction(i), i.leverage);
  }

  /** A price at which the software rules stop out has already passed the unrounded exchange stop. */
  lemma SoftwareStopImpliesExchangeStop(i: RoiPriceInputs, r: RoiPrices, mark: real)
    requires ComputeRoiPrices(i) == Ok(r) && i.entryPrice > 0.0 && i.stopLossRoiPct >= 0.0
    requires i.takerCommissionRate >= 0.0 && i.estimatedFundingRate >= 0.0
    requires RoiFromPrices(i.entryPrice, mark, i.quantity, i.leverage, i.side) <= -i.stopLossRoiPct
    ensures Fires(i.side, StopLossOrder, r.stopLossPrice, mark)
  {
    FeesOnlyRaiseTheTarget(i);
    var g, m := Gain(i.side, i.entryPrice, mark), StopLossMove(i);
    RoiCompare(i.entryPrice, mark, i.quantity, i.leverage, i.side, -i.stopLossRoiPct);
    StopLossMoveIs(i);
    ShareOrder(StopLossTarget(i), i.stopLossRoiPct, i.entryPrice);
    ShareOrder(i.stopLossRoiPct, 0.0, i.entryPrice);
    ScaledOrder(m, 0.0, i.leverage);
    ScaledOrder(g, -m, i.leverage);
  }

  /** Below the software stop the price is a whole round-trip fee beyond the exchange stop, unless the
      exchange stop is clamped to the entry price. */
  lemma SoftwareStopClearsFees(i: RoiPriceInputs, mark: real)
    requires i.quantity > 0.0 && i.leverage > 0.0 && i.entryPrice > 0.0
    requires 100.0 * FeeFraction(i) * i.leverage <= i.stopLossRoiPct
    requires RoiFromPrices(i.entryPrice, mark, i.quantity, i.leverage, i.side) <= -i.stopLossRoiPct
    ensures Gain(i.side, i.entryPrice, mark) <= -(StopLossMove(i) + i.entryPrice * FeeFraction(i))
  {
    RoiCompare(i.entryPrice, mark, i.quantity, i.leverage, i.side, -i.stopLossRoiPct);
    StopLossMoveIs(i);
    FeeScaled(i);
    MovesAdd(Gain(i.side, i.entryPrice, mark), StopLossMove(i), i.entryPrice * FeeFraction(i), StopLossTarget(i),
             i.stopLossRoiPct - StopLossTarget(i), i.entryPrice, i.leverage);
  }

  lemma MovesAdd(gain: real, move: real, fee: real, target: real, feeTarget: real, entry: real, leverage: real)
    requires entry > 0.0 && leverage > 0.0
    requires Scaled(move, leverage) == Share(entry, target) && Scaled(fee, leverage) == Share(entry, feeTarget)
    requires Scaled(gain, leverage) <= Share(entry, -(target + feeTarget))
    ensures gain <= -(move + fee)
  {
    ShareOrder(target, feeTarget, entry);
    ShareOrder(target + feeTarget, 0.0, entry);
    ScaledOrder(move, fee, leverage);
    ScaledOrder(move + fee, 0.0, leverage);
    ScaledOrder(gain, -(move + fee), leverage);
  }

  /** It has passed the rounded exchange stop too, as soon as the round-trip fees are worth a tick. */
  lemma SoftwareStopFiresRoundedStop(i: RoiPriceInputs, r: RoiPrices, tick: real, mark: real)
    requires ComputeRoiPrices(i) == Ok(r) && i.entryPrice > 0.0 && tick > 0.0
    requires 100.0 * FeeFraction(i) * i.leverage <= i.stopLossRoiPct && tick <= i.entryPrice * FeeFraction(i)
    requires RoiFromPrices(i.entryPrice, mark, i.quantity, i.leverage, i.side) <= -i.stopLossRoiPct
    ensures Fires(i.side, StopLossOrder, RoundTrigger(r.stopLossPrice, tick, i.side, StopLossOrder), mark)
  {
    SoftwareStopClearsFees(i, mark);
    RoundedStopReached(r.stopLossPrice, tick, i.side, mark, i.entryPrice, StopLossMove(i));
  }

  lemma RoundedStopReached(stop: real, tick: real, side: PositionSide, mark: real, entry: real, move: real)
    requires tick > 0.0 && stop > 0.0 && Gain(side, entry, stop) == -move && Gain(side, entry, mark) <= -move - tick
    ensures Fires(side, StopLossOrder, RoundTrigger(stop, tick, side, StopLossOrder), mark)
  {
    RoundingMovesAway(stop, tick, side, StopLossOrder);
  }

  lemma FeeScaled(i: RoiPriceInputs)
    ensures Scaled(i.entryPrice * FeeFraction(i), i.leverage) == Share(i.entryPrice,
                                                                       100.0 * FeeFraction(i) * i.leverage)
  {
  }
}
