/** Leveraged return on investment, `shared/roi.py`, and how the exchange's trigger prices agree with it. */
module Roi {
  import opened DecimalUtils
  import opened TradingTypes

  datatype RoiPriceInputs = RoiPriceInputs(
    entryPrice: real, quantity: real, side: PositionSide, leverage: real,
    takeProfitRoiPct: real, stopLossRoiPct: real, takerCommissionRate: real, estimatedFundingRate: real := 0.0)

  datatype RoiPrices = RoiPrices(takeProfitPrice: real, stopLossPrice: real)

  function MarginOf(entryPrice: real, quantity: real, leverage: real): real {
    SafeDiv(entryPrice * quantity, leverage)
  }

  /** Opening and closing commission plus funding, as a fraction of the notional. */
  function FeeFraction(i: RoiPriceInputs): real {
    i.takerCommissionRate + i.takerCommissionRate + i.estimatedFundingRate
  }

  function Fees(i: RoiPriceInputs): real {
    var notional := i.entryPrice * i.quantity;
    notional * i.takerCommissionRate + notional * i.takerCommissionRate + notional * i.estimatedFundingRate
  }

  function TargetAmount(i: RoiPriceInputs, roiPct: real): real {
    MarginOf(i.entryPrice, i.quantity, i.leverage) * (roiPct / 100.0)
  }

  function TakeProfitMove(i: RoiPriceInputs): real {
    SafeDiv(TargetAmount(i, i.takeProfitRoiPct) + Fees(i), i.quantity)
  }

  function StopLossMove(i: RoiPriceInputs): real {
    SafeDiv(Max(TargetAmount(i, i.stopLossRoiPct) - Fees(i), 0.0), i.quantity)
  }

  /** compute_roi_prices: raises on a bad quantity or leverage and on a stop price that is not positive. */
  function ComputeRoiPrices(i: RoiPriceInputs): Result<RoiPrices> {
    if i.quantity <= 0.0 then Raised("quantity must be positive")
    else if i.leverage <= 0.0 then Raised("leverage must be positive")
    else
      var tp := if i.side == Long then i.entryPrice + TakeProfitMove(i) else i.entryPrice - TakeProfitMove(i);
      var sl := if i.side == Long then i.entryPrice - StopLossMove(i) else i.entryPrice + StopLossMove(i);
      if sl <= 0.0 then Raised("stop-loss price is not positive") else Ok(RoiPrices(tp, sl))
  }

  /** Price movement in the position's favour. */
  function Gain(side: PositionSide, entryPrice: real, price: real): real {
    if side == Long then price - entryPrice else entryPrice - price
  }

  /** compute_roi_from_prices: gross, in percent. */
  function RoiFromPrices(entryPrice: real, price: real, quantity: real, leverage: real, side: PositionSide): real {
    var margin := MarginOf(entryPrice, quantity, leverage);
    if margin == 0.0 then 0.0 else SafeDiv(Gain(side, entryPrice, price) * quantity, margin) * 100.0
  }

  function EstimateLiquidationPrice(entryPrice: real, leverage: real, side: PositionSide, maintenanceRate: real): real
    requires leverage > 0.0
  {
    var inverse := SafeDiv(1.0, leverage);
    var factor := if side == Long then 1.0 - inverse + maintenanceRate else 1.0 + inverse - maintenanceRate;
    Max(entryPrice * factor, 0.0)
  }

  function LiquidationDistancePct(stopLossPrice: real, liquidationPrice: real, side: PositionSide): real {
    if liquidationPrice <= 0.0 then 100.0
    else SafeDiv(if side == Long then stopLossPrice - liquidationPrice else liquidationPrice - stopLossPrice,
                 liquidationPrice) * 100.0
  }

  // ---------- algebra ----------

  /** A price move in units of entry-percent: move * 100 * leverage. */
  function Scaled(move: real, leverage: real): real { move * 100.0 * leverage }

  function Share(entryPrice: real, pct: real): real { entryPrice * pct }

  lemma ScaledOrder(x: real, y: real, leverage: real)
    requires leverage > 0.0
    ensures x <= y <==> Scaled(x, leverage) <= Scaled(y, leverage)
    ensures Scaled(-x, leverage) == -Scaled(x, leverage)
    ensures Scaled(x + y, leverage) == Scaled(x, leverage) + Scaled(y, leverage)
  {
    if x <= y { MulLeq(x * 100.0, y * 100.0, leverage); } else { MulLess(y * 100.0, x * 100.0, leverage); }
  }

  lemma ShareOrder(x: real, y: real, entry: real)
    requires entry > 0.0
    ensures x <= y <==> Share(entry, x) <= Share(entry, y)
    ensures Share(entry, -x) == -Share(entry, x)
    ensures Share(entry, x + y) == Share(entry, x) + Share(entry, y)
  {
    if x <= y { MulLeq(x, y, entry); } else { MulLess(y, x, entry); }
  }

  /** The move for a target of `roiPct` and signed fees: entry * (roiPct / (100 L) +- fees). */
  lemma MoveForTarget(i: RoiPriceInputs, roiPct: real)
    requires i.quantity > 0.0 && i.leverage > 0.0
    ensures TargetAmount(i, roiPct) * 100.0 * i.leverage == i.entryPrice * roiPct * i.quantity
    ensures Fees(i) == i.entryPrice * FeeFraction(i) * i.quantity
  {
    var m := MarginOf(i.entryPrice, i.quantity, i.leverage);
    assert m * i.leverage == i.entryPrice * i.quantity;
    calc {
      TargetAmount(i, roiPct) * 100.0 * i.leverage;
      m * (roiPct / 100.0) * 100.0 * i.leverage;
      { assert roiPct / 100.0 * 100.0 == roiPct; }
      m * i.leverage * roiPct;
      i.entryPrice * i.quantity * roiPct;
    }
  }

  lemma PerUnit(total: real, quantity: real, leverage: real, unit: real)
    requires quantity > 0.0 && total * 100.0 * leverage == unit * quantity
    ensures SafeDiv(total, quantity) * 100.0 * leverage == unit
  {
    var x := SafeDiv(total, quantity);
    assert x * quantity == total;
    assert (x * 100.0 * leverage - unit) * quantity == 0.0;
  }

  lemma FeeShare(i: RoiPriceInputs)
    requires i.quantity > 0.0 && i.leverage > 0.0
    ensures Fees(i) * 100.0 * i.leverage == i.entryPrice * (100.0 * FeeFraction(i) * i.leverage) * i.quantity
  {
    MoveForTarget(i, 0.0);
    var fees, e, f, q := Fees(i), i.entryPrice, FeeFraction(i), i.quantity;
    assert fees == e * f * q;
  }

  /** Effective ROI targets once fees are added to the profit and taken off the loss. */
  function TakeProfitTarget(i: RoiPriceInputs): real { i.takeProfitRoiPct + 100.0 * FeeFraction(i) * i.leverage }

  function StopLossTarget(i: RoiPriceInputs): real { Max(i.stopLossRoiPct - 100.0 * FeeFraction(i) * i.leverage, 0.0) }

  lemma TakeProfitMoveIs(i: RoiPriceInputs)
    requires i.quantity > 0.0 && i.leverage > 0.0
    ensures Scaled(TakeProfitMove(i), i.leverage) == Share(i.entryPrice, TakeProfitTarget(i))
  {
    MoveForTarget(i, i.takeProfitRoiPct);
    FeeShare(i);
    PerUnit(TargetAmount(i, i.takeProfitRoiPct) + Fees(i), i.quantity, i.leverage, i.entryPrice * TakeProfitTarget(i));
  }

  lemma StopLossMoveIs(i: RoiPriceInputs)
    requires i.quantity > 0.0 && i.leverage > 0.0 && i.entryPrice > 0.0
    ensures Scaled(StopLossMove(i), i.leverage) == Share(i.entryPrice, StopLossTarget(i))
  {
    MoveForTarget(i, i.stopLossRoiPct);
    FeeShare(i);
    var net := TargetAmount(i, i.stopLossRoiPct) - Fees(i);
    var pct := i.stopLossRoiPct - 100.0 * FeeFraction(i) * i.leverage;
    assert net * 100.0 * i.leverage == i.entryPrice * pct * i.quantity;
    SameSign(net * 100.0, i.leverage, i.entryPrice * i.quantity, pct);
    PerUnit(Max(net, 0.0), i.quantity, i.leverage, i.entryPrice * Max(pct, 0.0));
  }

  lemma SameSign(x: real, a: real, b: real, y: real)
    requires a > 0.0 && b > 0.0 && x * a == b * y
    ensures x > 0.0 <==> y > 0.0
  {
    if x > 0.0 { assert x * a > 0.0; }
    if y > 0.0 { assert b * y > 0.0; }
    if x <= 0.0 { assert -x * a >= 0.0; }
    if y <= 0.0 { assert b * -y >= 0.0; }
  }

  // ---------- what the prices mean ----------

  /** ROI is the favourable move over the entry price, times 100 and the leverage. */
  lemma RoiIsLeveragedMove(entry: real, price: real, quantity: real, leverage: real, side: PositionSide)
    requires entry > 0.0 && quantity > 0.0 && leverage > 0.0
    ensures RoiFromPrices(entry, price, quantity, leverage, side) * entry == Scaled(Gain(side, entry, price), leverage)
  {
    var m, g := MarginOf(entry, quantity, leverage), Gain(side, entry, price);
    assert entry * quantity > 0.0;
    assert m * leverage == entry * quantity;
    assert m != 0.0;
    var x := SafeDiv(g * quantity, m);
    assert x * m == g * quantity;
    calc {
      x * entry * quantity;
      x * (m * leverage);
      g * quantity * leverage;
    }
    assert (x * entry - g * leverage) * quantity == 0.0;
  }

  lemma RoiCompare(entry: real, price: real, quantity: real, leverage: real, side: PositionSide, target: real)
    requires entry > 0.0 && quantity > 0.0 && leverage > 0.0
    ensures RoiFromPrices(entry, price, quantity, leverage, side) >= target
            <==> Scaled(Gain(side, entry, price), leverage) >= Share(entry, target)
    ensures RoiFromPrices(entry, price, quantity, leverage, side) <= target
            <==> Scaled(Gain(side, entry, price), leverage) <= Share(entry, target)
  {
    RoiIsLeveragedMove(entry, price, quantity, leverage, side);
    var roi := RoiFromPrices(entry, price, quantity, leverage, side);
    ShareOrder(target, roi, entry);
    ShareOrder(roi, target, entry);
  }

  /** At the computed prices the gross ROI is the configured target corrected by the round-trip fees. */
  lemma RoiAtComputedPrices(i: RoiPriceInputs, r: RoiPrices)
    requires i.entryPrice > 0.0 && ComputeRoiPrices(i) == Ok(r)
    ensures RoiFromPrices(i.entryPrice, r.takeProfitPrice, i.quantity, i.leverage, i.side) == TakeProfitTarget(i)
    ensures RoiFromPrices(i.entryPrice, r.stopLossPrice, i.quantity, i.leverage, i.side) == -StopLossTarget(i)
  {
    TakeProfitMoveIs(i);
    StopLossMoveIs(i);
    assert Gain(i.side, i.entryPrice, r.takeProfitPrice) == TakeProfitMove(i);
    assert Gain(i.side, i.entryPrice, r.stopLossPrice) == -StopLossMove(i);
    RoiCompare(i.entryPrice, r.takeProfitPrice, i.quantity, i.leverage, i.side, TakeProfitTarget(i));
    ScaledOrder(StopLossMove(i), 0.0, i.leverage);
    ShareOrder(StopLossTarget(i), 0.0, i.entryPrice);
    RoiCompare(i.entryPrice, r.stopLossPrice, i.quantity, i.leverage, i.side, -StopLossTarget(i));
  }

  /** A stop price that is computed at one entry and quantity is computed at every other: whether the
      calculation raises depends only on side, leverage and rates. */
  lemma StopRaisesIff(i: RoiPriceInputs)
    requires i.entryPrice > 0.0 && i.quantity > 0.0 && i.leverage > 0.0
    ensures ComputeRoiPrices(i).Raised? <==> i.side == Long && StopLossTarget(i) >= 100.0 * i.leverage
  {
    StopLossMoveIs(i);
    var m := StopLossMove(i);
    DivBelow(Max(TargetAmount(i, i.stopLossRoiPct) - Fees(i), 0.0), i.quantity, 0.0);
    var scale := 100.0 * i.leverage;
    assert m * scale == i.entryPrice * StopLossTarget(i);
    ScaledCompare(m, i.entryPrice, scale, StopLossTarget(i));
  }

  lemma StopRaisesAlike(i: RoiPriceInputs, j: RoiPriceInputs)
    requires i.entryPrice > 0.0 && i.quantity > 0.0 && j.entryPrice > 0.0 && j.quantity > 0.0
    requires j == i.(entryPrice := j.entryPrice, quantity := j.quantity)
    ensures ComputeRoiPrices(i).Raised? <==> ComputeRoiPrices(j).Raised?
  {
    if i.leverage > 0.0 {
      StopRaisesIff(i);
      StopRaisesIff(j);
      assert StopLossTarget(i) == StopLossTarget(j);
    }
  }

  lemma ScaledCompare(m: real, entry: real, scale: real, target: real)
    requires entry > 0.0 && scale > 0.0 && m * scale == entry * target
    ensures m >= entry <==> target >= scale
  {
    if target >= scale {
      MulLeq(scale, target, entry);
      if m < entry { MulLess(m, entry, scale); }
    } else {
      MulLess(target, scale, entry);
      if m >= entry { MulLeq(entry, m, scale); }
    }
  }

  // ---------- what a liquidation price is ----------

  /** At `price` what is left of the position's margin is the maintenance rate's share of its opening notional. */
  predicate Balances(side: PositionSide, entry: real, quantity: real, leverage: real, rate: real, price: real) {
    MarginOf(entry, quantity, leverage) + Gain(side, entry, price) * quantity == rate * (entry * quantity)
  }

  /** Profit per unit at a balancing price: the part of the entry by which the rate exceeds 1/leverage. */
  lemma BalancingGain(side: PositionSide, entry: real, quantity: real, leverage: real, rate: real, price: real)
    requires quantity > 0.0 && leverage > 0.0
    ensures Balances(side, entry, quantity, leverage, rate, price)
            <==> Gain(side, entry, price) == Share(entry, rate - SafeDiv(1.0, leverage))
  {
    var x, g, notional := SafeDiv(1.0, leverage), Gain(side, entry, price), entry * quantity;
    assert x * leverage == 1.0;
    var m := MarginOf(entry, quantity, leverage);
    assert m == notional * x by {
      assert m * leverage == notional;
      calc {
        (notional * x) * leverage;
        notional * (x * leverage);
        notional;
      }
      SameQuotient(m, notional * x, leverage);
    }
    assert rate * notional - m == Share(entry, rate - x) * quantity;
    if g * quantity == Share(entry, rate - x) * quantity { SameQuotient(g, Share(entry, rate - x), quantity); }
  }

  lemma SameQuotient(x: real, y: real, d: real)
    requires d > 0.0 && x * d == y * d
    ensures x == y
  {
    assert (x - y) * d == 0.0;
  }

  /** The estimate balances; exactly one price does, and the estimate is zero only when that price is not positive. */
  lemma LiquidationBalances(side: PositionSide, entry: real, quantity: real, leverage: real, rate: real, price: real)
    requires entry > 0.0 && quantity > 0.0 && leverage > 0.0
    ensures var liquidation := EstimateLiquidationPrice(entry, leverage, side, rate);
            liquidation > 0.0 ==> Balances(side, entry, quantity, leverage, rate, liquidation)
    ensures Balances(side, entry, quantity, leverage, rate, price) ==>
              EstimateLiquidationPrice(entry, leverage, side, rate) == Max(price, 0.0)
    ensures exists p :: Balances(side, entry, quantity, leverage, rate, p)
                        && EstimateLiquidationPrice(entry, leverage, side, rate) == Max(p, 0.0)
  {
    var x := SafeDiv(1.0, leverage);
    BalancingGain(side, entry, quantity, leverage, rate, price);
    var move := Share(entry, rate - x);
    var p := if side == Long then entry + move else entry - move;
    BalancingGain(side, entry, quantity, leverage, rate, p);
    assert p == entry * if side == Long then 1.0 - x + rate else 1.0 + x - rate;
  }

  /** It lies on the losing side of the entry iff the rate is below 1/leverage. */
  lemma LiquidationIsALoss(side: PositionSide, entry: real, leverage: real, rate: real)
    requires entry > 0.0 && leverage > 0.0 && EstimateLiquidationPrice(entry, leverage, side, rate) > 0.0
    ensures Gain(side, entry, EstimateLiquidationPrice(entry, leverage, side, rate)) < 0.0 <==> rate * leverage < 1.0
  {
    var x, liquidation := SafeDiv(1.0, leverage), EstimateLiquidationPrice(entry, leverage, side, rate);
    LiquidationBalances(side, entry, 1.0, leverage, rate, liquidation);
    BalancingGain(side, entry, 1.0, leverage, rate, liquidation);
    ShareOrder(0.0, rate - x, entry);
    ScaledBelow(rate, x, leverage, 1.0);
  }

  lemma ScaledBelow(x: real, y: real, d: real, scaled: real)
    requires d > 0.0 && y * d == scaled
    ensures x < y <==> x * d < scaled
  {
    if x < y { MulLess(x, y, d); } else { MulLeq(y, x, d); }
  }

  /** A higher leverage at the same rate brings it towards the entry from that side: up for a long, down for a short. */
  lemma LiquidationNearsEntry(side: PositionSide, entry: real, lower: real, higher: real, rate: real)
    requires entry > 0.0 && 0.0 < lower < higher
    requires EstimateLiquidationPrice(entry, if side == Long then higher else lower, side, rate) > 0.0
    ensures var atLower, atHigher := EstimateLiquidationPrice(entry, lower, side, rate),
                                     EstimateLiquidationPrice(entry, higher, side, rate);
            if side == Long then atLower < atHigher else atHigher < atLower
  {
    var x, y := SafeDiv(1.0, lower), SafeDiv(1.0, higher);
    assert y < x by { if x <= y { MulLess(lower, higher, y); MulLeq(x, y, lower); } }
    ShareOrder(rate - y, rate - x, entry);
    assert Share(entry, 1.0 - x + rate) == entry + Share(entry, rate - x);
    assert Share(entry, 1.0 - y + rate) == entry + Share(entry, rate - y);
    assert Share(entry, 1.0 + x - rate) == entry - Share(entry, rate - x);
    assert Share(entry, 1.0 + y - rate) == entry - Share(entry, rate - y);
  }

  /** The stop lies ahead of the liquidation price by the given percentage of it; where there is nothing to
      liquidate at a positive price the distance counts as 100%. */
  predicate AheadBy(side: PositionSide, liquidation: real, stop: real, minimum: real) {
    if liquidation <= 0.0 then minimum <= 100.0 else Gain(side, liquidation, stop) * 100.0 >= minimum * liquidation
  }

  lemma DistanceIs(stop: real, liquidation: real, side: PositionSide, minimum: real)
    ensures LiquidationDistancePct(stop, liquidation, side) >= minimum <==> AheadBy(side, liquidation, stop, minimum)
  {
    if liquidation > 0.0 {
      DivBelow(Gain(side, liquidation, stop), liquidation, minimum / 100.0);
      assert minimum / 100.0 * liquidation * 100.0 == minimum * liquidation;
    }
  }

  /** The distance check, in terms of the balancing price. */
  lemma DistanceFromBalance(side: PositionSide, entry: real, quantity: real, leverage: real, rate: real, price: real,
                            stop: real, minimum: real)
    requires entry > 0.0 && quantity > 0.0 && leverage > 0.0 && Balances(side, entry, quantity, leverage, rate, price)
    ensures LiquidationDistancePct(stop, EstimateLiquidationPrice(entry, leverage, side, rate), side) >= minimum <==>
              AheadBy(side, price, stop, minimum)
  {
    LiquidationBalances(side, entry, quantity, leverage, rate, price);
    DistanceIs(stop, Max(price, 0.0), side, minimum);
  }

  /** A positive liquidation distance puts the stop strictly between liquidation and profit. */
  lemma DistanceMeansSide(stop: real, liquidation: real, side: PositionSide, minimum: real)
    requires liquidation > 0.0 && minimum > 0.0 && LiquidationDistancePct(stop, liquidation, side) >= minimum
    ensures if side == Long then stop > liquidation else stop < liquidation
  {
    var d := if side == Long then stop - liquidation else liquidation - stop;
    var x := SafeDiv(d, liquidation);
    assert x * liquidation == d;
    assert x > 0.0;
    MulLess(0.0, x, liquidation);
  }
}
