/** Choosing the leverage a position is opened with, `worker/order_engine.py`. */
module LeverageSearch {
  import opened DecimalUtils
  import opened TradingTypes
  import opened BinanceFilters
  import opened PositionSizing
  import opened Roi
  import opened OrderEngine

  datatype Bracket = Bracket(number: int, notionalFloor: real, notionalCap: real, maintMarginRatio: real)

  /** The exchange's answer about brackets; None when the call fails. */
  type BracketAnswer = Option<seq<Bracket>>

  datatype OpenRequest = OpenRequest(
    settings: TradeSettings, minLiquidationDistancePct: real, side: PositionSide, price: real,
    filters: SymbolFilters, availableBalance: real)

  datatype Computed = Computed(leverage: int, sizing: SizingResult, stopLoss: real, takeProfit: real, liquidation: real)

  const DEFAULT_RATE := 0.005

  predicate InBracket(b: Bracket, notional: real) {
    b.notionalFloor <= notional < b.notionalCap || b.notionalCap == 0.0
  }

  /** The first bracket that takes the notional once they are stably sorted by number: of those that take
      it, the lowest numbered, and the earliest of equals. */
  function FirstSorted(bs: seq<Bracket>, notional: real): (r: Option<Bracket>)
    ensures r.None? <==> forall b :: b in bs ==> !InBracket(b, notional)
    ensures r.Some? ==> r.value in bs && InBracket(r.value, notional)
                        && forall b :: b in bs && InBracket(b, notional) ==> r.value.number <= b.number
  {
    if bs == [] then None
    else
      var rest, b := FirstSorted(bs[..|bs| - 1], notional), bs[|bs| - 1];
      assert bs == bs[..|bs| - 1] + [b];
      if InBracket(b, notional) && (rest.None? || b.number < rest.value.number) then Some(b) else rest
  }

  /** _pick_maintenance_margin_rate. */
  function PickMaintenanceMarginRate(answer: BracketAnswer, notional: real): (rate: real)
    ensures answer.Some? && (exists b :: b in answer.value && InBracket(b, notional)) ==>
              exists b :: b in answer.value && InBracket(b, notional) && rate == b.maintMarginRatio
                          && forall d :: d in answer.value && InBracket(d, notional) ==> b.number <= d.number
  {
    if answer.None? || answer.value == [] then DEFAULT_RATE
    else
      match FirstSorted(answer.value, notional)
      case Some(b) => b.maintMarginRatio
      case None => answer.value[|answer.value| - 1].maintMarginRatio
  }

  function InputsAt(o: OpenRequest, leverage: int): SizingInputs {
    SizingInputs(o.settings.marginPerTradeUsdt, leverage as real, o.price, o.filters, o.availableBalance)
  }

  function SizingAt(o: OpenRequest, leverage: int): Result<SizingResult> {
    CalculatePositionSize(InputsAt(o, leverage))
  }

  function PricesAt(o: OpenRequest, leverage: int, quantity: real): Result<Prices> {
    ProtectivePrices(o.settings.(priceTickSize := o.filters.priceTickSize), o.side, leverage, o.price, quantity)
  }

  /** _compute_open_at_leverage: None when sizing refuses, Raised where the code lets a ValueError out. */
  function ComputeOpenAtLeverage(o: OpenRequest, answer: BracketAnswer, leverage: int): Result<Option<Computed>>
    requires leverage > 0
  {
    match SizingAt(o, leverage)
    case Raised(e) => Raised(e)
    case Ok(sizing) =>
      if !sizing.IsOk() then Ok(None)
      else
        var rate := PickMaintenanceMarginRate(answer, sizing.notional);
        var liquidation := EstimateLiquidationPrice(o.price, leverage as real, o.side, rate);
        match PricesAt(o, leverage, sizing.quantity)
        case Raised(e) => Raised(e)
        case Ok(p) => Ok(Some(Computed(leverage, sizing, p.stopLoss, p.takeProfit, liquidation)))
  }

  /** check_liquidation_distance. */
  predicate CheckLiquidationDistance(distancePct: real, minimumPct: real) { !(distancePct < minimumPct) }

  predicate Passes(o: OpenRequest, answer: BracketAnswer, leverage: int)
    requires leverage > 0
  {
    match ComputeOpenAtLeverage(o, answer, leverage)
    case Ok(Some(c)) =>
      CheckLiquidationDistance(LiquidationDistancePct(c.stopLoss, c.liquidation, o.side), o.minLiquidationDistancePct)
    case _ => false
  }

  /** The search goes on below this leverage. */
  predicate Skips(o: OpenRequest, answer: BracketAnswer, leverage: int)
    requires leverage > 0
  {
    ComputeOpenAtLeverage(o, answer, leverage).Ok? && !Passes(o, answer, leverage)
  }

  // ---------- when a leverage raises, and what one that passes guarantees ----------

  function RoiInputsAt(o: OpenRequest, leverage: int, quantity: real): RoiPriceInputs {
    RoiPriceInputs(o.price, quantity, o.side, leverage as real,
                   o.settings.takeProfitRoiPct, o.settings.stopLossRoiPct, o.settings.takerCommissionRate)
  }

  /** Stop ROI from which a long stop price is no longer positive. */
  function WidestStopRoi(leverage: int, commission: real): real {
    100.0 * leverage as real * (1.0 + 2.0 * commission)
  }

  predicate TooWide(o: OpenRequest, leverage: int) {
    o.side == Long && o.settings.stopLossRoiPct >= WidestStopRoi(leverage, o.settings.takerCommissionRate)
  }

  /** With the fees of a round trip above -100% the limit grows with the leverage. */
  lemma WidestGrows(lower: int, higher: int, commission: real)
    requires 0 < lower <= higher && commission >= -0.5
    ensures WidestStopRoi(lower, commission) <= WidestStopRoi(higher, commission)
  {
    var unit := 100.0 * (1.0 + 2.0 * commission);
    MulLeq(lower as real, higher as real, unit);
    assert WidestStopRoi(lower, commission) == lower as real * unit;
    assert WidestStopRoi(higher, commission) == higher as real * unit;
  }

  lemma StopTargetTooWide(i: RoiPriceInputs, leverage: int)
    requires leverage > 0 && i.leverage == leverage as real && i.estimatedFundingRate == 0.0
    ensures StopLossTarget(i) >= 100.0 * i.leverage <==>
              i.stopLossRoiPct >= WidestStopRoi(leverage, i.takerCommissionRate)
  {
    var c := i.takerCommissionRate;
    assert WidestStopRoi(leverage, c) == 100.0 * i.leverage + 100.0 * (c + c + 0.0) * i.leverage;
  }

  lemma PricesRaiseIff(o: OpenRequest, leverage: int, quantity: real)
    requires leverage > 0 && o.price > 0.0 && quantity > 0.0
    ensures PricesAt(o, leverage, quantity).Raised? <==>
              (o.filters.priceTickSize <= 0.0
               || TooWide(o, leverage))
  {
    var i := RoiInputsAt(o, leverage, quantity);
    StopRaisesIff(i);
    StopTargetTooWide(i, leverage);
  }

  /** Where the code raises at a leverage, in terms of what the caller passed in: a bad step size, or an
      affordable order whose tick size is bad or whose long stop would not be positive. */
  lemma RaisesIff(o: OpenRequest, answer: BracketAnswer, leverage: int)
    requires leverage > 0
    ensures ComputeOpenAtLeverage(o, answer, leverage).Raised? <==>
              (SizingAt(o, leverage).Raised?
               || (SizingAt(o, leverage).value.IsOk()
                   && (o.filters.priceTickSize <= 0.0
                       || TooWide(o, leverage))))
  {
    var sizing := SizingAt(o, leverage);
    if sizing.Ok? && sizing.value.IsOk() {
      AcceptedOrder(InputsAt(o, leverage), sizing.value, 0);
      PricesRaiseIff(o, leverage, sizing.value.quantity);
    }
  }

  lemma SizingRaisesAlike(o: OpenRequest, lower: int, higher: int)
    requires 0 < lower && 0 < higher
    ensures SizingAt(o, lower).Raised? <==> SizingAt(o, higher).Raised?
  {
  }

  /** Where a leverage raises, no lower one could have passed: an error never hides a usable leverage. */
  lemma RaisedMeansNoneBelowPasses(o: OpenRequest, at: BracketAnswer, below: BracketAnswer, higher: int, lower: int)
    requires 0 < lower <= higher && o.settings.takerCommissionRate >= -0.5
    requires ComputeOpenAtLeverage(o, at, higher).Raised?
    ensures !Passes(o, below, lower)
  {
    RaisesIff(o, at, higher);
    RaisesIff(o, below, lower);
    SizingRaisesAlike(o, lower, higher);
    WidestGrows(lower, higher, o.settings.takerCommissionRate);
  }

  /** A leverage that passes buys an order within the user's margin whose rounded stop lies strictly on the
      entry side of liquidation. */
  lemma FoundIsSafe(o: OpenRequest, answer: BracketAnswer, c: Computed)
    requires c.leverage > 0 && ComputeOpenAtLeverage(o, answer, c.leverage) == Ok(Some(c))
    requires Passes(o, answer, c.leverage)
    ensures c.sizing.requiredMargin <= o.settings.marginPerTradeUsdt
    ensures c.sizing.quantity > 0.0 && ValidateOrder(o.filters, c.sizing.quantity, o.price).None?
    ensures c.liquidation > 0.0 && o.minLiquidationDistancePct > 0.0 ==>
              if o.side == Long then c.stopLoss > c.liquidation else c.stopLoss < c.liquidation
  {
    AcceptedOrder(InputsAt(o, c.leverage), c.sizing, 0);
    if c.liquidation > 0.0 && o.minLiquidationDistancePct > 0.0 {
      DistanceMeansSide(c.stopLoss, c.liquidation, o.side, o.minLiquidationDistancePct);
    }
  }

  /** Once a leverage has been chosen, the trigger prices can be computed for every fill that may come of
      it: the ValueError of the price calculation never strikes after the order was filled. */
  lemma FillPricesDoNotRaise(o: OpenRequest, answer: BracketAnswer, c: Computed, fillPrice: real, filled: real)
    requires c.leverage > 0 && ComputeOpenAtLeverage(o, answer, c.leverage) == Ok(Some(c))
    requires fillPrice > 0.0 && filled > 0.0
    ensures PricesAt(o.(price := fillPrice), c.leverage, filled).Ok?
  {
    AcceptedOrder(InputsAt(o, c.leverage), c.sizing, 0);
    PricesRaiseAlike(o.settings.(priceTickSize := o.filters.priceTickSize), o.side, c.leverage, o.price,
                     c.sizing.quantity, fillPrice, filled);
  }

  /** The price at which the chosen order is liquidated: margin and profit there are worth the maintenance rate of
      its bracket. It is not rounded, and counts as zero when it is negative. */
  ghost predicate LiquidatedAt(o: OpenRequest, answer: BracketAnswer, leverage: int, sizing: SizingResult,
                               price: real)
  {
    Balances(o.side, o.price, sizing.quantity, leverage as real, PickMaintenanceMarginRate(answer, sizing.notional),
             price)
  }

  lemma PassesByDistance(o: OpenRequest, answer: BracketAnswer, leverage: int, sizing: SizingResult)
    requires leverage > 0 && SizingAt(o, leverage) == Ok(sizing) && sizing.IsOk()
    ensures Passes(o, answer, leverage) <==>
              && PricesAt(o, leverage, sizing.quantity).Ok?
              && FarEnough(o, answer, leverage, sizing, PricesAt(o, leverage, sizing.quantity).value.stopLoss)
  {
  }

  predicate FarEnough(o: OpenRequest, answer: BracketAnswer, leverage: int, sizing: SizingResult, stop: real)
    requires leverage > 0
  {
    var rate := PickMaintenanceMarginRate(answer, sizing.notional);
    LiquidationDistancePct(stop, EstimateLiquidationPrice(o.price, leverage as real, o.side, rate), o.side)
      >= o.minLiquidationDistancePct
  }

  lemma FarEnoughIff(o: OpenRequest, answer: BracketAnswer, leverage: int, sizing: SizingResult, price: real,
                     stop: real)
    requires leverage > 0 && o.price > 0.0 && sizing.quantity > 0.0
    requires LiquidatedAt(o, answer, leverage, sizing, price)
    ensures FarEnough(o, answer, leverage, sizing, stop) <==>
              AheadBy(o.side, price, stop, o.minLiquidationDistancePct)
  {
    var rate := PickMaintenanceMarginRate(answer, sizing.notional);
    DistanceFromBalance(o.side, o.price, sizing.quantity, leverage as real, rate, price, stop,
                        o.minLiquidationDistancePct);
  }

  /** Whether a leverage passes, in terms of that price: an order is affordable, its triggers can be computed, and
      the rounded stop is ahead of liquidation by the minimum distance. */
  lemma PassesIff(o: OpenRequest, answer: BracketAnswer, leverage: int, sizing: SizingResult, price: real)
    requires leverage > 0 && SizingAt(o, leverage) == Ok(sizing) && sizing.IsOk()
    requires LiquidatedAt(o, answer, leverage, sizing, price)
    ensures Passes(o, answer, leverage) <==>
              && PricesAt(o, leverage, sizing.quantity).Ok?
              && AheadBy(o.side, price, PricesAt(o, leverage, sizing.quantity).value.stopLoss,
                         o.minLiquidationDistancePct)
  {
    AcceptedIsPositive(InputsAt(o, leverage));
    PassesByDistance(o, answer, leverage, sizing);
    var prices := PricesAt(o, leverage, sizing.quantity);
    if prices.Ok? { FarEnoughIff(o, answer, leverage, sizing, price, prices.value.stopLoss); }
  }

  lemma FoundLiquidation(o: OpenRequest, answer: BracketAnswer, c: Computed)
    requires c.leverage > 0 && ComputeOpenAtLeverage(o, answer, c.leverage) == Ok(Some(c))
    ensures exists p :: LiquidatedAt(o, answer, c.leverage, c.sizing, p) && c.liquidation == Max(p, 0.0)
  {
    AcceptedIsPositive(InputsAt(o, c.leverage));
    var rate := PickMaintenanceMarginRate(answer, c.sizing.notional);
    LiquidationBalances(o.side, o.price, c.sizing.quantity, c.leverage as real, rate, 0.0);
    var p :| Balances(o.side, o.price, c.sizing.quantity, c.leverage as real, rate, p) && c.liquidation == Max(p, 0.0);
    assert LiquidatedAt(o, answer, c.leverage, c.sizing, p);
  }

  // ---------- the search ----------

  /** No leverage above `l`, up to the requested one, passes. */
  predicate NoneAbovePasses(o: OpenRequest, answers: int -> BracketAnswer, l: nat, requested: int) {
    forall k :: l < k <= requested ==> !Passes(o, answers(k), k)
  }

  lemma NoneBelow(o: OpenRequest, answers: int -> BracketAnswer, l: int)
    requires l > 0 && o.settings.takerCommissionRate >= -0.5 && ComputeOpenAtLeverage(o, answers(l), l).Raised?
    ensures forall k :: 0 < k <= l ==> !Passes(o, answers(k), k)
  {
    forall k | 0 < k <= l ensures !Passes(o, answers(k), k) {
      RaisedMeansNoneBelowPasses(o, answers(l), answers(k), l, k);
    }
  }

  /** _select_leverage_for_open; `answers(l)` is what the exchange says about brackets when tried at l.
      Main result: it returns the greatest leverage that passes whenever one does; when none does it returns
      None, or raises where the greatest leverage that is not skipped raises. */
  method SelectLeverageForOpen(o: OpenRequest, answers: int -> BracketAnswer, requested: int)
    returns (r: Result<Option<Computed>>)
    ensures o.settings.takerCommissionRate >= -0.5 ==>
              if r.Ok? && r.value.Some? then
                var l := r.value.value.leverage;
                1 <= l <= requested && Passes(o, answers(l), l) && NoneAbovePasses(o, answers, l, requested)
              else NoneAbovePasses(o, answers, 0, requested)
    ensures r == Ok(None) <==> forall l :: 1 <= l <= requested ==> Skips(o, answers(l), l)
    ensures r.Ok? && r.value.Some? ==>
              var l := r.value.value.leverage;
              && 1 <= l <= requested && Passes(o, answers(l), l) && ComputeOpenAtLeverage(o, answers(l), l) == r
              && (forall k :: l < k <= requested ==> Skips(o, answers(k), k))
              && exists p :: LiquidatedAt(o, answers(l), l, r.value.value.sizing, p)
                             && r.value.value.liquidation == Max(p, 0.0)
    ensures r.Raised? ==>
              exists l :: 1 <= l <= requested && ComputeOpenAtLeverage(o, answers(l), l) == r
                          && forall k :: l < k <= requested ==> Skips(o, answers(k), k)
  {
    var tryLev := requested;
    while tryLev > 0
      invariant requested > 0 ==> 0 <= tryLev <= requested
      invariant forall k :: 0 < k && tryLev < k <= requested ==> Skips(o, answers(k), k)
    {
      var computed := ComputeOpenAtLeverage(o, answers(tryLev), tryLev);
      if computed.Raised? {
        if o.settings.takerCommissionRate >= -0.5 { NoneBelow(o, answers, tryLev); }
        return computed;
      }
      if computed.value.Some? {
        var c := computed.value.value;
        var distance := LiquidationDistancePct(c.stopLoss, c.liquidation, o.side);
        if CheckLiquidationDistance(distance, o.minLiquidationDistancePct) {
          FoundLiquidation(o, answers(tryLev), c);
          return computed;
        }
      }
      tryLev := tryLev - 1;
    }
    r := Ok(None);
  }

  function WideStopRequest(): OpenRequest {
    var filters := SymbolFilters("TRADING", "PERPETUAL", "USDT", "USDT", 0.1, 0.0, 0.0, 0.0, 0.0, 0.001, 0.0, 0.0, 0.0);
    OpenRequest(TradeSettings(50.0, 200.0, 0.0, 100.0, 0.1), 1.0, Long, 100.0, filters, 1000.0)
  }

  /** A search at 1x with a stop of 200% of the margin ends in the error although None was the answer. */
  lemma SearchCanRaise()
    ensures ComputeOpenAtLeverage(WideStopRequest(), None, 1).Raised? && !Passes(WideStopRequest(), None, 1)
  {
    var i := SizingInputs(100.0, 1.0, 100.0, WideStopRequest().filters, 1000.0);
    assert InputsAt(WideStopRequest(), 1) == i;
    assert RawSteps(i) == 1000;
    RaisesIff(WideStopRequest(), None, 1);
  }
}
