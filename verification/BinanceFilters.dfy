/** Exchange filters of `shared/binance_filters.py`. */
module BinanceFilters {
  import opened DecimalUtils

  datatype SymbolFilters = SymbolFilters(
    status: string, contractType: string, quoteAsset: string, marginAsset: string,
    priceTickSize: real, priceMin: real, priceMax: real,
    lotMinQty: real, lotMaxQty: real,
    marketLotStepSize: real, marketLotMinQty: real, marketLotMaxQty: real,
    minNotional: real)
  {
    predicate IsTradableUsdtPerpetual() {
      status == "TRADING" && contractType == "PERPETUAL" && quoteAsset == "USDT" && marginAsset == "USDT"
    }

    /** The larger of the two lot minimums, as both functions below compute it. */
    function MinLot(): real { Max(marketLotMinQty, lotMinQty) }

    /** The smaller of the maximums that are set; None when neither is. */
    function MaxQty(): Option<real> {
      if marketLotMaxQty > 0.0 && lotMaxQty > 0.0 then Some(Min(marketLotMaxQty, lotMaxQty))
      else if marketLotMaxQty > 0.0 then Some(marketLotMaxQty)
      else if lotMaxQty > 0.0 then Some(lotMaxQty)
      else None
    }
  }

  datatype FilterReason =
    | NotTradable | QuantityZeroOrNegative | QuantityBelowMinQty | QuantityAboveMaxQty
    | PriceBelowMin | PriceAboveMax | NotionalBelowMin

  const CENT := 0.01

  function Notional(quantity: real, price: real): real { quantity * price }

  /** required_min_margin, for a leverage and a step its caller has already found positive. */
  function RequiredMinMargin(filters: SymbolFilters, price: real, leverage: real): real
    requires leverage > 0.0 && filters.marketLotStepSize > 0.0
  {
    var minQty := Max(SafeDiv(filters.minNotional, price), filters.MinLot());
    var minQtyRounded := Quantize(minQty, filters.marketLotStepSize, RoundUp);
    var minNotionalActual := Max(filters.minNotional, Notional(minQtyRounded, price));
    Quantize(SafeDiv(minNotionalActual, leverage), CENT, RoundUp)
  }

  /** validate_order: the first filter that refuses the order, in the order they are tried. */
  function ValidateOrder(filters: SymbolFilters, quantity: real, price: real): Option<FilterReason> {
    if !filters.IsTradableUsdtPerpetual() then Some(NotTradable)
    else if quantity <= 0.0 then Some(QuantityZeroOrNegative)
    else if filters.MinLot() > 0.0 && quantity < filters.MinLot() then Some(QuantityBelowMinQty)
    else if filters.MaxQty().Some? && quantity > filters.MaxQty().value then Some(QuantityAboveMaxQty)
    else if filters.priceMin > 0.0 && price < filters.priceMin then Some(PriceBelowMin)
    else if filters.priceMax > 0.0 && price > filters.priceMax then Some(PriceAboveMax)
    else if filters.minNotional > 0.0 && Notional(quantity, price) < filters.minNotional then Some(NotionalBelowMin)
    else None
  }

  /** Whether one filter by itself refuses the order; filters that are not set refuse nothing. */
  predicate Refuses(filters: SymbolFilters, quantity: real, price: real, reason: FilterReason) {
    match reason
    case NotTradable => !filters.IsTradableUsdtPerpetual()
    case QuantityZeroOrNegative => quantity <= 0.0
    case QuantityBelowMinQty =>
      (filters.marketLotMinQty > 0.0 && quantity < filters.marketLotMinQty)
      || (filters.lotMinQty > 0.0 && quantity < filters.lotMinQty)
    case QuantityAboveMaxQty => !QuantityWithinMax(filters, quantity)
    case PriceBelowMin => filters.priceMin > 0.0 && price < filters.priceMin
    case PriceAboveMax => filters.priceMax > 0.0 && price > filters.priceMax
    case NotionalBelowMin => filters.minNotional > 0.0 && Notional(quantity, price) < filters.minNotional
  }

  /** In the order the filters are tried. */
  function Rank(reason: FilterReason): nat {
    match reason
    case NotTradable => 0
    case QuantityZeroOrNegative => 1
    case QuantityBelowMinQty => 2
    case QuantityAboveMaxQty => 3
    case PriceBelowMin => 4
    case PriceAboveMax => 5
    case NotionalBelowMin => 6
  }

  /** The order is refused for a reason exactly when that filter refuses it and none ahead of it does; it is accepted
      exactly when none refuses. */
  lemma RefusedForFirst(filters: SymbolFilters, quantity: real, price: real, reason: FilterReason)
    ensures ValidateOrder(filters, quantity, price) == Some(reason) <==>
              Refuses(filters, quantity, price, reason)
              && forall r :: Refuses(filters, quantity, price, r) ==> Rank(reason) <= Rank(r)
    ensures ValidateOrder(filters, quantity, price).None? <==>
              forall r :: !Refuses(filters, quantity, price, r)
  {
    var first := ValidateOrder(filters, quantity, price);
    assert first.Some? ==> Refuses(filters, quantity, price, first.value);
  }

  /** The price bounds that are set, read together. */
  predicate PriceWithinBounds(filters: SymbolFilters, price: real) {
    (filters.priceMin > 0.0 ==> filters.priceMin <= price) && (filters.priceMax > 0.0 ==> price <= filters.priceMax)
  }

  predicate QuantityWithinMax(filters: SymbolFilters, quantity: real) {
    (filters.marketLotMaxQty > 0.0 ==> quantity <= filters.marketLotMaxQty)
    && (filters.lotMaxQty > 0.0 ==> quantity <= filters.lotMaxQty)
  }
}
