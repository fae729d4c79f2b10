/** Position sizing of `shared/position_sizing.py` and the exact threshold it implements. */
module PositionSizing {
  import opened DecimalUtils
  import opened BinanceFilters

  datatype SizingInputs = SizingInputs(
    marginUsdt: real, leverage: real, price: real, filters: SymbolFilters,
    availableBalanceUsdt: real, safetyBufferPct: real := 0.5)

  datatype SizingReason =
    | MarginMustBePositive | LeverageMustBePositive | InvalidPrice | SymbolNotTradable
    | QuantityRoundsToZero | FilterRefused(filter: FilterReason)
    | RequiredMarginExceedsUserMargin | InsufficientBalance

  datatype SizingResult = SizingResult(
    reason: Option<SizingReason>, quantity: real, notional: real, requiredMargin: real,
    suggestedMinMargin: Option<real>)
  {
    predicate IsOk() { reason.None? }
  }

  function TargetNotional(i: SizingInputs): real { i.marginUsdt * i.leverage }

  /** calculate_position_size, branch by branch; a step size that is not positive raises. */
  function CalculatePositionSize(i: SizingInputs): Result<SizingResult> {
    if i.marginUsdt <= 0.0 then Ok(SizingResult(Some(MarginMustBePositive), 0.0, 0.0, 0.0, None))
    else if i.leverage <= 0.0 then Ok(SizingResult(Some(LeverageMustBePositive), 0.0, 0.0, 0.0, None))
    else if i.price <= 0.0 then Ok(SizingResult(Some(InvalidPrice), 0.0, 0.0, 0.0, None))
    else if !i.filters.IsTradableUsdtPerpetual() then
      Ok(SizingResult(Some(SymbolNotTradable), 0.0, 0.0, 0.0, None))
    else if i.filters.marketLotStepSize <= 0.0 then Raised("step must be positive")
    else Ok(CheckQuantity(i, RawQuantity(i), RequiredMinMargin(i.filters, i.price, i.leverage)))
  }

  /** The checks on a rounded quantity, in the order they are made. */
  function CheckQuantity(i: SizingInputs, quantity: real, suggested: real): SizingResult {
    if quantity <= 0.0 then SizingResult(Some(QuantityRoundsToZero), 0.0, 0.0, 0.0, Some(suggested))
    else
      var notional := Notional(quantity, i.price);
      var check := ValidateOrder(i.filters, quantity, i.price);
      if check.Some? then SizingResult(Some(FilterRefused(check.value)), quantity, notional, 0.0, Some(suggested))
      else
        var requiredMargin := SafeDiv(notional, i.leverage);
        if requiredMargin > i.marginUsdt * 1.005 then
          SizingResult(Some(RequiredMarginExceedsUserMargin), quantity, notional, requiredMargin, Some(suggested))
        else if i.availableBalanceUsdt < requiredMargin * (1.0 + i.safetyBufferPct / 100.0) then
          SizingResult(Some(InsufficientBalance), quantity, notional, requiredMargin, Some(suggested))
        else
          SizingResult(None, quantity, notional, requiredMargin, Some(suggested))
  }

  /** The inputs that reach the arithmetic. */
  predicate Admissible(i: SizingInputs) {
    i.marginUsdt > 0.0 && i.leverage > 0.0 && i.price > 0.0
    && i.filters.IsTradableUsdtPerpetual() && i.filters.marketLotStepSize > 0.0
  }

  /** A quantity that every minimum filter accepts; minimums that are not positive are switched off. */
  predicate MeetsMinimums(f: SymbolFilters, price: real, quantity: real) {
    quantity > 0.0
    && (f.marketLotMinQty > 0.0 ==> f.marketLotMinQty <= quantity)
    && (f.lotMinQty > 0.0 ==> f.lotMinQty <= quantity)
    && (f.minNotional > 0.0 ==> f.minNotional <= Notional(quantity, price))
  }

  /** The largest of all minimum quantities, the notional one expressed as a quantity. */
  function MinimumQuantity(f: SymbolFilters, price: real): real
    requires price > 0.0
  {
    Max(SafeDiv(f.minNotional, price), f.MinLot())
  }

  predicate SomeMinimumIsSet(f: SymbolFilters) {
    f.marketLotMinQty > 0.0 || f.lotMinQty > 0.0 || f.minNotional > 0.0
  }

  /** Number of steps in the smallest order that meets every minimum. */
  function ThresholdSteps(f: SymbolFilters, price: real): int
    requires price > 0.0 && f.marketLotStepSize > 0.0
  {
    var s := Steps(MinimumQuantity(f, price), f.marketLotStepSize, RoundUp);
    if s < 1 then 1 else s
  }

  function ThresholdQuantity(f: SymbolFilters, price: real): real
    requires price > 0.0 && f.marketLotStepSize > 0.0
  {
    Multiple(ThresholdSteps(f, price), f.marketLotStepSize)
  }

  /** What the chosen quantity is: the greatest step multiple the margin pays for. */
  function RawSteps(i: SizingInputs): int
    requires Admissible(i)
  {
    Steps(SafeDiv(TargetNotional(i), i.price), i.filters.marketLotStepSize, RoundDown)
  }

  function RawQuantity(i: SizingInputs): real
    requires Admissible(i)
  {
    Multiple(RawSteps(i), i.filters.marketLotStepSize)
  }

  lemma SomeMinimumMeansPositive(f: SymbolFilters, price: real)
    requires price > 0.0
    ensures SomeMinimumIsSet(f) <==> MinimumQuantity(f, price) > 0.0
  {
    DivBelow(f.minNotional, price, 0.0);
  }

  lemma MeetsMinimumsIsOneBound(f: SymbolFilters, price: real, q: real)
    requires price > 0.0
    ensures MeetsMinimums(f, price, q) <==> q > 0.0 && MinimumQuantity(f, price) <= q
  {
    DivBelow(f.minNotional, price, q);
    DivBelow(f.minNotional, price, 0.0);
  }

  lemma LeastPositiveCover(minQty: real, step: real, n: int)
    requires step > 0.0
    ensures Multiple(n, step) > 0.0 && minQty <= Multiple(n, step)
            <==> n >= 1 && Steps(minQty, step, RoundUp) <= n
  {
    MulIntOrder(1, n, step);
    MulIntOrder(n, 0, step);
    if minQty >= 0.0 {
      RoundUpIsLeastMultiple(minQty, step, n);
    } else {
      NegativeRoundsUpToNoStep(minQty, step);
    }
  }

  lemma NegativeRoundsUpToNoStep(x: real, step: real)
    requires step > 0.0 && x <= 0.0
    ensures Steps(x, step, RoundUp) <= 0
  {
    DivBelow(x, step, 0.0);
  }

  /** n steps meet every minimum filter exactly from ThresholdSteps on. */
  lemma ThresholdIsLeast(f: SymbolFilters, price: real, n: int)
    requires price > 0.0 && f.marketLotStepSize > 0.0
    ensures MeetsMinimums(f, price, Multiple(n, f.marketLotStepSize)) <==> ThresholdSteps(f, price) <= n
  {
    MeetsMinimumsIsOneBound(f, price, Multiple(n, f.marketLotStepSize));
    LeastPositiveCover(MinimumQuantity(f, price), f.marketLotStepSize, n);
  }

  lemma MultiplesBelow(funds: real, price: real, step: real, n: int)
    requires funds >= 0.0 && price > 0.0 && step > 0.0
    ensures n <= Steps(SafeDiv(funds, price), step, RoundDown) <==> Notional(Multiple(n, step), price) <= funds
    ensures 0 <= Steps(SafeDiv(funds, price), step, RoundDown)
  {
    DivBelow(funds, price, 0.0);
    DivBelow(funds, price, Multiple(n, step));
    RoundDownIsGreatestMultiple(funds / price, step, n);
    RoundDownIsGreatestMultiple(funds / price, step, 0);
  }

  lemma FundsPositive(i: SizingInputs)
    requires Admissible(i)
    ensures TargetNotional(i) > 0.0
  {
    MulLess(0.0, i.marginUsdt, i.leverage);
  }

  /** The margin buys n steps iff it covers their notional at the given leverage. */
  lemma StepsAffordable(i: SizingInputs, n: int)
    requires Admissible(i)
    ensures n <= RawSteps(i) <==> Notional(Multiple(n, i.filters.marketLotStepSize), i.price) <= TargetNotional(i)
    ensures RawSteps(i) >= 0
  {
    FundsPositive(i);
    MultiplesBelow(TargetNotional(i), i.price, i.filters.marketLotStepSize, n);
  }

  /** The order never needs more margin than the user gave, so the 0.5% tolerance never decides. */
  lemma RequiredMarginWithinUserMargin(i: SizingInputs)
    requires Admissible(i)
    ensures SafeDiv(Notional(RawQuantity(i), i.price), i.leverage) <= i.marginUsdt < i.marginUsdt * 1.005
  {
    StepsAffordable(i, RawSteps(i));
    DivBelow(Notional(RawQuantity(i), i.price), i.leverage, i.marginUsdt);
  }

  /** The balance the order must leave room for, commission buffer included. */
  predicate BalanceCovers(i: SizingInputs, quantity: real) {
    SafeDiv(Notional(quantity, i.price), i.leverage) * (1.0 + i.safetyBufferPct / 100.0) <= i.availableBalanceUsdt
  }

  lemma ValidateMeaning(f: SymbolFilters, q: real, price: real)
    requires f.IsTradableUsdtPerpetual()
    ensures ValidateOrder(f, q, price).None?
            <==> MeetsMinimums(f, price, q) && QuantityWithinMax(f, q) && PriceWithinBounds(f, price)
  {
  }

  lemma CheckQuantityMeaning(i: SizingInputs, q: real, suggested: real)
    requires i.filters.IsTradableUsdtPerpetual() && SafeDiv(Notional(q, i.price), i.leverage) <= i.marginUsdt * 1.005
    ensures CheckQuantity(i, q, suggested).IsOk()
            <==> MeetsMinimums(i.filters, i.price, q) && QuantityWithinMax(i.filters, q)
                 && PriceWithinBounds(i.filters, i.price) && BalanceCovers(i, q)
    ensures CheckQuantity(i, q, suggested).reason != Some(RequiredMarginExceedsUserMargin)
  {
    ValidateMeaning(i.filters, q, i.price);
  }

  /** Sizing accepts exactly the inputs whose margin reaches the threshold order and whose
      resulting order respects maximum, price and balance bounds. */
  lemma SizingSucceedsIff(i: SizingInputs)
    ensures CalculatePositionSize(i).Ok? && CalculatePositionSize(i).value.IsOk()
            <==> Admissible(i)
                 && Notional(ThresholdQuantity(i.filters, i.price), i.price) <= TargetNotional(i)
                 && QuantityWithinMax(i.filters, RawQuantity(i)) && PriceWithinBounds(i.filters, i.price)
                 && BalanceCovers(i, RawQuantity(i))
  {
    if Admissible(i) {
      RequiredMarginWithinUserMargin(i);
      CheckQuantityMeaning(i, RawQuantity(i), RequiredMinMargin(i.filters, i.price, i.leverage));
      ThresholdIsLeast(i.filters, i.price, RawSteps(i));
      StepsAffordable(i, ThresholdSteps(i.filters, i.price));
    }
  }

  /** No input at all is refused for exceeding the user's margin. */
  lemma ToleranceBranchUnreachable(i: SizingInputs)
    ensures CalculatePositionSize(i).Ok? ==>
              CalculatePositionSize(i).value.reason != Some(RequiredMarginExceedsUserMargin)
  {
    if Admissible(i) {
      RequiredMarginWithinUserMargin(i);
      CheckQuantityMeaning(i, RawQuantity(i), RequiredMinMargin(i.filters, i.price, i.leverage));
    }
  }

  /** Why an order is refused once the inputs are admissible: one step already costs more than the margin pays for;
      otherwise the filter that refuses the quantity; otherwise the balance does not cover margin and buffer. */
  lemma SizingRefusedFor(i: SizingInputs, filter: FilterReason)
    requires Admissible(i)
    ensures var reason, step := CalculatePositionSize(i).value.reason, Multiple(1, i.filters.marketLotStepSize);
            var refusal := ValidateOrder(i.filters, RawQuantity(i), i.price);
            var affordable := Notional(step, i.price) <= TargetNotional(i);
            && (reason == Some(QuantityRoundsToZero) <==> !affordable)
            && (reason == Some(FilterRefused(filter)) <==> affordable && refusal == Some(filter))
            && (reason == Some(InsufficientBalance) <==>
                  affordable && refusal.None? && !BalanceCovers(i, RawQuantity(i)))
  {
    StepsAffordable(i, 1);
    MulIntOrder(1, RawSteps(i), i.filters.marketLotStepSize);
    MulIntOrder(RawSteps(i), 0, i.filters.marketLotStepSize);
    RequiredMarginWithinUserMargin(i);
  }

  /** An accepted order passes the filters, needs at most the user's margin, and is the largest
      step multiple that margin pays for. */
  lemma AcceptedOrder(i: SizingInputs, r: SizingResult, n: int)
    requires CalculatePositionSize(i) == Ok(r) && r.IsOk()
    ensures r.quantity > 0.0 && ValidateOrder(i.filters, r.quantity, i.price).None?
    ensures r.notional == Notional(r.quantity, i.price) && r.requiredMargin * i.leverage == r.notional
    ensures r.requiredMargin <= i.marginUsdt
    ensures r.quantity == Multiple(RawSteps(i), i.filters.marketLotStepSize)
    ensures Notional(Multiple(n, i.filters.marketLotStepSize), i.price) <= TargetNotional(i)
            ==> Multiple(n, i.filters.marketLotStepSize) <= r.quantity
  {
    RequiredMarginWithinUserMargin(i);
    StepsAffordable(i, n);
    MulIntOrder(n, RawSteps(i), i.filters.marketLotStepSize);
    DivBelow(r.notional, i.leverage, 0.0);
  }

  predicate Accepts(r: Result<SizingResult>) { r.Ok? && r.value.IsOk() }

  lemma AcceptedIsPositive(i: SizingInputs)
    requires Accepts(CalculatePositionSize(i))
    ensures CalculatePositionSize(i).value.quantity > 0.0 && i.price > 0.0 && i.leverage > 0.0
  {
    AcceptedOrder(i, CalculatePositionSize(i).value, 0);
  }

  lemma RoundUpOfPositive(x: real, step: real)
    requires x > 0.0 && step > 0.0
    ensures Steps(x, step, RoundUp) >= 1 && Quantize(x, step, RoundUp) >= x
  {
    RoundUpIsLeastMultiple(x, step, 0);
  }

  lemma NotionalOfThreshold(f: SymbolFilters, price: real)
    requires price > 0.0 && f.marketLotStepSize > 0.0 && SomeMinimumIsSet(f)
    ensures Quantize(MinimumQuantity(f, price), f.marketLotStepSize, RoundUp) == ThresholdQuantity(f, price)
    ensures f.minNotional <= Notional(ThresholdQuantity(f, price), price)
    ensures Notional(ThresholdQuantity(f, price), price) > 0.0
  {
    SomeMinimumMeansPositive(f, price);
    RoundUpOfPositive(MinimumQuantity(f, price), f.marketLotStepSize);
    var t := ThresholdQuantity(f, price);
    DivBelow(f.minNotional, price, t);
    MulLess(0.0, t, price);
  }

  lemma CentsCovering(notional: real, leverage: real, cents: int)
    requires notional > 0.0 && leverage > 0.0
    ensures var least := Quantize(SafeDiv(notional, leverage), CENT, RoundUp);
            && (least <= Multiple(cents, CENT) <==> notional <= Notional(Multiple(cents, CENT), leverage))
            && least > 0.0 && notional <= Notional(least, leverage)
  {
    var least := Quantize(SafeDiv(notional, leverage), CENT, RoundUp);
    DivBelow(notional, leverage, 0.0);
    RoundUpIsLeastMultiple(notional / leverage, CENT, cents);
    DivBelow(notional, leverage, Multiple(cents, CENT));
    DivBelow(notional, leverage, least);
  }

  /** The suggested margin is the least whole number of cents that reaches the threshold order. */
  lemma SuggestedMarginIsLeast(f: SymbolFilters, price: real, leverage: real, cents: int)
    requires price > 0.0 && leverage > 0.0 && f.marketLotStepSize > 0.0 && SomeMinimumIsSet(f)
    ensures RequiredMinMargin(f, price, leverage) <= Multiple(cents, CENT)
            <==> Notional(ThresholdQuantity(f, price), price) <= Notional(Multiple(cents, CENT), leverage)
    ensures RequiredMinMargin(f, price, leverage) > 0.0
    ensures Notional(ThresholdQuantity(f, price), price) <= Notional(RequiredMinMargin(f, price, leverage), leverage)
  {
    var notional := Notional(ThresholdQuantity(f, price), price);
    NotionalOfThreshold(f, price);
    assert RequiredMinMargin(f, price, leverage) == Quantize(SafeDiv(notional, leverage), CENT, RoundUp);
    CentsCovering(notional, leverage, cents);
  }

  lemma NothingToSuggest(f: SymbolFilters, price: real, leverage: real)
    requires price > 0.0 && leverage > 0.0 && f.marketLotStepSize > 0.0 && !SomeMinimumIsSet(f)
    ensures RequiredMinMargin(f, price, leverage) <= 0.0
  {
    SomeMinimumMeansPositive(f, price);
    var t := Quantize(MinimumQuantity(f, price), f.marketLotStepSize, RoundUp);
    RoundingOfNegatives(MinimumQuantity(f, price), f.marketLotStepSize);
    MulLeq(t, 0.0, price);
    var m := Max(f.minNotional, Notional(t, price));
    DivBelow(m, leverage, 0.0);
    RoundingOfNegatives(SafeDiv(m, leverage), CENT);
  }

  lemma RequiredMinMarginPasses(i: SizingInputs, again: SizingInputs)
    requires i.price > 0.0 && i.leverage > 0.0 && i.filters.IsTradableUsdtPerpetual()
    requires i.filters.marketLotStepSize > 0.0
    requires again == i.(marginUsdt := RequiredMinMargin(i.filters, i.price, i.leverage))
    ensures Admissible(again) <==> SomeMinimumIsSet(i.filters)
    ensures Admissible(again) ==> MeetsMinimums(i.filters, i.price, RawQuantity(again))
  {
    if SomeMinimumIsSet(i.filters) {
      SuggestedMarginIsLeast(i.filters, i.price, i.leverage, 0);
      StepsAffordable(again, ThresholdSteps(i.filters, i.price));
      ThresholdIsLeast(i.filters, i.price, RawSteps(again));
    } else {
      NothingToSuggest(i.filters, i.price, i.leverage);
    }
  }

  /** Every sizing that gets to the arithmetic suggests a margin, and sizing again with it is never refused by a
      minimum; with no minimum set the suggestion is not even positive. */
  lemma SuggestedMarginPassesMinimums(i: SizingInputs)
    requires Admissible(i)
    ensures var suggested := CalculatePositionSize(i).value.suggestedMinMargin;
            && suggested.Some?
            && var again := i.(marginUsdt := suggested.value);
               && (Admissible(again) <==> SomeMinimumIsSet(i.filters))
               && (Admissible(again) ==> MeetsMinimums(i.filters, i.price, RawQuantity(again)))
  {
    var suggested := SuggestionOf(i);
    RequiredMinMarginPasses(i, i.(marginUsdt := suggested));
  }

  lemma SuggestionOf(i: SizingInputs) returns (suggested: real)
    requires Admissible(i)
    ensures suggested == RequiredMinMargin(i.filters, i.price, i.leverage)
    ensures CalculatePositionSize(i).value.suggestedMinMargin == Some(suggested)
  {
    suggested := RequiredMinMargin(i.filters, i.price, i.leverage);
  }
}
