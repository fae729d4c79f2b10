/** Adding to a losing position as a compensating transaction, `worker/order_engine.py`, and the ladder
    of additions over a whole monitor run, `shared/loss_add.py`. */
module LossAddition {
  import opened DecimalUtils
  import opened TradingTypes
  import opened BinanceFilters
  import opened PositionSizing
  import opened Exchange
  import opened ProtectiveOrders
  import opened OrderEngine
  import opened Roi
  import PositionExit

  /** add_to_position_on_loss returns True for Added and False for the next three; the last two are the
      ValueErrors of sizing and of the first refresh. */
  datatype AddResult = Added | NotPlaced | Reverted | RevertFailed | SizingRaised | RefreshRaised

  /** The money fields an addition touches. */
  datatype Book = Book(entryPrice: real, quantity: real, notionalUsdt: real, marginUsdt: real, openCommissionUsdt: real,
                       lossAddCount: nat)

  function BookOf(pos: Position): Book
    reads pos
  {
    Book(pos.entryPrice, pos.quantity, pos.notionalUsdt, pos.marginUsdt, pos.openCommissionUsdt, pos.lossAddCount)
  }

  /** Quantity-weighted entry after buying `added` more at `fill`. */
  function MergedEntry(entry: real, quantity: real, fill: real, added: real): real {
    SafeDiv(entry * quantity + fill * added, quantity + added)
  }

  /** The book once `added` has been filled at `fill`. */
  function BookAfterAdd(b: Book, s: TradeSettings, fill: real, added: real): Book {
    var entry := MergedEntry(b.entryPrice, b.quantity, fill, added);
    Book(entry, b.quantity + added, entry * (b.quantity + added), b.marginUsdt + s.marginPerTradeUsdt,
         b.openCommissionUsdt + fill * added * s.takerCommissionRate, b.lossAddCount + 1)
  }

  /** The book as a revert writes it back. */
  function Restored(b: Book): Book { b.(notionalUsdt := b.entryPrice * b.quantity) }

  /** What the exchange holds beyond the local quantity; zero when they agree. */
  function Excess(pos: Position, ex: FuturesExchange): real
    reads pos, ex
  {
    ex.quantity - Exposure(pos.side, pos.quantity)
  }

  method WriteBook(pos: Position, b: Book)
    modifies pos`entryPrice, pos`quantity, pos`notionalUsdt, pos`marginUsdt, pos`openCommissionUsdt, pos`lossAddCount
    ensures BookOf(pos) == b
  {
    pos.entryPrice, pos.quantity, pos.notionalUsdt := b.entryPrice, b.quantity, b.notionalUsdt;
    pos.marginUsdt, pos.openCommissionUsdt, pos.lossAddCount := b.marginUsdt, b.openCommissionUsdt, b.lossAddCount;
  }

  /** Sizing at the mark, at the position's own leverage. */
  function AdditionInputs(s: TradeSettings, leverage: int, filters: SymbolFilters, price: real,
                          available: real): SizingInputs {
    SizingInputs(s.marginPerTradeUsdt, leverage as real, price, filters, available)
  }

  /** The whole of an accepted order, */
  lemma AcceptedIsCovered(i: SizingInputs)
    requires Accepts(CalculatePositionSize(i))
    ensures Notional(CalculatePositionSize(i).value.quantity, i.price) <= TargetNotional(i)
  {
    StepsAffordable(i, RawSteps(i));
  }

  lemma NotionalGrows(part: real, whole: real, price: real)
    requires part <= whole && price > 0.0
    ensures Notional(part, price) <= Notional(whole, price)
  {
    MulLeq(part, whole, price);
  }

  /** and so any part of it, takes no more than the trade margin at the mark. */
  lemma PartWithinMargin(i: SizingInputs, part: real)
    requires Accepts(CalculatePositionSize(i)) && part <= CalculatePositionSize(i).value.quantity
    ensures Notional(part, i.price) <= TargetNotional(i)
  {
    AcceptedIsPositive(i);
    AcceptedIsCovered(i);
    NotionalGrows(part, CalculatePositionSize(i).value.quantity, i.price);
  }

  /** A new book, and both orders placed again at the prices it gives. */
  method Rebook(db: Database, ex: FuturesExchange, pos: Position, s: TradeSettings, b: Book)
    returns (refreshed: Option<bool>)
    requires Consistent(db, ex) && Honest(pos, ex.algos) && pos.status == Open && b.quantity > 0.0
    modifies db`rows, db`nextRow, db`nextAlgoId, db`riskEvents, ex`algos, ex`submissions, ex`replies, ex`cancels, pos
    ensures Consistent(db, ex) && Honest(pos, ex.algos) && pos.status == Open && BookOf(pos) == b
    ensures refreshed == Some(true) ==> Protected(pos, ex.algos)
    ensures refreshed.Some? <==> ProtectivePrices(s, pos.side, pos.leverage, b.entryPrice, b.quantity).Ok?
    ensures refreshed.Some? ==>
              && Prices(pos.stopLossPrice, pos.takeProfitPrice)
                 == ProtectivePrices(s, pos.side, pos.leverage, b.entryPrice, b.quantity).value
              && LiveFromPrices(old(ex.algos), ex.algos, pos.side, pos.stopLossPrice, pos.takeProfitPrice,
                                s.priceTickSize)
    ensures old(db.riskEvents) <= db.riskEvents && (db.riskEvents == old(db.riskEvents) <==> refreshed != Some(false))
  {
    WriteBook(pos, b);
    refreshed := RefreshProtectiveOrders(db, ex, pos, s);
  }

  /** The compensation: sell back what was added, restore the book, place the orders again. */
  method RevertAddition(db: Database, ex: FuturesExchange, pos: Position, s: TradeSettings, before: Book, added: real)
    returns (reverted: bool)
    requires Consistent(db, ex) && Honest(pos, ex.algos) && pos.status == Open
    requires 0.0 < added && 0.0 < before.quantity && pos.quantity == before.quantity + added && Excess(pos, ex) == 0.0
    modifies db`rows, db`nextRow, db`nextAlgoId, db`riskEvents, pos
    modifies ex`algos, ex`submissions, ex`replies, ex`cancels, ex`quantity, ex`unreported, ex`reduceOnlyOrders
    ensures Consistent(db, ex) && Honest(pos, ex.algos) && pos.status == Open && pos.quantity > 0.0
    ensures Excess(pos, ex) == ex.unreported - old(ex.unreported)
    ensures OneMore(old(ex.reduceOnlyOrders), ex.reduceOnlyOrders, CloseSide(pos.side), added)
    ensures old(db.riskEvents) <= db.riskEvents
    ensures reverted <==>
              LastReply(ex.reduceOnlyOrders).Done?
              && ProtectivePrices(s, pos.side, pos.leverage, before.entryPrice, before.quantity).Ok?
    ensures reverted ==> BookOf(pos) == Restored(before) && Excess(pos, ex) == 0.0
    ensures !reverted ==> !pos.protectiveOrdersOk
    ensures !reverted ==>
              (BookOf(pos) == old(BookOf(pos))
               || ProtectivePrices(s, pos.side, pos.leverage, before.entryPrice, before.quantity).Raised?)
  {
    var reply := ex.PlaceReduceOnly(CloseSide(pos.side), added);
    if reply.Error? {
      pos.protectiveOrdersOk := false;
      return false;
    }
    var again := Rebook(db, ex, pos, s, Restored(before));
    if again.None? { pos.protectiveOrdersOk := false; }
    reverted := again.Some?;
  }

  /** Fill price and quantity of an order for `size`, none if it was reported as failed. */
  function Bought(r: MarketReply, size: real, price: real): Option<(real, real)> {
    if r.Error? then None else Some((FilledPrice(r, price), FilledQty(r, size)))
  }

  /** The opening-side order; None when it fails. An omitted quantity or price falls back to the order's. */
  method BuyMore(ex: FuturesExchange, side: PositionSide, size: real, price: real) returns (r: Option<(real, real)>)
    requires ex.Valid() && size > 0.0
    modifies ex`quantity, ex`unreported, ex`marketOrders
    ensures ex.Valid() && OneMore(old(ex.marketOrders), ex.marketOrders, OpenSide(side), size)
    ensures r == Bought(LastReply(ex.marketOrders), size, price)
    ensures r.None? ==> ex.quantity - ex.unreported == old(ex.quantity - ex.unreported)
    ensures r.Some? ==> 0.0 < r.value.1 <= size && ex.quantity == old(ex.quantity) + Exposure(side, r.value.1)
                        && ex.unreported == old(ex.unreported)
  {
    var reply := ex.PlaceMarketOrder(OpenSide(side), size);
    if reply.Error? { return None; }
    var added := if reply.executedQty > 0.0 then reply.executedQty else size;
    var fill := if reply.avgPrice > 0.0 then reply.avgPrice else price;
    r := Some((fill, added));
  }

  lemma MergedEntryPositive(entry: real, quantity: real, fill: real, added: real)
    requires entry > 0.0 && quantity > 0.0 && fill > 0.0 && added > 0.0
    ensures MergedEntry(entry, quantity, fill, added) > 0.0
  {
    MulLess(0.0, entry, quantity);
    MulLess(0.0, fill, added);
    DivBelow(entry * quantity + fill * added, quantity + added, 0.0);
  }

  /** An addition books what it costs: the notional grows by exactly the fill's, one trade margin is added, and a
      commission that was the rate's share of the notional stays so. */
  lemma AdditionConserves(b: Book, s: TradeSettings, fill: real, added: real)
    requires b.quantity > 0.0 && added > 0.0
    ensures var after := BookAfterAdd(b, s, fill, added);
            && after.notionalUsdt == after.entryPrice * after.quantity == b.entryPrice * b.quantity + fill * added
            && after.quantity == b.quantity + added && after.marginUsdt == b.marginUsdt + s.marginPerTradeUsdt
            && after.lossAddCount == b.lossAddCount + 1
            && (b.openCommissionUsdt == b.entryPrice * b.quantity * s.takerCommissionRate ==>
                  after.openCommissionUsdt == after.notionalUsdt * s.takerCommissionRate)
  {
    var cost, total := b.entryPrice * b.quantity + fill * added, b.quantity + added;
    assert MergedEntry(b.entryPrice, b.quantity, fill, added) * total == cost;
    assert cost * s.takerCommissionRate == b.entryPrice * b.quantity * s.takerCommissionRate
                                           + fill * added * s.takerCommissionRate;
  }

  /** If the prices of the enlarged position could be computed, so can those of the restored one. */
  lemma RevertCanRefresh(s: TradeSettings, side: PositionSide, leverage: int, before: Book, fill: real, added: real)
    requires before.entryPrice > 0.0 && before.quantity > 0.0 && fill > 0.0 && added > 0.0
    requires var after := BookAfterAdd(before, s, fill, added);
             ProtectivePrices(s, side, leverage, after.entryPrice, after.quantity).Ok?
    ensures ProtectivePrices(s, side, leverage, before.entryPrice, before.quantity).Ok?
  {
    MergedEntryPositive(before.entryPrice, before.quantity, fill, added);
    var after := BookAfterAdd(before, s, fill, added);
    PricesRaiseAlike(s, side, leverage, after.entryPrice, after.quantity, before.entryPrice, before.quantity);
  }

  /** Whether the prices of the enlarged position cannot be computed. */
  predicate AdditionRaises(b: Book, s: TradeSettings, side: PositionSide, leverage: int, fill: real, added: real) {
    var after := BookAfterAdd(b, s, fill, added);
    ProtectivePrices(s, side, leverage, after.entryPrice, after.quantity).Raised?
  }

  /** Exactly what was added is sold back, if anything is; the result says how that was answered. */
  predicate SoldBack(result: AddResult, before: seq<SentOrder>, after: seq<SentOrder>, side: PositionSide,
                     added: real) {
    if result in {Reverted, RevertFailed}
    then OneMore(before, after, CloseSide(side), added) && (result == Reverted <==> LastReply(after).Done?)
    else after == before
  }

  /** After the fill: record it, protect the larger position, or take it all back. */
  method CommitAddition(db: Database, ex: FuturesExchange, pos: Position, s: TradeSettings, fill: real, added: real)
    returns (result: AddResult)
    requires Consistent(db, ex) && Honest(pos, ex.algos) && pos.status == Open
    requires 0.0 < added && 0.0 < pos.quantity && Excess(pos, ex) == Exposure(pos.side, added)
    requires 0.0 < fill && 0.0 < pos.entryPrice
    modifies db`rows, db`nextRow, db`nextAlgoId, db`riskEvents, pos
    modifies ex`algos, ex`submissions, ex`replies, ex`cancels, ex`quantity, ex`unreported, ex`reduceOnlyOrders
    ensures Consistent(db, ex) && Honest(pos, ex.algos) && pos.status == Open && pos.quantity > 0.0
    ensures Excess(pos, ex) == ex.unreported - old(ex.unreported)
    ensures result in {Added, RefreshRaised, Reverted, RevertFailed}
    ensures result == RefreshRaised <==> AdditionRaises(old(BookOf(pos)), s, pos.side, pos.leverage, fill, added)
    ensures result in {Reverted, RevertFailed} <==> db.riskEvents != old(db.riskEvents)
    ensures SoldBack(result, old(ex.reduceOnlyOrders), ex.reduceOnlyOrders, pos.side, added)
    ensures result != Reverted ==> BookOf(pos) == BookAfterAdd(old(BookOf(pos)), s, fill, added)
    ensures result != RevertFailed ==> Excess(pos, ex) == 0.0
    ensures result == Added ==> Protected(pos, ex.algos)
    ensures result == Reverted ==> BookOf(pos) == Restored(old(BookOf(pos)))
    ensures result == RevertFailed ==> !pos.protectiveOrdersOk
  {
    var before := BookOf(pos);
    var refreshed := Rebook(db, ex, pos, s, BookAfterAdd(before, s, fill, added));
    if refreshed.None? { return RefreshRaised; }
    if refreshed.value { return Added; }
    RevertCanRefresh(s, pos.side, pos.leverage, before, fill, added);
    var reverted := RevertAddition(db, ex, pos, s, before, added);
    result := if reverted then Reverted else RevertFailed;
  }

  /** How the addition begins: sizing decides whether anything is ordered, and for how much; the answer to the order
      decides whether anything was bought. */
  ghost predicate Begins(result: AddResult, sizing: Result<SizingResult>, before: seq<SentOrder>,
                         after: seq<SentOrder>, side: PositionSide, price: real, fill: real, added: real) {
    && (result == SizingRaised <==> sizing.Raised?)
    && (if Accepts(sizing) then OneMore(before, after, OpenSide(side), sizing.value.quantity) else after == before)
    && (result == NotPlaced <==> sizing.Ok? && (Accepts(sizing) ==> LastReply(after).Error?))
    && (result !in {NotPlaced, SizingRaised} ==>
          Accepts(sizing) && added <= sizing.value.quantity
          && Bought(LastReply(after), sizing.value.quantity, price) == Some((fill, added)))
  }

  /** add_to_position_on_loss. `price` is the mark price read and `available` the free balance.
      On every path the exchange moves by exactly what the local quantity moves by, plus the fills whose
      acknowledgement was lost; what is bought is at most what sizing accepts at the mark, so it takes no more than
      the trade margin; a completed revert restores the book. */
  method AddToPositionOnLoss(db: Database, ex: FuturesExchange, pos: Position, s: TradeSettings, filters: SymbolFilters,
                             price: real, available: real)
    returns (result: AddResult, ghost fill: real, ghost added: real)
    requires Consistent(db, ex) && Honest(pos, ex.algos) && pos.status == Open && Matched(pos, ex)
    requires pos.entryPrice > 0.0
    modifies db`rows, db`nextRow, db`nextAlgoId, db`riskEvents, ex, pos
    ensures Consistent(db, ex) && Honest(pos, ex.algos) && pos.status == Open && pos.quantity > 0.0
    ensures Begins(result, CalculatePositionSize(AdditionInputs(s, pos.leverage, filters, price, available)),
                   old(ex.marketOrders), ex.marketOrders, pos.side, price, fill, added)
    ensures SoldBack(result, old(ex.reduceOnlyOrders), ex.reduceOnlyOrders, pos.side, added)
    ensures Excess(pos, ex) == ex.unreported - old(ex.unreported)
    ensures result !in {NotPlaced, SizingRaised} ==>
              && 0.0 < added && 0.0 < fill
              && Notional(added, price) <= TargetNotional(AdditionInputs(s, pos.leverage, filters, price, available))
              && (result == RefreshRaised <==> AdditionRaises(old(BookOf(pos)), s, pos.side, pos.leverage, fill, added))
    ensures result in {Added, RefreshRaised, RevertFailed} ==>
              BookOf(pos) == BookAfterAdd(old(BookOf(pos)), s, fill, added)
    ensures result in {Reverted, RevertFailed} <==> db.riskEvents != old(db.riskEvents)
    ensures result == Added ==> Protected(pos, ex.algos)
    ensures result in {Added, RefreshRaised, Reverted} ==> Excess(pos, ex) == 0.0
    ensures result == Reverted ==> BookOf(pos) == Restored(old(BookOf(pos)))
    ensures result in {NotPlaced, SizingRaised} ==>
              BookOf(pos) == old(BookOf(pos)) && Now(db, ex) == old(Now(db, ex))
    ensures result == RevertFailed ==> !pos.protectiveOrdersOk
  {
    fill, added := 0.0, 0.0;
    var inputs := AdditionInputs(s, pos.leverage, filters, price, available);
    var sizing := CalculatePositionSize(inputs);
    if sizing.Raised? { return SizingRaised, fill, added; }
    if !sizing.value.IsOk() { return NotPlaced, fill, added; }
    AcceptedIsPositive(inputs);
    var bought := BuyMore(ex, pos.side, sizing.value.quantity, price);
    if bought.None? { return NotPlaced, fill, added; }
    fill, added := bought.value.0, bought.value.1;
    PartWithinMargin(inputs, added);
    result := CommitAddition(db, ex, pos, s, bought.value.0, bought.value.1);
  }

  /** What the engine does to an open position between its opening and its closing. */
  datatype Operation = Refresh | Add(price: real, available: real)

  /** Any run of refreshes and additions, up to the first acknowledgement that is lost: at every point the
      flag is honest and the local quantity is the exchange's. */
  method MaintainPosition(db: Database, ex: FuturesExchange, pos: Position, s: TradeSettings, filters: SymbolFilters,
                          ops: seq<Operation>)
    returns (done: nat)
    requires Consistent(db, ex) && Honest(pos, ex.algos) && pos.status == Open && Matched(pos, ex)
    requires pos.entryPrice > 0.0
    modifies db`rows, db`nextRow, db`nextAlgoId, db`riskEvents, ex, pos
    ensures done <= |ops|
    ensures Consistent(db, ex) && Honest(pos, ex.algos) && pos.status == Open && pos.quantity > 0.0
    ensures pos.entryPrice > 0.0
    ensures Excess(pos, ex) == ex.unreported - old(ex.unreported)
    ensures done < |ops| ==> ex.unreported != old(ex.unreported)
  {
    done := 0;
    while done < |ops| && Matched(pos, ex)
      invariant 0 <= done <= |ops|
      invariant Consistent(db, ex) && Honest(pos, ex.algos) && pos.status == Open && pos.quantity > 0.0
      invariant pos.entryPrice > 0.0
      invariant Excess(pos, ex) == ex.unreported - old(ex.unreported)
      decreases |ops| - done
    {
      Maintain(db, ex, pos, s, filters, ops[done]);
      done := done + 1;
    }
  }

  method Maintain(db: Database, ex: FuturesExchange, pos: Position, s: TradeSettings, filters: SymbolFilters,
                  op: Operation)
    requires Consistent(db, ex) && Honest(pos, ex.algos) && pos.status == Open && Matched(pos, ex)
    requires pos.entryPrice > 0.0
    modifies db`rows, db`nextRow, db`nextAlgoId, db`riskEvents, ex, pos
    ensures Consistent(db, ex) && Honest(pos, ex.algos) && pos.status == Open && pos.quantity > 0.0
    ensures pos.entryPrice > 0.0
    ensures Excess(pos, ex) == ex.unreported - old(ex.unreported)
  {
    match op {
      case Refresh =>
        var _ := RefreshProtectiveOrders(db, ex, pos, s);
      case Add(price, available) =>
        ghost var entry, quantity := pos.entryPrice, pos.quantity;
        var result, fill, added := AddToPositionOnLoss(db, ex, pos, s, filters, price, available);
        if result in {Added, RefreshRaised, RevertFailed} { MergedEntryPositive(entry, quantity, fill, added); }
    }
  }

  // ---------- the ladder of additions over a monitor run ----------

  datatype AddRules = AddRules(enabled: bool, maxCount: nat, triggerRoiPct: real, stopLossRoiPct: real,
                               isNormalPosition: bool)

  /** should_loss_add. */
  predicate ShouldLossAdd(roi: real, r: AddRules, count: nat) {
    r.isNormalPosition && r.enabled && count < r.maxCount && r.triggerRoiPct < r.stopLossRoiPct
    && roi <= -r.triggerRoiPct && roi > -r.stopLossRoiPct
  }

  /** Once the ROI has fallen to the trigger, a normal position that may still be added to is either stopped out or
      added to, never both; above the trigger nothing is added. */
  lemma AddOrStop(roi: real, peak: real, r: AddRules, count: nat, rules: PositionExit.ExitRules)
    requires rules.stopLossRoiPct == r.stopLossRoiPct && rules.takeProfitRoiPct >= 0.0 && r.triggerRoiPct > 0.0
    requires r.isNormalPosition && r.enabled && count < r.maxCount && r.triggerRoiPct < r.stopLossRoiPct
    ensures roi <= -r.triggerRoiPct ==>
              (ShouldLossAdd(roi, r, count) <==>
                 PositionExit.EvaluatePositionExit(roi, peak, rules).0 != Some(PositionExit.StopLoss))
    ensures roi > -r.triggerRoiPct ==> !ShouldLossAdd(roi, r, count)
  {
  }

  /** One evaluation of the monitor: the mark, the quantity an addition would fill at it, and whether the
      addition completes. */
  datatype LadderTick = LadderTick(mark: real, added: real, completes: bool)

  function RoiOf(b: Book, mark: real, leverage: int, side: PositionSide): real {
    RoiFromPrices(b.entryPrice, mark, b.quantity, leverage as real, side)
  }

  predicate Adds(b: Book, t: LadderTick, r: AddRules, leverage: int, side: PositionSide) {
    ShouldLossAdd(RoiOf(b, t.mark, leverage, side), r, b.lossAddCount) && t.completes
  }

  function Climb(b: Book, ts: seq<LadderTick>, s: TradeSettings, r: AddRules, leverage: int, side: PositionSide): Book
    decreases |ts|
  {
    if ts == [] then b
    else
      var t := ts[0];
      Climb(if Adds(b, t, r, leverage, side) then BookAfterAdd(b, s, t.mark, t.added) else b, ts[1..], s, r, leverage,
            side)
  }

  lemma MergedEntryBetween(entry: real, quantity: real, fill: real, added: real)
    requires quantity > 0.0 && added > 0.0 && entry != fill
    ensures var m := MergedEntry(entry, quantity, fill, added);
            m * (quantity + added) == entry * quantity + fill * added
            && if fill < entry then fill < m < entry else entry < m < fill
  {
    var m, total := MergedEntry(entry, quantity, fill, added), quantity + added;
    assert m * total == entry * quantity + fill * added;
    if fill < entry {
      MulLess(fill, entry, quantity);
      MulLess(fill, entry, added);
      if m <= fill { MulLeq(m, fill, total); }
      if m >= entry { MulLeq(entry, m, total); }
    } else {
      MulLess(entry, fill, quantity);
      MulLess(entry, fill, added);
      if m >= fill { MulLeq(fill, m, total); }
      if m <= entry { MulLeq(m, entry, total); }
    }
  }

  lemma SmallerFactor(x: real, e: real, y: real, f: real)
    requires x * e == y * f && x * e > 0.0 && 0.0 < f < e
    ensures x < y
  {
    if x <= 0.0 { MulLeq(x, 0.0, e); }
    if x >= y { MulLeq(y, x, f); MulLess(f, e, x); }
  }

  /** Moving the entry towards the mark, without passing it, strictly raises a negative ROI and keeps it
      negative. */
  lemma EntryTowardsMarkRaisesRoi(entry: real, next: real, mark: real, q: real, q': real, leverage: real,
                                  side: PositionSide)
    requires mark > 0.0 && entry > 0.0 && q > 0.0 && q' > 0.0 && leverage > 0.0
    requires if side == Long then mark < next < entry else entry < next < mark
    ensures RoiFromPrices(entry, mark, q, leverage, side) < RoiFromPrices(next, mark, q', leverage, side) < 0.0
  {
    RoiIsLeveragedMove(entry, mark, q, leverage, side);
    RoiIsLeveragedMove(next, mark, q', leverage, side);
    RoiRises(entry, next, mark, leverage, side, RoiFromPrices(entry, mark, q, leverage, side),
             RoiFromPrices(next, mark, q', leverage, side));
    NegativeRoi(next, mark, q', leverage, side);
  }

  lemma RoiRises(entry: real, next: real, mark: real, leverage: real, side: PositionSide, x: real, y: real)
    requires mark > 0.0 && entry > 0.0 && leverage > 0.0
    requires if side == Long then mark < next < entry else entry < next < mark
    requires x * entry == Scaled(Gain(side, entry, mark), leverage)
    requires y * next == Scaled(Gain(side, next, mark), leverage)
    ensures x < y
  {
    var scale := 100.0 * leverage;
    MulLess(0.0, mark, scale);
    if side == Long {
      assert (x + scale) * entry == mark * scale && (y + scale) * next == mark * scale;
      SmallerFactor(x + scale, entry, y + scale, next);
    } else {
      assert (scale - x) * entry == mark * scale && (scale - y) * next == mark * scale;
      SmallerFactor(scale - y, next, scale - x, entry);
    }
  }

  lemma NegativeRoi(entry: real, mark: real, q: real, leverage: real, side: PositionSide)
    requires entry > 0.0 && q > 0.0 && leverage > 0.0
    ensures RoiFromPrices(entry, mark, q, leverage, side) < 0.0 <==> Gain(side, entry, mark) < 0.0
  {
    RoiCompare(entry, mark, q, leverage, side, 0.0);
    ScaledOrder(0.0, Gain(side, entry, mark), leverage);
  }

  /** One addition at the mark: the entry moves strictly between the old entry and the mark, the ROI
      strictly rises but stays negative, so none of the exit rules fires because of the addition. */
  lemma AdditionIsSafe(b: Book, s: TradeSettings, r: AddRules, t: LadderTick, leverage: int, side: PositionSide,
                       rules: PositionExit.ExitRules)
    requires b.entryPrice > 0.0 && b.quantity > 0.0 && leverage > 0 && t.mark > 0.0 && t.added > 0.0
    requires ShouldLossAdd(RoiOf(b, t.mark, leverage, side), r, b.lossAddCount) && r.triggerRoiPct > 0.0
    requires rules.stopLossRoiPct == r.stopLossRoiPct && rules.takeProfitRoiPct >= 0.0 && rules.activationRoiPct >= 0.0
    ensures var next := BookAfterAdd(b, s, t.mark, t.added);
            var roi := RoiOf(next, t.mark, leverage, side);
            && (if side == Long then t.mark < next.entryPrice < b.entryPrice
                else b.entryPrice < next.entryPrice < t.mark)
            && RoiOf(b, t.mark, leverage, side) < roi < 0.0
            && PositionExit.EvaluatePositionExit(roi, roi, rules) == (None, roi)
  {
    NegativeRoi(b.entryPrice, t.mark, b.quantity, leverage as real, side);
    MergedEntryBetween(b.entryPrice, b.quantity, t.mark, t.added);
    EntryTowardsMarkRaisesRoi(b.entryPrice, MergedEntry(b.entryPrice, b.quantity, t.mark, t.added), t.mark,
                              b.quantity, b.quantity + t.added, leverage as real, side);
  }

  /** Over a whole run the number of additions stays bounded, the margin is the initial margin plus one
      trade margin per addition, and entry and quantity stay positive. */
  lemma {:induction false} LadderIsBounded(b: Book, ts: seq<LadderTick>, s: TradeSettings, r: AddRules, leverage: int,
                                           side: PositionSide)
    requires b.entryPrice > 0.0 && b.quantity > 0.0 && b.lossAddCount <= r.maxCount
    requires forall i :: 0 <= i < |ts| ==> ts[i].mark > 0.0 && ts[i].added > 0.0
    ensures var e := Climb(b, ts, s, r, leverage, side);
            && b.lossAddCount <= e.lossAddCount <= r.maxCount
            && e.marginUsdt == b.marginUsdt + Multiple(e.lossAddCount - b.lossAddCount, s.marginPerTradeUsdt)
            && e.entryPrice > 0.0 && e.quantity >= b.quantity
    decreases |ts|
  {
    if ts != [] {
      var t := ts[0];
      if Adds(b, t, r, leverage, side) {
        MergedEntryPositive(b.entryPrice, b.quantity, t.mark, t.added);
        var next := BookAfterAdd(b, s, t.mark, t.added);
        LadderIsBounded(next, ts[1..], s, r, leverage, side);
        OneMoreMargin(Climb(next, ts[1..], s, r, leverage, side).lossAddCount - b.lossAddCount, s.marginPerTradeUsdt);
      } else {
        LadderIsBounded(b, ts[1..], s, r, leverage, side);
      }
    }
  }

  lemma OneMoreMargin(n: int, margin: real)
    ensures Multiple(n, margin) == margin + Multiple(n - 1, margin)
  {
  }
}
