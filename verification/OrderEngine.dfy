/** Opening, refreshing and emergency-closing a position, `worker/order_engine.py`. */
module OrderEngine {
  import opened DecimalUtils
  import opened TradingTypes
  import opened TriggerPrices
  import opened Exchange
  import opened ProtectiveOrders
  import opened Roi

  datatype TradeSettings = TradeSettings(
    takeProfitRoiPct: real, stopLossRoiPct: real, takerCommissionRate: real, marginPerTradeUsdt: real,
      priceTickSize: real)

  datatype Prices = Prices(stopLoss: real, takeProfit: real)

  function InputsFor(s: TradeSettings, side: PositionSide, leverage: int, entry: real, quantity: real): RoiPriceInputs {
    RoiPriceInputs(entry, quantity, side, leverage as real, s.takeProfitRoiPct, s.stopLossRoiPct, s.takerCommissionRate)
  }

  /** The two rounded trigger prices, or the ValueError of the calculation. */
  function ProtectivePrices(s: TradeSettings, side: PositionSide, leverage: int, entry: real,
                            quantity: real): Result<Prices> {
    match ComputeRoiPrices(InputsFor(s, side, leverage, entry, quantity))
    case Raised(e) => Raised(e)
    case Ok(r) =>
      if s.priceTickSize <= 0.0 then Raised("tick size must be positive")
      else Ok(Prices(RoundTrigger(r.stopLossPrice, s.priceTickSize, side, StopLossOrder),
                     RoundTrigger(r.takeProfitPrice, s.priceTickSize, side, TakeProfitOrder)))
  }

  /** The target a purpose aims at, in percent of the margin: gain for the target, loss for the stop. */
  function TargetRoi(i: RoiPriceInputs, p: Purpose): real {
    if p == StopLossOrder then -StopLossTarget(i) else TakeProfitTarget(i)
  }

  /** `trigger` lies beyond `x` by less than `ticks` ticks; never short of it, unless x is negative, when it may be
      short by less than a tick. */
  predicate Beyond(side: PositionSide, p: Purpose, x: real, trigger: real, tick: real, ticks: nat) {
    -tick < Away(side, p, x, trigger) < Multiple(ticks, tick) && (x >= 0.0 ==> 0.0 <= Away(side, p, x, trigger))
  }

  /** `trigger` lies that close beyond the price at which the position's ROI is the target of the purpose. */
  ghost predicate AimsAt(i: RoiPriceInputs, p: Purpose, trigger: real, tick: real, ticks: nat)
    requires i.leverage > 0.0
  {
    exists x :: RoiFromPrices(i.entryPrice, x, i.quantity, i.leverage, i.side) == TargetRoi(i, p)
                && Beyond(i.side, p, x, trigger, tick, ticks)
  }

  lemma RoundedWithinTick(x: real, tick: real, side: PositionSide, p: Purpose)
    requires tick > 0.0
    ensures Beyond(side, p, x, RoundTrigger(x, tick, side, p), tick, 1)
  {
    if x >= 0.0 { RoundingMovesAway(x, tick, side, p); } else { RoundingOfNegatives(x, tick); }
  }

  /** The two prices of a position are where its ROI reaches the fee-corrected targets, rounded away by less than a
      tick. */
  lemma PricesAim(s: TradeSettings, side: PositionSide, leverage: int, entry: real, quantity: real, prices: Prices)
    requires entry > 0.0 && ProtectivePrices(s, side, leverage, entry, quantity) == Ok(prices)
    ensures AimsAt(InputsFor(s, side, leverage, entry, quantity), StopLossOrder, prices.stopLoss, s.priceTickSize, 1)
    ensures AimsAt(InputsFor(s, side, leverage, entry, quantity), TakeProfitOrder, prices.takeProfit, s.priceTickSize,
                   1)
  {
    var i := InputsFor(s, side, leverage, entry, quantity);
    var r := ComputeRoiPrices(i).value;
    RoiAtComputedPrices(i, r);
    RoundedWithinTick(r.stopLossPrice, s.priceTickSize, side, StopLossOrder);
    RoundedWithinTick(r.takeProfitPrice, s.priceTickSize, side, TakeProfitOrder);
  }

  lemma DriftStaysBeyond(side: PositionSide, p: Purpose, x: real, price: real, tick: real, k: nat, ticks: nat)
    requires tick > 0.0 && Beyond(side, p, x, price, tick, 1) && k < ticks
    ensures Beyond(side, p, x, Drifted(price, k, tick, side, p), tick, ticks)
  {
    MulLeq(0.0, k as real, tick);
    MulIntOrder(k + 1, ticks, tick);
    OneTickMore(k, tick);
    assert Away(side, p, x, Drifted(price, k, tick, side, p)) == Away(side, p, x, price) + Multiple(k, tick);
  }

  lemma OneTickMore(k: nat, tick: real)
    ensures Multiple(k + 1, tick) == Multiple(k, tick) + Multiple(1, tick)
  {
  }

  lemma DriftAims(i: RoiPriceInputs, p: Purpose, price: real, tick: real, k: nat, ticks: nat)
    requires i.leverage > 0.0 && tick > 0.0 && k < ticks && AimsAt(i, p, price, tick, 1)
    ensures AimsAt(i, p, Drifted(price, k, tick, i.side, p), tick, ticks)
  {
    var x :| RoiFromPrices(i.entryPrice, x, i.quantity, i.leverage, i.side) == TargetRoi(i, p)
             && Beyond(i.side, p, x, price, tick, 1);
    DriftStaysBeyond(i.side, p, x, price, tick, k, ticks);
  }

  /** Every order placed for a position reduces it, closes it whole, and aims at the target of its own purpose: the stop
      market order at the stop loss, the take profit market order at the take profit, within ten ticks. */
  lemma PlacedOrdersAim(s: TradeSettings, side: PositionSide, leverage: int, entry: real, quantity: real,
                        prices: Prices, o: AlgoOrder)
    requires entry > 0.0 && ProtectivePrices(s, side, leverage, entry, quantity) == Ok(prices)
    requires FromPrices(o, side, prices.stopLoss, prices.takeProfit, s.priceTickSize)
    ensures o.closePosition && Signed(o.side, quantity) == -Exposure(side, quantity)
    ensures o.orderType in {StopMarket, TakeProfitMarket}
    ensures AimsAt(InputsFor(s, side, leverage, entry, quantity),
                   if o.orderType == StopMarket then StopLossOrder else TakeProfitOrder, o.stopPrice, s.priceTickSize,
                   PROTECTIVE_ORDER_MAX_ATTEMPTS)
  {
    var i, tick := InputsFor(s, side, leverage, entry, quantity), s.priceTickSize;
    var p, price := StopLossOrder, prices.stopLoss;
    if o.orderType != StopMarket { p, price := TakeProfitOrder, prices.takeProfit; }
    var k :| 0 <= k < PROTECTIVE_ORDER_MAX_ATTEMPTS && Triggers(o, side, p, price, tick, k);
    PricesAim(s, side, leverage, entry, quantity, prices);
    RoundedTwice(s, side, leverage, entry, quantity, prices);
    DriftAims(i, p, price, tick, k, PROTECTIVE_ORDER_MAX_ATTEMPTS);
  }

  /** The prices are already rounded when the placement rounds them again. */
  lemma RoundedTwice(s: TradeSettings, side: PositionSide, leverage: int, entry: real, quantity: real, prices: Prices)
    requires ProtectivePrices(s, side, leverage, entry, quantity) == Ok(prices)
    ensures RoundTrigger(prices.stopLoss, s.priceTickSize, side, StopLossOrder) == prices.stopLoss
    ensures RoundTrigger(prices.takeProfit, s.priceTickSize, side, TakeProfitOrder) == prices.takeProfit
  {
    var r, tick := ComputeRoiPrices(InputsFor(s, side, leverage, entry, quantity)).value, s.priceTickSize;
    QuantizeFixesMultiples(Steps(r.stopLossPrice, tick, RoundingFor(side, StopLossOrder)), tick,
                           RoundingFor(side, StopLossOrder));
    QuantizeFixesMultiples(Steps(r.takeProfitPrice, tick, RoundingFor(side, TakeProfitOrder)), tick,
                           RoundingFor(side, TakeProfitOrder));
  }

  /** _try_recover_protective_orders_on_exchange. */
  method TryRecover(db: Database, ex: FuturesExchange, pos: Position, slRow: Option<RowId>, tpRow: Option<RowId>)
    returns (recovered: bool, sl: RowId, tp: RowId)
    requires Consistent(db, ex)
    requires slRow.Some? ==> slRow.value in db.rows && db.rows[slRow.value].purpose == StopLossOrder
    requires tpRow.Some? ==> tpRow.value in db.rows && db.rows[tpRow.value].purpose == TakeProfitOrder
    modifies db`rows, db`nextRow, pos`protectiveOrdersOk, pos`stopLossAlgoId, pos`takeProfitAlgoId
    ensures Consistent(db, ex)
    ensures recovered <==> Covered(ex.algos, StopLossOrder) && Covered(ex.algos, TakeProfitOrder)
    ensures recovered ==>
              && RowIsLive(db.rows, ex.algos, sl, StopLossOrder) && pos.stopLossAlgoId == Some(db.rows[sl].clientId)
              && RowIsLive(db.rows, ex.algos, tp, TakeProfitOrder) && pos.takeProfitAlgoId == Some(db.rows[tp].clientId)
              && pos.protectiveOrdersOk
    ensures !recovered ==> db.rows == old(db.rows) && pos.protectiveOrdersOk == old(pos.protectiveOrdersOk)
                           && pos.stopLossAlgoId == old(pos.stopLossAlgoId)
                             && pos.takeProfitAlgoId == old(pos.takeProfitAlgoId)
  {
    sl, tp := 0, 0;
    var slEx := FindOpenProtectiveAlgo(ex, StopLossOrder);
    var tpEx := FindOpenProtectiveAlgo(ex, TakeProfitOrder);
    if slEx.None? || tpEx.None? { return false, sl, tp; }
    sl := AttachExisting(db, ex, pos.side, StopLossOrder, slEx.value, slRow);
    tp := AttachExisting(db, ex, pos.side, TakeProfitOrder, tpEx.value, tpRow);
    pos.protectiveOrdersOk := true;
    pos.stopLossAlgoId := Some(db.rows[sl].clientId);
    pos.takeProfitAlgoId := Some(db.rows[tp].clientId);
    recovered := true;
  }

  /** The local quantity is the exchange's. */
  predicate Matched(pos: Position, ex: FuturesExchange)
    reads pos, ex
  {
    pos.quantity > 0.0 && ex.quantity == Exposure(pos.side, pos.quantity)
  }

  /** The three ways an unprotected position can end. */
  ghost predicate ClosedFlat(pos: Position, ex: FuturesExchange)
    reads pos, ex
  {
    && pos.status == Closed && ex.quantity == 0.0
    && ex.reduceOnlyOrders != [] && LastReply(ex.reduceOnlyOrders).Done?
    && pos.exitPrice == Some(FilledPrice(LastReply(ex.reduceOnlyOrders), pos.entryPrice))
  }

  predicate Alarmed(db: Database, pos: Position)
    reads db, pos
  {
    pos.status == Open && db.riskEvents != [] && db.riskEvents[|db.riskEvents| - 1] == CannotClose
    && (db.defaultRuntime.Some? ==> db.defaultRuntime.value.runState == SafeMode)
  }

  /** Whether the closing order is sent, for what, and how it is answered. */
  predicate ClosingSent(before: seq<SentOrder>, after: seq<SentOrder>, side: PositionSide, quantity: real, kept: bool,
                        raised: bool) {
    if kept then after == before && !raised
    else OneMore(before, after, CloseSide(side), quantity) && (raised <==> LastReply(after).Error?)
  }

  /** _emergency_close_unprotected. */
  method EmergencyClose(db: Database, ex: FuturesExchange, pos: Position) returns (raised: bool)
    requires Consistent(db, ex) && pos.status == Open && Matched(pos, ex)
    modifies db`rows, db`nextRow, db`riskEvents, db`defaultRuntime, pos
    modifies ex`quantity, ex`unreported, ex`reduceOnlyOrders
    ensures Consistent(db, ex) && db.defaultRuntime.Some? == old(db.defaultRuntime).Some?
    ensures db.riskEvents == old(db.riskEvents) + if raised then [CannotClose] else []
    ensures if Covered(ex.algos, StopLossOrder) && Covered(ex.algos, TakeProfitOrder)
            then !raised && Protected(pos, ex.algos) && Matched(pos, ex)
            else if raised then Alarmed(db, pos) else ClosedFlat(pos, ex)
    ensures ClosingSent(old(ex.reduceOnlyOrders), ex.reduceOnlyOrders, pos.side, pos.quantity,
                        Covered(ex.algos, StopLossOrder) && Covered(ex.algos, TakeProfitOrder), raised)
    ensures pos.quantity == old(pos.quantity) && pos.entryPrice == old(pos.entryPrice)
    ensures !raised ==> db.defaultRuntime == old(db.defaultRuntime)
    ensures raised ==> pos.protectiveOrdersOk == old(pos.protectiveOrdersOk)
                       && ex.quantity - ex.unreported == old(ex.quantity - ex.unreported)
  {
    var slOnEx, tpOnEx := ExchangeHasBoth(ex);
    if slOnEx && tpOnEx {
      var recovered, _, _ := TryRecover(db, ex, pos, None, None);
      if recovered { return false; }
    }
    var reply := ex.PlaceReduceOnly(CloseSide(pos.side), pos.quantity);
    if reply.Error? {
      pos.status := Open;
      db.riskEvents := db.riskEvents + [CannotClose];
      if db.defaultRuntime.Some? {
        db.defaultRuntime := Some(RuntimeRow(SafeMode, "unprotected position could not be closed"));
      }
      return true;
    }
    pos.status := Closed;
    pos.exitPrice := Some(FilledPrice(reply, pos.entryPrice));
    raised := false;
  }

  datatype OpenOutcome = Opened | Skipped | CloseFailed

  /** The three ends of an opening, told apart by what is on the exchange. */
  ghost predicate EndsAs(outcome: OpenOutcome, db: Database, ex: FuturesExchange, pos: Position)
    reads db, ex, pos
  {
    && (outcome == Opened <==> Covered(ex.algos, StopLossOrder) && Covered(ex.algos, TakeProfitOrder))
    && match outcome
       case Opened => Protected(pos, ex.algos) && Matched(pos, ex)
       case Skipped => ClosedFlat(pos, ex)
       case CloseFailed => Alarmed(db, pos) && !pos.protectiveOrdersOk
  }

  function CloseEvents(outcome: OpenOutcome): seq<RiskEvent> { if outcome == CloseFailed then [CannotClose] else [] }

  /** Both placements succeeded: their ids are recorded. */
  method RecordOrders(db: Database, ex: FuturesExchange, pos: Position, sl: RowId, tp: RowId)
    requires RowIsLive(db.rows, ex.algos, sl, StopLossOrder) && RowIsLive(db.rows, ex.algos, tp, TakeProfitOrder)
    modifies pos`protectiveOrdersOk, pos`stopLossAlgoId, pos`takeProfitAlgoId
    ensures pos.protectiveOrdersOk && Honest(pos, ex.algos)
    ensures pos.stopLossAlgoId == Some(db.rows[sl].clientId) && pos.takeProfitAlgoId == Some(db.rows[tp].clientId)
  {
    pos.protectiveOrdersOk := true;
    pos.stopLossAlgoId := Some(db.rows[sl].clientId);
    pos.takeProfitAlgoId := Some(db.rows[tp].clientId);
  }

  /** _finalize_protective_orders_or_emergency_close, with the recording its caller does: both orders placed, or found
      on the exchange after all, or the position is closed. */
  method RecordOrClose(db: Database, ex: FuturesExchange, pos: Position, slOk: bool, tpOk: bool, sl: RowId, tp: RowId)
    returns (outcome: OpenOutcome)
    requires Consistent(db, ex) && pos.status == Open && !pos.protectiveOrdersOk && Matched(pos, ex)
    requires sl in db.rows && db.rows[sl].purpose == StopLossOrder
    requires tp in db.rows && db.rows[tp].purpose == TakeProfitOrder
    requires slOk ==> RowIsLive(db.rows, ex.algos, sl, StopLossOrder)
    requires tpOk ==> RowIsLive(db.rows, ex.algos, tp, TakeProfitOrder)
    modifies db`rows, db`nextRow, db`riskEvents, db`defaultRuntime, pos
    modifies ex`quantity, ex`unreported, ex`reduceOnlyOrders
    ensures Consistent(db, ex) && EndsAs(outcome, db, ex, pos) && (slOk && tpOk ==> outcome == Opened)
    ensures slOk && tpOk ==> db.rows == old(db.rows) && pos.stopLossAlgoId == Some(db.rows[sl].clientId)
                             && pos.takeProfitAlgoId == Some(db.rows[tp].clientId)
    ensures ClosingSent(old(ex.reduceOnlyOrders), ex.reduceOnlyOrders, pos.side, pos.quantity, outcome == Opened,
                        outcome == CloseFailed)
    ensures pos.quantity == old(pos.quantity) && pos.entryPrice == old(pos.entryPrice)
    ensures outcome != CloseFailed ==> db.defaultRuntime == old(db.defaultRuntime)
    ensures db.riskEvents == old(db.riskEvents) + CloseEvents(outcome)
  {
    if slOk && tpOk {
      RecordOrders(db, ex, pos, sl, tp);
      return Opened;
    }
    var recovered, _, _ := TryRecover(db, ex, pos, Some(sl), Some(tp));
    if recovered { return Opened; }
    var raised := EmergencyClose(db, ex, pos);
    outcome := if raised then CloseFailed else Skipped;
  }

  lemma FewerLiveFromPrices(before: map<AlgoId, AlgoOrder>, mid: map<AlgoId, AlgoOrder>,
                            after: map<AlgoId, AlgoOrder>, side: PositionSide, stopLoss: real, takeProfit: real,
                            tick: real)
    requires tick > 0.0 && OrdersKept(mid, before) && LiveFromPrices(mid, after, side, stopLoss, takeProfit, tick)
    ensures LiveFromPrices(before, after, side, stopLoss, takeProfit, tick)
  {
  }

  /** Old orders off, then both placed. */
  method PlaceAfresh(db: Database, ex: FuturesExchange, side: PositionSide, prices: Prices, tick: real)
    returns (slOk: bool, tpOk: bool, sl: RowId, tp: RowId)
    requires Consistent(db, ex) && tick > 0.0
    modifies db`rows, db`nextRow, db`nextAlgoId, db`riskEvents, ex`algos, ex`submissions, ex`replies, ex`cancels
    ensures Consistent(db, ex) && ex.cancels == old(ex.cancels) + [None]
    ensures old(ex.submissions) <= ex.submissions && old(ex.replies) <= ex.replies
    ensures BothTried(ex.submissions[|old(ex.submissions)|..], ex.replies[|old(ex.replies)|..], old(db.nextAlgoId),
                      side, prices.stopLoss, prices.takeProfit, tick, slOk, tpOk)
    ensures LiveFromPrices(old(ex.algos), ex.algos, side, prices.stopLoss, prices.takeProfit, tick)
    ensures sl in db.rows && db.rows[sl].purpose == StopLossOrder
    ensures tp in db.rows && db.rows[tp].purpose == TakeProfitOrder
    ensures slOk ==> RowIsLive(db.rows, ex.algos, sl, StopLossOrder)
    ensures tpOk ==> RowIsLive(db.rows, ex.algos, tp, TakeProfitOrder)
    ensures db.riskEvents == old(db.riskEvents) + PlacementEvents(slOk, tpOk)
  {
    ghost var algos := ex.algos;
    var _ := ex.CancelAll();
    ghost var left := ex.algos;
    slOk, tpOk, sl, tp := PlaceBoth(db, ex, side, prices.stopLoss, prices.takeProfit, tick);
    FewerLiveFromPrices(algos, left, ex.algos, side, prices.stopLoss, prices.takeProfit, tick);
  }

  /** From the fill to the end of open_position_for_signal: whatever placements, cancels and lost
      acknowledgements do, the position ends protected, or closed with the exchange flat, or alarmed
      because the closing order itself failed; it is never closed while both orders are live. The stop is tried at
      the stop price and the target at the target price, and nothing else is live that was not before. The CRITICAL
      events are exactly one for each failed placement, and one more when the close failed. */
  method ProtectOpenedPosition(db: Database, ex: FuturesExchange, pos: Position, prices: Prices, tick: real)
    returns (outcome: OpenOutcome)
    requires Consistent(db, ex) && tick > 0.0
    requires pos.status == Open && !pos.protectiveOrdersOk && Matched(pos, ex)
    modifies db, pos
    modifies ex`algos, ex`submissions, ex`replies, ex`cancels, ex`quantity, ex`unreported, ex`reduceOnlyOrders
    ensures Consistent(db, ex) && Honest(pos, ex.algos) && EndsAs(outcome, db, ex, pos)
    ensures ClosingSent(old(ex.reduceOnlyOrders), ex.reduceOnlyOrders, pos.side, pos.quantity, outcome == Opened,
                        outcome == CloseFailed)
    ensures ex.cancels == old(ex.cancels) + [None]
    ensures pos.quantity == old(pos.quantity) && pos.entryPrice == old(pos.entryPrice)
    ensures outcome != CloseFailed ==> db.defaultRuntime == old(db.defaultRuntime)
    ensures LiveFromPrices(old(ex.algos), ex.algos, pos.side, prices.stopLoss, prices.takeProfit, tick)
    ensures old(ex.submissions) <= ex.submissions && old(ex.replies) <= ex.replies
    ensures exists slOk, tpOk ::
              && BothTried(ex.submissions[|old(ex.submissions)|..], ex.replies[|old(ex.replies)|..], old(db.nextAlgoId),
                           pos.side, prices.stopLoss, prices.takeProfit, tick, slOk, tpOk)
              && (slOk && tpOk ==> outcome == Opened)
              && db.riskEvents == old(db.riskEvents) + (PlacementEvents(slOk, tpOk) + CloseEvents(outcome))
  {
    var slOk, tpOk, sl, tp := PlaceAfresh(db, ex, pos.side, prices, tick);
    outcome := RecordOrClose(db, ex, pos, slOk, tpOk, sl, tp);
    Regroup(old(db.riskEvents), PlacementEvents(slOk, tpOk), CloseEvents(outcome));
  }

  predicate Over(s: RowStatus) { s == Canceled || s == FilledRow }

  /** A row marked CANCELED unless it is already CANCELED or FILLED. */
  method CancelRow(db: Database, ex: FuturesExchange, id: AlgoId)
    requires Consistent(db, ex)
    modifies db`rows
    ensures Consistent(db, ex) && RowsKept(old(db.rows), db.rows) && db.rows.Keys == old(db.rows).Keys
    ensures forall r :: r in db.rows && db.rows[r].clientId == id ==> Over(db.rows[r].status)
    ensures forall r :: r in old(db.rows) ==> db.rows[r] == old(db.rows)[r] || db.rows[r].status == Canceled
  {
    if r :| r in db.rows && db.rows[r].clientId == id {
      if db.rows[r].status != Canceled && db.rows[r].status != FilledRow {
        UpdateRow(db, ex, r, db.rows[r].triggerPrice, Canceled);
      }
    }
  }

  /** One recorded id: the cancel is best effort, the row ends over. */
  method CancelRecorded(db: Database, ex: FuturesExchange, id: Option<AlgoId>)
    requires Consistent(db, ex)
    modifies db`rows, ex`algos, ex`cancels
    ensures Consistent(db, ex) && RowsKept(old(db.rows), db.rows) && db.rows.Keys == old(db.rows).Keys
    ensures OrdersKept(ex.algos, old(ex.algos)) && ex.cancels == old(ex.cancels) + if id.Some? then [id] else []
    ensures forall r :: r in db.rows && id == Some(db.rows[r].clientId) ==> Over(db.rows[r].status)
    ensures forall r :: r in old(db.rows) ==> db.rows[r] == old(db.rows)[r] || db.rows[r].status == Canceled
  {
    if id.Some? {
      var _ := ex.CancelAlgo(id.value);
      CancelRow(db, ex, id.value);
    }
  }

  /** The cancels asked for: each recorded id, stop first, and then all orders. */
  function CancelRequests(sl: Option<AlgoId>, tp: Option<AlgoId>): seq<Option<AlgoId>> {
    (if sl.Some? then [sl] else []) + (if tp.Some? then [tp] else []) + [None]
  }

  /** _cancel_position_protective_orders: best effort on the exchange, but the flag and the ids always go. */
  method CancelProtectiveOrders(db: Database, ex: FuturesExchange, pos: Position)
    requires Consistent(db, ex)
    modifies db`rows, ex`algos, ex`cancels, pos`protectiveOrdersOk, pos`stopLossAlgoId, pos`takeProfitAlgoId
    ensures Consistent(db, ex) && RowsKept(old(db.rows), db.rows)
    ensures ex.cancels == old(ex.cancels) + CancelRequests(old(pos.stopLossAlgoId), old(pos.takeProfitAlgoId))
    ensures !pos.protectiveOrdersOk && pos.stopLossAlgoId == None && pos.takeProfitAlgoId == None
    ensures OrdersKept(ex.algos, old(ex.algos))
    ensures forall r :: r in db.rows && old(pos.stopLossAlgoId) == Some(db.rows[r].clientId) ==> Over(db.rows[r].status)
    ensures forall r :: r in db.rows && old(pos.takeProfitAlgoId) == Some(db.rows[r].clientId) ==>
              Over(db.rows[r].status)
  {
    CancelRecorded(db, ex, pos.stopLossAlgoId);
    CancelRecorded(db, ex, pos.takeProfitAlgoId);
    var _ := ex.CancelAll();
    pos.stopLossAlgoId, pos.takeProfitAlgoId, pos.protectiveOrdersOk := None, None, false;
  }

  /** Both orders at the new prices, which are recorded whether or not the placements succeed. */
  method PlaceAndRecord(db: Database, ex: FuturesExchange, pos: Position, prices: Prices, tick: real)
    returns (ok: bool)
    requires Consistent(db, ex) && tick > 0.0 && !pos.protectiveOrdersOk
    modifies db`rows, db`nextRow, db`nextAlgoId, db`riskEvents, ex`algos, ex`submissions, ex`replies
    modifies pos`protectiveOrdersOk, pos`stopLossAlgoId, pos`takeProfitAlgoId, pos`stopLossPrice, pos`takeProfitPrice
    ensures Consistent(db, ex) && Honest(pos, ex.algos) && pos.protectiveOrdersOk == ok
    ensures Prices(pos.stopLossPrice, pos.takeProfitPrice) == prices
    ensures !ok ==> pos.stopLossAlgoId == old(pos.stopLossAlgoId) && pos.takeProfitAlgoId == old(pos.takeProfitAlgoId)
    ensures LiveFromPrices(old(ex.algos), ex.algos, pos.side, prices.stopLoss, prices.takeProfit, tick)
    ensures old(ex.submissions) <= ex.submissions && old(ex.replies) <= ex.replies
    ensures exists slOk, tpOk ::
              && BothTried(ex.submissions[|old(ex.submissions)|..], ex.replies[|old(ex.replies)|..], old(db.nextAlgoId),
                           pos.side, prices.stopLoss, prices.takeProfit, tick, slOk, tpOk)
              && (ok <==> slOk && tpOk) && db.riskEvents == old(db.riskEvents) + PlacementEvents(slOk, tpOk)
  {
    var slOk, tpOk, sl, tp := PlaceBoth(db, ex, pos.side, prices.stopLoss, prices.takeProfit, tick);
    pos.stopLossPrice, pos.takeProfitPrice := prices.stopLoss, prices.takeProfit;
    ok := slOk && tpOk;
    if ok { RecordOrders(db, ex, pos, sl, tp); }
  }

  /** Old orders off, new ones on. */
  method ReplaceOrders(db: Database, ex: FuturesExchange, pos: Position, prices: Prices, tick: real) returns (ok: bool)
    requires Consistent(db, ex) && tick > 0.0
    modifies db`rows, db`nextRow, db`nextAlgoId, db`riskEvents, ex`algos, ex`submissions, ex`replies, ex`cancels
    modifies pos`protectiveOrdersOk, pos`stopLossAlgoId, pos`takeProfitAlgoId, pos`stopLossPrice, pos`takeProfitPrice
    ensures Consistent(db, ex) && Honest(pos, ex.algos) && pos.protectiveOrdersOk == ok
    ensures Prices(pos.stopLossPrice, pos.takeProfitPrice) == prices
    ensures !ok ==> pos.stopLossAlgoId == None && pos.takeProfitAlgoId == None
    ensures ex.cancels == old(ex.cancels) + CancelRequests(old(pos.stopLossAlgoId), old(pos.takeProfitAlgoId))
    ensures LiveFromPrices(old(ex.algos), ex.algos, pos.side, prices.stopLoss, prices.takeProfit, tick)
    ensures old(ex.submissions) <= ex.submissions && old(ex.replies) <= ex.replies
    ensures exists slOk, tpOk ::
              && BothTried(ex.submissions[|old(ex.submissions)|..], ex.replies[|old(ex.replies)|..], old(db.nextAlgoId),
                           pos.side, prices.stopLoss, prices.takeProfit, tick, slOk, tpOk)
              && (ok <==> slOk && tpOk) && db.riskEvents == old(db.riskEvents) + PlacementEvents(slOk, tpOk)
  {
    ghost var algos := ex.algos;
    CancelProtectiveOrders(db, ex, pos);
    ghost var left := ex.algos;
    ok := PlaceAndRecord(db, ex, pos, prices, tick);
    FewerLiveFromPrices(algos, left, ex.algos, pos.side, prices.stopLoss, prices.takeProfit, tick);
  }

  /** refresh_position_protective_orders: None stands for the ValueError of the price calculation, raised
      before anything is touched; otherwise the flag is exactly the returned value. */
  method RefreshProtectiveOrders(db: Database, ex: FuturesExchange, pos: Position, s: TradeSettings)
    returns (ok: Option<bool>)
    requires Consistent(db, ex) && Honest(pos, ex.algos) && pos.status == Open
    modifies db`rows, db`nextRow, db`nextAlgoId, db`riskEvents, ex`algos, ex`submissions, ex`replies, ex`cancels
    modifies pos`protectiveOrdersOk, pos`stopLossAlgoId, pos`takeProfitAlgoId, pos`stopLossPrice, pos`takeProfitPrice
    ensures Consistent(db, ex) && Honest(pos, ex.algos)
    ensures ok.None? <==> ProtectivePrices(s, pos.side, pos.leverage, pos.entryPrice, pos.quantity).Raised?
    ensures ok.None? ==>
              Now(db, ex) == old(Now(db, ex)) && ex.cancels == old(ex.cancels) && db.riskEvents == old(db.riskEvents)
                && pos.protectiveOrdersOk == old(pos.protectiveOrdersOk)
                && pos.stopLossAlgoId == old(pos.stopLossAlgoId) && pos.takeProfitAlgoId == old(pos.takeProfitAlgoId)
    ensures old(ex.submissions) <= ex.submissions && old(ex.replies) <= ex.replies
    ensures ok.Some? ==>
              var prices := ProtectivePrices(s, pos.side, pos.leverage, pos.entryPrice, pos.quantity).value;
              && pos.protectiveOrdersOk == ok.value && Prices(pos.stopLossPrice, pos.takeProfitPrice) == prices
              && (!ok.value ==> pos.stopLossAlgoId == None && pos.takeProfitAlgoId == None)
              && ex.cancels == old(ex.cancels) + CancelRequests(old(pos.stopLossAlgoId), old(pos.takeProfitAlgoId))
              && LiveFromPrices(old(ex.algos), ex.algos, pos.side, prices.stopLoss, prices.takeProfit, s.priceTickSize)
              && exists slOk, tpOk ::
                   && BothTried(ex.submissions[|old(ex.submissions)|..], ex.replies[|old(ex.replies)|..],
                                old(db.nextAlgoId), pos.side, prices.stopLoss, prices.takeProfit, s.priceTickSize,
                                slOk, tpOk)
                   && (ok.value <==> slOk && tpOk)
                   && db.riskEvents == old(db.riskEvents) + PlacementEvents(slOk, tpOk)
  {
    var prices := ProtectivePrices(s, pos.side, pos.leverage, pos.entryPrice, pos.quantity);
    if prices.Raised? { return None; }
    var replaced := ReplaceOrders(db, ex, pos, prices.value, s.priceTickSize);
    ok := Some(replaced);
  }

  /** Whether the price calculation raises does not depend on entry price or quantity, so a position
      that could be opened can always be refreshed, and a revert never fails on its second refresh. */
  lemma PricesRaiseAlike(s: TradeSettings, side: PositionSide, leverage: int, entry: real, quantity: real,
                         entry': real, quantity': real)
    requires entry > 0.0 && quantity > 0.0 && entry' > 0.0 && quantity' > 0.0
    ensures ProtectivePrices(s, side, leverage, entry, quantity).Raised? <==>
              ProtectivePrices(s, side, leverage, entry', quantity').Raised?
  {
    var i := InputsFor(s, side, leverage, entry, quantity);
    StopRaisesAlike(i, i.(entryPrice := entry', quantity := quantity'));
  }
}
