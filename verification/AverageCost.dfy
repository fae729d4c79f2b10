/** What an order does to the average-cost account, stated of the account before and after, and the realised
    result of a whole run as an independent account of what the open quantity cost. */
module AverageCost {
  import opened DecimalUtils
  import opened TradingTypes
  import opened Roi
  import opened PaperLedger

  predicate Opposed(q: real, s: real) { (q > 0.0 && s < 0.0) || (q < 0.0 && s > 0.0) }

  /** Profit of a unit of `q` that cost `entry` and is traded at `price`. */
  function GainPerUnit(q: real, entry: real, price: real): real { Gain(if q > 0.0 then Long else Short, entry, price) }

  /** Profit of closing as much of `q` as an opposite order of `s` can. */
  function ClosedGain(q: real, entry: real, s: real, price: real): real {
    if Opposed(q, s) then GainPerUnit(q, entry, price) * Min(Abs(q), Abs(s)) else 0.0
  }

  function EntryOf(l: Ledger, symbol: Symbol): real {
    if symbol in l.positions then l.positions[symbol].entryPrice else 0.0
  }

  /** Cash: the closed part of an opposite position is realised, anything else realises nothing, and the order
      pays its commission. */
  predicate CashAccounted(l: Ledger, r: Ledger, symbol: Symbol, s: real, price: real, rate: real) {
    var q := l.QuantityOf(symbol);
    && r.realized - l.realized == ClosedGain(q, EntryOf(l, symbol), s, price)
    && r.wallet - l.wallet == (r.realized - l.realized) - Abs(s) * price * rate
  }

  /** Entry: what is left of a position keeps its entry price; adding to it averages the cost; opening it, also by
      a market order that flips it, takes the order's price. */
  predicate EntryAccounted(l: Ledger, r: Ledger, symbol: Symbol, s: real, price: real, atMarket: bool) {
    && EntryFollows(l.QuantityOf(symbol), EntryOf(l, symbol), EntryOf(r, symbol), s, price, atMarket)
    && r.QuantityOf(symbol) == l.QuantityOf(symbol) + s
    && (symbol in r.positions <==> l.QuantityOf(symbol) == 0.0 || l.QuantityOf(symbol) + s != 0.0)
  }

  predicate EntryFollows(q: real, entry: real, entry': real, s: real, price: real, atMarket: bool) {
    && (q == 0.0 || (atMarket && Opposed(q, s) && Abs(s) > Abs(q)) ==> entry' == price)
    && (q != 0.0 && !Opposed(q, s) ==> entry' * (q + s) == entry * q + price * s)
    && (Opposed(q, s) && q + s != 0.0 && (!atMarket || Abs(s) < Abs(q)) ==> entry' == entry)
  }

  /** The margin is the notional at the entry price over the leverage. */
  predicate Backed(p: PaperPosition, leverage: int) {
    p.isolatedMargin * leverage as real == Abs(p.quantity) * p.entryPrice
  }

  /** The margin of an addition is its own notional over the leverage, on top of what was there. */
  predicate BackedBy(margin: real, margin': real, s: real, price: real, leverage: int) {
    (margin' - margin) * leverage as real == Abs(s) * price
  }

  /** The margin behind a position is computed anew by every order that does not add to it. */
  predicate MarginAccounted(l: Ledger, r: Ledger, symbol: Symbol, s: real, price: real) {
    if SameDirection(l.QuantityOf(symbol), s)
    then symbol in r.positions && BackedBy(l.positions[symbol].isolatedMargin, r.positions[symbol].isolatedMargin,
                                           s, price, l.LeverageOf(symbol))
    else symbol in r.positions ==> Backed(r.positions[symbol], l.LeverageOf(symbol))
  }

  /** Mark and leverage are taken over when a position is opened, and kept otherwise. */
  predicate MarkAccounted(l: Ledger, r: Ledger, symbol: Symbol, s: real, price: real, atMarket: bool) {
    var q := l.QuantityOf(symbol);
    symbol in r.positions ==>
      var p := r.positions[symbol];
      if q == 0.0 || (atMarket && Opposed(q, s) && Abs(s) > Abs(q))
      then p.markPrice == price && p.leverage == l.LeverageOf(symbol)
      else symbol in l.positions && p.markPrice == l.positions[symbol].markPrice
           && p.leverage == l.positions[symbol].leverage
  }

  ghost predicate OthersKept(l: Ledger, r: Ledger, symbol: Symbol) {
    && r.leverages == l.leverages
    && forall x :: x != symbol ==> PositionAt(r.positions, x) == PositionAt(l.positions, x)
  }

  ghost predicate Accounted(l: Ledger, r: Ledger, symbol: Symbol, s: real, price: real, rate: real, atMarket: bool) {
    && CashAccounted(l, r, symbol, s, price, rate)
    && EntryAccounted(l, r, symbol, s, price, atMarket)
    && MarginAccounted(l, r, symbol, s, price)
    && MarkAccounted(l, r, symbol, s, price, atMarket)
    && OthersKept(l, r, symbol)
  }

  lemma ClosingIsGain(q: real, entry: real, s: real, price: real)
    requires Opposed(q, s)
    ensures ClosingProfit(q, entry, s, price) == GainPerUnit(q, entry, price) * Min(Abs(q), Abs(s))
  {
  }

  lemma NothingToClose(q: real, entry: real, price: real)
    requires q != 0.0
    ensures ClosingProfit(q, entry, 0.0, price) == 0.0
  {
    assert Min(Abs(q), Abs(0.0)) == 0.0;
  }

  lemma RealizedIs(o: Option<PaperPosition>, s: real, price: real)
    ensures RealizedBy(o, s, price) ==
              if o.None? then 0.0 else ClosedGain(o.value.quantity, o.value.entryPrice, s, price)
  {
    if o.Some? {
      var q, entry := o.value.quantity, o.value.entryPrice;
      if Opposed(q, s) {
        ClosingIsGain(q, entry, s, price);
      } else if q != 0.0 && !SameDirection(q, s) {
        NothingToClose(q, entry, price);
      }
    }
  }

  lemma CommissionIs(side: OrderSide, quantity: real, price: real, rate: real)
    requires quantity >= 0.0
    ensures Commission(quantity, price, rate) == Abs(Signed(side, quantity)) * price * rate
  {
    assert Abs(Signed(side, quantity)) == quantity;
  }

  lemma OrderCash(l: Ledger, symbol: Symbol, side: OrderSide, quantity: real, price: real, rate: real, atMarket: bool)
    requires l.Valid() && quantity >= 0.0
    ensures CashAccounted(l, Filled(l, symbol, side, quantity, price, rate, atMarket), symbol, Signed(side, quantity),
                          price, rate)
  {
    CommissionIs(side, quantity, price, rate);
    RealizedIs(PositionAt(l.positions, symbol), Signed(side, quantity), price);
  }

  lemma OrderEntry(l: Ledger, symbol: Symbol, side: OrderSide, quantity: real, price: real, rate: real, atMarket: bool)
    requires l.Valid() && quantity >= 0.0
    ensures EntryAccounted(l, Filled(l, symbol, side, quantity, price, rate, atMarket), symbol, Signed(side, quantity),
                           price, atMarket)
  {
    var q, s := l.QuantityOf(symbol), Signed(side, quantity);
    if SameDirection(q, s) { AverageIsBalanced(q, EntryOf(l, symbol), s, price); }
  }

  lemma MarginTimesLeverage(quantity: real, price: real, leverage: int)
    requires leverage > 0
    ensures Margin(quantity, price, leverage) * leverage as real == Abs(quantity) * price
  {
  }

  lemma OpenedIsBacked(s: real, price: real, leverage: int)
    requires leverage > 0
    ensures Backed(Opened(s, price, leverage), leverage)
  {
    MarginTimesLeverage(s, price, leverage);
  }

  lemma ResizedIsBacked(o: PaperPosition, quantity: real, leverage: int)
    requires leverage > 0
    ensures Backed(Resized(o, quantity, leverage), leverage)
  {
    MarginTimesLeverage(quantity, o.entryPrice, leverage);
  }

  lemma AddedIsBacked(o: PaperPosition, s: real, price: real, leverage: int)
    requires leverage > 0
    ensures BackedBy(o.isolatedMargin, Added(o, s, price, leverage).isolatedMargin, s, price, leverage)
  {
    var margin := Margin(s, price, leverage);
    MarginTimesLeverage(s, price, leverage);
    assert Added(o, s, price, leverage).isolatedMargin - o.isolatedMargin == margin;
  }

  lemma OrderMargin(l: Ledger, symbol: Symbol, side: OrderSide, quantity: real, price: real, rate: real, atMarket: bool)
    requires l.Valid() && quantity >= 0.0
    ensures MarginAccounted(l, Filled(l, symbol, side, quantity, price, rate, atMarket), symbol,
                            Signed(side, quantity), price)
  {
    var q, s, lev := l.QuantityOf(symbol), Signed(side, quantity), l.LeverageOf(symbol);
    OpenedIsBacked(s, price, lev);
    OpenedIsBacked(q + s, price, lev);
    if symbol in l.positions {
      AddedIsBacked(l.positions[symbol], s, price, lev);
      ResizedIsBacked(l.positions[symbol], q + s, lev);
    }
  }

  /** Every filled order, market or limit, is accounted for at average cost. */
  lemma OrderIsAccounted(l: Ledger, e: Event, rate: real)
    requires l.Valid() && e.WellFormed() && (e.Market? || e.Limit?)
    ensures Accounted(l, Apply(l, e, rate), e.symbol, Signed(e.side, e.quantity), PriceOf(e), rate, e.Market?)
  {
    OrderCash(l, e.symbol, e.side, e.quantity, PriceOf(e), rate, e.Market?);
    OrderEntry(l, e.symbol, e.side, e.quantity, PriceOf(e), rate, e.Market?);
    OrderMargin(l, e.symbol, e.side, e.quantity, PriceOf(e), rate, e.Market?);
  }

  function PriceOf(e: Event): real
    requires e.Market? || e.Limit?
  {
    if e.Market? then e.price else LimitPrice(e.limitPrice, e.mark)
  }

  /** A mark update moves the mark of an open position and nothing else; funding moves the wallet alone, by the
      position's value at the mark times the rate, paid by a LONG; a leverage change opens no position. */
  lemma OtherEventsAre(l: Ledger, e: Event, rate: real)
    requires l.Valid() && e.WellFormed() && !e.Market? && !e.Limit?
    ensures var r := Apply(l, e, rate);
            && r.realized == l.realized && r.positions.Keys == l.positions.Keys
            && (forall x :: x in l.positions ==>
                  r.positions[x] == if e.MarkUpdate? && x == e.symbol then l.positions[x].(markPrice := e.mark)
                                    else l.positions[x])
            && r.wallet == (if e.Funding? && e.symbol in l.positions
                            then l.wallet - l.QuantityOf(e.symbol) * l.positions[e.symbol].markPrice * e.rate
                            else l.wallet)
            && (forall x :: r.LeverageOf(x) == if e.ChangeLeverage? && x == e.symbol then e.leverage
                                               else l.LeverageOf(x))
  {
  }

  /** Every open position is backed by its notional over the leverage in force for its symbol. */
  ghost predicate AllBacked(l: Ledger) { forall x :: x in l.positions ==> Backed(l.positions[x], l.LeverageOf(x)) }

  lemma AdditionKeepsBacked(p: PaperPosition, n: PaperPosition, s: real, price: real, leverage: int)
    requires SameDirection(p.quantity, s) && Backed(p, leverage) && n.quantity == p.quantity + s
    requires BackedBy(p.isolatedMargin, n.isolatedMargin, s, price, leverage)
    requires n.entryPrice * (p.quantity + s) == p.entryPrice * p.quantity + price * s
    ensures Backed(n, leverage)
  {
    assert n.isolatedMargin * leverage as real == Abs(p.quantity) * p.entryPrice + Abs(s) * price;
  }

  lemma OrderKeepsOwnBacked(l: Ledger, r: Ledger, symbol: Symbol, s: real, price: real, atMarket: bool)
    requires EntryAccounted(l, r, symbol, s, price, atMarket) && MarginAccounted(l, r, symbol, s, price)
    requires symbol in l.positions ==> Backed(l.positions[symbol], l.LeverageOf(symbol))
    ensures symbol in r.positions ==> Backed(r.positions[symbol], l.LeverageOf(symbol))
  {
    if SameDirection(l.QuantityOf(symbol), s) {
      AdditionKeepsBacked(l.positions[symbol], r.positions[symbol], s, price, l.LeverageOf(symbol));
    }
  }

  lemma OrderKeepsBacked(l: Ledger, r: Ledger, symbol: Symbol, s: real, price: real, rate: real, atMarket: bool)
    requires Accounted(l, r, symbol, s, price, rate, atMarket) && AllBacked(l)
    ensures AllBacked(r)
  {
    OrderKeepsOwnBacked(l, r, symbol, s, price, atMarket);
    forall x | x in r.positions ensures Backed(r.positions[x], r.LeverageOf(x)) {
      if x != symbol { assert PositionAt(r.positions, x) == PositionAt(l.positions, x); }
    }
  }

  /** Main result on margins: over every run that changes no leverage under an open position, each position's isolated
      margin times its leverage is its quantity times its entry price. */
  lemma {:induction false} MarginsAreBacked(start: real, es: seq<Event>, rate: real)
    requires AllWellFormed(es)
    requires forall i :: 0 <= i < |es| && es[i].ChangeLeverage? ==> es[i].symbol !in Run(start, es[..i], rate).positions
    ensures AllBacked(Run(start, es, rate))
    decreases |es|
  {
    if es == [] {
    } else {
      var before, e := es[..|es| - 1], es[|es| - 1];
      forall i | 0 <= i < |before| && before[i].ChangeLeverage?
        ensures before[i].symbol !in Run(start, before[..i], rate).positions
      {
        assert before[..i] == es[..i];
      }
      MarginsAreBacked(start, before, rate);
      EventKeepsBacked(Run(start, before, rate), e, rate);
    }
  }

  lemma EventKeepsBacked(l: Ledger, e: Event, rate: real)
    requires l.Valid() && e.WellFormed() && AllBacked(l) && (e.ChangeLeverage? ==> e.symbol !in l.positions)
    ensures AllBacked(Apply(l, e, rate))
  {
    if e.Market? || e.Limit? {
      OrderKeepsBacked(l, Apply(l, e, rate), e.symbol, Signed(e.side, e.quantity), PriceOf(e), rate, e.Market?)
        by { OrderIsAccounted(l, e, rate); }
    } else {
      OtherKeepsBacked(l, e, rate);
    }
  }

  lemma OtherKeepsBacked(l: Ledger, e: Event, rate: real)
    requires l.Valid() && e.WellFormed() && !e.Market? && !e.Limit? && AllBacked(l)
    requires e.ChangeLeverage? ==> e.symbol !in l.positions
    ensures AllBacked(Apply(l, e, rate))
  {
    if e.MarkUpdate? {
      var r := Marked(l, e.symbol, e.mark);
      forall x | x in r.positions ensures Backed(r.positions[x], r.LeverageOf(x)) {
        MarkKeepsBacked(l.positions[x], e.mark, l.LeverageOf(x));
      }
    }
  }

  lemma MarkKeepsBacked(p: PaperPosition, mark: real, leverage: int)
    requires Backed(p, leverage)
    ensures Backed(p.(markPrice := mark), leverage)
  {
  }

  // ---------- the realised result of a whole run ----------

  datatype Trade = Trade(symbol: Symbol, signed: real, price: real, atMarket: bool)

  function TradesOf(e: Event): seq<Trade> {
    if e.Market? || e.Limit? then [Trade(e.symbol, Signed(e.side, e.quantity), PriceOf(e), e.Market?)] else []
  }

  function Trades(es: seq<Event>): seq<Trade> {
    if es == [] then [] else Trades(es[..|es| - 1]) + TradesOf(es[|es| - 1])
  }

  /** What is held of a symbol and what it cost in all. */
  datatype Lot = Lot(quantity: real, cost: real)

  function AverageOf(h: Lot): real { SafeDiv(h.cost, h.quantity) }

  /** The part of the lot that the trade closes. */
  function Closed(h: Lot, t: Trade): real {
    if !Opposed(h.quantity, t.signed) then 0.0
    else if Abs(t.signed) <= Abs(h.quantity) then -t.signed else h.quantity
  }

  /** Proceeds less cost of that part. */
  function Profit(h: Lot, t: Trade): real { (t.price - AverageOf(h)) * Closed(h, t) }

  /** Buying more adds its cost; closing takes out cost in proportion; what flips at the market is bought anew. */
  function LotAfter(h: Lot, t: Trade): Lot {
    var total := h.quantity + t.signed;
    Lot(total,
        if !Opposed(h.quantity, t.signed) then h.cost + t.price * t.signed
        else if t.atMarket && Abs(t.signed) > Abs(h.quantity) then t.price * total
        else AverageOf(h) * total)
  }

  function LotOf(ts: seq<Trade>, symbol: Symbol): Lot {
    if ts == [] then Lot(0.0, 0.0)
    else
      var h, t := LotOf(ts[..|ts| - 1], symbol), ts[|ts| - 1];
      if t.symbol == symbol then LotAfter(h, t) else h
  }

  /** Proceeds less cost of everything closed so far. */
  function Booked(ts: seq<Trade>): real {
    if ts == [] then 0.0
    else
      var h, t := LotOf(ts[..|ts| - 1], ts[|ts| - 1].symbol), ts[|ts| - 1];
      Booked(ts[..|ts| - 1]) + Profit(h, t)
  }

  /** A position is carried at what its quantity cost. */
  predicate CarriedAt(l: Ledger, h: Lot, symbol: Symbol) { CarriedAs(h, l.QuantityOf(symbol), EntryOf(l, symbol)) }

  predicate CarriedAs(h: Lot, q: real, entry: real) { h.quantity == q && h.cost == entry * q }

  ghost predicate Carries(l: Ledger, ts: seq<Trade>) { forall x :: CarriedAt(l, LotOf(ts, x), x) }

  lemma AverageIsEntry(h: Lot, q: real, entry: real)
    requires q != 0.0 && CarriedAs(h, q, entry)
    ensures AverageOf(h) == entry
  {
    var average := AverageOf(h);
    assert (average - entry) * q == 0.0;
    ProductOfNonzero(average - entry, q);
  }

  lemma CostOfNothing(h: Lot)
    ensures AverageOf(h) * 0.0 == 0.0
  {
  }

  lemma OneTradeLot(l: Ledger, r: Ledger, h: Lot, t: Trade)
    requires EntryAccounted(l, r, t.symbol, t.signed, t.price, t.atMarket) && CarriedAt(l, h, t.symbol)
    ensures CarriedAt(r, LotAfter(h, t), t.symbol)
  {
    LotFollowsEntry(h, l.QuantityOf(t.symbol), EntryOf(l, t.symbol), EntryOf(r, t.symbol), t);
  }

  lemma LotFollowsEntry(h: Lot, q: real, entry: real, entry': real, t: Trade)
    requires EntryFollows(q, entry, entry', t.signed, t.price, t.atMarket) && CarriedAs(h, q, entry)
    ensures CarriedAs(LotAfter(h, t), q + t.signed, entry')
  {
    var total := q + t.signed;
    if Opposed(q, t.signed) {
      if total == 0.0 {
        CostOfNothing(h);
      } else if !(t.atMarket && Abs(t.signed) > Abs(q)) {
        AverageIsEntry(h, q, entry);
      }
    }
  }

  lemma OneTradeBooked(l: Ledger, r: Ledger, h: Lot, t: Trade, rate: real)
    requires CashAccounted(l, r, t.symbol, t.signed, t.price, rate) && CarriedAt(l, h, t.symbol)
    ensures r.realized - l.realized == Profit(h, t)
  {
    GainIsProfit(h, l.QuantityOf(t.symbol), EntryOf(l, t.symbol), t);
  }

  lemma GainIsProfit(h: Lot, q: real, entry: real, t: Trade)
    requires CarriedAs(h, q, entry)
    ensures ClosedGain(q, entry, t.signed, t.price) == Profit(h, t)
  {
    if Opposed(q, t.signed) {
      AverageIsEntry(h, q, entry);
      var least := Min(Abs(q), Abs(t.signed));
      assert Closed(h, t) == if q > 0.0 then least else -least;
      Negated(t.price, entry, least);
    }
  }

  lemma Negated(price: real, entry: real, least: real)
    ensures (price - entry) * -least == (entry - price) * least
  {
  }

  lemma OneMoreTrade(ts: seq<Trade>, t: Trade, symbol: Symbol)
    ensures LotOf(ts + [t], symbol) == if t.symbol == symbol then LotAfter(LotOf(ts, symbol), t) else LotOf(ts, symbol)
    ensures Booked(ts + [t]) == Booked(ts) + Profit(LotOf(ts, t.symbol), t)
  {
    assert (ts + [t])[..|ts|] == ts;
  }

  lemma TradeIsCarried(l: Ledger, r: Ledger, ts: seq<Trade>, t: Trade, x: Symbol)
    requires EntryAccounted(l, r, t.symbol, t.signed, t.price, t.atMarket) && OthersKept(l, r, t.symbol)
    requires CarriedAt(l, LotOf(ts, x), x)
    ensures CarriedAt(r, LotOf(ts + [t], x), x)
  {
    OneMoreTrade(ts, t, x);
    if x == t.symbol {
      OneTradeLot(l, r, LotOf(ts, x), t);
    } else {
      assert PositionAt(r.positions, x) == PositionAt(l.positions, x);
    }
  }

  /** One event keeps the account and the list of trades in step. */
  ghost predicate InStep(l: Ledger, ts: seq<Trade>) { l.realized == Booked(ts) && Carries(l, ts) }

  lemma OneEventInStep(l: Ledger, e: Event, ts: seq<Trade>, rate: real)
    requires l.Valid() && e.WellFormed() && InStep(l, ts)
    ensures InStep(Apply(l, e, rate), ts + TradesOf(e))
  {
    var r := Apply(l, e, rate);
    if e.Market? || e.Limit? {
      OrderInStep(l, r, TradesOf(e)[0], ts, rate) by { OrderIsAccounted(l, e, rate); }
    } else {
      assert ts + TradesOf(e) == ts;
      forall x ensures CarriedAt(r, LotOf(ts, x), x) { assert CarriedAt(l, LotOf(ts, x), x); }
    }
  }

  lemma OrderInStep(l: Ledger, r: Ledger, t: Trade, ts: seq<Trade>, rate: real)
    requires Accounted(l, r, t.symbol, t.signed, t.price, rate, t.atMarket) && InStep(l, ts)
    ensures InStep(r, ts + [t])
  {
    assert CarriedAt(l, LotOf(ts, t.symbol), t.symbol);
    OneTradeBooked(l, r, LotOf(ts, t.symbol), t, rate);
    OneMoreTrade(ts, t, t.symbol);
    forall x ensures CarriedAt(r, LotOf(ts + [t], x), x) {
      assert CarriedAt(l, LotOf(ts, x), x);
      TradeIsCarried(l, r, ts, t, x);
    }
  }

  /** Main result: after every run the realised total is the average-cost result of the list of trades, and every
      position is carried at what its quantity cost. */
  lemma {:induction false} RealizedIsBooked(start: real, es: seq<Event>, rate: real)
    requires AllWellFormed(es)
    ensures Run(start, es, rate).realized == Booked(Trades(es))
    ensures Carries(Run(start, es, rate), Trades(es))
    decreases |es|
  {
    if es == [] {
    } else {
      var before, e := es[..|es| - 1], es[|es| - 1];
      RealizedIsBooked(start, before, rate);
      OneEventInStep(Run(start, before, rate), e, Trades(before), rate);
    }
  }
}
