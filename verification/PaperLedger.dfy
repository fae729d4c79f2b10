/** The average-cost account of `shared/binance/paper_adapter.py` as a value, an independent
    list-of-fills account, and the proof that the first refines the second. */
module PaperLedger {
  import opened DecimalUtils
  import opened TradingTypes

  type Symbol = string

  /** quantity > 0 is LONG, quantity < 0 is SHORT. */
  datatype PaperPosition = PaperPosition(
    quantity: real, entryPrice: real, leverage: int, isolatedMargin: real, markPrice: real)

  datatype Ledger = Ledger(
    wallet: real, realized: real, positions: map<Symbol, PaperPosition>, leverages: map<Symbol, int>)
  {
    function LeverageOf(symbol: Symbol): int { if symbol in leverages then leverages[symbol] else 1 }

    predicate Valid() { forall s :: s in leverages ==> leverages[s] > 0 }

    function QuantityOf(symbol: Symbol): real {
      if symbol in positions then positions[symbol].quantity else 0.0
    }
  }

  predicate SameDirection(q: real, s: real) { (q > 0.0 && s > 0.0) || (q < 0.0 && s < 0.0) }

  function Margin(quantity: real, price: real, leverage: int): real
    requires leverage > 0
  {
    Abs(quantity) * price / leverage as real
  }

  function Opened(signed: real, price: real, leverage: int): PaperPosition
    requires leverage > 0
  {
    PaperPosition(signed, price, leverage, Margin(signed, price, leverage), price)
  }

  /** Quantity-weighted mean of two prices; only ever used with a non-zero total. */
  function AveragePrice(q: real, entry: real, s: real, price: real): real
  {
    if Abs(q) + Abs(s) == 0.0 then price else (Abs(q) * entry + Abs(s) * price) / (Abs(q) + Abs(s))
  }

  function Added(o: PaperPosition, signed: real, price: real, leverage: int): PaperPosition
    requires leverage > 0
  {
    o.(entryPrice := AveragePrice(o.quantity, o.entryPrice, signed, price),
       quantity := o.quantity + signed,
       isolatedMargin := o.isolatedMargin + Margin(signed, price, leverage))
  }

  /** Profit of closing as much of `q` as an opposite order of `s` can. */
  function ClosingProfit(q: real, entry: real, s: real, price: real): real {
    var closed := Min(Abs(q), Abs(s));
    if q > 0.0 then Worth(closed, entry, price) else Worth(closed, price, entry)
  }

  function Resized(o: PaperPosition, quantity: real, leverage: int): PaperPosition
    requires leverage > 0
  {
    o.(quantity := quantity, isolatedMargin := Margin(quantity, o.entryPrice, leverage))
  }

  /** The position left by an order of signed quantity `s` at `price`. A market order that is larger
      than an opposite position flips it at the new price; a limit order keeps the old entry. */
  function NextPosition(o: Option<PaperPosition>, s: real, price: real, leverage: int, flips: bool)
    : Option<PaperPosition>
    requires leverage > 0
  {
    if o.None? || o.value.quantity == 0.0 then Some(Opened(s, price, leverage))
    else
      var q := o.value.quantity;
      if SameDirection(q, s) then Some(Added(o.value, s, price, leverage))
      else if q + s == 0.0 then None
      else if flips && Abs(s) > Abs(q) then Some(Opened(q + s, price, leverage))
      else Some(Resized(o.value, q + s, leverage))
  }

  function RealizedBy(o: Option<PaperPosition>, s: real, price: real): real {
    if o.None? || o.value.quantity == 0.0 || SameDirection(o.value.quantity, s) then 0.0
    else ClosingProfit(o.value.quantity, o.value.entryPrice, s, price)
  }

  function PositionAt(ps: map<Symbol, PaperPosition>, symbol: Symbol): Option<PaperPosition> {
    if symbol in ps then Some(ps[symbol]) else None
  }

  function WithPosition(ps: map<Symbol, PaperPosition>, symbol: Symbol,
                        p: Option<PaperPosition>): map<Symbol, PaperPosition> {
    if p.Some? then ps[symbol := p.value] else ps - {symbol}
  }

  function Commission(quantity: real, price: real, rate: real): real { quantity * price * rate }

  /** A filled order: place_market_order with `flips`, place_limit_order without. */
  function Filled(l: Ledger, symbol: Symbol, side: OrderSide, quantity: real, price: real, rate: real,
                  flips: bool): Ledger
    requires l.Valid()
  {
    var o, s := PositionAt(l.positions, symbol), Signed(side, quantity);
    var profit := RealizedBy(o, s, price);
    l.(wallet := l.wallet + profit - Commission(quantity, price, rate),
       realized := l.realized + profit,
       positions := WithPosition(l.positions, symbol, NextPosition(o, s, price, l.LeverageOf(symbol), flips)))
  }

  function FundingFee(o: Option<PaperPosition>, rate: real): real {
    if o.None? || o.value.quantity == 0.0 then 0.0
    else
      var fee := Abs(o.value.quantity) * o.value.markPrice * rate;
      if o.value.quantity > 0.0 then -fee else fee
  }

  function Marked(l: Ledger, symbol: Symbol, mark: real): Ledger {
    if symbol in l.positions then l.(positions := l.positions[symbol := l.positions[symbol].(markPrice := mark)]) else l
  }

  // ---------- events ----------

  datatype Event =
    | Market(symbol: Symbol, side: OrderSide, quantity: real, price: real)
    | Limit(symbol: Symbol, side: OrderSide, quantity: real, limitPrice: Option<real>, mark: real)
    | Funding(symbol: Symbol, rate: real)
    | MarkUpdate(symbol: Symbol, mark: real)
    | ChangeLeverage(symbol: Symbol, leverage: int)
  {
    /** What every caller of the adapter sends: quantities that are not negative, a real leverage. */
    predicate WellFormed() {
      match this
      case Market(_, _, q, _) => q >= 0.0
      case Limit(_, _, q, _, _) => q >= 0.0
      case ChangeLeverage(_, lev) => lev > 0
      case _ => true
    }
  }

  /** `request.price or mark`: an absent or zero limit price falls back to the mark price. */
  function LimitPrice(limitPrice: Option<real>, mark: real): real {
    if limitPrice.Some? && limitPrice.value != 0.0 then limitPrice.value else mark
  }

  function Apply(l: Ledger, e: Event, rate: real): (r: Ledger)
    requires l.Valid() && e.WellFormed()
    ensures r.Valid()
  {
    match e
    case Market(sym, side, q, price) => Filled(l, sym, side, q, price, rate, true)
    case Limit(sym, side, q, lp, mark) => Filled(l, sym, side, q, LimitPrice(lp, mark), rate, false)
    case Funding(sym, fr) => l.(wallet := l.wallet + FundingFee(PositionAt(l.positions, sym), fr))
    case MarkUpdate(sym, mark) => Marked(l, sym, mark)
    case ChangeLeverage(sym, lev) => l.(leverages := l.leverages[sym := lev])
  }

  function Initial(start: real): Ledger { Ledger(start, 0.0, map[], map[]) }

  predicate AllWellFormed(es: seq<Event>) { forall i :: 0 <= i < |es| ==> es[i].WellFormed() }

  function Run(start: real, es: seq<Event>, rate: real): (l: Ledger)
    requires AllWellFormed(es)
    ensures l.Valid()
  {
    if es == [] then Initial(start) else Apply(Run(start, es[..|es| - 1], rate), es[|es| - 1], rate)
  }

  // ---------- the independent account: nothing but the list of fills ----------

  datatype Fill = Fill(symbol: Symbol, signed: real, price: real)

  function FillsOf(e: Event): seq<Fill> {
    match e
    case Market(sym, side, q, price) => [Fill(sym, Signed(side, q), price)]
    case Limit(sym, side, q, lp, mark) => [Fill(sym, Signed(side, q), LimitPrice(lp, mark))]
    case _ => []
  }

  function Fills(es: seq<Event>): seq<Fill> {
    if es == [] then [] else Fills(es[..|es| - 1]) + FillsOf(es[|es| - 1])
  }

  /** Net quantity traded in a symbol. */
  function NetQuantity(fs: seq<Fill>, symbol: Symbol): real {
    if fs == [] then 0.0
    else NetQuantity(fs[..|fs| - 1], symbol) + if fs[|fs| - 1].symbol == symbol then fs[|fs| - 1].signed else 0.0
  }

  /** Profit of the fills if every one were valued at the reference prices. */
  function FillsPnl(fs: seq<Fill>, ref: Symbol -> real): real {
    if fs == [] then 0.0
    else var f := fs[|fs| - 1]; FillsPnl(fs[..|fs| - 1], ref) + Worth(f.signed, f.price, ref(f.symbol))
  }

  function CommissionOf(e: Event, rate: real): real {
    match e
    case Market(_, _, q, price) => Commission(q, price, rate)
    case Limit(_, _, q, lp, mark) => Commission(q, LimitPrice(lp, mark), rate)
    case _ => 0.0
  }

  function Commissions(es: seq<Event>, rate: real): real {
    if es == [] then 0.0 else Commissions(es[..|es| - 1], rate) + CommissionOf(es[|es| - 1], rate)
  }

  /** Funding from traded quantity alone: a LONG pays a positive rate, a SHORT receives it. */
  function FundingOf(e: Event, l: Ledger, fs: seq<Fill>): real {
    if e.Funding? && e.symbol in l.positions
    then -(NetQuantity(fs, e.symbol) * l.positions[e.symbol].markPrice * e.rate) else 0.0
  }

  function FundingTotal(start: real, es: seq<Event>, rate: real): real
    requires AllWellFormed(es)
  {
    if es == [] then 0.0
    else
      var before := es[..|es| - 1];
      FundingTotal(start, before, rate) + FundingOf(es[|es| - 1], Run(start, before, rate), Fills(before))
  }

  /** A limit order larger than the opposite position it meets. */
  predicate OversizedLimit(l: Ledger, e: Event) {
    e.Limit? && Oversized(PositionAt(l.positions, e.symbol), Signed(e.side, e.quantity))
  }

  /** How much one event moves the account away from the list of fills: the part of an oversized limit
      order that opens the other way keeps the old entry price. */
  function Drift(l: Ledger, e: Event): real {
    if e.Limit?
    then FillDrift(PositionAt(l.positions, e.symbol), Signed(e.side, e.quantity), LimitPrice(e.limitPrice, e.mark),
                   false)
    else 0.0
  }

  function DriftTotal(start: real, es: seq<Event>, rate: real): real
    requires AllWellFormed(es)
  {
    if es == [] then 0.0
    else
      var before := es[..|es| - 1];
      DriftTotal(start, before, rate) + Drift(Run(start, before, rate), es[|es| - 1])
  }

  // ---------- valuing the open positions ----------

  /** Profit of quantity `q` bought (sold, when negative) at `entry` and valued at `ref`. */
  function Worth(q: real, entry: real, ref: real): real { (ref - entry) * q }

  function Pnl(p: PaperPosition, ref: real): real { Worth(p.quantity, p.entryPrice, ref) }

  function PnlAt(p: Option<PaperPosition>, ref: real): real { if p.None? then 0.0 else Pnl(p.value, ref) }

  ghost function OpenPnl(ps: map<Symbol, PaperPosition>, ref: Symbol -> real): real
    decreases |ps|
  {
    if ps == map[] then 0.0
    else var k :| k in ps; Pnl(ps[k], ref(k)) + OpenPnl(ps - {k}, ref)
  }

  lemma {:induction false} OpenPnlSplit(ps: map<Symbol, PaperPosition>, ref: Symbol -> real, k: Symbol)
    requires k in ps
    ensures OpenPnl(ps, ref) == Pnl(ps[k], ref(k)) + OpenPnl(ps - {k}, ref)
    decreases |ps|
  {
    var j :| j in ps && OpenPnl(ps, ref) == Pnl(ps[j], ref(j)) + OpenPnl(ps - {j}, ref);
    if j != k {
      OpenPnlSplit(ps - {j}, ref, k);
      OpenPnlSplit(ps - {k}, ref, j);
      assert ps - {j} - {k} == ps - {k} - {j};
    }
  }

  lemma OpenPnlUpdate(ps: map<Symbol, PaperPosition>, ref: Symbol -> real, k: Symbol, p: Option<PaperPosition>)
    ensures OpenPnl(WithPosition(ps, k, p), ref)
            == OpenPnl(ps, ref) - PnlAt(PositionAt(ps, k), ref(k)) + PnlAt(p, ref(k))
  {
    var next := WithPosition(ps, k, p);
    if k in ps { OpenPnlSplit(ps, ref, k); } else { assert ps - {k} == ps; }
    if p.Some? {
      OpenPnlSplit(next, ref, k);
      assert next - {k} == ps - {k};
    }
  }

  // ---------- one order at a time ----------

  lemma AverageIsBalanced(q: real, entry: real, s: real, price: real)
    requires SameDirection(q, s)
    ensures AveragePrice(q, entry, s, price) * (q + s) == entry * q + price * s
  {
    var total := Abs(q) + Abs(s);
    var sum := Abs(q) * entry + Abs(s) * price;
    assert sum / total * total == sum;
    var avg := AveragePrice(q, entry, s, price);
    assert avg * total == sum;
    if q > 0.0 { assert q + s == total; } else { assert q + s == -total; assert avg * (q + s) == -sum; }
  }

  lemma AddingValue(q: real, entry: real, s: real, price: real, avg: real, ref: real)
    requires avg * (q + s) == entry * q + price * s
    ensures Worth(q + s, avg, ref) - Worth(q, entry, ref) == Worth(s, price, ref)
  {
  }

  lemma ReducingValue(q: real, entry: real, s: real, price: real, ref: real)
    requires q != 0.0 && !SameDirection(q, s) && Abs(s) <= Abs(q)
    ensures ClosingProfit(q, entry, s, price) + Worth(q + s, entry, ref) - Worth(q, entry, ref) == Worth(s, price, ref)
  {
    assert Min(Abs(q), Abs(s)) == if q > 0.0 then -s else s;
    ReducingAlgebra(q, entry, s, price, ref);
  }

  lemma ReducingAlgebra(q: real, entry: real, s: real, price: real, ref: real)
    ensures Worth(s, price, entry) + Worth(q + s, entry, ref) - Worth(q, entry, ref) == Worth(s, price, ref)
    ensures Worth(-s, entry, price) == Worth(s, price, entry)
  {
  }

  lemma FlippingAlgebra(q: real, entry: real, s: real, price: real, ref: real)
    ensures Worth(q, entry, price) + Worth(q + s, price, ref) - Worth(q, entry, ref) == Worth(s, price, ref)
    ensures Worth(q, entry, price) + Worth(q + s, entry, ref) - Worth(q, entry, ref)
            == Worth(s, price, ref) + Worth(q + s, entry, price)
    ensures Worth(-q, price, entry) == Worth(q, entry, price)
  {
  }

  lemma FlippingValue(q: real, entry: real, s: real, price: real, ref: real)
    requires q != 0.0 && !SameDirection(q, s) && Abs(s) > Abs(q)
    ensures ClosingProfit(q, entry, s, price) + Worth(q + s, price, ref) - Worth(q, entry, ref) == Worth(s, price, ref)
    ensures ClosingProfit(q, entry, s, price) + Worth(q + s, entry, ref) - Worth(q, entry, ref)
            == Worth(s, price, ref) + Worth(q + s, entry, price)
  {
    assert Min(Abs(q), Abs(s)) == if q > 0.0 then q else -q;
    FlippingAlgebra(q, entry, s, price, ref);
  }

  predicate Oversized(o: Option<PaperPosition>, s: real) {
    o.Some? && o.value.quantity != 0.0 && !SameDirection(o.value.quantity, s) && Abs(s) > Abs(o.value.quantity)
  }

  function FillDrift(o: Option<PaperPosition>, s: real, price: real, flips: bool): real {
    if !flips && Oversized(o, s) then Worth(o.value.quantity + s, o.value.entryPrice, price) else 0.0
  }

  lemma WorthOfNothing(entry: real, ref: real)
    ensures Worth(0.0, entry, ref) == 0.0
  {
  }

  /** Realised profit plus change of open value is the fill's own value, up to the limit-order drift. */
  lemma OneFill(o: Option<PaperPosition>, s: real, price: real, leverage: int, flips: bool, ref: real)
    requires leverage > 0
    ensures RealizedBy(o, s, price) + PnlAt(NextPosition(o, s, price, leverage, flips), ref) - PnlAt(o, ref)
            == Worth(s, price, ref) + FillDrift(o, s, price, flips)
  {
    if o.Some? {
      var q, entry := o.value.quantity, o.value.entryPrice;
      WorthOfNothing(entry, ref);
      if q == 0.0 {
      } else if SameDirection(q, s) {
        AverageIsBalanced(q, entry, s, price);
        AddingValue(q, entry, s, price, AveragePrice(q, entry, s, price), ref);
      } else if Abs(s) <= Abs(q) {
        ReducingValue(q, entry, s, price, ref);
      } else {
        FlippingValue(q, entry, s, price, ref);
      }
    }
  }

  lemma NextQuantity(o: Option<PaperPosition>, s: real, price: real, leverage: int, flips: bool)
    requires leverage > 0
    ensures var n := NextPosition(o, s, price, leverage, flips);
            (if n.None? then 0.0 else n.value.quantity) == (if o.None? then 0.0 else o.value.quantity) + s
  {
  }

  /** What one event does to an account that agrees with the list of fills `fs`: equity moves by the fill's
      value, minus commission, plus funding, plus drift. */
  ghost predicate MovesAsFill(l: Ledger, r: Ledger, e: Event, rate: real, fs: seq<Fill>, ref: Symbol -> real) {
    && (forall s :: r.QuantityOf(s) == NetQuantity(fs + FillsOf(e), s))
    && r.wallet + OpenPnl(r.positions, ref) + FillsPnl(fs, ref)
       == l.wallet + OpenPnl(l.positions, ref) + FillsPnl(fs + FillsOf(e), ref)
          - CommissionOf(e, rate) + FundingOf(e, l, fs) + Drift(l, e)
    && r.wallet - r.realized == l.wallet - l.realized - CommissionOf(e, rate) + FundingOf(e, l, fs)
  }

  lemma OneMoreFill(fs: seq<Fill>, f: Fill, ref: Symbol -> real, symbol: Symbol)
    ensures NetQuantity(fs + [f], symbol) == NetQuantity(fs, symbol) + if f.symbol == symbol then f.signed else 0.0
    ensures FillsPnl(fs + [f], ref) == FillsPnl(fs, ref) + Worth(f.signed, f.price, ref(f.symbol))
  {
    assert (fs + [f])[..|fs|] == fs;
  }

  lemma OneOrder(l: Ledger, e: Event, rate: real, fs: seq<Fill>, ref: Symbol -> real)
    requires l.Valid() && e.WellFormed() && (e.Market? || e.Limit?)
    requires forall s :: l.QuantityOf(s) == NetQuantity(fs, s)
    ensures MovesAsFill(l, Apply(l, e, rate), e, rate, fs, ref)
  {
    var price := if e.Market? then e.price else LimitPrice(e.limitPrice, e.mark);
    var s, o := Signed(e.side, e.quantity), PositionAt(l.positions, e.symbol);
    var next := NextPosition(o, s, price, l.LeverageOf(e.symbol), e.Market?);
    var r := Apply(l, e, rate);
    assert r.positions == WithPosition(l.positions, e.symbol, next);
    forall x ensures r.QuantityOf(x) == NetQuantity(fs + FillsOf(e), x) {
      OneMoreFill(fs, Fill(e.symbol, s, price), ref, x);
      NextQuantity(o, s, price, l.LeverageOf(e.symbol), e.Market?);
    }
    OneMoreFill(fs, Fill(e.symbol, s, price), ref, e.symbol);
    OneFill(o, s, price, l.LeverageOf(e.symbol), e.Market?, ref(e.symbol));
    OpenPnlUpdate(l.positions, ref, e.symbol, next);
  }

  lemma OneEvent(l: Ledger, e: Event, rate: real, fs: seq<Fill>, ref: Symbol -> real)
    requires l.Valid() && e.WellFormed()
    requires forall s :: l.QuantityOf(s) == NetQuantity(fs, s)
    ensures MovesAsFill(l, Apply(l, e, rate), e, rate, fs, ref)
  {
    if e.Market? || e.Limit? {
      OneOrder(l, e, rate, fs, ref);
    } else {
      assert fs + FillsOf(e) == fs;
      if e.MarkUpdate? && e.symbol in l.positions {
        var next := Some(l.positions[e.symbol].(markPrice := e.mark));
        OpenPnlUpdate(l.positions, ref, e.symbol, next);
      }
    }
  }

  /** Main result: over every run, whatever prices value it, the average-cost account is worth exactly
      what the list of fills is worth, less commissions, plus funding, plus the limit-order drift. */
  lemma {:induction false} LedgerRefinesFills(start: real, es: seq<Event>, rate: real, ref: Symbol -> real)
    requires AllWellFormed(es)
    ensures var l := Run(start, es, rate);
            && (forall s :: l.QuantityOf(s) == NetQuantity(Fills(es), s))
            && l.wallet + OpenPnl(l.positions, ref)
               == start + FillsPnl(Fills(es), ref) - Commissions(es, rate)
                  + FundingTotal(start, es, rate) + DriftTotal(start, es, rate)
            && l.wallet == start + l.realized - Commissions(es, rate) + FundingTotal(start, es, rate)
  {
    if es != [] {
      var before := es[..|es| - 1];
      LedgerRefinesFills(start, before, rate, ref);
      OneEvent(Run(start, before, rate), es[|es| - 1], rate, Fills(before), ref);
    }
  }

  lemma ProductOfNonzero(x: real, y: real)
    ensures x * y == 0.0 <==> x == 0.0 || y == 0.0
  {
    if x > 0.0 {
      if y > 0.0 { MulLess(0.0, y, x); } else if y < 0.0 { MulLess(y, 0.0, x); }
    } else if x < 0.0 {
      if y > 0.0 { MulLess(0.0, y, -x); } else if y < 0.0 { MulLess(y, 0.0, -x); }
    }
  }

  /** One event is value-exact iff it is not an oversized limit order away from the entry price. */
  lemma DriftFreeIff(l: Ledger, e: Event)
    requires e.WellFormed()
    ensures Drift(l, e) == 0.0
            <==> !(OversizedLimit(l, e) && LimitPrice(e.limitPrice, e.mark) != l.positions[e.symbol].entryPrice)
  {
    if OversizedLimit(l, e) {
      var d := LimitPrice(e.limitPrice, e.mark) - l.positions[e.symbol].entryPrice;
      var q := l.QuantityOf(e.symbol) + Signed(e.side, e.quantity);
      ProductOfNonzero(d, q);
    }
  }

  lemma {:induction false} NoDriftWithoutOversizedLimits(start: real, es: seq<Event>, rate: real)
    requires AllWellFormed(es)
    requires forall i :: 0 <= i < |es| ==> !OversizedLimit(Run(start, es[..i], rate), es[i])
    ensures DriftTotal(start, es, rate) == 0.0
  {
    if es != [] {
      var before := es[..|es| - 1];
      forall i | 0 <= i < |before| ensures !OversizedLimit(Run(start, before[..i], rate), before[i]) {
        assert before[..i] == es[..i];
      }
      NoDriftWithoutOversizedLimits(start, before, rate);
      assert !OversizedLimit(Run(start, es[..|es| - 1], rate), es[|es| - 1]);
    }
  }

  lemma {:induction false} NoFees(start: real, es: seq<Event>)
    requires AllWellFormed(es) && forall i :: 0 <= i < |es| ==> !es[i].Funding?
    ensures Commissions(es, 0.0) == 0.0 && FundingTotal(start, es, 0.0) == 0.0
    decreases |es|
  {
    if es == [] {
    } else {
      NoFees(start, es[..|es| - 1]);
    }
  }

  /** Without commissions and funding, what separates the account from the list of fills is the drift. */
  lemma DriftIsTheGap(start: real, es: seq<Event>, ref: Symbol -> real)
    requires AllWellFormed(es) && forall i :: 0 <= i < |es| ==> !es[i].Funding?
    ensures var l := Run(start, es, 0.0);
            l.wallet + OpenPnl(l.positions, ref) == start + FillsPnl(Fills(es), ref) + DriftTotal(start, es, 0.0)
  {
    LedgerRefinesFills(start, es, 0.0, ref);
    NoFees(start, es);
  }

  /** Buying 1 at 100 and then selling 3 at 110 by limit. */
  function OversizedRun(): (es: seq<Event>)
    ensures AllWellFormed(es)
  {
    [Market("BTCUSDT", Buy, 1.0, 100.0), Limit("BTCUSDT", Sell, 3.0, Some(110.0), 105.0)]
  }

  /** That oversized limit order leaves the account, whatever prices value it, 20 below the list of fills. */
  lemma OversizedLimitLosesTrack(ref: Symbol -> real)
    ensures var l := Run(1000.0, OversizedRun(), 0.0);
            l.wallet + OpenPnl(l.positions, ref) == 1000.0 + FillsPnl(Fills(OversizedRun()), ref) - 20.0
  {
    DriftIsTheGap(1000.0, OversizedRun(), ref);
    OversizedDrift();
  }

  lemma OversizedDrift()
    ensures DriftTotal(1000.0, OversizedRun(), 0.0) == -20.0
  {
    var es := OversizedRun();
    var first, second := es[0], es[1];
    assert es[..1] == [first] && [first][..0] == [];
    assert Run(1000.0, [], 0.0) == Initial(1000.0);
    assert Drift(Initial(1000.0), first) == 0.0;
    assert DriftTotal(1000.0, [first], 0.0) == 0.0;
    var l := Run(1000.0, [first], 0.0);
    assert l == Apply(Initial(1000.0), first, 0.0);
    assert l.positions["BTCUSDT"] == Opened(1.0, 100.0, 1);
    assert Drift(l, second) == Worth(-2.0, 100.0, 110.0);
  }
}
