/** Comparing the exchange's book with the local one, `shared/reconciliation.py`, and the healing that runs
    before it, `worker/position_monitor.py`. */
module Reconciliation {
  import opened DecimalUtils
  import opened TradingTypes

  type Symbol = string

  /** quantity is signed: LONG positive, SHORT negative. */
  datatype ExchangePosition = ExchangePosition(symbol: Symbol, quantity: real, entryPrice: real)

  datatype LocalPosition = LocalPosition(symbol: Symbol, side: PositionSide, quantity: real, entryPrice: real)

  datatype ExchangeAlgo = ExchangeAlgo(symbol: Symbol, kind: AlgoType, isNew: bool)

  datatype MismatchType =
    | ExternalPosition | SideMismatch | QuantityMismatch | EntryPriceMismatch
    | MissingProtectiveOrder | MissingOnExchange

  datatype Mismatch = Mismatch(symbol: Symbol, kind: MismatchType)

  datatype Report = Report(
    mismatches: seq<Mismatch>, externalPositions: seq<Symbol>, missingOnExchange: seq<Symbol>,
    positionsMissingProtection: seq<Symbol>, isConsistent: bool)

  const QTY_TOLERANCE := 0.00000001
  const PRICE_TOLERANCE_PCT := 0.5

  function SideOf(quantity: real): PositionSide { if quantity > 0.0 then Long else Short }

  function PriceDiffPct(exchange: real, local: real): real { SafeDiv(Abs(exchange - local), local) * 100.0 }

  predicate HasNew(algos: seq<ExchangeAlgo>, symbol: Symbol, kind: AlgoType) {
    exists a :: a in algos && a.symbol == symbol && a.isNew && a.kind == kind
  }

  predicate HasBoth(algos: seq<ExchangeAlgo>, symbol: Symbol) {
    HasNew(algos, symbol, StopMarket) && HasNew(algos, symbol, TakeProfitMarket)
  }

  // ---------- a dictionary in insertion order: the last entry of a symbol wins ----------

  /** {p.symbol: p for p in items}: keys in order of first appearance. */
  datatype Book<T> = Book(keys: seq<Symbol>, at: map<Symbol, T>) {
    ghost predicate Valid() {
      && (forall k :: k in keys <==> k in at)
      && forall i, j :: 0 <= i < j < |keys| ==> keys[i] != keys[j]
    }

    function Set(symbol: Symbol, value: T): Book<T> {
      Book(if symbol in at then keys else keys + [symbol], at[symbol := value])
    }
  }

  function EmptyBook<T>(): Book<T> { Book([], map[]) }

  function ExchangeBook(ps: seq<ExchangePosition>): (b: Book<ExchangePosition>)
    ensures b.Valid()
    ensures forall k :: k in b.at ==> b.at[k] in ps && b.at[k].symbol == k
    ensures forall p :: p in ps ==> p.symbol in b.at
  {
    if ps == [] then EmptyBook()
    else
      var before, last := ps[..|ps| - 1], ps[|ps| - 1];
      assert ps == before + [last];
      ExchangeBook(before).Set(last.symbol, last)
  }

  function LocalBook(ps: seq<LocalPosition>): (b: Book<LocalPosition>)
    ensures b.Valid()
    ensures forall k :: k in b.at ==> b.at[k] in ps && b.at[k].symbol == k
    ensures forall p :: p in ps ==> p.symbol in b.at
  {
    if ps == [] then EmptyBook()
    else
      var before, last := ps[..|ps| - 1], ps[|ps| - 1];
      assert ps == before + [last];
      LocalBook(before).Set(last.symbol, last)
  }

  // ---------- what a symbol contributes, stated independently of the loops ----------

  /** The two books tell the same story about a symbol. */
  predicate Agrees(exch: ExchangePosition, local: LocalPosition) {
    && SideOf(exch.quantity) == local.side
    && Abs(Abs(exch.quantity) - local.quantity) <= QTY_TOLERANCE
    && (local.entryPrice > 0.0 ==> PriceDiffPct(exch.entryPrice, local.entryPrice) <= PRICE_TOLERANCE_PCT)
  }

  predicate Reported(eb: map<Symbol, ExchangePosition>, lb: map<Symbol, LocalPosition>, algos: seq<ExchangeAlgo>,
                     m: Mismatch) {
    match m.kind
    case ExternalPosition => m.symbol in eb && m.symbol !in lb
    case MissingOnExchange => m.symbol in lb && m.symbol !in eb
    case SideMismatch => m.symbol in eb && m.symbol in lb && SideOf(eb[m.symbol].quantity) != lb[m.symbol].side
    case QuantityMismatch =>
      m.symbol in eb && m.symbol in lb && SideOf(eb[m.symbol].quantity) == lb[m.symbol].side
      && Abs(Abs(eb[m.symbol].quantity) - lb[m.symbol].quantity) > QTY_TOLERANCE
    case EntryPriceMismatch =>
      m.symbol in eb && m.symbol in lb && SideOf(eb[m.symbol].quantity) == lb[m.symbol].side
      && lb[m.symbol].entryPrice > 0.0
        && PriceDiffPct(eb[m.symbol].entryPrice, lb[m.symbol].entryPrice) > PRICE_TOLERANCE_PCT
    case MissingProtectiveOrder =>
      m.symbol in eb && m.symbol in lb && SideOf(eb[m.symbol].quantity) == lb[m.symbol].side
        && !HasBoth(algos, m.symbol)
  }

  /** What reconcile promises: each list holds exactly the symbols its meaning calls for. */
  ghost predicate Describes(r: Report, eb: map<Symbol, ExchangePosition>, lb: map<Symbol, LocalPosition>,
                            algos: seq<ExchangeAlgo>) {
    && (forall m :: m in r.mismatches <==> Reported(eb, lb, algos, m))
    && (forall s :: s in r.externalPositions <==> Reported(eb, lb, algos, Mismatch(s, ExternalPosition)))
    && (forall s :: s in r.missingOnExchange <==> Reported(eb, lb, algos, Mismatch(s, MissingOnExchange)))
    && (forall s :: s in r.positionsMissingProtection <==> Reported(eb, lb, algos, Mismatch(s, MissingProtectiveOrder)))
    && (r.isConsistent <==> r.mismatches == [])
  }

  /** The mismatches found for one symbol of the exchange's book, in order. */
  method CompareSymbol(eb: map<Symbol, ExchangePosition>, lb: map<Symbol, LocalPosition>, algos: seq<ExchangeAlgo>,
                       symbol: Symbol)
    returns (found: seq<Mismatch>)
    requires symbol in eb
    ensures forall m :: m in found <==> m.symbol == symbol && m.kind != MissingOnExchange && Reported(eb, lb, algos, m)
  {
    if symbol !in lb { return [Mismatch(symbol, ExternalPosition)]; }
    var exch, local := eb[symbol], lb[symbol];
    if SideOf(exch.quantity) != local.side { return [Mismatch(symbol, SideMismatch)]; }
    found := [];
    if Abs(Abs(exch.quantity) - local.quantity) > QTY_TOLERANCE {
      found := found + [Mismatch(symbol, QuantityMismatch)];
    }
    if local.entryPrice > 0.0 && PriceDiffPct(exch.entryPrice, local.entryPrice) > PRICE_TOLERANCE_PCT {
      found := found + [Mismatch(symbol, EntryPriceMismatch)];
    }
    if !HasNew(algos, symbol, StopMarket) || !HasNew(algos, symbol, TakeProfitMarket) {
      found := found + [Mismatch(symbol, MissingProtectiveOrder)];
    }
  }

  /** The pass over the exchange's book. */
  method CompareExchangeBook(eb: Book<ExchangePosition>, lb: map<Symbol, LocalPosition>, algos: seq<ExchangeAlgo>)
    returns (mismatches: seq<Mismatch>, external: seq<Symbol>, unprotected: seq<Symbol>)
    requires eb.Valid()
    ensures forall m :: m in mismatches <==>
              m.symbol in eb.at && m.kind != MissingOnExchange && Reported(eb.at, lb, algos, m)
    ensures forall s :: s in external <==> Mismatch(s, ExternalPosition) in mismatches
    ensures forall s :: s in unprotected <==> Mismatch(s, MissingProtectiveOrder) in mismatches
  {
    mismatches, external, unprotected := [], [], [];
    var i := 0;
    while i < |eb.keys|
      invariant 0 <= i <= |eb.keys|
      invariant forall m :: m in mismatches <==>
                  m.symbol in eb.keys[..i] && m.kind != MissingOnExchange && Reported(eb.at, lb, algos, m)
      invariant forall s :: s in external <==> Mismatch(s, ExternalPosition) in mismatches
      invariant forall s :: s in unprotected <==> Mismatch(s, MissingProtectiveOrder) in mismatches
    {
      var symbol := eb.keys[i];
      var found := CompareSymbol(eb.at, lb, algos, symbol);
      if Mismatch(symbol, ExternalPosition) in found { external := external + [symbol]; }
      if Mismatch(symbol, MissingProtectiveOrder) in found { unprotected := unprotected + [symbol]; }
      mismatches := mismatches + found;
      assert eb.keys[..i + 1] == eb.keys[..i] + [symbol];
      i := i + 1;
    }
    assert eb.keys[..i] == eb.keys;
  }

  /** The pass over the local book. */
  method FindMissing(eb: map<Symbol, ExchangePosition>, lb: Book<LocalPosition>)
    returns (missing: seq<Symbol>, mismatches: seq<Mismatch>)
    requires lb.Valid()
    ensures forall s :: s in missing <==> s in lb.at && s !in eb
    ensures forall m :: m in mismatches <==> m.kind == MissingOnExchange && m.symbol in missing
  {
    missing, mismatches := [], [];
    var i := 0;
    while i < |lb.keys|
      invariant 0 <= i <= |lb.keys|
      invariant forall s :: s in missing <==> s in lb.keys[..i] && s !in eb
      invariant forall m :: m in mismatches <==> m.kind == MissingOnExchange && m.symbol in missing
    {
      var symbol := lb.keys[i];
      if symbol !in eb {
        missing := missing + [symbol];
        mismatches := mismatches + [Mismatch(symbol, MissingOnExchange)];
      }
      assert lb.keys[..i + 1] == lb.keys[..i] + [symbol];
      i := i + 1;
    }
    assert lb.keys[..i] == lb.keys;
  }

  /** reconcile. */
  method Reconcile(exchangePositions: seq<ExchangePosition>, localPositions: seq<LocalPosition>,
                   algos: seq<ExchangeAlgo>)
    returns (r: Report)
    ensures Describes(r, ExchangeBook(exchangePositions).at, LocalBook(localPositions).at, algos)
  {
    var eb, lb := ExchangeBook(exchangePositions), LocalBook(localPositions);
    var mismatches, external, unprotected := CompareExchangeBook(eb, lb.at, algos);
    var missing, more := FindMissing(eb.at, lb);
    r := Report(mismatches + more, external, missing, unprotected, |mismatches + more| == 0);
  }

  /** Main result: the report is clean exactly when both books hold the same symbols, agree on each, and
      every position has a NEW stop and a NEW target. */
  lemma ConsistentIff(r: Report, eb: map<Symbol, ExchangePosition>, lb: map<Symbol, LocalPosition>,
                      algos: seq<ExchangeAlgo>)
    requires Describes(r, eb, lb, algos)
    ensures r.isConsistent
            <==> eb.Keys == lb.Keys && forall s :: s in eb ==> Agrees(eb[s], lb[s]) && HasBoth(algos, s)
  {
    if r.isConsistent {
      forall s, k ensures !Reported(eb, lb, algos, Mismatch(s, k)) { assert Mismatch(s, k) !in r.mismatches; }
      forall s | s in eb ensures s in lb && Agrees(eb[s], lb[s]) && HasBoth(algos, s) {
        assert !Reported(eb, lb, algos, Mismatch(s, ExternalPosition));
        assert !Reported(eb, lb, algos, Mismatch(s, SideMismatch));
        assert !Reported(eb, lb, algos, Mismatch(s, QuantityMismatch));
        assert !Reported(eb, lb, algos, Mismatch(s, EntryPriceMismatch));
        assert !Reported(eb, lb, algos, Mismatch(s, MissingProtectiveOrder));
      }
      forall s | s in lb ensures s in eb { assert !Reported(eb, lb, algos, Mismatch(s, MissingOnExchange)); }
    } else {
      var m := r.mismatches[0];
      assert Reported(eb, lb, algos, m);
    }
  }

  // ---------- healing before the comparison ----------

  /** _sync_position_from_exchange: quantity is taken over only when positive, so never for a SHORT. */
  function Synced(p: LocalPosition, exch: ExchangePosition): LocalPosition {
    p.(quantity := if exch.quantity > 0.0 then exch.quantity else p.quantity,
       entryPrice := if exch.entryPrice > 0.0 then exch.entryPrice else p.entryPrice)
  }

  /** The rows still open after reconcile_positions_from_exchange: synced where the exchange has the
      symbol, closed otherwise, unless another task is already closing them. */
  function Healed(ps: seq<LocalPosition>, eb: map<Symbol, ExchangePosition>, closing: set<Symbol>): seq<LocalPosition> {
    if ps == [] then []
    else
      var before, p := Healed(ps[..|ps| - 1], eb, closing), ps[|ps| - 1];
      if p.symbol in eb then before + [Synced(p, eb[p.symbol])]
      else if p.symbol in closing then before + [p]
      else before
  }

  method Heal(ps: seq<LocalPosition>, eb: map<Symbol, ExchangePosition>, closing: set<Symbol>)
    returns (open: seq<LocalPosition>, ghosts: seq<Symbol>)
    ensures open == Healed(ps, eb, closing)
    ensures forall s :: s in ghosts <==> s !in eb && exists p :: p in ps && p.symbol == s
  {
    open, ghosts := [], [];
    var i := 0;
    while i < |ps|
      invariant 0 <= i <= |ps|
      invariant open == Healed(ps[..i], eb, closing)
      invariant forall s :: s in ghosts <==> s !in eb && exists p :: p in ps[..i] && p.symbol == s
    {
      var p := ps[i];
      assert ps[..i + 1][..i] == ps[..i] && ps[..i + 1] == ps[..i] + [p];
      if p.symbol in eb {
        open := open + [Synced(p, eb[p.symbol])];
      } else {
        if p.symbol in closing { open := open + [p]; }
        ghosts := ghosts + [p.symbol];
      }
      i := i + 1;
    }
    assert ps[..i] == ps;
  }

  /** The local book after healing, said of the dictionaries themselves. */
  function HealedMap(before: map<Symbol, LocalPosition>, eb: map<Symbol, ExchangePosition>,
                     closing: set<Symbol>): map<Symbol, LocalPosition> {
    map s | s in before && (s in eb || s in closing) :: if s in eb then Synced(before[s], eb[s]) else before[s]
  }

  lemma BookOfOneMore(ps: seq<LocalPosition>, p: LocalPosition)
    ensures LocalBook(ps + [p]).at == LocalBook(ps).at[p.symbol := p]
  {
    assert (ps + [p])[..|ps|] == ps;
  }

  lemma HealedMapOfOneMore(before: map<Symbol, LocalPosition>, p: LocalPosition, eb: map<Symbol, ExchangePosition>,
                           closing: set<Symbol>)
    ensures var after, one := HealedMap(before, eb, closing), HealedMap(before[p.symbol := p], eb, closing);
            one == if p.symbol in eb then after[p.symbol := Synced(p, eb[p.symbol])]
                   else if p.symbol in closing then after[p.symbol := p] else after
  {
  }

  lemma {:induction false} HealedBook(ps: seq<LocalPosition>, eb: map<Symbol, ExchangePosition>, closing: set<Symbol>)
    ensures LocalBook(Healed(ps, eb, closing)).at == HealedMap(LocalBook(ps).at, eb, closing)
  {
    if ps == [] {
    } else {
      var init, p := ps[..|ps| - 1], ps[|ps| - 1];
      assert ps == init + [p];
      HealedBook(init, eb, closing);
      BookOfOneMore(init, p);
      HealedMapOfOneMore(LocalBook(init).at, p, eb, closing);
      if p.symbol in eb {
        BookOfOneMore(Healed(init, eb, closing), Synced(p, eb[p.symbol]));
      } else if p.symbol in closing {
        BookOfOneMore(Healed(init, eb, closing), p);
      }
    }
  }

  lemma SameEntryAgrees(e: real)
    requires e > 0.0
    ensures PriceDiffPct(e, e) == 0.0
  {
  }

  /** Which mismatches survive healing, dictionary by dictionary. */
  lemma HealedMismatches(eb: map<Symbol, ExchangePosition>, before: map<Symbol, LocalPosition>,
                         algos: seq<ExchangeAlgo>,
                         closing: set<Symbol>, s: Symbol)
    ensures var after := HealedMap(before, eb, closing);
            && (Reported(eb, after, algos, Mismatch(s, MissingOnExchange)) <==> s in closing && s in before && s !in eb)
            && (Reported(eb, after, algos, Mismatch(s, EntryPriceMismatch)) ==> s in eb && eb[s].entryPrice <= 0.0)
            && (Reported(eb, after, algos, Mismatch(s, QuantityMismatch)) <==>
                  (&& s in eb && s in before && before[s].side == Short && eb[s].quantity <= 0.0
                   && Abs(-eb[s].quantity - before[s].quantity) > QTY_TOLERANCE))
  {
    if s in eb && eb[s].entryPrice > 0.0 { SameEntryAgrees(eb[s].entryPrice); }
  }

  /** Healing leaves a ghost position only where a close is in progress, an entry mismatch only where the
      exchange reports no positive entry, and a quantity mismatch exactly on the SHORT positions that differed. */
  ghost predicate HealedOutcome(r: Report, eb: map<Symbol, ExchangePosition>, before: map<Symbol, LocalPosition>,
                                closing: set<Symbol>) {
    && (forall s :: s in r.missingOnExchange <==> s in closing && s in before && s !in eb)
    && (forall s :: Mismatch(s, EntryPriceMismatch) in r.mismatches ==> s in eb && eb[s].entryPrice <= 0.0)
    && (forall s :: Mismatch(s, QuantityMismatch) in r.mismatches <==>
          (&& s in eb && s in before && before[s].side == Short && eb[s].quantity <= 0.0
           && Abs(-eb[s].quantity - before[s].quantity) > QTY_TOLERANCE))
  }

  lemma HealedReport(eb: map<Symbol, ExchangePosition>, before: map<Symbol, LocalPosition>, algos: seq<ExchangeAlgo>,
                     closing: set<Symbol>, r: Report)
    requires Describes(r, eb, HealedMap(before, eb, closing), algos)
    ensures HealedOutcome(r, eb, before, closing)
  {
    forall s
      ensures s in r.missingOnExchange <==> s in closing && s in before && s !in eb
      ensures Mismatch(s, EntryPriceMismatch) in r.mismatches ==> s in eb && eb[s].entryPrice <= 0.0
      ensures Mismatch(s, QuantityMismatch) in r.mismatches <==>
                (&& s in eb && s in before && before[s].side == Short && eb[s].quantity <= 0.0
                 && Abs(-eb[s].quantity - before[s].quantity) > QTY_TOLERANCE)
    {
      HealedMismatches(eb, before, algos, closing, s);
    }
  }

  /** Main result: healing and then comparing against the same snapshot. */
  method HealThenReconcile(ps: seq<LocalPosition>, exchangePositions: seq<ExchangePosition>, algos: seq<ExchangeAlgo>,
                           closing: set<Symbol>)
    returns (r: Report)
    ensures HealedOutcome(r, ExchangeBook(exchangePositions).at, LocalBook(ps).at, closing)
  {
    var eb := ExchangeBook(exchangePositions).at;
    var open, _ := Heal(ps, eb, closing);
    r := Reconcile(exchangePositions, open, algos);
    HealedBook(ps, eb, closing);
    HealedReport(eb, LocalBook(ps).at, algos, closing, r);
  }

  /** A SHORT of 1 kept locally against 2 on the exchange is still reported after healing. */
  lemma ShortQuantityIsNotHealed(algos: seq<ExchangeAlgo>)
    ensures var eb := map["BTCUSDT" := ExchangePosition("BTCUSDT", -2.0, 100.0)];
            var before := map["BTCUSDT" := LocalPosition("BTCUSDT", Short, 1.0, 100.0)];
            Reported(eb, HealedMap(before, eb, {}), algos, Mismatch("BTCUSDT", QuantityMismatch))
  {
    var eb := map["BTCUSDT" := ExchangePosition("BTCUSDT", -2.0, 100.0)];
    var before := map["BTCUSDT" := LocalPosition("BTCUSDT", Short, 1.0, 100.0)];
    HealedMismatches(eb, before, algos, {}, "BTCUSDT");
  }
}
