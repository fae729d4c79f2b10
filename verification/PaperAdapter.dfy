/** `PaperFuturesAdapter`: the in-memory exchange of `shared/binance/paper_adapter.py`. Its methods are
    proved against the values of PaperLedger and TriggerEngine. */
module PaperAdapter {
  import opened DecimalUtils
  import opened TradingTypes
  import opened PaperLedger
  import opened TriggerEngine
  import AverageCost

  datatype OrderReceipt = OrderReceipt(symbol: Symbol, side: OrderSide, executedQty: real, avgPrice: real)

  class PaperFuturesAdapter {
    const commissionRate: real
    var walletBalance: real
    var realizedPnlTotal: real
    var positions: map<Symbol, PaperPosition>
    var leverageBySymbol: map<Symbol, int>
    var openAlgoOrders: seq<PaperAlgo>
    var closedAlgoOrders: map<string, PaperAlgo>

    function CurrentLedger(): Ledger
      reads this
    {
      Ledger(walletBalance, realizedPnlTotal, positions, leverageBySymbol)
    }

    function CurrentAccount(): Account
      reads this
    {
      Account(CurrentLedger(), openAlgoOrders, closedAlgoOrders)
    }

    predicate Valid()
      reads this
    {
      CurrentLedger().Valid() && UniqueIds(openAlgoOrders)
    }

    constructor (startingBalance: real, commissionRate: real)
      ensures Valid() && this.commissionRate == commissionRate
      ensures CurrentAccount() == Account(Initial(startingBalance), [], map[])
    {
      this.commissionRate := commissionRate;
      walletBalance, realizedPnlTotal := startingBalance, 0.0;
      positions, leverageBySymbol := map[], map[];
      openAlgoOrders, closedAlgoOrders := [], map[];
    }

    method ChangeLeverage(symbol: Symbol, leverage: int)
      requires Valid() && leverage > 0
      modifies this`leverageBySymbol
      ensures Valid()
      ensures CurrentLedger() == Apply(old(CurrentLedger()), Event.ChangeLeverage(symbol, leverage), commissionRate)
    {
      leverageBySymbol := leverageBySymbol[symbol := leverage];
    }

    /** `price` is the mark price fetched for the order. */
    method PlaceMarketOrder(symbol: Symbol, side: OrderSide, quantity: real, price: real) returns (o: OrderReceipt)
      requires Valid() && quantity >= 0.0
      modifies this`walletBalance, this`realizedPnlTotal, this`positions
      ensures Valid()
      ensures CurrentLedger() == Apply(old(CurrentLedger()), Market(symbol, side, quantity, price), commissionRate)
      ensures AverageCost.Accounted(old(CurrentLedger()), CurrentLedger(), symbol, Signed(side, quantity), price,
                                    commissionRate, true)
      ensures o == OrderReceipt(symbol, side, quantity, price)
    {
      AverageCost.OrderIsAccounted(CurrentLedger(), Market(symbol, side, quantity, price), commissionRate);
      var leverage := CurrentLedger().LeverageOf(symbol);
      var signedQty := if side == Buy then quantity else -quantity;
      var commission := Commission(quantity, price, commissionRate);
      if symbol !in positions || positions[symbol].quantity == 0.0 {
        walletBalance := walletBalance - commission;
        positions := positions[symbol := Opened(signedQty, price, leverage)];
      } else {
        var existing := positions[symbol];
        if SameDirection(existing.quantity, signedQty) {
          positions := positions[symbol := Added(existing, signedQty, price, leverage)];
          walletBalance := walletBalance - commission;
        } else {
          var realized := ClosingProfit(existing.quantity, existing.entryPrice, signedQty, price);
          walletBalance := walletBalance + (realized - commission);
          realizedPnlTotal := realizedPnlTotal + realized;
          if Abs(existing.quantity) >= quantity {
            var left := existing.quantity + signedQty;
            if left == 0.0 {
              positions := positions - {symbol};
            } else {
              positions := positions[symbol := Resized(existing, left, leverage)];
            }
          } else {
            var remaining := quantity - Abs(existing.quantity);
            var flipped := if side == Buy then remaining else -remaining;
            positions := positions[symbol := Opened(flipped, price, leverage)];
          }
        }
      }
      o := OrderReceipt(symbol, side, quantity, price);
    }

    method PlaceLimitOrder(symbol: Symbol, side: OrderSide, quantity: real, limit: Option<real>, mark: real)
      returns (o: OrderReceipt)
      requires Valid() && quantity >= 0.0
      modifies this`walletBalance, this`realizedPnlTotal, this`positions
      ensures Valid()
      ensures CurrentLedger() == Apply(old(CurrentLedger()), Event.Limit(symbol, side, quantity, limit, mark),
                                       commissionRate)
      ensures AverageCost.Accounted(old(CurrentLedger()), CurrentLedger(), symbol, Signed(side, quantity),
                                    LimitPrice(limit, mark), commissionRate, false)
      ensures o == OrderReceipt(symbol, side, quantity, LimitPrice(limit, mark))
    {
      AverageCost.OrderIsAccounted(CurrentLedger(), Event.Limit(symbol, side, quantity, limit, mark), commissionRate);
      var price := LimitPrice(limit, mark);
      var leverage := CurrentLedger().LeverageOf(symbol);
      var signedQty := if side == Buy then quantity else -quantity;
      var commission := Commission(quantity, price, commissionRate);
      if symbol !in positions || positions[symbol].quantity == 0.0 {
        walletBalance := walletBalance - commission;
        positions := positions[symbol := Opened(signedQty, price, leverage)];
      } else {
        var existing := positions[symbol];
        if SameDirection(existing.quantity, signedQty) {
          positions := positions[symbol := Added(existing, signedQty, price, leverage)];
          walletBalance := walletBalance - commission;
        } else {
          var realized := ClosingProfit(existing.quantity, existing.entryPrice, signedQty, price);
          walletBalance := walletBalance + (realized - commission);
          realizedPnlTotal := realizedPnlTotal + realized;
          var left := existing.quantity + signedQty;
          if left == 0.0 {
            positions := positions - {symbol};
          } else {
            positions := positions[symbol := Resized(existing, left, leverage)];
          }
        }
      }
      o := OrderReceipt(symbol, side, quantity, price);
    }

    method ApplyFunding(symbol: Symbol, fundingRate: real) returns (signedFee: real)
      requires Valid()
      modifies this`walletBalance
      ensures Valid() && CurrentLedger() == Apply(old(CurrentLedger()), Funding(symbol, fundingRate), commissionRate)
      ensures walletBalance == old(walletBalance) + signedFee
    {
      if symbol !in positions || positions[symbol].quantity == 0.0 { return 0.0; }
      var position := positions[symbol];
      var fee := Abs(position.quantity) * position.markPrice * fundingRate;
      signedFee := if position.quantity > 0.0 then -fee else fee;
      walletBalance := walletBalance + signedFee;
    }

    /** place_stop_loss_order and place_take_profit_order. */
    method PlaceAlgo(a: PaperAlgo)
      requires Valid() && a.status == New
      modifies this`openAlgoOrders
      ensures Valid() && a in openAlgoOrders
      ensures forall x :: x in openAlgoOrders <==> x == a || (x in old(openAlgoOrders) && x.id != a.id)
      ensures (forall x :: x in old(openAlgoOrders) ==> x.id != a.id) ==> openAlgoOrders == old(openAlgoOrders) + [a]
      ensures forall i :: 0 <= i < |old(openAlgoOrders)| && old(openAlgoOrders)[i].id == a.id ==>
                openAlgoOrders == old(openAlgoOrders)[i := a]
    {
      if i :| 0 <= i < |openAlgoOrders| && openAlgoOrders[i].id == a.id {
        PutReplaces(openAlgoOrders, a, i);
      } else {
        PutAppends(openAlgoOrders, a);
      }
      PutKeepsUnique(openAlgoOrders, a);
      openAlgoOrders := Put(openAlgoOrders, a);
    }

    method CancelAlgoOrder(id: string) returns (found: bool)
      requires Valid()
      modifies this`openAlgoOrders
      ensures Valid() && (found <==> exists x :: x in old(openAlgoOrders) && x.id == id)
      ensures forall x :: x in openAlgoOrders <==> x in old(openAlgoOrders) && x.id != id
      ensures forall i :: 0 <= i < |old(openAlgoOrders)| && old(openAlgoOrders)[i].id == id ==>
                openAlgoOrders == old(openAlgoOrders)[..i] + old(openAlgoOrders)[i + 1..]
    {
      if i :| 0 <= i < |openAlgoOrders| && openAlgoOrders[i].id == id { RemoveKeepsOrder(openAlgoOrders, i); }
      RemoveKeepsUnique(openAlgoOrders, id);
      var left := Remove(openAlgoOrders, id);
      found := exists x :: x in openAlgoOrders && x.id == id;
      openAlgoOrders := left;
    }

    /** The body of on_mark_price_update's loop for an order that is still open. */
    method Settle(algo: PaperAlgo, symbol: Symbol, t: Tick) returns (filled: seq<PaperAlgo>)
      requires Valid()
      modifies this`walletBalance, this`realizedPnlTotal, this`positions, this`openAlgoOrders, this`closedAlgoOrders
      ensures Valid()
      ensures CurrentAccount() == TriggerEngine.Settle(old(CurrentAccount()), algo, symbol, t, commissionRate)
      ensures filled == FillOfOrder(old(CurrentAccount()), algo, symbol, t)
    {
      if algo.symbol != symbol || algo.status != New || !IsTriggered(algo, t.mark) { return []; }
      RemoveKeepsUnique(openAlgoOrders, algo.id);
      if symbol !in positions || positions[symbol].quantity == 0.0 {
        openAlgoOrders := Remove(openAlgoOrders, algo.id);
        closedAlgoOrders := closedAlgoOrders[algo.id := CanceledCopy(algo)];
        return [];
      }
      var closeQty := Abs(positions[symbol].quantity);
      var receipt := PlaceMarketOrder(symbol, algo.side, closeQty, t.quote(algo.id));
      var copy := FilledCopy(algo, t.mark, closeQty);
      openAlgoOrders := Remove(openAlgoOrders, algo.id);
      closedAlgoOrders := closedAlgoOrders[algo.id := copy];
      return [copy];
    }

    /** on_mark_price_update: triggers conditional orders; returns the ones that filled. */
    method OnMarkPriceUpdate(symbol: Symbol, t: Tick) returns (triggered: seq<PaperAlgo>)
      requires Valid()
      modifies this`walletBalance, this`realizedPnlTotal, this`positions, this`openAlgoOrders, this`closedAlgoOrders
      ensures Valid()
      ensures CurrentAccount() == Update(old(CurrentAccount()), symbol, t, commissionRate)
      ensures triggered == FillsDuring(old(CurrentAccount()).(ledger := Marked(old(CurrentLedger()), symbol, t.mark)),
                                       old(openAlgoOrders), symbol, t, commissionRate)
    {
      if symbol in positions {
        positions := positions[symbol := positions[symbol].(markPrice := t.mark)];
      }
      triggered := [];
      var snapshot := openAlgoOrders;
      ghost var start := CurrentAccount();
      assert snapshot[0..] == snapshot;
      var i := 0;
      while i < |snapshot|
        invariant 0 <= i <= |snapshot| && Valid()
        invariant SettleAll(start, snapshot, symbol, t, commissionRate)
               == SettleAll(CurrentAccount(), snapshot[i..], symbol, t, commissionRate)
        invariant FillsDuring(start, snapshot, symbol, t, commissionRate)
               == triggered + FillsDuring(CurrentAccount(), snapshot[i..], symbol, t, commissionRate)
      {
        SnapshotStep(CurrentAccount(), snapshot, i, symbol, t, commissionRate);
        var filled := Settle(snapshot[i], symbol, t);
        triggered := triggered + filled;
        i := i + 1;
      }
    }
  }

  lemma {:induction false} RemoveKeepsUnique(s: seq<PaperAlgo>, id: string)
    requires UniqueIds(s)
    ensures UniqueIds(Remove(s, id))
  {
    if s != [] {
      RemoveKeepsUnique(s[1..], id);
      forall x | x in s[1..] ensures x.id != s[0].id {
        var i :| 0 <= i < |s[1..]| && s[1..][i] == x;
        assert s[i + 1] == x;
      }
      var r := Remove(s[1..], id);
      forall i | 0 <= i < |r| ensures r[i].id != s[0].id { assert r[i] in r; }
    }
  }

  lemma {:induction false} PutKeepsUnique(s: seq<PaperAlgo>, a: PaperAlgo)
    requires UniqueIds(s)
    ensures UniqueIds(Put(s, a))
    decreases |s|
  {
    if s != [] {
      var rest := s[1..];
      forall x | x in rest ensures x.id != s[0].id { var i :| 0 <= i < |rest| && rest[i] == x; assert s[i + 1] == x; }
      PutKeepsUnique(rest, a);
      RemoveKeepsUnique(rest, a.id);
      var r := if s[0].id == a.id then Remove(rest, a.id) else Put(rest, a);
      forall i | 0 <= i < |r| ensures r[i].id != s[0].id { assert r[i] in r; }
    }
  }
}
