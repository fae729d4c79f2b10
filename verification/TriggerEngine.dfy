/** The conditional-order engine of `shared/binance/paper_adapter.py` as a value: what one mark-price
    update does, and what a whole sequence of them amounts to. */
module TriggerEngine {
  import opened DecimalUtils
  import opened TradingTypes
  import opened PaperLedger
  import AverageCost

  datatype AlgoStatus = New | FilledAlgo | Canceled

  datatype PaperAlgo = PaperAlgo(
    id: string, symbol: Symbol, side: OrderSide, orderType: AlgoType, status: AlgoStatus,
    stopPrice: Option<real>, price: real, executedQty: real)

  /** The adapter's mutable state that orders and price updates touch. `open` keeps insertion order. */
  datatype Account = Account(ledger: Ledger, open: seq<PaperAlgo>, closed: map<string, PaperAlgo>)

  /** One price update; `quote` is the market price fetched when the order with that id fills. */
  datatype Tick = Tick(mark: real, quote: string -> real)

  predicate IsTriggered(a: PaperAlgo, mark: real) {
    a.stopPrice.Some? &&
    match a.orderType
    case StopMarket => if a.side == Sell then mark <= a.stopPrice.value else mark >= a.stopPrice.value
    case TakeProfitMarket => if a.side == Sell then mark >= a.stopPrice.value else mark <= a.stopPrice.value
    case _ => false
  }

  /** The orders an update of `symbol` acts on. */
  predicate Hit(a: PaperAlgo, symbol: Symbol, mark: real) {
    a.symbol == symbol && a.status == New && IsTriggered(a, mark)
  }

  function Remove(s: seq<PaperAlgo>, id: string): (r: seq<PaperAlgo>)
    ensures forall x :: x in r <==> x in s && x.id != id
  {
    if s == [] then []
    else if s[0].id == id then Remove(s[1..], id) else [s[0]] + Remove(s[1..], id)
  }

  /** dict assignment: an existing key keeps its place. */
  function Put(s: seq<PaperAlgo>, a: PaperAlgo): (r: seq<PaperAlgo>)
    ensures forall x :: x in r <==> x == a || (x in s && x.id != a.id)
    decreases |s|
  {
    if s == [] then [a]
    else if s[0].id == a.id then [a] + Remove(s[1..], a.id) else [s[0]] + Put(s[1..], a)
  }

  /** A dictionary's keys: no id twice. */
  predicate UniqueIds(s: seq<PaperAlgo>) {
    forall i, j :: 0 <= i < j < |s| ==> s[i].id != s[j].id
  }

  lemma TailIsUnique(s: seq<PaperAlgo>)
    requires UniqueIds(s) && s != []
    ensures UniqueIds(s[1..]) && forall x :: x in s[1..] ==> x.id != s[0].id
  {
    forall x | x in s[1..] ensures x.id != s[0].id {
      var j :| 0 <= j < |s[1..]| && s[1..][j] == x;
      assert x == s[j + 1];
    }
  }

  lemma {:induction false} RemoveAbsent(s: seq<PaperAlgo>, id: string)
    requires forall x :: x in s ==> x.id != id
    ensures Remove(s, id) == s
  {
    if s != [] {
      RemoveAbsent(s[1..], id);
      assert s[0] in s;
    }
  }

  /** Removing an id takes out its order and leaves the others in their order. */
  lemma {:induction false} RemoveKeepsOrder(s: seq<PaperAlgo>, i: nat)
    requires UniqueIds(s) && i < |s|
    ensures Remove(s, s[i].id) == s[..i] + s[i + 1..]
  {
    TailIsUnique(s);
    if i == 0 {
      RemoveAbsent(s[1..], s[0].id);
    } else {
      RemoveKeepsOrder(s[1..], i - 1);
      assert s[i] in s[1..] && s[1..][i - 1] == s[i] && s[1..][i..] == s[i + 1..];
      assert s[..i] == [s[0]] + s[1..][..i - 1];
    }
  }

  /** An order under a new id goes to the end, */
  lemma {:induction false} PutAppends(s: seq<PaperAlgo>, a: PaperAlgo)
    requires forall x :: x in s ==> x.id != a.id
    ensures Put(s, a) == s + [a]
    decreases |s|
  {
    if s != [] {
      PutAppends(s[1..], a);
      assert s[0] in s && s == [s[0]] + s[1..];
    }
  }

  lemma ReplacedLater(first: PaperAlgo, rest: seq<PaperAlgo>, a: PaperAlgo, i: nat)
    requires 0 < i <= |rest|
    ensures ([first] + rest)[i := a] == [first] + rest[i - 1 := a]
  {
  }

  /** and one under an id that is there takes the place of the order it replaces. */
  lemma {:induction false} PutReplaces(s: seq<PaperAlgo>, a: PaperAlgo, i: nat)
    requires UniqueIds(s) && i < |s| && s[i].id == a.id
    ensures Put(s, a) == s[i := a]
    decreases |s|
  {
    var first, rest := s[0], s[1..];
    if i == 0 {
      assert Remove(rest, a.id) == rest by {
        TailIsUnique(s);
        RemoveAbsent(rest, a.id);
      }
      assert s[0 := a] == [a] + rest;
    } else {
      assert first.id != a.id;
      assert Put(rest, a) == rest[i - 1 := a] by {
        TailIsUnique(s);
        PutReplaces(rest, a, i - 1);
      }
      assert s == [first] + rest;
      ReplacedLater(first, rest, a, i);
    }
  }

  /** The part of UniqueIds that survives dropping elements: one order per id. */
  predicate IdsAgree(s: seq<PaperAlgo>) {
    forall a, b :: a in s && b in s && a.id == b.id ==> a == b
  }

  function CanceledCopy(a: PaperAlgo): PaperAlgo { a.(status := Canceled, executedQty := 0.0) }

  function FilledCopy(a: PaperAlgo, mark: real, quantity: real): PaperAlgo {
    a.(status := FilledAlgo, price := mark, executedQty := quantity)
  }

  /** The loop body for one order of the snapshot. */
  function Settle(acc: Account, a: PaperAlgo, symbol: Symbol, t: Tick, rate: real): (r: Account)
    requires acc.ledger.Valid()
    ensures r.ledger.Valid()
  {
    if !Hit(a, symbol, t.mark) then acc
    else if acc.ledger.QuantityOf(symbol) == 0.0 then
      acc.(open := Remove(acc.open, a.id), closed := acc.closed[a.id := CanceledCopy(a)])
    else
      var quantity := Abs(acc.ledger.QuantityOf(symbol));
      Account(Filled(acc.ledger, symbol, a.side, quantity, t.quote(a.id), rate, true),
              Remove(acc.open, a.id), acc.closed[a.id := FilledCopy(a, t.mark, quantity)])
  }

  function SettleAll(acc: Account, snapshot: seq<PaperAlgo>, symbol: Symbol, t: Tick, rate: real): (r: Account)
    requires acc.ledger.Valid()
    ensures r.ledger.Valid()
    decreases |snapshot|
  {
    if snapshot == [] then acc else SettleAll(Settle(acc, snapshot[0], symbol, t, rate), snapshot[1..], symbol, t, rate)
  }

  function FillOfOrder(acc: Account, a: PaperAlgo, symbol: Symbol, t: Tick): seq<PaperAlgo> {
    var q := acc.ledger.QuantityOf(symbol);
    if Hit(a, symbol, t.mark) && q != 0.0 then [FilledCopy(a, t.mark, Abs(q))] else []
  }

  /** The orders an update fills, in the order it fills them. */
  function FillsDuring(acc: Account, snapshot: seq<PaperAlgo>, symbol: Symbol, t: Tick, rate: real): seq<PaperAlgo>
    requires acc.ledger.Valid()
    decreases |snapshot|
  {
    if snapshot == [] then []
    else
      FillOfOrder(acc, snapshot[0], symbol, t)
      + FillsDuring(Settle(acc, snapshot[0], symbol, t, rate), snapshot[1..], symbol, t, rate)
  }

  /** on_mark_price_update. */
  function Update(acc: Account, symbol: Symbol, t: Tick, rate: real): (r: Account)
    requires acc.ledger.Valid()
    ensures r.ledger.Valid()
  {
    SettleAll(acc.(ledger := Marked(acc.ledger, symbol, t.mark)), acc.open, symbol, t, rate)
  }

  function Updates(acc: Account, symbol: Symbol, ts: seq<Tick>, rate: real): (r: Account)
    requires acc.ledger.Valid()
    ensures r.ledger.Valid()
    decreases |ts|
  {
    if ts == [] then acc else Updates(Update(acc, symbol, ts[0], rate), symbol, ts[1..], rate)
  }

  /** The fold over a dictionary snapshot, one position further. */
  lemma SnapshotStep(acc: Account, s: seq<PaperAlgo>, i: nat, symbol: Symbol, t: Tick, rate: real)
    requires acc.ledger.Valid() && i < |s|
    ensures SettleAll(acc, s[i..], symbol, t, rate)
            == SettleAll(Settle(acc, s[i], symbol, t, rate), s[i + 1..], symbol, t, rate)
    ensures FillsDuring(acc, s[i..], symbol, t, rate)
            == FillOfOrder(acc, s[i], symbol, t)
              + FillsDuring(Settle(acc, s[i], symbol, t, rate), s[i + 1..], symbol, t, rate)
  {
    assert s[i..][0] == s[i] && s[i..][1..] == s[i + 1..];
  }

  // ---------- the offline description ----------

  /** First order of the list that a mark price triggers; |s| when none is. */
  function FirstHit(s: seq<PaperAlgo>, symbol: Symbol, mark: real): (i: nat)
    ensures i <= |s|
    ensures i < |s| ==> Hit(s[i], symbol, mark)
    ensures forall j :: 0 <= j < i ==> !Hit(s[j], symbol, mark)
  {
    if s == [] then 0 else if Hit(s[0], symbol, mark) then 0 else 1 + FirstHit(s[1..], symbol, mark)
  }

  predicate Crossed(s: seq<PaperAlgo>, symbol: Symbol, mark: real) { exists a :: a in s && Hit(a, symbol, mark) }

  /** First tick at which any of the orders triggers; |ts| when none does. */
  function FirstPassage(s: seq<PaperAlgo>, symbol: Symbol, ts: seq<Tick>): (i: nat)
    ensures i <= |ts|
    ensures i < |ts| ==> Crossed(s, symbol, ts[i].mark)
    ensures forall j :: 0 <= j < i ==> !Crossed(s, symbol, ts[j].mark)
  {
    if ts == [] then 0 else if Crossed(s, symbol, ts[0].mark) then 0 else 1 + FirstPassage(s, symbol, ts[1..])
  }

  predicate EverHit(a: PaperAlgo, symbol: Symbol, ts: seq<Tick>) {
    exists i :: 0 <= i < |ts| && Hit(a, symbol, ts[i].mark)
  }

  /** An order that would reduce a position of quantity q. */
  predicate ClosingSide(a: PaperAlgo, q: real) { if q > 0.0 then a.side == Sell else a.side == Buy }

  /** A live position whose conditional orders are all on the closing side. */
  predicate Guarded(acc: Account, symbol: Symbol) {
    && acc.ledger.Valid() && acc.ledger.QuantityOf(symbol) != 0.0
    && UniqueIds(acc.open)
    && forall a :: a in acc.open && a.symbol == symbol ==> ClosingSide(a, acc.ledger.QuantityOf(symbol))
  }

  // ---------- one update ----------

  lemma ClosingFill(l: Ledger, symbol: Symbol, side: OrderSide, price: real, rate: real)
    requires l.Valid() && symbol in l.positions && l.positions[symbol].quantity != 0.0
    ensures var q := l.positions[symbol].quantity;
            var r := Filled(l, symbol, side, Abs(q), price, rate, true);
            if (q > 0.0) == (side == Sell) then r.positions == l.positions - {symbol} && symbol !in r.positions
            else r.QuantityOf(symbol) == q + q
  {
  }

  lemma {:induction false} SkipPrefix(acc: Account, s: seq<PaperAlgo>, n: nat, symbol: Symbol, t: Tick, rate: real)
    requires acc.ledger.Valid() && n <= |s| && forall j :: 0 <= j < n ==> !Hit(s[j], symbol, t.mark)
    ensures SettleAll(acc, s, symbol, t, rate) == SettleAll(acc, s[n..], symbol, t, rate)
    ensures FillsDuring(acc, s, symbol, t, rate) == FillsDuring(acc, s[n..], symbol, t, rate)
    decreases n
  {
    if n == 0 {
      assert s[0..] == s;
    } else {
      SkipPrefix(acc, s[1..], n - 1, symbol, t, rate);
      assert s[1..][n - 1..] == s[n..];
    }
  }

  predicate HitWithId(s: seq<PaperAlgo>, symbol: Symbol, mark: real, id: string) {
    exists a :: a in s && Hit(a, symbol, mark) && a.id == id
  }

  lemma HitWithIdUnfold(s: seq<PaperAlgo>, symbol: Symbol, mark: real, id: string)
    requires s != []
    ensures HitWithId(s, symbol, mark, id)
            <==> (Hit(s[0], symbol, mark) && s[0].id == id) || HitWithId(s[1..], symbol, mark, id)
  {
    assert forall a :: a in s <==> a == s[0] || a in s[1..];
  }

  /** The orders of `s` that trigger are cancelled and nothing else moves. */
  ghost predicate OnlyCancels(acc: Account, s: seq<PaperAlgo>, symbol: Symbol, mark: real, r: Account) {
    && r.ledger == acc.ledger
    && (forall x :: x in r.open <==> x in acc.open && !HitWithId(s, symbol, mark, x.id))
    && (forall a :: a in s && Hit(a, symbol, mark) ==>
          a.id in r.closed && r.closed[a.id] == a.(status := Canceled, executedQty := 0.0))
    && (forall id :: id in acc.closed && !HitWithId(s, symbol, mark, id) ==>
                       id in r.closed && r.closed[id] == acc.closed[id])
  }

  lemma OneMoreCancel(acc: Account, s: seq<PaperAlgo>, symbol: Symbol, t: Tick, rate: real, r: Account)
    requires acc.ledger.Valid() && acc.ledger.QuantityOf(symbol) == 0.0 && s != [] && IdsAgree(s)
    requires OnlyCancels(Settle(acc, s[0], symbol, t, rate), s[1..], symbol, t.mark, r)
    ensures OnlyCancels(acc, s, symbol, t.mark, r)
  {
    var first, rest, next := s[0], s[1..], Settle(acc, s[0], symbol, t, rate);
    forall id
      ensures HitWithId(s, symbol, t.mark, id)
              <==> (Hit(first, symbol, t.mark) && first.id == id) || HitWithId(rest, symbol, t.mark, id)
    {
      HitWithIdUnfold(s, symbol, t.mark, id);
    }
    assert forall b :: b in rest ==> b in s;
    forall a | a in s && Hit(a, symbol, t.mark)
      ensures a.id in r.closed && r.closed[a.id] == a.(status := Canceled, executedQty := 0.0)
    {
      if a !in rest { assert a == first && next.closed[a.id] == CanceledCopy(a); }
    }
  }

  /** With no position left, every triggered order is cancelled and nothing else moves. */
  lemma {:induction false} SettleWithoutPosition(acc: Account, s: seq<PaperAlgo>, symbol: Symbol, t: Tick, rate: real)
    requires acc.ledger.Valid() && acc.ledger.QuantityOf(symbol) == 0.0 && IdsAgree(s)
    ensures OnlyCancels(acc, s, symbol, t.mark, SettleAll(acc, s, symbol, t, rate))
    decreases |s|
  {
    if s == [] {
    } else {
      var next := Settle(acc, s[0], symbol, t, rate);
      assert forall a :: a in s[1..] ==> a in s;
      SettleWithoutPosition(next, s[1..], symbol, t, rate);
      OneMoreCancel(acc, s, symbol, t, rate, SettleAll(next, s[1..], symbol, t, rate));
    }
  }

  lemma {:induction false} NoFillWithoutPosition(acc: Account, s: seq<PaperAlgo>, symbol: Symbol, t: Tick, rate: real)
    requires acc.ledger.Valid() && acc.ledger.QuantityOf(symbol) == 0.0
    ensures FillsDuring(acc, s, symbol, t, rate) == []
    decreases |s|
  {
    if s != [] { NoFillWithoutPosition(Settle(acc, s[0], symbol, t, rate), s[1..], symbol, t, rate); }
  }

  lemma AgreeingIds(s: seq<PaperAlgo>)
    requires UniqueIds(s)
    ensures IdsAgree(s)
  {
  }

  /** Wallet once a position of `q` bought at `entry` has been closed whole at `price`: profit in, commission out. */
  function ClosedWallet(wallet: real, q: real, entry: real, price: real, rate: real): real {
    wallet + (price - entry) * q - Abs(q) * price * rate
  }

  function WalletAfterClose(l: Ledger, symbol: Symbol, price: real, rate: real): real {
    if symbol !in l.positions then l.wallet
    else ClosedWallet(l.wallet, l.positions[symbol].quantity, l.positions[symbol].entryPrice, price, rate)
  }

  lemma ClosingWhole(q: real, entry: real, side: OrderSide, price: real)
    requires if q > 0.0 then side == Sell else q < 0.0 && side == Buy
    ensures ClosingProfit(q, entry, Signed(side, Abs(q)), price) == (price - entry) * q
  {
    var s := Signed(side, Abs(q));
    assert s == -q && Min(Abs(q), Abs(s)) == Abs(q);
  }

  lemma CloseFillsWallet(l: Ledger, symbol: Symbol, side: OrderSide, price: real, rate: real)
    requires l.Valid() && symbol in l.positions
    requires var q := l.QuantityOf(symbol); if q > 0.0 then side == Sell else q < 0.0 && side == Buy
    ensures Filled(l, symbol, side, Abs(l.QuantityOf(symbol)), price, rate, true).wallet
            == WalletAfterClose(l, symbol, price, rate)
  {
    ClosingWhole(l.QuantityOf(symbol), l.positions[symbol].entryPrice, side, price);
  }

  /** What an account looks like once an update has closed the position with order `w`. */
  ghost predicate ClosedBy(acc: Account, r: Account, w: PaperAlgo, symbol: Symbol, t: Tick, rate: real)
    requires acc.ledger.Valid()
  {
    && symbol !in r.ledger.positions
    && r.ledger == Filled(Marked(acc.ledger, symbol, t.mark), symbol, w.side, Abs(acc.ledger.QuantityOf(symbol)),
                          t.quote(w.id), rate, true)
    && r.ledger.wallet == WalletAfterClose(acc.ledger, symbol, t.quote(w.id), rate)
    && w.id in r.closed
    && r.closed[w.id] == w.(status := FilledAlgo, price := t.mark, executedQty := Abs(acc.ledger.QuantityOf(symbol)))
    && (forall x :: x in r.open <==> x in acc.open && !Hit(x, symbol, t.mark))
    && (forall a :: a in acc.open && a != w && Hit(a, symbol, t.mark) ==>
                      a.id in r.closed && r.closed[a.id] == a.(status := Canceled, executedQty := 0.0))
  }

  lemma TailAfter(s: seq<PaperAlgo>, j: nat, symbol: Symbol, mark: real)
    requires UniqueIds(s) && j < |s| && forall i :: 0 <= i < j ==> !Hit(s[i], symbol, mark)
    ensures forall x :: x in s && x != s[j] && Hit(x, symbol, mark) ==> x in s[j + 1..]
    ensures forall x :: x in s[j + 1..] ==> x in s && x.id != s[j].id
    ensures IdsAgree(s) && IdsAgree(s[j + 1..])
  {
    AgreeingIds(s);
    var rest := s[j + 1..];
    forall x | x in s && x != s[j] && Hit(x, symbol, mark) ensures x in rest {
      var i :| 0 <= i < |s| && s[i] == x;
      assert rest[i - j - 1] == x;
    }
    forall x | x in rest ensures x in s && x.id != s[j].id {
      var i :| 0 <= i < |rest| && rest[i] == x;
      assert s[j + 1 + i] == x;
    }
  }

  /** The rest of the snapshot triggers what the whole of it triggers, the winner aside. */
  lemma TailHits(s: seq<PaperAlgo>, j: nat, symbol: Symbol, mark: real)
    requires UniqueIds(s) && j < |s| && forall i :: 0 <= i < j ==> !Hit(s[i], symbol, mark)
    ensures forall x :: x in s && x != s[j] ==> (HitWithId(s[j + 1..], symbol, mark, x.id) <==> Hit(x, symbol, mark))
    ensures !HitWithId(s[j + 1..], symbol, mark, s[j].id)
  {
    TailAfter(s, j, symbol, mark);
  }

  lemma SettleCloses(acc: Account, w: PaperAlgo, symbol: Symbol, t: Tick, rate: real)
    requires acc.ledger.Valid() && acc.ledger.QuantityOf(symbol) != 0.0
    requires Hit(w, symbol, t.mark) && ClosingSide(w, acc.ledger.QuantityOf(symbol))
    ensures var q, r := Abs(acc.ledger.QuantityOf(symbol)), Settle(acc, w, symbol, t, rate);
            && symbol !in r.ledger.positions
            && r == Account(Filled(acc.ledger, symbol, w.side, q, t.quote(w.id), rate, true),
                            Remove(acc.open, w.id), acc.closed[w.id := FilledCopy(w, t.mark, q)])
  {
    ClosingFill(acc.ledger, symbol, w.side, t.quote(w.id), rate);
  }

  /** Settling the rest of the snapshot after the winner `w` has closed the position. */
  lemma SettleRest(next: Account, s: seq<PaperAlgo>, j: nat, symbol: Symbol, t: Tick, rate: real)
    requires UniqueIds(s) && j == FirstHit(s, symbol, t.mark) < |s|
    requires next.ledger.Valid() && symbol !in next.ledger.positions && next.open == Remove(s, s[j].id)
    requires s[j].id in next.closed
    ensures var r := SettleAll(next, s[j + 1..], symbol, t, rate);
            && r.ledger == next.ledger
            && s[j].id in r.closed && r.closed[s[j].id] == next.closed[s[j].id]
            && (forall x :: x in r.open <==> x in s && !Hit(x, symbol, t.mark))
            && (forall a :: a in s && a != s[j] && Hit(a, symbol, t.mark) ==>
                              a.id in r.closed && r.closed[a.id] == a.(status := Canceled, executedQty := 0.0))
  {
    TailAfter(s, j, symbol, t.mark);
    TailHits(s, j, symbol, t.mark);
    SettleWithoutPosition(next, s[j + 1..], symbol, t, rate);
  }

  /** An update that triggers something closes the position with the first triggered order in
      insertion order and cancels every other triggered one. */
  lemma UpdateThatHits(acc: Account, symbol: Symbol, t: Tick, rate: real)
    requires Guarded(acc, symbol) && Crossed(acc.open, symbol, t.mark)
    ensures var j := FirstHit(acc.open, symbol, t.mark);
            && j < |acc.open| && ClosedBy(acc, Update(acc, symbol, t, rate), acc.open[j], symbol, t, rate)
            && FillsDuring(acc.(ledger := Marked(acc.ledger, symbol, t.mark)), acc.open, symbol, t, rate)
               == [FilledCopy(acc.open[j], t.mark, Abs(acc.ledger.QuantityOf(symbol)))]
  {
    var s, j := acc.open, FirstHit(acc.open, symbol, t.mark);
    var hit :| hit in s && Hit(hit, symbol, t.mark);
    var marked := acc.(ledger := Marked(acc.ledger, symbol, t.mark));
    SkipPrefix(marked, s, j, symbol, t, rate);
    assert s[j..][0] == s[j] && s[j..][1..] == s[j + 1..];
    assert s[j] in s;
    SettleCloses(marked, s[j], symbol, t, rate);
    CloseFillsWallet(marked.ledger, symbol, s[j].side, t.quote(s[j].id), rate);
    var next := Settle(marked, s[j], symbol, t, rate);
    SettleRest(next, s, j, symbol, t, rate);
    NoFillWithoutPosition(next, s[j + 1..], symbol, t, rate);
  }

  lemma UpdateThatMisses(acc: Account, symbol: Symbol, t: Tick, rate: real)
    requires acc.ledger.Valid() && !Crossed(acc.open, symbol, t.mark)
    ensures Update(acc, symbol, t, rate) == acc.(ledger := Marked(acc.ledger, symbol, t.mark))
  {
    var s := acc.open;
    forall j | 0 <= j < |s| ensures !Hit(s[j], symbol, t.mark) { assert s[j] in s; }
    SkipPrefix(acc.(ledger := Marked(acc.ledger, symbol, t.mark)), s, |s|, symbol, t, rate);
  }

  // ---------- whole runs ----------

  lemma EverHitUnfold(a: PaperAlgo, symbol: Symbol, ts: seq<Tick>)
    requires ts != []
    ensures EverHit(a, symbol, ts) <==> Hit(a, symbol, ts[0].mark) || EverHit(a, symbol, ts[1..])
  {
    if EverHit(a, symbol, ts) {
      var i :| 0 <= i < |ts| && Hit(a, symbol, ts[i].mark);
      if i > 0 { assert ts[1..][i - 1] == ts[i]; }
    }
    if EverHit(a, symbol, ts[1..]) {
      var i :| 0 <= i < |ts[1..]| && Hit(a, symbol, ts[1..][i].mark);
      assert ts[i + 1] == ts[1..][i];
    }
  }

  /** After the position is gone, the ledger is frozen and crossed orders end cancelled. */
  lemma {:induction false} RunWithoutPosition(acc: Account, symbol: Symbol, ts: seq<Tick>, rate: real)
    requires acc.ledger.Valid() && symbol !in acc.ledger.positions && IdsAgree(acc.open)
    ensures var r := Updates(acc, symbol, ts, rate);
            && r.ledger == acc.ledger
            && (forall x :: x in r.open <==> x in acc.open && !EverHit(x, symbol, ts))
            && (forall a :: a in acc.open && EverHit(a, symbol, ts) ==>
                              a.id in r.closed && r.closed[a.id] == a.(status := Canceled, executedQty := 0.0))
            && (forall id :: id in acc.closed && (forall a :: a in acc.open ==> a.id != id)
                  ==> id in r.closed && r.closed[id] == acc.closed[id])
    decreases |ts|
  {
    if ts != [] {
      var t := ts[0];
      var next := Update(acc, symbol, t, rate);
      assert acc.(ledger := Marked(acc.ledger, symbol, t.mark)) == acc;
      SettleWithoutPosition(acc, acc.open, symbol, t, rate);
      forall x | x in acc.open
        ensures HitWithId(acc.open, symbol, t.mark, x.id) <==> Hit(x, symbol, t.mark)
        ensures EverHit(x, symbol, ts) <==> Hit(x, symbol, t.mark) || EverHit(x, symbol, ts[1..])
      {
        EverHitUnfold(x, symbol, ts);
      }
      RunWithoutPosition(next, symbol, ts[1..], rate);
    }
  }

  /** Main result: over any run of price updates a guarded position is closed by exactly one order, the
      one whose barrier is crossed first (ties go to the older order); every other order that is ever
      crossed ends CANCELED, every order that is not stays open, and until the first crossing neither
      the quantity nor the entry price moves. */
  lemma {:induction false} FirstPassageDecides(acc: Account, symbol: Symbol, ts: seq<Tick>, rate: real)
    requires Guarded(acc, symbol)
    ensures var i, r := FirstPassage(acc.open, symbol, ts), Updates(acc, symbol, ts, rate);
            && (i == |ts| ==>
                  && r.open == acc.open && r.closed == acc.closed && r.ledger.wallet == acc.ledger.wallet
                  && symbol in r.ledger.positions
                  && r.ledger.positions[symbol].quantity == acc.ledger.positions[symbol].quantity
                  && r.ledger.positions[symbol].entryPrice == acc.ledger.positions[symbol].entryPrice)
            && (i < |ts| ==>
                  var w := acc.open[FirstHit(acc.open, symbol, ts[i].mark)];
                  && ClosedRun(acc, r, w, symbol, ts[i].mark)
                  && r.ledger.wallet == WalletAfterClose(acc.ledger, symbol, ts[i].quote(w.id), rate)
                  && (forall x :: x in r.open <==> x in acc.open && !EverHit(x, symbol, ts))
                  && (forall a :: a in acc.open && a != w && EverHit(a, symbol, ts)
                        ==> a.id in r.closed && r.closed[a.id] == a.(status := Canceled, executedQty := 0.0)))
    decreases |ts|
  {
    if ts != [] {
      var t := ts[0];
      var next := Update(acc, symbol, t, rate);
      forall x | x in acc.open
        ensures EverHit(x, symbol, ts) <==> Hit(x, symbol, t.mark) || EverHit(x, symbol, ts[1..])
      {
        EverHitUnfold(x, symbol, ts);
      }
      if Crossed(acc.open, symbol, t.mark) {
        UpdateThatHits(acc, symbol, t, rate);
        AgreeingIds(acc.open);
        RunWithoutPosition(next, symbol, ts[1..], rate);
      } else {
        UpdateThatMisses(acc, symbol, t, rate);
        FirstPassageDecides(next, symbol, ts[1..], rate);
      }
    }
  }

  predicate ClosedRun(acc: Account, r: Account, w: PaperAlgo, symbol: Symbol, mark: real) {
    symbol !in r.ledger.positions && w in acc.open && Hit(w, symbol, mark)
    && w.id in r.closed
    && r.closed[w.id] == w.(status := FilledAlgo, price := mark, executedQty := Abs(acc.ledger.QuantityOf(symbol)))
  }

  /** A stop and a target on opposite sides of the entry price never trigger on the same mark. */
  lemma OppositeBarriersExclude(sl: PaperAlgo, tp: PaperAlgo, q: real, entry: real, mark: real)
    requires sl.orderType == StopMarket && tp.orderType == TakeProfitMarket
    requires sl.stopPrice.Some? && tp.stopPrice.Some? && ClosingSide(sl, q) && ClosingSide(tp, q)
    requires if q > 0.0 then sl.stopPrice.value < entry < tp.stopPrice.value
             else tp.stopPrice.value < entry < sl.stopPrice.value
    ensures !(IsTriggered(sl, mark) && IsTriggered(tp, mark))
    ensures IsTriggered(sl, mark) ==> if q > 0.0 then mark < entry else mark > entry
    ensures IsTriggered(tp, mark) ==> if q > 0.0 then mark > entry else mark < entry
  {
  }

  predicate StopReached(q: real, stop: real, mark: real) { if q > 0.0 then mark <= stop else mark >= stop }

  predicate TargetReached(q: real, target: real, mark: real) { if q > 0.0 then mark >= target else mark <= target }

  /** Some mark reaches the stop before, or while, none has reached the target. */
  predicate StopReachedFirst(q: real, stop: real, target: real, ts: seq<Tick>) {
    exists i :: 0 <= i < |ts| && StopReached(q, stop, ts[i].mark)
                && forall j :: 0 <= j <= i ==> !TargetReached(q, target, ts[j].mark)
  }

  /** A position guarded by one stop and one target on opposite sides of its entry. */
  predicate Bracketed(acc: Account, symbol: Symbol, sl: PaperAlgo, tp: PaperAlgo) {
    && Guarded(acc, symbol) && sl in acc.open && tp in acc.open
    && sl.symbol == tp.symbol == symbol && sl.status == tp.status == New
    && sl.orderType == StopMarket && tp.orderType == TakeProfitMarket && sl.stopPrice.Some? && tp.stopPrice.Some?
    && (forall a :: a in acc.open && a.symbol == symbol ==> a == sl || a == tp)
    && var p := acc.ledger.positions[symbol];
       if p.quantity > 0.0 then sl.stopPrice.value < p.entryPrice < tp.stopPrice.value
       else tp.stopPrice.value < p.entryPrice < sl.stopPrice.value
  }

  lemma HitMeansReached(acc: Account, symbol: Symbol, sl: PaperAlgo, tp: PaperAlgo, mark: real)
    requires Bracketed(acc, symbol, sl, tp)
    ensures var q := acc.ledger.QuantityOf(symbol);
            && (Hit(sl, symbol, mark) <==> StopReached(q, sl.stopPrice.value, mark))
            && (Hit(tp, symbol, mark) <==> TargetReached(q, tp.stopPrice.value, mark))
            && !(Hit(sl, symbol, mark) && Hit(tp, symbol, mark))
            && (Crossed(acc.open, symbol, mark) <==> Hit(sl, symbol, mark) || Hit(tp, symbol, mark))
  {
    var p := acc.ledger.positions[symbol];
    OppositeBarriersExclude(sl, tp, p.quantity, p.entryPrice, mark);
  }

  predicate FilledIn(r: Account,
                     a: PaperAlgo) { a !in r.open && a.id in r.closed && r.closed[a.id].status == FilledAlgo }

  /** Main result in prices: over every run of updates the stop fills exactly when some mark reaches it before
      any mark reaches the target. */
  lemma StopFillsIff(acc: Account, symbol: Symbol, sl: PaperAlgo, tp: PaperAlgo, ts: seq<Tick>, rate: real)
    requires Bracketed(acc, symbol, sl, tp)
    ensures FilledIn(Updates(acc, symbol, ts, rate), sl)
            <==> StopReachedFirst(acc.ledger.QuantityOf(symbol), sl.stopPrice.value, tp.stopPrice.value, ts)
  {
    FirstPassageDecides(acc, symbol, ts, rate);
    FirstPassageInPrices(acc, symbol, sl, tp, ts);
    var i := FirstPassage(acc.open, symbol, ts);
    if i < |ts| {
      HitMeansReached(acc, symbol, sl, tp, ts[i].mark);
      assert Hit(sl, symbol, ts[i].mark) ==> EverHit(sl, symbol, ts);
    }
  }

  lemma FirstPassageInPrices(acc: Account, symbol: Symbol, sl: PaperAlgo, tp: PaperAlgo, ts: seq<Tick>)
    requires Bracketed(acc, symbol, sl, tp)
    ensures var i := FirstPassage(acc.open, symbol, ts);
            StopReachedFirst(acc.ledger.QuantityOf(symbol), sl.stopPrice.value, tp.stopPrice.value, ts)
            <==> i < |ts| && Hit(sl, symbol, ts[i].mark)
  {
    var i := FirstPassage(acc.open, symbol, ts);
    forall j | 0 <= j < |ts|
      ensures Hit(sl, symbol, ts[j].mark) <==>
                StopReached(acc.ledger.QuantityOf(symbol), sl.stopPrice.value, ts[j].mark)
      ensures Hit(tp, symbol, ts[j].mark) <==>
                TargetReached(acc.ledger.QuantityOf(symbol), tp.stopPrice.value, ts[j].mark)
      ensures !(Hit(sl, symbol, ts[j].mark) && Hit(tp, symbol, ts[j].mark))
      ensures Crossed(acc.open, symbol, ts[j].mark) <==> Hit(sl, symbol, ts[j].mark) || Hit(tp, symbol, ts[j].mark)
    {
      HitMeansReached(acc, symbol, sl, tp, ts[j].mark);
    }
  }

  // ---------- whole runs of the adapter are runs of the ledger ----------

  /** The market order behind a fill. */
  function MarketOf(fill: PaperAlgo, symbol: Symbol, t: Tick): Event {
    Market(symbol, fill.side, fill.executedQty, t.quote(fill.id))
  }

  function MarketsOf(fills: seq<PaperAlgo>, symbol: Symbol, t: Tick): seq<Event> {
    if fills == [] then [] else [MarketOf(fills[0], symbol, t)] + MarketsOf(fills[1..], symbol, t)
  }

  /** One price update as ledger events: the mark, then one market order for each fill. */
  function EventsOf(acc: Account, symbol: Symbol, t: Tick, rate: real): seq<Event>
    requires acc.ledger.Valid()
  {
    var marked := acc.(ledger := Marked(acc.ledger, symbol, t.mark));
    [MarkUpdate(symbol, t.mark)] + MarketsOf(FillsDuring(marked, acc.open, symbol, t, rate), symbol, t)
  }

  /** The account's ledger is what these events make of the starting balance. */
  predicate RunsAs(acc: Account, start: real, es: seq<Event>, rate: real) {
    AllWellFormed(es) && acc.ledger == Run(start, es, rate)
  }

  lemma OneMoreEvent(start: real, es: seq<Event>, e: Event, rate: real)
    requires AllWellFormed(es) && e.WellFormed()
    ensures AllWellFormed(es + [e]) && Run(start, es + [e], rate) == Apply(Run(start, es, rate), e, rate)
  {
    assert (es + [e])[..|es|] == es;
  }

  lemma {:induction false} SettleAllRunsAs(start: real, es: seq<Event>, acc: Account, snapshot: seq<PaperAlgo>,
                                           symbol: Symbol, t: Tick, rate: real)
    requires RunsAs(acc, start, es, rate)
    ensures RunsAs(SettleAll(acc, snapshot, symbol, t, rate), start,
                   es + MarketsOf(FillsDuring(acc, snapshot, symbol, t, rate), symbol, t), rate)
    decreases |snapshot|
  {
    if snapshot == [] {
      assert es + [] == es;
    } else {
      var a, rest, next := snapshot[0], snapshot[1..], Settle(acc, snapshot[0], symbol, t, rate);
      var fills := FillOfOrder(acc, a, symbol, t);
      var later := FillsDuring(next, rest, symbol, t, rate);
      if fills == [] {
        assert [] + later == later;
        SettleAllRunsAs(start, es, next, rest, symbol, t, rate);
      } else {
        var e := MarketOf(fills[0], symbol, t);
        OneMoreEvent(start, es, e, rate);
        SettleAllRunsAs(start, es + [e], next, rest, symbol, t, rate);
        assert (fills + later)[1..] == later;
        assert es + ([e] + MarketsOf(later, symbol, t)) == es + [e] + MarketsOf(later, symbol, t);
      }
    }
  }

  /** A price update is a mark update followed by one market order per fill. */
  lemma UpdateRunsAs(start: real, es: seq<Event>, acc: Account, symbol: Symbol, t: Tick, rate: real)
    requires RunsAs(acc, start, es, rate)
    ensures RunsAs(Update(acc, symbol, t, rate), start, es + EventsOf(acc, symbol, t, rate), rate)
  {
    var mark := MarkUpdate(symbol, t.mark);
    var marked := acc.(ledger := Marked(acc.ledger, symbol, t.mark));
    OneMoreEvent(start, es, mark, rate);
    SettleAllRunsAs(start, es + [mark], marked, acc.open, symbol, t, rate);
    var markets := MarketsOf(FillsDuring(marked, acc.open, symbol, t, rate), symbol, t);
    assert es + ([mark] + markets) == es + [mark] + markets;
  }

  /** A call of the adapter: an order, funding or leverage change, a conditional order placed or cancelled, or a
      price update. */
  datatype Call =
    | Ledgered(event: Event) | PlaceAlgo(order: PaperAlgo) | CancelAlgo(id: string)
    | PriceUpdate(symbol: Symbol, tick: Tick)

  predicate AllCallsWellFormed(calls: seq<Call>) {
    forall i :: 0 <= i < |calls| && calls[i].Ledgered? ==> calls[i].event.WellFormed()
  }

  function AfterCall(acc: Account, c: Call, rate: real): (r: Account)
    requires acc.ledger.Valid() && (c.Ledgered? ==> c.event.WellFormed())
    ensures r.ledger.Valid()
  {
    match c
    case Ledgered(e) => acc.(ledger := Apply(acc.ledger, e, rate))
    case PlaceAlgo(a) => acc.(open := Put(acc.open, a))
    case CancelAlgo(id) => acc.(open := Remove(acc.open, id))
    case PriceUpdate(symbol, t) => Update(acc, symbol, t, rate)
  }

  function CallEvents(acc: Account, c: Call, rate: real): seq<Event>
    requires acc.ledger.Valid()
  {
    match c
    case Ledgered(e) => [e]
    case PriceUpdate(symbol, t) => EventsOf(acc, symbol, t, rate)
    case _ => []
  }

  /** The account after a whole run of the adapter, and the ledger events it amounts to. */
  function AfterCalls(start: real, calls: seq<Call>, rate: real): (r: (Account, seq<Event>))
    requires AllCallsWellFormed(calls)
    ensures r.0.ledger.Valid()
  {
    if calls == [] then (Account(Initial(start), [], map[]), [])
    else
      var (acc, es) := AfterCalls(start, calls[..|calls| - 1], rate);
      var c := calls[|calls| - 1];
      (AfterCall(acc, c, rate), es + CallEvents(acc, c, rate))
  }

  lemma {:induction false} CallsRunAs(start: real, calls: seq<Call>, rate: real)
    requires AllCallsWellFormed(calls)
    ensures var (acc, es) := AfterCalls(start, calls, rate); RunsAs(acc, start, es, rate)
    decreases |calls|
  {
    if calls == [] {
    } else {
      CallsRunAs(start, calls[..|calls| - 1], rate);
      var (acc, es) := AfterCalls(start, calls[..|calls| - 1], rate);
      match calls[|calls| - 1] {
        case Ledgered(e) => OneMoreEvent(start, es, e, rate);
        case PriceUpdate(symbol, t) => UpdateRunsAs(start, es, acc, symbol, t, rate);
        case _ => assert es + [] == es;
      }
    }
  }

  /** Main result: every run of the adapter, fills of triggered orders included, is worth what its list of fills is
      worth, less commissions, plus funding, plus the limit-order drift, whatever prices value it. */
  lemma AdapterRefinesFills(start: real, calls: seq<Call>, rate: real, ref: Symbol -> real)
    requires AllCallsWellFormed(calls)
    ensures var (acc, es) := AfterCalls(start, calls, rate);
            && AllWellFormed(es)
            && (forall s :: acc.ledger.QuantityOf(s) == NetQuantity(Fills(es), s))
            && acc.ledger.realized == AverageCost.Booked(AverageCost.Trades(es))
            && acc.ledger.wallet + OpenPnl(acc.ledger.positions, ref)
               == start + FillsPnl(Fills(es), ref) - Commissions(es, rate)
                  + FundingTotal(start, es, rate) + DriftTotal(start, es, rate)
  {
    CallsRunAs(start, calls, rate);
    LedgerRefinesFills(start, AfterCalls(start, calls, rate).1, rate, ref);
    AverageCost.RealizedIsBooked(start, AfterCalls(start, calls, rate).1, rate);
  }
}
