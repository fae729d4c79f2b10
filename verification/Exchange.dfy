/** A futures exchange as the order engine sees it: one symbol, calls that may fail before or after
    taking effect, queries that answer. Everything a call may do is in its postcondition. */
module Exchange {
  import opened DecimalUtils
  import opened TradingTypes

  type AlgoId = nat

  datatype AlgoOrder = AlgoOrder(
    clientId: AlgoId, side: OrderSide, orderType: AlgoType, stopPrice: real, closePosition: bool)

  /** The error code of "a closePosition order of this kind is already there". */
  const DUPLICATE_PROTECTIVE_ORDER := -4130

  datatype AlgoReply = Accepted | Failed(code: int)

  datatype MarketReply = Done(executedQty: real, avgPrice: real) | Error

  /** _classify_open_algo_order. */
  function Classify(t: AlgoType): Option<Purpose> {
    match t
    case TakeProfitMarket => Some(TakeProfitOrder)
    case StopMarket => Some(StopLossOrder)
    case TrailingStopMarket => Some(StopLossOrder)
    case OtherType => None
  }

  predicate Protects(o: AlgoOrder, p: Purpose) { o.closePosition && Classify(o.orderType) == Some(p) }

  predicate IsLive(algos: map<AlgoId, AlgoOrder>, id: AlgoId, p: Purpose) { id in algos && Protects(algos[id], p) }

  predicate Covered(algos: map<AlgoId, AlgoOrder>, p: Purpose) { exists id :: id in algos && Protects(algos[id], p) }

  /** What -4130 enforces: no purpose is covered twice. */
  ghost predicate AtMostOnePer(algos: map<AlgoId, AlgoOrder>) {
    forall id, other, p :: IsLive(algos, id, p) && IsLive(algos, other, p) ==> id == other
  }

  lemma FewerKeepOne(algos: map<AlgoId, AlgoOrder>, fewer: map<AlgoId, AlgoOrder>)
    requires AtMostOnePer(algos) && forall id :: id in fewer ==> id in algos && fewer[id] == algos[id]
    ensures AtMostOnePer(fewer)
  {
    forall id, other, p | IsLive(fewer, id, p) && IsLive(fewer, other, p) ensures id == other {
      assert IsLive(algos, id, p) && IsLive(algos, other, p);
    }
  }

  lemma FirstOfPurposeKeepsOne(algos: map<AlgoId, AlgoOrder>, o: AlgoOrder, p: Purpose)
    requires AtMostOnePer(algos) && Protects(o, p) && !Covered(algos, p)
    ensures AtMostOnePer(algos[o.clientId := o])
  {
    var more := algos[o.clientId := o];
    forall id, other, x | IsLive(more, id, x) && IsLive(more, other, x) ensures id == other {
      if x != p {
        assert IsLive(algos, id, x) && IsLive(algos, other, x);
      }
    }
  }

  /** Quantity left after a reduce-only order: never past zero. */
  function Reduced(quantity: real, side: OrderSide, amount: real): real {
    if side == Sell then Max(quantity - amount, 0.0) else Min(quantity + amount, 0.0)
  }

  /** A reduce-only order needs an opposite position. */
  predicate Reducible(quantity: real, side: OrderSide) { if side == Sell then quantity > 0.0 else quantity < 0.0 }

  /** The fill a reply stands for; an omitted executed quantity means the whole order. */
  function FilledQty(r: MarketReply, asked: real): real
    requires r.Done?
  {
    if r.executedQty > 0.0 then r.executedQty else asked
  }

  /** A market or reduce-only order that was submitted, and how it was answered. */
  datatype SentOrder = SentOrder(side: OrderSide, amount: real, reply: MarketReply)

  /** Exactly one more order was submitted. */
  predicate OneMore(before: seq<SentOrder>, after: seq<SentOrder>, side: OrderSide, amount: real) {
    |after| > 0 && after == before + [SentOrder(side, amount, after[|after| - 1].reply)]
  }

  function LastReply(orders: seq<SentOrder>): MarketReply
    requires orders != []
  {
    orders[|orders| - 1].reply
  }

  /** The price a reply reports, or the one to fall back to. */
  function FilledPrice(r: MarketReply, fallback: real): real
    requires r.Done?
  {
    if r.avgPrice > 0.0 then r.avgPrice else fallback
  }

  class FuturesExchange {
    /** Whether -4130 is enforced: true of the live exchange, not of the paper one. */
    const onePerPurpose: bool
    var quantity: real
    var algos: map<AlgoId, AlgoOrder>

    /** Every conditional order submitted, in order, and how each was answered. */
    ghost var submissions: seq<AlgoOrder>
    ghost var replies: seq<AlgoReply>
    /** Every cancel requested: of one conditional order, or (None) of all orders. */
    ghost var cancels: seq<Option<AlgoId>>
    /** Signed quantity filled by orders whose acknowledgement was lost. */
    ghost var unreported: real
    ghost var marketOrders: seq<SentOrder>
    ghost var reduceOnlyOrders: seq<SentOrder>

    constructor (onePerPurpose: bool)
      ensures Valid() && this.onePerPurpose == onePerPurpose
      ensures quantity == 0.0 && algos == map[] && unreported == 0.0
      ensures submissions == [] && replies == [] && cancels == [] && marketOrders == [] && reduceOnlyOrders == []
    {
      this.onePerPurpose := onePerPurpose;
      quantity, algos, unreported := 0.0, map[], 0.0;
      submissions, replies, cancels, marketOrders, reduceOnlyOrders := [], [], [], [], [];
    }

    /** Orders are filed under their client id; under -4130 at most one covers each purpose. */
    ghost predicate Valid()
      reads this
    {
      && (forall id :: id in algos ==> algos[id].clientId == id)
      && (onePerPurpose ==> AtMostOnePer(algos))
    }

    /** place_stop_loss_order / place_take_profit_order. An accepted order may still be reported as failed. */
    method PlaceAlgo(o: AlgoOrder, p: Purpose) returns (r: AlgoReply)
      requires Valid() && Protects(o, p)
      modifies this`algos, this`submissions, this`replies
      ensures Valid() && submissions == old(submissions) + [o] && replies == old(replies) + [r]
      ensures r.Accepted? ==> algos == old(algos)[o.clientId := o]
      ensures algos == old(algos) || algos == old(algos)[o.clientId := o]
      ensures onePerPurpose && Covered(old(algos), p) ==> r.Failed? && algos == old(algos)
    {
      submissions := submissions + [o];
      var lands: bool, acknowledged: bool, code: int := *, *, *;
      if lands && !(onePerPurpose && Covered(algos, p)) {
        if onePerPurpose { FirstOfPurposeKeepsOne(algos, o, p); }
        algos := algos[o.clientId := o];
        if acknowledged {
          replies := replies + [Accepted];
          return Accepted;
        }
      }
      r := Failed(code);
      replies := replies + [r];
    }

    /** cancel_algo_order; the caller ignores the answer. */
    method CancelAlgo(id: AlgoId) returns (raised: bool)
      requires Valid()
      modifies this`algos, this`cancels
      ensures Valid() && (algos == old(algos) || algos == old(algos) - {id}) && cancels == old(cancels) + [Some(id)]
      ensures !raised ==> id !in algos
    {
      cancels := cancels + [Some(id)];
      var lands: bool, acknowledged: bool := *, *;
      if onePerPurpose { FewerKeepOne(algos, algos - {id}); }
      if lands { algos := algos - {id}; }
      raised := !lands || !acknowledged;
    }

    /** cancel_all_open_orders: may fail half-way. */
    method CancelAll() returns (raised: bool)
      requires Valid()
      modifies this`algos, this`cancels
      ensures Valid() && algos.Keys <= old(algos).Keys && forall id :: id in algos ==> algos[id] == old(algos)[id]
      ensures !raised ==> algos == map[]
      ensures cancels == old(cancels) + [None]
    {
      cancels := cancels + [None];
      var gone: set<AlgoId> := *;
      if onePerPurpose { FewerKeepOne(algos, algos - gone); }
      algos := algos - gone;
      raised := algos != map[];
    }

    /** get_open_algo_orders: the live orders in any order. */
    method GetOpenAlgoOrders() returns (orders: seq<AlgoOrder>)
      requires Valid()
      ensures forall o :: o in orders ==> o.clientId in algos && algos[o.clientId] == o
      ensures forall id :: id in algos ==> algos[id] in orders
    {
      orders := [];
      var left := algos.Keys;
      while left != {}
        invariant left <= algos.Keys
        invariant forall o :: o in orders ==> o.clientId in algos && algos[o.clientId] == o
        invariant forall id :: id in algos && id !in left ==> algos[id] in orders
        decreases left
      {
        var id :| id in left;
        orders := orders + [algos[id]];
        left := left - {id};
      }
    }

    /** place_market_order: a reply reports the fill exactly; a failed call may have filled anything. */
    method PlaceMarketOrder(side: OrderSide, amount: real) returns (r: MarketReply)
      requires Valid() && amount > 0.0
      modifies this`quantity, this`unreported, this`marketOrders
      ensures Valid() && marketOrders == old(marketOrders) + [SentOrder(side, amount, r)]
      ensures r.Done? ==>
                0.0 < FilledQty(r, amount) <= amount && r.avgPrice >= 0.0 && unreported == old(unreported)
                && quantity == old(quantity) + Signed(side, FilledQty(r, amount))
      ensures r.Error? ==> quantity - unreported == old(quantity - unreported)
    {
      var lands: bool, acknowledged: bool, omitted: bool, filled: real, price: real := *, *, *, *, *;
      if !(0.0 < filled <= amount) { filled := amount; }
      if lands {
        quantity := quantity + Signed(side, filled);
        if !acknowledged { unreported := unreported + Signed(side, filled); }
      }
      r := if lands && acknowledged then Done(if omitted && filled == amount then 0.0 else filled, Max(price, 0.0))
           else Error;
      marketOrders := marketOrders + [SentOrder(side, amount, r)];
    }

    /** place_reduce_only_market_order: fills completely, up to the open quantity, or fails. */
    method PlaceReduceOnly(side: OrderSide, amount: real) returns (r: MarketReply)
      requires Valid() && amount > 0.0
      modifies this`quantity, this`unreported, this`reduceOnlyOrders
      ensures Valid() && reduceOnlyOrders == old(reduceOnlyOrders) + [SentOrder(side, amount, r)]
      ensures r.Done? ==> Reducible(old(quantity), side) && quantity == Reduced(old(quantity), side, amount)
                          && unreported == old(unreported) && r.avgPrice >= 0.0
      ensures r.Error? ==> quantity - unreported == old(quantity - unreported)
                           && (quantity == old(quantity)
                               || (Reducible(old(quantity), side) && quantity == Reduced(old(quantity), side, amount)))
    {
      var lands: bool, acknowledged: bool, price: real := *, *, *;
      var fills := lands && Reducible(quantity, side);
      if fills {
        var before := quantity;
        quantity := Reduced(quantity, side, amount);
        if !acknowledged { unreported := unreported + (quantity - before); }
      }
      r := if fills && acknowledged then Done(amount, Max(price, 0.0)) else Error;
      reduceOnlyOrders := reduceOnlyOrders + [SentOrder(side, amount, r)];
    }
  }
}
