/** Placing and attaching protective orders, `worker/order_engine.py`: rows in a database, orders on an
    exchange whose calls can fail before or after they take effect. */
module ProtectiveOrders {
  import opened DecimalUtils
  import opened TradingTypes
  import opened TriggerPrices
  import opened Exchange

  const PROTECTIVE_ORDER_MAX_ATTEMPTS := 10

  datatype RowStatus = Submitting | New | Canceled | Rejected | FilledRow

  /** A row of the algo_orders table. */
  datatype AlgoRow = AlgoRow(purpose: Purpose, side: OrderSide, triggerPrice: real, clientId: AlgoId, status: RowStatus)

  /** The CRITICAL risk events of this module. */
  datatype RiskEvent = PlacementFailed(purpose: Purpose) | CannotClose

  datatype RuntimeRow = RuntimeRow(runState: RunState, safeModeReason: string)

  type RowId = nat

  class Database {
    var rows: map<RowId, AlgoRow>
    var nextRow: RowId
    var nextAlgoId: AlgoId
    var riskEvents: seq<RiskEvent>
    /** The bot_runtime_status row with id `default`, if there is one. */
    var defaultRuntime: Option<RuntimeRow>
  }

  datatype PositionStatus = Open | Closing | Closed

  class Position {
    const side: PositionSide
    const leverage: int
    var status: PositionStatus
    var quantity: real
    var entryPrice: real
    var notionalUsdt: real
    var marginUsdt: real
    var openCommissionUsdt: real
    var lossAddCount: nat
    var stopLossPrice: real
    var takeProfitPrice: real
    var protectiveOrdersOk: bool
    var stopLossAlgoId: Option<AlgoId>
    var takeProfitAlgoId: Option<AlgoId>
    var exitPrice: Option<real>
  }

  function OrderTypeFor(p: Purpose): AlgoType { if p == StopLossOrder then StopMarket else TakeProfitMarket }

  /** What must hold between the table and the exchange: ids are fresh, unique, and mean one purpose. */
  ghost predicate TableAgrees(rows: map<RowId, AlgoRow>, nextRow: RowId, nextAlgoId: AlgoId,
                              algos: map<AlgoId, AlgoOrder>) {
    && (forall id :: id in algos ==> id < nextAlgoId)
    && (forall r :: r in rows ==> r < nextRow && rows[r].clientId < nextAlgoId)
    && (forall r :: r in rows && rows[r].clientId in algos
          ==> Classify(algos[rows[r].clientId].orderType) == Some(rows[r].purpose))
    && (forall r, s :: r in rows && s in rows && rows[r].clientId == rows[s].clientId ==> r == s)
  }

  ghost predicate Consistent(db: Database, ex: FuturesExchange)
    reads db, ex
  {
    ex.Valid() && TableAgrees(db.rows, db.nextRow, db.nextAlgoId, ex.algos)
  }

  lemma RowSet(rows: map<RowId, AlgoRow>, next: RowId, nextId: AlgoId, algos: map<AlgoId, AlgoOrder>, r: RowId,
               row: AlgoRow)
    requires TableAgrees(rows, next, nextId, algos) && r <= next && row.clientId < nextId
    requires row.clientId in algos ==> Classify(algos[row.clientId].orderType) == Some(row.purpose)
    requires forall s :: s in rows && s != r ==> rows[s].clientId != row.clientId
    ensures TableAgrees(rows[r := row], if r == next then next + 1 else next, nextId, algos)
  {
  }

  /** Rows that existed keep their purpose and client id. */
  predicate RowsKept(before: map<RowId, AlgoRow>, after: map<RowId, AlgoRow>) {
    forall r :: r in before ==>
                  r in after && after[r].purpose == before[r].purpose && after[r].clientId == before[r].clientId
  }

  /** A placement whose own row is `row` keeps purpose and client id of every other row, and touches none of the
      other purpose. */
  predicate PlacementKeeps(p: Purpose, row: RowId, before: map<RowId, AlgoRow>, after: map<RowId, AlgoRow>) {
    forall r :: r in before && r != row ==>
                  && r in after && after[r].purpose == before[r].purpose && after[r].clientId == before[r].clientId
                  && (before[r].purpose != p ==> after[r] == before[r])
  }

  predicate OrdersKept(before: map<AlgoId, AlgoOrder>, after: map<AlgoId, AlgoOrder>) {
    forall id :: id in before ==> id in after && after[id] == before[id]
  }

  /** The row describes a live order of the purpose, with that order's own trigger price. */
  predicate RowIsLive(rows: map<RowId, AlgoRow>, algos: map<AlgoId, AlgoOrder>, r: RowId, p: Purpose) {
    && r in rows && rows[r].purpose == p && rows[r].status == New
    && IsLive(algos, rows[r].clientId, p)
    && (algos[rows[r].clientId].stopPrice > 0.0 ==> rows[r].triggerPrice == algos[rows[r].clientId].stopPrice)
  }

  /** `protective_orders_ok` never lies: when set on an open position, both recorded ids are live orders
      of the right purpose. */
  predicate Honest(pos: Position, algos: map<AlgoId, AlgoOrder>)
    reads pos
  {
    pos.status == Open && pos.protectiveOrdersOk ==>
      && pos.stopLossAlgoId.Some? && IsLive(algos, pos.stopLossAlgoId.value, StopLossOrder)
      && pos.takeProfitAlgoId.Some? && IsLive(algos, pos.takeProfitAlgoId.value, TakeProfitOrder)
  }

  predicate Protected(pos: Position, algos: map<AlgoId, AlgoOrder>)
    reads pos
  {
    pos.status == Open && pos.protectiveOrdersOk && Honest(pos, algos)
  }

  // ---------- queries ----------

  /** _find_open_protective_algo. */
  method FindOpenProtectiveAlgo(ex: FuturesExchange, p: Purpose) returns (o: Option<AlgoOrder>)
    requires ex.Valid()
    ensures o.Some? ==> IsLive(ex.algos, o.value.clientId, p) && ex.algos[o.value.clientId] == o.value
    ensures o.None? <==> !Covered(ex.algos, p)
  {
    var orders := ex.GetOpenAlgoOrders();
    var i := 0;
    while i < |orders|
      invariant 0 <= i <= |orders|
      invariant forall j :: 0 <= j < i ==> !Protects(orders[j], p)
    {
      if orders[i].closePosition && Classify(orders[i].orderType) == Some(p) { return Some(orders[i]); }
      i := i + 1;
    }
    o := None;
  }

  /** _exchange_has_both_protective_orders. */
  method ExchangeHasBoth(ex: FuturesExchange) returns (sl: bool, tp: bool)
    requires ex.Valid()
    ensures sl <==> Covered(ex.algos, StopLossOrder)
    ensures tp <==> Covered(ex.algos, TakeProfitOrder)
  {
    sl, tp := false, false;
    var orders := ex.GetOpenAlgoOrders();
    var i := 0;
    while i < |orders|
      invariant 0 <= i <= |orders|
      invariant sl <==> exists j :: 0 <= j < i && Protects(orders[j], StopLossOrder)
      invariant tp <==> exists j :: 0 <= j < i && Protects(orders[j], TakeProfitOrder)
    {
      if orders[i].closePosition {
        var kind := Classify(orders[i].orderType);
        if kind == Some(StopLossOrder) { sl := true; } else if kind == Some(TakeProfitOrder) { tp := true; }
      }
      i := i + 1;
    }
  }

  // ---------- attaching an order that is already there ----------

  /** _attach_existing_protective_algo: the row of that client id, else the given row, else a new one. */
  method AttachExisting(db: Database, ex: FuturesExchange, side: PositionSide, p: Purpose, o: AlgoOrder,
                        given: Option<RowId>)
    returns (r: RowId)
    requires Consistent(db, ex) && IsLive(ex.algos, o.clientId, p) && ex.algos[o.clientId] == o
    requires given.Some? ==> given.value in db.rows && db.rows[given.value].purpose == p
    modifies db`rows, db`nextRow
    ensures Consistent(db, ex) && RowIsLive(db.rows, ex.algos, r, p) && db.rows[r].clientId == o.clientId
    ensures db.rows == old(db.rows)[r := db.rows[r]]
    ensures r in old(db.rows) && given != Some(r) ==>
              old(db.rows[r]).purpose == p && old(db.rows[r]).clientId == o.clientId
  {
    var row: AlgoRow;
    if found :| found in db.rows && db.rows[found].clientId == o.clientId {
      r, row := found, db.rows[found];
    } else if given.Some? {
      r, row := given.value, db.rows[given.value].(clientId := o.clientId);
    } else {
      r, row := db.nextRow, AlgoRow(p, CloseSide(side), o.stopPrice, o.clientId, New);
    }
    row := row.(status := New, triggerPrice := if o.stopPrice > 0.0 then o.stopPrice else row.triggerPrice);
    RowSet(db.rows, db.nextRow, db.nextAlgoId, ex.algos, r, row);
    if r == db.nextRow { db.nextRow := db.nextRow + 1; }
    db.rows := db.rows[r := row];
  }

  // ---------- one protective order ----------

  /** The k-th trigger tried: the rounded price moved k ticks away from the entry. */
  function Drifted(start: real, k: int, tick: real, side: PositionSide, p: Purpose): real {
    if (side == Long) == (p == StopLossOrder) then start - Multiple(k, tick) else start + Multiple(k, tick)
  }

  function Request(id: AlgoId, side: PositionSide, p: Purpose, trigger: real): AlgoOrder {
    AlgoOrder(id, CloseSide(side), OrderTypeFor(p), trigger, true)
  }

  /** The submissions of one call, first to last. */
  function Requests(id: AlgoId, side: PositionSide, p: Purpose, start: real, tick: real, n: nat): (s: seq<AlgoOrder>)
    ensures |s| == n
    ensures forall k :: 0 <= k < n ==> s[k] == Request(id, side, p, Drifted(start, k, tick, side, p))
  {
    if n == 0 then []
    else Requests(id, side, p, start, tick, n - 1) + [Request(id, side, p, Drifted(start, n - 1, tick, side, p))]
  }

  /** The live orders after n submissions under a fresh id: unchanged, or with one of them added. */
  ghost predicate Landed(before: map<AlgoId, AlgoOrder>, after: map<AlgoId, AlgoOrder>, id: AlgoId,
                         requests: seq<AlgoOrder>) {
    after == before || exists o :: o in requests && after == before[id := o]
  }

  lemma LandedStep(before: map<AlgoId, AlgoOrder>, mid: map<AlgoId, AlgoOrder>, after: map<AlgoId, AlgoOrder>,
                   id: AlgoId, requests: seq<AlgoOrder>, o: AlgoOrder)
    requires Landed(before, mid, id, requests) && (after == mid || after == mid[id := o])
    ensures Landed(before, after, id, requests + [o])
  {
    assert forall x :: x in requests ==> x in requests + [o];
    assert o in requests + [o];
    if after != mid {
      assert after == before[id := o];
    } else if mid != before {
      var x :| x in requests && mid == before[id := x];
      assert x in requests + [o];
    }
  }

  lemma LandedKeeps(before: map<AlgoId, AlgoOrder>, after: map<AlgoId, AlgoOrder>, id: AlgoId, requests: seq<AlgoOrder>)
    requires Landed(before, after, id, requests) && id !in before
    ensures OrdersKept(before, after)
  {
  }

  /** n submissions from `start`, all but the first at positive triggers, at most one of them landed. */
  ghost predicate Submitted(before: seq<AlgoOrder>, after: seq<AlgoOrder>, algosBefore: map<AlgoId, AlgoOrder>,
                            algos: map<AlgoId, AlgoOrder>,
                            id: AlgoId, side: PositionSide, p: Purpose, start: real, tick: real, n: nat)
  {
    && after == before + Requests(id, side, p, start, tick, n)
    && Landed(algosBefore, algos, id, Requests(id, side, p, start, tick, n))
    && forall k :: 1 <= k < n ==> Drifted(start, k, tick, side, p) > 0.0
  }

  lemma SubmittedStep(before: seq<AlgoOrder>, mid: seq<AlgoOrder>, after: seq<AlgoOrder>,
                      algosBefore: map<AlgoId, AlgoOrder>,
                      algosMid: map<AlgoId, AlgoOrder>, algos: map<AlgoId, AlgoOrder>,
                      id: AlgoId, side: PositionSide, p: Purpose, start: real, tick: real, n: nat)
    requires Submitted(before, mid, algosBefore, algosMid, id, side, p, start, tick, n)
    requires n == 0 || Drifted(start, n, tick, side, p) > 0.0
    requires var o := Request(id, side, p, Drifted(start, n, tick, side, p));
             after == mid + [o] && (algos == algosMid || algos == algosMid[id := o])
    ensures Submitted(before, after, algosBefore, algos, id, side, p, start, tick, n + 1)
  {
    var o := Request(id, side, p, Drifted(start, n, tick, side, p));
    LandedStep(algosBefore, algosMid, algos, id, Requests(id, side, p, start, tick, n), o);
  }

  /** The answer settles the placement: accepted, or an order of the purpose is live already. */
  predicate Settles(reply: AlgoReply, algos: map<AlgoId, AlgoOrder>, p: Purpose) {
    reply.Accepted? || (reply.code == DUPLICATE_PROTECTIVE_ORDER && Covered(algos, p))
  }

  /** After -4130: take over the live order of the purpose, if the query finds one. */
  method AttachIfDuplicate(db: Database, ex: FuturesExchange, side: PositionSide, p: Purpose, code: int, row: RowId)
    returns (attached: bool, r: RowId)
    requires Consistent(db, ex) && row in db.rows && db.rows[row].purpose == p
    modifies db`rows, db`nextRow
    ensures Consistent(db, ex) && PlacementKeeps(p, row, old(db.rows), db.rows)
    ensures attached <==> code == DUPLICATE_PROTECTIVE_ORDER && Covered(ex.algos, p)
    ensures attached ==> RowIsLive(db.rows, ex.algos, r, p)
    ensures !attached ==> r == row && db.rows == old(db.rows) && db.nextRow == old(db.nextRow)
  {
    attached, r := false, row;
    if code == DUPLICATE_PROTECTIVE_ORDER {
      var existing := FindOpenProtectiveAlgo(ex, p);
      if existing.Some? {
        r := AttachExisting(db, ex, side, p, existing.value, Some(row));
        attached := true;
      }
    }
  }

  /** One pass of the retry loop: submit, and on -4130 look for the order that is in the way. */
  method Attempt(db: Database, ex: FuturesExchange, side: PositionSide, p: Purpose, trigger: real, row: RowId)
    returns (ok: bool, r: RowId, reply: AlgoReply)
    requires Consistent(db, ex) && row in db.rows && db.rows[row].purpose == p && db.rows[row].triggerPrice == trigger
    modifies db`rows, db`nextRow, ex`algos, ex`submissions, ex`replies
    ensures Consistent(db, ex) && PlacementKeeps(p, row, old(db.rows), db.rows)
    ensures ex.replies == old(ex.replies) + [reply] && (ok <==> Settles(reply, ex.algos, p))
    ensures var request := Request(old(db.rows[row]).clientId, side, p, trigger);
            && ex.submissions == old(ex.submissions) + [request]
            && (ex.algos == old(ex.algos) || ex.algos == old(ex.algos)[request.clientId := request])
    ensures ok ==> RowIsLive(db.rows, ex.algos, r, p)
    ensures !ok ==> r == row && db.rows == old(db.rows) && db.nextRow == old(db.nextRow)
  {
    r := row;
    reply := ex.PlaceAlgo(Request(db.rows[row].clientId, side, p, trigger), p);
    if reply.Accepted? {
      var updated := db.rows[row].(status := New);
      RowSet(db.rows, db.nextRow, db.nextAlgoId, ex.algos, row, updated);
      db.rows := db.rows[row := updated];
      return true, row, reply;
    }
    ok, r := AttachIfDuplicate(db, ex, side, p, reply.code, row);
  }

  /** The AlgoOrder row a call starts with. */
  method NewRow(db: Database, ex: FuturesExchange, side: PositionSide, p: Purpose, trigger: real) returns (r: RowId)
    requires Consistent(db, ex)
    modifies db`rows, db`nextRow, db`nextAlgoId
    ensures Consistent(db, ex) && r == old(db.nextRow) && r !in old(db.rows) && db.nextAlgoId == old(db.nextAlgoId) + 1
    ensures db.rows == old(db.rows)[r := AlgoRow(p, CloseSide(side), trigger, old(db.nextAlgoId), Submitting)]
  {
    r := db.nextRow;
    var row := AlgoRow(p, CloseSide(side), trigger, db.nextAlgoId, Submitting);
    RowSet(db.rows, r, db.nextAlgoId + 1, ex.algos, r, row);
    db.nextRow, db.nextAlgoId := r + 1, db.nextAlgoId + 1;
    db.rows := db.rows[r := row];
  }

  /** The row of a call changed in place, its purpose and client id untouched. */
  method UpdateRow(db: Database, ex: FuturesExchange, r: RowId, trigger: real, status: RowStatus)
    requires Consistent(db, ex) && r in db.rows
    modifies db`rows
    ensures Consistent(db, ex)
    ensures db.rows == old(db.rows)[r := old(db.rows[r]).(triggerPrice := trigger, status := status)]
  {
    var row := db.rows[r].(triggerPrice := trigger, status := status);
    RowSet(db.rows, db.nextRow, db.nextAlgoId, ex.algos, r, row);
    db.rows := db.rows[r := row];
  }

  /** The next trigger, one tick further from the entry; the row follows unless it is no longer positive. */
  method MoveAway(db: Database, ex: FuturesExchange, side: PositionSide, p: Purpose, start: real, tick: real,
                  row: RowId, k: nat)
    returns (next: real)
    requires Consistent(db, ex) && row in db.rows
    requires db.rows[row] == AlgoRow(p, CloseSide(side), Drifted(start, k, tick, side, p), db.rows[row].clientId,
                                     Submitting)
    modifies db`rows
    ensures Consistent(db, ex) && next == Drifted(start, k + 1, tick, side, p)
    ensures db.rows == old(db.rows)[row := AlgoRow(p, CloseSide(side),
                                                   if next <= 0.0 then Drifted(start, k, tick, side, p) else next,
                                                   old(db.rows[row]).clientId, Submitting)]
  {
    DriftedOnce(start, k, tick, side, p);
    next := Drifted(Drifted(start, k, tick, side, p), 1, tick, side, p);
    if next > 0.0 { UpdateRow(db, ex, row, next, Submitting); }
  }

  /** The answers of a placement: it goes on exactly until one settles it, the attempts are used up, or the next
      trigger is no longer positive. */
  ghost predicate Answered(answers: seq<AlgoReply>, ok: bool, algos: map<AlgoId, AlgoOrder>, side: PositionSide,
                           p: Purpose, start: real, tick: real) {
    && 1 <= |answers| <= PROTECTIVE_ORDER_MAX_ATTEMPTS
    && (forall k :: 0 <= k < |answers| - 1 ==> answers[k].Failed?)
    && (ok <==> Settles(answers[|answers| - 1], algos, p))
    && (!ok ==> |answers| == PROTECTIVE_ORDER_MAX_ATTEMPTS || Drifted(start, |answers|, tick, side, p) <= 0.0)
  }

  predicate AllFailed(answers: seq<AlgoReply>) { forall k :: 0 <= k < |answers| ==> answers[k].Failed? }

  lemma Regroup<T>(a: seq<T>, b: seq<T>, c: seq<T>)
    ensures a + b + c == a + (b + c)
  {
  }

  /** What one placement writes. */
  datatype Scene = Scene(rows: map<RowId, AlgoRow>, algos: map<AlgoId, AlgoOrder>, submissions: seq<AlgoOrder>,
                         replies: seq<AlgoReply>)

  ghost function Now(db: Database, ex: FuturesExchange): Scene
    reads db, ex
  {
    Scene(db.rows, ex.algos, ex.submissions, ex.replies)
  }

  /** One placement: its row and client id, its side and purpose, the first trigger and the tick. */
  datatype Placement = Placement(row: RowId, id: AlgoId, side: PositionSide, purpose: Purpose, start: real, tick: real)

  ghost predicate Sent(from: Scene, to: Scene, c: Placement, answers: seq<AlgoReply>) {
    && to.replies == from.replies + answers
    && Submitted(from.submissions, to.submissions, from.algos, to.algos, c.id, c.side, c.purpose, c.start, c.tick,
                 |answers|)
    && PlacementKeeps(c.purpose, c.row, from.rows, to.rows)
  }

  /** Before the next pass: every answer so far was an error, and the row of the call carries the next trigger. */
  ghost predicate Trying(from: Scene, to: Scene, c: Placement, answers: seq<AlgoReply>) {
    var trigger := Drifted(c.start, |answers|, c.tick, c.side, c.purpose);
    && Sent(from, to, c, answers)
    && |answers| < PROTECTIVE_ORDER_MAX_ATTEMPTS && AllFailed(answers)
    && c.row in to.rows && to.rows[c.row] == AlgoRow(c.purpose, CloseSide(c.side), trigger, c.id, Submitting)
    && (answers == [] || trigger > 0.0)
  }

  /** After the last pass: a live order and its row, or the row of the call as it was left. */
  ghost predicate Ended(from: Scene, to: Scene, c: Placement, answers: seq<AlgoReply>, ok: bool, r: RowId) {
    && Sent(from, to, c, answers)
    && Answered(answers, ok, to.algos, c.side, c.purpose, c.start, c.tick)
    && if ok then RowIsLive(to.rows, to.algos, r, c.purpose)
       else r == c.row && r in to.rows && to.rows[r].purpose == c.purpose
  }

  /** One more submission and its answer. */
  ghost predicate OnePass(mid: Scene, to: Scene, c: Placement, k: nat, reply: AlgoReply) {
    var o := Request(c.id, c.side, c.purpose, Drifted(c.start, k, c.tick, c.side, c.purpose));
    && to.submissions == mid.submissions + [o] && to.replies == mid.replies + [reply]
    && (to.algos == mid.algos || to.algos == mid.algos[c.id := o])
    && PlacementKeeps(c.purpose, c.row, mid.rows, to.rows)
  }

  lemma PassIsSent(from: Scene, mid: Scene, to: Scene, c: Placement, answers: seq<AlgoReply>, reply: AlgoReply)
    requires Trying(from, mid, c, answers) && OnePass(mid, to, c, |answers|, reply)
    ensures Sent(from, to, c, answers + [reply])
  {
    Regroup(from.replies, answers, [reply]);
    SubmittedStep(from.submissions, mid.submissions, to.submissions, from.algos, mid.algos, to.algos, c.id, c.side,
                  c.purpose, c.start, c.tick, |answers|);
  }

  lemma PassEnds(from: Scene, mid: Scene, to: Scene, c: Placement, answers: seq<AlgoReply>, reply: AlgoReply, ok: bool,
                 r: RowId)
    requires Trying(from, mid, c, answers) && OnePass(mid, to, c, |answers|, reply)
    requires ok <==> Settles(reply, to.algos, c.purpose)
    requires if ok then RowIsLive(to.rows, to.algos, r, c.purpose)
             else r == c.row && r in to.rows && to.rows[r].purpose == c.purpose
    requires !ok && |answers| < PROTECTIVE_ORDER_MAX_ATTEMPTS - 1 ==>
               Drifted(c.start, |answers| + 1, c.tick, c.side, c.purpose) <= 0.0
    ensures Ended(from, to, c, answers + [reply], ok, r)
  {
    PassIsSent(from, mid, to, c, answers, reply);
  }

  lemma PassMoves(from: Scene, mid: Scene, to: Scene, c: Placement, answers: seq<AlgoReply>, reply: AlgoReply)
    requires Trying(from, mid, c, answers) && OnePass(mid, to, c, |answers|, reply) && reply.Failed?
    requires |answers| < PROTECTIVE_ORDER_MAX_ATTEMPTS - 1
    requires var next := Drifted(c.start, |answers| + 1, c.tick, c.side, c.purpose);
             next > 0.0 && c.row in to.rows
             && to.rows[c.row] == AlgoRow(c.purpose, CloseSide(c.side), next, c.id, Submitting)
    ensures Trying(from, to, c, answers + [reply])
  {
    PassIsSent(from, mid, to, c, answers, reply);
  }

  /** One pass of the loop body: try, and after a failure move on unless this was the last try. */
  method Pass(db: Database, ex: FuturesExchange, side: PositionSide, p: Purpose, start: real, tick: real, row: RowId,
              k: nat, ghost from: Scene, ghost c: Placement, ghost answers: seq<AlgoReply>)
    returns (ok: bool, r: RowId, reply: AlgoReply, more: bool)
    requires Consistent(db, ex) && k == |answers| && c == Placement(row, c.id, side, p, start, tick)
    requires Trying(from, Now(db, ex), c, answers)
    modifies db`rows, db`nextRow, ex`algos, ex`submissions, ex`replies
    ensures Consistent(db, ex)
    ensures if ok || !more then Ended(from, Now(db, ex), c, answers + [reply], ok, r)
            else r == row && Trying(from, Now(db, ex), c, answers + [reply])
  {
    more := false;
    ok, r, reply := Attempt(db, ex, side, p, Drifted(start, k, tick, side, p), row);
    if !ok && k < PROTECTIVE_ORDER_MAX_ATTEMPTS - 1 {
      var rounded := MoveAway(db, ex, side, p, start, tick, row, k);
      more := rounded > 0.0;
    }
    if ok || !more {
      PassEnds(from, old(Now(db, ex)), Now(db, ex), c, answers, reply, ok, r);
    } else {
      PassMoves(from, old(Now(db, ex)), Now(db, ex), c, answers, reply);
    }
  }

  /** The retry loop: up to ten submissions, each one tick further from the entry. */
  method SubmitUntilAccepted(db: Database, ex: FuturesExchange, side: PositionSide, p: Purpose, start: real,
                             tick: real, row: RowId)
    returns (ok: bool, r: RowId, reply: AlgoReply, ghost answers: seq<AlgoReply>)
    requires Consistent(db, ex) && row in db.rows
    requires db.rows[row] == AlgoRow(p, CloseSide(side), start, db.rows[row].clientId, Submitting)
    modifies db`rows, db`nextRow, ex`algos, ex`submissions, ex`replies
    ensures Consistent(db, ex) && answers != [] && reply == answers[|answers| - 1]
    ensures Ended(old(Now(db, ex)), Now(db, ex), Placement(row, old(db.rows[row]).clientId, side, p, start, tick),
                  answers, ok, r)
  {
    ghost var from, c := Now(db, ex), Placement(row, db.rows[row].clientId, side, p, start, tick);
    var attempt := 0;
    r, answers := row, [];
    while true
      invariant attempt == |answers| < PROTECTIVE_ORDER_MAX_ATTEMPTS && r == row
      invariant Consistent(db, ex) && Trying(from, Now(db, ex), c, answers)
      decreases PROTECTIVE_ORDER_MAX_ATTEMPTS - attempt
    {
      var more;
      ok, r, reply, more := Pass(db, ex, side, p, start, tick, row, attempt, from, c, answers);
      answers := answers + [reply];
      if ok || !more { return; }
      attempt := attempt + 1;
    }
  }

  /** The loop, and one last look for an order that is in the way. */
  method SubmitWithDrift(db: Database, ex: FuturesExchange, side: PositionSide, p: Purpose, start: real, tick: real,
                         row: RowId)
    returns (ok: bool, r: RowId, ghost answers: seq<AlgoReply>)
    requires Consistent(db, ex) && row in db.rows
    requires db.rows[row] == AlgoRow(p, CloseSide(side), start, db.rows[row].clientId, Submitting)
    modifies db`rows, db`nextRow, ex`algos, ex`submissions, ex`replies
    ensures Consistent(db, ex)
    ensures Ended(old(Now(db, ex)), Now(db, ex), Placement(row, old(db.rows[row]).clientId, side, p, start, tick),
                  answers, ok, r)
  {
    var reply: AlgoReply;
    ok, r, reply, answers := SubmitUntilAccepted(db, ex, side, p, start, tick, row);
    if !ok { ok, r := AttachIfDuplicate(db, ex, side, p, reply.code, row); }
  }

  /** `o` is a protective order of the purpose whose trigger is `price`, rounded and moved k ticks. */
  predicate Triggers(o: AlgoOrder, side: PositionSide, p: Purpose, price: real, tick: real, k: nat)
    requires tick > 0.0
  {
    o == Request(o.clientId, side, p, Drifted(RoundTrigger(price, tick, side, p), k, tick, side, p))
  }

  /** What one placement at `price` sends and how it is answered: it goes on, a tick further from the entry each time,
      until an answer settles it, the attempts are used up, or the next trigger is no longer positive. */
  ghost predicate Tried(sent: seq<AlgoOrder>, answers: seq<AlgoReply>, id: AlgoId, side: PositionSide, p: Purpose,
                        price: real, tick: real, ok: bool)
    requires tick > 0.0
  {
    && 1 <= |sent| == |answers| <= PROTECTIVE_ORDER_MAX_ATTEMPTS
    && (forall k :: 0 <= k < |sent| ==> sent[k].clientId == id && Triggers(sent[k], side, p, price, tick, k))
    && (forall k :: 1 <= k < |sent| ==> sent[k].stopPrice > 0.0)
    && (forall k :: 0 <= k < |answers| - 1 ==> answers[k].Failed?)
    && (answers[|answers| - 1].Accepted? ==> ok)
    && (ok && answers[|answers| - 1].Failed? ==> answers[|answers| - 1].code == DUPLICATE_PROTECTIVE_ORDER)
    && (!ok ==> |sent| == PROTECTIVE_ORDER_MAX_ATTEMPTS
                || Drifted(RoundTrigger(price, tick, side, p), |sent|, tick, side, p) <= 0.0)
  }

  lemma EndedIsTried(from: Scene, to: Scene, c: Placement, answers: seq<AlgoReply>, ok: bool, r: RowId, price: real)
    requires c.tick > 0.0 && c.start == RoundTrigger(price, c.tick, c.side, c.purpose) && c.id !in from.algos
    requires Ended(from, to, c, answers, ok, r)
    ensures var sent := Requests(c.id, c.side, c.purpose, c.start, c.tick, |answers|);
            && to.submissions == from.submissions + sent && Landed(from.algos, to.algos, c.id, sent)
            && Tried(sent, answers, c.id, c.side, c.purpose, price, c.tick, ok)
            && OrdersKept(from.algos, to.algos)
  {
    LandedKeeps(from.algos, to.algos, c.id, Requests(c.id, c.side, c.purpose, c.start, c.tick, |answers|));
  }

  /** _place_protective_order: True means a live order of the purpose and its row; False means a REJECTED
      row and a CRITICAL risk event. Either way the triggers tried start at the rounded price. */
  method PlaceProtectiveOrder(db: Database, ex: FuturesExchange, side: PositionSide, p: Purpose, trigger: real,
                              tick: real)
    returns (ok: bool, r: RowId, ghost sent: seq<AlgoOrder>, ghost answers: seq<AlgoReply>)
    requires Consistent(db, ex) && tick > 0.0
    modifies db`rows, db`nextRow, db`nextAlgoId, db`riskEvents, ex`algos, ex`submissions, ex`replies
    ensures Consistent(db, ex) && OrdersKept(old(ex.algos), ex.algos) && db.nextAlgoId == old(db.nextAlgoId) + 1
    ensures PlacementKeeps(p, old(db.nextRow), old(db.rows), db.rows)
    ensures ex.submissions == old(ex.submissions) + sent && ex.replies == old(ex.replies) + answers
    ensures Tried(sent, answers, old(db.nextAlgoId), side, p, trigger, tick, ok)
    ensures Landed(old(ex.algos), ex.algos, old(db.nextAlgoId), sent)
    ensures ok <==> Settles(answers[|answers| - 1], ex.algos, p)
    ensures r in db.rows && db.rows[r].purpose == p
    ensures ok ==> RowIsLive(db.rows, ex.algos, r, p) && db.riskEvents == old(db.riskEvents)
    ensures !ok ==> db.rows[r].status == Rejected && db.riskEvents == old(db.riskEvents) + [PlacementFailed(p)]
  {
    var start := RoundTrigger(trigger, tick, side, p);
    var row := NewRow(db, ex, side, p, start);
    ghost var from := Now(db, ex);
    ok, r, answers := SubmitWithDrift(db, ex, side, p, start, tick, row);
    sent := Requests(old(db.nextAlgoId), side, p, start, tick, |answers|);
    EndedIsTried(from, Now(db, ex), Placement(row, old(db.nextAlgoId), side, p, start, tick), answers, ok, r, trigger);
    if !ok {
      UpdateRow(db, ex, r, db.rows[r].triggerPrice, Rejected);
      db.riskEvents := db.riskEvents + [PlacementFailed(p)];
    }
  }

  lemma DriftedOnce(start: real, k: int, tick: real, side: PositionSide, p: Purpose)
    ensures Drifted(Drifted(start, k, tick, side, p), 1, tick, side, p) == Drifted(start, k + 1, tick, side, p)
  {
  }

  /** Every trigger tried is a whole number of ticks, k ticks further from the entry than the first. */
  lemma TriedTriggersAreTicks(trigger: real, k: nat, tick: real, side: PositionSide, p: Purpose)
    requires tick > 0.0
    ensures exists n :: Drifted(RoundTrigger(trigger, tick, side, p), k, tick, side, p) == Multiple(n, tick)
    ensures var start := RoundTrigger(trigger, tick, side, p);
            Away(side, p, start, Drifted(start, k, tick, side, p)) == Multiple(k, tick) >= 0.0
  {
    var n := Steps(trigger, tick, RoundingFor(side, p));
    MulLeq(0.0, k as real, tick);
    assert Multiple(n, tick) - Multiple(k, tick) == Multiple(n - k, tick);
    assert Multiple(n, tick) + Multiple(k, tick) == Multiple(n + k, tick);
  }

  /** The CRITICAL events of two placements, stop first. */
  function PlacementEvents(slOk: bool, tpOk: bool): seq<RiskEvent> {
    (if slOk then [] else [PlacementFailed(StopLossOrder)]) + (if tpOk then [] else [PlacementFailed(TakeProfitOrder)])
  }

  // ---------- both orders of a position ----------

  /** The order's trigger comes from the price of its own purpose. */
  predicate FromPrices(o: AlgoOrder, side: PositionSide, stopLoss: real, takeProfit: real, tick: real)
    requires tick > 0.0
  {
    exists k :: 0 <= k < PROTECTIVE_ORDER_MAX_ATTEMPTS
                && (Triggers(o, side, StopLossOrder, stopLoss, tick, k)
                    || Triggers(o, side, TakeProfitOrder, takeProfit, tick, k))
  }

  /** Whatever is live was live before, or has such a trigger. */
  ghost predicate LiveFromPrices(before: map<AlgoId, AlgoOrder>, after: map<AlgoId, AlgoOrder>, side: PositionSide,
                                 stopLoss: real, takeProfit: real, tick: real)
    requires tick > 0.0
  {
    forall id :: id in after ==>
                   (id in before && after[id] == before[id]) || FromPrices(after[id], side, stopLoss, takeProfit, tick)
  }

  lemma LandedFromPrices(before: map<AlgoId, AlgoOrder>, mid: map<AlgoId, AlgoOrder>, after: map<AlgoId, AlgoOrder>,
                         id: AlgoId, sent: seq<AlgoOrder>, side: PositionSide, stopLoss: real, takeProfit: real,
                         tick: real)
    requires tick > 0.0 && LiveFromPrices(before, mid, side, stopLoss, takeProfit, tick) && Landed(mid, after, id, sent)
    requires forall o :: o in sent ==> FromPrices(o, side, stopLoss, takeProfit, tick)
    ensures LiveFromPrices(before, after, side, stopLoss, takeProfit, tick)
  {
  }

  lemma TriedFromPrices(sent: seq<AlgoOrder>, answers: seq<AlgoReply>, id: AlgoId, side: PositionSide, p: Purpose,
                        stopLoss: real, takeProfit: real, tick: real, ok: bool)
    requires tick > 0.0
    requires Tried(sent, answers, id, side, p, if p == StopLossOrder then stopLoss else takeProfit, tick, ok)
    ensures forall o :: o in sent ==> FromPrices(o, side, stopLoss, takeProfit, tick)
  {
    forall o | o in sent ensures FromPrices(o, side, stopLoss, takeProfit, tick) {
      var k :| 0 <= k < |sent| && sent[k] == o;
      assert Triggers(o, side, p, if p == StopLossOrder then stopLoss else takeProfit, tick, k);
    }
  }

  lemma RowStaysLive(rows: map<RowId, AlgoRow>, after: map<RowId, AlgoRow>, algos: map<AlgoId, AlgoOrder>,
                     algosAfter: map<AlgoId, AlgoOrder>, row: RowId, r: RowId, p: Purpose, other: Purpose)
    requires RowIsLive(rows, algos, r, p) && other != p && r != row && PlacementKeeps(other, row, rows, after)
    requires OrdersKept(algos, algosAfter)
    ensures RowIsLive(after, algosAfter, r, p)
  {
  }

  /** The stop is tried at the stop price, and after it the target at the target price. */
  ghost predicate BothTried(sent: seq<AlgoOrder>, answers: seq<AlgoReply>, id: AlgoId, side: PositionSide,
                            stopLoss: real, takeProfit: real, tick: real, slOk: bool, tpOk: bool)
    requires tick > 0.0
  {
    exists n :: 0 <= n <= |sent| && n <= |answers|
                && Tried(sent[..n], answers[..n], id, side, StopLossOrder, stopLoss, tick, slOk)
                && Tried(sent[n..], answers[n..], id + 1, side, TakeProfitOrder, takeProfit, tick, tpOk)
  }

  lemma BothAreTried(slSent: seq<AlgoOrder>, tpSent: seq<AlgoOrder>, slAnswers: seq<AlgoReply>,
                     tpAnswers: seq<AlgoReply>, id: AlgoId, side: PositionSide, stopLoss: real, takeProfit: real,
                     tick: real, slOk: bool, tpOk: bool)
    requires tick > 0.0 && Tried(slSent, slAnswers, id, side, StopLossOrder, stopLoss, tick, slOk)
    requires Tried(tpSent, tpAnswers, id + 1, side, TakeProfitOrder, takeProfit, tick, tpOk)
    ensures BothTried(slSent + tpSent, slAnswers + tpAnswers, id, side, stopLoss, takeProfit, tick, slOk, tpOk)
  {
    var n, sent, answers := |slSent|, slSent + tpSent, slAnswers + tpAnswers;
    assert sent[..n] == slSent && sent[n..] == tpSent && answers[..n] == slAnswers && answers[n..] == tpAnswers;
  }

  /** Both orders of a position, stop first: each is tried at its own price, True is a live order with its own
      trigger, and each that failed is one CRITICAL event; there is no other. */
  method PlaceBoth(db: Database, ex: FuturesExchange, side: PositionSide, stopLoss: real, takeProfit: real, tick: real)
    returns (slOk: bool, tpOk: bool, sl: RowId, tp: RowId)
    requires Consistent(db, ex) && tick > 0.0
    modifies db`rows, db`nextRow, db`nextAlgoId, db`riskEvents, ex`algos, ex`submissions, ex`replies
    ensures Consistent(db, ex) && OrdersKept(old(ex.algos), ex.algos)
    ensures old(ex.submissions) <= ex.submissions && old(ex.replies) <= ex.replies
    ensures BothTried(ex.submissions[|old(ex.submissions)|..], ex.replies[|old(ex.replies)|..], old(db.nextAlgoId),
                      side, stopLoss, takeProfit, tick, slOk, tpOk)
    ensures LiveFromPrices(old(ex.algos), ex.algos, side, stopLoss, takeProfit, tick)
    ensures sl in db.rows && db.rows[sl].purpose == StopLossOrder
    ensures tp in db.rows && db.rows[tp].purpose == TakeProfitOrder
    ensures slOk ==> RowIsLive(db.rows, ex.algos, sl, StopLossOrder)
    ensures tpOk ==> RowIsLive(db.rows, ex.algos, tp, TakeProfitOrder)
    ensures db.riskEvents == old(db.riskEvents) + PlacementEvents(slOk, tpOk)
  {
    ghost var algos := ex.algos;
    ghost var slSent, slAnswers, tpSent, tpAnswers;
    slOk, sl, slSent, slAnswers := PlaceProtectiveOrder(db, ex, side, StopLossOrder, stopLoss, tick);
    ghost var rows, row, mid, events := db.rows, db.nextRow, ex.algos, db.riskEvents;
    TriedFromPrices(slSent, slAnswers, old(db.nextAlgoId), side, StopLossOrder, stopLoss, takeProfit, tick, slOk);
    LandedFromPrices(algos, algos, mid, old(db.nextAlgoId), slSent, side, stopLoss, takeProfit, tick);
    tpOk, tp, tpSent, tpAnswers := PlaceProtectiveOrder(db, ex, side, TakeProfitOrder, takeProfit, tick);
    TriedFromPrices(tpSent, tpAnswers, old(db.nextAlgoId) + 1, side, TakeProfitOrder, stopLoss, takeProfit, tick,
                    tpOk);
    LandedFromPrices(algos, mid, ex.algos, old(db.nextAlgoId) + 1, tpSent, side, stopLoss, takeProfit, tick);
    if slOk { RowStaysLive(rows, db.rows, mid, ex.algos, row, sl, StopLossOrder, TakeProfitOrder); }
    BothAreTried(slSent, tpSent, slAnswers, tpAnswers, old(db.nextAlgoId), side, stopLoss, takeProfit, tick, slOk,
                 tpOk);
    EventsOfBoth(old(db.riskEvents), events, db.riskEvents, slOk, tpOk);
    Appended(old(ex.submissions), slSent, tpSent);
    Appended(old(ex.replies), slAnswers, tpAnswers);
  }

  lemma EventsOfBoth(before: seq<RiskEvent>, mid: seq<RiskEvent>, after: seq<RiskEvent>, slOk: bool, tpOk: bool)
    requires mid == if slOk then before else before + [PlacementFailed(StopLossOrder)]
    requires after == if tpOk then mid else mid + [PlacementFailed(TakeProfitOrder)]
    ensures after == before + PlacementEvents(slOk, tpOk)
  {
  }

  lemma Appended<T>(before: seq<T>, x: seq<T>, y: seq<T>)
    ensures before <= before + x + y && (before + x + y)[|before|..] == x + y
  {
  }
}
