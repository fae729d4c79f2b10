/** Waiting for the opening order to fill, `worker/order_engine.py`. */
module OrderFill {
  import opened DecimalUtils

  datatype OrderStatus = New | PartiallyFilled | Filled | Canceled | Rejected | Expired

  datatype Snapshot = Snapshot(status: OrderStatus, executedQty: real)

  /** No further fill can come. */
  predicate Terminal(s: OrderStatus) { s != New && s != PartiallyFilled }

  const ORDER_FILL_MAX_ATTEMPTS := 10

  /** How the wait ends: the fill as last seen, or PositionOpenSkipped for one of two reasons. */
  datatype Wait = FilledUpTo | ScoreChanged | OrderNotFilled

  // ---------- the wait over a list of answers ----------

  /** What is known after these answers to the poll: the last one that knew the order. */
  function SeenAfter(initial: Snapshot, answers: seq<Option<Snapshot>>): Snapshot {
    if answers == [] then initial
    else if answers[|answers| - 1].Some? then answers[|answers| - 1].value
    else SeenAfter(initial, answers[..|answers| - 1])
  }

  /** What the k-th pass decides about the snapshot it looks at; None: look again. `stillValid(k)` is the k-th
      answer about the signal's score. */
  function Decision(seen: Snapshot, k: nat, scored: bool, stillValid: nat -> bool): Option<Wait> {
    if seen.status == Filled && seen.executedQty > 0.0 then Some(FilledUpTo)
    else if Terminal(seen.status) && seen.status != Filled then Some(Verdict(seen))
    else if scored && !stillValid(k) then Some(ScoreChanged)
    else if k + 1 >= ORDER_FILL_MAX_ATTEMPTS then Some(Verdict(seen))
    else None
  }

  function Verdict(seen: Snapshot): Wait { if seen.executedQty > 0.0 then FilledUpTo else OrderNotFilled }

  /** The wait ends with `w` after exactly these answers: the first pass that decides. */
  predicate EndsWith(initial: Snapshot, answers: seq<Option<Snapshot>>, scored: bool, stillValid: nat -> bool,
                     w: Wait) {
    && Decision(SeenAfter(initial, answers), |answers|, scored, stillValid) == Some(w)
    && forall j :: 0 <= j < |answers| ==> Decision(SeenAfter(initial, answers[..j]), j, scored, stillValid).None?
  }

  /** Nothing final was seen; an order reported FILLED with nothing executed counts as such. */
  predicate Undecided(s: Snapshot) {
    s.status in {New, PartiallyFilled} || (s.status == Filled && s.executedQty <= 0.0)
  }

  /** What a wait comes to, pass by pass: it goes on exactly while the order is undecided and its score, if there is
      one, still valid, for nine queries at most; a score that is no longer valid ends it only then, and otherwise
      something executed means filled, nothing executed not filled. */
  lemma WaitMeans(initial: Snapshot, answers: seq<Option<Snapshot>>, scored: bool, stillValid: nat -> bool, w: Wait)
    ensures EndsWith(initial, answers, scored, stillValid, w) <==>
              && |answers| < ORDER_FILL_MAX_ATTEMPTS
              && (forall j :: 0 <= j < |answers| ==>
                    Undecided(SeenAfter(initial, answers[..j])) && (scored ==> stillValid(j)))
              && var last, n := SeenAfter(initial, answers), |answers|;
                 if Undecided(last) && scored && !stillValid(n) then w == ScoreChanged
                 else (Undecided(last) ==> n == ORDER_FILL_MAX_ATTEMPTS - 1)
                      && w == if last.executedQty > 0.0 then FilledUpTo else OrderNotFilled
  {
    var n := |answers|;
    forall j | 0 <= j < n
      ensures Decision(SeenAfter(initial, answers[..j]), j, scored, stillValid).None? <==>
                j + 1 < ORDER_FILL_MAX_ATTEMPTS && Undecided(SeenAfter(initial, answers[..j]))
                  && (scored ==> stillValid(j))
    {
    }
    if n >= ORDER_FILL_MAX_ATTEMPTS {
      assert Decision(SeenAfter(initial, answers[..n - 1]), n - 1, scored, stillValid).Some?;
    }
  }

  // ---------- what can still come of an order ----------

  /** A snapshot of an order of this quantity: FILLED means all of it. */
  predicate WellFormed(s: Snapshot, quantity: real) {
    0.0 < quantity && 0.0 <= s.executedQty <= quantity && (s.status == Filled <==> s.executedQty == quantity)
  }

  /** What the order may look like later: fills only grow, a terminal status is final. */
  predicate MayBecome(s: Snapshot, later: Snapshot, quantity: real) {
    WellFormed(later, quantity) && s.executedQty <= later.executedQty && (Terminal(s.status) ==> later == s)
  }

  /** Nothing more can ever fill. */
  ghost predicate Settled(s: Snapshot, quantity: real) {
    forall later :: MayBecome(s, later, quantity) ==> later.executedQty == s.executedQty
  }

  lemma SettledIffTerminal(s: Snapshot, quantity: real)
    requires WellFormed(s, quantity)
    ensures Settled(s, quantity) <==> Terminal(s.status)
  {
    if !Terminal(s.status) { assert MayBecome(s, Snapshot(Filled, quantity), quantity); }
  }

  predicate Known(answers: seq<Option<Snapshot>>, quantity: real) {
    forall k :: 0 <= k < |answers| && answers[k].Some? ==> WellFormed(answers[k].value, quantity)
  }

  lemma {:induction false} SeenIsWellFormed(initial: Snapshot, answers: seq<Option<Snapshot>>, quantity: real)
    requires WellFormed(initial, quantity) && Known(answers, quantity)
    ensures WellFormed(SeenAfter(initial, answers), quantity)
    decreases |answers|
  {
    if answers == [] {
    } else if answers[|answers| - 1].None? {
      SeenIsWellFormed(initial, answers[..|answers| - 1], quantity);
    }
  }

  /** All ten looks were made, and none of them, nine answers and the first reply, showed a final status. */
  predicate NeverFinal(initial: Snapshot, answers: seq<Option<Snapshot>>) {
    |answers| == ORDER_FILL_MAX_ATTEMPTS - 1
    && forall k :: 0 <= k <= |answers| ==> !Terminal(SeenAfter(initial, answers[..k]).status)
  }

  /** Main result: a wait that is not given up for the score leaves more to fill than it reports exactly when it
      went through all its looks without seeing a final status. */
  lemma UnsettledIff(initial: Snapshot, answers: seq<Option<Snapshot>>, scored: bool, stillValid: nat -> bool, w: Wait,
                     quantity: real)
    requires EndsWith(initial, answers, scored, stillValid, w) && w != ScoreChanged
    requires WellFormed(initial, quantity) && Known(answers, quantity)
    ensures !Settled(SeenAfter(initial, answers), quantity) <==> NeverFinal(initial, answers)
  {
    var n := |answers|;
    assert answers[..n] == answers;
    SeenIsWellFormed(initial, answers, quantity);
    SettledIffTerminal(SeenAfter(initial, answers), quantity);
    if !Terminal(SeenAfter(initial, answers).status) {
      forall k | 0 <= k <= n ensures !Terminal(SeenAfter(initial, answers[..k]).status) {
        SeenIsWellFormed(initial, answers[..k], quantity);
        if k < n { assert Decision(SeenAfter(initial, answers[..k]), k, scored, stillValid).None?; }
      }
      if n > 0 { assert Decision(SeenAfter(initial, answers[..n - 1]), n - 1, scored, stillValid).None?; }
    }
  }

  /** Nine answers that the order is where it was. */
  function Unmoved(s: Snapshot, n: nat): seq<Option<Snapshot>> { seq(n, _ => Some(s)) }

  lemma {:induction false} UnmovedSeen(s: Snapshot, n: nat)
    ensures SeenAfter(s, Unmoved(s, n)) == s
  {
    if n > 0 { assert Unmoved(s, n)[n - 1] == Some(s); }
  }

  lemma WaitsToTheEnd(s: Snapshot)
    requires !Terminal(s.status)
    ensures EndsWith(s, Unmoved(s, 9), false, _ => true, Verdict(s))
  {
    UnmovedSeen(s, 9);
    forall j | 0 <= j < 9 ensures SeenAfter(s, Unmoved(s, 9)[..j]) == s {
      UnmovedSeen(s, j);
      assert Unmoved(s, 9)[..j] == Unmoved(s, j);
    }
  }

  /** An order reported as not filled can fill later, with nobody watching it. */
  lemma UnfilledCanFillLater(quantity: real)
    requires quantity > 0.0
    ensures EndsWith(Snapshot(New, 0.0), Unmoved(Snapshot(New, 0.0), 9), false, _ => true, OrderNotFilled)
    ensures MayBecome(Snapshot(New, 0.0), Snapshot(Filled, quantity), quantity)
  {
    WaitsToTheEnd(Snapshot(New, 0.0));
  }

  /** A partial fill is taken for the position while the rest stays live and can fill later. */
  lemma PartialFillCanGrow(quantity: real, part: real)
    requires 0.0 < part < quantity
    ensures var s := Snapshot(PartiallyFilled, part);
            EndsWith(s, Unmoved(s, 9), false, _ => true, FilledUpTo)
              && MayBecome(s, Snapshot(Filled, quantity), quantity)
  {
    WaitsToTheEnd(Snapshot(PartiallyFilled, part));
  }

  // ---------- the order at the exchange ----------

  /** One order at the exchange. It moves on by itself whenever the engine waits. */
  class EntryOrder {
    const quantity: real
    var status: OrderStatus
    var executed: real
    var cancels: nat
    var queries: nat
    /** Quantity this order has left open at the exchange, reduce-only orders deducted. */
    ghost var exposure: real

    predicate Valid()
      reads this
    {
      WellFormed(Now(), quantity)
    }

    function Now(): Snapshot
      reads this
    {
      Snapshot(status, executed)
    }

    /** A snapshot taken earlier: fills only grow, and a terminal status is final. */
    predicate Past(s: Snapshot)
      reads this
    {
      WellFormed(s, quantity) && MayBecome(s, Now(), quantity)
    }

    constructor (quantity: real)
      requires quantity > 0.0
      ensures Valid() && this.quantity == quantity && Now() == Snapshot(New, 0.0) && cancels == queries == 0
      ensures exposure == 0.0
    {
      this.quantity, status, executed, cancels, queries, exposure := quantity, New, 0.0, 0, 0, 0.0;
    }

    method Advance()
      requires Valid()
      modifies this`status, this`executed, this`exposure
      ensures Valid() && executed >= old(executed) && exposure - executed == old(exposure - executed)
      ensures Terminal(old(status)) ==> Now() == old(Now())
    {
      if Terminal(status) { return; }
      var fill: real, ends: bool, status': OrderStatus := *, *, *;
      if fill > 0.0 && executed + fill <= quantity {
        executed, exposure, status := executed + fill, exposure + fill, PartiallyFilled;
      }
      if executed == quantity { status := Filled; } else if ends && status' != Filled { status := status'; }
    }

    /** query_order after the poll interval; it may know nothing of the order. */
    method Query() returns (s: Option<Snapshot>)
      requires Valid()
      modifies this`status, this`executed, this`exposure, this`queries
      ensures Valid() && queries == old(queries) + 1
      ensures executed >= old(executed) && exposure - executed == old(exposure - executed)
      ensures Terminal(old(status)) ==> Now() == old(Now())
      ensures s.Some? ==> s.value == Now()
    {
      Advance();
      queries := queries + 1;
      var known: bool := *;
      s := if known then Some(Now()) else None;
    }

    /** cancel_order, its failure ignored; fills may still come in before it takes effect. */
    method Cancel()
      requires Valid()
      modifies this`status, this`executed, this`exposure, this`cancels
      ensures Valid() && cancels == old(cancels) + 1
      ensures executed >= old(executed) && exposure - executed == old(exposure - executed)
      ensures Terminal(old(status)) ==> Now() == old(Now())
    {
      Advance();
      cancels := cancels + 1;
      var works: bool := *;
      if works && !Terminal(status) { status := Canceled; }
    }

    /** The reduce-only order that takes a partial fill back. */
    method Revert(quantity: real) returns (failed: bool)
      requires quantity > 0.0
      modifies this`exposure
      ensures !failed ==> exposure == old(exposure) - quantity
      ensures failed ==> exposure == old(exposure) || exposure == old(exposure) - quantity
    {
      var lands: bool, acknowledged: bool := *, *;
      if lands { exposure := exposure - quantity; }
      failed := !lands || !acknowledged;
    }

    /** _abort_pending_open_order: takes back what was last seen to be filled. */
    method AbortPending(seen: Snapshot) returns (revertFailed: bool)
      requires Valid() && Past(seen)
      modifies this`status, this`executed, this`exposure, this`cancels
      ensures Valid() && Past(seen) && cancels == old(cancels) + 1
      ensures !revertFailed ==> exposure - (executed - seen.executedQty) == old(exposure - executed)
      ensures revertFailed ==> seen.executedQty > 0.0
                               && (exposure - executed == old(exposure - executed)
                                   || exposure - (executed - seen.executedQty) == old(exposure - executed))
    {
      Cancel();
      revertFailed := false;
      if seen.executedQty > 0.0 { revertFailed := Revert(seen.executedQty); }
    }

    /** _await_order_fill. The wait ends as EndsWith says for the answers it got, at most nine. A fill is
        reported as last seen; only a changed score cancels the order, and then exactly what was filled unseen
        stays open. */
    method AwaitFill(initial: Snapshot, scored: bool, stillValid: nat -> bool)
      returns (outcome: Wait, last: Snapshot, revertFailed: bool, ghost answers: seq<Option<Snapshot>>)
      requires Valid() && Past(initial) && exposure == executed
      modifies this
      ensures Valid() && Past(last) && queries == old(queries) + |answers|
      ensures EndsWith(initial, answers, scored, stillValid, outcome) && last == SeenAfter(initial, answers)
      ensures outcome != ScoreChanged ==> exposure == executed && cancels == old(cancels) && !revertFailed
      ensures outcome != ScoreChanged ==> (!Settled(last, quantity) <==> NeverFinal(initial, answers))
      ensures outcome == ScoreChanged ==>
                cancels == old(cancels) + 1 && (!revertFailed ==> exposure == executed - last.executedQty)
    {
      last, answers, revertFailed := initial, [], false;
      var attempt := 0;
      while true
        invariant 0 <= attempt == |answers| < ORDER_FILL_MAX_ATTEMPTS && !revertFailed
        invariant Valid() && Past(last) && exposure == executed && cancels == old(cancels)
        invariant queries == old(queries) + |answers| && last == SeenAfter(initial, answers)
        invariant Known(answers, quantity)
        invariant forall j :: 0 <= j < |answers| ==>
                  Decision(SeenAfter(initial, answers[..j]), j, scored, stillValid).None?
        decreases ORDER_FILL_MAX_ATTEMPTS - attempt
      {
        if last.status == Filled && last.executedQty > 0.0 {
          UnsettledIff(initial, answers, scored, stillValid, FilledUpTo, quantity);
          return FilledUpTo, last, false, answers;
        }
        if last.status == Canceled || last.status == Rejected || last.status == Expired { break; }
        if scored {
          Advance();
          if !stillValid(attempt) {
            var failed := AbortPending(last);
            return ScoreChanged, last, failed, answers;
          }
        }
        if attempt >= ORDER_FILL_MAX_ATTEMPTS - 1 { break; }
        var queried := Query();
        if queried.Some? { last := queried.value; }
        ghost var before := answers;
        answers := answers + [queried];
        assert answers[..|before|] == before && forall j :: 0 <= j < |before| ==> answers[..j] == before[..j];
        attempt := attempt + 1;
      }
      outcome := if last.executedQty > 0.0 then FilledUpTo else OrderNotFilled;
      UnsettledIff(initial, answers, scored, stillValid, outcome, quantity);
    }
  }
}
