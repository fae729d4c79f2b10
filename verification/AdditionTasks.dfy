/** Additions to a losing position from several monitor tasks, `worker/position_monitor.py`. Each task loads its own
    copy of the row and evaluates it later; `_loss_add_in_progress` keeps two additions from overlapping, but
    nothing reads the row again, so an addition can start from a count that is no longer current. */
module AdditionTasks {
  import opened DecimalUtils
  import opened TradingTypes
  import opened OrderEngine
  import opened LossAddition

  datatype Pc = Loaded | Adding | Done

  /** `copy` is the row as the task loaded it; `seen` is how many additions had been executed by then. */
  datatype Task = Task(copy: Book, seen: nat, pc: Pc)

  datatype State = State(
    stored: Book,      // the committed row
    executed: nat,     // additions the exchange executed and the task kept
    inProgress: bool,  // the id is in _loss_add_in_progress
    tasks: seq<Task>)

  datatype Step =
    | Load                                                    // a loop or a mark tick loads the row
    | Evaluate(task: nat, roi: real)                          // it evaluates its copy, at the ROI it computed
    | Finish(task: nat, fill: real, added: real, kept: bool)  // the addition commits, or is not made or reverted

  datatype Ladder = Ladder(rules: AddRules, settings: TradeSettings)

  function Start(b: Book): State { State(b, 0, false, []) }

  predicate Moves(s: State, i: nat, pc: Pc) { i < |s.tasks| && s.tasks[i].pc == pc }

  function Next(l: Ladder, s: State, step: Step): State {
    match step
    case Load => s.(tasks := s.tasks + [Task(s.stored, s.executed, Loaded)])
    case Evaluate(i, roi) =>
      if !Moves(s, i, Loaded) then s
      else if ShouldLossAdd(roi, l.rules, s.tasks[i].copy.lossAddCount) && !s.inProgress then
        s.(inProgress := true, tasks := s.tasks[i := s.tasks[i].(pc := Adding)])
      else s.(tasks := s.tasks[i := s.tasks[i].(pc := Done)])
    case Finish(i, fill, added, kept) =>
      if !Moves(s, i, Adding) then s
      else
        var done := s.(inProgress := false, tasks := s.tasks[i := s.tasks[i].(pc := Done)]);
        if kept then done.(executed := s.executed + 1, stored := BookAfterAdd(s.tasks[i].copy, l.settings, fill, added))
        else done
  }

  function Run(l: Ladder, s: State, steps: seq<Step>): State
    decreases |steps|
  {
    if steps == [] then s else Run(l, Next(l, s, steps[0]), steps[1..])
  }

  /** The step completes an addition although another one was completed since its task loaded the row. */
  predicate Stale(s: State, step: Step) {
    step.Finish? && step.kept && Moves(s, step.task, Adding) && s.tasks[step.task].seen != s.executed
  }

  /** No addition of another task lies between a completed addition and the load it started from. */
  predicate Fresh(l: Ladder, s: State, steps: seq<Step>)
    decreases |steps|
  {
    steps == [] || (!Stale(s, steps[0]) && Fresh(l, Next(l, s, steps[0]), steps[1..]))
  }

  // ---------- what every schedule keeps ----------

  /** A book's margin and count have moved together since the start. */
  predicate Derived(b: Book, start: Book, s: TradeSettings) {
    b.lossAddCount >= start.lossAddCount
    && b.marginUsdt == start.marginUsdt + Multiple(b.lossAddCount - start.lossAddCount, s.marginPerTradeUsdt)
  }

  predicate Bounded(b: Book, l: Ladder, start: Book) {
    Derived(b, start, l.settings) && (start.lossAddCount <= l.rules.maxCount ==> b.lossAddCount <= l.rules.maxCount)
  }

  /** `lost`: whether some addition was completed from a stale copy. Counts never run ahead of the additions, and
      once one is lost they stay behind. */
  predicate Behind(b: Book, seen: nat, start: Book, lost: bool) {
    if lost then b.lossAddCount - start.lossAddCount < seen else b.lossAddCount - start.lossAddCount == seen
  }

  ghost predicate Inv(l: Ladder, start: Book, s: State, lost: bool) {
    && Bounded(s.stored, l, start) && Behind(s.stored, s.executed, start, lost)
    && forall i :: 0 <= i < |s.tasks| ==> TaskFits(l, start, s, lost, s.tasks[i])
  }

  predicate TaskFits(l: Ladder, start: Book, s: State, lost: bool, t: Task) {
    && Bounded(t.copy, l, start) && t.seen <= s.executed
    && t.copy.lossAddCount - start.lossAddCount <= t.seen
    && (lost && t.seen == s.executed ==> t.copy.lossAddCount - start.lossAddCount < t.seen)
    && (!lost ==> t.copy.lossAddCount - start.lossAddCount == t.seen)
    && (t.pc == Adding && start.lossAddCount <= l.rules.maxCount ==> t.copy.lossAddCount < l.rules.maxCount)
  }

  lemma AddedBookFits(l: Ladder, start: Book, b: Book, fill: real, added: real)
    requires Bounded(b, l, start) && (start.lossAddCount <= l.rules.maxCount ==> b.lossAddCount < l.rules.maxCount)
    ensures Bounded(BookAfterAdd(b, l.settings, fill, added), l, start)
    ensures BookAfterAdd(b, l.settings, fill, added).lossAddCount == b.lossAddCount + 1
  {
    OneMoreMargin(b.lossAddCount + 1 - start.lossAddCount, l.settings.marginPerTradeUsdt);
  }

  lemma FinishKeeps(l: Ladder, start: Book, s: State, lost: bool, i: nat, fill: real, added: real)
    requires Inv(l, start, s, lost) && Moves(s, i, Adding)
    ensures var step := Finish(i, fill, added, true);
            Inv(l, start, Next(l, s, step), lost || Stale(s, step))
  {
    var step, n := Finish(i, fill, added, true), Next(l, s, Finish(i, fill, added, true));
    var t := s.tasks[i];
    assert TaskFits(l, start, s, lost, t);
    AddedBookFits(l, start, t.copy, fill, added);
    forall j | 0 <= j < |n.tasks| ensures TaskFits(l, start, n, lost || Stale(s, step), n.tasks[j]) {
      assert TaskFits(l, start, s, lost, s.tasks[j]);
    }
  }

  lemma StepKeeps(l: Ladder, start: Book, s: State, lost: bool, step: Step)
    requires Inv(l, start, s, lost)
    ensures Inv(l, start, Next(l, s, step), lost || Stale(s, step))
  {
    if step.Finish? && step.kept && Moves(s, step.task, Adding) {
      FinishKeeps(l, start, s, lost, step.task, step.fill, step.added);
    } else {
      var n := Next(l, s, step);
      forall j | 0 <= j < |n.tasks| ensures TaskFits(l, start, n, lost, n.tasks[j]) {
        if j < |s.tasks| { assert TaskFits(l, start, s, lost, s.tasks[j]); }
      }
    }
  }

  lemma {:induction false} RunKeeps(l: Ladder, start: Book, s: State, lost: bool, steps: seq<Step>)
    requires Inv(l, start, s, lost)
    ensures Inv(l, start, Run(l, s, steps), lost || !Fresh(l, s, steps))
    decreases |steps|
  {
    if steps == [] {
    } else {
      StepKeeps(l, start, s, lost, steps[0]);
      RunKeeps(l, start, Next(l, s, steps[0]), lost || Stale(s, steps[0]), steps[1..]);
    }
  }

  // ---------- main results ----------

  /** Main result: over every schedule the stored count stays within its maximum and the stored margin is the
      initial one plus one trade margin per counted addition; and the count counts every executed addition
      exactly when none started from a stale copy. */
  lemma CountIsExactIff(l: Ladder, start: Book, steps: seq<Step>)
    ensures var e := Run(l, Start(start), steps);
            && (start.lossAddCount <= l.rules.maxCount ==> e.stored.lossAddCount <= l.rules.maxCount)
            && Derived(e.stored, start, l.settings)
            && e.stored.lossAddCount <= start.lossAddCount + e.executed
            && (e.stored.lossAddCount == start.lossAddCount + e.executed <==> Fresh(l, Start(start), steps))
  {
    assert Multiple(0, l.settings.marginPerTradeUsdt) == 0.0;
    RunKeeps(l, start, Start(start), false, steps);
  }

  /** Some ROI makes a row with this count an addition. */
  predicate CanAdd(r: AddRules, count: nat) {
    r.isNormalPosition && r.enabled && count < r.maxCount && r.triggerRoiPct < r.stopLossRoiPct
  }

  /** Additions executed reach at most the maximum; a row already beyond it gets none. */
  predicate NoneBeyond(executed: nat, l: Ladder, start: Book) {
    executed > 0 ==> start.lossAddCount + executed <= l.rules.maxCount
  }

  /** The executed additions stay within the maximum over every schedule, or over every fresh one. */
  ghost predicate AlwaysWithin(l: Ladder, start: Book, freshOnly: bool) {
    forall steps :: (freshOnly ==> Fresh(l, Start(start), steps)) ==>
                      NoneBeyond(Run(l, Start(start), steps).executed, l, start)
  }

  /** Main result: the additions executed stay within the maximum on every schedule exactly when stale copies are
      ruled out, or the rules never add at all. */
  lemma WithinIff(l: Ladder, start: Book, freshOnly: bool)
    ensures AlwaysWithin(l, start, freshOnly) <==> freshOnly || !CanAdd(l.rules, start.lossAddCount)
  {
    if !CanAdd(l.rules, start.lossAddCount) {
      forall steps ensures Run(l, Start(start), steps).executed == 0 { NeverAdds(l, start, Start(start), steps); }
    } else if freshOnly {
      forall steps | Fresh(l, Start(start), steps) ensures NoneBeyond(Run(l, Start(start), steps).executed, l, start) {
        CountIsExactIff(l, start, steps);
      }
    } else {
      StaleCopiesExceed(l, start);
    }
  }

  /** Nothing was added, nothing is being added, and every copy is the starting row. */
  predicate Untouched(s: State, start: Book) {
    && s.stored == start && s.executed == 0
    && forall i :: 0 <= i < |s.tasks| ==> s.tasks[i].copy == start && s.tasks[i].pc != Adding
  }

  lemma {:induction false} NeverAdds(l: Ladder, start: Book, s: State, steps: seq<Step>)
    requires Untouched(s, start) && !CanAdd(l.rules, start.lossAddCount)
    ensures Run(l, s, steps).executed == 0
    decreases |steps|
  {
    if steps == [] {
    } else {
      var n := Next(l, s, steps[0]);
      assert Untouched(n, start);
      NeverAdds(l, start, n, steps[1..]);
    }
  }

  // ---------- the failing schedule: n tasks load the same row, then add one after the other ----------

  function Row(start: Book, n: nat, done: nat): seq<Task> {
    seq(n, i => Task(start, 0, if i < done then Done else Loaded))
  }

  /** The state after `done` of them have added: every addition stored the same row. */
  function Staged(l: Ladder, start: Book, n: nat, done: nat): State {
    State(if done == 0 then start else BookAfterAdd(start, l.settings, 1.0, 1.0), done, false, Row(start, n, done))
  }

  lemma {:induction false} RunJoin(l: Ladder, s: State, a: seq<Step>, b: seq<Step>)
    ensures Run(l, s, a + b) == Run(l, Run(l, s, a), b)
    decreases |a|
  {
    if a == [] {
      assert a + b == b;
    } else {
      assert (a + b)[1..] == a[1..] + b;
      RunJoin(l, Next(l, s, a[0]), a[1..], b);
    }
  }

  lemma {:induction false} AllLoad(l: Ladder, start: Book, n: nat) returns (steps: seq<Step>)
    ensures Run(l, Start(start), steps) == Staged(l, start, n, 0)
  {
    if n == 0 {
      steps := [];
    } else {
      var before := AllLoad(l, start, n - 1);
      steps := before + [Load];
      RunJoin(l, Start(start), before, [Load]);
      assert Row(start, n, 0) == Row(start, n - 1, 0) + [Task(start, 0, Loaded)];
      assert [Load][1..] == [];
    }
  }

  lemma OneAdds(l: Ladder, start: Book, n: nat, done: nat)
    requires CanAdd(l.rules, start.lossAddCount) && done < n
    ensures Run(l, Staged(l, start, n, done), [Evaluate(done, -l.rules.triggerRoiPct), Finish(done, 1.0, 1.0, true)])
            == Staged(l, start, n, done + 1)
  {
    var s := Staged(l, start, n, done);
    var evaluate, finish := Evaluate(done, -l.rules.triggerRoiPct), Finish(done, 1.0, 1.0, true);
    var mid := Next(l, s, evaluate);
    assert mid == s.(inProgress := true, tasks := s.tasks[done := Task(start, 0, Adding)]);
    assert Next(l, mid, finish).tasks == Row(start, n, done + 1);
    assert Next(l, mid, finish) == Staged(l, start, n, done + 1);
    RunTwo(l, s, evaluate, finish);
  }

  lemma RunTwo(l: Ladder, s: State, a: Step, b: Step)
    ensures Run(l, s, [a, b]) == Next(l, Next(l, s, a), b)
  {
    assert [a, b][1..] == [b] && [b][1..] == [];
    assert Run(l, Next(l, s, a), [b]) == Run(l, Next(l, Next(l, s, a), b), []);
  }

  lemma {:induction false} AllAdd(l: Ladder, start: Book, n: nat, done: nat) returns (steps: seq<Step>)
    requires CanAdd(l.rules, start.lossAddCount) && done <= n
    ensures Run(l, Start(start), steps) == Staged(l, start, n, done)
  {
    if done == 0 {
      steps := AllLoad(l, start, n);
    } else {
      var before := AllAdd(l, start, n, done - 1);
      var more := [Evaluate(done - 1, -l.rules.triggerRoiPct), Finish(done - 1, 1.0, 1.0, true)];
      steps := before + more;
      RunJoin(l, Start(start), before, more);
      OneAdds(l, start, n, done - 1);
    }
  }

  /** One task more than the maximum allows, all loaded before the first addition: every one of them adds, and the
      row records a single addition. */
  lemma StaleCopiesExceed(l: Ladder, start: Book)
    requires CanAdd(l.rules, start.lossAddCount)
    ensures exists steps :: var e := Run(l, Start(start), steps);
              start.lossAddCount + e.executed > l.rules.maxCount && e.stored.lossAddCount == start.lossAddCount + 1
    ensures !AlwaysWithin(l, start, false)
  {
    var n := l.rules.maxCount - start.lossAddCount + 1;
    var steps := AllAdd(l, start, n, n);
    assert Run(l, Start(start), steps).executed == n;
    assert !NoneBeyond(n, l, start);
  }

  // ---------- an addition that overlaps a close of the same position ----------

  /** The addition fills, and then commits or is taken back; another task loads the row, and then exits with the
      quantity it loaded. Nothing excludes one from the other. */
  datatype OverlapStep = Fill | Settle | LoadRow | SendExit

  /** One addition of `added` to a position of `quantity`, `kept` or reverted. */
  datatype Overlap = Overlap(quantity: real, added: real, kept: bool)

  datatype OverlapState = OverlapState(
    open: real, stored: real, copy: Option<real>, filled: bool, settled: bool, exited: bool)

  function BeforeOverlap(o: Overlap): OverlapState {
    OverlapState(o.quantity, o.quantity, None, false, false, false)
  }

  /** A reduce-only order closes at most what is open. */
  function Reduce(open: real, amount: real): real { Max(open - amount, 0.0) }

  function OverlapNext(o: Overlap, s: OverlapState, step: OverlapStep): OverlapState {
    match step
    case Fill => if s.filled then s else s.(open := s.open + o.added, filled := true)
    case Settle =>
      if !s.filled || s.settled then s
      else if o.kept then s.(stored := s.stored + o.added, settled := true)
      else s.(open := Reduce(s.open, o.added), settled := true)
    case LoadRow => if s.copy.Some? then s else s.(copy := Some(s.stored))
    case SendExit => if s.copy.None? || s.exited then s else s.(open := Reduce(s.open, s.copy.value), exited := true)
  }

  function OverlapRun(o: Overlap, steps: seq<OverlapStep>): OverlapState {
    if steps == [] then BeforeOverlap(o) else OverlapNext(o, OverlapRun(o, steps[..|steps| - 1]), steps[|steps| - 1])
  }

  /** The closing task loaded the row with the addition in it. */
  predicate CopyHasAddition(o: Overlap, s: OverlapState) { s.copy == Some(o.quantity + o.added) }

  predicate OverlapFits(o: Overlap, s: OverlapState) {
    && (s.settled ==> s.filled) && (s.exited ==> s.copy.Some?)
    && s.stored == o.quantity + (if s.settled && o.kept then o.added else 0.0)
    && (s.copy.Some? ==> s.copy == Some(o.quantity) || (CopyHasAddition(o, s) && s.settled && o.kept))
    && s.open == if s.exited && CopyHasAddition(o, s) then 0.0
                 else (if s.exited then 0.0 else o.quantity)
                      + (if s.filled && (!s.settled || o.kept) then o.added else 0.0)
  }

  lemma {:induction false} OverlapKeeps(o: Overlap, steps: seq<OverlapStep>)
    requires o.quantity > 0.0 && o.added > 0.0
    ensures OverlapFits(o, OverlapRun(o, steps))
    decreases |steps|
  {
    if steps == [] {
    } else {
      OverlapKeeps(o, steps[..|steps| - 1]);
    }
  }

  /** Main result: once both are over, in whatever order their steps came, the addition's whole fill is left open
      behind the closed position, unless it was taken back or the closing task loaded the row with it. */
  lemma OverlapLeaves(o: Overlap, steps: seq<OverlapStep>)
    requires o.quantity > 0.0 && o.added > 0.0
    requires OverlapRun(o, steps).settled && OverlapRun(o, steps).exited
    ensures var s := OverlapRun(o, steps);
            s.open == if o.kept && !CopyHasAddition(o, s) then o.added else 0.0
  {
    OverlapKeeps(o, steps);
  }
}
