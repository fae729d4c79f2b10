/** The rows of one customer, mode and day under concurrent closings and signal checks, `worker/position_monitor.py`
    and `shared/trading_risk.py`: each session copies the row when it first looks and writes at its commit. */
module StatisticsTasks {
  import opened DecimalUtils
  import opened TradingRisk

  /** A session: the closing of a trade with this net result, or a signal check that may have to create the row. */
  datatype Purpose = Closing(netPnl: real) | Checking

  /** `seen`: the copy it got; `at`: how many writes had been committed by then. */
  datatype Task = Task(purpose: Purpose, seen: Option<DailyStatistic>, at: nat, done: bool)

  datatype State = State(
    rows: seq<DailyStatistic>,  // committed rows
    closed: seq<real>,          // net results of the committed closings, in that order
    writes: nat,                // committed writes of the rows
    tasks: seq<Task>)

  datatype Step = Read(purpose: Purpose) | Commit(task: nat) | Rollback(task: nat)

  function Start(): State { State([], [], 0, []) }

  predicate Pending(s: State, i: nat) { i < |s.tasks| && !s.tasks[i].done }

  /** Whether a session has something to write. */
  predicate Writes(t: Task) { t.purpose.Closing? || t.seen.None? }

  function NewRow(t: Task): DailyStatistic {
    if t.purpose.Closing? then Counted(CopyOf(t.seen), t.purpose.netPnl) else EMPTY_STATISTIC
  }

  /** A session that finds several rows fails at its look and writes nothing. */
  function Next(s: State, step: Step): State {
    match step
    case Read(purpose) =>
      if Look(s.rows).Raised? then s
      else s.(tasks := s.tasks + [Task(purpose, Look(s.rows).value, s.writes, false)])
    case Commit(i) =>
      if !Pending(s, i) then s
      else
        var t, over := s.tasks[i], s.(tasks := s.tasks[i := s.tasks[i].(done := true)]);
        if !Writes(t) then over
        else over.(rows := Store(s.rows, t.seen, NewRow(t)), writes := s.writes + 1,
                   closed := if t.purpose.Closing? then s.closed + [t.purpose.netPnl] else s.closed)
    case Rollback(i) =>
      if !Pending(s, i) then s else s.(tasks := s.tasks[i := s.tasks[i].(done := true)])
  }

  function Run(s: State, steps: seq<Step>): State
    decreases |steps|
  {
    if steps == [] then s else Run(Next(s, steps[0]), steps[1..])
  }

  /** The commit writes from a copy that another session's write has overtaken. */
  predicate Stale(s: State, step: Step) {
    step.Commit? && Pending(s, step.task) && Writes(s.tasks[step.task]) && s.tasks[step.task].at != s.writes
  }

  /** No write of another session lies between a session's look and its own write. */
  predicate Fresh(s: State, steps: seq<Step>)
    decreases |steps|
  {
    steps == [] || (!Stale(s, steps[0]) && Fresh(Next(s, steps[0]), steps[1..]))
  }

  /** The rows are the day's: one row that sums up the closed trades, or none before the first write. */
  predicate RowsAreDay(s: State) { s.rows == [Summary(s.closed)] || (s.rows == [] && s.closed == []) }

  // ---------- what every schedule keeps ----------

  /** Once a write was lost there are two rows, or the one row counts fewer trades than were closed. */
  predicate Fits(s: State, lost: bool) {
    && (s.rows == [] <==> s.writes == 0) && (s.rows == [] ==> s.closed == [])
    && if lost then |s.rows| >= 2 || (|s.rows| == 1 && s.rows[0].tradesCount < |s.closed|) else RowsAreDay(s)
  }

  /** A copy counts no more trades than were closed, and fewer once it is stale or a write was lost. */
  predicate TaskFits(s: State, lost: bool, t: Task) {
    && t.at <= s.writes
    && (!lost && t.at == s.writes ==> Look(s.rows) == Ok(t.seen))
    && (t.seen.Some? ==> s.rows != [])
    && (t.seen.Some? && |s.rows| == 1 ==>
          if lost || t.at != s.writes then t.seen.value.tradesCount < |s.closed|
          else t.seen.value.tradesCount == |s.closed|)
  }

  ghost predicate Inv(s: State, lost: bool) {
    Fits(s, lost) && forall i :: 0 <= i < |s.tasks| && !s.tasks[i].done ==> TaskFits(s, lost, s.tasks[i])
  }

  lemma ReadKeeps(s: State, lost: bool, purpose: Purpose)
    requires Inv(s, lost)
    ensures Inv(Next(s, Read(purpose)), lost)
  {
  }

  /** Writing what is counted onto the very copy it was counted from is the count itself. */
  lemma MergedOntoItself(row: DailyStatistic, now: DailyStatistic)
    ensures Merged(row, row, now) == now
  {
  }

  lemma WriteFits(s: State, lost: bool, i: nat)
    requires Inv(s, lost) && Pending(s, i) && Writes(s.tasks[i])
    ensures Fits(Next(s, Commit(i)), lost || Stale(s, Commit(i)))
  {
    var t := s.tasks[i];
    assert TaskFits(s, lost, t);
    if !lost && t.at == s.writes {
      if t.seen.Some? {
        MergedOntoItself(t.seen.value, NewRow(t));
        CountedIsSummary(s.closed, t.purpose.netPnl);
      } else if t.purpose.Closing? {
        CountedIsSummary([], t.purpose.netPnl);
        assert [] + [t.purpose.netPnl] == [t.purpose.netPnl];
      } else {
        CountedIsSummary([], 0.0);
      }
    }
  }

  lemma WriteKeeps(s: State, lost: bool, i: nat)
    requires Inv(s, lost) && Pending(s, i) && Writes(s.tasks[i])
    ensures Inv(Next(s, Commit(i)), lost || Stale(s, Commit(i)))
  {
    var n, after := Next(s, Commit(i)), lost || Stale(s, Commit(i));
    WriteFits(s, lost, i);
    assert TaskFits(s, lost, s.tasks[i]);
    forall j | 0 <= j < |n.tasks| && !n.tasks[j].done ensures TaskFits(n, after, n.tasks[j]) {
      assert n.tasks[j] == s.tasks[j] && TaskFits(s, lost, s.tasks[j]);
    }
  }

  lemma StepKeeps(s: State, lost: bool, step: Step)
    requires Inv(s, lost)
    ensures Inv(Next(s, step), lost || Stale(s, step))
  {
    if step.Read? {
      ReadKeeps(s, lost, step.purpose);
    } else if step.Commit? && Pending(s, step.task) && Writes(s.tasks[step.task]) {
      WriteKeeps(s, lost, step.task);
    }
  }

  lemma {:induction false} RunKeeps(s: State, lost: bool, steps: seq<Step>)
    requires Inv(s, lost)
    ensures Inv(Run(s, steps), lost || !Fresh(s, steps))
    decreases |steps|
  {
    if steps == [] {
    } else {
      StepKeeps(s, lost, steps[0]);
      RunKeeps(Next(s, steps[0]), lost || Stale(s, steps[0]), steps[1..]);
    }
  }

  // ---------- main results ----------

  /** Main result: over every schedule of closings and signal checks, the rows are the fold of the day's closed
      trades exactly when no session wrote from an overtaken copy. */
  lemma RowsAreDayIff(steps: seq<Step>)
    ensures RowsAreDay(Run(Start(), steps)) <==> Fresh(Start(), steps)
  {
    RunKeeps(Start(), false, steps);
  }

  /** What the gate does next: None where it fails on several rows. */
  function GateRefuses(s: State, settings: RiskSettings): Option<bool> {
    match Look(s.rows)
    case Raised(_) => None
    case Ok(seen) => Some(LossesRefuse(settings, CopyOf(seen)))
  }

  /** Consequence for the gate: after a fresh schedule it refuses for the day's losses exactly when the trades closed
      that day call for it. */
  lemma GateFollowsDay(steps: seq<Step>, settings: RiskSettings)
    requires Fresh(Start(), steps)
    ensures var s := Run(Start(), steps);
            GateRefuses(s, settings) == Some(DayRefuses(settings, s.closed))
  {
    RowsAreDayIff(steps);
    CountedIsSummary([], 0.0);
    RowDecidesAsDay(settings, Run(Start(), steps).closed);
  }

  lemma RunTwo(s: State, a: Step, b: Step)
    ensures Run(s, [a, b]) == Next(Next(s, a), b)
  {
    assert [a, b][1..] == [b] && [b][1..] == [];
    assert Run(Next(s, a), [b]) == Run(Next(Next(s, a), b), []);
  }

  lemma RunFour(s: State, a: Step, b: Step, c: Step, d: Step)
    ensures Run(s, [a, b, c, d]) == Next(Next(Next(Next(s, a), b), c), d)
  {
    assert [a, b, c, d][1..] == [b, c, d] && [b, c, d][1..] == [c, d];
    RunTwo(Next(Next(s, a), b), c, d);
    assert Run(Next(s, a), [b, c, d]) == Run(Next(Next(s, a), b), [c, d]);
  }

  /** Two closings that look at the same row and then commit: the second merges into what the first stored. */
  lemma Overlap(row: DailyStatistic, closed: seq<real>, writes: nat, a: real, b: real)
    ensures var e := Run(State([row], closed, writes, []), [Read(Closing(a)), Read(Closing(b)), Commit(0), Commit(1)]);
            e.rows == [Merged(Counted(row, a), row, Counted(row, b))] && e.closed == closed + [a] + [b]
  {
    var s := State([row], closed, writes, []);
    RunFour(s, Read(Closing(a)), Read(Closing(b)), Commit(0), Commit(1));
    var s2 := Next(Next(s, Read(Closing(a))), Read(Closing(b)));
    assert s2.tasks == [Task(Closing(a), Some(row), writes, false), Task(Closing(b), Some(row), writes, false)];
    var s3 := Next(s2, Commit(0));
    MergedOntoItself(row, Counted(row, a));
    assert s3.rows == [Counted(row, a)] && s3.tasks[1] == s2.tasks[1];
  }

  /** Two losing positions close together on a day whose row is there: the row keeps one loss, and a gate with a
      limit of two lets the next signal through though the day calls for refusal. */
  lemma LostLoss(a: real, b: real, settings: RiskSettings)
    requires a < 0.0 && b < 0.0 && settings.maxConsecutiveLosses == 2 && settings.dailyMaxLossUsdt > -b
    ensures var s := State([EMPTY_STATISTIC], [], 1, []);
            var e := Run(s, [Read(Closing(a)), Read(Closing(b)), Commit(0), Commit(1)]);
            && e.closed == [a, b] && DayRefuses(settings, e.closed) && GateRefuses(e, settings) == Some(false)
  {
    Overlap(EMPTY_STATISTIC, [], 1, a, b);
    SecondLossReplacesFirst(a, b);
    TwoLosses(a, b);
    assert [] + [a] + [b] == [a, b];
  }

  lemma SecondLossReplacesFirst(a: real, b: real)
    requires a < 0.0 && b < 0.0
    ensures var row := Merged(Counted(EMPTY_STATISTIC, a), EMPTY_STATISTIC, Counted(EMPTY_STATISTIC, b));
            row.tradesCount == 1 && row.consecutiveLosses == 1 && row.netPnlUsdt == b
  {
  }

  lemma TwoLosses(a: real, b: real)
    requires a < 0.0 && b < 0.0
    ensures TrailingLosses([a, b]) == 2
  {
    OneMoreResult([a], b);
    OneMoreResult([], a);
    assert [] + [a] == [a] && [a] + [b] == [a, b];
  }

  /** On a day without a row both create one: from then on every closing and every signal check fails at its look. */
  lemma DuplicateRow(a: real, b: real, settings: RiskSettings)
    ensures var e := Run(Start(), [Read(Closing(a)), Read(Closing(b)), Commit(0), Commit(1)]);
            |e.rows| == 2 && GateRefuses(e, settings) == None && forall p :: Next(e, Read(p)) == e
  {
    RunFour(Start(), Read(Closing(a)), Read(Closing(b)), Commit(0), Commit(1));
    var s2 := Next(Next(Start(), Read(Closing(a))), Read(Closing(b)));
    assert s2.tasks == [Task(Closing(a), None, 0, false), Task(Closing(b), None, 0, false)];
  }
}
