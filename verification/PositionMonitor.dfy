/** Closing a position from several asynchronous tasks, `worker/position_monitor.py`: tasks interleave at awaits
    and share the `_closing_in_progress` set; each has its own database transaction. One position, any number of
    tasks, any schedule. */
module PositionMonitor {
  import opened DecimalUtils

  /** What the surroundings guarantee. */
  datatype Config = Config(
    /** the closing transaction is committed before the id leaves the guard set */
    commitInGuard: bool,
    /** the exchange refuses reduce-only orders that have nothing to reduce */
    reduceOnlyEnforced: bool,
    /** an executed exit order may be reported as failed */
    acksLost: bool,
    /** a failed exit is rolled back at once, as in a mark tick; the refresh loop writes OPEN back instead,
        swallows the error and commits later */
    rollsBackRefused: bool)

  /** _software_close_position or _finalize_closed_position. */
  datatype Kind = Software | Finalize

  /** Where a task stands between awaits; the seven from CheckingDb to Recorded hold the guard. */
  datatype Pc =
    | Loaded | CheckingDb
    | Flushing    // about to write CLOSING
    | Exiting     // about to send the exit order
    | Recording   // about to look for an existing Trade
    | Inserting   // saw none: about to insert one and write CLOSED
    | Marking     // saw one: about to write CLOSED only
    | Recorded
    | Uncommitted // has left the guard with its close pending
    | Reopening   // has left the guard with OPEN pending
    | Finished

  /** `inserted`: the task's transaction holds a new Trade row. */
  datatype Task = Task(kind: Kind, pc: Pc, inserted: bool)

  /** What the tasks share. */
  datatype World = World(
    dbOpen: bool,         // committed status is OPEN
    tradeRows: nat,       // committed Trade rows of the position
    writer: Option<nat>,  // the task whose uncommitted transaction has written the position's row
    guarded: bool,        // the id is in _closing_in_progress
    ordersLive: bool,     // both protective orders are on the exchange
    flag: bool,           // the row's protective_orders_ok
    units: int,           // the exchange position: 1 as opened, 0 flat, below 0 reversed
    exits: nat,           // exit orders the exchange executed
    failures: nat)        // closing transactions that ended in a unique-key violation

  datatype State = State(world: World, tasks: seq<Task>)

  /** The outcome the environment picks for a segment. */
  datatype Choice =
    | Go | CancelsFail | Accept | LoseAck | Refuse | LoseAckInLoop | RefuseInLoop | Commit | DeferCommit | Rollback

  datatype Step =
    | Spawn(kind: Kind)  // a loop loads the position as OPEN
    | ExchangeFlat       // the position ends on the exchange by itself
    | Refresh(ok: bool)  // the orders are placed anew and the flag says how that went
    | Advance(task: nat, choice: Choice)

  function Initial(): State { State(World(true, 0, None, false, true, true, 1, 0, 0), []) }

  /** The task ends inside the guard: the id leaves the set, its transaction is rolled back. */
  function Abandoned(w: World, me: nat): World {
    w.(guarded := false, writer := if w.writer == Some(me) then None else w.writer)
  }

  function Committed(w: World, t: Task): World {
    w.(dbOpen := false, writer := None, tradeRows := w.tradeRows + if t.inserted then 1 else 0)
  }

  /** A write of the position's row waits while another transaction has written it. */
  predicate MayWrite(w: World, me: nat) { w.writer.None? || w.writer == Some(me) }

  /** Entering the guard set, unless another task is inside. */
  function EnterGuard(w: World, t: Task): (World, Task) {
    if w.guarded then (w, t.(pc := Finished)) else (w.(guarded := true), t.(pc := CheckingDb))
  }

  /** The fresh look at the committed status. */
  function LookAgain(w: World, me: nat, t: Task): (World, Task) {
    if !w.dbOpen then (Abandoned(w, me), t.(pc := Finished))
    else (w, t.(pc := if t.kind == Software then Flushing else Recording))
  }

  /** The write of CLOSING and the cancels of both protective orders. */
  function Flush(w: World, me: nat, t: Task, c: Choice): (World, Task) {
    if !MayWrite(w, me) then (w, t)
    else (w.(writer := Some(me), ordersLive := w.ordersLive && c == CancelsFail), t.(pc := Exiting))
  }

  /** The two ends of a failed exit: rolled back, or OPEN written and left pending. */
  function ExitFailed(cfg: Config, w: World, me: nat, t: Task, inLoop: bool): (World, Task) {
    if inLoop && !cfg.rollsBackRefused then (w.(guarded := false), t.(pc := Reopening))
    else (Abandoned(w, me), t.(pc := Finished))
  }

  /** The reduce-only exit order. */
  function Exit(cfg: Config, w: World, me: nat, t: Task, c: Choice): (World, Task) {
    var executes := !cfg.reduceOnlyEnforced || w.units > 0;
    var executed := w.(exits := w.exits + 1, units := w.units - 1);
    if c == Accept && executes then (executed, t.(pc := Recording))
    else if (c == LoseAck || c == LoseAckInLoop) && executes && cfg.acksLost then
      ExitFailed(cfg, executed, me, t, c == LoseAckInLoop)
    else if c == Refuse || c == RefuseInLoop then ExitFailed(cfg, w, me, t, c == RefuseInLoop)
    else (w, t)
  }

  /** _record_closed_position looks for a Trade first. */
  function LookForTrade(w: World, t: Task): (World, Task) {
    (w, t.(pc := if w.tradeRows > 0 then Marking else Inserting))
  }

  /** The unique index on position_id: a second row waits for an uncommitted one and fails beside a committed one. */
  function Insert(w: World, me: nat, t: Task): (World, Task) {
    if !MayWrite(w, me) then (w, t)
    else if w.tradeRows > 0 then (Abandoned(w, me).(failures := w.failures + 1), t.(pc := Finished))
    else (w.(writer := Some(me)), t.(pc := Recorded, inserted := true))
  }

  function Mark(w: World, me: nat, t: Task): (World, Task) {
    if !MayWrite(w, me) then (w, t) else (w.(writer := Some(me)), t.(pc := Recorded, inserted := false))
  }

  /** The end of the guarded part: committed, or left to a later commit. */
  function Leave(cfg: Config, w: World, t: Task, c: Choice): (World, Task) {
    if c == DeferCommit && !cfg.commitInGuard then (w.(guarded := false), t.(pc := Uncommitted))
    else if c == Commit then (Committed(w, t).(guarded := false), t.(pc := Finished))
    else (w, t)
  }

  /** The later end of a pending close. */
  function Conclude(w: World, t: Task, c: Choice): (World, Task) {
    if c == Commit then (Committed(w, t), t.(pc := Finished))
    else if c == Rollback then (w.(writer := None), t.(pc := Finished))
    else (w, t)
  }

  /** The end of a transaction that holds OPEN. */
  function Reopen(w: World, t: Task, c: Choice): (World, Task) {
    if c == Commit then (w.(dbOpen := true, writer := None), t.(pc := Finished))
    else if c == Rollback then (w.(writer := None), t.(pc := Finished))
    else (w, t)
  }

  /** One segment of a task; a choice that does not fit the segment changes nothing. */
  function Segment(cfg: Config, w: World, me: nat, t: Task, c: Choice): (World, Task) {
    match t.pc
    case Loaded => EnterGuard(w, t)
    case CheckingDb => LookAgain(w, me, t)
    case Flushing => Flush(w, me, t, c)
    case Exiting => Exit(cfg, w, me, t, c)
    case Recording => LookForTrade(w, t)
    case Inserting => Insert(w, me, t)
    case Marking => Mark(w, me, t)
    case Recorded => Leave(cfg, w, t, c)
    case Uncommitted => Conclude(w, t, c)
    case Reopening => Reopen(w, t, c)
    case Finished => (w, t)
  }

  function Next(cfg: Config, s: State, step: Step): State {
    match step
    case Spawn(kind) => if s.world.dbOpen then s.(tasks := s.tasks + [Task(kind, Loaded, false)]) else s
    case ExchangeFlat => if s.world.units == 1 then s.(world := s.world.(units := 0)) else s
    case Refresh(ok) => if s.world.dbOpen then s.(world := s.world.(ordersLive := ok, flag := ok)) else s
    case Advance(i, c) =>
      if i < |s.tasks| then
        var (w, t) := Segment(cfg, s.world, i, s.tasks[i], c);
        State(w, s.tasks[i := t])
      else s
  }

  function Run(cfg: Config, s: State, steps: seq<Step>): State
    decreases |steps|
  {
    if steps == [] then s else Run(cfg, Next(cfg, s, steps[0]), steps[1..])
  }

  // ---------- who holds the guard, and who has written the row ----------

  predicate HoldsGuard(t: Task) {
    t.pc == CheckingDb || t.pc == Flushing || t.pc == Exiting || t.pc == Recording || t.pc == Inserting
    || t.pc == Marking || t.pc == Recorded
  }

  predicate HasWritten(t: Task) {
    t.pc == Exiting || t.pc == Recorded || t.pc == Uncommitted || t.pc == Reopening
    || (t.kind == Software && (t.pc == Recording || t.pc == Inserting || t.pc == Marking))
  }

  /** The guard set works: it is set exactly while task `h` is inside, and no other task is. */
  predicate OnlyHolder(s: State, h: Option<nat>) {
    && (s.world.guarded <==> h.Some?)
    && (h.Some? ==> h.value < |s.tasks|)
    && forall i :: 0 <= i < |s.tasks| ==> (HoldsGuard(s.tasks[i]) <==> h == Some(i))
  }

  /** Exactly the recorded writer has an uncommitted write of the position's row. */
  predicate OnlyWriter(s: State) {
    && (s.world.writer.Some? ==> s.world.writer.value < |s.tasks|)
    && forall i :: 0 <= i < |s.tasks| ==> (HasWritten(s.tasks[i]) <==> s.world.writer == Some(i))
  }

  function TaskAt(s: State, i: Option<nat>): Option<Task> {
    if i.Some? && i.value < |s.tasks| then Some(s.tasks[i.value]) else None
  }

  predicate At(t: Option<Task>, pc: Pc) { t.Some? && t.value.pc == pc }

  /** One Trade row at most, and one whenever the position is closed; a row is pending only while there is none.
      `h` is the task inside the guard, `p` the one with the pending write. */
  predicate RowsFit(cfg: Config, w: World, h: Option<Task>, p: Option<Task>) {
    && w.tradeRows <= 1 && (!w.dbOpen ==> w.tradeRows == 1)
    && (cfg.commitInGuard || cfg.rollsBackRefused ==> (w.dbOpen <==> w.tradeRows == 0))
    && (cfg.rollsBackRefused ==> !At(p, Reopening))
    && (At(h, Marking) ==> w.tradeRows == 1)
    && (At(p, Recorded) || At(p, Uncommitted) ==> (p.value.inserted <==> w.tradeRows == 0))
  }

  /** With the commit inside the guard nothing is pending outside it, and nobody inside is overtaken. */
  predicate CommitsInside(cfg: Config, w: World, h: Option<Task>, p: Option<Task>) {
    cfg.commitInGuard ==>
      && w.failures == 0 && !At(p, Uncommitted) && (At(p, Reopening) ==> w.dbOpen)
      && (h.Some? && !At(h, CheckingDb) ==> w.dbOpen)
  }

  /** The holder has passed its exit order. */
  predicate PastExit(h: Option<Task>) {
    h.Some? && h.value.kind == Software
      && (h.value.pc == Recording || h.value.pc == Inserting || h.value.pc == Recorded)
  }

  predicate ExitsFit(cfg: Config, w: World, h: Option<Task>) {
    && (At(h, Exiting) || At(h, Flushing) ==> h.value.kind == Software)
    && (cfg.reduceOnlyEnforced ==> w.units >= 0 && w.exits + w.units <= 1)
    && (cfg.commitInGuard && !cfg.acksLost ==> w.exits <= 1 && (w.exits == 1 ==> !w.dbOpen || PastExit(h)))
  }

  predicate Fits(cfg: Config, w: World, h: Option<Task>, p: Option<Task>) {
    RowsFit(cfg, w, h, p) && CommitsInside(cfg, w, h, p) && ExitsFit(cfg, w, h)
  }

  predicate Inv(cfg: Config, s: State, h: Option<nat>) {
    OnlyHolder(s, h) && OnlyWriter(s) && Fits(cfg, s.world, TaskAt(s, h), TaskAt(s, s.world.writer))
  }

  // ---------- every step keeps them ----------

  /** The guard and the pending write pass only to and from the task that moves. */
  predicate Passes(w: World, me: nat, t: Task, w': World, t': Task) {
    && w'.guarded == (HoldsGuard(t') || (w.guarded && !HoldsGuard(t)))
    && (HoldsGuard(t') && !HoldsGuard(t) ==> !w.guarded)
    && w'.writer == (if HasWritten(t') then Some(me) else if HasWritten(t) then None else w.writer)
    && (HasWritten(t') && !HasWritten(t) ==> w.writer.None?)
  }

  /** Whose task is inside, or pending, once task `t` has become `t'`. */
  function HolderAfter(h: Option<Task>, t: Task, t': Task): Option<Task> {
    if HoldsGuard(t') then Some(t') else if HoldsGuard(t) then None else h
  }

  function PendingAfter(p: Option<Task>, t: Task, t': Task): Option<Task> {
    if HasWritten(t') then Some(t') else if HasWritten(t) then None else p
  }

  /** What holds of task `t` before its segment. */
  predicate Ready(cfg: Config, w: World, h: Option<Task>, p: Option<Task>, me: nat, t: Task) {
    && Fits(cfg, w, h, p) && (w.guarded <==> h.Some?) && (w.writer.Some? <==> p.Some?)
    && (HoldsGuard(t) ==> h == Some(t)) && (HasWritten(t) <==> w.writer == Some(me)) && (HasWritten(t) ==> p == Some(t))
  }

  predicate Kept(cfg: Config, w: World, h: Option<Task>, p: Option<Task>, me: nat, t: Task, after: (World, Task)) {
    Passes(w, me, t, after.0, after.1) && Fits(cfg, after.0, HolderAfter(h, t, after.1), PendingAfter(p, t, after.1))
  }

  lemma EnterGuardKeeps(cfg: Config, w: World, h: Option<Task>, p: Option<Task>, me: nat, t: Task)
    requires Ready(cfg, w, h, p, me, t) && t.pc == Loaded
    ensures Kept(cfg, w, h, p, me, t, EnterGuard(w, t))
  {
  }

  lemma LookAgainKeeps(cfg: Config, w: World, h: Option<Task>, p: Option<Task>, me: nat, t: Task)
    requires Ready(cfg, w, h, p, me, t) && t.pc == CheckingDb
    ensures Kept(cfg, w, h, p, me, t, LookAgain(w, me, t))
  {
  }

  lemma FlushKeeps(cfg: Config, w: World, h: Option<Task>, p: Option<Task>, me: nat, t: Task, c: Choice)
    requires Ready(cfg, w, h, p, me, t) && t.pc == Flushing
    ensures Kept(cfg, w, h, p, me, t, Flush(w, me, t, c))
  {
  }

  lemma ExitKeeps(cfg: Config, w: World, h: Option<Task>, p: Option<Task>, me: nat, t: Task, c: Choice)
    requires Ready(cfg, w, h, p, me, t) && t.pc == Exiting
    ensures Kept(cfg, w, h, p, me, t, Exit(cfg, w, me, t, c))
  {
  }

  lemma LookForTradeKeeps(cfg: Config, w: World, h: Option<Task>, p: Option<Task>, me: nat, t: Task)
    requires Ready(cfg, w, h, p, me, t) && t.pc == Recording
    ensures Kept(cfg, w, h, p, me, t, LookForTrade(w, t))
  {
  }

  lemma InsertKeeps(cfg: Config, w: World, h: Option<Task>, p: Option<Task>, me: nat, t: Task)
    requires Ready(cfg, w, h, p, me, t) && t.pc == Inserting
    ensures Kept(cfg, w, h, p, me, t, Insert(w, me, t))
  {
  }

  lemma MarkKeeps(cfg: Config, w: World, h: Option<Task>, p: Option<Task>, me: nat, t: Task)
    requires Ready(cfg, w, h, p, me, t) && t.pc == Marking
    ensures Kept(cfg, w, h, p, me, t, Mark(w, me, t))
  {
  }

  lemma LeaveKeeps(cfg: Config, w: World, h: Option<Task>, p: Option<Task>, me: nat, t: Task, c: Choice)
    requires Ready(cfg, w, h, p, me, t) && t.pc == Recorded
    ensures Kept(cfg, w, h, p, me, t, Leave(cfg, w, t, c))
  {
  }

  lemma ConcludeKeeps(cfg: Config, w: World, h: Option<Task>, p: Option<Task>, me: nat, t: Task, c: Choice)
    requires Ready(cfg, w, h, p, me, t) && t.pc == Uncommitted
    ensures Kept(cfg, w, h, p, me, t, Conclude(w, t, c))
  {
  }

  lemma ReopenKeeps(cfg: Config, w: World, h: Option<Task>, p: Option<Task>, me: nat, t: Task, c: Choice)
    requires Ready(cfg, w, h, p, me, t) && t.pc == Reopening
    ensures Kept(cfg, w, h, p, me, t, Reopen(w, t, c))
  {
  }

  lemma SegmentKeeps(cfg: Config, w: World, h: Option<Task>, p: Option<Task>, me: nat, t: Task, c: Choice)
    requires Ready(cfg, w, h, p, me, t)
    ensures Kept(cfg, w, h, p, me, t, Segment(cfg, w, me, t, c))
  {
    match t.pc {
      case Loaded => EnterGuardKeeps(cfg, w, h, p, me, t);
      case CheckingDb => LookAgainKeeps(cfg, w, h, p, me, t);
      case Flushing => FlushKeeps(cfg, w, h, p, me, t, c);
      case Exiting => ExitKeeps(cfg, w, h, p, me, t, c);
      case Recording => LookForTradeKeeps(cfg, w, h, p, me, t);
      case Inserting => InsertKeeps(cfg, w, h, p, me, t);
      case Marking => MarkKeeps(cfg, w, h, p, me, t);
      case Recorded => LeaveKeeps(cfg, w, h, p, me, t, c);
      case Uncommitted => ConcludeKeeps(cfg, w, h, p, me, t, c);
      case Reopening => ReopenKeeps(cfg, w, h, p, me, t, c);
      case Finished =>
    }
  }

  /** Who holds the guard after a step. */
  function NextHolder(s: State, h: Option<nat>, step: Step, next: State): Option<nat>
    requires |s.tasks| <= |next.tasks|
  {
    if step.Advance? && step.task < |s.tasks| then
      if HoldsGuard(next.tasks[step.task]) then Some(step.task) else if h == Some(step.task) then None else h
    else h
  }

  /** Replacing one task moves the holder and the writer as its segment says. */
  lemma OneTaskMoves(cfg: Config, s: State, h: Option<nat>, i: nat, w': World, t': Task)
    requires OnlyHolder(s, h) && OnlyWriter(s) && i < |s.tasks| && Passes(s.world, i, s.tasks[i], w', t')
    ensures var n, g := State(w', s.tasks[i := t']), NextHolder(s, h, Advance(i, Go), State(w', s.tasks[i := t']));
            && OnlyHolder(n, g) && OnlyWriter(n)
            && TaskAt(n, g) == HolderAfter(TaskAt(s, h), s.tasks[i], t')
            && TaskAt(n, w'.writer) == PendingAfter(TaskAt(s, s.world.writer), s.tasks[i], t')
  {
    assert HoldsGuard(s.tasks[i]) <==> h == Some(i);
    assert HasWritten(s.tasks[i]) <==> s.world.writer == Some(i);
  }

  lemma AdvanceKeeps(cfg: Config, s: State, h: Option<nat>, i: nat, c: Choice) returns (g: Option<nat>)
    requires Inv(cfg, s, h) && i < |s.tasks|
    ensures Inv(cfg, Next(cfg, s, Advance(i, c)), g)
  {
    var (w', t') := Segment(cfg, s.world, i, s.tasks[i], c);
    assert HoldsGuard(s.tasks[i]) <==> h == Some(i);
    assert HasWritten(s.tasks[i]) <==> s.world.writer == Some(i);
    SegmentKeeps(cfg, s.world, TaskAt(s, h), TaskAt(s, s.world.writer), i, s.tasks[i], c);
    OneTaskMoves(cfg, s, h, i, w', t');
    g := NextHolder(s, h, Advance(i, Go), State(w', s.tasks[i := t']));
  }

  lemma StepKeeps(cfg: Config, s: State, h: Option<nat>, step: Step) returns (g: Option<nat>)
    requires Inv(cfg, s, h)
    ensures Inv(cfg, Next(cfg, s, step), g)
  {
    g := h;
    if step.Advance? && step.task < |s.tasks| { g := AdvanceKeeps(cfg, s, h, step.task, step.choice); }
  }

  lemma {:induction false} RunKeeps(cfg: Config, s: State, h: Option<nat>, steps: seq<Step>) returns (g: Option<nat>)
    requires Inv(cfg, s, h)
    ensures Inv(cfg, Run(cfg, s, steps), g)
    decreases |steps|
  {
    g := h;
    if steps == [] {
    } else {
      g := StepKeeps(cfg, s, h, steps[0]);
      g := RunKeeps(cfg, Next(cfg, s, steps[0]), g, steps[1..]);
    }
  }

  // ---------- main results ----------

  /** The id is in the guard set exactly while one task is between entering and leaving, and never two. */
  lemma GuardIsExclusive(cfg: Config, steps: seq<Step>) returns (h: Option<nat>)
    ensures OnlyHolder(Run(cfg, Initial(), steps), h)
  {
    h := RunKeeps(cfg, Initial(), None, steps);
  }

  /** Main result: on every schedule, whatever the surroundings guarantee, at most one Trade row is ever
      committed, and one is whenever the position is CLOSED. */
  lemma OneTradeRow(cfg: Config, steps: seq<Step>)
    ensures var w := Run(cfg, Initial(), steps).world;
            w.tradeRows <= 1 && (!w.dbOpen ==> w.tradeRows == 1)
  {
    var _ := RunKeeps(cfg, Initial(), None, steps);
  }

  /** A recorded position is CLOSED, over every schedule. */
  ghost predicate RecordedIsClosed(cfg: Config) {
    forall steps :: Run(cfg, Initial(), steps).world.tradeRows == 1 ==> !Run(cfg, Initial(), steps).world.dbOpen
  }

  /** One exit order at most, over every schedule. */
  ghost predicate ExitsAtMostOnce(cfg: Config) { forall steps :: Run(cfg, Initial(), steps).world.exits <= 1 }

  /** No closing transaction ever violates the unique index. */
  ghost predicate NoFailedClose(cfg: Config) { forall steps :: Run(cfg, Initial(), steps).world.failures == 0 }

  lemma {:induction false} RunJoin(cfg: Config, s: State, a: seq<Step>, b: seq<Step>)
    ensures Run(cfg, s, a + b) == Run(cfg, Run(cfg, s, a), b)
    decreases |a|
  {
    if a == [] {
      assert a + b == b;
    } else {
      assert (a + b)[1..] == a[1..] + b;
      RunJoin(cfg, Next(cfg, s, a[0]), a[1..], b);
    }
  }

  // ---------- concrete schedules, one step at a time ----------

  /** A schedule reaching `s` from `start`, one step longer. */
  lemma Then(cfg: Config, start: State, steps: seq<Step>, s: State, x: Step) returns (longer: seq<Step>, n: State)
    requires Run(cfg, start, steps) == s
    ensures n == Next(cfg, s, x) && Run(cfg, start, longer) == n
  {
    longer, n := steps + [x], Next(cfg, s, x);
    RunJoin(cfg, start, steps, [x]);
    assert [x][1..] == [];
  }

  /** Nobody is inside and nothing is pending. */
  predicate Quiet(w: World) { w.dbOpen && !w.guarded && w.writer.None? }

  /** A new software close goes up to its exit order. */
  lemma GoToExit(cfg: Config, start: State, steps: seq<Step>, s: State) returns (longer: seq<Step>, n: State)
    requires Run(cfg, start, steps) == s && Quiet(s.world)
    ensures Run(cfg, start, longer) == n
    ensures n == State(s.world.(guarded := true, writer := Some(|s.tasks|), ordersLive := false),
                       s.tasks + [Task(Software, Exiting, false)])
  {
    var i := |s.tasks|;
    longer, n := Then(cfg, start, steps, s, Spawn(Software));
    longer, n := Then(cfg, start, longer, n, Advance(i, Go));
    assert n.tasks == s.tasks + [Task(Software, CheckingDb, false)];
    longer, n := Then(cfg, start, longer, n, Advance(i, Go));
    assert n.tasks == s.tasks + [Task(Software, Flushing, false)];
    longer, n := Then(cfg, start, longer, n, Advance(i, Go));
  }

  /** It goes on to its pending close, with a new Trade row if there is none; its exit order is accepted. */
  lemma GoToRecorded(cfg: Config, start: State, steps: seq<Step>, s: State) returns (longer: seq<Step>, n: State)
    requires Run(cfg, start, steps) == s && Quiet(s.world) && s.world.units > 0
    ensures Run(cfg, start, longer) == n
    ensures n == State(s.world.(guarded := true, writer := Some(|s.tasks|), ordersLive := false,
                                exits := s.world.exits + 1, units := s.world.units - 1),
                       s.tasks + [Task(Software, Recorded, s.world.tradeRows == 0)])
  {
    var i := |s.tasks|;
    longer, n := GoToExit(cfg, start, steps, s);
    longer, n := Then(cfg, start, longer, n, Advance(i, Accept));
    assert n.tasks == s.tasks + [Task(Software, Recording, false)];
    longer, n := Then(cfg, start, longer, n, Advance(i, Go));
    assert n.tasks == s.tasks + [Task(Software, if s.world.tradeRows == 0 then Inserting else Marking, false)];
    longer, n := Then(cfg, start, longer, n, Advance(i, Go));
  }

  /** A first task closes the position and leaves the guard before its commit. */
  lemma GoToLateCommit(cfg: Config) returns (steps: seq<Step>, s: State)
    requires !cfg.commitInGuard
    ensures Run(cfg, Initial(), steps) == s
    ensures s == State(World(true, 0, Some(0), false, false, true, 0, 1, 0), [Task(Software, Uncommitted, true)])
  {
    steps, s := GoToRecorded(cfg, Initial(), [], Initial());
    steps, s := Then(cfg, Initial(), steps, s, Advance(0, DeferCommit));
  }

  /** Without reduce-only enforcement, a lost acknowledgement lets a second exit order execute. */
  lemma LostAckTwice(cfg: Config)
    requires !cfg.reduceOnlyEnforced && cfg.acksLost
    ensures !ExitsAtMostOnce(cfg)
  {
    var steps, s := GoToExit(cfg, Initial(), [], Initial());
    steps, s := Then(cfg, Initial(), steps, s, Advance(0, LoseAck));
    steps, s := GoToExit(cfg, Initial(), steps, s);
    steps, s := Then(cfg, Initial(), steps, s, Advance(1, Accept));
    assert Run(cfg, Initial(), steps).world.exits == 2;
  }

  /** A second task that looked before a late commit sells again after it. */
  lemma LateCommitExitsTwice(cfg: Config)
    requires !cfg.reduceOnlyEnforced && !cfg.commitInGuard
    ensures !ExitsAtMostOnce(cfg)
  {
    var steps, s := GoToLateCommit(cfg);
    steps, s := Then(cfg, Initial(), steps, s, Spawn(Software));
    steps, s := Then(cfg, Initial(), steps, s, Advance(1, Go));
    steps, s := Then(cfg, Initial(), steps, s, Advance(1, Go));
    assert s.tasks == [Task(Software, Uncommitted, true), Task(Software, Flushing, false)];
    steps, s := Then(cfg, Initial(), steps, s, Advance(0, Commit));
    steps, s := Then(cfg, Initial(), steps, s, Advance(1, Go));
    assert s.tasks[1] == Task(Software, Exiting, false);
    steps, s := Then(cfg, Initial(), steps, s, Advance(1, Accept));
    assert Run(cfg, Initial(), steps).world.exits == 2;
  }

  /** The ghost-position path that looked before a late commit fails on the unique index after it. */
  lemma LateCommitFailsClose(cfg: Config)
    requires !cfg.commitInGuard
    ensures !NoFailedClose(cfg)
  {
    var steps, s := GoToLateCommit(cfg);
    steps, s := Then(cfg, Initial(), steps, s, Spawn(Finalize));
    steps, s := Then(cfg, Initial(), steps, s, Advance(1, Go));
    steps, s := Then(cfg, Initial(), steps, s, Advance(1, Go));
    assert s.tasks == [Task(Software, Uncommitted, true), Task(Finalize, Recording, false)];
    steps, s := Then(cfg, Initial(), steps, s, Advance(1, Go));
    steps, s := Then(cfg, Initial(), steps, s, Advance(0, Commit));
    assert s.tasks[1] == Task(Finalize, Inserting, false);
    steps, s := Then(cfg, Initial(), steps, s, Advance(1, Go));
    assert Run(cfg, Initial(), steps).world.failures == 1;
  }

  /** Main result: over all schedules the exchange executes at most one exit order exactly when it enforces
      reduce-only, or the commit is inside the guard and no acknowledgement is lost. */
  lemma ExactlyOnceExit(cfg: Config)
    ensures ExitsAtMostOnce(cfg) <==> cfg.reduceOnlyEnforced || (cfg.commitInGuard && !cfg.acksLost)
  {
    if cfg.reduceOnlyEnforced || (cfg.commitInGuard && !cfg.acksLost) {
      forall steps ensures Run(cfg, Initial(), steps).world.exits <= 1 {
        var _ := RunKeeps(cfg, Initial(), None, steps);
      }
    } else if cfg.acksLost {
      LostAckTwice(cfg);
    } else {
      LateCommitExitsTwice(cfg);
    }
  }

  /** Main result: the price of a late commit besides the second exit: a closing transaction can fail on the
      unique index exactly when the commit may lie outside the guard. */
  lemma FailedCloseIff(cfg: Config)
    ensures NoFailedClose(cfg) <==> cfg.commitInGuard
  {
    if cfg.commitInGuard {
      forall steps ensures Run(cfg, Initial(), steps).world.failures == 0 {
        var _ := RunKeeps(cfg, Initial(), None, steps);
      }
    } else {
      LateCommitFailsClose(cfg);
    }
  }

  /** A task that looked before a late commit, and whose exit is then refused in the refresh loop, commits OPEN
      over CLOSED. */
  lemma RefusalReopensRecorded(cfg: Config)
    requires !cfg.commitInGuard && !cfg.rollsBackRefused
    ensures !RecordedIsClosed(cfg)
  {
    var steps, s := GoToLateCommit(cfg);
    steps, s := Then(cfg, Initial(), steps, s, Spawn(Software));
    steps, s := Then(cfg, Initial(), steps, s, Advance(1, Go));
    steps, s := Then(cfg, Initial(), steps, s, Advance(1, Go));
    assert s.tasks == [Task(Software, Uncommitted, true), Task(Software, Flushing, false)];
    steps, s := Then(cfg, Initial(), steps, s, Advance(0, Commit));
    steps, s := Then(cfg, Initial(), steps, s, Advance(1, Go));
    assert s.tasks[1] == Task(Software, Exiting, false);
    steps, s := Then(cfg, Initial(), steps, s, Advance(1, RefuseInLoop));
    assert s.tasks[1] == Task(Software, Reopening, false);
    steps, s := Then(cfg, Initial(), steps, s, Advance(1, Commit));
    assert Run(cfg, Initial(), steps).world.tradeRows == 1 && Run(cfg, Initial(), steps).world.dbOpen;
  }

  /** Main result: a recorded position is CLOSED on every schedule exactly when the closing commit is inside the
      guard, or failed exits are rolled back. */
  lemma RecordedIsClosedIff(cfg: Config)
    ensures RecordedIsClosed(cfg) <==> cfg.commitInGuard || cfg.rollsBackRefused
  {
    if cfg.commitInGuard || cfg.rollsBackRefused {
      forall steps
        ensures Run(cfg, Initial(), steps).world.tradeRows == 1 ==> !Run(cfg, Initial(), steps).world.dbOpen
      {
        var _ := RunKeeps(cfg, Initial(), None, steps);
      }
    } else {
      RefusalReopensRecorded(cfg);
    }
  }

  /** The position is closed by one more exit order, as a later software close does it. */
  predicate ClosedOnceMore(w: World, e: World) {
    !e.dbOpen && !e.guarded && e.writer.None? && e.tradeRows == 1 && e.exits == w.exits + 1 && e.units == w.units - 1
    && e.failures == w.failures
  }

  /** A refused exit order leaves the position open, unrecorded and out of the guard set. Rolled back, nothing is
      pending; in the refresh loop OPEN is. From either, some later schedule closes it with one more exit order. */
  lemma RefusedExitCanBeRetried(cfg: Config, s: State, h: Option<nat>, inLoop: bool)
    requires Inv(cfg, s, h) && At(TaskAt(s, h), Exiting) && s.world.dbOpen
    ensures var n := Next(cfg, s, Advance(h.value, if inLoop then RefuseInLoop else Refuse));
            && n.world == s.world.(guarded := false, writer := if inLoop && !cfg.rollsBackRefused then h else None)
            && (s.world.units > 0 ==> exists steps :: ClosedOnceMore(s.world, Run(cfg, n, steps).world))
  {
    var n := Next(cfg, s, Advance(h.value, if inLoop then RefuseInLoop else Refuse));
    assert HasWritten(s.tasks[h.value]);
    if s.world.units > 0 {
      var steps: seq<Step>, q := [], n;
      if n.world.writer.Some? { steps, q := Then(cfg, n, steps, q, Advance(h.value, Commit)); }
      var e;
      steps, e := GoToRecorded(cfg, n, steps, q);
      steps, e := Then(cfg, n, steps, e, Advance(|q.tasks|, Commit));
      assert ClosedOnceMore(s.world, Run(cfg, n, steps).world);
    }
  }

  // ---------- the protective orders and their flag ----------

  /** The step cancels both protective orders on the way to an exit order. */
  predicate Cancels(s: State, step: Step) {
    step.Advance? && step.task < |s.tasks| && s.tasks[step.task].pc == Flushing && MayWrite(s.world, step.task)
    && step.choice != CancelsFail
  }

  /** The step places them anew. */
  predicate Refreshes(s: State, step: Step) { step.Refresh? && s.world.dbOpen }

  /** Some step of the schedule cancels the orders, and none after it places them anew. */
  ghost predicate CancelledSince(cfg: Config, s: State, steps: seq<Step>) {
    exists k :: 0 <= k < |steps| && Cancels(Run(cfg, s, steps[..k]), steps[k])
                && forall j :: k < j < |steps| ==> !Refreshes(Run(cfg, s, steps[..j]), steps[j])
  }

  /** What one step does to flag and orders. */
  lemma FlagStep(cfg: Config, s: State, step: Step)
    ensures var w, n := s.world, Next(cfg, s, step).world;
            if Refreshes(s, step) then n.flag == n.ordersLive
            else n.flag == w.flag && n.ordersLive == (w.ordersLive && !Cancels(s, step))
  {
  }

  lemma CancelledSinceStep(cfg: Config, s: State, before: seq<Step>, last: Step)
    ensures var mid := Run(cfg, s, before);
            CancelledSince(cfg, s, before + [last])
            <==> Cancels(mid, last) || (CancelledSince(cfg, s, before) && !Refreshes(mid, last))
  {
    var steps := before + [last];
    forall k | 0 <= k <= |before| ensures steps[..k] == before[..k] { }
    assert before[..|before|] == before && steps[|before|] == last;
    if Cancels(Run(cfg, s, before), last) {
      assert Cancels(Run(cfg, s, steps[..|before|]), steps[|before|]);
    }
    if CancelledSince(cfg, s, before) && !Refreshes(Run(cfg, s, before), last) {
      var k :| 0 <= k < |before| && Cancels(Run(cfg, s, before[..k]), before[k])
               && forall j :: k < j < |before| ==> !Refreshes(Run(cfg, s, before[..j]), before[j]);
      assert Cancels(Run(cfg, s, steps[..k]), steps[k]);
      forall j | k < j < |steps| ensures !Refreshes(Run(cfg, s, steps[..j]), steps[j]) { }
    }
    if CancelledSince(cfg, s, steps) {
      var k :| 0 <= k < |steps| && Cancels(Run(cfg, s, steps[..k]), steps[k])
               && forall j :: k < j < |steps| ==> !Refreshes(Run(cfg, s, steps[..j]), steps[j]);
      if k < |before| {
        assert !Refreshes(Run(cfg, s, steps[..|before|]), steps[|before|]);
        assert Cancels(Run(cfg, s, before[..k]), before[k]);
        forall j | k < j < |before| ensures !Refreshes(Run(cfg, s, before[..j]), before[j]) {
          assert !Refreshes(Run(cfg, s, steps[..j]), steps[j]);
        }
      }
    }
  }

  /** Main result: while the flag is set, the orders are gone exactly when some task cancelled them for an exit
      and no refresh has placed them since. */
  lemma {:induction false} FlagLiesIff(cfg: Config, s: State, steps: seq<Step>)
    requires s.world.flag ==> s.world.ordersLive
    ensures var e := Run(cfg, s, steps).world;
            e.flag ==> (!e.ordersLive <==> CancelledSince(cfg, s, steps))
    decreases |steps|
  {
    if steps == [] {
    } else {
      var before, last := steps[..|steps| - 1], steps[|steps| - 1];
      assert steps == before + [last];
      FlagLiesIff(cfg, s, before);
      CancelledSinceStep(cfg, s, before, last);
      RunJoin(cfg, s, before, [last]);
      assert [last][1..] == [];
      FlagStep(cfg, Run(cfg, s, before), last);
    }
  }

  /** What a refused exit can leave behind: an open position on the exchange, its flag set, without its orders. */
  lemma RefusalCanUnprotect(cfg: Config) returns (steps: seq<Step>)
    ensures var w := Run(cfg, Initial(), steps).world;
            Quiet(w) && w.units == 1 && w.flag && !w.ordersLive && w.exits == 0
  {
    var s;
    steps, s := GoToExit(cfg, Initial(), [], Initial());
    steps, s := Then(cfg, Initial(), steps, s, Advance(0, Refuse));
  }
}
