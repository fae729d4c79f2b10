/** A tenant's run state: `worker/reconciliation_task.py`, `shared/reconciliation_policy.py` and the gate of
    `tenant_trade_cycle` in `worker/main.py`. */
module ReconciliationTask {
  import opened DecimalUtils
  import opened TradingTypes
  import opened Reconciliation

  /** Substring test, as Python's `in` on strings. */
  predicate Contains(text: string, part: string) {
    part <= text || (text != [] && Contains(text[1..], part))
  }

  const RECONCILIATION := "Reconciliation"

  /** The reason a critical run writes: a fixed opening and then the counts it found. */
  function MismatchReason(counts: string): (r: string)
    ensures Contains(r, RECONCILIATION)
  {
    var r := RECONCILIATION + " tutarsizligi: " + counts;
    assert r[..|RECONCILIATION|] == RECONCILIATION;
    r
  }

  datatype Runtime = Runtime(runState: RunState, safeModeReason: Option<string>)

  predicate IsCritical(m: Mismatch) {
    m.kind == ExternalPosition || m.kind == SideMismatch || m.kind == QuantityMismatch || m.kind == EntryPriceMismatch
  }

  /** critical_mismatches_for_safe_mode. */
  function CriticalMismatches(ms: seq<Mismatch>): (c: seq<Mismatch>)
    ensures forall m :: multiset(c)[m] == if IsCritical(m) then multiset(ms)[m] else 0
    ensures forall m :: m in c <==> m in ms && IsCritical(m)
  {
    if ms == [] then []
    else
      var rest := CriticalMismatches(ms[1..]);
      assert ms == [ms[0]] + ms[1..];
      if IsCritical(ms[0]) then [ms[0]] + rest else rest
  }

  /** The filter keeps the order: what comes first among the mismatches comes first among the critical ones. */
  lemma {:induction false} CriticalMismatchesInOrder(before: seq<Mismatch>, after: seq<Mismatch>)
    ensures CriticalMismatches(before + after) == CriticalMismatches(before) + CriticalMismatches(after)
    decreases |before|
  {
    if before == [] {
      assert before + after == after;
    } else {
      assert (before + after)[1..] == before[1..] + after;
      CriticalMismatchesInOrder(before[1..], after);
    }
  }

  predicate HoldsReconciliation(rt: Runtime) {
    rt.runState == SafeMode && rt.safeModeReason.Some? && Contains(rt.safeModeReason.value, RECONCILIATION)
  }

  /** What one reconciliation concludes. */
  datatype Conclusion = NoneCritical | Critical(counts: string)

  /** The transition at the end of a run. */
  function AfterRun(rt: Runtime, c: Conclusion): Runtime {
    if c.Critical? then Runtime(SafeMode, Some(MismatchReason(c.counts)))
    else if HoldsReconciliation(rt) then Runtime(Running, None)
    else rt
  }

  function AfterRuns(rt: Runtime, runs: seq<Conclusion>): Runtime {
    if runs == [] then rt else AfterRun(AfterRuns(rt, runs[..|runs| - 1]), runs[|runs| - 1])
  }

  predicate AnyCritical(runs: seq<Conclusion>) { exists c :: c in runs && c.Critical? }

  /** Where a whole series of reconciliations ends, in closed form. */
  function Verdict(rt: Runtime, runs: seq<Conclusion>): Runtime {
    if runs == [] then rt
    else if runs[|runs| - 1].Critical? then Runtime(SafeMode, Some(MismatchReason(runs[|runs| - 1].counts)))
    else if AnyCritical(runs) || HoldsReconciliation(rt) then Runtime(Running, None)
    else rt
  }

  lemma VerdictStep(rt: Runtime, before: seq<Conclusion>, last: Conclusion)
    ensures AfterRun(Verdict(rt, before), last) == Verdict(rt, before + [last])
  {
    assert AnyCritical(before + [last]) <==> AnyCritical(before) || last.Critical? by {
      if AnyCritical(before) {
        var c :| c in before && c.Critical?;
        assert c in before + [last];
      }
      assert last in before + [last];
    }
    if before != [] { assert before[|before| - 1] in before; }
  }

  /** Main result: after any series of runs the state is decided by the last run and by whether any was
      critical. SAFE_MODE entered for another reason survives exactly while no run is critical; the same
      holds of EMERGENCY_STOPPED, which a critical run followed by a clean one turns into RUNNING. */
  lemma {:induction false} RunsEndAsVerdict(rt: Runtime, runs: seq<Conclusion>)
    ensures AfterRuns(rt, runs) == Verdict(rt, runs)
  {
    if runs == [] {
    } else {
      var before, last := runs[..|runs| - 1], runs[|runs| - 1];
      RunsEndAsVerdict(rt, before);
      VerdictStep(rt, before, last);
      assert runs == before + [last];
    }
  }

  lemma EmergencyStopCanBeLost(rt: Runtime, counts: string)
    requires rt.runState == EmergencyStopped
    ensures AfterRuns(rt, [Critical(counts), NoneCritical]) == Runtime(Running, None)
  {
    var runs := [Critical(counts), NoneCritical];
    RunsEndAsVerdict(rt, runs);
    assert runs[0] in runs;
  }

  // ---------- everything that writes a tenant's run state ----------

  /** A reconciliation's conclusion, what the API does for the tenant's administrator, or an emergency close that
      failed, which writes the row `default`: the tenant's own where a migration gave it to that tenant. */
  datatype Write =
    | Concluded(conclusion: Conclusion) | BotStart | BotStop | EmergencyStop | EmergencyCloseFailed(symbol: string)

  function CloseFailedReason(symbol: string): string {
    symbol + " korumasiz pozisyon kapatilamadi, manuel mudahale gerekli"
  }

  /** The bot_runtime_status row that get_or_create_bot_runtime supplies. */
  function RowOf(rt: Option<Runtime>): Runtime { if rt.Some? then rt.value else Runtime(Stopped, None) }

  function Written(rt: Option<Runtime>, w: Write): Option<Runtime> {
    var row := RowOf(rt);
    match w
    case Concluded(c) => Some(AfterRun(row, c))
    case BotStart => if row.runState == SafeMode then Some(row) else Some(row.(runState := Running))
    case BotStop => if row.runState == Running then Some(row.(runState := Stopped)) else Some(row)
    case EmergencyStop => Some(row.(runState := EmergencyStopped))
    case EmergencyCloseFailed(symbol) =>
      if rt.None? then None else Some(Runtime(SafeMode, Some(CloseFailedReason(symbol))))
  }

  function AfterWrites(rt: Option<Runtime>, ws: seq<Write>): Option<Runtime> {
    if ws == [] then rt else Written(AfterWrites(rt, ws[..|ws| - 1]), ws[|ws| - 1])
  }

  /** The states in which the gate of tenant_trade_cycle returns; a trade cycle tolerates a missing row. */
  predicate Gated(rt: Option<Runtime>) {
    rt.Some? && (rt.value.runState == SafeMode || rt.value.runState == EmergencyStopped)
  }

  predicate Gating(w: Write) { w.EmergencyStop? || w.EmergencyCloseFailed? || (w.Concluded? && w.conclusion.Critical?) }

  /** The tenant has a row: every write but that of an emergency close creates a missing one. */
  predicate RowThere(rt: Option<Runtime>, ws: seq<Write>) {
    rt.Some? || exists k :: 0 <= k < |ws| && !ws[k].EmergencyCloseFailed?
  }

  /** The later write lifts what the gating one did: starting the bot ends an emergency stop, a reconciliation
      without critical mismatches ends a SAFE_MODE whose reason is a reconciliation's. */
  predicate Lifts(later: Write, gating: Write) {
    if gating.EmergencyStop? then later.BotStart?
    else
      later.Concluded? && later.conclusion.NoneCritical?
      && (gating.EmergencyCloseFailed? ==> Contains(CloseFailedReason(gating.symbol), RECONCILIATION))
  }

  /** Write j gates the tenant's row and stands: none after it gates again or lifts it. */
  predicate Stands(rt: Option<Runtime>, ws: seq<Write>, j: nat) {
    && j < |ws| && Gating(ws[j]) && (ws[j].EmergencyCloseFailed? ==> RowThere(rt, ws[..j]))
    && forall k :: j < k < |ws| ==> !Gating(ws[k]) && !Lifts(ws[k], ws[j])
  }

  /** Read off the writes alone: some gating write stands. */
  predicate GateStands(rt: Option<Runtime>, ws: seq<Write>) { exists j :: 0 <= j < |ws| && Stands(rt, ws, j) }

  /** The row is as the gating write left it. */
  predicate LeftBy(rt: Option<Runtime>, gating: Write) {
    rt.Some? &&
    match gating
    case EmergencyStop => rt.value.runState == EmergencyStopped
    case EmergencyCloseFailed(symbol) => rt == Some(Runtime(SafeMode, Some(CloseFailedReason(symbol))))
    case Concluded(Critical(counts)) => rt == Some(Runtime(SafeMode, Some(MismatchReason(counts))))
    case _ => false
  }

  /** One write more: what stood stands on unless it is lifted or replaced. */
  lemma WriteKeepsGate(rt: Option<Runtime>, gating: Write, w: Write)
    requires Gating(gating) && LeftBy(rt, gating)
    ensures if Gating(w) then LeftBy(Written(rt, w), w)
            else if Lifts(w, gating) then !Gated(Written(rt, w)) else LeftBy(Written(rt, w), gating)
  {
    if gating.Concluded? { assert HoldsReconciliation(rt.value); }
  }

  lemma WriteFromOpenGate(rt: Option<Runtime>, w: Write)
    requires !Gated(rt)
    ensures if Gating(w) && (w.EmergencyCloseFailed? ==> rt.Some?) then LeftBy(Written(rt, w), w)
            else !Gated(Written(rt, w))
  {
  }

  lemma OneMoreStands(rt: Option<Runtime>, ws: seq<Write>, w: Write)
    ensures Stands(rt, ws + [w], |ws|) <==> Gating(w) && (w.EmergencyCloseFailed? ==> RowThere(rt, ws))
    ensures forall j :: 0 <= j < |ws| ==>
                          (Stands(rt, ws + [w], j) <==> Stands(rt, ws, j) && !Gating(w) && !Lifts(w, ws[j]))
  {
    var more := ws + [w];
    assert more[..|ws|] == ws;
    forall j | 0 <= j < |ws|
      ensures Stands(rt, more, j) <==> Stands(rt, ws, j) && !Gating(w) && !Lifts(w, ws[j])
    {
      assert more[..j] == ws[..j];
      if Stands(rt, more, j) {
        assert more[|ws|] == w;
        forall k | j < k < |ws| ensures !Gating(ws[k]) && !Lifts(ws[k], ws[j]) { assert more[k] == ws[k]; }
      }
    }
  }

  lemma OneMoreRow(rt: Option<Runtime>, ws: seq<Write>, w: Write)
    ensures RowThere(rt, ws + [w]) <==> RowThere(rt, ws) || !w.EmergencyCloseFailed?
  {
    var more := ws + [w];
    assert more[|ws|] == w;
    if k :| 0 <= k < |ws| && !ws[k].EmergencyCloseFailed? { assert more[k] == ws[k]; }
  }

  /** The write that stands, followed one write at a time. */
  function Standing(rt: Option<Runtime>, ws: seq<Write>): Option<Write> {
    if ws == [] then None
    else
      var before, w := ws[..|ws| - 1], ws[|ws| - 1];
      var it := Standing(rt, before);
      if Gating(w) && (w.EmergencyCloseFailed? ==> RowThere(rt, before)) then Some(w)
      else if it.Some? && Lifts(w, it.value) then None
      else it
  }

  lemma {:induction false} StandingIsGating(rt: Option<Runtime>, ws: seq<Write>)
    ensures Standing(rt, ws).Some? ==> Gating(Standing(rt, ws).value) && RowThere(rt, ws)
    decreases |ws|
  {
    if ws == [] {
    } else {
      StandingIsGating(rt, ws[..|ws| - 1]);
      assert ws == ws[..|ws| - 1] + [ws[|ws| - 1]];
      OneMoreRow(rt, ws[..|ws| - 1], ws[|ws| - 1]);
    }
  }

  lemma {:induction false} StandsMeansStanding(rt: Option<Runtime>, ws: seq<Write>, j: nat)
    requires Stands(rt, ws, j)
    ensures Standing(rt, ws) == Some(ws[j])
    decreases |ws|
  {
    var before, w := ws[..|ws| - 1], ws[|ws| - 1];
    assert ws == before + [w];
    OneMoreStands(rt, before, w);
    if j < |before| { StandsMeansStanding(rt, before, j); }
  }

  lemma {:induction false} StandingStands(rt: Option<Runtime>, ws: seq<Write>) returns (j: nat)
    requires Standing(rt, ws).Some?
    ensures Stands(rt, ws, j)
    decreases |ws|
  {
    var before, w := ws[..|ws| - 1], ws[|ws| - 1];
    assert ws == before + [w];
    OneMoreStands(rt, before, w);
    StandingIsGating(rt, before);
    if Gating(w) {
      j := |before|;
    } else {
      j := StandingStands(rt, before);
      StandsMeansStanding(rt, before, j);
    }
  }

  lemma OneMoreWrite(rt: Option<Runtime>, ws: seq<Write>, w: Write)
    ensures AfterWrites(rt, ws + [w]) == Written(AfterWrites(rt, ws), w)
  {
    assert (ws + [w])[..|ws|] == ws;
  }

  /** The row follows the writes: there or not, and as the write that stands left it, or not gated. */
  lemma {:induction false} RowFollows(rt: Option<Runtime>, ws: seq<Write>)
    requires !Gated(rt)
    ensures AfterWrites(rt, ws).Some? <==> RowThere(rt, ws)
    ensures if Standing(rt, ws).Some? then LeftBy(AfterWrites(rt, ws), Standing(rt, ws).value)
            else !Gated(AfterWrites(rt, ws))
    decreases |ws|
  {
    if ws == [] {
    } else {
      var before, w := ws[..|ws| - 1], ws[|ws| - 1];
      assert ws == before + [w];
      RowFollows(rt, before);
      OneMoreRow(rt, before, w);
      StandingIsGating(rt, before);
      if Standing(rt, before).Some? {
        WriteKeepsGate(AfterWrites(rt, before), Standing(rt, before).value, w);
      } else {
        WriteFromOpenGate(AfterWrites(rt, before), w);
      }
    }
  }

  /** Main result of the writes: from an open gate, they leave the tenant gated exactly when a gating write among
      them stands. */
  lemma GatedIff(rt: Option<Runtime>, ws: seq<Write>)
    requires !Gated(rt)
    ensures Gated(AfterWrites(rt, ws)) <==> GateStands(rt, ws)
  {
    RowFollows(rt, ws);
    if Standing(rt, ws).Some? { var j := StandingStands(rt, ws); }
    if j :| 0 <= j < |ws| && Stands(rt, ws, j) { StandsMeansStanding(rt, ws, j); }
  }

  // ---------- trade cycles among those writes: the gate is read once, the open comes some awaits later ----------

  datatype GateInputs = GateInputs(settingsFound: bool, modeMatches: bool, botEnabled: bool)

  /** `raises`: the open call ends in an error other than PositionOpenSkipped. */
  datatype OpenInputs = OpenInputs(signalPicked: bool, autoTradingEnabled: bool, lockAcquired: bool, raises: bool)

  datatype Step = GateRead(cycle: nat, gate: GateInputs) | Open(cycle: nat, inputs: OpenInputs) | Other(write: Write)

  /** `passed`: the cycles past their gate and before their open; `opens`: for each open call made, whether the
      tenant was gated at that moment. */
  datatype State = State(runtime: Option<Runtime>, passed: set<nat>, opens: seq<bool>)

  predicate Lets(g: GateInputs) { g.settingsFound && g.modeMatches && g.botEnabled }

  predicate Opens(o: OpenInputs) { o.signalPicked && o.autoTradingEnabled && o.lockAcquired }

  function Next(s: State, step: Step): State {
    match step
    case GateRead(c, g) => s.(passed := if Lets(g) && !Gated(s.runtime) then s.passed + {c} else s.passed - {c})
    case Open(c, o) =>
      if c !in s.passed then s
      else s.(passed := s.passed - {c}, opens := if Opens(o) then s.opens + [Gated(s.runtime)] else s.opens)
    case Other(w) => s.(runtime := Written(s.runtime, w))
  }

  function Run(s: State, steps: seq<Step>): State {
    if steps == [] then s else Next(Run(s, steps[..|steps| - 1]), steps[|steps| - 1])
  }

  function WritesOf(steps: seq<Step>): seq<Write> {
    if steps == [] then []
    else WritesOf(steps[..|steps| - 1]) + if steps[|steps| - 1].Other? then [steps[|steps| - 1].write] else []
  }

  lemma {:induction false} RuntimeIsWrites(s: State, steps: seq<Step>)
    ensures Run(s, steps).runtime == AfterWrites(s.runtime, WritesOf(steps))
    decreases |steps|
  {
    if steps == [] {
    } else {
      var before, last := steps[..|steps| - 1], steps[|steps| - 1];
      RuntimeIsWrites(s, before);
      if last.Other? {
        OneMoreWrite(s.runtime, WritesOf(before), last.write);
      } else {
        assert WritesOf(before) + [] == WritesOf(before);
      }
    }
  }

  lemma {:induction false} RunJoin(s: State, a: seq<Step>, b: seq<Step>)
    ensures Run(s, a + b) == Run(Run(s, a), b)
    decreases |b|
  {
    if b == [] {
      assert a + b == a;
    } else {
      assert (a + b)[..|a + b| - 1] == a + b[..|b| - 1];
      RunJoin(s, a, b[..|b| - 1]);
    }
  }

  predicate OfCycle(step: Step, c: nat) { !step.Other? && step.cycle == c }

  /** A cycle that is past its gate read it last at some step g, in a state that was not gated. */
  lemma {:induction false} PassedByGate(start: Option<Runtime>, steps: seq<Step>, c: nat) returns (g: nat)
    requires c in Run(State(start, {}, []), steps).passed
    ensures g < |steps| && steps[g].GateRead? && steps[g].cycle == c
    ensures forall k :: g < k < |steps| ==> !OfCycle(steps[k], c)
    ensures !Gated(Run(State(start, {}, []), steps[..g]).runtime)
    decreases |steps|
  {
    var before, last := steps[..|steps| - 1], steps[|steps| - 1];
    if last.GateRead? && last.cycle == c {
      g := |steps| - 1;
    } else {
      g := PassedByGate(start, before, c);
      assert before[..g] == steps[..g];
    }
  }

  /** Main result: on every schedule, an open call of a cycle past its gate is made while the tenant is in
      SAFE_MODE or EMERGENCY_STOPPED exactly when a write that gates it lies between the cycle's look at the run
      state and the open, and none after that gates again or lifts it. */
  lemma GatedOpenIff(start: Option<Runtime>, steps: seq<Step>, c: nat, o: OpenInputs) returns (g: nat)
    requires c in Run(State(start, {}, []), steps).passed && Opens(o)
    ensures g < |steps| && steps[g].GateRead? && steps[g].cycle == c
    ensures forall k :: g < k < |steps| ==> !OfCycle(steps[k], c)
    ensures var s, seen := Run(State(start, {}, []), steps), Run(State(start, {}, []), steps[..g]).runtime;
            && !Gated(seen)
            && Next(s, Open(c, o)).opens == s.opens + [GateStands(seen, WritesOf(steps[g + 1..]))]
  {
    g := PassedByGate(start, steps, c);
    var at := Run(State(start, {}, []), steps[..g]);
    var rest := steps[g + 1..];
    assert steps == steps[..g] + ([steps[g]] + rest);
    RunJoin(State(start, {}, []), steps[..g], [steps[g]] + rest);
    RunJoin(at, [steps[g]], rest);
    assert Run(at, [steps[g]]) == Next(at, steps[g]) by { assert [steps[g]][..0] == []; }
    RuntimeIsWrites(Next(at, steps[g]), rest);
    GatedIff(at.runtime, WritesOf(rest));
  }

  /** The schedule: a cycle passes its gate, a critical reconciliation ends, the cycle opens in SAFE_MODE. */
  lemma OpensInSafeMode(counts: string)
    ensures var g, o := GateInputs(true, true, true), OpenInputs(true, true, true, false);
            var e := Run(State(Some(Runtime(Running, None)), {}, []),
                         [GateRead(0, g), Other(Concluded(Critical(counts))), Open(0, o)]);
            e.opens == [true] && e.runtime == Some(Runtime(SafeMode, Some(MismatchReason(counts))))
  {
    var s := State(Some(Runtime(Running, None)), {}, []);
    var a := GateRead(0, GateInputs(true, true, true));
    var b, c := Other(Concluded(Critical(counts))), Open(0, OpenInputs(true, true, true, false));
    assert [a, b, c][..2] == [a, b] && [a, b][..1] == [a] && [a][..0] == [];
    assert Run(s, [a]) == Next(s, a);
    assert Run(s, [a, b]) == Next(Next(s, a), b);
  }

  /** The write leaves a gated tenant gated when its reason is not a reconciliation's. */
  predicate Harmless(w: Write) { w.BotStop? || (w.Concluded? && w.conclusion.NoneCritical?) }

  /** Once the tenant is gated for another reason and every cycle past its gate is over, any schedule of further
      cycles, reconciliations without critical mismatches and stops opens nothing and keeps the reason. */
  lemma {:induction false} StaysClosed(rt: Runtime, steps: seq<Step>)
    requires Gated(Some(rt)) && !HoldsReconciliation(rt)
    requires forall x :: x in steps && x.Other? ==> Harmless(x.write)
    ensures Run(State(Some(rt), {}, []), steps) == State(Some(rt), {}, [])
    decreases |steps|
  {
    if steps == [] {
    } else {
      assert steps[|steps| - 1] in steps;
      StaysClosed(rt, steps[..|steps| - 1]);
    }
  }

  /** How a trade cycle ends. */
  datatype CycleEnd = NotOpened | Opened | Failed

  class Tenant {
    var runtime: Option<Runtime>
    /** This cycle holds the tenant's lock. */
    var lockHeld: bool
    /** For each open call, whether the tenant was gated at that moment. */
    var opens: seq<bool>

    constructor (runtime: Option<Runtime>)
      ensures this.runtime == runtime && opens == [] && !lockHeld
    {
      this.runtime, opens, lockHeld := runtime, [], false;
    }

    /** The end of run_reconciliation. */
    method ConcludeReconciliation(mismatches: seq<Mismatch>, counts: string) returns (enteredSafeMode: bool)
      modifies this`runtime
      ensures enteredSafeMode <==> exists m :: m in mismatches && IsCritical(m)
      ensures runtime == Written(old(runtime), Concluded(if enteredSafeMode then Critical(counts) else NoneCritical))
    {
      var rt := if runtime.Some? then runtime.value else Runtime(Stopped, None);
      var critical := CriticalMismatches(mismatches);
      enteredSafeMode := |critical| > 0;
      if enteredSafeMode {
        assert critical[0] in mismatches;
        rt := rt.(runState := SafeMode, safeModeReason := Some(MismatchReason(counts)));
      } else {
        forall m | m in mismatches ensures !IsCritical(m) { assert m !in critical; }
        if rt.runState == SafeMode && rt.safeModeReason.Some? && Contains(rt.safeModeReason.value, RECONCILIATION) {
          rt := rt.(runState := Running, safeModeReason := None);
        }
      }
      runtime := Some(rt);
    }

    /** What other tasks and processes write while this one waits. */
    method Wait(meanwhile: seq<Write>)
      modifies this`runtime
      ensures runtime == AfterWrites(old(runtime), meanwhile)
    {
      var k := 0;
      while k < |meanwhile|
        invariant 0 <= k <= |meanwhile|
        invariant runtime == AfterWrites(old(runtime), meanwhile[..k])
      {
        OneMoreWrite(old(runtime), meanwhile[..k], meanwhile[k]);
        assert meanwhile[..k + 1] == meanwhile[..k] + [meanwhile[k]];
        runtime := Written(runtime, meanwhile[k]);
        k := k + 1;
      }
      assert meanwhile[..k] == meanwhile;
    }

    /** tenant_trade_cycle. `meanwhile` is written during the awaits between its look at the run state and its
        open call. The lock is held for the open and given back however that ends. */
    method RunTradeCycle(g: GateInputs, meanwhile: seq<Write>, o: OpenInputs) returns (end: CycleEnd)
      requires !lockHeld
      modifies this
      ensures !lockHeld
      ensures end != NotOpened <==> Lets(g) && !Gated(old(runtime)) && Opens(o)
      ensures end == Failed ==> o.raises
      ensures end == NotOpened ==> opens == old(opens)
      ensures end != NotOpened ==>
                && runtime == AfterWrites(old(runtime), meanwhile)
                && opens == old(opens) + [GateStands(old(runtime), meanwhile)]
    {
      if !g.settingsFound || !g.modeMatches { return NotOpened; }
      if runtime.Some? && (runtime.value.runState == SafeMode
                           || runtime.value.runState == EmergencyStopped) { return NotOpened; }
      if !g.botEnabled { return NotOpened; }
      GatedIff(runtime, meanwhile);
      Wait(meanwhile);
      if !o.signalPicked || !o.autoTradingEnabled { return NotOpened; }
      if !o.lockAcquired { return NotOpened; }
      lockHeld := true;
      end := CallOpen(o);
      lockHeld := false;
    }

    /** The open call inside the lock; a skipped position is no error. */
    method CallOpen(o: OpenInputs) returns (end: CycleEnd)
      requires lockHeld
      modifies this`opens
      ensures opens == old(opens) + [Gated(runtime)] && end == if o.raises then Failed else Opened
    {
      opens := opens + [Gated(runtime)];
      end := if o.raises then Failed else Opened;
    }
  }
}
