/** Software exit rules of `shared/position_exit.py` and their run by the monitor's peak map. */
module PositionExit {
  import opened DecimalUtils

  datatype CloseReason = TakeProfit | StopLoss | TrailingStop

  datatype ExitRules = ExitRules(
    takeProfitRoiPct: real, stopLossRoiPct: real, trailingEnabled: bool,
    activationRoiPct: real, callbackPct: real)

  /** evaluate_position_exit: the decision (None: keep the position) and the updated peak. */
  function EvaluatePositionExit(roi: real, peakBefore: real, r: ExitRules): (Option<CloseReason>, real) {
    var peak := Max(peakBefore, roi);
    if roi >= r.takeProfitRoiPct then (Some(TakeProfit), peak)
    else if roi <= -r.stopLossRoiPct then (Some(StopLoss), peak)
    else if r.trailingEnabled && peak >= r.activationRoiPct then
      if peak - roi >= r.callbackPct then (Some(TrailingStop), peak)
      else if roi <= 0.0 then (Some(TrailingStop), peak)
      else (None, peak)
    else (None, peak)
  }

  datatype Exit = StillOpen | ExitAt(index: nat, reason: CloseReason)

  // ---------- offline: look at the whole series ----------

  function MaxOf(rois: seq<real>): (m: real)
    requires rois != []
    ensures m in rois && forall x :: x in rois ==> x <= m
  {
    if |rois| == 1 then rois[0]
    else
      var before, last := rois[..|rois| - 1], rois[|rois| - 1];
      assert rois == before + [last];
      Max(MaxOf(before), last)
  }

  /** The rule that fires for a ROI at a given running maximum, as the rules' documentation states it. */
  function Rule(roi: real, highest: real, r: ExitRules): Option<CloseReason> {
    if r.takeProfitRoiPct <= roi then Some(TakeProfit)
    else if roi + r.stopLossRoiPct <= 0.0 then Some(StopLoss)
    else if r.trailingEnabled && r.activationRoiPct <= highest && (roi <= highest - r.callbackPct || roi <= 0.0) then
      Some(TrailingStop)
    else None
  }

  function RuleAt(rois: seq<real>, i: nat, r: ExitRules): Option<CloseReason>
    requires i < |rois|
  {
    Rule(rois[i], MaxOf(rois[..i + 1]), r)
  }

  predicate IsFirstExit(rois: seq<real>, r: ExitRules, e: Exit) {
    match e
    case StillOpen => forall j :: 0 <= j < |rois| ==> RuleAt(rois, j, r) == None
    case ExitAt(i, reason) =>
      i < |rois| && RuleAt(rois, i, r) == Some(reason) && forall j :: 0 <= j < i ==> RuleAt(rois, j, r) == None
  }

  lemma EvaluateIsRule(roi: real, peakBefore: real, r: ExitRules)
    ensures EvaluatePositionExit(roi, peakBefore, r) == (Rule(roi, Max(peakBefore, roi), r), Max(peakBefore, roi))
  {
  }

  lemma ExitIsUnique(rois: seq<real>, r: ExitRules, e: Exit, f: Exit)
    requires IsFirstExit(rois, r, e) && IsFirstExit(rois, r, f)
    ensures e == f
  {
  }

  // ---------- online: the monitor's peak map ----------

  /** The `_peak_roi_by_position` dictionary and the two functions that use it. */
  class PeakMap {
    var peaks: map<string, real>

    constructor ()
      ensures peaks == map[]
    {
      peaks := map[];
    }

    /** _register_open_position. */
    method Register(id: string, roi: real)
      modifies this
      ensures peaks == old(peaks)[id := if id in old(peaks) then Max(old(peaks[id]), roi) else roi]
    {
      var existing := if id in peaks then peaks[id] else roi;
      peaks := peaks[id := if existing > roi then existing else roi];
    }

    /** _unregister_position. */
    method Unregister(id: string)
      modifies this
      ensures peaks == old(peaks) - {id}
    {
      peaks := peaks - {id};
    }

    /** The exit half of _evaluate_and_maybe_close. */
    method Evaluate(id: string, roi: real, r: ExitRules) returns (decision: Option<CloseReason>)
      modifies this
      ensures (decision, if id in peaks then peaks[id] else roi)
              == EvaluatePositionExit(roi, if id in old(peaks) then old(peaks[id]) else roi, r)
      ensures id in peaks && peaks - {id} == old(peaks) - {id}
    {
      var peak := if id in peaks then peaks[id] else roi;
      var (d, updated) := EvaluatePositionExit(roi, peak, r);
      peaks := peaks[id := updated];
      decision := d;
    }

    /** A position watched from registration until it exits or the series ends, other positions alone. */
    method Watch(id: string, rois: seq<real>, r: ExitRules) returns (e: Exit)
      requires id !in peaks
      modifies this
      ensures IsFirstExit(rois, r, e)
      ensures e == StillOpen && rois != [] ==> id in peaks && peaks[id] == MaxOf(rois)
      ensures e.ExitAt? ==> id !in peaks
      ensures peaks - {id} == old(peaks) - {id}
    {
      var i := 0;
      while i < |rois|
        invariant 0 <= i <= |rois|
        invariant forall j :: 0 <= j < i ==> RuleAt(rois, j, r) == None
        invariant if i == 0 then id !in peaks else id in peaks && peaks[id] == MaxOf(rois[..i])
        invariant peaks - {id} == old(peaks) - {id}
      {
        var roi := rois[i];
        assert rois[..i + 1][..i] == rois[..i];
        Register(id, roi);
        EvaluateIsRule(roi, peaks[id], r);
        var decision := Evaluate(id, roi, r);
        if decision.Some? {
          Unregister(id);
          return ExitAt(i, decision.value);
        }
        i := i + 1;
      }
      assert rois[..|rois|] == rois;
      e := StillOpen;
    }
  }

  // ---------- properties of the rules over whole series ----------

  /** When the callback is not larger than the activation level, the break-even lock never decides:
      dropping the clause `roi <= 0` changes no decision. */
  lemma BreakEvenNeverDecides(roi: real, peak: real, r: ExitRules)
    requires r.callbackPct <= r.activationRoiPct
    ensures Rule(roi, peak, r)
            == if r.takeProfitRoiPct <= roi then Some(TakeProfit)
               else if roi + r.stopLossRoiPct <= 0.0 then Some(StopLoss)
               else if r.trailingEnabled && r.activationRoiPct <= peak && roi <= peak - r.callbackPct then
                 Some(TrailingStop)
               else None
  {
  }

  /** Outside that case it does decide: with callback above activation some ROI exits only through it. */
  lemma BreakEvenDecidesOtherwise(r: ExitRules)
    requires r.trailingEnabled && r.callbackPct > r.activationRoiPct >= 0.0
    requires r.takeProfitRoiPct > 0.0 && r.stopLossRoiPct > 0.0
    ensures Rule(0.0, r.activationRoiPct, r) == Some(TrailingStop) && !(0.0 <= r.activationRoiPct - r.callbackPct)
  {
  }

  /** A larger callback never exits earlier, and exits at the same tick for the same reason. */
  lemma LargerCallbackExitsLater(rois: seq<real>, r: ExitRules, callback: real, e: Exit, f: Exit)
    requires callback >= r.callbackPct
    requires IsFirstExit(rois, r, e) && IsFirstExit(rois, r.(callbackPct := callback), f)
    ensures f.ExitAt? ==> e.ExitAt? && e.index <= f.index
    ensures f.ExitAt? && e.ExitAt? && e.index == f.index ==> e.reason == f.reason
  {
    if f.ExitAt? {
      assert RuleAt(rois, f.index, r) == RuleAt(rois, f.index, r.(callbackPct := callback));
    }
  }
}
