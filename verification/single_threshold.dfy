/** The single-threshold adaptive-DBS controller (nodes/aDBS/single_threshold.py).

    Every biomarker value drives a detection-blank refractory counter, two
    dwell counters (cycles above and below the threshold), a trigger state,
    a stimulation state and a linear amplitude ramp; an external start/stop
    switch gates all of it.  The pure functions below give one step of each
    source method on a `ControlState` value; the class `SingleThreshold`
    holds the same state in fields and its methods are proved to perform
    exactly those steps.  Multi-cycle properties are lemmas about `RunOn`. */
module AdbsSingleThreshold {
  import opened Common

  datatype StimState = Low | High
  datatype TriggerState = NoTrigger | Onset | Termination
  datatype StimSwitch = On | Off
  datatype Direction = Up | Down

  /** Which dwell counter a threshold comparison feeds. */
  datatype Side = AboveSide | BelowSide

  /** The configured attributes, periods already converted to loop counts. */
  datatype Params = Params(
    detectionBlankPeriod: nat,
    onsetPeriod: nat,
    terminationPeriod: nat,
    rampPeriod: nat,
    threshold: real,
    stimAmpLow: real,
    stimAmpHigh: real)

  /** Construction divides by the ramp period. */
  datatype ConfigError = ZeroRampPeriod

  datatype ControlState = ControlState(
    loopsInDetectionBlank: nat,
    loopsAboveThreshold: nat,
    loopsBelowThreshold: nat,
    loopsRamp: nat,
    stimState: StimState,
    triggerState: TriggerState,
    inDetectionBlank: bool,
    stimAmp: real,
    stimSwitch: StimSwitch)

  /** One biomarker package: the value of its first cell and its lineage id. */
  datatype BiomarkerPackage = BiomarkerPackage(value: Sample, packageId: int)

  /** One output row: the commanded amplitude, tagged with the input's id. */
  datatype StimOutput = StimOutput(stimAmp: real, packageId: int)

  function RampStepSize(p: Params): real
    requires p.rampPeriod > 0
  {
    (p.stimAmpHigh - p.stimAmpLow) / (p.rampPeriod as real)
  }

  /** What holds between any two cycles of a correctly constructed controller. */
  predicate Inv(p: Params, s: ControlState)
  {
    && p.rampPeriod > 0
    && s.loopsInDetectionBlank <= p.detectionBlankPeriod
    && (!s.inDetectionBlank ==> s.loopsInDetectionBlank == 0)
    && (s.loopsAboveThreshold == 0 || s.loopsBelowThreshold == 0)
    && s.loopsRamp < p.rampPeriod
    && (s.triggerState == Onset ==> s.stimState == Low)
    && (s.triggerState == Termination ==> s.stimState == High)
    && (s.inDetectionBlank ==> s.triggerState == NoTrigger)
    && (s.stimSwitch == Off ==>
          s.stimAmp == 0.0 && s.stimState == Low && s.triggerState == NoTrigger && s.inDetectionBlank)
  }

  /** `__init__`: the housekeeping and state attributes, or the error that the
      division by a zero ramp period raises. */
  function Init(p: Params): (r: Result<ControlState, ConfigError>)
    ensures r.Err? <==> p.rampPeriod == 0
    ensures r.Ok? ==> Inv(p, r.value)
    ensures r.Ok? ==>
      && r.value.loopsInDetectionBlank == 0 && r.value.loopsAboveThreshold == 0
      && r.value.loopsBelowThreshold == 0 && r.value.loopsRamp == 0
      && r.value.stimState == Low && r.value.triggerState == NoTrigger
      && r.value.inDetectionBlank && r.value.stimAmp == 0.0 && r.value.stimSwitch == Off
  {
    if p.rampPeriod == 0 then Err(ZeroRampPeriod)
    else Ok(ControlState(0, 0, 0, 0, Low, NoTrigger, true, 0.0, Off))
  }

  /** `update_detection_blank`. */
  function BlankStep(p: Params, s: ControlState): ControlState
  {
    if s.loopsInDetectionBlank == p.detectionBlankPeriod then
      s.(inDetectionBlank := false, loopsInDetectionBlank := 0)
    else if s.loopsInDetectionBlank < p.detectionBlankPeriod then
      s.(inDetectionBlank := true, loopsInDetectionBlank := s.loopsInDetectionBlank + 1)
    else
      s
  }

  /** `update_threshold_loop_counter`, instantiated for one of its two call
      sites.  The statement that reads like a reset of the trigger state is a
      comparison in the source and changes nothing. */
  function CountStep(p: Params, s: ControlState, side: Side): ControlState
  {
    match side
    case AboveSide =>
      var c := s.(loopsAboveThreshold := s.loopsAboveThreshold + 1, loopsBelowThreshold := 0);
      if c.loopsAboveThreshold >= p.onsetPeriod && c.stimState == Low then c.(triggerState := Onset) else c
    case BelowSide =>
      var c := s.(loopsBelowThreshold := s.loopsBelowThreshold + 1, loopsAboveThreshold := 0);
      if c.loopsBelowThreshold >= p.terminationPeriod && c.stimState == High then c.(triggerState := Termination) else c
  }

  /** `set_trigger_state`: the blank, or one threshold comparison.  A NaN value
      satisfies neither comparison and leaves the state as it is. */
  function TriggerStep(p: Params, s: ControlState, value: Sample): ControlState
  {
    if s.inDetectionBlank then BlankStep(p, s)
    else if Exceeds(value, p.threshold) then CountStep(p, s, AboveSide)
    else if AtOrBelow(value, p.threshold) then CountStep(p, s, BelowSide)
    else s
  }

  function Target(dir: Direction): StimState
  {
    if dir == Up then High else Low
  }

  function Leaves(dir: Direction): StimState
  {
    if dir == Up then Low else High
  }

  function Goal(dir: Direction): TriggerState
  {
    if dir == Up then Onset else Termination
  }

  function SignedStep(p: Params, dir: Direction): real
    requires p.rampPeriod > 0
  {
    if dir == Up then RampStepSize(p) else -RampStepSize(p)
  }

  /** `ramp_stim`. */
  function RampStep(p: Params, s: ControlState, dir: Direction): ControlState
    requires p.rampPeriod > 0
  {
    var r := s.(stimAmp := s.stimAmp + SignedStep(p, dir), loopsRamp := s.loopsRamp + 1);
    if r.loopsRamp == p.rampPeriod then
      r.(stimState := Target(dir), triggerState := NoTrigger, loopsRamp := 0, inDetectionBlank := true)
    else
      r
  }

  /** `check_stim_switch`: "start" turns the switch on; "stop" turns it off and
      forces the fail-safe reset; any other command changes nothing.  The four
      loop counters are never touched. */
  function SwitchStep(s: ControlState, cmd: string): ControlState
  {
    if cmd == "start" then s.(stimSwitch := On)
    else if cmd == "stop" then
      s.(stimSwitch := Off, stimState := Low, triggerState := NoTrigger, inDetectionBlank := true, stimAmp := 0.0)
    else s
  }

  /** The state change one biomarker value causes in `update`. */
  function BiomarkerStep(p: Params, s: ControlState, value: Sample): (r: ControlState)
    requires p.rampPeriod > 0
    ensures Inv(p, s) ==> Inv(p, r)
    ensures s.stimSwitch == Off ==> r == s
    ensures r.stimSwitch == s.stimSwitch
  {
    if s.stimSwitch == On then
      var t := TriggerStep(p, s, value);
      if t.stimState == Low && t.triggerState == Onset then RampStep(p, t, Up)
      else if t.stimState == High && t.triggerState == Termination then RampStep(p, t, Down)
      else t
    else s
  }

  /** One call of `update`: the switch input first, then the biomarker input;
      an output row is produced exactly when a biomarker package arrived. */
  function Cycle(p: Params, s: ControlState, switchIn: Option<string>, biomarker: Option<BiomarkerPackage>)
    : (r: (ControlState, Option<StimOutput>))
    requires p.rampPeriod > 0
    ensures Inv(p, s) ==> Inv(p, r.0)
    ensures r.1.Some? <==> biomarker.Some?
    ensures biomarker.Some? ==> r.1.value == StimOutput(r.0.stimAmp, biomarker.value.packageId)
    ensures Inv(p, s) && r.0.stimSwitch == Off && r.1.Some? ==> r.1.value.stimAmp == 0.0
  {
    var s1 := if switchIn.Some? then SwitchStep(s, switchIn.value) else s;
    if biomarker.Some? then
      var s2 := BiomarkerStep(p, s1, biomarker.value.value);
      (s2, Some(StimOutput(s2.stimAmp, biomarker.value.packageId)))
    else
      (s1, None)
  }

  /** The state after one biomarker value per element of `values`, the switch
      staying as it is. */
  function RunOn(p: Params, s: ControlState, values: seq<Sample>): ControlState
    requires p.rampPeriod > 0
    decreases |values|
  {
    if values == [] then s else RunOn(p, BiomarkerStep(p, s, values[0]), values[1..])
  }

  // ---------------------------------------------------------------------
  // Switch

  /** While the switch is off a biomarker changes nothing, and the row it
      produces still carries amplitude 0 and the incoming package id. */
  lemma SwitchedOffCycle(p: Params, s: ControlState, b: BiomarkerPackage)
    requires Inv(p, s) && s.stimSwitch == Off
    ensures Cycle(p, s, None, Some(b)) == (s, Some(StimOutput(0.0, b.packageId)))
  {
  }

  /** "stop" is processed before the biomarker of the same cycle and is a
      fail-safe: whatever the ramp progress, the amplitude is 0, the state low,
      the trigger cleared and the blank re-entered, while the four loop
      counters keep their values. */
  lemma StopIsFailSafe(p: Params, s: ControlState, biomarker: Option<BiomarkerPackage>)
    requires Inv(p, s)
    ensures var r := Cycle(p, s, Some("stop"), biomarker);
      && r.0 == s.(stimSwitch := Off, stimState := Low, triggerState := NoTrigger,
                   inDetectionBlank := true, stimAmp := 0.0)
      && (biomarker.Some? ==> r.1 == Some(StimOutput(0.0, biomarker.value.packageId)))
  {
  }

  /** "start" only turns the switch on; any command other than "start" and
      "stop" leaves the state alone. */
  lemma SwitchCommands(p: Params, s: ControlState, cmd: string)
    requires p.rampPeriod > 0
    ensures cmd == "start" ==> Cycle(p, s, Some(cmd), None).0 == s.(stimSwitch := On)
    ensures cmd != "start" && cmd != "stop" ==> Cycle(p, s, Some(cmd), None).0 == s
  {
  }

  // ---------------------------------------------------------------------
  // Threshold comparison and trigger discipline

  /** Outside the blank a value above the threshold extends the above-count and
      clears the below-count, a value at or below does the reverse (equality
      counts as below), and NaN touches neither count. */
  lemma CounterRules(p: Params, s: ControlState, v: Sample)
    requires Inv(p, s) && s.stimSwitch == On && !s.inDetectionBlank
    ensures var r := BiomarkerStep(p, s, v);
      && (Exceeds(v, p.threshold) ==>
            r.loopsAboveThreshold == s.loopsAboveThreshold + 1 && r.loopsBelowThreshold == 0)
      && (AtOrBelow(v, p.threshold) ==>
            r.loopsBelowThreshold == s.loopsBelowThreshold + 1 && r.loopsAboveThreshold == 0)
      && (v.NaN? ==>
            r.loopsAboveThreshold == s.loopsAboveThreshold && r.loopsBelowThreshold == s.loopsBelowThreshold)
  {
  }

  /** The comparison never lowers the trigger to "none"; it raises "onset" only
      from a low stimulation state after at least `onsetPeriod` cycles above the
      threshold, and "termination" only from a high state after at least
      `terminationPeriod` cycles at or below it. */
  lemma TriggerRaisedOnlyByDwell(p: Params, s: ControlState, v: Sample)
    requires Inv(p, s)
    ensures var t := TriggerStep(p, s, v);
      && (t.triggerState == NoTrigger ==> s.triggerState == NoTrigger)
      && (t.triggerState != s.triggerState ==>
            || (t.triggerState == Onset && s.stimState == Low && Exceeds(v, p.threshold)
                && t.loopsAboveThreshold >= p.onsetPeriod)
            || (t.triggerState == Termination && s.stimState == High && AtOrBelow(v, p.threshold)
                && t.loopsBelowThreshold >= p.terminationPeriod))
  {
  }

  /** Within a cycle the trigger returns to "none" only by completing a ramp
      (which flips the stimulation state and re-enters the blank) or by "stop". */
  lemma TriggerClearedOnlyByRampOrStop(p: Params, s: ControlState, switchIn: Option<string>,
                                       b: BiomarkerPackage)
    requires Inv(p, s) && s.triggerState != NoTrigger
    ensures var r := Cycle(p, s, switchIn, Some(b)).0;
      r.triggerState == NoTrigger ==>
        || switchIn == Some("stop")
        || (r.stimState != s.stimState && r.inDetectionBlank && r.loopsRamp == 0)
  {
    var s1 := if switchIn.Some? then SwitchStep(s, switchIn.value) else s;
    if switchIn != Some("stop") {
      assert s1.triggerState == s.triggerState && s1.stimState == s.stimState;
      assert s1.stimSwitch == On;
      TriggerRaisedOnlyByDwell(p, s1, b.value);
    }
  }

  // ---------------------------------------------------------------------
  // Detection blank

  lemma {:induction false} RunOnAppend(p: Params, s: ControlState, a: seq<Sample>, b: seq<Sample>)
    requires p.rampPeriod > 0
    ensures RunOn(p, s, a + b) == RunOn(p, RunOn(p, s, a), b)
    decreases |a|
  {
    if a != [] {
      assert (a + b)[0] == a[0];
      assert (a + b)[1..] == a[1..] + b;
      RunOnAppend(p, BiomarkerStep(p, s, a[0]), a[1..], b);
    } else {
      assert a + b == b;
    }
  }

  /** Inside the blank each cycle only advances the blank counter, whatever the
      values, until the counter reaches the blank period. */
  lemma {:induction false} BlankCountsUp(p: Params, s: ControlState, values: seq<Sample>)
    requires Inv(p, s) && s.stimSwitch == On && s.inDetectionBlank
    requires s.loopsInDetectionBlank + |values| <= p.detectionBlankPeriod
    ensures RunOn(p, s, values) == s.(loopsInDetectionBlank := s.loopsInDetectionBlank + |values|)
    decreases |values|
  {
    if values != [] {
      var s1 := BiomarkerStep(p, s, values[0]);
      assert s1 == s.(loopsInDetectionBlank := s.loopsInDetectionBlank + 1);
      BlankCountsUp(p, s1, values[1..]);
    }
  }

  /** A blank entered with its counter at `c` lasts exactly
      `detectionBlankPeriod - c + 1` switched-on cycles (so
      `detectionBlankPeriod + 1` when entered at 0), none of which compares a
      value with the threshold; afterwards the counter is back at 0. */
  lemma BlankLength(p: Params, s: ControlState, values: seq<Sample>)
    requires Inv(p, s) && s.stimSwitch == On && s.inDetectionBlank
    requires |values| == p.detectionBlankPeriod - s.loopsInDetectionBlank + 1
    ensures forall k :: 0 <= k < |values| ==> RunOn(p, s, values[..k]).inDetectionBlank
    ensures RunOn(p, s, values) == s.(inDetectionBlank := false, loopsInDetectionBlank := 0)
  {
    forall k | 0 <= k < |values|
      ensures RunOn(p, s, values[..k]).inDetectionBlank
    {
      BlankCountsUp(p, s, values[..k]);
    }
    var n := |values| - 1;
    BlankCountsUp(p, s, values[..n]);
    RunOnAppend(p, s, values[..n], [values[n]]);
    assert values[..n] + [values[n]] == values;
    var m := RunOn(p, s, values[..n]);
    assert RunOn(p, m, [values[n]]) == BiomarkerStep(p, m, values[n]);
  }

  // ---------------------------------------------------------------------
  // Ramp

  /** One cycle of a ramp in progress: whatever the value, the amplitude moves
      by one signed step and the ramp counter advances, or the ramp completes. */
  lemma RampCycle(p: Params, s: ControlState, v: Sample, dir: Direction)
    requires Inv(p, s) && s.stimSwitch == On && s.triggerState == Goal(dir)
    ensures var r := BiomarkerStep(p, s, v);
      && r.stimAmp == s.stimAmp + SignedStep(p, dir)
      && (s.loopsRamp + 1 < p.rampPeriod ==>
            && r.triggerState == Goal(dir) && r.stimState == Leaves(dir)
            && r.loopsRamp == s.loopsRamp + 1 && !r.inDetectionBlank)
      && (s.loopsRamp + 1 == p.rampPeriod ==>
            && r.triggerState == NoTrigger && r.stimState == Target(dir)
            && r.loopsRamp == 0 && r.inDetectionBlank && r.loopsInDetectionBlank == 0)
  {
    var t := TriggerStep(p, s, v);
    assert t.triggerState == s.triggerState && t.stimState == s.stimState;
  }

  /** Ramp liveness: once a ramp is under way it runs on every cycle, whatever
      the biomarker values, and completes after exactly
      `rampPeriod - loopsRamp` cycles, the amplitude moving by one signed step
      per cycle. */
  lemma {:induction false} RampRunsToCompletion(p: Params, s: ControlState, values: seq<Sample>, dir: Direction)
    requires Inv(p, s) && s.stimSwitch == On && s.triggerState == Goal(dir)
    requires |values| <= p.rampPeriod - s.loopsRamp
    ensures var r := RunOn(p, s, values);
      && r.stimAmp == s.stimAmp + RampTotal(p, dir, |values|)
      && (|values| < p.rampPeriod - s.loopsRamp ==>
            && r.triggerState == Goal(dir) && r.stimState == Leaves(dir)
            && r.loopsRamp == s.loopsRamp + |values| && !r.inDetectionBlank)
      && (|values| == p.rampPeriod - s.loopsRamp ==>
            && r.triggerState == NoTrigger && r.stimState == Target(dir)
            && r.loopsRamp == 0 && r.inDetectionBlank && r.loopsInDetectionBlank == 0)
    decreases |values|
  {
    if values != [] {
      var s1 := BiomarkerStep(p, s, values[0]);
      RampCycle(p, s, values[0], dir);
      if s.loopsRamp + 1 == p.rampPeriod {
        assert values[1..] == [];
      } else {
        RampRunsToCompletion(p, s1, values[1..], dir);
      }
    }
  }

  /** The dwell condition that makes a value raise the trigger for `dir`. */
  predicate Qualifies(p: Params, s: ControlState, v: Sample, dir: Direction)
  {
    if dir == Up then Exceeds(v, p.threshold) && s.loopsAboveThreshold + 1 >= p.onsetPeriod
    else AtOrBelow(v, p.threshold) && s.loopsBelowThreshold + 1 >= p.terminationPeriod
  }

  /** The triggering cycle: a value that completes the dwell period outside
      the blank raises the trigger and performs the first ramp step at once. */
  lemma TriggeringCycle(p: Params, s: ControlState, v: Sample, dir: Direction)
    requires Inv(p, s) && s.stimSwitch == On && !s.inDetectionBlank
    requires s.triggerState == NoTrigger && s.stimState == Leaves(dir)
    requires Qualifies(p, s, v, dir)
    ensures var r := BiomarkerStep(p, s, v);
      && r.stimAmp == s.stimAmp + SignedStep(p, dir)
      && (s.loopsRamp + 1 < p.rampPeriod ==>
            && r.triggerState == Goal(dir) && r.stimState == Leaves(dir)
            && r.loopsRamp == s.loopsRamp + 1 && !r.inDetectionBlank)
      && (s.loopsRamp + 1 == p.rampPeriod ==>
            && r.triggerState == NoTrigger && r.stimState == Target(dir)
            && r.loopsRamp == 0 && r.inDetectionBlank && r.loopsInDetectionBlank == 0)
  {
    var t := TriggerStep(p, s, v);
    assert t.triggerState == Goal(dir) && t.stimState == Leaves(dir) && t.loopsRamp == s.loopsRamp;
    assert BiomarkerStep(p, s, v) == RampStep(p, t, dir);
  }

  /** A ramp counted from its triggering cycle: when a value completes the
      dwell period outside the blank, the state flips to the target after
      exactly `rampPeriod - loopsRamp` cycles (`rampPeriod` when the counter
      starts at 0), the triggering cycle included, and not before. */
  lemma FullRampFromTrigger(p: Params, s: ControlState, values: seq<Sample>, dir: Direction)
    requires Inv(p, s) && s.stimSwitch == On && !s.inDetectionBlank
    requires s.triggerState == NoTrigger && s.stimState == Leaves(dir)
    requires |values| == p.rampPeriod - s.loopsRamp
    requires Qualifies(p, s, values[0], dir)
    ensures forall k :: 0 <= k < |values| ==> RunOn(p, s, values[..k]).stimState == Leaves(dir)
    ensures var r := RunOn(p, s, values);
      && r.stimState == Target(dir) && r.triggerState == NoTrigger && r.inDetectionBlank
      && r.stimAmp == s.stimAmp + RampTotal(p, dir, |values|)
  {
    var s1 := BiomarkerStep(p, s, values[0]);
    TriggeringCycle(p, s, values[0], dir);
    forall k | 0 <= k < |values|
      ensures RunOn(p, s, values[..k]).stimState == Leaves(dir)
    {
      if k > 0 {
        RampPrefix(p, s, s1, values, k, dir);
      }
    }
    assert RunOn(p, s, values) == RunOn(p, s1, values[1..]);
    RampRest(p, s1, values[1..], dir, s.stimAmp, s.loopsRamp);
  }

  lemma RampRest(p: Params, s1: ControlState, rest: seq<Sample>, dir: Direction, a0: real, k: nat)
    requires p.rampPeriod > 0 && k < p.rampPeriod && |rest| == p.rampPeriod - k - 1
    requires s1.stimAmp == a0 + SignedStep(p, dir)
    requires k + 1 == p.rampPeriod ==>
      s1.triggerState == NoTrigger && s1.stimState == Target(dir) && s1.inDetectionBlank
    requires k + 1 < p.rampPeriod ==>
      Inv(p, s1) && s1.stimSwitch == On && s1.triggerState == Goal(dir) && s1.loopsRamp == k + 1
    ensures var r := RunOn(p, s1, rest);
      && r.stimState == Target(dir) && r.triggerState == NoTrigger && r.inDetectionBlank
      && r.stimAmp == a0 + RampTotal(p, dir, |rest| + 1)
  {
    var n := |rest|;
    assert RampTotal(p, dir, n + 1) == RampTotal(p, dir, n) + SignedStep(p, dir);
    if k + 1 == p.rampPeriod {
      assert rest == [];
    } else {
      RampRunsToCompletion(p, s1, rest, dir);
    }
  }

  /** The amplitude change of `n` consecutive ramp cycles in direction `dir`. */
  function RampTotal(p: Params, dir: Direction, n: nat): real
    requires p.rampPeriod > 0
  {
    if n == 0 then 0.0 else RampTotal(p, dir, n - 1) + SignedStep(p, dir)
  }

  lemma StepsAdd(a: real, st: real, n: nat)
    ensures a + (n as real) * st + st == ((n + 1) as real) * st + a
  {
  }

  lemma {:induction false} RampTotalIsMultiple(p: Params, dir: Direction, n: nat)
    requires p.rampPeriod > 0
    ensures RampTotal(p, dir, n) == (n as real) * SignedStep(p, dir)
  {
    if n > 0 {
      RampTotalIsMultiple(p, dir, n - 1);
      StepsAdd(0.0, SignedStep(p, dir), n - 1);
    }
  }

  lemma StepsCover(d: real, n: nat)
    requires n > 0
    ensures (n as real) * (d / (n as real)) == d
  {
  }

  /** `rampPeriod` ramp cycles add up to the whole amplitude range. */
  lemma RampTotalFull(p: Params, dir: Direction)
    requires p.rampPeriod > 0
    ensures RampTotal(p, dir, p.rampPeriod) ==
      if dir == Up then p.stimAmpHigh - p.stimAmpLow else p.stimAmpLow - p.stimAmpHigh
  {
    RampTotalIsMultiple(p, dir, p.rampPeriod);
    var d := p.stimAmpHigh - p.stimAmpLow;
    StepsCover(d, p.rampPeriod);
    assert (p.rampPeriod as real) * (-(d / (p.rampPeriod as real))) == -d;
  }

  lemma RampPrefix(p: Params, s: ControlState, s1: ControlState, values: seq<Sample>, k: nat, dir: Direction)
    requires p.rampPeriod > 0 && 0 < k < |values|
    requires s1 == BiomarkerStep(p, s, values[0])
    requires Inv(p, s1) && s1.stimSwitch == On && s1.triggerState == Goal(dir) && s1.stimState == Leaves(dir)
    requires |values| - 1 <= p.rampPeriod - s1.loopsRamp
    ensures RunOn(p, s, values[..k]).stimState == Leaves(dir)
  {
    assert values[..k][0] == values[0];
    assert values[..k][1..] == values[1..k];
    assert RunOn(p, s, values[..k]) == RunOn(p, s1, values[1..k]);
    RampRunsToCompletion(p, s1, values[1..k], dir);
  }

  /** A full ramp started with the ramp counter at 0 moves the amplitude by
      exactly `stimAmpHigh - stimAmpLow` (up) or its negation (down).  Since
      the amplitude starts at 0, a first ramp-up ends at that difference, not
      at `stimAmpHigh`. */
  lemma FullRampMovesByAmplitudeRange(p: Params, s: ControlState, values: seq<Sample>, dir: Direction)
    requires Inv(p, s) && s.stimSwitch == On && !s.inDetectionBlank
    requires s.triggerState == NoTrigger && s.stimState == Leaves(dir) && s.loopsRamp == 0
    requires |values| == p.rampPeriod
    requires Qualifies(p, s, values[0], dir)
    ensures var r := RunOn(p, s, values);
      && r.stimState == Target(dir)
      && r.stimAmp == s.stimAmp + (if dir == Up then p.stimAmpHigh - p.stimAmpLow
                                   else p.stimAmpLow - p.stimAmpHigh)
  {
    FullRampFromTrigger(p, s, values, dir);
    RampTotalFull(p, dir);
  }

  // ---------------------------------------------------------------------
  // The node

  class SingleThreshold {
    const params: Params
    /** `_ramp_step_size`, fixed at construction. */
    const rampStepSize: real

    var loopsInDetectionBlank: nat
    var loopsAboveThreshold: nat
    var loopsBelowThreshold: nat
    var loopsRamp: nat
    var stimState: StimState
    var triggerState: TriggerState
    var inDetectionBlank: bool
    var stimAmp: real
    var stimSwitch: StimSwitch

    function State(): ControlState
      reads this
    {
      ControlState(loopsInDetectionBlank, loopsAboveThreshold, loopsBelowThreshold, loopsRamp,
                   stimState, triggerState, inDetectionBlank, stimAmp, stimSwitch)
    }

    ghost predicate Valid()
      reads this
    {
      Inv(params, State()) && rampStepSize == RampStepSize(params)
    }

    constructor (p: Params)
      requires p.rampPeriod > 0
      ensures Valid() && params == p && Init(p) == Ok(State())
    {
      params := p;
      rampStepSize := (p.stimAmpHigh - p.stimAmpLow) / (p.rampPeriod as real);
      loopsInDetectionBlank, loopsAboveThreshold, loopsBelowThreshold, loopsRamp := 0, 0, 0, 0;
      stimState := Low;
      triggerState := NoTrigger;
      inDetectionBlank := true;
      stimAmp := 0.0;
      stimSwitch := Off;
    }

    method Update(switchIn: Option<string>, biomarker: Option<BiomarkerPackage>) returns (out: Option<StimOutput>)
      requires Valid()
      modifies this
      ensures Valid()
      ensures (State(), out) == Cycle(params, old(State()), switchIn, biomarker)
    {
      if switchIn.Some? {
        CheckStimSwitch(switchIn.value);
      }
      if biomarker.Some? {
        if stimSwitch == On {
          SetTriggerState(biomarker.value.value);
          if stimState == Low && triggerState == Onset {
            RampStim(Up);
          } else if stimState == High && triggerState == Termination {
            RampStim(Down);
          }
        }
        out := Some(StimOutput(stimAmp, biomarker.value.packageId));
      } else {
        out := None;
      }
    }

    method SetTriggerState(value: Sample)
      requires Valid() && stimSwitch == On
      modifies this
      ensures Valid()
      ensures State() == TriggerStep(params, old(State()), value)
    {
      if inDetectionBlank {
        UpdateDetectionBlank();
      } else if value.Num? && value.v > params.threshold {
        UpdateThresholdLoopCounter(AboveSide);
      } else if value.Num? && value.v <= params.threshold {
        UpdateThresholdLoopCounter(BelowSide);
      }
    }

    method UpdateDetectionBlank()
      requires Valid() && stimSwitch == On && inDetectionBlank
      modifies this
      ensures Valid()
      ensures State() == BlankStep(params, old(State()))
    {
      if loopsInDetectionBlank == params.detectionBlankPeriod {
        inDetectionBlank := false;
        loopsInDetectionBlank := 0;
      } else if loopsInDetectionBlank < params.detectionBlankPeriod {
        inDetectionBlank := true;
        loopsInDetectionBlank := loopsInDetectionBlank + 1;
      }
    }

    method UpdateThresholdLoopCounter(side: Side)
      requires Valid() && stimSwitch == On && !inDetectionBlank
      modifies this
      ensures Valid()
      ensures State() == CountStep(params, old(State()), side)
    {
      if side == AboveSide {
        loopsAboveThreshold := loopsAboveThreshold + 1;
        loopsBelowThreshold := 0;
        if loopsAboveThreshold >= params.onsetPeriod && stimState == Low {
          triggerState := Onset;
        }
      } else {
        loopsBelowThreshold := loopsBelowThreshold + 1;
        loopsAboveThreshold := 0;
        if loopsBelowThreshold >= params.terminationPeriod && stimState == High {
          triggerState := Termination;
        }
      }
    }

    method RampStim(dir: Direction)
      requires Valid() && stimState == Leaves(dir) && triggerState == Goal(dir)
      modifies this
      ensures Valid()
      ensures State() == RampStep(params, old(State()), dir)
    {
      var goal := if dir == Up then High else Low;
      var step := if dir == Up then rampStepSize else -rampStepSize;
      stimAmp := stimAmp + step;
      loopsRamp := loopsRamp + 1;
      if loopsRamp == params.rampPeriod {
        stimState := goal;
        triggerState := NoTrigger;
        loopsRamp := 0;
        inDetectionBlank := true;
      }
    }

    method CheckStimSwitch(cmd: string)
      requires Valid()
      modifies this
      ensures Valid()
      ensures State() == SwitchStep(old(State()), cmd)
    {
      if cmd == "start" {
        stimSwitch := On;
      } else if cmd == "stop" {
        stimSwitch := Off;
        stimState := Low;
        triggerState := NoTrigger;
        inDetectionBlank := true;
        stimAmp := 0.0;
      }
    }
  }
}
