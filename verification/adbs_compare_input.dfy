/** The biomarker threshold comparator of the aDBS pipeline
    (nodes/aDBS/compare_input.py).

    The threshold is fixed at construction by the name of the input signal;
    each update compares the first cell of the input with it and hands on a
    one-row table `[input value, trigger]` under the input's index.  The
    branch for a missing input builds its table with the scalar index `0`,
    which pandas refuses with a `TypeError`, so it never yields a row. */
module AdbsCompareInput {
  import opened Common

  /** `ValueError`: an unknown input signal, or an index of several labels
      for the one row of data.  `TypeError`: a scalar passed as the index.
      `IndexError`: reading the first cell of an input without rows. */
  datatype NodeError = ValueError | TypeError | IndexError

  /** The first cell of the input table and the labels of its index. */
  datatype Input = Input(value: Sample, index: seq<int>)

  /** The output row `IN (biomarker)`, `OUT (aDBS trigger)` and its index. */
  datatype OutputRow = OutputRow(inputValue: Sample, trigger: int, index: seq<int>)

  /** `Compareinput.__init__`: only the two known biomarkers have a
      threshold. */
  function ThresholdFor(inputSignal: Option<string>): (r: Result<real, NodeError>)
    ensures r.Ok? <==> inputSignal == Some("stn_beta") || inputSignal == Some("beta_coherence")
    ensures r.Err? ==> r.error == ValueError
    ensures inputSignal == Some("stn_beta") ==> r == Ok(0.5)
    ensures inputSignal == Some("beta_coherence") ==> r == Ok(0.6)
  {
    match inputSignal
    case Some(s) =>
      if s == "stn_beta" then Ok(0.5)
      else if s == "beta_coherence" then Ok(0.6)
      else Err(ValueError)
    case None => Err(ValueError)
  }

  /** `Compareinput.update`.  An input without rows has no first cell; the
      data frame holds exactly one row, so it is built only when the index
      has exactly one label. */
  function Update(threshold: real, input: Option<Input>): (r: Result<OutputRow, NodeError>)
    ensures input.None? ==> r == Err(TypeError)
    ensures input.Some? ==> (r.Ok? <==> |input.value.index| == 1)
    ensures input.Some? && |input.value.index| == 0 ==> r == Err(IndexError)
    ensures input.Some? && |input.value.index| >= 2 ==> r == Err(ValueError)
    ensures r.Ok? ==>
      && r.value.inputValue == input.value.value
      && r.value.index == input.value.index
      && (r.value.trigger == 1 <==> Exceeds(input.value.value, threshold))
      && (r.value.trigger == 0 <==> !Exceeds(input.value.value, threshold))
  {
    match input
    case None => Err(TypeError)
    case Some(i) =>
      if |i.index| == 0 then Err(IndexError)
      else if |i.index| != 1 then Err(ValueError)
      else Ok(OutputRow(i.value, TriggerBit(i.value, threshold), i.index))
  }

  /** The trigger is monotone in the input value and antitone in the
      threshold: a larger value, or a lower threshold, never turns a trigger
      off. */
  lemma TriggerMonotone(threshold: real, lower: real, a: real, b: real, id: int)
    requires a <= b && lower <= threshold
    ensures Update(threshold, Some(Input(Num(a), [id]))).value.trigger <= Update(threshold, Some(Input(Num(b), [id]))).value.trigger
    ensures Update(threshold, Some(Input(Num(a), [id]))).value.trigger <= Update(lower, Some(Input(Num(a), [id]))).value.trigger
  {
  }

  /** The `beta_coherence` comparator fails on the same inputs as the
      `stn_beta` one and triggers on a subset of the inputs it triggers on; a
      NaN value triggers neither. */
  lemma CoherenceStricterThanBeta(input: Input)
    ensures var beta := Update(ThresholdFor(Some("stn_beta")).value, Some(input));
      var coh := Update(ThresholdFor(Some("beta_coherence")).value, Some(input));
      && (coh.Ok? <==> beta.Ok?)
      && (coh.Ok? ==> coh.value.trigger <= beta.value.trigger)
      && (coh.Ok? && input.value.NaN? ==> beta.value.trigger == 0 && coh.value.trigger == 0)
  {
  }
}
