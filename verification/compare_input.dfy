/** The earlier threshold comparator node (nodes/compare_input.py).

    Only the relative-power configuration sets a threshold; the other one
    fails when the constructor reports the threshold it never set.  Each
    update compares the first cell of the input with the threshold and hands
    on the row `[IN, OUT]` under the input's index. */
module CompareInput {
  import opened Common

  /** `AttributeError`: reading `_threshold` when it was never set, or
      reading `.values` of a missing input.  `ValueError`: an index of several
      labels for the one row of data.  `IndexError`: reading the first cell
      of an input without rows. */
  datatype NodeError = AttributeError | ValueError | IndexError

  datatype Input = Input(value: Sample, index: seq<int>)

  datatype OutputRow = OutputRow(inputValue: Sample, out: int, index: seq<int>)

  /** `Compareinput.__init__`. */
  function Threshold(relPower: bool): (r: Result<real, NodeError>)
    ensures relPower <==> r.Ok?
    ensures r.Ok? ==> r.value == 0.4
    ensures r.Err? ==> r.error == AttributeError
  {
    if relPower then Ok(0.4) else Err(AttributeError)
  }

  /** `Compareinput.update`: the input must be present and have a first
      cell, and the one-row data frame needs an index of exactly one
      label. */
  function Update(threshold: real, input: Option<Input>): (r: Result<OutputRow, NodeError>)
    ensures input.None? ==> r == Err(AttributeError)
    ensures input.Some? ==> (r.Ok? <==> |input.value.index| == 1)
    ensures input.Some? && |input.value.index| == 0 ==> r == Err(IndexError)
    ensures input.Some? && |input.value.index| >= 2 ==> r == Err(ValueError)
    ensures r.Ok? ==>
      && r.value.inputValue == input.value.value
      && r.value.index == input.value.index
      && (r.value.out == 1 <==> Exceeds(input.value.value, threshold))
      && (r.value.out == 0 <==> !Exceeds(input.value.value, threshold))
  {
    match input
    case None => Err(AttributeError)
    case Some(i) =>
      if |i.index| == 0 then Err(IndexError)
      else if |i.index| != 1 then Err(ValueError)
      else Ok(OutputRow(i.value, TriggerBit(i.value, threshold), i.index))
  }

  /** A value exactly at the threshold does not trigger; any value above it
      does. */
  lemma BoundaryAtThreshold(id: int, above: real)
    requires above > 0.4
    ensures Update(Threshold(true).value, Some(Input(Num(0.4), [id]))) == Ok(OutputRow(Num(0.4), 0, [id]))
    ensures Update(Threshold(true).value, Some(Input(Num(above), [id]))) == Ok(OutputRow(Num(above), 1, [id]))
  {
  }
}
