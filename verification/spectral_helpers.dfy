/** Band selection on spectral estimates (utils/spectral_helpers.py).

    `select_bandwidths` keeps the frequencies `f` with `f_min <= f <= f_max`
    (both ends inclusive) and the matching entries of a one- or
    two-dimensional array of spectral values.  A boolean mask whose length
    differs from the indexed axis makes numpy raise `IndexError`; that is
    the error case here. */
module SpectralHelpers {
  import opened Common

  /** The array shapes handled: a vector, or a matrix given by its rows and
      its column count (kept explicitly, so a matrix without rows still has
      a shape). */
  datatype Values =
    | Vector(v: seq<real>)
    | Matrix(rows: seq<seq<real>>, ncols: nat)

  datatype SelectError = IndexError

  predicate WellShaped(x: Values)
  {
    x.Matrix? ==> forall i :: 0 <= i < |x.rows| ==> |x.rows[i]| == x.ncols
  }

  predicate InBand(f: real, fMin: real, fMax: real)
  {
    fMin <= f <= fMax
  }

  /** `sel`: one flag per frequency. */
  function Mask(freqs: seq<real>, fMin: real, fMax: real): (sel: seq<bool>)
    ensures |sel| == |freqs|
    ensures forall i :: 0 <= i < |freqs| ==> (sel[i] <==> InBand(freqs[i], fMin, fMax))
  {
    seq(|freqs|, i requires 0 <= i < |freqs| => InBand(freqs[i], fMin, fMax))
  }

  /** Boolean indexing `xs[sel]`: the entries whose flag is set, in order. */
  function Select<T>(xs: seq<T>, sel: seq<bool>): seq<T>
    requires |xs| == |sel|
    decreases |xs|
  {
    if xs == [] then []
    else (if sel[0] then [xs[0]] else []) + Select(xs[1..], sel[1..])
  }

  /** Number of set flags. */
  function CountTrue(sel: seq<bool>): nat
    decreases |sel|
  {
    if sel == [] then 0 else (if sel[0] then 1 else 0) + CountTrue(sel[1..])
  }

  /** The frequencies in band, written directly as a filter: the reference
      the masked selection is checked against. */
  function InBandOnly(freqs: seq<real>, fMin: real, fMax: real): seq<real>
    decreases |freqs|
  {
    if freqs == [] then []
    else if InBand(freqs[0], fMin, fMax) then [freqs[0]] + InBandOnly(freqs[1..], fMin, fMax)
    else InBandOnly(freqs[1..], fMin, fMax)
  }

  /** `values.T`. */
  function Transpose(rows: seq<seq<real>>, ncols: nat): (t: seq<seq<real>>)
    requires forall i :: 0 <= i < |rows| ==> |rows[i]| == ncols
    ensures |t| == ncols
    ensures forall j :: 0 <= j < ncols ==> |t[j]| == |rows|
    ensures forall j, i :: 0 <= j < ncols && 0 <= i < |rows| ==> t[j][i] == rows[i][j]
  {
    seq(ncols, j requires 0 <= j < ncols => seq(|rows|, i requires 0 <= i < |rows| => rows[i][j]))
  }

  /** `values[:, sel]`: every row keeps the masked columns. */
  function SelectColumns(rows: seq<seq<real>>, sel: seq<bool>): (r: seq<seq<real>>)
    requires forall i :: 0 <= i < |rows| ==> |rows[i]| == |sel|
    ensures |r| == |rows|
    ensures forall i :: 0 <= i < |rows| ==> r[i] == Select(rows[i], sel)
  {
    seq(|rows|, i requires 0 <= i < |rows| => Select(rows[i], sel))
  }

  /** `select_bandwidths(values, freqs, f_min, f_max)`.  With no
      frequencies `sel` is the empty list, which numpy takes as an empty
      integer index rather than a mask: the kept axis becomes empty whatever
      its length. */
  function SelectBandwidths(values: Values, freqs: seq<real>, fMin: real, fMax: real): (r: Result<(Values, seq<real>), SelectError>)
    requires WellShaped(values)
    ensures r.Ok? ==> r.value.1 == InBandOnly(freqs, fMin, fMax)
    ensures r.Ok? ==> WellShaped(r.value.0)
    ensures values.Vector? ==>
      (r.Ok? <==> |values.v| == |freqs| || freqs == [])
      && (r.Ok? && |values.v| == |freqs| ==> r.value.0 == Vector(Select(values.v, Mask(freqs, fMin, fMax))))
      && (r.Ok? && freqs == [] ==> r.value.0 == Vector([]))
    ensures values.Matrix? ==>
      var rows := if values.ncols != |freqs| then Transpose(values.rows, values.ncols) else values.rows;
      (r.Ok? <==> (values.ncols == |freqs| || |values.rows| == |freqs| || freqs == []))
      && (r.Ok? ==> r.value.0.Matrix? && |r.value.0.rows| == |rows| && r.value.0.ncols == |r.value.1|)
      && (r.Ok? && (values.ncols == |freqs| || |values.rows| == |freqs|) ==>
            forall i :: 0 <= i < |rows| ==> r.value.0.rows[i] == Select(rows[i], Mask(freqs, fMin, fMax)))
      && (r.Ok? && freqs == [] ==> forall i :: 0 <= i < |rows| ==> r.value.0.rows[i] == [])
  {
    var sel := Mask(freqs, fMin, fMax);
    SelectedFrequencies(freqs, fMin, fMax);
    SelectLength(freqs, sel);
    match values
    case Vector(v) =>
      if sel == [] then Ok((Vector([]), []))
      else if |v| != |freqs| then Err(IndexError)
      else
        SelectLength(v, sel);
        Ok((Vector(Select(v, sel)), Select(freqs, sel)))
    case Matrix(rows, ncols) =>
      var m := if ncols != |freqs| then Transpose(rows, ncols) else rows;
      var width := if ncols != |freqs| then |rows| else ncols;
      if sel == [] then Ok((Matrix(seq(|m|, _ => []), 0), []))
      else if width != |freqs| then Err(IndexError)
      else
        assert forall i :: 0 <= i < |m| ==> |m[i]| == |sel|;
        SelectRowLengths(m, sel);
        Ok((Matrix(SelectColumns(m, sel), CountTrue(sel)), Select(freqs, sel)))
  }

  // ---------------------------------------------------------------------
  // Properties of the selection

  lemma {:induction false} SelectLength<T>(xs: seq<T>, sel: seq<bool>)
    requires |xs| == |sel|
    ensures |Select(xs, sel)| == CountTrue(sel)
    decreases |xs|
  {
    if xs != [] {
      SelectLength(xs[1..], sel[1..]);
    }
  }

  lemma SelectRowLengths(rows: seq<seq<real>>, sel: seq<bool>)
    requires forall i :: 0 <= i < |rows| ==> |rows[i]| == |sel|
    ensures forall i :: 0 <= i < |rows| ==> |Select(rows[i], sel)| == CountTrue(sel)
  {
    forall i | 0 <= i < |rows|
      ensures |Select(rows[i], sel)| == CountTrue(sel)
    {
      SelectLength(rows[i], sel);
    }
  }

  /** The mask selects exactly the frequencies in band, in their original
      order. */
  lemma {:induction false} SelectedFrequencies(freqs: seq<real>, fMin: real, fMax: real)
    ensures Select(freqs, Mask(freqs, fMin, fMax)) == InBandOnly(freqs, fMin, fMax)
    decreases |freqs|
  {
    if freqs != [] {
      assert Mask(freqs, fMin, fMax)[1..] == Mask(freqs[1..], fMin, fMax);
      SelectedFrequencies(freqs[1..], fMin, fMax);
    }
  }

  /** A frequency is kept iff it is in the input and in band. */
  lemma {:induction false} InBandMembership(freqs: seq<real>, fMin: real, fMax: real, f: real)
    ensures f in InBandOnly(freqs, fMin, fMax) <==> f in freqs && InBand(f, fMin, fMax)
    decreases |freqs|
  {
    if freqs != [] {
      InBandMembership(freqs[1..], fMin, fMax, f);
      assert freqs == [freqs[0]] + freqs[1..];
    }
  }

  /** Selection distributes over concatenation, so the kept entries keep
      their relative order. */
  lemma {:induction false} SelectAppend<T>(a: seq<T>, sa: seq<bool>, b: seq<T>, sb: seq<bool>)
    requires |a| == |sa| && |b| == |sb|
    ensures Select(a + b, sa + sb) == Select(a, sa) + Select(b, sb)
    decreases |a|
  {
    if a == [] {
      assert a + b == b && sa + sb == sb;
    } else {
      var head := if sa[0] then [a[0]] else [];
      assert (a + b)[0] == a[0] && (sa + sb)[0] == sa[0];
      assert (a + b)[1..] == a[1..] + b && (sa + sb)[1..] == sa[1..] + sb;
      assert Select(a + b, sa + sb) == head + Select(a[1..] + b, sa[1..] + sb);
      SelectAppend(a[1..], sa[1..], b, sb);
      assert Select(a, sa) == head + Select(a[1..], sa[1..]);
    }
  }

  /** An inverted band (`f_min > f_max`) selects nothing. */
  lemma {:induction false} InvertedBandIsEmpty(freqs: seq<real>, fMin: real, fMax: real)
    requires fMin > fMax
    ensures InBandOnly(freqs, fMin, fMax) == []
    decreases |freqs|
  {
    if freqs != [] {
      InvertedBandIsEmpty(freqs[1..], fMin, fMax);
    }
  }

  /** Transposing a well-shaped matrix twice gives it back, so the 2-D
      branch loses no entry when it reorients the values. */
  lemma TransposeInvolution(rows: seq<seq<real>>, ncols: nat)
    requires forall i :: 0 <= i < |rows| ==> |rows[i]| == ncols
    ensures Transpose(Transpose(rows, ncols), |rows|) == rows
  {
    var t := Transpose(rows, ncols);
    var tt := Transpose(t, |rows|);
    assert |tt| == |rows|;
    forall i | 0 <= i < |rows|
      ensures tt[i] == rows[i]
    {
      assert |tt[i]| == ncols;
      forall j | 0 <= j < ncols
        ensures tt[i][j] == rows[i][j]
      {
        assert tt[i][j] == t[j][i];
      }
    }
  }
}
