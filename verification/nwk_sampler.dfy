/** The Newronika sampler node (nodes/newronika/nwk_sampler.py).

    Its module-level `sampleFromDevice` is the decoder of
    nodes/newronika/nwkstation.py line for line, run on the node's own
    fields, so the device state here is a `NewronikaStation.Interface`.  The
    node's `update` packages the two returned channels as a two-column
    table. */
module NewronikaSampler {
  import opened Common
  import NewronikaStation

  /** A data frame: column names and rows of cells. */
  datatype Table = Table(columns: seq<string>, rows: seq<seq<real>>)

  const Columns: seq<string> := ["nwk_ch1", "nwk_ch2"]

  /** Column `j` of a table, read back row by row. */
  function Column(t: Table, j: nat): (c: seq<real>)
    requires forall i :: 0 <= i < |t.rows| ==> j < |t.rows[i]|
    ensures |c| == |t.rows|
  {
    seq(|t.rows|, i requires 0 <= i < |t.rows| => t.rows[i][j])
  }

  /** `DataFrame(np.array([ch1, ch2]).T, columns=['nwk_ch1', 'nwk_ch2'])`:
      row `i` pairs the `i`-th sample of each channel. */
  function Package(ch1: seq<real>, ch2: seq<real>): (t: Table)
    requires |ch1| == |ch2|
    ensures t.columns == Columns
    ensures forall i :: 0 <= i < |t.rows| ==> |t.rows[i]| == 2
  {
    Table(Columns, seq(|ch1|, i requires 0 <= i < |ch1| => [ch1[i], ch2[i]]))
  }

  /** Reading the columns of a packaged table gives back both channels. */
  lemma PackageColumns(ch1: seq<real>, ch2: seq<real>)
    requires |ch1| == |ch2|
    ensures Column(Package(ch1, ch2), 0) == ch1
    ensures Column(Package(ch1, ch2), 1) == ch2
  {
    var t := Package(ch1, ch2);
    assert |t.rows| == |ch1|;
    assert forall i :: 0 <= i < |ch1| ==> Column(t, 0)[i] == ch1[i];
    assert forall i :: 0 <= i < |ch1| ==> Column(t, 1)[i] == ch2[i];
  }

  /** `update`: decode one accepted frame from `port` and hand on a two-row
      table of its samples.  The source waits on the port for as long as it
      takes; here a port that runs out first yields no table. */
  method Update(dev: NewronikaStation.Interface, port: seq<NewronikaStation.Byte>) returns (out: Option<Table>, consumed: nat)
    requires dev.Valid()
    modifies dev, dev.receivedBuffer
    ensures dev.Valid() && dev.receivedBuffer == old(dev.receivedBuffer)
    ensures consumed <= |port|
    ensures dev.Abstract() == NewronikaStation.Feed(old(dev.Abstract()).(sampleCh1 := [], sampleCh2 := []), port[..consumed])
    ensures out.None? <==> dev.sampleCh1 == []
    ensures out.None? ==> consumed == |port|
    ensures out.Some? ==>
      && out.value == Package(dev.sampleCh1, dev.sampleCh2)
      && |out.value.rows| == 2
      && Column(out.value, 0) == dev.sampleCh1 && Column(out.value, 1) == dev.sampleCh2
  {
    var ch1, ch2;
    ch1, ch2, consumed := dev.SampleFromDevice(port);
    if ch1 == [] {
      out := None;
    } else {
      out := Some(Package(ch1, ch2));
      PackageColumns(ch1, ch2);
    }
  }
}
