/** The sliding-window epoch buffer (nodes/data_flow/epoch.py).

    The buffer starts with `winSize - stepSize` NaN placeholder rows; each
    non-empty input is appended; whenever the buffer holds at least `winSize`
    rows its first `winSize` rows leave as one epoch (channel columns only)
    and its first `stepSize` rows are dropped.  The ghost field `stream` is
    the placeholders followed by every row ever pushed, and `dropped` counts
    the rows removed from its front, so the buffer is always
    `stream[dropped..]`. */
module DataFlowEpoch {
  import opened Common

  /** One buffered row: the recording-channel cells and the three framing
      columns `timestamps_received`, `package_numbers`, `package_ids`. */
  datatype Row = Row(values: seq<Sample>, timestampReceived: Sample, packageNumber: Sample, packageId: Sample)

  /** `range(win_size - step_size)` is empty when the step exceeds the window. */
  function PlaceholderCount(winSize: nat, stepSize: nat): nat
  {
    if stepSize <= winSize then winSize - stepSize else 0
  }

  /** A row of NaN in every column. */
  function Placeholder(channelCount: nat): Row
  {
    Row(seq(channelCount, _ => NaN), NaN, NaN, NaN)
  }

  function Placeholders(channelCount: nat, winSize: nat, stepSize: nat): seq<Row>
  {
    seq(PlaceholderCount(winSize, stepSize), _ => Placeholder(channelCount))
  }

  /** The epoch handed on: the rows restricted to the recording channels. */
  function ChannelsOnly(rows: seq<Row>): (e: seq<seq<Sample>>)
    ensures |e| == |rows|
    ensures forall i :: 0 <= i < |rows| ==> e[i] == rows[i].values
  {
    seq(|rows|, i requires 0 <= i < |rows| => rows[i].values)
  }

  class Epoch {
    const recordingChannels: seq<string>
    const winSize: nat
    const stepSize: nat
    var buffer: seq<Row>

    /** Placeholders followed by every row pushed so far. */
    ghost var stream: seq<Row>
    /** Rows dropped from the front of `stream`. */
    ghost var dropped: nat
    /** Epochs emitted so far. */
    ghost var emitted: nat

    ghost predicate Valid()
      reads this
    {
      && dropped <= |stream|
      && buffer == stream[dropped..]
      && PlaceholderCount(winSize, stepSize) <= |stream|
      && stream[..PlaceholderCount(winSize, stepSize)] == Placeholders(|recordingChannels|, winSize, stepSize)
      && (stepSize <= winSize ==> dropped == emitted * stepSize)
    }

    /** Number of genuine rows pushed so far. */
    ghost function Pushed(): nat
      reads this
      requires Valid()
    {
      |stream| - PlaceholderCount(winSize, stepSize)
    }

    constructor (channels: seq<string>, win: nat, step: nat)
      ensures Valid()
      ensures recordingChannels == channels && winSize == win && stepSize == step
      ensures buffer == Placeholders(|channels|, win, step)
      ensures stream == buffer && emitted == 0 && Pushed() == 0
    {
      recordingChannels, winSize, stepSize := channels, win, step;
      buffer := seq(PlaceholderCount(win, step), _ => Placeholder(|channels|));
      stream := buffer;
      dropped, emitted := 0, 0;
    }

    /** `update`: an empty input (the port is not ready) changes nothing; a
        non-empty input is appended, and at most one epoch is emitted. */
    method Update(input: seq<Row>) returns (epoch: Option<seq<seq<Sample>>>)
      requires Valid()
      modifies this
      ensures Valid()
      ensures stream == old(stream) + input
      ensures input == [] ==> epoch == None && buffer == old(buffer) && emitted == old(emitted)
      ensures epoch.Some? <==> input != [] && |old(buffer)| + |input| >= winSize
      ensures epoch.None? ==> buffer == old(buffer) + input && dropped == old(dropped) && emitted == old(emitted)
      ensures epoch.Some? ==>
        && epoch.value == ChannelsOnly(stream[old(dropped)..old(dropped) + winSize])
        && emitted == old(emitted) + 1
        && buffer == (old(buffer) + input)[if stepSize <= |old(buffer)| + |input| then stepSize else |old(buffer)| + |input|..]
      ensures stepSize <= winSize && epoch.Some? ==>
        epoch.value == ChannelsOnly(stream[old(emitted) * stepSize..old(emitted) * stepSize + winSize])
      ensures stepSize <= winSize && old(emitted) == 0 ==>
        (epoch.Some? <==> input != [] && Pushed() >= stepSize)
    {
      if |input| == 0 {
        epoch := None;
        assert stream == old(stream) + input;
        return;
      }
      Append(input);
      if |buffer| >= winSize {
        var e := Emit();
        epoch := Some(e);
      } else {
        epoch := None;
      }
    }

    /** `self.buffer = pd.concat([self.buffer, data])`. */
    method Append(input: seq<Row>)
      requires Valid()
      modifies this
      ensures Valid()
      ensures stream == old(stream) + input && buffer == old(buffer) + input
      ensures dropped == old(dropped) && emitted == old(emitted)
    {
      buffer := buffer + input;
      stream := stream + input;
      assert stream[..PlaceholderCount(winSize, stepSize)] == old(stream)[..PlaceholderCount(winSize, stepSize)];
    }

    /** The first `winSize` rows leave as an epoch and the first `stepSize`
        rows are dropped. */
    method Emit() returns (e: seq<seq<Sample>>)
      requires Valid() && |buffer| >= winSize
      modifies this
      ensures Valid()
      ensures stream == old(stream) && emitted == old(emitted) + 1
      ensures e == ChannelsOnly(stream[old(dropped)..old(dropped) + winSize])
      ensures var drop := if stepSize <= |old(buffer)| then stepSize else |old(buffer)|;
        buffer == old(buffer)[drop..] && dropped == old(dropped) + drop
    {
      var data := buffer[..winSize];
      var drop := if stepSize <= |buffer| then stepSize else |buffer|;
      buffer := buffer[drop..];
      dropped := dropped + drop;
      emitted := emitted + 1;
      if stepSize <= winSize {
        NextMultiple(emitted - 1, stepSize);
      }
      e := ChannelsOnly(data);
    }
  }

  lemma NextMultiple(k: nat, step: nat)
    ensures (k + 1) * step == k * step + step
  {
  }
}
