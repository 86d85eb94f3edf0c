/** Channel helpers for the TMSi amplifier (nodes/TMSi/tmsi_utils.py).

    `correct_ACC_channelnames` gives the two accelerometers' axis channels
    distinct names: for each axis `X`, `Y`, `Z` that more than one channel
    carries, the first such channel becomes `ACC_<sides[0]>_<axis>` and the
    second `ACC_<sides[1]>_<axis>`.  `activate_channel_selection` enables
    exactly the channels listed as recording channels. */
module TmsiUtils {

  /** A device channel; both fields are updated in place. */
  class Channel {
    var name: string
    var enabled: bool

    constructor (name0: string, enabled0: bool)
      ensures name == name0 && enabled == enabled0
    {
      name := name0;
      enabled := enabled0;
    }
  }

  const Axes: seq<string> := ["X", "Y", "Z"]

  function Names(channels: seq<Channel>): (ns: seq<string>)
    reads channels
    ensures |ns| == |channels|
    ensures forall i :: 0 <= i < |channels| ==> ns[i] == channels[i].name
  {
    seq(|channels|, i reads channels requires 0 <= i < |channels| => channels[i].name)
  }

  /** `f'ACC_{side}_{AX}'`. */
  function AccName(side: string, axis: string): string
  {
    "ACC_" + side + "_" + axis
  }

  /** How many of `names[..k]` equal `axis`. */
  function CountBefore(names: seq<string>, k: nat, axis: string): nat
    requires k <= |names|
  {
    if k == 0 then 0 else CountBefore(names, k - 1, axis) + (if names[k - 1] == axis then 1 else 0)
  }

  function CountOf(names: seq<string>, axis: string): nat
  {
    CountBefore(names, |names|, axis)
  }

  /** The new name of position `i` in the pass for one axis whose channels
      are duplicated: the first occurrence takes the first side, the second
      occurrence the second side, everything else keeps its name. */
  function RenamedAt(names: seq<string>, i: nat, axis: string, sides: seq<string>): string
    requires i < |names| && |sides| >= 2
  {
    if names[i] != axis then names[i]
    else if CountBefore(names, i, axis) == 0 then AccName(sides[0], axis)
    else if CountBefore(names, i, axis) == 1 then AccName(sides[1], axis)
    else names[i]
  }

  /** The pass for one axis. */
  function RenameAxis(names: seq<string>, axis: string, sides: seq<string>): (r: seq<string>)
    requires |sides| >= 2
    ensures |r| == |names|
  {
    if CountOf(names, axis) > 1 then
      seq(|names|, i requires 0 <= i < |names| => RenamedAt(names, i, axis, sides))
    else names
  }

  /** All three passes, in the order X, Y, Z. */
  function CorrectNames(names: seq<string>, sides: seq<string>): (r: seq<string>)
    requires |sides| >= 2
    ensures |r| == |names|
  {
    RenameAxis(RenameAxis(RenameAxis(names, "X", sides), "Y", sides), "Z", sides)
  }

  /** A name produced by the renaming is never a bare axis name. */
  lemma AccNameIsNotAnAxis(side: string, axis: string, other: string)
    requires |other| == 1
    ensures AccName(side, axis) != other
  {
    assert |AccName(side, axis)| >= 5;
  }

  /** Counting `other` is unaffected by the pass for a different axis. */
  lemma {:induction false} CountUnchangedByOtherAxis(names: seq<string>, axis: string, other: string, sides: seq<string>, k: nat)
    requires |sides| >= 2 && |other| == 1 && axis != other && k <= |names|
    requires CountOf(names, axis) > 1
    ensures CountBefore(RenameAxis(names, axis, sides), k, other) == CountBefore(names, k, other)
    decreases k
  {
    if k > 0 {
      CountUnchangedByOtherAxis(names, axis, other, sides, k - 1);
      var r := RenameAxis(names, axis, sides);
      if names[k - 1] == axis {
        AccNameIsNotAnAxis(sides[0], axis, other);
        AccNameIsNotAnAxis(sides[1], axis, other);
      }
      assert (r[k - 1] == other) == (names[k - 1] == other);
    }
  }

  /** A pass for one axis leaves the names of every other axis where they
      were, so the passes do not interfere. */
  lemma RenameKeepsOtherAxis(names: seq<string>, axis: string, other: string, sides: seq<string>)
    requires |sides| >= 2 && |other| == 1 && axis != other
    ensures var r := RenameAxis(names, axis, sides);
      && (forall i :: 0 <= i < |names| ==> (r[i] == other <==> names[i] == other))
      && (forall k :: 0 <= k <= |names| ==> CountBefore(r, k, other) == CountBefore(names, k, other))
  {
    var r := RenameAxis(names, axis, sides);
    if CountOf(names, axis) > 1 {
      forall i | 0 <= i < |names|
        ensures r[i] == other <==> names[i] == other
      {
        if names[i] == axis {
          AccNameIsNotAnAxis(sides[0], axis, other);
          AccNameIsNotAnAxis(sides[1], axis, other);
        }
      }
      forall k | 0 <= k <= |names|
        ensures CountBefore(r, k, other) == CountBefore(names, k, other)
      {
        CountUnchangedByOtherAxis(names, axis, other, sides, k);
      }
    }
  }

  /** The result of the three passes, position by position: a channel named
      after an axis that more than one channel carries is renamed for the
      first or second side when it is that axis' first or second occurrence;
      every other name is kept. */
  lemma CorrectNamesPointwise(names: seq<string>, sides: seq<string>, i: nat)
    requires |sides| >= 2 && i < |names|
    ensures var ax := names[i];
      CorrectNames(names, sides)[i] ==
        if ax in Axes && CountOf(names, ax) > 1 then RenamedAt(names, i, ax, sides) else names[i]
  {
    var rx := RenameAxis(names, "X", sides);
    var ry := RenameAxis(rx, "Y", sides);
    var rz := RenameAxis(ry, "Z", sides);
    RenameKeepsOtherAxis(names, "X", "Y", sides);
    RenameKeepsOtherAxis(names, "X", "Z", sides);
    RenameKeepsOtherAxis(rx, "Y", "Z", sides);
    RenameKeepsOtherAxis(rx, "Y", "X", sides);
    RenameKeepsOtherAxis(ry, "Z", "X", sides);
    RenameKeepsOtherAxis(ry, "Z", "Y", sides);
    var ax := names[i];
    if ax == "X" {
      if CountOf(names, "X") > 1 {
        assert rx[i] != "Y" && rx[i] != "Z" by {
          AccNameIsNotAnAxis(sides[0], "X", "Y");
          AccNameIsNotAnAxis(sides[1], "X", "Y");
          AccNameIsNotAnAxis(sides[0], "X", "Z");
          AccNameIsNotAnAxis(sides[1], "X", "Z");
        }
      }
    } else if ax == "Y" {
      assert CountOf(rx, "Y") == CountOf(names, "Y");
      if CountOf(names, "Y") > 1 {
        assert ry[i] != "Z" by {
          AccNameIsNotAnAxis(sides[0], "Y", "Z");
          AccNameIsNotAnAxis(sides[1], "Y", "Z");
        }
      }
    } else if ax == "Z" {
      assert CountOf(ry, "Z") == CountOf(names, "Z");
    } else {
      assert ax !in Axes;
    }
  }

  /** `correct_ACC_channelnames`: renames in place and returns the same
      list.  A channel object listed twice would be renamed through both
      positions, so the list holds distinct objects. */
  method CorrectAccChannelNames(channels: seq<Channel>, sides: seq<string>) returns (result: seq<Channel>)
    requires |sides| >= 2
    requires forall i, j :: 0 <= i < j < |channels| ==> channels[i] != channels[j]
    modifies set c | c in channels
    ensures result == channels
    ensures Names(channels) == CorrectNames(old(Names(channels)), sides)
    ensures forall c :: c in channels ==> c.enabled == old(c.enabled)
  {
    ghost var original := Names(channels);
    var a := 0;
    while a < |Axes|
      invariant 0 <= a <= |Axes|
      invariant a == 0 ==> Names(channels) == original
      invariant a == 1 ==> Names(channels) == RenameAxis(original, "X", sides)
      invariant a == 2 ==> Names(channels) == RenameAxis(RenameAxis(original, "X", sides), "Y", sides)
      invariant a == 3 ==> Names(channels) == CorrectNames(original, sides)
      invariant forall c :: c in channels ==> c.enabled == old(c.enabled)
    {
      RenameOneAxis(channels, Axes[a], sides);
      a := a + 1;
    }
    result := channels;
  }

  /** One iteration of the outer loop: the pass for `axis`. */
  method RenameOneAxis(channels: seq<Channel>, axis: string, sides: seq<string>)
    requires |sides| >= 2
    requires forall i, j :: 0 <= i < j < |channels| ==> channels[i] != channels[j]
    modifies set c | c in channels
    ensures Names(channels) == RenameAxis(old(Names(channels)), axis, sides)
    ensures forall c :: c in channels ==> c.enabled == old(c.enabled)
  {
    var count := CountNamed(channels, axis);
    if count > 1 {
      RenameFirstTwo(channels, axis, sides);
    }
  }

  /** `len([ch for ch in channels if ch.name == AX])`. */
  method CountNamed(channels: seq<Channel>, axis: string) returns (count: nat)
    ensures count == CountOf(Names(channels), axis)
  {
    ghost var names := Names(channels);
    count := 0;
    var k := 0;
    while k < |channels|
      invariant 0 <= k <= |channels|
      invariant count == CountBefore(names, k, axis)
    {
      if channels[k].name == axis {
        count := count + 1;
      }
      k := k + 1;
    }
  }

  /** The renaming loop under the `first_side` and `second_side` flags. */
  method RenameFirstTwo(channels: seq<Channel>, axis: string, sides: seq<string>)
    requires |sides| >= 2
    requires forall i, j :: 0 <= i < j < |channels| ==> channels[i] != channels[j]
    modifies set c | c in channels
    ensures forall j :: 0 <= j < |channels| ==> channels[j].name == RenamedAt(old(Names(channels)), j, axis, sides)
    ensures forall c :: c in channels ==> c.enabled == old(c.enabled)
  {
    ghost var before := Names(channels);
    ghost var target := seq(|before|, j requires 0 <= j < |before| => RenamedAt(before, j, axis, sides));
    var firstSide := true;
    var secondSide := true;
    var k := 0;
    while k < |channels|
      invariant 0 <= k <= |channels|
      invariant firstSide == (CountBefore(before, k, axis) == 0)
      invariant secondSide == (CountBefore(before, k, axis) <= 1)
      invariant forall j :: 0 <= j < k ==> channels[j].name == target[j]
      invariant forall j :: k <= j < |channels| ==> channels[j].name == before[j]
      invariant forall c :: c in channels ==> c.enabled == old(c.enabled)
    {
      var ch := channels[k];
      ghost var expected := target[k];
      assert expected == RenamedAt(before, k, axis, sides);
      assert ch.name == before[k];
      // The `continue` after the first rename skips the second test.
      if ch.name == axis && firstSide {
        ch.name := AccName(sides[0], axis);
        firstSide := false;
      } else if ch.name == axis && secondSide {
        ch.name := AccName(sides[1], axis);
        secondSide := false;
      }
      assert ch.name == expected;
      assert forall j :: 0 <= j < |channels| && j != k ==> channels[j] != ch;
      k := k + 1;
    }
  }

  /** `activate_channel_selection`: a channel is enabled iff its name is one
      of the configured recording channels; names are not touched. */
  method ActivateChannelSelection(channels: seq<Channel>, recordingChannels: seq<string>)
    modifies set c | c in channels
    ensures forall i :: 0 <= i < |channels| ==> (channels[i].enabled <==> channels[i].name in recordingChannels)
    ensures Names(channels) == old(Names(channels))
  {
    var k := 0;
    while k < |channels|
      invariant 0 <= k <= |channels|
      invariant forall j :: 0 <= j < k ==> (channels[j].enabled <==> channels[j].name in recordingChannels)
      invariant forall c :: c in channels ==> c.name == old(c.name)
    {
      channels[k].enabled := channels[k].name in recordingChannels;
      k := k + 1;
    }
  }
}
