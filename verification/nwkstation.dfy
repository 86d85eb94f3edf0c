/** The Newronika alphaDBS serial frame decoder (nodes/newronika/nwkstation.py).

    Bytes arrive one at a time.  The decoder waits for the sync bytes 5, 200,
    1 (counter `cnt` 0 -> 1 -> 2 -> 3), then stores the following bytes at
    `ReceivedBuffer[cnt]` until the 21-byte frame is complete.  A complete
    frame is accepted when the sum of bytes 0..15 equals the big-endian 16-bit
    checksum in bytes 16..17 and is non-zero; it yields two 12-bit-scaled
    samples per channel and two order bytes.  The serial port is replaced by a
    finite sequence of bytes. */
module NewronikaStation {
  import opened Common

  type Byte = x: int | 0 <= x < 256

  const FrameLength: nat := 21
  const SyncBytes: seq<int> := [5, 200, 1]

  /** The decoder's fields: `cnt`, `FillBuffer`, `ReceivedBuffer`, `cnt_Time`,
      `sample_ch1`, `sample_ch2` and `Order`. */
  datatype Decoder = Decoder(
    cnt: nat,
    fillBuffer: int,
    received: seq<int>,
    cntTime: nat,
    sampleCh1: seq<real>,
    sampleCh2: seq<real>,
    order: seq<int>)

  predicate IsByte(x: int)
  {
    0 <= x < 256
  }

  /** What holds between two bytes: the counter stays within the frame, the
      buffer flag is set exactly once the sync bytes are in, and those bytes
      sit at the front of the buffer. */
  predicate DecoderInv(d: Decoder)
  {
    && |d.received| == FrameLength
    && (forall i :: 0 <= i < |d.received| ==> IsByte(d.received[i]))
    && d.cnt <= 20
    && d.fillBuffer == (if d.cnt >= 3 then 1 else 0)
    && (d.cnt >= 1 ==> d.received[0] == 5)
    && (d.cnt >= 2 ==> d.received[1] == 200)
    && (d.cnt >= 3 ==> d.received[2] == 1)
    && |d.sampleCh1| == |d.sampleCh2|
    && d.cntTime == |d.order|
  }

  /** `interface.__init__`. */
  function InitialDecoder(): (d: Decoder)
    ensures DecoderInv(d)
  {
    Decoder(0, 0, seq(FrameLength, _ => 0), 0, [], [], [])
  }

  /** The sum of a sequence, accumulated from the front. */
  function Sum(s: seq<int>): int
  {
    if s == [] then 0 else Sum(s[..|s| - 1]) + s[|s| - 1]
  }

  /** `Sum`: bytes 0..15 of the frame. */
  function FrameSum(received: seq<int>): int
    requires |received| == FrameLength
  {
    Sum(received[..16])
  }

  /** `CheckSum`: `(b16 << 8) + b17`. */
  function CheckSum(received: seq<int>): int
    requires |received| == FrameLength
  {
    received[16] * 256 + received[17]
  }

  predicate FrameAccepted(received: seq<int>)
    requires |received| == FrameLength
  {
    FrameSum(received) == CheckSum(received) && FrameSum(received) != 0
  }

  /** `((hi << 8) + lo) * 2 / 4096`, a 16-bit reading scaled to volts. */
  function Scale(hi: int, lo: int): (v: real)
    requires IsByte(hi) && IsByte(lo)
    ensures 0.0 <= v < 32.0
  {
    ((hi * 256 + lo) * 2) as real / 4096.0
  }

  /** The checksum branch once `cnt` reaches 21: the counter and the flag are
      reset whatever the outcome; an accepted frame appends its two samples
      per channel and its two order bytes and advances `cnt_Time` by 2. */
  function CompleteFrame(d: Decoder): (r: Decoder)
    requires |d.received| == FrameLength
    requires forall i :: 0 <= i < |d.received| ==> IsByte(d.received[i])
  {
    var reset := d.(cnt := 0, fillBuffer := 0);
    var b := d.received;
    if FrameAccepted(b) then
      reset.(sampleCh1 := d.sampleCh1 + [Scale(b[4], b[5]), Scale(b[10], b[11])],
             sampleCh2 := d.sampleCh2 + [Scale(b[6], b[7]), Scale(b[12], b[13])],
             order := d.order + [b[8], b[14]],
             cntTime := d.cntTime + 2)
    else
      reset
  }

  /** The first test of the loop body: with `FillBuffer` set, the byte is
      stored at `ReceivedBuffer[cnt]` and `cnt` advances. */
  function FillByte(d: Decoder, x: Byte): Decoder
    requires |d.received| == FrameLength && d.cnt <= 20
  {
    if d.fillBuffer == 1 then d.(received := d.received[d.cnt := x], cnt := d.cnt + 1) else d
  }

  /** The sync test for position `k`: the byte `SyncBytes[k]` seen while
      `cnt == k` is stored and advances `cnt`; the third also sets
      `FillBuffer`. */
  function SyncByte(d: Decoder, x: Byte, k: nat): Decoder
    requires |d.received| == FrameLength && k < 3
  {
    if x == SyncBytes[k] && d.cnt == k then
      d.(received := d.received[k := x], cnt := k + 1, fillBuffer := if k == 2 then 1 else d.fillBuffer)
    else d
  }

  /** The four tests of the loop body before the checksum branch. */
  function ShiftIn(d: Decoder, x: Byte): Decoder
    requires |d.received| == FrameLength && d.cnt <= 20
  {
    SyncByte(SyncByte(SyncByte(FillByte(d, x), x, 0), x, 1), x, 2)
  }

  lemma ShiftInKeepsBytes(d: Decoder, x: Byte)
    requires DecoderInv(d)
    ensures var r := ShiftIn(d, x);
      |r.received| == FrameLength && forall i :: 0 <= i < FrameLength ==> IsByte(r.received[i])
  {
  }

  /** One pass of the byte-reading loop of `sampleFromDevice`. */
  function ByteStep(d: Decoder, x: Byte): (r: Decoder)
    requires DecoderInv(d)
    ensures DecoderInv(r)
    ensures |r.sampleCh1| == |d.sampleCh1| || |r.sampleCh1| == |d.sampleCh1| + 2
  {
    var d4 := ShiftIn(d, x);
    if d4.cnt == 21 then CompleteFrame(d4) else d4
  }

  /** The decoder after reading `bytes` in order. */
  function Feed(d: Decoder, bytes: seq<Byte>): (r: Decoder)
    requires DecoderInv(d)
    ensures DecoderInv(r)
    decreases |bytes|
  {
    if bytes == [] then d else Feed(ByteStep(d, bytes[0]), bytes[1..])
  }

  // ---------------------------------------------------------------------
  // Byte-level behaviour

  /** During sync the counter advances only on the expected sync byte; any
      other byte is ignored without resetting the counter.  The third sync
      byte sets the buffer flag. */
  lemma SyncStep(d: Decoder, x: Byte)
    requires DecoderInv(d) && d.cnt < 3
    ensures var r := ByteStep(d, x);
      && (x == SyncBytes[d.cnt] ==>
            r == d.(received := d.received[d.cnt := x], cnt := d.cnt + 1,
                    fillBuffer := if d.cnt == 2 then 1 else 0))
      && (x != SyncBytes[d.cnt] ==> r == d)
  {
  }

  /** While the buffer flag is set, a byte is stored at `ReceivedBuffer[cnt]`
      and the counter advances, until the byte that completes the frame. */
  lemma FillStep(d: Decoder, x: Byte)
    requires DecoderInv(d) && 3 <= d.cnt < 20
    ensures ByteStep(d, x) == d.(received := d.received[d.cnt := x], cnt := d.cnt + 1)
  {
  }

  /** The byte that completes a frame resets `cnt` and `FillBuffer` whether
      the frame is accepted or not, and only an accepted frame produces
      output. */
  lemma CompletionStep(d: Decoder, x: Byte)
    requires DecoderInv(d) && d.cnt == 20
    ensures var r := ByteStep(d, x);
      var b := d.received[20 := x];
      && r.cnt == 0 && r.fillBuffer == 0 && r.received == b
      && (FrameAccepted(b) ==>
            && r.sampleCh1 == d.sampleCh1 + [Scale(b[4], b[5]), Scale(b[10], b[11])]
            && r.sampleCh2 == d.sampleCh2 + [Scale(b[6], b[7]), Scale(b[12], b[13])]
            && r.order == d.order + [b[8], b[14]] && r.cntTime == d.cntTime + 2)
      && (!FrameAccepted(b) ==>
            r.sampleCh1 == d.sampleCh1 && r.sampleCh2 == d.sampleCh2
            && r.order == d.order && r.cntTime == d.cntTime)
  {
  }

  lemma {:induction false} SumAppend(a: seq<int>, b: seq<int>)
    ensures Sum(a + b) == Sum(a) + Sum(b)
    decreases |b|
  {
    if b == [] {
      assert a + b == a;
    } else {
      var b' := b[..|b| - 1];
      assert (a + b)[..|a + b| - 1] == a + b';
      SumAppend(a, b');
    }
  }

  lemma {:induction false} SumNonNegative(s: seq<int>)
    requires forall i :: 0 <= i < |s| ==> IsByte(s[i])
    ensures 0 <= Sum(s) <= 255 * |s|
    decreases |s|
  {
    if s != [] {
      SumNonNegative(s[..|s| - 1]);
    }
  }

  lemma SumOfThree(a: int, b: int, c: int)
    ensures Sum([a, b, c]) == a + b + c
  {
    assert [a, b, c][..2] == [a, b];
    assert [a, b][..1] == [a];
    assert [a][..0] == [];
    assert Sum([a]) == a;
    assert Sum([a, b]) == Sum([a]) + b;
  }

  /** The sync bytes are part of the summed bytes, so the sum of every
      completed frame is at least 5 + 200 + 1: the `Sum != 0` test never
      rejects a frame, and acceptance is decided by the checksum alone. */
  lemma ChecksumDecides(d: Decoder, x: Byte)
    requires DecoderInv(d) && d.cnt >= 3
    ensures FrameSum(d.received) >= 206
    ensures FrameAccepted(d.received[20 := x]) <==> FrameSum(d.received) == CheckSum(d.received)
  {
    var b := d.received;
    assert b[..16] == [b[0], b[1], b[2]] + b[3..16];
    SumAppend([b[0], b[1], b[2]], b[3..16]);
    SumOfThree(b[0], b[1], b[2]);
    SumNonNegative(b[3..16]);
    assert b[20 := x][..16] == b[..16];
  }

  // ---------------------------------------------------------------------
  // Whole frames

  lemma {:induction false} FeedAppend(d: Decoder, a: seq<Byte>, b: seq<Byte>)
    requires DecoderInv(d)
    ensures Feed(d, a + b) == Feed(Feed(d, a), b)
    decreases |a|
  {
    if a == [] {
      assert a + b == b;
    } else {
      assert (a + b)[0] == a[0];
      assert (a + b)[1..] == a[1..] + b;
      FeedAppend(ByteStep(d, a[0]), a[1..], b);
    }
  }

  /** While filling, the bytes are stored verbatim in order. */
  lemma {:induction false} FillVerbatim(d: Decoder, bs: seq<Byte>)
    requires DecoderInv(d) && d.cnt >= 3 && d.cnt + |bs| <= 20
    ensures Feed(d, bs) ==
      d.(received := d.received[..d.cnt] + bs + d.received[d.cnt + |bs|..], cnt := d.cnt + |bs|)
    decreases |bs|
  {
    if bs == [] {
      assert d.received[..d.cnt] + bs + d.received[d.cnt..] == d.received;
    } else {
      var d1 := ByteStep(d, bs[0]);
      FillStep(d, bs[0]);
      FillVerbatim(d1, bs[1..]);
      assert d1.received[..d1.cnt] + bs[1..] + d1.received[d1.cnt + |bs[1..]|..]
          == d.received[..d.cnt] + bs + d.received[d.cnt + |bs|..];
    }
  }

  /** From an idle decoder, the sync bytes followed by 18 further bytes form
      exactly one frame: the 21 bytes land verbatim in the buffer and are
      judged by the checksum branch. */
  lemma SyncedFrame(d: Decoder, body: seq<Byte>)
    requires DecoderInv(d) && d.cnt == 0 && |body| == 18
    ensures Feed(d, [5, 200, 1] + body) == CompleteFrame(d.(received := SyncBytes + body))
  {
    var prefix := [5, 200, 1] + body[..17];
    assert [5, 200, 1] + body == prefix + [body[17]];
    FeedAppend(d, prefix, [body[17]]);
    var d20 := FeedThroughFill(d, body[..17]);
    LastByte(d20, body[17]);
    var frame := SyncBytes + body;
    assert d20.received[20 := body[17]] == frame;
    assert d20.(received := frame) == d.(received := frame, cnt := 20, fillBuffer := 1);
    CompleteFrameIgnoresCounter(d.(received := frame), 20, 1);
  }

  /** The sync bytes and the next 17 bytes bring an idle decoder to the last
      byte of the frame. */
  lemma FeedThroughFill(d: Decoder, head: seq<Byte>) returns (d20: Decoder)
    requires DecoderInv(d) && d.cnt == 0 && |head| == 17
    ensures d20 == Feed(d, [5, 200, 1] + head)
    ensures d20 == d.(received := SyncBytes + head + [d.received[20]], cnt := 20, fillBuffer := 1)
  {
    var d3 := HeaderFeed(d);
    FeedAppend(d, [5, 200, 1], head);
    FillVerbatim(d3, head);
    d20 := Feed(d3, head);
    assert d3.received[..3] + head + d3.received[20..] == SyncBytes + head + [d.received[20]];
  }

  lemma CompleteFrameIgnoresCounter(d: Decoder, c: nat, f: int)
    requires |d.received| == FrameLength
    requires forall i :: 0 <= i < |d.received| ==> IsByte(d.received[i])
    ensures CompleteFrame(d.(cnt := c, fillBuffer := f)) == CompleteFrame(d)
  {
  }

  /** The twenty-first byte of a frame hands the buffer to the checksum
      branch. */
  lemma LastByte(d: Decoder, x: Byte)
    requires DecoderInv(d) && d.cnt == 20
    ensures Feed(d, [x]) == CompleteFrame(d.(received := d.received[20 := x]))
  {
    assert Feed(d, [x]) == ByteStep(d, x);
  }

  /** The three sync bytes take an idle decoder to the filling phase. */
  lemma HeaderFeed(d: Decoder) returns (d3: Decoder)
    requires DecoderInv(d) && d.cnt == 0
    ensures d3 == Feed(d, [5, 200, 1])
    ensures d3 == d.(received := d.received[0 := 5][1 := 200][2 := 1], cnt := 3, fillBuffer := 1)
  {
    SyncStep(d, 5);
    var d1 := ByteStep(d, 5);
    SyncStep(d1, 200);
    var d2 := ByteStep(d1, 200);
    SyncStep(d2, 1);
    d3 := ByteStep(d2, 1);
    assert Feed(d2, [1]) == d3;
    assert Feed(d1, [200, 1]) == Feed(d2, [1]);
    assert Feed(d, [5, 200, 1]) == Feed(d1, [200, 1]);
  }

  /** The frame a device sends for 13 data bytes (bytes 3..15) and 3 trailing
      bytes (bytes 18..20): sync bytes, data, then the sum of bytes 0..15 as a
      big-endian 16-bit checksum. */
  function EncodeFrame(data: seq<Byte>, trailer: seq<Byte>): (f: seq<Byte>)
    requires |data| == 13 && |trailer| == 3
    ensures |f| == FrameLength
    ensures f[..3] == SyncBytes && f[3..16] == data && f[18..] == trailer
    ensures CheckSum(f) == FrameSum(f)
  {
    SumNonNegative(data);
    var sum := 206 + Sum(data);
    var f := [5, 200, 1] + data + [sum / 256, sum % 256] + trailer;
    assert f[..16] == [5, 200, 1] + data;
    SumAppend([5, 200, 1], data);
    SumOfThree(5, 200, 1);
    f
  }

  /** Round trip: an encoded frame read by an idle decoder is accepted and
      yields exactly the samples and order bytes it carries. */
  lemma DecodeEncodedFrame(d: Decoder, data: seq<Byte>, trailer: seq<Byte>)
    requires DecoderInv(d) && d.cnt == 0 && |data| == 13 && |trailer| == 3
    ensures var r := Feed(d, EncodeFrame(data, trailer));
      && r.cnt == 0 && r.fillBuffer == 0
      && r.sampleCh1 == d.sampleCh1 + [Scale(data[1], data[2]), Scale(data[7], data[8])]
      && r.sampleCh2 == d.sampleCh2 + [Scale(data[3], data[4]), Scale(data[9], data[10])]
      && r.order == d.order + [data[5], data[11]]
      && r.cntTime == d.cntTime + 2
  {
    var f := EncodeFrame(data, trailer);
    var body := f[3..];
    assert f == [5, 200, 1] + body;
    SyncedFrame(d, body);
    var b := SyncBytes + body;
    assert b == f;
    SumNonNegative(data);
    assert b[..16] == [5, 200, 1] + data;
    SumAppend([5, 200, 1], data);
    SumOfThree(5, 200, 1);
    assert FrameAccepted(b);
  }

  // ---------------------------------------------------------------------
  // The interface object

  class Interface {
    /** `Int2Store`: the last byte read. */
    var int2Store: int
    var cnt: nat
    var fillBuffer: int
    var cntTime: nat
    var receivedBuffer: array<int>
    var sampleCh1: seq<real>
    var sampleCh2: seq<real>
    var order: seq<int>

    function Abstract(): Decoder
      reads this, receivedBuffer
    {
      Decoder(cnt, fillBuffer, receivedBuffer[..], cntTime, sampleCh1, sampleCh2, order)
    }

    ghost predicate Valid()
      reads this, receivedBuffer
    {
      receivedBuffer.Length == FrameLength && DecoderInv(Abstract())
    }

    constructor ()
      ensures Valid() && fresh(receivedBuffer)
      ensures Abstract() == InitialDecoder()
    {
      int2Store := 0;
      cnt := 0;
      fillBuffer := 0;
      cntTime := 0;
      receivedBuffer := new int[FrameLength](_ => 0);
      sampleCh1 := [];
      sampleCh2 := [];
      order := [];
    }

    /** The inner loop that adds up bytes 0..15 (the source runs it on `cnt`
        and resets `cnt` afterwards; the net effect is the sum alone). */
    method SumFirstSixteen() returns (sum: int)
      requires receivedBuffer.Length == FrameLength
      ensures sum == FrameSum(receivedBuffer[..])
    {
      sum := 0;
      var i := 0;
      while i < 16
        invariant 0 <= i <= 16
        invariant sum == Sum(receivedBuffer[..i])
      {
        assert receivedBuffer[..i + 1][..i] == receivedBuffer[..i];
        sum := sum + receivedBuffer[i];
        i := i + 1;
      }
      assert receivedBuffer[..16] == receivedBuffer[..][..16];
    }

    /** The checksum branch, on the fields. */
    method CheckFrame()
      requires receivedBuffer.Length == FrameLength
      requires forall i :: 0 <= i < FrameLength ==> IsByte(receivedBuffer[i])
      modifies this
      ensures receivedBuffer == old(receivedBuffer) && int2Store == old(int2Store)
      ensures Abstract() == CompleteFrame(old(Abstract()))
    {
      cnt := 0;
      fillBuffer := 0;
      var sum := SumFirstSixteen();
      var checkSum := receivedBuffer[16] * 256 + receivedBuffer[17];
      if sum == checkSum && sum != 0 {
        var b := receivedBuffer;
        sampleCh1 := sampleCh1 + [Scale(b[4], b[5])];
        sampleCh2 := sampleCh2 + [Scale(b[6], b[7])];
        order := order + [b[8]];
        cntTime := cntTime + 1;
        sampleCh1 := sampleCh1 + [Scale(b[10], b[11])];
        sampleCh2 := sampleCh2 + [Scale(b[12], b[13])];
        order := order + [b[14]];
        cntTime := cntTime + 1;
      }
      cnt := 0;
    }

    /** The fill test, on the fields. */
    method StoreIfFilling(x: Byte)
      requires receivedBuffer.Length == FrameLength && cnt <= 20
      modifies this, receivedBuffer
      ensures receivedBuffer == old(receivedBuffer)
      ensures Abstract() == FillByte(old(Abstract()), x)
    {
      if fillBuffer == 1 {
        receivedBuffer[cnt] := x;
        cnt := cnt + 1;
      }
    }

    /** One sync test, on the fields. */
    method MatchSync(x: Byte, k: nat)
      requires receivedBuffer.Length == FrameLength && k < 3
      modifies this, receivedBuffer
      ensures receivedBuffer == old(receivedBuffer)
      ensures Abstract() == SyncByte(old(Abstract()), x, k)
    {
      if x == SyncBytes[k] && cnt == k {
        receivedBuffer[cnt] := x;
        cnt := cnt + 1;
        if k == 2 {
          fillBuffer := 1;
        }
      }
    }

    /** One byte read from the port and processed. */
    method ReadByte(x: Byte)
      requires Valid()
      modifies this, receivedBuffer
      ensures Valid() && receivedBuffer == old(receivedBuffer)
      ensures Abstract() == ByteStep(old(Abstract()), x)
    {
      ghost var d0 := Abstract();
      int2Store := x;
      StoreIfFilling(x);
      MatchSync(x, 0);
      MatchSync(x, 1);
      MatchSync(x, 2);
      ghost var d4 := Abstract();
      assert d4 == ShiftIn(d0, x);
      ShiftInKeepsBytes(d0, x);
      if cnt == 21 {
        CheckFrame();
      }
    }

    /** `sampleFromDevice`: clears both channel lists, then reads bytes until
        the first accepted frame; the result is that frame's two samples per
        channel.  When `port` runs out first (the source would keep waiting)
        both lists are empty and every byte has been consumed. */
    method SampleFromDevice(port: seq<Byte>) returns (ch1: seq<real>, ch2: seq<real>, consumed: nat)
      requires Valid()
      modifies this, receivedBuffer
      ensures Valid() && receivedBuffer == old(receivedBuffer)
      ensures consumed <= |port|
      ensures Abstract() == Feed(old(Abstract()).(sampleCh1 := [], sampleCh2 := []), port[..consumed])
      ensures ch1 == sampleCh1 && ch2 == sampleCh2
      ensures ch1 == [] ==> consumed == |port|
      ensures ch1 != [] ==> |ch1| == 2 && |ch2| == 2
      ensures forall j :: 0 <= j < consumed ==>
        Feed(old(Abstract()).(sampleCh1 := [], sampleCh2 := []), port[..j]).sampleCh1 == []
    {
      sampleCh1 := [];
      sampleCh2 := [];
      ghost var start := Abstract();
      assert start == old(Abstract()).(sampleCh1 := [], sampleCh2 := []);
      consumed := 0;
      while sampleCh1 == [] && consumed < |port|
        invariant Valid() && receivedBuffer == old(receivedBuffer)
        invariant consumed <= |port|
        invariant Abstract() == Feed(start, port[..consumed])
        invariant |sampleCh1| == 0 || |sampleCh1| == 2
        invariant forall j :: 0 <= j < consumed ==> Feed(start, port[..j]).sampleCh1 == []
        decreases |port| - consumed
      {
        ghost var before := Abstract();
        ReadByte(port[consumed]);
        FeedAppend(start, port[..consumed], [port[consumed]]);
        assert port[..consumed] + [port[consumed]] == port[..consumed + 1];
        assert Feed(before, [port[consumed]]) == ByteStep(before, port[consumed]);
        consumed := consumed + 1;
      }
      ch1, ch2 := sampleCh1, sampleCh2;
    }
  }
}
