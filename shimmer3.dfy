// The Shimmer3 GSR/PPG sensor (octopus_sensing/devices/shimmer3_streaming.py):
// the sampling-rate command, the decoding of the 14-byte data packets the
// device streams over its serial port, and the recorder configuration.

module Shimmer3 {
  import opened Common
  import opened Messages
  import opened Recording

  /** 1 byte packet type, 3 bytes time stamp, 2 bytes each for x, y, z, PPG and GSR. */
  const FrameSize: nat := 14

  /** The file header; the GSR, PPG, time and trigger columns are at 5, 6, 7 and 8. */
  const Header: seq<string> := ["type", "time stamp", "Acc_x", "Acc_y", "Acc_z", "GSR_ohm", "PPG_mv", "time", "trigger"]

  function HeaderRow(): Row
  {
    seq(|Header|, i requires 0 <= i < |Header| => Text(Header[i]))
  }

  /**
   * The recorder configuration: START and STOP are de-duplicated, SAVE is
   * handled, a separated-mode STOP empties the buffer, a dead streaming
   * thread ends the loop, and new files start with the header.
   */
  function ShimmerConfig(name: string, outputPath: string, savingMode: int): (cfg: Config)
    ensures cfg.dedup && cfg.handlesSave && cfg.clearsAfterSeparatedStop && cfg.watchesStream
    ensures cfg.header == Some(HeaderRow()) && !cfg.triggerColumn
    ensures cfg.outputPath == PathJoin(outputPath, name) && cfg.name == name
  {
    Recording.Config(name, PathJoin(outputPath, name), savingMode, true, true, true, true, Some(HeaderRow()), false)
  }

  /** `_inintialize_connection` sets the experiment id to 0 before any message is read. */
  const InitialExperimentId: Option<Value> := Some(VInt(0))

  // ---------------------------------------------------------------- sampling rate

  /**
   * The clock divider sent with the set-sampling-rate command:
   * ceil(32768 / rate), packed as an unsigned 16-bit field. A rate of zero
   * divides by zero. A rate from -32768 to -1 gives a negative divider that
   * the packing rejects; below -32768 the quotient lies in (-1, 0), its
   * ceiling is 0, and 0 is sent.
   */
  function ClockWait(rate: int): (r: Result<nat>)
    ensures rate == 0 <==> r == Err("ZeroDivisionError")
    ensures -32768 <= rate < 0 <==> r == Err("struct.error")
    ensures rate < -32768 <==> r == Ok(0)
    ensures rate > 0 ==> r.Ok? && 1 <= r.value <= 32768
    ensures rate > 0 ==> r.value * rate >= 32768 && (r.value - 1) * rate < 32768
  {
    if rate == 0 then Err("ZeroDivisionError")
    else if rate < -32768 then Ok(0)
    else if rate < 0 then Err("struct.error")
    else Ok((32768 + rate - 1) / rate)
  }

  /**
   * The device samples at 32768 / divider Hz, which is never faster than the
   * rate asked for, and slower by less than one divider step.
   */
  lemma ClockWaitNeverFaster(rate: int)
    requires rate > 0
    ensures var w := ClockWait(rate).value; 32768 <= w * rate && 32768 > (w - 1) * rate
    ensures rate <= 32768 ==> ClockWait(rate).value * rate < 32768 + rate
  {
  }

  lemma ClockWaitDefault()
    ensures ClockWait(128) == Ok(256)
  {
  }

  // ---------------------------------------------------------------- packets

  /** The fields of one data packet. */
  datatype Packet = Packet(packetType: byte, timestamp: nat, x: nat, y: nat, z: nat, ppgRaw: nat, gsrRaw: nat)

  predicate ValidPacket(p: Packet)
  {
    p.timestamp < 0x100_0000 && p.x < 0x1_0000 && p.y < 0x1_0000 && p.z < 0x1_0000 &&
    p.ppgRaw < 0x1_0000 && p.gsrRaw < 0x1_0000
  }

  function LowByte(v: nat): byte { v % 256 }

  /** An unsigned 16-bit field in the platform's native (little-endian) byte order. */
  function U16(lo: byte, hi: byte): (v: nat)
    ensures v < 0x1_0000
  {
    lo as int + 256 * (hi as int)
  }

  /** The unsigned 24-bit time stamp, least significant byte first. */
  function U24(b0: byte, b1: byte, b2: byte): (v: nat)
    ensures v < 0x100_0000
  {
    b0 as int + 256 * (b1 as int) + 65536 * (b2 as int)
  }

  lemma U16Split(v: nat)
    requires v < 0x1_0000
    ensures U16(LowByte(v), LowByte(v / 256)) == v
  {
  }

  lemma U24Split(v: nat)
    requires v < 0x100_0000
    ensures U24(LowByte(v), LowByte(v / 256), LowByte(v / 65536)) == v
  {
    var q := v / 256;
    assert v == q * 256 + v % 256;
    assert q / 256 == v / 65536;
    assert q == (q / 256) * 256 + q % 256;
    assert v == v % 256 + 256 * (q % 256) + 65536 * (v / 65536);
  }

  lemma U16Bytes(lo: byte, hi: byte)
    ensures LowByte(U16(lo, hi)) == lo && LowByte(U16(lo, hi) / 256) == hi
  {
  }

  lemma U24Bytes(b0: byte, b1: byte, b2: byte)
    ensures var v := U24(b0, b1, b2);
      LowByte(v) == b0 && LowByte(v / 256) == b1 && LowByte(v / 65536) == b2
  {
    var v := U24(b0, b1, b2);
    assert v / 256 == b1 as int + 256 * (b2 as int);
    assert v / 65536 == b2;
  }

  /** Reads the packet fields from a 14-byte frame. */
  function ParsePacket(f: seq<byte>): (p: Packet)
    requires |f| == FrameSize
    ensures ValidPacket(p)
  {
    Packet(f[0], U24(f[1], f[2], f[3]),
           U16(f[4], f[5]), U16(f[6], f[7]), U16(f[8], f[9]), U16(f[10], f[11]), U16(f[12], f[13]))
  }

  /** The frame a device sends for a packet. */
  function EncodePacket(p: Packet): (f: seq<byte>)
    requires ValidPacket(p)
    ensures |f| == FrameSize
  {
    [p.packetType,
     LowByte(p.timestamp), LowByte(p.timestamp / 256), LowByte(p.timestamp / 65536),
     LowByte(p.x), LowByte(p.x / 256), LowByte(p.y), LowByte(p.y / 256),
     LowByte(p.z), LowByte(p.z / 256), LowByte(p.ppgRaw), LowByte(p.ppgRaw / 256),
     LowByte(p.gsrRaw), LowByte(p.gsrRaw / 256)]
  }

  /** Decoding recovers every field the device encoded. */
  lemma ParseEncode(p: Packet)
    requires ValidPacket(p)
    ensures ParsePacket(EncodePacket(p)) == p
  {
    U24Split(p.timestamp);
    U16Split(p.x);
    U16Split(p.y);
    U16Split(p.z);
    U16Split(p.ppgRaw);
    U16Split(p.gsrRaw);
  }

  /** Every 14-byte frame is the encoding of the packet decoded from it. */
  lemma EncodeParse(f: seq<byte>)
    requires |f| == FrameSize
    ensures EncodePacket(ParsePacket(f)) == f
  {
    U24Bytes(f[1], f[2], f[3]);
    U16Bytes(f[4], f[5]);
    U16Bytes(f[6], f[7]);
    U16Bytes(f[8], f[9]);
    U16Bytes(f[10], f[11]);
    U16Bytes(f[12], f[13]);
  }

  // ---------------------------------------------------------------- conversions

  /** The GSR range, the upper two bits of the raw word: (GSR_raw >> 14) & 0xff. */
  function GsrRange(raw: nat): (r: nat)
    requires raw < 0x1_0000
    ensures r < 4
  {
    (raw / 16384) % 256
  }

  /** The GSR reading, the lower fourteen bits: GSR_raw & 0x3fff. */
  function GsrReading(raw: nat): (m: nat)
    ensures m < 16384
  {
    raw % 16384
  }

  /** The range bits and the reading together are the whole raw word. */
  lemma GsrWordSplit(raw: nat)
    requires raw < 0x1_0000
    ensures raw == GsrRange(raw) * 16384 + GsrReading(raw)
  {
  }

  /** The range resistor in kilo-ohm selected by the range bits. */
  function RangeResistor(range: nat): (rf: real)
    requires range < 4
    ensures rf > 0.0
  {
    [40.2, 287.0, 1000.0, 3300.0][range]
  }

  /**
   * GSR_ohm = rf / ((reading * 3 / 4095) / 0.5 - 1), taken as its exact
   * value. The divisor is never zero, because 6 * reading is even and 4095 odd.
   */
  function GsrKiloOhm(raw: nat): real
    requires raw < 0x1_0000
  {
    var volts := (GsrReading(raw) as real) * (3.0 / 4095.0);
    var divisor := volts / 0.5 - 1.0;
    assert divisor == ((6 * GsrReading(raw) - 4095) as real) / 4095.0;
    assert 6 * GsrReading(raw) != 4095;
    RangeResistor(GsrRange(raw)) / divisor
  }

  /** PPG_mv = PPG_raw * 3000 / 4095, taken as its exact value. */
  function PpgMilliVolts(raw: nat): real
  {
    (raw as real) * (3000.0 / 4095.0)
  }

  /** The row `_stream_loop` buffers for a packet, before any trigger. */
  function PacketRow(p: Packet, recordTime: string): (row: Row)
    requires ValidPacket(p)
    ensures |row| == |Header| - 1
  {
    [Num(p.packetType), Num(p.timestamp), Num(p.x), Num(p.y), Num(p.z),
     Real(GsrKiloOhm(p.gsrRaw)), Real(PpgMilliVolts(p.ppgRaw)), Text(recordTime)]
  }

  /** Rows carry the columns the header names: eight without a trigger, nine with one. */
  lemma RowsFitHeader(cfg: Config, p: Packet, recordTime: string, trigger: Option<string>)
    requires ValidPacket(p) && !cfg.triggerColumn
    ensures var row := Marked(cfg, trigger, PacketRow(p, recordTime));
      |row| == (if trigger.Some? then |Header| else |Header| - 1) &&
      (trigger.Some? ==> row[8] == Text(trigger.value)) &&
      row[7] == Text(recordTime)
  {
  }

  /**
   * The rows of the first |times| frames of the data, in order; frame i is
   * stamped with times[i], the `datetime.now()` read while decoding it.
   */
  function FrameRows(data: seq<byte>, times: seq<string>): (rows: seq<Row>)
    requires |times| * FrameSize <= |data|
    ensures |rows| == |times|
    decreases |times|
  {
    if times == [] then []
    else [PacketRow(ParsePacket(data[..FrameSize]), times[0])] + FrameRows(data[FrameSize..], times[1..])
  }

  /** Each frame's row carries the clock reading taken for that frame. */
  lemma {:induction false} FrameRowsStamped(data: seq<byte>, times: seq<string>)
    requires |times| * FrameSize <= |data|
    ensures forall i :: 0 <= i < |times| ==>
      |FrameRows(data, times)[i]| == |Header| - 1 && FrameRows(data, times)[i][7] == Text(times[i])
    decreases |times|
  {
    if times != [] {
      FrameRowsStamped(data[FrameSize..], times[1..]);
    }
  }

  /** Recording the rows of the frames is recording the first frame's row, then the rest. */
  lemma FeedStep(cfg: Config, s: Snapshot, data: seq<byte>, times: seq<string>)
    requires times != [] && |times| * FrameSize <= |data|
    ensures SampleAll(cfg, s, FrameRows(data, times)) ==
      SampleAll(cfg, Sample(cfg, s, PacketRow(ParsePacket(data[..FrameSize]), times[0])), FrameRows(data[FrameSize..], times[1..]))
  {
    var row := PacketRow(ParsePacket(data[..FrameSize]), times[0]);
    var rows := FrameRows(data, times);
    assert rows[0] == row && rows[1..] == FrameRows(data[FrameSize..], times[1..]);
  }

  /** After k frames of n bytes, fewer than 14 bytes remain exactly when k is the number of whole frames. */
  lemma WholeFrames(n: nat, done: nat, k: nat)
    requires done == k * FrameSize && done <= n
    ensures n - done < FrameSize <==> k == n / FrameSize
  {
  }

  /**
   * One pass of `_stream_loop` over bytes read from the serial port: the
   * bytes left over from before and the new ones are cut into whole frames,
   * each is decoded and recorded with its own clock reading, and fewer than
   * 14 bytes are kept for later.
   */
  method Feed(rec: Recorder, pending: seq<byte>, chunk: seq<byte>, times: seq<string>) returns (rest: seq<byte>)
    requires |times| == (|pending| + |chunk|) / FrameSize
    modifies rec
    ensures var data := pending + chunk;
      rest == data[|times| * FrameSize..] && |rest| < FrameSize &&
      rec.Snap() == SampleAll(rec.cfg, old(rec.Snap()), FrameRows(data, times))
  {
    var data := pending + chunk;
    rest := data;
    ghost var done: nat := 0;
    var k := 0;
    while |rest| >= FrameSize
      invariant done <= |data| && rest == data[done..]
      invariant k <= |times| && done == k * FrameSize
      invariant SampleAll(rec.cfg, old(rec.Snap()), FrameRows(data, times)) ==
        SampleAll(rec.cfg, rec.Snap(), FrameRows(rest, times[k..]))
      decreases |rest|
    {
      WholeFrames(|data|, done, k);
      var frame := rest[..FrameSize];
      FeedStep(rec.cfg, rec.Snap(), rest, times[k..]);
      assert times[k..][1..] == times[k + 1..];
      rest := rest[FrameSize..];
      rec.Record(PacketRow(ParsePacket(frame), times[k]));
      done := done + FrameSize;
      k := k + 1;
    }
    WholeFrames(|data|, done, k);
  }

  /**
   * `_get_realtime_data`: the last duration * rate rows (all of them for a
   * zero duration), with the fixed channel list, which is the file header.
   */
  function RealtimeData(buffer: seq<Row>, duration: int, samplingRate: int): (r: (seq<Row>, seq<string>))
    ensures duration > 0 && samplingRate > 0 ==>
      r.0 == buffer[|buffer| - (if duration * samplingRate < |buffer| then duration * samplingRate else |buffer|)..]
    ensures duration == 0 ==> r.0 == buffer
    ensures |r.1| == 9 && r.1[5] == "GSR_ohm" && r.1[6] == "PPG_mv" && r.1[8] == "trigger"
  {
    LastItems(buffer, duration * samplingRate);
    (LatestRows(buffer, duration, samplingRate), Header)
  }
}
