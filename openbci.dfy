// The OpenBCI board through pyOpenBCI (octopus_sensing/devices/openbci_streaming.py):
// the common recorder protocol without de-duplication of START and STOP,
// without a SAVE branch, and with a separated-mode STOP that writes the
// buffer but never empties it. Files go to `<output_path>/eeg`.

module OpenBci {
  import opened Common
  import opened Messages
  import opened Recording

  /** "ch1" ... "chn", the default channel names. */
  function DefaultChannels(n: nat): (names: seq<string>)
    ensures |names| == n
    ensures forall i :: 0 <= i < n ==> names[i] == "ch" + IntToString(i + 1)
  {
    seq(n, i requires 0 <= i < n => "ch" + IntToString(i + 1))
  }

  /**
   * The channel names of the constructor: 16 defaults with the daisy board
   * and 8 without; a given order must have that many names, or the
   * constructor raises a plain string, which Python reports as TypeError.
   */
  function ChannelNames(daisy: bool, order: Option<seq<string>>): (r: Result<seq<string>>)
    ensures r.Ok? ==> |r.value| == (if daisy then 16 else 8)
    ensures order.None? ==> r == Ok(DefaultChannels(if daisy then 16 else 8))
    ensures order.Some? ==> (r.Ok? <==> |order.value| == (if daisy then 16 else 8))
    ensures order.Some? && r.Ok? ==> r.value == order.value
    ensures r.Err? ==> r.error == "TypeError"
  {
    var n := if daisy then 16 else 8;
    if order.None? then Ok(DefaultChannels(n))
    else if |order.value| != n then Err("TypeError")
    else Ok(order.value)
  }

  /** Micro-volts per count: 4500000 / 24 / (2^23 - 1). */
  const MicroVoltsPerCount: real := 4500000.0 / 24.0 / 8388607.0

  /** G per count of the accelerometer: 0.002 / 2^4. */
  const GPerCount: real := 0.002 / 16.0

  /** The header: the channels, the accelerometer axes, then sample id, time stamp and trigger. */
  function Header(channels: seq<string>): (h: seq<string>)
    ensures |h| == |channels| + 6
    ensures h[..|channels|] == channels
    ensures h[|channels|..] == ["acc-x", "acc-y", "acc-z", "sample_id", "time stamp", "trigger"]
  {
    channels + ["acc-x", "acc-y", "acc-z"] + ["sample_id", "time stamp", "trigger"]
  }

  function HeaderRow(channels: seq<string>): Row
  {
    seq(|Header(channels)|, i requires 0 <= i < |Header(channels)| => Text(Header(channels)[i]))
  }

  function DeviceConfig(name: string, outputPath: string, savingMode: int, channels: seq<string>): (cfg: Config)
    ensures !cfg.dedup && !cfg.handlesSave && !cfg.clearsAfterSeparatedStop && !cfg.watchesStream
    ensures cfg.header == Some(HeaderRow(channels)) && !cfg.triggerColumn
    ensures cfg.name == name && cfg.outputPath == PathJoin(outputPath, "eeg") && cfg.savingMode == savingMode
  {
    Config(name, PathJoin(outputPath, "eeg"), savingMode, false, false, false, false, Some(HeaderRow(channels)), false)
  }

  /** The constructor's default saving mode. */
  const DefaultSavingMode: int := CONTINUOUS

  /** The constructor sets `_experiment_id` to None. */
  const InitialExperimentId: Option<Value> := Some(VNone)

  /** The sampling rate the device reports, whatever the board. */
  const SamplingRate: int := 128

  /** `_get_realtime_data`: the latest `duration * 128` rows, the reported rate and the channel names. */
  function RealtimeData(buffer: seq<Row>, duration: int, channels: seq<string>): (r: (seq<Row>, int, seq<string>))
    ensures r.1 == SamplingRate && r.2 == channels
    ensures duration > 0 ==>
      var n := if duration * SamplingRate < |buffer| then duration * SamplingRate else |buffer|;
      r.0 == buffer[|buffer| - n..]
    ensures duration == 0 ==> r.0 == buffer
  {
    if duration > 0 then LatestRowsAreTheNewest(buffer, duration, SamplingRate); (LatestRows(buffer, duration, SamplingRate), SamplingRate, channels)
    else (LatestRows(buffer, duration, SamplingRate), SamplingRate, channels)
  }

  /** `_stream_callback`: scaled channel counts, scaled auxiliary counts, the sample id and the time of day. */
  function SampleRow(channelCounts: seq<int>, auxCounts: seq<int>, id: int, time: string): (row: Row)
    ensures |row| == |channelCounts| + |auxCounts| + 2
    ensures forall i :: 0 <= i < |channelCounts| ==> row[i] == Real((channelCounts[i] as real) * MicroVoltsPerCount)
    ensures forall i :: 0 <= i < |auxCounts| ==> row[|channelCounts| + i] == Real((auxCounts[i] as real) * GPerCount)
    ensures row[|row| - 2..] == [Num(id), Text(time)]
  {
    seq(|channelCounts|, i requires 0 <= i < |channelCounts| => Real((channelCounts[i] as real) * MicroVoltsPerCount)) +
    seq(|auxCounts|, i requires 0 <= i < |auxCounts| => Real((auxCounts[i] as real) * GPerCount)) +
    [Num(id), Text(time)]
  }

  /**
   * With three auxiliary values a row lines up with the header: "time stamp"
   * and the time, and "trigger" and the trigger when one is pending; a row
   * without a trigger is one cell shorter.
   */
  lemma RowsFitHeader(name: string, outputPath: string, savingMode: int, channels: seq<string>,
                      channelCounts: seq<int>, auxCounts: seq<int>, id: int, time: string, trigger: Option<string>)
    requires |channelCounts| == |channels| && |auxCounts| == 3
    ensures var cfg := DeviceConfig(name, outputPath, savingMode, channels);
      var row := Marked(cfg, trigger, SampleRow(channelCounts, auxCounts, id, time));
      var n := |channels|;
      |row| == (if trigger.Some? then |Header(channels)| else |Header(channels)| - 1) &&
      Header(channels)[n + 4] == "time stamp" && row[n + 4] == Text(time) &&
      Header(channels)[n + 5] == "trigger" && (trigger.Some? ==> row[n + 5] == Text(trigger.value))
  {
    var row := SampleRow(channelCounts, auxCounts, id, time);
    var n := |channels|;
    assert row[n + 4] == row[|row| - 1];
    assert Header(channels)[n + 4] == Header(channels)[|channels|..][4];
    assert Header(channels)[n + 5] == Header(channels)[|channels|..][5];
  }

  /** Without de-duplication, every START sets the trigger, whether or not the device was started already. */
  lemma StartAlwaysMarks(name: string, outputPath: string, savingMode: int, channels: seq<string>, s: Snapshot, m: Message)
    requires m.msgType == VStr(START)
    ensures var cfg := DeviceConfig(name, outputPath, savingMode, channels);
      Step(cfg, s, Some(m), true) == (s.(trigger := Some(TriggerText(m)), experimentId := Some(m.experimentId)), Continue)
  {
  }

  /**
   * On a device that neither de-duplicates nor clears its buffer, a
   * separated-mode stimulus writes everything buffered so far, including the
   * samples of earlier stimuli, and leaves it all in the buffer.
   */
  lemma StimulusKeepsBuffer(cfg: Config, s: Snapshot, e: Value, k: Value, rows: seq<Row>)
    requires cfg.savingMode == SEPARATED && !cfg.dedup && !cfg.clearsAfterSeparatedStop && !cfg.triggerColumn
    requires s.running && s.trigger.None? && rows != []
    ensures var s2 := Step(cfg, SampleAll(cfg, Step(cfg, s, Some(StartMessage(e, k)), true).0, rows),
                           Some(StopMessage(e, k)), true).0;
      var b := [rows[0] + [Text(TriggerText(StartMessage(e, k)))]] + rows[1..];
      s2.buffer == s.buffer + b && s2.files == Saved(cfg, s.files, SeparatedFile(cfg, e, k), s.buffer + b) &&
      s2.running && s2.trigger.None?
  {
    var t := Step(cfg, s, Some(StartMessage(e, k)), true).0;
    assert t == s.(trigger := Some(TriggerText(StartMessage(e, k))), experimentId := Some(e));
    TriggerMarksFirstRow(cfg, t, rows);
    SamplesKeepFiles(cfg, t, rows);
  }

  /**
   * Separated mode never empties the buffer: after two stimuli the second
   * stimulus's file holds the samples of the first as well as its own.
   */
  lemma SecondFileHoldsBoth(name: string, outputPath: string, channels: seq<string>, e: Value,
                            k1: Value, k2: Value, r1: seq<Row>, r2: seq<Row>)
    requires r1 != [] && r2 != []
    requires SeparatedFile(DeviceConfig(name, outputPath, SEPARATED, channels), e, k1) !=
             SeparatedFile(DeviceConfig(name, outputPath, SEPARATED, channels), e, k2)
    ensures var cfg := DeviceConfig(name, outputPath, SEPARATED, channels);
      var s1 := Step(cfg, SampleAll(cfg, Step(cfg, Initial(InitialExperimentId), Some(StartMessage(e, k1)), true).0, r1),
                     Some(StopMessage(e, k1)), true).0;
      var s2 := Step(cfg, SampleAll(cfg, Step(cfg, s1, Some(StartMessage(e, k2)), true).0, r2),
                     Some(StopMessage(e, k2)), true).0;
      var a := [r1[0] + [Text(TriggerText(StartMessage(e, k1)))]] + r1[1..];
      var b := [r2[0] + [Text(TriggerText(StartMessage(e, k2)))]] + r2[1..];
      s2.files == map[SeparatedFile(cfg, e, k1) := [HeaderRow(channels)] + a,
                      SeparatedFile(cfg, e, k2) := [HeaderRow(channels)] + (a + b)] &&
      s2.buffer == a + b
  {
    var cfg := DeviceConfig(name, outputPath, SEPARATED, channels);
    var init := Initial(InitialExperimentId);
    StimulusKeepsBuffer(cfg, init, e, k1, r1);
    var s1 := Step(cfg, SampleAll(cfg, Step(cfg, init, Some(StartMessage(e, k1)), true).0, r1), Some(StopMessage(e, k1)), true).0;
    var a := [r1[0] + [Text(TriggerText(StartMessage(e, k1)))]] + r1[1..];
    assert [] + a == a;
    assert s1.files == map[SeparatedFile(cfg, e, k1) := [HeaderRow(channels)] + a];
    StimulusKeepsBuffer(cfg, s1, e, k2, r2);
  }
}
