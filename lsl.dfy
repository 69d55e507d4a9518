// The Lab Streaming Layer recorder (octopus_sensing/devices/lsl_streaming.py):
// the common recorder protocol with de-duplicated START and STOP and a SAVE
// branch; unlike the other devices its message loop does not watch the
// streaming thread, and a new file gets no header.

module Lsl {
  import opened Common
  import opened Messages
  import opened Recording

  function DeviceConfig(name: string, outputPath: string, savingMode: int): (cfg: Config)
    ensures cfg.dedup && cfg.handlesSave && cfg.clearsAfterSeparatedStop && !cfg.watchesStream
    ensures cfg.header.None? && !cfg.triggerColumn
    ensures cfg.name == name && cfg.outputPath == PathJoin(outputPath, name) && cfg.savingMode == savingMode
  {
    Config(name, PathJoin(outputPath, name), savingMode, true, true, true, false, None, false)
  }

  /** The constructor sets `_experiment_id` to None. */
  const InitialExperimentId: Option<Value> := Some(VNone)

  /**
   * The stream `_stream_loop` reads from: the first one resolved by the
   * property lookup; none at all (or a None result) raises RuntimeError.
   */
  function Resolve<S>(streams: Option<seq<S>>): (r: Result<S>)
    ensures r.Ok? <==> streams.Some? && |streams.value| > 0
    ensures r.Ok? ==> r.value == streams.value[0]
    ensures r.Err? ==> r.error == "RuntimeError"
  {
    if streams.None? || |streams.value| == 0 then Err("RuntimeError") else Ok(streams.value[0])
  }

  /** A pulled sample is stored with its LSL time stamp after its channel values. */
  function SampleRow(sample: Row, timestamp: real): (row: Row)
    ensures |row| == |sample| + 1 && row[..|sample|] == sample && row[|sample|] == Real(timestamp)
  {
    sample + [Real(timestamp)]
  }

  /** One pass of `_stream_loop`: a pull that timed out (None) records nothing. */
  method Pull(rec: Recorder, sample: Option<Row>, timestamp: real)
    modifies rec
    ensures sample.None? ==> rec.Snap() == old(rec.Snap())
    ensures sample.Some? ==> rec.Snap() == Sample(rec.cfg, old(rec.Snap()), SampleRow(sample.value, timestamp))
  {
    if sample.Some? {
      rec.Record(SampleRow(sample.value, timestamp));
    }
  }

  /** `_get_realtime_data`: the last duration * rate samples and the configured channels. */
  function RealtimeData(buffer: seq<Row>, duration: int, samplingRate: int, channels: Option<seq<string>>): (r: (seq<Row>, Option<seq<string>>))
    ensures duration > 0 && samplingRate > 0 ==>
      r.0 == buffer[|buffer| - (if duration * samplingRate < |buffer| then duration * samplingRate else |buffer|)..]
    ensures duration == 0 ==> r.0 == buffer
    ensures r.1 == channels
  {
    LastItems(buffer, duration * samplingRate);
    (LatestRows(buffer, duration, samplingRate), channels)
  }

  /**
   * The SAVE test: a first SAVE writes the buffer to `<name>-<experiment>.csv`
   * and empties it; samples recorded afterwards go, with the next SAVE, to the
   * end of that same file, which stays the only one.
   */
  lemma SaveTwice(name: string, outputPath: string, s: Snapshot, e: Value, later: seq<Row>)
    requires s.running && s.trigger.None? && s.files == map[]
    ensures var cfg := DeviceConfig(name, outputPath, CONTINUOUS);
      var s1 := Step(cfg, s, Some(SaveMessage(e)), true).0;
      var s2 := SampleAll(cfg, s1, later);
      var s3 := Step(cfg, s2, Some(SaveMessage(e)), true).0;
      s1.files == map[ContinuousFile(cfg, e) := s.buffer] && s1.buffer == [] &&
      s3.files == map[ContinuousFile(cfg, e) := s.buffer + later] && s3.buffer == []
  {
    var cfg := DeviceConfig(name, outputPath, CONTINUOUS);
    var s1 := Step(cfg, s, Some(SaveMessage(e)), true).0;
    var f := ContinuousFile(cfg, e);
    assert s1.files == map[f := [] + s.buffer];
    assert [] + s.buffer == s.buffer;
    PlainRows(cfg, s1, later);
    var s2 := SampleAll(cfg, s1, later);
    assert s2.buffer == later && s2.files == s1.files;
  }
}
