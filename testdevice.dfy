// The simulated test device (octopus_sensing/devices/testdevice_streaming.py):
// it follows the common recorder protocol with de-duplicated START and STOP,
// a SAVE branch, no file header, and samples of two random integers and the
// time. The random numbers and the clock are parameters.

module TestDevice {
  import opened Common
  import opened Messages
  import opened Recording

  /** `get_channels`: the names of the three values of a sample. */
  const Channels: seq<string> := ["channel_1", "channel_2", "timestamp"]

  function DeviceConfig(name: string, outputPath: string, savingMode: int): (cfg: Config)
    ensures cfg.dedup && cfg.handlesSave && cfg.clearsAfterSeparatedStop && cfg.watchesStream
    ensures cfg.header.None? && !cfg.triggerColumn
    ensures cfg.name == name && cfg.outputPath == PathJoin(outputPath, name) && cfg.savingMode == savingMode
  {
    Config(name, PathJoin(outputPath, name), savingMode, true, true, true, true, None, false)
  }

  /** The constructor sets `_experiment_id` to None. */
  const InitialExperimentId: Option<Value> := Some(VNone)

  /** `__get_sample`: randint(0, 100), randint(0, 50) and time.time(). */
  function SampleRow(a: int, b: int, now: real): (row: Row)
    requires 0 <= a <= 100 && 0 <= b <= 50
    ensures |row| == |Channels|
  {
    [Num(a), Num(b), Real(now)]
  }

  /**
   * `_get_realtime_data`: the last duration * rate samples (all of them for a
   * zero duration) and the channel names.
   */
  function RealtimeData(buffer: seq<Row>, duration: int, samplingRate: int): (r: (seq<Row>, seq<string>))
    ensures duration > 0 && samplingRate > 0 ==>
      r.0 == buffer[|buffer| - (if duration * samplingRate < |buffer| then duration * samplingRate else |buffer|)..]
    ensures duration == 0 ==> r.0 == buffer
    ensures r.1 == ["channel_1", "channel_2", "timestamp"]
  {
    LastItems(buffer, duration * samplingRate);
    (LatestRows(buffer, duration, samplingRate), Channels)
  }

  /**
   * The scenario of the device's own test: START, samples, STOP, samples,
   * TERMINATE in continuous mode leave exactly one file,
   * `<output>/test_device/test_device-<experiment>.csv`.
   */
  lemma TestScenario(outputPath: string, e: string, k: string, before: seq<Row>, after: seq<Row>)
    requires before != [] && after != []
    ensures var last := Session(DeviceConfig("test_device", outputPath, CONTINUOUS), InitialExperimentId, VStr(e), VStr(k), before, after);
      var f := PathJoin(outputPath, "test_device") + "/" + "test_device" + "-" + e + ".csv";
      last.1 == Exit && last.0.files.Keys == {f} && |last.0.files[f]| == |before| + |after|
  {
    var cfg := DeviceConfig("test_device", outputPath, CONTINUOUS);
    ContinuousSession(cfg, InitialExperimentId, VStr(e), VStr(k), before, after);
    assert Str(VStr(e)) == e;
  }
}
