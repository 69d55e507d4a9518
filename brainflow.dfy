// The generic BrainFlow board (octopus_sensing/devices/brainflow_streaming.py):
// the common recorder protocol with de-duplicated START and STOP, a SAVE
// branch and no header; the board hands over batches of samples as one row
// per channel, which are transposed into one record per sample.

module BrainFlow {
  import opened Common
  import opened Messages
  import opened Recording

  function DeviceConfig(name: string, outputPath: string, savingMode: int): (cfg: Config)
    ensures cfg.dedup && cfg.handlesSave && cfg.clearsAfterSeparatedStop && cfg.watchesStream
    ensures cfg.header.None? && !cfg.triggerColumn
    ensures cfg.name == name && cfg.outputPath == PathJoin(outputPath, name) && cfg.savingMode == savingMode
  {
    Config(name, PathJoin(outputPath, name), savingMode, true, true, true, true, None, false)
  }

  /** The constructor sets `_experiment_id` to None. */
  const InitialExperimentId: Option<Value> := Some(VNone)

  /** A board batch: one row per channel, all of the same length. */
  predicate Rectangular(data: seq<seq<Cell>>)
  {
    data != [] && forall i :: 0 <= i < |data| ==> |data[i]| == |data[0]|
  }

  /** `np.transpose(data)`: one record per sample, holding that sample's value on every channel. */
  function Transpose(data: seq<seq<Cell>>): (records: seq<Row>)
    requires Rectangular(data)
    ensures |records| == |data[0]|
    ensures forall j :: 0 <= j < |records| ==> |records[j]| == |data|
    ensures forall j, i :: 0 <= j < |records| && 0 <= i < |data| ==> records[j][i] == data[i][j]
  {
    seq(|data[0]|, j requires 0 <= j < |data[0]| => seq(|data|, i requires 0 <= i < |data| => data[i][j]))
  }

  /** Transposing twice gives the batch back. */
  lemma TransposeTwice(data: seq<seq<Cell>>)
    requires Rectangular(data) && |data[0]| > 0
    ensures Rectangular(Transpose(data)) && Transpose(Transpose(data)) == data
  {
    var t := Transpose(data);
    var tt := Transpose(t);
    assert |tt| == |data|;
    forall i | 0 <= i < |data|
      ensures tt[i] == data[i]
    {
      assert |tt[i]| == |data[i]|;
    }
  }

  /**
   * A batch as `_stream_loop` buffers it: every record in order, the last one
   * extended with the time of day, the unix time and the pending trigger; an
   * empty batch changes nothing.
   */
  lemma BatchRecorded(cfg: Config, s: Snapshot, records: seq<Row>, stamp: Row)
    requires !cfg.triggerColumn
    ensures records == [] || !s.running ==> SampleBatch(cfg, s, records, stamp) == s
    ensures s.running && records != [] ==>
      var t := SampleBatch(cfg, s, records, stamp);
      var n := |records|;
      |t.buffer| == |s.buffer| + n && t.trigger.None? &&
      t.buffer[..|s.buffer| + n - 1] == s.buffer + records[..n - 1] &&
      t.buffer[|s.buffer| + n - 1] == records[n - 1] + stamp + (if s.trigger.Some? then [Text(s.trigger.value)] else []) &&
      t.files == s.files && t.phase == s.phase && t.experimentId == s.experimentId
  {
    if s.running && records != [] {
      var n := |records|;
      var t := SampleBatch(cfg, s, records, stamp);
      assert t.buffer == (s.buffer + records[..n - 1]) + [Marked(cfg, s.trigger, records[n - 1] + stamp)];
    }
  }

  /** One pass of `_stream_loop` with the batch the board returned. */
  method StreamBatch(rec: Recorder, data: seq<seq<Cell>>, timeOfDay: string, unixTime: real)
    requires Rectangular(data)
    modifies rec
    ensures rec.Snap() == SampleBatch(rec.cfg, old(rec.Snap()), Transpose(data), [Text(timeOfDay), Real(unixTime)])
  {
    rec.RecordBatch(Transpose(data), [Text(timeOfDay), Real(unixTime)]);
  }

  /**
   * `_get_realtime_data` asks `get_channels`, which raises
   * NotImplementedError, so realtime data is never available.
   */
  function RealtimeData(buffer: seq<Row>, duration: int, samplingRate: int): (r: Result<(seq<Row>, seq<string>)>)
    ensures r == Err("NotImplementedError")
  {
    Err("NotImplementedError")
  }

  /**
   * The rows a batch leaves in the buffer when `trigger` is pending: every
   * record in order, the last one extended with the stamp and the trigger.
   */
  function Stamped(records: seq<Row>, stamp: Row, trigger: string): seq<Row>
  {
    if records == [] then []
    else records[..|records| - 1] + [records[|records| - 1] + stamp + [Text(trigger)]]
  }

  /**
   * The scenario of the board's own test in continuous mode: START, a batch,
   * STOP, a batch, TERMINATE leaves one file, `<name>-<experiment>.csv`,
   * holding every record of both batches in order: the last record of the
   * first batch carries the START trigger, the last of the second the STOP
   * trigger (a START trigger left pending by an empty first batch is
   * replaced by the STOP trigger).
   */
  lemma BatchSession(name: string, outputPath: string, e: Value, k: Value, b1: seq<Row>, b2: seq<Row>, stamp: Row)
    ensures var cfg := DeviceConfig(name, outputPath, CONTINUOUS);
      var s0 := Step(cfg, Initial(InitialExperimentId), Some(StartMessage(e, k)), true).0;
      var s1 := SampleBatch(cfg, s0, b1, stamp);
      var s2 := Step(cfg, s1, Some(StopMessage(e, k)), true).0;
      var s3 := SampleBatch(cfg, s2, b2, stamp);
      var last := Step(cfg, s3, Some(TerminateMessage()), true);
      last.1 == Exit && last.0.files.Keys == {ContinuousFile(cfg, e)} &&
      |last.0.files[ContinuousFile(cfg, e)]| == |b1| + |b2| &&
      last.0.files[ContinuousFile(cfg, e)] ==
        Stamped(b1, stamp, TriggerText(StartMessage(e, k))) + Stamped(b2, stamp, TriggerText(StopMessage(e, k)))
  {
    var cfg := DeviceConfig(name, outputPath, CONTINUOUS);
    var ts, tp := TriggerText(StartMessage(e, k)), TriggerText(StopMessage(e, k));
    var s0 := Step(cfg, Initial(InitialExperimentId), Some(StartMessage(e, k)), true).0;
    assert s0.trigger == Some(ts) && s0.buffer == [] && s0.running && s0.phase == Started;
    BatchRecorded(cfg, s0, b1, stamp);
    var s1 := SampleBatch(cfg, s0, b1, stamp);
    assert s1.buffer == Stamped(b1, stamp, ts);
    assert s1.files == map[] && s1.running;
    var s2 := Step(cfg, s1, Some(StopMessage(e, k)), true).0;
    assert s2.files == map[] && s2.running && s2.buffer == s1.buffer && s2.experimentId == Some(e);
    assert s2.trigger == Some(tp);
    BatchRecorded(cfg, s2, b2, stamp);
    var s3 := SampleBatch(cfg, s2, b2, stamp);
    assert s3.buffer == Stamped(b1, stamp, ts) + Stamped(b2, stamp, tp);
    assert s3.files == map[] && |s3.buffer| == |b1| + |b2| && s3.experimentId == Some(e);
  }
}
